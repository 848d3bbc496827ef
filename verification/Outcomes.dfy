/** When each call succeeds and what it leaves behind, in terms of the rows a caller can see. */
module Outcomes {
  import opened Tables
  import opened Operations
  import opened Invariant
  import Fx
  import LateWrites

  /** The status graph. */
  lemma TransitionsExactly(from: Status, to: Status)
    ensures ValidTransition(from, to)
            <==> (from, to) in {(Initiated, Processing), (Initiated, Failed), (Processing, Completed),
                                (Processing, Failed),
                                (Failed, Reversed), (Completed, Reversed), (Completed, Disputed),
                                (Disputed, Reversed), (Disputed, Completed)}
  {}

  /** One row changes its status, with one line of history; the ledger grows by some entries. */
  predicate Moved(s: Db, s': Db, t: TxnId, from: Status, to: Status, es: seq<Entry>)
    requires t < |s.transactions|
  {
    && s'.limits == s.limits
    && s'.transactions == s.transactions[t := s.transactions[t].(status := to)]
    && s'.history == s.history + [HistoryRow(t, Some(from), to)]
    && s'.ledger == s.ledger + es
  }

  /** Two accounts gain or lose, the others stay as they are. */
  predicate Paid(before: map<AccountId, Account>, after: map<AccountId, Account>, a: AccountId, x: int, b: AccountId,
                 y: int) {
    && after.Keys == before.Keys
    && forall c | c in before ::
         after[c] == before[c].(balance := before[c].balance + (if c == a then x else if c == b then y else 0))
  }

  lemma NothingPaid(s: Db, a: AccountId, b: AccountId)
    ensures Post(s.accounts, []) == s.accounts && Paid(s.accounts, s.accounts, a, 0, b, 0)
  {
    PostNothing(s.accounts);
  }

  lemma OnePaid(s: Db, e: Entry, b: AccountId)
    requires b != e.account
    ensures Paid(s.accounts, Post(s.accounts, [e]), e.account, e.amount, b, 0)
  {
    forall a { SumOne(e, a); }
  }

  lemma TwoPaid(s: Db, d: Entry, e: Entry)
    requires d.account != e.account
    ensures Paid(s.accounts, Post(s.accounts, [d, e]), d.account, d.amount, e.account, e.amount)
  {
    forall a { SumTwo(d, e, a); }
  }

  // ----- Creating a payment -----

  /** Whether a row weighs on its sender's limits since midnight. */
  predicate SinceMidnight(x: Transaction, sender: AccountId, now: nat) {
    && x.sender == sender && x.createdAt >= now / 86_400_000 * 86_400_000
    && x.status in {Initiated, Processing, Completed}
  }

  /** The rows that weigh. */
  function Weighing(txns: seq<Transaction>, sender: AccountId, now: nat): set<TxnId> {
    set t: TxnId | t < |txns| && SinceMidnight(txns[t], sender, now)
  }

  lemma {:induction false} CountIsCardinality(txns: seq<Transaction>, sender: AccountId, now: nat)
    ensures CountSince(txns, sender, StartOfDay(now)) == |Weighing(txns, sender, now)|
  {
    if txns != [] {
      var last := |txns| - 1;
      CountIsCardinality(txns[..last], sender, now);
      assert Weighing(txns, sender, now)
             == Weighing(txns[..last], sender, now) + if SinceMidnight(txns[last], sender, now) then {last} else {};
    }
  }

  /** The amounts of the rows that weigh, and nothing for the others. */
  function Weights(txns: seq<Transaction>, sender: AccountId, now: nat): seq<nat> {
    seq(|txns|, k requires 0 <= k < |txns| => if SinceMidnight(txns[k], sender, now) then txns[k].sourceAmount else 0)
  }

  lemma {:induction false} TotalPush(amounts: seq<nat>, amount: nat)
    ensures Fx.Total(amounts + [amount]) == Fx.Total(amounts) + amount
  {
    if amounts == [] {
      assert amounts + [amount] == [amount];
    } else {
      assert (amounts + [amount])[1..] == amounts[1..] + [amount];
      TotalPush(amounts[1..], amount);
    }
  }

  lemma {:induction false} VolumeIsTotal(txns: seq<Transaction>, sender: AccountId, now: nat)
    ensures VolumeSince(txns, sender, StartOfDay(now)) == Fx.Total(Weights(txns, sender, now))
  {
    if txns != [] {
      var last := |txns| - 1;
      VolumeIsTotal(txns[..last], sender, now);
      TotalPush(Weights(txns[..last], sender, now), Weights(txns, sender, now)[last]);
      assert Weights(txns, sender, now) == Weights(txns[..last], sender, now) + [Weights(txns, sender, now)[last]];
    }
  }

  /** A payment is created if and only if the amount is positive and within the limit for one payment, the parties are
      two known accounts in the stated currencies, nobody else holds the sender's row, both limits since midnight
      leave room, the pair is supported, the quote is still good and the sender can pay. */
  lemma CreateSucceedsExactly(s: Db, r: Request)
    ensures Create(s, r).1 == Ok
            <==> && 0 < r.amount <= s.limits.maxPerTransaction
                 && r.sender != r.recipient && r.sender in s.accounts && r.recipient in s.accounts
                 && s.accounts[r.sender].currency == r.sourceCurrency
                 && s.accounts[r.recipient].currency == r.destinationCurrency
                 && !r.accountBusy
                 && |Weighing(s.transactions, r.sender, r.now)| < s.limits.maxCountPerDay
                 && Fx.Total(Weights(s.transactions, r.sender, r.now)) + r.amount <= s.limits.maxVolumePerDay
                 && Fx.Rate(r.sourceCurrency, r.destinationCurrency).Some?
                 && !r.quoteExpired
                 && s.accounts[r.sender].balance >= r.amount
    ensures Create(s, r).1 != Ok ==> Create(s, r).0 == s
  {
    CountIsCardinality(s.transactions, r.sender, r.now);
    VolumeIsTotal(s.transactions, r.sender, r.now);
  }

  /** What a request lacks, by fault. */
  predicate Lacks(s: Db, r: Request, fault: Fault) {
    match fault
    case BadRequest => r.amount <= 0 || r.sender == r.recipient
    case Busy => r.accountBusy
    case NotFound => r.sender !in s.accounts || r.recipient !in s.accounts
    case CurrencyMismatch =>
      || (r.sender in s.accounts && s.accounts[r.sender].currency != r.sourceCurrency)
      || (r.recipient in s.accounts && s.accounts[r.recipient].currency != r.destinationCurrency)
    case AmountTooLarge => r.amount > s.limits.maxPerTransaction
    case DailyCountReached => |Weighing(s.transactions, r.sender, r.now)| >= s.limits.maxCountPerDay
    case DailyVolumeExceeded =>
      Fx.Total(Weights(s.transactions, r.sender, r.now)) + r.amount > s.limits.maxVolumePerDay
    case UnsupportedPair => Fx.Rate(r.sourceCurrency, r.destinationCurrency) == None
    case QuoteExpired => r.quoteExpired
    case InsufficientBalance => r.sender in s.accounts && s.accounts[r.sender].balance < r.amount
    case _ => false
  }

  /** A refused request is told something it lacks, so with one thing lacking just that; a malformed or busy one is
      told so first, and the balance is looked at last. */
  lemma CreateFaults(s: Db, r: Request, fault: Fault)
    ensures Create(s, r).1 == Err(fault) ==> Lacks(s, r, fault)
    ensures Lacks(s, r, fault) ==> Create(s, r).1.Err?
    ensures Lacks(s, r, BadRequest) ==> Create(s, r).1 == Err(BadRequest)
    ensures Lacks(s, r, Busy) && !Lacks(s, r, BadRequest) ==> Create(s, r).1 == Err(Busy)
    ensures Create(s, r).1 == Err(InsufficientBalance) && Lacks(s, r, fault) ==> fault == InsufficientBalance
  {
    CountIsCardinality(s.transactions, r.sender, r.now);
    VolumeIsTotal(s.transactions, r.sender, r.now);
  }

  /** A created payment is the next row, PROCESSING, with its funds taken from the sender and nobody else touched. */
  lemma CreateLeaves(s: Db, r: Request)
    requires Create(s, r).1 == Ok
    ensures var s' := Create(s, r).0;
            var t := |s.transactions|;
            && |s'.transactions| == t + 1 && s'.transactions[..t] == s.transactions
            && s'.transactions[t]
               == Transaction(r.sender, r.recipient, r.sourceCurrency, r.destinationCurrency, r.amount,
                              s'.transactions[t].destinationAmount, s'.transactions[t].rate, Processing, None, r.now)
            && Fx.Rate(r.sourceCurrency, r.destinationCurrency) == Some(s'.transactions[t].rate)
            && -(Fx.SCALE / 2) < s'.transactions[t].destinationAmount * Fx.SCALE - r.amount * s'.transactions[t].rate
               <= Fx.SCALE / 2
            && s'.history == s.history + [HistoryRow(t, None, Initiated), HistoryRow(t, Some(Initiated), Processing)]
            && s'.ledger == s.ledger + [Entry(t, r.sender, -r.amount, Debit, false)]
            && Paid(s.accounts, s'.accounts, r.sender, -r.amount, r.recipient, 0)
            && s'.events == s.events && s'.limits == s.limits
  {
    var s' := Create(s, r).0;
    var x := s'.transactions[|s.transactions|];
    Fx.ConvertIsNearest(x.sourceAmount, x.rate);
    OnePaid(s, Hold(|s.transactions|, x), r.recipient);
  }

  // ----- Refunds and disputes -----

  /** What taking a payout back and returning the funds leaves. */
  ghost predicate ChargedBack(s: Db, s': Db, t: TxnId)
    requires t < |s.transactions|
  {
    var x := s.transactions[t];
    && Moved(s, s', t, x.status, Reversed,
             [Entry(t, x.recipient, -(x.destinationAmount as int), Debit, false),
              Entry(t, x.sender, x.sourceAmount, Credit, false)])
    && Paid(s.accounts, s'.accounts, x.recipient, -(x.destinationAmount as int), x.sender, x.sourceAmount)
    && s'.events == s.events
  }

  /** What returning the held funds alone leaves. */
  ghost predicate Returned(s: Db, s': Db, t: TxnId, to: Status)
    requires t < |s.transactions|
  {
    var x := s.transactions[t];
    && Moved(s, s', t, x.status, to, [Entry(t, x.sender, x.sourceAmount, Credit, true)])
    && Paid(s.accounts, s'.accounts, x.sender, x.sourceAmount, x.recipient, 0)
    && s'.events == s.events
  }

  /** What a mere change of status leaves. */
  ghost predicate Renamed(s: Db, s': Db, t: TxnId, from: Status, to: Status)
    requires t < |s.transactions|
  {
    Moved(s, s', t, from, to, []) && s'.accounts == s.accounts && s'.events == s.events
  }

  predicate CanPayBack(s: Db, x: Transaction) {
    x.recipient in s.accounts && s.accounts[x.recipient].balance >= x.destinationAmount
  }

  lemma MoveRenames(s: Db, t: TxnId, from: Status, to: Status)
    requires t < |s.transactions|
    ensures Renamed(s, Move(s, t, [], from, to), t, from, to)
  {
    AppendNothing(s);
  }

  lemma MoveReturns(s: Db, t: TxnId, to: Status)
    requires t < |s.transactions| && s.transactions[t].sender != s.transactions[t].recipient
    ensures Returned(s, Move(s, t, [Return(t, s.transactions[t])], s.transactions[t].status, to), t, to)
  {
    OnePaid(s, Return(t, s.transactions[t]), s.transactions[t].recipient);
  }

  lemma MoveChargesBack(s: Db, t: TxnId)
    requires t < |s.transactions| && s.transactions[t].sender != s.transactions[t].recipient
    ensures ChargedBack(s, Move(s, t, Chargeback(t, s.transactions[t]), s.transactions[t].status, Reversed), t)
  {
    var es := Chargeback(t, s.transactions[t]);
    TwoPaid(s, es[0], es[1]);
  }

  /** A reversal of a FAILED payment moves no money; of a paid-out one it takes the payout back, if the recipient has
      it. */
  lemma ChargeBackLeaves(s: Db, open: map<AccountId, int>, t: TxnId)
    requires Sound(s, open) && t < |s.transactions|
    requires s.transactions[t].status in {Failed, Completed, Disputed}
    ensures var (s', reply) := ChargeBack(s, t);
            var x := s.transactions[t];
            if x.status == Failed then reply == Ok && Renamed(s, s', t, Failed, Reversed)
            else if CanPayBack(s, x) then reply == Ok && ChargedBack(s, s', t)
            else s' == s && reply == Err(InsufficientBalance)
  {
    var x := s.transactions[t];
    assert Parties(x, s.accounts);
    if x.status == Failed {
      FailedIsReversed(s, t);
      MoveRenames(s, t, Failed, Reversed);
    } else {
      HeldCompensation(s, t);
      MoveChargesBack(s, t);
    }
  }

  /** A refund succeeds exactly for a FAILED or DISPUTED payment and for a COMPLETED one whose recipient can pay
      back. */
  lemma RefundExactly(s: Db, open: map<AccountId, int>, t: TxnId)
    requires Sound(s, open)
    ensures var (s', reply) := Refund(s, t);
            if t >= |s.transactions| then s' == s && reply == Err(NotFound)
            else
              var x := s.transactions[t];
              match x.status
              case Failed => reply == Ok && Renamed(s, s', t, Failed, Reversed)
              case Disputed => reply == Ok && Returned(s, s', t, Reversed)
              case Completed =>
                if CanPayBack(s, x) then reply == Ok && ChargedBack(s, s', t)
                else s' == s && reply == Err(InsufficientBalance)
              case _ => s' == s && reply == Err(InvalidTransition)
  {
    if t < |s.transactions| {
      var x := s.transactions[t];
      assert Parties(x, s.accounts);
      match x.status
      case Failed =>
        FailedIsReversed(s, t);
        MoveRenames(s, t, Failed, Reversed);
      case Disputed =>
        HeldCompensation(s, t);
        MoveReturns(s, t, Reversed);
      case Completed => ChargeBackLeaves(s, open, t);
      case _ =>
    }
  }

  /** A dispute can be raised exactly for a COMPLETED payment, and moves no money. */
  lemma RaiseExactly(s: Db, t: TxnId)
    ensures var (s', reply) := RaiseDispute(s, t);
            if t >= |s.transactions| then s' == s && reply == Err(NotFound)
            else if s.transactions[t].status == Completed then reply == Ok && Renamed(s, s', t, Completed, Disputed)
            else s' == s && reply == Err(InvalidTransition)
  {
    if t < |s.transactions| {
      MoveRenames(s, t, Completed, Disputed);
    }
  }

  /** A dispute is reversed like a chargeback, from FAILED and COMPLETED too; a rejection completes a PROCESSING or
      DISPUTED payment without moving money. */
  lemma ResolveExactly(s: Db, open: map<AccountId, int>, t: TxnId, action: Action)
    requires Sound(s, open)
    ensures var (s', reply) := ResolveDispute(s, t, action);
            if t >= |s.transactions| then s' == s && reply == Err(NotFound)
            else
              var x := s.transactions[t];
              if action == Reject then
                if x.status in {Processing, Disputed} then reply == Ok && Renamed(s, s', t, Disputed, Completed)
                else s' == s && reply == Err(InvalidTransition)
              else if x.status == Failed then reply == Ok && Renamed(s, s', t, Failed, Reversed)
              else if x.status in {Completed, Disputed} then
                if CanPayBack(s, x) then reply == Ok && ChargedBack(s, s', t)
                else s' == s && reply == Err(InsufficientBalance)
              else s' == s && reply == Err(InvalidTransition)
  {
    if t < |s.transactions| {
      MoveRenames(s, t, Disputed, Completed);
      if s.transactions[t].status in {Failed, Completed, Disputed} {
        ChargeBackLeaves(s, open, t);
      }
    }
  }

  // ----- The queue -----

  /** A dead letter fails exactly a PROCESSING payment and gives the sender the funds back. */
  lemma DeadLetterExactly(s: Db, open: map<AccountId, int>, t: TxnId)
    requires Sound(s, open)
    ensures var (s', reply) := DeadLetter(s, t);
            if t < |s.transactions| && s.transactions[t].status == Processing then
              reply == Ok && Returned(s, s', t, Failed)
            else s' == s && reply == Ignored
  {
    if t < |s.transactions| && s.transactions[t].status == Processing {
      assert Parties(s.transactions[t], s.accounts);
      HeldCompensation(s, t);
      MoveReturns(s, t, Failed);
    }
  }

  /** The provider's reference changes one row, and in it the reference only. */
  lemma ReferenceLeaves(s: Db, t: TxnId, ref: Ref)
    ensures var s' := AssignReference(s, t, ref).0;
            && s' == s.(transactions := s'.transactions) && |s'.transactions| == |s.transactions|
            && forall k | 0 <= k < |s.transactions| ::
                 s'.transactions[k] == if k == t then s.transactions[k].(reference := Some(ref)) else s.transactions[k]
  {}

  // ----- Webhooks -----

  /** What is left beside one event row. */
  predicate OnlyNoted(s: Db, s': Db, key: EventKey, row: EventRow) {
    s' == s.(events := s.events[key := row])
  }

  /** A delivery that cannot settle leaves at most its event row, which says why. */
  lemma UnsettledLeaves(s: Db, key: EventKey, signatureValid: bool)
    ensures key in s.events ==> ProcessWebhook(s, key, signatureValid) == (s, Ignored)
    ensures key !in s.events && !signatureValid ==>
              && ProcessWebhook(s, key, signatureValid).1 == Ignored
              && OnlyNoted(s, ProcessWebhook(s, key, signatureValid).0, key, EventRow(false, false, Some(BadSignature)))
    ensures key !in s.events && signatureValid &&
            (forall x | x in s.transactions :: x.reference != Some(key.reference)) ==>
              && ProcessWebhook(s, key, signatureValid).1 == Ignored
              && OnlyNoted(s, ProcessWebhook(s, key, signatureValid).0, key,
                           EventRow(true, false, Some(UnknownReference)))
  {}

  lemma CompletionLeaves(s: Db, key: EventKey, t: TxnId)
    requires Shapes(s) && key !in s.events && FindByReference(s.transactions, key.reference) == Some(t)
    requires key.kind == CompletedEvent && s.transactions[t].status == Processing
    requires Parties(s.transactions[t], s.accounts)
    ensures var (s', reply) := ProcessWebhook(s, key, true);
            var x := s.transactions[t];
            && reply == Ok && s'.events == s.events[key := EventRow(true, true, None)]
            && Moved(s, s', t, Processing, Completed, [Entry(t, x.recipient, x.destinationAmount, Credit, false)])
            && Paid(s.accounts, s'.accounts, x.recipient, x.destinationAmount, x.sender, 0)
  {
    OnePaid(s, Payout(t, s.transactions[t]), s.transactions[t].sender);
  }

  lemma FailureLeaves(s: Db, key: EventKey, t: TxnId)
    requires Shapes(s) && key !in s.events && FindByReference(s.transactions, key.reference) == Some(t)
    requires key.kind == FailedEvent && s.transactions[t].status == Processing && Parties(s.transactions[t], s.accounts)
    ensures var (s', reply) := ProcessWebhook(s, key, true);
            var x := s.transactions[t];
            && reply == Ok && s'.events == s.events[key := EventRow(true, true, None)]
            && Moved(s, s', t, Processing, Failed, [Entry(t, x.sender, x.sourceAmount, Credit, true)])
            && Paid(s.accounts, s'.accounts, x.sender, x.sourceAmount, x.recipient, 0)
  {
    HeldCompensation(s, t);
    OnePaid(s, Return(t, s.transactions[t]), s.transactions[t].recipient);
  }

  lemma RefusedLeaves(s: Db, open: map<AccountId, int>, key: EventKey, t: TxnId)
    requires Consistent(s, open) && key !in s.events && FindByReference(s.transactions, key.reference) == Some(t)
    requires s.transactions[t].status != Processing || key.kind == ProcessingEvent
    ensures var (s', reply) := ProcessWebhook(s, key, true);
            reply == Err(InvalidTransition) && OnlyNoted(s, s', key, EventRow(true, false, Some(InvalidTransition)))
  {
    assert Settled(s.transactions[t], s.events) && LedgerShape(t, s.transactions[t], Of(s.ledger, t));
  }

  /** A signed delivery for a known reference, not seen before, settles exactly a PROCESSING payment, and only as
      completed or failed: a completion pays the recipient, a failure returns the funds to the sender. */
  lemma SignedDeliveryExactly(s: Db, open: map<AccountId, int>, key: EventKey, t: TxnId)
    requires Consistent(s, open) && key !in s.events && FindByReference(s.transactions, key.reference) == Some(t)
    ensures var (s', reply) := ProcessWebhook(s, key, true);
            var x := s.transactions[t];
            if x.status == Processing && key.kind == CompletedEvent then
              && reply == Ok && s'.events == s.events[key := EventRow(true, true, None)]
              && Moved(s, s', t, Processing, Completed, [Entry(t, x.recipient, x.destinationAmount, Credit, false)])
              && Paid(s.accounts, s'.accounts, x.recipient, x.destinationAmount, x.sender, 0)
            else if x.status == Processing && key.kind == FailedEvent then
              && reply == Ok && s'.events == s.events[key := EventRow(true, true, None)]
              && Moved(s, s', t, Processing, Failed, [Entry(t, x.sender, x.sourceAmount, Credit, true)])
              && Paid(s.accounts, s'.accounts, x.sender, x.sourceAmount, x.recipient, 0)
            else
              reply == Err(InvalidTransition) && OnlyNoted(s, s', key, EventRow(true, false, Some(InvalidTransition)))
  {
    assert Parties(s.transactions[t], s.accounts);
    if s.transactions[t].status != Processing || key.kind == ProcessingEvent {
      RefusedLeaves(s, open, key, t);
    } else if key.kind == CompletedEvent {
      CompletionLeaves(s, key, t);
    } else {
      FailureLeaves(s, key, t);
    }
  }

  /** So a signed failure fails a PROCESSING payment if and only if its reference selects it and the pair is not
      taken. */
  lemma SignedFailureSettlesExactly(s: Db, open: map<AccountId, int>, ref: Ref, t: TxnId)
    requires Consistent(s, open) && t < |s.transactions| && s.transactions[t].status == Processing
    ensures var key := EventKey(ref, FailedEvent);
            ProcessWebhook(s, key, true).0.transactions[t].status == Failed
            <==> key !in s.events && FindByReference(s.transactions, ref) == Some(t)
  {
    var key := EventKey(ref, FailedEvent);
    var found := FindByReference(s.transactions, ref);
    if key !in s.events && found.Some? {
      SignedDeliveryExactly(s, open, key, found.value);
    }
  }

  // ----- The steps of a run -----

  /** The steps of a run are these calls, and a delivery's two steps, with nothing in between, are the delivery. */
  lemma StepsAreCalls(s: Db, op: Op)
    requires Enabled(s, op)
    ensures match op
            case CreateOp(r) => Exec(s, op) == Create(s, r)
            case RefundOp(t) => Exec(s, op) == Refund(s, t)
            case DisputeOp(t) => Exec(s, op) == RaiseDispute(s, t)
            case ResolveOp(t, action) => Exec(s, op) == ResolveDispute(s, t, action)
            case DeadLetterOp(t) => Exec(s, op) == DeadLetter(s, t)
            case AssignReferenceOp(t, ref) => Exec(s, op) == AssignReference(s, t, ref)
            case RecordErrorOp(key, fault) => OnlyNoted(s, Step(s, op), key, s.events[key].(error := Some(fault)))
            case SettleOp(key) =>
              Exec(s, op) == Settle(s, key)
            case ReceiveOp(key, signatureValid) =>
              if key !in s.events && signatureValid then
                && Enabled(Step(s, op), SettleOp(key))
                && Exec(Step(s, op), SettleOp(key)) == ProcessWebhook(s, key, true)
              else Exec(s, op) == ProcessWebhook(s, key, signatureValid)
  {}

  // ----- Late writes -----

  /** A late write does what it was decided to do when the payment was looked at, whatever has become of it. */
  lemma LateWriteLeaves(s: Db, e: LateWrites.Event)
    requires !e.Call? && LateWrites.Possible(s, e)
    ensures var s' := LateWrites.After(s, e);
            match e
            case DisputeWrite(t) => Renamed(s, s', t, Completed, Disputed)
            case RejectWrite(t) => Renamed(s, s', t, Disputed, Completed)
            case ReferenceWrite(t, ref) =>
              s' == s.(transactions := s.transactions[t := s.transactions[t].(reference := Some(ref))])
  {
    match e
    case DisputeWrite(t) => MoveRenames(s, t, Completed, Disputed);
    case RejectWrite(t) => MoveRenames(s, t, Disputed, Completed);
    case ReferenceWrite(_, _) =>
  }
}
