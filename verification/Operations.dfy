/** What each operation on a payment does to the database, as a function of the committed tables.
    The class in Store.dfy performs the same operations statement by statement and is proved to meet these. */
module Operations {
  import opened Tables
  import Fx

  datatype Reply = Ok | Ignored | Err(fault: Fault)

  // ----- The transition table -----

  predicate ValidTransition(from: Status, to: Status) {
    match from
    case Initiated => to == Processing || to == Failed
    case Processing => to == Completed || to == Failed
    case Failed => to == Reversed
    case Completed => to == Reversed || to == Disputed
    case Disputed => to == Reversed || to == Completed
    case Reversed => false
  }

  // ----- Ledger entries -----

  /** The debit that freezes the sender's funds. */
  function Hold(t: TxnId, x: Transaction): Entry { Entry(t, x.sender, -(x.sourceAmount as int), Debit, false) }

  /** The credit a completed payment makes. */
  function Payout(t: TxnId, x: Transaction): Entry { Entry(t, x.recipient, x.destinationAmount, Credit, false) }

  /** The debit and the credit of a chargeback; neither is flagged as a reversal. */
  function Chargeback(t: TxnId, x: Transaction): seq<Entry> {
    [Entry(t, x.recipient, -(x.destinationAmount as int), Debit, false),
     Entry(t, x.sender, x.sourceAmount, Credit, false)]
  }

  predicate HasBeenReversed(ledger: seq<Entry>, t: TxnId) {
    exists e | e in Of(ledger, t) :: e.isReversal
  }

  function Magnitude(amount: int): nat { if amount < 0 then -amount else amount }

  /** The unflagged debits among some entries, in order. */
  function OriginalDebits(es: seq<Entry>): seq<Entry> {
    if es == [] then [] else
      var last := |es| - 1;
      OriginalDebits(es[..last]) + if es[last].entryType == Debit && !es[last].isReversal then [es[last]] else []
  }

  /** One flagged credit for each debit given. */
  function Reversals(debits: seq<Entry>): (r: seq<Entry>)
    ensures |r| == |debits|
    ensures forall k | 0 <= k < |r| ::
      r[k] == Entry(debits[k].txn, debits[k].account, Magnitude(debits[k].amount), Credit, true)
  {
    seq(|debits|, k requires 0 <= k < |debits| =>
      Entry(debits[k].txn, debits[k].account, Magnitude(debits[k].amount), Credit, true))
  }

  /** The entries that `createCompensatingEntries` adds for a transaction. */
  function Compensations(ledger: seq<Entry>, t: TxnId): seq<Entry> {
    Reversals(OriginalDebits(Of(ledger, t)))
  }

  /** Compensation behind its guard: nothing once a reversal entry exists. */
  function GuardedCompensations(ledger: seq<Entry>, t: TxnId): seq<Entry> {
    if HasBeenReversed(ledger, t) then [] else Compensations(ledger, t)
  }

  lemma {:induction false} DebitsAmong(es: seq<Entry>)
    ensures forall e | e in OriginalDebits(es) :: e in es && e.entryType == Debit && !e.isReversal
  {
    if es != [] {
      DebitsAmong(es[..|es| - 1]);
      assert es[|es| - 1] in es;
    }
  }

  lemma CompensationsOwned(ledger: seq<Entry>, t: TxnId)
    ensures forall e | e in Compensations(ledger, t) :: e.txn == t
  {
    OfOwned(ledger, t);
    var debits := OriginalDebits(Of(ledger, t));
    DebitsAmong(Of(ledger, t));
    forall e | e in Reversals(debits)
      ensures e.txn == t
    {
      var k :| 0 <= k < |debits| && Reversals(debits)[k] == e;
      assert debits[k] in debits;
    }
  }

  // ----- State changes shared by the operations -----

  function Append(s: Db, es: seq<Entry>): Db {
    s.(accounts := Post(s.accounts, es), ledger := s.ledger + es)
  }

  /** Append entries, set the status of a transaction, record it as a move from `from`. */
  function Move(s: Db, t: TxnId, es: seq<Entry>, from: Status, to: Status): Db
    requires t < |s.transactions|
  {
    Append(s, es).(transactions := s.transactions[t := s.transactions[t].(status := to)],
                   history := s.history + [HistoryRow(t, Some(from), to)])
  }

  lemma AppendNothing(s: Db)
    ensures Append(s, []) == s
  {
    PostNothing(s.accounts);
    assert s.ledger + [] == s.ledger;
  }

  lemma AppendTwice(s: Db, xs: seq<Entry>, ys: seq<Entry>)
    ensures Append(Append(s, xs), ys) == Append(s, xs + ys)
  {
    PostAppend(s.accounts, xs, ys);
    assert s.ledger + xs + ys == s.ledger + (xs + ys);
  }

  // ----- Creating a payment -----

  const MS_PER_DAY := 86_400_000

  /** A request with what the environment decides: the clock, a busy account lock, a late quote. */
  datatype Request = Request(sender: AccountId, recipient: AccountId,
                             sourceCurrency: string, destinationCurrency: string,
                             amount: int, now: nat, accountBusy: bool, quoteExpired: bool)

  function StartOfDay(now: nat): nat { now - now % MS_PER_DAY }

  /** The statuses that count towards a daily limit. */
  predicate Counted(status: Status) { status == Initiated || status == Processing || status == Completed }

  predicate CountsFor(x: Transaction, sender: AccountId, start: nat) {
    x.sender == sender && x.createdAt >= start && Counted(x.status)
  }

  function CountSince(txns: seq<Transaction>, sender: AccountId, start: nat): nat {
    if txns == [] then 0 else
      var last := |txns| - 1;
      CountSince(txns[..last], sender, start) + if CountsFor(txns[last], sender, start) then 1 else 0
  }

  function VolumeSince(txns: seq<Transaction>, sender: AccountId, start: nat): nat {
    if txns == [] then 0 else
      var last := |txns| - 1;
      VolumeSince(txns[..last], sender, start)
      + if CountsFor(txns[last], sender, start) then txns[last].sourceAmount else 0
  }

  function CreateFault(s: Db, r: Request): Option<Fault> {
    if r.amount <= 0 || r.sender == r.recipient then Some(BadRequest)
    else if r.accountBusy then Some(Busy)
    else if r.sender !in s.accounts then Some(NotFound)
    else if s.accounts[r.sender].currency != r.sourceCurrency then Some(CurrencyMismatch)
    else if r.recipient !in s.accounts then Some(NotFound)
    else if s.accounts[r.recipient].currency != r.destinationCurrency then Some(CurrencyMismatch)
    else if r.amount > s.limits.maxPerTransaction then Some(AmountTooLarge)
    else if CountSince(s.transactions, r.sender, StartOfDay(r.now)) >= s.limits.maxCountPerDay then
      Some(DailyCountReached)
    else if VolumeSince(s.transactions, r.sender, StartOfDay(r.now)) + r.amount > s.limits.maxVolumePerDay then
      Some(DailyVolumeExceeded)
    else if Fx.Rate(r.sourceCurrency, r.destinationCurrency) == None then Some(UnsupportedPair)
    else if r.quoteExpired then Some(QuoteExpired)
    else if s.accounts[r.sender].balance < r.amount then Some(InsufficientBalance)
    else None
  }

  function NewTransaction(r: Request, rate: nat, status: Status): Transaction
    requires r.amount > 0
  {
    Transaction(r.sender, r.recipient, r.sourceCurrency, r.destinationCurrency,
                r.amount, Fx.Convert(r.amount, rate), rate, status, None, r.now)
  }

  /** The tables with one more payment, its funds held and its first two history rows written. */
  function Created(s: Db, x: Transaction): Db {
    var t := |s.transactions|;
    Append(s, [Hold(t, x)]).(
      transactions := s.transactions + [x],
      history := s.history + [HistoryRow(t, None, Initiated), HistoryRow(t, Some(Initiated), Processing)])
  }

  function Create(s: Db, r: Request): (Db, Reply) {
    match CreateFault(s, r)
    case Some(fault) => (s, Err(fault))
    case None => (Created(s, NewTransaction(r, Fx.Rate(r.sourceCurrency, r.destinationCurrency).value, Processing)), Ok)
  }

  // ----- Refunds and disputes -----

  /** Debit the recipient, credit the sender, move to REVERSED. */
  function ChargeBack(s: Db, t: TxnId): (Db, Reply)
    requires t < |s.transactions|
  {
    var x := s.transactions[t];
    if HasBeenReversed(s.ledger, t) then (Move(s, t, [], x.status, Reversed), Ok)
    else if x.recipient !in s.accounts then (s, Err(NotFound))
    else if s.accounts[x.recipient].balance < x.destinationAmount then (s, Err(InsufficientBalance))
    else if x.sender !in s.accounts then (s, Err(NotFound))
    else (Move(s, t, Chargeback(t, x), x.status, Reversed), Ok)
  }

  function Refund(s: Db, t: TxnId): (Db, Reply) {
    if t >= |s.transactions| then (s, Err(NotFound))
    else
      var x := s.transactions[t];
      if !ValidTransition(x.status, Reversed) then (s, Err(InvalidTransition))
      else if x.status == Completed then ChargeBack(s, t)
      else (Move(s, t, GuardedCompensations(s.ledger, t), x.status, Reversed), Ok)
  }

  function RaiseDispute(s: Db, t: TxnId): (Db, Reply) {
    if t >= |s.transactions| then (s, Err(NotFound))
    else if !ValidTransition(s.transactions[t].status, Disputed) then (s, Err(InvalidTransition))
    else (Move(s, t, [], s.transactions[t].status, Disputed), Ok)
  }

  datatype Action = Reverse | Reject

  /** A rejected dispute is recorded as coming from DISPUTED, whatever the status was. */
  function ResolveDispute(s: Db, t: TxnId, action: Action): (Db, Reply) {
    if t >= |s.transactions| then (s, Err(NotFound))
    else
      var x := s.transactions[t];
      if !ValidTransition(x.status, if action == Reverse then Reversed else Completed) then (s, Err(InvalidTransition))
      else if action == Reverse then ChargeBack(s, t)
      else (Move(s, t, [], Disputed, Completed), Ok)
  }

  // ----- Webhooks -----

  /** The row a provider reference selects. */
  function FindByReference(txns: seq<Transaction>, ref: Ref): (r: Option<TxnId>)
    ensures r.Some? ==> r.value < |txns| && txns[r.value].reference == Some(ref)
    ensures r.Some? ==> forall k | 0 <= k < r.value :: txns[k].reference != Some(ref)
    ensures r.None? ==> forall k | 0 <= k < |txns| :: txns[k].reference != Some(ref)
  {
    if txns == [] then None else
      var last := |txns| - 1;
      var earlier := FindByReference(txns[..last], ref);
      if earlier.Some? then earlier
      else if txns[last].reference == Some(ref) then Some(last)
      else None
  }

  function WithError(s: Db, key: EventKey, fault: Fault): Db
    requires key in s.events
  {
    s.(events := s.events[key := s.events[key].(error := Some(fault))])
  }

  function MarkProcessed(s: Db, key: EventKey): Db
    requires key in s.events
  {
    s.(events := s.events[key := s.events[key].(processed := true)])
  }

  /** The insert that claims a (reference, status) pair, and the verdict on a bad signature. */
  function Receive(s: Db, key: EventKey, signatureValid: bool): (Db, Reply) {
    if key in s.events then (s, Ignored)
    else if !signatureValid then (s.(events := s.events[key := EventRow(false, false, Some(BadSignature))]), Ignored)
    else (s.(events := s.events[key := EventRow(true, false, None)]), Ok)
  }

  /** The locked database transaction of a webhook, and the error row when it throws. */
  function Settle(s: Db, key: EventKey): (Db, Reply)
    requires key in s.events
  {
    match FindByReference(s.transactions, key.reference)
    case None => (WithError(s, key, UnknownReference), Ignored)
    case Some(t) =>
      var x := s.transactions[t];
      if !ValidTransition(x.status, key.kind.Target()) then
        (WithError(s, key, InvalidTransition), Err(InvalidTransition))
      else
        match key.kind
        case CompletedEvent =>
          if x.recipient !in s.accounts then (WithError(s, key, NotFound), Err(NotFound))
          else (MarkProcessed(Move(s, t, [Payout(t, x)], x.status, Completed), key), Ok)
        case FailedEvent =>
          (MarkProcessed(Move(s, t, Compensations(s.ledger, t), x.status, Failed), key), Ok)
        case ProcessingEvent =>
          (MarkProcessed(s.(history := s.history + [HistoryRow(t, Some(x.status), Processing)]), key), Ok)
  }

  /** One delivery from beginning to end. */
  function ProcessWebhook(s: Db, key: EventKey, signatureValid: bool): (Db, Reply) {
    var (received, reply) := Receive(s, key, signatureValid);
    if reply == Ok then Settle(received, key) else (received, reply)
  }

  /** The best-effort update that records why a webhook's transaction was rolled back. */
  function RecordError(s: Db, key: EventKey, fault: Fault): (Db, Reply)
    requires key in s.events
  {
    (WithError(s, key, fault), Ok)
  }

  // ----- The queue workers -----

  /** The dead-letter handler on a transaction whose provider job has used up its attempts. */
  function DeadLetter(s: Db, t: TxnId): (Db, Reply) {
    if t >= |s.transactions| || s.transactions[t].status != Processing then (s, Ignored)
    else (Move(s, t, GuardedCompensations(s.ledger, t), Processing, Failed), Ok)
  }

  /** The provider worker's write, which looks at nothing but the row's id. */
  function AssignReference(s: Db, t: TxnId, ref: Ref): (Db, Reply) {
    if t >= |s.transactions| then (s, Ignored)
    else (s.(transactions := s.transactions[t := s.transactions[t].(reference := Some(ref))]), Ok)
  }

  // ----- Steps and runs -----

  datatype Op =
    | CreateOp(request: Request)
    | RefundOp(txn: TxnId)
    | DisputeOp(txn: TxnId)
    | ResolveOp(txn: TxnId, action: Action)
    | ReceiveOp(key: EventKey, signatureValid: bool)
    | SettleOp(key: EventKey)
    | RecordErrorOp(key: EventKey, fault: Fault)
    | DeadLetterOp(txn: TxnId)
    | AssignReferenceOp(txn: TxnId, ref: Ref)

  /** What the environment guarantees: only the delivery that inserted an event row works on it, while it is
      pending; at most one provider job per transaction is between its check and its write, so the reference
      it found missing is still missing; provider references are fresh. */
  predicate Enabled(s: Db, op: Op) {
    match op
    case SettleOp(key) => key in s.events && s.events[key].Pending()
    case RecordErrorOp(key, _) => key in s.events && s.events[key].Pending()
    case AssignReferenceOp(t, ref) =>
      t < |s.transactions| ==> s.transactions[t].reference == None && FindByReference(s.transactions, ref) == None
    case _ => true
  }

  function Exec(s: Db, op: Op): (Db, Reply)
    requires Enabled(s, op)
  {
    match op
    case CreateOp(request) => Create(s, request)
    case RefundOp(t) => Refund(s, t)
    case DisputeOp(t) => RaiseDispute(s, t)
    case ResolveOp(t, action) => ResolveDispute(s, t, action)
    case ReceiveOp(key, signatureValid) => Receive(s, key, signatureValid)
    case SettleOp(key) => Settle(s, key)
    case RecordErrorOp(key, fault) => RecordError(s, key, fault)
    case DeadLetterOp(t) => DeadLetter(s, t)
    case AssignReferenceOp(t, ref) => AssignReference(s, t, ref)
  }

  function Step(s: Db, op: Op): Db
    requires Enabled(s, op)
  {
    Exec(s, op).0
  }

  /** The two calls the transition table lets through although no documented use needs them. */
  predicate OffDomain(s: Db, op: Op) {
    || (op.RefundOp? && op.txn < |s.transactions| && s.transactions[op.txn].status == Disputed)
    || (op.ResolveOp? && op.action == Reject && op.txn < |s.transactions| &&
        s.transactions[op.txn].status == Processing)
  }

  /** A completion webhook that finds its payment DISPUTED, and so already paid out. */
  predicate Repays(s: Db, op: Op) {
    && op.SettleOp? && op.key.kind == CompletedEvent
    && var found := FindByReference(s.transactions, op.key.reference);
       found.Some? && s.transactions[found.value].status == Disputed
  }

  predicate EnabledRun(s: Db, ops: seq<Op>)
    decreases |ops|
  {
    ops != [] ==> Enabled(s, ops[0]) && EnabledRun(Step(s, ops[0]), ops[1..])
  }

  predicate InDomainRun(s: Db, ops: seq<Op>)
    requires EnabledRun(s, ops)
    decreases |ops|
  {
    ops != [] ==> !OffDomain(s, ops[0]) && InDomainRun(Step(s, ops[0]), ops[1..])
  }

  function Run(s: Db, ops: seq<Op>): Db
    requires EnabledRun(s, ops)
    decreases |ops|
  {
    if ops == [] then s else Run(Step(s, ops[0]), ops[1..])
  }

  /** A database with seeded accounts and nothing else. */
  function Seeded(limits: Limits, accounts: map<AccountId, Account>): Db {
    Db(limits, accounts, [], [], [], map[])
  }

  lemma {:induction false} RunAppend(s: Db, ops: seq<Op>, op: Op)
    requires EnabledRun(s, ops) && Enabled(Run(s, ops), op)
    ensures EnabledRun(s, ops + [op]) && Run(s, ops + [op]) == Step(Run(s, ops), op)
    ensures InDomainRun(s, ops + [op]) <==> InDomainRun(s, ops) && !OffDomain(Run(s, ops), op)
    decreases |ops|
  {
    if ops == [] {
      assert ops + [op] == [op];
      assert [op][1..] == [];
    } else {
      assert (ops + [op])[1..] == ops[1..] + [op];
      RunAppend(Step(s, ops[0]), ops[1..], op);
    }
  }
}
