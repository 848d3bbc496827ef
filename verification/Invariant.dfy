/** What ties statuses, ledger, history, webhook log and balances together in every state of an in-domain run. */
module Invariant {
  import opened Tables
  import opened Operations

  // ----- Balances as a function of statuses -----

  predicate FundsHeld(status: Status) { status == Processing || status == Completed || status == Disputed }

  predicate PaidOut(status: Status) { status == Completed || status == Disputed }

  /** What one transaction contributes to an account's balance. */
  function Effect(x: Transaction, a: AccountId): int {
    (if x.recipient == a && PaidOut(x.status) then x.destinationAmount else 0)
    - (if x.sender == a && FundsHeld(x.status) then x.sourceAmount else 0)
  }

  function Effects(txns: seq<Transaction>, a: AccountId): int {
    if txns == [] then 0 else Effects(txns[..|txns| - 1], a) + Effect(txns[|txns| - 1], a)
  }

  lemma {:induction false} EffectsUpdate(txns: seq<Transaction>, t: TxnId, x: Transaction, a: AccountId)
    requires t < |txns|
    ensures Effects(txns[t := x], a) == Effects(txns, a) - Effect(txns[t], a) + Effect(x, a)
  {
    var last := |txns| - 1;
    if t == last {
      assert txns[t := x][..last] == txns[..last];
    } else {
      assert txns[t := x][..last] == txns[..last][t := x];
      EffectsUpdate(txns[..last], t, x, a);
    }
  }

  lemma EffectsPush(txns: seq<Transaction>, x: Transaction, a: AccountId)
    ensures Effects(txns + [x], a) == Effects(txns, a) + Effect(x, a)
  {
    assert (txns + [x])[..|txns|] == txns;
  }

  /** `open` gives the balance each account was seeded with. */
  ghost predicate Balanced(s: Db, open: map<AccountId, int>) {
    && s.accounts.Keys == open.Keys
    && forall a | a in s.accounts :: s.accounts[a].balance == open[a] + Effects(s.transactions, a)
  }

  // ----- The ledger of one transaction -----

  /** The compensating entry that returns the held funds. */
  function Return(t: TxnId, x: Transaction): Entry { Entry(t, x.sender, x.sourceAmount, Credit, true) }

  predicate LedgerShape(t: TxnId, x: Transaction, es: seq<Entry>) {
    match x.status
    case Initiated => false
    case Processing => es == [Hold(t, x)]
    case Completed => es == [Hold(t, x), Payout(t, x)]
    case Disputed => es == [Hold(t, x), Payout(t, x)]
    case Failed => es == [Hold(t, x), Return(t, x)]
    case Reversed => es == [Hold(t, x), Return(t, x)] || es == [Hold(t, x), Payout(t, x)] + Chargeback(t, x)
  }

  ghost predicate Shapes(s: Db) {
    forall t: TxnId | t < |s.transactions| :: LedgerShape(t, s.transactions[t], Of(s.ledger, t))
  }

  // ----- The history of one transaction -----

  /** After the opening row, each row starts where the one before it ended, along the transition table. */
  predicate Linked(rows: seq<HistoryRow>) {
    |rows| >= 2 ==>
      var last := |rows| - 1;
      && Linked(rows[..last])
      && rows[last].from == Some(rows[last - 1].to)
      && ValidTransition(rows[last - 1].to, rows[last].to)
  }

  predicate HistoryChain(t: TxnId, rows: seq<HistoryRow>, status: Status) {
    && |rows| >= 2
    && rows[0] == HistoryRow(t, None, Initiated)
    && rows[1] == HistoryRow(t, Some(Initiated), Processing)
    && Linked(rows)
    && rows[|rows| - 1].to == status
  }

  lemma {:induction false} LinkedAt(rows: seq<HistoryRow>, k: nat)
    requires Linked(rows) && 1 <= k < |rows|
    ensures rows[k].from == Some(rows[k - 1].to) && ValidTransition(rows[k - 1].to, rows[k].to)
  {
    if k < |rows| - 1 {
      LinkedAt(rows[..|rows| - 1], k);
    }
  }

  lemma {:induction false} LinkedPrefix(rows: seq<HistoryRow>, longer: seq<HistoryRow>)
    requires rows <= longer && Linked(longer)
    ensures Linked(rows)
  {
    if |rows| < |longer| {
      LinkedPrefix(rows, longer[..|longer| - 1]);
    } else {
      assert rows == longer;
    }
  }

  lemma ChainExtends(t: TxnId, rows: seq<HistoryRow>, status: Status, to: Status)
    requires HistoryChain(t, rows, status) && ValidTransition(status, to)
    ensures HistoryChain(t, rows + [HistoryRow(t, Some(status), to)], to)
  {
    var longer := rows + [HistoryRow(t, Some(status), to)];
    assert longer[..|longer| - 1] == rows;
  }

  ghost predicate Chains(s: Db) {
    forall t: TxnId | t < |s.transactions| :: HistoryChain(t, HistoryOf(s.history, t), s.transactions[t].status)
  }

  // ----- The webhook log -----

  /** A paid-out transaction has used up its completion event. */
  predicate Settled(x: Transaction, events: map<EventKey, EventRow>) {
    PaidOut(x.status) ==>
      && x.reference.Some?
      && var key := EventKey(x.reference.value, CompletedEvent);
         key in events && events[key].processed
  }

  ghost predicate Deduplicated(s: Db) {
    forall t: TxnId | t < |s.transactions| :: Settled(s.transactions[t], s.events)
  }

  /** Processed rows stay processed. */
  predicate EventsGrow(before: map<EventKey, EventRow>, after: map<EventKey, EventRow>) {
    forall key | key in before && before[key].processed :: key in after && after[key].processed
  }

  // ----- Ownership -----

  predicate Parties(x: Transaction, accounts: map<AccountId, Account>) {
    x.sender in accounts && x.recipient in accounts && x.sender != x.recipient
  }

  ghost predicate Owned(s: Db) {
    && (forall e | e in s.ledger :: e.txn < |s.transactions|)
    && (forall h | h in s.history :: h.txn < |s.transactions|)
    && (forall t: TxnId | t < |s.transactions| :: Parties(s.transactions[t], s.accounts))
  }

  /** What does not depend on the webhook log. */
  ghost predicate Sound(s: Db, open: map<AccountId, int>) {
    Owned(s) && Balanced(s, open) && Shapes(s) && Chains(s)
  }

  ghost predicate Consistent(s: Db, open: map<AccountId, int>) {
    Sound(s, open) && Deduplicated(s)
  }

  lemma SeededIsConsistent(limits: Limits, accounts: map<AccountId, Account>)
    ensures Consistent(Seeded(limits, accounts), map a | a in accounts :: accounts[a].balance)
  {}

  // ----- A move of one transaction keeps each part -----

  /** After a move, an account is off its closed form by what the entries miss of the change of effect. */
  lemma MoveResidual(s: Db, open: map<AccountId, int>, t: TxnId, es: seq<Entry>, from: Status, to: Status, a: AccountId)
    requires t < |s.transactions| && Balanced(s, open) && a in s.accounts
    ensures var x, s' := s.transactions[t], Move(s, t, es, from, to);
            s'.accounts[a].balance - (open[a] + Effects(s'.transactions, a))
              == Sum(es, a) - (Effect(x.(status := to), a) - Effect(x, a))
  {
    EffectsUpdate(s.transactions, t, s.transactions[t].(status := to), a);
  }

  lemma MoveKeepsBalanced(s: Db, open: map<AccountId, int>, t: TxnId, es: seq<Entry>, from: Status, to: Status)
    requires t < |s.transactions| && Balanced(s, open)
    requires forall a :: Sum(es, a) == Effect(s.transactions[t].(status := to), a) - Effect(s.transactions[t], a)
    ensures Balanced(Move(s, t, es, from, to), open)
  {
    forall a | a in s.accounts
      ensures var s' := Move(s, t, es, from, to); s'.accounts[a].balance == open[a] + Effects(s'.transactions, a)
    {
      MoveResidual(s, open, t, es, from, to, a);
      assert Sum(es, a) == Effect(s.transactions[t].(status := to), a) - Effect(s.transactions[t], a);
    }
  }

  lemma MoveKeepsShapes(s: Db, t: TxnId, es: seq<Entry>, from: Status, to: Status)
    requires t < |s.transactions| && Shapes(s)
    requires forall e | e in es :: e.txn == t
    requires LedgerShape(t, s.transactions[t].(status := to), Of(s.ledger, t) + es)
    ensures Shapes(Move(s, t, es, from, to))
  {
    var s' := Move(s, t, es, from, to);
    forall k: TxnId | k < |s'.transactions|
      ensures LedgerShape(k, s'.transactions[k], Of(s'.ledger, k))
    {
      EntriesSelect(s.ledger, es, t, k);
      assert LedgerShape(k, s.transactions[k], Of(s.ledger, k));
    }
  }

  lemma MoveKeepsChains(s: Db, t: TxnId, es: seq<Entry>, to: Status)
    requires t < |s.transactions| && Chains(s)
    requires ValidTransition(s.transactions[t].status, to)
    ensures Chains(Move(s, t, es, s.transactions[t].status, to))
  {
    var s' := Move(s, t, es, s.transactions[t].status, to);
    forall k: TxnId | k < |s'.transactions|
      ensures HistoryChain(k, HistoryOf(s'.history, k), s'.transactions[k].status)
    {
      RowsSelect(s.history, [HistoryRow(t, Some(s.transactions[t].status), to)], t, k);
      assert HistoryChain(k, HistoryOf(s.history, k), s.transactions[k].status);
      if k == t {
        ChainExtends(t, HistoryOf(s.history, t), s.transactions[t].status, to);
      }
    }
  }

  lemma MoveKeepsOwned(s: Db, t: TxnId, es: seq<Entry>, from: Status, to: Status)
    requires t < |s.transactions| && Owned(s)
    requires forall e | e in es :: e.txn == t
    ensures Owned(Move(s, t, es, from, to))
  {
    forall k: TxnId | k < |s.transactions|
      ensures Parties(Move(s, t, es, from, to).transactions[k], s.accounts)
    {
      assert Parties(s.transactions[k], s.accounts);
    }
  }

  lemma MoveKeepsDeduplicated(s: Db, t: TxnId, es: seq<Entry>, from: Status, to: Status,
                              events: map<EventKey, EventRow>)
    requires t < |s.transactions| && Deduplicated(s)
    requires EventsGrow(s.events, events) && Settled(s.transactions[t].(status := to), events)
    ensures Deduplicated(Move(s, t, es, from, to).(events := events))
  {
    forall k: TxnId | k < |s.transactions|
      ensures Settled(Move(s, t, es, from, to).transactions[k], events)
    {
      assert Settled(s.transactions[k], s.events);
    }
  }

  /** A move keeps the invariant when its entries match the change of status. */
  lemma MoveKeeps(s: Db, open: map<AccountId, int>, t: TxnId, es: seq<Entry>, to: Status,
                  events: map<EventKey, EventRow>)
    requires Sound(s, open) && t < |s.transactions|
    requires ValidTransition(s.transactions[t].status, to)
    requires forall e | e in es :: e.txn == t
    requires LedgerShape(t, s.transactions[t].(status := to), Of(s.ledger, t) + es)
    requires forall a :: Sum(es, a) == Effect(s.transactions[t].(status := to), a) - Effect(s.transactions[t], a)
    ensures Sound(Move(s, t, es, s.transactions[t].status, to).(events := events), open)
    ensures Deduplicated(s) && EventsGrow(s.events, events) && Settled(s.transactions[t].(status := to), events) ==>
              Deduplicated(Move(s, t, es, s.transactions[t].status, to).(events := events))
  {
    var from := s.transactions[t].status;
    MoveKeepsBalanced(s, open, t, es, from, to);
    MoveKeepsShapes(s, t, es, from, to);
    MoveKeepsChains(s, t, es, to);
    MoveKeepsOwned(s, t, es, from, to);
    if Deduplicated(s) && EventsGrow(s.events, events) && Settled(s.transactions[t].(status := to), events) {
      MoveKeepsDeduplicated(s, t, es, from, to, events);
    }
    SoundIgnoresEvents(Move(s, t, es, from, to), open, events);
  }

  lemma SoundIgnoresEvents(s: Db, open: map<AccountId, int>, events: map<EventKey, EventRow>)
    requires Sound(s, open)
    ensures Sound(s.(events := events), open)
  {}

  // ----- What the operations append, read off the shape -----

  lemma HeldEntries(t: TxnId, x: Transaction, es: seq<Entry>)
    requires es == [Hold(t, x)] || es == [Hold(t, x), Payout(t, x)]
    ensures forall e | e in es :: !e.isReversal
    ensures Reversals(OriginalDebits(es)) == [Return(t, x)]
  {
    assert [Hold(t, x)][..0] == [];
    assert OriginalDebits([Hold(t, x)]) == [Hold(t, x)];
    if |es| == 2 {
      assert es[..1] == [Hold(t, x)];
    }
    assert OriginalDebits(es) == [Hold(t, x)];
  }

  /** A held payment compensates with exactly one entry that returns the hold. */
  lemma HeldCompensation(s: Db, t: TxnId)
    requires t < |s.transactions| && Shapes(s)
    requires s.transactions[t].status == Processing || PaidOut(s.transactions[t].status)
    ensures !HasBeenReversed(s.ledger, t)
    ensures Compensations(s.ledger, t) == [Return(t, s.transactions[t])]
  {
    assert LedgerShape(t, s.transactions[t], Of(s.ledger, t));
    HeldEntries(t, s.transactions[t], Of(s.ledger, t));
  }

  lemma FailedIsReversed(s: Db, t: TxnId)
    requires t < |s.transactions| && Shapes(s) && s.transactions[t].status == Failed
    ensures HasBeenReversed(s.ledger, t)
  {
    assert LedgerShape(t, s.transactions[t], Of(s.ledger, t));
    assert Of(s.ledger, t)[1].isReversal;
  }

  // ----- One lemma per operation -----

  lemma CreateKeepsShape(s: Db, x: Transaction, k: TxnId)
    requires Owned(s) && Shapes(s) && x.status == Processing && k <= |s.transactions|
    ensures LedgerShape(k, Created(s, x).transactions[k], Of(Created(s, x).ledger, k))
  {
    var t := |s.transactions|;
    EntriesSelect(s.ledger, [Hold(t, x)], t, k);
    if k == t {
      OfNone(s.ledger, t);
    } else {
      assert LedgerShape(k, s.transactions[k], Of(s.ledger, k));
    }
  }

  /** The two history rows of a new payment. */
  function FirstRows(t: TxnId): seq<HistoryRow> {
    [HistoryRow(t, None, Initiated), HistoryRow(t, Some(Initiated), Processing)]
  }

  lemma FirstRowsChain(t: TxnId)
    ensures HistoryChain(t, FirstRows(t), Processing)
  {
    var rows := FirstRows(t);
    assert rows[..1] == [rows[0]];
    assert Linked([rows[0]]);
  }

  lemma CreateKeepsChain(s: Db, x: Transaction, k: TxnId)
    requires Owned(s) && Chains(s) && x.status == Processing && k <= |s.transactions|
    ensures HistoryChain(k, HistoryOf(Created(s, x).history, k), Created(s, x).transactions[k].status)
  {
    var t := |s.transactions|;
    RowsSelect(s.history, FirstRows(t), t, k);
    assert Created(s, x).history == s.history + FirstRows(t);
    if k == t {
      HistoryOfNone(s.history, t);
      assert [] + FirstRows(t) == FirstRows(t);
      FirstRowsChain(t);
    } else {
      assert HistoryChain(k, HistoryOf(s.history, k), s.transactions[k].status);
    }
  }

  lemma CreateKeeps(s: Db, open: map<AccountId, int>, r: Request)
    requires Sound(s, open)
    ensures Sound(Create(s, r).0, open) && (Deduplicated(s) ==> Deduplicated(Create(s, r).0))
  {
    if CreateFault(s, r) == None {
      var s' := Create(s, r).0;
      var t := |s.transactions|;
      forall k: TxnId | k <= t
        ensures LedgerShape(k, s'.transactions[k], Of(s'.ledger, k))
        ensures HistoryChain(k, HistoryOf(s'.history, k), s'.transactions[k].status)
      {
        CreateKeepsShape(s, s'.transactions[t], k);
        CreateKeepsChain(s, s'.transactions[t], k);
      }
      CreateKeepsBalanced(s, open, r);
      CreateKeepsOwned(s, r);
      if Deduplicated(s) {
        CreateKeepsDeduplicated(s, r);
      }
    }
  }

  lemma CreateKeepsOwned(s: Db, r: Request)
    requires Owned(s) && CreateFault(s, r) == None
    ensures Owned(Create(s, r).0)
  {
    forall k: TxnId | k < |s.transactions| + 1
      ensures Parties(Create(s, r).0.transactions[k], s.accounts)
    {
      if k < |s.transactions| { assert Parties(s.transactions[k], s.accounts); }
    }
  }

  lemma CreateKeepsDeduplicated(s: Db, r: Request)
    requires Deduplicated(s) && CreateFault(s, r) == None
    ensures Deduplicated(Create(s, r).0)
  {
    forall k: TxnId | k < |s.transactions| + 1
      ensures Settled(Create(s, r).0.transactions[k], s.events)
    {
      if k < |s.transactions| { assert Settled(s.transactions[k], s.events); }
    }
  }

  lemma CreateKeepsBalanced(s: Db, open: map<AccountId, int>, r: Request)
    requires Balanced(s, open) && CreateFault(s, r) == None
    ensures Balanced(Create(s, r).0, open)
  {
    var s' := Create(s, r).0;
    var t := |s.transactions|;
    forall a | a in s.accounts
      ensures s'.accounts[a].balance == open[a] + Effects(s'.transactions, a)
    {
      EffectsPush(s.transactions, s'.transactions[t], a);
      SumOne(Hold(t, s'.transactions[t]), a);
    }
  }

  /** A chargeback undoes both the payout and the hold. */
  lemma ChargebackSum(t: TxnId, x: Transaction, a: AccountId)
    requires PaidOut(x.status)
    ensures Sum(Chargeback(t, x), a) == Effect(x.(status := Reversed), a) - Effect(x, a)
  {
    var es := Chargeback(t, x);
    SumTwo(es[0], es[1], a);
  }

  lemma ChargebackMoveKeeps(s: Db, open: map<AccountId, int>, t: TxnId)
    requires Sound(s, open) && t < |s.transactions| && PaidOut(s.transactions[t].status)
    ensures var s' := Move(s, t, Chargeback(t, s.transactions[t]), s.transactions[t].status, Reversed);
            Sound(s', open) && (Deduplicated(s) ==> Deduplicated(s'))
  {
    var x := s.transactions[t];
    assert LedgerShape(t, x, Of(s.ledger, t));
    forall a
      ensures Sum(Chargeback(t, x), a) == Effect(x.(status := Reversed), a) - Effect(x, a)
    {
      ChargebackSum(t, x, a);
    }
    MoveKeeps(s, open, t, Chargeback(t, x), Reversed, s.events);
  }

  lemma FailedMoveKeeps(s: Db, open: map<AccountId, int>, t: TxnId)
    requires Sound(s, open) && t < |s.transactions| && s.transactions[t].status == Failed
    ensures HasBeenReversed(s.ledger, t)
    ensures var s' := Move(s, t, [], Failed, Reversed);
            Sound(s', open) && (Deduplicated(s) ==> Deduplicated(s'))
  {
    FailedIsReversed(s, t);
    assert LedgerShape(t, s.transactions[t], Of(s.ledger, t));
    assert Of(s.ledger, t) + [] == Of(s.ledger, t);
    MoveKeeps(s, open, t, [], Reversed, s.events);
  }

  lemma ChargeBackOutcome(s: Db, t: TxnId)
    requires t < |s.transactions|
    ensures var x := s.transactions[t];
            if HasBeenReversed(s.ledger, t) then ChargeBack(s, t).0 == Move(s, t, [], x.status, Reversed)
            else ChargeBack(s, t).0 == s || ChargeBack(s, t).0 == Move(s, t, Chargeback(t, x), x.status, Reversed)
  {}

  lemma ChargeBackKeeps(s: Db, open: map<AccountId, int>, t: TxnId)
    requires Sound(s, open) && t < |s.transactions|
    requires ValidTransition(s.transactions[t].status, Reversed)
    ensures Sound(ChargeBack(s, t).0, open) && (Deduplicated(s) ==> Deduplicated(ChargeBack(s, t).0))
  {
    ChargeBackOutcome(s, t);
    if s.transactions[t].status == Failed {
      FailedMoveKeeps(s, open, t);
    } else {
      HeldCompensation(s, t);
      ChargebackMoveKeeps(s, open, t);
    }
  }

  lemma CompensationKeeps(s: Db, open: map<AccountId, int>, t: TxnId, events: map<EventKey, EventRow>)
    requires Sound(s, open) && t < |s.transactions| && s.transactions[t].status == Processing
    requires EventsGrow(s.events, events)
    ensures GuardedCompensations(s.ledger, t) == Compensations(s.ledger, t)
    ensures var s' := Move(s, t, Compensations(s.ledger, t), Processing, Failed).(events := events);
            Sound(s', open) && (Deduplicated(s) ==> Deduplicated(s'))
  {
    HeldCompensation(s, t);
    var x := s.transactions[t];
    forall a
      ensures Sum([Return(t, x)], a) == Effect(x.(status := Failed), a) - Effect(x, a)
    {
      SumOne(Return(t, x), a);
    }
    assert LedgerShape(t, x, Of(s.ledger, t));
    MoveKeeps(s, open, t, [Return(t, x)], Failed, events);
  }

  lemma RefundKeeps(s: Db, open: map<AccountId, int>, t: TxnId)
    requires Sound(s, open) && !OffDomain(s, RefundOp(t))
    ensures Sound(Refund(s, t).0, open) && (Deduplicated(s) ==> Deduplicated(Refund(s, t).0))
  {
    if t < |s.transactions| && ValidTransition(s.transactions[t].status, Reversed) {
      if s.transactions[t].status == Completed {
        ChargeBackKeeps(s, open, t);
      } else {
        FailedMoveKeeps(s, open, t);
      }
    }
  }

  /** Raising or rejecting a dispute moves no money. */
  lemma DisputeKeeps(s: Db, open: map<AccountId, int>, t: TxnId, to: Status)
    requires Sound(s, open) && t < |s.transactions|
    requires PaidOut(s.transactions[t].status) && PaidOut(to) && to != s.transactions[t].status
    ensures var s' := Move(s, t, [], s.transactions[t].status, to);
            Sound(s', open) && (Deduplicated(s) ==> Deduplicated(s'))
  {
    assert LedgerShape(t, s.transactions[t], Of(s.ledger, t));
    assert Of(s.ledger, t) + [] == Of(s.ledger, t);
    assert Deduplicated(s) ==> Settled(s.transactions[t], s.events);
    MoveKeeps(s, open, t, [], to, s.events);
  }

  lemma PayoutKeeps(s: Db, open: map<AccountId, int>, t: TxnId, events: map<EventKey, EventRow>)
    requires Sound(s, open) && t < |s.transactions| && s.transactions[t].status == Processing
    requires EventsGrow(s.events, events) && Settled(s.transactions[t].(status := Completed), events)
    ensures var s' := Move(s, t, [Payout(t, s.transactions[t])], Processing, Completed).(events := events);
            Sound(s', open) && (Deduplicated(s) ==> Deduplicated(s'))
  {
    var x := s.transactions[t];
    forall a
      ensures Sum([Payout(t, x)], a) == Effect(x.(status := Completed), a) - Effect(x, a)
    {
      SumOne(Payout(t, x), a);
    }
    assert LedgerShape(t, x, Of(s.ledger, t));
    MoveKeeps(s, open, t, [Payout(t, x)], Completed, events);
  }

  lemma SettleKeepsSound(s: Db, open: map<AccountId, int>, key: EventKey)
    requires Sound(s, open) && key in s.events && !Repays(s, SettleOp(key))
    ensures Sound(Settle(s, key).0, open) && (Deduplicated(s) ==> Deduplicated(Settle(s, key).0))
  {
    var found := FindByReference(s.transactions, key.reference);
    if found.None? || !ValidTransition(s.transactions[found.value].status, key.kind.Target()) {
      EventsKeep(s, open, Settle(s, key).0.events);
    } else {
      var t := found.value;
      assert LedgerShape(t, s.transactions[t], Of(s.ledger, t));
      assert s.transactions[t].status == Processing;
      assert Parties(s.transactions[t], s.accounts);
      var events := s.events[key := s.events[key].(processed := true)];
      match key.kind
      case CompletedEvent => PayoutKeeps(s, open, t, events);
      case FailedEvent => CompensationKeeps(s, open, t, events);
    }
  }

  /** A paid-out payment has used up its completion event, so no pending one pays it again. */
  lemma NothingRepays(s: Db, op: Op)
    requires Deduplicated(s) && Enabled(s, op)
    ensures !Repays(s, op)
  {
    if op.SettleOp? {
      var found := FindByReference(s.transactions, op.key.reference);
      assert found.Some? ==> Settled(s.transactions[found.value], s.events);
    }
  }

  lemma SettleKeeps(s: Db, open: map<AccountId, int>, key: EventKey)
    requires Consistent(s, open) && Enabled(s, SettleOp(key))
    ensures Consistent(Settle(s, key).0, open)
  {
    NothingRepays(s, SettleOp(key));
    SettleKeepsSound(s, open, key);
  }

  /** Changing only pending or new event rows keeps the invariant. */
  lemma EventsKeep(s: Db, open: map<AccountId, int>, events: map<EventKey, EventRow>)
    requires Sound(s, open) && EventsGrow(s.events, events)
    ensures Sound(s.(events := events), open) && (Deduplicated(s) ==> Deduplicated(s.(events := events)))
  {
    SoundIgnoresEvents(s, open, events);
    if Deduplicated(s) {
      forall t: TxnId | t < |s.transactions|
        ensures Settled(s.transactions[t], events)
      {
        assert Settled(s.transactions[t], s.events);
      }
    }
  }

  lemma ShapeIgnoresReference(t: TxnId, x: Transaction, ref: Ref, es: seq<Entry>)
    requires LedgerShape(t, x, es)
    ensures LedgerShape(t, x.(reference := Some(ref)), es)
  {}

  lemma AssignReferenceKeepsShapes(s: Db, t: TxnId, ref: Ref)
    requires t < |s.transactions| && Shapes(s)
    ensures Shapes(AssignReference(s, t, ref).0)
  {
    var s' := AssignReference(s, t, ref).0;
    forall k: TxnId | k < |s.transactions|
      ensures LedgerShape(k, s'.transactions[k], Of(s.ledger, k))
    {
      assert LedgerShape(k, s.transactions[k], Of(s.ledger, k));
      if k == t {
        ShapeIgnoresReference(t, s.transactions[t], ref, Of(s.ledger, t));
      }
    }
  }

  lemma AssignReferenceKeepsChains(s: Db, t: TxnId, ref: Ref)
    requires t < |s.transactions| && Chains(s)
    ensures Chains(AssignReference(s, t, ref).0)
  {
    var s' := AssignReference(s, t, ref).0;
    forall k: TxnId | k < |s.transactions|
      ensures HistoryChain(k, HistoryOf(s.history, k), s'.transactions[k].status)
    {
      assert HistoryChain(k, HistoryOf(s.history, k), s.transactions[k].status);
    }
  }

  /** A provider reference is read by the webhook log's part of the invariant only. */
  lemma AssignReferenceKeepsSound(s: Db, open: map<AccountId, int>, t: TxnId, ref: Ref)
    requires t < |s.transactions| && Sound(s, open)
    ensures Sound(AssignReference(s, t, ref).0, open)
  {
    var s' := AssignReference(s, t, ref).0;
    forall k: TxnId | k < |s.transactions|
      ensures Parties(s'.transactions[k], s.accounts)
    {
      assert Parties(s.transactions[k], s.accounts);
    }
    AssignReferenceKeepsBalanced(s, open, t, ref);
    AssignReferenceKeepsShapes(s, t, ref);
    AssignReferenceKeepsChains(s, t, ref);
  }

  lemma AssignReferenceKeepsBalanced(s: Db, open: map<AccountId, int>, t: TxnId, ref: Ref)
    requires t < |s.transactions| && Balanced(s, open)
    ensures Balanced(AssignReference(s, t, ref).0, open)
  {
    forall a | a in s.accounts
      ensures Effects(AssignReference(s, t, ref).0.transactions, a) == Effects(s.transactions, a)
    {
      EffectsUpdate(s.transactions, t, s.transactions[t].(reference := Some(ref)), a);
    }
  }

  lemma AssignReferenceDeduplicated(s: Db, t: TxnId, ref: Ref)
    requires t < |s.transactions| && Deduplicated(s)
    ensures var s' := AssignReference(s, t, ref).0;
            Deduplicated(s') <==> Settled(s'.transactions[t], s.events)
  {
    var s' := AssignReference(s, t, ref).0;
    forall k: TxnId | k < |s.transactions| && k != t
      ensures Settled(s'.transactions[k], s.events)
    {
      assert Settled(s.transactions[k], s.events);
    }
  }

  lemma AssignReferenceKeeps(s: Db, open: map<AccountId, int>, t: TxnId, ref: Ref)
    requires Sound(s, open) && Enabled(s, AssignReferenceOp(t, ref))
    ensures var s' := AssignReference(s, t, ref).0;
            Sound(s', open) && (Deduplicated(s) ==> Deduplicated(s'))
  {
    if t < |s.transactions| {
      AssignReferenceKeepsSound(s, open, t, ref);
      if Deduplicated(s) {
        assert Settled(s.transactions[t], s.events);
        AssignReferenceDeduplicated(s, t, ref);
      }
    }
  }

  lemma RaiseKeeps(s: Db, open: map<AccountId, int>, t: TxnId)
    requires Sound(s, open)
    ensures Sound(RaiseDispute(s, t).0, open) && (Deduplicated(s) ==> Deduplicated(RaiseDispute(s, t).0))
  {
    if RaiseDispute(s, t).1 == Ok {
      DisputeKeeps(s, open, t, Disputed);
    }
  }

  lemma ResolveKeeps(s: Db, open: map<AccountId, int>, t: TxnId, action: Action)
    requires Sound(s, open) && !OffDomain(s, ResolveOp(t, action))
    ensures var s' := ResolveDispute(s, t, action).0;
            Sound(s', open) && (Deduplicated(s) ==> Deduplicated(s'))
  {
    if ResolveDispute(s, t, action).1 == Ok {
      if action == Reverse {
        ChargeBackKeeps(s, open, t);
      } else {
        DisputeKeeps(s, open, t, Completed);
      }
    }
  }

  lemma DeadLetterKeeps(s: Db, open: map<AccountId, int>, t: TxnId)
    requires Sound(s, open)
    ensures Sound(DeadLetter(s, t).0, open) && (Deduplicated(s) ==> Deduplicated(DeadLetter(s, t).0))
  {
    if DeadLetter(s, t).1 == Ok {
      CompensationKeeps(s, open, t, s.events);
    }
  }

  /** The part that does not read the webhook log needs, beside the domain, only that nothing is paid twice. */
  lemma StepKeepsSound(s: Db, open: map<AccountId, int>, op: Op)
    requires Sound(s, open) && Enabled(s, op) && !OffDomain(s, op) && !Repays(s, op)
    ensures Sound(Step(s, op), open) && (Deduplicated(s) ==> Deduplicated(Step(s, op)))
  {
    match op
    case CreateOp(r) => CreateKeeps(s, open, r);
    case RefundOp(t) => RefundKeeps(s, open, t);
    case DisputeOp(t) => RaiseKeeps(s, open, t);
    case ResolveOp(t, action) => ResolveKeeps(s, open, t, action);
    case ReceiveOp(key, valid) => EventsKeep(s, open, Step(s, op).events);
    case SettleOp(key) => SettleKeepsSound(s, open, key);
    case RecordErrorOp(key, fault) => EventsKeep(s, open, Step(s, op).events);
    case DeadLetterOp(t) => DeadLetterKeeps(s, open, t);
    case AssignReferenceOp(t, ref) => AssignReferenceKeeps(s, open, t, ref);
  }

  /** Every in-domain step keeps the invariant. */
  lemma StepKeeps(s: Db, open: map<AccountId, int>, op: Op)
    requires Consistent(s, open) && Enabled(s, op) && !OffDomain(s, op)
    ensures Consistent(Step(s, op), open)
  {
    NothingRepays(s, op);
    StepKeepsSound(s, open, op);
  }
}
