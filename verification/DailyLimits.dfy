/** The sender limits of a day over whole runs: what a create guarantees, and by how much later steps can exceed it. */
module DailyLimits {
  import opened Tables
  import opened Operations
  import Invariant
  import Terms

  // ----- What a create guarantees -----

  /** The payments of the day that starts at `start`. */
  predicate InWindow(x: Transaction, sender: AccountId, start: nat) {
    x.sender == sender && start <= x.createdAt < start + MS_PER_DAY
  }

  /** Counted payments of a sender on one day, and their volume. */
  function DayCount(txns: seq<Transaction>, sender: AccountId, start: nat): nat {
    if txns == [] then 0 else
      var x := txns[|txns| - 1];
      DayCount(txns[..|txns| - 1], sender, start) + if Weighs(x, sender, start) then 1 else 0
  }

  function DayVolume(txns: seq<Transaction>, sender: AccountId, start: nat): nat {
    if txns == [] then 0 else
      var x := txns[|txns| - 1];
      DayVolume(txns[..|txns| - 1], sender, start) + if Weighs(x, sender, start) then x.sourceAmount else 0
  }

  /** The queries look at everything since midnight, so they never see less than the day. */
  lemma {:induction false} QueriesCoverTheDay(txns: seq<Transaction>, sender: AccountId, start: nat)
    ensures DayCount(txns, sender, start) <= CountSince(txns, sender, start)
    ensures DayVolume(txns, sender, start) <= VolumeSince(txns, sender, start)
  {
    if txns != [] {
      QueriesCoverTheDay(txns[..|txns| - 1], sender, start);
    }
  }

  /** Right after a successful create, the sender's day is within both limits. */
  lemma CreateRespectsLimits(s: Db, r: Request)
    requires Create(s, r).1 == Ok
    ensures var txns := Create(s, r).0.transactions;
            && DayCount(txns, r.sender, StartOfDay(r.now)) <= s.limits.maxCountPerDay
            && DayVolume(txns, r.sender, StartOfDay(r.now)) <= s.limits.maxVolumePerDay
            && txns[|txns| - 1].sourceAmount <= s.limits.maxPerTransaction
  {
    var txns := Create(s, r).0.transactions;
    assert txns[..|txns| - 1] == s.transactions;
    QueriesCoverTheDay(s.transactions, r.sender, StartOfDay(r.now));
  }

  // ----- What a run can exceed -----

  /** Whether a payment ever came back from DISPUTED to COMPLETED. */
  predicate Returned(history: seq<HistoryRow>, t: TxnId) {
    HistoryRow(t, Some(Disputed), Completed) in history
  }

  /** What a sender's day weighs, split by whether the payments ever came back from a dispute. */
  function CountWhere(returned: bool, txns: seq<Transaction>, history: seq<HistoryRow>, sender: AccountId,
                      start: nat): nat {
    if txns == [] then 0 else
      var last := |txns| - 1;
      CountWhere(returned, txns[..last], history, sender, start)
      + if Weighs(txns[last], sender, start) && Returned(history, last) == returned then 1 else 0
  }

  function VolumeWhere(returned: bool, txns: seq<Transaction>, history: seq<HistoryRow>, sender: AccountId,
                       start: nat): nat {
    if txns == [] then 0 else
      var last := |txns| - 1;
      VolumeWhere(returned, txns[..last], history, sender, start)
      + if Weighs(txns[last], sender, start) && Returned(history, last) == returned then txns[last].sourceAmount else 0
  }

  lemma {:induction false} DaySplits(txns: seq<Transaction>, history: seq<HistoryRow>, sender: AccountId, start: nat)
    ensures DayCount(txns, sender, start)
            == CountWhere(false, txns, history, sender, start) + CountWhere(true, txns, history, sender, start)
    ensures DayVolume(txns, sender, start)
            == VolumeWhere(false, txns, history, sender, start) + VolumeWhere(true, txns, history, sender, start)
  {
    if txns != [] {
      DaySplits(txns[..|txns| - 1], history, sender, start);
    }
  }

  /** The payments of the day that never came back stay within the limits. */
  ghost predicate WithinLimits(s: Db, sender: AccountId, start: nat) {
    && CountWhere(false, s.transactions, s.history, sender, start) <= s.limits.maxCountPerDay
    && VolumeWhere(false, s.transactions, s.history, sender, start) <= s.limits.maxVolumePerDay
  }

  /** What a status or reference update leaves alone. */
  predicate SameOrigin(x: Transaction, y: Transaction) {
    x.sender == y.sender && x.createdAt == y.createdAt && x.sourceAmount == y.sourceAmount
  }

  /** Whether a payment weighs on the day. */
  predicate Weighs(x: Transaction, sender: AccountId, start: nat) {
    InWindow(x, sender, start) && Counted(x.status)
  }

  /** A payment counts afterwards only if it counted before or came back from a dispute. */
  predicate NoHeavier(x: Transaction, y: Transaction, t: TxnId, before: seq<HistoryRow>, after: seq<HistoryRow>) {
    && SameOrigin(x, y)
    && (Counted(y.status) && !Returned(after, t) ==> Counted(x.status) && !Returned(before, t))
  }

  lemma {:induction false} NoHeavierDay(txns: seq<Transaction>, later: seq<Transaction>, before: seq<HistoryRow>,
                                        after: seq<HistoryRow>,
                                        sender: AccountId, start: nat)
    requires |later| == |txns| && forall k: TxnId | k < |txns| :: NoHeavier(txns[k], later[k], k, before, after)
    ensures CountWhere(false, later, after, sender, start) <= CountWhere(false, txns, before, sender, start)
    ensures VolumeWhere(false, later, after, sender, start) <= VolumeWhere(false, txns, before, sender, start)
  {
    if txns != [] {
      var last := |txns| - 1;
      assert NoHeavier(txns[last], later[last], last, before, after);
      forall k: TxnId | k < last
        ensures NoHeavier(txns[..last][k], later[..last][k], k, before, after)
      {
        assert NoHeavier(txns[k], later[k], k, before, after);
      }
      NoHeavierDay(txns[..last], later[..last], before, after, sender, start);
    }
  }

  /** A move raises the day only when it brings a payment back. */
  lemma MoveStaysWithin(s: Db, t: TxnId, es: seq<Entry>, from: Status, to: Status, sender: AccountId, start: nat)
    requires WithinLimits(s, sender, start) && t < |s.transactions|
    requires Counted(to) ==> Counted(s.transactions[t].status) || (from == Disputed && to == Completed)
    ensures WithinLimits(Move(s, t, es, from, to), sender, start)
  {
    var s' := Move(s, t, es, from, to);
    assert s'.history[|s.history|] == HistoryRow(t, Some(from), to);
    NoHeavierDay(s.transactions, s'.transactions, s.history, s'.history, sender, start);
  }

  lemma AssignStaysWithin(s: Db, t: TxnId, ref: Ref, sender: AccountId, start: nat)
    requires WithinLimits(s, sender, start) && t < |s.transactions|
    ensures WithinLimits(AssignReference(s, t, ref).0, sender, start)
  {
    NoHeavierDay(s.transactions, AssignReference(s, t, ref).0.transactions, s.history, s.history, sender, start);
  }

  lemma CreateStaysWithin(s: Db, r: Request, sender: AccountId, start: nat)
    requires WithinLimits(s, sender, start) && start % MS_PER_DAY == 0
    ensures WithinLimits(Create(s, r).0, sender, start)
  {
    if Create(s, r).1 == Ok {
      var s' := Create(s, r).0;
      var t := |s.transactions|;
      assert s'.transactions[..t] == s.transactions;
      if InWindow(s'.transactions[t], sender, start) {
        SameDay(r.now, start);
        CreateRespectsLimits(s, r);
        DaySplits(s'.transactions, s'.history, sender, start);
      } else {
        NoHeavierDay(s.transactions, s.transactions, s.history, s'.history, sender, start);
      }
    }
  }

  lemma SameDay(now: nat, start: nat)
    requires start % MS_PER_DAY == 0 && start <= now < start + MS_PER_DAY
    ensures StartOfDay(now) == start
  {}

  lemma StepStaysWithin(s: Db, op: Op, sender: AccountId, start: nat)
    requires WithinLimits(s, sender, start) && start % MS_PER_DAY == 0 && Enabled(s, op)
    ensures WithinLimits(Step(s, op), sender, start)
  {
    match op
    case CreateOp(r) => CreateStaysWithin(s, r, sender, start);
    case RefundOp(t) => RefundStaysWithin(s, t, sender, start);
    case DisputeOp(t) =>
      if RaiseDispute(s, t).1 == Ok { MoveStaysWithin(s, t, [], s.transactions[t].status, Disputed, sender, start); }
    case ResolveOp(t, action) =>
      if t < |s.transactions| {
        if action == Reverse {
          ChargeBackStaysWithin(s, t, sender, start);
        } else {
          MoveStaysWithin(s, t, [], Disputed, Completed, sender, start);
        }
      }
    case ReceiveOp(_, _) =>
    case SettleOp(key) => SettleStaysWithin(s, key, sender, start);
    case RecordErrorOp(_, _) =>
    case DeadLetterOp(t) =>
      if DeadLetter(s, t).1 == Ok {
        MoveStaysWithin(s, t, GuardedCompensations(s.ledger, t), Processing, Failed, sender, start);
      }
    case AssignReferenceOp(t, ref) =>
      if t < |s.transactions| { AssignStaysWithin(s, t, ref, sender, start); }
  }

  lemma ChargeBackStaysWithin(s: Db, t: TxnId, sender: AccountId, start: nat)
    requires WithinLimits(s, sender, start) && t < |s.transactions|
    ensures WithinLimits(ChargeBack(s, t).0, sender, start)
  {
    var x := s.transactions[t];
    MoveStaysWithin(s, t, [], x.status, Reversed, sender, start);
    MoveStaysWithin(s, t, Chargeback(t, x), x.status, Reversed, sender, start);
  }

  lemma RefundStaysWithin(s: Db, t: TxnId, sender: AccountId, start: nat)
    requires WithinLimits(s, sender, start)
    ensures WithinLimits(Refund(s, t).0, sender, start)
  {
    if t < |s.transactions| {
      ChargeBackStaysWithin(s, t, sender, start);
      MoveStaysWithin(s, t, GuardedCompensations(s.ledger, t), s.transactions[t].status, Reversed, sender, start);
    }
  }

  lemma SettleStaysWithin(s: Db, key: EventKey, sender: AccountId, start: nat)
    requires WithinLimits(s, sender, start) && key in s.events
    ensures WithinLimits(Settle(s, key).0, sender, start)
  {
    if Settle(s, key).1 == Ok {
      var t := FindByReference(s.transactions, key.reference).value;
      var x := s.transactions[t];
      match key.kind
      case CompletedEvent => MoveStaysWithin(s, t, [Payout(t, x)], x.status, Completed, sender, start);
      case FailedEvent => MoveStaysWithin(s, t, Compensations(s.ledger, t), x.status, Failed, sender, start);
      case ProcessingEvent =>
        NoHeavierDay(s.transactions, s.transactions, s.history, Settle(s, key).0.history, sender, start);
    }
  }

  lemma {:induction false} RunStaysWithin(s: Db, ops: seq<Op>, sender: AccountId, start: nat)
    requires WithinLimits(s, sender, start) && start % MS_PER_DAY == 0 && EnabledRun(s, ops)
    ensures WithinLimits(Run(s, ops), sender, start)
    decreases |ops|
  {
    if ops != [] {
      StepStaysWithin(s, ops[0], sender, start);
      RunStaysWithin(Step(s, ops[0]), ops[1..], sender, start);
    }
  }

  /** In every run, off-domain steps included, a sender's day exceeds its limits by at most the payments
      of that day that ever came back from a dispute, each once. */
  lemma SeededRunStaysWithin(limits: Limits, accounts: map<AccountId, Account>, ops: seq<Op>, sender: AccountId,
                             start: nat)
    requires start % MS_PER_DAY == 0 && EnabledRun(Seeded(limits, accounts), ops)
    ensures var s := Run(Seeded(limits, accounts), ops);
            && DayCount(s.transactions, sender, start)
               <= limits.maxCountPerDay + CountWhere(true, s.transactions, s.history, sender, start)
            && DayVolume(s.transactions, sender, start)
               <= limits.maxVolumePerDay + VolumeWhere(true, s.transactions, s.history, sender, start)
  {
    RunStaysWithin(Seeded(limits, accounts), ops, sender, start);
    var s := Run(Seeded(limits, accounts), ops);
    Terms.RunEvolves(Seeded(limits, accounts), ops);
    DaySplits(s.transactions, s.history, sender, start);
  }

  // ----- Exactly when a day stays within its limits -----

  predicate DayWithin(s: Db, sender: AccountId, start: nat) {
    && DayCount(s.transactions, sender, start) <= s.limits.maxCountPerDay
    && DayVolume(s.transactions, sender, start) <= s.limits.maxVolumePerDay
  }

  /** The payment a call would bring back from DISPUTED to COMPLETED. */
  function BroughtBack(s: Db, op: Op): Option<TxnId> {
    if op.ResolveOp? && op.action == Reject && op.txn < |s.transactions| && s.transactions[op.txn].status == Disputed
    then Some(op.txn)
    else if Repays(s, op) then
      var t := FindByReference(s.transactions, op.key.reference).value;
      if s.transactions[t].recipient in s.accounts then Some(t) else None
    else None
  }

  /** Whether a call brings back a payment of the day that no longer fits. */
  predicate Overfills(s: Db, op: Op, sender: AccountId, start: nat) {
    var t := BroughtBack(s, op);
    && t.Some? && InWindow(s.transactions[t.value], sender, start)
    && (|| DayCount(s.transactions, sender, start) >= s.limits.maxCountPerDay
        || DayVolume(s.transactions, sender, start) + s.transactions[t.value].sourceAmount > s.limits.maxVolumePerDay)
  }

  lemma {:induction false} DayUpdate(txns: seq<Transaction>, t: TxnId, y: Transaction, sender: AccountId, start: nat)
    requires t < |txns| && SameOrigin(txns[t], y)
    ensures DayCount(txns[t := y], sender, start) == DayCount(txns, sender, start)
            - (if Weighs(txns[t], sender, start) then 1 else 0) + (if Weighs(y, sender, start) then 1 else 0)
    ensures DayVolume(txns[t := y], sender, start) == DayVolume(txns, sender, start)
            - (if Weighs(txns[t], sender, start) then y.sourceAmount else 0)
            + (if Weighs(y, sender, start) then y.sourceAmount else 0)
  {
    var last := |txns| - 1;
    if t == last {
      assert txns[t := y][..last] == txns[..last];
    } else {
      assert txns[t := y][..last] == txns[..last][t := y];
      DayUpdate(txns[..last], t, y, sender, start);
    }
  }

  /** What a step does to the rows: at most one changes, in its status or reference, or one is added. */
  predicate Touches(s: Db, s': Db, t: TxnId, y: Transaction) {
    && s'.limits == s.limits && t < |s.transactions|
    && SameOrigin(s.transactions[t], y) && s'.transactions == s.transactions[t := y]
  }

  /** A row that does not begin to count leaves a day within its limits; one that does must fit. */
  lemma UpdateWithin(s: Db, s': Db, t: TxnId, y: Transaction, sender: AccountId, start: nat)
    requires DayWithin(s, sender, start) && Touches(s, s', t, y)
    ensures Counted(s.transactions[t].status) || !Counted(y.status) ==> DayWithin(s', sender, start)
    ensures !Counted(s.transactions[t].status) && Counted(y.status) ==>
              (DayWithin(s', sender, start) <==>
                InWindow(y, sender, start) ==>
                  && DayCount(s.transactions, sender, start) < s.limits.maxCountPerDay
                  && DayVolume(s.transactions, sender, start) + y.sourceAmount <= s.limits.maxVolumePerDay)
  {
    DayUpdate(s.transactions, t, y, sender, start);
  }

  lemma CreateWithin(s: Db, r: Request, sender: AccountId, start: nat)
    requires DayWithin(s, sender, start) && start % MS_PER_DAY == 0
    ensures DayWithin(Create(s, r).0, sender, start)
  {
    if Create(s, r).1 == Ok {
      var s' := Create(s, r).0;
      var t := |s.transactions|;
      assert s'.transactions[..t] == s.transactions;
      if InWindow(s'.transactions[t], sender, start) {
        SameDay(r.now, start);
        CreateRespectsLimits(s, r);
      }
    }
  }

  lemma MoveWithin(s: Db, t: TxnId, es: seq<Entry>, from: Status, to: Status, sender: AccountId, start: nat)
    requires DayWithin(s, sender, start) && t < |s.transactions|
    requires Counted(to) ==> Counted(s.transactions[t].status)
    ensures DayWithin(Move(s, t, es, from, to), sender, start)
  {
    UpdateWithin(s, Move(s, t, es, from, to), t, s.transactions[t].(status := to), sender, start);
  }

  lemma ChargeBackWithin(s: Db, t: TxnId, sender: AccountId, start: nat)
    requires DayWithin(s, sender, start) && t < |s.transactions|
    ensures DayWithin(ChargeBack(s, t).0, sender, start)
  {
    var x := s.transactions[t];
    MoveWithin(s, t, [], x.status, Reversed, sender, start);
    MoveWithin(s, t, Chargeback(t, x), x.status, Reversed, sender, start);
  }

  lemma RefundWithin(s: Db, t: TxnId, sender: AccountId, start: nat)
    requires DayWithin(s, sender, start)
    ensures DayWithin(Refund(s, t).0, sender, start)
  {
    if t < |s.transactions| {
      ChargeBackWithin(s, t, sender, start);
      MoveWithin(s, t, GuardedCompensations(s.ledger, t), s.transactions[t].status, Reversed, sender, start);
    }
  }

  lemma SettleWithin(s: Db, key: EventKey, sender: AccountId, start: nat)
    requires DayWithin(s, sender, start) && key in s.events && BroughtBack(s, SettleOp(key)) == None
    ensures DayWithin(Settle(s, key).0, sender, start)
  {
    if Settle(s, key).1 == Ok && !key.kind.ProcessingEvent? {
      var t := FindByReference(s.transactions, key.reference).value;
      var x := s.transactions[t];
      MoveWithin(s, t, if key.kind.CompletedEvent? then [Payout(t, x)] else Compensations(s.ledger, t), x.status,
                 key.kind.Target(), sender, start);
    }
  }

  /** A step that brings nothing back never takes a day over its limits. */
  lemma QuietStepWithin(s: Db, op: Op, sender: AccountId, start: nat)
    requires DayWithin(s, sender, start) && start % MS_PER_DAY == 0 && Enabled(s, op) && BroughtBack(s, op) == None
    ensures DayWithin(Step(s, op), sender, start)
  {
    match op
    case CreateOp(r) => CreateWithin(s, r, sender, start);
    case RefundOp(t) => RefundWithin(s, t, sender, start);
    case DisputeOp(t) =>
      if t < |s.transactions| { MoveWithin(s, t, [], s.transactions[t].status, Disputed, sender, start); }
    case ResolveOp(t, action) =>
      if ResolveDispute(s, t, action).1 == Ok {
        if action == Reverse {
          ChargeBackWithin(s, t, sender, start);
        } else {
          MoveWithin(s, t, [], Disputed, Completed, sender, start);
        }
      }
    case ReceiveOp(_, _) =>
    case SettleOp(key) => SettleWithin(s, key, sender, start);
    case RecordErrorOp(_, _) =>
    case DeadLetterOp(t) =>
      if t < |s.transactions| {
        MoveWithin(s, t, GuardedCompensations(s.ledger, t), Processing, Failed, sender, start);
      }
    case AssignReferenceOp(t, ref) =>
      if t < |s.transactions| {
        UpdateWithin(s, Step(s, op), t, s.transactions[t].(reference := Some(ref)), sender, start);
      }
  }

  lemma BringingBack(s: Db, op: Op)
    requires Enabled(s, op) && BroughtBack(s, op).Some?
    ensures var t := BroughtBack(s, op).value;
            && t < |s.transactions| && s.transactions[t].status == Disputed
            && Touches(s, Step(s, op), t, s.transactions[t].(status := Completed))
  {}

  /** From any database whose day is within its limits, a step leaves it within them if and only if it does not bring
      back a payment that no longer fits. */
  lemma StepWithinExactly(s: Db, op: Op, sender: AccountId, start: nat)
    requires DayWithin(s, sender, start) && start % MS_PER_DAY == 0 && Enabled(s, op)
    ensures DayWithin(Step(s, op), sender, start) <==> !Overfills(s, op, sender, start)
  {
    var t := BroughtBack(s, op);
    if t == None {
      QuietStepWithin(s, op, sender, start);
    } else {
      BringingBack(s, op);
      UpdateWithin(s, Step(s, op), t.value, s.transactions[t.value].(status := Completed), sender, start);
    }
  }

  /** In a consistent database only a rejected dispute brings a payment back. */
  lemma OnlyRejectionsBringBack(s: Db, open: map<AccountId, int>, op: Op)
    requires Invariant.Consistent(s, open) && Enabled(s, op) && BroughtBack(s, op).Some?
    ensures op == ResolveOp(BroughtBack(s, op).value, Reject)
  {
    Invariant.NothingRepays(s, op);
  }

  /** Whether the day is within its limits after every step of a run. */
  predicate AlwaysWithin(s: Db, ops: seq<Op>, sender: AccountId, start: nat)
    requires EnabledRun(s, ops)
    decreases |ops|
  {
    DayWithin(s, sender, start) && (ops != [] ==> AlwaysWithin(Step(s, ops[0]), ops[1..], sender, start))
  }

  predicate NeverOverfills(s: Db, ops: seq<Op>, sender: AccountId, start: nat)
    requires EnabledRun(s, ops)
    decreases |ops|
  {
    ops != [] ==> !Overfills(s, ops[0], sender, start) && NeverOverfills(Step(s, ops[0]), ops[1..], sender, start)
  }

  /** In every run, off-domain steps included, a day stays within its limits all along if and only if no step
      overfills it. */
  lemma {:induction false} RunWithinExactly(s: Db, ops: seq<Op>, sender: AccountId, start: nat)
    requires DayWithin(s, sender, start) && start % MS_PER_DAY == 0 && EnabledRun(s, ops)
    ensures AlwaysWithin(s, ops, sender, start) <==> NeverOverfills(s, ops, sender, start)
    decreases |ops|
  {
    if ops != [] {
      StepWithinExactly(s, ops[0], sender, start);
      if DayWithin(Step(s, ops[0]), sender, start) {
        RunWithinExactly(Step(s, ops[0]), ops[1..], sender, start);
      }
    }
  }

  lemma SeededRunWithinExactly(limits: Limits, accounts: map<AccountId, Account>, ops: seq<Op>, sender: AccountId,
                               start: nat)
    requires start % MS_PER_DAY == 0 && EnabledRun(Seeded(limits, accounts), ops)
    ensures AlwaysWithin(Seeded(limits, accounts), ops, sender, start)
            <==> NeverOverfills(Seeded(limits, accounts), ops, sender, start)
  {
    RunWithinExactly(Seeded(limits, accounts), ops, sender, start);
  }
}
