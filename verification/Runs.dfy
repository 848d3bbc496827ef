/** What holds after every run, and exactly which steps break the strong invariant. */
module Runs {
  import opened Tables
  import opened Operations
  import opened Invariant

  function Opening(accounts: map<AccountId, Account>): map<AccountId, int> {
    map a | a in accounts :: accounts[a].balance
  }

  lemma {:induction false} RunKeeps(s: Db, open: map<AccountId, int>, ops: seq<Op>)
    requires Consistent(s, open) && EnabledRun(s, ops) && InDomainRun(s, ops)
    ensures Consistent(Run(s, ops), open)
    decreases |ops|
  {
    if ops != [] {
      StepKeeps(s, open, ops[0]);
      RunKeeps(Step(s, ops[0]), open, ops[1..]);
    }
  }

  // ----- Every run, off-domain steps included -----

  predicate Solvent(s: Db) {
    forall a | a in s.accounts :: s.accounts[a].balance >= 0
  }

  lemma {:induction false} SumNonNegative(es: seq<Entry>, a: AccountId)
    requires forall e | e in es :: e.amount >= 0
    ensures Sum(es, a) >= 0
  {
    if es != [] {
      SumNonNegative(es[..|es| - 1], a);
    }
  }

  /** Appending credits, or a guarded debit followed by credits, keeps balances non-negative. */
  lemma AppendKeepsSolvent(s: Db, es: seq<Entry>)
    requires Solvent(s)
    requires forall k | 0 < k < |es| :: es[k].amount >= 0
    requires es != [] ==>
               || es[0].amount >= 0
               || (es[0].account in s.accounts && s.accounts[es[0].account].balance + es[0].amount >= 0)
    ensures Solvent(Append(s, es))
  {
    forall a | a in s.accounts
      ensures s.accounts[a].balance + Sum(es, a) >= 0
    {
      if es != [] {
        assert es == es[..1] + es[1..];
        SumAppend(es[..1], es[1..], a);
        SumOne(es[0], a);
        assert es[..1] == [es[0]];
        SumNonNegative(es[1..], a);
      }
    }
  }

  /** Debits are written with a minus, credits without. */
  predicate Signed(e: Entry) {
    if e.entryType == Debit then e.amount <= 0 else e.amount >= 0
  }

  /** `after` has these entries more in its ledger, balances moved by exactly them, and rows more in its history. */
  predicate ExtendsBy(before: Db, after: Db, es: seq<Entry>) {
    && (forall e | e in es :: Signed(e))
    && after.accounts == Post(before.accounts, es)
    && after.ledger == before.ledger + es
    && before.history <= after.history
  }

  ghost predicate Extends(before: Db, after: Db) {
    && (exists es :: ExtendsBy(before, after, es))
    && (Solvent(before) ==> Solvent(after))
  }

  lemma AppendExtends(s: Db, s': Db, es: seq<Entry>)
    requires s'.accounts == Append(s, es).accounts && s'.ledger == Append(s, es).ledger && s.history <= s'.history
    requires forall e | e in es :: Signed(e)
    requires forall k | 0 < k < |es| :: es[k].amount >= 0
    requires es != [] ==>
               || es[0].amount >= 0
               || (es[0].account in s.accounts && s.accounts[es[0].account].balance + es[0].amount >= 0)
    ensures Extends(s, s')
  {
    assert ExtendsBy(s, s', es);
    if Solvent(s) {
      AppendKeepsSolvent(s, es);
    }
  }

  lemma RowsExtend(s: Db, s': Db)
    requires s'.accounts == s.accounts && s'.ledger == s.ledger && s.history <= s'.history
    ensures Extends(s, s')
  {
    AppendNothing(s);
    AppendExtends(s, s', []);
  }

  lemma ChargeBackExtends(s: Db, t: TxnId)
    requires t < |s.transactions|
    ensures Extends(s, ChargeBack(s, t).0)
  {
    var s' := ChargeBack(s, t).0;
    AppendNothing(s);
    if s'.ledger == s.ledger {
      RowsExtend(s, s');
    } else {
      AppendExtends(s, s', Chargeback(t, s.transactions[t]));
    }
  }

  lemma CompensationExtends(s: Db, t: TxnId, s': Db)
    requires s'.accounts == Append(s, Compensations(s.ledger, t)).accounts &&
             s'.ledger == Append(s, Compensations(s.ledger, t)).ledger
    requires s.history <= s'.history
    ensures Extends(s, s')
  {
    AppendExtends(s, s', Compensations(s.ledger, t));
  }

  lemma RefundExtends(s: Db, t: TxnId)
    ensures Extends(s, Refund(s, t).0)
  {
    var s' := Refund(s, t).0;
    AppendNothing(s);
    if Refund(s, t).1 != Ok || HasBeenReversed(s.ledger, t) {
      RowsExtend(s, s');
    } else if s.transactions[t].status == Completed {
      ChargeBackExtends(s, t);
    } else {
      CompensationExtends(s, t, s');
    }
  }

  lemma CreateExtends(s: Db, r: Request)
    ensures Extends(s, Create(s, r).0)
  {
    var s' := Create(s, r).0;
    if CreateFault(s, r) == None {
      AppendExtends(s, s', [Hold(|s.transactions|, s'.transactions[|s.transactions|])]);
    } else {
      RowsExtend(s, s');
    }
  }

  lemma SettleExtends(s: Db, key: EventKey)
    requires key in s.events
    ensures Extends(s, Settle(s, key).0)
  {
    var s' := Settle(s, key).0;
    if Settle(s, key).1 != Ok || key.kind.ProcessingEvent? {
      RowsExtend(s, s');
    } else {
      var t := FindByReference(s.transactions, key.reference).value;
      if key.kind.FailedEvent? {
        CompensationExtends(s, t, s');
      } else {
        AppendExtends(s, s', [Payout(t, s.transactions[t])]);
      }
    }
  }

  lemma DeadLetterExtends(s: Db, t: TxnId)
    ensures Extends(s, DeadLetter(s, t).0)
  {
    AppendNothing(s);
    if DeadLetter(s, t).1 == Ok && !HasBeenReversed(s.ledger, t) {
      CompensationExtends(s, t, DeadLetter(s, t).0);
    } else {
      RowsExtend(s, DeadLetter(s, t).0);
    }
  }

  /** Every step appends, moves balances by exactly what it appends, and leaves no balance negative. */
  lemma StepExtends(s: Db, op: Op)
    requires Enabled(s, op)
    ensures Extends(s, Step(s, op))
  {
    match op
    case CreateOp(r) => CreateExtends(s, r);
    case RefundOp(t) => RefundExtends(s, t);
    case DisputeOp(t) => AppendNothing(s); RowsExtend(s, Step(s, op));
    case ResolveOp(t, action) =>
      AppendNothing(s);
      if action == Reverse && t < |s.transactions| && ValidTransition(s.transactions[t].status, Reversed) {
        ChargeBackExtends(s, t);
      } else {
        RowsExtend(s, Step(s, op));
      }
    case SettleOp(key) => SettleExtends(s, key);
    case DeadLetterOp(t) => DeadLetterExtends(s, t);
    case ReceiveOp(_, _) => RowsExtend(s, Step(s, op));
    case RecordErrorOp(_, _) => RowsExtend(s, Step(s, op));
    case AssignReferenceOp(_, _) => RowsExtend(s, Step(s, op));
  }

  /** Balance minus ledger sum: what the reconciliation query compares with zero. */
  function Gap(s: Db, a: AccountId): int
    requires a in s.accounts
  {
    s.accounts[a].balance - Sum(s.ledger, a)
  }

  /** In every run the ledger and the history only grow, no balance goes negative,
      and every account keeps the difference between its balance and its ledger sum. */
  lemma {:induction false} RunReconciles(s: Db, ops: seq<Op>)
    requires EnabledRun(s, ops)
    ensures s.ledger <= Run(s, ops).ledger && s.history <= Run(s, ops).history
    ensures Solvent(s) ==> Solvent(Run(s, ops))
    ensures Run(s, ops).accounts.Keys == s.accounts.Keys
    ensures forall a | a in s.accounts :: Gap(Run(s, ops), a) == Gap(s, a)
    ensures (forall e | e in s.ledger :: Signed(e)) ==> forall e | e in Run(s, ops).ledger :: Signed(e)
    decreases |ops|
  {
    if ops != [] {
      StepExtends(s, ops[0]);
      var es :| ExtendsBy(s, Step(s, ops[0]), es);
      forall a | a in s.accounts
        ensures Gap(Step(s, ops[0]), a) == Gap(s, a)
      {
        SumAppend(s.ledger, es, a);
      }
      RunReconciles(Step(s, ops[0]), ops[1..]);
    }
  }

  // ----- In-domain runs from a seeded database -----

  /** Every balance is a function of the statuses alone. */
  lemma BalancesFollowStatuses(limits: Limits, accounts: map<AccountId, Account>, ops: seq<Op>, a: AccountId)
    requires EnabledRun(Seeded(limits, accounts), ops) && InDomainRun(Seeded(limits, accounts), ops)
    requires a in accounts
    ensures var s := Run(Seeded(limits, accounts), ops);
            a in s.accounts && s.accounts[a].balance == accounts[a].balance + Effects(s.transactions, a)
  {
    SeededIsConsistent(limits, accounts);
    RunKeeps(Seeded(limits, accounts), Opening(accounts), ops);
  }

  lemma SumFour(es: seq<Entry>, a: AccountId)
    requires |es| == 4
    ensures Sum(es, a) == AmountOn(es[0], a) + AmountOn(es[1], a) + AmountOn(es[2], a) + AmountOn(es[3], a)
  {
    assert es == [es[0], es[1]] + [es[2], es[3]];
    SumAppend([es[0], es[1]], [es[2], es[3]], a);
    SumTwo(es[0], es[1], a);
    SumTwo(es[2], es[3], a);
  }

  /** The entries of a transaction add up to its effect, so a FAILED or REVERSED one nets to zero on every account;
      there are never more than four of them. */
  lemma EntriesAddUp(s: Db, open: map<AccountId, int>, t: TxnId, a: AccountId)
    requires Consistent(s, open) && t < |s.transactions|
    ensures |Of(s.ledger, t)| <= 4
    ensures Sum(Of(s.ledger, t), a) == Effect(s.transactions[t], a)
    ensures s.transactions[t].status == Failed || s.transactions[t].status == Reversed ==> Sum(Of(s.ledger, t), a) == 0
  {
    var x := s.transactions[t];
    var es := Of(s.ledger, t);
    assert LedgerShape(t, x, es);
    SumOne(Hold(t, x), a);
    SumTwo(Hold(t, x), Payout(t, x), a);
    SumTwo(Hold(t, x), Return(t, x), a);
    if |es| == 4 {
      SumFour(es, a);
    }
  }

  /** The recorded states of a transaction form a path through the transition table that ends at its status. */
  lemma HistoryIsAPath(s: Db, open: map<AccountId, int>, t: TxnId, k: nat)
    requires Consistent(s, open) && t < |s.transactions|
    ensures var rows := HistoryOf(s.history, t);
            && |rows| >= 2
            && rows[0] == HistoryRow(t, None, Initiated) && rows[1] == HistoryRow(t, Some(Initiated), Processing)
            && rows[|rows| - 1].to == s.transactions[t].status
            && (1 <= k < |rows| ==> rows[k].from == Some(rows[k - 1].to) && ValidTransition(rows[k - 1].to, rows[k].to))
  {
    var rows := HistoryOf(s.history, t);
    assert HistoryChain(t, rows, s.transactions[t].status);
    if 1 <= k < |rows| {
      LinkedAt(rows, k);
    }
  }

  /** No committed payment is INITIATED, so a `processing` webhook for one always throws. */
  lemma ProcessingWebhookThrows(s: Db, open: map<AccountId, int>, ref: Ref)
    requires Consistent(s, open) && EventKey(ref, ProcessingEvent) in s.events
    requires FindByReference(s.transactions, ref).Some?
    ensures Settle(s, EventKey(ref, ProcessingEvent)).1 == Err(InvalidTransition)
  {
    var t := FindByReference(s.transactions, ref).value;
    assert LedgerShape(t, s.transactions[t], Of(s.ledger, t));
  }

  // ----- Single settlement -----

  /** Whether a step is a completion webhook that credits the recipient of `t`. */
  predicate Credits(s: Db, op: Op, t: TxnId)
    requires Enabled(s, op)
  {
    && op.SettleOp?
    && op.key.kind == CompletedEvent
    && FindByReference(s.transactions, op.key.reference) == Some(t)
    && Exec(s, op).1 == Ok
  }

  function CreditCount(s: Db, ops: seq<Op>, t: TxnId): nat
    requires EnabledRun(s, ops)
    decreases |ops|
  {
    if ops == [] then 0
    else (if Credits(s, ops[0], t) then 1 else 0) + CreditCount(Step(s, ops[0]), ops[1..], t)
  }

  /** Whether the ledger shows a payout of `t`. */
  predicate PaidEver(s: Db, t: TxnId) {
    |Of(s.ledger, t)| >= 2 && !Of(s.ledger, t)[1].isReversal
  }

  lemma NoEntriesYet(s: Db, t: TxnId)
    requires Owned(s) && t >= |s.transactions|
    ensures Of(s.ledger, t) == []
  {
    OfNone(s.ledger, t);
  }

  /** A payout appears in the ledger exactly at the step that credits it. */
  lemma StepPays(s: Db, open: map<AccountId, int>, op: Op, t: TxnId)
    requires Sound(s, open) && Enabled(s, op) && !OffDomain(s, op) && !Repays(s, op)
    ensures Credits(s, op, t) ==> !PaidEver(s, t)
    ensures PaidEver(Step(s, op), t) <==> PaidEver(s, t) || Credits(s, op, t)
  {
    StepKeepsSound(s, open, op);
    if t < |s.transactions| {
      StepPaysKnown(s, Step(s, op), open, op, t);
    } else {
      NoEntriesYet(s, t);
      if t < |Step(s, op).transactions| {
        assert LedgerShape(t, Step(s, op).transactions[t], Of(Step(s, op).ledger, t));
        NewIsProcessing(s, op, t);
      } else {
        NoEntriesYet(Step(s, op), t);
      }
    }
  }

  lemma NewIsProcessing(s: Db, op: Op, t: TxnId)
    requires Enabled(s, op) && |s.transactions| <= t < |Step(s, op).transactions|
    ensures Step(s, op).transactions[t].status == Processing
  {}

  lemma StepPaysKnown(s: Db, s': Db, open: map<AccountId, int>, op: Op, t: TxnId)
    requires Sound(s, open) && Enabled(s, op) && !OffDomain(s, op) && !Repays(s, op)
    requires s' == Step(s, op) && Sound(s', open)
    requires t < |s.transactions|
    ensures Credits(s, op, t) ==> !PaidEver(s, t)
    ensures PaidEver(s', t) <==> PaidEver(s, t) || Credits(s, op, t)
  {
    StepFromProcessing(s, op, t);
    FirstCreditCompletes(s, open, op, t);
    StepExtends(s, op);
    var es :| ExtendsBy(s, s', es);
    OfAppend(s.ledger, es, t);
    assert Of(s.ledger, t) <= Of(s'.ledger, t);
    ShapePays(t, s.transactions[t], Of(s.ledger, t));
    ShapePays(t, s'.transactions[t], Of(s'.ledger, t));
    assert LedgerShape(t, s.transactions[t], Of(s.ledger, t));
    assert LedgerShape(t, s'.transactions[t], Of(s'.ledger, t));
  }

  lemma FirstCreditCompletes(s: Db, open: map<AccountId, int>, op: Op, t: TxnId)
    requires Sound(s, open) && Enabled(s, op) && !Repays(s, op) && t < |s.transactions|
    ensures Credits(s, op, t) ==> s.transactions[t].status == Processing
  {
    assert LedgerShape(t, s.transactions[t], Of(s.ledger, t));
  }

  /** Which shapes hold a payout. */
  lemma ShapePays(t: TxnId, x: Transaction, es: seq<Entry>)
    requires LedgerShape(t, x, es)
    ensures |es| >= 1
    ensures |es| == 1 <==> x.status == Processing
    ensures |es| >= 2 && !es[1].isReversal ==> PaidOut(x.status) || x.status == Reversed
    ensures PaidOut(x.status) ==> |es| >= 2 && !es[1].isReversal
    ensures x.status == Failed ==> |es| >= 2 && es[1].isReversal
  {}

  /** In-domain, only a completion webhook takes a payment out of PROCESSING other than to FAILED. */
  lemma StepFromProcessing(s: Db, op: Op, t: TxnId)
    requires Enabled(s, op) && !OffDomain(s, op) && t < |s.transactions|
    ensures t < |Step(s, op).transactions|
    ensures s.transactions[t].status == Processing ==>
              var status := Step(s, op).transactions[t].status;
              if Credits(s, op, t) then status == Completed else status == Processing || status == Failed
  {
    match op
    case SettleOp(key) => SettleFromProcessing(s, key, t);
    case RefundOp(u) => assert u < |s.transactions| && s.transactions[u].status == Processing ==> Refund(s, u).0 == s;
    case ResolveOp(u, _) => assert u < |s.transactions| && s.transactions[u].status == Processing ==> Step(s, op) == s;
    case _ =>
  }

  lemma SettleFromProcessing(s: Db, key: EventKey, t: TxnId)
    requires key in s.events && t < |s.transactions|
    ensures t < |Settle(s, key).0.transactions|
    ensures s.transactions[t].status == Processing ==>
              var status := Settle(s, key).0.transactions[t].status;
              if key.kind == CompletedEvent && FindByReference(s.transactions, key.reference) == Some(t) &&
                Settle(s, key).1 == Ok
              then status == Completed else status == Processing || status == Failed
  {}

  lemma {:induction false} RunPays(s: Db, open: map<AccountId, int>, ops: seq<Op>, t: TxnId)
    requires Consistent(s, open) && EnabledRun(s, ops) && InDomainRun(s, ops)
    ensures CreditCount(s, ops, t) + (if PaidEver(s, t) then 1 else 0) == (if PaidEver(Run(s, ops), t) then 1 else 0)
    decreases |ops|
  {
    if ops != [] {
      NothingRepays(s, ops[0]);
      StepPays(s, open, ops[0], t);
      StepKeeps(s, open, ops[0]);
      RunPays(Step(s, ops[0]), open, ops[1..], t);
    }
  }

  /** The completion event of the payment's reference has been worked off. */
  predicate Spent(s: Db, t: TxnId) {
    && t < |s.transactions| && s.transactions[t].reference.Some?
    && var key := EventKey(s.transactions[t].reference.value, CompletedEvent);
       key in s.events && !s.events[key].Pending()
  }

  lemma StepKeepsReference(s: Db, op: Op, t: TxnId)
    requires Enabled(s, op) && t < |s.transactions| && s.transactions[t].reference.Some?
    ensures t < |Step(s, op).transactions| && Step(s, op).transactions[t].reference == s.transactions[t].reference
  {}

  lemma StepKeepsWorkedOff(s: Db, op: Op, key: EventKey)
    requires Enabled(s, op) && key in s.events && !s.events[key].Pending()
    ensures key in Step(s, op).events && !Step(s, op).events[key].Pending()
  {}

  lemma StepKeepsSpent(s: Db, op: Op, t: TxnId)
    requires Enabled(s, op) && Spent(s, t)
    ensures Spent(Step(s, op), t)
  {
    StepKeepsReference(s, op, t);
    StepKeepsWorkedOff(s, op, EventKey(s.transactions[t].reference.value, CompletedEvent));
  }

  lemma CreditSpends(s: Db, op: Op, t: TxnId)
    requires Enabled(s, op) && Credits(s, op, t)
    ensures !Spent(s, t) && Spent(Step(s, op), t)
  {}

  /** From any database, and whatever is called, off-domain steps included, the recipient is webhook-credited at most
      once, and not at all once the completion event is spent. */
  lemma {:induction false} CreditedAtMostOnce(s: Db, ops: seq<Op>, t: TxnId)
    requires EnabledRun(s, ops)
    ensures CreditCount(s, ops, t) + (if Spent(s, t) then 1 else 0) <= 1
    decreases |ops|
  {
    if ops != [] {
      if Spent(s, t) {
        StepKeepsSpent(s, ops[0], t);
      }
      if Credits(s, ops[0], t) {
        CreditSpends(s, ops[0], t);
      }
      CreditedAtMostOnce(Step(s, ops[0]), ops[1..], t);
    }
  }

  /** In-domain, the one credit comes exactly with the payout, and never if the sender was compensated. */
  lemma SingleSettlement(limits: Limits, accounts: map<AccountId, Account>, ops: seq<Op>, t: TxnId)
    requires EnabledRun(Seeded(limits, accounts), ops) && InDomainRun(Seeded(limits, accounts), ops)
    ensures var s := Seeded(limits, accounts);
            && (CreditCount(s, ops, t) == 1 <==> PaidEver(Run(s, ops), t))
            && (CreditCount(s, ops, t) == 1 ==> !HasBeenReversed(Run(s, ops).ledger, t))
            && (t < |Run(s, ops).transactions| && PaidOut(Run(s, ops).transactions[t].status) ==>
                CreditCount(s, ops, t) == 1)
  {
    var s := Seeded(limits, accounts);
    SeededIsConsistent(limits, accounts);
    RunPays(s, Opening(accounts), ops, t);
    RunKeeps(s, Opening(accounts), ops);
    var final := Run(s, ops);
    if t < |final.transactions| {
      assert LedgerShape(t, final.transactions[t], Of(final.ledger, t));
    } else {
      NoEntriesYet(final, t);
    }
  }

  // ----- The two off-domain steps -----

  /** Compensating a payment that was paid out misses the payout. */
  lemma CompensatedPayout(s: Db, open: map<AccountId, int>, t: TxnId, a: AccountId)
    requires Balanced(s, open) && t < |s.transactions| && s.transactions[t].status == Disputed && a in s.accounts
    ensures var x := s.transactions[t];
            var s' := Move(s, t, [Return(t, x)], Disputed, Reversed);
            s'.accounts[a].balance == open[a] + Effects(s'.transactions, a)
              + (if a == x.recipient then x.destinationAmount else 0)
  {
    var x := s.transactions[t];
    SumOne(Return(t, x), a);
    MoveResidual(s, open, t, [Return(t, x)], Disputed, Reversed, a);
  }

  /** A refund of a DISPUTED payment restores the sender and leaves the recipient the payout. */
  lemma RefundDisputedResidual(s: Db, open: map<AccountId, int>, t: TxnId)
    requires Sound(s, open) && t < |s.transactions| && s.transactions[t].status == Disputed
    ensures var x := s.transactions[t];
            var (s', reply) := Refund(s, t);
            && reply == Ok
            && s'.transactions == s.transactions[t := x.(status := Reversed)]
            && Of(s'.ledger, t) == [Hold(t, x), Payout(t, x), Return(t, x)]
            && s'.accounts.Keys == open.Keys
            && forall a | a in open ::
                 s'.accounts[a].balance == open[a] + Effects(s'.transactions, a)
                   + (if a == x.recipient then x.destinationAmount else 0)
  {
    var x := s.transactions[t];
    HeldCompensation(s, t);
    assert Refund(s, t) == (Move(s, t, [Return(t, x)], Disputed, Reversed), Ok);
    EntriesAfterReturn(s, t);
    forall a | a in open
      ensures var s' := Move(s, t, [Return(t, x)], Disputed, Reversed);
              s'.accounts[a].balance == open[a] + Effects(s'.transactions, a)
                + (if a == x.recipient then x.destinationAmount else 0)
    {
      CompensatedPayout(s, open, t, a);
    }
  }

  lemma EntriesAfterReturn(s: Db, t: TxnId)
    requires Shapes(s) && t < |s.transactions| && s.transactions[t].status == Disputed
    ensures var x := s.transactions[t];
            Of(s.ledger + [Return(t, x)], t) == [Hold(t, x), Payout(t, x), Return(t, x)]
  {
    assert LedgerShape(t, s.transactions[t], Of(s.ledger, t));
    EntriesSelect(s.ledger, [Return(t, s.transactions[t])], t, t);
  }

  /** Rejecting a dispute on a PROCESSING payment completes it without a payout. */
  lemma RejectProcessingResidual(s: Db, open: map<AccountId, int>, t: TxnId)
    requires Sound(s, open) && t < |s.transactions| && s.transactions[t].status == Processing
    ensures var x := s.transactions[t];
            var (s', reply) := ResolveDispute(s, t, Reject);
            && reply == Ok
            && s'.transactions == s.transactions[t := x.(status := Completed)]
            && Of(s'.ledger, t) == [Hold(t, x)]
            && s'.history == s.history + [HistoryRow(t, Some(Disputed), Completed)]
            && s'.accounts.Keys == open.Keys
            && forall a | a in open ::
                 s'.accounts[a].balance == open[a] + Effects(s'.transactions, a)
                   - (if a == x.recipient then x.destinationAmount else 0)
  {
    var x := s.transactions[t];
    var s' := ResolveDispute(s, t, Reject).0;
    AppendNothing(s);
    assert LedgerShape(t, x, Of(s.ledger, t));
    forall a | a in open
      ensures s'.accounts[a].balance == open[a] + Effects(s'.transactions, a)
              - (if a == x.recipient then x.destinationAmount else 0)
    {
      MoveResidual(s, open, t, [], Disputed, Completed, a);
    }
  }

  /** Neither residual is one of the shapes. */
  lemma OffDomainMisshapes(s: Db, open: map<AccountId, int>, op: Op)
    requires Consistent(s, open) && Enabled(s, op) && OffDomain(s, op)
    ensures !Shapes(Step(s, op))
  {
    var t, x := op.txn, s.transactions[op.txn];
    var s' := Step(s, op);
    if op.RefundOp? {
      RefundDisputedResidual(s, open, t);
      assert |Of(s'.ledger, t)| == 3 && s'.transactions[t].status == Reversed;
    } else {
      RejectProcessingResidual(s, open, t);
      assert |Of(s'.ledger, t)| == 1 && s'.transactions[t].status == Completed;
    }
    ShapeLength(t, s'.transactions[t], Of(s'.ledger, t));
  }

  lemma ShapeLength(t: TxnId, x: Transaction, es: seq<Entry>)
    ensures LedgerShape(t, x, es) && x.status == Reversed ==> |es| == 2 || |es| == 4
    ensures LedgerShape(t, x, es) && x.status == Completed ==> |es| == 2
  {}

  /** A step keeps the strong invariant exactly when it is in-domain. */
  lemma StepKeepsExactly(s: Db, open: map<AccountId, int>, op: Op)
    requires Consistent(s, open) && Enabled(s, op)
    ensures Consistent(Step(s, op), open) <==> !OffDomain(s, op)
  {
    if OffDomain(s, op) {
      OffDomainMisshapes(s, open, op);
    } else {
      StepKeeps(s, open, op);
    }
  }

  /** An off-domain step keeps the balances only when the payout is worth nothing. */
  lemma OffDomainUnbalances(s: Db, open: map<AccountId, int>, op: Op)
    requires Consistent(s, open) && Enabled(s, op) && OffDomain(s, op)
    ensures Balanced(Step(s, op), open) <==> s.transactions[op.txn].destinationAmount == 0
  {
    var x := s.transactions[op.txn];
    assert Parties(x, s.accounts);
    if op.RefundOp? {
      RefundDisputedResidual(s, open, op.txn);
    } else {
      RejectProcessingResidual(s, open, op.txn);
    }
    assert x.recipient in open;
  }
}
