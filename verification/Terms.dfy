/** What a payment was agreed on at creation never changes, whatever provider, webhooks and operators do. */
module Terms {
  import opened Tables
  import opened Operations
  import Fx

  /** A payment agrees with its accounts and with the rate table. */
  predicate Agreed(x: Transaction, accounts: map<AccountId, Account>, limits: Limits) {
    && x.sender in accounts && x.recipient in accounts && x.sender != x.recipient
    && accounts[x.sender].currency == x.sourceCurrency && accounts[x.recipient].currency == x.destinationCurrency
    && Fx.Rate(x.sourceCurrency, x.destinationCurrency) == Some(x.rate)
    && 0 < x.sourceAmount <= limits.maxPerTransaction
    && x.destinationAmount == Fx.Convert(x.sourceAmount, x.rate)
  }

  /** Only status and reference differ. */
  predicate SameTerms(x: Transaction, y: Transaction) {
    x.(status := y.status, reference := y.reference) == y
  }

  /** The table keeps its rows, up to status and reference, and what it gains is agreed. */
  predicate Evolves(s: Db, s': Db) {
    && s'.limits == s.limits && s'.accounts.Keys == s.accounts.Keys
    && (forall a | a in s.accounts :: s'.accounts[a].currency == s.accounts[a].currency)
    && |s.transactions| <= |s'.transactions|
    && (forall t | 0 <= t < |s.transactions| :: SameTerms(s.transactions[t], s'.transactions[t]))
    && (forall t | |s.transactions| <= t < |s'.transactions| :: Agreed(s'.transactions[t], s'.accounts, s'.limits))
  }

  lemma MoveEvolves(s: Db, t: TxnId, es: seq<Entry>, from: Status, to: Status)
    requires t < |s.transactions|
    ensures Evolves(s, Move(s, t, es, from, to))
  {}

  lemma SettleEvolves(s: Db, key: EventKey)
    requires key in s.events
    ensures Evolves(s, Settle(s, key).0)
  {
    if Settle(s, key).1 == Ok && !key.kind.ProcessingEvent? {
      var t := FindByReference(s.transactions, key.reference).value;
      var x := s.transactions[t];
      var es := if key.kind.CompletedEvent? then [Payout(t, x)] else Compensations(s.ledger, t);
      MoveEvolves(s, t, es, x.status, key.kind.Target());
    }
  }

  lemma ChargeBackEvolves(s: Db, t: TxnId)
    requires t < |s.transactions|
    ensures Evolves(s, ChargeBack(s, t).0)
  {
    var x := s.transactions[t];
    MoveEvolves(s, t, [], x.status, Reversed);
    MoveEvolves(s, t, Chargeback(t, x), x.status, Reversed);
  }

  lemma RefundEvolves(s: Db, t: TxnId)
    ensures Evolves(s, Refund(s, t).0)
  {
    if t < |s.transactions| {
      ChargeBackEvolves(s, t);
      MoveEvolves(s, t, GuardedCompensations(s.ledger, t), s.transactions[t].status, Reversed);
    }
  }

  lemma ResolveEvolves(s: Db, t: TxnId, action: Action)
    ensures Evolves(s, ResolveDispute(s, t, action).0)
  {
    if t < |s.transactions| {
      ChargeBackEvolves(s, t);
      MoveEvolves(s, t, [], Disputed, Completed);
    }
  }

  lemma CreateEvolves(s: Db, r: Request)
    ensures Evolves(s, Create(s, r).0)
  {}

  lemma StepEvolves(s: Db, op: Op)
    requires Enabled(s, op)
    ensures Evolves(s, Step(s, op))
  {
    match op
    case CreateOp(r) => CreateEvolves(s, r);
    case RefundOp(t) => RefundEvolves(s, t);
    case DisputeOp(t) =>
      if t < |s.transactions| { MoveEvolves(s, t, [], s.transactions[t].status, Disputed); }
    case ResolveOp(t, action) => ResolveEvolves(s, t, action);
    case ReceiveOp(_, _) =>
    case SettleOp(key) => SettleEvolves(s, key);
    case RecordErrorOp(_, _) =>
    case DeadLetterOp(t) =>
      if t < |s.transactions| { MoveEvolves(s, t, GuardedCompensations(s.ledger, t), Processing, Failed); }
    case AssignReferenceOp(_, _) =>
  }

  lemma EvolvesTransitive(s: Db, s1: Db, s2: Db)
    requires Evolves(s, s1) && Evolves(s1, s2)
    ensures Evolves(s, s2)
  {
    forall t | |s.transactions| <= t < |s2.transactions|
      ensures Agreed(s2.transactions[t], s2.accounts, s2.limits)
    {
      if t < |s1.transactions| {
        assert Agreed(s1.transactions[t], s1.accounts, s1.limits) && SameTerms(s1.transactions[t], s2.transactions[t]);
      }
    }
  }

  /** In every run, off-domain steps included, rows are never removed and the parties, amounts, rate and creation
      time of a payment stay those it was created with. */
  lemma {:induction false} RunEvolves(s: Db, ops: seq<Op>)
    requires EnabledRun(s, ops)
    ensures Evolves(s, Run(s, ops))
    decreases |ops|
  {
    if ops != [] {
      StepEvolves(s, ops[0]);
      RunEvolves(Step(s, ops[0]), ops[1..]);
      EvolvesTransitive(s, Step(s, ops[0]), Run(s, ops));
    }
  }

  /** Every payment of a reachable state fits its accounts' currencies, the limit and the rate table, and pays out
      its amount converted once, to the nearest unit. */
  lemma PaymentsAreAgreed(limits: Limits, accounts: map<AccountId, Account>, ops: seq<Op>, t: TxnId)
    requires EnabledRun(Seeded(limits, accounts), ops) && t < |Run(Seeded(limits, accounts), ops).transactions|
    ensures var x := Run(Seeded(limits, accounts), ops).transactions[t];
            && Agreed(x, accounts, limits)
            && -(Fx.SCALE / 2) < x.destinationAmount * Fx.SCALE - x.sourceAmount * x.rate <= Fx.SCALE / 2
  {
    RunEvolves(Seeded(limits, accounts), ops);
    var s := Run(Seeded(limits, accounts), ops);
    var x := s.transactions[t];
    assert Agreed(x, s.accounts, s.limits);
    Fx.ConvertIsNearest(x.sourceAmount, x.rate);
  }
}
