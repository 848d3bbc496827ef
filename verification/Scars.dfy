/** What breaks the invariant leaves a scar in the append-only tables, so it is never whole again. */
module Scars {
  import opened Tables
  import opened Operations
  import opened Invariant
  import opened Runs
  import Terms

  /** A third entry that is no debit, or a history that is no chain. */
  predicate Scar(es: seq<Entry>, rows: seq<HistoryRow>) {
    (|es| >= 3 && es[2].entryType == Credit) || !Linked(rows)
  }

  ghost predicate Scarred(s: Db) {
    exists t: TxnId :: t < |s.transactions| && Scar(Of(s.ledger, t), HistoryOf(s.history, t))
  }

  lemma SoundIsUnscarred(s: Db, open: map<AccountId, int>)
    ensures Sound(s, open) ==> !Scarred(s)
  {
    if Sound(s, open) {
      forall t: TxnId | t < |s.transactions|
        ensures !Scar(Of(s.ledger, t), HistoryOf(s.history, t))
      {
        assert LedgerShape(t, s.transactions[t], Of(s.ledger, t));
        assert HistoryChain(t, HistoryOf(s.history, t), s.transactions[t].status);
      }
    }
  }

  /** Rows are only added, at the end of the tables. */
  predicate Appends(s: Db, s': Db) {
    |s.transactions| <= |s'.transactions| && s.ledger <= s'.ledger && s.history <= s'.history
  }

  lemma ScarStays(s: Db, s': Db, t: TxnId)
    requires t < |s.transactions| && Appends(s, s')
    requires Scar(Of(s.ledger, t), HistoryOf(s.history, t))
    ensures Scarred(s')
  {
    var es, rows := s'.ledger[|s.ledger|..], s'.history[|s.history|..];
    assert s'.ledger == s.ledger + es && s'.history == s.history + rows;
    OfAppend(s.ledger, es, t);
    HistoryOfAppend(s.history, rows, t);
    assert Of(s.ledger, t) <= Of(s'.ledger, t);
    if !Linked(HistoryOf(s.history, t)) && Linked(HistoryOf(s'.history, t)) {
      LinkedPrefix(HistoryOf(s.history, t), HistoryOf(s'.history, t));
    }
    assert Scar(Of(s'.ledger, t), HistoryOf(s'.history, t));
  }

  lemma ScarsStay(s: Db, s': Db)
    requires Scarred(s) && Appends(s, s')
    ensures Scarred(s')
  {
    var t: TxnId :| t < |s.transactions| && Scar(Of(s.ledger, t), HistoryOf(s.history, t));
    ScarStays(s, s', t);
  }

  lemma RunAppends(s: Db, ops: seq<Op>)
    requires EnabledRun(s, ops)
    ensures Appends(s, Run(s, ops))
  {
    RunReconciles(s, ops);
    Terms.RunEvolves(s, ops);
  }

  /** A move recorded as coming from another status than the payment's own breaks its chain. */
  lemma FalseOriginScars(s: Db, t: TxnId, es: seq<Entry>, from: Status, to: Status)
    requires Chains(s) && t < |s.transactions| && s.transactions[t].status != from
    ensures Scarred(Move(s, t, es, from, to))
  {
    var s' := Move(s, t, es, from, to);
    var rows := HistoryOf(s.history, t);
    var row := HistoryRow(t, Some(from), to);
    RowsSelect(s.history, [row], t, t);
    assert HistoryChain(t, rows, s.transactions[t].status);
    assert (rows + [row])[..|rows|] == rows;
    assert !Linked(rows + [row]);
    assert Scar(Of(s'.ledger, t), HistoryOf(s'.history, t));
  }

  lemma OffDomainScars(s: Db, open: map<AccountId, int>, op: Op)
    requires Sound(s, open) && Enabled(s, op) && OffDomain(s, op)
    ensures Scarred(Step(s, op))
  {
    var t := op.txn;
    if op.RefundOp? {
      RefundDisputedResidual(s, open, t);
      assert Scar(Of(Step(s, op).ledger, t), HistoryOf(Step(s, op).history, t));
    } else {
      FalseOriginScars(s, t, [], Disputed, Completed);
    }
  }

  /** A second payout is the third entry. */
  lemma RepaymentScars(s: Db, open: map<AccountId, int>, op: Op)
    requires Sound(s, open) && Enabled(s, op) && Repays(s, op)
    ensures Scarred(Step(s, op))
  {
    var t := FindByReference(s.transactions, op.key.reference).value;
    var x := s.transactions[t];
    var s' := Step(s, op);
    assert Parties(x, s.accounts) && LedgerShape(t, x, Of(s.ledger, t));
    assert s'.ledger == s.ledger + [Payout(t, x)];
    EntriesSelect(s.ledger, [Payout(t, x)], t, t);
    assert Scar(Of(s'.ledger, t), HistoryOf(s'.history, t));
  }

  /** From a consistent database, a run ends in one if and only if every step of it was in-domain. */
  lemma {:induction false} RunKeepsExactly(s: Db, open: map<AccountId, int>, ops: seq<Op>)
    requires Consistent(s, open) && EnabledRun(s, ops)
    ensures Consistent(Run(s, ops), open) <==> InDomainRun(s, ops)
    decreases |ops|
  {
    if ops != [] {
      if OffDomain(s, ops[0]) {
        OffDomainScars(s, open, ops[0]);
        RunAppends(Step(s, ops[0]), ops[1..]);
        ScarsStay(Step(s, ops[0]), Run(s, ops));
        SoundIsUnscarred(Run(s, ops), open);
      } else {
        StepKeeps(s, open, ops[0]);
        RunKeepsExactly(Step(s, ops[0]), open, ops[1..]);
      }
    }
  }

  lemma SeededRunKeepsExactly(limits: Limits, accounts: map<AccountId, Account>, ops: seq<Op>)
    requires EnabledRun(Seeded(limits, accounts), ops)
    ensures Consistent(Run(Seeded(limits, accounts), ops), Opening(accounts))
            <==> InDomainRun(Seeded(limits, accounts), ops)
  {
    SeededIsConsistent(limits, accounts);
    RunKeepsExactly(Seeded(limits, accounts), Opening(accounts), ops);
  }
}
