/** The compensation loop on any ledger: what it selects, what it adds up to, and what its guard prevents. */
module Compensation {
  import opened Tables
  import opened Operations
  import Runs

  /** The entries of a transaction are those of the ledger that carry its id, as often as they occur. */
  lemma {:induction false} OfSelects(ledger: seq<Entry>, t: TxnId, e: Entry)
    ensures multiset(Of(ledger, t))[e] == if e.txn == t then multiset(ledger)[e] else 0
  {
    if ledger != [] {
      var last := |ledger| - 1;
      OfSelects(ledger[..last], t, e);
      assert ledger == ledger[..last] + [ledger[last]];
    }
  }

  lemma {:induction false} OriginalDebitsSelect(es: seq<Entry>, e: Entry)
    ensures multiset(OriginalDebits(es))[e] == if e.entryType == Debit && !e.isReversal then multiset(es)[e] else 0
  {
    if es != [] {
      var last := |es| - 1;
      OriginalDebitsSelect(es[..last], e);
      assert es == es[..last] + [es[last]];
    }
  }

  /** The loop compensates the unflagged debits of the transaction, each as often as it was made, and nothing else. */
  lemma CompensatesUnflaggedDebits(ledger: seq<Entry>, t: TxnId, e: Entry)
    ensures var debits := OriginalDebits(Of(ledger, t));
            && multiset(debits)[e] ==
              (if e.txn == t && e.entryType == Debit && !e.isReversal then multiset(ledger)[e] else 0)
            && |Compensations(ledger, t)| == |debits|
            && forall k | 0 <= k < |debits| ::
                 Compensations(ledger, t)[k] ==
                   Entry(debits[k].txn, debits[k].account, Magnitude(debits[k].amount), Credit, true)
  {
    OfSelects(ledger, t, e);
    OriginalDebitsSelect(Of(ledger, t), e);
  }

  lemma {:induction false} ReversalsNegate(debits: seq<Entry>, a: AccountId)
    requires forall e | e in debits :: e.amount <= 0
    ensures Sum(Reversals(debits), a) == -Sum(debits, a)
  {
    if debits != [] {
      var last := |debits| - 1;
      ReversalsNegate(debits[..last], a);
      assert Reversals(debits)[..last] == Reversals(debits[..last]);
      assert debits[last] in debits;
    }
  }

  /** In every reachable state the compensation adds, on each account, exactly what the debits took,
      and the balances rise by that. */
  lemma CompensationsNegateDebits(limits: Limits, accounts: map<AccountId, Account>, ops: seq<Op>, t: TxnId,
                                  a: AccountId)
    requires EnabledRun(Seeded(limits, accounts), ops) && a in accounts
    ensures var s := Run(Seeded(limits, accounts), ops);
            var taken := -Sum(OriginalDebits(Of(s.ledger, t)), a);
            && Sum(Compensations(s.ledger, t), a) == taken
            && a in s.accounts
            && Append(s, Compensations(s.ledger, t)).accounts[a].balance == s.accounts[a].balance + taken
  {
    Runs.RunReconciles(Seeded(limits, accounts), ops);
    var s := Run(Seeded(limits, accounts), ops);
    OfOwned(s.ledger, t);
    DebitsAmong(Of(s.ledger, t));
    ReversalsNegate(OriginalDebits(Of(s.ledger, t)), a);
  }

  /** Behind its guard, compensating a second time writes nothing, on any ledger. */
  lemma GuardedOnlyOnce(s: Db, t: TxnId)
    ensures GuardedCompensations(Append(s, GuardedCompensations(s.ledger, t)).ledger, t) == []
  {
    var es := GuardedCompensations(s.ledger, t);
    AppendNothing(s);
    if es != [] {
      CompensationsOwned(s.ledger, t);
      EntriesSelect(s.ledger, es, t, t);
      assert es[0] in Of(s.ledger + es, t);
    }
  }
}
