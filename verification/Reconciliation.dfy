/** The check that compares every stored balance with its ledger sum. */
module Reconciliation {
  import opened Tables
  import opened Operations
  import Runs

  /** The accounts the query reports, with balance minus ledger sum. */
  function Mismatches(s: Db): map<AccountId, int> {
    map a | a in s.accounts && s.accounts[a].balance != Sum(s.ledger, a) :: s.accounts[a].balance - Sum(s.ledger, a)
  }

  /** In every reachable state, off-domain steps included, the check reports exactly the accounts that were seeded
      with money, each by its seed: a ledger that starts empty never accounts for it. */
  lemma ReportsTheSeeds(limits: Limits, accounts: map<AccountId, Account>, ops: seq<Op>)
    requires EnabledRun(Seeded(limits, accounts), ops)
    ensures Mismatches(Run(Seeded(limits, accounts), ops))
            == map a | a in accounts && accounts[a].balance != 0 :: accounts[a].balance
  {
    var s := Run(Seeded(limits, accounts), ops);
    Runs.RunReconciles(Seeded(limits, accounts), ops);
    forall a | a in accounts
      ensures s.accounts[a].balance - Sum(s.ledger, a) == accounts[a].balance
    {
      assert Runs.Gap(s, a) == Runs.Gap(Seeded(limits, accounts), a);
    }
  }

  /** The documented invariant, balance equals ledger sum, holds for an account exactly when it was seeded empty. */
  lemma BalanceIsLedgerSumExactly(limits: Limits, accounts: map<AccountId, Account>, ops: seq<Op>, a: AccountId)
    requires EnabledRun(Seeded(limits, accounts), ops) && a in accounts
    ensures var s := Run(Seeded(limits, accounts), ops);
            a in s.accounts && (s.accounts[a].balance == Sum(s.ledger, a) <==> accounts[a].balance == 0)
  {
    Runs.RunReconciles(Seeded(limits, accounts), ops);
    assert Runs.Gap(Run(Seeded(limits, accounts), ops), a) == Runs.Gap(Seeded(limits, accounts), a);
  }
}
