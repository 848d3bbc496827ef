/** Concrete runs that reach the cases the exact conditions single out. */
module Examples {
  import opened Tables
  import opened Operations
  import opened Invariant
  import opened Runs
  import Completions
  import DailyLimits
  import Deliveries
  import Fx
  import LateWrites
  import Terms

  /** One payment of 1 NGN a day. */
  const ONE_A_DAY := Limits(1_000_000_000, 1, 100_000_000)
  const TWO_ACCOUNTS: map<AccountId, Account> := map[0 := Account("NGN", 200_000_000), 1 := Account("USD", 0)]
  const REQUEST := Request(0, 1, "NGN", "USD", 100_000_000, 0, false, false)
  const KEY := EventKey(7, CompletedEvent)

  /** A payment of 1 NGN at the table's rate, in a given status. */
  function Example(status: Status, ref: Option<Ref>): Transaction {
    Transaction(0, 1, "NGN", "USD", 100_000_000, 64_500, 64_500, status, ref, 0)
  }

  ghost predicate Reaches(s: Db, s': Db) {
    exists ops :: EnabledRun(s, ops) && Run(s, ops) == s'
  }

  lemma ReachesNext(s: Db, s': Db, op: Op)
    requires Reaches(s, s') && Enabled(s', op)
    ensures Reaches(s, Step(s', op))
  {
    var ops :| EnabledRun(s, ops) && Run(s, ops) == s';
    RunAppend(s, ops, op);
  }

  /** An in-domain step of an example. */
  lemma Continue(s: Db, op: Op) returns (s': Db)
    requires Reaches(Seeded(ONE_A_DAY, TWO_ACCOUNTS), s) && Consistent(s, Opening(TWO_ACCOUNTS))
    requires Enabled(s, op) && !OffDomain(s, op)
    ensures Reaches(Seeded(ONE_A_DAY, TWO_ACCOUNTS), s') && Consistent(s', Opening(TWO_ACCOUNTS))
    ensures s' == Step(s, op)
  {
    ReachesNext(Seeded(ONE_A_DAY, TWO_ACCOUNTS), s, op);
    StepKeeps(s, Opening(TWO_ACCOUNTS), op);
    s' := Step(s, op);
  }

  lemma CreateContinues(s: Db) returns (s': Db)
    requires Reaches(Seeded(ONE_A_DAY, TWO_ACCOUNTS), s) && Consistent(s, Opening(TWO_ACCOUNTS))
    requires Create(s, REQUEST) == (Created(s, Example(Processing, None)), Ok)
    ensures Reaches(Seeded(ONE_A_DAY, TWO_ACCOUNTS), s') && Consistent(s', Opening(TWO_ACCOUNTS))
    ensures s' == Created(s, Example(Processing, None))
  {
    s' := Continue(s, CreateOp(REQUEST));
  }

  lemma RequestFits(s: Db)
    requires s.limits == ONE_A_DAY && s.accounts.Keys == {0, 1} && s.accounts[0].balance >= 100_000_000
    requires s.accounts[0].currency == "NGN" && s.accounts[1].currency == "USD"
    requires CountSince(s.transactions, 0, 0) == 0 && VolumeSince(s.transactions, 0, 0) == 0
    ensures Create(s, REQUEST) == (Created(s, Example(Processing, None)), Ok)
  {
    assert Fx.Rate("NGN", "USD") == Some(64_500);
    assert Fx.Convert(100_000_000, 64_500) == 64_500;
  }

  lemma ExampleCreated() returns (s: Db)
    ensures Reaches(Seeded(ONE_A_DAY, TWO_ACCOUNTS), s) && Consistent(s, Opening(TWO_ACCOUNTS))
    ensures s == Created(Seeded(ONE_A_DAY, TWO_ACCOUNTS), Example(Processing, None))
  {
    s := Seeded(ONE_A_DAY, TWO_ACCOUNTS);
    assert EnabledRun(s, []) && Run(s, []) == s;
    SeededIsConsistent(ONE_A_DAY, TWO_ACCOUNTS);
    RequestFits(s);
    s := CreateContinues(s);
  }

  /** The example payment gets created and submitted. */
  lemma ExampleSubmitted() returns (s: Db)
    ensures Reaches(Seeded(ONE_A_DAY, TWO_ACCOUNTS), s) && Consistent(s, Opening(TWO_ACCOUNTS))
    ensures s.transactions == [Example(Processing, Some(7))] && s.events == map[]
  {
    s := ExampleCreated();
    assert s.transactions == [Example(Processing, None)];
    assert FindByReference(s.transactions, 7) == None;
    s := Continue(s, AssignReferenceOp(0, 7));
  }

  lemma ExampleCompleted() returns (s: Db)
    ensures Reaches(Seeded(ONE_A_DAY, TWO_ACCOUNTS), s) && Consistent(s, Opening(TWO_ACCOUNTS))
    ensures s.transactions == [Example(Completed, Some(7))] && s.events.Keys == {KEY}
  {
    s := ExampleSubmitted();
    s := Continue(s, ReceiveOp(KEY, true));
    assert FindByReference(s.transactions, 7) == Some(0);
    assert Parties(s.transactions[0], s.accounts);
    s := Continue(s, SettleOp(KEY));
    assert s.transactions == [Example(Completed, Some(7))];
  }

  lemma ExampleDisputed() returns (s: Db)
    ensures Reaches(Seeded(ONE_A_DAY, TWO_ACCOUNTS), s) && Consistent(s, Opening(TWO_ACCOUNTS))
    ensures s.transactions == [Example(Disputed, Some(7))]
  {
    s := ExampleCompleted();
    s := Continue(s, DisputeOp(0));
  }

  lemma ReversedHasNoEffect(s: Db, a: AccountId)
    requires s.transactions == [Example(Reversed, Some(7))]
    ensures Effects(s.transactions, a) == 0
  {
    assert s.transactions[..0] == [];
  }

  /** Seven calls after seeding, a refund of a disputed payment has given the sender everything back
      while the recipient keeps the payout. */
  lemma RefundDisputedExample() returns (s: Db)
    ensures Reaches(Seeded(ONE_A_DAY, TWO_ACCOUNTS), s)
    ensures s.transactions == [Example(Reversed, Some(7))]
    ensures s.accounts.Keys == {0, 1} && s.accounts[0].balance == 200_000_000 && s.accounts[1].balance == 64_500
  {
    var before := ExampleDisputed();
    ReachesNext(Seeded(ONE_A_DAY, TWO_ACCOUNTS), before, RefundOp(0));
    s := Step(before, RefundOp(0));
    AfterRefund(before);
  }

  lemma AfterRefund(before: Db)
    requires Consistent(before, Opening(TWO_ACCOUNTS)) && before.transactions == [Example(Disputed, Some(7))]
    ensures var s := Refund(before, 0).0;
            && s.transactions == [Example(Reversed, Some(7))]
            && s.accounts.Keys == {0, 1} && s.accounts[0].balance == 200_000_000 && s.accounts[1].balance == 64_500
  {
    RefundDisputedResidual(before, Opening(TWO_ACCOUNTS), 0);
    ReversedHasNoEffect(Refund(before, 0).0, 0);
    ReversedHasNoEffect(Refund(before, 0).0, 1);
  }

  lemma CompletedEffects(s: Db)
    requires s.transactions == [Example(Completed, Some(7))]
    ensures Effects(s.transactions, 0) == -100_000_000 && Effects(s.transactions, 1) == 64_500
  {
    assert s.transactions[..0] == [];
  }

  /** Three calls after seeding, a rejected dispute has completed a payment whose recipient got nothing. */
  lemma RejectProcessingExample() returns (s: Db)
    ensures Reaches(Seeded(ONE_A_DAY, TWO_ACCOUNTS), s)
    ensures s.transactions == [Example(Completed, Some(7))]
    ensures s.accounts.Keys == {0, 1} && s.accounts[0].balance == 100_000_000 && s.accounts[1].balance == 0
  {
    var before := ExampleSubmitted();
    ReachesNext(Seeded(ONE_A_DAY, TWO_ACCOUNTS), before, ResolveOp(0, Reject));
    RejectProcessingResidual(before, Opening(TWO_ACCOUNTS), 0);
    s := Step(before, ResolveOp(0, Reject));
    CompletedEffects(s);
  }

  lemma AfterChargeback(before: Db)
    requires Consistent(before, Opening(TWO_ACCOUNTS)) && before.transactions == [Example(Completed, Some(7))]
    ensures Refund(before, 0).1 == Ok && Refund(before, 0).0.transactions == [Example(Reversed, Some(7))]
  {
    CompletedEffects(before);
    HeldCompensation(before, 0);
  }

  lemma AfterGap(refunded: Db)
    requires Consistent(refunded, Opening(TWO_ACCOUNTS)) && refunded.transactions == [Example(Reversed, Some(7))]
    ensures var s := Move(refunded, 0, [], Completed, Disputed);
            && s.transactions == [Example(Disputed, Some(7))]
            && s.accounts.Keys == {0, 1} && s.accounts[0].balance == 200_000_000 && s.accounts[1].balance == 0
  {
    ReversedHasNoEffect(refunded, 0);
    ReversedHasNoEffect(refunded, 1);
    AppendNothing(refunded);
  }

  /** A refund that commits between the check and the write of a dispute: the payment ends DISPUTED, as if it were
      paid out, with the money back where it came from. */
  lemma DisputeGapExample() returns (before: Db, s: Db)
    ensures Reaches(Seeded(ONE_A_DAY, TWO_ACCOUNTS), before) && before.transactions == [Example(Completed, Some(7))]
    ensures s == Move(Step(before, RefundOp(0)), 0, [], Completed, Disputed)
    ensures s.transactions == [Example(Disputed, Some(7))]
    ensures s.accounts.Keys == {0, 1} && s.accounts[0].balance == 200_000_000 && s.accounts[1].balance == 0
  {
    before := ExampleCompleted();
    AfterChargeback(before);
    s := Continue(before, RefundOp(0));
    AfterGap(s);
    s := Move(s, 0, [], Completed, Disputed);
  }

  // ----- A reference written late -----

  const SECOND_KEY := EventKey(8, CompletedEvent)

  lemma CompletedBalances(s: Db)
    requires Consistent(s, Opening(TWO_ACCOUNTS)) && s.transactions == [Example(Completed, Some(7))]
    ensures s.accounts.Keys == {0, 1} && s.accounts[1].balance == 64_500
  {
    CompletedEffects(s);
  }

  /** A run with late writes, its end, and how often the payment was credited and given a reference on the way. */
  ghost predicate LateRun(origin: Db, events: seq<LateWrites.Event>, s: Db, credits: nat, references: nat) {
    && LateWrites.PossibleAll(origin, events) && s == LateWrites.AfterAll(origin, events)
    && LateWrites.LateCredits(origin, events, 0) == credits && LateWrites.LateReferences(events, 0) == references
  }

  /** A second provider job writes its reference over the first one's. */
  lemma ReferenceOverwritten(origin: Db) returns (events: seq<LateWrites.Event>, s: Db)
    requires origin.transactions == [Example(Completed, Some(7))]
    ensures LateRun(origin, events, s, 0, 1)
    ensures s.transactions == [Example(Completed, Some(8))] && s.accounts == origin.accounts &&
            s.events == origin.events
  {
    LateWrites.OneMore(origin, [], LateWrites.ReferenceWrite(0, 8));
    LateWrites.CreditsPush(origin, [], LateWrites.ReferenceWrite(0, 8), 0);
    events := [] + [LateWrites.ReferenceWrite(0, 8)];
    s := LateWrites.After(origin, LateWrites.ReferenceWrite(0, 8));
  }

  /** The payment is disputed, and the second reference's completion comes in. */
  lemma SecondReceived(origin: Db) returns (events: seq<LateWrites.Event>, s: Db)
    requires origin.transactions == [Example(Completed, Some(7))] && origin.events.Keys == {KEY}
    ensures LateRun(origin, events, s, 0, 1)
    ensures s.transactions == [Example(Disputed, Some(8))] && s.accounts == origin.accounts
    ensures Enabled(s, SettleOp(SECOND_KEY))
  {
    events, s := ReferenceOverwritten(origin);
    AppendNothing(s);
    LateWrites.OneMore(origin, events, LateWrites.Call(DisputeOp(0)));
    LateWrites.CreditsPush(origin, events, LateWrites.Call(DisputeOp(0)), 0);
    events, s := events + [LateWrites.Call(DisputeOp(0))], Step(s, DisputeOp(0));
    LateWrites.OneMore(origin, events, LateWrites.Call(ReceiveOp(SECOND_KEY, true)));
    LateWrites.CreditsPush(origin, events, LateWrites.Call(ReceiveOp(SECOND_KEY, true)), 0);
    events, s := events + [LateWrites.Call(ReceiveOp(SECOND_KEY, true))], Step(s, ReceiveOp(SECOND_KEY, true));
  }

  lemma SecondSettled(s: Db)
    requires s.transactions == [Example(Disputed, Some(8))] && Enabled(s, SettleOp(SECOND_KEY))
    requires s.accounts.Keys == {0, 1}
    ensures var s' := Step(s, SettleOp(SECOND_KEY));
            && Credits(s, SettleOp(SECOND_KEY), 0) && s'.transactions == [Example(Completed, Some(8))]
            && s'.accounts.Keys == {0, 1} && s'.accounts[1].balance == s.accounts[1].balance + 64_500
  {
    assert FindByReference(s.transactions, 8) == Some(0);
    SumOne(Payout(0, s.transactions[0]), 1);
  }

  lemma CreditedAgain(origin: Db) returns (events: seq<LateWrites.Event>, s: Db)
    requires origin.transactions == [Example(Completed, Some(7))] && origin.events.Keys == {KEY}
    requires origin.accounts.Keys == {0, 1} && origin.accounts[1].balance == 64_500
    ensures LateRun(origin, events, s, 1, 1)
    ensures s.transactions == [Example(Completed, Some(8))]
    ensures s.accounts.Keys == {0, 1} && s.accounts[1].balance == 129_000
  {
    events, s := SecondReceived(origin);
    SecondSettled(s);
    LateWrites.OneMore(origin, events, LateWrites.Call(SettleOp(SECOND_KEY)));
    LateWrites.CreditsPush(origin, events, LateWrites.Call(SettleOp(SECOND_KEY)), 0);
    events, s := events + [LateWrites.Call(SettleOp(SECOND_KEY))], Step(s, SettleOp(SECOND_KEY));
  }

  /** One reference written late, and the recipient of a payment that had been credited is credited again:
      the bound on credits is reached. */
  lemma DoubleCreditExample() returns (before: Db, events: seq<LateWrites.Event>, s: Db)
    ensures Reaches(Seeded(ONE_A_DAY, TWO_ACCOUNTS), before) && before.transactions == [Example(Completed, Some(7))]
    ensures Spent(before, 0) && before.accounts.Keys == {0, 1} && before.accounts[1].balance == 64_500
    ensures LateRun(before, events, s, 1, 1)
    ensures s.transactions == [Example(Completed, Some(8))]
    ensures s.accounts.Keys == {0, 1} && s.accounts[1].balance == 129_000
  {
    before := ExampleCompleted();
    CompletedBalances(before);
    assert Settled(before.transactions[0], before.events);
    events, s := CreditedAgain(before);
  }

  // ----- Completions that are missed -----

  /** An unsigned delivery takes the pair, so the signed one changes nothing and the payment can no longer be
      completed. */
  lemma UnsignedFirstExample() returns (s: Db)
    ensures Reaches(Seeded(ONE_A_DAY, TWO_ACCOUNTS), s) && s.transactions == [Example(Processing, Some(7))]
    ensures Deliveries.Deliver(s, Deliveries.Delivery(KEY, true)) == s && !Completions.Completable(s, 0)
  {
    s := ExampleSubmitted();
    s := Continue(s, ReceiveOp(KEY, false));
    Completions.CompletableExactly(s, Opening(TWO_ACCOUNTS), 0);
  }

  /** So does a signed completion that comes before the provider worker has written its reference. */
  lemma EarlyCompletionExample() returns (s: Db)
    ensures Reaches(Seeded(ONE_A_DAY, TWO_ACCOUNTS), s) && s.transactions == [Example(Processing, Some(7))]
    ensures Deliveries.Deliver(s, Deliveries.Delivery(KEY, true)) == s && !Completions.Completable(s, 0)
  {
    s := ExampleCreated();
    s := EarlyDelivery(s);
    assert FindByReference(s.transactions, 7) == None;
    s := Continue(s, AssignReferenceOp(0, 7));
    Completions.CompletableExactly(s, Opening(TWO_ACCOUNTS), 0);
  }

  lemma EarlyDelivery(s: Db) returns (s': Db)
    requires Reaches(Seeded(ONE_A_DAY, TWO_ACCOUNTS), s) && Consistent(s, Opening(TWO_ACCOUNTS))
    requires s == Created(Seeded(ONE_A_DAY, TWO_ACCOUNTS), Example(Processing, None))
    ensures Reaches(Seeded(ONE_A_DAY, TWO_ACCOUNTS), s') && Consistent(s', Opening(TWO_ACCOUNTS))
    ensures s'.transactions == [Example(Processing, None)] && KEY in s'.events && !s'.events[KEY].Pending()
  {
    assert s.transactions == [Example(Processing, None)];
    s' := Continue(s, ReceiveOp(KEY, true));
    assert FindByReference(s'.transactions, 7) == None;
    s' := Continue(s', SettleOp(KEY));
  }

  // ----- A day over its limits -----

  lemma FirstPaymentIsDisputed(s: Db)
    requires Consistent(s, Opening(TWO_ACCOUNTS)) && s.transactions == [Example(Disputed, Some(7))]
    ensures s.accounts.Keys == {0, 1} && s.accounts[0].balance == 100_000_000
    ensures CountSince(s.transactions, 0, 0) == 0 && VolumeSince(s.transactions, 0, 0) == 0
  {
    assert s.transactions[..0] == [];
    assert Effects(s.transactions, 0) == -100_000_000;
  }

  /** While the first payment is disputed it does not count, so a second one fits in the day. */
  lemma SecondFits(s: Db)
    requires Reaches(Seeded(ONE_A_DAY, TWO_ACCOUNTS), s)
    requires Consistent(s, Opening(TWO_ACCOUNTS)) && s.transactions == [Example(Disputed, Some(7))]
    ensures Create(s, REQUEST) == (Created(s, Example(Processing, None)), Ok)
  {
    var ops :| EnabledRun(Seeded(ONE_A_DAY, TWO_ACCOUNTS), ops) && Run(Seeded(ONE_A_DAY, TWO_ACCOUNTS), ops) == s;
    Terms.RunEvolves(Seeded(ONE_A_DAY, TWO_ACCOUNTS), ops);
    FirstPaymentIsDisputed(s);
    RequestFits(s);
  }

  lemma TwoWeigh(txns: seq<Transaction>, history: seq<HistoryRow>)
    requires txns == [Example(Completed, Some(7)), Example(Processing, None)]
    requires DailyLimits.Returned(history, 0) && !DailyLimits.Returned(history, 1)
    ensures DailyLimits.DayCount(txns, 0, 0) == 2 && DailyLimits.DayVolume(txns, 0, 0) == 200_000_000
    ensures DailyLimits.CountWhere(true, txns, history, 0, 0) == 1
    ensures DailyLimits.VolumeWhere(true, txns, history, 0, 0) == 100_000_000
  {
    var first := txns[..1];
    assert first == [Example(Completed, Some(7))] && first[..0] == [];
    assert DailyLimits.Weighs(txns[0], 0, 0) && DailyLimits.Weighs(txns[1], 0, 0);
    assert DailyLimits.DayCount(first, 0, 0) == 1 && DailyLimits.DayVolume(first, 0, 0) == 100_000_000;
    assert DailyLimits.CountWhere(true, first, history, 0, 0) == 1;
    assert DailyLimits.VolumeWhere(true, first, history, 0, 0) == 100_000_000;
  }

  lemma AfterSecond(s: Db)
    requires Owned(s) && s.transactions == [Example(Disputed, Some(7))]
    ensures var s' := Created(s, Example(Processing, None));
            && s'.transactions == [Example(Disputed, Some(7)), Example(Processing, None)]
            && !DailyLimits.Returned(s'.history, 1)
  {}

  lemma BothCreated() returns (s: Db)
    ensures Reaches(Seeded(ONE_A_DAY, TWO_ACCOUNTS), s) && Consistent(s, Opening(TWO_ACCOUNTS))
    ensures s.transactions == [Example(Disputed, Some(7)), Example(Processing, None)] &&
            !DailyLimits.Returned(s.history, 1)
  {
    s := ExampleDisputed();
    SecondFits(s);
    AfterSecond(s);
    s := CreateContinues(s);
  }

  lemma AfterReject(before: Db)
    requires before.transactions == [Example(Disputed, Some(7)), Example(Processing, None)]
    requires !DailyLimits.Returned(before.history, 1)
    ensures var s := ResolveDispute(before, 0, Reject).0;
            && s.transactions == [Example(Completed, Some(7)), Example(Processing, None)]
            && DailyLimits.Returned(s.history, 0) && !DailyLimits.Returned(s.history, 1)
  {
    var row := HistoryRow(0, Some(Disputed), Completed);
    assert (before.history + [row])[|before.history|] == row;
  }

  /** In-domain calls alone take a day over both limits by exactly the one payment that came back. */
  lemma DayExceededExample() returns (s: Db)
    ensures Reaches(Seeded(ONE_A_DAY, TWO_ACCOUNTS), s) && Consistent(s, Opening(TWO_ACCOUNTS))
    ensures DailyLimits.DayCount(s.transactions, 0, 0) == ONE_A_DAY.maxCountPerDay + 1
    ensures DailyLimits.CountWhere(true, s.transactions, s.history, 0, 0) == 1
    ensures DailyLimits.DayVolume(s.transactions, 0, 0) == ONE_A_DAY.maxVolumePerDay + 100_000_000
    ensures DailyLimits.VolumeWhere(true, s.transactions, s.history, 0, 0) == 100_000_000
  {
    s := BothCreated();
    AfterReject(s);
    s := Continue(s, ResolveOp(0, Reject));
    TwoWeigh(s.transactions, s.history);
  }
}
