/** Runs in which a call may check a payment at one time and write at another, with anything in between. */
module LateWrites {
  import opened Tables
  import opened Operations
  import opened Invariant
  import opened Runs
  import opened Scars
  import Terms

  /** A call in one step, or the write of a call that looked at the payment earlier and does not look again. */
  datatype Event =
    | Call(op: Op)
    | DisputeWrite(txn: TxnId)
    | RejectWrite(txn: TxnId)
    | ReferenceWrite(txn: TxnId, ref: Ref)

  predicate Possible(s: Db, e: Event) {
    if e.Call? then Enabled(s, e.op) else e.txn < |s.transactions|
  }

  function After(s: Db, e: Event): Db
    requires Possible(s, e)
  {
    match e
    case Call(op) => Step(s, op)
    case DisputeWrite(t) => Move(s, t, [], Completed, Disputed)
    case RejectWrite(t) => Move(s, t, [], Disputed, Completed)
    case ReferenceWrite(t, ref) => AssignReference(s, t, ref).0
  }

  predicate PossibleAll(s: Db, events: seq<Event>)
    decreases |events|
  {
    events != [] ==> Possible(s, events[0]) && PossibleAll(After(s, events[0]), events[1..])
  }

  function AfterAll(s: Db, events: seq<Event>): Db
    requires PossibleAll(s, events)
    decreases |events|
  {
    if events == [] then s else AfterAll(After(s, events[0]), events[1..])
  }

  lemma {:induction false} OneMore(s: Db, events: seq<Event>, e: Event)
    requires PossibleAll(s, events) && Possible(AfterAll(s, events), e)
    ensures PossibleAll(s, events + [e]) && AfterAll(s, events + [e]) == After(AfterAll(s, events), e)
    decreases |events|
  {
    if events == [] {
      assert events + [e] == [e];
      assert [e][1..] == [];
    } else {
      assert (events + [e])[1..] == events[1..] + [e];
      OneMore(After(s, events[0]), events[1..], e);
    }
  }

  predicate CallsOnly(events: seq<Event>) {
    forall e | e in events :: e.Call?
  }

  function Ops(events: seq<Event>): seq<Op>
    requires CallsOnly(events)
  {
    if events == [] then [] else [events[0].op] + Ops(events[1..])
  }

  /** Without late writes these are the runs of operations. */
  lemma {:induction false} CallsAreARun(s: Db, events: seq<Event>)
    requires PossibleAll(s, events) && CallsOnly(events)
    ensures EnabledRun(s, Ops(events)) && Run(s, Ops(events)) == AfterAll(s, events)
    decreases |events|
  {
    if events != [] {
      assert Ops(events)[1..] == Ops(events[1..]);
      CallsAreARun(After(s, events[0]), events[1..]);
    }
  }

  // ----- One write -----

  /** The write of a dispute raised on a payment that was COMPLETED when looked at: it keeps the invariant
      if and only if the payment still is. */
  lemma DisputeWriteExactly(s: Db, open: map<AccountId, int>, t: TxnId)
    requires Sound(s, open) && t < |s.transactions|
    ensures Sound(Move(s, t, [], Completed, Disputed), open) <==> s.transactions[t].status == Completed
    ensures Scarred(Move(s, t, [], Completed, Disputed)) <==> s.transactions[t].status != Completed
    ensures Consistent(s, open) ==>
              (Consistent(Move(s, t, [], Completed, Disputed), open) <==> s.transactions[t].status == Completed)
  {
    if s.transactions[t].status == Completed {
      DisputeKeeps(s, open, t, Disputed);
    } else {
      FalseOriginScars(s, t, [], Completed, Disputed);
    }
    SoundIsUnscarred(Move(s, t, [], Completed, Disputed), open);
  }

  /** The write of a rejected dispute keeps it if and only if the payment is DISPUTED by then. */
  lemma RejectWriteExactly(s: Db, open: map<AccountId, int>, t: TxnId)
    requires Sound(s, open) && t < |s.transactions|
    ensures Sound(Move(s, t, [], Disputed, Completed), open) <==> s.transactions[t].status == Disputed
    ensures Scarred(Move(s, t, [], Disputed, Completed)) <==> s.transactions[t].status != Disputed
    ensures Consistent(s, open) ==>
              (Consistent(Move(s, t, [], Disputed, Completed), open) <==> s.transactions[t].status == Disputed)
  {
    if s.transactions[t].status == Disputed {
      DisputeKeeps(s, open, t, Completed);
    } else {
      FalseOriginScars(s, t, [], Disputed, Completed);
    }
    SoundIsUnscarred(Move(s, t, [], Disputed, Completed), open);
  }

  /** Whether the payment was not paid out, or the completion event of the reference has been processed too. */
  predicate Fits(s: Db, t: TxnId, ref: Ref)
    requires t < |s.transactions|
  {
    PaidOut(s.transactions[t].status) ==>
      EventKey(ref, CompletedEvent) in s.events && s.events[EventKey(ref, CompletedEvent)].processed
  }

  /** The provider worker's write of a reference keeps the invariant if and only if it fits; whether or not, the part
      that does not read the webhook log stays. */
  lemma ReferenceWriteExactly(s: Db, open: map<AccountId, int>, t: TxnId, ref: Ref)
    requires Sound(s, open) && t < |s.transactions|
    ensures Sound(AssignReference(s, t, ref).0, open)
    ensures Consistent(s, open) ==> (Consistent(AssignReference(s, t, ref).0, open) <==> Fits(s, t, ref))
  {
    AssignReferenceKeepsSound(s, open, t, ref);
    if Deduplicated(s) {
      AssignReferenceDeduplicated(s, t, ref);
    }
  }

  // ----- Whole runs -----

  /** A call that is off-domain or pays a second time, or a write that does not find the status it was meant for. */
  predicate Harms(s: Db, e: Event)
    requires Possible(s, e)
  {
    match e
    case Call(op) => OffDomain(s, op) || Repays(s, op)
    case DisputeWrite(t) => s.transactions[t].status != Completed
    case RejectWrite(t) => s.transactions[t].status != Disputed
    case ReferenceWrite(_, _) => false
  }

  predicate Unharmed(s: Db, events: seq<Event>)
    requires PossibleAll(s, events)
    decreases |events|
  {
    events != [] ==> !Harms(s, events[0]) && Unharmed(After(s, events[0]), events[1..])
  }

  lemma AfterKeepsSoundExactly(s: Db, open: map<AccountId, int>, e: Event)
    requires Sound(s, open) && Possible(s, e)
    ensures if Harms(s, e) then Scarred(After(s, e)) else Sound(After(s, e), open)
  {
    match e
    case Call(op) =>
      if OffDomain(s, op) {
        OffDomainScars(s, open, op);
      } else if Repays(s, op) {
        RepaymentScars(s, open, op);
      } else {
        StepKeepsSound(s, open, op);
      }
    case DisputeWrite(t) => DisputeWriteExactly(s, open, t);
    case RejectWrite(t) => RejectWriteExactly(s, open, t);
    case ReferenceWrite(t, ref) => ReferenceWriteExactly(s, open, t, ref);
  }

  lemma AfterAppends(s: Db, e: Event)
    requires Possible(s, e)
    ensures Appends(s, After(s, e))
  {
    if e.Call? {
      StepExtends(s, e.op);
      Terms.StepEvolves(s, e.op);
    } else {
      AppendNothing(s);
    }
  }

  lemma {:induction false} RunKeepsScars(s: Db, events: seq<Event>)
    requires PossibleAll(s, events) && Scarred(s)
    ensures Scarred(AfterAll(s, events))
    decreases |events|
  {
    if events != [] {
      AfterAppends(s, events[0]);
      ScarsStay(s, After(s, events[0]));
      RunKeepsScars(After(s, events[0]), events[1..]);
    }
  }

  /** With late writes anywhere, statuses, ledger, history and balances agree at the end of a run if and only if nothing
      on the way was off-domain, paid twice or wrote to a payment in another status than the one checked. */
  lemma {:induction false} RunKeepsSoundExactly(s: Db, open: map<AccountId, int>, events: seq<Event>)
    requires Sound(s, open) && PossibleAll(s, events)
    ensures Sound(AfterAll(s, events), open) <==> Unharmed(s, events)
    decreases |events|
  {
    if events != [] {
      AfterKeepsSoundExactly(s, open, events[0]);
      if Harms(s, events[0]) {
        RunKeepsScars(After(s, events[0]), events[1..]);
        SoundIsUnscarred(AfterAll(s, events), open);
      } else {
        RunKeepsSoundExactly(After(s, events[0]), open, events[1..]);
      }
    }
  }

  /** Whether every late write of a reference fits when it comes. */
  predicate ReferencesFit(s: Db, events: seq<Event>)
    requires PossibleAll(s, events)
    decreases |events|
  {
    events != [] ==>
      && (events[0].ReferenceWrite? ==> Fits(s, events[0].txn, events[0].ref))
      && ReferencesFit(After(s, events[0]), events[1..])
  }

  /** Whether no call was off-domain and every late write of a status found the one it was meant for. */
  predicate AsExpected(s: Db, events: seq<Event>)
    requires PossibleAll(s, events)
    decreases |events|
  {
    events != [] ==>
      && (match events[0]
          case Call(op) => !OffDomain(s, op)
          case DisputeWrite(t) => s.transactions[t].status == Completed
          case RejectWrite(t) => s.transactions[t].status == Disputed
          case ReferenceWrite(_, _) => true)
      && AsExpected(After(s, events[0]), events[1..])
  }

  lemma AfterKeepsDeduplicated(s: Db, open: map<AccountId, int>, e: Event)
    requires Consistent(s, open) && Possible(s, e) && !Harms(s, e)
    requires e.ReferenceWrite? ==> Fits(s, e.txn, e.ref)
    ensures Consistent(After(s, e), open)
  {
    match e
    case Call(op) => StepKeeps(s, open, op);
    case DisputeWrite(t) => DisputeWriteExactly(s, open, t);
    case RejectWrite(t) => RejectWriteExactly(s, open, t);
    case ReferenceWrite(t, ref) => ReferenceWriteExactly(s, open, t, ref);
  }

  /** As long as late references fit, a consistent database stays one, the webhook log included, if and only if every
      late write found the status it was meant for and no call was off-domain. */
  lemma {:induction false} LateRunKeepsExactly(s: Db, open: map<AccountId, int>, events: seq<Event>)
    requires Consistent(s, open) && PossibleAll(s, events) && ReferencesFit(s, events)
    ensures Consistent(AfterAll(s, events), open) <==> AsExpected(s, events)
    decreases |events|
  {
    if events != [] {
      if events[0].Call? {
        NothingRepays(s, events[0].op);
      }
      if Harms(s, events[0]) {
        RunKeepsSoundExactly(s, open, events);
      } else {
        AfterKeepsDeduplicated(s, open, events[0]);
        LateRunKeepsExactly(After(s, events[0]), open, events[1..]);
      }
    }
  }

  // ----- How often a payment is credited -----

  function LateCredits(s: Db, events: seq<Event>, t: TxnId): nat
    requires PossibleAll(s, events)
    decreases |events|
  {
    if events == [] then 0
    else
      (if events[0].Call? && Credits(s, events[0].op, t) then 1 else 0)
      + LateCredits(After(s, events[0]), events[1..], t)
  }

  function LateReferences(events: seq<Event>, t: TxnId): nat {
    if events == [] then 0
    else (if events[0].ReferenceWrite? && events[0].txn == t then 1 else 0) + LateReferences(events[1..], t)
  }

  lemma {:induction false} CreditsPush(s: Db, events: seq<Event>, e: Event, t: TxnId)
    requires PossibleAll(s, events) && Possible(AfterAll(s, events), e) && PossibleAll(s, events + [e])
    ensures LateCredits(s, events + [e], t)
            == LateCredits(s, events, t) + (if e.Call? && Credits(AfterAll(s, events), e.op, t) then 1 else 0)
    ensures LateReferences(events + [e], t) == LateReferences(events, t)
            + (if e.ReferenceWrite? && e.txn == t then 1 else 0)
    decreases |events|
  {
    if events == [] {
      assert events + [e] == [e];
      assert [e][1..] == [];
    } else {
      assert (events + [e])[1..] == events[1..] + [e];
      CreditsPush(After(s, events[0]), events[1..], e, t);
    }
  }

  lemma AfterKeepsSpent(s: Db, e: Event, t: TxnId)
    requires Possible(s, e) && Spent(s, t) && !(e.ReferenceWrite? && e.txn == t)
    ensures Spent(After(s, e), t)
  {
    if e.Call? {
      StepKeepsSpent(s, e.op, t);
    }
  }

  /** From any database, a recipient is webhook-credited at most once more than its payment's reference is written
      late. */
  lemma {:induction false} CreditsAreBounded(s: Db, events: seq<Event>, t: TxnId)
    requires PossibleAll(s, events)
    ensures LateCredits(s, events, t) + (if Spent(s, t) then 1 else 0) <= 1 + LateReferences(events, t)
    decreases |events|
  {
    if events != [] {
      var e := events[0];
      if Spent(s, t) && !(e.ReferenceWrite? && e.txn == t) {
        AfterKeepsSpent(s, e, t);
      }
      if e.Call? && Credits(s, e.op, t) {
        CreditSpends(s, e.op, t);
      }
      CreditsAreBounded(After(s, e), events[1..], t);
    }
  }

  /** A credit is a second one if and only if it finds the payment DISPUTED. */
  lemma SecondCreditExactly(s: Db, open: map<AccountId, int>, op: Op, t: TxnId)
    requires Sound(s, open) && Enabled(s, op) && Credits(s, op, t)
    ensures PaidEver(s, t) <==> s.transactions[t].status == Disputed
    ensures PaidEver(s, t) <==> Repays(s, op)
  {
    assert LedgerShape(t, s.transactions[t], Of(s.ledger, t));
    ShapePays(t, s.transactions[t], Of(s.ledger, t));
  }

  lemma LateWritePaysNothing(s: Db, e: Event, t: TxnId)
    requires Possible(s, e) && !e.Call?
    ensures PaidEver(After(s, e), t) <==> PaidEver(s, t)
  {
    AppendNothing(s);
  }

  /** In a run that nothing harms, late writes or not, the recipient is credited exactly when the ledger comes to show a
      payout, so at most once. */
  lemma {:induction false} UnharmedRunPays(s: Db, open: map<AccountId, int>, events: seq<Event>, t: TxnId)
    requires Sound(s, open) && PossibleAll(s, events) && Unharmed(s, events)
    ensures LateCredits(s, events, t) + (if PaidEver(s, t) then 1 else 0)
            == if PaidEver(AfterAll(s, events), t) then 1 else 0
    decreases |events|
  {
    if events != [] {
      var e := events[0];
      if e.Call? {
        StepPays(s, open, e.op, t);
      } else {
        LateWritePaysNothing(s, e, t);
      }
      AfterKeepsSoundExactly(s, open, e);
      UnharmedRunPays(After(s, e), open, events[1..], t);
    }
  }
}
