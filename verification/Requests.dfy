/** What one request does at each of its awaits, what it sees of the cache while it waits, and how it ends, among others
    and alone. */
module Requests {
  import opened Tables
  import opened Idempotency

  /** What one request meets: how its handler will end, which of the two unawaited writes lands first, and for its
      k-th await what others try in the meantime and whether the store it calls throws. */
  datatype Fate = Fate(outcome: Option<Body>, recordFirst: bool, others: nat -> seq<Action>, fails: nat -> bool)

  /** Whether an action is a step of request `me`. */
  predicate MovesMe(a: Action, me: nat) {
    ByRequest(a) && a.who == me
  }

  /** The others' steps leave this request where it is. */
  lemma StaysPut(s: State, a: Action, me: nat)
    requires Enabled(s, a) && me < |s.requests| && !MovesMe(a, me)
    ensures me < |Next(s, a).requests| && Next(s, a).requests[me] == s.requests[me]
  {}

  // ----- The request's own steps -----

  /** Not ended, and not past both of its unawaited writes without going on to the release. */
  predicate UnderWay(p: Phase) {
    !p.Finished? && (p.Persisting? ==> !p.recordDone || !p.cacheDone)
  }

  /** Which of its awaits a request in a phase is at. */
  function AwaitOf(p: Phase): nat {
    match p
    case Arrived => 0
    case Contending => 1
    case Polling(attempt) => 2 + attempt
    case Checking => 2
    case Inserting => 3
    case Refilling(_) => 3
    case Handling => 4
    case Persisting(_, recordDone, cacheDone) => if recordDone || cacheDone then 6 else 5
    case _ => 7
  }

  /** The step a request takes next: each call goes through unless the store throws. */
  function OwnStep(p: Phase, me: nat, fate: Fate): Action
    requires UnderWay(p)
  {
    var fails := fate.fails(AwaitOf(p));
    match p
    case Arrived => if fails then RedisFails(me) else Lookup(me)
    case Contending => if fails then RedisFails(me) else TryLock(me)
    case Polling(_) => if fails then RedisFails(me) else Poll(me)
    case Checking => if fails then PreCheckFails(me) else CheckRecord(me)
    case Inserting => if fails then PreCheckFails(me) else InsertBlank(me)
    case Refilling(_) => if fails then RedisFails(me) else Refill(me)
    case Handling => if fate.outcome.Some? then HandlerReturns(me, fate.outcome.value) else HandlerThrows(me)
    case Persisting(_, recordDone, cacheDone) =>
      if fails then PersistFails(me)
      else if !recordDone && (cacheDone || fate.recordFirst) then PersistRecord(me)
      else PersistCache(me)
    case Unlocking(_) => if fails then RedisFails(me) else Unlock(me)
    case _ => if fails then RedisFails(me) else Release(me)
  }

  lemma OwnStepIsEnabled(s: State, me: nat, fate: Fate)
    requires me < |s.requests| && UnderWay(s.requests[me])
    ensures Enabled(s, OwnStep(s.requests[me], me, fate)) && MovesMe(OwnStep(s.requests[me], me, fate), me)
  {}

  /** Whether the steps of `me` in a run are those its fate decides on. */
  ghost predicate Follows(s: State, actions: seq<Action>, me: nat, fate: Fate)
    requires Feasible(s, actions)
    decreases |actions|
  {
    actions != [] ==>
      && (MovesMe(actions[0], me) ==>
            UnderWay(s.requests[me]) && actions[0] == OwnStep(s.requests[me], me, fate))
      && Follows(Next(s, actions[0]), actions[1..], me, fate)
  }

  lemma {:induction false} FollowsPush(s: State, actions: seq<Action>, a: Action, me: nat, fate: Fate)
    requires Feasible(s, actions) && Enabled(Play(s, actions), a) && Feasible(s, actions + [a])
    requires Follows(s, actions, me, fate)
    requires MovesMe(a, me) ==>
               var p := Play(s, actions).requests[me];
               UnderWay(p) && a == OwnStep(p, me, fate)
    ensures Follows(s, actions + [a], me, fate)
    decreases |actions|
  {
    if actions == [] {
      assert actions + [a] == [a];
      assert [a][1..] == [];
    } else {
      assert (actions + [a])[1..] == actions[1..] + [a];
      FollowsPush(Next(s, actions[0]), actions[1..], a, me, fate);
    }
  }

  /** A request that has not arrived has taken no step. */
  lemma {:induction false} FollowsBeforeArrival(s: State, actions: seq<Action>, me: nat, fate: Fate)
    requires Feasible(s, actions) && |Play(s, actions).requests| <= me
    ensures |s.requests| <= me && Follows(s, actions, me, fate)
    decreases |actions|
  {
    if actions != [] {
      FollowsBeforeArrival(Next(s, actions[0]), actions[1..], me, fate);
    }
  }

  // ----- What a waiting request sees -----

  /** The cached answers that the looks of request `me` found, in order. */
  function Looks(s: State, actions: seq<Action>, me: nat): seq<Option<Body>>
    requires Feasible(s, actions)
    decreases |actions|
  {
    if actions == [] then []
    else (if actions[0] == Poll(me) then [s.cache] else []) + Looks(Next(s, actions[0]), actions[1..], me)
  }

  predicate SawNothing(looks: seq<Option<Body>>) {
    forall k | 0 <= k < |looks| :: looks[k] == None
  }

  /** A request goes on to its next look only while it sees nothing, and answers what it sees. */
  predicate LooksOk(p: Phase, looks: seq<Option<Body>>) {
    match p
    case Polling(attempt) => attempt < 8 && |looks| == attempt && SawNothing(looks)
    case Finished(Conflict) => |looks| == 8 && SawNothing(looks)
    case Finished(Failure) => |looks| < 8 && SawNothing(looks)
    case Finished(Success(body)) =>
      looks == [] || (|looks| <= 8 && SawNothing(looks[..|looks| - 1]) && looks[|looks| - 1] == Some(body))
    case _ => looks == []
  }

  lemma NextLooks(s: State, a: Action, me: nat, looks: seq<Option<Body>>)
    requires Enabled(s, a) && me < |s.requests| && LooksOk(s.requests[me], looks)
    ensures me < |Next(s, a).requests|
    ensures LooksOk(Next(s, a).requests[me], looks + if a == Poll(me) then [s.cache] else [])
  {
    assert looks + [] == looks;
    assert (looks + [s.cache])[..|looks|] == looks;
    if !MovesMe(a, me) {
      StaysPut(s, a, me);
    }
  }

  lemma {:induction false} PlayLooks(s: State, actions: seq<Action>, me: nat, looks: seq<Option<Body>>)
    requires Feasible(s, actions) && me < |s.requests| && LooksOk(s.requests[me], looks)
    ensures me < |Play(s, actions).requests|
    ensures LooksOk(Play(s, actions).requests[me], looks + Looks(s, actions, me))
    decreases |actions|
  {
    if actions == [] {
      assert looks + [] == looks;
    } else {
      var a := actions[0];
      var seen := if a == Poll(me) then [s.cache] else [];
      NextLooks(s, a, me, looks);
      PlayLooks(Next(s, a), actions[1..], me, looks + seen);
      Joined(looks, seen, Looks(Next(s, a), actions[1..], me));
    }
  }

  lemma Joined(x: seq<Option<Body>>, y: seq<Option<Body>>, z: seq<Option<Body>>)
    ensures x + (y + z) == x + y + z
  {}

  lemma {:induction false} LooksFromArrival(s: State, actions: seq<Action>, me: nat)
    requires Feasible(s, actions) && |s.requests| <= me
    ensures if me < |Play(s, actions).requests| then LooksOk(Play(s, actions).requests[me], Looks(s, actions, me))
            else Looks(s, actions, me) == []
    decreases |actions|
  {
    if actions != [] {
      var s', rest := Next(s, actions[0]), actions[1..];
      assert Looks(s, actions, me) == Looks(s', rest, me);
      if |s'.requests| <= me {
        LooksFromArrival(s', rest, me);
      } else {
        assert s'.requests[me] == Arrived;
        PlayLooks(s', rest, me, []);
        assert [] + Looks(s', rest, me) == Looks(s', rest, me);
      }
    }
  }

  /** In every run, a request ends in a conflict only after eight looks at the cache that all found it empty. */
  lemma ConflictSawNothing(actions: seq<Action>, me: nat)
    requires Feasible(INITIAL, actions) && me < |Play(INITIAL, actions).requests|
    requires Play(INITIAL, actions).requests[me] == Finished(Conflict)
    ensures Looks(INITIAL, actions, me) == [None, None, None, None, None, None, None, None]
  {
    LooksFromArrival(INITIAL, actions, me);
  }

  /** In every run, a waiting request that finds an answer in the cache ends with it. */
  lemma FoundIsAnswered(actions: seq<Action>, me: nat, body: Body)
    requires Feasible(INITIAL, actions) && Some(body) in Looks(INITIAL, actions, me)
    ensures me < |Play(INITIAL, actions).requests| && Play(INITIAL, actions).requests[me] == Finished(Success(body))
  {
    LooksFromArrival(INITIAL, actions, me);
    var looks := Looks(INITIAL, actions, me);
    assert forall k | 0 <= k < |looks| - 1 :: looks[..|looks| - 1][k] == looks[k];
  }

  // ----- A request left alone -----

  /** How many steps a request has still before it. */
  function Distance(p: Phase): nat {
    match p
    case Arrived => 20
    case Contending => 19
    case Polling(attempt) => if attempt < 8 then 9 - attempt else 1
    case Checking => 8
    case Inserting => 7
    case Refilling(_) => 3
    case Handling => 6
    case Persisting(_, recordDone, cacheDone) => 3 + (if recordDone then 0 else 1) + (if cacheDone then 0 else 1)
    case Finished(_) => 0
    case _ => 2
  }

  lemma PersistingNears(s: State, me: nat, fate: Fate)
    requires me < |s.requests| && s.requests[me].Persisting? && UnderWay(s.requests[me])
    ensures var s' := Next(s, OwnStep(s.requests[me], me, fate));
            && |s'.requests| == |s.requests|
            && Distance(s'.requests[me]) < Distance(s.requests[me]) && UnderWay(s'.requests[me])
  {}

  lemma OwnStepNears(s: State, me: nat, fate: Fate)
    requires me < |s.requests| && UnderWay(s.requests[me])
    ensures var s' := Next(s, OwnStep(s.requests[me], me, fate));
            && |s'.requests| == |s.requests| && Distance(s'.requests[me]) < Distance(s.requests[me])
            && (UnderWay(s'.requests[me]) || s'.requests[me].Finished?)
  {
    if s.requests[me].Persisting? {
      PersistingNears(s, me, fate);
    }
  }

  /** The state a request comes to if nobody else moves. */
  ghost function Alone(s: State, me: nat, fate: Fate): State
    requires me < |s.requests|
    decreases Distance(s.requests[me])
  {
    if !UnderWay(s.requests[me]) then s
    else
      OwnStepNears(s, me, fate);
      Alone(Next(s, OwnStep(s.requests[me], me, fate)), me, fate)
  }

  // ----- A request among others -----

  /** What others make of a state while request `me` waits: of the steps they try, those that are possible. */
  function Interleaved(s: State, others: seq<Action>, me: nat): (r: State)
    requires me < |s.requests|
    ensures me < |r.requests| && r.requests[me] == s.requests[me]
    decreases |others|
  {
    if others == [] then s
    else if Enabled(s, others[0]) && !MovesMe(others[0], me) then
      StaysPut(s, others[0], me);
      Interleaved(Next(s, others[0]), others[1..], me)
    else Interleaved(s, others[1..], me)
  }

  /** The state a request comes to when the others try what they try at each of its awaits. */
  ghost function Together(s: State, me: nat, fate: Fate): State
    requires me < |s.requests|
    decreases Distance(s.requests[me])
  {
    if !UnderWay(s.requests[me]) then s
    else
      var s1 := Interleaved(s, fate.others(AwaitOf(s.requests[me])), me);
      OwnStepNears(s1, me, fate);
      Together(Next(s1, OwnStep(s1.requests[me], me, fate)), me, fate)
  }

  /** Whether nobody else tries anything while the request waits. */
  ghost predicate Undisturbed(fate: Fate) {
    forall k :: fate.others(k) == []
  }

  /** Undisturbed, a request is alone. */
  lemma {:induction false} UndisturbedIsAlone(s: State, me: nat, fate: Fate)
    requires me < |s.requests| && Undisturbed(fate)
    ensures Together(s, me, fate) == Alone(s, me, fate)
    decreases Distance(s.requests[me])
  {
    if UnderWay(s.requests[me]) {
      OwnStepNears(s, me, fate);
      UndisturbedIsAlone(Next(s, OwnStep(s.requests[me], me, fate)), me, fate);
    }
  }

  // ----- How a request ends alone -----

  ghost predicate NothingFails(fate: Fate) {
    forall k :: !fate.fails(k)
  }

  lemma AloneSteps(s: State, me: nat, fate: Fate, s': State)
    requires me < |s.requests| && UnderWay(s.requests[me]) && s' == Next(s, OwnStep(s.requests[me], me, fate))
    ensures |s'.requests| == |s.requests| && Alone(s, me, fate) == Alone(s', me, fate)
  {
    OwnStepNears(s, me, fate);
  }

  /** Looks at a cache that stays empty end in a conflict. */
  lemma {:induction false} AlonePolling(s: State, me: nat, fate: Fate)
    requires NothingFails(fate) && me < |s.requests| && s.requests[me].Polling? && s.requests[me].attempt < 8
    requires s.cache == None
    ensures Alone(s, me, fate) == Go(s, me, Finished(Conflict))
    decreases 8 - s.requests[me].attempt
  {
    var s' := Next(s, Poll(me));
    AloneSteps(s, me, fate, s');
    if s.requests[me].attempt < 7 {
      AlonePolling(s', me, fate);
      assert Go(s', me, Finished(Conflict)) == Go(s, me, Finished(Conflict));
    } else {
      assert s' == Go(s, me, Finished(Conflict));
    }
  }

  lemma Overwritten(s: State, s': State, me: nat, answer: Answer)
    requires me < |s.requests| == |s'.requests| && s'.requests == s.requests[me := s'.requests[me]]
    ensures s'.requests[me := Finished(answer)] == s.requests[me := Finished(answer)]
  {}

  lemma AloneRefilling(s: State, me: nat, fate: Fate, body: Body)
    requires NothingFails(fate) && me < |s.requests| && s.requests[me] == Refilling(body) && s.lock == Some(me)
    ensures Alone(s, me, fate) == Go(s, me, Finished(Success(body))).(cache := Some(body), lock := None)
  {
    var s1 := Go(s, me, Unlocking(body)).(cache := Some(body));
    AloneSteps(s, me, fate, s1);
    var s2 := Go(s, me, Finished(Success(body))).(cache := Some(body), lock := None);
    assert Next(s1, Unlock(me)) == s2;
    AloneSteps(s1, me, fate, s2);
  }

  lemma AloneFailing(s: State, me: nat, fate: Fate)
    requires NothingFails(fate) && me < |s.requests| && s.requests[me] == Failing && s.lock == Some(me)
    ensures Alone(s, me, fate) == Go(s, me, Finished(Failure)).(lock := None)
  {
    AloneSteps(s, me, fate, Go(s, me, Finished(Failure)).(lock := None));
  }

  lemma AlonePersisting(s: State, me: nat, fate: Fate, body: Body)
    requires NothingFails(fate) && me < |s.requests| && s.requests[me] == Persisting(body, false, false)
    requires s.lock == Some(me) && !s.record.Absent?
    ensures Alone(s, me, fate)
            == Go(s, me, Finished(Success(body))).(cache := Some(body), record := Filled(body), lock := None)
  {
    var s1 := if fate.recordFirst then Go(s, me, Persisting(body, true, false)).(record := Filled(body))
              else Go(s, me, Persisting(body, false, true)).(cache := Some(body));
    AloneSteps(s, me, fate, s1);
    var s2 := Go(s, me, Releasing(body)).(cache := Some(body), record := Filled(body));
    assert Next(s1, if fate.recordFirst then PersistCache(me) else PersistRecord(me)) == s2;
    AloneSteps(s1, me, fate, s2);
    var s3 := Go(s, me, Finished(Success(body))).(cache := Some(body), record := Filled(body), lock := None);
    assert Next(s2, Release(me)) == s3;
    AloneSteps(s2, me, fate, s3);
  }

  lemma AloneHandling(s: State, me: nat, fate: Fate)
    requires NothingFails(fate) && me < |s.requests| && s.requests[me] == Handling
    requires s.lock == Some(me) && !s.record.Absent?
    ensures Alone(s, me, fate)
            == match fate.outcome
               case None => Go(s, me, Finished(Failure)).(lock := None)
               case Some(body) =>
                 Go(s, me, Finished(Success(body)))
                   .(cache := Some(body), record := Filled(body), lock := None, successes := s.successes + [body])
  {
    match fate.outcome
    case None =>
      AloneSteps(s, me, fate, Go(s, me, Failing));
      AloneFailing(Go(s, me, Failing), me, fate);
      assert Go(Go(s, me, Failing), me, Finished(Failure)) == Go(s, me, Finished(Failure));
    case Some(body) =>
      var s1 := Go(s, me, Persisting(body, false, false)).(successes := s.successes + [body]);
      AloneSteps(s, me, fate, s1);
      AlonePersisting(s1, me, fate, body);
      assert s1.requests[me := Finished(Success(body))] == s.requests[me := Finished(Success(body))];
  }

  lemma AloneChecking(s: State, me: nat, fate: Fate)
    requires NothingFails(fate) && me < |s.requests| && s.requests[me] == Checking && s.lock == Some(me)
    ensures Alone(s, me, fate)
            == if s.record.Filled? then
                 Go(s, me, Finished(Success(s.record.body))).(cache := Some(s.record.body), lock := None)
               else match fate.outcome
                 case None => Go(s, me, Finished(Failure)).(record := Blank, lock := None)
                 case Some(body) =>
                   Go(s, me, Finished(Success(body)))
                     .(cache := Some(body), record := Filled(body), lock := None, successes := s.successes + [body])
  {
    if s.record.Filled? {
      var s1 := Go(s, me, Refilling(s.record.body));
      AloneSteps(s, me, fate, s1);
      AloneRefilling(s1, me, fate, s.record.body);
      assert s1.requests[me := Finished(Success(s.record.body))] == s.requests[me := Finished(Success(s.record.body))];
    } else {
      var s1 := Go(s, me, Inserting);
      AloneSteps(s, me, fate, s1);
      var s2 := Go(s, me, Handling).(record := Blank);
      assert Next(s1, InsertBlank(me)) == s2;
      AloneSteps(s1, me, fate, s2);
      AloneHandling(s2, me, fate);
      Overwritten(s, s2, me, if fate.outcome.Some? then Success(fate.outcome.value) else Failure);
    }
  }

  /** How a request ends that is left alone while no store throws: it answers from the cache; or ends in a conflict if
      another holds the lock; or answers from the record and caches that answer; or runs its handler, whose body it
      records and caches, and after whose failure the key can be tried again. The lock is free when it ends, unless it
      was another's. */
  predicate Ends(before: State, after: State, me: nat, answer: Answer, outcome: Option<Body>)
    requires me < |before.requests|
  {
    && after.requests == before.requests[me := Finished(answer)]
    && after.lock == before.lock
    && if before.cache.Some? then
         && answer == Success(before.cache.value) && after.cache == before.cache
         && after.record == before.record && after.successes == before.successes
       else if before.lock.Some? then
         && answer == Conflict && after.cache == None
         && after.record == before.record && after.successes == before.successes
       else if before.record.Filled? then
         && answer == Success(before.record.body) && after.cache == Some(before.record.body)
         && after.record == before.record && after.successes == before.successes
       else if outcome.Some? then
         && answer == Success(outcome.value) && after.cache == outcome
         && after.record == Filled(outcome.value) && after.successes == before.successes + [outcome.value]
       else
         answer == Failure && after.cache == None && after.record == Blank && after.successes == before.successes
  }

  lemma AloneExactly(s: State, me: nat, fate: Fate) returns (answer: Answer)
    requires NothingFails(fate) && me < |s.requests| && s.requests[me] == Arrived
    ensures Ends(s, Alone(s, me, fate), me, answer, fate.outcome)
  {
    answer := if s.cache.Some? then Success(s.cache.value) else if s.lock.Some? then Conflict
              else if s.record.Filled? then Success(s.record.body)
              else if fate.outcome.Some? then Success(fate.outcome.value) else Failure;
    if s.cache.Some? {
      AloneSteps(s, me, fate, Go(s, me, Finished(answer)));
    } else {
      var s1 := Go(s, me, Contending);
      AloneSteps(s, me, fate, s1);
      var s2 := if s.lock.Some? then Go(s, me, Polling(0)) else Go(s, me, Checking).(lock := Some(me));
      assert Next(s1, TryLock(me)) == s2;
      AloneSteps(s1, me, fate, s2);
      Overwritten(s, s2, me, answer);
      if s.lock.Some? {
        AlonePolling(s2, me, fate);
      } else {
        AloneChecking(s2, me, fate);
      }
    }
  }
}
