/** Requests that carry one idempotency key, racing through cache, lock, database record and handler. */
module Idempotency {
  import opened Tables

  type Body = nat

  datatype Answer = Success(body: Body) | Conflict | Failure

  /** Where a request is: each phase ends at an await of the interceptor. */
  datatype Phase =
    | Arrived                                 // about to read the cache
    | Contending                              // missed; about to try the lock
    | Polling(attempt: nat)                   // lock taken by another; about to read the cache again
    | Checking                                // holds the lock; about to read the database record
    | Refilling(body: Body)                   // record found; about to fill the cache
    | Unlocking(body: Body)                   // about to release the lock and answer from the record
    | Inserting                               // about to insert the blank record
    | Handling                                // the handler runs
    | Persisting(body: Body, recordDone: bool, cacheDone: bool)  // answered; the two unawaited writes
    | Releasing(body: Body)                   // both writes done; about to release the lock
    | Failing                                 // the handler threw; about to release the lock
    | Finished(answer: Answer)

  datatype KeyRecord = Absent | Blank | Filled(body: Body)

  /** `successes` lists the bodies of the handler executions that returned. */
  datatype State = State(lock: Option<nat>, cache: Option<Body>, record: KeyRecord, requests: seq<Phase>,
                         successes: seq<Body>)

  const INITIAL := State(None, None, Absent, [], [])
  const POLL_ATTEMPTS := 8

  datatype Action =
    | Arrive
    | Lookup(who: nat)
    | TryLock(who: nat)
    | Poll(who: nat)
    | CheckRecord(who: nat)
    | Refill(who: nat)
    | Unlock(who: nat)
    | InsertBlank(who: nat)
    | HandlerReturns(who: nat, body: Body)
    | HandlerThrows(who: nat)
    | PersistRecord(who: nat)
    | PersistCache(who: nat)
    | Release(who: nat)
    // The environment: the TTLs of the cached answer and of the lock, and stores that throw.
    | CacheExpires
    | LockExpires
    | PreCheckFails(who: nat)
    | PersistFails(who: nat)
    | RedisFails(who: nat)

  /** Whether a step is taken by a request already there. */
  predicate ByRequest(a: Action) { a != Arrive && a != CacheExpires && a != LockExpires }

  /** The awaits of Redis outside the two unawaited writes. */
  predicate CallsRedis(p: Phase) {
    p.Arrived? || p.Contending? || p.Polling? || p.Refilling? || p.Unlocking? || p.Releasing? || p.Failing?
  }

  /** Without its answer from Redis a request throws before it has the lock, and goes on once it has it. */
  function WithoutRedis(p: Phase): Phase
    requires CallsRedis(p)
  {
    match p
    case Refilling(body) => Unlocking(body)
    case Unlocking(body) => Finished(Success(body))
    case Releasing(body) => Finished(Success(body))
    case _ => Finished(Failure)
  }

  predicate Enabled(s: State, a: Action) {
    match a
    case Arrive => true
    case CacheExpires => true
    case LockExpires => s.lock.Some?
    case _ =>
      && a.who < |s.requests|
      && var p := s.requests[a.who];
         match a
         case Lookup(_) => p.Arrived?
         case TryLock(_) => p.Contending?
         case Poll(_) => p.Polling?
         case CheckRecord(_) => p.Checking?
         case Refill(_) => p.Refilling?
         case Unlock(_) => p.Unlocking?
         case InsertBlank(_) => p.Inserting?
         case HandlerReturns(_, _) => p.Handling?
         case HandlerThrows(_) => p.Handling?
         case PersistRecord(_) => p.Persisting? && !p.recordDone
         case PersistCache(_) => p.Persisting? && !p.cacheDone
         case Release(_) => p.Releasing? || p.Failing?
         case PreCheckFails(_) => p.Checking? || p.Inserting?
         case PersistFails(_) => p.Persisting?
         case RedisFails(_) => CallsRedis(p)
         case _ => true
  }

  function Go(s: State, who: nat, p: Phase): State
    requires who < |s.requests|
  {
    s.(requests := s.requests[who := p])
  }

  /** The compare-and-delete script: only the token's owner removes the lock. */
  function Freed(lock: Option<nat>, who: nat): Option<nat> {
    if lock == Some(who) then None else lock
  }

  function Settled(p: Phase): Phase
    requires p.Persisting?
  {
    if p.recordDone && p.cacheDone then Releasing(p.body) else p
  }

  function Next(s: State, a: Action): State
    requires Enabled(s, a)
  {
    match a
    case Arrive => s.(requests := s.requests + [Arrived])
    case Lookup(i) => Go(s, i, if s.cache.Some? then Finished(Success(s.cache.value)) else Contending)
    case TryLock(i) => if s.lock == None then Go(s, i, Checking).(lock := Some(i)) else Go(s, i, Polling(0))
    case Poll(i) =>
      if s.cache.Some? then Go(s, i, Finished(Success(s.cache.value)))
      else if s.requests[i].attempt + 1 < POLL_ATTEMPTS then Go(s, i, Polling(s.requests[i].attempt + 1))
      else Go(s, i, Finished(Conflict))
    case CheckRecord(i) => Go(s, i, if s.record.Filled? then Refilling(s.record.body) else Inserting)
    case Refill(i) => Go(s, i, Unlocking(s.requests[i].body)).(cache := Some(s.requests[i].body))
    case Unlock(i) => Go(s, i, Finished(Success(s.requests[i].body))).(lock := Freed(s.lock, i))
    case InsertBlank(i) => Go(s, i, Handling).(record := if s.record.Absent? then Blank else s.record)
    case HandlerReturns(i, body) => Go(s, i, Persisting(body, false, false)).(successes := s.successes + [body])
    case HandlerThrows(i) => Go(s, i, Failing)
    case PersistRecord(i) =>
      Go(s, i, Settled(s.requests[i].(recordDone := true)))
        .(record := if s.record.Absent? then Absent else Filled(s.requests[i].body))
    case PersistCache(i) => Go(s, i, Settled(s.requests[i].(cacheDone := true))).(cache := Some(s.requests[i].body))
    case Release(i) =>
      Go(s, i, Finished(if s.requests[i].Failing? then Failure else Success(s.requests[i].body)))
        .(lock := Freed(s.lock, i))
    case CacheExpires => s.(cache := None)
    case LockExpires => s.(lock := None)
    case PreCheckFails(i) => Go(s, i, Handling)
    case PersistFails(i) => Go(s, i, Releasing(s.requests[i].body))
    case RedisFails(i) => Go(s, i, WithoutRedis(s.requests[i]))
  }

  // ----- The invariant -----

  /** The phases in which the key must not be taken by anybody else. A look at a record that is there is not one. */
  predicate Critical(p: Phase, record: KeyRecord) {
    (p.Checking? && !record.Filled?) || p.Inserting? || p.Handling? || (p.Persisting? && !p.recordDone)
  }

  /** A lock may expire outside the critical phases, a pre-check may fail once the key's blank record exists,
      and persisting may fail once the record is filled. */
  predicate Harmless(s: State, a: Action)
    requires Enabled(s, a)
  {
    match a
    case LockExpires => s.lock.value < |s.requests| && !Critical(s.requests[s.lock.value], s.record)
    case PreCheckFails(_) => s.record == Blank
    case PersistFails(i) => s.requests[i].recordDone
    case _ => true
  }

  /** The body a request has answered with, or is about to. */
  function Answered(p: Phase): Option<Body> {
    match p
    case Refilling(body) => Some(body)
    case Unlocking(body) => Some(body)
    case Persisting(body, _, _) => Some(body)
    case Releasing(body) => Some(body)
    case Finished(Success(body)) => Some(body)
    case _ => None
  }

  predicate RequestOk(s: State, i: nat, p: Phase) {
    && (Critical(p, s.record) ==> s.lock == Some(i))
    && (Answered(p).Some? ==> s.successes == [Answered(p).value])
    && (p.Inserting? || p.Handling? ==> s.successes == [])
    && (p.Handling? ==> s.record == Blank)
    && (p.Persisting? ==> s.record == (if p.recordDone then Filled(p.body) else Blank))
    && (p.Releasing? ==> s.record == Filled(p.body))
  }

  ghost predicate RequestsOk(s: State) {
    forall i: nat | i < |s.requests| :: RequestOk(s, i, s.requests[i])
  }

  /** At most one execution has returned; until its record is written, the request that ran it holds the lock. */
  predicate StoresOk(s: State) {
    && |s.successes| <= 1
    && (s.lock.Some? ==> s.lock.value < |s.requests|)
    && (s.cache.Some? ==> s.successes == [s.cache.value])
    && (s.record.Filled? ==> s.successes == [s.record.body])
    && (s.successes != [] && !s.record.Filled? ==> s.lock.Some? && s.requests[s.lock.value].Persisting?)
  }

  ghost predicate Inv(s: State) { RequestsOk(s) && StoresOk(s) }

  lemma NextKeepsStores(s: State, a: Action)
    requires Inv(s) && Enabled(s, a) && Harmless(s, a)
    ensures StoresOk(Next(s, a))
  {
    if ByRequest(a) {
      assert RequestOk(s, a.who, s.requests[a.who]);
    }
  }

  /** A request that does not move keeps its part: whoever changes what it relies on would need its lock. */
  lemma BystanderOk(s: State, a: Action, i: nat)
    requires Inv(s) && Enabled(s, a) && Harmless(s, a) && i < |s.requests|
    requires ByRequest(a) ==> i != a.who
    ensures RequestOk(Next(s, a), i, Next(s, a).requests[i])
  {
    assert RequestOk(s, i, s.requests[i]);
    if ByRequest(a) {
      assert RequestOk(s, a.who, s.requests[a.who]);
    }
  }

  lemma MoverOk(s: State, a: Action)
    requires Inv(s) && Enabled(s, a) && Harmless(s, a) && ByRequest(a)
    ensures RequestOk(Next(s, a), a.who, Next(s, a).requests[a.who])
  {
    assert RequestOk(s, a.who, s.requests[a.who]);
  }

  lemma NextKeepsInv(s: State, a: Action)
    requires Inv(s) && Enabled(s, a) && Harmless(s, a)
    ensures Inv(Next(s, a))
  {
    NextKeepsStores(s, a);
    forall i: nat | i < |Next(s, a).requests|
      ensures RequestOk(Next(s, a), i, Next(s, a).requests[i])
    {
      if i < |s.requests| {
        if !ByRequest(a) || i != a.who { BystanderOk(s, a, i); } else { MoverOk(s, a); }
      }
    }
  }

  // ----- Whole runs -----

  predicate Feasible(s: State, actions: seq<Action>)
    decreases |actions|
  {
    actions != [] ==> Enabled(s, actions[0]) && Feasible(Next(s, actions[0]), actions[1..])
  }

  predicate AllHarmless(s: State, actions: seq<Action>)
    requires Feasible(s, actions)
    decreases |actions|
  {
    actions != [] ==> Harmless(s, actions[0]) && AllHarmless(Next(s, actions[0]), actions[1..])
  }

  function Play(s: State, actions: seq<Action>): State
    requires Feasible(s, actions)
    decreases |actions|
  {
    if actions == [] then s else Play(Next(s, actions[0]), actions[1..])
  }

  lemma {:induction false} PlayOneMore(s: State, actions: seq<Action>, a: Action)
    requires Feasible(s, actions) && Enabled(Play(s, actions), a)
    ensures Feasible(s, actions + [a]) && Play(s, actions + [a]) == Next(Play(s, actions), a)
    ensures AllHarmless(s, actions + [a]) <==> AllHarmless(s, actions) && Harmless(Play(s, actions), a)
    decreases |actions|
  {
    if actions == [] {
      assert actions + [a] == [a];
      assert [a][1..] == [];
    } else {
      assert (actions + [a])[1..] == actions[1..] + [a];
      PlayOneMore(Next(s, actions[0]), actions[1..], a);
    }
  }

  lemma {:induction false} PlayKeepsInv(s: State, actions: seq<Action>)
    requires Inv(s) && Feasible(s, actions) && AllHarmless(s, actions)
    ensures Inv(Play(s, actions))
    decreases |actions|
  {
    if actions != [] {
      NextKeepsInv(s, actions[0]);
      PlayKeepsInv(Next(s, actions[0]), actions[1..]);
    }
  }

  /** However many requests interleave, at most one handler execution returns, and every successful answer carries
      its body. */
  lemma AtMostOneSuccess(actions: seq<Action>)
    requires Feasible(INITIAL, actions) && AllHarmless(INITIAL, actions)
    ensures var s := Play(INITIAL, actions);
            && |s.successes| <= 1
            && forall i: nat | i < |s.requests| && Answered(s.requests[i]).Some? ::
              s.successes == [Answered(s.requests[i]).value]
  {
    PlayKeepsInv(INITIAL, actions);
    var s := Play(INITIAL, actions);
    forall i: nat | i < |s.requests| && Answered(s.requests[i]).Some?
      ensures s.successes == [Answered(s.requests[i]).value]
    {
      assert RequestOk(s, i, s.requests[i]);
    }
  }

  // ----- What holds whatever fails -----

  predicate RealAnswer(s: State, p: Phase) {
    Answered(p).Some? ==> Answered(p).value in s.successes
  }

  /** Whatever is stored or answered is the body of some execution that returned. */
  ghost predicate Real(s: State) {
    && (s.cache.Some? ==> s.cache.value in s.successes)
    && (s.record.Filled? ==> s.record.body in s.successes)
    && forall i: nat | i < |s.requests| :: RealAnswer(s, s.requests[i])
  }

  lemma NextKeepsReal(s: State, a: Action)
    requires Real(s) && Enabled(s, a)
    ensures Real(Next(s, a))
  {
    var s' := Next(s, a);
    assert s.successes <= s'.successes;
    if ByRequest(a) {
      assert RealAnswer(s, s.requests[a.who]);
    }
    forall i: nat | i < |s'.requests|
      ensures RealAnswer(s', s'.requests[i])
    {
      if i < |s.requests| {
        assert RealAnswer(s, s.requests[i]);
      }
    }
  }

  lemma {:induction false} PlayKeepsReal(s: State, actions: seq<Action>)
    requires Real(s) && Feasible(s, actions)
    ensures Real(Play(s, actions))
    decreases |actions|
  {
    if actions != [] {
      NextKeepsReal(s, actions[0]);
      PlayKeepsReal(Next(s, actions[0]), actions[1..]);
    }
  }

  // ----- Exactly which faults do harm -----

  /** Some run without harmful faults leads from one state to the other. */
  ghost predicate Reaches(s: State, s': State) {
    exists actions :: Feasible(s, actions) && AllHarmless(s, actions) && Play(s, actions) == s'
  }

  lemma ReachesStart(s: State)
    ensures Reaches(s, s)
  {
    assert Feasible(s, []) && AllHarmless(s, []) && Play(s, []) == s;
  }

  lemma ReachesNext(s: State, s': State, a: Action)
    requires Reaches(s, s') && Enabled(s', a) && Harmless(s', a)
    ensures Reaches(s, Next(s', a))
  {
    var actions :| Feasible(s, actions) && AllHarmless(s, actions) && Play(s, actions) == s';
    PlayOneMore(s, actions, a);
  }

  lemma ReachableIsSafe(s: State, s': State)
    requires Inv(s) && Reaches(s, s')
    ensures Inv(s')
  {
    var actions :| Feasible(s, actions) && AllHarmless(s, actions) && Play(s, actions) == s';
    PlayKeepsInv(s, actions);
  }

  /** With the lock free and no record filled, the cache can expire and one more request get as far as its handler. */
  lemma NewcomerHandles(origin: State, s: State) returns (s': State)
    requires Reaches(origin, s) && s.lock == None && !s.record.Filled?
    ensures Reaches(origin, s')
    ensures |s'.requests| == |s.requests| + 1 && s'.requests[..|s.requests|] == s.requests &&
            s'.requests[|s.requests|] == Handling
    ensures s'.successes == s.successes
  {
    var i := |s.requests|;
    ReachesNext(origin, s, CacheExpires);
    s' := s.(cache := None);
    ReachesNext(origin, s', Arrive);
    s' := Next(s', Arrive);
    ReachesNext(origin, s', Lookup(i));
    s' := Next(s', Lookup(i));
    ReachesNext(origin, s', TryLock(i));
    s' := Next(s', TryLock(i));
    ReachesNext(origin, s', CheckRecord(i));
    s' := Next(s', CheckRecord(i));
    ReachesNext(origin, s', InsertBlank(i));
    s' := Next(s', InsertBlank(i));
  }

  lemma HandlerSucceeds(origin: State, s: State, i: nat) returns (s': State)
    requires Reaches(origin, s) && i < |s.requests| && s.requests[i] == Handling
    ensures Reaches(origin, s') && s' == Go(s, i, Persisting(0, false, false)).(successes := s.successes + [0])
  {
    ReachesNext(origin, s, HandlerReturns(i, 0));
    s' := Next(s, HandlerReturns(i, 0));
  }

  /** A request past its look at an unfilled record comes to its handler, lock or no lock. */
  lemma ComesToHandler(origin: State, s: State, i: nat) returns (s': State)
    requires Reaches(origin, s) && i < |s.requests| && !s.record.Filled?
    requires s.requests[i].Checking? || s.requests[i].Inserting? || s.requests[i].Handling?
    ensures Reaches(origin, s') && i < |s'.requests| && s'.requests[i] == Handling
    ensures s'.lock == s.lock && !s'.record.Filled? && s'.successes == s.successes
  {
    s' := s;
    if s'.requests[i].Checking? {
      ReachesNext(origin, s', CheckRecord(i));
      s' := Next(s', CheckRecord(i));
    }
    if s'.requests[i].Inserting? {
      ReachesNext(origin, s', InsertBlank(i));
      s' := Next(s', InsertBlank(i));
    }
  }

  /** A lock that expires in a critical phase lets a newcomer in beside its owner. */
  lemma HarmfulExpiry(s: State) returns (s': State)
    requires Inv(s) && Enabled(s, LockExpires) && !Harmless(s, LockExpires)
    ensures Reaches(Next(s, LockExpires), s') && |s'.successes| == 2
  {
    var origin := Next(s, LockExpires);
    var owner := s.lock.value;
    assert RequestOk(s, owner, s.requests[owner]);
    ReachesStart(origin);
    if s.requests[owner].Persisting? {
      s' := NewcomerHandles(origin, origin);
      s' := HandlerSucceeds(origin, s', |s.requests|);
    } else {
      s' := ComesToHandler(origin, origin, owner);
      var n := |s'.requests|;
      s' := NewcomerHandles(origin, s');
      assert s'.requests[owner] == s'.requests[..n][owner];
      s' := HandlerSucceeds(origin, s', owner);
      s' := HandlerSucceeds(origin, s', n);
    }
  }

  /** With no record to update, the answer is persisted nowhere but in the cache. */
  lemma PersistsInCacheOnly(origin: State, s: State, i: nat) returns (s': State)
    requires Reaches(origin, s) && s.record == Absent && s.lock == Some(i) && i < |s.requests| &&
             s.requests[i] == Persisting(0, false, false)
    ensures Reaches(origin, s') && s'.record == Absent && s'.lock == None && s'.successes == s.successes
  {
    ReachesNext(origin, s, PersistRecord(i));
    s' := Next(s, PersistRecord(i));
    ReachesNext(origin, s', PersistCache(i));
    s' := Next(s', PersistCache(i));
    ReachesNext(origin, s', Release(i));
    s' := Next(s', Release(i));
  }

  /** A pre-check that fails runs the handler past a filled record, or without a record that could be filled. */
  lemma HarmfulPreCheck(s: State, i: nat) returns (s': State)
    requires Inv(s) && Enabled(s, PreCheckFails(i)) && !Harmless(s, PreCheckFails(i))
    ensures Reaches(Next(s, PreCheckFails(i)), s') && |s'.successes| == 2
  {
    var origin := Next(s, PreCheckFails(i));
    assert RequestOk(s, i, s.requests[i]);
    ReachesStart(origin);
    s' := HandlerSucceeds(origin, origin, i);
    if s.record == Absent {
      s' := PersistsInCacheOnly(origin, s', i);
      var n := |s'.requests|;
      s' := NewcomerHandles(origin, s');
      s' := HandlerSucceeds(origin, s', n);
    }
  }

  /** Persisting that fails before the record is filled gives up the lock with nothing to answer from. */
  lemma HarmfulPersist(s: State, i: nat) returns (s': State)
    requires Inv(s) && Enabled(s, PersistFails(i)) && !Harmless(s, PersistFails(i))
    ensures Reaches(Next(s, PersistFails(i)), s') && |s'.successes| == 2
  {
    var origin := Next(s, PersistFails(i));
    assert RequestOk(s, i, s.requests[i]);
    ReachesStart(origin);
    ReachesNext(origin, origin, Release(i));
    s' := NewcomerHandles(origin, Next(origin, Release(i)));
    s' := HandlerSucceeds(origin, s', |s.requests|);
  }

  /** From any state of the protocol a step is harmless if and only if no continuation without harmful faults
      lets two handler executions return. */
  lemma HarmlessExactly(s: State, a: Action)
    requires Inv(s) && Enabled(s, a)
    ensures Harmless(s, a) <==> forall s' | Reaches(Next(s, a), s') :: |s'.successes| <= 1
  {
    if Harmless(s, a) {
      NextKeepsInv(s, a);
      forall s' | Reaches(Next(s, a), s')
        ensures |s'.successes| <= 1
      {
        ReachableIsSafe(Next(s, a), s');
      }
    } else if a == LockExpires {
      var s' := HarmfulExpiry(s);
    } else if a.PreCheckFails? {
      var s' := HarmfulPreCheck(s, a.who);
    } else {
      var s' := HarmfulPersist(s, a.who);
    }
  }

  // ----- Harmful faults occur -----

  lemma FirstChecks() returns (s: State)
    ensures Reaches(INITIAL, s) && s == State(Some(0), None, Absent, [Checking], [])
  {
    ReachesStart(INITIAL);
    ReachesNext(INITIAL, INITIAL, Arrive);
    ReachesNext(INITIAL, INITIAL.(requests := [Arrived]), Lookup(0));
    ReachesNext(INITIAL, INITIAL.(requests := [Contending]), TryLock(0));
    s := State(Some(0), None, Absent, [Checking], []);
  }

  lemma FirstHandles() returns (s: State)
    ensures Reaches(INITIAL, s) && s == State(Some(0), None, Blank, [Handling], [])
  {
    s := FirstChecks();
    ReachesNext(INITIAL, s, CheckRecord(0));
    ReachesNext(INITIAL, s.(requests := [Inserting]), InsertBlank(0));
    s := State(Some(0), None, Blank, [Handling], []);
  }

  /** A TTL that runs out while the handler runs allows a second execution to return. */
  lemma ExpiryInTheHandlerBreaks() returns (s: State, s': State)
    ensures Reaches(INITIAL, s) && s.lock == Some(0) && s.requests == [Handling]
    ensures Reaches(Next(s, LockExpires), s') && |s'.successes| == 2
  {
    s := FirstHandles();
    ReachableIsSafe(INITIAL, s);
    s' := HarmfulExpiry(s);
  }

  /** So does a pre-check that fails for the first request of a key. */
  lemma FailedPreCheckBreaks() returns (s: State, s': State)
    ensures Reaches(INITIAL, s) && s.record == Absent && s.requests == [Checking]
    ensures Reaches(Next(s, PreCheckFails(0)), s') && |s'.successes| == 2
  {
    s := FirstChecks();
    ReachableIsSafe(INITIAL, s);
    s' := HarmfulPreCheck(s, 0);
  }

  /** And so does an answer that went out before its record could be written. */
  lemma FailedPersistBreaks() returns (s: State, s': State)
    ensures Reaches(INITIAL, s) && s.lock == Some(0) && s.requests == [Persisting(0, false, false)]
    ensures Reaches(Next(s, PersistFails(0)), s') && |s'.successes| == 2
  {
    s := FirstHandles();
    s := HandlerSucceeds(INITIAL, s, 0);
    ReachableIsSafe(INITIAL, s);
    s' := HarmfulPersist(s, 0);
  }
}
