/** The interceptor as one request runs it, with the other requests' steps in between and every call that can throw. */
module Interceptor {
  import opened Tables
  import opened Idempotency
  import opened Requests

  /** A request's course: the steps taken before it came, and the state it comes to. */
  datatype Course = Course(past: seq<Action>, ending: State)

  class Gateway {
    var lock: Option<nat>
    var cache: Option<Body>
    var record: KeyRecord
    var requests: seq<Phase>
    var successes: seq<Body>
    ghost var trace: seq<Action>   // the steps taken since the key was first used

    constructor ()
      ensures Valid() && trace == [] && Contents() == INITIAL
    {
      lock, cache, record, requests, successes := None, None, Absent, [], [];
      trace := [];
    }

    function Contents(): State
      reads this
    {
      State(lock, cache, record, requests, successes)
    }

    /** The stores are what the steps taken make of them. */
    ghost predicate Valid()
      reads this
    {
      Feasible(INITIAL, trace) && Play(INITIAL, trace) == Contents()
    }

    /** The request is in a given phase, having taken the steps its fate decides on and no others. */
    ghost predicate InPhase(course: Course, me: nat, phase: Phase, fate: Fate)
      reads this
    {
      && Valid() && course.past <= trace && me < |requests| && requests[me] == phase
      && Follows(INITIAL, trace, me, fate)
    }

    /** It is about to wait. */
    ghost predicate At(course: Course, me: nat, phase: Phase, fate: Fate)
      reads this
    {
      InPhase(course, me, phase, fate) && Together(Contents(), me, fate) == course.ending
    }

    /** It has waited and is about to take its step. */
    ghost predicate Ready(course: Course, me: nat, phase: Phase, fate: Fate)
      reads this
    {
      && InPhase(course, me, phase, fate) && UnderWay(phase)
      && Enabled(Contents(), OwnStep(phase, me, fate))
      && |Next(Contents(), OwnStep(phase, me, fate)).requests| == |requests|
      && Together(Next(Contents(), OwnStep(phase, me, fate)), me, fate) == course.ending
    }

    /** The request takes its step; the statements that carry it out follow. */
    ghost method Log(course: Course, me: nat, phase: Phase, fate: Fate)
      requires Ready(course, me, phase, fate)
      modifies this`trace
      ensures course.past <= trace && Feasible(INITIAL, trace)
      ensures Play(INITIAL, trace) == Next(Contents(), OwnStep(phase, me, fate))
      ensures Follows(INITIAL, trace, me, fate)
    {
      var a := OwnStep(phase, me, fate);
      PlayOneMore(INITIAL, trace, a);
      FollowsPush(INITIAL, trace, a, me, fate);
      trace := trace + [a];
    }

    /** While this request waits at its k-th await, others run: of the steps they try, those that are possible,
        harmful ones included. */
    method Await(ghost course: Course, me: nat, ghost phase: Phase, fate: Fate, k: nat)
      requires At(course, me, phase, fate) && UnderWay(phase) && k == AwaitOf(phase)
      modifies this
      ensures Ready(course, me, phase, fate)
      ensures Contents() == Interleaved(old(Contents()), fate.others(k), me)
    {
      var others := fate.others(k);
      ghost var waited := Interleaved(Contents(), others, me);
      assert others[0..] == others;
      for i := 0 to |others|
        invariant InPhase(course, me, phase, fate)
        invariant Interleaved(Contents(), others[i..], me) == waited
      {
        var a := others[i];
        assert others[i..][1..] == others[i + 1..];
        if Enabled(Contents(), a) {
          if !MovesMe(a, me) {
            OthersStep(course, me, phase, fate, a);
          }
        }
      }
      OwnStepIsEnabled(Contents(), me, fate);
      OwnStepNears(Contents(), me, fate);
    }

    method OthersStep(ghost course: Course, me: nat, ghost phase: Phase, ghost fate: Fate, a: Action)
      requires InPhase(course, me, phase, fate) && Enabled(Contents(), a) && !MovesMe(a, me)
      modifies this
      ensures InPhase(course, me, phase, fate) && Contents() == Next(old(Contents()), a)
    {
      var s := Next(Contents(), a);
      PlayOneMore(INITIAL, trace, a);
      FollowsPush(INITIAL, trace, a, me, fate);
      StaysPut(Contents(), a, me);
      trace := trace + [a];
      lock, cache, record, requests, successes := s.lock, s.cache, s.record, s.requests, s.successes;
    }

    /** A call of Redis throws. */
    method LoseRedis(ghost course: Course, me: nat, phase: Phase, ghost fate: Fate)
      requires Ready(course, me, phase, fate) && CallsRedis(phase) && OwnStep(phase, me, fate) == RedisFails(me)
      modifies this`requests, this`trace
      ensures At(course, me, WithoutRedis(phase), fate)
    {
      Log(course, me, phase, fate);
      requests := requests[me := WithoutRedis(phase)];
    }

    /** Gives the lock back, if it is still this request's, and ends; a call that throws leaves it to its TTL. */
    method ReleaseLock(ghost course: Course, me: nat, ghost phase: Phase, answer: Answer, fate: Fate)
      requires At(course, me, phase, fate)
      requires if answer.Success? then phase == Releasing(answer.body) || phase == Unlocking(answer.body)
               else phase == Failing && answer == Failure
      modifies this
      ensures At(course, me, Finished(answer), fate)
    {
      Await(course, me, phase, fate, 7);
      if fate.fails(7) {
        LoseRedis(course, me, requests[me], fate);
        return;
      }
      Log(course, me, phase, fate);
      lock, requests := Freed(lock, me), requests[me := Finished(answer)];
    }

    // ----- After the answer -----

    /** UPDATE of the key's row, which affects nothing when there is none. */
    method WriteRecord(ghost course: Course, me: nat, body: Body, cacheDone: bool, ghost fate: Fate)
      requires Ready(course, me, Persisting(body, false, cacheDone), fate)
      requires OwnStep(Persisting(body, false, cacheDone), me, fate) == PersistRecord(me)
      modifies this`record, this`requests, this`trace
      ensures At(course, me, Settled(Persisting(body, true, cacheDone)), fate)
    {
      Log(course, me, Persisting(body, false, cacheDone), fate);
      if !record.Absent? {
        record := Filled(body);
      }
      requests := requests[me := Settled(requests[me].(recordDone := true))];
    }

    method WriteCache(ghost course: Course, me: nat, body: Body, recordDone: bool, ghost fate: Fate)
      requires Ready(course, me, Persisting(body, recordDone, false), fate)
      requires OwnStep(Persisting(body, recordDone, false), me, fate) == PersistCache(me)
      modifies this`cache, this`requests, this`trace
      ensures At(course, me, Settled(Persisting(body, recordDone, true)), fate)
    {
      Log(course, me, Persisting(body, recordDone, false), fate);
      cache := Some(body);
      requests := requests[me := Settled(requests[me].(cacheDone := true))];
    }

    /** One of the writes throws: the error is logged and what is not done yet stays undone. */
    method GiveUpPersisting(ghost course: Course, me: nat, body: Body, ghost phase: Phase, ghost fate: Fate)
      requires Ready(course, me, phase, fate) && phase.Persisting? && phase.body == body && UnderWay(phase)
      requires OwnStep(phase, me, fate) == PersistFails(me)
      modifies this`requests, this`trace
      ensures At(course, me, Releasing(body), fate)
    {
      Log(course, me, phase, fate);
      requests := requests[me := Releasing(body)];
    }

    /** The two unawaited writes, in either order. */
    method WriteBoth(ghost course: Course, me: nat, body: Body, fate: Fate)
      requires Ready(course, me, Persisting(body, false, false), fate) && !fate.fails(5)
      modifies this
      ensures At(course, me, Releasing(body), fate)
    {
      if fate.recordFirst {
        WriteRecord(course, me, body, false, fate);
      } else {
        WriteCache(course, me, body, false, fate);
      }
      Await(course, me, Persisting(body, fate.recordFirst, !fate.recordFirst), fate, 6);
      if fate.fails(6) {
        GiveUpPersisting(course, me, body, Persisting(body, fate.recordFirst, !fate.recordFirst), fate);
      } else if fate.recordFirst {
        WriteCache(course, me, body, true, fate);
      } else {
        WriteRecord(course, me, body, true, fate);
      }
    }

    /** What `tap` starts once the answer is out: both writes, then the release whatever became of them. */
    method Persist(ghost course: Course, me: nat, body: Body, fate: Fate)
      requires At(course, me, Persisting(body, false, false), fate)
      modifies this
      ensures At(course, me, Finished(Success(body)), fate)
    {
      Await(course, me, Persisting(body, false, false), fate, 5);
      if fate.fails(5) {
        GiveUpPersisting(course, me, body, Persisting(body, false, false), fate);
      } else {
        WriteBoth(course, me, body, fate);
      }
      ReleaseLock(course, me, Releasing(body), Success(body), fate);
    }

    /** The part of a request that runs the handler. */
    method RunHandler(ghost course: Course, me: nat, fate: Fate) returns (answer: Answer)
      requires At(course, me, Handling, fate)
      modifies this
      ensures At(course, me, Finished(answer), fate)
      ensures answer == if fate.outcome.Some? then Success(fate.outcome.value) else Failure
    {
      Await(course, me, Handling, fate, 4);
      Log(course, me, Handling, fate);
      match fate.outcome
      case Some(body) =>
        successes, requests := successes + [body], requests[me := Persisting(body, false, false)];
        Persist(course, me, body, fate);
        answer := Success(body);
      case None =>
        requests := requests[me := Failing];
        ReleaseLock(course, me, Failing, Failure, fate);
        answer := Failure;
    }

    // ----- With the lock -----

    /** A failed pre-check is logged and the handler runs all the same. */
    method SkipPreCheck(ghost course: Course, me: nat, ghost phase: Phase, ghost fate: Fate)
      requires Ready(course, me, phase, fate) && (phase == Checking || phase == Inserting)
      requires OwnStep(phase, me, fate) == PreCheckFails(me)
      modifies this`requests, this`trace
      ensures At(course, me, Handling, fate)
    {
      Log(course, me, phase, fate);
      requests := requests[me := Handling];
    }

    /** The answer found in the database goes back into the cache. */
    method AnswerFromRecord(ghost course: Course, me: nat, body: Body, fate: Fate)
      requires At(course, me, Refilling(body), fate)
      modifies this
      ensures At(course, me, Finished(Success(body)), fate)
    {
      Await(course, me, Refilling(body), fate, 3);
      if fate.fails(3) {
        LoseRedis(course, me, Refilling(body), fate);
      } else {
        Log(course, me, Refilling(body), fate);
        cache, requests := Some(body), requests[me := Unlocking(body)];
      }
      ReleaseLock(course, me, Unlocking(body), Success(body), fate);
    }

    /** INSERT of the key's blank row, ignored when there is one. */
    method InsertRecord(ghost course: Course, me: nat, fate: Fate)
      requires At(course, me, Inserting, fate)
      modifies this
      ensures At(course, me, Handling, fate)
    {
      Await(course, me, Inserting, fate, 3);
      if fate.fails(3) {
        SkipPreCheck(course, me, Inserting, fate);
        return;
      }
      Log(course, me, Inserting, fate);
      if record.Absent? {
        record := Blank;
      }
      requests := requests[me := Handling];
    }

    /** The look at the database record by a request that holds the lock. */
    method ReadRecord(ghost course: Course, me: nat, ghost fate: Fate) returns (found: Option<Body>)
      requires Ready(course, me, Checking, fate) && OwnStep(Checking, me, fate) == CheckRecord(me)
      modifies this`requests, this`trace
      ensures At(course, me, if found.Some? then Refilling(found.value) else Inserting, fate)
    {
      Log(course, me, Checking, fate);
      found := if record.Filled? then Some(record.body) else None;
      requests := requests[me := if found.Some? then Refilling(found.value) else Inserting];
    }

    /** The pre-check of a request that holds the lock, and what follows from it. */
    method HoldLock(ghost course: Course, me: nat, fate: Fate) returns (answer: Answer)
      requires At(course, me, Checking, fate)
      modifies this
      ensures At(course, me, Finished(answer), fate)
      ensures answer == Failure ==> fate.outcome.None?
    {
      Await(course, me, Checking, fate, 2);
      if fate.fails(2) {
        SkipPreCheck(course, me, Checking, fate);
      } else {
        var found := ReadRecord(course, me, fate);
        if found.Some? {
          AnswerFromRecord(course, me, found.value, fate);
          return Success(found.value);
        }
        InsertRecord(course, me, fate);
      }
      answer := RunHandler(course, me, fate);
    }

    // ----- Without the lock -----

    /** Where a look that found this in the cache leads. */
    function AfterLook(attempt: nat, found: Option<Body>): Phase {
      if found.Some? then Finished(Success(found.value))
      else if attempt + 1 < POLL_ATTEMPTS then Polling(attempt + 1)
      else Finished(Conflict)
    }

    /** One look at the cache while another request holds the lock. */
    method Look(ghost course: Course, me: nat, attempt: nat, ghost fate: Fate) returns (found: Option<Body>)
      requires Ready(course, me, Polling(attempt), fate) && OwnStep(Polling(attempt), me, fate) == Idempotency.Poll(me)
      modifies this`requests, this`trace
      ensures At(course, me, AfterLook(attempt, found), fate) && found == cache
    {
      Log(course, me, Polling(attempt), fate);
      found := cache;
      requests := requests[me := AfterLook(attempt, found)];
    }

    /** A pause, then a look; none if there is no answer yet. */
    method PauseAndLook(ghost course: Course, me: nat, attempt: nat, fate: Fate) returns (answer: Option<Answer>)
      requires At(course, me, Polling(attempt), fate)
      modifies this
      ensures At(course, me, if answer.Some? then Finished(answer.value) else AfterLook(attempt, None), fate)
      ensures answer == Some(Failure) <==> fate.fails(2 + attempt)
      ensures answer != Some(Conflict)
    {
      Await(course, me, Polling(attempt), fate, 2 + attempt);
      if fate.fails(2 + attempt) {
        LoseRedis(course, me, Polling(attempt), fate);
        return Some(Failure);
      }
      var found := Look(course, me, attempt, fate);
      answer := if found.Some? then Some(Success(found.value)) else None;
    }

    /** The wait for that request: at most eight looks, a conflict only after all of them found the cache empty, and
        otherwise the answer that the last look found. */
    method PollUntilCached(ghost course: Course, me: nat, fate: Fate) returns (answer: Answer, looks: nat)
      requires At(course, me, Polling(0), fate)
      modifies this
      ensures At(course, me, Finished(answer), fate)
      ensures 1 <= looks <= POLL_ATTEMPTS && (answer == Conflict ==> looks == POLL_ATTEMPTS)
      ensures answer == Failure <==> fate.fails(1 + looks)
      ensures answer == Conflict ==> Looks(INITIAL, trace, me) == [None, None, None, None, None, None, None, None]
      ensures forall body | Some(body) in Looks(INITIAL, trace, me) :: answer == Success(body)
    {
      looks := 0;
      answer := Conflict;
      while looks < POLL_ATTEMPTS && answer == Conflict
        invariant looks <= POLL_ATTEMPTS
        invariant At(course, me, if answer != Conflict then Finished(answer)
                                 else if looks < POLL_ATTEMPTS then Polling(looks) else Finished(Conflict), fate)
        invariant answer != Conflict ==> looks > 0
        invariant looks > 0 ==> (answer == Failure <==> fate.fails(1 + looks))
        invariant looks == 0 ==> answer == Conflict
      {
        var polled := PauseAndLook(course, me, looks, fate);
        looks := looks + 1;
        if polled.Some? {
          answer := polled.value;
        }
      }
      SawWhatItAnswers(me, answer);
    }

    /** What the looks of a request that has ended found. */
    lemma SawWhatItAnswers(me: nat, answer: Answer)
      requires Valid() && me < |requests| && requests[me] == Finished(answer)
      ensures answer == Conflict ==> Looks(INITIAL, trace, me) == [None, None, None, None, None, None, None, None]
      ensures forall body | Some(body) in Looks(INITIAL, trace, me) :: answer == Success(body)
    {
      if answer == Conflict {
        ConflictSawNothing(trace, me);
      }
      forall body | Some(body) in Looks(INITIAL, trace, me)
        ensures answer == Success(body)
      {
        FoundIsAnswered(trace, me, body);
      }
    }

    lemma AnswerIsReal(me: nat, answer: Answer)
      requires Valid() && me < |requests| && requests[me] == Finished(answer)
      ensures answer.Success? ==> answer.body in successes
      ensures AllHarmless(INITIAL, trace) ==> Inv(Contents()) && (answer.Success? ==> successes == [answer.body])
    {
      PlayKeepsReal(INITIAL, trace);
      assert RealAnswer(Contents(), requests[me]);
      if AllHarmless(INITIAL, trace) {
        PlayKeepsInv(INITIAL, trace);
        assert RequestOk(Contents(), me, requests[me]);
      }
    }

    method Contend(ghost course: Course, me: nat, fate: Fate) returns (answer: Answer)
      requires At(course, me, Contending, fate)
      modifies this
      ensures At(course, me, Finished(answer), fate)
      ensures answer == Failure ==> fate.outcome.None? || exists k :: fate.fails(k)
    {
      Await(course, me, Contending, fate, 1);
      if fate.fails(1) {
        LoseRedis(course, me, Contending, fate);
        return Failure;
      }
      Log(course, me, Contending, fate);
      if lock == None {
        lock, requests := Some(me), requests[me := Checking];
        answer := HoldLock(course, me, fate);
      } else {
        requests := requests[me := Polling(0)];
        var looks;
        answer, looks := PollUntilCached(course, me, fate);
      }
    }

    // ----- A whole request -----

    method Proceed(ghost course: Course, me: nat, fate: Fate) returns (answer: Answer)
      requires At(course, me, Arrived, fate)
      modifies this
      ensures At(course, me, Finished(answer), fate)
      ensures answer == Failure ==> fate.outcome.None? || exists k :: fate.fails(k)
    {
      Await(course, me, Arrived, fate, 0);
      if fate.fails(0) {
        LoseRedis(course, me, Arrived, fate);
        return Failure;
      }
      Log(course, me, Arrived, fate);
      if cache.Some? {
        answer := Success(cache.value);
        requests := requests[me := Finished(answer)];
        return;
      }
      requests := requests[me := Contending];
      answer := Contend(course, me, fate);
    }

    method Arrives(ghost fate: Fate) returns (me: nat, ghost course: Course)
      requires Valid()
      modifies this
      ensures At(course, me, Arrived, fate) && course.past == old(trace) && me == |old(requests)|
      ensures Contents() == old(Contents()).(requests := old(requests) + [Arrived])
      ensures course.ending == Together(Contents(), me, fate)
    {
      me := |requests|;
      PlayOneMore(INITIAL, trace, Arrive);
      FollowsBeforeArrival(INITIAL, trace, me, fate);
      FollowsPush(INITIAL, trace, Arrive, me, fate);
      ghost var past := trace;
      trace := trace + [Arrive];
      requests := requests + [Arrived];
      course := Course(past, Together(Contents(), me, fate));
    }

    /** One request from beginning to end. It takes the steps its fate decides on, whatever the others do meanwhile and
        whatever throws. A successful answer is that of an execution that returned, the one the cache held if any of its
        looks found one, and it fails only if its handler does or a store throws. If no step of the run was harmful,
        that execution is the only one. Left alone while nothing throws, it ends as `Ends` says. */
    method Intercept(fate: Fate) returns (answer: Answer)
      requires Valid()
      modifies this
      ensures Valid() && old(trace) <= trace
      ensures |old(requests)| < |requests| && requests[|old(requests)|] == Finished(answer)
      ensures Contents() == Together(old(Contents()).(requests := old(requests) + [Arrived]), |old(requests)|, fate)
      ensures Follows(INITIAL, trace, |old(requests)|, fate)
      ensures answer == Conflict ==>
                Looks(INITIAL, trace, |old(requests)|) == [None, None, None, None, None, None, None, None]
      ensures forall body | Some(body) in Looks(INITIAL, trace, |old(requests)|) :: answer == Success(body)
      ensures answer.Success? ==> answer.body in successes
      ensures AllHarmless(INITIAL, trace) ==> Inv(Contents()) && (answer.Success? ==> successes == [answer.body])
      ensures answer == Failure ==> fate.outcome.None? || exists k :: fate.fails(k)
      ensures Undisturbed(fate) && NothingFails(fate) ==>
                Ends(old(Contents()).(requests := old(requests) + [Arrived]), Contents(), |old(requests)|, answer,
                     fate.outcome)
    {
      var me;
      ghost var course;
      me, course := Arrives(fate);
      ghost var arrived := Contents();
      answer := Proceed(course, me, fate);
      SawWhatItAnswers(me, answer);
      AnswerIsReal(me, answer);
      if Undisturbed(fate) && NothingFails(fate) {
        UndisturbedIsAlone(arrived, me, fate);
        ghost var ended := AloneExactly(arrived, me, fate);
      }
    }
  }
}
