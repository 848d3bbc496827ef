/** The sweep that puts stuck payments back on the provider queue under one job id each. */
module Sweep {
  import opened Tables

  const STUCK_THRESHOLD_MS := 1_800_000     // 30 minutes
  const MAX_RETRY_AGE_MS := 86_400_000      // 24 hours

  /** The states of a `retry-<id>` job; the last two stand for every finished or unknown state. */
  datatype JobState = Active | Waiting | Delayed | Done | Broken

  predicate IsLive(state: JobState) { state == Active || state == Waiting || state == Delayed }

  /** PROCESSING, never submitted, created before the cutoff. */
  predicate Stuck(x: Transaction, now: int) {
    x.status == Processing && x.reference == None && x.createdAt < now - STUCK_THRESHOLD_MS
  }

  predicate TooOld(x: Transaction, now: int) { x.createdAt < now - MAX_RETRY_AGE_MS }

  predicate Due(txns: seq<Transaction>, t: TxnId, now: int) {
    t < |txns| && Stuck(txns[t], now) && !TooOld(txns[t], now)
  }

  /** Some payments, none twice, the oldest first. */
  predicate ByAge(ids: seq<TxnId>, txns: seq<Transaction>) {
    && (forall k | 0 <= k < |ids| :: ids[k] < |txns|)
    && (forall i, j | 0 <= i < j < |ids| :: ids[i] != ids[j] && txns[ids[i]].createdAt <= txns[ids[j]].createdAt)
  }

  /** How many of the payments are no younger than `t`. */
  function Rank(ids: seq<TxnId>, t: TxnId, txns: seq<Transaction>): (p: nat)
    requires ByAge(ids, txns) && t < |txns|
    ensures p <= |ids|
    ensures forall k | 0 <= k < p :: txns[ids[k]].createdAt <= txns[t].createdAt
    ensures forall k | p <= k < |ids| :: txns[ids[k]].createdAt > txns[t].createdAt
  {
    if ids == [] || txns[ids[|ids| - 1]].createdAt <= txns[t].createdAt then |ids| else Rank(ids[..|ids| - 1], t, txns)
  }

  lemma InsertionKeepsOrder(ids: seq<TxnId>, p: nat, t: TxnId, txns: seq<Transaction>)
    requires ByAge(ids, txns) && t < |txns| && t !in ids && p <= |ids|
    requires forall k | 0 <= k < p :: txns[ids[k]].createdAt <= txns[t].createdAt
    requires forall k | p <= k < |ids| :: txns[ids[k]].createdAt > txns[t].createdAt
    ensures ByAge(ids[..p] + [t] + ids[p..], txns)
  {
    var r := ids[..p] + [t] + ids[p..];
    forall i, j | 0 <= i < j < |r|
      ensures r[i] < |txns| && r[j] < |txns| && r[i] != r[j] && txns[r[i]].createdAt <= txns[r[j]].createdAt
    {
      assert r[i] == if i < p then ids[i] else if i == p then t else ids[i - 1];
      assert r[j] == if j < p then ids[j] else if j == p then t else ids[j - 1];
    }
  }

  function InsertByAge(ids: seq<TxnId>, t: TxnId, txns: seq<Transaction>): (r: seq<TxnId>)
    requires ByAge(ids, txns) && t < |txns| && t !in ids
    ensures ByAge(r, txns)
    ensures forall u: TxnId :: u in r <==> u in ids || u == t
  {
    var p := Rank(ids, t, txns);
    InsertionKeepsOrder(ids, p, t, txns);
    assert ids == ids[..p] + ids[p..];
    ids[..p] + [t] + ids[p..]
  }

  /** The stuck payments among the first `n`. */
  function StuckAmong(txns: seq<Transaction>, n: nat, now: int): (r: seq<TxnId>)
    requires n <= |txns|
    ensures ByAge(r, txns)
    ensures forall t: TxnId :: t in r <==> t < n && Stuck(txns[t], now)
  {
    if n == 0 then [] else
      var earlier := StuckAmong(txns, n - 1, now);
      if Stuck(txns[n - 1], now) then InsertByAge(earlier, n - 1, txns) else earlier
  }

  /** The query for stuck payments: all of them, each once, the oldest first. */
  function FindStuck(txns: seq<Transaction>, now: int): (r: seq<TxnId>)
    ensures ByAge(r, txns)
    ensures forall t: TxnId :: t in r <==> t < |txns| && Stuck(txns[t], now)
  {
    StuckAmong(txns, |txns|, now)
  }

  function CountTooOld(ids: seq<TxnId>, txns: seq<Transaction>, now: int): nat {
    if ids == [] then 0 else
      var t := ids[|ids| - 1];
      CountTooOld(ids[..|ids| - 1], txns, now) + if t < |txns| && TooOld(txns[t], now) then 1 else 0
  }

  /** Payments left alone because their retry job is still live. */
  function CountLive(ids: seq<TxnId>, txns: seq<Transaction>, now: int, jobs: map<TxnId, JobState>): nat {
    if ids == [] then 0 else
      var t := ids[|ids| - 1];
      CountLive(ids[..|ids| - 1], txns, now, jobs)
      + if t < |txns| && !TooOld(txns[t], now) && HasLiveJob(jobs, t) then 1 else 0
  }

  predicate HasLiveJob(jobs: map<TxnId, JobState>, t: TxnId) { t in jobs && IsLive(jobs[t]) }

  function Job(jobs: map<TxnId, JobState>, t: TxnId): Option<JobState> {
    if t in jobs then Some(jobs[t]) else None
  }

  /** What a sweep makes of one due payment's job; `removable` says whether its finished job can be removed. */
  function Renewed(job: Option<JobState>, removable: bool): Option<JobState> {
    if job.Some? && (IsLive(job.value) || !removable) then job else Some(Waiting)
  }

  /** The queue after a sweep. */
  ghost predicate Swept(txns: seq<Transaction>, now: int, removable: set<TxnId>, before: map<TxnId, JobState>,
                        after: map<TxnId, JobState>) {
    forall t: TxnId ::
      Job(after, t) == if Due(txns, t, now) then Renewed(Job(before, t), t in removable) else Job(before, t)
  }

  class Scheduler {
    var jobs: map<TxnId, JobState>

    /** Adds the payment's job unless it is live; false if it is. */
    method Enqueue(t: TxnId, removable: set<TxnId>) returns (added: bool)
      modifies this
      ensures added <==> !HasLiveJob(old(jobs), t)
      ensures !added ==> jobs == old(jobs)
      ensures forall u: TxnId ::
        Job(jobs, u) == if u == t then Renewed(Job(old(jobs), t), t in removable) else Job(old(jobs), u)
    {
      if t in jobs {
        if IsLive(jobs[t]) {
          return false;
        }
        if t in removable {
          jobs := jobs - {t};
        }
      }
      // Adding under an id that is taken changes nothing.
      if t !in jobs {
        jobs := jobs[t := Waiting];
      }
      added := true;
    }

    method RetryStuckPayments(txns: seq<Transaction>, now: int, removable: set<TxnId>)
      returns (enqueued: nat, tooOld: nat, skippedActive: nat)
      modifies this
      ensures Swept(txns, now, removable, old(jobs), jobs)
      ensures tooOld == CountTooOld(FindStuck(txns, now), txns, now)
      ensures skippedActive == CountLive(FindStuck(txns, now), txns, now, old(jobs))
      ensures enqueued + tooOld + skippedActive == |FindStuck(txns, now)|
      ensures enqueued == 0 ==> jobs == old(jobs)
    {
      enqueued, tooOld, skippedActive := 0, 0, 0;
      var stuckPayments := FindStuck(txns, now);
      ghost var seen: seq<TxnId> := [];
      for k := 0 to |stuckPayments|
        invariant seen == stuckPayments[..k]
        invariant enqueued + tooOld + skippedActive == k
        invariant tooOld == CountTooOld(seen, txns, now) && skippedActive == CountLive(seen, txns, now, old(jobs))
        invariant enqueued == 0 ==> jobs == old(jobs)
        invariant SweptSoFar(txns, now, removable, old(jobs), jobs, seen)
      {
        var t := stuckPayments[k];
        assert t !in seen;
        ghost var before := jobs;
        CountPush(seen, t, txns, now, old(jobs));
        assert Job(jobs, t) == Job(old(jobs), t);
        if TooOld(txns[t], now) {
          tooOld := tooOld + 1;
        } else {
          var added := Enqueue(t, removable);
          if added {
            enqueued := enqueued + 1;
          } else {
            skippedActive := skippedActive + 1;
          }
        }
        SweptPush(txns, now, removable, old(jobs), before, jobs, seen, t);
        seen := seen + [t];
      }
      assert seen == stuckPayments;
    }
  }

  /** The queue once the payments in `seen` have been looked at. */
  ghost predicate SweptSoFar(txns: seq<Transaction>, now: int, removable: set<TxnId>,
                             before: map<TxnId, JobState>, after: map<TxnId, JobState>, seen: seq<TxnId>) {
    forall t: TxnId ::
      Job(after, t)
      == if t in seen && Due(txns, t, now) then Renewed(Job(before, t), t in removable) else Job(before, t)
  }

  lemma SweptPush(txns: seq<Transaction>, now: int, removable: set<TxnId>, before: map<TxnId, JobState>,
                  between: map<TxnId, JobState>, after: map<TxnId, JobState>, seen: seq<TxnId>, t: TxnId)
    requires SweptSoFar(txns, now, removable, before, between, seen) && t !in seen
    requires forall u: TxnId ::
               Job(after, u)
               == if u == t && Due(txns, t, now) then Renewed(Job(between, t), t in removable) else Job(between, u)
    ensures SweptSoFar(txns, now, removable, before, after, seen + [t])
  {}

  lemma CountPush(ids: seq<TxnId>, t: TxnId, txns: seq<Transaction>, now: int, jobs: map<TxnId, JobState>)
    ensures CountTooOld(ids + [t], txns, now)
            == CountTooOld(ids, txns, now) + if t < |txns| && TooOld(txns[t], now) then 1 else 0
    ensures CountLive(ids + [t], txns, now, jobs)
            == CountLive(ids, txns, now, jobs)
               + if t < |txns| && !TooOld(txns[t], now) && HasLiveJob(jobs, t) then 1 else 0
  {
    assert (ids + [t])[..|ids|] == ids;
  }

  /** The sweep meets the payments that are too old for it before all others. */
  lemma {:induction false} TooOldComeFirst(ids: seq<TxnId>, txns: seq<Transaction>, now: int, k: nat)
    requires ByAge(ids, txns) && k < |ids|
    ensures CountTooOld(ids, txns, now) <= |ids|
    ensures TooOld(txns[ids[k]], now) <==> k < CountTooOld(ids, txns, now)
  {
    var last := |ids| - 1;
    if last == 0 {
      assert ids[..0] == [];
    } else if k < last {
      TooOldComeFirst(ids[..last], txns, now, k);
      TooOldComeFirst(ids[..last], txns, now, last - 1);
    } else {
      TooOldComeFirst(ids[..last], txns, now, last - 1);
    }
  }

  /** After a sweep a due payment has a live job exactly when its old one was live, absent or removable;
      live jobs are untouched and no other payment gains or loses one. */
  lemma SweepCovers(txns: seq<Transaction>, now: int, removable: set<TxnId>, before: map<TxnId, JobState>,
                    after: map<TxnId, JobState>, t: TxnId)
    requires Swept(txns, now, removable, before, after)
    ensures Due(txns, t, now) ==> (HasLiveJob(after, t) <==> HasLiveJob(before, t) || t !in before || t in removable)
    ensures HasLiveJob(before, t) ==> HasLiveJob(after, t) && after[t] == before[t]
    ensures !Due(txns, t, now) ==> Job(after, t) == Job(before, t)
  {
    assert Job(after, t) == if Due(txns, t, now) then Renewed(Job(before, t), t in removable) else Job(before, t);
  }

  /** What the sweep retries is what the provider worker would submit: PROCESSING, without a reference, older than
      half an hour and not older than a day. */
  lemma DueExactly(txns: seq<Transaction>, t: TxnId, now: int)
    ensures Due(txns, t, now)
            <==> && t < |txns| && txns[t].status == Processing && txns[t].reference == None
                 && 1_800_000 < now - txns[t].createdAt <= 86_400_000
    ensures t in FindStuck(txns, now)
            <==> && t < |txns| && txns[t].status == Processing && txns[t].reference == None
                 && 1_800_000 < now - txns[t].createdAt
  {}

  /** An active, waiting or delayed job stays as it is; a due payment's finished or broken one waits again if it can be
      removed, and so does a missing one. */
  lemma SweptJob(txns: seq<Transaction>, now: int, removable: set<TxnId>, before: map<TxnId, JobState>,
                 after: map<TxnId, JobState>, t: TxnId)
    requires Swept(txns, now, removable, before, after)
    ensures t in before && before[t] in {Active, Waiting, Delayed} ==> t in after && after[t] == before[t]
    ensures Due(txns, t, now) && t in before && before[t] in {Done, Broken} ==>
              t in after && after[t] == if t in removable then Waiting else before[t]
    ensures Due(txns, t, now) && t !in before ==> t in after && after[t] == Waiting
  {
    assert Job(after, t) == if Due(txns, t, now) then Renewed(Job(before, t), t in removable) else Job(before, t);
  }

  function OlderThanADay(ids: set<TxnId>, txns: seq<Transaction>, now: int): set<TxnId> {
    set t | t in ids && t < |txns| && now - txns[t].createdAt > 86_400_000
  }

  function AtWork(ids: set<TxnId>, txns: seq<Transaction>, now: int, jobs: map<TxnId, JobState>): set<TxnId> {
    set t |
      && t in ids && t < |txns| && now - txns[t].createdAt <= 86_400_000
      && t in jobs && jobs[t] in {Active, Waiting, Delayed}
  }

  function Ids(ids: seq<TxnId>): set<TxnId> { set t | t in ids }

  lemma IdsPush(ids: seq<TxnId>, txns: seq<Transaction>)
    requires ids != [] && ByAge(ids, txns)
    ensures var last := |ids| - 1;
            Ids(ids) == Ids(ids[..last]) + {ids[last]} && ids[last] !in Ids(ids[..last])
  {
    assert ids == ids[..|ids| - 1] + [ids[|ids| - 1]];
  }

  lemma OlderPush(rest: set<TxnId>, t: TxnId, txns: seq<Transaction>, now: int)
    requires t !in rest && t < |txns|
    ensures |OlderThanADay(rest + {t}, txns, now)|
            == |OlderThanADay(rest, txns, now)| + if TooOld(txns[t], now) then 1 else 0
  {
    if TooOld(txns[t], now) {
      assert OlderThanADay(rest + {t}, txns, now) == OlderThanADay(rest, txns, now) + {t};
    } else {
      assert OlderThanADay(rest + {t}, txns, now) == OlderThanADay(rest, txns, now);
    }
  }

  lemma AtWorkPush(rest: set<TxnId>, t: TxnId, txns: seq<Transaction>, now: int, jobs: map<TxnId, JobState>)
    requires t !in rest && t < |txns|
    ensures |AtWork(rest + {t}, txns, now, jobs)|
            == |AtWork(rest, txns, now, jobs)| + if !TooOld(txns[t], now) && HasLiveJob(jobs, t) then 1 else 0
  {
    if !TooOld(txns[t], now) && HasLiveJob(jobs, t) {
      assert AtWork(rest + {t}, txns, now, jobs) == AtWork(rest, txns, now, jobs) + {t};
    } else {
      assert AtWork(rest + {t}, txns, now, jobs) == AtWork(rest, txns, now, jobs);
    }
  }

  /** The counters count payments: those too old, and of the others those whose job is at work. */
  lemma {:induction false} CountsAreCardinalities(ids: seq<TxnId>, txns: seq<Transaction>, now: int,
                                                  jobs: map<TxnId, JobState>)
    requires ByAge(ids, txns)
    ensures CountTooOld(ids, txns, now) == |OlderThanADay(Ids(ids), txns, now)|
    ensures CountLive(ids, txns, now, jobs) == |AtWork(Ids(ids), txns, now, jobs)|
  {
    if ids != [] {
      var last := |ids| - 1;
      CountsAreCardinalities(ids[..last], txns, now, jobs);
      IdsPush(ids, txns);
      OlderPush(Ids(ids[..last]), ids[last], txns, now);
      AtWorkPush(Ids(ids[..last]), ids[last], txns, now, jobs);
    }
  }

  /** Sweeping again at the same time, with the same removals failing, changes nothing. */
  lemma SweepTwice(txns: seq<Transaction>, now: int, removable: set<TxnId>,
                   before: map<TxnId, JobState>, once: map<TxnId, JobState>, twice: map<TxnId, JobState>)
    requires Swept(txns, now, removable, before, once) && Swept(txns, now, removable, once, twice)
    ensures twice == once
  {
    forall t: TxnId
      ensures Job(twice, t) == Job(once, t)
    {
      assert Job(once, t) == if Due(txns, t, now) then Renewed(Job(before, t), t in removable) else Job(before, t);
    }
    assert forall t :: t in twice <==> Job(twice, t).Some?;
    assert forall t :: t in once <==> Job(once, t).Some?;
    assert forall t | t in twice :: Job(twice, t) == Some(twice[t]);
    assert forall t | t in once :: Job(once, t) == Some(once[t]);
  }
}
