/** Which payments can still be completed, over all runs, and which have missed their completion. */
module Completions {
  import opened Tables
  import opened Operations
  import opened Invariant
  import opened Runs
  import Deliveries

  /** Whether the payment carries a reference and is the one it selects. */
  predicate Selected(s: Db, t: TxnId) {
    && t < |s.transactions| && s.transactions[t].reference.Some?
    && FindByReference(s.transactions, s.transactions[t].reference.value) == Some(t)
  }

  predicate IsCompleted(s: Db, t: TxnId) {
    t < |s.transactions| && s.transactions[t].status == Completed
  }

  /** Whether some in-domain run completes the payment. */
  ghost predicate Completable(s: Db, t: TxnId) {
    exists ops :: EnabledRun(s, ops) && InDomainRun(s, ops) && IsCompleted(Run(s, ops), t)
  }

  // ----- A run that completes it -----

  lemma CompletableNow(s: Db, t: TxnId)
    requires IsCompleted(s, t)
    ensures Completable(s, t)
  {
    assert EnabledRun(s, []) && InDomainRun(s, []) && IsCompleted(Run(s, []), t);
  }

  lemma CompletableBefore(s: Db, op: Op, t: TxnId)
    requires Enabled(s, op) && !OffDomain(s, op) && Completable(Step(s, op), t)
    ensures Completable(s, t)
  {
    var ops :| EnabledRun(Step(s, op), ops) && InDomainRun(Step(s, op), ops) && IsCompleted(Run(Step(s, op), ops), t);
    assert ([op] + ops)[1..] == ops;
    assert EnabledRun(s, [op] + ops) && InDomainRun(s, [op] + ops) && IsCompleted(Run(s, [op] + ops), t);
  }

  lemma PendingCompletes(s: Db, t: TxnId)
    requires Selected(s, t) && s.transactions[t].status == Processing && Parties(s.transactions[t], s.accounts)
    requires var op := SettleOp(EventKey(s.transactions[t].reference.value, CompletedEvent)); Enabled(s, op)
    ensures Completable(s, t)
  {
    var op := SettleOp(EventKey(s.transactions[t].reference.value, CompletedEvent));
    CompletableNow(Step(s, op), t);
    CompletableBefore(s, op, t);
  }

  lemma SelectedCompletes(s: Db, t: TxnId)
    requires Selected(s, t) && s.transactions[t].status == Processing && Parties(s.transactions[t], s.accounts)
    requires !Spent(s, t)
    ensures Completable(s, t)
  {
    var key := EventKey(s.transactions[t].reference.value, CompletedEvent);
    if key in s.events {
      PendingCompletes(s, t);
    } else {
      PendingCompletes(Step(s, ReceiveOp(key, true)), t);
      CompletableBefore(s, ReceiveOp(key, true), t);
    }
  }

  lemma {:induction false} EventReferencesBound(keys: set<EventKey>) returns (bound: nat)
    ensures forall key | key in keys :: key.reference < bound
  {
    if keys == {} {
      bound := 0;
    } else {
      var key :| key in keys;
      bound := EventReferencesBound(keys - {key});
      bound := if key.reference < bound then bound else key.reference + 1;
    }
  }

  lemma {:induction false} RowReferencesBound(txns: seq<Transaction>) returns (bound: nat)
    ensures forall k | 0 <= k < |txns| :: txns[k].reference.Some? ==> txns[k].reference.value < bound
  {
    if txns == [] {
      bound := 0;
    } else {
      var x := txns[|txns| - 1];
      bound := RowReferencesBound(txns[..|txns| - 1]);
      bound := if x.reference.None? || x.reference.value < bound then bound else x.reference.value + 1;
    }
  }

  /** The provider has always another reference to give. */
  lemma NewReference(s: Db) returns (ref: Ref)
    ensures FindByReference(s.transactions, ref) == None
    ensures forall key | key in s.events :: key.reference != ref
  {
    var rows := RowReferencesBound(s.transactions);
    var events := EventReferencesBound(s.events.Keys);
    ref := rows + events;
  }

  lemma UnsubmittedCompletes(s: Db, t: TxnId)
    requires t < |s.transactions| && s.transactions[t].reference == None
    requires s.transactions[t].status == Processing && Parties(s.transactions[t], s.accounts)
    ensures Completable(s, t)
  {
    var ref := NewReference(s);
    var s' := Step(s, AssignReferenceOp(t, ref));
    assert s'.transactions[t].reference == Some(ref);
    assert forall k | 0 <= k < |s.transactions| && k != t :: s'.transactions[k] == s.transactions[k];
    SelectedCompletes(s', t);
    CompletableBefore(s, AssignReferenceOp(t, ref), t);
  }

  // ----- Why nothing else completes it -----

  /** A payment whose reference selects an earlier one is never credited. */
  lemma {:induction false} ShadowedIsNotCredited(s: Db, ops: seq<Op>, t: TxnId)
    requires EnabledRun(s, ops) && t < |s.transactions| && s.transactions[t].reference.Some? && !Selected(s, t)
    ensures CreditCount(s, ops, t) == 0
    decreases |ops|
  {
    if ops != [] {
      var earlier := FindByReference(s.transactions, s.transactions[t].reference.value).value;
      StepKeepsReference(s, ops[0], t);
      StepKeepsReference(s, ops[0], earlier);
      ShadowedIsNotCredited(Step(s, ops[0]), ops[1..], t);
    }
  }

  /** An in-domain run that completes a PROCESSING payment credits its recipient. */
  lemma CompletingCredits(s: Db, open: map<AccountId, int>, ops: seq<Op>, t: TxnId)
    requires Consistent(s, open) && t < |s.transactions| && s.transactions[t].status == Processing
    requires EnabledRun(s, ops) && InDomainRun(s, ops) && IsCompleted(Run(s, ops), t)
    ensures CreditCount(s, ops, t) == 1
  {
    RunKeeps(s, open, ops);
    RunPays(s, open, ops, t);
    assert LedgerShape(t, s.transactions[t], Of(s.ledger, t));
    assert LedgerShape(t, Run(s, ops).transactions[t], Of(Run(s, ops).ledger, t));
  }

  /** Some in-domain run completes a PROCESSING payment if and only if it has no reference yet, or is the one its
      reference selects and the completion event of that reference is not worked off. */
  lemma CompletableExactly(s: Db, open: map<AccountId, int>, t: TxnId)
    requires Consistent(s, open) && t < |s.transactions| && s.transactions[t].status == Processing
    ensures Completable(s, t) <==> s.transactions[t].reference == None || (Selected(s, t) && !Spent(s, t))
  {
    assert Parties(s.transactions[t], s.accounts);
    if s.transactions[t].reference == None {
      UnsubmittedCompletes(s, t);
    } else if Selected(s, t) && !Spent(s, t) {
      SelectedCompletes(s, t);
    } else if Completable(s, t) {
      var ops :| EnabledRun(s, ops) && InDomainRun(s, ops) && IsCompleted(Run(s, ops), t);
      CompletingCredits(s, open, ops, t);
      if Spent(s, t) {
        CreditedAtMostOnce(s, ops, t);
      } else {
        ShadowedIsNotCredited(s, ops, t);
      }
    }
  }

  // ----- A completion that comes before its reference -----

  lemma {:induction false} RunKeepsWorkedOff(s: Db, ops: seq<Op>, key: EventKey)
    requires EnabledRun(s, ops) && key in s.events && !s.events[key].Pending()
    ensures key in Run(s, ops).events && !Run(s, ops).events[key].Pending()
    decreases |ops|
  {
    if ops != [] {
      StepKeepsWorkedOff(s, ops[0], key);
      RunKeepsWorkedOff(Step(s, ops[0]), ops[1..], key);
    }
  }

  lemma DeliveredIsWorkedOff(s: Db, d: Deliveries.Delivery)
    requires d.key in s.events ==> !s.events[d.key].Pending()
    ensures d.key in Deliveries.Deliver(s, d).events && !Deliveries.Deliver(s, d).events[d.key].Pending()
  {}

  /** A completion delivered before the provider worker writes its reference is lost: after the write nothing credits
      the recipient, whatever comes in between and afterwards. */
  lemma EarlyCompletionIsLost(s: Db, d: Deliveries.Delivery, before: seq<Op>, t: TxnId, after: seq<Op>)
    requires d.key.kind == CompletedEvent && (d.key in s.events ==> !s.events[d.key].Pending())
    requires EnabledRun(Deliveries.Deliver(s, d), before)
    requires t < |Run(Deliveries.Deliver(s, d), before).transactions|
    requires EnabledRun(AssignReference(Run(Deliveries.Deliver(s, d), before), t, d.key.reference).0, after)
    ensures var s' := AssignReference(Run(Deliveries.Deliver(s, d), before), t, d.key.reference).0;
            Spent(s', t) && CreditCount(s', after, t) == 0
  {
    DeliveredIsWorkedOff(s, d);
    RunKeepsWorkedOff(Deliveries.Deliver(s, d), before, d.key);
    CreditedAtMostOnce(AssignReference(Run(Deliveries.Deliver(s, d), before), t, d.key.reference).0, after, t);
  }
}
