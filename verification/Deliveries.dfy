/** Webhook deliveries as a stream: repeats change nothing, and the order of different references does not matter. */
module Deliveries {
  import opened Tables
  import opened Operations
  import opened Invariant

  datatype Delivery = Delivery(key: EventKey, signatureValid: bool)

  function Deliver(s: Db, d: Delivery): Db {
    ProcessWebhook(s, d.key, d.signatureValid).0
  }

  function DeliverAll(s: Db, ds: seq<Delivery>): Db
    decreases |ds|
  {
    if ds == [] then s else DeliverAll(Deliver(s, ds[0]), ds[1..])
  }

  // ----- Replay -----

  /** A stream of deliveries among other operations. */
  datatype Input = Incoming(delivery: Delivery) | Other(op: Op)

  predicate Accepted(s: Db, i: Input) { i.Other? ==> Enabled(s, i.op) }

  function Handle(s: Db, i: Input): Db
    requires Accepted(s, i)
  {
    if i.Incoming? then Deliver(s, i.delivery) else Step(s, i.op)
  }

  predicate AcceptedAll(s: Db, inputs: seq<Input>)
    decreases |inputs|
  {
    inputs != [] ==> Accepted(s, inputs[0]) && AcceptedAll(Handle(s, inputs[0]), inputs[1..])
  }

  function HandleAll(s: Db, inputs: seq<Input>): Db
    requires AcceptedAll(s, inputs)
    decreases |inputs|
  {
    if inputs == [] then s else HandleAll(Handle(s, inputs[0]), inputs[1..])
  }

  /** The stream without the deliveries of a (reference, status) pair seen before: provider repeats,
      and the queue's retries of a job that threw. */
  function FirstDeliveries(inputs: seq<Input>, seen: set<EventKey>): seq<Input>
    decreases |inputs|
  {
    if inputs == [] then []
    else match inputs[0]
      case Incoming(d) =>
        if d.key in seen then FirstDeliveries(inputs[1..], seen)
        else [inputs[0]] + FirstDeliveries(inputs[1..], seen + {d.key})
      case Other(_) => [inputs[0]] + FirstDeliveries(inputs[1..], seen)
  }

  /** A step never forgets an event row, and a delivery always leaves its own. */
  lemma EventsStay(s: Db, i: Input)
    requires Accepted(s, i)
    ensures s.events.Keys <= Handle(s, i).events.Keys
    ensures i.Incoming? ==> i.delivery.key in Handle(s, i).events
  {
    match i
    case Incoming(d) => DeliverIsEffected(s, d);
    case Other(op) => StepKeepsEvents(s, op);
  }

  lemma SettleKeepsEvents(s: Db, key: EventKey)
    requires key in s.events
    ensures Settle(s, key).0.events.Keys == s.events.Keys
  {}

  lemma StepKeepsEvents(s: Db, op: Op)
    requires Enabled(s, op)
    ensures s.events.Keys <= Step(s, op).events.Keys
  {
    match op {
      case ReceiveOp(_, _) =>
      case SettleOp(key) => SettleKeepsEvents(s, key);
      case RecordErrorOp(_, _) =>
      case _ => assert Step(s, op).events == s.events;
    }
  }

  /** Dropping every repeated delivery from a run leaves the same database: accounts, transactions, ledger,
      history and event log. */
  lemma {:induction false} ReplayIsIdempotent(s: Db, inputs: seq<Input>, seen: set<EventKey>)
    requires AcceptedAll(s, inputs) && seen <= s.events.Keys
    ensures AcceptedAll(s, FirstDeliveries(inputs, seen))
    ensures HandleAll(s, FirstDeliveries(inputs, seen)) == HandleAll(s, inputs)
    decreases |inputs|
  {
    if inputs != [] {
      var i := inputs[0];
      EventsStay(s, i);
      if i.Incoming? && i.delivery.key in seen {
        assert Handle(s, i) == s;
        ReplayIsIdempotent(s, inputs[1..], seen);
      } else {
        var seen' := if i.Incoming? then seen + {i.delivery.key} else seen;
        ReplayIsIdempotent(Handle(s, i), inputs[1..], seen');
        assert FirstDeliveries(inputs, seen) == [i] + FirstDeliveries(inputs[1..], seen');
        assert ([i] + FirstDeliveries(inputs[1..], seen'))[1..] == FirstDeliveries(inputs[1..], seen');
      }
    }
  }

  // ----- Which deliveries settle -----

  /** A signed completion settles a PROCESSING payment if and only if its reference selects that payment by then and its
      (reference, status) pair is not taken yet. The pair is taken by the first delivery, whatever the verdict on its
      signature and whether or not its reference is known. */
  lemma SignedCompletionSettlesExactly(s: Db, open: map<AccountId, int>, ref: Ref, t: TxnId)
    requires Consistent(s, open) && t < |s.transactions| && s.transactions[t].status == Processing
    ensures var d := Delivery(EventKey(ref, CompletedEvent), true);
            var settles := d.key !in s.events && FindByReference(s.transactions, ref) == Some(t);
            && (Deliver(s, d).transactions[t].status == Completed <==> settles)
            && (settles ==> Deliver(s, d).ledger == s.ledger + [Payout(t, s.transactions[t])])
            && (d.key in s.events ==> Deliver(s, d) == s)
            && d.key in Deliver(s, d).events
  {
    assert Parties(s.transactions[t], s.accounts);
  }

  /** Once its pair is taken, a delivery is ignored for good, whatever comes in between. */
  lemma {:induction false} TakenIsIgnored(s: Db, inputs: seq<Input>, d: Delivery)
    requires AcceptedAll(s, inputs) && d.key in s.events
    ensures Deliver(HandleAll(s, inputs), d) == HandleAll(s, inputs)
    decreases |inputs|
  {
    if inputs != [] {
      EventsStay(s, inputs[0]);
      TakenIsIgnored(Handle(s, inputs[0]), inputs[1..], d);
    }
  }

  // ----- Order independence -----

  /** Equal up to the interleaving of different transactions' ledger entries and history rows. */
  ghost predicate Similar(s: Db, s': Db) {
    && s.limits == s'.limits && s.accounts == s'.accounts && s.transactions == s'.transactions && s.events == s'.events
    && (forall t: TxnId :: Of(s.ledger, t) == Of(s'.ledger, t))
    && (forall t: TxnId :: HistoryOf(s.history, t) == HistoryOf(s'.history, t))
    && multiset(s.ledger) == multiset(s'.ledger)
    && multiset(s.history) == multiset(s'.history)
  }

  /** The transaction a delivery goes through for, if it does. */
  function Target(s: Db, d: Delivery): Option<TxnId> {
    if d.key in s.events || !d.signatureValid then None
    else
      match FindByReference(s.transactions, d.key.reference)
      case None => None
      case Some(t) =>
        if !ValidTransition(s.transactions[t].status, d.key.kind.Target()) then None
        else if d.key.kind.CompletedEvent? && s.transactions[t].recipient !in s.accounts then None
        else Some(t)
  }

  /** What a delivery appends, read from the tables before it. */
  function Entries(s: Db, d: Delivery): seq<Entry> {
    match Target(s, d)
    case None => []
    case Some(t) =>
      match d.key.kind
      case CompletedEvent => [Payout(t, s.transactions[t])]
      case FailedEvent => Compensations(s.ledger, t)
      case ProcessingEvent => []
  }

  function Rows(s: Db, d: Delivery): seq<HistoryRow> {
    match Target(s, d)
    case None => []
    case Some(t) => [HistoryRow(t, Some(s.transactions[t].status), d.key.kind.Target())]
  }

  function Row(s: Db, d: Delivery): EventRow {
    if d.key in s.events then s.events[d.key]
    else if !d.signatureValid then EventRow(false, false, Some(BadSignature))
    else
      match FindByReference(s.transactions, d.key.reference)
      case None => EventRow(true, false, Some(UnknownReference))
      case Some(t) =>
        if !ValidTransition(s.transactions[t].status, d.key.kind.Target()) then
          EventRow(true, false, Some(InvalidTransition))
        else if d.key.kind.CompletedEvent? && s.transactions[t].recipient !in s.accounts then
          EventRow(true, false, Some(NotFound))
        else EventRow(true, true, None)
  }

  function Transactions(s: Db, d: Delivery): seq<Transaction> {
    match Target(s, d)
    case None => s.transactions
    case Some(t) =>
      if d.key.kind.ProcessingEvent? then s.transactions
      else s.transactions[t := s.transactions[t].(status := d.key.kind.Target())]
  }

  /** A delivery as one simultaneous update of the tables. */
  function Effected(s: Db, d: Delivery): Db {
    Append(s, Entries(s, d)).(transactions := Transactions(s, d),
                              history := s.history + Rows(s, d),
                              events := s.events[d.key := Row(s, d)])
  }

  lemma DeliverIsEffected(s: Db, d: Delivery)
    ensures Deliver(s, d) == Effected(s, d)
  {
    AppendNothing(s);
    assert s.history + [] == s.history;
    if d.key in s.events {
      assert s.events[d.key := s.events[d.key]] == s.events;
    } else if d.signatureValid {
      var received := s.events[d.key := EventRow(true, false, None)];
      assert received[d.key := Row(s, d)] == s.events[d.key := Row(s, d)];
    }
  }

  /** A successful lookup survives any change of statuses. */
  lemma {:induction false} FindIgnoresStatus(txns: seq<Transaction>, t: TxnId, status: Status, ref: Ref)
    requires t < |txns|
    ensures FindByReference(txns[t := txns[t].(status := status)], ref) == FindByReference(txns, ref)
  {
    var last := |txns| - 1;
    var changed := txns[t := txns[t].(status := status)];
    if t == last {
      assert changed[..last] == txns[..last];
    } else {
      assert changed[..last] == txns[..last][t := txns[t].(status := status)];
      FindIgnoresStatus(txns[..last], t, status, ref);
    }
  }

  /** All that a delivery appends belongs to the transaction it targets. */
  lemma EntriesOwned(s: Db, d: Delivery)
    ensures Entries(s, d) != [] ==> Target(s, d).Some?
    ensures forall e | e in Entries(s, d) :: Target(s, d) == Some(e.txn)
    ensures forall h | h in Rows(s, d) :: Target(s, d) == Some(h.txn)
    ensures Target(s, d).Some? ==>
              Target(s, d).value < |s.transactions| &&
                s.transactions[Target(s, d).value].reference == Some(d.key.reference)
  {
    if d.key.kind.FailedEvent? && Target(s, d).Some? {
      CompensationsOwned(s.ledger, Target(s, d).value);
    }
  }

  /** What a delivery reads is the same in both databases. */
  predicate Alike(s: Db, s': Db, d: Delivery) {
    var found := FindByReference(s.transactions, d.key.reference);
    && s.accounts.Keys == s'.accounts.Keys
    && (d.key in s.events <==> d.key in s'.events)
    && (d.key in s.events ==> s.events[d.key] == s'.events[d.key])
    && FindByReference(s'.transactions, d.key.reference) == found
    && (found.Some? ==>
          && s.transactions[found.value] == s'.transactions[found.value]
          && Of(s.ledger, found.value) == Of(s'.ledger, found.value))
  }

  lemma AlikeAnswers(s: Db, s': Db, d: Delivery)
    requires Alike(s, s', d)
    ensures Entries(s', d) == Entries(s, d) && Rows(s', d) == Rows(s, d) && Row(s', d) == Row(s, d)
    ensures Target(s', d) == Target(s, d)
  {}

  /** Deliveries for different references do not see each other's effects. */
  lemma Independent(s: Db, d: Delivery, other: Delivery)
    requires d.key.reference != other.key.reference
    ensures var s' := Effected(s, other);
            && Entries(s', d) == Entries(s, d) && Rows(s', d) == Rows(s, d) && Row(s', d) == Row(s, d)
            && Target(s', d) == Target(s, d)
  {
    var s' := Effected(s, other);
    EntriesOwned(s, other);
    var found := FindByReference(s.transactions, d.key.reference);
    match Target(s, other) {
      case None =>
        AppendNothing(s);
      case Some(u) =>
        FindIgnoresStatus(s.transactions, u, other.key.kind.Target(), d.key.reference);
        if found.Some? {
          EntriesSelect(s.ledger, Entries(s, other), u, found.value);
        }
    }
    assert Alike(s, s', d);
    AlikeAnswers(s, s', d);
  }

  lemma PostCommutes(accounts: map<AccountId, Account>, xs: seq<Entry>, ys: seq<Entry>)
    ensures Post(Post(accounts, xs), ys) == Post(Post(accounts, ys), xs)
  {}

  /** Two deliveries for different references, both read from the tables before either. */
  lemma EffectedTwice(s: Db, d: Delivery, e: Delivery)
    requires d.key.reference != e.key.reference
    ensures var s' := Effected(Effected(s, d), e);
            && s'.limits == s.limits
            && s'.accounts == Post(Post(s.accounts, Entries(s, d)), Entries(s, e))
            && s'.transactions == Transactions(Effected(s, d), e)
            && s'.ledger == s.ledger + Entries(s, d) + Entries(s, e)
            && s'.history == s.history + Rows(s, d) + Rows(s, e)
            && s'.events == s.events[d.key := Row(s, d)][e.key := Row(s, e)]
  {
    Independent(s, e, d);
  }

  /** Two deliveries for different references can be swapped. */
  lemma Swap(s: Db, d: Delivery, e: Delivery)
    requires d.key.reference != e.key.reference
    ensures Similar(Deliver(Deliver(s, d), e), Deliver(Deliver(s, e), d))
  {
    DeliverIsEffected(s, d);
    DeliverIsEffected(s, e);
    DeliverIsEffected(Effected(s, d), e);
    DeliverIsEffected(Effected(s, e), d);
    SwapEffected(s, d, e);
  }

  lemma SwapEffected(s: Db, d: Delivery, e: Delivery)
    requires d.key.reference != e.key.reference
    ensures Similar(Effected(Effected(s, d), e), Effected(Effected(s, e), d))
  {
    var p, q := Effected(Effected(s, d), e), Effected(Effected(s, e), d);
    assert p.limits == q.limits && p.accounts == q.accounts && p.transactions == q.transactions &&
           p.events == q.events by {
      SwapTables(s, d, e);
    }
    EffectedTwice(s, d, e);
    EffectedTwice(s, e, d);
    SwapSelections(s, d, e);
    SimilarByParts(s, p, q, Entries(s, d), Entries(s, e), Rows(s, d), Rows(s, e));
  }

  lemma SwapTables(s: Db, d: Delivery, e: Delivery)
    requires d.key.reference != e.key.reference
    ensures var p, q := Effected(Effected(s, d), e), Effected(Effected(s, e), d);
            p.accounts == q.accounts && p.transactions == q.transactions && p.events == q.events
  {
    EffectedTwice(s, d, e);
    EffectedTwice(s, e, d);
    PostCommutes(s.accounts, Entries(s, d), Entries(s, e));
    SwapTransactions(s, d, e);
    assert s.events[d.key := Row(s, d)][e.key := Row(s, e)] == s.events[e.key := Row(s, e)][d.key := Row(s, d)];
  }

  lemma SimilarByParts(s: Db, p: Db, q: Db, xs: seq<Entry>, ys: seq<Entry>, hs: seq<HistoryRow>, gs: seq<HistoryRow>)
    requires p.limits == q.limits && p.accounts == q.accounts && p.transactions == q.transactions &&
             p.events == q.events
    requires p.ledger == s.ledger + xs + ys && q.ledger == s.ledger + ys + xs
    requires p.history == s.history + hs + gs && q.history == s.history + gs + hs
    requires forall k: TxnId :: Of(p.ledger, k) == Of(q.ledger, k)
    requires forall k: TxnId :: HistoryOf(p.history, k) == HistoryOf(q.history, k)
    ensures Similar(p, q)
  {}

  lemma SwapSelections(s: Db, d: Delivery, e: Delivery)
    requires d.key.reference != e.key.reference
    ensures forall k: TxnId ::
              Of(s.ledger + Entries(s, d) + Entries(s, e), k) == Of(s.ledger + Entries(s, e) + Entries(s, d), k)
    ensures forall k: TxnId ::
              HistoryOf(s.history + Rows(s, d) + Rows(s, e), k) == HistoryOf(s.history + Rows(s, e) + Rows(s, d), k)
  {
    EntriesOwned(s, d);
    EntriesOwned(s, e);
    forall k: TxnId
      ensures Of(s.ledger + Entries(s, d) + Entries(s, e), k) == Of(s.ledger + Entries(s, e) + Entries(s, d), k)
      ensures HistoryOf(s.history + Rows(s, d) + Rows(s, e), k) == HistoryOf(s.history + Rows(s, e) + Rows(s, d), k)
    {
      SwapEntries(s.ledger, Entries(s, d), Entries(s, e), Target(s, d), Target(s, e), k);
      SwapRows(s.history, Rows(s, d), Rows(s, e), Target(s, d), Target(s, e), k);
    }
  }

  lemma SwapEntries(ledger: seq<Entry>, xs: seq<Entry>, ys: seq<Entry>, t: Option<TxnId>, u: Option<TxnId>, k: TxnId)
    requires t != u || t == None
    requires forall x | x in xs :: t == Some(x.txn)
    requires forall y | y in ys :: u == Some(y.txn)
    ensures Of(ledger + xs + ys, k) == Of(ledger + ys + xs, k)
  {
    OfAppend(ledger + xs, ys, k);
    OfAppend(ledger, xs, k);
    OfAppend(ledger + ys, xs, k);
    OfAppend(ledger, ys, k);
    if t != Some(k) { OfNone(xs, k); } else { OfNone(ys, k); }
  }

  lemma SwapRows(history: seq<HistoryRow>, xs: seq<HistoryRow>, ys: seq<HistoryRow>, t: Option<TxnId>,
                 u: Option<TxnId>, k: TxnId)
    requires t != u || t == None
    requires forall x | x in xs :: t == Some(x.txn)
    requires forall y | y in ys :: u == Some(y.txn)
    ensures HistoryOf(history + xs + ys, k) == HistoryOf(history + ys + xs, k)
  {
    HistoryOfAppend(history + xs, ys, k);
    HistoryOfAppend(history, xs, k);
    HistoryOfAppend(history + ys, xs, k);
    HistoryOfAppend(history, ys, k);
    if t != Some(k) { HistoryOfNone(xs, k); } else { HistoryOfNone(ys, k); }
  }

  lemma SwapTransactions(s: Db, d: Delivery, e: Delivery)
    requires d.key.reference != e.key.reference
    ensures Transactions(Effected(s, d), e) == Transactions(Effected(s, e), d)
  {
    Independent(s, d, e);
    Independent(s, e, d);
    EntriesOwned(s, d);
    EntriesOwned(s, e);
  }

  /** Similar databases answer a delivery in the same way. */
  lemma DeliverSimilar(s: Db, s': Db, d: Delivery)
    requires Similar(s, s')
    ensures Similar(Deliver(s, d), Deliver(s', d))
  {
    DeliverIsEffected(s, d);
    DeliverIsEffected(s', d);
    AlikeAnswers(s, s', d);
    forall t: TxnId
      ensures Of(s.ledger + Entries(s, d), t) == Of(s'.ledger + Entries(s, d), t)
      ensures HistoryOf(s.history + Rows(s, d), t) == HistoryOf(s'.history + Rows(s, d), t)
    {
      OfAppend(s.ledger, Entries(s, d), t);
      OfAppend(s'.ledger, Entries(s, d), t);
      HistoryOfAppend(s.history, Rows(s, d), t);
      HistoryOfAppend(s'.history, Rows(s, d), t);
    }
  }

  lemma {:induction false} DeliverAllSimilar(s: Db, s': Db, ds: seq<Delivery>)
    requires Similar(s, s')
    ensures Similar(DeliverAll(s, ds), DeliverAll(s', ds))
    decreases |ds|
  {
    if ds != [] {
      DeliverSimilar(s, s', ds[0]);
      DeliverAllSimilar(Deliver(s, ds[0]), Deliver(s', ds[0]), ds[1..]);
    }
  }

  lemma SimilarTransitive(x: Db, y: Db, z: Db)
    requires Similar(x, y) && Similar(y, z)
    ensures Similar(x, z)
  {}

  /** Bringing a delivery to the front past deliveries for other references. */
  lemma {:induction false} BringForward(s: Db, before: seq<Delivery>, d: Delivery, after: seq<Delivery>)
    requires forall e | e in before :: e.key.reference != d.key.reference
    ensures Similar(DeliverAll(s, before + [d] + after), DeliverAll(Deliver(s, d), before + after))
    decreases |before|
  {
    if before == [] {
      assert before + [d] + after == [d] + after;
      assert before + after == after;
    } else {
      var e, rest := before[0], before[1..];
      assert (before + [d] + after)[1..] == rest + [d] + after;
      assert (before + after)[1..] == rest + after;
      BringForward(Deliver(s, e), rest, d, after);
      Swap(s, e, d);
      DeliverAllSimilar(Deliver(Deliver(s, e), d), Deliver(Deliver(s, d), e), rest + after);
      SimilarTransitive(DeliverAll(s, before + [d] + after),
                        DeliverAll(Deliver(Deliver(s, e), d), rest + after),
                        DeliverAll(Deliver(s, d), before + after));
    }
  }

  predicate DistinctReferences(ds: seq<Delivery>) {
    forall i, j | 0 <= i < j < |ds| :: ds[i].key.reference != ds[j].key.reference
  }

  lemma RemoveOne(ds: seq<Delivery>, before: seq<Delivery>, d: Delivery, after: seq<Delivery>)
    requires ds != [] && ds[0] == d && multiset(ds) == multiset(before + [d] + after)
    ensures multiset(ds[1..]) == multiset(before + after)
  {
    assert ds == [d] + ds[1..];
    assert multiset(ds) == multiset{d} + multiset(ds[1..]);
    assert multiset(before + [d] + after) == multiset(before) + multiset{d} + multiset(after);
    assert multiset(before + after) == multiset(before) + multiset(after);
    assert multiset{d} + multiset(ds[1..]) == multiset{d} + multiset(before + after);
    forall e: Delivery
      ensures multiset(ds[1..])[e] == multiset(before + after)[e]
    {
      assert (multiset{d} + multiset(ds[1..]))[e] == (multiset{d} + multiset(before + after))[e];
    }
  }

  lemma StillThere(rest: seq<Delivery>, before: seq<Delivery>, after: seq<Delivery>, e: Delivery)
    requires multiset(rest) == multiset(before + after) && e in before
    ensures e in rest
  {
    assert e in multiset(before + after);
    assert e in multiset(rest);
  }

  /** Deliveries for pairwise distinct references can come in any order: the final accounts, transactions and
      event log are the same, and so are every transaction's ledger and history and, as multisets, the whole ones. */
  lemma {:induction false} OrderDoesNotMatter(s: Db, ds: seq<Delivery>, es: seq<Delivery>)
    requires DistinctReferences(ds) && multiset(ds) == multiset(es)
    ensures Similar(DeliverAll(s, ds), DeliverAll(s, es))
    decreases |ds|
  {
    if ds == [] {
      assert |multiset(es)| == 0;
    } else {
      var d := ds[0];
      assert d in multiset(ds);
      assert d in es;
      var k :| 0 <= k < |es| && es[k] == d;
      var before, after := es[..k], es[k + 1..];
      assert es == before + [d] + after;
      RemoveOne(ds, before, d, after);
      forall e | e in before
        ensures e.key.reference != d.key.reference
      {
        StillThere(ds[1..], before, after, e);
        var j :| 0 <= j < |ds[1..]| && ds[1..][j] == e;
        assert ds[j + 1] == e;
      }
      OrderDoesNotMatter(Deliver(s, d), ds[1..], before + after);
      BringForward(s, before, d, after);
      SimilarTransitive(DeliverAll(s, ds), DeliverAll(Deliver(s, d), before + after), DeliverAll(s, es));
    }
  }
}
