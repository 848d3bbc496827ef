/** Refunds, dispute reversals, webhooks and dead-letter handlers running at the same time, one statement at a step.
    Each takes the row lock of its transaction, reads, writes row versions that nobody else sees, taking account row
    locks on the way, and commits or rolls back. Every committed database is that of a serial run. */
module Workers {
  import opened Tables
  import opened Operations
  import Invariant
  import Runs
  import Deliveries
  import opened LateWrites

  datatype Task =
    | RefundTask(txn: TxnId)
    | ReverseTask(txn: TxnId)
    | DeadLetterTask(txn: TxnId)
    | WebhookTask(key: EventKey)

  /** The serial operation a task amounts to. */
  function OpOf(task: Task): Op {
    match task
    case RefundTask(t) => RefundOp(t)
    case ReverseTask(t) => ResolveOp(t, Reverse)
    case DeadLetterTask(t) => DeadLetterOp(t)
    case WebhookTask(key) => SettleOp(key)
  }

  function Wanted(task: Task): Status {
    match task
    case RefundTask(_) => Reversed
    case ReverseTask(_) => Reversed
    case DeadLetterTask(_) => Failed
    case WebhookTask(key) => key.kind.Target()
  }

  /** The status check repeated under the row lock. */
  predicate MayProceed(task: Task, status: Status) {
    if task.DeadLetterTask? then status == Processing else ValidTransition(status, Wanted(task))
  }

  /** The row a task locks. */
  function Locks(db: Db, task: Task): Option<TxnId> {
    match task
    case WebhookTask(key) => FindByReference(db.transactions, key.reference)
    case RefundTask(t) => if t < |db.transactions| then Some(t) else None
    case ReverseTask(t) => if t < |db.transactions| then Some(t) else None
    case DeadLetterTask(t) => if t < |db.transactions| then Some(t) else None
  }

  // ----- Statements -----

  datatype Write =
    | Adjust(account: AccountId, amount: int, guarded: bool)
    | Insert(entry: Entry)
    | Update(status: Status)
    | Record(row: HistoryRow)
    | Finish

  /** A debit updates the balance before it inserts its entry; credits do so after. */
  function EntryWrites(e: Entry): seq<Write> {
    if e.entryType == Debit then [Adjust(e.account, e.amount, true), Insert(e)]
    else [Insert(e), Adjust(e.account, e.amount, false)]
  }

  function AllWrites(es: seq<Entry>): seq<Write> {
    if es == [] then [] else AllWrites(es[..|es| - 1]) + EntryWrites(es[|es| - 1])
  }

  /** The ledger entries a task decides on, from the locked row, that transaction's entries and the reversal count. */
  function PlannedEntries(task: Task, t: TxnId, row: Transaction, entries: seq<Entry>, reversed: bool): seq<Entry> {
    match task
    case WebhookTask(key) =>
      (match key.kind
       case CompletedEvent => [Payout(t, row)]
       case FailedEvent => Reversals(OriginalDebits(entries))
       case ProcessingEvent => [])
    case DeadLetterTask(_) => if reversed then [] else Reversals(OriginalDebits(entries))
    case ReverseTask(_) => if reversed then [] else Chargeback(t, row)
    case RefundTask(_) =>
      if reversed then []
      else if row.status == Completed then Chargeback(t, row)
      else Reversals(OriginalDebits(entries))
  }

  function Closing(task: Task, t: TxnId, from: Status): seq<Write> {
    match task
    case WebhookTask(key) =>
      (if key.kind.ProcessingEvent? then [] else [Update(Wanted(task))])
      + [Record(HistoryRow(t, Some(from), Wanted(task))), Finish]
    case _ => [Update(Wanted(task)), Record(HistoryRow(t, Some(from), Wanted(task)))]
  }

  /** The statements still to run once everything has been read. */
  function Plan(task: Task, t: TxnId, row: Transaction, entries: seq<Entry>, reversed: bool): seq<Write> {
    AllWrites(PlannedEntries(task, t, row, entries, reversed)) + Closing(task, t, row.status)
  }

  // ----- Uncommitted row versions -----

  /** What a database transaction has written and not committed: whole row versions and inserted rows. */
  datatype Draft = Draft(balances: map<AccountId, Account>, row: Option<Transaction>,
                         entries: seq<Entry>, history: seq<HistoryRow>, finished: bool)

  const BLANK := Draft(map[], None, [], [], false)

  /** An account as the transaction sees it: its own version, or else the committed one. */
  function Seen(db: Db, d: Draft, a: AccountId): Account
    requires a in db.accounts
  {
    if a in d.balances then d.balances[a] else db.accounts[a]
  }

  /** Whether a statement goes through: a debit is conditional on the balance. The accounts exist, by the foreign keys
      of `transactions` and `ledger_entries`. */
  predicate Succeeds(db: Db, d: Draft, w: Write) {
    match w
    case Adjust(a, amount, guarded) => a in db.accounts && (guarded ==> Seen(db, d, a).balance + amount >= 0)
    case _ => true
  }

  function Perform(db: Db, t: TxnId, d: Draft, w: Write): Draft
    requires t < |db.transactions| && Succeeds(db, d, w)
  {
    match w
    case Adjust(a, amount, _) =>
      var row := Seen(db, d, a);
      d.(balances := d.balances[a := row.(balance := row.balance + amount)])
    case Insert(e) => d.(entries := d.entries + [e])
    case Update(status) => d.(row := Some((if d.row.Some? then d.row.value else db.transactions[t]).(status := status)))
    case Record(h) => d.(history := d.history + [h])
    case Finish => d.(finished := true)
  }

  predicate AllSucceed(db: Db, t: TxnId, ws: seq<Write>)
    requires t < |db.transactions|
    decreases |ws|, 0
  {
    ws != [] ==>
      && AllSucceed(db, t, ws[..|ws| - 1])
      && Succeeds(db, PerformAll(db, t, ws[..|ws| - 1]), ws[|ws| - 1])
  }

  function PerformAll(db: Db, t: TxnId, ws: seq<Write>): Draft
    requires t < |db.transactions| && AllSucceed(db, t, ws)
    decreases |ws|, 1
  {
    if ws == [] then BLANK else Perform(db, t, PerformAll(db, t, ws[..|ws| - 1]), ws[|ws| - 1])
  }

  /** Commit: the row versions replace the committed rows, whole. */
  function Install(db: Db, t: TxnId, task: Task, d: Draft): Db
    requires t < |db.transactions|
  {
    db.(accounts := db.accounts + d.balances,
        transactions := if d.row.Some? then db.transactions[t := d.row.value] else db.transactions,
        ledger := db.ledger + d.entries,
        history := db.history + d.history,
        events := if d.finished && task.WebhookTask? && task.key in db.events
                  then db.events[task.key := db.events[task.key].(processed := true)] else db.events)
  }

  // ----- Statements add up to the serial operation -----

  lemma PerformPush(db: Db, t: TxnId, ws: seq<Write>, w: Write)
    requires t < |db.transactions| && AllSucceed(db, t, ws)
    ensures AllSucceed(db, t, ws + [w]) <==> Succeeds(db, PerformAll(db, t, ws), w)
    ensures Succeeds(db, PerformAll(db, t, ws), w) ==>
              PerformAll(db, t, ws + [w]) == Perform(db, t, PerformAll(db, t, ws), w)
  {
    assert (ws + [w])[..|ws + [w]| - 1] == ws;
  }

  /** A prefix of statements that went through went through. */
  lemma {:induction false} PrefixSucceeds(db: Db, t: TxnId, ws: seq<Write>, k: nat)
    requires t < |db.transactions| && AllSucceed(db, t, ws) && k <= |ws|
    ensures AllSucceed(db, t, ws[..k])
  {
    if k < |ws| {
      PrefixSucceeds(db, t, ws[..|ws| - 1], k);
      assert ws[..|ws| - 1][..k] == ws[..k];
    } else {
      assert ws[..k] == ws;
    }
  }

  /** The draft that holds exactly some entries and their effect on the balances. */
  predicate DraftsEntries(db: Db, d: Draft, es: seq<Entry>) {
    && d.entries == es && d.row == None && d.history == [] && !d.finished
    && d.balances.Keys <= db.accounts.Keys
    && db.accounts + d.balances == Post(db.accounts, es)
  }

  lemma {:induction false} EntriesDraft(db: Db, t: TxnId, es: seq<Entry>)
    requires t < |db.transactions| && AllSucceed(db, t, AllWrites(es))
    ensures DraftsEntries(db, PerformAll(db, t, AllWrites(es)), es)
  {
    if es == [] {
      PostNothing(db.accounts);
    } else {
      var last := |es| - 1;
      var before, ws := AllWrites(es[..last]), EntryWrites(es[last]);
      assert AllWrites(es) == before + ws;
      PrefixSucceeds(db, t, AllWrites(es), |before|);
      assert AllWrites(es)[..|before|] == before;
      EntriesDraft(db, t, es[..last]);
      EntryWritesDraft(db, t, before, es, es[last]);
    }
  }

  lemma EntryWritesDraft(db: Db, t: TxnId, before: seq<Write>, es: seq<Entry>, e: Entry)
    requires t < |db.transactions| && es != [] && es[|es| - 1] == e
    requires AllSucceed(db, t, before) && AllSucceed(db, t, before + EntryWrites(e))
    requires DraftsEntries(db, PerformAll(db, t, before), es[..|es| - 1])
    ensures DraftsEntries(db, PerformAll(db, t, before + EntryWrites(e)), es)
  {
    var ws := EntryWrites(e);
    assert ws == [ws[0], ws[1]];
    SucceededTwo(db, t, before, ws[0], ws[1]);
    PerformTwo(db, t, before, ws[0], ws[1]);
    EntryDraft(db, PerformAll(db, t, before), PerformAll(db, t, before + ws), es, e);
  }

  lemma EntryDraft(db: Db, d: Draft, d': Draft, es: seq<Entry>, e: Entry)
    requires es != [] && es[|es| - 1] == e && e.account in db.accounts
    requires DraftsEntries(db, d, es[..|es| - 1])
    requires var seen := Seen(db, d, e.account);
             d' == d.(entries := d.entries + [e],
                      balances := d.balances[e.account := seen.(balance := seen.balance + e.amount)])
    ensures DraftsEntries(db, d', es)
  {
    var before := es[..|es| - 1];
    assert es == before + [e];
    assert Seen(db, d, e.account) == (db.accounts + d.balances)[e.account];
    forall a | a in db.accounts
      ensures (db.accounts + d'.balances)[a] == Post(db.accounts, es)[a]
    {
      assert (db.accounts + d.balances)[a] == Post(db.accounts, before)[a];
    }
  }

  /** A task's effect as one update of the committed tables. */
  function Outcome(db: Db, task: Task, t: TxnId, es: seq<Entry>): Db
    requires t < |db.transactions| && (task.WebhookTask? ==> task.key in db.events)
  {
    var from := db.transactions[t].status;
    match task
    case WebhookTask(key) =>
      if key.kind.ProcessingEvent? then
        MarkProcessed(Append(db, es).(history := db.history + [HistoryRow(t, Some(from), Processing)]), key)
      else MarkProcessed(Move(db, t, es, from, Wanted(task)), key)
    case _ => Move(db, t, es, from, Wanted(task))
  }

  lemma ClosingDraft(db: Db, t: TxnId, task: Task, before: seq<Write>)
    requires t < |db.transactions| && (task.WebhookTask? ==> task.key in db.events)
    requires AllSucceed(db, t, before) && AllSucceed(db, t, before + Closing(task, t, db.transactions[t].status))
    requires PerformAll(db, t, before).row == None && PerformAll(db, t, before).history == [] &&
             !PerformAll(db, t, before).finished
    ensures var d := PerformAll(db, t, before);
            var d' := PerformAll(db, t, before + Closing(task, t, db.transactions[t].status));
            var from := db.transactions[t].status;
            d' == d.(row := if task.WebhookTask? && task.key.kind.ProcessingEvent? then None
                            else Some(db.transactions[t].(status := Wanted(task))),
                     history := [HistoryRow(t, Some(from), Wanted(task))],
                     finished := task.WebhookTask?)
  {
    var ws := Closing(task, t, db.transactions[t].status);
    PerformTwo(db, t, before, ws[0], ws[1]);
    if |ws| == 3 {
      PerformPush(db, t, before + [ws[0], ws[1]], ws[2]);
      assert before + ws == before + [ws[0], ws[1]] + [ws[2]];
    } else {
      assert ws == [ws[0], ws[1]];
    }
  }

  /** Two statements after others. */
  lemma PerformTwo(db: Db, t: TxnId, ws: seq<Write>, v: Write, w: Write)
    requires t < |db.transactions| && AllSucceed(db, t, ws)
    requires Succeeds(db, PerformAll(db, t, ws), v) && Succeeds(db, Perform(db, t, PerformAll(db, t, ws), v), w)
    ensures AllSucceed(db, t, ws + [v, w])
    ensures PerformAll(db, t, ws + [v, w]) == Perform(db, t, Perform(db, t, PerformAll(db, t, ws), v), w)
  {
    PerformPush(db, t, ws, v);
    PerformPush(db, t, ws + [v], w);
    assert ws + [v, w] == ws + [v] + [w];
  }

  /** Conversely, what went through after others went through step by step. */
  lemma SucceededTwo(db: Db, t: TxnId, ws: seq<Write>, v: Write, w: Write)
    requires t < |db.transactions| && AllSucceed(db, t, ws) && AllSucceed(db, t, ws + [v, w])
    ensures Succeeds(db, PerformAll(db, t, ws), v) && Succeeds(db, Perform(db, t, PerformAll(db, t, ws), v), w)
  {
    PrefixSucceeds(db, t, ws + [v, w], |ws| + 1);
    assert (ws + [v, w])[..|ws| + 1] == ws + [v];
    PerformPush(db, t, ws, v);
    assert ws + [v, w] == ws + [v] + [w];
    PerformPush(db, t, ws + [v], w);
  }

  /** Committing all statements of a plan changes the tables as one update. */
  lemma CommitIsOutcome(db: Db, t: TxnId, task: Task, es: seq<Entry>)
    requires t < |db.transactions| && (task.WebhookTask? ==> task.key in db.events)
    requires AllSucceed(db, t, AllWrites(es) + Closing(task, t, db.transactions[t].status))
    ensures Install(db, t, task, PerformAll(db, t, AllWrites(es) + Closing(task, t, db.transactions[t].status))) ==
            Outcome(db, task, t, es)
  {
    var ws := AllWrites(es) + Closing(task, t, db.transactions[t].status);
    PrefixSucceeds(db, t, ws, |AllWrites(es)|);
    assert ws[..|AllWrites(es)|] == AllWrites(es);
    EntriesDraft(db, t, es);
    ClosingDraft(db, t, task, AllWrites(es));
  }

  lemma OneEntryWrites(e: Entry)
    ensures AllWrites([e]) == EntryWrites(e)
  {
    assert [e][..0] == [];
  }

  /** A chargeback whose statements went through found both accounts and enough money. */
  lemma ChargebackSucceeded(db: Db, t: TxnId, x: Transaction, tail: seq<Write>)
    requires t < |db.transactions| && AllSucceed(db, t, AllWrites(Chargeback(t, x)) + tail)
    ensures x.recipient in db.accounts && db.accounts[x.recipient].balance >= x.destinationAmount &&
            x.sender in db.accounts
  {
    var es := Chargeback(t, x);
    var ws := AllWrites(es);
    assert es[..1] == [es[0]];
    OneEntryWrites(es[0]);
    assert ws == [Adjust(x.recipient, es[0].amount, true), Insert(es[0]), Insert(es[1]),
                  Adjust(x.sender, x.sourceAmount, false)];
    PrefixSucceeds(db, t, ws + tail, 4);
    assert (ws + tail)[..4] == ws;
    PrefixSucceeds(db, t, ws, 1);
    assert ws[..1][..0] == [];
  }

  lemma PayoutSucceeded(db: Db, t: TxnId, x: Transaction, tail: seq<Write>)
    requires t < |db.transactions| && AllSucceed(db, t, AllWrites([Payout(t, x)]) + tail)
    ensures x.recipient in db.accounts
  {
    var e := Payout(t, x);
    OneEntryWrites(e);
    var ws := AllWrites([e]);
    assert ws == [Insert(e), Adjust(x.recipient, e.amount, false)];
    PrefixSucceeds(db, t, ws + tail, 2);
    assert (ws + tail)[..2] == ws;
  }

  /** What the plan of a task is computed from, read at one committed state. */
  function PlanAt(db: Db, task: Task, t: TxnId): seq<Write>
    requires t < |db.transactions|
  {
    Plan(task, t, db.transactions[t], Of(db.ledger, t), HasBeenReversed(db.ledger, t))
  }

  /** A plan whose statements all go through commits exactly what the serial operation does. */
  lemma CommitIsSerial(db: Db, task: Task, t: TxnId)
    requires Locks(db, task) == Some(t) && MayProceed(task, db.transactions[t].status) && Enabled(db, OpOf(task))
    requires AllSucceed(db, t, PlanAt(db, task, t))
    ensures Install(db, t, task, PerformAll(db, t, PlanAt(db, task, t))) == Step(db, OpOf(task))
  {
    var x := db.transactions[t];
    var es := PlannedEntries(task, t, x, Of(db.ledger, t), HasBeenReversed(db.ledger, t));
    CommitIsOutcome(db, t, task, es);
    if es == Chargeback(t, x) {
      ChargebackSucceeded(db, t, x, Closing(task, t, x.status));
    }
    if es == [Payout(t, x)] {
      PayoutSucceeded(db, t, x, Closing(task, t, x.status));
    }
    OutcomeIsSerial(db, task, t, es);
  }

  lemma OutcomeIsSerial(db: Db, task: Task, t: TxnId, es: seq<Entry>)
    requires Locks(db, task) == Some(t) && MayProceed(task, db.transactions[t].status) && Enabled(db, OpOf(task))
    requires es == PlannedEntries(task, t, db.transactions[t], Of(db.ledger, t), HasBeenReversed(db.ledger, t))
    requires var x := db.transactions[t];
             es == Chargeback(t, x) ==>
               x.recipient in db.accounts && db.accounts[x.recipient].balance >= x.destinationAmount &&
                 x.sender in db.accounts
    requires es == [Payout(t, db.transactions[t])] ==> db.transactions[t].recipient in db.accounts
    ensures Outcome(db, task, t, es) == Step(db, OpOf(task))
  {
    AppendNothing(db);
  }

  // ----- The running system -----

  datatype Phase =
    | Idle                                              // queued, or waiting for the row lock
    | Locked(txn: TxnId, row: Transaction)              // row lock taken, row read
    | Checked(txn: TxnId, row: Transaction, reversed: bool)   // status accepted, reversal entries counted
    | Writing(txn: TxnId, todo: seq<Write>, done: seq<Write>, draft: Draft)
    | Aborted                                           // rolled back
    | Ended

  datatype Worker = Worker(task: Task, phase: Phase)

  /** `log` lists what has been committed, in commit order. */
  datatype Sys = Sys(db: Db, workers: seq<Worker>, rowLocks: map<TxnId, nat>, accountLocks: map<AccountId, nat>,
                     log: seq<Event>)

  function Start(db: Db): Sys { Sys(db, [], map[], map[], []) }

  datatype Action =
    | Spawn(task: Task)
    | Ingest(key: EventKey, signatureValid: bool)
    | Atomic(op: Op)
    | Late(write: Event)
    | TakeLock(who: nat)
    | Check(who: nat)
    | Read(who: nat)
    | RunStatement(who: nat)
    | Commit(who: nat)
    | Abort(who: nat)
    | NoteError(who: nat, fault: Fault)

  function Release<K>(locks: map<K, nat>, who: nat): map<K, nat> {
    map k | k in locks && locks[k] != who :: locks[k]
  }

  function Become(sys: Sys, who: nat, phase: Phase): Sys
    requires who < |sys.workers|
  {
    sys.(workers := sys.workers[who := sys.workers[who].(phase := phase)])
  }

  function LetGo(sys: Sys, who: nat, phase: Phase): Sys
    requires who < |sys.workers|
  {
    Become(sys, who, phase).(rowLocks := Release(sys.rowLocks, who), accountLocks := Release(sys.accountLocks, who))
  }

  function Logged(sys: Sys, e: Event): Sys
    requires Possible(sys.db, e)
  {
    sys.(db := After(sys.db, e), log := sys.log + [e])
  }

  /** Operations taken as one step: payment creation under its own isolation, and disputes, rejections and provider
      submissions that write before anybody else does. They wait for the rows they update. */
  predicate RowsFree(sys: Sys, op: Op) {
    match op
    case CreateOp(r) => r.sender !in sys.accountLocks
    case DisputeOp(t) => t !in sys.rowLocks
    case ResolveOp(t, action) => action == Reject && t !in sys.rowLocks
    case AssignReferenceOp(t, _) => t !in sys.rowLocks
    case _ => false
  }

  /** The write of a call that checked at any earlier time waits for the row too; a provider's reference is new. */
  predicate RowFree(sys: Sys, e: Event) {
    !e.Call? && e.txn !in sys.rowLocks && (e.ReferenceWrite? ==> FindByReference(sys.db.transactions, e.ref) == None)
  }

  predicate CanAct(sys: Sys, a: Action) {
    match a
    case Spawn(task) => !task.WebhookTask?
    case Ingest(_, _) => true
    case Atomic(op) => RowsFree(sys, op) && Enabled(sys.db, op)
    case Late(e) => RowFree(sys, e) && Possible(sys.db, e)
    case TakeLock(i) =>
      && i < |sys.workers| && sys.workers[i].phase == Idle
      && (var t := Locks(sys.db, sys.workers[i].task); t.Some? ==> t.value !in sys.rowLocks)
      && Enabled(sys.db, OpOf(sys.workers[i].task))
    case Check(i) => i < |sys.workers| && sys.workers[i].phase.Locked?
    case Read(i) => i < |sys.workers| && sys.workers[i].phase.Checked?
    case RunStatement(i) =>
      && i < |sys.workers| && sys.workers[i].phase.Writing? && sys.workers[i].phase.todo != []
      && sys.workers[i].phase.txn < |sys.db.transactions|
      && (var w := sys.workers[i].phase.todo[0];
          w.Adjust? && w.account in sys.accountLocks ==> sys.accountLocks[w.account] == i)
    case Commit(i) =>
      && i < |sys.workers| && sys.workers[i].phase.Writing? && sys.workers[i].phase.todo == []
      && sys.workers[i].phase.txn < |sys.db.transactions|
    case Abort(i) => i < |sys.workers| && !sys.workers[i].phase.Ended?
    case NoteError(i, _) =>
      && i < |sys.workers| && sys.workers[i].phase.Aborted? && sys.workers[i].task.WebhookTask?
      && Enabled(sys.db, RecordErrorOp(sys.workers[i].task.key, a.fault))
  }

  function Act(sys: Sys, a: Action): Sys
    requires CanAct(sys, a)
  {
    match a
    case Spawn(task) => sys.(workers := sys.workers + [Worker(task, Idle)])
    case Ingest(key, signatureValid) =>
      var next := Logged(sys, Call(ReceiveOp(key, signatureValid)));
      if Receive(sys.db, key, signatureValid).1 == Ok then
        next.(workers := sys.workers + [Worker(WebhookTask(key), Idle)])
      else next
    case Atomic(op) => Logged(sys, Call(op))
    case Late(e) => Logged(sys, e)
    case TakeLock(i) =>
      (match Locks(sys.db, sys.workers[i].task)
       case None =>
         // Nothing to lock: a webhook for an unknown reference records that, the others throw or do nothing.
         if sys.workers[i].task.WebhookTask? then Become(Logged(sys, Call(OpOf(sys.workers[i].task))), i, Ended)
         else Become(sys, i, Ended)
       case Some(t) => Become(sys, i, Locked(t, sys.db.transactions[t])).(rowLocks := sys.rowLocks[t := i]))
    case Check(i) =>
      var p := sys.workers[i].phase;
      if MayProceed(sys.workers[i].task, p.row.status) then
        Become(sys, i, Checked(p.txn, p.row, HasBeenReversed(sys.db.ledger, p.txn)))
      else LetGo(sys, i, Aborted)
    case Read(i) =>
      var p := sys.workers[i].phase;
      var plan := Plan(sys.workers[i].task, p.txn, p.row, Of(sys.db.ledger, p.txn), p.reversed);
      Become(sys, i, Writing(p.txn, plan, [], BLANK))
    case RunStatement(i) =>
      var p := sys.workers[i].phase;
      var w := p.todo[0];
      if Succeeds(sys.db, p.draft, w) then
        Become(sys, i, Writing(p.txn, p.todo[1..], p.done + [w], Perform(sys.db, p.txn, p.draft, w)))
          .(accountLocks := if w.Adjust? then sys.accountLocks[w.account := i] else sys.accountLocks)
      else LetGo(sys, i, Aborted)
    case Commit(i) =>
      var p := sys.workers[i].phase;
      LetGo(sys, i, Ended).(db := Install(sys.db, p.txn, sys.workers[i].task, p.draft),
                            log := sys.log + [Call(OpOf(sys.workers[i].task))])
    case Abort(i) => LetGo(sys, i, if sys.workers[i].phase.Aborted? then Ended else Aborted)
    case NoteError(i, fault) => Become(Logged(sys, Call(RecordErrorOp(sys.workers[i].task.key, fault))), i, Ended)
  }

  predicate CanActAll(sys: Sys, actions: seq<Action>)
    decreases |actions|
  {
    actions != [] ==> CanAct(sys, actions[0]) && CanActAll(Act(sys, actions[0]), actions[1..])
  }

  function ActAll(sys: Sys, actions: seq<Action>): Sys
    requires CanActAll(sys, actions)
    decreases |actions|
  {
    if actions == [] then sys else ActAll(Act(sys, actions[0]), actions[1..])
  }

  // ----- What every worker can rely on -----

  predicate Touches(ws: seq<Write>, a: AccountId) {
    exists w | w in ws :: w.Adjust? && w.account == a
  }

  predicate HoldsRow(db: Db, rowLocks: map<TxnId, nat>, i: nat, task: Task, t: TxnId) {
    && Locks(db, task) == Some(t) && t in rowLocks && rowLocks[t] == i
  }

  ghost predicate WorkerOk(db: Db, rowLocks: map<TxnId, nat>, accountLocks: map<AccountId, nat>, i: nat, w: Worker) {
    && (w.task.WebhookTask? && !w.phase.Ended? ==> w.task.key in db.events && db.events[w.task.key].Pending())
    && match w.phase
       case Locked(t, row) => HoldsRow(db, rowLocks, i, w.task, t) && row == db.transactions[t]
       case Checked(t, row, reversed) =>
         && HoldsRow(db, rowLocks, i, w.task, t) && row == db.transactions[t]
         && MayProceed(w.task, row.status) && reversed == HasBeenReversed(db.ledger, t)
       case Writing(t, todo, done, draft) =>
         && HoldsRow(db, rowLocks, i, w.task, t)
         && MayProceed(w.task, db.transactions[t].status)
         && done + todo == PlanAt(db, w.task, t)
         && AllSucceed(db, t, done) && draft == PerformAll(db, t, done)
         && (forall a | Touches(done, a) :: a in accountLocks && accountLocks[a] == i)
       case _ => true
  }

  /** Two live webhook workers never share an event row. */
  predicate Apart(x: Worker, y: Worker) {
    x.task.WebhookTask? && y.task.WebhookTask? && !x.phase.Ended? && !y.phase.Ended? ==> x.task.key != y.task.key
  }

  ghost predicate SysOk(origin: Db, sys: Sys) {
    && PossibleAll(origin, sys.log) && AfterAll(origin, sys.log) == sys.db
    && (forall i: nat | i < |sys.workers| :: WorkerOk(sys.db, sys.rowLocks, sys.accountLocks, i, sys.workers[i]))
    && (forall i: nat, j: nat | i < j < |sys.workers| :: Apart(sys.workers[i], sys.workers[j]))
  }

  // ----- Framing: what a worker reads cannot change under its locks -----

  function TxnOf(p: Phase): Option<TxnId> {
    match p
    case Locked(t, _) => Some(t)
    case Checked(t, _, _) => Some(t)
    case Writing(t, _, _, _) => Some(t)
    case _ => None
  }

  /** What worker `i` has read or written is the same in both committed databases. */
  predicate Undisturbed(db: Db, db': Db, accountLocks: map<AccountId, nat>, i: nat, w: Worker) {
    && (w.task.WebhookTask? && !w.phase.Ended? && w.task.key in db.events ==>
          w.task.key in db'.events && db'.events[w.task.key] == db.events[w.task.key])
    && (forall a | a in accountLocks && accountLocks[a] == i && a in db.accounts ::
          a in db'.accounts && db'.accounts[a] == db.accounts[a])
    && (TxnOf(w.phase).Some? && TxnOf(w.phase).value < |db.transactions| ==>
          var t := TxnOf(w.phase).value;
          && t < |db'.transactions| && db'.transactions[t] == db.transactions[t]
          && Of(db'.ledger, t) == Of(db.ledger, t)
          && (Locks(db, w.task) == Some(t) ==> Locks(db', w.task) == Some(t)))
  }

  predicate LocksKept(rowLocks: map<TxnId, nat>, rowLocks': map<TxnId, nat>,
                      accountLocks: map<AccountId, nat>, accountLocks': map<AccountId, nat>, i: nat) {
    && (forall t | t in rowLocks && rowLocks[t] == i :: t in rowLocks' && rowLocks'[t] == i)
    && (forall a | a in accountLocks && accountLocks[a] == i :: a in accountLocks' && accountLocks'[a] == i)
  }

  lemma {:induction false} PerformStable(db: Db, db': Db, t: TxnId, ws: seq<Write>)
    requires t < |db.transactions| && t < |db'.transactions| && db.transactions[t] == db'.transactions[t]
    requires forall a | Touches(ws, a) && a in db.accounts :: a in db'.accounts && db'.accounts[a] == db.accounts[a]
    requires AllSucceed(db, t, ws)
    ensures AllSucceed(db', t, ws) && PerformAll(db', t, ws) == PerformAll(db, t, ws)
  {
    if ws != [] {
      var last := |ws| - 1;
      forall a | Touches(ws[..last], a)
        ensures Touches(ws, a)
      {}
      PerformStable(db, db', t, ws[..last]);
      if ws[last].Adjust? {
        assert Touches(ws, ws[last].account);
      }
    }
  }

  lemma WorkerStable(db: Db, db': Db, sys: Sys, rowLocks': map<TxnId, nat>, accountLocks': map<AccountId, nat>, i: nat,
                     w: Worker)
    requires WorkerOk(db, sys.rowLocks, sys.accountLocks, i, w)
    requires Undisturbed(db, db', sys.accountLocks, i, w)
    requires LocksKept(sys.rowLocks, rowLocks', sys.accountLocks, accountLocks', i)
    ensures WorkerOk(db', rowLocks', accountLocks', i, w)
  {
    if w.phase.Writing? {
      PerformStable(db, db', w.phase.txn, w.phase.done);
    }
  }

  /** A row version exists only for an account some statement adjusted. */
  lemma {:induction false} BalancesTouched(db: Db, t: TxnId, ws: seq<Write>)
    requires t < |db.transactions| && AllSucceed(db, t, ws)
    ensures forall a | a in PerformAll(db, t, ws).balances :: Touches(ws, a)
  {
    if ws != [] {
      var last := |ws| - 1;
      BalancesTouched(db, t, ws[..last]);
      forall a | a in PerformAll(db, t, ws).balances
        ensures Touches(ws, a)
      {
        if a in PerformAll(db, t, ws[..last]).balances {
          assert Touches(ws[..last], a);
        } else {
          assert ws[last].Adjust? && ws[last].account == a;
        }
      }
    }
  }

  lemma PlannedOwned(db: Db, task: Task, t: TxnId)
    requires t < |db.transactions|
    ensures forall e | e in PlannedEntries(task, t, db.transactions[t], Of(db.ledger, t),
                                           HasBeenReversed(db.ledger, t)) :: e.txn == t
  {
    CompensationsOwned(db.ledger, t);
  }

  /** What a commit changes: one status, entries of one transaction, balances some statement adjusted, one event row. */
  lemma CommitChanges(db: Db, task: Task, t: TxnId)
    requires t < |db.transactions| && (task.WebhookTask? ==> task.key in db.events)
    requires AllSucceed(db, t, PlanAt(db, task, t))
    ensures var ws, db' := PlanAt(db, task, t), Install(db, t, task, PerformAll(db, t, PlanAt(db, task, t)));
            var es := PlannedEntries(task, t, db.transactions[t], Of(db.ledger, t), HasBeenReversed(db.ledger, t));
            && (db'.transactions == db.transactions ||
                db'.transactions == db.transactions[t := db.transactions[t].(status := Wanted(task))])
            && db'.ledger == db.ledger + es && (forall e | e in es :: e.txn == t)
            && (forall a | a in db.accounts && !Touches(ws, a) ::
                a in db'.accounts && db'.accounts[a] == db.accounts[a])
            && (forall key | key in db.events && !(task.WebhookTask? && task.key == key) ::
                key in db'.events && db'.events[key] == db.events[key])
  {
    var es := PlannedEntries(task, t, db.transactions[t], Of(db.ledger, t), HasBeenReversed(db.ledger, t));
    CommitIsOutcome(db, t, task, es);
    BalancesTouched(db, t, PlanAt(db, task, t));
    PlannedOwned(db, task, t);
  }

  /** Other workers do not notice a commit. */
  lemma CommitUndisturbed(sys: Sys, i: nat, j: nat)
    requires i < |sys.workers| && j < |sys.workers| && i != j
    requires WorkerOk(sys.db, sys.rowLocks, sys.accountLocks, i, sys.workers[i])
    requires WorkerOk(sys.db, sys.rowLocks, sys.accountLocks, j, sys.workers[j])
    requires Apart(sys.workers[i], sys.workers[j])
    requires sys.workers[i].phase.Writing? && sys.workers[i].phase.todo == []
    ensures var p := sys.workers[i].phase;
            Undisturbed(sys.db, Install(sys.db, p.txn, sys.workers[i].task, p.draft), sys.accountLocks, j,
                        sys.workers[j])
  {
    var db, task, p, w := sys.db, sys.workers[i].task, sys.workers[i].phase, sys.workers[j];
    assert p.done + [] == p.done;
    CommitChanges(db, task, p.txn);
    RowsUndisturbed(sys, j, Install(db, p.txn, task, p.draft), p.txn, Wanted(task),
                    PlannedEntries(task, p.txn, db.transactions[p.txn], Of(db.ledger, p.txn),
                                   HasBeenReversed(db.ledger, p.txn)));
  }

  /** Changing one locked row and its ledger entries disturbs no holder of another row. */
  lemma RowsUndisturbed(sys: Sys, j: nat, db': Db, t: TxnId, status: Status, es: seq<Entry>)
    requires j < |sys.workers| && t < |sys.db.transactions|
    requires TxnOf(sys.workers[j].phase) != Some(t)
    requires db'.transactions == sys.db.transactions ||
             db'.transactions == sys.db.transactions[t := sys.db.transactions[t].(status := status)]
    requires db'.ledger == sys.db.ledger + es && forall e | e in es :: e.txn == t
    requires forall a | a in sys.accountLocks && sys.accountLocks[a] == j && a in sys.db.accounts ::
               a in db'.accounts && db'.accounts[a] == sys.db.accounts[a]
    requires var w := sys.workers[j];
             w.task.WebhookTask? && !w.phase.Ended? && w.task.key in sys.db.events ==>
               w.task.key in db'.events && db'.events[w.task.key] == sys.db.events[w.task.key]
    ensures Undisturbed(sys.db, db', sys.accountLocks, j, sys.workers[j])
  {
    var w := sys.workers[j];
    if TxnOf(w.phase).Some? {
      EntriesSelect(sys.db.ledger, es, t, TxnOf(w.phase).value);
      LookupKeepsStatus(sys.db, t, status, w.task);
    }
  }

  lemma LookupKeepsStatus(db: Db, t: TxnId, status: Status, task: Task)
    requires t < |db.transactions|
    ensures Locks(db.(transactions := db.transactions[t := db.transactions[t].(status := status)]), task) ==
            Locks(db, task)
  {
    if task.WebhookTask? {
      Deliveries.FindIgnoresStatus(db.transactions, t, status, task.key.reference);
    }
  }

  lemma {:induction false} LookupSurvivesPush(txns: seq<Transaction>, x: Transaction, ref: Ref)
    requires FindByReference(txns, ref).Some?
    ensures FindByReference(txns + [x], ref) == FindByReference(txns, ref)
  {
    assert (txns + [x])[..|txns|] == txns;
  }

  /** Giving a row another reference does not change what references select that select other rows. */
  lemma {:induction false} LookupSurvivesAssign(txns: seq<Transaction>, t: TxnId, given: Ref, ref: Ref)
    requires t < |txns| && FindByReference(txns, ref) != Some(t) && given != ref
    ensures FindByReference(txns[t := txns[t].(reference := Some(given))], ref) == FindByReference(txns, ref)
  {
    var last := |txns| - 1;
    var changed := txns[t := txns[t].(reference := Some(given))];
    if t == last {
      assert changed[..last] == txns[..last];
    } else {
      assert changed[..last] == txns[..last][t := txns[t].(reference := Some(given))];
      LookupSurvivesAssign(txns[..last], t, given, ref);
    }
  }

  /** Other workers do not notice an operation whose rows were free. */
  lemma AtomicUndisturbed(sys: Sys, op: Op, j: nat)
    requires j < |sys.workers| && RowsFree(sys, op) && Enabled(sys.db, op)
    requires WorkerOk(sys.db, sys.rowLocks, sys.accountLocks, j, sys.workers[j])
    ensures Undisturbed(sys.db, Step(sys.db, op), sys.accountLocks, j, sys.workers[j])
  {
    var db, w := sys.db, sys.workers[j];
    match op
    case CreateOp(r) =>
      if Create(db, r).1 == Ok { CreateUndisturbed(sys, r, j); }
    case DisputeOp(t) =>
      if RaiseDispute(db, t).1 == Ok { MoveUndisturbed(sys, t, db.transactions[t].status, Disputed, j); }
    case ResolveOp(t, _) =>
      if ResolveDispute(db, t, Reject).1 == Ok { MoveUndisturbed(sys, t, Disputed, Completed, j); }
    case AssignReferenceOp(t, ref) =>
      if t < |db.transactions| && w.task.WebhookTask? && FindByReference(db.transactions, w.task.key.reference).Some? {
        LookupSurvivesAssign(db.transactions, t, ref, w.task.key.reference);
      }
  }

  /** Nor do they notice a late write. */
  lemma LateUndisturbed(sys: Sys, e: Event, j: nat)
    requires j < |sys.workers| && RowFree(sys, e) && Possible(sys.db, e)
    requires WorkerOk(sys.db, sys.rowLocks, sys.accountLocks, j, sys.workers[j])
    ensures Undisturbed(sys.db, After(sys.db, e), sys.accountLocks, j, sys.workers[j])
  {
    var db, w := sys.db, sys.workers[j];
    match e
    case DisputeWrite(t) => MoveUndisturbed(sys, t, Completed, Disputed, j);
    case RejectWrite(t) => MoveUndisturbed(sys, t, Disputed, Completed, j);
    case ReferenceWrite(t, ref) =>
      if TxnOf(w.phase).Some? && w.task.WebhookTask? {
        LookupSurvivesAssign(db.transactions, t, ref, w.task.key.reference);
      }
  }

  lemma MoveUndisturbed(sys: Sys, t: TxnId, from: Status, to: Status, j: nat)
    requires j < |sys.workers| && t < |sys.db.transactions| && t !in sys.rowLocks
    requires WorkerOk(sys.db, sys.rowLocks, sys.accountLocks, j, sys.workers[j])
    ensures Undisturbed(sys.db, Move(sys.db, t, [], from, to), sys.accountLocks, j, sys.workers[j])
  {
    AppendNothing(sys.db);
    LookupKeepsStatus(sys.db, t, to, sys.workers[j].task);
  }

  lemma CreateUndisturbed(sys: Sys, r: Request, j: nat)
    requires j < |sys.workers| && r.sender !in sys.accountLocks && Create(sys.db, r).1 == Ok
    requires WorkerOk(sys.db, sys.rowLocks, sys.accountLocks, j, sys.workers[j])
    ensures Undisturbed(sys.db, Create(sys.db, r).0, sys.accountLocks, j, sys.workers[j])
  {
    var db, w, db' := sys.db, sys.workers[j], Create(sys.db, r).0;
    var t := |db.transactions|;
    var x := db'.transactions[t];
    forall a | a in sys.accountLocks && a in db.accounts
      ensures db'.accounts[a] == db.accounts[a]
    {
      SumOne(Hold(t, x), a);
    }
    if TxnOf(w.phase).Some? {
      EntriesSelect(db.ledger, [Hold(t, x)], t, TxnOf(w.phase).value);
      if w.task.WebhookTask? {
        LookupSurvivesPush(db.transactions, x, w.task.key.reference);
      }
    }
  }

  // ----- Every step keeps the system serial -----

  /** The parts of a step that concern the other workers, put together. */
  lemma OthersOk(origin: Db, sys: Sys, sys': Sys, i: nat)
    requires SysOk(origin, sys) && |sys'.workers| == |sys.workers|
    requires PossibleAll(origin, sys'.log) && AfterAll(origin, sys'.log) == sys'.db
    requires i < |sys.workers| && sys'.workers == sys.workers[i := sys'.workers[i]] &&
             sys'.workers[i].task == sys.workers[i].task
    requires sys.workers[i].phase.Ended? ==> sys'.workers[i].phase.Ended?
    requires forall j: nat | j < |sys.workers| && j != i ::
      && Undisturbed(sys.db, sys'.db, sys.accountLocks, j, sys.workers[j])
      && LocksKept(sys.rowLocks, sys'.rowLocks, sys.accountLocks, sys'.accountLocks, j)
    requires WorkerOk(sys'.db, sys'.rowLocks, sys'.accountLocks, i, sys'.workers[i])
    ensures SysOk(origin, sys')
  {
    forall j: nat | j < |sys'.workers|
      ensures WorkerOk(sys'.db, sys'.rowLocks, sys'.accountLocks, j, sys'.workers[j])
    {
      if j != i {
        WorkerStable(sys.db, sys'.db, sys, sys'.rowLocks, sys'.accountLocks, j, sys.workers[j]);
      }
    }
    forall j: nat, k: nat | j < k < |sys'.workers|
      ensures Apart(sys'.workers[j], sys'.workers[k])
    {
      assert Apart(sys.workers[j], sys.workers[k]);
    }
  }

  /** A step that changes no committed table disturbs nobody. */
  lemma SameDbUndisturbed(db: Db, accountLocks: map<AccountId, nat>, j: nat, w: Worker)
    ensures Undisturbed(db, db, accountLocks, j, w)
  {}

  lemma SpawnOk(origin: Db, sys: Sys, w: Worker)
    requires SysOk(origin, sys) && w.phase == Idle
    requires w.task.WebhookTask? ==> w.task.key in sys.db.events && sys.db.events[w.task.key].Pending()
    requires forall j: nat | j < |sys.workers| :: Apart(sys.workers[j], w)
    ensures SysOk(origin, sys.(workers := sys.workers + [w]))
  {
    var sys' := sys.(workers := sys.workers + [w]);
    forall j: nat | j < |sys'.workers|
      ensures WorkerOk(sys'.db, sys'.rowLocks, sys'.accountLocks, j, sys'.workers[j])
    {
      if j < |sys.workers| {
        assert WorkerOk(sys.db, sys.rowLocks, sys.accountLocks, j, sys.workers[j]);
      }
    }
  }

  /** A committed operation that disturbs nobody keeps the system serial. */
  lemma LoggedOk(origin: Db, sys: Sys, e: Event)
    requires SysOk(origin, sys) && Possible(sys.db, e)
    requires forall j: nat | j < |sys.workers| ::
               Undisturbed(sys.db, After(sys.db, e), sys.accountLocks, j, sys.workers[j])
    ensures SysOk(origin, Logged(sys, e))
  {
    OneMore(origin, sys.log, e);
    var sys' := Logged(sys, e);
    forall j: nat | j < |sys'.workers|
      ensures WorkerOk(sys'.db, sys'.rowLocks, sys'.accountLocks, j, sys'.workers[j])
    {
      WorkerStable(sys.db, sys'.db, sys, sys.rowLocks, sys.accountLocks, j, sys.workers[j]);
    }
  }

  lemma IngestOk(origin: Db, sys: Sys, key: EventKey, signatureValid: bool)
    requires SysOk(origin, sys)
    ensures SysOk(origin, Act(sys, Ingest(key, signatureValid)))
  {
    var op := ReceiveOp(key, signatureValid);
    forall j: nat | j < |sys.workers|
      ensures Undisturbed(sys.db, Step(sys.db, op), sys.accountLocks, j, sys.workers[j])
    {
      assert WorkerOk(sys.db, sys.rowLocks, sys.accountLocks, j, sys.workers[j]);
    }
    LoggedOk(origin, sys, Call(op));
    if Receive(sys.db, key, signatureValid).1 == Ok {
      var w := Worker(WebhookTask(key), Idle);
      forall j: nat | j < |sys.workers|
        ensures Apart(sys.workers[j], w)
      {
        assert WorkerOk(sys.db, sys.rowLocks, sys.accountLocks, j, sys.workers[j]);
      }
      SpawnOk(origin, Logged(sys, Call(op)), w);
    }
  }

  /** Changing one webhook's pending row disturbs no other live worker. */
  lemma OwnEventUndisturbed(sys: Sys, i: nat, j: nat, row: EventRow)
    requires i < |sys.workers| && j < |sys.workers| && i != j
    requires Apart(sys.workers[i], sys.workers[j]) && Apart(sys.workers[j], sys.workers[i])
    requires sys.workers[i].task.WebhookTask? && !sys.workers[i].phase.Ended?
    ensures Undisturbed(sys.db, sys.db.(events := sys.db.events[sys.workers[i].task.key := row]), sys.accountLocks, j,
                        sys.workers[j])
  {}

  /** A worker takes a private step: the committed tables stay as they are. */
  lemma PrivateOk(origin: Db, sys: Sys, sys': Sys, i: nat)
    requires SysOk(origin, sys) && i < |sys.workers|
    requires sys'.db == sys.db && sys'.log == sys.log
    requires |sys'.workers| == |sys.workers| && sys'.workers == sys.workers[i := sys'.workers[i]]
    requires sys'.workers[i].task == sys.workers[i].task &&
             (sys.workers[i].phase.Ended? ==> sys'.workers[i].phase.Ended?)
    requires forall j: nat | j < |sys.workers| && j != i ::
      LocksKept(sys.rowLocks, sys'.rowLocks, sys.accountLocks, sys'.accountLocks, j)
    requires WorkerOk(sys'.db, sys'.rowLocks, sys'.accountLocks, i, sys'.workers[i])
    ensures SysOk(origin, sys')
  {
    forall j: nat | j < |sys.workers| && j != i
      ensures Undisturbed(sys.db, sys'.db, sys.accountLocks, j, sys.workers[j])
    {
      SameDbUndisturbed(sys.db, sys.accountLocks, j, sys.workers[j]);
    }
    OthersOk(origin, sys, sys', i);
  }

  lemma AbandonOk(origin: Db, sys: Sys, i: nat, phase: Phase)
    requires SysOk(origin, sys) && i < |sys.workers| && !sys.workers[i].phase.Ended?
    requires phase == Aborted || phase == Ended
    ensures SysOk(origin, LetGo(sys, i, phase))
  {
    assert WorkerOk(sys.db, sys.rowLocks, sys.accountLocks, i, sys.workers[i]);
    PrivateOk(origin, sys, LetGo(sys, i, phase), i);
  }

  lemma TakeLockOk(origin: Db, sys: Sys, i: nat)
    requires SysOk(origin, sys) && CanAct(sys, TakeLock(i))
    ensures SysOk(origin, Act(sys, TakeLock(i)))
  {
    var w := sys.workers[i];
    assert WorkerOk(sys.db, sys.rowLocks, sys.accountLocks, i, w);
    match Locks(sys.db, w.task)
    case Some(t) => PrivateOk(origin, sys, Act(sys, TakeLock(i)), i);
    case None =>
      if w.task.WebhookTask? {
        EventNoteOk(origin, sys, i, OpOf(w.task), UnknownReference);
      } else {
        PrivateOk(origin, sys, Act(sys, TakeLock(i)), i);
      }
  }

  /** A webhook worker that ends by noting an error in its own event row. */
  lemma EventNoteOk(origin: Db, sys: Sys, i: nat, op: Op, fault: Fault)
    requires SysOk(origin, sys) && i < |sys.workers|
    requires sys.workers[i].task.WebhookTask? && !sys.workers[i].phase.Ended?
    requires Enabled(sys.db, op) && sys.workers[i].task.key in sys.db.events
    requires Step(sys.db, op) == WithError(sys.db, sys.workers[i].task.key, fault)
    ensures SysOk(origin, Become(Logged(sys, Call(op)), i, Ended))
  {
    OneMore(origin, sys.log, Call(op));
    var key := sys.workers[i].task.key;
    forall j: nat | j < |sys.workers| && j != i
      ensures Undisturbed(sys.db, Step(sys.db, op), sys.accountLocks, j, sys.workers[j])
    {
      if i < j { assert Apart(sys.workers[i], sys.workers[j]); } else { assert Apart(sys.workers[j], sys.workers[i]); }
      OwnEventUndisturbed(sys, i, j, sys.db.events[key].(error := Some(fault)));
    }
    OthersOk(origin, sys, Become(Logged(sys, Call(op)), i, Ended), i);
  }

  lemma CheckOk(origin: Db, sys: Sys, i: nat)
    requires SysOk(origin, sys) && CanAct(sys, Check(i))
    ensures SysOk(origin, Act(sys, Check(i)))
  {
    assert WorkerOk(sys.db, sys.rowLocks, sys.accountLocks, i, sys.workers[i]);
    if MayProceed(sys.workers[i].task, sys.workers[i].phase.row.status) {
      PrivateOk(origin, sys, Act(sys, Check(i)), i);
    } else {
      AbandonOk(origin, sys, i, Aborted);
    }
  }

  lemma ReadOk(origin: Db, sys: Sys, i: nat)
    requires SysOk(origin, sys) && CanAct(sys, Read(i))
    ensures SysOk(origin, Act(sys, Read(i)))
  {
    ReadWorkerOk(sys, i);
    PrivateOk(origin, sys, Act(sys, Read(i)), i);
  }

  lemma ReadWorkerOk(sys: Sys, i: nat)
    requires CanAct(sys, Read(i)) && WorkerOk(sys.db, sys.rowLocks, sys.accountLocks, i, sys.workers[i])
    ensures var sys' := Act(sys, Read(i));
            WorkerOk(sys'.db, sys'.rowLocks, sys'.accountLocks, i, sys'.workers[i])
  {
    var p := sys.workers[i].phase;
    assert [] + PlanAt(sys.db, sys.workers[i].task, p.txn) == PlanAt(sys.db, sys.workers[i].task, p.txn);
  }

  lemma RunStatementOk(origin: Db, sys: Sys, i: nat)
    requires SysOk(origin, sys) && CanAct(sys, RunStatement(i))
    ensures SysOk(origin, Act(sys, RunStatement(i)))
  {
    var p := sys.workers[i].phase;
    assert WorkerOk(sys.db, sys.rowLocks, sys.accountLocks, i, sys.workers[i]);
    if Succeeds(sys.db, p.draft, p.todo[0]) {
      StatementWorkerOk(sys, i);
      PrivateOk(origin, sys, Act(sys, RunStatement(i)), i);
    } else {
      AbandonOk(origin, sys, i, Aborted);
    }
  }

  lemma StatementWorkerOk(sys: Sys, i: nat)
    requires CanAct(sys, RunStatement(i)) && WorkerOk(sys.db, sys.rowLocks, sys.accountLocks, i, sys.workers[i])
    requires Succeeds(sys.db, sys.workers[i].phase.draft, sys.workers[i].phase.todo[0])
    ensures var sys' := Act(sys, RunStatement(i));
            WorkerOk(sys'.db, sys'.rowLocks, sys'.accountLocks, i, sys'.workers[i])
  {
    var sys' := Act(sys, RunStatement(i));
    WritingOk(sys.db, sys.rowLocks, sys.accountLocks, sys'.accountLocks, i, sys.workers[i], sys'.workers[i]);
  }

  lemma WritingOk(db: Db, rowLocks: map<TxnId, nat>, accountLocks: map<AccountId, nat>,
                  accountLocks': map<AccountId, nat>, i: nat, w: Worker, w': Worker)
    requires WorkerOk(db, rowLocks, accountLocks, i, w) && w.phase.Writing? && w.phase.todo != []
    requires Succeeds(db, w.phase.draft, w.phase.todo[0])
    requires var p := w.phase;
             w' == w.(phase := Writing(p.txn, p.todo[1..], p.done + [p.todo[0]],
                                       Perform(db, p.txn, p.draft, p.todo[0])))
    requires accountLocks'
             == if w.phase.todo[0].Adjust? then accountLocks[w.phase.todo[0].account := i] else accountLocks
    ensures WorkerOk(db, rowLocks, accountLocks', i, w')
  {
    var p := w.phase;
    PerformPush(db, p.txn, p.done, p.todo[0]);
    assert p.done + [p.todo[0]] + p.todo[1..] == p.done + p.todo;
    TouchesPush(p.done, p.todo[0]);
  }

  lemma TouchesPush(ws: seq<Write>, w: Write)
    ensures forall a | Touches(ws + [w], a) :: Touches(ws, a) || (w.Adjust? && w.account == a)
  {
    forall a | Touches(ws + [w], a)
      ensures Touches(ws, a) || (w.Adjust? && w.account == a)
    {
      var v :| v in ws + [w] && v.Adjust? && v.account == a;
      if v in ws { assert Touches(ws, a); }
    }
  }

  lemma CommitExtendsLog(origin: Db, sys: Sys, i: nat)
    requires SysOk(origin, sys) && CanAct(sys, Commit(i))
    ensures var sys' := Act(sys, Commit(i));
            PossibleAll(origin, sys'.log) && AfterAll(origin, sys'.log) == sys'.db
  {
    var w, p := sys.workers[i], sys.workers[i].phase;
    assert WorkerOk(sys.db, sys.rowLocks, sys.accountLocks, i, w);
    assert p.done + [] == p.done;
    CommitIsSerial(sys.db, w.task, p.txn);
    OneMore(origin, sys.log, Call(OpOf(w.task)));
  }

  lemma CommitOk(origin: Db, sys: Sys, i: nat)
    requires SysOk(origin, sys) && CanAct(sys, Commit(i))
    ensures SysOk(origin, Act(sys, Commit(i)))
  {
    CommitExtendsLog(origin, sys, i);
    forall j: nat | j < |sys.workers| && j != i
      ensures Undisturbed(sys.db, Act(sys, Commit(i)).db, sys.accountLocks, j, sys.workers[j])
    {
      if i < j { assert Apart(sys.workers[i], sys.workers[j]); } else { assert Apart(sys.workers[j], sys.workers[i]); }
      CommitUndisturbed(sys, i, j);
    }
    OthersOk(origin, sys, Act(sys, Commit(i)), i);
  }

  lemma ActOk(origin: Db, sys: Sys, a: Action)
    requires SysOk(origin, sys) && CanAct(sys, a)
    ensures SysOk(origin, Act(sys, a))
  {
    match a
    case Spawn(task) => SpawnOk(origin, sys, Worker(task, Idle));
    case Ingest(key, signatureValid) => IngestOk(origin, sys, key, signatureValid);
    case Atomic(op) =>
      forall j: nat | j < |sys.workers|
        ensures Undisturbed(sys.db, Step(sys.db, op), sys.accountLocks, j, sys.workers[j])
      {
        AtomicUndisturbed(sys, op, j);
      }
      LoggedOk(origin, sys, Call(op));
    case Late(e) =>
      forall j: nat | j < |sys.workers|
        ensures Undisturbed(sys.db, After(sys.db, e), sys.accountLocks, j, sys.workers[j])
      {
        LateUndisturbed(sys, e, j);
      }
      LoggedOk(origin, sys, e);
    case TakeLock(i) => TakeLockOk(origin, sys, i);
    case Check(i) => CheckOk(origin, sys, i);
    case Read(i) => ReadOk(origin, sys, i);
    case RunStatement(i) => RunStatementOk(origin, sys, i);
    case Commit(i) => CommitOk(origin, sys, i);
    case Abort(i) => AbandonOk(origin, sys, i, if sys.workers[i].phase.Aborted? then Ended else Aborted);
    case NoteError(i, fault) =>
      EventNoteOk(origin, sys, i, RecordErrorOp(sys.workers[i].task.key, fault), fault);
  }

  lemma {:induction false} ActAllOk(origin: Db, sys: Sys, actions: seq<Action>)
    requires SysOk(origin, sys) && CanActAll(sys, actions)
    ensures SysOk(origin, ActAll(sys, actions))
    decreases |actions|
  {
    if actions != [] {
      ActOk(origin, sys, actions[0]);
      ActAllOk(origin, Act(sys, actions[0]), actions[1..]);
    }
  }

  /** However the statements of any number of workers interleave, and however late calls write that checked earlier, the
      committed database is that of running, one after the other and whole, what committed. */
  lemma CommittedStatesAreSerial(origin: Db, actions: seq<Action>)
    requires CanActAll(Start(origin), actions)
    ensures var sys := ActAll(Start(origin), actions);
            && PossibleAll(origin, sys.log) && sys.db == AfterAll(origin, sys.log)
            && (CallsOnly(sys.log) ==> EnabledRun(origin, Ops(sys.log)) && sys.db == Run(origin, Ops(sys.log)))
  {
    ActAllOk(origin, Start(origin), actions);
    var sys := ActAll(Start(origin), actions);
    if CallsOnly(sys.log) {
      CallsAreARun(origin, sys.log);
    }
  }

  /** In every concurrent run, the committed statuses, ledger, history and balances agree if and only if nothing that
      committed was off-domain, paid twice, or wrote to a payment in another status than the one it was meant for. */
  lemma CommittedStatesAreSoundExactly(limits: Limits, accounts: map<AccountId, Account>, actions: seq<Action>)
    requires CanActAll(Start(Seeded(limits, accounts)), actions)
    ensures var sys := ActAll(Start(Seeded(limits, accounts)), actions);
            && PossibleAll(Seeded(limits, accounts), sys.log)
            && (Invariant.Sound(sys.db, Runs.Opening(accounts)) <==> Unharmed(Seeded(limits, accounts), sys.log))
  {
    CommittedStatesAreSerial(Seeded(limits, accounts), actions);
    Invariant.SeededIsConsistent(limits, accounts);
    RunKeepsSoundExactly(Seeded(limits, accounts), Runs.Opening(accounts),
                         ActAll(Start(Seeded(limits, accounts)), actions).log);
  }

  /** As long as late references fit, the whole invariant holds of a committed database if and only if no call that
      committed was off-domain and every late write found its status. */
  lemma CommittedStatesAreConsistent(limits: Limits, accounts: map<AccountId, Account>, actions: seq<Action>)
    requires CanActAll(Start(Seeded(limits, accounts)), actions)
    ensures var sys := ActAll(Start(Seeded(limits, accounts)), actions);
            && PossibleAll(Seeded(limits, accounts), sys.log)
            && (ReferencesFit(Seeded(limits, accounts), sys.log) ==>
                  (Invariant.Consistent(sys.db, Runs.Opening(accounts)) <==>
                   AsExpected(Seeded(limits, accounts), sys.log)))
  {
    var origin := Seeded(limits, accounts);
    var log := ActAll(Start(origin), actions).log;
    CommittedStatesAreSerial(origin, actions);
    Invariant.SeededIsConsistent(limits, accounts);
    if ReferencesFit(origin, log) {
      LateRunKeepsExactly(origin, Runs.Opening(accounts), log);
    }
  }
}
