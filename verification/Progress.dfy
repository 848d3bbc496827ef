/** What the interleaved workers can do: a worker left alone does its operation, and every serial run, late writes
    included, is the committed part of some concurrent one. */
module Progress {
  import opened Tables
  import opened Operations
  import opened LateWrites
  import opened Workers

  // ----- Sequences of actions -----

  /** The actions of one worker. */
  predicate IsOf(a: Workers.Action, i: nat) {
    match a
    case Spawn(_) => false
    case Ingest(_, _) => false
    case Atomic(_) => false
    case Late(_) => false
    case _ => a.who == i
  }

  ghost predicate Leads(sys: Sys, sys': Sys) {
    exists actions :: CanActAll(sys, actions) && ActAll(sys, actions) == sys'
  }

  /** Worker `i` alone takes the system from one state to the other. */
  ghost predicate ByItself(sys: Sys, i: nat, sys': Sys) {
    exists actions :: CanActAll(sys, actions) && ActAll(sys, actions) == sys' && forall a | a in actions :: IsOf(a, i)
  }

  lemma {:induction false} ActOneMore(sys: Sys, actions: seq<Workers.Action>, a: Workers.Action)
    requires CanActAll(sys, actions) && CanAct(ActAll(sys, actions), a)
    ensures CanActAll(sys, actions + [a]) && ActAll(sys, actions + [a]) == Act(ActAll(sys, actions), a)
    decreases |actions|
  {
    if actions == [] {
      assert actions + [a] == [a];
      assert [a][1..] == [];
    } else {
      assert (actions + [a])[1..] == actions[1..] + [a];
      ActOneMore(Act(sys, actions[0]), actions[1..], a);
    }
  }

  lemma LeadsStart(sys: Sys)
    ensures Leads(sys, sys)
  {
    assert CanActAll(sys, []) && ActAll(sys, []) == sys;
  }

  lemma LeadsNext(sys: Sys, sys': Sys, a: Workers.Action)
    requires Leads(sys, sys') && CanAct(sys', a)
    ensures Leads(sys, Act(sys', a))
  {
    var actions :| CanActAll(sys, actions) && ActAll(sys, actions) == sys';
    ActOneMore(sys, actions, a);
  }

  lemma {:induction false} LeadsAll(sys: Sys, sys': Sys, actions: seq<Workers.Action>)
    requires Leads(sys, sys') && CanActAll(sys', actions)
    ensures Leads(sys, ActAll(sys', actions))
    decreases |actions|
  {
    if actions != [] {
      LeadsNext(sys, sys', actions[0]);
      LeadsAll(sys, Act(sys', actions[0]), actions[1..]);
    }
  }

  lemma LeadsByItself(sys: Sys, sys1: Sys, i: nat, sys2: Sys)
    requires Leads(sys, sys1) && ByItself(sys1, i, sys2)
    ensures Leads(sys, sys2)
  {
    var actions :| CanActAll(sys1, actions) && ActAll(sys1, actions) == sys2 && forall a | a in actions :: IsOf(a, i);
    LeadsAll(sys, sys1, actions);
  }

  lemma ByItselfStart(sys: Sys, i: nat)
    ensures ByItself(sys, i, sys)
  {
    assert CanActAll(sys, []) && ActAll(sys, []) == sys;
  }

  lemma ByItselfNext(sys: Sys, i: nat, sys': Sys, a: Workers.Action)
    requires ByItself(sys, i, sys') && CanAct(sys', a) && IsOf(a, i)
    ensures ByItself(sys, i, Act(sys', a))
  {
    var actions :| CanActAll(sys, actions) && ActAll(sys, actions) == sys' && forall b | b in actions :: IsOf(b, i);
    ActOneMore(sys, actions, a);
  }

  // ----- Foreign keys -----

  /** The accounts that payments and entries name exist. */
  predicate ForeignKeys(db: Db) {
    && (forall x | x in db.transactions :: x.sender in db.accounts && x.recipient in db.accounts)
    && (forall e | e in db.ledger :: e.account in db.accounts)
  }

  lemma RowKeys(db: Db, t: TxnId)
    requires ForeignKeys(db) && t < |db.transactions|
    ensures db.transactions[t].sender in db.accounts && db.transactions[t].recipient in db.accounts
  {
    assert db.transactions[t] in db.transactions;
  }

  lemma CompensationKeys(db: Db, t: TxnId)
    requires ForeignKeys(db)
    ensures forall e | e in Compensations(db.ledger, t) :: e.account in db.accounts && e.entryType == Credit
  {
    var debits := OriginalDebits(Of(db.ledger, t));
    OfOwned(db.ledger, t);
    DebitsAmong(Of(db.ledger, t));
    forall e | e in Reversals(debits)
      ensures e.account in db.accounts && e.entryType == Credit
    {
      var k :| 0 <= k < |debits| && Reversals(debits)[k] == e;
      assert debits[k] in debits;
    }
  }

  lemma MoveKeepsKeys(db: Db, t: TxnId, es: seq<Entry>, from: Status, to: Status)
    requires ForeignKeys(db) && t < |db.transactions|
    requires forall e | e in es :: e.account in db.accounts
    ensures ForeignKeys(Move(db, t, es, from, to))
  {
    RowKeys(db, t);
  }

  lemma ChargeBackKeepsKeys(db: Db, t: TxnId)
    requires ForeignKeys(db) && t < |db.transactions|
    ensures ForeignKeys(ChargeBack(db, t).0)
  {
    var x := db.transactions[t];
    RowKeys(db, t);
    MoveKeepsKeys(db, t, [], x.status, Reversed);
    MoveKeepsKeys(db, t, Chargeback(t, x), x.status, Reversed);
  }

  lemma RefundKeepsKeys(db: Db, t: TxnId)
    requires ForeignKeys(db)
    ensures ForeignKeys(Refund(db, t).0)
  {
    if t < |db.transactions| {
      ChargeBackKeepsKeys(db, t);
      CompensationKeys(db, t);
      MoveKeepsKeys(db, t, GuardedCompensations(db.ledger, t), db.transactions[t].status, Reversed);
    }
  }

  lemma SettleKeepsKeys(db: Db, key: EventKey)
    requires ForeignKeys(db) && key in db.events
    ensures ForeignKeys(Settle(db, key).0)
  {
    if Settle(db, key).1 == Ok && !key.kind.ProcessingEvent? {
      var t := FindByReference(db.transactions, key.reference).value;
      var x := db.transactions[t];
      RowKeys(db, t);
      CompensationKeys(db, t);
      MoveKeepsKeys(db, t, if key.kind.CompletedEvent? then [Payout(t, x)] else Compensations(db.ledger, t), x.status,
                    key.kind.Target());
    }
  }

  lemma CreateKeepsKeys(db: Db, r: Request)
    requires ForeignKeys(db)
    ensures ForeignKeys(Create(db, r).0)
  {}

  lemma ReferenceKeepsKeys(db: Db, t: TxnId, ref: Ref)
    requires ForeignKeys(db)
    ensures ForeignKeys(AssignReference(db, t, ref).0)
  {
    if t < |db.transactions| {
      RowKeys(db, t);
    }
  }

  lemma StepKeepsKeys(db: Db, op: Op)
    requires ForeignKeys(db) && Enabled(db, op)
    ensures ForeignKeys(Step(db, op))
  {
    match op
    case CreateOp(r) => CreateKeepsKeys(db, r);
    case RefundOp(t) => RefundKeepsKeys(db, t);
    case DisputeOp(t) =>
      if t < |db.transactions| { MoveKeepsKeys(db, t, [], db.transactions[t].status, Disputed); }
    case ResolveOp(t, _) =>
      if t < |db.transactions| {
        ChargeBackKeepsKeys(db, t);
        MoveKeepsKeys(db, t, [], Disputed, Completed);
      }
    case ReceiveOp(_, _) =>
    case SettleOp(key) => SettleKeepsKeys(db, key);
    case RecordErrorOp(_, _) =>
    case DeadLetterOp(t) =>
      if t < |db.transactions| {
        CompensationKeys(db, t);
        MoveKeepsKeys(db, t, GuardedCompensations(db.ledger, t), Processing, Failed);
      }
    case AssignReferenceOp(t, ref) => ReferenceKeepsKeys(db, t, ref);
  }

  lemma AfterKeepsKeys(db: Db, e: Event)
    requires ForeignKeys(db) && Possible(db, e)
    ensures ForeignKeys(After(db, e))
  {
    match e
    case Call(op) => StepKeepsKeys(db, op);
    case DisputeWrite(t) => MoveKeepsKeys(db, t, [], Completed, Disputed);
    case RejectWrite(t) => MoveKeepsKeys(db, t, [], Disputed, Completed);
    case ReferenceWrite(t, ref) => ReferenceKeepsKeys(db, t, ref);
  }

  // ----- Which plans go through -----

  /** Credits to accounts that exist never fail. */
  lemma {:induction false} CreditsSucceed(db: Db, t: TxnId, es: seq<Entry>)
    requires t < |db.transactions|
    requires forall e | e in es :: e.account in db.accounts && e.entryType == Credit
    ensures AllSucceed(db, t, AllWrites(es))
  {
    if es != [] {
      var last := |es| - 1;
      var e, before := es[last], AllWrites(es[..last]);
      assert e in es;
      CreditsSucceed(db, t, es[..last]);
      PerformTwo(db, t, before, Insert(e), Adjust(e.account, e.amount, false));
      assert AllWrites(es) == before + [Insert(e), Adjust(e.account, e.amount, false)];
    }
  }

  lemma ChargebackSucceeds(db: Db, t: TxnId, x: Transaction)
    requires t < |db.transactions| && x.sender in db.accounts && x.recipient in db.accounts
    requires db.accounts[x.recipient].balance >= x.destinationAmount
    ensures AllSucceed(db, t, AllWrites(Chargeback(t, x)))
  {
    var es := Chargeback(t, x);
    assert es[..1] == [es[0]];
    OneEntryWrites(es[0]);
    var first := [Adjust(x.recipient, es[0].amount, true), Insert(es[0])];
    PerformTwo(db, t, [], first[0], first[1]);
    assert [] + first == first;
    PerformTwo(db, t, first, Insert(es[1]), Adjust(x.sender, es[1].amount, false));
    assert AllWrites(es) == first + [Insert(es[1]), Adjust(x.sender, es[1].amount, false)];
  }

  lemma ClosingSucceeds(db: Db, t: TxnId, task: Task, before: seq<Write>, from: Status)
    requires t < |db.transactions| && AllSucceed(db, t, before)
    ensures AllSucceed(db, t, before + Closing(task, t, from))
  {
    var ws := Closing(task, t, from);
    PerformTwo(db, t, before, ws[0], ws[1]);
    if |ws| == 3 {
      PerformPush(db, t, before + [ws[0], ws[1]], ws[2]);
      assert before + ws == before + [ws[0], ws[1]] + [ws[2]];
    } else {
      assert ws == [ws[0], ws[1]];
    }
  }

  /** A plan fails only for want of money to pay back, and then its operation leaves the tables as they are. */
  lemma PlanFails(db: Db, task: Task, t: TxnId)
    requires ForeignKeys(db) && Locks(db, task) == Some(t) && Enabled(db, OpOf(task))
    requires MayProceed(task, db.transactions[t].status) && !AllSucceed(db, t, PlanAt(db, task, t))
    ensures !task.WebhookTask? && Step(db, OpOf(task)) == db && Exec(db, OpOf(task)).1 == Err(InsufficientBalance)
  {
    var x := db.transactions[t];
    var es := PlannedEntries(task, t, x, Of(db.ledger, t), HasBeenReversed(db.ledger, t));
    RowKeys(db, t);
    CompensationKeys(db, t);
    if AllSucceed(db, t, AllWrites(es)) {
      ClosingSucceeds(db, t, task, AllWrites(es), x.status);
      assert false;
    }
    if forall e | e in es :: e.account in db.accounts && e.entryType == Credit {
      CreditsSucceed(db, t, es);
      assert false;
    }
    assert es == Chargeback(t, x);
    if db.accounts[x.recipient].balance >= x.destinationAmount {
      ChargebackSucceeds(db, t, x);
      assert false;
    }
  }

  // ----- A worker left alone -----

  /** Nothing but worker `i` and its locks has changed. */
  predicate Private(sys: Sys, sys': Sys, i: nat)
    requires i < |sys.workers|
  {
    && sys'.db == sys.db && sys'.log == sys.log && |sys'.workers| == |sys.workers|
    && sys'.workers == sys.workers[i := Worker(sys.workers[i].task, sys'.workers[i].phase)]
    && Workers.Release(sys'.rowLocks, i) == Workers.Release(sys.rowLocks, i)
    && Workers.Release(sys'.accountLocks, i) == Workers.Release(sys.accountLocks, i)
  }

  predicate RolledBack(sys: Sys, sys': Sys, i: nat)
    requires i < |sys.workers|
  {
    && Private(sys, sys', i) && sys'.workers[i].phase == Aborted
    && sys'.rowLocks == Workers.Release(sys.rowLocks, i) && sys'.accountLocks == Workers.Release(sys.accountLocks, i)
  }

  /** No other worker holds an account that the statements adjust. */
  predicate Unlocked(sys: Sys, i: nat, ws: seq<Write>) {
    forall w | w in ws && w.Adjust? && w.account in sys.accountLocks :: sys.accountLocks[w.account] == i
  }

  predicate WritingSoFar(sys: Sys, i: nat, t: TxnId, todo: seq<Write>, done: seq<Write>) {
    && i < |sys.workers| && t < |sys.db.transactions| && AllSucceed(sys.db, t, done)
    && sys.workers[i].phase == Writing(t, todo, done, PerformAll(sys.db, t, done))
    && Unlocked(sys, i, todo)
  }

  /** The system after one more statement has gone through. */
  function Written(sys: Sys, i: nat, t: TxnId, todo: seq<Write>, done: seq<Write>): Sys
    requires i < |sys.workers| && t < |sys.db.transactions| && todo != [] && AllSucceed(sys.db, t, done + [todo[0]])
  {
    Become(sys, i, Writing(t, todo[1..], done + [todo[0]], PerformAll(sys.db, t, done + [todo[0]])))
      .(accountLocks := if todo[0].Adjust? then sys.accountLocks[todo[0].account := i] else sys.accountLocks)
  }

  lemma StatementActs(sys: Sys, i: nat, t: TxnId, todo: seq<Write>, done: seq<Write>)
    requires WritingSoFar(sys, i, t, todo, done) && todo != []
    requires Succeeds(sys.db, PerformAll(sys.db, t, done), todo[0])
    ensures CanAct(sys, RunStatement(i)) && AllSucceed(sys.db, t, done + [todo[0]])
    ensures Act(sys, RunStatement(i)) == Written(sys, i, t, todo, done)
  {
    assert todo[0] in todo;
    PerformPush(sys.db, t, done, todo[0]);
  }

  lemma StatementGoesThrough(sys: Sys, i: nat, t: TxnId, todo: seq<Write>, done: seq<Write>)
    requires WritingSoFar(sys, i, t, todo, done) && todo != []
    requires Succeeds(sys.db, PerformAll(sys.db, t, done), todo[0])
    ensures CanAct(sys, RunStatement(i))
    ensures WritingSoFar(Act(sys, RunStatement(i)), i, t, todo[1..], done + [todo[0]])
    ensures Private(sys, Act(sys, RunStatement(i)), i)
  {
    assert todo[0] in todo;
    StatementActs(sys, i, t, todo, done);
    assert forall w | w in todo[1..] :: w in todo;
  }

  lemma SucceededNext(db: Db, t: TxnId, done: seq<Write>, todo: seq<Write>)
    requires t < |db.transactions| && todo != [] && AllSucceed(db, t, done) && AllSucceed(db, t, done + todo)
    ensures Succeeds(db, PerformAll(db, t, done), todo[0])
  {
    PrefixSucceeds(db, t, done + todo, |done| + 1);
    assert (done + todo)[..|done| + 1] == done + [todo[0]];
    PerformPush(db, t, done, todo[0]);
  }

  lemma StatementFails(sys: Sys, i: nat, t: TxnId, todo: seq<Write>, done: seq<Write>)
    requires WritingSoFar(sys, i, t, todo, done) && todo != []
    requires !Succeeds(sys.db, PerformAll(sys.db, t, done), todo[0])
    ensures CanAct(sys, RunStatement(i)) && Act(sys, RunStatement(i)) == LetGo(sys, i, Aborted)
    ensures !AllSucceed(sys.db, t, done + todo)
  {
    assert todo[0] in todo;
    if AllSucceed(sys.db, t, done + todo) {
      SucceededNext(sys.db, t, done, todo);
    }
  }

  lemma PrivateThen(sys: Sys, next: Sys, sys': Sys, i: nat)
    requires i < |sys.workers| && Private(sys, next, i) && Private(next, sys', i)
    ensures Private(sys, sys', i)
    ensures RolledBack(next, sys', i) ==> RolledBack(sys, sys', i)
  {}

  /** A worker runs its statements to the end, or to the first that fails. */
  lemma {:induction false} StatementsRun(start: Sys, sys: Sys, i: nat, t: TxnId, todo: seq<Write>, done: seq<Write>)
    returns (sys': Sys)
    requires ByItself(start, i, sys) && WritingSoFar(sys, i, t, todo, done)
    ensures ByItself(start, i, sys') && Private(sys, sys', i)
    ensures if AllSucceed(sys.db, t, done + todo) then WritingSoFar(sys', i, t, [], done + todo)
            else RolledBack(sys, sys', i)
    decreases |todo|
  {
    if todo == [] {
      sys' := sys;
      assert done + todo == done;
    } else if Succeeds(sys.db, PerformAll(sys.db, t, done), todo[0]) {
      StatementGoesThrough(sys, i, t, todo, done);
      var next := Act(sys, RunStatement(i));
      ByItselfNext(start, i, sys, RunStatement(i));
      assert done + [todo[0]] + todo[1..] == done + todo;
      sys' := StatementsRun(start, next, i, t, todo[1..], done + [todo[0]]);
      PrivateThen(sys, next, sys', i);
    } else {
      StatementFails(sys, i, t, todo, done);
      ByItselfNext(start, i, sys, RunStatement(i));
      sys' := LetGo(sys, i, Aborted);
    }
  }

  /** An idle worker that holds nothing, whose row and accounts nobody has locked. */
  predicate Unhindered(sys: Sys, i: nat) {
    && i < |sys.workers| && sys.workers[i].phase == Idle && Enabled(sys.db, OpOf(sys.workers[i].task))
    && Workers.Release(sys.rowLocks, i) == sys.rowLocks && Workers.Release(sys.accountLocks, i) == sys.accountLocks
    && var t := Locks(sys.db, sys.workers[i].task);
       t.Some? ==>
         && t.value !in sys.rowLocks
         && forall w | w in PlanAt(sys.db, sys.workers[i].task, t.value) && w.Adjust? :: w.account !in sys.accountLocks
  }

  /** A worker's end: everything is as before but the tables, its phase and what it logged. */
  predicate EndedAlone(sys: Sys, sys': Sys, i: nat, db: Db)
    requires i < |sys.workers|
  {
    && sys'.db == db && sys'.workers == sys.workers[i := Worker(sys.workers[i].task, Ended)]
    && sys'.rowLocks == sys.rowLocks && sys'.accountLocks == sys.accountLocks
  }

  /** After a rollback a webhook worker notes the fault and ends; the others just end. */
  lemma RolledBackEnds(start: Sys, sys: Sys, i: nat, fault: Fault) returns (sys': Sys)
    requires Unhindered(start, i) && ByItself(start, i, sys) && RolledBack(start, sys, i)
    ensures ByItself(start, i, sys')
    ensures var task := start.workers[i].task;
            EndedAlone(start, sys', i, if task.WebhookTask? then WithError(start.db, task.key, fault) else start.db)
  {
    if start.workers[i].task.WebhookTask? {
      ByItselfNext(start, i, sys, NoteError(i, fault));
      sys' := Act(sys, NoteError(i, fault));
    } else {
      ByItselfNext(start, i, sys, Abort(i));
      sys' := Act(sys, Abort(i));
    }
  }

  /** The system once worker `i` holds its row and nothing else. */
  predicate HoldsItsRow(sys: Sys, sys': Sys, i: nat, t: TxnId, phase: Phase)
    requires i < |sys.workers|
  {
    sys' == Become(sys, i, phase).(rowLocks := sys.rowLocks[t := i])
  }

  lemma WorkerLocks(sys: Sys, i: nat, t: TxnId) returns (sys': Sys)
    requires Unhindered(sys, i) && Locks(sys.db, sys.workers[i].task) == Some(t)
    ensures ByItself(sys, i, sys') && t < |sys.db.transactions|
    ensures HoldsItsRow(sys, sys', i, t, Locked(t, sys.db.transactions[t]))
  {
    ByItselfStart(sys, i);
    ByItselfNext(sys, i, sys, TakeLock(i));
    sys' := Act(sys, TakeLock(i));
  }

  lemma WorkerAccepts(sys: Sys, locked: Sys, i: nat, t: TxnId) returns (sys': Sys)
    requires i < |sys.workers| && t < |sys.db.transactions| && ByItself(sys, i, locked)
    requires HoldsItsRow(sys, locked, i, t, Locked(t, sys.db.transactions[t]))
    requires MayProceed(sys.workers[i].task, sys.db.transactions[t].status)
    ensures ByItself(sys, i, sys')
    ensures HoldsItsRow(sys, sys', i, t, Checked(t, sys.db.transactions[t], HasBeenReversed(sys.db.ledger, t)))
  {
    ByItselfNext(sys, i, locked, Check(i));
    sys' := Act(locked, Check(i));
  }

  lemma WorkerReads(sys: Sys, checked: Sys, i: nat, t: TxnId) returns (sys': Sys)
    requires i < |sys.workers| && t < |sys.db.transactions| && ByItself(sys, i, checked)
    requires HoldsItsRow(sys, checked, i, t, Checked(t, sys.db.transactions[t], HasBeenReversed(sys.db.ledger, t)))
    ensures ByItself(sys, i, sys')
    ensures HoldsItsRow(sys, sys', i, t, Writing(t, PlanAt(sys.db, sys.workers[i].task, t), [], BLANK))
  {
    ByItselfNext(sys, i, checked, Workers.Read(i));
    sys' := Act(checked, Workers.Read(i));
  }

  lemma ReadyToWrite(sys: Sys, sys': Sys, i: nat, t: TxnId)
    requires Unhindered(sys, i) && Locks(sys.db, sys.workers[i].task) == Some(t)
    requires HoldsItsRow(sys, sys', i, t, Writing(t, PlanAt(sys.db, sys.workers[i].task, t), [], BLANK))
    ensures Private(sys, sys', i) && WritingSoFar(sys', i, t, PlanAt(sys.db, sys.workers[i].task, t), [])
  {}

  /** With its row locked, read and found in order, a worker comes to write. */
  lemma WorkerPrepares(sys: Sys, i: nat, t: TxnId) returns (sys': Sys)
    requires Unhindered(sys, i) && Locks(sys.db, sys.workers[i].task) == Some(t)
    requires MayProceed(sys.workers[i].task, sys.db.transactions[t].status)
    ensures ByItself(sys, i, sys') && Private(sys, sys', i)
    ensures WritingSoFar(sys', i, t, PlanAt(sys.db, sys.workers[i].task, t), [])
  {
    sys' := WorkerLocks(sys, i, t);
    sys' := WorkerAccepts(sys, sys', i, t);
    sys' := WorkerReads(sys, sys', i, t);
    ReadyToWrite(sys, sys', i, t);
  }

  lemma RefusalRollsBack(sys: Sys, locked: Sys, i: nat, t: TxnId) returns (sys': Sys)
    requires Unhindered(sys, i) && t < |sys.db.transactions| && t !in sys.rowLocks && ByItself(sys, i, locked)
    requires HoldsItsRow(sys, locked, i, t, Locked(t, sys.db.transactions[t]))
    requires !MayProceed(sys.workers[i].task, sys.db.transactions[t].status)
    ensures ByItself(sys, i, sys') && RolledBack(sys, sys', i)
  {
    ByItselfNext(sys, i, locked, Check(i));
    sys' := Act(locked, Check(i));
  }

  /** What the status check refuses, the operation refuses too. */
  lemma RefusedOutcome(db: Db, task: Task, t: TxnId)
    requires Locks(db, task) == Some(t) && Enabled(db, OpOf(task)) && !MayProceed(task, db.transactions[t].status)
    ensures Step(db, OpOf(task)) == if task.WebhookTask? then WithError(db, task.key, InvalidTransition) else db
    ensures Exec(db, OpOf(task)).1 != Ok
  {}

  lemma WorkerRefuses(sys: Sys, i: nat, t: TxnId) returns (sys': Sys)
    requires Unhindered(sys, i) && Locks(sys.db, sys.workers[i].task) == Some(t)
    requires !MayProceed(sys.workers[i].task, sys.db.transactions[t].status)
    ensures ByItself(sys, i, sys') && EndedAlone(sys, sys', i, Step(sys.db, OpOf(sys.workers[i].task)))
    ensures Exec(sys.db, OpOf(sys.workers[i].task)).1 != Ok
  {
    sys' := WorkerLocks(sys, i, t);
    sys' := RefusalRollsBack(sys, sys', i, t);
    sys' := RolledBackEnds(sys, sys', i, InvalidTransition);
    RefusedOutcome(sys.db, sys.workers[i].task, t);
  }

  lemma WorkerCommits(sys: Sys, done: Sys, i: nat, t: TxnId) returns (sys': Sys)
    requires Unhindered(sys, i) && Locks(sys.db, sys.workers[i].task) == Some(t)
    requires MayProceed(sys.workers[i].task, sys.db.transactions[t].status)
    requires ByItself(sys, i, done) && Private(sys, done, i)
    requires WritingSoFar(done, i, t, [], PlanAt(sys.db, sys.workers[i].task, t))
    ensures ByItself(sys, i, sys') && EndedAlone(sys, sys', i, Step(sys.db, OpOf(sys.workers[i].task)))
    ensures sys'.log == sys.log + [Call(OpOf(sys.workers[i].task))]
  {
    CommitIsSerial(sys.db, sys.workers[i].task, t);
    ByItselfNext(sys, i, done, Workers.Commit(i));
    sys' := Act(done, Workers.Commit(i));
  }

  lemma WorkerFindsNothing(sys: Sys, i: nat) returns (sys': Sys)
    requires Unhindered(sys, i) && Locks(sys.db, sys.workers[i].task) == None
    ensures ByItself(sys, i, sys') && EndedAlone(sys, sys', i, Step(sys.db, OpOf(sys.workers[i].task)))
    ensures Exec(sys.db, OpOf(sys.workers[i].task)).1 != Ok
  {
    ByItselfStart(sys, i);
    ByItselfNext(sys, i, sys, TakeLock(i));
    sys' := Act(sys, TakeLock(i));
  }

  lemma WorkerProceeds(sys: Sys, i: nat, t: TxnId) returns (sys': Sys)
    requires ForeignKeys(sys.db) && Unhindered(sys, i) && Locks(sys.db, sys.workers[i].task) == Some(t)
    requires MayProceed(sys.workers[i].task, sys.db.transactions[t].status)
    ensures ByItself(sys, i, sys') && EndedAlone(sys, sys', i, Step(sys.db, OpOf(sys.workers[i].task)))
    ensures Exec(sys.db, OpOf(sys.workers[i].task)).1 == Ok ==> sys'.log == sys.log + [Call(OpOf(sys.workers[i].task))]
  {
    var task := sys.workers[i].task;
    var plan := PlanAt(sys.db, task, t);
    var ready := WorkerPrepares(sys, i, t);
    var done := StatementsRun(sys, ready, i, t, plan, []);
    assert [] + plan == plan;
    PrivateThen(sys, ready, done, i);
    if AllSucceed(sys.db, t, plan) {
      sys' := WorkerCommits(sys, done, i, t);
    } else {
      PlanFails(sys.db, task, t);
      sys' := RolledBackEnds(sys, done, i, InsufficientBalance);
    }
  }

  /** A worker whose row and accounts are free does by its own steps exactly what its operation does to the committed
      tables, and ends without its locks. If the operation succeeds it is logged; if not, a webhook leaves its error
      row and any other task the tables as they were. */
  lemma WorkerDoesItsOperation(sys: Sys, i: nat) returns (sys': Sys)
    requires ForeignKeys(sys.db) && Unhindered(sys, i)
    ensures ByItself(sys, i, sys') && EndedAlone(sys, sys', i, Step(sys.db, OpOf(sys.workers[i].task)))
    ensures Exec(sys.db, OpOf(sys.workers[i].task)).1 == Ok ==> sys'.log == sys.log + [Call(OpOf(sys.workers[i].task))]
  {
    match Locks(sys.db, sys.workers[i].task)
    case None => sys' := WorkerFindsNothing(sys, i);
    case Some(t) =>
      if MayProceed(sys.workers[i].task, sys.db.transactions[t].status) {
        sys' := WorkerProceeds(sys, i, t);
      } else {
        sys' := WorkerRefuses(sys, i, t);
      }
  }

  // ----- Every serial run is a concurrent one -----

  /** No locks are held, and every pending event row has its worker waiting. */
  ghost predicate Quiet(sys: Sys) {
    && sys.rowLocks == map[] && sys.accountLocks == map[] && ForeignKeys(sys.db)
    && forall key | key in sys.db.events && sys.db.events[key].Pending() :: Queued(sys, key)
  }

  ghost predicate Queued(sys: Sys, key: EventKey) {
    exists i: nat :: i < |sys.workers| && sys.workers[i] == Worker(WebhookTask(key), Idle)
  }

  /** A step in which no event row becomes pending, and no waiting webhook worker moves but one whose row is worked
      off. */
  lemma StaysQuiet(sys: Sys, sys': Sys, i: nat)
    requires Quiet(sys) && sys'.rowLocks == map[] && sys'.accountLocks == map[] && ForeignKeys(sys'.db)
    requires |sys.workers| <= |sys'.workers|
    requires forall j: nat | j < |sys.workers| && j != i :: sys'.workers[j] == sys.workers[j]
    requires forall key | key in sys'.db.events && sys'.db.events[key].Pending() ::
               && key in sys.db.events && sys.db.events[key].Pending()
               && (i < |sys.workers| ==> sys.workers[i].task != WebhookTask(key))
    ensures Quiet(sys')
  {
    forall key | key in sys'.db.events && sys'.db.events[key].Pending()
      ensures Queued(sys', key)
    {
      assert Queued(sys, key);
      var j: nat :| j < |sys.workers| && sys.workers[j] == Worker(WebhookTask(key), Idle);
      assert sys'.workers[j] == sys.workers[j];
    }
  }

  /** Operations and late writes that are one action. */
  lemma OneActionReached(sys: Sys, a: Workers.Action, e: Event)
    requires Quiet(sys) && CanAct(sys, a) && Possible(sys.db, e)
    requires a == Late(e) || (e.Call? && a == Atomic(e.op))
    requires After(sys.db, e).events == sys.db.events
    ensures Leads(sys, Act(sys, a)) && Quiet(Act(sys, a)) && Act(sys, a).db == After(sys.db, e)
  {
    LeadsStart(sys);
    LeadsNext(sys, sys, a);
    AfterKeepsKeys(sys.db, e);
    StaysQuiet(sys, Act(sys, a), |sys.workers|);
  }

  lemma DeliveryReached(sys: Sys, key: EventKey, signatureValid: bool)
    requires Quiet(sys)
    ensures var sys' := Act(sys, Ingest(key, signatureValid));
            Leads(sys, sys') && Quiet(sys') && sys'.db == Step(sys.db, ReceiveOp(key, signatureValid))
  {
    var sys' := Act(sys, Ingest(key, signatureValid));
    LeadsStart(sys);
    LeadsNext(sys, sys, Ingest(key, signatureValid));
    forall k | k in sys'.db.events && sys'.db.events[k].Pending()
      ensures Queued(sys', k)
    {
      if key !in sys.db.events && k == key {
        assert sys'.workers[|sys.workers|] == Worker(WebhookTask(key), Idle);
      } else {
        assert Queued(sys, k);
        var j: nat :| j < |sys.workers| && sys.workers[j] == Worker(WebhookTask(k), Idle);
        assert sys'.workers[j] == sys.workers[j];
      }
    }
  }

  lemma SpawnedIsUnhindered(sys: Sys, task: Task)
    requires Quiet(sys) && !task.WebhookTask?
    ensures CanAct(sys, Spawn(task)) && Unhindered(Act(sys, Spawn(task)), |sys.workers|)
  {}

  lemma TaskReached(sys: Sys, task: Task) returns (sys': Sys)
    requires Quiet(sys) && !task.WebhookTask?
    ensures Leads(sys, sys') && Quiet(sys') && sys'.db == Step(sys.db, OpOf(task))
  {
    var i := |sys.workers|;
    SpawnedIsUnhindered(sys, task);
    LeadsStart(sys);
    LeadsNext(sys, sys, Spawn(task));
    var spawned := Act(sys, Spawn(task));
    sys' := WorkerDoesItsOperation(spawned, i);
    LeadsByItself(sys, spawned, i, sys');
    StepKeepsKeys(sys.db, OpOf(task));
    TaskKeepsEvents(sys.db, task);
    StaysQuiet(sys, sys', i);
  }

  lemma TaskKeepsEvents(db: Db, task: Task)
    requires !task.WebhookTask?
    ensures Step(db, OpOf(task)).events == db.events
  {}

  lemma SettlementReached(sys: Sys, key: EventKey) returns (sys': Sys)
    requires Quiet(sys) && Enabled(sys.db, SettleOp(key))
    ensures Leads(sys, sys') && Quiet(sys') && sys'.db == Step(sys.db, SettleOp(key))
  {
    assert Queued(sys, key);
    var i: nat :| i < |sys.workers| && sys.workers[i] == Worker(WebhookTask(key), Idle);
    LeadsStart(sys);
    sys' := WorkerDoesItsOperation(sys, i);
    LeadsByItself(sys, sys, i, sys');
    StepKeepsKeys(sys.db, SettleOp(key));
    SettledIsWorkedOff(sys.db, key);
    StaysQuiet(sys, sys', i);
  }

  lemma SettledIsWorkedOff(db: Db, key: EventKey)
    requires Enabled(db, SettleOp(key))
    ensures Settle(db, key).0.events == db.events[key := Settle(db, key).0.events[key]]
    ensures !Settle(db, key).0.events[key].Pending()
  {}

  lemma ErrorNoted(sys: Sys, i: nat, key: EventKey, fault: Fault) returns (sys': Sys)
    requires Quiet(sys) && i < |sys.workers| && sys.workers[i] == Worker(WebhookTask(key), Idle)
    requires Enabled(sys.db, RecordErrorOp(key, fault))
    ensures Leads(sys, sys') && EndedAlone(sys, sys', i, WithError(sys.db, key, fault))
  {
    LeadsStart(sys);
    LeadsNext(sys, sys, Abort(i));
    var aborted := Act(sys, Abort(i));
    LeadsNext(sys, aborted, NoteError(i, fault));
    sys' := Act(aborted, NoteError(i, fault));
  }

  lemma ErrorReached(sys: Sys, key: EventKey, fault: Fault) returns (sys': Sys)
    requires Quiet(sys) && Enabled(sys.db, RecordErrorOp(key, fault))
    ensures Leads(sys, sys') && Quiet(sys') && sys'.db == Step(sys.db, RecordErrorOp(key, fault))
  {
    assert Queued(sys, key);
    var i: nat :| i < |sys.workers| && sys.workers[i] == Worker(WebhookTask(key), Idle);
    sys' := ErrorNoted(sys, i, key, fault);
    StaysQuiet(sys, sys', i);
  }

  /** A late reference is one that no payment carries. */
  predicate NewReference(db: Db, e: Event) {
    e.ReferenceWrite? ==> FindByReference(db.transactions, e.ref) == None
  }

  lemma AtomicReached(sys: Sys, op: Op) returns (sys': Sys)
    requires Quiet(sys) && Enabled(sys.db, op)
    requires op.CreateOp? || op.DisputeOp? || op.AssignReferenceOp? || (op.ResolveOp? && op.action == Reject)
    ensures Leads(sys, sys') && Quiet(sys') && sys'.db == Step(sys.db, op)
  {
    OneActionReached(sys, Atomic(op), Call(op));
    sys' := Act(sys, Atomic(op));
  }

  lemma LateWriteReached(sys: Sys, e: Event) returns (sys': Sys)
    requires Quiet(sys) && Possible(sys.db, e) && NewReference(sys.db, e) && !e.Call?
    ensures Leads(sys, sys') && Quiet(sys') && sys'.db == After(sys.db, e)
  {
    OneActionReached(sys, Late(e), e);
    sys' := Act(sys, Late(e));
  }

  lemma CallReached(sys: Sys, op: Op) returns (sys': Sys)
    requires Quiet(sys) && Enabled(sys.db, op)
    ensures Leads(sys, sys') && Quiet(sys') && sys'.db == Step(sys.db, op)
  {
    match op
    case RefundOp(t) => sys' := TaskReached(sys, RefundTask(t));
    case DeadLetterOp(t) => sys' := TaskReached(sys, DeadLetterTask(t));
    case ResolveOp(t, action) =>
      if action == Reverse {
        sys' := TaskReached(sys, ReverseTask(t));
      } else {
        sys' := AtomicReached(sys, op);
      }
    case ReceiveOp(key, signatureValid) =>
      DeliveryReached(sys, key, signatureValid);
      sys' := Act(sys, Ingest(key, signatureValid));
    case SettleOp(key) => sys' := SettlementReached(sys, key);
    case RecordErrorOp(key, fault) => sys' := ErrorReached(sys, key, fault);
    case _ => sys' := AtomicReached(sys, op);
  }

  lemma EventReached(sys: Sys, e: Event) returns (sys': Sys)
    requires Quiet(sys) && Possible(sys.db, e) && NewReference(sys.db, e)
    ensures Leads(sys, sys') && Quiet(sys') && sys'.db == After(sys.db, e)
  {
    if e.Call? {
      sys' := CallReached(sys, e.op);
    } else {
      sys' := LateWriteReached(sys, e);
    }
  }

  predicate NewReferences(db: Db, events: seq<Event>)
    requires PossibleAll(db, events)
    decreases |events|
  {
    events != [] ==> NewReference(db, events[0]) && NewReferences(After(db, events[0]), events[1..])
  }

  lemma {:induction false} RunReached(origin: Sys, sys: Sys, events: seq<Event>) returns (sys': Sys)
    requires Leads(origin, sys) && Quiet(sys) && PossibleAll(sys.db, events) && NewReferences(sys.db, events)
    ensures Leads(origin, sys') && sys'.db == AfterAll(sys.db, events)
    decreases |events|
  {
    if events == [] {
      sys' := sys;
    } else {
      var next := EventReached(sys, events[0]);
      var actions :| CanActAll(sys, actions) && ActAll(sys, actions) == next;
      LeadsAll(origin, sys, actions);
      sys' := RunReached(origin, next, events[1..]);
    }
  }

  /** What serial runs commit, late writes included, concurrent runs can commit too; so the committed databases of the
      workers are those of the serial runs and no fewer. */
  lemma SerialRunsAreConcurrent(limits: Limits, accounts: map<AccountId, Account>, events: seq<Event>)
    requires PossibleAll(Seeded(limits, accounts), events) && NewReferences(Seeded(limits, accounts), events)
    ensures exists actions ::
              && CanActAll(Start(Seeded(limits, accounts)), actions)
              && ActAll(Start(Seeded(limits, accounts)), actions).db == AfterAll(Seeded(limits, accounts), events)
  {
    var start := Start(Seeded(limits, accounts));
    LeadsStart(start);
    var sys' := RunReached(start, start, events);
    var actions :| CanActAll(start, actions) && ActAll(start, actions) == sys';
  }
}
