/** The services as they run: statements on mutable tables inside database transactions that roll back when one throws.
    Each method is proved equal to its specification in Operations.dfy. */
module Store {
  import opened Tables
  import opened Operations
  import Fx
  import Terms

  /** A job of the provider queue; `attempts` may be left out of its options. */
  datatype Job = Job(txn: TxnId, attemptsMade: nat, attempts: Option<nat>)

  /** Three attempts unless the job says otherwise. */
  function AttemptsAllowed(job: Job): nat {
    if job.attempts.Some? then job.attempts.value else 3
  }

  lemma PostNext(s: Db, es: seq<Entry>, k: nat)
    requires k < |es|
    ensures Append(Append(s, es[..k]), [es[k]]) == Append(s, es[..k + 1])
  {
    AppendTwice(s, es[..k], [es[k]]);
    assert es[..k + 1] == es[..k] + [es[k]];
  }

  lemma ChargebackInTwo(s: Db, t: TxnId, x: Transaction)
    ensures Append(Append(s, [Chargeback(t, x)[0]]), [Chargeback(t, x)[1]]) == Append(s, Chargeback(t, x))
  {
    AppendTwice(s, [Chargeback(t, x)[0]], [Chargeback(t, x)[1]]);
    assert [Chargeback(t, x)[0]] + [Chargeback(t, x)[1]] == Chargeback(t, x);
  }

  class Store {
    const limits: Limits
    var accounts: map<AccountId, Account>
    var transactions: seq<Transaction>
    var ledger: seq<Entry>
    var history: seq<HistoryRow>
    var events: map<EventKey, EventRow>

    constructor (limits: Limits, accounts: map<AccountId, Account>)
      ensures Contents() == Seeded(limits, accounts)
    {
      this.limits, this.accounts := limits, accounts;
      transactions, ledger, history, events := [], [], [], map[];
    }

    function Contents(): Db
      reads this
    {
      Db(limits, accounts, transactions, ledger, history, events)
    }

    /** Ends a database transaction by discarding what it wrote. */
    method Rollback(saved: Db)
      requires saved.limits == limits
      modifies this
      ensures Contents() == saved
    {
      accounts, transactions, ledger, history, events :=
        saved.accounts, saved.transactions, saved.ledger, saved.history, saved.events;
    }

    // ----- The ledger service -----

    method Debit(account: AccountId, amount: nat, t: TxnId) returns (reply: Reply)
      modifies this`accounts, this`ledger
      ensures account !in old(accounts) ==> reply == Err(NotFound)
      ensures account in old(accounts) && old(accounts)[account].balance < amount ==> reply == Err(InsufficientBalance)
      ensures reply != Ok ==> Contents() == old(Contents())
      ensures account in old(accounts) && old(accounts)[account].balance >= amount ==>
                && reply == Ok
                && Contents() == Append(old(Contents()), [Entry(t, account, -(amount as int), EntryType.Debit, false)])
    {
      if account !in accounts {
        return Err(NotFound);
      }
      var row := accounts[account];
      if row.balance < amount {
        return Err(InsufficientBalance);
      }
      ghost var entry := Entry(t, account, -(amount as int), EntryType.Debit, false);
      forall a { SumOne(entry, a); }
      accounts := accounts[account := row.(balance := row.balance - amount)];
      assert accounts == Post(old(accounts), [entry]);
      ledger := ledger + [Entry(t, account, -(amount as int), EntryType.Debit, false)];
      return Ok;
    }

    /** The UPDATE behind every credit: no row, no effect. */
    method Increase(account: AccountId, amount: nat, ghost entry: Entry)
      requires entry.account == account && entry.amount == amount
      modifies this`accounts
      ensures accounts == Post(old(accounts), [entry])
    {
      forall a { SumOne(entry, a); }
      if account in accounts {
        accounts := accounts[account := accounts[account].(balance := accounts[account].balance + amount)];
      }
    }

    method Credit(account: AccountId, amount: nat, t: TxnId) returns (reply: Reply)
      modifies this`accounts, this`ledger
      ensures account !in old(accounts) ==> reply == Err(NotFound) && Contents() == old(Contents())
      ensures account in old(accounts) ==>
                && reply == Ok
                && Contents() == Append(old(Contents()), [Entry(t, account, amount, EntryType.Credit, false)])
    {
      if account !in accounts {
        return Err(NotFound);
      }
      var entry := Entry(t, account, amount, EntryType.Credit, false);
      ledger := ledger + [entry];
      Increase(account, amount, entry);
      return Ok;
    }

    method CreateCompensatingEntries(t: TxnId)
      modifies this`accounts, this`ledger
      ensures Contents() == Append(old(Contents()), Compensations(old(ledger), t))
    {
      var originalDebits := OriginalDebits(Of(ledger, t));
      ghost var all := Reversals(originalDebits);
      AppendNothing(Contents());
      for i := 0 to |originalDebits|
        invariant Contents() == Append(old(Contents()), all[..i])
      {
        var debit := originalDebits[i];
        var reversalAmount := Magnitude(debit.amount);
        var entry := Entry(debit.txn, debit.account, reversalAmount, EntryType.Credit, true);
        PostNext(old(Contents()), all, i);
        ledger := ledger + [entry];
        Increase(debit.account, reversalAmount, entry);
      }
      assert all[..|originalDebits|] == all;
    }

    // ----- The payments service -----

    method CreatePayment(r: Request) returns (reply: Reply)
      modifies this
      ensures (Contents(), reply) == Create(old(Contents()), r)
      ensures reply.Err? ==> Contents() == old(Contents())
    {
      if r.amount <= 0 || r.sender == r.recipient {
        return Err(BadRequest);
      }
      if r.accountBusy {
        return Err(Busy);
      }
      if r.sender !in accounts {
        return Err(NotFound);
      }
      if accounts[r.sender].currency != r.sourceCurrency {
        return Err(CurrencyMismatch);
      }
      if r.recipient !in accounts {
        return Err(NotFound);
      }
      if accounts[r.recipient].currency != r.destinationCurrency {
        return Err(CurrencyMismatch);
      }
      if r.amount > limits.maxPerTransaction {
        return Err(AmountTooLarge);
      }
      var startOfToday := StartOfDay(r.now);
      if CountSince(transactions, r.sender, startOfToday) >= limits.maxCountPerDay {
        return Err(DailyCountReached);
      }
      if VolumeSince(transactions, r.sender, startOfToday) + r.amount > limits.maxVolumePerDay {
        return Err(DailyVolumeExceeded);
      }
      var rate := Fx.Rate(r.sourceCurrency, r.destinationCurrency);
      if rate == None {
        return Err(UnsupportedPair);
      }
      if r.quoteExpired {
        return Err(QuoteExpired);
      }
      reply := InsertAndFreeze(r, rate.value);
    }

    /** Inserts the payment and takes its funds; a failed debit removes the row again. */
    method InsertAndFreeze(r: Request, rate: nat) returns (reply: Reply)
      requires r.amount > 0 && r.sender in accounts
      modifies this
      ensures reply == if old(accounts)[r.sender].balance < r.amount then Err(InsufficientBalance) else Ok
      ensures reply.Err? ==> Contents() == old(Contents())
      ensures reply == Ok ==> Contents() == Created(old(Contents()), NewTransaction(r, rate, Processing))
    {
      var saved := Contents();
      var t := |transactions|;
      transactions := transactions + [NewTransaction(r, rate, Initiated)];
      history := history + [HistoryRow(t, None, Initiated)];
      reply := Debit(r.sender, r.amount, t);
      if reply != Ok {
        Rollback(saved);
        return;
      }
      transactions := transactions[t := transactions[t].(status := Processing)];
      history := history + [HistoryRow(t, Some(Initiated), Processing)];
      assert transactions == saved.transactions + [NewTransaction(r, rate, Processing)];
      assert history == saved.history + [HistoryRow(t, None, Initiated), HistoryRow(t, Some(Initiated), Processing)];
    }

    /** Sets a status and records the change. */
    method SetStatus(t: TxnId, from: Status, to: Status)
      requires t < |transactions|
      modifies this`transactions, this`history
      ensures transactions == old(transactions)[t := old(transactions)[t].(status := to)]
      ensures history == old(history) + [HistoryRow(t, Some(from), to)]
    {
      transactions := transactions[t := transactions[t].(status := to)];
      history := history + [HistoryRow(t, Some(from), to)];
    }

    /** Debits the recipient and credits the sender; if the second throws, the first is undone. */
    method WriteChargeback(t: TxnId, x: Transaction) returns (reply: Reply)
      modifies this
      ensures reply == if x.recipient !in old(accounts) then Err(NotFound)
                       else if old(accounts)[x.recipient].balance < x.destinationAmount then Err(InsufficientBalance)
                       else if x.sender !in old(accounts) then Err(NotFound) else Ok
      ensures Contents() == if reply == Ok then Append(old(Contents()), Chargeback(t, x)) else old(Contents())
    {
      var saved := Contents();
      reply := Debit(x.recipient, x.destinationAmount, t);
      if reply != Ok {
        return;
      }
      ghost var debited := Append(saved, [Chargeback(t, x)[0]]);
      assert Contents() == debited && debited.accounts.Keys == saved.accounts.Keys;
      reply := Credit(x.sender, x.sourceAmount, t);
      if reply != Ok {
        Rollback(saved);
        return;
      }
      assert Contents() == Append(debited, [Chargeback(t, x)[1]]);
      ChargebackInTwo(saved, t, x);
    }

    /** The chargeback branch shared by a refund and a reversed dispute. */
    method ChargeBackLocked(t: TxnId) returns (reply: Reply)
      requires t < |transactions|
      modifies this
      ensures (Contents(), reply) == ChargeBack(old(Contents()), t)
    {
      var current := transactions[t];
      AppendNothing(Contents());
      if !HasBeenReversed(ledger, t) {
        reply := WriteChargeback(t, current);
        if reply != Ok {
          return;
        }
      }
      SetStatus(t, current.status, Reversed);
      reply := Ok;
    }

    /** Time passes between two statements of a call: other operations commit. */
    method Elapse(others: seq<Op>)
      requires EnabledRun(Contents(), others)
      modifies this
      ensures Contents() == Run(old(Contents()), others)
      ensures |old(transactions)| <= |transactions|
    {
      Terms.RunEvolves(Contents(), others);
      var now := Run(Contents(), others);
      accounts, transactions, ledger, history, events :=
        now.accounts, now.transactions, now.ledger, now.history, now.events;
    }

    /** A refund under its row lock, where the transition is checked again. */
    method RefundLocked(t: TxnId) returns (reply: Reply)
      requires t < |transactions|
      modifies this
      ensures (Contents(), reply) == Refund(old(Contents()), t)
    {
      var current := transactions[t];
      if !ValidTransition(current.status, Reversed) {
        return Err(InvalidTransition);
      }
      if current.status == Completed {
        reply := ChargeBackLocked(t);
      } else {
        AppendNothing(Contents());
        if !HasBeenReversed(ledger, t) {
          CreateCompensatingEntries(t);
        }
        SetStatus(t, current.status, Reversed);
        reply := Ok;
      }
    }

    /** Whether an unlocked check lets a change of status pass. */
    predicate MayMove(t: TxnId, to: Status)
      reads this
    {
      t < |transactions| && ValidTransition(transactions[t].status, to)
    }

    /** `lockFree`: whether the Redis lock of this refund could be taken; `others`: what commits between the unlocked
        check and the row lock. */
    method RefundPayment(t: TxnId, lockFree: bool, others: seq<Op>) returns (reply: Reply)
      requires EnabledRun(Contents(), others)
      modifies this
      ensures !old(MayMove(t, Reversed)) || !lockFree ==> reply.Err? && Contents() == old(Contents())
      ensures old(MayMove(t, Reversed)) && lockFree ==> (Contents(), reply) == Refund(Run(old(Contents()), others), t)
      ensures others == [] && lockFree ==> (Contents(), reply) == Refund(old(Contents()), t)
      ensures reply.Err? && others == [] ==> Contents() == old(Contents())
    {
      if t >= |transactions| {
        return Err(NotFound);
      }
      if !ValidTransition(transactions[t].status, Reversed) {
        return Err(InvalidTransition);
      }
      if !lockFree {
        return Err(Busy);
      }
      Elapse(others);
      reply := RefundLocked(t);
    }

    /** `others`: what commits between the unlocked check and the write, which does not look at the row again. */
    method RaiseDispute(t: TxnId, others: seq<Op>) returns (reply: Reply)
      requires EnabledRun(Contents(), others)
      modifies this
      ensures reply == Operations.RaiseDispute(old(Contents()), t).1
      ensures reply.Err? ==> Contents() == old(Contents())
      ensures reply == Ok ==> t < |Run(old(Contents()), others).transactions|
      ensures reply == Ok ==> Contents() == Move(Run(old(Contents()), others), t, [], Completed, Disputed)
      ensures others == [] ==> Contents() == Operations.RaiseDispute(old(Contents()), t).0
    {
      if t >= |transactions| {
        return Err(NotFound);
      }
      var status := transactions[t].status;
      if !ValidTransition(status, Disputed) {
        return Err(InvalidTransition);
      }
      Elapse(others);
      AppendNothing(Contents());
      SetStatus(t, status, Disputed);
      reply := Ok;
    }

    /** A reversal under its row lock, where the transition is checked again. */
    method ReverseLocked(t: TxnId) returns (reply: Reply)
      requires t < |transactions|
      modifies this
      ensures (Contents(), reply) == Operations.ResolveDispute(old(Contents()), t, Reverse)
    {
      if !ValidTransition(transactions[t].status, Reversed) {
        return Err(InvalidTransition);
      }
      reply := ChargeBackLocked(t);
    }

    /** `others`: what commits between the unlocked check and the transaction. A reversal checks again under its row
        lock; a rejection only writes. */
    method ResolveDispute(t: TxnId, action: Action, lockFree: bool, others: seq<Op>) returns (reply: Reply)
      requires EnabledRun(Contents(), others)
      modifies this
      ensures !old(MayMove(t, if action == Reverse then Reversed else Completed)) ==>
                reply.Err? && Contents() == old(Contents())
      ensures action == Reverse && !lockFree ==>
                reply.Err? && Contents() == old(Contents())
      ensures old(MayMove(t, Reversed)) && action == Reverse && lockFree ==>
                (Contents(), reply) == Operations.ResolveDispute(Run(old(Contents()), others), t, Reverse)
      ensures old(MayMove(t, Completed)) && action == Reject ==>
                && reply == Ok && t < |Run(old(Contents()), others).transactions|
                && Contents() == Move(Run(old(Contents()), others), t, [], Disputed, Completed)
      ensures others == [] && (lockFree || action == Reject) ==>
                (Contents(), reply) == Operations.ResolveDispute(old(Contents()), t, action)
    {
      if t >= |transactions| {
        return Err(NotFound);
      }
      if !ValidTransition(transactions[t].status, if action == Reverse then Reversed else Completed) {
        return Err(InvalidTransition);
      }
      if action == Reverse {
        if !lockFree {
          return Err(Busy);
        }
        Elapse(others);
        reply := ReverseLocked(t);
      } else {
        Elapse(others);
        AppendNothing(Contents());
        SetStatus(t, Disputed, Completed);
        reply := Ok;
      }
    }

    // ----- The webhook worker -----

    method ProcessWebhook(key: EventKey, signatureValid: bool) returns (reply: Reply)
      modifies this
      ensures (Contents(), reply) == Operations.ProcessWebhook(old(Contents()), key, signatureValid)
      ensures reply.Err? ==> key !in old(events)
      ensures reply.Err? ==>
                && Contents() == old(Contents()).(events := events)
                && events == old(events)[key := EventRow(true, false, Some(reply.fault))]
    {
      if key in events {
        return Ignored;
      }
      events := events[key := EventRow(signatureValid, false, None)];
      if !signatureValid {
        events := events[key := events[key].(error := Some(BadSignature))];
        assert events == old(events)[key := EventRow(false, false, Some(BadSignature))];
        return Ignored;
      }
      var saved := Contents();
      reply := SettleLocked(key);
      match reply
      case Err(fault) =>
        Rollback(saved);
        events := events[key := events[key].(error := Some(fault))];
      case _ =>
    }

    /** The body of the webhook's database transaction; when it throws, what it wrote is left to the caller to roll
        back. */
    method SettleLocked(key: EventKey) returns (reply: Reply)
      requires key in events
      modifies this
      ensures reply == Settle(old(Contents()), key).1
      ensures !reply.Err? ==> Contents() == Settle(old(Contents()), key).0
      ensures reply.Err? ==> Settle(old(Contents()), key).0 == WithError(old(Contents()), key, reply.fault)
    {
      var found := FindByReference(transactions, key.reference);
      if found == None {
        events := events[key := events[key].(error := Some(UnknownReference))];
        return Ignored;
      }
      var t := found.value;
      var transaction := transactions[t];
      if !ValidTransition(transaction.status, key.kind.Target()) {
        return Err(InvalidTransition);
      }
      match key.kind {
        case CompletedEvent =>
          reply := Credit(transaction.recipient, transaction.destinationAmount, t);
          if reply != Ok {
            return;
          }
          transactions := transactions[t := transaction.(status := Completed)];
        case FailedEvent =>
          CreateCompensatingEntries(t);
          transactions := transactions[t := transaction.(status := Failed)];
        case ProcessingEvent =>
      }
      history := history + [HistoryRow(t, Some(transaction.status), key.kind.Target())];
      events := events[key := events[key].(processed := true)];
      reply := Ok;
    }

    // ----- The queue workers -----

    /** A job that says how many attempts it is allowed, or else three, fails its payment once it has made them. */
    method OnProviderJobExhausted(job: Option<Job>) returns (reply: Reply)
      modifies this
      ensures job == None ==> Contents() == old(Contents()) && reply == Ignored
      ensures forall t, made, n | job == Some(Job(t, made, Some(n))) ::
                if made < n then Contents() == old(Contents()) && reply == Ignored
                else (Contents(), reply) == DeadLetter(old(Contents()), t)
      ensures forall t, made | job == Some(Job(t, made, None)) ::
                if made < 3 then Contents() == old(Contents()) && reply == Ignored
                else (Contents(), reply) == DeadLetter(old(Contents()), t)
    {
      if job == None || job.value.attemptsMade < AttemptsAllowed(job.value) {
        return Ignored;
      }
      var t := job.value.txn;
      if t >= |transactions| || transactions[t].status != Processing {
        return Ignored;
      }
      AppendNothing(Contents());
      var alreadyReversed := HasBeenReversed(ledger, t);
      if !alreadyReversed {
        CreateCompensatingEntries(t);
      }
      SetStatus(t, Processing, Failed);
      reply := Ok;
    }

    /** Whether a job still has something to submit. */
    predicate Submittable(t: TxnId)
      reads this
    {
      t < |transactions| && transactions[t].status == Processing && transactions[t].reference == None
    }

    /** The provider worker: `answer` is the provider's reference, or none if its call throws, and `others` what commits
        until then; the write does not look at the row again. */
    method SubmitToProvider(t: TxnId, answer: Option<Ref>, others: seq<Op>) returns (reply: Reply)
      requires EnabledRun(Contents(), others)
      modifies this
      ensures reply == Ignored
              <==> !(t < |old(transactions)| && old(transactions)[t].status == Processing &&
                     old(transactions)[t].reference == None)
      ensures !old(Submittable(t)) ==> reply == Ignored && Contents() == old(Contents())
      ensures old(Submittable(t)) && answer == None ==>
                reply == Err(ProviderFailed) && Contents() == Run(old(Contents()), others)
      ensures old(Submittable(t)) && answer.Some? ==>
                reply == Ok && Contents() == AssignReference(Run(old(Contents()), others), t, answer.value).0
    {
      if t >= |transactions| || transactions[t].status != Processing || transactions[t].reference.Some? {
        return Ignored;
      }
      Elapse(others);
      if answer == None {
        return Err(ProviderFailed);
      }
      transactions := transactions[t := transactions[t].(reference := answer)];
      reply := Ok;
    }
  }
}
