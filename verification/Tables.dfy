/** The rows PayRoute keeps in PostgreSQL, as values, and how a list of ledger entries moves balances.
    Amounts are integers in units of 10^-8, the scale of every NUMERIC column. */
module Tables {

  datatype Option<+T> = None | Some(value: T)

  type AccountId = nat
  type TxnId = nat      // a transaction's UUID, as its row number in insertion order
  type Ref = nat        // a provider reference

  datatype Account = Account(currency: string, balance: int)

  datatype Status = Initiated | Processing | Completed | Failed | Reversed | Disputed

  datatype Transaction = Transaction(
    sender: AccountId, recipient: AccountId,
    sourceCurrency: string, destinationCurrency: string,
    sourceAmount: nat, destinationAmount: nat, rate: nat,
    status: Status, reference: Option<Ref>, createdAt: nat)

  datatype EntryType = Debit | Credit

  datatype Entry = Entry(txn: TxnId, account: AccountId, amount: int, entryType: EntryType, isReversal: bool)

  datatype HistoryRow = HistoryRow(txn: TxnId, from: Option<Status>, to: Status)

  datatype Fault =
    | NotFound | InvalidTransition | InsufficientBalance | CurrencyMismatch | AmountTooLarge
    | DailyCountReached | DailyVolumeExceeded | UnsupportedPair | QuoteExpired | Busy | BadRequest
    | BadSignature | UnknownReference | ProviderFailed

  datatype EventKind = CompletedEvent | FailedEvent | ProcessingEvent {
    function Target(): Status {
      match this
      case CompletedEvent => Completed
      case FailedEvent => Failed
      case ProcessingEvent => Processing
    }
  }

  /** The unique key of `webhook_events`. */
  datatype EventKey = EventKey(reference: Ref, kind: EventKind)

  datatype EventRow = EventRow(signatureValid: bool, processed: bool, error: Option<Fault>) {
    /** The state of a row between its insertion and the end of its processing. */
    predicate Pending() { signatureValid && !processed && error == None }
  }

  datatype Limits = Limits(maxPerTransaction: nat, maxCountPerDay: nat, maxVolumePerDay: nat)

  datatype Db = Db(
    limits: Limits,
    accounts: map<AccountId, Account>,
    transactions: seq<Transaction>,
    ledger: seq<Entry>,
    history: seq<HistoryRow>,
    events: map<EventKey, EventRow>)

  // ----- Selections by transaction -----

  /** The ledger entries of one transaction, in insertion order. */
  function Of(ledger: seq<Entry>, t: TxnId): seq<Entry>
  {
    if ledger == [] then [] else
      var last := |ledger| - 1;
      Of(ledger[..last], t) + if ledger[last].txn == t then [ledger[last]] else []
  }

  /** The history rows of one transaction, in insertion order. */
  function HistoryOf(history: seq<HistoryRow>, t: TxnId): seq<HistoryRow>
  {
    if history == [] then [] else
      var last := |history| - 1;
      HistoryOf(history[..last], t) + if history[last].txn == t then [history[last]] else []
  }

  lemma {:induction false} OfOwned(ledger: seq<Entry>, t: TxnId)
    ensures forall e | e in Of(ledger, t) :: e in ledger && e.txn == t
  {
    if ledger != [] {
      OfOwned(ledger[..|ledger| - 1], t);
      assert ledger[|ledger| - 1] in ledger;
    }
  }

  lemma {:induction false} OfAppend(ledger: seq<Entry>, es: seq<Entry>, t: TxnId)
    ensures Of(ledger + es, t) == Of(ledger, t) + Of(es, t)
  {
    if es == [] {
      assert ledger + es == ledger;
    } else {
      var last := |es| - 1;
      assert (ledger + es)[..|ledger + es| - 1] == ledger + es[..last];
      OfAppend(ledger, es[..last], t);
    }
  }

  /** Selecting from entries that all belong to one transaction gives all of them, or none. */
  lemma {:induction false} OfOwn(es: seq<Entry>, owner: TxnId, t: TxnId)
    requires forall e | e in es :: e.txn == owner
    ensures Of(es, t) == if t == owner then es else []
  {
    if es != [] {
      var last := |es| - 1;
      OfOwn(es[..last], owner, t);
      assert es == es[..last] + [es[last]];
    }
  }

  lemma {:induction false} HistoryOfAppend(history: seq<HistoryRow>, rows: seq<HistoryRow>, t: TxnId)
    ensures HistoryOf(history + rows, t) == HistoryOf(history, t) + HistoryOf(rows, t)
  {
    if rows == [] {
      assert history + rows == history;
    } else {
      var last := |rows| - 1;
      assert (history + rows)[..|history + rows| - 1] == history + rows[..last];
      HistoryOfAppend(history, rows[..last], t);
    }
  }

  lemma {:induction false} HistoryOfOwn(rows: seq<HistoryRow>, owner: TxnId, t: TxnId)
    requires forall h | h in rows :: h.txn == owner
    ensures HistoryOf(rows, t) == if t == owner then rows else []
  {
    if rows != [] {
      var last := |rows| - 1;
      HistoryOfOwn(rows[..last], owner, t);
      assert rows == rows[..last] + [rows[last]];
    }
  }

  /** What is appended for one transaction does not show in the selections of the others. */
  lemma EntriesSelect(ledger: seq<Entry>, es: seq<Entry>, owner: TxnId, t: TxnId)
    requires forall e | e in es :: e.txn == owner
    ensures Of(ledger + es, t) == if t == owner then Of(ledger, t) + es else Of(ledger, t)
  {
    OfAppend(ledger, es, t);
    OfOwn(es, owner, t);
  }

  lemma RowsSelect(history: seq<HistoryRow>, rows: seq<HistoryRow>, owner: TxnId, t: TxnId)
    requires forall h | h in rows :: h.txn == owner
    ensures HistoryOf(history + rows, t) == if t == owner then HistoryOf(history, t) + rows else HistoryOf(history, t)
  {
    HistoryOfAppend(history, rows, t);
    HistoryOfOwn(rows, owner, t);
  }

  /** Nothing is selected for a transaction that owns nothing. */
  lemma {:induction false} OfNone(ledger: seq<Entry>, t: TxnId)
    requires forall e | e in ledger :: e.txn != t
    ensures Of(ledger, t) == []
  {
    if ledger != [] {
      OfNone(ledger[..|ledger| - 1], t);
    }
  }

  lemma {:induction false} HistoryOfNone(history: seq<HistoryRow>, t: TxnId)
    requires forall h | h in history :: h.txn != t
    ensures HistoryOf(history, t) == []
  {
    if history != [] {
      HistoryOfNone(history[..|history| - 1], t);
    }
  }

  // ----- Sums -----

  function AmountOn(e: Entry, a: AccountId): int {
    if e.account == a then e.amount else 0
  }

  /** The sum of the amounts that entries carry for an account. */
  function Sum(es: seq<Entry>, a: AccountId): int {
    if es == [] then 0 else Sum(es[..|es| - 1], a) + AmountOn(es[|es| - 1], a)
  }

  lemma {:induction false} SumAppend(xs: seq<Entry>, ys: seq<Entry>, a: AccountId)
    ensures Sum(xs + ys, a) == Sum(xs, a) + Sum(ys, a)
  {
    if ys == [] {
      assert xs + ys == xs;
    } else {
      var last := |ys| - 1;
      assert (xs + ys)[..|xs + ys| - 1] == xs + ys[..last];
      SumAppend(xs, ys[..last], a);
    }
  }

  lemma SumOne(x: Entry, a: AccountId)
    ensures Sum([x], a) == AmountOn(x, a)
  {
    assert [x][..0] == [];
  }

  lemma SumTwo(x: Entry, y: Entry, a: AccountId)
    ensures Sum([x, y], a) == AmountOn(x, a) + AmountOn(y, a)
  {
    assert [x, y][..1] == [x];
    SumOne(x, a);
  }

  /** What `UPDATE accounts SET balance = balance + amount` leaves after one statement per entry. */
  function Post(accounts: map<AccountId, Account>, es: seq<Entry>): (r: map<AccountId, Account>)
    ensures r.Keys == accounts.Keys
    ensures forall a | a in r :: r[a].currency == accounts[a].currency
  {
    map a | a in accounts :: accounts[a].(balance := accounts[a].balance + Sum(es, a))
  }

  lemma PostNothing(accounts: map<AccountId, Account>)
    ensures Post(accounts, []) == accounts
  {}

  lemma PostAppend(accounts: map<AccountId, Account>, xs: seq<Entry>, ys: seq<Entry>)
    ensures Post(accounts, xs + ys) == Post(Post(accounts, xs), ys)
  {
    forall a | a in accounts
      ensures Post(accounts, xs + ys)[a] == Post(Post(accounts, xs), ys)[a]
    {
      SumAppend(xs, ys, a);
    }
  }
}
