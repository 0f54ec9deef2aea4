/** The stripped tracker, simple.py: no starting balance and no category, a
    timestamped note per record, and a history shown in insertion order.

    Unlike money.py, loading does not fill in a missing `transactions` key, and
    every later use indexes it directly; a document without it makes each
    operation end in `KeyError`, modelled as an outcome. */
module Simple {
  import opened Wrappers
  import Money

  /** One record: `date` is the `%Y-%m-%d %H:%M` timestamp taken when it was added. */
  datatype Txn = Txn(date: string, kind: string, amount: real, note: string)

  /** The JSON document; only its `transactions` key is ever read. */
  datatype Data = Data(transactions: Option<seq<Txn>>)

  /** `Unreadable` is the case `load_data` catches: opening or reading raised
      `OSError`, or the text is not JSON (`JSONDecodeError`). */
  datatype Stored = Absent | Unreadable | Parsed(doc: Data)

  /** The `KeyError` of `data["transactions"]` on a document without that key. */
  datatype Fault = MissingTransactionsKey

  /** How an add ended: appended, refused, or stopped by a fault. */
  datatype Outcome = Added | NonPositiveAmount | Failed(fault: Fault)

  datatype Step = Step(data: Data, outcome: Outcome)

  const DefaultIncomeNote: string := "Income"
  const DefaultExpenseNote: string := "Expense"

  /** `load_data`: an absent or unreadable file gives an empty list; a parsed
      document is used exactly as read, with no defaulting. */
  function Load(s: Stored): (d: Data)
    ensures !s.Parsed? ==> d.transactions == Some([])
    ensures s.Parsed? ==> d == s.doc
  {
    match s
    case Parsed(doc) => doc
    case _ => Data(Some([]))
  }

  /** Total of the records of type "IN". */
  function IncomeTotal(ts: seq<Txn>): real {
    if |ts| == 0 then 0.0
    else (if ts[0].kind == "IN" then ts[0].amount else 0.0) + IncomeTotal(ts[1..])
  }

  /** Total of all other records, whatever their type says. */
  function SpentTotal(ts: seq<Txn>): real {
    if |ts| == 0 then 0.0
    else (if ts[0].kind == "IN" then 0.0 else ts[0].amount) + SpentTotal(ts[1..])
  }

  /** The balance rule of this variant: incomes minus everything else, from zero. */
  function Balance(ts: seq<Txn>): real {
    IncomeTotal(ts) - SpentTotal(ts)
  }

  lemma {:induction false} TotalsAppend(s: seq<Txn>, t: seq<Txn>)
    ensures IncomeTotal(s + t) == IncomeTotal(s) + IncomeTotal(t)
    ensures SpentTotal(s + t) == SpentTotal(s) + SpentTotal(t)
  {
    if |s| == 0 {
      assert s + t == t;
    } else {
      assert (s + t)[1..] == s[1..] + t;
      TotalsAppend(s[1..], t);
    }
  }

  /** `calc_balance`, as the running total the program keeps. */
  method CalcBalance(d: Data) returns (r: Result<real, Fault>)
    ensures d.transactions.None? <==> r == Failure(MissingTransactionsKey)
    ensures d.transactions.Some? ==>
      r == Success(IncomeTotal(d.transactions.value) - SpentTotal(d.transactions.value))
  {
    if d.transactions.None? {
      return Failure(MissingTransactionsKey);
    }
    var ts := d.transactions.value;
    var balance := 0.0;
    for i := 0 to |ts|
      invariant balance == IncomeTotal(ts[..i]) - SpentTotal(ts[..i])
    {
      assert ts[..i + 1] == ts[..i] + [ts[i]];
      TotalsAppend(ts[..i], [ts[i]]);
      if ts[i].kind == "IN" {
        balance := balance + ts[i].amount;
      } else {
        balance := balance - ts[i].amount;
      }
    }
    assert ts[..|ts|] == ts;
    r := Success(balance);
  }

  /** Any record not of type "IN" lowers the balance, "OUT" or not. */
  lemma NonIncomeIsSpending(ts: seq<Txn>, t: Txn)
    requires t.kind != "IN"
    ensures Balance(ts + [t]) == Balance(ts) - t.amount
  {
    TotalsAppend(ts, [t]);
  }

  function Append(d: Data, t: Txn): Step {
    match d.transactions
    case None => Step(d, Failed(MissingTransactionsKey))
    case Some(ts) => Step(Data(Some(ts + [t])), Added)
  }

  function IncomeRecord(amount: real, note: string, now: string): Txn {
    Txn(now, "IN", amount, if note == "" then DefaultIncomeNote else note)
  }

  function ExpenseRecord(amount: real, note: string, now: string): Txn {
    Txn(now, "OUT", amount, if note == "" then DefaultExpenseNote else note)
  }

  /** `add_income`: `note` is the stripped answer, `now` the current time
      already formatted. A non-positive amount is refused and nothing changes. */
  function AddIncome(d: Data, amount: real, note: string, now: string): (r: Step)
    ensures amount <= 0.0 ==> r == Step(d, NonPositiveAmount)
    ensures amount > 0.0 && d.transactions.None? ==> r == Step(d, Failed(MissingTransactionsKey))
    ensures r.outcome == Added <==> amount > 0.0 && d.transactions.Some?
    ensures r.outcome == Added ==>
      && r.data.transactions.Some?
      && var (before, after) := (d.transactions.value, r.data.transactions.value);
         && |after| == |before| + 1
         && after[..|before|] == before
         && after[|before|].kind == "IN" && after[|before|].amount == amount
         && after[|before|].date == now
         && after[|before|].note == (if note == "" then DefaultIncomeNote else note)
         && after[|before|].note != ""
  {
    if amount <= 0.0 then Step(d, NonPositiveAmount)
    else Append(d, IncomeRecord(amount, note, now))
  }

  /** `add_expense`: the mirror image with type "OUT" and default note "Expense". */
  function AddExpense(d: Data, amount: real, note: string, now: string): (r: Step)
    ensures amount <= 0.0 ==> r == Step(d, NonPositiveAmount)
    ensures amount > 0.0 && d.transactions.None? ==> r == Step(d, Failed(MissingTransactionsKey))
    ensures r.outcome == Added <==> amount > 0.0 && d.transactions.Some?
    ensures r.outcome == Added ==>
      && r.data.transactions.Some?
      && var (before, after) := (d.transactions.value, r.data.transactions.value);
         && |after| == |before| + 1
         && after[..|before|] == before
         && after[|before|].kind == "OUT" && after[|before|].amount == amount
         && after[|before|].date == now
         && after[|before|].note == (if note == "" then DefaultExpenseNote else note)
         && after[|before|].note != ""
  {
    if amount <= 0.0 then Step(d, NonPositiveAmount)
    else Append(d, ExpenseRecord(amount, note, now))
  }

  /** An accepted add moves the balance by exactly its signed amount. */
  lemma AddBalance(d: Data, amount: real, note: string, now: string)
    requires d.transactions.Some?
    ensures var r := AddIncome(d, amount, note, now);
      Balance(r.data.transactions.value) ==
        Balance(d.transactions.value) + (if r.outcome == Added then amount else 0.0)
    ensures var r := AddExpense(d, amount, note, now);
      Balance(r.data.transactions.value) ==
        Balance(d.transactions.value) - (if r.outcome == Added then amount else 0.0)
  {
    TotalsAppend(d.transactions.value, [IncomeRecord(amount, note, now)]);
    TotalsAppend(d.transactions.value, [ExpenseRecord(amount, note, now)]);
  }

  // ---------------------------------------------------------------------------
  // A session and the history it leaves

  /** An add as the menu performs it; `now` is the clock reading at that moment. */
  datatype Action =
    | Income(amount: real, note: string, now: string)
    | Expense(amount: real, note: string, now: string)

  function Perform(d: Data, a: Action): Data {
    match a
    case Income(amount, note, now) => AddIncome(d, amount, note, now).data
    case Expense(amount, note, now) => AddExpense(d, amount, note, now).data
  }

  function Replay(d: Data, acts: seq<Action>): Data
    decreases |acts|
  {
    if |acts| == 0 then d else Replay(Perform(d, acts[0]), acts[1..])
  }

  /** The record an action appends when it is accepted. */
  function RecordOf(a: Action): seq<Txn> {
    match a
    case Income(amount, note, now) => if amount > 0.0 then [IncomeRecord(amount, note, now)] else []
    case Expense(amount, note, now) => if amount > 0.0 then [ExpenseRecord(amount, note, now)] else []
  }

  /** The records the accepted adds of a session append, in the order entered. */
  function Accepted(acts: seq<Action>): seq<Txn> {
    if |acts| == 0 then [] else RecordOf(acts[0]) + Accepted(acts[1..])
  }

  /** One action appends exactly its accepted record. */
  lemma PerformAppends(d: Data, a: Action)
    requires d.transactions.Some?
    ensures Perform(d, a).transactions == Some(d.transactions.value + RecordOf(a))
  {
    if RecordOf(a) == [] {
      assert d.transactions.value + RecordOf(a) == d.transactions.value;
    }
  }

  /** `show_history` lists the stored records as they are, with no sorting. */
  function History(d: Data): Option<seq<Txn>> {
    d.transactions
  }

  /** After any session, the history is the earlier history followed by the
      accepted adds in the order they were entered. */
  lemma {:induction false} HistoryInInsertionOrder(d: Data, acts: seq<Action>)
    requires d.transactions.Some?
    ensures History(Replay(d, acts)) == Some(d.transactions.value + Accepted(acts))
    decreases |acts|
  {
    if |acts| > 0 {
      var d' := Perform(d, acts[0]);
      PerformAppends(d, acts[0]);
      HistoryInInsertionOrder(d', acts[1..]);
      assert d.transactions.value + Accepted(acts) ==
        d.transactions.value + RecordOf(acts[0]) + Accepted(acts[1..]);
    } else {
      assert d.transactions.value + Accepted(acts) == d.transactions.value;
    }
  }

  // ---------------------------------------------------------------------------
  // Relation to money.py

  /** The same record as money.py would hold it, with no category. */
  function AsMoneyTxn(t: Txn): Money.Txn {
    Money.Txn(Some(t.date), Some(t.kind), Some(t.amount), None, Some(t.note))
  }

  function AsMoneyTxns(ts: seq<Txn>): (r: seq<Money.Txn>)
    ensures |r| == |ts|
  {
    if |ts| == 0 then [] else [AsMoneyTxn(ts[0])] + AsMoneyTxns(ts[1..])
  }

  /** When every record is "IN" or "OUT", the two balance rules agree: this
      variant's balance is money.py's with a zero starting balance. */
  lemma {:induction false} BalanceAgreesWithMoney(ts: seq<Txn>)
    requires forall i :: 0 <= i < |ts| ==> ts[i].kind == "IN" || ts[i].kind == "OUT"
    ensures Balance(ts) == Money.Balance(Money.Data(Some(0.0), Some(AsMoneyTxns(ts))))
  {
    if |ts| > 0 {
      BalanceAgreesWithMoney(ts[1..]);
    }
  }

  /** A record of any other type is where they part: here it is subtracted,
      money.py ignores it. */
  lemma OtherKindDiverges(t: Txn)
    requires t.kind != "IN" && t.kind != "OUT" && t.amount != 0.0
    ensures Balance([t]) != Money.Balance(Money.Data(Some(0.0), Some(AsMoneyTxns([t]))))
  {
    var m := AsMoneyTxns([t]);
    assert m == [AsMoneyTxn(t)];
    assert m[1..] == [];
    assert Money.SumKind(m, "IN") == 0.0;
    assert Money.SumKind(m, "OUT") == 0.0;
    assert [t][1..] == [];
    assert IncomeTotal([t]) == 0.0;
    assert SpentTotal([t]) == t.amount;
    assert Money.Balance(Money.Data(Some(0.0), Some(m))) == 0.0;
  }
}
