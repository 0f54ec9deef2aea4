/** The richer tracker, money.py: a starting balance plus dated IN/OUT records
    carrying a category and a note, with balance, history and monthly summary.

    The stored JSON document is modelled key by key: a top-level key or a record
    field may be absent, and the program's `dict.get` defaults say what an absent
    one means. */
module Money {
  import opened Wrappers
  import opened Strings
  import StableSort

  /** One record of the `transactions` list; every field may be missing in a
      hand-edited file. */
  datatype Txn = Txn(
    date: Option<string>,
    kind: Option<string>,
    amount: Option<real>,
    category: Option<string>,
    note: Option<string>)

  /** The JSON document: `starting_balance` and `transactions`, either possibly absent. */
  datatype Data = Data(startingBalance: Option<real>, transactions: Option<seq<Txn>>)

  /** What reading the data file produced. `Unreadable` is the case `load_data`
      catches: opening or reading raised `OSError`, or the text is not JSON
      (`JSONDecodeError`). */
  datatype Stored = Absent | Unreadable | Parsed(doc: Data)

  /** How a mutating menu action ended. `MissingTransactions` is the `KeyError`
      that appending to an absent `transactions` key raises. */
  datatype Outcome = Added | NonPositiveAmount | MissingTransactions

  /** The document after the action, and how the action ended. */
  datatype Step = Step(data: Data, outcome: Outcome)

  const DefaultIncomeCategory: string := "Pocket Money"
  const DefaultExpenseCategory: string := "Other"

  /** A document that has been through `Load`: both top-level keys present. */
  predicate Complete(d: Data) {
    d.startingBalance.Some? && d.transactions.Some?
  }

  function StartingBalance(d: Data): real {
    d.startingBalance.GetOr(0.0)
  }

  function Txns(d: Data): seq<Txn> {
    d.transactions.GetOr([])
  }

  /** `float(t.get("amount", 0.0))` */
  function AmountOf(t: Txn): real {
    t.amount.GetOr(0.0)
  }

  /** `t.get("date", "")`, the sort and month-filter key. */
  function DateKey(t: Txn): string {
    t.date.GetOr("")
  }

  // ---------------------------------------------------------------------------
  // Loading

  const Fresh: Data := Data(Some(0.0), Some([]))

  /** `load_data`: a missing or unreadable file gives a fresh ledger; a parsed
      document keeps every key it has and gets 0.0 / [] for a missing one. */
  function Load(s: Stored): (d: Data)
    ensures Complete(d)
    ensures !s.Parsed? ==> StartingBalance(d) == 0.0 && Txns(d) == []
    ensures s.Parsed? && s.doc.startingBalance.Some? ==> d.startingBalance == s.doc.startingBalance
    ensures s.Parsed? && s.doc.startingBalance.None? ==> d.startingBalance == Some(0.0)
    ensures s.Parsed? && s.doc.transactions.Some? ==> d.transactions == s.doc.transactions
    ensures s.Parsed? && s.doc.transactions.None? ==> d.transactions == Some([])
  {
    match s
    case Parsed(doc) =>
      Data(Some(doc.startingBalance.GetOr(0.0)), Some(doc.transactions.GetOr([])))
    case _ => Fresh
  }

  /** Defaulting loses nothing that `calculate_balance` or the history would
      see: the loaded document has the same balance inputs as the parsed one. */
  lemma LoadKeepsMeaning(doc: Data)
    ensures StartingBalance(Load(Parsed(doc))) == StartingBalance(doc)
    ensures Txns(Load(Parsed(doc))) == Txns(doc)
  {
  }

  /** Saving a loaded document and loading it again gives it back unchanged
      (the JSON round trip itself is taken to be exact). */
  lemma ReloadIsIdentity(s: Stored)
    ensures Load(Parsed(Load(s))) == Load(s)
  {
  }

  // ---------------------------------------------------------------------------
  // Balance

  /** Total amount of the records whose `type` is exactly `k`. */
  function SumKind(ts: seq<Txn>, k: string): real {
    if |ts| == 0 then 0.0
    else (if ts[0].kind == Some(k) then AmountOf(ts[0]) else 0.0) + SumKind(ts[1..], k)
  }

  /** The balance rule: starting balance plus incomes minus expenses. */
  function Balance(d: Data): real {
    StartingBalance(d) + SumKind(Txns(d), "IN") - SumKind(Txns(d), "OUT")
  }

  lemma {:induction false} SumKindAppend(s: seq<Txn>, t: seq<Txn>, k: string)
    ensures SumKind(s + t, k) == SumKind(s, k) + SumKind(t, k)
  {
    if |s| == 0 {
      assert s + t == t;
    } else {
      assert (s + t)[1..] == s[1..] + t;
      SumKindAppend(s[1..], t, k);
    }
  }

  /** A record whose `type` is neither "IN" nor "OUT" leaves the balance alone. */
  lemma OtherKindsContributeNothing(d: Data, t: Txn)
    requires t.kind != Some("IN") && t.kind != Some("OUT")
    ensures Balance(Data(d.startingBalance, Some(Txns(d) + [t]))) == Balance(d)
  {
    SumKindAppend(Txns(d), [t], "IN");
    SumKindAppend(Txns(d), [t], "OUT");
  }

  /** `calculate_balance`, as the running total the program keeps. */
  method CalculateBalance(d: Data) returns (balance: real)
    ensures balance == StartingBalance(d) + SumKind(Txns(d), "IN") - SumKind(Txns(d), "OUT")
  {
    balance := StartingBalance(d);
    var ts := Txns(d);
    for i := 0 to |ts|
      invariant balance == StartingBalance(d) + SumKind(ts[..i], "IN") - SumKind(ts[..i], "OUT")
    {
      assert ts[..i + 1] == ts[..i] + [ts[i]];
      SumKindAppend(ts[..i], [ts[i]], "IN");
      SumKindAppend(ts[..i], [ts[i]], "OUT");
      var amount := AmountOf(ts[i]);
      if ts[i].kind == Some("IN") {
        balance := balance + amount;
      } else if ts[i].kind == Some("OUT") {
        balance := balance - amount;
      }
    }
    assert ts[..|ts|] == ts;
  }

  // ---------------------------------------------------------------------------
  // Menu actions that change the ledger

  /** `set_starting_balance`: overwrite the starting balance, keep the records. */
  function SetStartingBalance(d: Data, newBalance: real): (r: Data)
    ensures r.startingBalance == Some(newBalance)
    ensures r.transactions == d.transactions
    ensures Balance(r) == Balance(d) - StartingBalance(d) + newBalance
  {
    Data(Some(newBalance), d.transactions)
  }

  /** Append one record, or report the `KeyError` when there is no list. */
  function Append(d: Data, t: Txn): Step {
    match d.transactions
    case None => Step(d, MissingTransactions)
    case Some(ts) => Step(Data(d.startingBalance, Some(ts + [t])), Added)
  }

  /** The record `add_income` builds from the already-read inputs. */
  function IncomeRecord(amount: real, source: string, date: string, note: string): Txn {
    Txn(Some(date), Some("IN"), Some(amount),
        Some(if source == "" then DefaultIncomeCategory else source), Some(note))
  }

  /** The record `add_expense` builds from the already-read inputs. */
  function ExpenseRecord(amount: real, category: string, date: string, note: string): Txn {
    Txn(Some(date), Some("OUT"), Some(amount),
        Some(if category == "" then DefaultExpenseCategory else category), Some(note))
  }

  /** `add_income`. `source` and `note` are the stripped answers, `date` the
      validated or defaulted date. A non-positive amount is refused before
      anything else is asked or changed. */
  function AddIncome(d: Data, amount: real, source: string, date: string, note: string): (r: Step)
    ensures amount <= 0.0 ==> r == Step(d, NonPositiveAmount)
    ensures amount > 0.0 && d.transactions.None? ==> r == Step(d, MissingTransactions)
    ensures r.outcome == Added <==> amount > 0.0 && d.transactions.Some?
    ensures r.outcome == Added ==>
      && r.data.startingBalance == d.startingBalance
      && |Txns(r.data)| == |Txns(d)| + 1
      && Txns(r.data)[..|Txns(d)|] == Txns(d)
      && var t := Txns(r.data)[|Txns(d)|];
         && t.kind == Some("IN") && t.amount == Some(amount) && t.date == Some(date)
         && t.note == Some(note)
         && (source != "" ==> t.category == Some(source))
         && (source == "" ==> t.category == Some(DefaultIncomeCategory))
  {
    if amount <= 0.0 then Step(d, NonPositiveAmount)
    else Append(d, IncomeRecord(amount, source, date, note))
  }

  /** `add_expense`, the mirror image with type "OUT" and default category "Other". */
  function AddExpense(d: Data, amount: real, category: string, date: string, note: string): (r: Step)
    ensures amount <= 0.0 ==> r == Step(d, NonPositiveAmount)
    ensures amount > 0.0 && d.transactions.None? ==> r == Step(d, MissingTransactions)
    ensures r.outcome == Added <==> amount > 0.0 && d.transactions.Some?
    ensures r.outcome == Added ==>
      && r.data.startingBalance == d.startingBalance
      && |Txns(r.data)| == |Txns(d)| + 1
      && Txns(r.data)[..|Txns(d)|] == Txns(d)
      && var t := Txns(r.data)[|Txns(d)|];
         && t.kind == Some("OUT") && t.amount == Some(amount) && t.date == Some(date)
         && t.note == Some(note)
         && (category != "" ==> t.category == Some(category))
         && (category == "" ==> t.category == Some(DefaultExpenseCategory))
  {
    if amount <= 0.0 then Step(d, NonPositiveAmount)
    else Append(d, ExpenseRecord(amount, category, date, note))
  }

  /** An accepted income raises the balance by its amount; a refused one
      changes nothing. */
  lemma AddIncomeBalance(d: Data, amount: real, source: string, date: string, note: string)
    ensures var r := AddIncome(d, amount, source, date, note);
      Balance(r.data) == if r.outcome == Added then Balance(d) + amount else Balance(d)
  {
    var t := IncomeRecord(amount, source, date, note);
    SumKindAppend(Txns(d), [t], "IN");
    SumKindAppend(Txns(d), [t], "OUT");
  }

  /** An accepted expense lowers the balance by its amount; a refused one
      changes nothing. */
  lemma AddExpenseBalance(d: Data, amount: real, category: string, date: string, note: string)
    ensures var r := AddExpense(d, amount, category, date, note);
      Balance(r.data) == if r.outcome == Added then Balance(d) - amount else Balance(d)
  {
    var t := ExpenseRecord(amount, category, date, note);
    SumKindAppend(Txns(d), [t], "IN");
    SumKindAppend(Txns(d), [t], "OUT");
  }

  // ---------------------------------------------------------------------------
  // A session: the mutating menu choices in the order the user makes them

  datatype Action =
    | SetStart(newBalance: real)
    | Income(amount: real, source: string, date: string, note: string)
    | Expense(amount: real, category: string, date: string, note: string)

  function Perform(d: Data, a: Action): Data {
    match a
    case SetStart(b) => SetStartingBalance(d, b)
    case Income(amount, source, date, note) => AddIncome(d, amount, source, date, note).data
    case Expense(amount, category, date, note) => AddExpense(d, amount, category, date, note).data
  }

  function Replay(d: Data, acts: seq<Action>): Data
    decreases |acts|
  {
    if |acts| == 0 then d else Replay(Perform(d, acts[0]), acts[1..])
  }

  /** The record an action appends when it is accepted: none for a refused add
      or a starting-balance change. */
  function RecordOf(a: Action): seq<Txn> {
    match a
    case SetStart(_) => []
    case Income(amount, source, date, note) =>
      if amount > 0.0 then [IncomeRecord(amount, source, date, note)] else []
    case Expense(amount, category, date, note) =>
      if amount > 0.0 then [ExpenseRecord(amount, category, date, note)] else []
  }

  /** The records the accepted adds of a session append, in the order entered. */
  function Accepted(acts: seq<Action>): seq<Txn> {
    if |acts| == 0 then [] else RecordOf(acts[0]) + Accepted(acts[1..])
  }

  /** Signed amount of an action: +amount for an accepted income, -amount for an
      accepted expense, 0 otherwise. */
  function SignedAmount(a: Action): real {
    match a
    case SetStart(_) => 0.0
    case Income(amount, _, _, _) => if amount > 0.0 then amount else 0.0
    case Expense(amount, _, _, _) => if amount > 0.0 then -amount else 0.0
  }

  /** Signed total of the accepted adds of a session. */
  function NetOf(acts: seq<Action>): real {
    if |acts| == 0 then 0.0 else SignedAmount(acts[0]) + NetOf(acts[1..])
  }

  /** One action on a loaded ledger appends exactly its accepted record. */
  lemma PerformAppends(d: Data, a: Action)
    requires Complete(d)
    ensures Complete(Perform(d, a))
    ensures Txns(Perform(d, a)) == Txns(d) + RecordOf(a)
  {
    if RecordOf(a) == [] {
      assert Txns(d) + RecordOf(a) == Txns(d);
    }
  }

  predicate NoSetStart(acts: seq<Action>) {
    forall i :: 0 <= i < |acts| ==> !acts[i].SetStart?
  }

  /** The ledger is append-only: after any session on a loaded ledger, the
      records are the earlier ones followed by the accepted new ones. */
  lemma {:induction false} ReplayAppendsInOrder(d: Data, acts: seq<Action>)
    requires Complete(d)
    ensures Complete(Replay(d, acts))
    ensures Txns(Replay(d, acts)) == Txns(d) + Accepted(acts)
    decreases |acts|
  {
    if |acts| > 0 {
      var d' := Perform(d, acts[0]);
      PerformAppends(d, acts[0]);
      ReplayAppendsInOrder(d', acts[1..]);
      assert Txns(d) + Accepted(acts) == Txns(d) + RecordOf(acts[0]) + Accepted(acts[1..]);
    } else {
      assert Txns(d) + Accepted(acts) == Txns(d);
    }
  }

  /** Without a starting-balance change, a session on a ledger that has its
      `transactions` list moves the balance by exactly the signed sum of its
      accepted adds. */
  lemma {:induction false} ReplayBalance(d: Data, acts: seq<Action>)
    requires d.transactions.Some? && NoSetStart(acts)
    ensures Balance(Replay(d, acts)) == Balance(d) + NetOf(acts)
    decreases |acts|
  {
    if |acts| > 0 {
      match acts[0] {
        case SetStart(_) =>
          assert false;
        case Income(amount, source, date, note) =>
          AddIncomeBalance(d, amount, source, date, note);
        case Expense(amount, category, date, note) =>
          AddExpenseBalance(d, amount, category, date, note);
      }
      assert NoSetStart(acts[1..]) by {
        forall i | 0 <= i < |acts[1..]|
          ensures !acts[1..][i].SetStart?
        {
          assert acts[1..][i] == acts[i + 1];
        }
      }
      ReplayBalance(Perform(d, acts[0]), acts[1..]);
    }
  }

  // ---------------------------------------------------------------------------
  // History

  /** `list_transactions`: the records sorted by date string, stably. */
  function ListTransactions(d: Data): (r: seq<Txn>)
    ensures multiset(r) == multiset(Txns(d))
    ensures StableSort.SortedBy(r, DateKey)
    ensures StableSort.SameKeyGroups(r, Txns(d), DateKey)
  {
    StableSort.SortBy(Txns(d), DateKey)
  }

  // ---------------------------------------------------------------------------
  // Monthly summary

  /** `strptime` with `%Y`: exactly four ASCII digits, and year 0 does not exist. */
  predicate ValidYear(y: string) {
    |y| == 4 && AllDigits(y) && y != "0000"
  }

  /** `strptime` with `%m`: one of `1[0-2]`, `0[1-9]`, `[1-9]`. */
  predicate ValidMonth(m: string) {
    || (|m| == 1 && '1' <= m[0] <= '9')
    || (|m| == 2 && m[0] == '0' && '1' <= m[1] <= '9')
    || (|m| == 2 && m[0] == '1' && '0' <= m[1] <= '2')
  }

  /** The number a valid month string denotes. */
  function MonthNumber(m: string): (n: nat)
    requires ValidMonth(m)
    ensures 1 <= n <= 12
  {
    if |m| == 1 then DigitValue(m[0]) else 10 * DigitValue(m[0]) + DigitValue(m[1])
  }

  /** A month number written with two digits, as `%m` formats it. */
  function TwoDigits(n: nat): (s: string)
    requires n < 100
    ensures |s| == 2 && AllDigits(s)
  {
    [DigitChar(n / 10), DigitChar(n % 10)]
  }

  /** The `YYYY-MM` prefix: a two-character month is used as it is, any other
      gets one leading zero. */
  function MonthPrefix(year: string, month: string): string {
    if |month| == 2 then year + "-" + month else year + "-0" + month
  }

  /** For a valid month the prefix is the year, a dash and the zero-padded month
      number, whether the user typed one digit or two. */
  lemma MonthPrefixIsZeroPadded(year: string, month: string)
    requires ValidMonth(month)
    ensures MonthPrefix(year, month) == year + "-" + TwoDigits(MonthNumber(month))
  {
  }

  /** "3" and "03" select the same month. */
  lemma SameMonthSamePrefix(year: string, m1: string, m2: string)
    requires ValidMonth(m1) && ValidMonth(m2) && MonthNumber(m1) == MonthNumber(m2)
    ensures MonthPrefix(year, m1) == MonthPrefix(year, m2)
  {
    MonthPrefixIsZeroPadded(year, m1);
    MonthPrefixIsZeroPadded(year, m2);
  }

  /** The records dated in the month with this prefix, in ledger order. */
  function InMonth(ts: seq<Txn>, prefix: string): seq<Txn> {
    if |ts| == 0 then []
    else (if StartsWith(DateKey(ts[0]), prefix) then [ts[0]] else []) + InMonth(ts[1..], prefix)
  }

  /** A record is in the month's selection exactly when it is in the ledger and
      its date starts with the prefix. */
  lemma {:induction false} InMonthMembers(ts: seq<Txn>, prefix: string, t: Txn)
    ensures t in InMonth(ts, prefix) <==> t in ts && StartsWith(DateKey(t), prefix)
  {
    if |ts| > 0 {
      InMonthMembers(ts[1..], prefix, t);
      assert ts == [ts[0]] + ts[1..];
    }
  }

  /** Dates are stored as typed, and `strptime` accepts a one-digit month, so a
      January record may be stored as "2024-1-5". Selection is by prefix, and
      neither spelling of January selects it. */
  lemma UnpaddedDateMissesMonth()
    ensures !StartsWith("2024-1-5", MonthPrefix("2024", "1"))
    ensures !StartsWith("2024-1-5", MonthPrefix("2024", "01"))
  {
    assert "2024-1-5"[5] == '1' != MonthPrefix("2024", "1")[5];
  }

  /** The same unpadded date sorts after a September date of that year in the
      history, since the comparison is by characters, not by calendar. */
  lemma UnpaddedDateSortsLate()
    ensures !Le("2024-1-5", "2024-09-30")
  {
    var a, b := "2024-1-5", "2024-09-30";
    assert a[1..][1..][1..][1..][1..] == "1-5";
    assert b[1..][1..][1..][1..][1..] == "09-30";
  }

  /** The records dated outside that month. */
  function OutsideMonth(ts: seq<Txn>, prefix: string): seq<Txn> {
    if |ts| == 0 then []
    else (if StartsWith(DateKey(ts[0]), prefix) then [] else [ts[0]]) + OutsideMonth(ts[1..], prefix)
  }

  lemma {:induction false} InMonthAppend(s: seq<Txn>, t: Txn, prefix: string)
    ensures InMonth(s + [t], prefix) ==
      InMonth(s, prefix) + (if StartsWith(DateKey(t), prefix) then [t] else [])
  {
    if |s| == 0 {
      assert s + [t] == [t];
    } else {
      var st := s + [t];
      assert st[0] == s[0];
      assert st[1..] == s[1..] + [t];
      InMonthAppend(s[1..], t, prefix);
      assert InMonth(st, prefix) ==
        (if StartsWith(DateKey(s[0]), prefix) then [s[0]] else []) + InMonth(s[1..] + [t], prefix);
    }
  }

  /** The month's records and the others split every total: nothing is
      counted twice and nothing is lost. */
  lemma {:induction false} MonthSplitsTotals(ts: seq<Txn>, prefix: string, k: string)
    ensures SumKind(InMonth(ts, prefix), k) + SumKind(OutsideMonth(ts, prefix), k) == SumKind(ts, k)
    ensures |InMonth(ts, prefix)| + |OutsideMonth(ts, prefix)| == |ts|
  {
    if |ts| > 0 {
      MonthSplitsTotals(ts[1..], prefix, k);
      var h := if StartsWith(DateKey(ts[0]), prefix) then [ts[0]] else [];
      var g := if StartsWith(DateKey(ts[0]), prefix) then [] else [ts[0]];
      SumKindAppend(h, InMonth(ts[1..], prefix), k);
      SumKindAppend(g, OutsideMonth(ts[1..], prefix), k);
    }
  }

  datatype Summary = Summary(
    income: real,
    expense: real,
    net: real,
    count: nat,
    details: seq<Txn>)

  datatype SummaryError = InvalidYearMonth

  /** The year and month the summary is for: an empty answer means the current
      one, given as `%Y` / `%m` text of today's date. */
  function ResolveYearMonth(yearInput: string, monthInput: string,
                            todayYear: string, todayMonth: string): (string, string) {
    (if yearInput == "" then todayYear else yearInput,
     if monthInput == "" then todayMonth else monthInput)
  }

  /** `monthly_summary`: validate the year and month, then one pass over the
      records of that month totalling incomes and expenses; the details are
      those records sorted by date. */
  method MonthlySummary(d: Data, yearInput: string, monthInput: string,
                        todayYear: string, todayMonth: string)
    returns (r: Result<Summary, SummaryError>)
    ensures var (y, m) := ResolveYearMonth(yearInput, monthInput, todayYear, todayMonth);
      && (r.Failure? <==> !(ValidYear(y) && ValidMonth(m)))
      && (r.Success? ==>
           var chosen := InMonth(Txns(d), y + "-" + TwoDigits(MonthNumber(m)));
           && r.value.income == SumKind(chosen, "IN")
           && r.value.expense == SumKind(chosen, "OUT")
           && r.value.net == r.value.income - r.value.expense
           && r.value.count == |chosen|
           && r.value.details == StableSort.SortBy(chosen, DateKey))
  {
    var (year, month) := ResolveYearMonth(yearInput, monthInput, todayYear, todayMonth);
    if !(ValidYear(year) && ValidMonth(month)) {
      return Failure(InvalidYearMonth);
    }
    var prefix := MonthPrefix(year, month);
    MonthPrefixIsZeroPadded(year, month);
    var income := 0.0;
    var expense := 0.0;
    var counted: seq<Txn> := [];
    var ts := Txns(d);
    for i := 0 to |ts|
      invariant counted == InMonth(ts[..i], prefix)
      invariant income == SumKind(counted, "IN")
      invariant expense == SumKind(counted, "OUT")
    {
      assert ts[..i + 1] == ts[..i] + [ts[i]];
      InMonthAppend(ts[..i], ts[i], prefix);
      var t := ts[i];
      if StartsWith(DateKey(t), prefix) {
        SumKindAppend(counted, [t], "IN");
        SumKindAppend(counted, [t], "OUT");
        var amount := AmountOf(t);
        if t.kind == Some("IN") {
          income := income + amount;
        } else if t.kind == Some("OUT") {
          expense := expense + amount;
        }
        counted := counted + [t];
      }
    }
    assert ts[..|ts|] == ts;
    r := Success(Summary(income, expense, income - expense, |counted|,
                         StableSort.SortBy(counted, DateKey)));
  }

  /** A worked session: starting balance 100, then IN 50 on 2024-01-05, OUT 20 on
      2024-01-10 and IN 10 on 2024-02-01. */
  const ExampleActions: seq<Action> := [
    SetStart(100.0),
    Income(50.0, "gift", "2024-01-05", ""),
    Expense(20.0, "snacks", "2024-01-10", ""),
    Income(10.0, "gift", "2024-02-01", "")]

  /** The session ends with balance 140 and its three records in entry order. */
  lemma ExampleSessionBalance()
    ensures Txns(Replay(Fresh, ExampleActions)) ==
      [IncomeRecord(50.0, "gift", "2024-01-05", ""),
       ExpenseRecord(20.0, "snacks", "2024-01-10", ""),
       IncomeRecord(10.0, "gift", "2024-02-01", "")]
    ensures Balance(Replay(Fresh, ExampleActions)) == 140.0
  {
    var acts := ExampleActions;
    var d1 := Perform(Fresh, acts[0]);
    assert d1 == Data(Some(100.0), Some([]));
    ReplayAppendsInOrder(d1, acts[1..]);
    ReplayBalance(d1, acts[1..]);
    assert acts[1..][1..][1..][1..] == [];
  }

  /** January 2024 of that session: income 50, expense 20, two records. */
  lemma ExampleSessionJanuary()
    ensures var jan := InMonth(Txns(Replay(Fresh, ExampleActions)), MonthPrefix("2024", "01"));
      && SumKind(jan, "IN") == 50.0
      && SumKind(jan, "OUT") == 20.0
      && |jan| == 2
  {
    ExampleSessionBalance();
    var a := IncomeRecord(50.0, "gift", "2024-01-05", "");
    var b := ExpenseRecord(20.0, "snacks", "2024-01-10", "");
    var c := IncomeRecord(10.0, "gift", "2024-02-01", "");
    assert MonthPrefix("2024", "01") == "2024-01";
    assert DateKey(c)[6] == '2' != "2024-01"[6];
    InMonthOfThree(a, b, c, "2024-01");
    assert SumKind([b], "IN") == 0.0;
    assert SumKind([a, b], "IN") == SumKind([a], "IN") + SumKind([b], "IN") by {
      SumKindAppend([a], [b], "IN");
    }
    assert SumKind([a, b], "OUT") == SumKind([a], "OUT") + SumKind([b], "OUT") by {
      SumKindAppend([a], [b], "OUT");
    }
  }

  /** The month filter on three records of which the first two match. */
  lemma InMonthOfThree(a: Txn, b: Txn, c: Txn, prefix: string)
    requires StartsWith(DateKey(a), prefix) && StartsWith(DateKey(b), prefix)
    requires !StartsWith(DateKey(c), prefix)
    ensures InMonth([a, b, c], prefix) == [a, b]
  {
    var ts := [a, b, c];
    assert ts[1..] == [b, c] && ts[1..][1..] == [c] && ts[1..][1..][1..] == [];
    assert InMonth([c], prefix) == [];
    assert InMonth([b, c], prefix) == [b];
  }
}
