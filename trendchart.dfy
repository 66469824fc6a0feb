/**
 * The quarterly trend chart's data: the quarters sorted by tax year and
 * then by Q1..Q4 (a stable sort of a copy), projected into a row of labels
 * and two aligned rows of amounts.
 */
module TrendChart {
  import opened Wrappers
  import opened Models

  /** Decimal value of a string of digits. */
  function DigitsValue(ds: string): nat
    requires forall i :: 0 <= i < |ds| ==> '0' <= ds[i] <= '9'
  {
    if ds == [] then 0
    else DigitsValue(ds[..|ds| - 1]) * 10 + (ds[|ds| - 1] - '0') as nat
  }

  /** The longest prefix of `s` made of decimal digits. */
  function LeadingDigits(s: string): (ds: string)
    ensures |ds| <= |s| && ds == s[..|ds|]
    ensures forall i :: 0 <= i < |ds| ==> '0' <= ds[i] <= '9'
    ensures |ds| < |s| ==> !('0' <= s[|ds|] <= '9')
  {
    if s != [] && '0' <= s[0] <= '9' then [s[0]] + LeadingDigits(s[1..]) else []
  }

  /** `s.split('/')[0]`: the text before the first slash. */
  function BeforeSlash(s: string): (r: string)
    ensures |r| <= |s| && r == s[..|r|]
    ensures '/' !in r
    ensures |r| < |s| ==> s[|r|] == '/'
  {
    if s == [] || s[0] == '/' then [] else [s[0]] + BeforeSlash(s[1..])
  }

  /** `parseInt(taxYear?.split('/')[0] || '0', 10)`, for a tax year that starts with digits or is missing. */
  function Year(q: QuarterlyUpdate): nat
  {
    // `|| '0'` then parseInt of "0" is 0, the value an empty digit prefix also has here
    if q.taxYear.Some? then DigitsValue(LeadingDigits(BeforeSlash(q.taxYear.value))) else 0
  }

  /** `quarterOrder[quarterName || ''] || 0`. */
  function Rank(q: QuarterlyUpdate): (r: nat)
    ensures r <= 4
    ensures r == 0 <==> q.quarterName !in {Some("Q1"), Some("Q2"), Some("Q3"), Some("Q4")}
  {
    match q.quarterName
    case Some("Q1") => 1
    case Some("Q2") => 2
    case Some("Q3") => 3
    case Some("Q4") => 4
    case _ => 0
  }

  /** The quarter names the comparator ranks, in their order within a year. */
  const QUARTER_NAMES := ["Q1", "Q2", "Q3", "Q4"]

  /** Within one tax year, Q1 sorts before Q2 before Q3 before Q4, and any other name before all four. */
  lemma WithinYearOrder(a: QuarterlyUpdate, b: QuarterlyUpdate, i: int, j: int)
    requires Year(a) == Year(b) && 0 <= j < 4 && b.quarterName == Some(QUARTER_NAMES[j])
    requires (0 <= i < j && a.quarterName == Some(QUARTER_NAMES[i])) || a.quarterName !in {Some("Q1"), Some("Q2"), Some("Q3"), Some("Q4")}
    ensures Compare(a, b) < 0 && Compare(b, a) > 0
  {
  }

  /** Years are compared before quarter names: an earlier tax year sorts first whatever the names. */
  lemma YearFirst(a: QuarterlyUpdate, b: QuarterlyUpdate)
    requires Year(a) < Year(b)
    ensures Compare(a, b) < 0 && Compare(b, a) > 0
  {
  }

  /** A missing tax year counts as year 0. */
  lemma MissingYearIsZero(q: QuarterlyUpdate)
    requires q.taxYear.None?
    ensures Year(q) == 0
  {
  }

  lemma {:induction false} BeforeSlashOfSplit(d: string, rest: string)
    requires '/' !in d
    ensures BeforeSlash(d + "/" + rest) == d
  {
    if d != [] {
      assert (d + "/" + rest)[1..] == d[1..] + "/" + rest;
      BeforeSlashOfSplit(d[1..], rest);
    }
  }

  lemma {:induction false} LeadingDigitsOfDigits(d: string)
    requires forall i :: 0 <= i < |d| ==> '0' <= d[i] <= '9'
    ensures LeadingDigits(d) == d
  {
    if d != [] {
      LeadingDigitsOfDigits(d[1..]);
    }
  }

  /** A tax year written `<digits>/<anything>` sorts by the number its digits spell. */
  lemma YearOfDigits(q: QuarterlyUpdate, d: string, rest: string)
    requires forall i :: 0 <= i < |d| ==> '0' <= d[i] <= '9'
    requires q.taxYear == Some(d + "/" + rest)
    ensures Year(q) == DigitsValue(d)
  {
    BeforeSlashOfSplit(d, rest);
    LeadingDigitsOfDigits(d);
  }

  /** The sort comparator: negative when `a` goes first. */
  function Compare(a: QuarterlyUpdate, b: QuarterlyUpdate): int
  {
    if Year(a) != Year(b) then Year(a) - Year(b) else Rank(a) - Rank(b)
  }

  datatype SortKey = SortKey(year: nat, rank: nat)

  function Key(q: QuarterlyUpdate): SortKey
  {
    SortKey(Year(q), Rank(q))
  }

  /** The comparator puts `a` no later than `b` exactly when a's (year, rank) is lexicographically no greater. */
  lemma CompareIsKeyOrder(a: QuarterlyUpdate, b: QuarterlyUpdate)
    ensures Compare(a, b) <= 0 <==> Year(a) < Year(b) || (Year(a) == Year(b) && Rank(a) <= Rank(b))
    ensures Compare(a, b) == 0 <==> Key(a) == Key(b)
  {
  }

  predicate SortedByComparator(s: seq<QuarterlyUpdate>)
  {
    forall i, j :: 0 <= i < j < |s| ==> Compare(s[i], s[j]) <= 0
  }

  /** Inserts `x` before the first element that does not sort before it. */
  function Insert(x: QuarterlyUpdate, s: seq<QuarterlyUpdate>): seq<QuarterlyUpdate>
  {
    if s == [] then [x]
    else if Compare(x, s[0]) <= 0 then [x] + s
    else [s[0]] + Insert(x, s[1..])
  }

  /** The sorted copy of `qs` (JavaScript's sort is stable). */
  function SortQuarters(qs: seq<QuarterlyUpdate>): seq<QuarterlyUpdate>
  {
    if qs == [] then [] else Insert(qs[0], SortQuarters(qs[1..]))
  }

  /** The quarters of `s` with key `k`, in order. */
  function WithKey(s: seq<QuarterlyUpdate>, k: SortKey): seq<QuarterlyUpdate>
  {
    if s == [] then [] else (if Key(s[0]) == k then [s[0]] else []) + WithKey(s[1..], k)
  }

  lemma {:induction false} InsertPermutes(x: QuarterlyUpdate, s: seq<QuarterlyUpdate>)
    ensures multiset(Insert(x, s)) == multiset(s) + multiset{x}
  {
    if s != [] && Compare(x, s[0]) > 0 {
      InsertPermutes(x, s[1..]);
      assert s == [s[0]] + s[1..];
    }
  }

  lemma CompareTransitive(a: QuarterlyUpdate, b: QuarterlyUpdate, c: QuarterlyUpdate)
    requires Compare(a, b) <= 0 && Compare(b, c) <= 0
    ensures Compare(a, c) <= 0
  {
  }

  /** Everything Insert returns sorts no earlier than a common lower bound of `x` and `s`. */
  lemma {:induction false} InsertLowerBound(x: QuarterlyUpdate, s: seq<QuarterlyUpdate>, b: QuarterlyUpdate)
    requires Compare(b, x) <= 0
    requires forall i :: 0 <= i < |s| ==> Compare(b, s[i]) <= 0
    ensures forall i :: 0 <= i < |Insert(x, s)| ==> Compare(b, Insert(x, s)[i]) <= 0
  {
    if s != [] && Compare(x, s[0]) > 0 {
      InsertLowerBound(x, s[1..], b);
      var r := Insert(x, s[1..]);
      assert Insert(x, s) == [s[0]] + r;
      forall i | 0 <= i < |[s[0]] + r| ensures Compare(b, ([s[0]] + r)[i]) <= 0 {
        if i > 0 {
          assert ([s[0]] + r)[i] == r[i - 1];
        }
      }
    }
  }

  lemma SortedCons(x: QuarterlyUpdate, s: seq<QuarterlyUpdate>)
    requires SortedByComparator(s)
    requires forall i :: 0 <= i < |s| ==> Compare(x, s[i]) <= 0
    ensures SortedByComparator([x] + s)
  {
    var t := [x] + s;
    forall i, j | 0 <= i < j < |t| ensures Compare(t[i], t[j]) <= 0 {
      assert t[j] == s[j - 1];
      if i == 0 {
        assert t[i] == x;
      } else {
        assert t[i] == s[i - 1] && 0 <= i - 1 < j - 1 < |s|;
      }
    }
  }

  lemma SortedTail(s: seq<QuarterlyUpdate>)
    requires SortedByComparator(s) && s != []
    ensures SortedByComparator(s[1..])
    ensures forall i :: 0 <= i < |s[1..]| ==> Compare(s[0], s[1..][i]) <= 0
  {
    var tail := s[1..];
    forall i, j | 0 <= i < j < |tail| ensures Compare(tail[i], tail[j]) <= 0 {
      assert tail[i] == s[i + 1] && tail[j] == s[j + 1];
    }
    forall i | 0 <= i < |tail| ensures Compare(s[0], tail[i]) <= 0 {
      assert tail[i] == s[i + 1];
    }
  }

  lemma {:induction false} InsertSorted(x: QuarterlyUpdate, s: seq<QuarterlyUpdate>)
    requires SortedByComparator(s)
    ensures SortedByComparator(Insert(x, s))
  {
    if s == [] {
    } else if Compare(x, s[0]) <= 0 {
      SortedTail(s);
      forall i | 0 <= i < |s| ensures Compare(x, s[i]) <= 0 {
        if i > 0 {
          assert s[i] == s[1..][i - 1];
          CompareTransitive(x, s[0], s[i]);
        }
      }
      SortedCons(x, s);
    } else {
      SortedTail(s);
      InsertSorted(x, s[1..]);
      InsertLowerBound(x, s[1..], s[0]);
      SortedCons(s[0], Insert(x, s[1..]));
    }
  }

  lemma {:induction false} InsertKeepsKeyOrder(x: QuarterlyUpdate, s: seq<QuarterlyUpdate>, k: SortKey)
    ensures WithKey(Insert(x, s), k) == if Key(x) == k then [x] + WithKey(s, k) else WithKey(s, k)
  {
    if s == [] {
    } else if Compare(x, s[0]) <= 0 {
      assert ([x] + s)[1..] == s;
    } else {
      InsertKeepsKeyOrder(x, s[1..], k);
      var r := [s[0]] + Insert(x, s[1..]);
      assert r[1..] == Insert(x, s[1..]);
      CompareIsKeyOrder(x, s[0]);
    }
  }

  /** The sorted copy is in comparator order and holds the same quarters. */
  lemma {:induction false} SortQuartersCorrect(qs: seq<QuarterlyUpdate>)
    ensures SortedByComparator(SortQuarters(qs))
    ensures multiset(SortQuarters(qs)) == multiset(qs)
    ensures |SortQuarters(qs)| == |qs|
  {
    if qs != [] {
      SortQuartersCorrect(qs[1..]);
      InsertSorted(qs[0], SortQuarters(qs[1..]));
      InsertPermutes(qs[0], SortQuarters(qs[1..]));
      assert qs == [qs[0]] + qs[1..];
      assert |multiset(SortQuarters(qs))| == |multiset(qs)|;
    }
  }

  /** Stability: quarters with the same year and rank keep their input order. */
  lemma {:induction false} SortQuartersStable(qs: seq<QuarterlyUpdate>, k: SortKey)
    ensures WithKey(SortQuarters(qs), k) == WithKey(qs, k)
  {
    if qs != [] {
      SortQuartersStable(qs[1..], k);
      InsertKeepsKeyOrder(qs[0], SortQuarters(qs[1..]), k);
    }
  }

  /** The tax-year text after its first two characters, or '' (`taxYear?.substring(2) || ''`). */
  function YearSuffix(taxYear: Option<string>): string
  {
    match taxYear
    case Some(t) => if |t| > 2 then t[2..] else ""
    case None => ""
  }

  /** `${quarterName || ''} ${taxYear?.substring(2) || ''}`. */
  function Label(q: QuarterlyUpdate): string
  {
    q.quarterName.GetOr("") + " " + YearSuffix(q.taxYear)
  }

  /** The chart's labels and its two datasets. */
  datatype ChartSeries = ChartSeries(labels: seq<string>, income: seq<int>, expenses: seq<int>)

  /** The three projections of an ordered list of quarters, index by index. */
  function Project(s: seq<QuarterlyUpdate>): (c: ChartSeries)
    ensures |c.labels| == |s| && |c.income| == |s| && |c.expenses| == |s|
    ensures forall i :: 0 <= i < |s| ==>
      c.labels[i] == Label(s[i]) && c.income[i] == OrZero(s[i].taxableIncome) && c.expenses[i] == OrZero(s[i].allowableExpenses)
  {
    ChartSeries(
      seq(|s|, i requires 0 <= i < |s| => Label(s[i])),
      seq(|s|, i requires 0 <= i < |s| => OrZero(s[i].taxableIncome)),
      seq(|s|, i requires 0 <= i < |s| => OrZero(s[i].allowableExpenses)))
  }

  /** What updateChartData puts into the chart for the input `quarters` (`None` for null). */
  function ChartData(quarters: Option<seq<QuarterlyUpdate>>): (c: ChartSeries)
  {
    if quarters.None? || quarters.value == [] then ChartSeries([], [], [])
    else Project(SortQuarters(quarters.value))
  }

  /** A missing or empty input gives an empty chart. */
  lemma EmptyChart(quarters: Option<seq<QuarterlyUpdate>>)
    requires quarters.None? || quarters.value == []
    ensures ChartData(quarters) == ChartSeries([], [], [])
  {
  }

  /**
   * For a non-empty input the chart is the projection of an ordering of the
   * input's quarters that is in comparator order and keeps equal keys in
   * input order; the three rows are aligned with it.
   */
  lemma ChartDataFromSortedCopy(qs: seq<QuarterlyUpdate>)
    requires qs != []
    ensures var s := SortQuarters(qs);
      && SortedByComparator(s) && multiset(s) == multiset(qs)
      && (forall k :: WithKey(s, k) == WithKey(qs, k))
      && var c := ChartData(Some(qs));
      && |c.labels| == |qs| && |c.income| == |qs| && |c.expenses| == |qs|
      && forall i :: 0 <= i < |qs| ==>
        c.labels[i] == Label(s[i]) && c.income[i] == OrZero(s[i].taxableIncome) && c.expenses[i] == OrZero(s[i].allowableExpenses)
  {
    SortQuartersCorrect(qs);
    forall k {
      SortQuartersStable(qs, k);
    }
  }

  /** The label of the first quarter of tax year 2025/2026. */
  lemma LabelExample()
    ensures Label(QuarterlyUpdate(None, Some("Q1"), Some("2025/2026"), None, None, None)) == "Q1 25/2026"
  {
    assert "2025/2026"[2..] == "25/2026";
  }

  /** The chart component: its `quarters` input and the chart data it shows. */
  class QuarterlyTrendChartComponent {
    var quarters: Option<seq<QuarterlyUpdate>>
    var labels: seq<string>
    var incomeData: seq<int>
    var expensesData: seq<int>
    /** How many times the chart data object was replaced by a fresh copy (the chart's redraw signal). */
    var chartDataReplaced: nat

    constructor()
      ensures quarters == Some([]) && labels == [] && incomeData == [] && expensesData == []
      ensures chartDataReplaced == 0
    {
      quarters := Some([]);
      labels, incomeData, expensesData := [], [], [];
      chartDataReplaced := 0;
    }

    method UpdateChartData()
      modifies this
      ensures quarters == old(quarters)
      ensures ChartSeries(labels, incomeData, expensesData) == ChartData(quarters)
      ensures chartDataReplaced == if quarters.None? || quarters.value == [] then old(chartDataReplaced) else old(chartDataReplaced) + 1
    {
      if quarters.None? || |quarters.value| == 0 {
        labels := [];
        incomeData := [];
        expensesData := [];
        return;
      }
      var sortedQuarters := SortQuarters(quarters.value);
      var c := Project(sortedQuarters);
      labels := c.labels;
      incomeData := c.income;
      expensesData := c.expenses;
      chartDataReplaced := chartDataReplaced + 1;
    }

    method NgOnInit()
      modifies this
      ensures quarters == old(quarters)
      ensures ChartSeries(labels, incomeData, expensesData) == ChartData(quarters)
      ensures chartDataReplaced == old(chartDataReplaced) + if quarters.Some? && quarters.value != [] then 1 else 0
    {
      UpdateChartData();
    }

    /** ngOnChanges: `quartersChanged` tells whether the changes include the `quarters` input. */
    method NgOnChanges(quartersChanged: bool)
      modifies this
      ensures quarters == old(quarters)
      ensures quartersChanged && quarters.Some? ==> ChartSeries(labels, incomeData, expensesData) == ChartData(quarters)
      ensures quartersChanged && quarters.Some? ==>
        chartDataReplaced == old(chartDataReplaced) + if quarters.value != [] then 1 else 0
      ensures !(quartersChanged && quarters.Some?) ==>
        labels == old(labels) && incomeData == old(incomeData) && expensesData == old(expensesData)
        && chartDataReplaced == old(chartDataReplaced)
    {
      if quartersChanged && quarters.Some? {
        UpdateChartData();
      }
    }
  }
}
