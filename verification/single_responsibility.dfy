/**
 * Single responsibility: a sales repository that totals the mock sales in a
 * date range, formatters that turn a total into text, and a reporter that
 * composes the two.
 */
module SingleResponsibility {
  import opened Wrappers
  import Decimal

  /** A sale: when it was made (seconds since the epoch) and its charge in cents. */
  datatype Sale = Sale(createdAt: int, charge: nat)

  /** The repository's fixed data: 2024-01-15 14:43:40, 2024-01-20 09:30:00 and 2024-01-25 16:22:15, read as UTC. */
  function MockSales(): seq<Sale>
  {
    [Sale(1705329820, 21100), Sale(1705743000, 15000), Sale(1706199735, 30500)]
  }

  /** Both bounds are inclusive. */
  predicate InRange(sale: Sale, start: int, end: int)
  {
    start <= sale.createdAt <= end
  }

  /**
   * The sales made in [start, end]. FilteredCounts states that each sale in
   * range is kept as often as it occurs, and FilteredPrepend that the order
   * is the original one.
   */
  function Filtered(sales: seq<Sale>, start: int, end: int): (kept: seq<Sale>)
    ensures |kept| <= |sales|
    ensures forall x :: x in kept <==> x in sales && InRange(x, start, end)
  {
    if sales == [] then []
    else
      var rest := Filtered(sales[..|sales| - 1], start, end);
      var last := sales[|sales| - 1];
      assert sales == sales[..|sales| - 1] + [last];
      if InRange(last, start, end) then rest + [last] else rest
  }

  /** A sale in range is kept exactly as many times as it occurs; any other sale is dropped. */
  lemma {:induction false} FilteredCounts(sales: seq<Sale>, start: int, end: int, x: Sale)
    ensures multiset(Filtered(sales, start, end))[x] == if InRange(x, start, end) then multiset(sales)[x] else 0
    decreases |sales|
  {
    if sales != [] {
      var init := sales[..|sales| - 1];
      assert sales == init + [sales[|sales| - 1]];
      FilteredCounts(init, start, end, x);
    }
  }

  /** The sum of the charges, in cents. */
  function TotalCents(sales: seq<Sale>): nat
  {
    if sales == [] then 0 else TotalCents(sales[..|sales| - 1]) + sales[|sales| - 1].charge
  }

  /** Reference definition of the counted total: every sale, weighted 1 if it is in range and 0 otherwise. */
  function CountedCents(sales: seq<Sale>, start: int, end: int): nat
  {
    if sales == [] then 0
    else CountedCents(sales[1..], start, end) + (if InRange(sales[0], start, end) then sales[0].charge else 0)
  }

  lemma {:induction false} TotalCentsAppend(a: seq<Sale>, b: seq<Sale>)
    ensures TotalCents(a + b) == TotalCents(a) + TotalCents(b)
    decreases |b|
  {
    if b == [] {
      assert a + b == a;
    } else {
      assert (a + b)[..|a + b| - 1] == a + b[..|b| - 1];
      TotalCentsAppend(a, b[..|b| - 1]);
    }
  }

  lemma {:induction false} FilteredPrepend(s: Sale, rest: seq<Sale>, start: int, end: int)
    ensures Filtered([s] + rest, start, end) == (if InRange(s, start, end) then [s] else []) + Filtered(rest, start, end)
    decreases |rest|
  {
    if rest != [] {
      var all := [s] + rest;
      assert all[..|all| - 1] == [s] + rest[..|rest| - 1];
      FilteredPrepend(s, rest[..|rest| - 1], start, end);
    }
  }

  /** The total of the filtered sales is the total of the sales that are in range. */
  lemma {:induction false} FilteredTotal(sales: seq<Sale>, start: int, end: int)
    ensures TotalCents(Filtered(sales, start, end)) == CountedCents(sales, start, end)
    decreases |sales|
  {
    if sales != [] {
      assert sales == [sales[0]] + sales[1..];
      FilteredPrepend(sales[0], sales[1..], start, end);
      FilteredTotal(sales[1..], start, end);
      TotalCentsAppend(if InRange(sales[0], start, end) then [sales[0]] else [], Filtered(sales[1..], start, end));
    }
  }

  /** Narrowing the range never increases the counted total: charges are not negative. */
  lemma {:induction false} CountedMonotone(sales: seq<Sale>, start: int, end: int, start': int, end': int)
    requires start' <= start && end <= end'
    ensures CountedCents(sales, start, end) <= CountedCents(sales, start', end')
    decreases |sales|
  {
    if sales != [] {
      CountedMonotone(sales[1..], start, end, start', end');
    }
  }

  /** When every charge is a whole number of dollars, so is every counted total. */
  lemma {:induction false} CountedWhole(sales: seq<Sale>, start: int, end: int)
    requires forall x :: x in sales ==> x.charge % 100 == 0
    ensures CountedCents(sales, start, end) % 100 == 0
    decreases |sales|
  {
    if sales != [] {
      assert sales[0] in sales;
      assert forall x :: x in sales[1..] ==> x in sales;
      CountedWhole(sales[1..], start, end);
    }
  }

  /** The counted total of the mock data, one sale at a time. */
  lemma MockCounted(start: int, end: int)
    ensures CountedCents(MockSales(), start, end) ==
      (if InRange(Sale(1705329820, 21100), start, end) then 21100 else 0) +
      (if InRange(Sale(1705743000, 15000), start, end) then 15000 else 0) +
      (if InRange(Sale(1706199735, 30500), start, end) then 30500 else 0)
  {
    var s := MockSales();
    var c2 := if InRange(s[2], start, end) then s[2].charge else 0;
    var c1 := if InRange(s[1], start, end) then s[1].charge else 0;
    assert s[1..][1..][1..] == [];
    assert CountedCents(s[1..][1..], start, end) == c2;
    assert CountedCents(s[1..], start, end) == c2 + c1;
  }

  /**
   * The total in dollars of the mock sales made in [start, end]. PHP's `/`
   * gives an int here because the cent total is always a multiple of 100.
   */
  function Between(start: int, end: int): (dollars: int)
    ensures dollars * 100 == CountedCents(MockSales(), start, end)
  {
    var cents := TotalCents(Filtered(MockSales(), start, end));
    FilteredTotal(MockSales(), start, end);
    CountedWhole(MockSales(), start, end);
    cents / 100
  }

  /** A range that covers all three sales yields 211 + 150 + 305 = 666. */
  lemma BetweenAll(start: int, end: int)
    requires start <= 1705329820 && 1706199735 <= end
    ensures Between(start, end) == 666
  {
    MockCounted(start, end);
  }

  /** A range that holds none of the sales yields 0. */
  lemma BetweenNone(start: int, end: int)
    requires forall x :: x in MockSales() ==> !InRange(x, start, end)
    ensures Between(start, end) == 0
  {
    var s := MockSales();
    assert s[0] in s && s[1] in s && s[2] in s;
    MockCounted(start, end);
  }

  /** Widening the range never decreases the total. */
  lemma BetweenMonotone(start: int, end: int, start': int, end': int)
    requires start' <= start && end <= end'
    ensures Between(start, end) <= Between(start', end')
  {
    CountedMonotone(MockSales(), start, end, start', end');
  }

  /** The formatters that implement the output interface (JSON is not modelled). */
  datatype Formatter = HTMLOutput | CSVOutput

  /**
   * The HTML formatter wraps the total in a heading; the CSV one puts it on
   * the line after a "Sales" header. Either way the total's text can be cut
   * out of the result and read back exactly.
   */
  function Output(formatter: Formatter, sales: int): (text: string)
    ensures formatter.HTMLOutput? ==>
      |text| >= 16 && text[..11] == "<h1>Sales: " && text[|text| - 5..] == "</h1>" &&
      Decimal.Parse(text[11..|text| - 5]) == Some(sales)
    ensures formatter.CSVOutput? ==>
      |text| >= 6 && text[..6] == "Sales\n" && Decimal.Parse(text[6..]) == Some(sales)
  {
    Decimal.ParseRender(sales);
    var r := Decimal.Render(sales);
    assert ("<h1>Sales: " + r + "</h1>")[11..|r| + 11] == r;
    assert ("Sales\n" + r)[6..] == r;
    match formatter
    case HTMLOutput => "<h1>Sales: " + Decimal.Render(sales) + "</h1>"
    case CSVOutput => "Sales\n" + Decimal.Render(sales)
  }

  /** Recovers the total from a formatter's text; None when the text is not that formatter's shape. */
  function ReadBack(formatter: Formatter, text: string): Option<int>
  {
    match formatter
    case HTMLOutput =>
      if |text| >= 16 && text[..11] == "<h1>Sales: " && text[|text| - 5..] == "</h1>"
      then Decimal.Parse(text[11..|text| - 5]) else None
    case CSVOutput =>
      if |text| >= 6 && text[..6] == "Sales\n" then Decimal.Parse(text[6..]) else None
  }

  /** Each formatter's text carries the total it was given, exactly. */
  lemma ReadBackOutput(formatter: Formatter, sales: int)
    ensures ReadBack(formatter, Output(formatter, sales)) == Some(sales)
  {
  }

  /**
   * A formatter's text is the only text that reads back as its total:
   * reading back succeeds with `sales` exactly on Output(formatter, sales).
   */
  lemma ReadBackExact(formatter: Formatter, text: string, sales: int)
    ensures ReadBack(formatter, text) == Some(sales) <==> text == Output(formatter, sales)
  {
    ReadBackOutput(formatter, sales);
    if ReadBack(formatter, text) == Some(sales) {
      match formatter
      case HTMLOutput =>
        Decimal.RenderParse(text[11..|text| - 5], sales);
        assert text == text[..11] + text[11..|text| - 5] + text[|text| - 5..];
      case CSVOutput =>
        Decimal.RenderParse(text[6..], sales);
        assert text == text[..6] + text[6..];
    }
  }

  /** The sample total of 556 dollars through each formatter. */
  lemma OutputExamples()
    ensures Output(HTMLOutput, 556) == "<h1>Sales: 556</h1>"
    ensures Output(CSVOutput, 556) == "Sales\n556"
  {
    assert Decimal.Render(556) == "556";
  }

  /**
   * The reporter: the repository's total for the range, through the chosen
   * formatter. The report is the one text that reads back as that total.
   */
  function ReportBetween(formatter: Formatter, start: int, end: int): (report: string)
    ensures ReadBack(formatter, report) == Some(Between(start, end))
    ensures forall text :: ReadBack(formatter, text) == Some(Between(start, end)) ==> text == report
  {
    ReadBackOutput(formatter, Between(start, end));
    forall text | ReadBack(formatter, text) == Some(Between(start, end))
      ensures text == Output(formatter, Between(start, end))
    {
      ReadBackExact(formatter, text, Between(start, end));
    }
    Output(formatter, Between(start, end))
  }
}
