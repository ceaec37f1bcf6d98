/** The sales screen: bills loaded newest first, a date range picked side by
    side, and a report over the bills whose date lies in the range. Dates are
    timestamps compared as they are, with both ends included. */
module Sales {
  import opened Wrappers
  import opened Seqs
  import opened Store

  /** Why no report is produced. */
  datatype ReportError = InvalidRange | NoData

  /** The data handed to the report generator. */
  datatype Report = Report(sales: seq<Bill>, fromDate: int, toDate: int, totalAmount: int)

  /** The bills dated within `[fromDate, toDate]`, in their order. */
  function InRange(sales: seq<Bill>, fromDate: int, toDate: int): seq<Bill>
  {
    Filter(sales, (b: Bill) => fromDate <= b.date <= toDate)
  }

  /** The bills in range keep their relative order: the filter of a
      concatenation is the concatenation of the filters. */
  lemma InRangeOrder(a: seq<Bill>, b: seq<Bill>, fromDate: int, toDate: int)
    ensures InRange(a + b, fromDate, toDate) == InRange(a, fromDate, toDate) + InRange(b, fromDate, toDate)
  {
    FilterConcat(a, b, (x: Bill) => fromDate <= x.date <= toDate);
  }

  /** A bill in range occurs in the result exactly as often as in the input,
      and a bill out of range not at all. */
  lemma InRangeMultiplicity(sales: seq<Bill>, fromDate: int, toDate: int, b: Bill)
    ensures multiset(InRange(sales, fromDate, toDate))[b] ==
      if fromDate <= b.date <= toDate then multiset(sales)[b] else 0
  {
    FilterMultiset(sales, (x: Bill) => fromDate <= x.date <= toDate, b);
  }

  /** The sum of the bills' totals. */
  function SalesTotal(bills: seq<Bill>): int
  {
    if bills == [] then 0 else bills[0].total + SalesTotal(bills[1..])
  }

  /** `handleGenerateReport`: a reversed range and an empty result produce no
      report; otherwise the report holds exactly the bills in range, in order,
      and the sum of their totals. */
  function BuildReport(sales: seq<Bill>, fromDate: int, toDate: int): (r: Result<Report, ReportError>)
    ensures r == Err(InvalidRange) <==> fromDate > toDate
    ensures r == Err(NoData) <==> fromDate <= toDate && forall i :: 0 <= i < |sales| ==> !(fromDate <= sales[i].date <= toDate)
    ensures r.Ok? ==> r.value.fromDate == fromDate && r.value.toDate == toDate && r.value.sales != []
    ensures r.Ok? ==> r.value.sales == InRange(sales, fromDate, toDate)
    ensures r.Ok? ==> forall i :: 0 <= i < |r.value.sales| ==> r.value.sales[i] in sales && fromDate <= r.value.sales[i].date <= toDate
    ensures r.Ok? ==> forall i :: 0 <= i < |sales| && fromDate <= sales[i].date <= toDate ==> sales[i] in r.value.sales
    ensures r.Ok? ==> r.value.totalAmount == SalesTotal(r.value.sales)
  {
    if fromDate > toDate then Err(InvalidRange)
    else
      var filtered := InRange(sales, fromDate, toDate);
      if filtered == [] then Err(NoData)
      else Ok(Report(filtered, fromDate, toDate, SalesTotal(filtered)))
  }

  /** The total of a concatenation is the sum of the totals. */
  lemma {:induction false} SalesTotalConcat(a: seq<Bill>, b: seq<Bill>)
    ensures SalesTotal(a + b) == SalesTotal(a) + SalesTotal(b)
  {
    if a == [] {
      assert a + b == b;
    } else {
      assert (a + b)[1..] == a[1..] + b;
      SalesTotalConcat(a[1..], b);
    }
  }

  /** The total over a range, one bill at a time: the first bill counts when
      it is in range, then the rest. */
  lemma RangeTotalStep(sales: seq<Bill>, from: int, to: int)
    requires sales != []
    ensures SalesTotal(InRange(sales, from, to)) ==
      (if from <= sales[0].date <= to then sales[0].total else 0) + SalesTotal(InRange(sales[1..], from, to))
  {
    var b := sales[0];
    var rest := InRange(sales[1..], from, to);
    assert InRange(sales, from, to) == (if from <= b.date <= to then [b] else []) + rest;
    SalesTotalConcat(if from <= b.date <= to then [b] else [], rest);
    assert SalesTotal([b]) == b.total by { assert [b][1..] == []; }
  }

  /** Splitting a range after day `mid` splits the reported total: the total
      over `[from, to]` is the total over `[from, mid]` plus that over `[mid + 1, to]`. */
  lemma {:induction false} SplitRangeTotal(sales: seq<Bill>, from: int, mid: int, to: int)
    requires from <= mid < to
    ensures SalesTotal(InRange(sales, from, to)) ==
      SalesTotal(InRange(sales, from, mid)) + SalesTotal(InRange(sales, mid + 1, to))
  {
    if sales != [] {
      SplitRangeTotal(sales[1..], from, mid, to);
      RangeTotalStep(sales, from, to);
      RangeTotalStep(sales, from, mid);
      RangeTotalStep(sales, mid + 1, to);
    }
  }

  /** Bills dated on days 1, 3 and 5 with totals 10, 20 and 30, reported over
      days 2 to 4: the report holds the second bill alone, with total 20. */
  lemma ReportExample(b1: Bill, b3: Bill, b5: Bill)
    requires b1.date == 1 && b3.date == 3 && b5.date == 5
    requires b1.total == 10 && b3.total == 20 && b5.total == 30
    ensures BuildReport([b1, b3, b5], 2, 4) == Ok(Report([b3], 2, 4, 20))
  {
    var keep := (b: Bill) => 2 <= b.date <= 4;
    assert [b1, b3, b5][1..] == [b3, b5];
    assert [b3, b5][1..] == [b5];
    assert [b5][1..] == [];
    assert Filter([b5], keep) == [];
    assert Filter([b3, b5], keep) == [b3];
    assert InRange([b1, b3, b5], 2, 4) == [b3];
    assert SalesTotal([b3]) == 20;
  }

  /** Newest first: dates never increase along the list. */
  predicate SortedByDateDesc(s: seq<Bill>)
  {
    forall i, j :: 0 <= i < j < |s| ==> s[i].date >= s[j].date
  }

  /** `b` placed after every bill at least as recent, so that bills with equal
      dates keep their order. */
  function Insert(s: seq<Bill>, b: Bill): (r: seq<Bill>)
    requires SortedByDateDesc(s)
    ensures SortedByDateDesc(r)
    ensures multiset(r) == multiset(s) + multiset{b}
  {
    if s == [] then [b]
    else if s[0].date >= b.date then
      var rest := Insert(s[1..], b);
      assert s == [s[0]] + s[1..];
      forall k | 0 <= k < |rest| ensures rest[k].date <= s[0].date {
        assert rest[k] in multiset(rest);
      }
      [s[0]] + rest
    else
      [b] + s
  }

  /** `loadSales`'s sort: the stored bills, newest first. */
  method SortByDateDesc(bills: seq<Bill>) returns (sorted: seq<Bill>)
    ensures SortedByDateDesc(sorted)
    ensures multiset(sorted) == multiset(bills)
  {
    sorted := [];
    for i := 0 to |bills|
      invariant SortedByDateDesc(sorted)
      invariant multiset(sorted) == multiset(bills[..i])
    {
      assert bills[..i + 1] == bills[..i] + [bills[i]];
      sorted := Insert(sorted, bills[i]);
    }
    assert bills[..|bills|] == bills;
  }

  /** Which end of the range the date picker edits. */
  datatype Side = From | To

  class SalesScreen {
    var sales: seq<Bill>
    var fromDate: int
    var toDate: int
    var picking: Option<Side>

    /** Opens with both ends of the range at `now`. */
    constructor (now: int)
      ensures sales == [] && fromDate == now && toDate == now && picking == None
    {
      sales, fromDate, toDate, picking := [], now, now, None;
    }

    /** `loadSales`: the stored bills, newest first. */
    method LoadSales(db: Database)
      modifies this
      ensures SortedByDateDesc(sales) && multiset(sales) == multiset(Read(db.bills))
      ensures fromDate == old(fromDate) && toDate == old(toDate) && picking == old(picking)
    {
      var stored := db.GetBills();
      sales := SortByDateDesc(stored);
    }

    /** `showDatePicker`. */
    method ShowDatePicker(side: Side)
      modifies this
      ensures picking == Some(side)
      ensures sales == old(sales) && fromDate == old(fromDate) && toDate == old(toDate)
    {
      picking := Some(side);
    }

    /** `handleDateChange`: a picked date replaces the start of the range when
        the start is being picked, and the end otherwise; a cancelled pick
        changes nothing. */
    method DateChange(picked: Option<int>)
      modifies this
      ensures picked.None? ==> fromDate == old(fromDate) && toDate == old(toDate)
      ensures picked.Some? && picking == Some(From) ==> fromDate == picked.value && toDate == old(toDate)
      ensures picked.Some? && picking != Some(From) ==> toDate == picked.value && fromDate == old(fromDate)
      ensures sales == old(sales) && picking == old(picking)
    {
      if picked.Some? {
        if picking == Some(From) {
          fromDate := picked.value;
        } else {
          toDate := picked.value;
        }
      }
    }

    /** `handleGenerateReport`: the report to hand on, or why there is none. */
    method GenerateReport() returns (r: Result<Report, ReportError>)
      ensures r == BuildReport(sales, fromDate, toDate)
    {
      if fromDate > toDate {
        return Err(InvalidRange);
      }
      var filtered := InRange(sales, fromDate, toDate);
      if filtered == [] {
        return Err(NoData);
      }
      r := Ok(Report(filtered, fromDate, toDate, SalesTotal(filtered)));
    }
  }
}
