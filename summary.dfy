/**
 * `get_summary`: the log is put in date order, then its total, mean per
 * entry, highest and lowest day and entry count are read off the totals.
 */
module Summaries {
  import opened Emissions
  import opened Aggregates

  const NoSummaryMessage := "No data available"

  /** Either the "no data" marker or the five summary figures. */
  datatype SummaryResult =
    | NoSummary(message: string)
    | Summary(totalEmissions: real, averageDailyEmissions: real,
              highestEmissionDay: Day, lowestEmissionDay: Day, numberOfEntries: nat)

  /** The `total_emissions` column of a sequence of entries. */
  function Totals(entries: seq<Entry>): seq<real>
  {
    seq(|entries|, i requires 0 <= i < |entries| => entries[i].totalEmissions)
  }

  ghost predicate SortedByDate(s: seq<Entry>)
  {
    forall i, j :: 0 <= i < j < |s| ==> s[i].date <= s[j].date
  }

  /** Places `e` before the first entry whose date is not earlier than its own. */
  function InsertByDate(e: Entry, s: seq<Entry>): (r: seq<Entry>)
    requires SortedByDate(s)
    ensures SortedByDate(r)
    ensures multiset(r) == multiset(s) + multiset{e}
  {
    if s == [] then [e]
    else if e.date <= s[0].date then [e] + s
    else
      var rest := InsertByDate(e, s[1..]);
      assert s == [s[0]] + s[1..];
      NotBefore(rest, s, e);
      [s[0]] + rest
  }

  /**
   * When `r` holds the tail of the sorted `s` plus an entry dated after `s[0]`,
   * no entry of `r` is dated before `s[0]`.
   */
  lemma NotBefore(r: seq<Entry>, s: seq<Entry>, e: Entry)
    requires SortedByDate(s) && s != [] && s[0].date < e.date
    requires multiset(r) == multiset(s[1..]) + multiset{e}
    ensures forall i :: 0 <= i < |r| ==> s[0].date <= r[i].date
  {
    forall i | 0 <= i < |r| ensures s[0].date <= r[i].date {
      assert r[i] in multiset(r);
      if r[i] != e {
        assert r[i] in multiset(s[1..]);
        var j :| 0 <= j < |s[1..]| && s[1..][j] == r[i];
        assert s[j + 1] == r[i];
      }
    }
  }

  /**
   * The log in date order (the frame's `sort_values('date')`). The order of
   * entries sharing a date is not promised: nothing reported depends on it.
   */
  function SortByDate(s: seq<Entry>): (r: seq<Entry>)
    ensures SortedByDate(r)
    ensures multiset(r) == multiset(s)
    ensures |r| == |s|
  {
    if s == [] then []
    else
      assert s == [s[0]] + s[1..];
      InsertByDate(s[0], SortByDate(s[1..]))
  }

  /** The summary `get_summary` reports for the log `data`. */
  function Summarize(data: seq<Entry>): (r: SummaryResult)
    ensures r.NoSummary? <==> data == []
    ensures r.NoSummary? ==> r.message == NoSummaryMessage
  {
    if data == [] then NoSummary(NoSummaryMessage)
    else
      var frame := SortByDate(data);
      var totals := Totals(frame);
      var total := Sum(totals);
      Summary(total, total / (|frame| as real),
              frame[IndexOfFirstMax(totals)].date,
              frame[IndexOfFirstMin(totals)].date,
              |frame|)
  }

  // ---------------------------------------------------------------------------
  // The reported figures in terms of the log itself

  lemma TotalsAppend(a: seq<Entry>, b: seq<Entry>)
    ensures Totals(a + b) == Totals(a) + Totals(b)
  {
  }

  /** Sorting by date does not change the sum of the totals. */
  lemma SortKeepsTotal(s: seq<Entry>)
    ensures Sum(Totals(SortByDate(s))) == Sum(Totals(s))
  {
    TotalSumIgnoresOrder(SortByDate(s), s);
  }

  /**
   * For a non-empty log: the total is the sum of the entry totals, the count is
   * the number of entries, and the mean divides by entries, not by distinct days.
   */
  lemma SummaryFigures(data: seq<Entry>)
    requires data != []
    ensures Summarize(data).totalEmissions == Sum(Totals(data))
    ensures Summarize(data).numberOfEntries == |data|
    ensures Summarize(data).averageDailyEmissions == Sum(Totals(data)) / (|data| as real)
  {
    SortKeepsTotal(data);
  }

  /** Logging one more entry adds its total to the summary total and one to the count. */
  lemma SummaryAfterAppend(data: seq<Entry>, e: Entry)
    ensures Summarize(data + [e]).totalEmissions == Sum(Totals(data)) + e.totalEmissions
    ensures Summarize(data + [e]).numberOfEntries == |data| + 1
  {
    SummaryFigures(data + [e]);
    TotalsAppend(data, [e]);
    SumAppend(Totals(data), [e.totalEmissions]);
    assert Sum([e.totalEmissions]) == e.totalEmissions by { SumAppend([], [e.totalEmissions]); }
  }

  // ---------------------------------------------------------------------------
  // Highest and lowest day

  /** `e` is a logged entry whose total no logged entry exceeds. */
  ghost predicate IsPeak(data: seq<Entry>, e: Entry)
  {
    e in data && forall x :: x in data ==> x.totalEmissions <= e.totalEmissions
  }

  /** `e` is a logged entry whose total no logged entry undercuts. */
  ghost predicate IsTrough(data: seq<Entry>, e: Entry)
  {
    e in data && forall x :: x in data ==> e.totalEmissions <= x.totalEmissions
  }

  /** `d` is the date of a highest-total entry, and no entry with that total is dated earlier. */
  ghost predicate IsHighestDay(data: seq<Entry>, d: Day)
  {
    exists e :: IsPeak(data, e) && e.date == d &&
      forall x :: x in data && x.totalEmissions == e.totalEmissions ==> d <= x.date
  }

  /** `d` is the date of a lowest-total entry, and no entry with that total is dated earlier. */
  ghost predicate IsLowestDay(data: seq<Entry>, d: Day)
  {
    exists e :: IsTrough(data, e) && e.date == d &&
      forall x :: x in data && x.totalEmissions == e.totalEmissions ==> d <= x.date
  }

  /** The highest day reported is the earliest date among the entries with the largest total. */
  lemma HighestDayIsEarliestPeak(data: seq<Entry>)
    requires data != []
    ensures IsHighestDay(data, Summarize(data).highestEmissionDay)
  {
    var frame := SortByDate(data);
    var totals := Totals(frame);
    var k := IndexOfFirstMax(totals);
    assert forall j :: 0 <= j < |frame| ==> totals[j] == frame[j].totalEmissions;
    EarliestPeakOfSorted(data, frame, k);
  }

  /**
   * In a date-sorted copy of the log, the first entry with the extreme total is
   * dated no later than any other entry with that total.
   */
  lemma EarliestPeakOfSorted(data: seq<Entry>, frame: seq<Entry>, k: nat)
    requires SortedByDate(frame) && multiset(frame) == multiset(data)
    requires k < |frame|
    requires forall j :: 0 <= j < |frame| ==> frame[j].totalEmissions <= frame[k].totalEmissions
    requires forall j :: 0 <= j < k ==> frame[j].totalEmissions < frame[k].totalEmissions
    ensures IsHighestDay(data, frame[k].date)
  {
    var e := frame[k];
    assert e in multiset(frame);
    forall x | x in data
      ensures x.totalEmissions <= e.totalEmissions
      ensures x.totalEmissions == e.totalEmissions ==> e.date <= x.date
    {
      assert x in multiset(data);
      var j :| 0 <= j < |frame| && frame[j] == x;
    }
    assert IsPeak(data, e);
  }


  /** The lowest day reported is the earliest date among the entries with the smallest total. */
  lemma LowestDayIsEarliestTrough(data: seq<Entry>)
    requires data != []
    ensures IsLowestDay(data, Summarize(data).lowestEmissionDay)
  {
    var frame := SortByDate(data);
    var totals := Totals(frame);
    var k := IndexOfFirstMin(totals);
    assert forall j :: 0 <= j < |frame| ==> totals[j] == frame[j].totalEmissions;
    EarliestTroughOfSorted(data, frame, k);
  }

  /**
   * In a date-sorted copy of the log, the first entry with the extreme total is
   * dated no later than any other entry with that total.
   */
  lemma EarliestTroughOfSorted(data: seq<Entry>, frame: seq<Entry>, k: nat)
    requires SortedByDate(frame) && multiset(frame) == multiset(data)
    requires k < |frame|
    requires forall j :: 0 <= j < |frame| ==> frame[k].totalEmissions <= frame[j].totalEmissions
    requires forall j :: 0 <= j < k ==> frame[k].totalEmissions < frame[j].totalEmissions
    ensures IsLowestDay(data, frame[k].date)
  {
    var e := frame[k];
    assert e in multiset(frame);
    forall x | x in data
      ensures e.totalEmissions <= x.totalEmissions
      ensures x.totalEmissions == e.totalEmissions ==> e.date <= x.date
    {
      assert x in multiset(data);
      var j :| 0 <= j < |frame| && frame[j] == x;
    }
    assert IsTrough(data, e);
  }


  /** At most one day fits the description of the highest day. */
  lemma HighestDayUnique(data: seq<Entry>, d1: Day, d2: Day)
    requires IsHighestDay(data, d1) && IsHighestDay(data, d2)
    ensures d1 == d2
  {
  }

  /** At most one day fits the description of the lowest day. */
  lemma LowestDayUnique(data: seq<Entry>, d1: Day, d2: Day)
    requires IsLowestDay(data, d1) && IsLowestDay(data, d2)
    ensures d1 == d2
  {
  }

  // ---------------------------------------------------------------------------
  // The order in which entries were logged does not matter

  /** Two logs holding the same entries have the same sum of totals. */
  lemma TotalSumIgnoresOrder(a: seq<Entry>, b: seq<Entry>)
    requires multiset(a) == multiset(b)
    ensures Sum(Totals(a)) == Sum(Totals(b))
  {
    var total := (e: Entry) => e.totalEmissions;
    ColumnSumIgnoresOrder(a, b, total);
    assert Totals(a) == Column(a, total);
    assert Totals(b) == Column(b, total);
  }

  /** Logs holding the same entries have the same highest day. */
  lemma HighestDayIgnoresEntryOrder(a: seq<Entry>, b: seq<Entry>)
    requires a != [] && multiset(a) == multiset(b)
    ensures Summarize(a).highestEmissionDay == Summarize(b).highestEmissionDay
  {
    assert b != [] by { assert |b| == |multiset(b)|; }
    var da, db := Summarize(a).highestEmissionDay, Summarize(b).highestEmissionDay;
    HighestDayIsEarliestPeak(a);
    HighestDayIsEarliestPeak(b);
    assert forall x :: x in a <==> x in b by {
      forall x ensures x in a <==> x in b {
        assert x in a <==> x in multiset(a);
        assert x in b <==> x in multiset(b);
      }
    }
    assert IsHighestDay(a, db);
    HighestDayUnique(a, da, db);
  }

  /** Logs holding the same entries have the same lowest day. */
  lemma LowestDayIgnoresEntryOrder(a: seq<Entry>, b: seq<Entry>)
    requires a != [] && multiset(a) == multiset(b)
    ensures Summarize(a).lowestEmissionDay == Summarize(b).lowestEmissionDay
  {
    assert b != [] by { assert |b| == |multiset(b)|; }
    var da, db := Summarize(a).lowestEmissionDay, Summarize(b).lowestEmissionDay;
    LowestDayIsEarliestTrough(a);
    LowestDayIsEarliestTrough(b);
    assert forall x :: x in a <==> x in b by {
      forall x ensures x in a <==> x in b {
        assert x in a <==> x in multiset(a);
        assert x in b <==> x in multiset(b);
      }
    }
    assert IsLowestDay(a, db);
    LowestDayUnique(a, da, db);
  }

  /**
   * The summary depends only on which entries are logged, not on the order they
   * were logged in: the frame is sorted by date before anything is read off it.
   */
  lemma SummaryIgnoresEntryOrder(a: seq<Entry>, b: seq<Entry>)
    requires multiset(a) == multiset(b)
    ensures Summarize(a) == Summarize(b)
  {
    assert |a| == |multiset(a)| == |multiset(b)| == |b|;
    if a != [] {
      SummaryFigures(a);
      SummaryFigures(b);
      TotalSumIgnoresOrder(a, b);
      HighestDayIgnoresEntryOrder(a, b);
      LowestDayIgnoresEntryOrder(a, b);
    }
  }
}
