/** `derive_years_of_experience`: sort, merge and sum the work intervals, and what the
    matching algorithm reads back from the result. */
module Experience {
  import opened Common
  import opened Text

  /** One validated work-experience entry. */
  datatype Entry = Entry(isWork: bool, start: Option<string>, end: Option<string>)

  /** Months counted from year zero, both ends included. */
  datatype Interval = Interval(start: int, end: int)

  /** `^\d{4}-(0[1-9]|1[0-2])$`. */
  predicate MonthShaped(s: string) {
    && |s| == 7 && s[4] == '-'
    && (forall i :: 0 <= i < 7 && i != 4 ==> IsDigit(s[i]))
    && 1 <= Value(s[5..]) <= 12
  }

  function MonthIndex(s: string): Option<int> {
    if !MonthShaped(s) then None else Some(Value(s[..4]) * 12 + Value(s[5..]) - 1)
  }

  function MonthText(year: nat, month: nat): string
    requires year < 10000 && month < 100
  {
    [Digit(year / 1000), Digit(year / 100 % 10), Digit(year / 10 % 10), Digit(year % 10), '-', Digit(month / 10), Digit(month % 10)]
  }

  /** `YYYY-MM` is read back as a month index exactly when it names a month. */
  lemma MonthReadsBack(year: nat, month: nat)
    requires year < 10000 && month < 100
    ensures MonthIndex(MonthText(year, month)) == if 1 <= month <= 12 then Some(year * 12 + month - 1) else None
  {
    var s := MonthText(year, month);
    var y := [Digit(year / 1000), Digit(year / 100 % 10), Digit(year / 10 % 10), Digit(year % 10)];
    var m := [Digit(month / 10), Digit(month % 10)];
    assert s[..4] == y && s[5..] == m && s[4] == '-';
    FourDigits(year);
    TwoDigits(month);
    hide Value;
  }

  lemma OneDigit(d: nat)
    requires d < 10
    ensures Value([Digit(d)]) == d
  {
    assert [Digit(d)][..0] == [];
  }

  lemma DigitAppends(s: string, d: nat)
    requires (forall i :: 0 <= i < |s| ==> IsDigit(s[i])) && d < 10
    ensures Value(s + [Digit(d)]) == 10 * Value(s) + d
  {
    assert (s + [Digit(d)])[..|s|] == s;
  }

  lemma TwoDigits(n: nat)
    requires n < 100
    ensures Value([Digit(n / 10), Digit(n % 10)]) == n
  {
    hide Value;
    OneDigit(n / 10);
    DigitAppends([Digit(n / 10)], n % 10);
    assert [Digit(n / 10)] + [Digit(n % 10)] == [Digit(n / 10), Digit(n % 10)];
  }

  lemma FourDigits(n: nat)
    requires n < 10000
    ensures Value([Digit(n / 1000), Digit(n / 100 % 10), Digit(n / 10 % 10), Digit(n % 10)]) == n
  {
    hide Value, Digit;
    TwoDigits(n / 100);
    var s := [Digit(n / 1000), Digit(n / 100 % 10)];
    DigitAppends(s, n / 10 % 10);
    DigitAppends(s + [Digit(n / 10 % 10)], n % 10);
    assert s + [Digit(n / 10 % 10)] + [Digit(n % 10)] == [Digit(n / 1000), Digit(n / 100 % 10), Digit(n / 10 % 10), Digit(n % 10)];
  }

  /** The interval an entry contributes, with `today` as a month index. */
  function IntervalOf(entry: Entry, today: int): Option<Interval> {
    if !entry.isWork || entry.start.None? || entry.start.value == "" || entry.end.None? || entry.end.value == "" then None
    else
      var start := MonthIndex(entry.start.value);
      var end := if entry.end.value == "present" then Some(today) else MonthIndex(entry.end.value);
      if start.Some? && end.Some? && start.value <= end.value then Some(Interval(start.value, end.value)) else None
  }

  function Intervals(entries: seq<Entry>, today: int): (r: seq<Interval>)
    ensures forall x :: x in r ==> x.start <= x.end
  {
    if entries == [] then []
    else
      var n := |entries| - 1;
      var last := IntervalOf(entries[n], today);
      Intervals(entries[..n], today) + (if last.Some? then [last.value] else [])
  }

  // ----- the declarative reading --------------------------------------------

  predicate InMonth(x: Interval, m: int) {
    x.start <= m <= x.end
  }

  /** The entry is work, not an internship, and month `m` lies between its two months;
      an end of "present" stands for `today`. */
  predicate Works(entry: Entry, today: int, m: int) {
    && entry.isWork && entry.start.Some? && entry.end.Some?
    && MonthIndex(entry.start.value).Some? && MonthIndex(entry.start.value).value <= m
    && (if entry.end.value == "present" then m <= today
        else MonthIndex(entry.end.value).Some? && m <= MonthIndex(entry.end.value).value)
  }

  /** A month is covered when the candidate worked in it. */
  ghost predicate Covered(entries: seq<Entry>, today: int, m: int) {
    exists i :: 0 <= i < |entries| && Works(entries[i], today, m)
  }

  lemma WorksIff(entry: Entry, today: int, m: int)
    ensures Works(entry, today, m) <==> IntervalOf(entry, today).Some? && InMonth(IntervalOf(entry, today).value, m)
  {
    assert MonthIndex("").None?;
  }

  function Span(x: Interval): set<int> {
    set m | x.start <= m <= x.end && InMonth(x, m)
  }

  /** The months of a list of intervals, in whatever order it is. */
  function Months(s: seq<Interval>): (r: set<int>)
    ensures forall m :: m in r <==> exists i :: 0 <= i < |s| && InMonth(s[i], m)
  {
    if s == [] then {}
    else
      var n := |s| - 1;
      var r := Months(s[..n]) + Span(s[n]);
      assert forall m :: m in r ==> exists i :: 0 <= i < |s| && InMonth(s[i], m) by {
        forall m | m in Months(s[..n]) ensures exists i :: 0 <= i < |s| && InMonth(s[i], m) {
          var i :| 0 <= i < n && InMonth(s[..n][i], m);
          assert InMonth(s[i], m);
        }
        assert forall m :: m in Span(s[n]) ==> InMonth(s[n], m);
      }
      assert forall i, m :: 0 <= i < n && InMonth(s[i], m) ==> InMonth(s[..n][i], m);
      r
  }

  lemma {:induction false} IntervalsOf(entries: seq<Entry>, today: int)
    ensures forall x :: x in Intervals(entries, today) <==> exists e :: e in entries && IntervalOf(e, today) == Some(x)
  {
    if entries != [] {
      var n := |entries| - 1;
      IntervalsOf(entries[..n], today);
      assert entries == entries[..n] + [entries[n]];
    }
  }

  lemma IntervalsCover(entries: seq<Entry>, today: int)
    ensures forall m :: m in Months(Intervals(entries, today)) <==> Covered(entries, today, m)
  {
    hide IntervalOf, Intervals, Works;
    var s := Intervals(entries, today);
    IntervalsOf(entries, today);
    forall m ensures m in Months(s) <==> Covered(entries, today, m) {
      if m in Months(s) {
        var i :| 0 <= i < |s| && InMonth(s[i], m);
        assert s[i] in s;
        var e :| e in entries && IntervalOf(e, today) == Some(s[i]);
        WorksIff(e, today, m);
      }
      if Covered(entries, today, m) {
        var i :| 0 <= i < |entries| && Works(entries[i], today, m);
        WorksIff(entries[i], today, m);
        assert entries[i] in entries;
        assert IntervalOf(entries[i], today).value in s;
        var k :| 0 <= k < |s| && s[k] == IntervalOf(entries[i], today).value;
        assert InMonth(s[k], m);
      }
    }
  }

  lemma {:induction false} SpanSize(x: Interval)
    requires x.start <= x.end
    ensures |Span(x)| == x.end - x.start + 1
    decreases x.end - x.start
  {
    if x.start == x.end {
      assert Span(x) == {x.start};
    } else {
      SpanSize(Interval(x.start, x.end - 1));
      assert Span(x) == Span(Interval(x.start, x.end - 1)) + {x.end};
    }
  }

  // ----- sorting ------------------------------------------------------------

  /** Tuple order. */
  predicate LessEqual(x: Interval, y: Interval) {
    x.start < y.start || (x.start == y.start && x.end <= y.end)
  }

  predicate Ascending(s: seq<Interval>) {
    forall i, j :: 0 <= i < j < |s| ==> LessEqual(s[i], s[j])
  }

  function Insert(x: Interval, s: seq<Interval>): (r: seq<Interval>)
    requires Ascending(s)
    ensures Ascending(r) && multiset(r) == multiset(s) + multiset{x}
    ensures forall y :: y in r <==> y in s || y == x
  {
    if s == [] || LessEqual(x, s[0]) then [x] + s
    else
      assert s == [s[0]] + s[1..];
      assert forall y :: y in s[1..] ==> LessEqual(s[0], y);
      [s[0]] + Insert(x, s[1..])
  }

  /** `list.sort()`. */
  function Sort(s: seq<Interval>): (r: seq<Interval>)
    ensures Ascending(r) && multiset(r) == multiset(s)
    ensures forall x :: x in r <==> x in s
  {
    if s == [] then []
    else
      assert s == [s[0]] + s[1..];
      Insert(s[0], Sort(s[1..]))
  }

  lemma SameMonths(s: seq<Interval>, t: seq<Interval>)
    requires forall x :: x in s <==> x in t
    ensures Months(s) == Months(t)
  {
    forall m ensures m in Months(s) <==> m in Months(t) {
      if m in Months(s) { var i :| 0 <= i < |s| && InMonth(s[i], m); assert s[i] in t; }
      if m in Months(t) { var i :| 0 <= i < |t| && InMonth(t[i], m); assert t[i] in s; }
    }
  }

  // ----- merging ------------------------------------------------------------

  /** Disjoint and not even adjacent. */
  predicate Apart(s: seq<Interval>) {
    && (forall i :: 0 <= i < |s| ==> s[i].start <= s[i].end)
    && (forall i, j :: 0 <= i < j < |s| ==> s[i].end + 1 < s[j].start)
  }

  function Total(s: seq<Interval>): int {
    if s == [] then 0 else Total(s[..|s| - 1]) + (s[|s| - 1].end - s[|s| - 1].start + 1)
  }

  lemma LastIsApart(s: seq<Interval>, n: nat)
    requires Apart(s) && |s| == n + 1
    ensures Months(s[..n]) !! Span(s[n]) && Apart(s[..n]) && s[n].start <= s[n].end
  {
    forall m | m in Months(s[..n]) ensures m !in Span(s[n]) {
      var i :| 0 <= i < n && InMonth(s[..n][i], m);
      assert s[i].end + 1 < s[n].start;
    }
  }

  lemma ApartMonths(s: seq<Interval>, n: nat)
    requires Apart(s) && |s| == n + 1
    ensures Apart(s[..n]) && |Months(s)| == |Months(s[..n])| + (s[n].end - s[n].start + 1)
  {
    hide Months, Span, Apart;
    LastIsApart(s, n);
    SpanSize(s[n]);
    MonthsAppend(s[..n], s[n]);
    assert s == s[..n] + [s[n]];
    DisjointSizes(Months(s[..n]), Span(s[n]));
  }

  lemma {:induction false} ApartTotal(s: seq<Interval>)
    requires Apart(s)
    ensures Total(s) == |Months(s)|
  {
    hide Apart, Months;
    if s == [] {
      NoMonths();
    } else {
      var n := |s| - 1;
      ApartMonths(s, n);
      ApartTotal(s[..n]);
    }
  }

  lemma NoMonths()
    ensures Months([]) == {}
  {}

  lemma DisjointSizes(s: set<int>, t: set<int>)
    requires s !! t
    ensures |s + t| == |s| + |t|
  {}

  lemma MonthsAppend(s: seq<Interval>, x: Interval)
    ensures Months(s + [x]) == Months(s) + Span(x)
  {
    assert (s + [x])[..|s|] == s;
  }

  /** Stretching the last interval adds exactly the months of the new one. */
  lemma MonthsStretch(s: seq<Interval>, x: Interval)
    requires s != [] && s[|s| - 1].start <= x.start <= s[|s| - 1].end + 1 && x.start <= x.end
    requires s[|s| - 1].start <= s[|s| - 1].end
    ensures var last := s[|s| - 1]; var end := if last.end >= x.end then last.end else x.end;
      Months(s[|s| - 1 := Interval(last.start, end)]) == Months(s) + Span(x)
  {
    var n := |s| - 1;
    var end := if s[n].end >= x.end then s[n].end else x.end;
    var t := s[n := Interval(s[n].start, end)];
    assert t[..n] == s[..n] && t[n] == Interval(s[n].start, end);
    assert Span(t[n]) == Span(s[n]) + Span(x);
    assert Months(t) == Months(s[..n]) + Span(t[n]);
  }

  function MergeStep(merged: seq<Interval>, x: Interval): seq<Interval> {
    if merged == [] || x.start > merged[|merged| - 1].end + 1 then merged + [x]
    else
      var last := merged[|merged| - 1];
      merged[|merged| - 1 := Interval(last.start, if last.end >= x.end then last.end else x.end)]
  }

  lemma MergeStepCovers(merged: seq<Interval>, x: Interval)
    requires Apart(merged) && x.start <= x.end && (merged != [] ==> merged[|merged| - 1].start <= x.start)
    ensures Apart(MergeStep(merged, x)) && Months(MergeStep(merged, x)) == Months(merged) + Span(x)
    ensures MergeStep(merged, x) != [] && MergeStep(merged, x)[|MergeStep(merged, x)| - 1].start <= x.start
  {
    hide Months, Span;
    if merged == [] || x.start > merged[|merged| - 1].end + 1 {
      MonthsAppend(merged, x);
    } else {
      MonthsStretch(merged, x);
    }
  }

  /** The loop over the sorted intervals; `merged[-1][1]` is updated in place. */
  method Merge(intervals: seq<Interval>) returns (merged: seq<Interval>)
    requires Ascending(intervals) && forall x :: x in intervals ==> x.start <= x.end
    ensures Apart(merged) && Months(merged) == Months(intervals)
    ensures merged == [] <==> intervals == []
  {
    hide Apart, Months, Span;
    merged := [];
    assert Apart(merged) by { ApartNothing(); }
    for i := 0 to |intervals|
      invariant Apart(merged) && Months(merged) == Months(intervals[..i])
      invariant merged == [] <==> i == 0
      invariant i > 0 ==> merged[|merged| - 1].start <= intervals[i - 1].start
    {
      var x := intervals[i];
      assert intervals[..i + 1] == intervals[..i] + [x];
      MonthsAppend(intervals[..i], x);
      MergeStepCovers(merged, x);
      if merged == [] || x.start > merged[|merged| - 1].end + 1 {
        merged := merged + [x];
      } else {
        var last := merged[|merged| - 1];
        merged := merged[|merged| - 1 := Interval(last.start, if last.end >= x.end then last.end else x.end)];
      }
    }
    assert intervals[..|intervals|] == intervals;
  }

  lemma ApartNothing()
    ensures Apart([])
  {}

  /** The text as a function of the number of distinct months. */
  function Phrase(n: nat): string {
    if n < 12 then Decimal(n) + "个月" else Decimal((n + 6) / 12) + "年"
  }

  function ExperienceText(entries: seq<Entry>, today: int): string {
    var s := Intervals(entries, today);
    if s == [] then "unknown" else Phrase(|Months(s)|)
  }

  /** `derive_years_of_experience` as the source computes it. */
  method DeriveYearsOfExperience(entries: seq<Entry>, today: int) returns (text: string)
    ensures text == ExperienceText(entries, today)
  {
    var intervals: seq<Interval> := [];
    for i := 0 to |entries|
      invariant intervals == Intervals(entries[..i], today)
    {
      assert entries[..i + 1][..i] == entries[..i];
      var interval := IntervalOf(entries[i], today);
      if interval.Some? {
        intervals := intervals + [interval.value];
      }
    }
    assert entries[..|entries|] == entries;
    if intervals == [] {
      return "unknown";
    }
    SameMonths(intervals, Sort(intervals));
    var merged := Merge(Sort(intervals));
    var total := 0;
    for i := 0 to |merged|
      invariant total == Total(merged[..i])
    {
      assert merged[..i + 1][..i] == merged[..i];
      total := total + (merged[i].end - merged[i].start + 1);
    }
    assert merged[..|merged|] == merged;
    ApartTotal(merged);
    if total < 12 {
      return Decimal(total) + "个月";
    }
    return Decimal((total + 6) / 12) + "年";
  }

  /** The text says "unknown" exactly when no month was worked, and otherwise gives the
      number of months worked. */
  lemma TextCountsTheMonths(entries: seq<Entry>, today: int, months: set<int>)
    requires forall m :: m in months <==> Covered(entries, today, m)
    ensures ExperienceText(entries, today) == if months == {} then "unknown" else Phrase(|months|)
  {
    hide Covered, Phrase;
    IntervalsCover(entries, today);
    var s := Intervals(entries, today);
    assert Months(s) == months;
    if s != [] {
      assert s[0] in s && InMonth(s[0], s[0].start);
      assert s[0].start in Months(s);
    }
    hide Months, Intervals;
  }

  /** The order of the entries does not matter, nor do repetitions. */
  lemma OrderDoesNotMatter(entries: seq<Entry>, shuffled: seq<Entry>, today: int)
    requires forall e :: e in entries <==> e in shuffled
    ensures ExperienceText(entries, today) == ExperienceText(shuffled, today)
  {
    IntervalsOf(entries, today);
    IntervalsOf(shuffled, today);
    forall x ensures x in Intervals(entries, today) <==> x in Intervals(shuffled, today) {
      if x in Intervals(entries, today) { var e :| e in entries && IntervalOf(e, today) == Some(x); assert e in shuffled; }
      if x in Intervals(shuffled, today) { var e :| e in shuffled && IntervalOf(e, today) == Some(x); assert e in entries; }
    }
    assert Intervals(entries, today) == [] <==> Intervals(shuffled, today) == [] by {
      if Intervals(entries, today) != [] { assert Intervals(entries, today)[0] in Intervals(shuffled, today); }
      if Intervals(shuffled, today) != [] { assert Intervals(shuffled, today)[0] in Intervals(entries, today); }
    }
    SameMonths(Intervals(entries, today), Intervals(shuffled, today));
  }

  /** The rounded years stay within half a year of the months. */
  lemma RoundedYears(n: nat)
    requires n >= 12
    ensures var y := (n + 6) / 12; -6 <= n - 12 * y <= 5 && y >= 1
  {}
}
