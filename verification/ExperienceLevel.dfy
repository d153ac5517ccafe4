/** What matching reads back from the experience text: `_extract_years` and
    `_level_from_years`, composed with the derivation. */
module ExperienceLevel {
  import opened Common
  import opened Text
  import opened Experience

  datatype Level = Low | Mid | High

  // ----- the two searches of _extract_years ---------------------------------

  /** The end of the digit run that starts at `i`. */
  function DigitsEnd(s: string, i: nat): (e: nat)
    requires i <= |s|
    ensures i <= e <= |s| && (forall k :: i <= k < e ==> IsDigit(s[k])) && (e < |s| ==> !IsDigit(s[e]))
    decreases |s| - i
  {
    if i == |s| || !IsDigit(s[i]) then i else DigitsEnd(s, i + 1)
  }

  function Power(n: nat): (p: real)
    ensures p >= 1.0
  {
    if n == 0 then 1.0 else 10.0 * Power(n - 1)
  }

  datatype Number = Number(value: real, end: nat)

  /** `\d+(?:\.\d+)?` at `i`. */
  function NumberAt(s: string, i: nat): Option<Number>
    requires i <= |s|
  {
    var e := DigitsEnd(s, i);
    if e == i then None
    else if e + 1 < |s| && s[e] == '.' && IsDigit(s[e + 1]) then
      var f := DigitsEnd(s, e + 1);
      Some(Number(Value(s[i..e]) as real + Value(s[e + 1..f]) as real / Power(f - e - 1), f))
    else Some(Number(Value(s[i..e]) as real, e))
  }

  predicate StartsWith(s: string, prefix: string) {
    prefix <= s
  }

  /** A number at `i`, then optional spaces, then one of the units. */
  function MeasureAt(s: string, i: nat, units: seq<string>): Option<real>
    requires i <= |s|
  {
    var number := NumberAt(s, i);
    if number.Some? && number.value.end <= |s|
       && (exists k :: 0 <= k < |units| && StartsWith(SkipSpaces(s[number.value.end..]), units[k]))
    then Some(number.value.value) else None
  }

  /** `re.search`: the leftmost occurrence. */
  function Search(s: string, i: nat, units: seq<string>): Option<real>
    requires i <= |s|
    decreases |s| - i
  {
    var here := MeasureAt(s, i, units);
    if here.Some? || i == |s| then here else Search(s, i + 1, units)
  }

  function Lower(c: char): char {
    if 'A' <= c <= 'Z' then (c as int + 32) as char else c
  }

  function Lowered(s: string): (r: string)
    ensures |r| == |s| && forall i :: 0 <= i < |s| ==> r[i] == Lower(s[i])
  {
    if s == [] then [] else [Lower(s[0])] + Lowered(s[1..])
  }

  const YEARS: seq<string> := ["年", "year"]
  const MONTHS: seq<string> := ["个月"]

  /** `_extract_years`; the year search runs on the case-folded text. */
  function ExtractYears(value: string): Option<real> {
    var years := Search(Lowered(value), 0, YEARS);
    if years.Some? then years
    else
      var months := Search(value, 0, MONTHS);
      if months.Some? then Some(months.value / 12.0) else None
  }

  function LevelFromYears(years: Option<real>): Level {
    if years.None? then Mid
    else if years.value <= 2.0 then Low
    else if years.value <= 5.0 then Mid
    else High
  }

  // ----- reading a derived text ---------------------------------------------

  lemma {:induction false} RunEnds(s: string, i: nat, e: nat)
    requires i <= e <= |s| && (forall k :: i <= k < e ==> IsDigit(s[k])) && (e < |s| ==> !IsDigit(s[e]))
    ensures DigitsEnd(s, i) == e
    decreases e - i
  {
    if i < e { RunEnds(s, i + 1, e); }
  }

  lemma AllDigits(digits: string, rest: string)
    requires digits != [] && (forall i :: 0 <= i < |digits| ==> IsDigit(digits[i]))
    requires rest != [] && !IsDigit(rest[0]) && rest[0] != '.'
    ensures NumberAt(digits + rest, 0) == Some(Number(Value(digits) as real, |digits|))
    ensures (digits + rest)[|digits|..] == rest
  {
    var s := digits + rest;
    assert s[..|digits|] == digits;
    RunEnds(s, 0, |digits|);
  }

  lemma DigitsStayLow(digits: string, rest: string)
    requires forall i :: 0 <= i < |digits| ==> IsDigit(digits[i])
    requires forall i :: 0 <= i < |rest| ==> !('A' <= rest[i] <= 'Z')
    ensures Lowered(digits + rest) == digits + rest
  {}

  lemma YearsRead(n: nat)
    ensures ExtractYears(Decimal(n) + "年") == Some(n as real)
  {
    var digits := Decimal(n);
    var s := digits + "年";
    DigitsStayLow(digits, "年");
    AllDigits(digits, "年");
    DecimalRoundTrip(n);
    assert SkipSpaces("年") == "年";
    assert StartsWith("年", YEARS[0]);
    assert MeasureAt(s, 0, YEARS) == Some(n as real);
  }

  /** No year unit follows any digit run of a month text. */
  lemma NoYearAt(digits: string, i: nat)
    requires (forall k :: 0 <= k < |digits| ==> IsDigit(digits[k])) && i <= |digits| + 2
    ensures MeasureAt(digits + "个月", i, YEARS) == None
  {
    var s := digits + "个月";
    if i < |digits| {
      RunEnds(s, i, |digits|);
      assert s[|digits|..] == "个月";
      assert LeadingSpaces("个月") == 0;
      assert NumberAt(s, i).value.end == |digits|;
    } else {
      assert i < |s| ==> !IsDigit(s[i]);
      assert DigitsEnd(s, i) == i;
    }
  }

  lemma {:induction false} NoYears(digits: string, i: nat)
    requires (forall k :: 0 <= k < |digits| ==> IsDigit(digits[k])) && i <= |digits| + 2
    ensures Search(digits + "个月", i, YEARS) == None
    decreases |digits| + 2 - i
  {
    hide IsDigit, MeasureAt;
    NoYearAt(digits, i);
    if i < |digits| + 2 { NoYears(digits, i + 1); }
  }

  lemma MonthsRead(n: nat)
    ensures ExtractYears(Decimal(n) + "个月") == Some(n as real / 12.0)
  {
    var digits := Decimal(n);
    var s := digits + "个月";
    DigitsStayLow(digits, "个月");
    NoYears(digits, 0);
    DecimalRoundTrip(n);
    MonthsMeasured(digits);
    hide IsDigit, MeasureAt, Decimal;
  }

  lemma MonthsMeasured(digits: string)
    requires digits != [] && forall i :: 0 <= i < |digits| ==> IsDigit(digits[i])
    ensures MeasureAt(digits + "个月", 0, MONTHS) == Some(Value(digits) as real)
  {
    AllDigits(digits, "个月");
    assert SkipSpaces("个月") == "个月";
    assert StartsWith("个月", MONTHS[0]);
  }

  lemma {:induction false} UnknownRead(i: nat)
    requires i <= 7
    ensures Search("unknown", i, YEARS) == None && Search("unknown", i, MONTHS) == None
    decreases 7 - i
  {
    assert DigitsEnd("unknown", i) == i;
    if i < 7 { UnknownRead(i + 1); }
  }

  predicate FirstMeasure(s: string, i: nat, k: nat, units: seq<string>)
    requires i <= k <= |s|
  {
    MeasureAt(s, k, units).Some? && forall m :: i <= m < k ==> MeasureAt(s, m, units).None?
  }

  /** `re.search` finds the leftmost place where the pattern matches, if there is one. */
  lemma {:induction false} SearchIsLeftmost(s: string, i: nat, units: seq<string>)
    requires i <= |s|
    ensures Search(s, i, units).None? <==> forall k :: i <= k <= |s| ==> MeasureAt(s, k, units).None?
    ensures Search(s, i, units).Some? ==> exists k ::
      i <= k <= |s| && FirstMeasure(s, i, k, units) && MeasureAt(s, k, units) == Search(s, i, units)
    decreases |s| - i
  {
    hide MeasureAt;
    if MeasureAt(s, i, units).Some? {
      assert FirstMeasure(s, i, i, units);
    } else if i < |s| {
      SearchIsLeftmost(s, i + 1, units);
      if Search(s, i + 1, units).Some? {
        var k :| i + 1 <= k <= |s| && FirstMeasure(s, i + 1, k, units) && MeasureAt(s, k, units) == Search(s, i + 1, units);
        assert FirstMeasure(s, i, k, units);
      }
    }
  }

  lemma LevelOfMonths(n: nat)
    ensures var level := LevelFromYears(ExtractYears(Phrase(n)));
      (level == Low <==> n <= 29) && (level == Mid <==> 30 <= n <= 65) && (level == High <==> n >= 66)
  {
    hide ExtractYears;
    if n < 12 {
      MonthsRead(n);
    } else {
      RoundedYears(n);
      YearsRead((n + 6) / 12);
    }
  }

  lemma LevelOfUnknown()
    ensures LevelFromYears(ExtractYears("unknown")) == Mid
  {
    UnknownRead(0);
    assert Lowered("unknown") == "unknown";
  }

  /** From the work history to the level, level words aside: low up to 29 distinct
      months, middle from 30 to 65 or when nothing is known, high from 66 on. */
  lemma LevelOfExperience(entries: seq<Entry>, today: int)
    ensures var known := Intervals(entries, today) != [];
      var n := |Months(Intervals(entries, today))|;
      var level := LevelFromYears(ExtractYears(ExperienceText(entries, today)));
      && (level == Low <==> known && n <= 29)
      && (level == Mid <==> !known || 30 <= n <= 65)
      && (level == High <==> known && n >= 66)
  {
    hide LevelFromYears, ExtractYears, Phrase, Months, Intervals;
    LevelOfMonths(|Months(Intervals(entries, today))|);
    LevelOfUnknown();
  }
}
