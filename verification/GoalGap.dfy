/** `find_goal_condition_gap`: the one condition of the goal that the JD cannot confirm. */
module GoalGap {
  import opened Common
  import opened Text
  import MatchScore
  import Tasks

  /** The signature is a digest of the condition, taken to be injective. */
  datatype Gap = Gap(condition: string, stopOnYes: bool)

  const OUTSOURCING: seq<string> := ["外包", "外派"]
  const SALARY: seq<string> := ["薪资", "工资", "月薪", "不低于", "至少", ">="]
  const NEGATIVE: seq<string> := ["不考虑", "不接受", "拒绝", "不要", "排除"]
  const EXCLUSION: seq<string> := ["不考虑", "不接受", "排除", "不要"]
  const LOCATION: seq<string> := ["工作地点", "地区", "城市", "的工作岗位", "的工作职位"]
  const PREFERENCE: seq<string> := ["不考虑", "不接受", "拒绝", "不要", "排除", "优先", "希望", "倾向于"]
  const OUTSOURCING_CONDITION: string := "该岗位是否属于外包岗位"

  predicate Mentions(text: string, markers: seq<string>) {
    exists k :: 0 <= k < |markers| && Contains(text, markers[k])
  }

  // ----- clauses ------------------------------------------------------------

  predicate Separates(c: char) {
    c == '\n' || c == ';' || c == ',' || c == '，' || c == '；' || c == '。'
  }

  function PieceEnd(text: string): (e: nat)
    ensures e <= |text|
  {
    if text == [] || Separates(text[0]) then 0 else 1 + PieceEnd(text[1..])
  }

  /** The stripped non-blank pieces between separators. */
  function Clauses(text: string): (r: seq<string>)
    ensures forall i :: 0 <= i < |r| ==> r[i] != ""
    decreases |text|
  {
    if text == [] then []
    else
      var e := PieceEnd(text);
      var piece := Strip(text[..e]);
      (if piece == "" then [] else [piece]) + (if e == |text| then [] else Clauses(text[e + 1..]))
  }

  // ----- the condition of a clause ------------------------------------------

  /** `replace(marker, "")`. */
  function Remove(text: string, marker: string): string
    requires marker != ""
    decreases |text|
  {
    if |text| < |marker| then text
    else if text[..|marker|] == marker then Remove(text[|marker|..], marker)
    else [text[0]] + Remove(text[1..], marker)
  }

  function RemoveAll(text: string, markers: seq<string>): string
    requires forall k :: 0 <= k < |markers| ==> markers[k] != ""
    decreases |markers|
  {
    if markers == [] then text else RemoveAll(Remove(text, markers[0]), markers[1..])
  }

  predicate Trimmable(c: char) {
    c in " ：:的岗位职位"
  }

  function TrimBoth(s: string): string
    decreases |s|
  {
    if s != [] && Trimmable(s[0]) then TrimBoth(s[1..])
    else if s != [] && Trimmable(s[|s| - 1]) then TrimBoth(s[..|s| - 1])
    else s
  }

  function ConditionText(clause: string): string {
    var value := TrimBoth(RemoveAll(clause, PREFERENCE));
    if |value| >= 2 then value else ""
  }

  predicate MatchingStageLocation(clause: string) {
    Mentions(clause, EXCLUSION) && Mentions(clause, LOCATION)
  }

  /** What the JD offers as evidence; nothing when there is no snapshot. */
  function Evidence(snapshot: Option<Tasks.Snapshot>): Tasks.Snapshot {
    if snapshot.Some? then snapshot.value else Tasks.Snapshot("", "", "")
  }

  /** The gap one clause leaves, if any. */
  function ClauseGap(clause: string, jd: Tasks.Snapshot): Option<Gap> {
    var stop := Mentions(clause, NEGATIVE);
    if Mentions(clause, OUTSOURCING) then
      if Mentions(MatchScore.CaseFold(jd.nature + " " + jd.employment), OUTSOURCING) then None
      else Some(Gap(OUTSOURCING_CONDITION, stop))
    else if Mentions(clause, SALARY) then None
    else if MatchingStageLocation(clause) then None
    else
      var condition := ConditionText(clause);
      if condition != "" && !Contains(MatchScore.CaseFold(jd.text), MatchScore.CaseFold(condition))
      then Some(Gap(condition, stop)) else None
  }

  function FirstGap(clauses: seq<string>, jd: Tasks.Snapshot): Option<Gap> {
    if clauses == [] then None
    else if ClauseGap(clauses[0], jd).Some? then ClauseGap(clauses[0], jd)
    else FirstGap(clauses[1..], jd)
  }

  function FindGap(active: bool, filters: string, snapshot: Option<Tasks.Snapshot>): Option<Gap> {
    if active then FirstGap(Clauses(filters), Evidence(snapshot)) else None
  }

  lemma {:induction false} SkipSettled(clauses: seq<string>, jd: Tasks.Snapshot, i: nat)
    requires i <= |clauses| && forall k :: 0 <= k < i ==> ClauseGap(clauses[k], jd).None?
    ensures FirstGap(clauses, jd) == FirstGap(clauses[i..], jd)
    decreases i
  {
    hide ClauseGap;
    if i == 0 {
      assert clauses[0..] == clauses;
    } else {
      assert clauses[1..][i - 1..] == clauses[i..];
      SkipSettled(clauses[1..], jd, i - 1);
    }
  }

  /** The loop of the source, with its early return. */
  method FindGoalConditionGap(active: bool, filters: string, snapshot: Option<Tasks.Snapshot>) returns (gap: Option<Gap>)
    ensures gap == FindGap(active, filters, snapshot)
    ensures active && gap.None? <==>
      active && forall k :: 0 <= k < |Clauses(filters)| ==> ClauseGap(Clauses(filters)[k], Evidence(snapshot)).None?
  {
    hide ClauseGap, Clauses;
    if !active {
      return None;
    }
    var clauses := Clauses(filters);
    var jd := Evidence(snapshot);
    for i := 0 to |clauses|
      invariant forall k :: 0 <= k < i ==> ClauseGap(clauses[k], jd).None?
    {
      SkipSettled(clauses, jd, i);
      var one := ClauseGap(clauses[i], jd);
      if one.Some? {
        assert clauses[i..][0] == clauses[i];
        assert ClauseGap(Clauses(filters)[i], Evidence(snapshot)).Some?;
        return one;
      }
    }
    SkipSettled(clauses, jd, |clauses|);
    return None;
  }

  // ----- what the gap of a clause means -------------------------------------

  predicate AboutOutsourcing(clause: string) {
    Contains(clause, "外包") || Contains(clause, "外派")
  }

  /** Conditions that matching has settled already. */
  predicate SettledByMatching(clause: string) {
    !AboutOutsourcing(clause) && (Mentions(clause, SALARY) || (Mentions(clause, EXCLUSION) && Mentions(clause, LOCATION)))
  }

  /** A clause that says 不考虑, 不接受, 拒绝, 不要 or 排除 stops on a yes. */
  predicate Excludes(clause: string) {
    || Contains(clause, "不考虑") || Contains(clause, "不接受") || Contains(clause, "拒绝")
    || Contains(clause, "不要") || Contains(clause, "排除")
  }

  /** The condition a clause is about: outsourcing, or what is left of its text. */
  function Condition(clause: string): string {
    if AboutOutsourcing(clause) then OUTSOURCING_CONDITION else ConditionText(clause)
  }

  /** The JD settles the clause: by its nature and employment type, or by its text. */
  predicate Confirms(jd: Tasks.Snapshot, clause: string) {
    if AboutOutsourcing(clause) then AboutOutsourcing(MatchScore.CaseFold(jd.nature + " " + jd.employment))
    else Contains(MatchScore.CaseFold(jd.text), MatchScore.CaseFold(Condition(clause)))
  }

  lemma MarkersMean(text: string)
    ensures Mentions(text, OUTSOURCING) <==> AboutOutsourcing(text)
    ensures Mentions(text, NEGATIVE) <==> Excludes(text)
  {
    hide Contains;
    if AboutOutsourcing(text) {
      var k := if Contains(text, "外包") then 0 else 1;
      assert Contains(text, OUTSOURCING[k]);
    }
    if Excludes(text) {
      var k := if Contains(text, "不考虑") then 0 else if Contains(text, "不接受") then 1 else if Contains(text, "拒绝") then 2
               else if Contains(text, "不要") then 3 else 4;
      assert Contains(text, NEGATIVE[k]);
    }
  }

  /** A clause leaves a gap exactly when matching has not settled it, a condition is left
      of it and the JD does not confirm it. The gap names the condition, and
      stops on a yes exactly when the clause excludes it. */
  lemma ClauseGapIff(clause: string, jd: Tasks.Snapshot)
    ensures var condition := Condition(clause);
      && (ClauseGap(clause, jd).Some? <==> !SettledByMatching(clause) && condition != "" && !Confirms(jd, clause))
      && (ClauseGap(clause, jd).Some? ==> ClauseGap(clause, jd).value == Gap(condition, Excludes(clause)))
  {
    MarkersMean(clause);
    MarkersMean(MatchScore.CaseFold(jd.nature + " " + jd.employment));
    hide Contains, Mentions, ConditionText, MatchScore.CaseFold, Excludes;
  }

  ghost predicate NoneUnsettled(clauses: seq<string>, jd: Tasks.Snapshot) {
    forall k :: 0 <= k < |clauses| ==> ClauseGap(clauses[k], jd).None?
  }

  ghost predicate FirstUnsettled(clauses: seq<string>, jd: Tasks.Snapshot, i: nat) {
    i < |clauses| && ClauseGap(clauses[i], jd).Some? && forall k :: 0 <= k < i ==> ClauseGap(clauses[k], jd).None?
  }

  /** The gap is that of the first clause that leaves one, and there is none exactly when
      no clause does or the goal is not active. */
  lemma GapOfTheFirstClause(active: bool, filters: string, snapshot: Option<Tasks.Snapshot>)
    ensures var gap, clauses, jd := FindGap(active, filters, snapshot), Clauses(filters), Evidence(snapshot);
      && (gap.None? <==> !active || NoneUnsettled(clauses, jd))
      && (gap.Some? ==> exists i: nat :: FirstUnsettled(clauses, jd, i) && gap == ClauseGap(clauses[i], jd))
  {
    hide ClauseGap, Clauses, FirstGap, Evidence, FirstUnsettled, NoneUnsettled;
    FirstGapIsFirst(Clauses(filters), Evidence(snapshot));
  }

  lemma {:induction false} FirstGapIsFirst(clauses: seq<string>, jd: Tasks.Snapshot)
    ensures FirstGap(clauses, jd).None? <==> NoneUnsettled(clauses, jd)
    ensures FirstGap(clauses, jd).Some? ==> exists i: nat ::
      FirstUnsettled(clauses, jd, i) && FirstGap(clauses, jd) == ClauseGap(clauses[i], jd)
  {
    hide ClauseGap;
    if clauses != [] {
      if ClauseGap(clauses[0], jd).Some? {
        assert FirstUnsettled(clauses, jd, 0);
      } else {
        FirstGapIsFirst(clauses[1..], jd);
        assert forall k :: 1 <= k < |clauses| ==> clauses[k] == clauses[1..][k - 1];
        if FirstGap(clauses[1..], jd).Some? {
          var i: nat :| FirstUnsettled(clauses[1..], jd, i) && FirstGap(clauses[1..], jd) == ClauseGap(clauses[1..][i], jd);
          assert FirstUnsettled(clauses, jd, i + 1);
        }
      }
    }
  }

  // ----- how a filter text falls into conditions ----------------------------

  lemma {:induction false} PieceEndOf(text: string, rest: string)
    requires (forall i :: 0 <= i < |text| ==> !Separates(text[i])) && (rest != "" ==> Separates(rest[0]))
    ensures PieceEnd(text + rest) == |text|
  {
    if text == "" {
      assert text + rest == rest;
    } else {
      assert (text + rest)[1..] == text[1..] + rest;
      PieceEndOf(text[1..], rest);
    }
  }

  /** A text without separators is one clause, unless it is blank. */
  lemma OneClause(text: string)
    requires forall i :: 0 <= i < |text| ==> !Separates(text[i])
    ensures Clauses(text) == if Blank(text) then [] else [Strip(text)]
  {
    PieceEndOf(text, "");
    assert text + "" == text && text[..|text|] == text;
  }

  lemma Cut(text: string, e: nat)
    requires e <= |text|
    ensures text[..e] + text[e..] == text && (e < |text| ==> text[e..] == [text[e]] + text[e + 1..])
  {}

  lemma ClausesUnfold(piece: string, rest: string)
    requires (forall i :: 0 <= i < |piece| ==> !Separates(piece[i])) && rest != "" && Separates(rest[0])
    ensures Clauses(piece + rest) == Clauses(piece) + Clauses(rest[1..])
  {
    hide Separates, Strip;
    var text := piece + rest;
    PieceEndOf(piece, rest);
    OneClause(piece);
    assert text[..|piece|] == piece && text[|piece| + 1..] == rest[1..];
  }

  lemma Regroup(before: string, e: nat, separator: char, after: string)
    requires e < |before|
    ensures before + [separator] + after == before[..e] + (before[e..] + [separator] + after)
    ensures (before[e..] + [separator] + after)[1..] == before[e + 1..] + [separator] + after
  {}

  /** A separator splits: the clauses are those before it and those after it. With
      `OneClause` this says what the clauses of any text are. */
  lemma {:induction false} ClausesSplit(before: string, separator: char, after: string)
    requires Separates(separator)
    ensures Clauses(before + [separator] + after) == Clauses(before) + Clauses(after)
    decreases |before|
  {
    hide Separates, Clauses;
    var e := PieceEnd(before);
    PieceEndIs(before);
    Cut(before, e);
    if e == |before| {
      assert before + [separator] + after == before + ([separator] + after) && ([separator] + after)[1..] == after;
      ClausesUnfold(before, [separator] + after);
    } else {
      Regroup(before, e, separator, after);
      ClausesUnfold(before[..e], before[e..] + [separator] + after);
      ClausesSplit(before[e + 1..], separator, after);
      ClausesUnfold(before[..e], before[e..]);
      assert before[e..][1..] == before[e + 1..];
    }
  }

  lemma {:induction false} PieceEndIs(text: string)
    ensures var e := PieceEnd(text); (forall i :: 0 <= i < e ==> !Separates(text[i])) && (e < |text| ==> Separates(text[e]))
  {
    if text != "" && !Separates(text[0]) { PieceEndIs(text[1..]); }
  }

  lemma OccursShift(text: string, marker: string, j: nat)
    requires text != ""
    ensures OccursAt(text[1..], marker, j) <==> OccursAt(text, marker, j + 1)
  {
    if j + 1 + |marker| <= |text| { assert text[1..][j..j + |marker|] == text[j + 1..j + 1 + |marker|]; }
  }

  lemma RemoveUnfolds(text: string, marker: string)
    requires marker != ""
    ensures OccursAt(text, marker, 0) ==> Remove(text, marker) == Remove(text[|marker|..], marker)
    ensures text != "" && !OccursAt(text, marker, 0) ==> Remove(text, marker) == [text[0]] + Remove(text[1..], marker)
    ensures text == "" ==> Remove(text, marker) == text
  {
    if |text| >= |marker| {
      assert text[0..0 + |marker|] == text[..|marker|];
    } else if text != "" {
      assert Remove(text[1..], marker) == text[1..] && text == [text[0]] + text[1..];
    }
  }

  /** `replace`: nothing happens to a text without the marker. */
  lemma {:induction false} RemoveAbsent(text: string, marker: string)
    requires marker != "" && forall i: nat :: !OccursAt(text, marker, i)
    ensures Remove(text, marker) == text
  {
    hide OccursAt, Remove;
    RemoveUnfolds(text, marker);
    if text != "" {
      forall i: nat ensures !OccursAt(text[1..], marker, i) { OccursShift(text, marker, i); }
      RemoveAbsent(text[1..], marker);
      assert text == [text[0]] + text[1..];
    }
  }

  lemma OccurrenceFits(text: string, marker: string, i: nat)
    requires OccursAt(text, marker, i)
    ensures i + |marker| <= |text|
  {}

  lemma ShiftedPieces(text: string, i: nat, n: nat)
    requires 0 < i && i + n <= |text|
    ensures text[1..][i - 1 + n..] == text[i + n..]
  {}

  lemma Assembled(text: string, i: nat, rest: string)
    requires 0 < i <= |text|
    ensures [text[0]] + (text[1..][..i - 1] + rest) == text[..i] + rest
  {}

  lemma {:induction false} RemoveNext(text: string, marker: string, i: nat)
    requires marker != "" && 0 < i && i + |marker| <= |text| && !OccursAt(text, marker, 0)
    requires Remove(text[1..], marker) == text[1..][..i - 1] + Remove(text[1..][i - 1 + |marker|..], marker)
    ensures Remove(text, marker) == text[..i] + Remove(text[i + |marker|..], marker)
  {
    hide OccursAt, Remove;
    RemoveUnfolds(text, marker);
    ShiftedPieces(text, i, |marker|);
    Assembled(text, i, Remove(text[i + |marker|..], marker));
  }

  /** `replace`: the first occurrence goes and what follows it is treated alike. With
      `RemoveAbsent` this says what becomes of any text. */
  lemma {:induction false} RemoveFirst(text: string, marker: string, i: nat)
    requires marker != "" && OccursAt(text, marker, i) && forall j: nat :: j < i ==> !OccursAt(text, marker, j)
    ensures i + |marker| <= |text| && Remove(text, marker) == text[..i] + Remove(text[i + |marker|..], marker)
  {
    OccurrenceFits(text, marker, i);
    hide OccursAt, Remove;
    if i == 0 {
      RemoveUnfolds(text, marker);
      assert text[..0] == "";
    } else {
      OccursShift(text, marker, i - 1);
      forall j: nat | j < i - 1 ensures !OccursAt(text[1..], marker, j) { OccursShift(text, marker, j); }
      RemoveFirst(text[1..], marker, i - 1);
      RemoveNext(text, marker, i);
    }
  }

  predicate AllTrimmable(s: string) {
    forall i :: 0 <= i < |s| ==> Trimmable(s[i])
  }

  /** `strip(chars)`: what is left begins and ends with a character that is none of them. */
  lemma {:induction false} TrimBothIs(left: string, kept: string, right: string)
    requires AllTrimmable(left) && AllTrimmable(right)
    requires kept != "" ==> !Trimmable(kept[0]) && !Trimmable(kept[|kept| - 1])
    ensures TrimBoth(left + kept + right) == kept
    decreases |left| + |right|
  {
    hide Trimmable;
    var s := left + kept + right;
    if left != "" {
      assert s[0] == left[0] && s[1..] == left[1..] + kept + right;
      TrimBothIs(left[1..], kept, right);
    } else if kept == "" {
      if right != "" {
        assert s[0] == right[0] && s[1..] == "" + kept + right[1..];
        TrimBothIs("", kept, right[1..]);
      }
    } else if right != "" {
      assert s[0] == kept[0] && s[|s| - 1] == right[|right| - 1] && s[..|s| - 1] == left + kept + right[..|right| - 1];
      TrimBothIs(left, kept, right[..|right| - 1]);
    } else {
      assert s == kept;
    }
  }

  /** The condition of a clause: what is left between the trimmable ends once the words of
      preference are gone, when that is at least two characters. */
  lemma ConditionIs(clause: string, left: string, kept: string, right: string)
    requires RemoveAll(clause, PREFERENCE) == left + kept + right && AllTrimmable(left) && AllTrimmable(right)
    requires kept != "" ==> !Trimmable(kept[0]) && !Trimmable(kept[|kept| - 1])
    ensures ConditionText(clause) == if |kept| >= 2 then kept else ""
  {
    hide RemoveAll, TrimBoth, Trimmable;
    TrimBothIs(left, kept, right);
  }
}
