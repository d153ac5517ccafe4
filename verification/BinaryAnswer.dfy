/** `parse_binary_answer`: the scanner behind proactive goal questions. */
module BinaryAnswer {
  import opened Common
  import opened Text

  const YES: seq<string> := ["是", "对", "属于"]
  const NO: seq<string> := ["不是", "不对", "不属于"]

  datatype Answer = Answer(value: bool, matched: string)

  // ----- the declarative reading --------------------------------------------

  /** A yes-token at `i`; it is negated when 不 comes right before it. */
  predicate Mention(text: string, k: nat, i: nat) {
    k < |YES| && OccursAt(text, YES[k], i)
  }

  predicate Negated(text: string, i: nat) {
    0 < i <= |text| && text[i - 1] == '不'
  }

  ghost predicate Affirmed(text: string, k: nat) {
    exists i: nat :: Mention(text, k, i) && !Negated(text, i)
  }

  ghost predicate Denied(text: string, k: nat) {
    exists i: nat :: Mention(text, k, i) && Negated(text, i)
  }

  ghost predicate AnyAffirmed(text: string) {
    exists k: nat :: Affirmed(text, k)
  }

  ghost predicate AnyDenied(text: string) {
    exists k: nat :: Denied(text, k)
  }

  /** The first of the longest tokens among those that satisfy `found`. */
  ghost predicate FirstLongest(tokens: seq<string>, found: seq<bool>, k: nat)
    requires |found| == |tokens|
  {
    && k < |tokens| && found[k]
    && (forall m :: 0 <= m < |tokens| && found[m] ==> |tokens[m]| <= |tokens[k]|)
    && (forall m :: 0 <= m < k && found[m] ==> |tokens[m]| < |tokens[k]|)
  }

  // ----- the scans ----------------------------------------------------------

  /** No yes-token overlaps a copy of itself, so skipping past a match loses nothing. */
  lemma NoOverlap(text: string, k: nat, i: nat, j: nat)
    requires Mention(text, k, i) && Mention(text, k, j) && i < j
    ensures j >= i + |YES[k]|
  {
    if k == 2 {
      assert text[i + 1] == text[i..i + 2][1] == '于';
      assert text[j] == text[j..j + 2][0] == '属';
    }
  }

  /** `any(... for match in re.finditer(token, text))`. */
  method HasAffirmedMatch(text: string, k: nat) returns (found: bool)
    requires k < |YES|
    ensures found <==> Affirmed(text, k)
  {
    var token := YES[k];
    var position := 0;
    found := false;
    while position + |token| <= |text|
      invariant !found
      invariant forall i: nat :: Mention(text, k, i) && !Negated(text, i) ==> i >= position
      decreases |text| - position
    {
      if text[position..position + |token|] == token {
        assert Mention(text, k, position);
        if position == 0 || text[position - 1] != '不' {
          return true;
        }
        forall i: nat | Mention(text, k, i) && !Negated(text, i) ensures i >= position + |token| {
          if i > position { NoOverlap(text, k, position, i); }
        }
        position := position + |token|;
      } else {
        position := position + 1;
      }
    }
  }

  /** A no-token occurs exactly when its yes-token occurs right after 不. */
  lemma NoTokenMeansDenied(text: string, k: nat)
    requires k < |YES|
    ensures Contains(text, NO[k]) <==> Denied(text, k)
  {
    assert NO[k] == "不" + YES[k];
    if Contains(text, NO[k]) {
      var i :| 0 <= i <= |text| && OccursAt(text, NO[k], i);
      assert text[i..i + |NO[k]|][0] == '不';
      assert text[i + 1..i + 1 + |YES[k]|] == text[i..i + |NO[k]|][1..];
      assert Mention(text, k, i + 1) && Negated(text, i + 1);
    }
    if Denied(text, k) {
      var i: nat :| Mention(text, k, i) && Negated(text, i);
      assert text[i - 1..i - 1 + |NO[k]|] == ['不'] + text[i..i + |YES[k]|];
      assert OccursAt(text, NO[k], i - 1);
    }
  }

  /** `max(values, key=len)` over the tokens found, in table order. */
  method Longest(tokens: seq<string>, found: seq<bool>) returns (k: nat)
    requires |found| == |tokens| && exists m :: 0 <= m < |tokens| && found[m]
    ensures FirstLongest(tokens, found, k)
  {
    var best: Option<nat> := None;
    for i := 0 to |tokens|
      invariant best.None? ==> forall m :: 0 <= m < i ==> !found[m]
      invariant best.Some? ==> best.value < i && FirstLongest(tokens[..i], found[..i], best.value)
    {
      if found[i] && (best.None? || |tokens[i]| > |tokens[best.value]|) {
        best := Some(i);
      }
    }
    assert tokens[..|tokens|] == tokens && found[..|tokens|] == found;
    return best.value;
  }

  /** A value comes back exactly when some yes-token occurs and all occurrences share
      one polarity; that polarity is the value. The token reported is the first of
      the longest ones. */
  method ParseBinaryAnswer(content: string) returns (answer: Option<Answer>)
    ensures var text := RemoveSpaces(content);
      && (answer.Some? <==> AnyAffirmed(text) != AnyDenied(text))
      && (answer.Some? ==> (answer.value.value <==> AnyAffirmed(text)))
      && (answer.Some? && answer.value.value ==>
            exists k: nat, found: seq<bool> :: |found| == |YES| && (forall m :: 0 <= m < |YES| ==> found[m] == Affirmed(text, m))
              && FirstLongest(YES, found, k) && answer.value.matched == YES[k])
      && (answer.Some? && !answer.value.value ==>
            exists k: nat, found: seq<bool> :: |found| == |NO| && (forall m :: 0 <= m < |NO| ==> found[m] == Denied(text, m))
              && FirstLongest(NO, found, k) && answer.value.matched == NO[k])
  {
    var text := RemoveSpaces(content);
    var yes: seq<bool> := [];
    for k := 0 to |YES|
      invariant |yes| == k && forall m :: 0 <= m < k ==> yes[m] == Affirmed(text, m)
    {
      var found := HasAffirmedMatch(text, k);
      yes := yes + [found];
    }
    var no: seq<bool> := [];
    for k := 0 to |NO|
      invariant |no| == k && forall m :: 0 <= m < k ==> no[m] == Denied(text, m)
    {
      NoTokenMeansDenied(text, k);
      no := no + [Contains(text, NO[k])];
    }
    assert AnyAffirmed(text) <==> true in yes by {
      if AnyAffirmed(text) { var k: nat :| Affirmed(text, k); assert yes[k]; }
      if true in yes { var k: nat :| k < |yes| && yes[k]; assert Affirmed(text, k); }
    }
    assert AnyDenied(text) <==> true in no by {
      if AnyDenied(text) { var k: nat :| Denied(text, k); assert no[k]; }
      if true in no { var k: nat :| k < |no| && no[k]; assert Denied(text, k); }
    }
    if true in no && true !in yes {
      var k := Longest(NO, no);
      return Some(Answer(false, NO[k]));
    }
    if true in yes && true !in no {
      var k := Longest(YES, yes);
      return Some(Answer(true, YES[k]));
    }
    return None;
  }

  /** Whitespace anywhere in the answer is irrelevant. */
  lemma SpacesDoNotMatter(left: string, gap: string, right: string)
    requires Blank(gap)
    ensures RemoveSpaces(left + gap + right) == RemoveSpaces(left + right)
  {
    RemoveSpacesConcat(left + gap, right);
    RemoveSpacesConcat(left, gap);
    RemoveSpacesConcat(left, right);
    BlankVanishes(gap);
  }

  lemma {:induction false} BlankVanishes(gap: string)
    requires Blank(gap)
    ensures RemoveSpaces(gap) == []
  {
    if gap != [] { BlankVanishes(gap[1..]); }
  }
}
