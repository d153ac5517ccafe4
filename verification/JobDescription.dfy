/** The Markdown sectioner and field assignment of the JD parser. */
module JobDescription {
  import opened Common
  import opened Text

  // ----- lines --------------------------------------------------------------

  /** The line boundaries of `str.splitlines`. */
  predicate IsBreak(c: char) {
    var u := c as int;
    0x0a <= u <= 0x0d || 0x1c <= u <= 0x1e || u == 0x85 || u == 0x2028 || u == 0x2029
  }

  predicate OneLine(s: string) {
    forall i :: 0 <= i < |s| ==> !IsBreak(s[i])
  }

  function LineEnd(text: string): (e: nat)
    ensures e <= |text| && OneLine(text[..e]) && (e < |text| ==> IsBreak(text[e]))
  {
    if text == [] || IsBreak(text[0]) then 0
    else
      var e := 1 + LineEnd(text[1..]);
      assert text[..e] == [text[0]] + text[1..][..e - 1];
      e
  }

  function SplitLines(text: string): (lines: seq<string>)
    ensures forall i :: 0 <= i < |lines| ==> OneLine(lines[i])
    decreases |text|
  {
    if text == [] then []
    else
      var e := LineEnd(text);
      if e == |text| then [text[..e]]
      else
        var next := if text[e] == '\r' && e + 1 < |text| && text[e + 1] == '\n' then e + 2 else e + 1;
        [text[..e]] + SplitLines(text[next..])
  }

  /** Every line followed by a newline. */
  function JoinLines(lines: seq<string>): string {
    if lines == [] then [] else lines[0] + ['\n'] + JoinLines(lines[1..])
  }

  lemma {:induction false} LineEndOf(line: string, rest: string)
    requires OneLine(line) && rest != [] && IsBreak(rest[0])
    ensures LineEnd(line + rest) == |line|
  {
    if line == [] {
      assert line + rest == rest;
    } else {
      assert (line + rest)[1..] == line[1..] + rest;
      LineEndOf(line[1..], rest);
    }
  }

  lemma SplitFirst(line: string, rest: string)
    requires OneLine(line)
    ensures SplitLines(line + ['\n'] + rest) == [line] + SplitLines(rest)
  {
    var text := line + ['\n'] + rest;
    assert text == line + (['\n'] + rest);
    LineEndOf(line, ['\n'] + rest);
    assert text[..|line|] == line && text[|line|] == '\n' && text[|line| + 1..] == rest;
  }

  lemma {:induction false} SplitJoined(lines: seq<string>)
    requires forall i :: 0 <= i < |lines| ==> OneLine(lines[i])
    ensures SplitLines(JoinLines(lines)) == lines
  {
    if lines != [] {
      SplitFirst(lines[0], JoinLines(lines[1..]));
      SplitJoined(lines[1..]);
      assert lines == [lines[0]] + lines[1..];
    }
  }

  // ----- headings -----------------------------------------------------------

  function Hashes(s: string): (n: nat)
    ensures n <= |s| && (forall i :: 0 <= i < n ==> s[i] == '#') && (n < |s| ==> s[n] != '#')
  {
    if s == [] || s[0] != '#' then 0 else 1 + Hashes(s[1..])
  }

  /** `\s*#*\s*$`. */
  predicate ClosingTail(s: string) {
    var a := SkipSpaces(s);
    Blank(a[Hashes(a)..])
  }

  /** `(.+?)` before the closing tail: the shortest that works, at least one character. */
  function ContentEnd(s: string, k: nat): (e: nat)
    requires 1 <= k <= |s|
    ensures k <= e <= |s|
    decreases |s| - k
  {
    if k == |s| || ClosingTail(s[k..]) then k else ContentEnd(s, k + 1)
  }

  /** `^\s{0,3}#{1,6}\s+(.+?)\s*#*\s*$`, stripped. When only spaces follow the hashes,
      one of them is the content if another is left for `\s+`. */
  function Heading(line: string): Option<string> {
    var lead := LeadingSpaces(line);
    var hashes := Hashes(line[lead..]);
    var after := line[lead + hashes..];
    var gap := LeadingSpaces(after);
    var rest := after[gap..];
    if lead > 3 || hashes == 0 || hashes > 6 || gap == 0 then None
    else if rest == [] then (if gap >= 2 then Some("") else None)
    else Some(Strip(rest[..ContentEnd(rest, 1)]))
  }

  predicate SpacesIn(s: string, i: nat, j: nat)
    requires i <= j <= |s|
  {
    forall k :: i <= k < j ==> IsSpace(s[k])
  }

  predicate HashesIn(s: string, i: nat, j: nat)
    requires i <= j <= |s|
  {
    forall k :: i <= k < j ==> s[k] == '#'
  }

  // The runs at an offset, in terms of the whole line.

  lemma HashesHold(s: string, i: nat)
    requires i <= |s|
    ensures var n := Hashes(s[i..]); i + n <= |s| && HashesIn(s, i, i + n) && (i + n < |s| ==> s[i + n] != '#')
  {
    assert forall k :: i <= k < |s| ==> s[k] == s[i..][k - i];
  }

  lemma HashesAre(s: string, i: nat, n: nat)
    requires i + n <= |s| && HashesIn(s, i, i + n) && (i + n < |s| ==> s[i + n] != '#')
    ensures Hashes(s[i..]) == n
  {
    HashesHold(s, i);
  }

  lemma SpacesHold(s: string, i: nat)
    requires i <= |s|
    ensures var n := LeadingSpaces(s[i..]); i + n <= |s| && SpacesIn(s, i, i + n) && (i + n < |s| ==> !IsSpace(s[i + n]))
  {
    assert forall k :: i <= k < |s| ==> s[k] == s[i..][k - i];
  }

  lemma SpacesAre(s: string, i: nat, n: nat)
    requires i + n <= |s| && SpacesIn(s, i, i + n)
    ensures LeadingSpaces(s[i..]) >= n && (i + n < |s| && !IsSpace(s[i + n]) ==> LeadingSpaces(s[i..]) == n)
  {
    SpacesHold(s, i);
  }

  lemma BlankFrom(s: string, i: nat)
    requires i <= |s|
    ensures Blank(s[i..]) <==> SpacesIn(s, i, |s|)
  {
    assert forall k :: i <= k < |s| ==> s[k] == s[i..][k - i];
  }

  /** `line` splits as the pattern asks: `a` spaces, `b` hashes, `c` spaces, content. */
  predicate HeadingSplit(line: string, a: nat, b: nat, c: nat) {
    && a <= 3 && 1 <= b <= 6 && c >= 1 && a + b + c < |line|
    && SpacesIn(line, 0, a) && HashesIn(line, a, a + b) && SpacesIn(line, a + b, a + b + c)
  }

  /** The pattern matches exactly the lines that split so in some way. */
  lemma HeadingIff(line: string)
    ensures Heading(line).Some? <==> exists a: nat, b: nat, c: nat :: HeadingSplit(line, a, b, c)
  {
    hide HeadingSplit, Heading;
    if Heading(line).Some? { HeadingSplits(line); }
    if a: nat, b: nat, c: nat :| HeadingSplit(line, a, b, c) { SplitIsHeading(line, a, b, c); }
  }

  lemma HeadingSplits(line: string)
    requires Heading(line).Some?
    ensures exists a: nat, b: nat, c: nat :: HeadingSplit(line, a, b, c)
  {
    hide IsSpace, LeadingSpaces, Hashes, ContentEnd, Strip;
    assert line[0..] == line;
    var a := LeadingSpaces(line);
    SpacesHold(line, 0);
    var b := Hashes(line[a..]);
    HashesHold(line, a);
    var gap := LeadingSpaces(line[a + b..]);
    SpacesHold(line, a + b);
    assert HeadingSplit(line, a, b, if a + b + gap < |line| then gap else gap - 1);
  }

  /** The greedy parts of the pattern have no choice. */
  lemma SplitIsHeading(line: string, a: nat, b: nat, c: nat)
    requires HeadingSplit(line, a, b, c)
    ensures Heading(line).Some?
  {
    hide HeadingSplit, IsSpace, LeadingSpaces, Hashes, ContentEnd, Strip, SpacesIn, HashesIn;
    SplitParts(line, a, b, c);
  }

  predicate TailSplit(s: string, a: nat, b: nat) {
    a + b <= |s| && SpacesIn(s, 0, a) && HashesIn(s, a, a + b) && SpacesIn(s, a + b, |s|)
  }

  /** The closing tail is spaces, then hashes, then spaces. */
  lemma ClosingTailIff(s: string)
    ensures ClosingTail(s) <==> exists a: nat, b: nat :: TailSplit(s, a, b)
  {
    hide TailSplit;
    var lead := LeadingSpaces(s);
    var hashes := Hashes(s[lead..]);
    assert s[lead..][hashes..] == s[lead + hashes..];
    BlankFrom(s, lead + hashes);
    TailSplits(s, lead, hashes);
    hide ClosingTail;
    if a: nat, b: nat :| TailSplit(s, a, b) { SplitIsTail(s, a, b); }
  }

  lemma TailSplits(s: string, lead: nat, hashes: nat)
    requires lead == LeadingSpaces(s) && hashes == Hashes(s[lead..])
    ensures lead + hashes <= |s| && (SpacesIn(s, lead + hashes, |s|) ==> TailSplit(s, lead, hashes))
  {
    hide IsSpace, LeadingSpaces, Hashes;
    assert s[0..] == s;
    SpacesHold(s, 0);
    HashesHold(s, lead);
  }

  lemma SplitIsTail(s: string, a: nat, b: nat)
    requires TailSplit(s, a, b)
    ensures ClosingTail(s)
  {
    assert !IsSpace('#') && s[0..] == s;
    hide IsSpace, LeadingSpaces, Hashes;
    if b > 0 {
      assert s[a] == '#';
      SpacesAre(s, 0, a);
      HashesAre(s, a, b);
      assert s[a..][b..] == s[a + b..];
      BlankFrom(s, a + b);
    } else {
      SpacesAre(s, 0, |s|);
      SpacesHold(s, 0);
      assert s[|s|..] == "";
    }
  }

  lemma EmptyTail()
    ensures ClosingTail("")
  {}

  /** The content is the shortest one the closing tail leaves over. */
  lemma {:induction false} ContentIsShortest(s: string, k: nat)
    requires 1 <= k <= |s|
    ensures ClosingTail(s[ContentEnd(s, k)..])
    ensures forall i :: k <= i < ContentEnd(s, k) ==> !ClosingTail(s[i..])
    decreases |s| - k
  {
    hide ClosingTail;
    if k == |s| {
      EmptyTail();
      assert s[k..] == "";
    } else if !ClosingTail(s[k..]) {
      ContentIsShortest(s, k + 1);
    }
  }

  /** From `e` on there is nothing but spaces, hashes and spaces. */
  ghost predicate EndsAt(line: string, e: nat) {
    e <= |line| && exists x: nat, y: nat :: TailSplit(line[e..], x, y)
  }

  lemma HashAfterSpaces(line: string, a: nat, b: nat, c: nat)
    requires HeadingSplit(line, a, b, c)
    ensures line[0..] == line && line[a] == '#' && !IsSpace(line[a]) && line[a + b] != '#'
  {
    assert !IsSpace('#') && IsSpace(line[a + b]);
  }

  lemma SplitLead(line: string, a: nat, b: nat, c: nat)
    requires HeadingSplit(line, a, b, c)
    ensures LeadingSpaces(line) == a
  {
    HashAfterSpaces(line, a, b, c);
    hide IsSpace, LeadingSpaces, SpacesIn, HashesIn;
    SpacesAre(line, 0, a);
  }

  lemma SplitHashes(line: string, a: nat, b: nat, c: nat)
    requires HeadingSplit(line, a, b, c)
    ensures Hashes(line[a..]) == b
  {
    HashAfterSpaces(line, a, b, c);
    hide IsSpace, Hashes, SpacesIn, HashesIn;
    HashesAre(line, a, b);
  }

  lemma SplitGap(line: string, a: nat, b: nat, c: nat)
    requires HeadingSplit(line, a, b, c)
    ensures LeadingSpaces(line[a + b..]) >= c
    ensures !IsSpace(line[a + b + c]) ==> LeadingSpaces(line[a + b..]) == c
  {
    hide IsSpace, LeadingSpaces, SpacesIn, HashesIn;
    SpacesAre(line, a + b, c);
  }

  lemma SplitParts(line: string, a: nat, b: nat, c: nat)
    requires HeadingSplit(line, a, b, c)
    ensures a <= 3 && 1 <= b <= 6 && a + b + c < |line| && 1 <= c <= LeadingSpaces(line[a + b..])
    ensures LeadingSpaces(line) == a && Hashes(line[a..]) == b
    ensures !IsSpace(line[a + b + c]) ==> LeadingSpaces(line[a + b..]) == c
  {
    SplitLead(line, a, b, c);
    SplitHashes(line, a, b, c);
    SplitGap(line, a, b, c);
    hide IsSpace, LeadingSpaces, Hashes, SpacesIn, HashesIn;
  }

  /** The heading is the content up to the first position after its first character from
      where on only spaces, hashes and spaces follow, stripped. */
  lemma HeadingText(line: string, a: nat, b: nat, c: nat, e: nat)
    requires HeadingSplit(line, a, b, c) && !IsSpace(line[a + b + c])
    requires a + b + c < e && EndsAt(line, e) && forall i: nat :: a + b + c < i < e ==> !EndsAt(line, i)
    ensures Heading(line) == Some(Strip(line[a + b + c..e]))
  {
    hide IsSpace, LeadingSpaces, Hashes, ContentEnd, Strip, SpacesIn, HashesIn, TailSplit, EndsAt;
    var start := a + b + c;
    SplitParts(line, a, b, c);
    EndIsWithin(line, e);
    ContentEndIs(line, start, e);
    Pieces(line, a + b, c, e);
  }

  lemma Pieces(line: string, i: nat, c: nat, e: nat)
    requires i + c <= e <= |line|
    ensures line[i..][c..] == line[i + c..] && line[i + c..][..e - i - c] == line[i + c..e]
  {}

  lemma ContentEndIs(line: string, start: nat, e: nat)
    requires start < e <= |line| && EndsAt(line, e) && forall i: nat :: start < i < e ==> !EndsAt(line, i)
    ensures ContentEnd(line[start..], 1) == e - start
  {
    hide ClosingTail, TailSplit;
    var rest := line[start..];
    ContentIsShortest(rest, 1);
    var k := ContentEnd(rest, 1);
    forall i: nat | 1 <= i <= |rest| ensures ClosingTail(rest[i..]) <==> EndsAt(line, start + i) {
      assert rest[i..] == line[start + i..];
      ClosingTailIff(rest[i..]);
    }
    assert EndsAt(line, start + k);
    assert ClosingTail(rest[e - start..]);
  }

  /** Some position ends every line, so there always is a first one. */
  lemma {:induction false} FirstEnd(line: string, start: nat, i: nat) returns (e: nat)
    requires start < i <= |line| && forall j: nat :: start < j < i ==> !EndsAt(line, j)
    ensures start < e && EndsAt(line, e) && forall j: nat :: start < j < e ==> !EndsAt(line, j)
    decreases |line| - i
  {
    if i == |line| {
      assert TailSplit(line[i..], 0, 0);
      e := i;
    } else if EndsAt(line, i) {
      e := i;
    } else {
      e := FirstEnd(line, start, i + 1);
    }
  }

  /** When nothing but spaces follows the hashes, at least two, the heading is empty. */
  lemma EmptyHeading(line: string, a: nat, b: nat, c: nat)
    requires HeadingSplit(line, a, b, c) && SpacesIn(line, a + b, |line|)
    ensures Heading(line) == Some("")
  {
    SplitParts(line, a, b, c);
    SpacesAre(line, a + b, |line| - a - b);
    hide HeadingSplit, IsSpace, LeadingSpaces, Hashes, ContentEnd, Strip;
  }

  /** What any line reads as: no heading unless it splits as the pattern asks; then the
      stripped content before the closing tail, or the empty text. */
  lemma HeadingReads(line: string)
    ensures Heading(line) == None <==> forall a: nat, b: nat, c: nat :: !HeadingSplit(line, a, b, c)
    ensures Heading(line) != None ==> Heading(line) == Some("") || exists start: nat, e: nat ::
      start < e <= |line| && !IsSpace(line[start]) && EndsAt(line, e) && Heading(line) == Some(Strip(line[start..e]))
  {
    HeadingIff(line);
    if a: nat, b: nat, c: nat :| HeadingSplit(line, a, b, c) {
      SplitWhole(line, a, b, c);
      var gap := LeadingSpaces(line[a + b..]);
      hide Heading, HeadingSplit, EndsAt, IsSpace, LeadingSpaces, Strip;
      if a + b + gap < |line| {
        var e := FirstEnd(line, a + b + gap, a + b + gap + 1);
        EndIsWithin(line, e);
        HeadingText(line, a, b, gap, e);
      } else {
        EmptyHeading(line, a, b, c);
      }
    }
  }

  lemma EndIsWithin(line: string, e: nat)
    requires EndsAt(line, e)
    ensures e <= |line|
  {}

  /** The gap can be taken as long as the spaces last. */
  lemma SplitWhole(line: string, a: nat, b: nat, c: nat)
    requires HeadingSplit(line, a, b, c)
    ensures var gap := LeadingSpaces(line[a + b..]);
      if a + b + gap < |line| then HeadingSplit(line, a, b, gap) && !IsSpace(line[a + b + gap]) else SpacesIn(line, a + b, |line|)
  {
    SplitParts(line, a, b, c);
    SpacesHold(line, a + b);
  }

  // ----- sections -----------------------------------------------------------

  /** `raw` is the body joined by newlines: empty exactly when the body is. */
  datatype Section = Section(heading: string, body: seq<string>, order: nat)

  function Meaningful(lines: seq<string>): seq<string> {
    if lines == [] then []
    else
      var n := |lines| - 1;
      Meaningful(lines[..n]) + (if Blank(lines[n]) then [] else [Strip(lines[n])])
  }

  function MakeSection(heading: string, lines: seq<string>, order: nat): Section {
    Section(heading, Meaningful(lines), order)
  }

  /** What the lines say, read on their own. */
  datatype Token = HeadingToken(heading: string) | BodyToken(text: string)

  function TokensOf(line: string): seq<Token> {
    if Heading(line).Some? then [HeadingToken(Heading(line).value)]
    else if Blank(line) then [] else [BodyToken(Strip(line))]
  }

  /** The tokens from the first heading on. */
  function Tokens(lines: seq<string>): seq<Token> {
    if lines == [] then []
    else
      var n := |lines| - 1;
      var before := Tokens(lines[..n]);
      if before == [] && Heading(lines[n]).None? then [] else before + TokensOf(lines[n])
  }

  function BodyTokens(body: seq<string>): seq<Token> {
    if body == [] then [] else BodyTokens(body[..|body| - 1]) + [BodyToken(body[|body| - 1])]
  }

  function Flatten(sections: seq<Section>): seq<Token> {
    if sections == [] then []
    else
      var n := |sections| - 1;
      Flatten(sections[..n]) + [HeadingToken(sections[n].heading)] + BodyTokens(sections[n].body)
  }

  predicate Numbered(sections: seq<Section>) {
    forall i :: 0 <= i < |sections| ==> sections[i].order == i
  }

  lemma StripIs(s: string, lead: nat, n: nat)
    requires lead < n <= |s| && !IsSpace(s[lead]) && !IsSpace(s[n - 1])
    requires (forall i :: 0 <= i < lead ==> IsSpace(s[i])) && (forall i :: n <= i < |s| ==> IsSpace(s[i]))
    ensures Strip(s) == s[lead..n]
  {
    assert LeadingSpaces(s) == lead;
    var t := s[lead..];
    assert forall i :: 0 <= i < |t| ==> t[i] == s[lead + i];
    assert Body(t) == n - lead;
    assert t[..n - lead] == s[lead..n];
  }

  lemma TrimmedLineIsSame(line: string)
    ensures Blank(TrimRight(line)) == Blank(line) && (!Blank(line) ==> Strip(TrimRight(line)) == Strip(line))
  {
    var n := Body(line);
    var lead := LeadingSpaces(line);
    if lead < |line| {
      assert n > lead;
      StripIs(line, lead, n);
      StripIs(line[..n], lead, n);
      assert line[..n][lead..n] == line[lead..n];
      assert line[..n][lead] == line[lead];
    } else {
      assert n == 0;
    }
  }

  lemma MeaningfulAppends(lines: seq<string>, line: string)
    ensures Meaningful(lines + [TrimRight(line)]) == Meaningful(lines) + (if Blank(line) then [] else [Strip(line)])
  {
    TrimmedLineIsSame(line);
    assert (lines + [TrimRight(line)])[..|lines|] == lines;
  }

  lemma BodyTokensAppend(body: seq<string>, text: string)
    ensures BodyTokens(body + [text]) == BodyTokens(body) + [BodyToken(text)]
  {
    assert (body + [text])[..|body|] == body;
  }

  lemma FlattenAppends(sections: seq<Section>, section: Section)
    ensures Flatten(sections + [section]) == Flatten(sections) + [HeadingToken(section.heading)] + BodyTokens(section.body)
  {
    assert (sections + [section])[..|sections|] == sections;
  }

  /** The local variables of `_sections`. */
  datatype Scan = Scan(done: seq<Section>, heading: Option<string>, pending: seq<string>)

  function Close(scan: Scan): seq<Section> {
    if scan.heading.None? then scan.done
    else scan.done + [MakeSection(scan.heading.value, scan.pending, |scan.done|)]
  }

  function ReadLine(scan: Scan, line: string): Scan {
    if Heading(line).Some? then Scan(Close(scan), Heading(line), [])
    else if scan.heading.Some? then scan.(pending := scan.pending + [TrimRight(line)])
    else scan
  }

  predicate Sound(scan: Scan, tokens: seq<Token>) {
    && Flatten(Close(scan)) == tokens && Numbered(Close(scan))
    && (scan.heading.None? ==> scan.done == [] && tokens == [])
    && (scan.heading.Some? ==> tokens != [])
  }

  lemma CloseNew(sections: seq<Section>, heading: string)
    ensures Flatten(Close(Scan(sections, Some(heading), []))) == Flatten(sections) + [HeadingToken(heading)]
  {
    FlattenAppends(sections, MakeSection(heading, [], |sections|));
  }

  lemma CloseMore(scan: Scan, line: string)
    requires scan.heading.Some? && Heading(line).None?
    ensures Flatten(Close(ReadLine(scan, line))) == Flatten(Close(scan)) + TokensOf(line)
  {
    hide Flatten, Meaningful, BodyTokens, Heading;
    MeaningfulAppends(scan.pending, line);
    BodyTokensAppend(Meaningful(scan.pending), Strip(line));
    FlattenAppends(scan.done, MakeSection(scan.heading.value, scan.pending, |scan.done|));
    FlattenAppends(scan.done, MakeSection(scan.heading.value, scan.pending + [TrimRight(line)], |scan.done|));
    var front := Flatten(scan.done) + [HeadingToken(scan.heading.value)];
    var body := BodyTokens(Meaningful(scan.pending));
    assert front + (body + TokensOf(line)) == front + body + TokensOf(line);
    assert Meaningful(scan.pending) + [] == Meaningful(scan.pending);
    assert body + [] == body;
  }

  lemma ReadLineSound(scan: Scan, line: string, tokens: seq<Token>)
    requires Sound(scan, tokens)
    ensures Sound(ReadLine(scan, line), if tokens == [] && Heading(line).None? then [] else tokens + TokensOf(line))
  {
    hide Flatten, Heading, TrimRight, Strip, Blank, Meaningful;
    if Heading(line).Some? {
      CloseNew(Close(scan), Heading(line).value);
    } else if scan.heading.Some? {
      CloseMore(scan, line);
      var next := Close(ReadLine(scan, line));
      assert forall i :: 0 <= i < |next| ==> next[i].order == Close(scan)[i].order;
    }
  }

  function Scanned(lines: seq<string>): Scan {
    if lines == [] then Scan([], None, [])
    else ReadLine(Scanned(lines[..|lines| - 1]), lines[|lines| - 1])
  }

  function SectionsOf(lines: seq<string>): seq<Section> {
    Close(Scanned(lines))
  }

  lemma {:induction false} ScannedSound(lines: seq<string>)
    ensures Sound(Scanned(lines), Tokens(lines))
  {
    hide ReadLine, Heading, TokensOf;
    if lines != [] {
      var n := |lines| - 1;
      ScannedSound(lines[..n]);
      ReadLineSound(Scanned(lines[..n]), lines[n], Tokens(lines[..n]));
    }
  }

  /** The sections hold exactly the tokens from the first heading on, in order and
      nothing else, and are numbered from zero. */
  lemma SectionsAreTheTokens(lines: seq<string>)
    ensures Flatten(SectionsOf(lines)) == Tokens(lines) && Numbered(SectionsOf(lines))
  {
    ScannedSound(lines);
  }

  /** `_sections`. */
  method Sections(lines: seq<string>) returns (sections: seq<Section>)
    ensures sections == SectionsOf(lines)
  {
    hide Heading, TrimRight, MakeSection;
    sections := [];
    var current: Option<string> := None;
    var pending: seq<string> := [];
    for i := 0 to |lines|
      invariant Scan(sections, current, pending) == Scanned(lines[..i])
    {
      var line := lines[i];
      assert lines[..i + 1][..i] == lines[..i];
      var heading := Heading(line);
      if heading.Some? {
        if current.Some? {
          sections := sections + [MakeSection(current.value, pending, |sections|)];
        }
        current, pending := heading, [];
      } else if current.Some? {
        pending := pending + [TrimRight(line)];
      }
    }
    assert lines[..|lines|] == lines;
    if current.Some? {
      sections := sections + [MakeSection(current.value, pending, |sections|)];
    }
  }

  // ----- tokens determine sections ------------------------------------------

  lemma {:induction false} BodyTokensAt(body: seq<string>, i: nat)
    requires i < |BodyTokens(body)| || i < |body|
    ensures |BodyTokens(body)| == |body| && BodyTokens(body)[i] == BodyToken(body[i])
  {
    if body != [] {
      var n := |body| - 1;
      if n > 0 { BodyTokensAt(body[..n], if i < n then i else 0); }
    }
  }

  lemma BodyTokensInjective(b: seq<string>, c: seq<string>)
    requires BodyTokens(b) == BodyTokens(c)
    ensures b == c
  {
    if b != [] { BodyTokensAt(b, 0); }
    if c != [] { BodyTokensAt(c, 0); }
    forall i | 0 <= i < |b| ensures b[i] == c[i] {
      BodyTokensAt(b, i);
      BodyTokensAt(c, i);
    }
  }

  lemma HeadingPosition(a: seq<Token>, g: string, b: seq<string>)
    ensures var x := a + [HeadingToken(g)] + BodyTokens(b);
      x[|a|] == HeadingToken(g) && forall i :: |a| < i < |x| ==> x[i].BodyToken?
  {
    var x := a + [HeadingToken(g)] + BodyTokens(b);
    forall i | |a| < i < |x| ensures x[i].BodyToken? {
      assert x[i] == BodyTokens(b)[i - |a| - 1];
      BodyTokensAt(b, i - |a| - 1);
    }
  }

  lemma LastHeading(a: seq<Token>, g: string, b: seq<string>, c: seq<Token>, h: string, d: seq<string>)
    requires a + [HeadingToken(g)] + BodyTokens(b) == c + [HeadingToken(h)] + BodyTokens(d)
    ensures a == c && g == h && b == d
  {
    var x := a + [HeadingToken(g)] + BodyTokens(b);
    HeadingPosition(a, g, b);
    HeadingPosition(c, h, d);
    assert |a| == |c|;
    assert a == x[..|a|] == c;
    assert x[|a| + 1..] == BodyTokens(b) == BodyTokens(d);
    BodyTokensInjective(b, d);
  }

  /** No two numbered lists of sections hold the same tokens. */
  lemma {:induction false} TokensDetermineSections(s: seq<Section>, t: seq<Section>)
    requires Flatten(s) == Flatten(t) && Numbered(s) && Numbered(t)
    ensures s == t
    decreases |s|
  {
    hide BodyTokens;
    if s != [] && t != [] {
      var n, m := |s| - 1, |t| - 1;
      LastHeading(Flatten(s[..n]), s[n].heading, s[n].body, Flatten(t[..m]), t[m].heading, t[m].body);
      TokensDetermineSections(s[..n], t[..m]);
      assert s == s[..n] + [s[n]] && t == t[..m] + [t[m]];
    }
  }

  // ----- printing and parsing -----------------------------------------------

  predicate CanonicalHeading(h: string) {
    h != "" && Trimmed(h) && h[|h| - 1] != '#' && OneLine(h)
  }

  predicate CanonicalLine(line: string) {
    line != "" && Trimmed(line) && Heading(line).None? && OneLine(line)
  }

  predicate Canonical(sections: seq<Section>) {
    && Numbered(sections)
    && forall i :: 0 <= i < |sections| ==>
      CanonicalHeading(sections[i].heading) && forall k :: 0 <= k < |sections[i].body| ==> CanonicalLine(sections[i].body[k])
  }

  function Print(sections: seq<Section>): seq<string> {
    if sections == [] then []
    else
      var n := |sections| - 1;
      Print(sections[..n]) + ["# " + sections[n].heading] + sections[n].body
  }

  lemma NotATail(s: string)
    requires s != "" && !IsSpace(s[|s| - 1]) && s[|s| - 1] != '#'
    ensures !ClosingTail(s)
  {
    hide IsSpace;
    var a := SkipSpaces(s);
    assert a != [] && a[|a| - 1] == s[|s| - 1];
    var b := a[Hashes(a)..];
    assert b != [] && b[|b| - 1] == s[|s| - 1];
  }

  lemma {:induction false} NoEarlyTail(h: string, k: nat)
    requires 1 <= k <= |h| && !IsSpace(h[|h| - 1]) && h[|h| - 1] != '#'
    ensures ContentEnd(h, k) == |h|
    decreases |h| - k
  {
    hide IsSpace, ClosingTail;
    if k < |h| {
      NotATail(h[k..]);
      NoEarlyTail(h, k + 1);
    }
  }

  lemma HeadingReadsBack(h: string)
    requires CanonicalHeading(h)
    ensures Heading("# " + h) == Some(h)
  {
    var line := "# " + h;
    assert !IsSpace('#') && IsSpace(' ');
    assert LeadingSpaces(line) == 0;
    assert line[0..] == line && Hashes(line) == 1;
    var after := line[1..];
    assert after == " " + h;
    assert LeadingSpaces(after) == 1;
    assert after[1..] == h;
    NoEarlyTail(h, 1);
    assert h[..|h|] == h;
    StripTrimmed(h);
  }

  lemma TokensAppend(lines: seq<string>, line: string)
    ensures Tokens(lines + [line]) ==
      if Tokens(lines) == [] && Heading(line).None? then [] else Tokens(lines) + TokensOf(line)
  {
    assert (lines + [line])[..|lines|] == lines;
  }

  lemma {:induction false} TokensOfBody(lines: seq<string>, body: seq<string>)
    requires Tokens(lines) != [] && forall k :: 0 <= k < |body| ==> CanonicalLine(body[k])
    ensures Tokens(lines + body) == Tokens(lines) + BodyTokens(body)
    decreases |body|
  {
    hide Tokens, Heading;
    if body == [] {
      assert lines + body == lines && Tokens(lines) + [] == Tokens(lines);
    } else {
      var n := |body| - 1;
      TokensOfBody(lines, body[..n]);
      TokensAppend(lines + body[..n], body[n]);
      StripTrimmed(body[n]);
      assert lines + body == lines + body[..n] + [body[n]];
    }
  }

  lemma {:induction false} TokensOfPrint(sections: seq<Section>)
    requires Canonical(sections)
    ensures Tokens(Print(sections)) == Flatten(sections)
  {
    hide Heading, CanonicalHeading, CanonicalLine, BodyTokens;
    if sections != [] {
      var n := |sections| - 1;
      var front := Print(sections[..n]);
      TokensOfPrint(sections[..n]);
      HeadingReadsBack(sections[n].heading);
      TokensAppend(front, "# " + sections[n].heading);
      TokensOfBody(front + ["# " + sections[n].heading], sections[n].body);
    }
  }

  lemma {:induction false} PrintsOneLiners(sections: seq<Section>)
    requires Canonical(sections)
    ensures forall i :: 0 <= i < |Print(sections)| ==> OneLine(Print(sections)[i])
  {
    hide Heading;
    if sections != [] {
      var n := |sections| - 1;
      PrintsOneLiners(sections[..n]);
      assert OneLine("# " + sections[n].heading);
    }
  }

  /** Printing canonical sections as text and parsing the text gives them back. */
  lemma ParseOfPrint(sections: seq<Section>)
    requires Canonical(sections)
    ensures SectionsOf(SplitLines(JoinLines(Print(sections)))) == sections
  {
    PrintsOneLiners(sections);
    SplitJoined(Print(sections));
    TokensOfPrint(sections);
    hide Canonical, Print, Tokens, Flatten, SectionsOf;
    SectionsAreTheTokens(Print(sections));
    CanonicalIsNumbered(sections);
    TokensDetermineSections(SectionsOf(Print(sections)), sections);
  }

  lemma CanonicalIsNumbered(sections: seq<Section>)
    requires Canonical(sections)
    ensures Numbered(sections)
  {}

  // ----- what the sections hold ---------------------------------------------

  function Texts(tokens: seq<Token>): seq<string> {
    if tokens == [] then []
    else
      var n := |tokens| - 1;
      Texts(tokens[..n]) + (if tokens[n].BodyToken? then [tokens[n].text] else [])
  }

  function Bodies(sections: seq<Section>): seq<string> {
    if sections == [] then [] else Bodies(sections[..|sections| - 1]) + sections[|sections| - 1].body
  }

  /** The trimmed non-blank non-heading lines after the first heading. */
  function PlainLines(lines: seq<string>): seq<string> {
    if lines == [] then []
    else
      var n := |lines| - 1;
      PlainLines(lines[..n])
      + (if Heading(lines[n]).Some? || Blank(lines[n]) || !AnyHeading(lines[..n]) then [] else [Strip(lines[n])])
  }

  predicate AnyHeading(lines: seq<string>) {
    exists i :: 0 <= i < |lines| && Heading(lines[i]).Some?
  }

  lemma {:induction false} TextsAppend(s: seq<Token>, t: seq<Token>)
    ensures Texts(s + t) == Texts(s) + Texts(t)
  {
    if t == [] {
      assert s + t == s;
    } else {
      var n := |t| - 1;
      TextsAppend(s, t[..n]);
      assert (s + t)[..|s| + n] == s + t[..n];
    }
  }

  lemma {:induction false} TextsOfBody(body: seq<string>)
    ensures Texts(BodyTokens(body)) == body
  {
    if body != [] {
      var n := |body| - 1;
      TextsOfBody(body[..n]);
      TextsAppend(BodyTokens(body[..n]), [BodyToken(body[n])]);
      assert body == body[..n] + [body[n]];
    }
  }

  lemma {:induction false} TextsOfSections(sections: seq<Section>)
    ensures Texts(Flatten(sections)) == Bodies(sections)
  {
    if sections != [] {
      var n := |sections| - 1;
      TextsOfSections(sections[..n]);
      TextsAppend(Flatten(sections[..n]), [HeadingToken(sections[n].heading)]);
      TextsAppend(Flatten(sections[..n]) + [HeadingToken(sections[n].heading)], BodyTokens(sections[n].body));
      TextsOfBody(sections[n].body);
    }
  }

  lemma AnyHeadingNext(lines: seq<string>, n: nat)
    requires |lines| == n + 1
    ensures AnyHeading(lines) <==> AnyHeading(lines[..n]) || Heading(lines[n]).Some?
  {
    hide Heading;
    if AnyHeading(lines[..n]) { var i :| 0 <= i < n && Heading(lines[..n][i]).Some?; assert lines[i] == lines[..n][i]; }
    if AnyHeading(lines) {
      var i :| 0 <= i <= n && Heading(lines[i]).Some?;
      if i < n { assert lines[..n][i] == lines[i]; }
    }
  }

  lemma {:induction false} TextsOfTokens(lines: seq<string>)
    ensures Texts(Tokens(lines)) == PlainLines(lines) && (Tokens(lines) != [] <==> AnyHeading(lines))
  {
    hide Heading, Blank, Strip;
    if lines != [] {
      hide AnyHeading;
      var n := |lines| - 1;
      TextsOfTokens(lines[..n]);
      TextsAppend(Tokens(lines[..n]), TokensOf(lines[n]));
      AnyHeadingNext(lines, n);
    }
  }

  /** The bodies, one after the other, are exactly the trimmed non-blank lines that are
      not headings and come after the first heading; there are sections exactly when
      there is a heading, numbered from zero. */
  lemma NothingLostOrInvented(lines: seq<string>)
    ensures var sections := SectionsOf(lines);
      && Bodies(sections) == PlainLines(lines)
      && (sections != [] <==> AnyHeading(lines))
      && (forall i :: 0 <= i < |sections| ==> sections[i].order == i)
  {
    SectionsAreTheTokens(lines);
    TextsOfSections(SectionsOf(lines));
    TextsOfTokens(lines);
  }

  /** A closed heading of the kind the descriptions use. */
  lemma ClosedHeading()
    ensures Heading("# 岗位名称 #") == Some("岗位名称")
  {
    var line := "# 岗位名称 #";
    assert |line| == 8 && line[0] == '#' && IsSpace(line[1]) && IsSpace(line[6]) && line[7] == '#';
    assert forall i :: 2 <= i < 6 ==> !IsSpace(line[i]) && line[i] != '#';
    assert line[2..6] == "岗位名称" && Trimmed("岗位名称");
    hide IsSpace, Heading, Strip;
    assert line[6..][0] == line[6] && line[6..][1] == line[7] && |line[6..]| == 2;
    assert TailSplit(line[6..], 1, 1);
    assert EndsAt(line, 6);
    forall i: nat | 2 < i < 6 ensures !EndsAt(line, i) {
      forall x: nat, y: nat ensures !TailSplit(line[i..], x, y) {
        assert line[i..][0] == line[i];
      }
    }
    HeadingText(line, 0, 1, 1, 6);
    assert line[2..6] == "岗位名称";
    StripTrimmed("岗位名称");
  }

  /** The closing tail needs no space before it, so a name that ends in hashes loses them. */
  lemma HashIsLost()
    ensures Heading("# C#") == Some("C")
  {
    var line := "# C#";
    assert |line| == 4 && line[0] == '#' && IsSpace(line[1]) && line[2] == 'C' && !IsSpace('C') && line[3] == '#';
    assert line[2..3] == "C" && Trimmed("C");
    hide IsSpace, Heading, Strip;
    assert |line[3..]| == 1 && line[3..][0] == line[3];
    assert TailSplit(line[3..], 0, 1);
    assert EndsAt(line, 3);
    HeadingText(line, 0, 1, 1, 3);
    StripTrimmed("C");
  }
}
