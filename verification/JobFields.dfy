/** `parse_job_description`: which section becomes which field, and when a result
    comes back at all. */
module JobFields {
  import opened Common
  import opened Text
  import opened JobDescription

  datatype Field =
    Title | CompanyName | Location | SalaryRange | JobNature | EmploymentType | InterviewMode | SummaryText
    | Responsibilities | Requirements

  const CORE_FIELDS: seq<Field> := [Title, Location, SalaryRange, Responsibilities, Requirements]

  const HEADING_MAP: map<string, Field> := map[
    "岗位名称" := Title, "职位名称" := Title, "标题" := Title,
    "公司名称" := CompanyName, "公司" := CompanyName,
    "工作地点" := Location, "地点" := Location,
    "薪资" := SalaryRange, "薪资范围" := SalaryRange,
    "岗位性质" := JobNature, "用工类型" := EmploymentType, "面试方式" := InterviewMode,
    "岗位摘要" := SummaryText, "摘要" := SummaryText,
    "岗位职责" := Responsibilities, "职责" := Responsibilities,
    "任职要求" := Requirements, "岗位要求" := Requirements, "要求" := Requirements]

  function MappedField(heading: string): Option<Field> {
    if heading in HEADING_MAP then Some(HEADING_MAP[heading]) else None
  }

  /** `MissingFields` is the parser's own error; `Invalid` stands for the validation
      error of the result models. */
  datatype Parsed =
    | MissingFields(missing: seq<Field>)
    | Invalid
    | Parsed(fields: map<Field, Section>, extra: map<string, Section>)

  // ----- the declarative reading --------------------------------------------

  predicate Mapped(sections: seq<Section>, i: nat, f: Field) {
    i < |sections| && MappedField(sections[i].heading) == Some(f)
  }

  /** The first section stands in for the title when its body is empty. */
  predicate ImplicitTitle(sections: seq<Section>, i: nat) {
    i == 0 && i < |sections| && sections[0].body == [] && sections[0].order == 0
  }

  predicate Supplies(sections: seq<Section>, i: nat, f: Field) {
    Mapped(sections, i, f)
    || (f == Title && ImplicitTitle(sections, i) && MappedField(sections[i].heading).None?)
  }

  predicate Additional(sections: seq<Section>, i: nat, heading: string) {
    i < |sections| && sections[i].heading == heading && MappedField(heading).None? && !ImplicitTitle(sections, i)
  }

  ghost predicate Supplied(sections: seq<Section>, f: Field) {
    exists i: nat :: Supplies(sections, i, f)
  }

  ghost predicate LastSupplier(sections: seq<Section>, i: nat, f: Field) {
    Supplies(sections, i, f) && forall j: nat :: Supplies(sections, j, f) ==> j <= i
  }

  ghost predicate LastAdditional(sections: seq<Section>, i: nat, heading: string) {
    Additional(sections, i, heading) && forall j: nat :: Additional(sections, j, heading) ==> j <= i
  }

  predicate BlankHeading(sections: seq<Section>) {
    exists i :: 0 <= i < |sections| && sections[i].heading == ""
  }

  /** What the check for missing fields looks at: for the title, any empty first
      section will do, whatever its heading maps to. */
  ghost predicate Present(sections: seq<Section>, f: Field) {
    (exists i: nat :: Mapped(sections, i, f)) || (f == Title && ImplicitTitle(sections, 0))
  }

  /** The fields the check does not find, in the order given. */
  ghost function Absent(sections: seq<Section>, fields: seq<Field>): seq<Field> {
    if fields == [] then []
    else
      var n := |fields| - 1;
      Absent(sections, fields[..n]) + (if Present(sections, fields[n]) then [] else [fields[n]])
  }

  lemma {:induction false} AbsentIff(sections: seq<Section>, fields: seq<Field>, f: Field)
    ensures f in Absent(sections, fields) <==> f in fields && !Present(sections, f)
  {
    hide Present;
    if fields != [] { AbsentIff(sections, fields[..|fields| - 1], f); }
  }

  // ----- the code -----------------------------------------------------------

  /** `by_field`: the last section wins. */
  method ByField(sections: seq<Section>) returns (byField: map<Field, Section>)
    ensures forall f :: f in byField <==> exists i: nat :: Mapped(sections, i, f)
  {
    byField := map[];
    for i := 0 to |sections|
      invariant forall f :: f in byField <==> exists k: nat :: k < i && Mapped(sections, k, f)
    {
      var field := MappedField(sections[i].heading);
      if field.Some? {
        assert Mapped(sections, i, field.value);
        byField := byField[field.value := sections[i]];
      }
    }
    forall f ensures f in byField <==> exists i: nat :: Mapped(sections, i, f) {
      if i: nat :| Mapped(sections, i, f) { assert i < |sections|; }
    }
  }

  method Missing(sections: seq<Section>) returns (missing: seq<Field>)
    ensures missing == Absent(sections, CORE_FIELDS)
  {
    var byField := ByField(sections);
    if Title !in byField && ImplicitTitle(sections, 0) {
      byField := byField[Title := sections[0]];
    }
    missing := [];
    for k := 0 to |CORE_FIELDS|
      invariant missing == Absent(sections, CORE_FIELDS[..k])
    {
      assert CORE_FIELDS[..k + 1][..k] == CORE_FIELDS[..k];
      if CORE_FIELDS[k] !in byField {
        missing := missing + [CORE_FIELDS[k]];
      }
    }
    assert CORE_FIELDS[..|CORE_FIELDS|] == CORE_FIELDS;
  }

  ghost predicate Assigned(sections: seq<Section>, n: nat, fields: map<Field, Section>)
    requires n <= |sections|
  {
    forall f :: if f in fields
      then exists i: nat :: i < n && Supplies(sections, i, f) && fields[f] == sections[i]
             && forall j: nat :: j < n && Supplies(sections, j, f) ==> j <= i
      else forall j: nat :: j < n ==> !Supplies(sections, j, f)
  }

  ghost predicate Gathered(sections: seq<Section>, n: nat, extra: map<string, Section>)
    requires n <= |sections|
  {
    forall h :: if h in extra
      then exists i: nat :: i < n && Additional(sections, i, h) && extra[h] == sections[i]
             && forall j: nat :: j < n && Additional(sections, j, h) ==> j <= i
      else forall j: nat :: j < n ==> !Additional(sections, j, h)
  }

  lemma AssignNext(sections: seq<Section>, n: nat, fields: map<Field, Section>, field: Option<Field>)
    requires n < |sections| && Assigned(sections, n, fields)
    requires forall f :: Supplies(sections, n, f) <==> field == Some(f)
    ensures Assigned(sections, n + 1, if field.Some? then fields[field.value := sections[n]] else fields)
  {}

  lemma GatherNext(sections: seq<Section>, n: nat, extra: map<string, Section>, yes: bool)
    requires n < |sections| && Gathered(sections, n, extra)
    requires forall h :: Additional(sections, n, h) <==> yes && h == sections[n].heading
    ensures Gathered(sections, n + 1, if yes then extra[sections[n].heading := sections[n]] else extra)
  {}

  /** The loop that fills the fields; a blank heading fails the model validation. */
  method AssignFields(sections: seq<Section>) returns (ok: bool, fields: map<Field, Section>, extra: map<string, Section>)
    ensures ok <==> !BlankHeading(sections)
    ensures ok ==> Assigned(sections, |sections|, fields) && Gathered(sections, |sections|, extra)
  {
    hide Assigned, Gathered;
    fields, extra := map[], map[];
    NothingAssigned(sections);
    for n := 0 to |sections|
      invariant forall i :: 0 <= i < n ==> sections[i].heading != ""
      invariant Assigned(sections, n, fields) && Gathered(sections, n, extra)
    {
      var section := sections[n];
      if section.heading == "" {
        return false, fields, extra;
      }
      var field := MappedField(section.heading);
      var mapped := field.Some?;
      if ImplicitTitle(sections, n) && field.None? {
        field := Some(Title);
      }
      AssignNext(sections, n, fields, field);
      GatherNext(sections, n, extra, field.None?);
      if field.Some? {
        fields := fields[field.value := section];
      } else {
        extra := extra[section.heading := section];
      }
    }
    return true, fields, extra;
  }

  lemma NothingAssigned(sections: seq<Section>)
    ensures Assigned(sections, 0, map[]) && Gathered(sections, 0, map[])
  {}

  /** `parse_job_description` on the sections of the text: a result comes back exactly
      when every core field is supplied and no heading is blank, and each field is
      the last section that supplies it. */
  method ParseJobDescription(text: string) returns (r: Parsed)
    ensures var sections := SectionsOf(SplitLines(text));
      && (r.Parsed? <==> !BlankHeading(sections) && forall f :: f in CORE_FIELDS ==> Supplied(sections, f))
      && (r.Parsed? ==>
            && (forall f :: f in r.fields <==> Supplied(sections, f))
            && (forall f :: f in r.fields ==> exists i: nat :: LastSupplier(sections, i, f) && r.fields[f] == sections[i])
            && (forall h :: h in r.extra <==> exists i: nat :: LastAdditional(sections, i, h))
            && (forall h :: h in r.extra ==> exists i: nat :: LastAdditional(sections, i, h) && r.extra[h] == sections[i]))
      && (r.MissingFields? <==> exists f :: f in CORE_FIELDS && !Present(sections, f))
      && (r.MissingFields? ==> r.missing == Absent(sections, CORE_FIELDS))
  {
    hide Absent, SectionsOf, Supplies, Additional, Present, BlankHeading;
    var sections := Sections(SplitLines(text));
    var missing := Missing(sections);
    forall f ensures f in missing <==> f in CORE_FIELDS && !Present(sections, f) { AbsentIff(sections, CORE_FIELDS, f); }
    if missing != [] {
      assert missing[0] in missing;
      MissingIsUnsupplied(sections, missing[0]);
      return MissingFields(missing);
    }
    var ok, fields, extra := AssignFields(sections);
    if !ok {
      return Invalid;
    }
    ReadAssigned(sections, fields);
    ReadGathered(sections, extra);
    for k := 0 to |CORE_FIELDS|
      invariant forall f :: f in CORE_FIELDS[..k] ==> Supplied(sections, f)
    {
      assert CORE_FIELDS[..k + 1] == CORE_FIELDS[..k] + [CORE_FIELDS[k]];
      if CORE_FIELDS[k] !in fields {
        assert CORE_FIELDS[k] in CORE_FIELDS && !Supplied(sections, CORE_FIELDS[k]);
        return Invalid;
      }
    }
    assert CORE_FIELDS[..|CORE_FIELDS|] == CORE_FIELDS;
    return Parsed(fields, extra);
  }

  lemma MissingIsUnsupplied(sections: seq<Section>, f: Field)
    ensures Supplied(sections, f) ==> Present(sections, f)
  {}

  lemma ReadAssigned(sections: seq<Section>, fields: map<Field, Section>)
    requires Assigned(sections, |sections|, fields)
    ensures forall f :: f in fields <==> Supplied(sections, f)
    ensures forall f :: f in fields ==> exists i: nat :: LastSupplier(sections, i, f) && fields[f] == sections[i]
  {
    forall f ensures f in fields <==> Supplied(sections, f)
      ensures f in fields ==> exists i: nat :: LastSupplier(sections, i, f) && fields[f] == sections[i]
    {
      if f in fields {
        var i: nat :| i < |sections| && Supplies(sections, i, f) && fields[f] == sections[i]
          && forall j: nat :: j < |sections| && Supplies(sections, j, f) ==> j <= i;
        assert LastSupplier(sections, i, f);
      } else {
        assert forall i: nat :: Supplies(sections, i, f) ==> i < |sections|;
      }
    }
  }

  lemma ReadGathered(sections: seq<Section>, extra: map<string, Section>)
    requires Gathered(sections, |sections|, extra)
    ensures forall h :: h in extra <==> exists i: nat :: LastAdditional(sections, i, h)
    ensures forall h :: h in extra ==> exists i: nat :: LastAdditional(sections, i, h) && extra[h] == sections[i]
  {
    forall h ensures h in extra <==> exists i: nat :: LastAdditional(sections, i, h)
      ensures h in extra ==> exists i: nat :: LastAdditional(sections, i, h) && extra[h] == sections[i]
    {
      if h in extra {
        var i: nat :| i < |sections| && Additional(sections, i, h) && extra[h] == sections[i]
          && forall j: nat :: j < |sections| && Additional(sections, j, h) ==> j <= i;
        assert LastAdditional(sections, i, h);
      } else {
        assert forall i: nat :: Additional(sections, i, h) ==> i < |sections|;
      }
    }
  }

  // ----- where the check and the assignment differ --------------------------

  /** The check for missing fields lets the title through although nothing supplies
      it exactly when the first section is empty, its heading maps to another field
      and no heading maps to the title. */
  lemma TitleTrapIff(sections: seq<Section>)
    ensures Present(sections, Title) && !Supplied(sections, Title) <==>
      && ImplicitTitle(sections, 0) && MappedField(sections[0].heading).Some?
      && (forall i: nat :: !Mapped(sections, i, Title))
  {
    if ImplicitTitle(sections, 0) && MappedField(sections[0].heading).None? {
      assert Supplies(sections, 0, Title);
    }
    if i: nat :| Mapped(sections, i, Title) {
      assert Supplies(sections, i, Title);
    }
  }

  /** For every other core field the check and the assignment agree. */
  lemma OtherFieldsAgree(sections: seq<Section>, f: Field)
    requires f != Title
    ensures Present(sections, f) <==> Supplied(sections, f)
  {
    if i: nat :| Mapped(sections, i, f) { assert Supplies(sections, i, f); }
    if i: nat :| Supplies(sections, i, f) { assert Mapped(sections, i, f); }
  }

  lemma SomeHeadings()
    ensures MappedField("薪资") == Some(SalaryRange) && MappedField("工作地点") == Some(Location)
    ensures MappedField("职责") == Some(Responsibilities) && MappedField("要求") == Some(Requirements)
  {
    assert "薪资"[0] == '薪' && "工作地点"[0] == '工' && "职责"[0] == '职' && "要求"[0] == '要';
  }

  const TRAP: seq<Section> := [Section("薪资", [], 0), Section("工作地点", [], 1), Section("职责", [], 2), Section("要求", [], 3)]

  const TRAP_TEXT: string := "# 薪资\n# 工作地点\n# 职责\n# 要求\n"

  /** Such a description: four headings, the first one with nothing under it. */
  lemma TitleTrap()
    ensures !BlankHeading(TRAP) && (forall f :: f in CORE_FIELDS ==> Present(TRAP, f)) && !Supplied(TRAP, Title)
  {
    SomeHeadings();
    hide MappedField;
    var sections := TRAP;
    assert Mapped(sections, 0, SalaryRange) && Mapped(sections, 1, Location);
    assert Mapped(sections, 2, Responsibilities) && Mapped(sections, 3, Requirements);
    assert forall f :: f in CORE_FIELDS ==> f == Title || f == Location || f == SalaryRange || f == Responsibilities || f == Requirements;
    assert forall i: nat :: !Supplies(sections, i, Title);
  }

  lemma TrapIsCanonical()
    ensures Canonical(TRAP)
  {
    assert forall i :: 0 <= i < 4 ==> OneLine(TRAP[i].heading);
  }

  lemma PrintNext(sections: seq<Section>, heading: string, order: nat)
    ensures Print(sections + [Section(heading, [], order)]) == Print(sections) + ["# " + heading]
  {
    var all := sections + [Section(heading, [], order)];
    assert all[..|all| - 1] == sections;
  }

  lemma TrapLines()
    ensures Print(TRAP) == ["# 薪资", "# 工作地点", "# 职责", "# 要求"]
  {
    hide Print;
    var a, b, c, d := TRAP[0], TRAP[1], TRAP[2], TRAP[3];
    EmptyPrint();
    PrintNext([], "薪资", 0);
    PrintNext([a], "工作地点", 1);
    PrintNext([a, b], "职责", 2);
    PrintNext([a, b, c], "要求", 3);
    assert "# " + "薪资" == "# 薪资" && "# " + "工作地点" == "# 工作地点" && "# " + "职责" == "# 职责" && "# " + "要求" == "# 要求";
    assert [] + [a] == [a] && [a] + [b] == [a, b] && [a, b] + [c] == [a, b, c] && [a, b, c] + [d] == TRAP;
  }

  lemma EmptyPrint()
    ensures Print([]) == []
  {}

  lemma JoinNext(line: string, rest: seq<string>)
    ensures JoinLines([line] + rest) == line + ['\n'] + JoinLines(rest)
  {
    assert ([line] + rest)[1..] == rest;
  }

  lemma TrapText()
    ensures JoinLines(Print(TRAP)) == TRAP_TEXT
  {
    hide Print;
    TrapLines();
    JoinNext("# 薪资", ["# 工作地点", "# 职责", "# 要求"]);
    JoinNext("# 工作地点", ["# 职责", "# 要求"]);
    JoinNext("# 职责", ["# 要求"]);
    JoinNext("# 要求", []);
    assert ["# 薪资"] + ["# 工作地点", "# 职责", "# 要求"] == ["# 薪资", "# 工作地点", "# 职责", "# 要求"];
  }

  /** The parser on that text: neither a result nor its own error. */
  method ParseTrap() returns (r: Parsed)
    ensures r == Invalid
  {
    hide Present, BlankHeading, Supplies, Absent, SectionsOf, Print, Canonical;
    TrapIsCanonical();
    TrapText();
    ParseOfPrint(TRAP);
    TitleTrap();
    r := ParseJobDescription(TRAP_TEXT);
  }
}
