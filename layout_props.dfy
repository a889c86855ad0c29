/** What `generateStructuredPDF` promises about the page it builds: the header,
    which sections appear and in which order, the two-column geometry, the
    divider and cursor rule, and the order of the entry lines. */
module LayoutProperties {
  import opened Resume
  import opened Strings
  import opened Digits
  import opened Pdf
  import opened Layout

  // ---------------------------------------------------------------------
  // Section order and inclusion (server.mjs:144-263)
  // ---------------------------------------------------------------------

  /** The left-column headings in the only order they can appear. */
  const SectionOrder: seq<string> := [
    "PROFESSIONAL SUMMARY", "SKILLS", "WORK HISTORY", "EDUCATION",
    "CERTIFICATIONS / LICENSES", "ACHIEVEMENTS", "REFERENCES"]

  /** The condition under which the k-th section of SectionOrder is drawn. */
  predicate Present(r: StructuredResume, k: nat)
  {
    match k
    case 0 => Truthy(r.professionalSummary)
    case 1 => NonEmptyArray(r.skills)
    case 2 => r.workExperience.Some?
    case 3 => r.education.Some?
    case 4 => NonEmptyArray(r.certifications)
    case 5 => NonEmptyArray(r.achievements)
    case 6 => Truthy(r.references)
    case _ => false
  }

  /** Position of a heading in SectionOrder (7 when it is not one of them). */
  function Rank(h: string): nat
  {
    if h == "PROFESSIONAL SUMMARY" then 0
    else if h == "SKILLS" then 1
    else if h == "WORK HISTORY" then 2
    else if h == "EDUCATION" then 3
    else if h == "CERTIFICATIONS / LICENSES" then 4
    else if h == "ACHIEVEMENTS" then 5
    else if h == "REFERENCES" then 6
    else 7
  }

  function Headings(ss: seq<Section>): (r: seq<string>)
    ensures |r| == |ss|
  {
    seq(|ss|, i requires 0 <= i < |ss| => Heading(ss[i]))
  }

  /** Headings of known sections, strictly increasing in SectionOrder, all below `bound`. */
  predicate OrderedBelow(hs: seq<string>, bound: nat)
  {
    (forall i :: 0 <= i < |hs| ==> Rank(hs[i]) < bound)
    && (forall i, j :: 0 <= i < j < |hs| ==> Rank(hs[i]) < Rank(hs[j]))
  }

  lemma TitleCase()
    ensures Upper("Professional Summary") == "PROFESSIONAL SUMMARY"
    ensures Upper("Skills") == "SKILLS"
    ensures Upper("Certifications / Licenses") == "CERTIFICATIONS / LICENSES"
    ensures Upper("Achievements") == "ACHIEVEMENTS"
    ensures Upper("References") == "REFERENCES"
  {
    LongTitleCase();
  }

  lemma LongTitleCase()
    ensures Upper("Professional Summary") == "PROFESSIONAL SUMMARY"
    ensures Upper("Certifications / Licenses") == "CERTIFICATIONS / LICENSES"
  {
  }

  /** The part of the plan for the k-th section of SectionOrder. */
  function Part(r: StructuredResume, k: nat): seq<Section>
    requires k < 7
  {
    [SummaryPart(r), SkillsPart(r), WorkPart(r), EducationPart(r),
     CertificationsPart(r), AchievementsPart(r), ReferencesPart(r)][k]
  }

  /** The k-th part holds exactly the k-th heading when its condition holds, else nothing. */
  lemma PartShape(r: StructuredResume, k: nat)
    requires k < 7
    ensures Headings(Part(r, k)) == if Present(r, k) then [SectionOrder[k]] else []
  {
    TitleCase();
  }

  lemma OrderedAppend(hs: seq<string>, part: seq<string>, k: nat)
    requires k < 7 && OrderedBelow(hs, k)
    requires part == [] || part == [SectionOrder[k]]
    ensures OrderedBelow(hs + part, k + 1)
  {
  }

  /** Sections are drawn only in the order Professional Summary, Skills, Work History,
      Education, Certifications / Licenses, Achievements, References, each at most once. */
  lemma PlanOrdered(r: StructuredResume)
    ensures OrderedBelow(Headings(Plan(r)), 7)
  {
    var hs: seq<string> := [];
    var k := 0;
    while k < 7
      invariant 0 <= k <= 7
      invariant OrderedBelow(hs, k)
      invariant hs == Headings(PlanUpTo(r, k))
    {
      PartShape(r, k);
      HeadingsAppend(PlanUpTo(r, k), Part(r, k));
      OrderedAppend(hs, Headings(Part(r, k)), k);
      hs := hs + Headings(Part(r, k));
      k := k + 1;
    }
    PlanUpToAll(r);
  }

  /** The first k parts of the plan. */
  function PlanUpTo(r: StructuredResume, k: nat): seq<Section>
    requires k <= 7
  {
    if k == 0 then [] else PlanUpTo(r, k - 1) + Part(r, k - 1)
  }

  lemma PlanUpToAll(r: StructuredResume)
    ensures PlanUpTo(r, 7) == Plan(r)
  {
    assert PlanUpTo(r, 1) == SummaryPart(r);
    assert PlanUpTo(r, 2) == SummaryPart(r) + SkillsPart(r);
    assert PlanUpTo(r, 3) == SummaryPart(r) + SkillsPart(r) + WorkPart(r);
    assert PlanUpTo(r, 4) == SummaryPart(r) + SkillsPart(r) + WorkPart(r) + EducationPart(r);
    assert PlanUpTo(r, 5) == SummaryPart(r) + SkillsPart(r) + WorkPart(r) + EducationPart(r)
      + CertificationsPart(r);
    assert PlanUpTo(r, 6) == SummaryPart(r) + SkillsPart(r) + WorkPart(r) + EducationPart(r)
      + CertificationsPart(r) + AchievementsPart(r);
  }

  lemma RankOfOrder(k: nat)
    requires k < 7
    ensures Rank(SectionOrder[k]) == k
  {
  }

  /** One step of PlanIncludes: appending the j-th part decides the j-th heading and
      leaves the earlier ones as they were. */
  lemma IncludesStep(hs: seq<string>, part: seq<string>, j: nat, k: nat, present: bool)
    requires j < 7 && k < 7
    requires forall i :: 0 <= i < |hs| ==> Rank(hs[i]) < j
    requires part == [] || part == [SectionOrder[j]]
    requires k < j ==> (SectionOrder[k] in hs <==> present)
    requires k == j ==> (part != [] <==> present)
    ensures forall i :: 0 <= i < |hs + part| ==> Rank((hs + part)[i]) < j + 1
    ensures k < j + 1 ==> (SectionOrder[k] in hs + part <==> present)
  {
    RankOfOrder(j);
    RankOfOrder(k);
  }

  lemma HeadingsAppend(a: seq<Section>, b: seq<Section>)
    ensures Headings(a + b) == Headings(a) + Headings(b)
  {
  }

  /** The k-th heading is planned exactly when the source's condition for it holds:
      Skills, Certifications and Achievements need a non-empty array, Summary and
      References a non-empty string, and Work History and Education any array, even
      an empty one. */
  lemma PlanIncludes(r: StructuredResume, k: nat)
    requires k < 7
    ensures SectionOrder[k] in Headings(Plan(r)) <==> Present(r, k)
  {
    var hs: seq<string> := [];
    var j := 0;
    while j < 7
      invariant 0 <= j <= 7
      invariant hs == Headings(PlanUpTo(r, j))
      invariant forall i :: 0 <= i < |hs| ==> Rank(hs[i]) < j
      invariant k < j ==> (SectionOrder[k] in hs <==> Present(r, k))
    {
      PartShape(r, j);
      HeadingsAppend(PlanUpTo(r, j), Part(r, j));
      IncludesStep(hs, Headings(Part(r, j)), j, k, Present(r, k));
      hs := hs + Headings(Part(r, j));
      j := j + 1;
    }
    PlanUpToAll(r);
  }

  /** A record with every optional field populated plans every section exactly once,
      in the fixed order. */
  lemma FullRecordHeadings(r: StructuredResume)
    requires forall k :: 0 <= k < 7 ==> Present(r, k)
    ensures Headings(Plan(r)) == SectionOrder
  {
    var j := 0;
    while j < 7
      invariant 0 <= j <= 7
      invariant Headings(PlanUpTo(r, j)) == SectionOrder[..j]
    {
      PartShape(r, j);
      HeadingsAppend(PlanUpTo(r, j), Part(r, j));
      assert SectionOrder[..j + 1] == SectionOrder[..j] + [SectionOrder[j]];
      j := j + 1;
    }
    PlanUpToAll(r);
  }

  // ---------------------------------------------------------------------
  // What was drawn
  // ---------------------------------------------------------------------

  /** Texts of the text commands, in drawing order. */
  function Texts(ops: seq<DrawOp>): seq<string>
  {
    if |ops| == 0 then []
    else (if ops[0].DrawText? then [ops[0].text] else []) + Texts(ops[1..])
  }

  /** Texts drawn in the left column, in drawing order. */
  function Titles(ops: seq<DrawOp>): seq<string>
  {
    if |ops| == 0 then []
    else (if ops[0].DrawText? && ops[0].x == LeftColumnX then [ops[0].text] else []) + Titles(ops[1..])
  }

  /** A section title: bold 12, black, at x = 50 in a 100-wide column. */
  predicate LeftOp(op: DrawOp)
  {
    op.DrawText? && op.x == LeftColumnX && op.width == LeftColumnWidth && op.indent == 0.0
    && op.font == HelveticaBold && op.size == 12.0 && op.color == Black
  }

  /** Section content: size 11, black, at x = 170, wrapping at page width − 220. */
  predicate RightOp(op: DrawOp, pageWidth: real)
  {
    op.DrawText? && op.x == RightColumnX && op.width == pageWidth - 220.0
    && op.size == 11.0 && op.color == Black
  }

  /** A horizontal grey divider of width 1 from the left to the right margin. */
  predicate DividerOp(op: DrawOp, pageWidth: real)
  {
    op.StrokeLine? && op.x1 == Margin && op.x2 == pageWidth - Margin && op.y1 == op.y2
    && op.color == DividerColor && op.lineWidth == 1.0
  }

  predicate BodyOp(op: DrawOp, pageWidth: real)
  {
    LeftOp(op) || RightOp(op, pageWidth) || DividerOp(op, pageWidth)
  }

  /** `e` was reached from `d` by drawing only (nothing drawn before is lost). */
  predicate Extends(d: DocState, e: DocState)
  {
    |d.ops| <= |e.ops| && e.ops[..|d.ops|] == d.ops
  }

  function Added(d: DocState, e: DocState): seq<DrawOp>
    requires Extends(d, e)
  {
    e.ops[|d.ops|..]
  }

  function SubTexts(subs: seq<SubLine>): (r: seq<string>)
    ensures |r| == |subs|
  {
    seq(|subs|, i requires 0 <= i < |subs| => subs[i].text)
  }

  function EntryTexts(e: Entry): seq<string>
  {
    [e.lead] + SubTexts(e.subs)
  }

  function Flatten(xss: seq<seq<string>>): seq<string>
  {
    if |xss| == 0 then [] else Flatten(xss[..|xss| - 1]) + xss[|xss| - 1]
  }

  function EntriesTexts(es: seq<Entry>): (r: seq<seq<string>>)
    ensures |r| == |es|
  {
    seq(|es|, i requires 0 <= i < |es| => EntryTexts(es[i]))
  }

  lemma TextsAppend(a: seq<DrawOp>, b: seq<DrawOp>)
    ensures Texts(a + b) == Texts(a) + Texts(b)
    ensures Titles(a + b) == Titles(a) + Titles(b)
  {
    TextsConcat(a, b);
    TitlesConcat(a, b);
  }

  lemma {:induction false} TextsConcat(a: seq<DrawOp>, b: seq<DrawOp>)
    ensures Texts(a + b) == Texts(a) + Texts(b)
  {
    if |a| == 0 {
      assert a + b == b;
    } else {
      assert (a + b)[0] == a[0] && (a + b)[1..] == a[1..] + b;
      TextsConcat(a[1..], b);
    }
  }

  lemma {:induction false} TitlesConcat(a: seq<DrawOp>, b: seq<DrawOp>)
    ensures Titles(a + b) == Titles(a) + Titles(b)
  {
    if |a| == 0 {
      assert a + b == b;
    } else {
      assert (a + b)[0] == a[0] && (a + b)[1..] == a[1..] + b;
      TitlesConcat(a[1..], b);
    }
  }

  lemma {:induction false} TitlesOfRight(ops: seq<DrawOp>, pageWidth: real)
    requires forall i :: 0 <= i < |ops| ==> RightOp(ops[i], pageWidth) || DividerOp(ops[i], pageWidth)
    ensures Titles(ops) == []
  {
    if |ops| > 0 {
      TitlesOfRight(ops[1..], pageWidth);
    }
  }

  /** Appending one command to what was drawn. */
  lemma AddedSnoc(d: DocState, e: DocState, op: DrawOp)
    requires Extends(d, e)
    ensures Extends(d, e.(ops := e.ops + [op]))
    ensures Added(d, e.(ops := e.ops + [op])) == Added(d, e) + [op]
    ensures Texts(Added(d, e.(ops := e.ops + [op]))) == Texts(Added(d, e)) + Texts([op])
    ensures Titles(Added(d, e.(ops := e.ops + [op]))) == Titles(Added(d, e)) + Titles([op])
  {
    TextsAppend(Added(d, e), [op]);
  }

  /** Extends is transitive, and what is added composes. */
  lemma ExtendsTrans(a: DocState, b: DocState, c: DocState)
    requires Extends(a, b) && Extends(b, c)
    ensures Extends(a, c)
    ensures Added(a, c) == Added(a, b) + Added(b, c)
    ensures Texts(Added(a, c)) == Texts(Added(a, b)) + Texts(Added(b, c))
    ensures Titles(Added(a, c)) == Titles(Added(a, b)) + Titles(Added(b, c))
  {
    assert c.ops[..|a.ops|] == c.ops[..|b.ops|][..|a.ops|];
    assert c.ops[|a.ops|..] == b.ops[|a.ops|..] + c.ops[|b.ops|..];
    TextsAppend(Added(a, b), Added(b, c));
  }

  // ---------------------------------------------------------------------
  // Entries: right-column lines in input order
  // ---------------------------------------------------------------------

  /** Where a drawn command ends vertically: for text, its top plus the height pdfkit
      measures for it (the cursor pdfkit leaves below it). */
  function Bottom(env: Env, op: DrawOp): real
  {
    match op
    case DrawText(text, _, y, width, indent, font, size, _) => y + env.measure(text, font, size, width, indent)
    case FillRect(_, y, _, h, _) => y + h
    case StrokeLine(_, y1, _, _, _, _) => y1
  }

  /** The indented lines of an entry are drawn in order, in the right column, one command
      per line. */
  lemma {:induction false} SubsFacts(d: DocState, env: Env, subs: seq<SubLine>)
    requires d.x == RightColumnX && d.fill == Black && d.size == 11.0
    ensures var e := DrawSubs(d, env, subs);
      && Extends(d, e) && e.x == RightColumnX && e.fill == Black && e.size == 11.0
      && (|subs| > 0 ==> e.font == Helvetica) && (|subs| == 0 ==> e == d)
      && (forall i :: 0 <= i < |Added(d, e)| ==> RightOp(Added(d, e)[i], env.pageWidth))
      && Texts(Added(d, e)) == SubTexts(subs)
  {
    if |subs| > 0 {
      var init := subs[..|subs| - 1];
      var before := DrawSubs(d, env, init);
      SubsFacts(d, env, init);
      var sub := subs[|subs| - 1];
      var b := before.(font := Helvetica);
      var op := DrawText(sub.text, b.x, b.y, env.pageWidth - b.x - Margin, sub.indent, b.font, b.size, b.fill);
      var e := DrawSubs(d, env, subs);
      assert e.ops == before.ops + [op];
      AddedSnoc(d, before, op);
      assert SubTexts(subs) == SubTexts(init) + [sub.text];
    }
  }

  /** The commands of an entry's indented lines: one text command per line, in regular
      Helvetica at the line's own indent, the first at `top` and every later one where the
      one before it ended. */
  predicate SubsChained(env: Env, ops: seq<DrawOp>, subs: seq<SubLine>, top: real)
  {
    && |ops| == |subs|
    && (forall i :: 0 <= i < |subs| ==>
          ops[i].DrawText? && ops[i].font == Helvetica && ops[i].indent == subs[i].indent)
    && (forall i :: 0 < i < |subs| ==> ops[i].y == Bottom(env, ops[i - 1]))
    && (|subs| > 0 ==> ops[0].y == top)
  }

  lemma SubsChainedSnoc(env: Env, ops: seq<DrawOp>, op: DrawOp, subs: seq<SubLine>, top: real)
    requires |subs| > 0 && SubsChained(env, ops, subs[..|subs| - 1], top)
    requires op.DrawText? && op.font == Helvetica && op.indent == subs[|subs| - 1].indent
    requires op.y == if |ops| == 0 then top else Bottom(env, ops[|ops| - 1])
    ensures SubsChained(env, ops + [op], subs, top)
  {
  }

  /** Each indented line is one text command in regular Helvetica at the line's own indent;
      the first is drawn at the cursor, every later one where the one before it ended, and
      the cursor is left where the last one ended. */
  lemma {:induction false} SubsLines(d: DocState, env: Env, subs: seq<SubLine>)
    ensures var e := DrawSubs(d, env, subs);
      && Extends(d, e) && SubsChained(env, Added(d, e), subs, d.y)
      && e.fill == d.fill && e.size == d.size
      && (|subs| > 0 ==> e.font == Helvetica && e.y == Bottom(env, Added(d, e)[|subs| - 1]))
      && (|subs| == 0 ==> e == d)
  {
    if |subs| > 0 {
      var init := subs[..|subs| - 1];
      var before := DrawSubs(d, env, init);
      SubsLines(d, env, init);
      var sub := subs[|subs| - 1];
      var b := before.(font := Helvetica);
      var op := DrawText(sub.text, b.x, b.y, env.pageWidth - b.x - Margin, sub.indent, b.font, b.size, b.fill);
      var e := DrawSubs(d, env, subs);
      assert e.ops == before.ops + [op] && e.y == Bottom(env, op);
      AddedSnoc(d, before, op);
      SubsChainedSnoc(env, Added(d, before), op, subs, d.y);
    }
  }

  /** One entry: its bold first line at the cursor in the right column, then its sub-lines,
      all in the right column, their texts in order. */
  lemma EntryFacts(d: DocState, env: Env, en: Entry)
    requires d.fill == Black && d.size == 11.0
    ensures var e := DrawEntry(d, env, en);
      && Extends(d, e) && e.x == RightColumnX && e.fill == Black && e.size == 11.0
      && (forall i :: 0 <= i < |Added(d, e)| ==> RightOp(Added(d, e)[i], env.pageWidth))
      && Texts(Added(d, e)) == EntryTexts(en)
      && Added(d, e)[0] == DrawText(en.lead, RightColumnX, d.y, env.pageWidth - 220.0, 0.0, HelveticaBold, 11.0, Black)
  {
    var lead := TextAt(d.(font := HelveticaBold), env, en.lead, RightColumnX, d.y, Some(env.pageWidth - 220.0));
    var op := DrawText(en.lead, RightColumnX, d.y, env.pageWidth - 220.0, 0.0, HelveticaBold, 11.0, Black);
    assert lead.ops == d.ops + [op];
    assert Extends(d, lead) && Added(d, lead) == [op];
    SubsFacts(lead, env, en.subs);
    var subs := DrawSubs(lead, env, en.subs);
    ExtendsTrans(d, lead, subs);
    assert Texts([op]) == [en.lead];
    var e := DrawEntry(d, env, en);
    assert e.ops == subs.ops;
  }

  /** An entry's first line: one bold command at the cursor; the cursor moves to its end. */
  lemma LeadLine(d: DocState, env: Env, en: Entry)
    requires d.fill == Black && d.size == 11.0
    ensures var lead := TextAt(d.(font := HelveticaBold), env, en.lead, RightColumnX, d.y, Some(env.pageWidth - 220.0));
      var op := DrawText(en.lead, RightColumnX, d.y, env.pageWidth - 220.0, 0.0, HelveticaBold, 11.0, Black);
      && lead.ops == d.ops + [op] && lead.y == Bottom(env, op)
      && lead.font == HelveticaBold && lead.size == 11.0 && lead.fill == Black
  {
  }

  /** The cursor through one entry: the bold first line at the cursor, the sub-lines in
      regular Helvetica at their indents starting where the first line ended, each where
      the previous one ended; then `moveDown()` leaves the cursor one line (of the last
      line's font, size 11) below the last line. */
  lemma EntryCursor(d: DocState, env: Env, en: Entry)
    requires d.fill == Black && d.size == 11.0
    ensures var e := DrawEntry(d, env, en);
      && Extends(d, e) && e.fill == Black && e.size == 11.0
      && |Added(d, e)| == 1 + |en.subs|
      && Added(d, e)[0] == DrawText(en.lead, RightColumnX, d.y, env.pageWidth - 220.0, 0.0, HelveticaBold, 11.0, Black)
      && SubsChained(env, Added(d, e)[1..], en.subs, Bottom(env, Added(d, e)[0]))
      && Added(d, e)[|Added(d, e)| - 1].DrawText?
      && e.y == LineBelow(env, Added(d, e)[|Added(d, e)| - 1])
  {
    var lead := TextAt(d.(font := HelveticaBold), env, en.lead, RightColumnX, d.y, Some(env.pageWidth - 220.0));
    var op := DrawText(en.lead, RightColumnX, d.y, env.pageWidth - 220.0, 0.0, HelveticaBold, 11.0, Black);
    LeadLine(d, env, en);
    SubsLines(lead, env, en.subs);
    var subs := DrawSubs(lead, env, en.subs);
    var e := DrawEntry(d, env, en);
    var rest := Added(lead, subs);
    assert e == MoveDown(subs, env);
    assert Added(d, e) == [op] + rest;
    assert Added(d, e)[1..] == rest;
    if |en.subs| > 0 {
      assert Added(d, e)[|Added(d, e)| - 1] == rest[|rest| - 1];
    }
  }

  /** Entries are drawn one after the other, in input order. */
  lemma {:induction false} EntriesFacts(d: DocState, env: Env, es: seq<Entry>)
    requires d.fill == Black && d.size == 11.0
    ensures var e := DrawEntries(d, env, es);
      && Extends(d, e) && e.fill == Black && e.size == 11.0
      && (forall i :: 0 <= i < |Added(d, e)| ==> RightOp(Added(d, e)[i], env.pageWidth))
      && Texts(Added(d, e)) == Flatten(EntriesTexts(es))
      && (|es| > 0 ==>
            |Added(d, e)| > 0
            && Added(d, e)[0] == DrawText(es[0].lead, RightColumnX, d.y, env.pageWidth - 220.0, 0.0, HelveticaBold, 11.0, Black))
  {
    if |es| > 0 {
      var init := es[..|es| - 1];
      var before := DrawEntries(d, env, init);
      EntriesFacts(d, env, init);
      EntryFacts(before, env, es[|es| - 1]);
      var e := DrawEntries(d, env, es);
      ExtendsTrans(d, before, e);
      assert EntriesTexts(es)[..|es| - 1] == EntriesTexts(init);
      if |init| == 0 {
        assert before == d;
        assert Added(d, e) == Added(before, e);
      } else {
        assert init[0] == es[0];
        assert Added(d, e)[0] == Added(d, before)[0];
      }
    }
  }

  /** Where entry `k` starts in the commands drawn for `es`: each entry before it drew its
      first line and one command per sub-line. */
  function Offset(es: seq<Entry>, k: nat): nat
    requires k <= |es|
  {
    if k == 0 then 0 else Offset(es, k - 1) + 1 + |es[k - 1].subs|
  }

  lemma {:induction false} OffsetPrefix(es: seq<Entry>, n: nat, k: nat)
    requires k <= n <= |es|
    ensures Offset(es[..n], k) == Offset(es, k)
  {
    if k > 0 {
      OffsetPrefix(es, n, k - 1);
      assert es[..n][k - 1] == es[k - 1];
    }
  }

  /** The cursor pdfkit leaves after a text command followed by `moveDown()` at size 11. */
  function LineBelow(env: Env, op: DrawOp): real
    requires op.DrawText?
  {
    Bottom(env, op) + env.lineHeight(op.font, 11.0)
  }

  /** Entry `k` starts with its bold first line. */
  predicate LeadAt(ops: seq<DrawOp>, es: seq<Entry>, k: nat)
    requires k < |es|
  {
    && Offset(es, k) < |ops|
    && ops[Offset(es, k)].DrawText?
    && ops[Offset(es, k)].text == es[k].lead
    && ops[Offset(es, k)].font == HelveticaBold
  }

  /** Entry `k` starts one line below the last command of the entry before it. */
  predicate BelowPrevious(env: Env, ops: seq<DrawOp>, es: seq<Entry>, k: nat)
    requires 0 < k < |es|
  {
    && 0 < Offset(es, k) < |ops|
    && ops[Offset(es, k) - 1].DrawText? && ops[Offset(es, k)].DrawText?
    && ops[Offset(es, k)].y == LineBelow(env, ops[Offset(es, k) - 1])
  }

  /** The commands of consecutive entries: each entry where its offset says, starting with
      its lead line, one line below the entry before it. */
  predicate Chained(env: Env, ops: seq<DrawOp>, es: seq<Entry>)
  {
    && |ops| == Offset(es, |es|)
    && (forall k :: 0 <= k < |es| ==> LeadAt(ops, es, k))
    && (forall k :: 0 < k < |es| ==> BelowPrevious(env, ops, es, k))
  }

  lemma ChainedSnoc(env: Env, a: seq<DrawOp>, b: seq<DrawOp>, es: seq<Entry>)
    requires |es| > 0 && Chained(env, a, es[..|es| - 1])
    requires |b| == 1 + |es[|es| - 1].subs|
    requires b[0].DrawText? && b[0].text == es[|es| - 1].lead && b[0].font == HelveticaBold
    requires |es| > 1 ==> |a| > 0 && a[|a| - 1].DrawText? && b[0].y == LineBelow(env, a[|a| - 1])
    ensures Chained(env, a + b, es)
  {
    var n := |es| - 1;
    var init := es[..n];
    OffsetPrefix(es, n, n);
    forall k | 0 <= k < n
      ensures LeadAt(a + b, es, k)
    {
      OffsetPrefix(es, n, k);
      assert LeadAt(a, init, k);
    }
    forall k | 0 < k < n
      ensures BelowPrevious(env, a + b, es, k)
    {
      OffsetPrefix(es, n, k);
      assert BelowPrevious(env, a, init, k);
    }
    assert LeadAt(a + b, es, n);
  }

  /** Entries follow each other down the page: entry `k` starts at its bold first line;
      the first is drawn at the cursor, every later one at the cursor the entry before it
      left, one line (of that entry's last font, size 11) below its last drawn line; and
      the cursor ends one such line below the very last one. */
  lemma {:induction false} EntriesCursor(d: DocState, env: Env, es: seq<Entry>)
    requires d.fill == Black && d.size == 11.0
    ensures var e := DrawEntries(d, env, es);
      && Extends(d, e) && e.fill == Black && e.size == 11.0 && Chained(env, Added(d, e), es)
      && (|es| > 0 ==> |Added(d, e)| > 0 && Added(d, e)[0].DrawText? && Added(d, e)[0].y == d.y)
      && (|es| > 0 ==> Added(d, e)[|Added(d, e)| - 1].DrawText? && e.y == LineBelow(env, Added(d, e)[|Added(d, e)| - 1]))
  {
    var e := DrawEntries(d, env, es);
    if |es| > 0 {
      var n := |es| - 1;
      var init := es[..n];
      var before := DrawEntries(d, env, init);
      EntriesCursor(d, env, init);
      EntryCursor(before, env, es[n]);
      ExtendsTrans(d, before, e);
      var a, b := Added(d, before), Added(before, e);
      assert Added(d, e) == a + b;
      ChainedSnoc(env, a, b, es);
    }
  }

  // ---------------------------------------------------------------------
  // Sections: two columns, divider and cursor
  // ---------------------------------------------------------------------

  /** The divider is drawn 5 below the cursor and the cursor ends 15 below it. */
  lemma DividerFacts(d: DocState, env: Env)
    ensures var e := Divider(d, env);
      && Extends(d, e) && |Added(d, e)| == 1
      && Added(d, e)[0] == StrokeLine(Margin, d.y + 5.0, env.pageWidth - Margin, d.y + 5.0, DividerColor, 1.0)
      && e.y == d.y + 15.0
  {
    var e := Divider(d, env);
    assert e.ops == d.ops + [Added(d, e)[0]];
  }

  /** What every section looks like: its heading first, bold 12 in the left column at the
      cursor; then only body commands; last a divider whose y is 10 above the new cursor;
      and no other left-column text. */
  predicate SectionShape(d: DocState, e: DocState, env: Env, heading: string)
  {
    && Extends(d, e) && |Added(d, e)| >= 2
    && (forall i :: 0 <= i < |Added(d, e)| ==> BodyOp(Added(d, e)[i], env.pageWidth))
    && Titles(Added(d, e)) == [heading]
    && Added(d, e)[0] == DrawText(heading, LeftColumnX, d.y, LeftColumnWidth, 0.0, HelveticaBold, 12.0, Black)
    && DividerOp(Added(d, e)[|Added(d, e)| - 1], env.pageWidth)
    && Added(d, e)[|Added(d, e)| - 1].y1 + 10.0 == e.y
  }

  /** The left-column title adds exactly one bold 12 command at the given y. */
  lemma TitleFacts(d: DocState, env: Env, text: string)
    ensures var h := LeftTitle(d, env, text, d.y);
      && Extends(d, h)
      && Added(d, h) == [DrawText(text, LeftColumnX, d.y, LeftColumnWidth, 0.0, HelveticaBold, 12.0, Black)]
      && Titles(Added(d, h)) == [text] && Texts(Added(d, h)) == [text]
  {
    var hop := DrawText(text, LeftColumnX, d.y, LeftColumnWidth, 0.0, HelveticaBold, 12.0, Black);
    assert [hop][1..] == [];
    assert Titles([hop]) == [text] + Titles([]);
    assert Texts([hop]) == [text] + Texts([]);
  }

  /** `drawTwoColumnSection`: the title and the content share the start y; the divider is
      drawn 5 below where the content ended (the cursor pdfkit leaves after it), and the
      next section starts 15 below that. */
  lemma ColumnFacts(d: DocState, env: Env, title: string, content: string)
    ensures var e := TwoColumn(d, env, title, content);
      && SectionShape(d, e, env, Upper(title))
      && |Added(d, e)| == 3
      && Added(d, e)[1] == DrawText(content, RightColumnX, d.y, env.pageWidth - 220.0, 0.0, Helvetica, 11.0, Black)
      && Added(d, e)[2] == StrokeLine(Margin, Bottom(env, Added(d, e)[1]) + 5.0,
                                      env.pageWidth - Margin, Bottom(env, Added(d, e)[1]) + 5.0, DividerColor, 1.0)
      && e.y == d.y + env.measure(content, Helvetica, 11.0, env.pageWidth - 220.0, 0.0) + 15.0
  {
    TitleFacts(d, env, Upper(title));
    var head := LeftTitle(d, env, Upper(title), d.y);
    var hop := Added(d, head)[0];
    var body := head.(font := Helvetica, size := 11.0, fill := Black);
    var right := TextAt(body, env, content, RightColumnX, d.y, Some(env.pageWidth - 220.0));
    var cop := DrawText(content, RightColumnX, d.y, env.pageWidth - 220.0, 0.0, Helvetica, 11.0, Black);
    assert right.ops == head.ops + [cop];
    DividerFacts(right, env);
    var e := Divider(right, env);
    assert e.ops == d.ops + [hop, cop, Added(right, e)[0]];
    assert Added(d, e) == [hop, cop, Added(right, e)[0]];
    assert Titles(Added(d, e)) == [Upper(title)] by {
      TextsAppend([hop], [cop, Added(right, e)[0]]);
      TitlesOfRight([cop, Added(right, e)[0]], env.pageWidth);
    }
  }

  /** Below a stacked heading: the entries in the right column, then the divider. */
  lemma StackedBodyFacts(head: DocState, env: Env, es: seq<Entry>)
    ensures var e := Divider(DrawEntries(head.(font := Helvetica, size := 11.0, fill := Black), env, es), env);
      && Extends(head, e) && |Added(head, e)| >= 1
      && (forall i :: 0 <= i < |Added(head, e)| ==>
            RightOp(Added(head, e)[i], env.pageWidth) || DividerOp(Added(head, e)[i], env.pageWidth))
      && Texts(Added(head, e)) == Flatten(EntriesTexts(es))
      && DividerOp(Added(head, e)[|Added(head, e)| - 1], env.pageWidth)
      && Added(head, e)[|Added(head, e)| - 1].y1 + 10.0 == e.y
      && (|es| > 0 ==>
            Added(head, e)[0] == DrawText(es[0].lead, RightColumnX, head.y,
                                          env.pageWidth - 220.0, 0.0, HelveticaBold, 11.0, Black))
  {
    var body := head.(font := Helvetica, size := 11.0, fill := Black);
    EntriesFacts(body, env, es);
    var entries := DrawEntries(body, env, es);
    DividerFacts(entries, env);
    var e := Divider(entries, env);
    ExtendsTrans(body, entries, e);
    assert Texts(Added(entries, e)) == [] by {
      assert Added(entries, e) == [Added(entries, e)[0]];
    }
  }

  /** The work-history and education blocks: the entries' lines in order, the first entry
      starting below the heading, where the heading's text left the cursor; the divider 5
      below the cursor the entries left (the heading's, when there are none) and the next
      section 15 below it. */
  lemma StackedFacts(d: DocState, env: Env, heading: string, es: seq<Entry>)
    ensures var e := StackedSection(d, env, heading, es);
      && SectionShape(d, e, env, heading)
      && Texts(Added(d, e)) == [heading] + Flatten(EntriesTexts(es))
      && (|es| > 0 ==>
            Added(d, e)[1] == DrawText(es[0].lead, RightColumnX,
                                       d.y + env.measure(heading, HelveticaBold, 12.0, LeftColumnWidth, 0.0),
                                       env.pageWidth - 220.0, 0.0, HelveticaBold, 11.0, Black))
    ensures DividerBelowEntries(d, env, heading, es)
  {
    StackedCursor(d, env, heading, es);
    TitleFacts(d, env, heading);
    var head := LeftTitle(d, env, heading, d.y);
    StackedBodyFacts(head, env, es);
    var e := StackedSection(d, env, heading, es);
    ExtendsTrans(d, head, e);
    var hop, rest := Added(d, head)[0], Added(head, e);
    assert Added(d, e) == [hop] + rest;
    HeadingThenBody(hop, rest, heading, env.pageWidth);
  }

  /** Where a run of entries leaves the cursor: one line below its last command. */
  lemma EntriesEnd(d: DocState, env: Env, es: seq<Entry>)
    requires d.fill == Black && d.size == 11.0
    ensures var e := DrawEntries(d, env, es);
      && Extends(d, e)
      && (|es| == 0 ==> e == d)
      && (|es| > 0 ==>
            |Added(d, e)| > 0 && Added(d, e)[|Added(d, e)| - 1].DrawText?
            && e.y == LineBelow(env, Added(d, e)[|Added(d, e)| - 1]))
  {
    EntriesCursor(d, env, es);
  }

  /** The divider of a stacked block: 5 below the cursor its entries left (the heading's
      cursor when there are none, else one line below the last entry's last command),
      and the next section 15 below that cursor. */
  predicate DividerBelowEntries(d: DocState, env: Env, heading: string, es: seq<Entry>)
  {
    var e := StackedSection(d, env, heading, es);
    var body := DrawEntries(LeftTitle(d, env, heading, d.y).(font := Helvetica, size := 11.0, fill := Black), env, es);
    && Extends(d, e) && |Added(d, e)| >= 2
    && Added(d, e)[|Added(d, e)| - 1] ==
         StrokeLine(Margin, body.y + 5.0, env.pageWidth - Margin, body.y + 5.0, DividerColor, 1.0)
    && e.y == body.y + 15.0
    && (|es| == 0 ==> e.y == d.y + env.measure(heading, HelveticaBold, 12.0, LeftColumnWidth, 0.0) + 15.0)
    && (|es| > 0 ==>
          Added(d, e)[|Added(d, e)| - 2].DrawText?
          && body.y == LineBelow(env, Added(d, e)[|Added(d, e)| - 2]))
  }

  /** Where the divider of a stacked block goes: at the cursor the last entry's
      `moveDown()` left, or below the heading when there are no entries. */
  lemma StackedCursor(d: DocState, env: Env, heading: string, es: seq<Entry>)
    ensures DividerBelowEntries(d, env, heading, es)
  {
    var head := LeftTitle(d, env, heading, d.y);
    TitleFacts(d, env, heading);
    assert head.y == d.y + env.measure(heading, HelveticaBold, 12.0, LeftColumnWidth, 0.0);
    var start := head.(font := Helvetica, size := 11.0, fill := Black);
    EntriesEnd(start, env, es);
    var body := DrawEntries(start, env, es);
    assert start.ops == head.ops;
    ExtendsTrans(d, start, body);
    DividerAfter(d, body, env);
    if |es| > 0 {
      assert Added(d, body)[|Added(d, body)| - 1] == Added(start, body)[|Added(start, body)| - 1];
    }
  }

  /** The divider comes right after whatever was drawn last, 5 below the cursor. */
  lemma DividerAfter(d: DocState, body: DocState, env: Env)
    requires Extends(d, body) && |Added(d, body)| > 0
    ensures var e := Divider(body, env);
      && Extends(d, e) && |Added(d, e)| == |Added(d, body)| + 1
      && Added(d, e)[|Added(d, e)| - 1] ==
           StrokeLine(Margin, body.y + 5.0, env.pageWidth - Margin, body.y + 5.0, DividerColor, 1.0)
      && Added(d, e)[|Added(d, e)| - 2] == Added(d, body)[|Added(d, body)| - 1]
      && e.y == body.y + 15.0
  {
    DividerFacts(body, env);
    ExtendsTrans(d, body, Divider(body, env));
  }

  /** A left-column heading followed by right-column and divider commands only. */
  lemma HeadingThenBody(hop: DrawOp, rest: seq<DrawOp>, heading: string, pageWidth: real)
    requires hop.DrawText? && hop.text == heading && LeftOp(hop)
    requires forall i :: 0 <= i < |rest| ==> RightOp(rest[i], pageWidth) || DividerOp(rest[i], pageWidth)
    ensures forall i :: 0 <= i < |[hop] + rest| ==> BodyOp(([hop] + rest)[i], pageWidth)
    ensures Titles([hop] + rest) == [heading]
    ensures Texts([hop] + rest) == [heading] + Texts(rest)
  {
    TitlesOfRight(rest, pageWidth);
    TextsAppend([hop], rest);
    assert [hop][1..] == [];
    assert Titles([hop]) == [heading] + Titles([]);
    assert Texts([hop]) == [heading] + Texts([]);
  }

  lemma SectionFacts(d: DocState, env: Env, s: Section)
    ensures SectionShape(d, DrawSection(d, env, s), env, Heading(s))
  {
    match s
    case Column(title, content) => ColumnFacts(d, env, title, content);
    case Stacked(heading, es) => StackedFacts(d, env, heading, es);
  }

  lemma AllBody(a: seq<DrawOp>, b: seq<DrawOp>, pageWidth: real)
    requires forall i :: 0 <= i < |a| ==> BodyOp(a[i], pageWidth)
    requires forall i :: 0 <= i < |b| ==> BodyOp(b[i], pageWidth)
    ensures forall i :: 0 <= i < |a + b| ==> BodyOp((a + b)[i], pageWidth)
  {
  }

  /** Drawing a list of sections: only body commands; the left column shows their headings in order. */
  lemma {:induction false} SectionsFacts(d: DocState, env: Env, ss: seq<Section>)
    ensures var e := DrawSections(d, env, ss);
      && Extends(d, e)
      && (forall i :: 0 <= i < |Added(d, e)| ==> BodyOp(Added(d, e)[i], env.pageWidth))
      && Titles(Added(d, e)) == Headings(ss)
  {
    if |ss| > 0 {
      var init := ss[..|ss| - 1];
      var before := DrawSections(d, env, init);
      SectionsFacts(d, env, init);
      SectionFacts(before, env, ss[|ss| - 1]);
      var e := DrawSections(d, env, ss);
      ExtendsTrans(d, before, e);
      AllBody(Added(d, before), Added(before, e), env.pageWidth);
      assert Headings(ss) == Headings(init) + [Heading(ss[|ss| - 1])];
    }
  }

  // ---------------------------------------------------------------------
  // The whole page
  // ---------------------------------------------------------------------

  /** The header: a full-width bar of height 90 at (0, 0) in the drawn colour first, the name
      (or 'Name Here') at (50, 20) in white bold 20, the contact block (or 'Contact Info') at
      (50, 45) in white regular 10; then black fill and the cursor at 110. */
  lemma HeaderFacts(d: DocState, env: Env, r: StructuredResume, color: string)
    ensures var h := DrawHeader(d, env, r, color);
      && Extends(d, h)
      && Added(d, h) == [
        FillRect(0.0, 0.0, env.pageWidth, 90.0, color),
        DrawText(HeaderName(r), 50.0, 20.0, env.pageWidth - 100.0, 0.0, HelveticaBold, 20.0, White),
        DrawText(HeaderContact(r), 50.0, 45.0, env.pageWidth - 100.0, 0.0, Helvetica, 10.0, White)]
      && h.y == 110.0 && h.fill == "black"
  {
  }

  /** The rendered page: the three header commands, then only body commands whose left
      column shows exactly the planned headings in plan order. */
  lemma RenderFacts(env: Env, r: StructuredResume, randomNum: nat)
    ensures var ops := Render(env, r, randomNum).ops;
      && |ops| >= 3
      && ops[..3] == [
        FillRect(0.0, 0.0, env.pageWidth, 90.0, HexColor(randomNum)),
        DrawText(HeaderName(r), 50.0, 20.0, env.pageWidth - 100.0, 0.0, HelveticaBold, 20.0, White),
        DrawText(HeaderContact(r), 50.0, 45.0, env.pageWidth - 100.0, 0.0, Helvetica, 10.0, White)]
      && (forall i :: 3 <= i < |ops| ==> BodyOp(ops[i], env.pageWidth))
      && Titles(ops[3..]) == Headings(Plan(r))
  {
    PageFacts(env, r, HexColor(randomNum));
  }

  /** RenderFacts for any colour of the top bar. */
  lemma PageFacts(env: Env, r: StructuredResume, color: string)
    ensures var ops := DrawSections(DrawHeader(Initial(), env, r, color), env, Plan(r)).ops;
      && |ops| >= 3
      && ops[..3] == [
        FillRect(0.0, 0.0, env.pageWidth, 90.0, color),
        DrawText(HeaderName(r), 50.0, 20.0, env.pageWidth - 100.0, 0.0, HelveticaBold, 20.0, White),
        DrawText(HeaderContact(r), 50.0, 45.0, env.pageWidth - 100.0, 0.0, Helvetica, 10.0, White)]
      && (forall i :: 3 <= i < |ops| ==> BodyOp(ops[i], env.pageWidth))
      && Titles(ops[3..]) == Headings(Plan(r))
  {
    var h := DrawHeader(Initial(), env, r, color);
    HeaderFacts(Initial(), env, r, color);
    SectionsFacts(h, env, Plan(r));
    var e := DrawSections(h, env, Plan(r));
    assert |h.ops| == 3;
    assert forall i :: 3 <= i < |e.ops| ==> e.ops[i] == Added(h, e)[i - 3];
  }

  /** The k-th heading of SectionOrder is drawn in the left column exactly when its
      condition holds, and the drawn headings follow SectionOrder without repeats. */
  lemma DrawnHeadings(env: Env, r: StructuredResume, randomNum: nat)
    ensures |Render(env, r, randomNum).ops| >= 3
    ensures var titles := Titles(Render(env, r, randomNum).ops[3..]);
      && OrderedBelow(titles, 7)
      && forall k :: 0 <= k < 7 ==> (SectionOrder[k] in titles <==> Present(r, k))
  {
    RenderFacts(env, r, randomNum);
    PlanOrdered(r);
    forall k | 0 <= k < 7
      ensures SectionOrder[k] in Headings(Plan(r)) <==> Present(r, k)
    {
      PlanIncludes(r, k);
    }
  }

  /** A record whose work history is an empty array still gets a WORK HISTORY heading
      (and only a divider beneath it): the block is guarded by `Array.isArray` alone. */
  lemma EmptyWorkHistoryStillDrawn(env: Env, r: StructuredResume, randomNum: nat)
    requires r.workExperience == Some([])
    ensures |Render(env, r, randomNum).ops| >= 3
    ensures "WORK HISTORY" in Titles(Render(env, r, randomNum).ops[3..])
  {
    RenderFacts(env, r, randomNum);
    WorkHistoryPlanned(r);
  }

  lemma WorkHistoryPlanned(r: StructuredResume)
    requires r.workExperience.Some?
    ensures "WORK HISTORY" in Headings(Plan(r))
  {
    PlanIncludes(r, 2);
    assert SectionOrder[2] == "WORK HISTORY";
  }

  // ---------------------------------------------------------------------
  // Entry lines
  // ---------------------------------------------------------------------

  /** The lines of one job as the source writes them: "<title> at <company>", the location
      and the duration when non-empty, then "• <bp>" per responsibility. */
  function JobLines(job: Job): seq<string>
  {
    [OrElse(job.jobTitle, "") + " at " + OrElse(job.company, "")]
    + (if Truthy(job.location) then [job.location.value] else [])
    + (if Truthy(job.duration) then [job.duration.value] else [])
    + seq(|JobBullets(job)|, i requires 0 <= i < |JobBullets(job)| => Bullet + JobBullets(job)[i])
  }

  /** The lines of one education entry: degree, institution, and "• <year>" when non-empty. */
  function EducationLines(edu: Education): seq<string>
  {
    [OrElse(edu.degree, ""), OrElse(edu.institution, "")]
    + (if Truthy(edu.graduationYear) then [Bullet + edu.graduationYear.value] else [])
  }

  lemma SubTextsAppend(a: seq<SubLine>, b: seq<SubLine>)
    ensures SubTexts(a + b) == SubTexts(a) + SubTexts(b)
  {
  }

  /** One job entry carries exactly the job's lines. */
  lemma JobEntryTexts(job: Job)
    ensures EntryTexts(JobEntry(job)) == JobLines(job)
  {
    SubTextsAppend(JobDetails(job), BulletLines(JobBullets(job)));
    var loc := if Truthy(job.location) then [SubLine(job.location.value, 10.0)] else [];
    var dur := if Truthy(job.duration) then [SubLine(job.duration.value, 10.0)] else [];
    SubTextsAppend(loc, dur);
  }

  /** One education entry carries exactly the entry's lines. */
  lemma EducationEntryTexts(edu: Education)
    ensures EntryTexts(EducationEntry(edu)) == EducationLines(edu)
  {
    var year := if Truthy(edu.graduationYear) then [SubLine(Bullet + edu.graduationYear.value, 20.0)] else [];
    SubTextsAppend([SubLine(OrElse(edu.institution, ""), 10.0)], year);
  }

  /** The texts part of StackedFacts. */
  lemma StackedTexts(d: DocState, env: Env, heading: string, es: seq<Entry>)
    ensures var e := StackedSection(d, env, heading, es);
      Extends(d, e) && Texts(Added(d, e)) == [heading] + Flatten(EntriesTexts(es))
  {
    StackedFacts(d, env, heading, es);
  }

  /** The work-history block draws its heading, then every job's lines, jobs in input order. */
  lemma WorkHistoryTexts(d: DocState, env: Env, jobs: seq<Job>)
    ensures var e := StackedSection(d, env, "WORK HISTORY", JobEntries(jobs));
      Extends(d, e)
      && Texts(Added(d, e)) == ["WORK HISTORY"] + Flatten(seq(|jobs|, i requires 0 <= i < |jobs| => JobLines(jobs[i])))
  {
    StackedTexts(d, env, "WORK HISTORY", JobEntries(jobs));
    forall i | 0 <= i < |jobs| ensures EntriesTexts(JobEntries(jobs))[i] == JobLines(jobs[i]) {
      JobEntryTexts(jobs[i]);
    }
    assert EntriesTexts(JobEntries(jobs)) == seq(|jobs|, i requires 0 <= i < |jobs| => JobLines(jobs[i]));
  }

  /** The education block draws its heading, then every entry's lines, in input order. */
  lemma EducationTexts(d: DocState, env: Env, edus: seq<Education>)
    ensures var e := StackedSection(d, env, "EDUCATION", EducationEntries(edus));
      Extends(d, e)
      && Texts(Added(d, e)) == ["EDUCATION"] + Flatten(seq(|edus|, i requires 0 <= i < |edus| => EducationLines(edus[i])))
  {
    StackedTexts(d, env, "EDUCATION", EducationEntries(edus));
    forall i | 0 <= i < |edus| ensures EntriesTexts(EducationEntries(edus))[i] == EducationLines(edus[i]) {
      EducationEntryTexts(edus[i]);
    }
    assert EntriesTexts(EducationEntries(edus)) == seq(|edus|, i requires 0 <= i < |edus| => EducationLines(edus[i]));
  }

  /** A job without bullet points has only lines indented by 10 below its title line. */
  lemma JobWithoutBullets(job: Job)
    requires job.bulletPoints.None? || job.bulletPoints == Some([])
    ensures forall i :: 0 <= i < |JobEntry(job).subs| ==> JobEntry(job).subs[i].indent == 10.0
    ensures |JobLines(job)| <= 3
  {
  }

  // ---------------------------------------------------------------------
  // A worked example
  // ---------------------------------------------------------------------

  function JaneDoe(): StructuredResume
  {
    StructuredResume(Some(Header(Some("Jane Doe"), Some("City\nPhone: 555-0100"))),
                     None, None, None, Some(["SQL", "Python"]), None, None, None)
  }

  lemma JaneDoeSkills()
    ensures Bulleted(["SQL", "Python"]) == "• SQL\n• Python"
  {
    BulletedSnoc(["SQL"], "Python");
    assert ["SQL"] + ["Python"] == ["SQL", "Python"];
    assert Bulleted(["SQL"]) == "• SQL";
  }

  lemma JaneDoePlan()
    ensures Plan(JaneDoe()) == [Column("Skills", "• SQL\n• Python")]
    ensures Headings(Plan(JaneDoe())) == ["SKILLS"]
  {
    JaneDoeSkills();
    TitleCase();
  }

  /** The contact block prints as two lines. */
  lemma JaneDoeContact()
    ensures HeaderName(JaneDoe()) == "Jane Doe"
    ensures Lines(HeaderContact(JaneDoe())) == ["City", "Phone: 555-0100"]
  {
    JaneDoeContactText();
    TwoLines("City", "Phone: 555-0100");
  }

  lemma JaneDoeContactText()
    ensures HeaderContact(JaneDoe()) == "City" + "\n" + "Phone: 555-0100"
    ensures NoNewline("City") && NoNewline("Phone: 555-0100")
  {
  }

  lemma TwoLines(a: string, b: string)
    requires NoNewline(a) && NoNewline(b)
    ensures Lines(a + "\n" + b) == [a, b]
  {
    LinesOfCons(a, b);
    LinesOfPlain(b);
  }

  /** Jane Doe with two skills: the top bar shows her name, and the only section drawn
      is SKILLS, reading "• SQL" and "• Python". */
  lemma JaneDoeExample(env: Env, randomNum: nat, r: StructuredResume)
    requires r == JaneDoe()
    ensures var ops := Render(env, r, randomNum).ops;
      && |ops| >= 3
      && ops[1] == DrawText("Jane Doe", 50.0, 20.0, env.pageWidth - 100.0, 0.0, HelveticaBold, 20.0, White)
      && Titles(ops[3..]) == ["SKILLS"]
  {
    JaneDoePlan();
    JaneDoeContact();
    PageOpening(env, r, randomNum);
  }

  /** The name is the second command and the left column shows the planned headings. */
  lemma PageOpening(env: Env, r: StructuredResume, randomNum: nat)
    ensures var ops := Render(env, r, randomNum).ops;
      && |ops| >= 3
      && ops[1] == DrawText(HeaderName(r), 50.0, 20.0, env.pageWidth - 100.0, 0.0, HelveticaBold, 20.0, White)
      && Titles(ops[3..]) == Headings(Plan(r))
  {
    RenderFacts(env, r, randomNum);
    var ops := Render(env, r, randomNum).ops;
    assert ops[1] == ops[..3][1];
  }
}
