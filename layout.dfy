/** `generateStructuredPDF` (server.mjs:69-270): lays a structured résumé out
    on a pdfkit document. `Plan` says declaratively which sections appear, in
    what order, with which lines; the `Draw*` functions say where pdfkit puts
    them; the methods at the end are the source's step-by-step code on a
    `Doc`, proved to produce exactly `Render`. */
module Layout {
  import opened Resume
  import opened Strings
  import opened Digits
  import opened Pdf

  const TopBarHeight: real := 90.0
  const LeftColumnX: real := 50.0
  const LeftColumnWidth: real := 100.0
  const RightColumnX: real := 170.0
  const Black: string := "#000000"
  const White: string := "#FFFFFF"
  const DividerColor: string := "#999999"

  // ---------------------------------------------------------------------
  // The plan: which sections, in which order, with which lines
  // ---------------------------------------------------------------------

  /** A right-column line below an entry's bold first line. */
  datatype SubLine = SubLine(text: string, indent: real)

  /** One job or one education entry: a bold first line, then indented lines. */
  datatype Entry = Entry(lead: string, subs: seq<SubLine>)

  /** A section drawn by `drawTwoColumnSection`, or the work-history / education
      variant with stacked entries in the right column. */
  datatype Section =
    | Column(title: string, content: string)
    | Stacked(heading: string, entries: seq<Entry>)

  /** `resumeData.header?.name || 'Name Here'`. */
  function HeaderName(r: StructuredResume): string
  {
    OrElse(if r.header.Some? then r.header.value.name else None, "Name Here")
  }

  /** `resumeData.header?.contact || 'Contact Info'`. */
  function HeaderContact(r: StructuredResume): string
  {
    OrElse(if r.header.Some? then r.header.value.contact else None, "Contact Info")
  }

  /** Location and duration lines of a job, each only when non-empty. */
  function JobDetails(job: Job): seq<SubLine>
  {
    (if Truthy(job.location) then [SubLine(job.location.value, 10.0)] else [])
    + (if Truthy(job.duration) then [SubLine(job.duration.value, 10.0)] else [])
  }

  /** One `• <bp>` line per responsibility, indented 20. */
  function BulletLines(bps: seq<string>): seq<SubLine>
  {
    seq(|bps|, i requires 0 <= i < |bps| => SubLine(Bullet + bps[i], 20.0))
  }

  function JobBullets(job: Job): seq<string>
  {
    if job.bulletPoints.Some? then job.bulletPoints.value else []
  }

  /** `${job.jobTitle || ''} at ${job.company || ''}`, then the details and bullets. */
  function JobEntry(job: Job): Entry
  {
    Entry(OrElse(job.jobTitle, "") + " at " + OrElse(job.company, ""),
          JobDetails(job) + BulletLines(JobBullets(job)))
  }

  /** The degree line, the institution line (both possibly empty), and the
      graduation year as a bullet when non-empty. */
  function EducationEntry(edu: Education): Entry
  {
    Entry(OrElse(edu.degree, ""),
          [SubLine(OrElse(edu.institution, ""), 10.0)]
          + (if Truthy(edu.graduationYear) then [SubLine(Bullet + edu.graduationYear.value, 20.0)] else []))
  }

  function JobEntries(jobs: seq<Job>): (r: seq<Entry>)
    ensures |r| == |jobs|
  {
    seq(|jobs|, i requires 0 <= i < |jobs| => JobEntry(jobs[i]))
  }

  function EducationEntries(edus: seq<Education>): (r: seq<Entry>)
    ensures |r| == |edus|
  {
    seq(|edus|, i requires 0 <= i < |edus| => EducationEntry(edus[i]))
  }

  /** The sections of the résumé in drawing order (server.mjs:144-263). */
  function Plan(r: StructuredResume): seq<Section>
  {
    SummaryPart(r) + SkillsPart(r) + WorkPart(r) + EducationPart(r)
    + CertificationsPart(r) + AchievementsPart(r) + ReferencesPart(r)
  }

  function SummaryPart(r: StructuredResume): seq<Section>
  {
    if Truthy(r.professionalSummary) then [Column("Professional Summary", r.professionalSummary.value)] else []
  }

  function SkillsPart(r: StructuredResume): seq<Section>
  {
    if NonEmptyArray(r.skills) then [Column("Skills", Bulleted(r.skills.value))] else []
  }

  function WorkPart(r: StructuredResume): seq<Section>
  {
    if r.workExperience.Some? then [Stacked("WORK HISTORY", JobEntries(r.workExperience.value))] else []
  }

  function EducationPart(r: StructuredResume): seq<Section>
  {
    if r.education.Some? then [Stacked("EDUCATION", EducationEntries(r.education.value))] else []
  }

  function CertificationsPart(r: StructuredResume): seq<Section>
  {
    if NonEmptyArray(r.certifications) then [Column("Certifications / Licenses", Bulleted(r.certifications.value))] else []
  }

  function AchievementsPart(r: StructuredResume): seq<Section>
  {
    if NonEmptyArray(r.achievements) then [Column("Achievements", Bulleted(r.achievements.value))] else []
  }

  function ReferencesPart(r: StructuredResume): seq<Section>
  {
    if Truthy(r.references) then [Column("References", r.references.value)] else []
  }

  /** The text drawn in the left column for a section. */
  function Heading(s: Section): string
  {
    match s
    case Column(title, _) => Upper(title)
    case Stacked(heading, _) => heading
  }

  // ---------------------------------------------------------------------
  // Where pdfkit puts things
  // ---------------------------------------------------------------------

  /** The coloured top bar, the name and the contact block in white, then black
      fill and the cursor below the bar (server.mjs:80-102). */
  function DrawHeader(d: DocState, env: Env, r: StructuredResume, color: string): DocState
  {
    var bar := FillRectangle(d, 0.0, 0.0, env.pageWidth, TopBarHeight, color);
    var name := TextAt(bar.(font := HelveticaBold, size := 20.0, fill := White), env,
                       HeaderName(r), 50.0, 20.0, None);
    var contact := TextAt(name.(font := Helvetica, size := 10.0, fill := White), env,
                          HeaderContact(r), 50.0, 45.0, None);
    contact.(fill := "black", y := TopBarHeight + 20.0)
  }

  /** A grey rule 5 below the cursor across the margins; the cursor moves 15 down. */
  function Divider(d: DocState, env: Env): DocState
  {
    var nextY := d.y;
    var line := Stroke(d.(stroke := DividerColor, lineWidth := 1.0),
                       Margin, nextY + 5.0, env.pageWidth - Margin, nextY + 5.0);
    line.(y := nextY + 15.0)
  }

  /** The section title in bold 12 in the left column (an upper-cased `title`
      for the regular sections, a literal heading for the stacked ones). */
  function LeftTitle(d: DocState, env: Env, text: string, y: real): DocState
  {
    TextAt(d.(font := HelveticaBold, size := 12.0, fill := Black), env,
           text, LeftColumnX, y, Some(LeftColumnWidth))
  }

  /** `drawTwoColumnSection(title, content)` (server.mjs:108-139). */
  function TwoColumn(d: DocState, env: Env, title: string, content: string): DocState
  {
    var startY := d.y;
    var left := LeftTitle(d, env, Upper(title), startY);
    var right := TextAt(left.(font := Helvetica, size := 11.0, fill := Black), env,
                        content, RightColumnX, startY, Some(env.pageWidth - 220.0));
    Divider(right, env)
  }

  /** The indented lines of an entry, each in regular Helvetica at the cursor. */
  function DrawSubs(d: DocState, env: Env, subs: seq<SubLine>): DocState
  {
    if |subs| == 0 then d
    else
      var before := DrawSubs(d, env, subs[..|subs| - 1]);
      var sub := subs[|subs| - 1];
      TextFlow(before.(font := Helvetica), env, sub.text, sub.indent)
  }

  /** One entry: its bold first line at the right column, its sub-lines, `moveDown()`. */
  function DrawEntry(d: DocState, env: Env, e: Entry): DocState
  {
    var lead := TextAt(d.(font := HelveticaBold), env, e.lead, RightColumnX, d.y,
                       Some(env.pageWidth - 220.0));
    MoveDown(DrawSubs(lead, env, e.subs), env)
  }

  function DrawEntries(d: DocState, env: Env, es: seq<Entry>): DocState
  {
    if |es| == 0 then d else DrawEntry(DrawEntries(d, env, es[..|es| - 1]), env, es[|es| - 1])
  }

  /** The work-history and education blocks (server.mjs:159-204, 209-240). */
  function StackedSection(d: DocState, env: Env, heading: string, es: seq<Entry>): DocState
  {
    var left := LeftTitle(d, env, heading, d.y);
    var body := DrawEntries(left.(font := Helvetica, size := 11.0, fill := Black), env, es);
    Divider(body, env)
  }

  function DrawSection(d: DocState, env: Env, s: Section): DocState
  {
    match s
    case Column(title, content) => TwoColumn(d, env, title, content)
    case Stacked(heading, es) => StackedSection(d, env, heading, es)
  }

  function DrawSections(d: DocState, env: Env, ss: seq<Section>): DocState
  {
    if |ss| == 0 then d else DrawSection(DrawSections(d, env, ss[..|ss| - 1]), env, ss[|ss| - 1])
  }

  /** The whole document: header, then every planned section in order. */
  function Render(env: Env, r: StructuredResume, randomNum: nat): DocState
  {
    DrawSections(DrawHeader(Initial(), env, r, HexColor(randomNum)), env, Plan(r))
  }

  // ---------------------------------------------------------------------
  // The source's step-by-step code
  // ---------------------------------------------------------------------

  /** `drawTwoColumnSection` (server.mjs:108-139). */
  method DrawTwoColumnSection(doc: Doc, title: string, content: string)
    modifies doc
    ensures doc.State() == TwoColumn(old(doc.State()), doc.env, title, content)
  {
    var startY := doc.y;
    doc.SetFont(HelveticaBold);
    doc.FontSize(12.0);
    doc.FillColor(Black);
    doc.Text(Upper(title), 50.0, startY, Some(100.0));
    doc.SetFont(Helvetica);
    doc.FontSize(11.0);
    doc.FillColor(Black);
    doc.Text(content, 170.0, startY, Some(doc.env.pageWidth - 220.0));
    DrawDivider(doc);
  }

  /** The divider and cursor step that closes every section (server.mjs:130-138). */
  method DrawDivider(doc: Doc)
    modifies doc
    ensures doc.State() == Divider(old(doc.State()), doc.env)
  {
    var nextY := doc.y;
    doc.StrokeColor(DividerColor);
    doc.LineWidth(1.0);
    doc.Line(50.0, nextY + 5.0, doc.env.pageWidth - 50.0, nextY + 5.0);
    doc.y := nextY + 15.0;
  }

  /** One iteration of `resumeData.workExperience.forEach` (server.mjs:171-194). */
  method DrawJob(doc: Doc, job: Job)
    modifies doc
    ensures doc.State() == DrawEntry(old(doc.State()), doc.env, JobEntry(job))
  {
    var rightColumnX := 170.0;
    doc.SetFont(HelveticaBold);
    doc.Text(OrElse(job.jobTitle, "") + " at " + OrElse(job.company, ""), rightColumnX, doc.y,
             Some(doc.env.pageWidth - 220.0));
    ghost var lead := doc.State();
    DrawJobDetails(doc, lead, job);
    if job.bulletPoints.Some? && |job.bulletPoints.value| > 0 {
      DrawBullets(doc, lead, JobDetails(job), job.bulletPoints.value);
    } else {
      assert JobDetails(job) + BulletLines(JobBullets(job)) == JobDetails(job);
    }
    doc.MoveDownOneLine();
  }

  /** The location and duration lines of a job (server.mjs:180-186). */
  method DrawJobDetails(doc: Doc, ghost lead: DocState, job: Job)
    requires doc.State() == lead
    modifies doc
    ensures doc.State() == DrawSubs(lead, doc.env, JobDetails(job))
  {
    ghost var subs: seq<SubLine> := [];
    if job.location.Some? && job.location.value != "" {
      doc.SetFont(Helvetica);
      doc.TextIndented(job.location.value, 10.0);
      DrawSubsSnoc(lead, doc.env, subs, SubLine(job.location.value, 10.0));
      subs := subs + [SubLine(job.location.value, 10.0)];
    }
    if job.duration.Some? && job.duration.value != "" {
      doc.SetFont(Helvetica);
      doc.TextIndented(job.duration.value, 10.0);
      DrawSubsSnoc(lead, doc.env, subs, SubLine(job.duration.value, 10.0));
      subs := subs + [SubLine(job.duration.value, 10.0)];
    }
    assert subs == JobDetails(job);
  }

  /** `job.bulletPoints.forEach(bp => doc.font('Helvetica').text(`• ${bp}`, { indent: 20 }))`. */
  method DrawBullets(doc: Doc, ghost lead: DocState, ghost subs: seq<SubLine>, bps: seq<string>)
    requires doc.State() == DrawSubs(lead, doc.env, subs)
    modifies doc
    ensures doc.State() == DrawSubs(lead, doc.env, subs + BulletLines(bps))
  {
    var k := 0;
    assert subs + BulletLines(bps[..0]) == subs;
    while k < |bps|
      invariant 0 <= k <= |bps|
      invariant doc.State() == DrawSubs(lead, doc.env, subs + BulletLines(bps[..k]))
    {
      doc.SetFont(Helvetica);
      doc.TextIndented(Bullet + bps[k], 20.0);
      BulletLinesSnoc(bps, k);
      DrawSubsSnoc(lead, doc.env, subs + BulletLines(bps[..k]), SubLine(Bullet + bps[k], 20.0));
      assert subs + BulletLines(bps[..k + 1]) == (subs + BulletLines(bps[..k])) + [SubLine(Bullet + bps[k], 20.0)];
      k := k + 1;
    }
    assert bps[..k] == bps;
  }

  lemma BulletLinesSnoc(bps: seq<string>, k: nat)
    requires k < |bps|
    ensures BulletLines(bps[..k + 1]) == BulletLines(bps[..k]) + [SubLine(Bullet + bps[k], 20.0)]
  {
  }

  /** Drawing one more sub-line. */
  lemma DrawSubsSnoc(d: DocState, env: Env, subs: seq<SubLine>, sub: SubLine)
    ensures DrawSubs(d, env, subs + [sub]) == TextFlow(DrawSubs(d, env, subs).(font := Helvetica), env, sub.text, sub.indent)
  {
    assert (subs + [sub])[..|subs|] == subs;
  }

  lemma DrawEntriesSnoc(d: DocState, env: Env, es: seq<Entry>, e: Entry)
    ensures DrawEntries(d, env, es + [e]) == DrawEntry(DrawEntries(d, env, es), env, e)
  {
    assert (es + [e])[..|es|] == es;
  }

  /** The heading of the work-history or education block in the left column at the
      cursor, then regular 11-point black for the entries (server.mjs:159-169, 209-219). */
  method DrawStackedHeading(doc: Doc, heading: string)
    modifies doc
    ensures doc.State() == LeftTitle(old(doc.State()), doc.env, heading, old(doc.y)).(font := Helvetica, size := 11.0, fill := Black)
  {
    var startY := doc.y;
    doc.SetFont(HelveticaBold);
    doc.FontSize(12.0);
    doc.FillColor(Black);
    doc.Text(heading, 50.0, startY, Some(100.0));
    doc.SetFont(Helvetica);
    doc.FontSize(11.0);
    doc.FillColor(Black);
  }

  /** The work-history block (server.mjs:159-204). */
  method DrawWorkHistory(doc: Doc, jobs: seq<Job>)
    modifies doc
    ensures doc.State() == StackedSection(old(doc.State()), doc.env, "WORK HISTORY", JobEntries(jobs))
  {
    DrawStackedHeading(doc, "WORK HISTORY");
    ghost var body := doc.State();
    var i := 0;
    while i < |jobs|
      invariant 0 <= i <= |jobs|
      invariant doc.State() == DrawEntries(body, doc.env, JobEntries(jobs[..i]))
    {
      DrawJob(doc, jobs[i]);
      assert JobEntries(jobs[..i + 1]) == JobEntries(jobs[..i]) + [JobEntry(jobs[i])];
      DrawEntriesSnoc(body, doc.env, JobEntries(jobs[..i]), JobEntry(jobs[i]));
      i := i + 1;
    }
    assert jobs[..i] == jobs;
    DrawDivider(doc);
  }

  /** One iteration of `resumeData.education.forEach` (server.mjs:221-231). */
  method DrawEducationEntry(doc: Doc, edu: Education)
    modifies doc
    ensures doc.State() == DrawEntry(old(doc.State()), doc.env, EducationEntry(edu))
  {
    var rightColumnX := 170.0;
    doc.SetFont(HelveticaBold);
    doc.Text(OrElse(edu.degree, ""), rightColumnX, doc.y, Some(doc.env.pageWidth - 220.0));
    ghost var lead := doc.State();
    doc.SetFont(Helvetica);
    doc.TextIndented(OrElse(edu.institution, ""), 10.0);
    ghost var subs := [SubLine(OrElse(edu.institution, ""), 10.0)];
    assert doc.State() == DrawSubs(lead, doc.env, subs) by {
      assert subs[..0] == [];
    }
    if Truthy(edu.graduationYear) {
      doc.TextIndented(Bullet + edu.graduationYear.value, 20.0);
      subs := subs + [SubLine(Bullet + edu.graduationYear.value, 20.0)];
      assert subs[..1] == [SubLine(OrElse(edu.institution, ""), 10.0)];
    }
    assert subs == EducationEntry(edu).subs;
    doc.MoveDownOneLine();
  }

  /** The education block (server.mjs:209-240). */
  method DrawEducation(doc: Doc, edus: seq<Education>)
    modifies doc
    ensures doc.State() == StackedSection(old(doc.State()), doc.env, "EDUCATION", EducationEntries(edus))
  {
    DrawStackedHeading(doc, "EDUCATION");
    ghost var body := doc.State();
    var i := 0;
    while i < |edus|
      invariant 0 <= i <= |edus|
      invariant doc.State() == DrawEntries(body, doc.env, EducationEntries(edus[..i]))
    {
      DrawEducationEntry(doc, edus[i]);
      assert EducationEntries(edus[..i + 1]) == EducationEntries(edus[..i]) + [EducationEntry(edus[i])];
      DrawEntriesSnoc(body, doc.env, EducationEntries(edus[..i]), EducationEntry(edus[i]));
      i := i + 1;
    }
    assert edus[..i] == edus;
    DrawDivider(doc);
  }

  /** The top bar, name and contact block, and the reset below them (server.mjs:80-102). */
  method DrawTopBar(doc: Doc, resumeData: StructuredResume, topBarColor: string)
    modifies doc
    ensures doc.State() == DrawHeader(old(doc.State()), doc.env, resumeData, topBarColor)
  {
    var topBarHeight := 90.0;
    doc.Rect(0.0, 0.0, doc.env.pageWidth, topBarHeight, topBarColor);
    doc.SetFont(HelveticaBold);
    doc.FontSize(20.0);
    doc.FillColor(White);
    doc.Text(HeaderName(resumeData), 50.0, 20.0, None);
    doc.SetFont(Helvetica);
    doc.FontSize(10.0);
    doc.FillColor(White);
    doc.Text(HeaderContact(resumeData), 50.0, 45.0, None);
    doc.FillColor("black");
    doc.y := topBarHeight + 20.0;
  }

  /** `generateStructuredPDF` without the output stream: builds the document for
      `resumeData`; `randomNum` is the value `getRandomColor` drew. */
  method GenerateStructuredPDF(resumeData: StructuredResume, env: Env, randomNum: nat) returns (doc: Doc)
    ensures fresh(doc) && doc.env == env
    ensures doc.State() == Render(env, resumeData, randomNum)
  {
    doc := new Doc(env);
    DrawTopBar(doc, resumeData, HexColor(randomNum));
    ghost var header := doc.State();
    DrawSummary(doc, resumeData);
    ghost var drawn := SummaryPart(resumeData);
    DrawSkills(doc, resumeData);
    DrawSectionsAppend(header, env, drawn, SkillsPart(resumeData));
    drawn := drawn + SkillsPart(resumeData);
    DrawWork(doc, resumeData);
    DrawSectionsAppend(header, env, drawn, WorkPart(resumeData));
    drawn := drawn + WorkPart(resumeData);
    DrawEducationPart(doc, resumeData);
    DrawSectionsAppend(header, env, drawn, EducationPart(resumeData));
    drawn := drawn + EducationPart(resumeData);
    DrawCertifications(doc, resumeData);
    DrawSectionsAppend(header, env, drawn, CertificationsPart(resumeData));
    drawn := drawn + CertificationsPart(resumeData);
    DrawAchievements(doc, resumeData);
    DrawSectionsAppend(header, env, drawn, AchievementsPart(resumeData));
    drawn := drawn + AchievementsPart(resumeData);
    DrawReferences(doc, resumeData);
    DrawSectionsAppend(header, env, drawn, ReferencesPart(resumeData));
    drawn := drawn + ReferencesPart(resumeData);
  }

  /** 3) Professional Summary (server.mjs:144-146). */
  method DrawSummary(doc: Doc, resumeData: StructuredResume)
    modifies doc
    ensures doc.State() == DrawSections(old(doc.State()), doc.env, SummaryPart(resumeData))
  {
    if Truthy(resumeData.professionalSummary) {
      DrawTwoColumnSection(doc, "Professional Summary", resumeData.professionalSummary.value);
    }
    DrawSectionsOne(old(doc.State()), doc.env, SummaryPart(resumeData));
  }

  /** 4) Skills (server.mjs:151-154). */
  method DrawSkills(doc: Doc, resumeData: StructuredResume)
    modifies doc
    ensures doc.State() == DrawSections(old(doc.State()), doc.env, SkillsPart(resumeData))
  {
    if resumeData.skills.Some? && |resumeData.skills.value| > 0 {
      var skillsContent := Bulleted(resumeData.skills.value);
      DrawTwoColumnSection(doc, "Skills", skillsContent);
    }
    DrawSectionsOne(old(doc.State()), doc.env, SkillsPart(resumeData));
  }

  /** 5) Work Experience (server.mjs:159-204). */
  method DrawWork(doc: Doc, resumeData: StructuredResume)
    modifies doc
    ensures doc.State() == DrawSections(old(doc.State()), doc.env, WorkPart(resumeData))
  {
    if resumeData.workExperience.Some? {
      DrawWorkHistory(doc, resumeData.workExperience.value);
    }
    DrawSectionsOne(old(doc.State()), doc.env, WorkPart(resumeData));
  }

  /** 6) Education (server.mjs:209-240). */
  method DrawEducationPart(doc: Doc, resumeData: StructuredResume)
    modifies doc
    ensures doc.State() == DrawSections(old(doc.State()), doc.env, EducationPart(resumeData))
  {
    if resumeData.education.Some? {
      DrawEducation(doc, resumeData.education.value);
    }
    DrawSectionsOne(old(doc.State()), doc.env, EducationPart(resumeData));
  }

  /** 7) Certifications / Licenses (server.mjs:245-248). */
  method DrawCertifications(doc: Doc, resumeData: StructuredResume)
    modifies doc
    ensures doc.State() == DrawSections(old(doc.State()), doc.env, CertificationsPart(resumeData))
  {
    if resumeData.certifications.Some? && |resumeData.certifications.value| > 0 {
      var certContent := Bulleted(resumeData.certifications.value);
      DrawTwoColumnSection(doc, "Certifications / Licenses", certContent);
    }
    DrawSectionsOne(old(doc.State()), doc.env, CertificationsPart(resumeData));
  }

  /** 8) Achievements (server.mjs:253-256). */
  method DrawAchievements(doc: Doc, resumeData: StructuredResume)
    modifies doc
    ensures doc.State() == DrawSections(old(doc.State()), doc.env, AchievementsPart(resumeData))
  {
    if resumeData.achievements.Some? && |resumeData.achievements.value| > 0 {
      var achContent := Bulleted(resumeData.achievements.value);
      DrawTwoColumnSection(doc, "Achievements", achContent);
    }
    DrawSectionsOne(old(doc.State()), doc.env, AchievementsPart(resumeData));
  }

  /** 9) References (server.mjs:261-263). */
  method DrawReferences(doc: Doc, resumeData: StructuredResume)
    modifies doc
    ensures doc.State() == DrawSections(old(doc.State()), doc.env, ReferencesPart(resumeData))
  {
    if Truthy(resumeData.references) {
      DrawTwoColumnSection(doc, "References", resumeData.references.value);
    }
    DrawSectionsOne(old(doc.State()), doc.env, ReferencesPart(resumeData));
  }

  /** Drawing a plan of at most one section. */
  lemma DrawSectionsOne(d: DocState, env: Env, part: seq<Section>)
    requires |part| <= 1
    ensures DrawSections(d, env, part) == if |part| == 0 then d else DrawSection(d, env, part[0])
  {
    if |part| == 1 {
      assert part[..0] == [];
    }
  }

  /** Drawing two plans one after the other is drawing their concatenation. */
  lemma {:induction false} DrawSectionsAppend(d: DocState, env: Env, a: seq<Section>, b: seq<Section>)
    ensures DrawSections(d, env, a + b) == DrawSections(DrawSections(d, env, a), env, b)
    decreases |b|
  {
    if |b| == 0 {
      assert a + b == a;
    } else {
      DrawSectionsAppend(d, env, a, b[..|b| - 1]);
      assert (a + b)[..|a + b| - 1] == a + b[..|b| - 1];
    }
  }
}
