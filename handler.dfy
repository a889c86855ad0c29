/** The decision skeleton of `POST /api/improve-resume` (server.mjs:275-402): which
    stages run, in which order, which status and body each outcome produces, and the
    name and URL of the generated file. Reading and extracting the upload, the
    language-model call, `JSON.parse` and the PDF rendering are foreign or I/O; each is a
    function parameter that either succeeds with a value or fails with a message. */
module Handler {
  import opened Resume
  import opened Digits

  /** The multer upload record: the client's file name and where it was stored. */
  datatype Upload = Upload(originalname: string, path: string)

  /** A stage that either produced a value or threw an error with a message. */
  datatype Outcome<T> = Ok(value: T) | Failed(message: string)

  /** The stages the handler can reach, in pipeline order. */
  datatype Stage = Extract | Complete | Parse | Render(filename: string)

  /** The JSON body sent back. */
  datatype Body =
    | ErrorBody(error: string, details: Option<string>)
    | SuccessBody(downloadUrl: string, improvedResume: string)

  datatype Reply = Reply(status: nat, body: Body, stages: seq<Stage>)

  /** The foreign stages: read and extract the stored upload, ask the model to rewrite
      the text, parse its answer, write the PDF under the given file name. */
  datatype Services = Services(
    readAndExtract: string -> Outcome<string>,
    complete: string -> Outcome<string>,
    parse: string -> Outcome<StructuredResume>,
    render: (StructuredResume, string) -> Outcome<()>)

  const OutputPrefix: string := "improved_"
  const OutputRoute: string := "/outputted_resumes/"

  /** `improved_${Date.now()}_${req.file.originalname}` (server.mjs:389): the prefix, the
      timestamp in decimal, an underscore, and the client's file name unchanged. */
  function OutputFilename(now: nat, originalname: string): (r: string)
    ensures |OutputPrefix| < |r| - |originalname| && r[..|OutputPrefix|] == OutputPrefix
    ensures r[|r| - |originalname|..] == originalname && r[|r| - |originalname| - 1] == '_'
    ensures var digits := r[|OutputPrefix|..|r| - |originalname| - 1];
      |digits| > 0 && IsDigits(digits, 10) && ValueOf(digits, 10) == now
  {
    var digits := ToBase(now, 10);
    ToBaseDigits(now, 10);
    ToBaseRoundTrip(now, 10);
    Separated(OutputPrefix, digits, originalname);
    OutputPrefix + digits + "_" + originalname
  }

  /** Where the three parts of `prefix + middle + "_" + suffix` sit. */
  lemma Separated(prefix: string, middle: string, suffix: string)
    ensures var r := prefix + middle + "_" + suffix;
      && |r| == |prefix| + |middle| + 1 + |suffix|
      && r[..|prefix|] == prefix && r[|r| - |suffix|..] == suffix && r[|r| - |suffix| - 1] == '_'
      && r[|prefix|..|r| - |suffix| - 1] == middle
  {
    var r := prefix + middle + "_" + suffix;
    assert r == prefix + (middle + ("_" + suffix));
    assert r[|prefix|..|r| - |suffix| - 1] == middle;
  }

  /** `/outputted_resumes/${outputFilename}` (server.mjs:395): the file is served from the
      static route it was written under. */
  function DownloadUrl(filename: string): (r: string)
    ensures |r| == |OutputRoute| + |filename|
    ensures r[..|OutputRoute|] == OutputRoute && r[|OutputRoute|..] == filename
  {
    OutputRoute + filename
  }

  /** The handler, stage by stage, with its early returns (server.mjs:275-402). Every reply
      is 200, 400 or 500; 400 exactly when no file was uploaded, and then no stage runs;
      200 exactly when the body is the success body. */
  function ImproveResume(file: Option<Upload>, now: nat, svc: Services): (r: Reply)
    ensures r.status == 200 || r.status == 400 || r.status == 500
    ensures r.status == 400 <==> file.None?
    ensures r.stages == [] <==> file.None?
    ensures r.status == 200 <==> r.body.SuccessBody?
  {
    if file.None? then
      Reply(400, ErrorBody("No file uploaded", None), [])
    else
      match svc.readAndExtract(file.value.path)
      case Failed(m) => Reply(500, ErrorBody(m, None), [Extract])
      case Ok(resumeText) =>
        match svc.complete(resumeText)
        case Failed(m) => Reply(500, ErrorBody("OpenAI API error", Some(m)), [Extract, Complete])
        case Ok(improved) =>
          match svc.parse(improved)
          case Failed(m) =>
            Reply(500, ErrorBody("Error parsing structured resume JSON", Some(m)), [Extract, Complete, Parse])
          case Ok(structured) =>
            var filename := OutputFilename(now, file.value.originalname);
            match svc.render(structured, filename)
            case Failed(m) => Reply(500, ErrorBody(m, None), [Extract, Complete, Parse, Render(filename)])
            case Ok(_) => Reply(200, SuccessBody(DownloadUrl(filename), improved), [Extract, Complete, Parse, Render(filename)])
  }

  /** Every stage before rendering succeeded. */
  predicate ReadyToRender(file: Option<Upload>, svc: Services)
  {
    && file.Some?
    && svc.readAndExtract(file.value.path).Ok?
    && svc.complete(svc.readAndExtract(file.value.path).value).Ok?
    && svc.parse(svc.complete(svc.readAndExtract(file.value.path).value).value).Ok?
  }

  /** The whole pipeline as it runs when nothing fails. */
  function Pipeline(file: Upload, now: nat): seq<Stage>
  {
    [Extract, Complete, Parse, Render(OutputFilename(now, file.originalname))]
  }

  // ---------------------------------------------------------------------
  // Properties
  // ---------------------------------------------------------------------

  /** Without a file the reply is 400 'No file uploaded' and no stage runs. */
  lemma NoFileRejected(now: nat, svc: Services)
    ensures var reply := ImproveResume(None, now, svc);
      reply.status == 400 && reply.body == ErrorBody("No file uploaded", None) && reply.stages == []
  {
  }

  /** Stages run strictly in order: what ran is always a prefix of the whole pipeline,
      and a later stage runs only when the one before it succeeded. */
  lemma StagesInOrder(file: Option<Upload>, now: nat, svc: Services)
    ensures var reply := ImproveResume(file, now, svc);
      && (file.None? <==> reply.stages == [])
      && (file.Some? ==> reply.stages == Pipeline(file.value, now)[..|reply.stages|])
      && (Complete in reply.stages <==> file.Some? && svc.readAndExtract(file.value.path).Ok?)
  {
    var reply := ImproveResume(file, now, svc);
    if file.Some? {
      var p := Pipeline(file.value, now);
      assert p[..1] == [Extract] && p[..2] == [Extract, Complete];
      assert p[..3] == [Extract, Complete, Parse] && p[..4] == p;
    }
  }

  /** A PDF is written exactly when the file was read and extracted, the model answered
      and its answer parsed; in particular a model or parse failure writes nothing. */
  lemma RenderOnlyWhenReady(file: Option<Upload>, now: nat, svc: Services)
    ensures (exists f :: Render(f) in ImproveResume(file, now, svc).stages) <==> ReadyToRender(file, svc)
  {
    var reply := ImproveResume(file, now, svc);
    if ReadyToRender(file, svc) {
      var f := OutputFilename(now, file.value.originalname);
      assert reply.stages[3] == Render(f);
    }
  }

  /** A failed model call gives 500 "OpenAI API error" with the error's message. */
  lemma ModelFailure(file: Upload, now: nat, svc: Services)
    requires svc.readAndExtract(file.path).Ok?
    requires svc.complete(svc.readAndExtract(file.path).value).Failed?
    ensures var reply := ImproveResume(Some(file), now, svc);
      && reply.status == 500
      && reply.body == ErrorBody("OpenAI API error", Some(svc.complete(svc.readAndExtract(file.path).value).message))
      && !ReadyToRender(Some(file), svc)
  {
  }

  /** Unparseable model output gives 500 "Error parsing structured resume JSON" with the
      parser's message. */
  lemma ParseFailure(file: Upload, now: nat, svc: Services)
    requires svc.readAndExtract(file.path).Ok?
    requires svc.complete(svc.readAndExtract(file.path).value).Ok?
    requires svc.parse(svc.complete(svc.readAndExtract(file.path).value).value).Failed?
    ensures var improved := svc.complete(svc.readAndExtract(file.path).value).value;
      var reply := ImproveResume(Some(file), now, svc);
      && reply.status == 500
      && reply.body == ErrorBody("Error parsing structured resume JSON", Some(svc.parse(improved).message))
      && !ReadyToRender(Some(file), svc)
  {
  }

  /** The reply is 200 exactly when every stage succeeded; then it carries the download URL
      of the file the record was rendered to and the model's answer verbatim. Every other
      reply is an error: 400 without a file, 500 otherwise. */
  lemma SuccessIffAllStagesSucceed(file: Option<Upload>, now: nat, svc: Services)
    ensures var reply := ImproveResume(file, now, svc);
      && (reply.status == 200 <==> reply.body.SuccessBody?)
      && (reply.status == 200 <==>
            ReadyToRender(file, svc)
            && svc.render(svc.parse(svc.complete(svc.readAndExtract(file.value.path).value).value).value,
                          OutputFilename(now, file.value.originalname)).Ok?)
      && (reply.status != 200 ==> reply.status == (if file.None? then 400 else 500))
      && (reply.status == 200 ==>
            reply.body.downloadUrl == OutputRoute + OutputPrefix + ToBase(now, 10) + "_" + file.value.originalname
            && reply.body.improvedResume == svc.complete(svc.readAndExtract(file.value.path).value).value)
  {
  }

  // ---------------------------------------------------------------------
  // Reading a file name back
  // ---------------------------------------------------------------------

  /** Index of the first `c` in `s`, or `|s|` when there is none. */
  function IndexOf(c: char, s: string): (k: nat)
    ensures k <= |s|
    ensures k < |s| ==> s[k] == c
    ensures forall i :: 0 <= i < k ==> s[i] != c
  {
    if |s| == 0 then 0 else if s[0] == c then 0 else 1 + IndexOf(c, s[1..])
  }

  /** The inverse of OutputFilename: the timestamp and the client's file name. */
  function ParseOutputFilename(f: string): Option<(nat, string)>
  {
    if |f| < |OutputPrefix| || f[..|OutputPrefix|] != OutputPrefix then None
    else
      var rest := f[|OutputPrefix|..];
      var k := IndexOf('_', rest);
      if k == 0 || k == |rest| || !IsDigits(rest[..k], 10) then None
      else Some((ValueOf(rest[..k], 10), rest[k + 1..]))
  }

  /** Decimal digits never contain the separator. */
  lemma DigitsHaveNoUnderscore(s: string)
    requires IsDigits(s, 10)
    ensures '_' !in s
  {
    assert forall j :: 0 <= j < 10 ==> HexDigits[..10][j] != '_';
  }

  /** The timestamp and the original name can be read back from the output file name,
      whatever the original name contains (underscores included). */
  lemma OutputFilenameRoundTrip(now: nat, originalname: string)
    ensures ParseOutputFilename(OutputFilename(now, originalname)) == Some((now, originalname))
  {
    var digits := ToBase(now, 10);
    var f := OutputFilename(now, originalname);
    ToBaseDigits(now, 10);
    ToBaseRoundTrip(now, 10);
    DigitsHaveNoUnderscore(digits);
    assert f == OutputPrefix + (digits + "_" + originalname);
    var rest := f[|OutputPrefix|..];
    assert rest == digits + "_" + originalname;
    IndexOfAfter(digits, originalname);
    assert rest[..|digits|] == digits;
    assert rest[|digits| + 1..] == originalname;
  }

  lemma IndexOfAfter(digits: string, name: string)
    requires '_' !in digits
    ensures IndexOf('_', digits + "_" + name) == |digits|
  {
    var s := digits + "_" + name;
    assert s[|digits|] == '_';
    assert forall i :: 0 <= i < |digits| ==> s[i] == digits[i];
  }

  /** Requests at different milliseconds, or for different uploads, never share a file. */
  lemma OutputFilenameInjective(t1: nat, n1: string, t2: nat, n2: string)
    requires OutputFilename(t1, n1) == OutputFilename(t2, n2)
    ensures t1 == t2 && n1 == n2
  {
    OutputFilenameRoundTrip(t1, n1);
    OutputFilenameRoundTrip(t2, n2);
  }
}
