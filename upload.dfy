/**
 * app/main.py: `upload_post` (validation, the `read_csv` fallback ladder, the
 * analysis and its all-or-nothing persistence) and `analysis_detail` (owner check
 * and the list of data URLs). Routing, templates and logging appear only as the
 * response each handler returns.
 */
module Upload {
  import opened Wrappers
  import opened Text
  import Base64
  import opened DataFrame
  import opened Analysis
  import opened Store

  // ----- responses -----

  datatype Category = Warning | Danger
  datatype Flash = Flash(message: string, category: Category)
  datatype Endpoint = UploadPage | Dashboard | AnalysisDetail(analysisId: nat)

  /** One entry of `images`: a title and a `data:` URL. */
  datatype ImageView = ImageView(title: string, data: string)

  datatype Response =
    | Redirect(to: Endpoint, flash: Option<Flash>)
    | NotFound
    | AnalysisPage(analysisId: nat, images: seq<ImageView>)

  const ChooseFile := Flash("Please choose a CSV file.", Warning)
  const OnlyCsv := Flash("Only .csv files are allowed.", Danger)
  const EmptyFile := Flash("Uploaded file is empty.", Danger)
  const NotAuthorized := Flash("Not authorized.", Danger)

  /** `flash(f"Analysis error: {e}", "danger")`. */
  function AnalysisError(e: string): Flash {
    Flash("Analysis error: " + e, Danger)
  }

  // ----- validation (app/main.py:32-43) -----

  /** `request.files.get("file")`: no part, or a filename and the bytes `file.read()` returns. */
  datatype Upload = NoFile | File(filename: string, data: seq<Base64.Byte>)

  datatype Validation = Accepted(filename: string, data: seq<Base64.Byte>) | Rejected(flash: Flash)

  function Validate(u: Upload): (r: Validation)
    ensures r == Rejected(ChooseFile) <==> u.NoFile? || u.filename == ""
    ensures r == Rejected(OnlyCsv) <==>
              u.File? && u.filename != "" && !EndsWith(Lower(u.filename), ".csv")
    ensures r == Rejected(EmptyFile) <==>
              u.File? && u.filename != "" && EndsWith(Lower(u.filename), ".csv") && u.data == []
    ensures r.Accepted? <==>
              u.File? && u.filename != "" && EndsWith(Lower(u.filename), ".csv") && u.data != []
    ensures r.Accepted? ==> u == File(r.filename, r.data) && r.data != []
  {
    match u
    case NoFile => Rejected(ChooseFile)
    case File(name, data) =>
      if name == "" then Rejected(ChooseFile)
      else if !EndsWith(Lower(name), ".csv") then Rejected(OnlyCsv)
      else if data == [] then Rejected(EmptyFile)
      else Accepted(name, data)
  }

  /** The extension test ignores case: the name ends in '.' followed by c, s, v in either case. */
  lemma CsvExtensionIgnoresCase(name: string)
    ensures EndsWith(Lower(name), ".csv") <==>
              |name| >= 4 && name[|name| - 4] == '.' &&
              name[|name| - 3] in "cC" && name[|name| - 2] in "sS" && name[|name| - 1] in "vV"
  {
    var l := Lower(name);
    var n := |name|;
    if n >= 4 {
      assert l[n - 4..] == [l[n - 4], l[n - 3], l[n - 2], l[n - 1]];
      assert ".csv" == ['.', 'c', 's', 'v'];
    }
  }

  /** An upper-case extension is accepted like a lower-case one. */
  lemma UpperCaseCsvAccepted(data: seq<Base64.Byte>)
    requires data != []
    ensures Validate(File("DATA.CSV", data)) == Accepted("DATA.CSV", data)
  {
    CsvExtensionIgnoresCase("DATA.CSV");
  }

  // ----- the read_csv ladder (app/main.py:61-72) -----

  /** The three `pd.read_csv` calls: default UTF-8, strict latin-1, permissive latin-1. */
  datatype Dialect = Utf8 | Latin1 | Latin1SkipBadLines

  /** What one `read_csv` call does: a table, a UnicodeDecodeError, or another exception. */
  datatype ParseOutcome = Parsed(table: Table) | UnicodeDecodeError(message: string) | ParseError(message: string)

  type Reader = Dialect -> ParseOutcome

  /** The calls made, in order, and the table or the exception that leaves the ladder. */
  datatype Ladder = Ladder(attempts: seq<Dialect>, result: Result<Table>)

  function ReadCsv(read: Reader): (r: Ladder)
    ensures 1 <= |r.attempts| <= 2 && r.attempts[0] == Utf8
    ensures forall k :: 0 <= k < |r.attempts| - 1 ==> !read(r.attempts[k]).Parsed?
    ensures var last := read(r.attempts[|r.attempts| - 1]);
            if last.Parsed? then r.result == Success(last.table) else r.result == Failure(last.message)
    ensures Latin1 in r.attempts <==> read(Utf8).UnicodeDecodeError?
    ensures Latin1SkipBadLines in r.attempts <==> read(Utf8).ParseError?
  {
    match read(Utf8)
    case Parsed(t) => Ladder([Utf8], Success(t))
    case UnicodeDecodeError(_) =>
      (match read(Latin1)
       case Parsed(t) => Ladder([Utf8, Latin1], Success(t))
       case UnicodeDecodeError(e) => Ladder([Utf8, Latin1], Failure(e))
       case ParseError(e) => Ladder([Utf8, Latin1], Failure(e)))
    case ParseError(_) =>
      (match read(Latin1SkipBadLines)
       case Parsed(t) => Ladder([Utf8, Latin1SkipBadLines], Success(t))
       case UnicodeDecodeError(e) => Ladder([Utf8, Latin1SkipBadLines], Failure(e))
       case ParseError(e) => Ladder([Utf8, Latin1SkipBadLines], Failure(e)))
  }

  /** A failed latin-1 retry is not followed by the permissive parse: its exception leaves the ladder. */
  lemma Latin1FailureEscapes(read: Reader)
    requires read(Utf8).UnicodeDecodeError? && !read(Latin1).Parsed?
    ensures ReadCsv(read) == Ladder([Utf8, Latin1], Failure(read(Latin1).message))
  {
  }

  // ----- upload_post (app/main.py:29-92) -----

  /** Everything outside the handler: the parser, the date parser, the plotter and the database. */
  datatype Environment = Environment(
    read: Reader,
    convert: Converter,
    render: Renderer,
    commitFault: Option<string>)

  datatype Persisted = Persisted(db: Db, analysisId: nat)

  /**
   * The `try` block: parse, analyse, then add one Analysis and one Chart per chart
   * and commit. Any exception is reported instead.
   */
  function Process(db: Db, datasetId: nat, env: Environment): (r: Result<Persisted>)
    requires db.Valid() && 1 <= datasetId <= |db.datasets|
  {
    match ReadCsv(env.read).result
    case Failure(e) => Failure(e)
    case Success(t) =>
      match Analyze(CoerceDates(t, env.convert), env.render)
      case Failure(e) => Failure(e)
      case Success(eda) =>
        match env.commitFault
        case Some(e) => Failure(e)
        case None =>
          var withAnalysis := WithAnalysis(db, datasetId, eda.summary);
          var aid := |withAnalysis.analyses|;
          Success(Persisted(WithCharts(withAnalysis, aid, eda.charts), aid))
  }

  /** The response and the committed database after one POST to /upload. */
  function UploadPost(db: Db, userId: nat, u: Upload, env: Environment): (r: (Response, Db))
    requires db.Valid()
    ensures r.1.Valid()
    ensures Validate(u).Rejected? ==> r == (Redirect(UploadPage, Some(Validate(u).flash)), db)
    ensures Validate(u).Accepted? ==>
              |r.1.datasets| == |db.datasets| + 1 && r.1.datasets[..|db.datasets|] == db.datasets &&
              r.1.datasets[|db.datasets|] ==
                DatasetRow(|db.datasets| + 1, userId, u.filename, u.filename, u.data)
    ensures r.0.Redirect? && r.0.to == UploadPage ==> r.1.analyses == db.analyses && r.1.charts == db.charts
    ensures r.0.Redirect? && r.0.to.AnalysisDetail? ==>
              r.0.flash.None? &&
              |r.1.analyses| == |db.analyses| + 1 && r.1.analyses[..|db.analyses|] == db.analyses &&
              r.0.to.analysisId == |r.1.analyses| &&
              r.1.analyses[|db.analyses|].datasetId == |r.1.datasets| &&
              |db.charts| <= |r.1.charts| && r.1.charts[..|db.charts|] == db.charts &&
              forall k :: |db.charts| <= k < |r.1.charts| ==> r.1.charts[k].analysisId == r.0.to.analysisId
    ensures r.0.Redirect? && (r.0.to == UploadPage || r.0.to.AnalysisDetail?)
    ensures Validate(u).Accepted? ==>
              (r.0.to.AnalysisDetail? <==>
                 ReadCsv(env.read).result.Success? &&
                 Analyze(CoerceDates(ReadCsv(env.read).result.value, env.convert), env.render).Success? &&
                 env.commitFault.None?)
    ensures Validate(u).Accepted? && ReadCsv(env.read).result.Failure? ==>
              r.0.flash == Some(AnalysisError(ReadCsv(env.read).result.error))
    ensures Validate(u).Accepted? && ReadCsv(env.read).result.Success? &&
            Analyze(CoerceDates(ReadCsv(env.read).result.value, env.convert), env.render).Failure? ==>
              r.0.flash ==
                Some(AnalysisError(Analyze(CoerceDates(ReadCsv(env.read).result.value, env.convert), env.render).error))
    ensures Validate(u).Accepted? && ReadCsv(env.read).result.Success? &&
            Analyze(CoerceDates(ReadCsv(env.read).result.value, env.convert), env.render).Success? &&
            env.commitFault.Some? ==>
              r.0.flash == Some(AnalysisError(env.commitFault.value))
  {
    match Validate(u)
    case Rejected(f) => (Redirect(UploadPage, Some(f)), db)
    case Accepted(filename, data) =>
      var withDataset := WithDataset(db, userId, filename, data);
      match Process(withDataset, |withDataset.datasets|, env)
      case Failure(e) => (Redirect(UploadPage, Some(AnalysisError(e))), withDataset)
      case Success(p) => (Redirect(AnalysisDetail(p.analysisId), None), p.db)
  }

  /** The handler itself, against the ORM session. */
  method HandleUpload(session: Session, userId: nat, u: Upload, env: Environment) returns (resp: Response)
    requires session.Valid() && session.pending == session.committed
    modifies session
    ensures session.Valid() && session.pending == session.committed
    ensures (resp, session.committed) == UploadPost(old(session.committed), userId, u, env)
  {
    var v := Validate(u);
    if v.Rejected? {
      return Redirect(UploadPage, Some(v.flash));
    }
    var datasetId := session.AddDataset(userId, v.filename, v.data);
    var _ := session.Commit(None);
    var outcome := AnalyzeAndStore(session, datasetId, env);
    match outcome
    case Failure(e) =>
      resp := Redirect(UploadPage, Some(AnalysisError(e)));
    case Success(analysisId) =>
      resp := Redirect(AnalysisDetail(analysisId), None);
  }

  /** The `try` block of app/main.py:58-92 run against the session, rolled back on any failure. */
  method AnalyzeAndStore(session: Session, datasetId: nat, env: Environment) returns (r: Result<nat>)
    requires session.Valid() && session.pending == session.committed
    requires 1 <= datasetId <= |session.committed.datasets|
    modifies session
    ensures session.Valid() && session.pending == session.committed
    ensures var p := Process(old(session.committed), datasetId, env);
            match p
            case Failure(e) => r == Failure(e) && session.committed == old(session.committed)
            case Success(stored) => r == Success(stored.analysisId) && session.committed == stored.db
  {
    var ladder := ReadCsv(env.read);
    if ladder.result.Failure? {
      session.Rollback();
      return Failure(ladder.result.error);
    }
    var df := new Frame(ladder.result.value);
    var eda := RunBasicEda(df, env.convert, env.render);
    if eda.Failure? {
      session.Rollback();
      return Failure(eda.error);
    }
    var analysisId := session.AddAnalysis(datasetId, eda.value.summary);
    StoreCharts(session, analysisId, eda.value.charts);
    var error := session.Commit(env.commitFault);
    if error.Some? {
      session.Rollback();
      return Failure(error.value);
    }
    return Success(analysisId);
  }

  /** `for c in charts: db.session.add(Chart(...))`. */
  method StoreCharts(session: Session, analysisId: nat, charts: seq<Chart>)
    requires session.Valid() && 1 <= analysisId <= |session.pending.analyses|
    modifies session
    ensures session.Valid() && session.committed == old(session.committed)
    ensures session.pending == WithCharts(old(session.pending), analysisId, charts)
  {
    ghost var start := session.pending;
    for i := 0 to |charts|
      invariant session.Valid() && session.committed == old(session.committed)
      invariant session.pending == WithCharts(start, analysisId, charts[..i])
    {
      session.AddChart(analysisId, charts[i]);
      WithChartsStep(start, analysisId, charts[..i], charts[i]);
      assert charts[..i + 1] == charts[..i] + [charts[i]];
    }
    assert charts[..|charts|] == charts;
  }

  // ----- analysis_detail (app/main.py:94-106) -----

  const DataUrlPrefix := "data:image/png;base64,"

  function DataUrl(image: seq<Base64.Byte>): string {
    DataUrlPrefix + Base64.Encode(image)
  }

  /** A data URL carries its image: the text after the prefix decodes back to it. */
  lemma DataUrlCarriesImage(image: seq<Base64.Byte>)
    ensures StartsWith(DataUrl(image), DataUrlPrefix)
    ensures Base64.Decode(DataUrl(image)[|DataUrlPrefix|..]) == Some(image)
  {
    Base64.DecodeEncode(image);
    assert DataUrl(image)[|DataUrlPrefix|..] == Base64.Encode(image);
  }

  /** The `a.charts` relationship: the Chart rows of analysis `aid`, in insertion order. */
  function ChartsOf(rows: seq<ChartRow>, aid: nat): (r: seq<ChartRow>)
    ensures forall k :: 0 <= k < |r| ==> r[k].analysisId == aid
    decreases |rows|
  {
    if rows == [] then []
    else
      var last := rows[|rows| - 1];
      ChartsOf(rows[..|rows| - 1], aid) + (if last.analysisId == aid then [last] else [])
  }

  lemma {:induction false} ChartsOfAppend(a: seq<ChartRow>, b: seq<ChartRow>, aid: nat)
    ensures ChartsOf(a + b, aid) == ChartsOf(a, aid) + ChartsOf(b, aid)
    decreases |b|
  {
    if b == [] {
      assert a + b == a;
    } else {
      var init := b[..|b| - 1];
      ChartsOfAppend(a, init, aid);
      assert (a + b)[..|a + b| - 1] == a + init;
    }
  }

  lemma {:induction false} ChartsOfNone(rows: seq<ChartRow>, aid: nat)
    requires forall k :: 0 <= k < |rows| ==> rows[k].analysisId != aid
    ensures ChartsOf(rows, aid) == []
    decreases |rows|
  {
    if rows != [] {
      ChartsOfNone(rows[..|rows| - 1], aid);
    }
  }

  lemma {:induction false} ChartsOfAll(rows: seq<ChartRow>, aid: nat)
    requires forall k :: 0 <= k < |rows| ==> rows[k].analysisId == aid
    ensures ChartsOf(rows, aid) == rows
    decreases |rows|
  {
    if rows != [] {
      ChartsOfAll(rows[..|rows| - 1], aid);
      assert rows[..|rows| - 1] + [rows[|rows| - 1]] == rows;
    }
  }

  /** `images` for a list of charts: title and data URL of each, in order. */
  function Views(charts: seq<ChartRow>): (r: seq<ImageView>)
    ensures |r| == |charts|
    ensures forall k :: 0 <= k < |charts| ==> r[k] == ImageView(charts[k].title, DataUrl(charts[k].image))
  {
    seq(|charts|, k requires 0 <= k < |charts| => ImageView(charts[k].title, DataUrl(charts[k].image)))
  }

  /** The response to GET /analysis/<aid> by user `userId`. */
  function AnalysisDetailPage(db: Db, userId: nat, aid: nat): Response
    requires db.Valid()
  {
    if !(1 <= aid <= |db.analyses|) then NotFound
    else
      var a := db.analyses[aid - 1];
      if db.datasets[a.datasetId - 1].userId != userId then Redirect(Dashboard, Some(NotAuthorized))
      else AnalysisPage(aid, Views(ChartsOf(db.charts, aid)))
  }

  /** app/main.py:96-106: the owner check, then `images` built by appending one entry per chart. */
  method AnalysisDetailView(session: Session, userId: nat, aid: nat) returns (resp: Response)
    requires session.Valid()
    ensures resp == AnalysisDetailPage(session.committed, userId, aid)
  {
    var db := session.committed;
    if !(1 <= aid <= |db.analyses|) {
      return NotFound;
    }
    var a := db.analyses[aid - 1];
    if db.datasets[a.datasetId - 1].userId != userId {
      return Redirect(Dashboard, Some(NotAuthorized));
    }
    var charts := ChartsOf(db.charts, aid);
    var images: seq<ImageView> := [];
    for i := 0 to |charts|
      invariant |images| == i
      invariant forall k :: 0 <= k < i ==> images[k] == ImageView(charts[k].title, DataUrl(charts[k].image))
    {
      var b64 := Base64.Encode(charts[i].image);
      images := images + [ImageView(charts[i].title, DataUrlPrefix + b64)];
    }
    return AnalysisPage(aid, images);
  }

  /** A successful upload committed the dataset, the analysis and the rendered charts, nothing else. */
  lemma SuccessfulUploadStores(db: Db, userId: nat, u: Upload, env: Environment)
    requires db.Valid()
    requires UploadPost(db, userId, u, env).0.to.AnalysisDetail?
    ensures Validate(u).Accepted? && ReadCsv(env.read).result.Success?
    ensures var t := CoerceDates(ReadCsv(env.read).result.value, env.convert);
            Analyze(t, env.render).Success? &&
            var eda := Analyze(t, env.render).value;
            var withDataset := WithDataset(db, userId, u.filename, u.data);
            var withAnalysis := WithAnalysis(withDataset, |withDataset.datasets|, eda.summary);
            UploadPost(db, userId, u, env) ==
              (Redirect(AnalysisDetail(|withAnalysis.analyses|), None),
               WithCharts(withAnalysis, |withAnalysis.analyses|, eda.charts))
  {
  }

  /** The owner of a newly added analysis sees the views of the chart rows added for it, in order. */
  lemma DetailOfAddedCharts(db: Db, userId: nat, datasetId: nat, summary: Summary, charts: seq<Chart>)
    requires db.Valid() && 1 <= datasetId <= |db.datasets| && db.datasets[datasetId - 1].userId == userId
    ensures var withAnalysis := WithAnalysis(db, datasetId, summary);
            var aid := |withAnalysis.analyses|;
            AnalysisDetailPage(WithCharts(withAnalysis, aid, charts), userId, aid)
              == AnalysisPage(aid, Views(ChartRows(|db.charts|, aid, charts)))
  {
    var withAnalysis := WithAnalysis(db, datasetId, summary);
    var aid := |withAnalysis.analyses|;
    var rows := ChartRows(|db.charts|, aid, charts);
    var after := WithCharts(withAnalysis, aid, charts);
    assert after.charts == db.charts + rows;
    assert ChartsOf(after.charts, aid) == rows by {
      ChartsOfAppend(db.charts, rows, aid);
      ChartsOfNone(db.charts, aid);
      ChartsOfAll(rows, aid);
    }
    assert after.analyses[aid - 1].datasetId == datasetId && after.datasets == db.datasets;
  }

  /**
   * After a successful upload its owner's detail page shows one image per chart
   * of the analysis, in order, each the chart's title and a data URL of its PNG.
   */
  lemma UploadThenView(db: Db, userId: nat, u: Upload, env: Environment)
    requires db.Valid()
    requires UploadPost(db, userId, u, env).0.to.AnalysisDetail?
    ensures ReadCsv(env.read).result.Success?
    ensures var t := CoerceDates(ReadCsv(env.read).result.value, env.convert);
            var eda := Analyze(t, env.render);
            var aid := UploadPost(db, userId, u, env).0.to.analysisId;
            var page := AnalysisDetailPage(UploadPost(db, userId, u, env).1, userId, aid);
            eda.Success? && page.AnalysisPage? && |page.images| == |eda.value.charts| &&
            forall k :: 0 <= k < |page.images| ==>
              page.images[k] == ImageView(eda.value.charts[k].title, DataUrl(eda.value.charts[k].image))
  {
    SuccessfulUploadStores(db, userId, u, env);
    var t := CoerceDates(ReadCsv(env.read).result.value, env.convert);
    var eda := Analyze(t, env.render).value;
    var withDataset := WithDataset(db, userId, u.filename, u.data);
    DetailOfAddedCharts(withDataset, userId, |withDataset.datasets|, eda.summary, eda.charts);
  }
}
