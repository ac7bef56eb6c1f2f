/** The incremental extraction of src/extract_strava_data.py: request the
    athlete's activities one per page, newest first, keep every page newer
    than the stored watermark, stop at the first one that is not, then write
    the export file, upload it, and only then record a new watermark. */
module Extractor {
  import opened Wrappers
  import Dates

  /** A JSON value of the activities API. */
  datatype Value =
    | JNull
    | JBool(b: bool)
    | JNum(n: real)
    | JStr(s: string)
    | JList(items: seq<Value>)

  /** One API response object, by field name. */
  type Activity = map<string, Value>

  /** One exported row: the values of the extracted columns, in order. */
  type Row = seq<Value>

  /** A point in time at the one-second resolution of the parsed dates; the
      integer order stands for the order of Python's naive datetimes. */
  type Instant = int

  /** The query parameters of one API request. */
  datatype Request = Request(perPage: nat, page: nat)

  /** The exceptions the extraction can raise. */
  datatype Error =
    | EmptyPage(page: nat)      // api_response[0] on an empty page list
    | MissingKey(key: string)   // response_json[col] on an absent field
    | BadDate(page: nat)        // strptime on a non-string or misformatted date
    | BadWatermark              // the stored watermark did not parse
    | UploadFailed              // the S3 upload raised

  /** The fixed column list, in export order. */
  const Columns: seq<string> := [
    "id", "name", "distance", "moving_time", "elapsed_time",
    "total_elevation_gain", "type", "workout_type", "start_date", "timezone",
    "location_country", "achievement_count", "kudos_count", "comment_count",
    "athlete_count", "start_latlng", "end_latlng", "average_speed", "max_speed",
    "average_cadence", "average_temp", "average_heartrate", "max_heartrate",
    "suffer_score"
  ]

  lemma ColumnsShape()
    ensures |Columns| == 24
    ensures Columns[8] == "start_date"
    ensures forall i, j :: 0 <= i < j < |Columns| ==> Columns[i] != Columns[j]
  {
  }

  /** The projection of a response onto the columns `cols`, in order; the
      first absent column raises KeyError. */
  function Project(cols: seq<string>, a: Activity): (r: Result<Row, Error>)
    ensures r.Ok? <==> forall i :: 0 <= i < |cols| ==> cols[i] in a
    ensures r.Ok? ==> |r.value| == |cols| && forall i :: 0 <= i < |cols| ==> r.value[i] == a[cols[i]]
    ensures r.Err? ==> exists i :: 0 <= i < |cols| && r.error == MissingKey(cols[i]) && cols[i] !in a
                                   && forall j :: 0 <= j < i ==> cols[j] in a
  {
    if cols == [] then Ok([])
    else
      var last := cols[|cols| - 1];
      var front := Project(cols[..|cols| - 1], a);
      if front.Err? then front
      else if last !in a then Err(MissingKey(last))
      else Ok(front.value + [a[last]])
  }

  /** Extending the column prefix by one column either appends that
      column's value or raises for it. */
  lemma ProjectStep(cols: seq<string>, i: nat, a: Activity)
    requires i < |cols|
    ensures Project(cols[..i], a).Ok? && cols[i] in a ==>
      Project(cols[..i + 1], a) == Ok(Project(cols[..i], a).value + [a[cols[i]]])
    ensures Project(cols[..i], a).Ok? && cols[i] !in a ==>
      Project(cols[..i + 1], a) == Err(MissingKey(cols[i]))
  {
    assert cols[..i + 1][..i] == cols[..i];
  }

  /** The inner loop of the extraction: append the response's value for
      each column in turn (called with Columns). */
  method ProjectColumns(cols: seq<string>, a: Activity) returns (activity: Result<Row, Error>)
    ensures activity == Project(cols, a)
  {
    var row: Row := [];
    var i := 0;
    while i < |cols|
      invariant 0 <= i <= |cols|
      invariant Project(cols[..i], a) == Ok(row)
    {
      var col := cols[i];
      ProjectStep(cols, i, a);
      if col !in a {
        return Err(MissingKey(col));
      }
      row := row + [a[col]];
      i := i + 1;
    }
    assert cols[..i] == cols;
    activity := Ok(row);
  }

  /** What the loop does with page n: keep its projected row, stop there,
      or raise. */
  datatype Step = Keep(row: Row) | Stop | Fail(error: Error)

  function Classify(api: nat -> Option<Activity>, parse: string -> Option<Instant>,
                    watermark: Instant, n: nat): Step
  {
    match api(n)
    case None => Fail(EmptyPage(n))
    case Some(a) =>
      if "start_date" !in a then Fail(MissingKey("start_date"))
      else if !a["start_date"].JStr? || parse(a["start_date"].s).None? then Fail(BadDate(n))
      else if parse(a["start_date"].s).value > watermark then
        match Project(Columns, a)
        case Ok(row) => Keep(row)
        case Err(e) => Fail(e)
      else Stop
  }

  /** `rows` is the longest run of pages 1, 2, ... that the loop keeps: each
      of them kept in page order, and the next page ends the loop. */
  predicate CollectedPrefix(api: nat -> Option<Activity>, parse: string -> Option<Instant>,
                            watermark: Instant, rows: seq<Row>)
  {
    && (forall n :: 1 <= n <= |rows| ==> Classify(api, parse, watermark, n) == Keep(rows[n - 1]))
    && Classify(api, parse, watermark, |rows| + 1) == Stop
  }

  /** The requests issued so far are (per_page 1, page 1), (1, 2), … in order. */
  predicate PagesInOrder(requests: seq<Request>) {
    forall i :: 0 <= i < |requests| ==> requests[i] == Request(1, i + 1)
  }

  /** The `while True` loop. It ends only at a page the loop does not keep,
      so some such page must exist for it to terminate. */
  method ExtractActivities(api: nat -> Option<Activity>, parse: string -> Option<Instant>,
                           watermark: Instant)
    returns (outcome: Result<seq<Row>, Error>, requests: seq<Request>)
    requires exists k: nat :: 1 <= k && !Classify(api, parse, watermark, k).Keep?
    ensures |requests| >= 1 && PagesInOrder(requests)
    ensures outcome.Ok? ==> CollectedPrefix(api, parse, watermark, outcome.value)
                            && |requests| == |outcome.value| + 1
    ensures outcome.Err? ==>
      && (forall n :: 1 <= n < |requests| ==> Classify(api, parse, watermark, n).Keep?)
      && Classify(api, parse, watermark, |requests|) == Fail(outcome.error)
  {
    ghost var stop: nat :| 1 <= stop && !Classify(api, parse, watermark, stop).Keep?;
    var activities: seq<Row> := [];
    var activityNum: nat := 1;
    requests := [];
    while true
      invariant 1 <= activityNum <= stop
      invariant |activities| == |requests| == activityNum - 1
      invariant PagesInOrder(requests)
      invariant forall n :: 1 <= n < activityNum ==> Classify(api, parse, watermark, n) == Keep(activities[n - 1])
      decreases stop - activityNum
    {
      requests := requests + [Request(1, activityNum)];
      var page := api(activityNum);
      if page.None? {
        return Err(EmptyPage(activityNum)), requests;
      }
      var response := page.value;
      if "start_date" !in response {
        return Err(MissingKey("start_date")), requests;
      }
      var date := response["start_date"];
      if !date.JStr? || parse(date.s).None? {
        return Err(BadDate(activityNum)), requests;
      }
      var converted := parse(date.s).value;
      if converted > watermark {
        var activity := ProjectColumns(Columns, response);
        if activity.Err? {
          return Err(activity.error), requests;
        }
        activities := activities + [activity.value];
        activityNum := activityNum + 1;
      } else {
        break;
      }
    }
    outcome := Ok(activities);
  }

  /** Only one sequence of rows is a collected prefix: the loop's result is
      determined by the pages and the watermark. */
  lemma CollectedPrefixUnique(api: nat -> Option<Activity>, parse: string -> Option<Instant>,
                              watermark: Instant, rows1: seq<Row>, rows2: seq<Row>)
    requires CollectedPrefix(api, parse, watermark, rows1)
    requires CollectedPrefix(api, parse, watermark, rows2)
    ensures rows1 == rows2
  {
    assert |rows1| == |rows2|;
    forall i | 0 <= i < |rows1| ensures rows1[i] == rows2[i] {
      assert Classify(api, parse, watermark, i + 1) == Keep(rows1[i]);
    }
  }

  /** The start date of page n, when the page has one that parses. */
  function DateOf(api: nat -> Option<Activity>, parse: string -> Option<Instant>, n: nat): Option<Instant> {
    match api(n)
    case None => None
    case Some(a) =>
      if "start_date" in a && a["start_date"].JStr? then parse(a["start_date"].s) else None
  }

  /** The API lists activities newest first, one per page (two activities
      may share a start second). */
  ghost predicate NewestFirst(api: nat -> Option<Activity>, parse: string -> Option<Instant>) {
    forall i: nat, j: nat :: 1 <= i < j && DateOf(api, parse, i).Some? && DateOf(api, parse, j).Some?
      ==> DateOf(api, parse, j).value <= DateOf(api, parse, i).value
  }

  /** Against a newest-first API, the collected pages are exactly the dated
      pages strictly newer than the watermark: every later page is at or
      before it. */
  lemma NewestFirstCollectsAllNewer(api: nat -> Option<Activity>, parse: string -> Option<Instant>,
                                    watermark: Instant, rows: seq<Row>, n: nat)
    requires NewestFirst(api, parse)
    requires CollectedPrefix(api, parse, watermark, rows)
    requires 1 <= n && DateOf(api, parse, n).Some?
    ensures DateOf(api, parse, n).value > watermark <==> n <= |rows|
  {
    var m := |rows| + 1;
    assert DateOf(api, parse, m).Some? && DateOf(api, parse, m).value <= watermark;
    if n <= |rows| {
      assert Classify(api, parse, watermark, n) == Keep(rows[n - 1]);
    }
  }

  /** The comparison is strict: a page dated exactly at the watermark is
      not collected and ends the loop. */
  lemma PageAtWatermarkStops(api: nat -> Option<Activity>, parse: string -> Option<Instant>,
                             watermark: Instant, n: nat)
    requires DateOf(api, parse, n) == Some(watermark)
    ensures Classify(api, parse, watermark, n) == Stop
  {
  }

  /** Every collected row has one entry per column, entry i being the page's
      value for column i. */
  lemma CollectedRowsAreProjections(api: nat -> Option<Activity>, parse: string -> Option<Instant>,
                                    watermark: Instant, rows: seq<Row>, i: nat)
    requires CollectedPrefix(api, parse, watermark, rows)
    requires i < |rows|
    ensures api(i + 1).Some?
    ensures |rows[i]| == 24
    ensures forall c :: 0 <= c < 24 ==> Columns[c] in api(i + 1).value
    ensures forall c :: 0 <= c < 24 ==> rows[i][c] == api(i + 1).value[Columns[c]]
  {
    assert Classify(api, parse, watermark, i + 1) == Keep(rows[i]);
    ColumnsShape();
  }

  const Bucket := "strava-data-pipeline"

  /** The export file name for a run day, used both as the local path and as
      the S3 object key. */
  function ExportFile(day: string): (path: string)
    ensures |path| == |day| + 28
    ensures path[..12] == "strava_data/"
  {
    "strava_data/" + day + "_export_file.csv"
  }

  /** The export names of two different day strings differ. */
  lemma ExportFileInjective(day1: string, day2: string)
    requires ExportFile(day1) == ExportFile(day2)
    ensures day1 == day2
  {
    assert day1 == ExportFile(day1)[12..12 + |day1|];
    assert day2 == ExportFile(day2)[12..12 + |day2|];
  }

  /** An externally visible action of the extractor. */
  datatype Effect =
    | WriteFile(path: string, rows: seq<Row>)
    | Upload(localPath: string, bucket: string, key: string)
    | InsertWatermark(at: Instant)

  /** The outside world the extractor acts on: the local disk, S3 and the
      metadata database, seen as the ordered list of actions taken. Whether
      S3 accepts an upload is a property of the environment. */
  class Environment {
    const s3Accepts: bool
    var log: seq<Effect>

    constructor (s3Accepts: bool)
      ensures this.s3Accepts == s3Accepts && log == []
    {
      this.s3Accepts := s3Accepts;
      log := [];
    }

    method Write(path: string, rows: seq<Row>)
      modifies this
      ensures log == old(log) + [WriteFile(path, rows)]
    {
      log := log + [WriteFile(path, rows)];
    }

    method UploadFile(localPath: string, bucket: string, key: string) returns (ok: bool)
      modifies this
      ensures ok == s3Accepts
      ensures log == old(log) + (if ok then [Upload(localPath, bucket, key)] else [])
    {
      ok := s3Accepts;
      if ok {
        log := log + [Upload(localPath, bucket, key)];
      }
    }

    method RecordWatermark(at: Instant)
      modifies this
      ensures log == old(log) + [InsertWatermark(at)]
    {
      log := log + [InsertWatermark(at)];
    }
  }

  /** Every watermark insert directly follows an upload. */
  predicate WatermarkAfterUpload(log: seq<Effect>) {
    forall i :: 0 <= i < |log| && log[i].InsertWatermark? ==> 0 < i && log[i - 1].Upload?
  }

  /** The main block. `watermark` is the stored watermark after parsing
      (None when it does not parse), `today` the date of the first clock
      read and `now` the instant of the second. */
  method RunExtraction(env: Environment, api: nat -> Option<Activity>,
                       parse: string -> Option<Instant>, watermark: Option<Instant>,
                       today: Dates.Date, now: Instant)
    returns (outcome: Result<seq<Row>, Error>)
    requires watermark.Some? ==> exists k: nat :: 1 <= k && !Classify(api, parse, watermark.value, k).Keep?
    modifies env
    ensures watermark.None? ==> outcome == Err(BadWatermark)
    ensures watermark.Some? && outcome.Ok? ==> CollectedPrefix(api, parse, watermark.value, outcome.value)
    ensures outcome.Err? && outcome.error != UploadFailed ==> env.log == old(env.log)
    ensures outcome.Err? && outcome.error == UploadFailed ==>
      exists rows :: CollectedPrefix(api, parse, watermark.value, rows)
                     && env.log == old(env.log) + [WriteFile(ExportFile(Dates.FormatYmd(today)), rows)]
    ensures outcome.Ok? ==>
      var path := ExportFile(Dates.FormatYmd(today));
      env.log == old(env.log) + [WriteFile(path, outcome.value), Upload(path, Bucket, path), InsertWatermark(now)]
    ensures watermark.Some? && outcome.Err? && outcome.error != UploadFailed ==>
      exists n: nat :: 1 <= n && (forall m :: 1 <= m < n ==> Classify(api, parse, watermark.value, m).Keep?)
                       && Classify(api, parse, watermark.value, n) == Fail(outcome.error)
    ensures outcome == Err(UploadFailed) ==> !env.s3Accepts
    ensures outcome.Ok? ==> env.s3Accepts
    ensures WatermarkAfterUpload(old(env.log)) ==> WatermarkAfterUpload(env.log)
  {
    if watermark.None? {
      return Err(BadWatermark);
    }
    var extracted, requests := ExtractActivities(api, parse, watermark.value);
    if extracted.Err? {
      assert Classify(api, parse, watermark.value, |requests|) == Fail(extracted.error);
      return extracted;
    }
    var allActivities := extracted.value;
    var exportFile := ExportFile(Dates.FormatYmd(today));
    env.Write(exportFile, allActivities);
    var uploaded := env.UploadFile(exportFile, Bucket, exportFile);
    if !uploaded {
      return Err(UploadFailed);
    }
    env.RecordWatermark(now);
    outcome := Ok(allActivities);
  }
}
