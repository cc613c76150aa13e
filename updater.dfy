/** The four steps of a refresh and the orchestration in `main`
    (UpdateStateHouseBattleMap.py, lines 16-137). The HTTP calls are not
    modelled: each step's reply after `raise_for_status` is an input. */
module Updater {
  import opened Wrappers
  import opened SheetUrl
  import opened Datawrapper

  /** The environment: `DATAWRAPPER_API_KEY`, `DATAWRAPPER_CHART_ID`, `GOOGLE_SHEET_URL`. */
  datatype Config = Config(apiKey: Option<string>, chartId: Option<string>, sheetUrl: Option<string>)

  /** Python truthiness of an environment value: the falsy ones are an
      unset variable and the empty string. */
  predicate Truthy(v: Option<string>)
    ensures !Truthy(v) <==> v == None || v == Some("")
  {
    v.Some? && v.value != ""
  }

  /** Both required values are set and not empty. */
  predicate Configured(config: Config) {
    Truthy(config.apiKey) && Truthy(config.sheetUrl)
  }

  datatype Step = Fetch | Upload | Annotate | Publish

  /** The fixed order of the steps. */
  const Pipeline: seq<Step> := [Fetch, Upload, Annotate, Publish]

  /** A request sent over the network. */
  datatype Request =
    | Get(url: string)
    | Put(url: string, headers: Headers, body: string)
    | Patch(url: string, headers: Headers, notes: string)
    | Post(url: string, headers: Headers)

  function StepOf(r: Request): Step {
    match r
    case Get(_) => Fetch
    case Put(_, _, _) => Upload
    case Patch(_, _, _) => Annotate
    case Post(_, _) => Publish
  }

  function StepsOf(rs: seq<Request>): (steps: seq<Step>)
    ensures |steps| == |rs|
    ensures forall k :: 0 <= k < |rs| ==> steps[k] == StepOf(rs[k])
  {
    if rs == [] then [] else [StepOf(rs[0])] + StepsOf(rs[1..])
  }

  /** A reply: the body of a success status, or `Rejected` for any exception
      the call, `raise_for_status` or `response.json()` raises. */
  datatype Outcome<+T> = Ok(body: T) | Rejected

  /** The replies the four requests would get. */
  datatype Network = Network(
    fetch: Outcome<string>,
    upload: Outcome<()>,
    annotate: Outcome<()>,
    publish: Outcome<PublishResponse>)

  predicate Succeeds(net: Network, s: Step) {
    match s
    case Fetch => net.fetch.Ok?
    case Upload => net.upload.Ok?
    case Annotate => net.annotate.Ok?
    case Publish => net.publish.Ok?
  }

  datatype Error = MissingApiKey | MissingSheetUrl | InvalidSheetUrl | StepFailed(step: Step)

  /** What one step sent and what it returned or raised. */
  datatype StepResult<+T> = StepResult(sent: seq<Request>, result: Result<T, Error>)

  function Raised<T>(reply: Outcome<T>, s: Step): Result<T, Error> {
    match reply
    case Ok(b) => Success(b)
    case Rejected => Failure(StepFailed(s))
  }

  /** `get_google_sheet_csv`: the link is checked before anything is sent. */
  function GetGoogleSheetCsv(sheetUrl: string, reply: Outcome<string>): (r: StepResult<string>)
    ensures r.result == Failure(InvalidSheetUrl) <==> !PyStr.Occurs(sheetUrl, Marker)
    ensures r.result == Failure(InvalidSheetUrl) ==> r.sent == []
    ensures r.result != Failure(InvalidSheetUrl) ==>
              r.sent == [Get(CsvExportUrl(sheetUrl).value)] && r.result == Raised(reply, Fetch)
  {
    match CsvExportUrl(sheetUrl)
    case Failure(_) => StepResult([], Failure(InvalidSheetUrl))
    case Success(csvUrl) => StepResult([Get(csvUrl)], Raised(reply, Fetch))
  }

  /** `update_chart_data`: one PUT of the CSV text to the chart's data endpoint. */
  function UpdateChartData(apiKey: string, chartId: string, csv: string, reply: Outcome<()>): (r: StepResult<()>)
    ensures |r.sent| == 1 && r.sent[0].Put?
    ensures r.sent[0].url == DataEndpoint(chartId) && r.sent[0].body == csv
    ensures r.sent[0].headers == CsvHeaders(apiKey)
    ensures r.result.Success? <==> reply.Ok?
    ensures r.result.Failure? ==> r.result.error == StepFailed(Upload)
  {
    StepResult([Put(DataEndpoint(chartId), CsvHeaders(apiKey), csv)], Raised(reply, Upload))
  }

  /** `update_chart_metadata`: one PATCH setting the chart's note. */
  function UpdateChartMetadata(apiKey: string, chartId: string, timestamp: string, reply: Outcome<()>): (r: StepResult<()>)
    ensures |r.sent| == 1 && r.sent[0].Patch?
    ensures r.sent[0].notes == Notes(timestamp) && r.sent[0].url == ChartEndpoint(chartId)
    ensures r.sent[0].headers == JsonHeaders(apiKey)
    ensures r.result.Success? <==> reply.Ok?
    ensures r.result.Failure? ==> r.result.error == StepFailed(Annotate)
  {
    StepResult([Patch(ChartEndpoint(chartId), JsonHeaders(apiKey), Notes(timestamp))], Raised(reply, Annotate))
  }

  /** `publish_chart`: one POST; a success without a public URL is still a success. */
  function PublishChart(apiKey: string, chartId: string, reply: Outcome<PublishResponse>): (r: StepResult<string>)
    ensures |r.sent| == 1 && r.sent[0].Post? && r.sent[0].url == PublishEndpoint(chartId)
    ensures r.sent[0].headers == JsonHeaders(apiKey)
    ensures r.result.Success? <==> reply.Ok?
    ensures r.result.Failure? ==> r.result.error == StepFailed(Publish)
    ensures reply.Ok? ==> r.result.value == PublicUrl(reply.body)
  {
    StepResult([Post(PublishEndpoint(chartId), JsonHeaders(apiKey))],
      match reply
      case Ok(response) => Success(PublicUrl(response))
      case Rejected => Failure(StepFailed(Publish)))
  }

  /** How a run ends. */
  datatype Final = Done(publicUrl: string) | Failed(error: Error)

  /** The steps entered, the requests sent, and how the run ended. */
  datatype Run = Run(attempted: seq<Step>, sent: seq<Request>, final: Final)

  /** The four requests of a complete run, in order: the CSV download, the
      upload of `csv`, the note, and the publish. A run that stops early has
      sent a prefix of them. */
  function Requests(apiKey: string, chartId: string, csvUrl: string, csv: string, timestamp: string): (rs: seq<Request>)
    ensures StepsOf(rs) == Pipeline
    ensures rs[0].url == csvUrl && rs[1].body == csv && rs[2].notes == Notes(timestamp)
  {
    [Get(csvUrl),
     Put(DataEndpoint(chartId), CsvHeaders(apiKey), csv),
     Patch(ChartEndpoint(chartId), JsonHeaders(apiKey), Notes(timestamp)),
     Post(PublishEndpoint(chartId), JsonHeaders(apiKey))]
  }

  /** The text the download returned; only read once the download succeeded. */
  function Fetched(net: Network): string {
    if net.fetch.Ok? then net.fetch.body else ""
  }

  /** Lines 118-133 of `main`: the four steps in order, each entered only
      after the one before it returned. */
  function RunSteps(apiKey: string, chartId: string, sheetUrl: string, net: Network, timestamp: string): (run: Run)
    ensures run.attempted <= Pipeline && run.attempted != []
    ensures run.final.Failed? ==> run.final.error == InvalidSheetUrl || run.final.error.StepFailed?
    ensures run.final == Failed(InvalidSheetUrl) <==> !PyStr.Occurs(sheetUrl, Marker)
    ensures run.final == Failed(InvalidSheetUrl) ==> run.attempted == [Fetch] && run.sent == []
    ensures run.final != Failed(InvalidSheetUrl) ==> StepsOf(run.sent) == run.attempted
    ensures forall k :: 0 <= k < |run.attempted| - 1 ==> Succeeds(net, run.attempted[k])
    ensures run.final.Failed? && run.final.error.StepFailed? ==>
              run.final.error.step == run.attempted[|run.attempted| - 1] && !Succeeds(net, run.final.error.step)
    ensures run.final.Done? ==> run.attempted == Pipeline
    ensures run.final.Done? <==> PyStr.Occurs(sheetUrl, Marker) && forall s :: Succeeds(net, s)
  {
    var fetch := GetGoogleSheetCsv(sheetUrl, net.fetch);
    if fetch.result.Failure? then Run([Fetch], fetch.sent, Failed(fetch.result.error))
    else
      var upload := UpdateChartData(apiKey, chartId, fetch.result.value, net.upload);
      var sent := fetch.sent + upload.sent;
      if upload.result.Failure? then Run([Fetch, Upload], sent, Failed(upload.result.error))
      else
        var annotate := UpdateChartMetadata(apiKey, chartId, timestamp, net.annotate);
        var sent := sent + annotate.sent;
        if annotate.result.Failure? then Run([Fetch, Upload, Annotate], sent, Failed(annotate.result.error))
        else
          var publish := PublishChart(apiKey, chartId, net.publish);
          var sent := sent + publish.sent;
          match publish.result
          case Failure(e) => Run(Pipeline, sent, Failed(e))
          case Success(url) => Run(Pipeline, sent, Done(url))
  }

  /** Past the link check, whatever step a run stops at, what it sent is the
      start of the complete run's requests: the upload, once sent, went to
      the data endpoint of `chartId` carrying the fetched text. */
  lemma SentIsPrefixOfRequests(apiKey: string, chartId: string, sheetUrl: string, net: Network, timestamp: string)
    requires PyStr.Occurs(sheetUrl, Marker)
    ensures var run := RunSteps(apiKey, chartId, sheetUrl, net, timestamp);
      run.sent == Requests(apiKey, chartId, CsvExportUrl(sheetUrl).value, Fetched(net), timestamp)[..|run.sent|]
  {
    var rs := Requests(apiKey, chartId, CsvExportUrl(sheetUrl).value, Fetched(net), timestamp);
    var run := RunSteps(apiKey, chartId, sheetUrl, net, timestamp);
    if |run.sent| == 0 {
    } else if |run.sent| == 1 {
      assert run.sent == rs[..1];
    } else if |run.sent| == 2 {
      assert run.sent == rs[..2];
    } else if |run.sent| == 3 {
      assert run.sent == rs[..3];
    } else {
      assert run.sent == rs[..4];
    }
  }

  /** `main`: the API key is checked, then the sheet link, then the four steps
      run in order, stopping at the first raise. */
  function Main(config: Config, net: Network, timestamp: string): (run: Run)
    ensures run.attempted <= Pipeline
    ensures run.attempted == [] <==> !Configured(config)
    ensures run.final == Failed(MissingApiKey) <==> !Truthy(config.apiKey)
    ensures run.final == Failed(MissingSheetUrl) <==> Truthy(config.apiKey) && !Truthy(config.sheetUrl)
    ensures run.final == Failed(InvalidSheetUrl) <==>
              Configured(config) && !PyStr.Occurs(config.sheetUrl.value, Marker)
    ensures run.final == Failed(InvalidSheetUrl) ==> run.attempted == [Fetch]
    ensures StepsOf(run.sent) == if run.final == Failed(InvalidSheetUrl) then [] else run.attempted
    ensures Configured(config) && run.final != Failed(InvalidSheetUrl) ==>
              run.sent == Requests(config.apiKey.value, ChartIdOrDefault(config.chartId),
                                   CsvExportUrl(config.sheetUrl.value).value, Fetched(net), timestamp)[..|run.sent|]
    ensures forall k :: 0 <= k < |run.attempted| - 1 ==> Succeeds(net, run.attempted[k])
    ensures run.final.Failed? && run.final.error.StepFailed? ==>
              run.attempted != [] && run.final.error.step == run.attempted[|run.attempted| - 1]
              && !Succeeds(net, run.final.error.step)
    ensures run.final.Done? ==> run.attempted == Pipeline
    ensures run.final.Done? <==>
              Configured(config) && PyStr.Occurs(config.sheetUrl.value, Marker) && forall s :: Succeeds(net, s)
  {
    if !Truthy(config.apiKey) then Run([], [], Failed(MissingApiKey))
    else if !Truthy(config.sheetUrl) then Run([], [], Failed(MissingSheetUrl))
    else
      var apiKey, chartId, sheetUrl := config.apiKey.value, ChartIdOrDefault(config.chartId), config.sheetUrl.value;
      if PyStr.Contains(sheetUrl, Marker) then
        SentIsPrefixOfRequests(apiKey, chartId, sheetUrl, net, timestamp);
        RunSteps(apiKey, chartId, sheetUrl, net, timestamp)
      else RunSteps(apiKey, chartId, sheetUrl, net, timestamp)
  }

  /** A configuration error or a malformed link ends the run the same way
      whatever the network would have answered: nothing was asked of it. */
  lemma EarlyFailuresIgnoreNetwork(config: Config, n1: Network, n2: Network, t1: string, t2: string)
    requires !Configured(config) || !PyStr.Occurs(config.sheetUrl.value, Marker)
    ensures Main(config, n1, t1) == Main(config, n2, t2)
    ensures Main(config, n1, t1).sent == []
  {
  }

  /** The run stops at the first step that fails: exactly the steps up to it are
      entered, each sent one request, and the error names it. */
  lemma AbortsAtFirstFailure(config: Config, net: Network, timestamp: string, k: nat)
    requires Configured(config) && PyStr.Occurs(config.sheetUrl.value, Marker)
    requires k < |Pipeline|
    requires forall j :: 0 <= j < k ==> Succeeds(net, Pipeline[j])
    requires !Succeeds(net, Pipeline[k])
    ensures Main(config, net, timestamp).attempted == Pipeline[..k + 1]
    ensures |Main(config, net, timestamp).sent| == k + 1
    ensures Main(config, net, timestamp).final == Failed(StepFailed(Pipeline[k]))
  {
  }

  /** A complete run sends the four requests in order, uploads exactly the
      fetched text, and reports the publish response's public URL. */
  lemma CompleteRun(config: Config, net: Network, timestamp: string)
    requires Main(config, net, timestamp).final.Done?
    ensures var apiKey, chartId := config.apiKey.value, ChartIdOrDefault(config.chartId);
      && Main(config, net, timestamp).sent == [
           Get(ExportUrl(SheetId(config.sheetUrl.value).value)),
           Put(DataEndpoint(chartId), CsvHeaders(apiKey), net.fetch.body),
           Patch(ChartEndpoint(chartId), JsonHeaders(apiKey), Notes(timestamp)),
           Post(PublishEndpoint(chartId), JsonHeaders(apiKey))]
      && Main(config, net, timestamp).final.publicUrl == PublicUrl(net.publish.body)
  {
  }

  /** A publish response without `data.publicUrl` still completes the run,
      with the placeholder as its public URL. */
  lemma MissingPublicUrlStillSucceeds(config: Config, net: Network, timestamp: string)
    requires Configured(config) && PyStr.Occurs(config.sheetUrl.value, Marker)
    requires net.fetch.Ok? && net.upload.Ok? && net.annotate.Ok? && net.publish.Ok?
    requires net.publish.body.data.None? || net.publish.body.data.value.publicUrl.None?
    ensures Main(config, net, timestamp).final == Done(UrlPlaceholder)
  {
  }
}
