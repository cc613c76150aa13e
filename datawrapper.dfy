/** The charting service's side of the script: chart endpoints, request headers,
    the metadata note and the public URL read from a publish response
    (UpdateStateHouseBattleMap.py, lines 13 and 36-97). */
module Datawrapper {
  import opened Wrappers

  const ApiCharts: string := "https://api.datawrapper.de/v3/charts/"

  /** The chart updated when no chart id is configured. */
  const DefaultChartId: string := "kg7Xj"

  /** What `publish_chart` returns when the response carries no public URL. */
  const UrlPlaceholder: string := "URL not available"

  const BearerPrefix: string := "Bearer "

  const NotesPrefix: string := "Last updated: "

  /** `os.environ.get('DATAWRAPPER_CHART_ID', 'kg7Xj')`: the default applies
      only when the variable is unset, so a variable set to "" gives "". */
  function ChartIdOrDefault(configured: Option<string>): (chartId: string)
    ensures configured.Some? ==> chartId == configured.value
    ensures configured.None? ==> chartId == DefaultChartId
  {
    match configured
    case Some(id) => id
    case None => DefaultChartId
  }

  /** The chart resource, the target of the metadata update. */
  function ChartEndpoint(chartId: string): (url: string)
    ensures |url| == |ApiCharts| + |chartId|
    ensures url[..|ApiCharts|] == ApiCharts && url[|ApiCharts|..] == chartId
  {
    ApiCharts + chartId
  }

  /** The chart's dataset, the target of the data upload. */
  function DataEndpoint(chartId: string): (url: string)
    ensures ChartEndpoint(chartId) <= url && url[|ChartEndpoint(chartId)|..] == "/data"
  {
    ChartEndpoint(chartId) + "/data"
  }

  /** The chart's publish action. */
  function PublishEndpoint(chartId: string): (url: string)
    ensures ChartEndpoint(chartId) <= url && url[|ChartEndpoint(chartId)|..] == "/publish"
  {
    ChartEndpoint(chartId) + "/publish"
  }

  /** The `Authorization` header value; the API key is read back after the prefix. */
  function Authorization(apiKey: string): (header: string)
    ensures |header| == |BearerPrefix| + |apiKey|
    ensures header[..|BearerPrefix|] == BearerPrefix
    ensures header[|BearerPrefix|..] == apiKey
  {
    BearerPrefix + apiKey
  }

  datatype Headers = Headers(authorization: string, contentType: string)

  /** Headers of the data upload. */
  function CsvHeaders(apiKey: string): (h: Headers)
    ensures h.authorization == Authorization(apiKey) && h.contentType == "text/csv"
  {
    Headers(Authorization(apiKey), "text/csv")
  }

  /** Headers of the metadata update and of the publish request. */
  function JsonHeaders(apiKey: string): (h: Headers)
    ensures h.authorization == Authorization(apiKey) && h.contentType == "application/json"
  {
    Headers(Authorization(apiKey), "application/json")
  }

  /** The `metadata.annotate.notes` value sent with the metadata update;
      the timestamp is the formatted wall-clock time, taken as given. */
  function Notes(timestamp: string): (notes: string)
    ensures |notes| == |NotesPrefix| + |timestamp|
    ensures notes[..|NotesPrefix|] == NotesPrefix && notes[|NotesPrefix|..] == timestamp
  {
    NotesPrefix + timestamp
  }

  /** The part of a publish response the script reads: `data.publicUrl`,
      each level possibly missing. */
  datatype PublishData = PublishData(publicUrl: Option<string>)
  datatype PublishResponse = PublishResponse(data: Option<PublishData>)

  /** `result.get('data', {}).get('publicUrl', 'URL not available')`. */
  function PublicUrl(response: PublishResponse): (url: string)
    ensures (response.data.Some? && response.data.value.publicUrl.Some?) ==>
              url == response.data.value.publicUrl.value
    ensures (response.data.None? || response.data.value.publicUrl.None?) ==>
              url == UrlPlaceholder
  {
    var data := match response.data case Some(d) => d case None => PublishData(None);
    match data.publicUrl
    case Some(u) => u
    case None => UrlPlaceholder
  }

  /** Each endpoint names exactly one chart: the chart id is determined by it. */
  lemma EndpointsDetermineChart(a: string, b: string)
    ensures ChartEndpoint(a) == ChartEndpoint(b) ==> a == b
    ensures DataEndpoint(a) == DataEndpoint(b) ==> a == b
    ensures PublishEndpoint(a) == PublishEndpoint(b) ==> a == b
  {
  }

  /** A response whose public URL is the placeholder text cannot be told
      apart from one without a public URL. */
  lemma PlaceholderIsAmbiguous(advertised: PublishResponse, missing: PublishResponse)
    requires advertised.data.Some? && advertised.data.value.publicUrl == Some(UrlPlaceholder)
    requires missing.data.None? || missing.data.value.publicUrl.None?
    ensures PublicUrl(advertised) == PublicUrl(missing)
  {
  }
}
