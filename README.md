# Datawrapper chart auto-updater, modelled in Dafny

`UpdateStateHouseBattleMap.py` refreshes a Datawrapper chart from a Google
Sheet. It reads three environment values (API key, chart id, sheet link),
checks that the key and the link are set and not empty, then runs four
steps in a fixed order: it derives the sheet's CSV export URL from the link and downloads it,
uploads the text to the chart's data endpoint, patches the chart's
`annotate.notes` with "Last updated: <timestamp>", and publishes the chart,
reporting `data.publicUrl` from the reply or the placeholder
`"URL not available"`. Any error ends the run; nothing after it is tried.

The model is pure, as the script's logic is:

- `Wrappers` — `Option` and `Result`.
- `PyStr` — the two Python `str` operations the link logic uses, `sep in s`
  (`Contains`) and `s.split(sep)` (`Split`), specified against an
  index-based notion of an occurrence (`OccursAt`); plus `sep.join(parts)`
  (`Join`), which the script does not call, to show that a split loses
  nothing (`JoinSplit`).
- `SheetUrl` — `SheetId` follows line 23 literally
  (`split('/d/')[1].split('/')[0]`, guarded by `'/d/' in url`);
  `CsvExportUrl` builds the export URL from it. The lemmas prove that this is
  "the text after the first `/d/` up to the next `/` or the end", that the
  id never contains `/` and may be empty, and that an export URL is a fixed
  point of the derivation.
- `Datawrapper` — chart id default, the three endpoints, the headers, the
  metadata note and the `publicUrl` lookup.
- `Updater` — the four steps and `main`. Every HTTP reply (after
  `raise_for_status`) is an input `Outcome` (`Ok(body)` or `Rejected`);
  the timestamp is an input string. A run records the steps entered, the
  requests sent and how it ended (`Done(publicUrl)` or `Failed(error)`).

One point of precision: a link `prefix + "/d/" + id + "/" + rest` is
guaranteed to yield `id` when no `/d/` starts inside `prefix + "/d"`
(`ExtractFromWellFormed`). A prefix that merely lacks `/d/` is not enough:
with a prefix ending in `/d` the first marker moves two characters left, so
`/d/d/x/` yields `d` rather than `x` (`PrefixEndingInSlashD`).
The documented link format is not affected (`DocumentedFormat`).

## Model

| member | source | states |
|---|---|---|
| `PyStr.Contains` | UpdateStateHouseBattleMap.py:22 | `sep in s` holds exactly when `sep` occurs in `s` at some index |
| `PyStr.Split` | UpdateStateHouseBattleMap.py:23 | a split has at least one piece, two or more exactly when the separator occurs, and no piece contains the separator |
| `PyStr.SplitCuts` | UpdateStateHouseBattleMap.py:23 | with no occurrence the whole string is the only piece; otherwise the first piece ends at the first occurrence, and every cut is at the leftmost occurrence after the previous cut (no occurrence starts inside a piece, not even one overlapping the next separator) |
| `PyStr.JoinSplit` | UpdateStateHouseBattleMap.py:23 | joining the pieces of a split with the separator gives back the original string |
| `SheetUrl.SheetId` | UpdateStateHouseBattleMap.py:22-25 | the link is rejected with the format error exactly when it has no `/d/`; an accepted id never contains `/` |
| `SheetUrl.SheetIdIsSegmentAfterFirstMarker` | UpdateStateHouseBattleMap.py:23 | when the first `/d/` starts at index i, the id is the text from i+3 up to the next `/` or the end of the link |
| `SheetUrl.SheetIdCharacterized` | UpdateStateHouseBattleMap.py:22-25 | the id is `id` if and only if `id` is the segment following the first `/d/` |
| `SheetUrl.ExtractFromWellFormed` | UpdateStateHouseBattleMap.py:21-23 | `prefix + "/d/" + id + "/" + rest` yields exactly `id` when `id` has no `/` and no `/d/` starts inside `prefix + "/d"` |
| `SheetUrl.DocumentedFormat` | UpdateStateHouseBattleMap.py:21-28 | a link `https://docs.google.com/spreadsheets/d/ID/edit...` derives the export URL of `ID` |
| `SheetUrl.EmptyIdAccepted` | UpdateStateHouseBattleMap.py:22-23 | `.../d//edit` is accepted with the empty id |
| `SheetUrl.PrefixEndingInSlashD` | UpdateStateHouseBattleMap.py:23 | `/d/d/x/` yields `d`, not `x`: the first marker may overlap the end of the prefix |
| `SheetUrl.ExportUrl` | UpdateStateHouseBattleMap.py:28 | the export URL is the host `https://docs.google.com/spreadsheets`, `/d/`, the id and `/export?format=csv`, so the id sits at a fixed position between them |
| `SheetUrl.CsvExportUrl` | UpdateStateHouseBattleMap.py:22-28 | fails exactly when the link has no `/d/`; otherwise gives the export URL of some id without `/` |
| `SheetUrl.CsvExportUrlOfSheetId` | UpdateStateHouseBattleMap.py:22-28 | the derived URL is the export URL of `id` if and only if `id` is the id extracted from the link |
| `SheetUrl.ExportUrlRoundTrip` | UpdateStateHouseBattleMap.py:23-28 | for an id without `/`, extracting from `https://docs.google.com/spreadsheets/d/<id>/export?format=csv` gives back the id |
| `SheetUrl.CsvExportUrlIdempotent` | UpdateStateHouseBattleMap.py:22-28 | deriving the export URL of a derived export URL returns it unchanged |
| `Datawrapper.ChartIdOrDefault` | UpdateStateHouseBattleMap.py:13 | the chart id is the configured value when set, "kg7Xj" when unset |
| `Datawrapper.PublicUrl` | UpdateStateHouseBattleMap.py:91-92 | `data.publicUrl` is returned as is when present; with `data` or `publicUrl` missing the result is "URL not available" |
| `Datawrapper.PlaceholderIsAmbiguous` | UpdateStateHouseBattleMap.py:92 | any response whose public URL is the placeholder text reads the same as any response without `data` or without `publicUrl` |
| `Datawrapper.ChartEndpoint` | UpdateStateHouseBattleMap.py:56 | the metadata endpoint is `https://api.datawrapper.de/v3/charts/` followed by exactly the chart id |
| `Datawrapper.DataEndpoint` | UpdateStateHouseBattleMap.py:40 | the data endpoint is the chart endpoint followed by `/data` |
| `Datawrapper.PublishEndpoint` | UpdateStateHouseBattleMap.py:82 | the publish endpoint is the chart endpoint followed by `/publish` |
| `Datawrapper.EndpointsDetermineChart` | UpdateStateHouseBattleMap.py:40-82 | the chart, data and publish endpoints each determine the chart id they were built from |
| `Datawrapper.Authorization` | UpdateStateHouseBattleMap.py:42 | the header is "Bearer " followed by exactly the API key, which can be read back after the prefix |
| `Datawrapper.CsvHeaders` | UpdateStateHouseBattleMap.py:41-44 | the upload headers carry the bearer header and content type `text/csv` |
| `Datawrapper.JsonHeaders` | UpdateStateHouseBattleMap.py:57-60 | the metadata and publish headers carry the bearer header and content type `application/json` |
| `Datawrapper.Notes` | UpdateStateHouseBattleMap.py:67 | the note is "Last updated: " followed by exactly the timestamp |
| `Updater.Truthy` | UpdateStateHouseBattleMap.py:109-111 | an environment value fails the check exactly when it is unset or the empty string |
| `Updater.GetGoogleSheetCsv` | UpdateStateHouseBattleMap.py:16-33 | a link without `/d/` raises the format error with no request sent; otherwise one GET of the derived export URL whose reply is the result |
| `Updater.UpdateChartData` | UpdateStateHouseBattleMap.py:36-47 | one PUT to the data endpoint carrying the CSV text unchanged and the CSV headers (bearer key, `text/csv`); succeeds exactly when the reply does, and a rejection names the upload step |
| `Updater.UpdateChartMetadata` | UpdateStateHouseBattleMap.py:52-73 | one PATCH to the chart endpoint with the JSON headers whose note is "Last updated: " and the timestamp; succeeds exactly when the reply does, and a rejection names the annotate step |
| `Updater.PublishChart` | UpdateStateHouseBattleMap.py:78-97 | one POST to the publish endpoint with the JSON headers; succeeds exactly when the reply does, returning the response's public URL or the placeholder, and a rejection names the publish step |
| `Updater.Requests` | UpdateStateHouseBattleMap.py:118-133 | the four requests of a complete run, one per step in the order fetch, upload, annotate, publish, the GET of the export URL, the upload carrying the fetched text and the patch the note |
| `Updater.RunSteps` | UpdateStateHouseBattleMap.py:118-133 | the steps entered are a non-empty prefix of fetch, upload, annotate, publish; a rejected link stops at fetch with nothing sent; otherwise each step sends one request; every step before the last entered succeeded and a step failure names the last entered; the run completes exactly when the link has `/d/` and every reply succeeds |
| `Updater.SentIsPrefixOfRequests` | UpdateStateHouseBattleMap.py:118-133 | past the link check, whatever step the run stops at, the requests sent are a prefix of `Requests`: a failed annotate or publish has already PUT the fetched text to the configured chart's data endpoint with the CSV headers |
| `Updater.Main` | UpdateStateHouseBattleMap.py:100-133 | the API key is checked first, then the sheet link, and either failure enters no step; a rejected link enters only fetch; the steps entered are a prefix of fetch, upload, annotate, publish, each sending one request (none for a rejected link); every step but the last entered succeeded; a step failure names the last step entered; the run completes exactly when the configuration and link are valid and every reply succeeds; once configured and past the link check, the requests sent, with their targets, headers and bodies, are a prefix of `Requests` for the configured key and chart and the fetched text |
| `Updater.EarlyFailuresIgnoreNetwork` | UpdateStateHouseBattleMap.py:108-120 | a configuration error or a link without `/d/` sends nothing, and the run is the same whatever the network and clock would give |
| `Updater.AbortsAtFirstFailure` | UpdateStateHouseBattleMap.py:118-133 | when step k is the first to fail, exactly the first k+1 steps are entered and sent, and the run fails naming step k |
| `Updater.CompleteRun` | UpdateStateHouseBattleMap.py:118-133 | a complete run sends GET export URL, PUT data, PATCH metadata, POST publish in that order, uploads exactly the fetched text and reports the publish response's public URL |
| `Updater.MissingPublicUrlStillSucceeds` | UpdateStateHouseBattleMap.py:91-97 | a successful publish reply without `data.publicUrl` still completes the run, with "URL not available" |

## Left out

- The HTTP calls (`requests.get`, `put`, `patch`, `post`), `raise_for_status` and `response.json()`: network I/O through a library outside the model; each reply is an input `Outcome`, whose `Rejected` stands for any exception the call, `raise_for_status` or `response.json()` raises (a connection error, an error status, a body that is not JSON), and the status code printed after the upload is not modelled. The calls set no timeout, so a step can block forever; an `Outcome` is always `Ok` or `Rejected`, so the model has no run that never ends.
- `datetime.now().strftime(...)`: the wall clock; the timestamp is an opaque input string, and only the note `"Last updated: " + timestamp` is modelled.
- Reading the environment: the three values are `Option<string>` fields of `Config`.
- All console output, including the `GOOGLE_SHEET_URL[:50]` banner and the byte count of the fetched text.
- The CSV text: passed through unchanged, never parsed.
- A publish response whose `data` is present but not an object (line 92 would raise `AttributeError`), and a `publicUrl` that is not a string: the response is modelled as the nested optional record the script expects.
- Exception messages and the Python exception types: errors are the values of `Updater.Error`.
