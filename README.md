# Rice leaf disease analyser: verified model of the result lifecycle

The application lets a user upload a photo of a rice leaf. The server
classifies it as Bacterial Leaf Blight, Brown Spot or Leaf Smut, and the
client shows the result and keeps a browsable history. This project models
the parts of that system that decide what happens to one analysis result.

- **Upload form** (`Upload`, class `UploadPage`): checks the chosen file
  before it is sent. It also covers the preview a FileReader delivers later,
  the three ways a submission can end, and cancelling.
- **Result view** (`Visualization`, class `VisualizationPage`):
  - the three confidence tiers and their colours;
  - the fetch-by-id decision and the render precedence;
  - the humanised step list and the guidance per disease;
  - the Chart.js instance the page owns through a ref.
- **History list** (`History`, class `HistoryPage`):
  - the disease filter and the case-insensitive filename search;
  - row activation by id and the confidence badge;
  - the empty-state text and the load states;
  - which handlers a click reaches.
- **Application shell** (`App`, class `AppState`): the one shared
  `selectedAnalysis` and the route table for `/visualization` and
  `/visualization/:id`.
- **Flask handlers** (`Routes`): `allowed_file`, the early-return chains of
  `upload_image`, `get_analysis` and `download_analysis`, and the
  `get_history` projection.
- **Server helpers** (`Utils`): `format_json_response` and
  `generate_unique_filename`.
- **Support modules**:
  - `Optional`: the `Option` type;
  - `Text`: ASCII lower-casing, last-index search, substring test, decimal
    text and its parser;
  - `Json`: response values, with `Get`/`Put` on ordered fields modelling a
    Python dict;
  - `Api`: the analysis object and the reply shape as the client sees them.

State that the source updates in place is a class. Its methods state the
whole new state. Each asynchronous reply is a separate completion method,
such as `FetchCompleted`, `LoadCompleted` or `SubmitCompleted`. A ghost
in-flight counter records that a request is outstanding. The code carries
no request token, so a reply is never matched against the request that
caused it. In the model, as in the code, a reply that settles late
overwrites what an earlier one set. A successful reply always gives `data`
a new value as React compares values (`Object.is`): a parsed reply is a
fresh object, and a page mounted without an analysis starts from
`undefined`, not `null`. Only `null` over `null` is no change. On a change
the model runs the effects React re-runs: the chart cleanup, the fetch
effect, and the chart effect. So a successful reply with no data, on a page
with an id, requests that id again, unless `data` was already `null`.

The callbacks a page receives are returned as values to the shell, which
applies them. These are `onAnalysisComplete`, `onViewAnalysis` and
`navigate`.

The following are parameters of the model:

- the clock and the UUID;
- what `secure_filename` makes of a name;
- whether `cv2.imread` can read a stored image, and its base64 text;
- the outcome once the checks pass: an exception while naming or saving
  the file, an unreadable image, a later exception, or the classifier's
  result;
- Python's iteration order of the set `ALLOWED_EXTENSIONS`, which depends on
  the process's hash seed.

Some behaviours of the code are worth knowing:

- `handleSubmit` and the fetch effects do not discard stale replies.
- `handleCancel` does not abort a running FileReader, so a late `onload` can
  bring a preview back. This is `Upload.UploadPage.ReaderLoaded`.
- In the history table, the View button's click also bubbles to the row.
  Activation therefore runs twice (`History.Dispatch`).
- The upload reply names its steps `processing_steps`. `get_analysis` names
  them `processing_details` (`Routes.StepsKeyDiffers`). The client reads
  only `processing_steps`, so a result opened by id lists no steps.
- A change of route id while data is held does not refetch
  (`Visualization.VisualizationPage.RouteChanged`).

## Model

| member | source | states |
|---|---|---|
| Text.Lower | HistoryPage.js:44 | lower-casing keeps the length and maps every character by the ASCII case map, leaving no upper-case letter |
| Text.LowerIdempotent | HistoryPage.js:44 | lower-casing twice is lower-casing once |
| Text.LowerOfSameIgnoringCase | HistoryPage.js:44 | two strings that differ only in letter case lower-case to the same string |
| Text.RFind | routes.py:27 | the index of the last occurrence of a character, -1 exactly when it does not occur, and no occurrence after it |
| Text.Contains | HistoryPage.js:44 | `includes`: true exactly when the needle occurs at some position of the text |
| Text.DecimalString | routes.py:172 | the decimal text of a number is non-empty, all digits and has no leading zero |
| Text.ParseDecimal | routes.py:157 | the `int` URL converter accepts exactly the non-empty all-digit segments |
| Text.ParseDecimalString | routes.py:157 | an id written in decimal reads back through the converter as the same id |
| Json.Get | utils.py:100-106 | a lookup finds nothing exactly when the key is absent, and what it finds is stored under that key |
| Json.Put | utils.py:105-106 | an assignment stores the new pair and grows the dict by at most one entry |
| Json.PutGet | utils.py:105-106 | after an assignment the key reads back the new value and every other key is unchanged |
| Json.PutKeys | utils.py:105-106 | an assignment keeps the key order; a new key is appended at the end |
| Utils.Envelope | utils.py:88-108 | a response always has `status` then `data`, and has `message` last exactly when the message is truthy (neither None nor empty) |
| Utils.FormatJsonResponse | utils.py:88-108 | building the dict and inserting `message` when truthy yields exactly that envelope |
| Utils.SplitExt | utils.py:20 | `os.path.splitext`: root and extension rejoin to the path; the extension is empty or a dot with no further dot or slash |
| Utils.ShortId | utils.py:24 | the id component is a prefix of the UUID text, eight characters long when the UUID has eight |
| Utils.GenerateUniqueFilename | utils.py:9-29 | the name is the timestamp, `_`, the first eight UUID characters and the original extension, in that layout |
| Utils.UniqueFilenameKeepsExtension | utils.py:20-27 | the generated name has the same extension as the original name |
| Routes.AllowedFile | routes.py:25-27 | accepted exactly when there is a dot and the lower-cased text after the last dot is png, jpg or jpeg |
| Routes.AllowedFileUpperCase | routes.py:27 | `a.PNG` is accepted: the extension is compared lower-cased |
| Routes.AllowedFileLastDot | routes.py:27 | `x.png.exe` is rejected: only the text after the last dot counts |
| Routes.AllowedFileNeedsDot | routes.py:27 | `png` is rejected: a name without a dot has no extension |
| Routes.Error | routes.py:54-58 | an error reply is the envelope with status "error", data null, the message and the code |
| Routes.UploadResult | routes.py:137-145 | the upload result has the seven fields in order, its steps under `processing_steps` |
| Routes.UploadImage | routes.py:38-155 | the checks run in order: no file part, empty name, disallowed type, each a 400 with status "error" and data null, before anything is saved; past them an exception while naming or saving gives a 500 and nothing saved; otherwise the file is saved under the generated name, and the reply is a 400 for an unreadable image, a 500 with the error text for a later exception, or the result with 200 |
| Routes.NotFoundMessageNamesId | routes.py:168-173 | the not-found message names the id: different ids give different messages |
| Routes.AnalysisDetail | routes.py:192-201 | the by-id result has eight fields in order, its steps under `processing_details` |
| Routes.StepsKeyDiffers | routes.py:137-201 | the upload result carries `processing_steps` and the by-id result `processing_details` instead |
| Routes.GetAnalysis | routes.py:158-203 | a missing id gives 404 with the id in the message; an unreadable image gives 500; otherwise the detail with 200 |
| Routes.SummaryOf | routes.py:226-232 | a history entry has exactly id, filename, disease_class, confidence and created_at, in that order |
| Routes.GetHistory | routes.py:214-234 | one summary per row, in query order, wrapped in a success envelope with 200 |
| Routes.Report | routes.py:267-275 | the JSON report has its seven fields in order |
| Routes.ReportNameNamesId | routes.py:278 | the report's download name identifies the analysis |
| Routes.DownloadAnalysis | routes.py:245-297 | a missing id gives 404; the format defaults to json, which sends the report as an attachment; any other format gives 400 naming it |
| Api.MessageOr | UploadPage.js:105 | `message \|\| fallback`: never empty; the server's message when it has one, the fallback otherwise |
| Upload.Validate | UploadPage.js:24-35 | accepted exactly for the three image types at most 5 MiB; a wrong type is reported as such whatever the size; size is only rejected for a valid type |
| Upload.ValidateTotal | UploadPage.js:25-32 | every file gets one of the three verdicts, acceptance being the literal whitelist and 5242880 bytes |
| Upload.UploadPage.SubmitDisabled | UploadPage.js:197 | the button is disabled exactly when there is no file or an upload is running |
| Upload.UploadPage.constructor | UploadPage.js:6-10 | the form starts with no file, preview or error, not dragging and not loading |
| Upload.UploadPage.ProcessFile | UploadPage.js:21-46 | no file: nothing changes; a rejected file sets its message and keeps file and preview; an accepted file clears the error, becomes the file and starts a reader, leaving the preview for later |
| Upload.UploadPage.HandleFileChange | UploadPage.js:15-18 | processes the first picked file: the file, the error and the reads started are those of `processFile` on it, and nothing else changes |
| Upload.UploadPage.HandleDragEnter | UploadPage.js:54-58 | sets dragging and nothing else |
| Upload.UploadPage.HandleDragLeave | UploadPage.js:60-64 | clears dragging and nothing else |
| Upload.UploadPage.HandleDrop | UploadPage.js:71-78 | clears dragging and processes the first dropped file, with the same file, error and started reads as `processFile` on it |
| Upload.UploadPage.ReaderLoaded | UploadPage.js:41-44 | a finished reader sets the preview, whatever file is selected now |
| Upload.UploadPage.Submit | UploadPage.js:81-91 | with no file it sets the no-file message, sends nothing and leaves loading alone; otherwise it starts loading, clears the error and sends the file; an enabled button (UploadPage.js:197) always has a file to send, and a sent file leaves the button disabled |
| Upload.UploadPage.SubmitCompleted | UploadPage.js:92-112 | success hands the data over and goes to `/visualization`; another status shows the server's message or the fallback; a rejection shows the generic message; file and preview stay and loading ends in every case, so the button is enabled again exactly when a file is held |
| Upload.UploadPage.Cancel | UploadPage.js:116-120 | clears file, preview and error and touches nothing else |
| Visualization.ConfidenceClass | VisualizationPage.js:112-116 | high exactly from 0.7, medium exactly from 0.4 below 0.7, low below 0.4 |
| Visualization.ConfidenceColor | VisualizationPage.js:105-109 | red, amber and green exactly on the same boundaries |
| Visualization.ColorMatchesClass | VisualizationPage.js:105-116 | the chart colour and the badge always name the same tier |
| Visualization.ClassMonotone | VisualizationPage.js:112-116 | a higher confidence never gives a lower tier |
| Visualization.Humanize | VisualizationPage.js:226 | every underscore becomes a space, every other character stays, no underscore is left |
| Visualization.StepList | VisualizationPage.js:224-228 | the steps in entry order, each key humanised and its description kept |
| Visualization.StepItems | VisualizationPage.js:224-228 | an absent step list renders no items; otherwise one item per step, in order, each key humanised |
| Visualization.GuidanceFor | VisualizationPage.js:266-335 | guidance exists exactly for the three disease names, matched exactly, and it is that disease's guidance |
| Visualization.Render | VisualizationPage.js:135-339 | loading first, then the error, then missing data, and only then the result page with its tier, images, steps and guidance; only the result page has the canvas |
| Visualization.NeedsFetch | VisualizationPage.js:17 | a fetch is needed only with no data and an id: an injected analysis or a missing id never fetches |
| Visualization.ChartFor | VisualizationPage.js:49-60 | the bar's colour names the analysis' tier |
| Visualization.VisualizationPage.constructor | VisualizationPage.js:7-13 | data starts as the injected analysis, not loading, no error, no chart |
| Visualization.VisualizationPage.AtMostOneChart | VisualizationPage.js:41-102 | at most one chart instance is alive, and it is the one the ref holds |
| Visualization.VisualizationPage.FetchEffect | VisualizationPage.js:16-21 | with no data and an id it starts loading, clears the error and requests that id; otherwise nothing happens |
| Visualization.VisualizationPage.DestroyCurrent | VisualizationPage.js:44-46 | destroying the ref's chart leaves none alive, and repeating it is harmless |
| Visualization.VisualizationPage.ChartEffect | VisualizationPage.js:41-94 | with data and the canvas, the previous chart is destroyed and exactly one new chart for the data is alive; otherwise nothing changes |
| Visualization.VisualizationPage.ChartCleanup | VisualizationPage.js:97-101 | cleanup leaves no chart alive |
| Visualization.VisualizationPage.Mount | VisualizationPage.js:16-102 | a page without data but with an id fetches, with loading set, the error cleared and one request in flight, and shows the spinner; otherwise nothing is requested, and an injected analysis shown on the canvas is charted |
| Visualization.VisualizationPage.FetchCompleted | VisualizationPage.js:16-102 | success stores the data; another status shows the message or 'Failed to load analysis'; a rejection shows 'Failed to load analysis data'; every success is a change for React except `null` over `null`; on a change the fetch effect runs again, requesting the id exactly when the new data is empty and there is an id, and otherwise loading ends; new data shown on the canvas gets exactly one fresh chart, even when equal to the old |
| Visualization.VisualizationPage.RouteChanged | VisualizationPage.js:16-38 | a changed id is fetched only when no data is held, with the fetch effect's loading, error and request count; the charts stay as they are |
| Visualization.VisualizationPage.Unmount | VisualizationPage.js:97-101 | unmounting leaves no chart alive |
| Visualization.VisualizationPage.Download | VisualizationPage.js:119-128 | without data nothing is requested; otherwise the id is downloaded, a failure only alerts, and the page state is untouched |
| Visualization.ErrorViewHasNoChart | VisualizationPage.js:135-180 | loading, an error or missing data never shows the canvas or the result |
| History.Matches | HistoryPage.js:37-49 | an item passes exactly when the disease filter is "all" or equal, and the search is empty or found in the lower-cased filename |
| History.Filter | HistoryPage.js:37-49 | the filtered list holds every passing item as often as the history does and no other item, and is no longer than the history |
| History.FilterIsSubsequence | HistoryPage.js:37-49 | filtering keeps the history's order |
| History.FilterAllIsIdentity | HistoryPage.js:37-49 | with "all" and an empty search the list is the whole history |
| History.SearchIgnoresCase | HistoryPage.js:44 | any re-casing of the search term gives the same list |
| History.FindById | HistoryPage.js:54 | finds nothing exactly when no entry has the id, and otherwise the first entry that has it |
| History.BadgeClass | HistoryPage.js:86-90 | bg-danger from 0.7, bg-warning text-dark from 0.4, bg-success below, each exactly |
| History.BadgeAgreesWithResultTier | HistoryPage.js:86-90 | the history badge and the result view's tier agree on every confidence |
| History.RowsOf | HistoryPage.js:197-215 | one table row per filtered item, in order, each with its badge |
| History.Render | HistoryPage.js:92-239 | spinner while loading, then the error alone, then the listing: the table exactly when something passes, "haven't analyzed" exactly for an empty history and "No results match" otherwise, and the shown and total counts |
| History.UnfilteredNonEmptyShowsTable | HistoryPage.js:166-185 | a non-empty history with no filter shows the table |
| History.Dispatch | HistoryPage.js:62-63 | a download click only starts the download; a row click activates that row's id once, and a View click activates it twice (HistoryPage.js:201, 219) |
| History.HistoryPage.constructor | HistoryPage.js:6-10 | the page starts loading, with no history, no error, an empty search and filter "all" |
| History.HistoryPage.LoadEffect | HistoryPage.js:14-18 | mounting starts loading, clears the error and requests the history |
| History.HistoryPage.LoadCompleted | HistoryPage.js:18-33 | success replaces the history; another status shows the message or 'Failed to load history'; a rejection shows 'Failed to load analysis history'; loading ends |
| History.HistoryPage.SetSearchTerm | HistoryPage.js:141 | the search input sets the term and nothing else |
| History.HistoryPage.SetFilterType | HistoryPage.js:155 | the disease select sets the filter and nothing else |
| History.HistoryPage.ViewAnalysis | HistoryPage.js:52-58 | with an entry of that id, the first one (the one `FindById` finds) is handed over and the route is `/visualization/<id>`; otherwise nothing happens |
| History.HistoryPage.Download | HistoryPage.js:62-71 | the id is requested and a failure only raises the alert |
| App.IdSegment | App.js:36-39 | the `:id` parameter is the non-empty last segment after `/visualization/` |
| App.Resolve | App.js:25-41 | `/visualization` shows the selected analysis, or redirects to `/upload` replacing the entry when there is none; `/visualization/:id` shows the page with no injected analysis |
| App.HistoryLinkReachesAnalysis | App.js:36-39 | a history link opens the by-id page, which fetches, and the server reads back the same id |
| App.AppState.constructor | App.js:12 | `selectedAnalysis` starts empty |
| App.AppState.HandleViewAnalysis | App.js:15-17 | the setter overwrites the selection unconditionally |
| App.AppState.UploadSettled | App.js:27 | a successful upload writes its data through the setter and goes to `/visualization`, where the shell shows that analysis, or redirects to `/upload` for a reply with no data (App.js:28-35); any other outcome leaves the selection; the page ends as `SubmitCompleted` leaves it, including the message shown on failure |
| App.AppState.HistoryActivated | App.js:40 | the first history entry with the id is written through the same setter and its by-id route is returned; an unknown id changes nothing |
| App.OpenDirectLink | App.js:36-39 | opening a by-id link mounts a page that requests the id; a reply with data shows the result with exactly one chart of it; a success with null data requests the id again; an application error or a rejected request shows an error and no chart |
| App.ByIdPageIgnoresSelection | App.js:36-39 | the by-id route never injects the selection, so the page fetches |

## Left out

- Network, file system and database I/O:
  - `file.save`, `cv2.imread`/`imwrite`, `db.session` and `send_file`;
  - the temporary report file, and the axios calls.

  Their outcomes are parameters: the `Pipeline` outcome, the `images` map,
  the `db` map and the `Completion` values.
- The image processing pipeline and the classifier (image_processing.py,
  ml_model.py). These are float image arithmetic and library calls. The
  model takes their result as the `Analysed` outcome.
- `secure_filename` from werkzeug. This is a foreign function, so
  `UploadImage` receives its result as `secureName`.
- The `except Exception` handlers of `get_analysis`, `get_history` and
  `download_analysis`. Any exception reaches them and gives the 500 reply,
  which is not modelled. This includes a database failure, `json.loads` of
  malformed stored text (routes.py:200, 273-274) and a null `created_at`
  (models.py:14, routes.py:197, 231, 272). The model takes `created_at` as
  present and the stored details as decoded. The upload handler's `except`
  is modelled as `StoreFailed` or `Raised`, depending on whether the
  exception comes before or after the file is saved.
- The `/api/health` route and the static-file route in app.py. Neither is
  part of the result lifecycle.
- `Routes.UploadImage` and `Routes.GetAnalysis` do not model the base64 text
  of the images. That text is taken from parameters.
- Text.Lower: JavaScript `toLowerCase` and Python `lower` fold Unicode, but
  the model folds only ASCII letters.
- `toFixed` percentages and `toLocaleDateString` in `formatDate`. These are
  locale and floating-point formatting.
- React scheduling:
  - the model assumes batched updates, so the chart effect sees the canvas
    exactly when the result page is rendered;
  - `setLoading(false)` after navigation, on an unmounted page, is not
    modelled;
  - `<React.StrictMode>` (index.js:8) runs every mount effect, its cleanup
    and the effect again in development, so two fetches or loads are in
    flight; the model mounts each page once.
- Key order of JSON bodies: `jsonify` sorts keys by default, and app.py does
  not turn this off. The key orders stated for `Envelope`, `UploadResult`,
  `AnalysisDetail` and `SummaryOf` are those of the dict handed to
  `jsonify`, not those of the body the client reads. `Report` is written by
  `json.dump` without sorting, so its order is the one the file has.
- `Object.entries` orders integer-like keys first. The model keeps the
  order of the steps in the server's dict. Because `jsonify` sorts keys,
  this is the order the client reads only when the step keys are already
  in sorted order.
- App.Resolve matches paths exactly and case-sensitively. React Router also
  ignores case and a trailing slash.
- HomePage, Navbar, Footer and index.js. These are static page chrome.
- Browsing (`handleBrowseClick`) and `handleDragOver`. They only forward to
  the browser.
