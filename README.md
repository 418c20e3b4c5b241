# flask-csv-insights, modelled in Dafny

A Dafny model of the decision logic of flask-csv-insights, a Flask application
where users upload a CSV file, the server analyses it with pandas and renders up
to three charts, and stores the dataset, the analysis and the charts.

The model covers three parts:

- `run_basic_eda` (app/analysis.py). Columns whose lower-cased name contains
  "date" are coerced to datetimes in place on the caller's frame (the `Frame`
  class in `dataframe.dfy`). The summary is then built: shape, dtypes, missing
  counts and the columns `describe()` reports on. Finally the chart list is built
  by successive appends (`BuildCharts`): a correlation heatmap, the top values of
  the first categorical column, and rows per day of the first datetime column.
  Cell parsing by `pd.to_datetime`, which pandas settles per column, and chart
  rendering are parameters of the model (`Converter`, `Renderer`). Chart pictures are opaque PNG bytes.
- `upload_post` and `analysis_detail` (app/main.py). This covers validation, the
  `read_csv` fallback ladder, and all-or-nothing persistence through an ORM
  session (the `Session` class in `store.dfy`, with add, commit and rollback). The
  detail view turns the stored charts into `data:image/png;base64,` URLs. Base64
  follows section 4 of RFC 4648 and is proved against a decoder.
- app/config.py: the upload size limit, and the database URL of each
  configuration, including the `postgres://` to `postgresql://` rewrite.

Files: `wrappers.dfy` (Option, Result), `text.dfy` (ASCII lower-casing, prefix,
suffix, substring), `config.dfy`, `base64.dfy`, `dataframe.dfy`, `analysis.dfy`,
`store.dfy`, `upload.dfy`.

Behaviour of the code that the model reproduces:

- Only a `UnicodeDecodeError` sends the upload to the strict latin-1 retry; every
  other parse error goes straight to the permissive parser. When the latin-1
  retry fails, the permissive parser is not tried: the exception reaches the
  outer handler (`Upload.ReadCsv`, `Upload.Latin1FailureEscapes`).
- A table with no numeric column makes `describe()` raise "Cannot describe a
  DataFrame without columns", so the analysis fails and the upload is rolled
  back (`Analysis.Summarize`, `Analysis.TextOnlyFails`).
- For the table `id,amount` / `1,10.5` / `2,` / `3,7` the code draws exactly
  one chart, a correlation heatmap (`Analysis.IdAmountCharts`).
- A chart that fails to render is not caught: the analysis fails and the upload
  is rolled back (`Analysis.RenderCharts`, `Analysis.RenderFailureIsFirst`).
- Date coercion changes the caller's frame in place
  (`DataFrame.Frame.CoerceDateColumns`).

## Model

| member | source | states |
|---|---|---|
| Config.MaxContentLength | app/config.py:7 | The upload limit is 16777216 bytes (16 MiB). |
| Config.DevelopmentDatabaseUri | app/config.py:10 | DATABASE_URL is used verbatim, with no rewrite; when it is unset the URL is `sqlite:///dev.db`. |
| Config.ProductionDatabaseUri | app/config.py:14-17 | An unset or empty DATABASE_URL gives `sqlite:///prod.db`. A `postgres://` URL becomes one starting with `postgresql://` whose remainder equals the original remainder character for character. Any other non-empty URL is unchanged. |
| Config.PostgresqlIsNotLegacy | app/config.py:15 | A URL starting with `postgresql://` does not start with `postgres://`. |
| Config.ProductionUriNeverLegacy | app/config.py:14-17 | The production URL never starts with `postgres://` and is never empty. |
| Config.ProductionUriIdempotent | app/config.py:14-17 | Feeding the production URL back as DATABASE_URL gives the same URL. |
| Config.PostgresqlUriUnchanged | app/config.py:15-17 | A URL already starting with `postgresql://` is left as it is. |
| Base64.Index | app/main.py:104 | A character's alphabet index, when present, maps back to that character. |
| Base64.Encode | app/main.py:104 | The encoding has 4 characters per started 3-byte group, drawn from the alphabet of section 4 of RFC 4648 or the pad `=`. |
| Base64.DecodeEncode | app/main.py:104 | Decoding the encoding of any byte string gives back that byte string. |
| Base64.EncodeInjective | app/main.py:104 | Different images give different encodings. |
| DataFrame.ToDatetime | app/analysis.py:19-22 | Conversion fails exactly when some present cell makes the parser raise. Otherwise each cell is converted on its own: missing stays missing, unparseable becomes missing, and a parsed value becomes its instant. |
| DataFrame.CoerceColumn | app/analysis.py:17-22 | Name and length are kept. A column whose lower-cased name lacks "date" is unchanged, and so is one whose conversion raised. Otherwise, using the parser chosen for that column, the column becomes datetime, a cell is present iff it was present and parsed, and it then holds its instant. |
| DataFrame.CoerceDates | app/analysis.py:17-22 | Coercion never fails, keeps the row and column counts, and treats each column on its own. |
| DataFrame.MissingCount | app/analysis.py:27 | A column has no more missing cells than cells. |
| DataFrame.ToDatetimeMissing | app/analysis.py:20 | After conversion, the missing cells are the previously missing ones plus the unparseable ones. |
| DataFrame.Frame.CoerceDateColumns | app/analysis.py:17-22 | The loop leaves the caller's frame equal to the coerced table. |
| Analysis.IndicesOfKind | app/analysis.py:34 | The selected columns are of the requested kind, in increasing column order. |
| Analysis.IndicesComplete | app/analysis.py:34 | Every column of the requested kind is selected. |
| Analysis.FirstIndexOfKind | app/analysis.py:44 | The first selected index is the first column of that kind. |
| Analysis.NoIndicesOfKind | app/analysis.py:43 | An empty selection means no column has that kind. |
| Analysis.NameSetSize | app/analysis.py:26 | With unique names there are as many names as columns. |
| Analysis.Dtypes | app/analysis.py:26 | "dtypes" has exactly one key per column, mapped to that column's kind. |
| Analysis.MissingCounts | app/analysis.py:27 | "missing" has exactly one key per column, mapped to that column's number of missing cells. |
| Analysis.Described | app/analysis.py:28 | The keys of "numeric_summary" are exactly the numeric columns. |
| Analysis.Summarize | app/analysis.py:24-29 | The summary fails, with pandas' "Cannot describe a DataFrame without columns", iff no column is numeric. Otherwise it records the row count, the column count, dtypes, missing counts and the described columns. |
| Analysis.PlanKinds | app/analysis.py:33-57 | Each rule contributes at most one chart, of its own kind. |
| Analysis.ChartCount | app/analysis.py:31-57 | At most three charts are planned. |
| Analysis.RanksIncrease | app/analysis.py:31-57 | At most one chart of each kind, concatenated in kind order, gives at most three charts in strictly increasing order. |
| Analysis.ChartOrder | app/analysis.py:31-59 | The charts always come as heatmap, then top values, then rows per day. |
| Analysis.PlanSources | app/analysis.py:31-57 | A planned chart of a given kind comes from that kind's rule. |
| Analysis.HeatmapRule | app/analysis.py:34-39 | A heatmap is planned iff there are at least two numeric columns and at least one row. It covers the numeric columns in order and is titled "Correlation Heatmap". |
| Analysis.TopValuesRule | app/analysis.py:42-48 | A top-values chart is planned iff there is a categorical column and at least one row. It shows the first categorical column, has at most 10 bars and is titled "Top {c0} values". |
| Analysis.RowsPerDayRule | app/analysis.py:51-57 | A rows-per-day chart is planned iff some column is datetime. It shows the first one and is titled "Rows per day ({d0})". |
| Analysis.RenderCharts | app/analysis.py:31-57 | A successful list has one chart per plan. |
| Analysis.RenderedChartsMatchPlans | app/analysis.py:31-57 | On success, chart k carries plan k's title and the bytes its rendering returned. |
| Analysis.RenderFailureIsFirst | app/analysis.py:31-57 | A failure carries the error of the first plan whose rendering raised; every earlier plan rendered. |
| Analysis.AllRenderedFromSuccess | app/analysis.py:31-57 | A successful list means every rendering returned bytes. |
| Analysis.AllRenderedSucceeds | app/analysis.py:31-57 | If every rendering returns bytes, the list is built. |
| Analysis.RenderStep | app/analysis.py:31-57 | Rendering one more plan appends its chart after a successful prefix, or ends with its error. |
| Analysis.RenderFailureSticks | app/analysis.py:31-57 | Once a rendering has failed, more charts do not change the outcome. |
| Analysis.FailureEndsCharts | app/analysis.py:31-57 | A failure in a prefix of the plans is the outcome for the whole plan list. |
| Analysis.Analyze | app/analysis.py:24-59 | Without a summary (no numeric column) the analysis raises the describe error. On success its summary is `Summarize`'s and its charts are the rendering of the chart plan. |
| Analysis.AnalyzeSucceeds | app/analysis.py:24-59 | The analysis succeeds iff the summary succeeds and every planned chart renders. When the summary succeeds and a rendering raises, that rendering error is the one the analysis raises. |
| Analysis.AnalyzedCharts | app/analysis.py:24-59 | A table with no numeric column makes the analysis fail with the describe error. A successful analysis has one chart per plan, at most three, each with its plan's title. |
| Analysis.AppendChart | app/analysis.py:36-39 | Drawing one chart and appending it extends the rendered list by that plan, or ends it with the rendering error. |
| Analysis.HeatmapStep | app/analysis.py:33-39 | The first block yields the rendering of the heatmap plan. |
| Analysis.TopValuesStep | app/analysis.py:41-48 | The second block extends the list with the rendering of the top-values plan. |
| Analysis.RowsPerDayStep | app/analysis.py:50-57 | The third block extends the list with the rendering of the rows-per-day plan. |
| Analysis.BuildCharts | app/analysis.py:31-57 | The appends build exactly the rendered plan list. |
| Analysis.RunBasicEda | app/analysis.py:15-59 | The caller's frame is coerced in place, and the result is the analysis of the coerced table. |
| Analysis.MissingAfterCoercion | app/analysis.py:17-27 | The missing count reported for a converted date column includes its unparseable values. |
| Analysis.IdAmountSummary | app/analysis.py:24-29 | For the `id,amount` example: 3 rows, 2 columns, no missing id, one missing amount, both columns described. |
| Analysis.IdAmountCharts | app/analysis.py:34-57 | For the `id,amount` example, the only chart is a heatmap over `id` and `amount`. |
| Analysis.TextOnlyFails | app/analysis.py:28 | A table with only a text column makes the analysis fail with the describe error. |
| Store.WithDataset | app/main.py:46-53 | Adding a dataset appends one row with the next id, the user and the bytes, and keeps the database consistent. |
| Store.WithAnalysis | app/main.py:78-80 | Adding an analysis appends one row with the next id, linked to its dataset. |
| Store.ChartRows | app/main.py:82-83 | One chart row per chart, in order, with consecutive ids, the chart's title and image, and the analysis id. |
| Store.WithCharts | app/main.py:82-83 | Adding charts appends exactly their rows and keeps the database consistent. |
| Store.WithChartsStep | app/main.py:82-83 | Adding charts one at a time gives the same rows as adding them all at once. |
| Store.Session.AddDataset | app/main.py:52 | The pending state gains the dataset, and its id is returned. |
| Store.Session.AddAnalysis | app/main.py:79-80 | The pending state gains the analysis, and its id is returned (the flush). |
| Store.Session.AddChart | app/main.py:83 | The pending state gains one chart row. |
| Store.Session.Commit | app/main.py:53 | Without a fault, the pending state becomes committed. With a fault, the committed state is unchanged and the fault is returned. |
| Store.Session.Rollback | app/main.py:89 | The pending state goes back to the committed one. |
| Upload.Validate | app/main.py:32-43 | "Please choose a CSV file." iff there is no file or its name is empty. "Only .csv files are allowed." iff the lower-cased name does not end in `.csv`. "Uploaded file is empty." iff there are no bytes. The upload is accepted, with its own name and bytes, iff it has a non-empty name ending in `.csv` in any case and at least one byte. |
| Upload.CsvExtensionIgnoresCase | app/main.py:36 | The extension test accepts `.csv`, `.CSV` and every mix of cases, and nothing else. |
| Upload.UpperCaseCsvAccepted | app/main.py:33-43 | A non-empty file named `DATA.CSV` passes validation with its name and bytes. |
| Upload.ReadCsv | app/main.py:61-72 | The strict default parse comes first, and at most two parses are made. Strict latin-1 is tried iff the first parse raised `UnicodeDecodeError`. The permissive parse is tried iff it raised anything else. The result is the last parse's table or exception. |
| Upload.Latin1FailureEscapes | app/main.py:63-65 | A failed latin-1 retry is not followed by the permissive parse: its exception leaves the ladder. |
| Upload.UploadPost | app/main.py:29-92 | A rejected upload changes nothing. An accepted upload always commits its dataset row. Any failure in parsing, analysis or the final commit leaves no analysis and no chart rows. It redirects to the analysis iff parsing succeeds, the analysis of the date-coerced table succeeds and the final commit succeeds. Otherwise it flashes "Analysis error: " followed by the error of the first step that failed: the parse, the analysis or the commit. Success redirects to the new analysis, whose chart rows are all attached to it. |
| Upload.HandleUpload | app/main.py:29-92 | The handler, running on the session, gives the response and committed database that `UploadPost` describes, and leaves nothing pending. |
| Upload.AnalyzeAndStore | app/main.py:59-92 | The `try` block either commits the analysis and its charts or rolls back to the committed dataset and reports the error. |
| Upload.StoreCharts | app/main.py:82-83 | The loop adds exactly one chart row per chart, in order, without committing. |
| Upload.DataUrlCarriesImage | app/main.py:104-105 | A data URL starts with `data:image/png;base64,` and the rest decodes back to the image. |
| Upload.ChartsOf | app/main.py:103 | The charts of an analysis all carry its id. |
| Upload.ChartsOfAppend | app/main.py:103 | Collecting an analysis's charts distributes over appending rows. |
| Upload.Views | app/main.py:102-105 | One image per chart, in order, with the chart's title and the data URL of its bytes. |
| Upload.AnalysisDetailView | app/main.py:94-106 | The view gives not-found for an unknown analysis. A non-owner is redirected to the dashboard with "Not authorized.". An owner gets the images of the analysis's charts in order. |
| Upload.SuccessfulUploadStores | app/main.py:45-86 | A successful upload committed exactly the dataset, the analysis and one row per rendered chart. |
| Upload.DetailOfAddedCharts | app/main.py:94-105 | The owner of a newly added analysis sees the views of the chart rows added for it, in order. |
| Upload.ChartsOfNone | app/main.py:103 | Rows of other analyses contribute no charts. |
| Upload.ChartsOfAll | app/main.py:103 | Rows that all belong to the analysis are all its charts. |
| Upload.UploadThenView | app/main.py:29-106 | After a successful upload, the owner's detail page shows one image per rendered chart, in order, each with the chart's title and the data URL of its bytes. |

## Left out

- pandas parsing of CSV bytes (tokenising, dialects, encodings) is a parameter: each of the three `read_csv` calls is an outcome the caller supplies.
- `pd.to_datetime` is a parameter: for each column it yields a per-cell parser (parsed instant, unparseable, or raises), so the format pandas infers from the column is its business. Extension dtypes are not modelled.
- DataFrame.ToDatetime: a converted column always becomes a naive datetime column. Text carrying a UTC marker or an offset (`2024-01-01T00:00:00Z`) makes pandas produce a timezone-aware dtype, which the model does not have.
- Analysis.RowsPerDayRule: with a timezone-aware date column, `np.issubdtype` at app/analysis.py:51 raises `TypeError`, so the real analysis fails and the upload is rolled back. The model, where every converted column is naive, plans a rows-per-day chart instead.
- The values of `describe()`, of the correlation matrix and of the daily bucketing are floating-point library results. Only which keys and charts exist is modelled.
- The dtype strings in "dtypes" are modelled as a kind (numeric, categorical, datetime, other), not as pandas' text.
- Tie order inside `value_counts()` is not fixed by the code, and the bars' values are not modelled. Only their number is: at most 10, one per distinct value. `Categorical` stands for the `object` dtype that `read_csv` gives text columns; a `category` dtype never arises.
- matplotlib and seaborn rendering is a parameter that returns PNG bytes or an error. The global figure state and the DPI are not modelled.
- The JSON serialisation of the summary into `summary_json` is not modelled. The stored summary is the model's summary value.
- Upload.UploadPost: the dataset commit at app/main.py:53 always succeeds in the model. Only the try block can fail at the database, through one environment parameter: a failure of the `flush()` at app/main.py:80 (for example, the database refusing `summary_json`) is folded into the final commit's fault, which gives the same rollback and the same flash.
- Store.Session.AddAnalysis: ids are positional (row k has id k+1), and a rollback restores the id counter too. A database that does not reuse ids after a rollback gives other numbers, which the model treats as opaque.
- Upload.ChartsOf: `a.charts` has no ORDER BY. The model returns insertion order, which is what the detail page relies on but the database does not promise.
- Text.Lower lowers ASCII letters only. No non-ASCII character lowers to one of the letters in "date" or ".csv", so the two name tests are unaffected.
- `get_or_404` is modelled as the `NotFound` response; logging, flash storage, templates, `login_required` and routing are not modelled.
- The enforcement of MAX_CONTENT_LENGTH by Flask is not modelled; only the constant is.
- app/auth.py, app/models.py, app/__init__.py and manage_bootstrap.py (accounts, ORM mappings, app factory, database bootstrap) are not part of this model.
- The dashboard and upload-page handlers only render templates and are not modelled.
