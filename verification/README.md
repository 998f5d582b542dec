# Car inspection backend: reports, submissions, uploads and the mock database

This project is a Dafny model of the core of the car-inspection backend (a
FastAPI service). It covers:

- **Reports** (`report.dfy`): `results_to_text` renders per-photo analysis
  results as a text block of four lines per photo. `generate_comparison_report`
  puts a line diff of two such texts under a fixed header.
- **Submissions** (`submissions.dfy`): the `/submissions` endpoint compares each
  submission with the results last stored under `userId + "_" + carModel`,
  then overwrites that entry in a process-wide dictionary.
- **Uploads** (`upload.dfy`): `upload_file_local` checks the file type, reduces
  the file name to its last path component, rejects names containing "..", and
  builds `"{timestamp}_{name}"`. The Azure helper turns every failure into "no
  name". The `/upload` endpoint tries Azure first, falls back to local storage,
  and builds the blob URL or the local URL.
- **Mock database** (`database.dfy`): `get_connection` always returns a mock
  connection. Its cursors upper-case and strip each query, then set `lastrowid`
  or the rows `fetchone` returns, depending on a few keywords in the query.
- **Database endpoints** (`db_flows.dfy`): the login lookup-or-create flow,
  demo login and inspection start, run against the mock. For each fixed query
  of the backend, the model works out which keywords it contains once
  normalised.
- **String helpers** (`text.dfy`): the Python string operations used
  throughout (`str(int)`, `join`, `split`, `in`, `strip`, `upper`), with the
  lemmas about them. `wrappers.dfy` holds `Option` and `Result`.

The diff engine (`compare_reports`, built on `difflib`) is a function
parameter. The clock, the Azure SDK's outcome and the local disk's write error
are parameters too. The one-time-password check is a boolean parameter.

## Model

| member | source | states |
|---|---|---|
| Report.ResultsToText | backend/app/main.py:311-326 | the loop's result is the report text: the lines built result by result, joined by "\n" |
| Report.ReportLinesAt | backend/app/main.py:316-324 | line 4i is "--- {part} ---", then "Severity: {severity}" with "none" when the key is missing, then "Description: {description}" with "No description provided" when missing, then "" |
| Report.ReportLinesLength | backend/app/main.py:316-324 | exactly four lines per result |
| Report.PartLabel | backend/app/main.py:317 | definition |
| Report.Lookup | backend/app/main.py:318-319 | definition |
| Report.ReportLines | backend/app/main.py:316-324 | definition |
| Report.ReportText | backend/app/main.py:326 | definition |
| Report.PartLabelCases | backend/app/main.py:314-317 | slot i is labelled with the i-th of the nine part names when i < 9; after that the label is "Part " followed by digits that read back as i + 1 |
| Report.PartLabelsDistinct | backend/app/main.py:314-317 | no two slots share a label |
| Report.PartLabelNoNewline | backend/app/main.py:317 | a label never holds a newline |
| Report.ReportLinesNoNewline | backend/app/main.py:316-324 | when no rendered severity or description holds a newline, no report line does |
| Report.ReportTextEmpty | backend/app/main.py:326 | the text is empty exactly when there are no results |
| Report.ReportTextSplits | backend/app/main.py:321-326 | when no rendered field holds a newline, splitting the text on "\n" gives the report lines back; this is `split("\n")`, not the `splitlines()` the differ applies at main.py:329-330, so it does not describe the lines the differ sees |
| Report.ReportTextDependsOnRenderedFields | backend/app/main.py:316-326 | result lists that agree slot by slot on the rendered severity and description give the same text, whatever other keys they carry |
| Report.GenerateComparisonReport | backend/app/main.py:342-354 | every comparison report starts with the header and has something after it |
| Report.DiffFollowsHeader | backend/app/main.py:346-354 | when the diff is non-empty, what follows the header is exactly the diff |
| Report.NoChangesReportIff | backend/app/main.py:346-354 | the report is the header plus "No significant changes detected between the reports." exactly when the diff is empty or is that very line, so the two cannot be told apart |
| Report.NoChangesForSameRendering | backend/app/main.py:343-352 | if the differ is quiet on equal texts, results that render alike give the "no changes" report |
| Submissions.ComparisonFor | backend/app/main.py:382-388 | definition |
| Submissions.StoreKey | backend/app/main.py:381 | the key is the user id, an underscore, then the car model, each recoverable by position |
| Submissions.SubmissionStore.constructor | backend/app/main.py:377-379 | the store starts empty |
| Submissions.SubmissionStore.Submit | backend/app/main.py:356-397 | the entry under the submission's key becomes its results and every other entry is kept; the response has status "success", id 12345 and the comparison text computed against the store as it was |
| Submissions.ComparisonIffHistory | backend/app/main.py:382-388 | the comparison text is a comparison report exactly when non-empty results are stored under the key; otherwise it is "First inspection recorded. No prior history to compare.", so a stored empty list counts as no history |
| Submissions.ResubmissionReportsNoChanges | backend/app/main.py:381-391 | resubmitting the same non-empty results under the same key gives the "no changes" report |
| Submissions.OtherKeysUnaffected | backend/app/main.py:391 | a submission does not change the comparison another key gets |
| Submissions.StoreKeyCollides | backend/app/main.py:381 | two different user/car pairs can share one key ("a_b"/"c" and "a"/"b_c") |
| Upload.LastComponent | backend/app/main.py:128 | the name is "" exactly when every component is empty or "."; otherwise it is a component after which every component is empty or ".", i.e. the last real one; never "." |
| Upload.PathName | backend/app/main.py:128 | `Path(p).name` holds no '/' and is never "." |
| Upload.SafeName | backend/app/main.py:128 | a missing or empty filename gives "unknown"; the name never holds '/' |
| Upload.SavedFilename | backend/app/main.py:133 | definition |
| Upload.PathNameStripsDirectories | backend/app/main.py:128 | a plain file name is its own `Path.name`, and so is any directory followed by it |
| Upload.UploadFileLocal | backend/app/main.py:124-146 | success exactly when the type is listed, the name has no ".." and the write succeeds; an unlisted type gives 400 "Invalid file type."; ".." gives 400 "Invalid filename"; a failed write gives 500 "Local upload failed: {e}"; on success the result is "{timestamp}_{name}" |
| Upload.SavedFilenameRoundTrip | backend/app/main.py:132-133 | a saved name splits at its first '_' back into the timestamp's digits and the name |
| Upload.SavedFilenameIsSafe | backend/app/main.py:128-133 | the timestamp prefix adds neither '/' nor ".." to a name |
| Upload.UploadFileToAzure | backend/app/main.py:67-122 | no client, an unlisted type, a ".." name or any failure to store gives no name; otherwise the name is "{timestamp}_{name}" |
| Upload.AzureValidationMatchesLocal | backend/app/main.py:78-87 | the Azure helper accepts exactly what the local path accepts, under the same saved name; its extra leading-'/' test never fires |
| Upload.AzureUrl | backend/app/main.py:163 | the blob URL ends with "/{fileType}/{name}" |
| Upload.LocalUrl | backend/app/main.py:173 | the local URL starts with the base URL and ends with "/{fileType}/{name}" |
| Upload.UploadFileEndpoint | backend/app/main.py:148-182 | a success is 201 "success", names one of the two saved names and has a URL ending in it; a failure is a 400 or a 500 |
| Upload.EndpointNamesAreSafe | backend/app/main.py:158-182 | every reported name is free of '/' and ".." |
| Upload.EndpointRejectsUnknownType | backend/app/main.py:169-170 | an unlisted type is 400 "Invalid file type.", whatever Azure does |
| Upload.EndpointRejectsDotDot | backend/app/main.py:169-170 | a name with ".." is 400 "Invalid filename", whatever Azure does |
| Upload.EndpointFallsBackToLocal | backend/app/main.py:168-173 | when Azure yields no name, the outcome is local storage's, with URL base + "files/" + type + "/" + name |
| Upload.EndpointUsesAzure | backend/app/main.py:158-163 | when Azure stores a valid upload, the answer is 201 with the saved name and the blob URL |
| Database.MockCursor.constructor | backend/app/database.py:10-13 | a new cursor has `lastrowid` 1 and an empty row list |
| Database.MockCursor.Execute | backend/app/database.py:15-32 | on the stripped, upper-cased query: "INSERT INTO USERS" sets `lastrowid` to 123; otherwise "SELECT ID FROM USERS" sets the rows to None; otherwise "INSERT INTO INSPECTIONS" sets `lastrowid` to 555; anything else changes nothing |
| Database.MockCursor.FetchOne | backend/app/database.py:34-35 | `fetchone` gives the rows as they stand |
| Database.MockConnection.Cursor | backend/app/database.py:41-42 | every call gives a new cursor on this connection, in its initial state |
| Database.GetConnection | backend/app/database.py:51-53 | every call gives a new mock connection |
| Database.NormalizeQuery | backend/app/database.py:16 | definition |
| Database.Dispatch | backend/app/database.py:19-32 | definition |
| Database.NormalizeIgnoresCaseAndPadding | backend/app/database.py:16 | queries equal up to case and surrounding whitespace normalise alike, so they dispatch alike |
| Database.DispatchIgnoresStrip | backend/app/database.py:16-32 | `strip` never changes which keyword test fires: dispatching on the stripped, upper-cased query is dispatching on the upper-cased raw query |
| Database.UserInsertSetsId | backend/app/database.py:16-21 | any raw query whose upper-cased text holds "INSERT INTO USERS", however padded, sets `lastrowid` to 123 |
| Database.ImagesKeyIsNotInspectionsKey | backend/app/database.py:29-32 | "INSERT INTO INSPECTION_IMAGES" does not contain "INSERT INTO INSPECTIONS" |
| Database.ImagesKeyIsNotUsersKey | backend/app/database.py:19 | nor "INSERT INTO USERS" |
| Database.ImagesKeyIsNotSelectKey | backend/app/database.py:22 | nor "SELECT ID FROM USERS" |
| Database.ImagesKeyHasNoEffect | backend/app/database.py:29-32 | the image-table keyword on its own leaves a cursor unchanged |
| Text.NatToString | backend/app/main.py:133 | `str(n)`: a non-empty digit string with no leading zero except for 0 itself |
| Text.Join | backend/app/main.py:326 | definition |
| Text.SplitOn | backend/app/main.py:128 | the path is cut at every '/' into at least one part, none holding '/' |
| Text.Contains | backend/app/database.py:19 | definition |
| Text.Strip | backend/app/database.py:16 | definition |
| Text.Upper | backend/app/database.py:16 | `upper()` keeps the length |
| Text.Repeat | backend/app/main.py:349 | `"=" * 60`: n copies of the character |
| Text.ContainsStrip | backend/app/database.py:16 | `strip` neither adds nor removes an occurrence of a keyword that starts and ends with a non-space |
| Text.StripPadding | backend/app/database.py:16 | whitespace around a query is removed by `strip` |
| Text.UpperStrip | backend/app/database.py:16 | upper-casing and stripping commute |
| Text.SplitJoin | backend/app/main.py:326 | splitting a "\n"-join of newline-free lines gives the lines back |
| Text.ParseNatToString | backend/app/main.py:133 | the decimal digits of a timestamp read back as the timestamp |
| DbFlows.SelectUserClearsRows | backend/app/main.py:216 | the user lookup query clears the cursor's rows |
| DbFlows.InsertUserSetsId | backend/app/main.py:219 | the user insert query sets `lastrowid` to 123 |
| DbFlows.InsertInspectionSetsId | backend/app/main.py:256 | the inspection insert query sets `lastrowid` to 555 |
| DbFlows.InsertImageHasNoEffect | backend/app/main.py:285-292 | the triple-quoted image insert, once stripped and upper-cased, matches no keyword, so it leaves the cursor unchanged |
| DbFlows.NormalizeInsertImage | backend/app/main.py:285-290 | the image insert normalises to its upper-cased text without the leading and trailing newline and indent |
| DbFlows.FirstRow | backend/app/main.py:222-228 | definition |
| DbFlows.LookupOrCreateUser | backend/app/main.py:212-226 | against the mock, the lookup always leads to the insert path and the user id is 123 |
| DbFlows.VerifyLogin | backend/app/main.py:208-228 | a failed one-time-password check answers "Invalid OTP"; otherwise the user id is 123 |
| DbFlows.DemoLogin | backend/app/main.py:230-250 | the demo login's user id is 123 |
| DbFlows.StartInspection | backend/app/main.py:252-263 | the new inspection's id is 555 |

## Left out

- Azure Blob client, local disk writes, directory creation, the `StaticFiles` mount and the CORS middleware: I/O and a foreign SDK. The helper's outcome is a boolean `stored`, and a local write failure is an optional error text.
- `save_dir.mkdir(parents=True, exist_ok=True)` in `upload_file_local` (main.py line 137) runs outside its `try`, so an error there is not turned into the "Local upload failed" 500; directory creation is not modelled, so that path is absent.
- `asyncio.to_thread` and the endpoint's `try`/`except` around the Azure call: concurrency plumbing. The helper already catches every exception itself.
- `compare_reports` (`splitlines` and `difflib.unified_diff`): an abstract function parameter. The only assumption, where a lemma needs it, is that it returns "" for two equal texts.
- `time.time()`: the millisecond timestamp is a `nat` parameter. Negative clocks and float rounding are not modelled.
- `Path(...).name`: modelled for POSIX paths only (split at '/', drop empty and "." components).
- `str.upper()`: modelled for ASCII letters only. Other characters, such as 'ß', ligatures or non-Latin scripts, are kept as they are. This can change which branch `execute` takes: Python upper-cases 'ı' (U+0131) to 'I' and 'ſ' (U+017F) to 'S', so a query such as "ınsert ınto users" sets `lastrowid` to 123 in the backend but has no effect in the model. The backend's own queries are all ASCII, so none of the modelled endpoint flows is affected.
- Result dictionaries: each value is represented by its already-rendered f-string text, so Python's `str()` of numbers, lists and `None` is not modelled.
- Query parameters passed to `execute`: the mock only prints them, so they are dropped. The same goes for every `print`.
- `generate_otp` / `verify_otp`: these belong to app.utils.otp, which is not part of this model. `verify_otp`'s outcome is a boolean parameter of `VerifyLogin`, and `request_otp` is left out.
- `verify_login` and `demo_login` return the exception text under "details" on a database error. The model keeps only "Database error", and that branch is unreachable against the mock.
- Submissions.SubmissionStore.Submit: one atomic step. `submit_inspection` is a plain `def`, which FastAPI runs on a worker thread pool, so two requests under one key can both read the same old results (main.py line 382) before either writes (line 391), and both get a comparison against that same old entry; the lazy `_LAST_SUBMISSION_STORE = {}` (lines 378-379) can also run twice and lose an entry written in between. The model does not capture these interleavings.
- `submit_inspection`'s `hasattr(conn, 'get_last_inspection_results')` branch: `MockConnection` has no such method, so the branch never runs. The initial "See new report details." value is always overwritten.
- `upload_image`: the similarity score comes from `compare_images`, which is floating point and is called under a name that module never defines. Only its image-record insert is modelled, by `InsertImageHasNoEffect`.
- `compare_images_endpoint`, the legacy `/upload/{file_type}` endpoint and `delete_photo`: OpenCV, floats and file-system operations.
- backend/backend/app/database.py and the MySQL connection code after `get_connection`'s `return`: real network connections, which are not part of this model.
- Database.MockConnection.Commit, Database.MockConnection.Close, Database.MockCursor.Close: `commit` only logs and the two `close` methods do nothing, so none has a contract. That none of them has a `modifies` clause is the statement that they change no cursor state.
