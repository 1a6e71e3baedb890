# eanalytics-api-py in Dafny

A model of the client side of the Eulerian Technologies analytics API,
as the Python package `eanalytics_api_py` and its predecessor
`eulerian_analytics` implement it, with proofs of what that client
promises.

It covers:

- the request helpers:
  - the argument checks;
  - the bearer-token log URL;
  - the API-error predicate;
  - the skip rule for files that already exist;
- the job life cycle: submit a job, poll its status every few seconds until it is finished, then download the result;
- the datamining download:
  - option checks;
  - the `view-id` rule;
  - the date-range slicer;
  - per-slice file names;
  - the header renaming of the JSON-to-CSV transcoder;
- the data-warehouse (EDW) download:
  - query parsing;
  - reader sanitising;
  - the default file name;
  - the skip rule;
  - the shape of the written file;
- the realtime report downloads:
  - payload building and validation;
  - expansion of `[%d]` path segments;
  - batching of paths into requests;
  - filter-id checks;
  - column typing;
- the `Conn` classes, in both variants (`conn.py` and the `conn/` package):
  - argument checks;
  - URLs;
  - the credential cache;
  - the view map;
  - the website lookup;
- the loaders and transforms:
  - product and touchpoint column renames;
  - `viewchannel` renames;
  - dtype classification;
  - product-header classification;
  - `move_columns`.

## How the system is represented

- Python values (arguments and decoded JSON) are the datatype `PyValue.Py`.
  - `isinstance(x, int)` holds for booleans as it does in Python.
  - A raised exception is a `Wrappers.Error`: the exception class and its message.
- The server is a finite script of replies (`seq<Remote.Reply>`).
  - Every request whose reply is read consumes the next reply; the job cancellations of the EDW download are sent without reading one.
  - A run is a `Remote.Outcome` or a `Remote.Run`: its result, the trace of events (requests sent, sleeps, directories made, files written) and the unread replies.
  - When the script runs out, the run ends with the error kind `NoReply`. This stands in for a poll that never ends.
- The file system is the set of existing paths (`Remote.Disk`).
- Dates are day numbers. Parsing and formatting (`strptime`, `strftime`) and `md5` are parameters of the functions that use them.
- A pandas DataFrame is its sequence of column labels and, where rows matter, its rows (`DataFrames`).

`conn.py` repeats two helpers of `internal/` word for word: its `__request_to_json` (lines 153-244) is `internal/request.py`'s `_request_to_json`, and its `__is_skippable_request` (lines 119-151) is `internal/os.py`'s `_is_skippable_request`. `LegacyJsonRequest` and `OsHelper` model both copies, and `LegacyConn` calls them.

## Model

| member | source | states |
|---|---|---|
| JsonRequest.BearerToken | eanalytics_api_py/internal/_request.py:65 | the token exists exactly when `headers` is a dict whose "Authorization" string has a second space-separated word, and it is that word |
| JsonRequest.LogUrlWithoutApiPath | eanalytics_api_py/internal/_request.py:66 | a URL without "/ea/v2/" is logged unchanged |
| JsonRequest.LogUrlInsertsToken | eanalytics_api_py/internal/_request.py:66 | the bearer token is inserted right after the first "/ea/v2/", and the rest of the URL is rewritten the same way |
| JsonRequest.Prepare | eanalytics_api_py/internal/_request.py:45-90 | the request goes out only when `request_type` and `url` are strings, the truthy ones of `headers`, `params` and `json_data` are dicts, a token exists, and the type is get or post; a get carries the params and a post the JSON body; a non-string type or URL is a TypeError, a non-dict truthy argument a TypeError, and an unknown type a ValueError |
| JsonRequest.CheckApiError | eanalytics_api_py/internal/_request.py:103-109 | a decoded reply is returned unchanged exactly when it is a dict with no truthy "error" and no "status" lower-casing to "failed"; those two cases are SystemError, and a non-string "status" is an AttributeError |
| JsonRequest.CheckReply | eanalytics_api_py/internal/_request.py:92-109 | a reply that is not JSON fails with the decoder's error; otherwise the API-error predicate decides, and success returns the decoded reply itself |
| JsonRequest.ToJson | eanalytics_api_py/internal/_request.py:45-109 | a refused request fails with the check's error whatever the server says; otherwise the result is the reply as checked by the API-error predicate |
| JsonRequest.UnknownRequestTypeSendsNothing | eanalytics_api_py/internal/_request.py:88-90 | a request type other than get or post fails the same way whatever the server would answer |
| JsonRequest.FalsyArgumentsAreNotTypeChecked | eanalytics_api_py/internal/_request.py:51-58 | falsy `params` and `json_data` pass whatever their type, and a get then carries no query |
| JsonRequest.Call | eanalytics_api_py/internal/_request.py:74-109 | a request is sent (one Send event) exactly when the checks pass, it consumes one reply, and a success means one reply was read |
| JsonRequest.IsSkippable | eanalytics_api_py/internal/_request.py:134-154 | a non-string path or a non-bool `override_file` is a TypeError; otherwise True exactly when the file exists and `override_file` is False |
| LegacyJsonRequest.Prepare | eanalytics_api_py/internal/request.py:37-83 | the request goes out exactly when the type and URL are strings, the truthy arguments are dicts and the type is get or post; every failure is a TypeError or a ValueError |
| LegacyJsonRequest.RequestToJson | eanalytics_api_py/internal/request.py:37-102 | a refused request fails with the check's error; otherwise the reply is checked by the same API-error predicate |
| LegacyJsonRequest.AgreesWithToJson | eanalytics_api_py/internal/request.py:37-102 | when the Authorization header has a token, the older helper decides exactly as `_to_json` and sends the same request |
| LegacyJsonRequest.NoHeadersDiffer | eanalytics_api_py/internal/request.py:44-46 | without headers the older helper returns the reply, while `_to_json` fails reading the token |
| LegacyJsonRequest.Call | eanalytics_api_py/internal/request.py:61-102 | one request is sent exactly when the checks pass, and it consumes one reply |
| OsHelper.IsSkippableRequest | eanalytics_api_py/internal/os.py:51-63 | a non-string path is a TypeError; otherwise the result is 0 or 1, and 1 exactly when the file exists and `override_file` is falsy |
| OsHelper.AgreesWithIsSkippable | eanalytics_api_py/internal/os.py:54-63 | for a boolean `override_file` it answers as `_is_skippable`, as 0/1 |
| OsHelper.OverrideIsNotTypeChecked | eanalytics_api_py/internal/os.py:51-57 | any value is accepted as `override_file`, by its truth value, where `_is_skippable` raises TypeError |
| EulerianHelper.HasApiError | eulerian_analytics/helper.py:5-10 | 0 or 1, and 1 exactly when "error" is present and truthy; a non-dict reply has no `keys` (AttributeError) |
| EulerianHelper.ReportedErrorsAreApiErrors | eulerian_analytics/helper.py:7-9 | every error it reports, the newer predicate reports as SystemError |
| EulerianHelper.FailedStatusIsMissed | eulerian_analytics/helper.py:5-10 | a reply whose only problem is a "FAILED" status passes the old predicate and fails the newer one |
| JobPoll.WaitSeconds | eanalytics_api_py/conn/_download_datamining.py:166-167 | the wait is never below 5 seconds; a non-int or a value below 5 becomes 5, any other int is kept |
| JobPoll.Classify | eanalytics_api_py/conn/_download_edw.py:161-163 | a datamining job is ready exactly when "jobrun_status" is "COMPLETED" and yields the status; a warehouse job is ready only with status "Done" and yields `data[1]`; the loop waits exactly when the status key is present with another value |
| JobPoll.StatusCallIsExchange | eanalytics_api_py/conn/_download_datamining.py:172-178 | a status call through either helper is one exchange of the request that helper lets through |
| JobPoll.StatusCall | eanalytics_api_py/conn/_download_datamining.py:172-178 | a status call reads at most one reply, and exactly one when it succeeds |
| JobPoll.Exchange | eanalytics_api_py/conn/_download_datamining.py:172-178 | a checked request reads exactly one reply when it succeeds; a refused one reads none |
| JobPoll.Polled | eanalytics_api_py/conn/_download_datamining.py:169-181 | the poll loop never reads more replies than the script holds |
| JobPoll.CallStatus | eanalytics_api_py/conn.py:415-421 | one status call through the caller's helper is that exchange |
| JobPoll.PolledAfterExchange | eanalytics_api_py/conn/_download_datamining.py:169-181 | each tick sleeps and makes one exchange; a failed exchange or a stop ends the poll with its error, a finished status ends it with its result, and a waiting status goes round again |
| JobPoll.AfterAfter | eanalytics_api_py/conn/_download_datamining.py:169-181 | the events of two ticks, put in front one after the other, are the events of both in order |
| JobPoll.PollUntilReady | eanalytics_api_py/conn/_download_edw.py:151-163 | the `while not ready` loop ends exactly as the poll function does: same result, same events, same unread replies |
| JobPoll.PolledUnfold | eanalytics_api_py/conn.py:412-423 | one tick: sleep, send the status request, and stop, finish or go round on its reply |
| JobPoll.ReadyAfterWaiting | eanalytics_api_py/conn/_download_datamining.py:169-181 | a poll that succeeds read n replies: the first n - 1 said "not yet" and the n-th said finished and gave the result |
| JobPoll.SentTick | eanalytics_api_py/conn/_download_datamining.py:171-178 | one tick sends exactly the status request |
| JobPoll.WaitingThenReady | eanalytics_api_py/conn/_download_datamining.py:169-181 | conversely, n - 1 "not yet" replies followed by a finished one end the poll with that result after exactly n identical status requests |
| JobPoll.ConsRepeat | eanalytics_api_py/conn/_download_datamining.py:169-181 | one more status request in front of n - 1 of them makes n |
| JobPoll.SleepsAreClamped | eanalytics_api_py/conn/_download_edw.py:146-153 | every sleep of a poll lasts the clamped wait, which is at least 5 seconds |
| JobPoll.ErrorStatusKeepsPolling | eanalytics_api_py/conn/_download_datamining.py:180-181 | a job whose status is "ERROR" is not finished, so the loop keeps asking |
| Slicing.Slices | eanalytics_api_py/conn/_download_datamining.py:121-124 | the slice list is never empty |
| Slicing.SlicesEnds | eanalytics_api_py/conn/_download_datamining.py:121-124 | the first slice starts at `date-from` and the last one ends at `date-to` |
| Slicing.SlicesBounds | eanalytics_api_py/conn.py:595-598 | every slice has start <= end, lies inside the range and spans at most `n_days_slice` days past its start |
| Slicing.SlicesContiguous | eanalytics_api_py/conn/_download_datamining.py:196-200 | each slice starts the day after the previous one ends |
| Slicing.InnerSlicesAreFull | eanalytics_api_py/conn.py:596-598 | only the last slice can be clipped: every other one spans exactly `n_days_slice + 1` days |
| Slicing.DivUnique | eanalytics_api_py/conn.py:595-617 | the quotient is the only q with q * m <= a < (q + 1) * m (used to count slices) |
| Slicing.DivPlusDivisor | eanalytics_api_py/conn.py:595-617 | adding the divisor adds one to the quotient (used to count slices) |
| Slicing.SliceCount | eanalytics_api_py/conn/_download_datamining.py:121-200 | there are `(date-to - date-from) / (n_days_slice + 1) + 1` slices, so as many files |
| Slicing.SlicesCover | eanalytics_api_py/conn/_download_datamining.py:121-200 | every day of the range lies in some slice |
| Slicing.SlicesDisjoint | eanalytics_api_py/conn.py:614-615 | slices are strictly ordered, so no day is queried twice |
| Slicing.ThreeDaysByTwo | tests/test_conn.py:97-110 | four days (from day 0 to day 3) sliced by 2 give two slices, days 0-2 and day 3 |
| Slicing.ThenNothing | eanalytics_api_py/conn/_download_datamining.py:117 | nothing done yet: the whole run is what remains |
| Slicing.ThenFail | eanalytics_api_py/conn/_download_datamining.py:142-193 | an exception in a pass ends the loop with that error |
| Slicing.ThenStep | eanalytics_api_py/conn/_download_datamining.py:193 | a completed pass appends its path to `l_path2file` and the loop continues on the remaining slices |
| Slicing.CompletedRunSplits | eanalytics_api_py/conn/_download_datamining.py:193-202 | a completed run lists the first pass's path followed by what the later passes list |
| Slicing.NextSlice | eanalytics_api_py/conn/_download_datamining.py:122-124 | the next pass covers `n_days_slice` days past the cursor, clipped to `date-to`, and the remaining slices start one day later |
| Slicing.SliceLoop | eanalytics_api_py/conn/_download_datamining.py:121-202 | the `while` loop with its clip and `break` lists exactly what the passes over the slices list, with the same events, and stops at the first failing pass |
| HeaderNames.FirstSep | eanalytics_api_py/conn/_download_datamining.py:236-239 | the leftmost `\s:\s` in a range, and none before it |
| HeaderNames.ProductTail | eanalytics_api_py/conn/_download_datamining.py:236-239 | a match of `\s#\s(\d+)$` lies right before the `$` position and its digits run to it |
| HeaderNames.ProductMatch | eanalytics_api_py/conn/_download_datamining.py:236-241 | both groups of the productparam pattern are non-empty, and the index group is all digits |
| HeaderNames.LegacyProductMatch | eanalytics_api_py/conn.py:477-482 | the older pattern's index group is always a single digit |
| HeaderNames.FirstLabelSep | eanalytics_api_py/conn/_download_datamining.py:246-249 | the leftmost `\s:\s` past the first character that is followed by a single line, and none before it |
| HeaderNames.LabelMatch | eanalytics_api_py/conn/_download_datamining.py:246-250 | group 1 of `^[\w\W]+?\s:\s(.*)$` never holds a newline |
| HeaderNames.ProductName | eanalytics_api_py/conn/_download_datamining.py:236-242 | the rename exists exactly when the pattern matches; a failed match is AttributeError (`None.group`) |
| HeaderNames.LabelName | eanalytics_api_py/conn/_download_datamining.py:245-269 | the rename exists exactly when the label pattern matches, and it is the prefix followed by group 1 |
| HeaderNames.LabelOf | eanalytics_api_py/conn/_download_datamining.py:238 | the label is read exactly when `header["header"]` is a string |
| HeaderNames.LabelStep | eanalytics_api_py/conn/_download_datamining.py:245 | a name without the family prefix passes one step unchanged |
| HeaderNames.OtherNamesUnchanged | eanalytics_api_py/conn/_download_datamining.py:232-271 | a name outside the four families is kept as it is |
| HeaderNames.NoSeparatorNoMatch | eanalytics_api_py/conn/_download_datamining.py:236-265 | a label without any `\s:\s` matches neither pattern |
| HeaderNames.UnmatchedLabelFails | eanalytics_api_py/conn/_download_datamining.py:236-268 | a header of any of the four families whose label does not match fails |
| HeaderNames.DigitRunFrom | eanalytics_api_py/conn/_download_datamining.py:237 | a run of digits that follows a non-digit starts right there |
| HeaderNames.FirstSepAt | eanalytics_api_py/conn/_download_datamining.py:237 | after a colon-free prefix, the first `\s:\s` is the " : " that ends it |
| HeaderNames.TailAt | eanalytics_api_py/conn/_download_datamining.py:237 | " # " followed by digits up to the end is where `\s#\s(\d+)$` starts |
| HeaderNames.ProductLabelMatch | eanalytics_api_py/conn/_download_datamining.py:236-241 | the label `"{p} : {name} # {digits}"`, with no ':' in p, gives back name and digits as the two groups |
| HeaderNames.ProductLabelRoundTrip | eanalytics_api_py/conn/_download_datamining.py:236-242 | the label `"{p} : {name} # {k}"` renames to `productparam_{name}_{k - 1}` |
| HeaderNames.LegacyProductLabelIndex | eanalytics_api_py/conn.py:477-483 | under the older pattern the same label renames to `productparam_{name}_{k % 10 - 1}` |
| HeaderNames.LabelRoundTrip | eanalytics_api_py/conn/_download_datamining.py:245-251 | the label `"{p} : {name}"`, with a non-empty colon-free p, renames to the prefix followed by name |
| HeaderNames.PrefixesExclude | eanalytics_api_py/conn/_download_datamining.py:235-263 | a name renamed into one family never starts with another family's prefix |
| HeaderNames.SplitPrefix | eanalytics_api_py/conn/_download_datamining.py:235 | a name with a family prefix is that prefix followed by the rest |
| HeaderNames.ProductHeaderRenamed | eanalytics_api_py/conn/_download_datamining.py:235-271 | a productparam header takes the product name, and no later rewrite applies to it |
| HeaderNames.LabelHeaderRenamed | eanalytics_api_py/conn/_download_datamining.py:245-271 | a cgiparam, iduserparam or cluster header takes the prefix followed by the text after its label's " : " |
| HeaderNames.LegacyIndexDiffers | eanalytics_api_py/conn.py:478-482 | with "# 12" the current pattern gives index 11 and the older one gives 1 |
| HeaderNames.HeaderColumns | eanalytics_api_py/conn/_download_datamining.py:227-272 | a header row has one column per header |
| HeaderNames.HeaderColumnsNames | eanalytics_api_py/conn/_download_datamining.py:232-272 | column k is header k's renamed name; the row exists exactly when every header renames; a failure is some header's own failure |
| HeaderNames.HeaderColumnsStep | eanalytics_api_py/conn/_download_datamining.py:271 | one more renamed header appends its name to the row, and one more failing header fails the row |
| HeaderNames.FailureStays | eanalytics_api_py/conn/_download_datamining.py:232-272 | once the row has failed, a further header changes nothing |
| HeaderNames.FailureSpreads | eanalytics_api_py/conn/_download_datamining.py:232-272 | a failure of the first n headers is the failure of every longer list |
| HeaderNames.FirstFailureDecides | eanalytics_api_py/conn/_download_datamining.py:232-272 | the first header whose rename fails decides the error, whatever follows it |
| Connection.Configure | eanalytics_api_py/conn/__init__.py:43-62 | construction succeeds exactly when `print_log` is a bool and gridpool, datacenter and api key are non-empty strings, and any failure is a TypeError; it then sets `base_url = https://{grid}.api.eulerian.{dc}`, `api_v2 = base_url + "/ea/v2"` and the header `Bearer {api_key}` |
| Connection.HeadersCarryApiKey | eanalytics_api_py/conn/__init__.py:61 | the bearer token the request helper reads back from the headers is the API key, for a key without spaces |
| Connection.EqualConcatenationsShareEntry | eanalytics_api_py/conn/__init__.py:78-86 | credentials whose datacenter + gridpool + api key concatenations agree have the same digest, whatever the hash |
| Connection.DistinctGridsCollide | eanalytics_api_py/conn/__init__.py:78-86 | two connections to different hosts ("demo" on "com" and "mdemo" on "co") share one cache entry |
| Connection.CacheGrowsOnlyAfterCheck | eanalytics_api_py/conn/__init__.py:64-70 | the cache never shrinks, and it grows only by the digest of credentials whose single check request just succeeded |
| Connection.SecondConnectSendsNothing | eanalytics_api_py/conn/__init__.py:64-66 | once verified, the same credentials are accepted again without any request |
| Connection.CredentialCache.constructor | eanalytics_api_py/conn/__init__.py:34 | the class-level cache starts empty |
| Connection.CredentialCache.Connect | eanalytics_api_py/conn/__init__.py:36-70 | the constructor's result, its events and the class-level cache it leaves are those of the connect function above |
| Connection.Collect | eanalytics_api_py/conn/__init__.py:155 | a dict built from pairs has exactly the pairs' keys |
| Connection.CollectLastWins | eanalytics_api_py/conn/__init__.py:155 | for a repeated key, the dict holds the value of its last pair |
| Connection.IndexIn | eanalytics_api_py/conn/__init__.py:153-154 | `fields.index(x)`: in a list, the first position of the value, found whenever the value is in the list, else ValueError; in a string, the first position of a substring, TypeError for a non-string argument; any other object has no `index` (AttributeError) |
| Connection.RowPairs | eanalytics_api_py/conn/__init__.py:155 | one pair per row, whose key and value are the row's entries at the `view_id` and `view_name` positions, read key first and then value, with a hashable key; a failure comes from some row |
| Connection.ViewMapContents | eanalytics_api_py/conn/__init__.py:153-158 | each view id maps to the name from the last row carrying it; "0" is always a key, and maps to "last channel" when no row carries "0" |
| Connection.GetViewIdNameMap | eanalytics_api_py/conn/__init__.py:142-143 | a non-string website is a TypeError raised before any request |
| Connection.FieldAt | eanalytics_api_py/conn/__init__.py:189-191 | the i-th pair: `fields` is a list with a field at i, the key is that field's hashable "name", and the value is `data["rows"][0][i]` |
| Connection.FieldPairs | eanalytics_api_py/conn/__init__.py:189-192 | one pair per position below `len(fields)`, each the pair `FieldAt` reads there; a failure comes from some position |
| Connection.WebsiteMapContents | eanalytics_api_py/conn/__init__.py:189-192 | with a list of fields, `data.rows[0]` exists and the i-th field name maps to `rows[0][i]` when no later field has the same name |
| Connection.GetWebsiteByName | eanalytics_api_py/conn/__init__.py:178-179 | a non-string website is a TypeError raised before any request |
| Datamining.ParseDate | eanalytics_api_py/conn/_download_datamining.py:88-90 | a non-string date is a TypeError; a string is a date exactly when the parser reads it, else ValueError |
| Datamining.Validate | eanalytics_api_py/conn/_download_datamining.py:62-93 | the call gets past its checks exactly when the arguments are well typed (a non-negative int `n_days_slice`, a non-empty dict payload), the type is one of order, estimate, isenginerequest, actionlog or scart, both dates are present, truthy and parse, and `date-from` is not later than `date-to`; wrong types are TypeError and the rest ValueError |
| Datamining.MissingDateToNamesDateFrom | eanalytics_api_py/conn/_download_datamining.py:84-86 | a missing `date-to` is reported with the message that names `date-from` |
| Datamining.ViewId | eanalytics_api_py/conn/_download_datamining.py:95-106 | an absent view-id becomes "0"; a present one is accepted exactly when its `str()` is one digit, else ValueError "view-id should match ^[0-9]$" |
| Datamining.IntegerViewIds | tests/test_conn.py:115-127 | an integer view id is accepted exactly when it lies in 0..9, and becomes its digit; 10 is refused |
| Datamining.CreateDirectory | eanalytics_api_py/conn/_download_datamining.py:116 | a truthy non-string directory is a TypeError; otherwise no file changes, the directory exists afterwards, and it is made only when it was missing |
| Datamining.Parsed | eanalytics_api_py/conn/_download_datamining.py:226-228 | the stream parses exactly when the reply is JSON |
| Datamining.WritablePrefix | eanalytics_api_py/conn/_download_datamining.py:277-278 | the rows before the first one `writerow` refuses, and that row when there is one |
| Datamining.HeaderRow | eanalytics_api_py/conn/_download_datamining.py:272 | the header row holds the column names in order |
| Datamining.Streamed | eanalytics_api_py/conn/_download_datamining.py:216-219 | the output file exists afterwards whatever happens, since it is opened before the request |
| Datamining.CollectColumns | eanalytics_api_py/conn/_download_datamining.py:227-271 | the header loop yields the renamed header row (see `HeaderNames.HeaderColumnsNames`) |
| Datamining.CopyRows | eanalytics_api_py/conn/_download_datamining.py:274-278 | the row loop writes every row up to the first one it cannot iterate, and succeeds exactly when there is none |
| Datamining.StreamReq | eanalytics_api_py/conn/_download_datamining.py:205-278 | `_stream_req` does what the streaming function says: same result, events and file system |
| Datamining.StreamedFile | eanalytics_api_py/conn/_download_datamining.py:271-278 | a completed download writes one file holding exactly one header row, whose k-th column is the renamed k-th header, followed by every row unchanged |
| Datamining.StreamStopsAtUnwritableRow | eanalytics_api_py/conn/_download_datamining.py:277-278 | a row that cannot be iterated ends the copy with an error, and the rows before it are in the file |
| Datamining.SlicePath | eanalytics_api_py/conn/_download_datamining.py:130-140 | the path exists exactly when the directory is a string, and is the directory joined with `{website}_{type}_view_{view}_from_{from}_to_{to}.csv.gz` |
| Datamining.Fetched | eanalytics_api_py/conn/_download_datamining.py:147-192 | a fetched slice leaves the file opened at its path; nothing else changes |
| Datamining.SliceRun | eanalytics_api_py/conn/_download_datamining.py:125-193 | a pass lists the slice's path, skipped or not, and that file exists afterwards; files are only added and no directory is made |
| Datamining.FetchSlice | eanalytics_api_py/conn/_download_datamining.py:147-192 | the search, the poll and the stream, in that order, as the fetch function says |
| Datamining.Start | eanalytics_api_py/conn/_download_datamining.py:62-116 | the call starts exactly when the checks, the view id, the `timedelta` of `n_days_slice` and the directory pass, and then `date-from` is not later than `date-to`; more than 999999999 days is an OverflowError, raised after the view id and before the directory is made |
| Datamining.DownloadSlice | eanalytics_api_py/conn/_download_datamining.py:125-193 | one pass of the loop as the pass function says |
| Datamining.DownloadDatamining | eanalytics_api_py/conn/_download_datamining.py:62-202 | `download_datamining` as the download function says: the checks, then one pass per slice |
| Datamining.SkippedSliceSendsNothing | eanalytics_api_py/conn/_download_datamining.py:142-146 | a slice whose file exists while `override_file` is False is listed and nothing is sent, written or read for it |
| Datamining.SlicesRunKeepsFiles | eanalytics_api_py/conn/_download_datamining.py:121-202 | the loop only adds files and makes no directory |
| Datamining.PathsFollowSlices | eanalytics_api_py/conn/_download_datamining.py:121-202 | a completed call lists one path per slice, in the slices' order, and each listed file exists afterwards |
| Datamining.ListedStep | eanalytics_api_py/conn/_download_datamining.py:193 | the first slice's path in front of the paths of the later slices lists all the slices in order |
| Datamining.AllSkipped | eanalytics_api_py/conn/_download_datamining.py:142-193 | when every slice's file already exists and `override_file` is False, the loop sends nothing and writes nothing |
| Datamining.RerunSendsNothing | eanalytics_api_py/conn/_download_datamining.py:142-202 | calling again on the disk a completed call left, with `override_file` False, lists the same paths and sends nothing |
| Datamining.FileDateHasNoSlash | eanalytics_api_py/conn/_download_datamining.py:127-128 | the dates in a file name hold no '/' |
| Datamining.FileNameNamesSlice | eanalytics_api_py/conn/_download_datamining.py:125-139 | the file name gives the slice back, when `strftime` tells days apart, gives every day the same width and never writes '_' |
| Datamining.DistinctSlicesDistinctFiles | eanalytics_api_py/conn/_download_datamining.py:125-140 | so two different slices never share a file |
| LegacyConn.LogLevel | eanalytics_api_py/conn.py:57-63 | a non-string level is a TypeError; a string is accepted exactly when its upper-case form (as `str.upper` gives it, the dotless i and the long s included) is DEBUG, INFO, WARNING, ERROR or CRITICAL, and that form is kept; otherwise ValueError |
| LegacyConn.LogLevelIgnoresCase | eanalytics_api_py/conn.py:60-63 | an accepted level is accepted again as itself, and its lower-case spelling is accepted as the same level |
| LegacyConn.Configure | eanalytics_api_py/conn.py:57-81 | construction gets past its checks exactly when the level is accepted and gridpool, datacenter and api key are strings (a wrong type is a TypeError), and sets the same URLs and bearer header as the `conn/` package |
| LegacyConn.EmptyNamesAccepted | eanalytics_api_py/conn.py:67-78 | empty names pass here, where the `conn/` package refuses them |
| LegacyConn.Open | eanalytics_api_py/conn.py:50-84 | every successful construction sends exactly one credential check to `authtree.json` and reads one reply; there is no cache |
| LegacyConn.GetViewIdNameMap | eanalytics_api_py/conn.py:841-874 | a non-string website is a TypeError before any request; the map is built from the reply as in the `conn/` package |
| LegacyConn.Validate | eanalytics_api_py/conn.py:534-570 | a non-string website is a TypeError; a type outside the five allowed (a non-string one included) is a ValueError; a truthy non-string directory fails; success implies the same well-typedness as the `conn/` package demands; once every earlier check passes and both dates are present, more than 999999999 days is an OverflowError from `timedelta` (line 560), before the dates are parsed |
| LegacyConn.ValidateAgrees | eanalytics_api_py/conn.py:534-570 | when the output directory is acceptable, conn.py accepts exactly the calls the `conn/` package's checks accept with at most 999999999 days, with the same job; the `conn/` package makes its `timedelta` later, in Datamining.Start |
| LegacyConn.NonStringTypeIsValueError | eanalytics_api_py/conn.py:540-542 | a `datamining_type` that is not a string is a ValueError here and a TypeError in the `conn/` package |
| LegacyConn.ViewId | eanalytics_api_py/conn.py:575-590 | an absent view-id becomes "0"; a non-string one is a TypeError from `re.match`; a string passes exactly when it is one digit, else ValueError "Incorrect view-id" |
| LegacyConn.ViewIdStricter | eanalytics_api_py/conn.py:576-590 | every view id this version accepts, the `conn/` package accepts with the same value, but the integer 5 passes only there |
| LegacyConn.OutputDirectory | eanalytics_api_py/conn.py:570-573 | a falsy directory becomes "" and nothing is made; a string directory exists afterwards; files never change |
| LegacyConn.HeaderLines | eanalytics_api_py/conn.py:466-513 | no `data.fields`: no header line; an empty string or dict: one empty row; a list: one row of renamed names; anything else fails with TypeError |
| LegacyConn.DataValue | eanalytics_api_py/conn.py:466-467 | `ijson.items(f, "data.<key>")` finds a value exactly when the document is a dict whose "data" is a dict holding the key, and it is that value |
| LegacyConn.RowItems | eanalytics_api_py/conn.py:519-522 | the rows are what iterating `data.rows` visits: none without it, a list's items, one row per character of a string; a failure is a TypeError, and null, a number or a boolean always fails |
| LegacyConn.Transcoded | eanalytics_api_py/conn.py:426-525 | the temporary file remains exactly when the conversion fails; after a success the output file exists; no directory changes |
| LegacyConn.Transcode | eanalytics_api_py/conn.py:426-525 | the header loop then the row loop, as the conversion function says |
| LegacyConn.NoFieldsNoHeaderRow | eanalytics_api_py/conn.py:466-522 | without `data.fields` a completed conversion writes exactly the rows that iterating `data.rows` visits |
| LegacyConn.ScalarRowsRefused | eanalytics_api_py/conn.py:519-522 | a `data.rows` that is null, a number or a boolean raises TypeError after the header row was written, and the temporary file stays |
| LegacyConn.StringRowsAreCharacters | eanalytics_api_py/conn.py:519-522 | a string under `data.rows` writes one row per character, in order |
| LegacyConn.TranscodedFile | eanalytics_api_py/conn.py:466-525 | with `data.fields` a list, a completed conversion writes one header row whose k-th column is the k-th header renamed under `(\d)+$`, then every row that iterating `data.rows` visits, unchanged, and removes the temporary file |
| LegacyConn.Fetched | eanalytics_api_py/conn.py:387-525 | search, poll until COMPLETED, then download; no directory changes, and success leaves the file in place |
| LegacyConn.SliceRun | eanalytics_api_py/conn.py:354-527 | a pass lists the slice's path and that file exists afterwards; no directory changes |
| LegacyConn.FalsyOverrideReuses | eanalytics_api_py/conn.py:141-150 | a slice whose file exists is reused whenever `override_file` is falsy, whatever its type, and nothing is sent |
| LegacyConn.FetchSlice | eanalytics_api_py/conn.py:387-525 | the fetch as the fetch function says |
| LegacyConn.DownloadSlice | eanalytics_api_py/conn.py:354-527 | the inner `download` as the pass function says |
| LegacyConn.Start | eanalytics_api_py/conn.py:530-590 | the call starts exactly when the checks (the `timedelta` bound of line 560 among them) and the view id pass; a failed check touches nothing, while a bad view id comes after the directory was made |
| LegacyConn.DownloadDatamining | eanalytics_api_py/conn.py:530-617 | `download_datamining` as the download function says: the checks, the directory, the view id, then one pass per slice |
| LegacyConn.BadViewIdAfterMkdir | eanalytics_api_py/conn.py:570-587 | a bad view id is reported only after the missing output directory was made |
| LegacyConn.NoDirectoryBareNames | eanalytics_api_py/conn.py:570-571 | with no output directory the files are named relative to the working directory |
| Edw.RunEnd | eanalytics_api_py/conn/_download_edw.py:61 | a run of one character class ends at the first character outside the class |
| Edw.RunEndAt | eanalytics_api_py/conn/_download_edw.py:61 | a run is determined by where it stops |
| Edw.EpochAt | eanalytics_api_py/conn/_download_edw.py:60-63 | a match of `{\W+?(\d+)\W+?(\d+)\W+?}` yields two non-empty digit groups |
| Edw.Leftmost | eanalytics_api_py/conn/_download_edw.py:60-63 | the leftmost position in a range where a test holds, and none before it |
| Edw.FirstEpoch | eanalytics_api_py/conn/_download_edw.py:60-64 | `findall(...)[0]` is the match at the leftmost position where the pattern matches; no position matches when there is none |
| Edw.ReaderAt | eanalytics_api_py/conn/_download_edw.py:67 | a match tried at a position, when there is one, ends after that position and within the text |
| Edw.ReaderAtChars | eanalytics_api_py/conn/_download_edw.py:67 | a match of `\w+:\w+@[\w_-]+` holds only word characters, '-', one ':' and one '@' |
| Edw.Readers | eanalytics_api_py/conn/_download_edw.py:67 | every reader `findall` returns has that shape |
| Edw.EpochAtRuns | eanalytics_api_py/conn/_download_edw.py:61 | the epoch pattern matches at a position once its five runs are known to end where they do |
| Edw.RunEndOver | eanalytics_api_py/conn/_download_edw.py:61 | a run over a piece of the text ends right after it when the next character is outside the class |
| Edw.OpeningRuns | eanalytics_api_py/conn/_download_edw.py:61-62 | in `{ d1 `, the blank run ends at d1 and the digit run at the blank after it |
| Edw.ClosingRuns | eanalytics_api_py/conn/_download_edw.py:61-62 | in ` d2 `, the blank run ends at d2 and the digit run at the blank after it |
| Edw.ClosingBrace | eanalytics_api_py/conn/_download_edw.py:61-62 | a final ` }` is one run of non-word characters |
| Edw.EpochOfLayout | eanalytics_api_py/conn/_download_edw.py:61-62 | any text laid out as `{ d1 d2 }` matches at its start with the pair d1, d2 |
| Edw.EpochOfBraces | eanalytics_api_py/conn/_download_edw.py:61-62 | the query `{ d1 d2 }` (as in the source's own example) yields exactly the pair d1, d2 |
| Edw.ReaderOfParts | eanalytics_api_py/conn/_download_edw.py:67 | a reader `a:b@t` (as in `ea:pageview@demo-fr`) is matched whole |
| Edw.ReaderOfLayout | eanalytics_api_py/conn/_download_edw.py:67 | any text laid out as `a:b@t` is matched whole |
| Edw.Sanitise | eanalytics_api_py/conn/_download_edw.py:72-77 | the sanitised name has the same length and holds neither ':' nor '@' |
| Edw.SanitisedReader | eanalytics_api_py/conn/_download_edw.py:72-77 | a sanitised reader holds only word characters and '-' |
| Edw.SanitiseAppend | eanalytics_api_py/conn/_download_edw.py:74 | sanitising distributes over concatenation |
| Edw.SanitiseParts | eanalytics_api_py/conn/_download_edw.py:74 | the reader `a:b@t` becomes `a_b_t` |
| Edw.ParseQuery | eanalytics_api_py/conn/_download_edw.py:57-77 | a non-string query is a TypeError; a string parses exactly when it has an epoch pair and at least one reader, else ValueError; the pair is the first match's, and the readers are all the matches, in order, each sanitised |
| Edw.JoinChars | eanalytics_api_py/conn/_download_edw.py:84-89 | every character of a join comes from a part or the separator |
| Edw.DefaultNameIsClean | eanalytics_api_py/conn/_download_edw.py:84-89 | the default name `dw_{grid}_{from}_{to}_{readers}.cvs.gzip` holds no ':' or '@' when the gridpool name holds none |
| Edw.OutputTarget | eanalytics_api_py/conn/_download_edw.py:79-96 | a given path must be a string and is never skipped; without one the default name is used, and skipped exactly when it exists and `override_file` is False; a non-bool `override_file` is then a TypeError |
| Edw.SessionIp | eanalytics_api_py/conn/_download_edw.py:98-107 | a given ip is used when it is a string (no request), and is a ValueError otherwise; without one, the external address is asked for once |
| Edw.Session | eanalytics_api_py/conn/_download_edw.py:109-124 | a session is one GET to `get_dw_session_token.json`, and its headers carry `Bearer` + `data.rows[0][0]` of the reply |
| Edw.Targeted | eanalytics_api_py/conn/_download_edw.py:57-96 | the query parses and the target is chosen, or the first error of the two |
| Edw.Opening | eanalytics_api_py/conn/_download_edw.py:98-124 | an opened session keeps the connection, the query and the target path |
| Edw.Prelude | eanalytics_api_py/conn/_download_edw.py:57-124 | a reused file is the default name, exists, and costs no request; otherwise the plan writes to the given path when there is one |
| Edw.Submitted | eanalytics_api_py/conn/_download_edw.py:126-142 | a given jobrun id is used with no request; otherwise the query is posted once to the jobs URL with kind `edw#request` |
| Edw.DownloadRequest | eanalytics_api_py/conn/_download_edw.py:164-167 | the download request is a GET on `str(data[1])`, stripped, unwrapped and cut at its last '#'; the url must begin with a scheme, and ValueError is raised otherwise |
| Edw.DownloadRequestPlain | eanalytics_api_py/conn/_download_edw.py:164-167 | a string `scheme:rest` without white space at either end, without '#', '<' or a `URL:` prefix is requested exactly as written |
| Edw.FragmentDropped | eanalytics_api_py/conn/_download_edw.py:164-167 | `scheme:rest#tag` is requested as `scheme:rest` |
| Edw.NoColonRefused | eanalytics_api_py/conn/_download_edw.py:164-167 | a value whose text has no ':' has no scheme and is refused with ValueError |
| Edw.ScalarRefused | eanalytics_api_py/conn/_download_edw.py:164-167 | None, a bool or a number as `data[1]` is refused with ValueError |
| Edw.CancelBaseAsWritten | eanalytics_api_py/conn/_download_edw.py:127-172 | as written, the cancel URL `search_url` is bound exactly when no jobrun id was given, and reading it otherwise raises UnboundLocalError, a NameError |
| Edw.Fetched | eanalytics_api_py/conn/_download_edw.py:164-175 | a fetch opens the file at the target path or leaves the disk alone; an unbound cancel URL fails before anything is sent |
| Edw.Awaited | eanalytics_api_py/conn/_download_edw.py:144-175 | the poll starts with a sleep of the clamped wait; success leaves the file opened at the target path |
| Edw.Finish | eanalytics_api_py/conn/_download_edw.py:126-178 | submit, poll, fetch: success returns the target path with the file opened |
| Edw.SchemaColumns | eanalytics_api_py/conn/_download_edw.py:223-229 | the header row exists exactly when every schema entry has an element [1], and its k-th column is entry k's element [1] |
| Edw.SchemaFirstFailure | eanalytics_api_py/conn/_download_edw.py:227-228 | the first schema entry without an element [1] decides the error |
| Edw.Cancels | eanalytics_api_py/conn/_download_edw.py:238-251 | one POST per job uuid, in order, to `{search_url}/{uuid}/cancel` |
| Edw.StreamedEdw | eanalytics_api_py/conn/_download_edw.py:181-251 | the output file exists afterwards whatever happens, and a success read exactly three replies |
| Edw.CollectSchema | eanalytics_api_py/conn/_download_edw.py:223-229 | the header loop yields the schema columns as the function above says |
| Edw.CancelJobs | eanalytics_api_py/conn/_download_edw.py:238-251 | the cancel loop sends the cancels above |
| Edw.StreamToCsvGzip | eanalytics_api_py/conn/_download_edw.py:181-251 | `_stream_to_csv_gzip` as the streaming function says |
| Edw.FetchFile | eanalytics_api_py/conn/_download_edw.py:164-174 | the download request, then the stream into the file, as the fetch function says |
| Edw.AwaitJob | eanalytics_api_py/conn/_download_edw.py:144-175 | the poll and the fetch as the await function says |
| Edw.FinishJob | eanalytics_api_py/conn/_download_edw.py:126-178 | the submit, poll and fetch as the finish function says |
| Edw.DownloadedWith | eanalytics_api_py/conn/_download_edw.py:57-178 | a successful download returns a path that exists afterwards |
| Edw.Continued | eanalytics_api_py/conn/_download_edw.py:96-178 | once the prelude chose a file to write, a success returns a path that exists afterwards |
| Edw.Downloaded | eanalytics_api_py/conn/_download_edw.py:57-178 | a successful `download_edw` returns a path that exists afterwards |
| Edw.DownloadedAsWritten | eanalytics_api_py/conn/_download_edw.py:57-178 | the same holds of the code as written |
| Edw.DownloadEdwWith | eanalytics_api_py/conn/_download_edw.py:57-178 | `download_edw` as it runs is the download function, for a given cancel URL |
| Edw.Continue | eanalytics_api_py/conn/_download_edw.py:96-178 | the part after the prelude as it runs |
| Edw.DownloadEdw | eanalytics_api_py/conn/_download_edw.py:57-178 | `download_edw` as it runs, with the cancel URL bound in every case |
| Edw.DefaultNameReused | eanalytics_api_py/conn/_download_edw.py:84-96 | an existing default file with `override_file` False is returned before anything is sent |
| Edw.GivenPathIsWritten | eanalytics_api_py/conn/_download_edw.py:79-81 | a path given by the caller is always written, never reused |
| Edw.EdwFileShape | eanalytics_api_py/conn/_download_edw.py:223-251 | the download request is sent three times; the file holds one header row of element [1] of each schema entry, in order, then every row unchanged; then each uuid is cancelled |
| Edw.SuppliedJobrunNameError | eanalytics_api_py/conn/_download_edw.py:127-172 | as written, a supplied jobrun id is polled for and the call then fails, leaving the disk unchanged; once the download URL is accepted, the failure is the UnboundLocalError (a NameError) of `search_url` |
| Edw.SuppliedJobrunStreams | eanalytics_api_py/conn/_download_edw.py:126-175 | with the jobs URL bound in every case, a supplied jobrun id is polled for and its data streamed into the file |
| FlatRealtime.FormatPlain | eanalytics_api_py/conn/_download_flat_realtime_report.py:123 | `s % n` of a text without '%' is a TypeError (not all arguments converted), and once the argument is used the text is copied unchanged |
| FlatRealtime.PercentFirst | eanalytics_api_py/conn/_download_flat_realtime_report.py:172 | a leading "%d" (or "%i", "%u", "%s", "%r", "%a") takes the integer and the rest is copied |
| FlatRealtime.PercentOne | eanalytics_api_py/conn/_download_flat_realtime_report.py:123 | a text with one decimal conversion ("%d", "%i", "%u", "%s", "%r" or "%a") and no other '%' gets the integer's decimal form in its place |
| FlatRealtime.FormatPlainPrefix | eanalytics_api_py/conn/_download_flat_realtime_report.py:123 | text without '%' in front of a format is copied as it is |
| FlatRealtime.PercentNothingToFill | eanalytics_api_py/conn/_download_flat_realtime_report.py:123 | a path segment without '%' cannot take the website id: a TypeError |
| FlatRealtime.FormatFrom | eanalytics_api_py/conn/_download_flat_realtime_report.py:123 | `%`-formatting with one integer fails only with TypeError (argument unused, missing or a mapping asked for) or ValueError (incomplete or unknown conversion) |
| FlatRealtime.SecondConversionNeedsArgument | eanalytics_api_py/conn/_download_flat_realtime_report.py:123 | once the integer is used, any conversion other than "%%" is the TypeError "not enough arguments", because Python fetches the argument before it reads the conversion character (`"%d%z" % 5`) |
| FlatRealtime.UnknownConversionFirst | eanalytics_api_py/conn/_download_flat_realtime_report.py:123 | before the integer is used, a conversion character outside the modelled ones is a ValueError |
| PyValue.JoinedKeysError | eanalytics_api_py/conn/_download_flat_realtime_report.py:107 | the error of a "not found" message that joins a map's keys: ValueError exactly when every key is a str, otherwise the TypeError of `str.join` |
| FlatRealtime.StrItems | eanalytics_api_py/conn/_download_flat_realtime_report.py:86 | `",".join(kpi)` succeeds exactly when every item is a string, yields those strings in order, and is a TypeError otherwise |
| FlatRealtime.CheckArgs | eanalytics_api_py/conn/_download_flat_realtime_report.py:60-79 | the arguments pass exactly when the dates, website and report names and date scale are strings, `path_dim_map` is a dict and `kpi` a list; otherwise TypeError |
| FlatRealtime.BasePayload | eanalytics_api_py/conn/_download_flat_realtime_report.py:81-87 | the payload holds exactly the five keys, the dates as given and `ea-columns` = "id," + the kpis comma-joined |
| FlatRealtime.Filters | eanalytics_api_py/conn/_download_flat_realtime_report.py:89-94 | falsy filters are none; truthy filters that are not a dict are a TypeError; otherwise the converted filters are used |
| FlatRealtime.Copied | eanalytics_api_py/conn/_download_flat_realtime_report.py:96-98 | copying the filters succeeds exactly when every value has a length (a TypeError otherwise) |
| FlatRealtime.CopiedContents | eanalytics_api_py/conn/_download_flat_realtime_report.py:96-98 | a key is in the payload afterwards exactly when it was before or its filter value is non-empty; such a value is copied, and every other key keeps its value |
| FlatRealtime.CopyFilters | eanalytics_api_py/conn/_download_flat_realtime_report.py:96-98 | the filter loop computes the copied payload above |
| FlatRealtime.Payload | eanalytics_api_py/conn/_download_flat_realtime_report.py:81-102 | a built payload has an allowed date scale ("" or H, D, W, M); a disallowed one is a ValueError once the rest is valid; the dates and columns are always present |
| FlatRealtime.IdColumn | eanalytics_api_py/conn/_download_flat_realtime_report.py:228-231 | the index found is the first field named "id", every field before it has a name; with no such field, none is found |
| FlatRealtime.IdRows | eanalytics_api_py/conn/_download_flat_realtime_report.py:228-231 | the rows `_get_ids` iterates are what iterating the reply's `data.rows` visits, and the column is the first field named "id" among what iterating `data.fields` visits |
| FlatRealtime.IdPaths | eanalytics_api_py/conn/_download_flat_realtime_report.py:171-172 | one path per row, in row order, each `prev + "." + seg % int(id)` and failing when any one fails |
| FlatRealtime.Expansion | eanalytics_api_py/conn/_download_flat_realtime_report.py:159-172 | a segment not ending in "[%d]" appends `prev.seg` and sends nothing; one ending in "[%d]" sends one request and yields one path per id of the reply |
| FlatRealtime.Level | eanalytics_api_py/conn/_download_flat_realtime_report.py:157-172 | one level of expansion never reads more replies than it has |
| FlatRealtime.PlainSegmentAppends | eanalytics_api_py/conn/_download_flat_realtime_report.py:158-160 | through a plain segment each prefix gains ".seg", in order, with no request |
| FlatRealtime.PlainPathsAppend | eanalytics_api_py/conn/_download_flat_realtime_report.py:149-182 | through plain segments only, each prefix gains the rest of the path dot-joined, with no request |
| FlatRealtime.ExpandIds | eanalytics_api_py/conn/_download_flat_realtime_report.py:171-172 | the id loop computes the id paths above |
| FlatRealtime.Expand | eanalytics_api_py/conn/_download_flat_realtime_report.py:158-172 | the body for one prefix computes its expansion |
| FlatRealtime.GetAllPaths | eanalytics_api_py/conn/_download_flat_realtime_report.py:149-182 | `_get_all_paths` as it runs computes the recursive path function |
| FlatRealtime.NextLevel | eanalytics_api_py/conn/_download_flat_realtime_report.py:157-172 | the prefix loop computes one level of the paths |
| FlatRealtime.GroupedFlatten | eanalytics_api_py/conn/_download_flat_realtime_report.py:200-218 | from index i on, the batches hold the buffer and then every remaining path, in order |
| FlatRealtime.BatchesFlatten | eanalytics_api_py/conn/_download_flat_realtime_report.py:200-218 | concatenating the batches gives back every path, in order: none lost, none repeated |
| FlatRealtime.GroupedSizes | eanalytics_api_py/conn/_download_flat_realtime_report.py:200-218 | with a buffer of the expected size, every batch is non-empty, the first holds at most 11 (10 past index 10) and is full when more follow, and the later ones hold at most 10, full but for the last |
| FlatRealtime.BatchSizes | eanalytics_api_py/conn/_download_flat_realtime_report.py:202-204 | the paths go out in one batch of at most 11, then batches of 10, the last possibly smaller, none empty |
| FlatRealtime.Names | eanalytics_api_py/conn/_download_flat_realtime_report.py:215 | the column names are each field's "name", in order, and fail when one lacks it |
| FlatRealtime.MaxWidth | eanalytics_api_py/conn/_download_flat_realtime_report.py:213-215 | the width pandas gives a list of rows: no row is wider, and some row is that wide |
| FlatRealtime.PadRow | eanalytics_api_py/conn/_download_flat_realtime_report.py:213-215 | a row filled with None up to the frame's width, its own cells first |
| FlatRealtime.PadRows | eanalytics_api_py/conn/_download_flat_realtime_report.py:213-215 | every row filled to the same width, one per row, in order |
| FlatRealtime.FrameOf | eanalytics_api_py/conn/_download_flat_realtime_report.py:213-215 | its columns are the names of the iterated `data.fields`; a non-empty list of list rows is refused with ValueError exactly when its widest row is not as wide as the names, and otherwise gives those rows filled with None to that width; another list gives its items as rows; None or an empty dict gives none |
| FlatRealtime.WiderRowRefused | eanalytics_api_py/conn/_download_flat_realtime_report.py:213-215 | names `["id"]` with the row `[1, 2]` is pandas' ValueError "1 columns passed, passed data had 2 columns" |
| FlatRealtime.BatchFrames | eanalytics_api_py/conn/_download_flat_realtime_report.py:205-217 | the batch loop never reads more replies than it has |
| FlatRealtime.OnePerBatchStep | eanalytics_api_py/conn/_download_flat_realtime_report.py:205-217 | one batch's request and frame in front of a run of the right shape for the rest gives the right shape |
| FlatRealtime.BatchFramesShape | eanalytics_api_py/conn/_download_flat_realtime_report.py:200-218 | a successful run sends one request per batch, in order, carrying that batch's paths, and gets one frame per batch |
| FlatRealtime.BatchFrame | eanalytics_api_py/conn/_download_flat_realtime_report.py:205-217 | one batch is one request with `path` set to the batch comma-joined and one frame |
| FlatRealtime.Columned | eanalytics_api_py/conn/_download_flat_realtime_report.py:194-198 | the columns go to `ea-columns` as "name," + dims and kpis, or, with a date scale, `ea-columns` is removed and `date-scale` and `dd-dt` are set |
| FlatRealtime.ColumnedForgetsPrevious | eanalytics_api_py/conn/_download_flat_realtime_report.py:194-198 | setting the columns for a new item overwrites those of the previous one entirely |
| FlatRealtime.PathsToFrames | eanalytics_api_py/conn/_download_flat_realtime_report.py:185-225 | `_all_paths_to_df` succeeds only with at least one path (`pd.concat([])` raises) and then is the batch run over the column-set payload |
| FlatRealtime.AllPathsToDf | eanalytics_api_py/conn/_download_flat_realtime_report.py:185-225 | `_all_paths_to_df` as it runs computes the function above |
| FlatRealtime.GroupedStep | eanalytics_api_py/conn/_download_flat_realtime_report.py:202-218 | one step of the buffer loop: a flush sends the buffer with the path, otherwise the path joins the buffer |
| FlatRealtime.SendBatches | eanalytics_api_py/conn/_download_flat_realtime_report.py:200-218 | the buffer loop computes the batch run over the batches |
| FlatRealtime.FirstSegment | eanalytics_api_py/conn/_download_flat_realtime_report.py:123 | the first segment is formatted with `int(website_id)`; a site without `website_id` is a KeyError |
| FlatRealtime.ItemFrames | eanalytics_api_py/conn/_download_flat_realtime_report.py:115-139 | a path that is not a str or dims that are not a list is a ValueError with nothing sent; a path of one segment is an IndexError (`l_path[1]`) with nothing sent |
| FlatRealtime.ItemsFrames | eanalytics_api_py/conn/_download_flat_realtime_report.py:114-139 | success means every item had a string path and a list of dims |
| FlatRealtime.Downloaded | eanalytics_api_py/conn/_download_flat_realtime_report.py:11-146 | a wrong argument type is a TypeError before anything is sent; a success returns at least one frame |
| FlatRealtime.Fetched | eanalytics_api_py/conn/_download_flat_realtime_report.py:104-146 | success after the view and website lookups returns at least one frame |
| FlatRealtime.CallCarriesView | eanalytics_api_py/conn/_download_flat_realtime_report.py:109 | a GET whose parameters hold `view-id` sends it in its query |
| FlatRealtime.ExpansionCarriesView | eanalytics_api_py/conn/_download_flat_realtime_report.py:163-170 | the id request of a "[%d]" segment carries the payload's `view-id` |
| FlatRealtime.LevelCarriesView | eanalytics_api_py/conn/_download_flat_realtime_report.py:157-172 | every request of one level of the path expansion carries the payload's `view-id` |
| FlatRealtime.AllPathsCarriesView | eanalytics_api_py/conn/_download_flat_realtime_report.py:149-182 | every request of the whole path expansion carries the payload's `view-id` |
| FlatRealtime.BatchFramesCarriesView | eanalytics_api_py/conn/_download_flat_realtime_report.py:200-218 | every batch request carries the payload's `view-id` |
| FlatRealtime.NextPayloadKeepsView | eanalytics_api_py/conn/_download_flat_realtime_report.py:194-198 | setting an item's columns leaves `view-id` as it was |
| FlatRealtime.PathsToFramesCarriesView | eanalytics_api_py/conn/_download_flat_realtime_report.py:185-225 | every request of `_all_paths_to_df` carries the payload's `view-id` |
| FlatRealtime.ItemFramesCarriesView | eanalytics_api_py/conn/_download_flat_realtime_report.py:116-139 | every request made for one item of `path_dim_map` carries the payload's `view-id` |
| FlatRealtime.ItemsFramesCarriesView | eanalytics_api_py/conn/_download_flat_realtime_report.py:115-139 | every request of the item loop carries the payload's `view-id`, though the columns change from item to item |
| FlatRealtime.UnknownViewStops | eanalytics_api_py/conn/_download_flat_realtime_report.py:104-107 | a `view_id` whose `str()` is not a key of the view map ends the call after the view lookup, with nothing else sent; the error is the ValueError exactly when every key is a str, and otherwise the TypeError of the key join |
| FlatRealtime.ViewIdInEveryReportRequest | eanalytics_api_py/conn/_download_flat_realtime_report.py:104-146 | once the view is found, every request sent after the view and website lookups carries `view-id` = `str(view_id)` |
| FlatRealtime.PlainItemOneRequest | eanalytics_api_py/conn/_download_flat_realtime_report.py:115-139 | a path whose segments after the first are plain is requested as that one dot-joined path in a single batch |
| FlatRealtime.QuietExpansion | eanalytics_api_py/conn/_download_flat_realtime_report.py:124-137 | an expansion that sends nothing hands its paths and the untouched replies to the batches |
| FlatRealtime.PlainTailOnePath | eanalytics_api_py/conn/_download_flat_realtime_report.py:122-129 | the expansion of such a path is that one path, dot-joined |
| FlatRealtime.OnePathOneBatch | eanalytics_api_py/conn/_download_flat_realtime_report.py:204 | a single path is a single batch (`len(l_path) == 1`) |
| FlatRealtime.ItemToFrames | eanalytics_api_py/conn/_download_flat_realtime_report.py:115-139 | one item as it runs computes its frames |
| FlatRealtime.ItemsToFrames | eanalytics_api_py/conn/_download_flat_realtime_report.py:114-139 | the item loop computes the frames of every item, in order |
| FlatRealtime.DownloadFlatRealtimeReport | eanalytics_api_py/conn/_download_flat_realtime_report.py:11-146 | `download_flat_realtime_report` as it runs computes the download function |
| FlatRealtime.FetchReport | eanalytics_api_py/conn/_download_flat_realtime_report.py:104-146 | the lookups and the item loop as they run |
| FlatOverview.CheckArgs | eanalytics_api_py/conn/_download_flat_overview_realtime_report.py:67-80 | the arguments pass exactly when the dates and the website and report names are strings and `kpi` a list; otherwise TypeError |
| FlatOverview.FirstUnknown | eanalytics_api_py/conn/_download_flat_overview_realtime_report.py:91-93 | the ids before the position returned are hashable and known; the id at it is unhashable or unknown |
| FlatOverview.ApplyFilter | eanalytics_api_py/conn/_download_flat_overview_realtime_report.py:86-122 | a falsy filter changes nothing; a truthy non-list is a TypeError; a list whose first failing id is unhashable is a TypeError; with hashable ids, an id the platform does not know fails with ValueError exactly when every known key is a str, and with the TypeError of the key join otherwise; otherwise the filter's key is set to the ids comma-joined |
| FlatOverview.FiltersTouchOnlyTheirKeys | eanalytics_api_py/conn/_download_flat_overview_realtime_report.py:86-122 | the filters add only their own keys and leave every other entry as it was |
| FlatOverview.Keyed | eanalytics_api_py/conn/_download_flat_overview_realtime_report.py:86-122 | the four filters go to `ea-subk`, `shoppingcart-k1`, `shoppingcart-k1-custom` and `visitpprofil-k1`, in that order |
| FlatOverview.PayloadKeys | eanalytics_api_py/conn/_download_flat_overview_realtime_report.py:82-122 | the payload holds the dates as given and otherwise only filter keys |
| FlatOverview.DatesAreNoFilterKeys | eanalytics_api_py/conn/_download_flat_overview_realtime_report.py:82-122 | no filter can overwrite a date |
| FlatOverview.ChannelList | eanalytics_api_py/conn/_download_flat_overview_realtime_report.py:140-142 | a falsy `channel` means every key of `d_path`, in order; a list is used as it is; a string is iterated character by character |
| FlatOverview.AddColumns | eanalytics_api_py/conn/_download_flat_overview_realtime_report.py:164-166 | `sub_df[dim] = value` keeps the existing columns in place and adds each new label once, at the end |
| FlatOverview.Rename | eanalytics_api_py/conn/_download_flat_overview_realtime_report.py:168-171 | a rename replaces each mapped label and keeps the others, position by position |
| FlatOverview.ChannelColumns | eanalytics_api_py/conn/_download_flat_overview_realtime_report.py:143-173 | a channel succeeds only when it is a key of the copy with a formattable first segment and list dims; it writes the formatted first segment back into the copy and sends one request for `path` and `ea-columns`; an unknown channel is a KeyError with nothing sent |
| FlatOverview.Fetched | eanalytics_api_py/conn/_download_flat_overview_realtime_report.py:150-173 | one request, one reply, and the copy left as it was handed in |
| FlatOverview.ChannelsColumns | eanalytics_api_py/conn/_download_flat_overview_realtime_report.py:142-173 | one frame per channel |
| FlatOverview.NumberHasNoPercent | eanalytics_api_py/conn/_download_flat_overview_realtime_report.py:144 | a formatted website id holds no '%' |
| FlatOverview.RepeatedChannelRaises | eanalytics_api_py/conn/_download_flat_overview_realtime_report.py:138-144 | a channel listed twice fails the second time with a TypeError, since the copy keeps the segment formatted the first time |
| FlatOverview.UnionLabels | eanalytics_api_py/conn/_download_flat_overview_realtime_report.py:175-178 | the concatenated frame holds exactly the labels of the frames, earlier ones kept |
| FlatOverview.AddColumnsDistinct | eanalytics_api_py/conn/_download_flat_overview_realtime_report.py:164-166 | adding columns never repeats a label |
| FlatOverview.UnionDistinct | eanalytics_api_py/conn/_download_flat_overview_realtime_report.py:175-178 | the concatenated frame has no repeated label |
| FlatOverview.Concat | eanalytics_api_py/conn/_download_flat_overview_realtime_report.py:175-178 | `pd.concat` succeeds exactly when there is at least one frame |
| FlatOverview.Without | eanalytics_api_py/conn/_download_flat_overview_realtime_report.py:185-188 | dropping a label removes every column with it and keeps all others |
| FlatOverview.Override | eanalytics_api_py/conn/_download_flat_overview_realtime_report.py:181-188 | no column appears that was not there, and a column that is no alias stays |
| FlatOverview.OverrideOne | eanalytics_api_py/conn/_download_flat_overview_realtime_report.py:181-188 | an alias column goes exactly when its name column is also present; otherwise nothing changes |
| FlatOverview.DropAliases | eanalytics_api_py/conn/_download_flat_overview_realtime_report.py:181-188 | the override loop drops the alias columns as the function above says |
| FlatOverview.Typing | eanalytics_api_py/conn/_download_flat_overview_realtime_report.py:194-198 | each column keeps its place and becomes category when it is a short name, int64 when its label has no '/', and is left alone otherwise; a non-string label that is no short name is a TypeError |
| FlatOverview.ColumnTypes | eanalytics_api_py/conn/_download_flat_overview_realtime_report.py:194-198 | the typing loop computes the typing above |
| FlatOverview.Reshaped | eanalytics_api_py/conn/_download_flat_overview_realtime_report.py:175-192 | the result exists exactly when some frame was fetched, and is the concatenated columns without the alias columns, renamed with `dim_px_map` |
| FlatOverview.Downloaded | eanalytics_api_py/conn/_download_flat_overview_realtime_report.py:67-200 | a wrong argument type is a TypeError before anything is sent |
| FlatOverview.ChannelLoop | eanalytics_api_py/conn/_download_flat_overview_realtime_report.py:142-173 | the channel loop computes the frames of every channel, on the copy |
| FlatOverview.DownloadFlatOverviewRealtimeReport | eanalytics_api_py/conn/_download_flat_overview_realtime_report.py:67-200 | `download_flat_overview_realtime_report` as it runs computes the download function |
| FlatOverview.View | eanalytics_api_py/conn/_download_flat_overview_realtime_report.py:124-131 | the view check and the website lookup as they run |
| FlatOverview.ChannelColumnsCarriesView | eanalytics_api_py/conn/_download_flat_overview_realtime_report.py:143-158 | a channel's request carries the payload's `view-id` |
| FlatOverview.ChannelsColumnsCarriesView | eanalytics_api_py/conn/_download_flat_overview_realtime_report.py:140-173 | every request of the channel loop carries the payload's `view-id` |
| FlatOverview.ReportedCarriesView | eanalytics_api_py/conn/_download_flat_overview_realtime_report.py:131-173 | every request after the website lookup carries the payload's `view-id` |
| FlatOverview.CheckedCarriesView | eanalytics_api_py/conn/_download_flat_overview_realtime_report.py:126-173 | given the view map, once the view is found every request after the two lookups carries `view-id` |
| FlatOverview.UnknownViewStops | eanalytics_api_py/conn/_download_flat_overview_realtime_report.py:124-127 | a `view_id` whose `str()` is not a key of the view map ends the call after the view lookup, with nothing else sent; the error is the ValueError exactly when every key is a str, and otherwise the TypeError of the key join |
| FlatOverview.ViewIdInEveryChannelRequest | eanalytics_api_py/conn/_download_flat_overview_realtime_report.py:124-173 | once the view is found, every request sent after the view and website lookups carries `view-id` = `str(view_id)` |
| FlatOverview.Report | eanalytics_api_py/conn/_download_flat_overview_realtime_report.py:131-198 | the import, channel loop, concatenation, overrides, renames and typing as they run |
| EaloadGeneric.PathList | eanalytics_api_py/eaload/generic.py:48-52 | a string names one file, a list several, anything else is a TypeError |
| EaloadGeneric.ReadAllFirstFailure | eanalytics_api_py/eaload/generic.py:54-65 | the reads succeed exactly when every file reads, giving one frame per file in order; otherwise the error is that of the first file that fails |
| EaloadGeneric.ReadFiles | eanalytics_api_py/eaload/generic.py:54-65 | the read loop computes the reads above |
| EaloadGeneric.Typed | eanalytics_api_py/eaload/generic.py:97-142 | setting the dtypes keeps every label, every value and the height |
| EaloadGeneric.ChannelLvlPositionIsCategory | eanalytics_api_py/eaload/generic.py:126-140 | `channel_lvl_position` is in the int16 list yet ends as a category, since the last pass makes every `channel_lvl_p*` column one |
| EaloadGeneric.TypedIdempotent | eanalytics_api_py/eaload/generic.py:97-142 | setting the dtypes a second time changes nothing |
| EaloadGeneric.CastListed | eanalytics_api_py/eaload/generic.py:113-134 | each listed label present in the frame is cast, every other column keeps its dtype, and labels and values stay |
| EaloadGeneric.CastRemaining | eanalytics_api_py/eaload/generic.py:136-140 | `channel_lvl_p*` columns and object columns become categories, the others keep their dtype |
| EaloadGeneric.SetColDtypes | eanalytics_api_py/eaload/generic.py:97-142 | `__set_df_col_dtypes` changes the frame in place into its typed form |
| EaloadGeneric.ViewNameInjective | eanalytics_api_py/eaload/generic.py:72-79 | two level-0 columns never copy into the same new label |
| EaloadGeneric.ViewCopiesShape | eanalytics_api_py/eaload/generic.py:71-79 | the copies only add labels, after the existing ones, never repeat one, and keep the height |
| EaloadGeneric.ViewCopiesUntouched | eanalytics_api_py/eaload/generic.py:72-79 | a label no turn writes to keeps its values and dtype |
| EaloadGeneric.ViewCopiesKeep | eanalytics_api_py/eaload/generic.py:71-79 | no column outside the `viewchannel_` names changes |
| EaloadGeneric.LevelZeroIsNotView | eanalytics_api_py/eaload/generic.py:73-77 | a level-0 label is never a `viewchannel_` label |
| EaloadGeneric.CopyStepKeepsLevelZero | eanalytics_api_py/eaload/generic.py:79 | one copy leaves every level-0 column as it was |
| EaloadGeneric.ViewCopiesCopy | eanalytics_api_py/eaload/generic.py:72-79 | every level-0 column gets a copy, with its values and dtype, under its `viewchannel_` name |
| EaloadGeneric.ViewRenamedLabels | eanalytics_api_py/eaload/generic.py:82-93 | every label is renamed by the pattern, count and order kept |
| EaloadGeneric.ViewRenamedShape | eanalytics_api_py/eaload/generic.py:85-89 | `viewchannel_lvl_X` becomes `viewchannel_X`; any other label is left alone |
| EaloadGeneric.RenameMapOf | eanalytics_api_py/eaload/generic.py:83-90 | the loop builds the rename map of every label |
| EaloadGeneric.CopyViewChannels | eanalytics_api_py/eaload/generic.py:71-79 | the copy loop changes the frame in place, over the labels it had when the loop started |
| EaloadGeneric.LoadedColumns | eanalytics_api_py/eaload/generic.py:67-95 | the loaded frame keeps the concatenated columns, in order, with their values; without `viewchannel_lvl_p0` it only gains columns, and with it the labels are renamed, count and values kept |
| EaloadGeneric.CsvFilesToDf | eanalytics_api_py/eaload/generic.py:6-95 | `csv_files_2_df` returns a new frame holding the loaded contents, or the error of the load |
| EaloadDatamining.Input | eanalytics_api_py/eaload/datamining.py:52-69 | a source that is neither a path, a list nor a frame is a ValueError |
| EaloadDatamining.PathIsListOfOne | eanalytics_api_py/eaload/datamining.py:52-53 | a single path loads exactly as the list holding only it |
| EaloadDatamining.FirstsAreTheEntries | eanalytics_api_py/eaload/datamining.py:86-87 | the stub list holds every candidate exactly once, in the order of first appearance |
| EaloadDatamining.TouchpointNameMovesLevel | eanalytics_api_py/eaload/datamining.py:76-80 | a level column `channel_lvl<d>_<x>` is renamed `channel_<x>_<d>` |
| EaloadDatamining.TouchpointStub | eanalytics_api_py/eaload/datamining.py:81-85 | the stub of `channel_<x>_<d>` is `channel_<x>_`, which the reshaped frame calls `channel_<x>` (lines 99-103) |
| EaloadDatamining.TouchpointColumns | eanalytics_api_py/eaload/datamining.py:74-88 | one label per label |
| EaloadDatamining.TouchpointColumnsAt | eanalytics_api_py/eaload/datamining.py:74-88 | each label is renamed on its own, in place |
| EaloadDatamining.CandidatesStep | eanalytics_api_py/eaload/datamining.py:74-88 | one more label appends its new name, and its stub when it is a new level-column stub |
| EaloadDatamining.RenameLevel | eanalytics_api_py/eaload/datamining.py:75-87 | one label's new name, and its stub exactly when it starts with `channel_lvl` |
| EaloadDatamining.RenameTouchpoints | eanalytics_api_py/eaload/datamining.py:71-88 | the loop yields the renamed labels and the distinct stubs in order of first appearance |
| EaloadDatamining.StrippedColumns | eanalytics_api_py/eaload/datamining.py:99-103 | each label loses a final underscore when it starts with `channel_`, count and order kept |
| EaloadDatamining.StripLabels | eanalytics_api_py/eaload/datamining.py:99-103 | the loop yields the stripped labels |
| EaloadDatamining.DropBlank | eanalytics_api_py/eaload/datamining.py:106 | filtering on a missing column is an AttributeError |
| EaloadDatamining.DropBlankRows | eanalytics_api_py/eaload/datamining.py:106 | the labels and dtypes stay, no kept value is blank ('-', 0, None, '0', NaN), and every non-blank value is kept |
| EaloadDatamining.Obtain | eanalytics_api_py/eaload/datamining.py:52-69 | the frame to work on: the caller's own object for a frame, a new one for paths |
| EaloadDatamining.TouchpointsOf | eanalytics_api_py/eaload/datamining.py:71-108 | the frame object is relabeled in place, and the result is the reshaped frame |
| EaloadDatamining.DeduplicateTouchpoints | eanalytics_api_py/eaload/datamining.py:12-108 | `deduplicate_touchpoints`: the load error, or the reshaped frame; a frame the caller passed is relabeled in place |
| EaloadDatamining.LastUnderscore | eanalytics_api_py/eaload/datamining.py:198-200 | the position of the last underscore |
| EaloadDatamining.StubAndIndex | eanalytics_api_py/eaload/datamining.py:198-200 | `"_".join(split[:-1])` is the text before the last underscore, `split[-1]` the text after it |
| EaloadDatamining.PrefixShape | eanalytics_api_py/eaload/datamining.py:184-192 | every product prefix has its only underscore at position 12 |
| EaloadDatamining.PrefixesDiffer | eanalytics_api_py/eaload/datamining.py:184-192 | two different prefixes disagree at position 0, 7 or 13 |
| EaloadDatamining.AtMostOnePrefix | eanalytics_api_py/eaload/datamining.py:196-197 | no label starts with two different prefixes |
| EaloadDatamining.NoLaterPrefix | eanalytics_api_py/eaload/datamining.py:196-201 | once renamed, a label starts with no later prefix, so the inner loop renames it at most once |
| EaloadDatamining.PassMisses | eanalytics_api_py/eaload/datamining.py:196-197 | a label that starts with no prefix is left alone |
| EaloadDatamining.PassSkips | eanalytics_api_py/eaload/datamining.py:196-197 | prefixes the label does not start with are skipped |
| EaloadDatamining.ProductPassOnce | eanalytics_api_py/eaload/datamining.py:195-204 | a product column loses its last underscore and adds its stub once; any other label is kept |
| EaloadDatamining.ProductLabel | eanalytics_api_py/eaload/datamining.py:198-203 | a product label `<stub>_<index>` is renamed `<stub><index>` with stub `<stub>` |
| EaloadDatamining.RenameProduct | eanalytics_api_py/eaload/datamining.py:196-203 | the inner loop for one label |
| EaloadDatamining.ProductColumns | eanalytics_api_py/eaload/datamining.py:195-204 | one label per label |
| EaloadDatamining.ProductColumnsAt | eanalytics_api_py/eaload/datamining.py:195-204 | each label is renamed on its own, in place |
| EaloadDatamining.ProductCandidatesMembers | eanalytics_api_py/eaload/datamining.py:195-204 | the stubs are exactly those of the product columns |
| EaloadDatamining.ProductStep | eanalytics_api_py/eaload/datamining.py:195-204 | one more label appends its new name, and its stub when it is a product column |
| EaloadDatamining.RenameProducts | eanalytics_api_py/eaload/datamining.py:195-204 | the loop yields the renamed labels and the distinct stubs in order of first appearance |
| EaloadDatamining.FirstClash | eanalytics_api_py/eaload/datamining.py:211-213 | none exactly when no stub is a label; otherwise the first stub that is |
| EaloadDatamining.CheckStubs | eanalytics_api_py/eaload/datamining.py:211-213 | the check loop finds the first clash |
| EaloadDatamining.NoProductColumns | eanalytics_api_py/eaload/datamining.py:206-207 | the SystemError is raised exactly when no label starts with a product prefix |
| EaloadDatamining.TrailingUnderscoreClashes | eanalytics_api_py/eaload/datamining.py:209-213 | a frame whose only product label is `<stub>_` raises the ValueError, since its stub equals its renamed label |
| EaloadDatamining.ProductsOf | eanalytics_api_py/eaload/datamining.py:206-223 | the frame object is relabeled in place once a stub was found, and the result is the reshaped frame |
| EaloadDatamining.DeduplicateProducts | eanalytics_api_py/eaload/datamining.py:111-223 | `deduplicate_products`: the load error, or the reshaped frame; a frame the caller passed is relabeled in place exactly when a product column was found |
| DataminingHelper.RefColumn | eanalytics_api_py/datamining_helper.py:70-80 | a language other than fr, en, es is a KeyError (even when a column is given); a given column is used as it is, otherwise the language's default |
| DataminingHelper.HeaderParts | eanalytics_api_py/datamining_helper.py:88 | the header line splits into at least one name |
| DataminingHelper.NumbersOf | eanalytics_api_py/datamining_helper.py:88-103 | the numbers are exactly those of the product names, and there is none exactly when no name ends in ` # <digits>` |
| DataminingHelper.TemplatesOf | eanalytics_api_py/datamining_helper.py:94-100 | the templates are exactly those of the product names |
| DataminingHelper.OthersOf | eanalytics_api_py/datamining_helper.py:102-103 | the other names are exactly the stripped names that are not product names |
| DataminingHelper.ClassifyStep | eanalytics_api_py/datamining_helper.py:88-103 | one more name adds its number and template when it is a product name, and is appended to the others otherwise |
| DataminingHelper.ClassifyHeader | eanalytics_api_py/datamining_helper.py:88-103 | the header loop computes the numbers, the other names and the templates |
| DataminingHelper.NumberedTail | eanalytics_api_py/datamining_helper.py:64 | ` # ` and a numeral at the end of a name is where the pattern matches |
| DataminingHelper.ProductHeader | eanalytics_api_py/datamining_helper.py:90-100 | a header `<p> # <k>` has number k and template `<p> # {}`, and filling the template with k gives the header back |
| DataminingHelper.FilledReadsBack | eanalytics_api_py/datamining_helper.py:114-126 | whatever number fills it, the template of `<p> # <k>` names a column that reads back as `<p>` |
| DataminingHelper.SetMax | eanalytics_api_py/datamining_helper.py:113 | the largest product number is one of them and no other exceeds it |
| DataminingHelper.MaxOf | eanalytics_api_py/datamining_helper.py:113 | `max(n_products)` computes that largest number |
| DataminingHelper.UnsuffixedAll | eanalytics_api_py/datamining_helper.py:126 | every label loses its ` # <k>` suffix, count kept |
| DataminingHelper.DropZeros | eanalytics_api_py/datamining_helper.py:132-133 | dropping the rows without a product keeps every label |
| DataminingHelper.ProductFrameRows | eanalytics_api_py/datamining_helper.py:114-133 | the part read for number i keeps its labels and exactly its rows whose reference is neither 0 nor "0" |
| DataminingHelper.GatherParts | eanalytics_api_py/datamining_helper.py:113-135 | when the reads succeed there is one part per product number from 1 to n, in order |
| DataminingHelper.GatherStops | eanalytics_api_py/datamining_helper.py:113-135 | a failure at number k is the failure of every later count |
| DataminingHelper.ReadProduct | eanalytics_api_py/datamining_helper.py:114-135 | one turn of the loop computes that product number's part |
| DataminingHelper.ReadParts | eanalytics_api_py/datamining_helper.py:113-135 | the loop computes the parts for numbers 1 to the largest |
| DataminingHelper.ProductColsParts | eanalytics_api_py/datamining_helper.py:5-137 | a success stacks one part per product number from 1 to the largest one, which is positive |
| DataminingHelper.DeduplicateProductColsFile | eanalytics_api_py/datamining_helper.py:5-137 | `deduplicate_product_cols_file_2_df` as it runs |
| Pddf.ArgError | eanalytics_api_py/eatransform/pddf.py:24-31 | the arguments pass exactly when `df` is a frame and `colname_idx` a dict; a frame with a non-dict is a TypeError, and a non-frame is a TypeError (or fails in `copy` first) |
| Pddf.FirstKey | eanalytics_api_py/eatransform/pddf.py:33-43 | an empty dict gives nothing; a non-string key is a TypeError, a key that is not a column a ValueError, and a non-int index a TypeError, checked in that order |
| Pddf.Lifted | eanalytics_api_py/eatransform/pddf.py:48-54 | once dropped, the column is gone |
| Pddf.Relocated | eanalytics_api_py/eatransform/pddf.py:48-60 | the move succeeds exactly when `insert` accepts the position |
| Pddf.MoveColumns | eanalytics_api_py/eatransform/pddf.py:5-62 | `move_columns`: argument errors come first; otherwise the result is the first key moved (None for an empty dict); without `inplace` the caller's frame is unchanged and a moved frame is new, with it the caller's frame is the one changed and returned |
| Pddf.Remove | eanalytics_api_py/eatransform/pddf.py:50-54 | removing an entry shortens by one |
| Pddf.Move | eanalytics_api_py/eatransform/pddf.py:48-60 | a move keeps the length |
| Pddf.MoveAt | eanalytics_api_py/eatransform/pddf.py:48-60 | every position of the moved sequence holds the entry of its origin, and origins are one-to-one |
| Pddf.MoveKeeps | eanalytics_api_py/eatransform/pddf.py:48-60 | the moved entry lands at its index, the others keep their relative order, and the entries are a permutation of the old ones |
| Pddf.MoveInPlace | eanalytics_api_py/eatransform/pddf.py:45-60 | moving an entry to where it already is changes nothing |
| Pddf.MoveDistinct | eanalytics_api_py/eatransform/pddf.py:48-60 | a move keeps labels distinct |
| Pddf.DroppedAbsent | eanalytics_api_py/eatransform/pddf.py:50-54 | dropping a label that does not occur keeps everything |
| Pddf.DroppedOnce | eanalytics_api_py/eatransform/pddf.py:50-54 | dropping a label that occurs once removes that entry |
| Pddf.RelocatedMoves | eanalytics_api_py/eatransform/pddf.py:48-60 | with distinct labels a relocation is the move of one position |
| Pddf.RelocatedPlaces | eanalytics_api_py/eatransform/pddf.py:48-60 | the column lands at idx with its values and dtype, every other column keeps its values, dtype and relative order, and the labels are a permutation of the old ones |
| Pddf.AlreadyInPlace | eanalytics_api_py/eatransform/pddf.py:45-60 | `next` does nothing: a column already at idx is dropped and inserted again, and the frame comes back the same |
| Pddf.FirstItemOnly | eanalytics_api_py/eatransform/pddf.py:33-62 | as written only the first item of the dict is read, and an empty dict gives None |
| Pddf.MoveAll | eanalytics_api_py/eatransform/pddf.py:33-62 | every key moved in turn keeps the labels distinct, a permutation of the old ones, and the height |
| Pddf.MoveAllLast | eanalytics_api_py/eatransform/pddf.py:33-62 | with every key moved, the last key ends at its index |
| Pddf.FirstKeyPasses | eanalytics_api_py/eatransform/pddf.py:33-43 | a string key naming a column, with an int value, passes the checks |
| Pddf.MoveAllStep | eanalytics_api_py/eatransform/pddf.py:33-62 | one key moved, then the rest |
| Pddf.FirstOfThree | eanalytics_api_py/eatransform/pddf.py:48-60 | `[a, b, c]` with a moved to 1 is `[b, a, c]` |
| Pddf.LastOfThree | eanalytics_api_py/eatransform/pddf.py:48-60 | `[b, a, c]` with c moved to 0 is `[c, b, a]` |
| Pddf.SecondKeyIgnored | eanalytics_api_py/eatransform/pddf.py:33-62 | for `[a, b, c]` and `{a: 1, c: 0}` the code as written gives `[b, a, c]`, while moving every key gives `[c, b, a]` |
| EulerianDatamining.DateText | eulerian_analytics/datamining.py:125-126 | a date is read when the payload holds it as a string, with every '/' replaced by '_' |
| EulerianDatamining.OutputName | eulerian_analytics/datamining.py:127-128 | the default name is `website_type_from_to.csv.gz` |
| EulerianDatamining.DefaultNameRepeatsStart | eulerian_analytics/datamining.py:125-128 | as written, the default name holds the start date twice and never reads `date-to` |
| EulerianDatamining.IntendedNameTellsEndsApart | eulerian_analytics/datamining.py:125-128 | as intended, equal names for the same website, type and start mean the same end date |
| EulerianDatamining.Targeted | eulerian_analytics/datamining.py:53-62 | a path that is not a string fails in `split`; a non-empty path is the target; a path without '/' has no directory |
| EulerianDatamining.SplitWithout | eulerian_analytics/datamining.py:53-57 | a path splits into one part exactly when it holds no '/' |
| EulerianDatamining.DirIsFileName | eulerian_analytics/datamining.py:53-55 | as written, for `d/f` the directory to create is `f`, the file name |
| EulerianDatamining.IntendedDirHoldsFile | eulerian_analytics/datamining.py:53-55 | as intended, for `d/f` the directory is `d`, which holds the file |
| EulerianDatamining.EmptyPathIsNamed | eulerian_analytics/datamining.py:60-62 | an empty path gets the default name and no directory |
| EulerianDatamining.Prepared | eulerian_analytics/datamining.py:64-65 | a set directory that does not exist is created; nothing else changes on disk |
| EulerianDatamining.Checked | eulerian_analytics/datamining.py:77-78 | the reply is decoded; an API error gives none, a reply that is not JSON a JSONDecodeError |
| EulerianDatamining.Searched | eulerian_analytics/datamining.py:76-81 | the search is one GET to `search.json` with the payload; an API error returns none, otherwise the `jobrun_id` of the reply |
| EulerianDatamining.StatusTick | eulerian_analytics/datamining.py:88-92 | a status reply is an error, COMPLETED, or pending |
| EulerianDatamining.Polled | eulerian_analytics/datamining.py:84-92 | each poll reads one reply |
| EulerianDatamining.PollStatus | eulerian_analytics/datamining.py:84-92 | the `while not ready` loop computes the poll |
| EulerianDatamining.PolledShape | eulerian_analytics/datamining.py:84-92 | a poll that answers read n replies: n - 1 pending, then COMPLETED (true) or an API error (false), with a 5-second sleep and one status request each |
| EulerianDatamining.Ticks | eulerian_analytics/datamining.py:86-88 | n turns are n sleeps and n requests |
| EulerianDatamining.Chunks | eulerian_analytics/datamining.py:100 | the pieces are non-empty and at most 5 MB each |
| EulerianDatamining.ChunksRejoin | eulerian_analytics/datamining.py:100-101 | writing every piece in turn writes the whole body |
| EulerianDatamining.WriteChunks | eulerian_analytics/datamining.py:100-101 | the write loop writes the pieces joined |
| EulerianDatamining.Fetched | eulerian_analytics/datamining.py:94-104 | the file is opened at the target; with a reply, one export request is sent and its body written, and the path returned |
| EulerianDatamining.Awaited | eulerian_analytics/datamining.py:81-104 | the disk changes only by the opened file, and not at all when 0 is returned |
| EulerianDatamining.Job | eulerian_analytics/datamining.py:72-104 | a returned path is the target, opened on disk |
| EulerianDatamining.Proceeded | eulerian_analytics/datamining.py:64-104 | a returned path exists afterwards, and no file or directory is removed |
| EulerianDatamining.Downloaded | eulerian_analytics/datamining.py:7-104 | `download`: a returned path exists afterwards, and no file or directory is removed |
| EulerianDatamining.Fetch | eulerian_analytics/datamining.py:94-104 | the export as it runs |
| EulerianDatamining.RunJob | eulerian_analytics/datamining.py:72-104 | search, poll and export as they run |
| EulerianDatamining.Proceed | eulerian_analytics/datamining.py:64-104 | mkdir, the skip and the job as they run |
| EulerianDatamining.Download | eulerian_analytics/datamining.py:7-104 | `download` as it runs |
| EulerianDatamining.ExistingFileIsKept | eulerian_analytics/datamining.py:67-69 | an existing file without `override_file` is returned with no request and no file written |
| EulerianDatamining.SearchErrorIsZero | eulerian_analytics/datamining.py:78-79 | an API error on the search returns 0 after that one request, and writes nothing |
| EulerianDatamining.StatusErrorIsZero | eulerian_analytics/datamining.py:89-90 | an API error on a status reply returns 0, and writes nothing |
| EulerianDatamining.WrittenFileIsTheExport | eulerian_analytics/datamining.py:76-104 | a written file means the search gave a jobrun id, the polls ended COMPLETED, and the export of that id was requested and its body written to the target |
| EulerianDatamining.OtherRangeIsSkipped | eulerian_analytics/datamining.py:62-69 | as written, a default file on disk for another end date is taken for this download, with nothing requested |
| EulerianDatamining.MadeDirIsFileName | eulerian_analytics/datamining.py:53-65 | as written, for `d/f` a directory named `f` is created before anything is sent |
| EulerianDatamining.MadeDirHoldsFile | eulerian_analytics/datamining.py:53-65 | as intended, for `d/f` the directory `d` that holds the file is created first |

## Left out

- HTTP itself (`requests`, `urllib`) is the reply script; the public address the ipify lookup returns is a parameter (`ipify`) of the EDW download. The request headers, including `Authorization`, are not recorded in the trace, only the verb, URL, query and JSON body.
- The polls have no client timeout; a server that never answers "COMPLETED" or "Done" is a script that runs out, which ends the run with `NoReply`.
- `time.sleep` is an event in the trace; no time passes.
- Logging (`internal/_log.py`, `Conn._log`, `log` of `eulerian_analytics/helper.py`) is left out: it changes no result.
- `datetime.strptime`/`strftime` and `hashlib.md5` are parameters of the functions that use them; dates are day numbers.
- The regular expressions are written out by hand for the patterns the code uses; `\d` and `\w` are taken as ASCII only, `\s` as Python's whitespace set, and `$` matches at the end or before a final newline.
- `str()` of floats, lists and dictionaries is a fixed placeholder; only strings, integers, booleans and None are rendered as Python renders them.
- URL percent-encoding of query parameters is left out: the query is kept as the dictionary sent.
- ijson streaming, gzip compression, CSV quoting and chunk sizes in bytes are left out: a written file is its sequence of rows, and the body of a JSON export reply is written as its `str()`. A dict holding the key "item" where a list is expected also matches ijson's `….item` prefixes (conn/_download_datamining.py:228 and 275; conn/_download_edw.py:225, 232 and 239); the model takes only list items there.
- pandas internals are parameters or left out: `read_csv`, `wide_to_long`, `concat` (beyond its refusal of an empty list and, for the overview report, the labels it keeps, in FlatOverview.Concat; EaloadGeneric.Loaded and the loaders built on it take `concat` as a parameter with no property, so there not even its columns are modelled), `reset_index` and `astype` (beyond the dtype chosen). A frame is its labels, dtypes and, where rows matter, its columns of values.
- `isin` with NaN and the comparison `!= 0` follow Python equality on the model's values; NumPy's NaN semantics beyond `PNaN` are left out.
- DataminingHelper.Requested: `usecols` is a set of labels, so the column order of each part is not modelled.
- FlatOverview.Override: the overview frames are their column labels only; the row values, including the copy of name values into zero alias cells (lines 183-184), are not modelled.
- FlatOverview.Typing: duplicate column labels, for which pandas' `df[col]` returns a frame, are not modelled.
- FlatRealtime.Filters: the conversion by `check_convert_realtime_filter` is code outside this model and is a parameter.
- The filter maps (`get_mdevicetype_id_name_map` and the three others) come from code outside this model and are parameters of FlatOverview.
- The path modules of the overview report (`internal/realtime_overview/path/`) are a parameter; their tables are data.
- Pddf.MoveColumns: labels are assumed distinct; a position outside 0..number of remaining columns is an IndexError; a `bool` index passes the `int` check as in Python.
- Pddf.ArgError: a non-frame `df` is assumed to have no `copy` unless it is a dict or a list.
- `os.makedirs`/`os.mkdir` of nested directories is one `MakeDir` event; parent directories are not modelled.
- Exception messages follow the source; the wording Python itself adds (for example in a `TypeError` from `%`) is not modelled.
- `download_edw` and `download_realtime_report` of `conn.py` (lines 246-306 and 619-839) are not modelled; the `conn/` package versions are.
- `conn/_download_realtime_report.py` is a single request into a frame and is not modelled.
- `query_string_to_column` of `pddf.py` has no body and is not modelled.
- `internal/_os.py` (file removal and directory creation) is represented only by the `Disk` events.
- Connection.ViewMap: a non-empty dict as `data.rows` is iterated over its keys in insertion order by Python; `PDict` does not keep that order, so the model refuses it with TypeError. Lists, strings and the empty dict are iterated as Python iterates them.
- Connection.ViewMapContents: states the view map of the pairs, so it inherits the gap of Connection.ViewMap for a non-empty dict of rows.
- FlatRealtime.IdRows: a non-empty dict as `data.rows` is refused with TypeError, for the same reason as in Connection.ViewMap.
- FlatRealtime.FrameOf: a non-empty dict of columns or another object as `data.rows` is refused with TypeError; pandas builds a frame from it. A list whose items are not all lists is taken item for item as rows; pandas matches dict rows to the columns by key and lays out scalar or mixed rows by its own rules. The None that fills a short row is kept as None, where pandas may show it as NaN in a numeric column.
- FlatOverview.ChannelList: a non-empty dict as `channel` is refused with TypeError; Python iterates its keys in insertion order.
- DataminingHelper.Fill: the product header names are taken to hold no '{' or '}'. With them, `str.format` reads "{{" as one brace, fills "{0}" with the number and raises KeyError, IndexError or ValueError for other braces; the model puts the number only at the place of the suffix.
- DataminingHelper.ProductHeader: inherits the brace gap of DataminingHelper.Fill.
- DataminingHelper.FilledReadsBack: inherits the brace gap of DataminingHelper.Fill.
- Edw.DownloadRequest: a list or a dict as `data[1]` goes through the `str()` placeholder. In Python its text may look like a scheme, and the refusal then comes later, from `urlopen`. Whether `urlopen` supports a scheme is not checked.
- FlatRealtime.FormatFrom: flags, widths, precisions and the conversions "%x", "%X", "%o", "%e", "%f", "%g" and "%c" are refused (ValueError before the integer is used, TypeError after it, as Python does for unknown conversions); Python formats them. The path segments of the package use "%d" only.
- FlatRealtime.FirstSegment: inherits the conversions left out of FlatRealtime.FormatFrom.
- FlatOverview.ChannelColumns: inherits the conversions left out of FlatRealtime.FormatFrom.
- Python dicts treat `1`, `True` and `1.0` as one key (equal values with equal hashes); the model's maps with `Py` keys (Connection.Collect, Connection.RowPairs, FlatOverview.FirstUnknown) treat `PInt(1)`, `PBool(true)` and `PFloat(1.0)` as different keys.
- The column labels of a frame (`DataFrames.Table.columns`) are strings; a frame passed in with a non-string label, for which `col_name.startswith` raises AttributeError (eanalytics_api_py/eaload/datamining.py:75, 101 and 197), cannot be represented.
- Datamining.Start: dates are unbounded day numbers, so a slice whose end falls after 9999-12-31, where Python's date arithmetic in the slice loop raises OverflowError, is not refused. The `timedelta` bound of `n_days_slice` is modelled.
- LegacyConn.Start: the same gap for dates after 9999-12-31; the `timedelta` bound of `n_days_slice` (conn.py:560) is modelled in LegacyConn.Validate.
- LegacyConn.Transcoded: a non-empty dict under `data.rows` is refused with TypeError; Python writes one row per key, in insertion order, which `PDict` does not keep. Lists, strings, the empty dict, null and scalars are handled as Python handles them.
- Remote.Exists: paths are compared as strings, and no path is normalised, so `./data.csv.gz` and `data.csv.gz` are different files here. With `output_path2file="./data.csv.gz"`, eulerian_analytics/datamining.py:53-65 makes a directory `data.csv.gz`; Python then finds the path existing and returns without downloading, while the model downloads.
- Remote.Opened: opening a path where a directory exists is not refused; Python's `gzip.open` raises IsADirectoryError there.
- Datamining.DownloadDatamining: the caller's payload dict is taken as a value. The source writes into it `view-id` (conn/_download_datamining.py:97 and 106) and the dates of each slice (lines 147-148); the caller does not see these writes in the model.
- Datamining.RerunSendsNothing: the rerun is given the payload of the first call as the caller passed it, not as the first call left it.
- LegacyConn.SetupFor: the write of `view-id` into the caller's payload (conn.py:584 and 590) is not visible to the caller.
- LegacyConn.DownloadDatamining: the writes of `view-id` and of each slice's dates (conn.py:387-388) into the caller's payload are not visible to the caller.
- The Jupyter presentation code (`eajupyter/`, `jupyter/`), the payload tables of `earequest/` and `setup.py` are not modelled.

## Findings

| source | as written | input that shows it | evidently intended | confidence | as-written member | corrected member |
|---|---|---|---|---|---|---|
| eanalytics_api_py/conn.py:478-482 | `(\d)+$` captures only the last digit of the product number | header `"p : color # 12"` gives `productparam_color_1` | the whole number: `productparam_color_11`, as the `conn/` package does with `(\d+)$` | high, not executed | HeaderNames.LegacyProductLabelIndex | HeaderNames.ProductLabelRoundTrip |
| eulerian_analytics/datamining.py:125-126 | the default name reads `date-from` twice | two payloads with date-from 01/01/2020 and date-to 01/31/2020 and 12/31/2020 get the same file name, so the second download is skipped | the second date is `date-to` | high, not executed | EulerianDatamining.OtherRangeIsSkipped | EulerianDatamining.IntendedNameTellsEndsApart |
| eulerian_analytics/datamining.py:53-55 | the directory made for `d/f` is `splitted[-1]`, the file name | `output_path2file="out/data.csv.gz"` creates a directory `data.csv.gz` | the directory is what precedes the last '/' (`out`) | high, not executed | EulerianDatamining.MadeDirIsFileName | EulerianDatamining.MadeDirHoldsFile |
| eanalytics_api_py/conn/_download_edw.py:127-172 | `search_url` is bound only when no `jobrun_id` is given, yet read after the poll in every case | `download_edw(query, jobrun_id="123")` polls, then raises UnboundLocalError (a NameError) | the jobs URL is bound whatever the caller passes | high, not executed | Edw.SuppliedJobrunNameError | Edw.SuppliedJobrunStreams |
| eanalytics_api_py/eatransform/pddf.py:33-62 | `return df` sits inside the loop, so only the first key is moved | columns `[a, b, c]` with `{a: 1, c: 0}` give `[b, a, c]` | every key moved in turn: `[c, b, a]` | high, not executed | Pddf.SecondKeyIgnored | Pddf.MoveAllLast |
