# rashed_sora_sdk in Dafny

A model of the Python client library for Azure OpenAI's Sora video-generation service, with proofs about that model. It covers four parts:

- **The request-constraint layer** (`validation.py`). This covers the nine supported resolutions, the 1–20 second duration range, and the three resolution categories (1080p, 720p, other) that cap the number of variants at 1, 2 or 4. The checks run in a fixed order, and the first failure is reported with an exact message.
- **The data model** (`models/__init__.py`):
  - the `JobStatus` and `FailureReason` enums;
  - `CreateVideoGenerationRequest`, with its construction-time checks and `to_dict`;
  - the `from_dict` decoders for generations, jobs and job lists. Each decoder fails where the Python raises, in the Python evaluation order.
- **The client around the network** (`client.py`):
  - configuration resolution, and normalisation of the endpoint's trailing slash;
  - URL and query-string building;
  - the wire payload of a creation request;
  - how validation errors and HTTP responses become `SoraClientError`;
  - the 204 short-circuit on delete;
  - content download and save;
  - the polling loop.
- **The example CLI workflow** (`examples/cli.py`):
  - the resolution gate, and clamping of duration and variants;
  - the mapping of poll results;
  - download accumulation, where a failed GIF never removes a saved video;
  - the rule that downloads finish before the job is deleted.

Python values appear as a `Value` datatype: None, bool, int, str, list and dict. A dict is an ordered list of entries, because the payload and the query string depend on insertion order. Each network exchange is an input: either the response the service gave (status, reason, content type, body, and the parsed JSON when the body parses), or the text of the exception the HTTP library raised. Polling takes the sequence of fetch results as input, and downloading takes the outcome of every save call.

Two points about the classification and the formatting:

- **720x1280 and 1280x720.** These fall in the 1080p category, because one side is at least 1080, so they allow one variant (`Validation.OnlySquare480IsOther`).
- **Formatting a known failure reason.** A known `FailureReason` formats as `FailureReason.X` (for example `FailureReason.INPUT_MODERATION`) under Python 3.11+ f-strings, which the example requires.

Files:

- `wrappers.dfy`: Option and Result.
- `values.dfy`: Python values, `str()` and `repr()`, and decimal rendering with its inverse.
- `validation.dfy`, `models.dfy`, `client.dfy`, `cli.dfy`: one module per source file.

## Model

| member | source | states |
|---|---|---|
| Validation.CategoryOf | rashed_sora_sdk/rashed_sora_sdk/validation.py:57-73 | 1080p iff a dimension is at least 1080; 720p iff both are below 1080 and one is at least 720; other iff both are below 720 |
| Validation.CategoryOfValues | rashed_sora_sdk/rashed_sora_sdk/validation.py:68-73 | on numbers it agrees with CategoryOf; a non-numeric width raises TypeError before the height is looked at |
| Validation.MaxVariantsFor | rashed_sora_sdk/rashed_sora_sdk/validation.py:178-190 | the ceiling is 1 iff a dimension reaches 1080, 4 iff both are below 720, and always one of 1, 2, 4 |
| Validation.MaxDurationFor | rashed_sora_sdk/rashed_sora_sdk/validation.py:164-175 | the maximum duration is 20 for every resolution |
| Validation.ValidateResolution | rashed_sora_sdk/rashed_sora_sdk/validation.py:90-97 | succeeds iff (width, height) is one of the nine listed pairs, returns the pair unchanged, otherwise raises the unsupported-resolution error naming both values |
| Validation.SupportedListingText | rashed_sora_sdk/rashed_sora_sdk/validation.py:91-95 | the rejection message lists all nine pairs as WxH in list order, separated by ", " |
| Validation.ResolutionTexts | rashed_sora_sdk/rashed_sora_sdk/validation.py:92 | each supported pair renders as its decimal WxH text |
| Validation.ValidateDuration | rashed_sora_sdk/rashed_sora_sdk/validation.py:115-123 | succeeds iff 1 <= d <= 20 and returns d; the minimum is checked before the maximum; a non-number raises TypeError; width and height play no part |
| Validation.ValidateVariants | rashed_sora_sdk/rashed_sora_sdk/validation.py:141-161 | v <= 0 is rejected before the category is consulted; on numbers, success iff 1 <= v <= the ceiling, and v is returned unchanged; above the ceiling the error carries the category, the ceiling and v |
| Validation.CheckAll | rashed_sora_sdk/rashed_sora_sdk/validation.py:211-213 | succeeds iff all three constraints hold; otherwise the resolution error, else the duration error, else the variants error |
| Validation.ValidateRequest | rashed_sora_sdk/rashed_sora_sdk/validation.py:206-215 | reads width, height and n_seconds (absent = None) and n_variants (absent = 1); succeeds iff those are acceptable, and returns the input unchanged; a rejection is the first failure CheckAll reports on those values |
| Validation.OnlySquare480IsOther | rashed_sora_sdk/rashed_sora_sdk/validation.py:25-35 | among the supported pairs, only 480x480 is in the 4-variant category; 480x854, 854x480 and 720x720 are 720p; the rest are 1080p |
| Models.ParseStatus | rashed_sora_sdk/rashed_sora_sdk/models/__init__.py:19-27 | a string converts to a JobStatus iff it is one of the seven values, and that member's value is the string |
| Models.StatusRoundTrip | rashed_sora_sdk/rashed_sora_sdk/models/__init__.py:19-27 | every member's value converts back to that member |
| Models.ParseReason | rashed_sora_sdk/rashed_sora_sdk/models/__init__.py:30-33 | a string converts to a FailureReason iff it is one of the two values, and that member's value is the string |
| Models.NewRequest | rashed_sora_sdk/rashed_sora_sdk/models/__init__.py:45-53 | construction succeeds iff resolution, duration and variants are all acceptable, keeps the fields, and otherwise reports the first failing check in that order |
| Models.ToDictShape | rashed_sora_sdk/rashed_sora_sdk/models/__init__.py:55-63 | to_dict has exactly the keys prompt, height, width, n_seconds, n_variants, in that order, holding the field values unchanged |
| Models.ToDictValidates | rashed_sora_sdk/rashed_sora_sdk/models/__init__.py:45-63 | validate_request accepts a request's dict iff the request could be constructed, and then returns the dict unchanged |
| Models.Field | rashed_sora_sdk/rashed_sora_sdk/models/__init__.py:81-87 | data[key] succeeds iff data is a dict holding key, and yields the value stored there |
| Models.FieldOr | rashed_sora_sdk/rashed_sora_sdk/models/__init__.py:113-114 | data.get(key, default) succeeds iff data is a dict, and yields the stored value or the default |
| Models.Iterate | rashed_sora_sdk/rashed_sora_sdk/models/__init__.py:113-114 | iterating a list yields its items; only lists, dicts and strings can be iterated |
| Models.DecodeEach | rashed_sora_sdk/rashed_sora_sdk/models/__init__.py:162-163 | a comprehension of decodes succeeds iff every element decodes, keeps order and length, and otherwise raises the error of the first element that fails |
| Models.DecodeGeneration | rashed_sora_sdk/rashed_sora_sdk/models/__init__.py:77-88 | succeeds iff the data is a dict with all seven keys; id, job_id, created_at, width, height, n_seconds and prompt are the stored values |
| Models.DecodeStatus | rashed_sora_sdk/rashed_sora_sdk/models/__init__.py:117-119 | fails iff the status is a string that is not a JobStatus value; otherwise the converted status stands for the original value, and only non-strings stay unconverted |
| Models.DecodeReason | rashed_sora_sdk/rashed_sora_sdk/models/__init__.py:122-128 | becomes a FailureReason iff it is a non-empty string naming one |
| Models.ReasonRoundTrip | rashed_sora_sdk/rashed_sora_sdk/models/__init__.py:122-128 | absent, empty, non-string and unknown reasons pass through unchanged; a converted reason stands for its string |
| Models.DecodeJob | rashed_sora_sdk/rashed_sora_sdk/models/__init__.py:110-141 | a non-dict fails as .get does; decoding succeeds iff the generations decode, "status" is present and converts, and id, prompt, n_variants, n_seconds, height and width are all present; a missing "status" is a KeyError and an unknown status string is the ValueError; on success the status is the converted one, the six copied fields are the stored values, finished_at is None when absent, the reason is converted, and generations are decoded in order, or are empty when absent, an empty dict or an empty string |
| Models.DecodeJobList | rashed_sora_sdk/rashed_sora_sdk/models/__init__.py:159-169 | a non-dict fails; decoding succeeds iff every job under "data" (default []) decodes and has_more, first_id and last_id are present; a missing has_more is the KeyError; on success those three are copied verbatim and the jobs are decoded in order, or are empty when absent, an empty dict or an empty string |
| Client.Either | rashed_sora_sdk/rashed_sora_sdk/client.py:94-97 | an argument is used when given and non-empty, otherwise the environment value |
| Client.ResolveSettings | rashed_sora_sdk/rashed_sora_sdk/client.py:94-107 | fails on a missing endpoint, then a missing API key, then a missing deployment, in that order; succeeds iff all three are present; api_version is the argument, else the environment, else 2025-04-01-preview |
| Client.NormalizeEndpoint | rashed_sora_sdk/rashed_sora_sdk/client.py:109-110 | the result ends in "/", and a slash is appended only when absent |
| Client.NormalizeIdempotent | rashed_sora_sdk/rashed_sora_sdk/client.py:109-110 | normalising twice equals normalising once |
| Client.SoraClient.constructor | rashed_sora_sdk/rashed_sora_sdk/client.py:94-110 | the fields hold the resolved settings, and the endpoint is the normalised one |
| Client.Connect | rashed_sora_sdk/rashed_sora_sdk/client.py:69-110 | raises the configuration error iff resolution fails; otherwise a fresh client configured with the resolved settings, whose endpoint ends in "/" |
| Client.ContentBaseUrl | rashed_sora_sdk/rashed_sora_sdk/client.py:247-252 | the content base URL is the same string as the API base URL |
| Client.Upsert | rashed_sora_sdk/rashed_sora_sdk/client.py:239 | assigning an existing key keeps the key order; a new key is appended last; the first key never changes |
| Client.UpsertValues | rashed_sora_sdk/rashed_sora_sdk/client.py:239 | after the assignment the pair (k, v) is present, and every entry under another key is unchanged |
| Client.MergedKeepsApiVersionFirst | rashed_sora_sdk/rashed_sora_sdk/client.py:237-241 | after the update the query is never empty and api-version is its first key |
| Client.MergedAppends | rashed_sora_sdk/rashed_sora_sdk/client.py:237-239 | extra params without api-version come after api-version=preview, in their own order |
| Client.QueryStringAppend | rashed_sora_sdk/rashed_sora_sdk/client.py:241 | appending a pair adds "&k=v" to the query string |
| Client.ListUrl | rashed_sora_sdk/rashed_sora_sdk/client.py:361-363 | the list URL is base + "jobs?api-version=preview&limit=" followed by the decimal limit |
| Client.SoraClient.AppendQuery | rashed_sora_sdk/rashed_sora_sdk/client.py:237-245 | the in-place dict update loop yields url + "?" + the query of api-version=preview updated with the params |
| Client.SoraClient.BuildUrl | rashed_sora_sdk/rashed_sora_sdk/client.py:233-245 | the URL is base + path + "?" + the query string |
| Client.SoraClient.BuildContentUrl | rashed_sora_sdk/rashed_sora_sdk/client.py:254-266 | the same URL as BuildUrl for the same path and params |
| Client.WireNumberRoundTrip | rashed_sora_sdk/rashed_sora_sdk/client.py:167-170 | an int is sent as its decimal string, which reads back as the same int; a string is sent as itself |
| Client.Payload | rashed_sora_sdk/rashed_sora_sdk/client.py:164-171 | the payload has exactly the keys model, prompt, height, width, n_seconds, n_variants, in that order |
| Client.PayloadExample | rashed_sora_sdk/rashed_sora_sdk/client.py:164-171 | a 1080x1080, 5-second, 1-variant request is sent with model set to the deployment name, the prompt, and the strings "1080", "1080", "5", "1" |
| Client.NumbersOnTheWire | rashed_sora_sdk/rashed_sora_sdk/client.py:167-170 | 1, 4, 5 and 1080 are sent as "1", "4", "5" and "1080" |
| Client.ValidateCheckedFields | rashed_sora_sdk/rashed_sora_sdk/validation.py:206-213 | validate_request on a dict holding exactly the four checked keys accepts iff their values are acceptable |
| Client.PrepareSubmissionAsWritten | rashed_sora_sdk/rashed_sora_sdk/client.py:164-182 | as written: the payload goes out iff validate_request accepts the caller's dict |
| Client.PrepareSubmission | rashed_sora_sdk/rashed_sora_sdk/client.py:164-182 | corrected: the payload goes out iff the values it carries (after the duration and variants fallbacks and the defaults) are acceptable |
| Client.SubmittedPayloadIsValid | rashed_sora_sdk/rashed_sora_sdk/client.py:164-182 | every payload that goes out carries a supported resolution as decimal strings, a duration in range and a variant count within the resolution's ceiling |
| Client.SubmissionChecksAgreeOnRequests | rashed_sora_sdk/rashed_sora_sdk/client.py:159-176 | for a typed request the check as written and the corrected check give the same result, failure included |
| Client.AliasedVariantsChecks | rashed_sora_sdk/rashed_sora_sdk/client.py:169-176 | with "variants" in place of "n_variants", the check as written judges a count of 1 while the payload sends the caller's count |
| Client.VariantsFallbackEscapesValidation | rashed_sora_sdk/rashed_sora_sdk/client.py:170-176 | 1920x1080 with variants=4 passes as written and sends n_variants "4"; the corrected check rejects it |
| Client.HttpLine | rashed_sora_sdk/rashed_sora_sdk/client.py:298 | the message "HTTP {status}: {text}" starts with "HTTP ", ends with the text, and the status reads back from the numeral between them |
| Client.ErrorMessageOf | rashed_sora_sdk/rashed_sora_sdk/client.py:292-299 | a dict "error" gives its "message"; otherwise the first truthy of message, error and the status line, so the message is always truthy |
| Client.HandleResponse | rashed_sora_sdk/rashed_sora_sdk/client.py:268-318 | see the bullets after this table |
| Client.CreateErrorMessage | rashed_sora_sdk/rashed_sora_sdk/client.py:211-215 | a non-dict body gives "Unknown error"; otherwise error.message, falling back to message, then the status line; an "error" that is present but not a dict raises AttributeError, "'T' object has no attribute 'get'" for its type T |
| Client.CreateOutcome | rashed_sora_sdk/rashed_sora_sdk/client.py:192-231 | a job iff the status is OK and the body decodes; an error status raises the selected message with the status and the body as details; a library exception, an OK body that from_dict rejects, and the AttributeError of a non-dict "error" are each wrapped as "Error creating video generation job: " followed by that exception's text |
| Client.CreateJobAsWritten | rashed_sora_sdk/rashed_sora_sdk/client.py:159-231 | as written: the payload is sent iff validate_request accepts the caller's dict, and then the outcome is the POST's; a ValidationError becomes the "Invalid request parameters" error and a TypeError escapes unwrapped, with nothing sent |
| Client.CreateJob | rashed_sora_sdk/rashed_sora_sdk/client.py:159-231 | corrected: see the bullets after this table |
| Client.CreatedJobsWereValid | rashed_sora_sdk/rashed_sora_sdk/client.py:173-224 | corrected: a job is returned only after a payload of acceptable values was sent (false of the code as written, see the Findings) |
| Client.MissingResolutionDiffers | rashed_sora_sdk/rashed_sora_sdk/client.py:164-182 | a dict holding only a prompt and n_seconds 5 (such as {"prompt": "x", "n_seconds": 5}) is rejected as resolution None x None as written, with nothing sent, and sent as 1080x1080 by the corrected path |
| Client.DurationAliasDiffers | rashed_sora_sdk/rashed_sora_sdk/client.py:164-182 | a dict of width 1920, height 1080 and "duration" 5 (no "n_seconds") raises TypeError as written, with nothing sent, and is sent with 5 seconds by the corrected path |
| Client.TypedRequestsAreSent | rashed_sora_sdk/rashed_sora_sdk/client.py:159-184 | on a typed request the create path as written and the corrected one give the same run, and the payload is sent iff validate_request accepts its dict |
| Client.StringErrorOnCreate | rashed_sora_sdk/rashed_sora_sdk/client.py:211-231 | an error body whose "error" is a string yields the wrapped AttributeError message, with no status code or details |
| Client.Fetched | rashed_sora_sdk/rashed_sora_sdk/client.py:333-346 | see the bullets after this table |
| Client.ErrorStatusNeverDecodes | rashed_sora_sdk/rashed_sora_sdk/client.py:336-375 | an error status never yields a job, a job list or a generation; the error carries the status |
| Client.DeleteJob | rashed_sora_sdk/rashed_sora_sdk/client.py:390-405 | never returns False; succeeds iff a response came and it is a 204 or one _handle_response accepts; library exceptions are wrapped |
| Client.DeleteOutcome | rashed_sora_sdk/rashed_sora_sdk/client.py:396-399 | deletion succeeds iff the status is 204, or it is OK and a JSON body parses; an error status raises _handle_response's error |
| Client.FetchContent | rashed_sora_sdk/rashed_sora_sdk/client.py:448-466 | content is the raw body iff the status is OK; an error status raises _handle_response's error, carrying the status |
| Client.SaveContent | rashed_sora_sdk/rashed_sora_sdk/client.py:468-491 | returns the path iff the fetch succeeded and the write did not fail; a fetch error passes through; a write error is wrapped as "Error saving ... content: ..." |
| Client.PollFrom | rashed_sora_sdk/rashed_sora_sdk/client.py:572-595 | see the bullets after this table |
| Client.PollJobUntilComplete | rashed_sora_sdk/rashed_sora_sdk/client.py:551-595 | the while loop computes exactly PollFrom from zero polls |
| Client.PollingStopsAtMaxPolls | rashed_sora_sdk/rashed_sora_sdk/client.py:575-595 | a job that keeps running times out after exactly max_polls fetches |
| Client.NoPollsWithoutBudget | rashed_sora_sdk/rashed_sora_sdk/client.py:575-595 | max_polls <= 0 times out after zero fetches |
| Client.FirstSettledFetchDecides | rashed_sora_sdk/rashed_sora_sdk/client.py:575-588 | the first fetch that is not still running settles polling after that many fetches, whatever follows it |
| Client.PrefixDecides | rashed_sora_sdk/rashed_sora_sdk/client.py:575-593 | from any poll count up to the first settling fetch, the outcome is that fetch's: its error, the failure message, or the finished job, after exactly that many fetches |
| Client.RunningUntilSettled | rashed_sora_sdk/rashed_sora_sdk/client.py:575-593 | every fetch before the deciding one (every fetch, when none decided) was still running |
| Cli.Clamp | examples/cli.py:71-79 | the clamped value never exceeds the limit, and a value within it is unchanged |
| Cli.CreateVideoJob | examples/cli.py:58-97 | an unsupported resolution returns None before any request is built; otherwise the request is built with duration and variants clamped; its ValueError escapes; the creation call as written runs, and its outcome becomes the job, or None on a client error |
| Cli.ClampedRequestsAreSent | examples/cli.py:68-90 | on a supported resolution with positive duration and variants, the clamped request is built and its payload is sent; values within bounds are unchanged |
| Cli.MonitorJob | examples/cli.py:100-118 | a polling error gives (None, []); SUCCEEDED gives the job and its generations; CANCELLED gives the job and no generations |
| Cli.MonitorNeverSeesFailedJob | examples/cli.py:105-114 | unlimited polling never times out, and a FAILED job reaches monitor_job only as an error |
| Cli.GenerationFiles | examples/cli.py:137-151 | a generation contributes nothing unless its video saved; then its video path first, and its GIF path only if the GIF saved too |
| Cli.DownloadVideos | examples/cli.py:121-156 | the loop returns Downloads: the files of each generation in order, and an empty list for no generations |
| Cli.DownloadsCompose | examples/cli.py:130-154 | downloads of a concatenation are the concatenation of downloads, so one generation's failure never affects another |
| Cli.GenerationContributes | examples/cli.py:137-151 | each generation's files sit between those of the generations before and after it; a saved video's path is always in the result |
| Cli.WorkflowOrder | examples/cli.py:267-270 | setup, then downloads, then at most one deletion: no download after a deletion and no second deletion |
| Cli.ListingEscape | examples/cli.py:159-178 | a failed listing is caught and an empty one only logged; any job in a successful listing raises the AttributeError for created_at, which escapes because only SoraClientError is caught |
| Cli.RunExample | examples/cli.py:231-270 | a bad resolution does nothing; --delete-job only deletes; --list-only only lists, and an AttributeError for the missing created_at escapes iff the listing succeeds with at least one job; in every run, downloads finish before the job is deleted, and it is deleted at most once |

What the multi-part rows state:

- **Client.HandleResponse.** A response succeeds iff its status is OK and, when it is JSON, its body parses. The result is then the JSON body, with an empty body read as {}, or {} for a non-JSON body. Every error carries the status. Unparsable JSON gives "Invalid JSON response: {text}". A non-JSON error gives "HTTP {status}: {text}". A JSON error with a dict body carries the body as details and the selected message.
- **Client.CreateJob.** This is the corrected create path. The payload is sent iff the effective values pass, and a job is returned only when it was sent. Otherwise a ValidationError becomes "Invalid request parameters: ..." with `validation_error` details and no request is sent, while a TypeError escapes unwrapped.
- **Client.Fetched.** It backs `get_video_generation_job`, `list_video_generation_jobs` and `get_video_generation`. It succeeds iff _handle_response accepts and from_dict decodes. _handle_response's errors pass through, and library and decode errors are wrapped with the operation's prefix.
- **Client.PollFrom.** At most max_polls fetches are made. SUCCEEDED or CANCELLED returns the job with its generations. FAILED raises "Job failed with reason: ..." and a fetch error passes through. Running out of polls is the TimeoutError.

## Left out

- The aiohttp session lifecycle (`_get_session`, `_close_session`, `close`, `__aenter__`, `__aexit__`) and request headers (`_get_headers`) are resource plumbing on a foreign library. Each request is an input exchange instead.
- HTTP I/O, `asyncio.sleep` and the float `polling_interval` are absent. Fetch, delete, download and save results are supplied inputs, and a save's content stands for the bytes as the response text.
- JSON decoding is absent. A response carries its already-parsed body, or none when the body does not parse. JSON floats are not modelled.
- `urljoin` (section 5.2 of RFC 3986) is taken as concatenation of the slash-terminated endpoint and a relative path. Endpoints with a query or fragment, and job ids containing "/" or "..", are not resolved as urljoin would resolve them.
- Environment variables and `.env` loading are absent. The four configuration values from arguments and from the environment are optional inputs.
- Logging, `open`/`write`, `os.makedirs`, argparse and the `datetime` conversions (`created_datetime`, `finished_datetime`, the timestamps in file names) are left out. The timestamps and the write failures are inputs.
- `repr()` of strings does not model Python's choice of quote character or its escapes.
- `examples/gui.py` is not part of this model. Its helpers index `MAX_DURATION` and `MAX_VARIANTS` with a key neither has.
- `cleanup_job` catches every error `delete_video_generation_job` raises and only logs, so `Cli.RunExample` records the deletion as a step and takes no delete response. `list_jobs` is modelled only as far as what escapes it: its log lines are not modelled.
- `MAX_PENDING_TASKS` and `AzureOpenAIVideoGenerationError` are declared but used by none of the modelled code.
- Client.PollFrom: `InputExhausted` is an outcome of the model only. It stands for a job still running when the supplied fetches end, where the source would keep polling.
- Cli.RunExample: its contract states the early exits and the ordering of downloads and deletion, not the whole trace. The downloads it records are those of `Cli.DownloadVideos`. Generations beyond the supplied save outcomes count as failed saves.
- Client.SaveContent: the returned path is the one passed in. The file's contents are not modelled.

## Findings

| source | as written | input that shows it | evidently intended | confidence | as-written member | corrected member |
|---|---|---|---|---|---|---|
| rashed_sora_sdk/rashed_sora_sdk/client.py:164-176 | validate_request checks the caller's dict, reading n_seconds and n_variants (default 1). The payload instead falls back to "duration" and "variants", so the values sent are not the values checked (`Client.VariantsFallbackEscapesValidation`) | {"prompt": "a fox", "width": 1920, "height": 1080, "n_seconds": 5, "variants": 4} passes validation and sends n_variants "4" for a resolution that allows 1. The correction also changes two other inputs: {"prompt": "x", "n_seconds": 5} is rejected as resolution None x None although 1080x1080 would be sent (`Client.MissingResolutionDiffers`), and {"width": 1920, "height": 1080, "duration": 5} raises TypeError although 5 seconds would be sent (`Client.DurationAliasDiffers`) | validate the values the payload actually carries | medium, not executed | Client.PrepareSubmissionAsWritten | Client.PrepareSubmission |
