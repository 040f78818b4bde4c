# FAC API client core, modelled in Dafny

This project models the client that the fac-sefa repository uses to read
the Federal Audit Clearinghouse (FAC) API (`src/data_collection/fac_api.py`).
It also models the path layout of the repository's cache configuration
(`src/utils/cache.py`).

The client is modelled against a **scripted network**. An `Env` holds:

- the answers the server will give (`script`), one per request, in order;
- every request sent (`sent`), each one an endpoint URL plus its query
  parameters;
- every sleep taken (`slept`), in milliseconds.

Each answer is one of the following:

- a JSON body: a list of records, some other JSON value, or text that is
  not JSON;
- an HTTP error status, with a `Retry-After` hint that is absent, unusable,
  a usable wait, or too large for `time.sleep`;
- a connection failure, a time-out or another `requests` failure.

Each call gives back a `Reply`:

- `Returned(value)`;
- `Raised(failure)`, the exception Python would raise;
- `Stalled`, for a request loop that would keep waiting because the script
  ran out.

The pure parts are functions. The query builders, the answer handler, the
request loop as a whole, the year × state sweep, the batch retry loop and
the cache paths are specified by functions on values. Their properties are
proved as lemmas.

The parts of the client that work step by step are methods of the class
`FacClient.Client`, over a `FacClient.Network` object whose fields are
updated in place:

- the `while True` loop of `_make_request`;
- the nested loops of `get_all_general`;
- the batch loop of `get_all_federal_awards`.

Each method is proved to leave exactly the reply and network state that its
specification function computes.

The modules are:

- `Text`: the Python string built-ins the client uses: `strip`, `lower`,
  `upper`, `join`, `in` and `str(int)`.
- `Cache`: the `CacheConfig` directory layout and its path helpers.
- `FacProtocol`: the constants, endpoint-name validation, the answer
  handler and the request loop of `_make_request`, and the network-error
  test of the batch retry loop.
- `FacQuery`: the parameter builders of `get_general` and
  `get_federal_awards`.
- `FacSweep`: the sweep of `get_all_general`.
- `FacBatches`: the report-id harvest, the batching, the retry loop and
  the batch loop of `get_all_federal_awards`.
- `FacClient`: the client as a class with loops, proved against the
  functions above.

All paths below are relative to the repository root.

## Model

| member | source | states |
|---|---|---|
| Text.Strip | src/data_collection/fac_api.py:79 | `s.strip()` gives a result with no white space at either end, no longer than `s`, and `s` is white space, then the result, then white space |
| Text.StripLaws | src/data_collection/fac_api.py:79 | stripping the start and then the end leaves a result with no white space at either end, framed in `s` by white space |
| Text.TrimStart | src/data_collection/fac_api.py:79 | the leading-strip half: a suffix of `s` not starting with white space; everything dropped is white space |
| Text.TrimEnd | src/data_collection/fac_api.py:79 | the trailing-strip half: a prefix of `s` not ending with white space; everything dropped is white space |
| Text.StripTrimmed | src/data_collection/fac_api.py:79 | stripping a string with no white space at its ends changes nothing |
| Text.LowerKeepsTrimmed | src/data_collection/fac_api.py:79 | lower-casing keeps a stripped string stripped |
| Text.LowerHasNoUpper | src/data_collection/fac_api.py:79 | a lower-cased string has no upper-case letter left |
| Text.LowerIdempotent | src/utils/cache.py:60 | lower-casing twice is lower-casing once |
| Text.LowerOfLowerCase | src/data_collection/fac_api.py:79 | `lower()` leaves a string without upper-case letters unchanged |
| Text.UpperOfUpperCase | src/data_collection/fac_api.py:194 | `upper()` leaves a string without lower-case letters unchanged |
| Text.NatToStringDigits | src/data_collection/fac_api.py:196 | `str(n)` of a natural number is made of decimal digits only |
| Text.IntToStringChars | src/data_collection/fac_api.py:196 | `str(i)` of an integer holds only digits and the minus sign |
| Text.ContainsPrefix | src/data_collection/fac_api.py:335 | a string is `in` any string it begins |
| Text.ContainsAfterForeignPrefix | src/data_collection/fac_api.py:335 | when the first character of `t` does not occur in the prefix `p`, `t in p + d` exactly when `t in d` |
| Text.ContainsAfterGuardedPrefix | src/data_collection/fac_api.py:335 | when every occurrence of `t`'s first character in the prefix `p` is followed, inside `p`, by a character other than `t`'s second, `t in p + d` exactly when `t in d` |
| Cache.Configure | src/utils/cache.py:26-30 | data and logs sit directly under the project root; cache, processed and raw sit directly under data |
| Cache.Extension | src/utils/cache.py:60 | the cache file extension always starts with a dot |
| Cache.KnownExtensions | src/utils/cache.py:53-60 | json, db/sqlite and text/txt map to `.json`, `.db` and `.txt`, matched without regard to case |
| Cache.UnknownExtension | src/utils/cache.py:60 | a type not in the table gives `"." + cache_type`, with the case left as given |
| Cache.ExtensionCaseBlind | src/utils/cache.py:60 | for a known type, the extension is that of its lower-cased name |
| Cache.CachePathShape | src/utils/cache.py:61-62 | a cache path sits directly in the cache directory, named `<cache_name>_cache.<ext>` |
| Cache.CachePathInjective | src/utils/cache.py:43-62 | two cache names without a path separator, with the same type, share a path only when they are equal |
| Cache.DefaultCachePath | src/utils/cache.py:43 | the default type is json: `<cache_name>_cache.json` in the cache directory |
| Cache.KindsSeparate | src/utils/cache.py:26-89 | for names without a path separator, and data file names that are neither `""`, `.` nor `..`, the cache, processed, raw and log paths of one configuration never coincide |
| Cache.LogPathLaws | src/utils/cache.py:89 | a log path is `<log_name>.log` directly in the logs directory, and distinct names without a path separator give distinct paths |
| Cache.DataPathLaws | src/utils/cache.py:71-80 | processed and raw data paths are the file name directly in their directory, and are injective on plain names (no separator, not `""`, `.` or `..`) |
| FacProtocol.ValidateString | src/data_collection/fac_api.py:61-80 | the normalised name is no longer than the input, has no white space at its ends and has no upper-case letter |
| FacProtocol.ValidateStringIdempotent | src/data_collection/fac_api.py:79 | normalising a normalised name changes nothing |
| FacProtocol.PlainNameValid | src/data_collection/fac_api.py:79 | a non-empty name of lower-case letters and underscores is its own normalisation |
| FacProtocol.EndpointKeyValid | src/data_collection/fac_api.py:37-48 | every key of the endpoint table is its own normalisation, so it passes validation unchanged |
| FacProtocol.Repeat | src/data_collection/fac_api.py:106-108 | `n` copies of one request, which the loop sends once per pass |
| FacProtocol.QueryUrls | src/data_collection/fac_api.py:103-104 | the general and federal-awards URLs are the base URL plus `/general` and `/federal_awards` |
| FacProtocol.Converse | src/data_collection/fac_api.py:106-148 | the loop consumes a prefix of the script and stops only when the script is empty or an answer ends it; without `handle_429` it reads at most one answer and never sleeps |
| FacProtocol.RequestLoop | src/data_collection/fac_api.py:103-148 | the loop sends the one request once per answer consumed, stalls only when the script runs out, consumes at least one answer otherwise, and only adds to the sleep log |
| FacProtocol.Fetch | src/data_collection/fac_api.py:82-148 | `_make_request` normalises the name, raises the unknown-endpoint ValueError for a name not in the table without touching the network, and runs the request loop on the endpoint's URL otherwise |
| FacProtocol.FetchKnown | src/data_collection/fac_api.py:98-104 | a key of the endpoint table goes straight to the request loop on its URL |
| FacProtocol.EndpointChecked | src/data_collection/fac_api.py:98-101 | the call raises the unknown-endpoint error exactly when the normalised name is not a key, and then sends nothing |
| FacProtocol.FirstAnswerDecides | src/data_collection/fac_api.py:106-145 | an answer that ends the loop decides the reply: list, `[]` for other JSON, and the APIError of each status or failure, with its message; a 429 with `handle_429` ends it only when its Retry-After is too large to sleep, raising that OverflowError |
| FacProtocol.RateLimitedThenAnswer | src/data_collection/fac_api.py:120-133 | with `handle_429`, a run of 429 answers whose Retry-After can be slept is ridden out: one request each, a sleep for each usable Retry-After, and then the next answer decides |
| FacProtocol.RateLimitedForever | src/data_collection/fac_api.py:120-133 | with `handle_429`, a script of nothing but such 429s is consumed entirely and the loop keeps waiting |
| FacProtocol.ConverseNeverUnknown | src/data_collection/fac_api.py:117-145 | the request loop raises nothing but APIError and, only with `handle_429`, the OverflowError of a Retry-After too large for `time.sleep` |
| FacProtocol.ConverseQuiet | src/data_collection/fac_api.py:106-145 | on a script without a 429 answer the loop reads at most one answer and never sleeps |
| FacProtocol.NoLimitsSuffix | src/data_collection/fac_api.py:106-145 | what is left of a script without 429 answers has none either |
| FacProtocol.ConverseFirst | src/data_collection/fac_api.py:106-145 | an answer that ends the loop ends it after one request with the handler's reply |
| FacProtocol.LoopFirstReply | src/data_collection/fac_api.py:106-145 | the reply of the loop whose first answer ends it is the handler's reply for that answer |
| FacProtocol.LoopFirstEnv | src/data_collection/fac_api.py:106-113 | that loop consumes one answer, sends one request and sleeps not at all |
| FacProtocol.ConnectionFailureIsNetworkError | src/data_collection/fac_api.py:139 | the connection-failure message always reads as a network error |
| FacProtocol.TimeoutMessageNetwork | src/data_collection/fac_api.py:141 | a time-out message reads as a network error exactly when its exception text does |
| FacProtocol.RequestFailedMessageNetwork | src/data_collection/fac_api.py:143 | a request-failure message reads as a network error exactly when its exception text does |
| FacProtocol.HttpStatusMessageNetwork | src/data_collection/fac_api.py:137 | an HTTP error message reads as a network error exactly when its exception text does |
| FacProtocol.AuthFailedNotNetwork | src/data_collection/fac_api.py:119 | the authentication message never reads as a network error |
| FacProtocol.NotFoundNotNetwork | src/data_collection/fac_api.py:135 | the not-found message never reads as a network error |
| FacProtocol.NetworkErrorInDetail | src/data_collection/fac_api.py:335 | a prefix without `F` or `N` cannot make a message read as a network error |
| FacProtocol.FixedMessageNotNetwork | src/data_collection/fac_api.py:335 | a message without `F` or `N` is not a network error |
| FacProtocol.InvalidJsonMessageNetwork | src/data_collection/fac_api.py:144-145 | for an endpoint name without `F` or `N`, the invalid-JSON message reads as a network error exactly when its exception text does |
| FacProtocol.HandleNetworkErrors | src/data_collection/fac_api.py:117-145 | with `handle_429`, every answer that ends the loop raises APIError except a 429 whose Retry-After is too large to sleep (OverflowError); connection failures always read as network errors, 401 and 404 never do, and other statuses, time-outs, other request failures and bodies that are not JSON exactly when their exception text does |
| FacQuery.FilledLaws | src/data_collection/fac_api.py:177-196 | the `if arg is not None: params[key] = ...` chain leaves exactly one entry per argument given, holding its value |
| FacQuery.GeneralQuery | src/data_collection/fac_api.py:177-182 | building the general parameters fails exactly when `columns` is not a list, with that TypeError |
| FacQuery.GeneralEntriesDistinct | src/data_collection/fac_api.py:177-196 | the eight general filters write eight distinct keys |
| FacQuery.GeneralEntryAt | src/data_collection/fac_api.py:177-196 | each general filter is present exactly when its argument is given, with its value |
| FacQuery.GeneralKeys | src/data_collection/fac_api.py:177-196 | the general parameters use no key beyond the eight filters |
| FacQuery.GeneralQueryFilters | src/data_collection/fac_api.py:177-196 | for each argument, its key is present exactly when it is given, with the `eq.`, `ilike.*…*`, stripped upper-case state or decimal year value |
| FacQuery.StateFilterNormalised | src/data_collection/fac_api.py:194 | two states equal after strip and upper-case build the same parameters |
| FacQuery.FederalAwardsQuery | src/data_collection/fac_api.py:251-268 | it fails exactly when `columns` is not a list; otherwise the parameters are just the last filter given (the extension replacing the prefix), or only the column projection when no filter is given |
| FacQuery.FederalAwardsSingleFilter | src/data_collection/fac_api.py:257-268 | once any filter is given, exactly one parameter is sent and the projection is dropped |
| FacQuery.ExtensionNeedsPrefix | src/data_collection/fac_api.py:259-262 | without an agency prefix the award extension has no effect |
| FacQuery.GetGeneral | src/data_collection/fac_api.py:150-198 | `get_general` raises the TypeError before any request, or sends its parameters to the general URL once per answer consumed |
| FacQuery.GetFederalAwards | src/data_collection/fac_api.py:226-270 | `get_federal_awards` raises the TypeError before any request, or sends its parameters to the federal-awards URL once per answer consumed |
| FacQuery.GetGeneralMakesRequest | src/data_collection/fac_api.py:198 | `get_general` is `_make_request('general', params, handle_429)` |
| FacQuery.GetFederalAwardsMakesRequest | src/data_collection/fac_api.py:270 | `get_federal_awards` is `_make_request('federal_awards', params, handle_429)` |
| FacSweep.ClientConfig | src/data_collection/fac_api.py:52-59 | the client covers the 59 state codes and the audit years 2016 to the current year |
| FacSweep.YearPairs | src/data_collection/fac_api.py:214 | one year's pairs are that year with each state, in list order |
| FacSweep.PairsFromOrder | src/data_collection/fac_api.py:213-214 | the nested loops visit `years × states` pairs, with state `j` of year offset `y` at position `y·n + j` |
| FacSweep.PairsCount | src/data_collection/fac_api.py:213-214 | the sweep makes one call per year and state, years ascending, states in list order |
| FacSweep.PairCallIsGetGeneral | src/data_collection/fac_api.py:218 | each pair's call is `get_general(columns, audit_year=year, auditee_state=state, handle_429=True)` |
| FacSweep.CallSends | src/data_collection/fac_api.py:218 | a pair's call only adds to the requests sent: its own parameters, once per answer consumed |
| FacSweep.CallAnsweredSends | src/data_collection/fac_api.py:217-221 | a pair's call that the sweep survives sent at least one request |
| FacSweep.StepLaws | src/data_collection/fac_api.py:217-221 | one pair adds one visit with the call's reply, goes on exactly on a list or an APIError, and extends the result by the list |
| FacSweep.SteppedKeepsInvariant | src/data_collection/fac_api.py:214-221 | one more pair keeps the sweep invariant: visits in order, survival and accounting |
| FacSweep.StepKeepsInvariant | src/data_collection/fac_api.py:214-221 | one more pair of the sweep keeps its invariant |
| FacSweep.SweepOverLaws | src/data_collection/fac_api.py:213-224 | the sweep invariant holds after every prefix of the pairs |
| FacSweep.OutcomeLaws | src/data_collection/fac_api.py:213-224 | each pair is called in order with its own parameters and only their requests are sent; the result is returned exactly when every call returned a list or raised APIError, and is then those lists in order; otherwise a non-APIError exception propagates |
| FacSweep.SweepOutcome | src/data_collection/fac_api.py:200-224 | `get_all_general` returns the concatenated lists exactly when every (year, state) call returned a list or raised APIError |
| FacSweep.StoppedStays | src/data_collection/fac_api.py:217-221 | an exception leaves the loops: nothing after it runs |
| FacSweep.SweepSplit | src/data_collection/fac_api.py:213-214 | running the loops over `xs + ys` is running them over `xs`, then over `ys` |
| FacSweep.ColumnsNotListStopsSweep | src/data_collection/fac_api.py:218 | a `columns` that is not a list raises TypeError out of the sweep at the first pair, before any request |
| FacSweep.FirstAnswered | src/data_collection/fac_api.py:217-221 | a pair whose first answer ends its call takes one request and that answer's reply |
| FacSweep.SkipThenList | src/data_collection/fac_api.py:217-221 | a server error on one pair is skipped and the next pair's list returned |
| FacSweep.ErrorPairIsSkipped | src/data_collection/fac_api.py:220-221 | a year with two states, the first failing with a server error: the second state's list is the result |
| FacBatches.ReportIdsExact | src/data_collection/fac_api.py:291 | the ids collected are exactly the `report_id` values of the records that carry one |
| FacBatches.Unique | src/data_collection/fac_api.py:291 | `list(set(xs))` has no duplicates and the same elements as `xs` |
| FacBatches.HarvestedIds | src/data_collection/fac_api.py:287-293 | the deduplicated ids are duplicate-free and are exactly the harvested records' report ids |
| FacBatches.BatchesCount | src/data_collection/fac_api.py:300-304 | the ceiling-division `total_batches` is the number of batches the loop runs |
| FacBatches.BatchesFlatten | src/data_collection/fac_api.py:304-306 | the batches, put back together, are the ids in order |
| FacBatches.BatchAt | src/data_collection/fac_api.py:304-306 | batch `k` is the non-empty slice `ids[k·b : min((k+1)·b, n)]` |
| FacBatches.BatchSize | src/data_collection/fac_api.py:304-306 | every batch but the last holds exactly `batch_size` ids; the last holds 1 to `batch_size` |
| FacBatches.RetryFrom | src/data_collection/fac_api.py:316-345 | the retry loop makes between 1 and `max_retries` attempts |
| FacBatches.BatchCallLaws | src/data_collection/fac_api.py:320-323 | a batch call raises only APIError or the OverflowError of a Retry-After too large to sleep, and sends only `report_id=in.(…)` to the federal-awards URL |
| FacBatches.BatchCallIsMakeRequest | src/data_collection/fac_api.py:320-323 | the batch call is `_make_request('federal_awards', {'report_id': 'in.(…)'}, handle_429=True)` |
| FacBatches.RetryFromShape | src/data_collection/fac_api.py:316-345 | the retry loop retries exactly the network errors and uses all its attempts when it ends on one |
| FacBatches.RetryFromBackoffs | src/data_collection/fac_api.py:338-339 | between attempts it sleeps the back-off, doubling it each time |
| FacBatches.RetryFromEnv | src/data_collection/fac_api.py:316-345 | the retry loop sends only the batch's request, consumes a prefix of the script and only adds to the sleep log |
| FacBatches.RetryFromCounts | src/data_collection/fac_api.py:316-345 | every attempt but a stalled last one consumed an answer |
| FacBatches.AdvancedTransitive | src/data_collection/fac_api.py:316-345 | two stretches of batch requests and sleeps compose into one |
| FacBatches.RetryBatchLaws | src/data_collection/fac_api.py:311-345 | a batch gets one to three attempts, retrying exactly network errors, with 5 s and then 10 s between them, and raises nothing but APIError or that OverflowError |
| FacBatches.RetryFromAppends | src/data_collection/fac_api.py:316-345 | the retry loop of a call that only adds to the sleep log only adds to it |
| FacBatches.BatchCallQuiet | src/data_collection/fac_api.py:106-133 | on a script without 429 answers a batch call makes no sleep |
| FacBatches.RetryFromQuiet | src/data_collection/fac_api.py:316-345 | on a script without 429 answers the retry loop of a call that makes no sleep sleeps exactly its back-offs |
| FacBatches.RetryBatchQuiet | src/data_collection/fac_api.py:311-345 | on a script without 429 answers a batch adds exactly its back-offs to the sleep log |
| FacBatches.RetryBatchEnv | src/data_collection/fac_api.py:311-345 | a batch sends only its request, at least once per attempt answered, and stalls only on an exhausted script |
| FacBatches.AttemptAnswered | src/data_collection/fac_api.py:323 | an attempt whose first answer ends the request loop sends one request and takes that answer's reply |
| FacBatches.TimeoutFailsAtOnce | src/data_collection/fac_api.py:333-345 | a time-out whose text is not a network error fails the batch after one attempt, with no back-off |
| FacBatches.RetriedAttempt | src/data_collection/fac_api.py:334-340 | a retried failure before the last attempt sleeps the back-off and retries with it doubled |
| FacBatches.SettledAttempt | src/data_collection/fac_api.py:342-345 | the last attempt, or a failure not retried, decides the batch |
| FacBatches.ConnectionFailureRetryable | src/data_collection/fac_api.py:335 | a connection failure is retried |
| FacBatches.ThreeFailures | src/data_collection/fac_api.py:316-345 | three failures, the first two retried, use up the attempts with the back-offs between them |
| FacBatches.TwoFailures | src/data_collection/fac_api.py:316-345 | the second and third of those attempts |
| FacBatches.RetriedAnswer | src/data_collection/fac_api.py:334-340 | a retried failure answered by the script: its back-off, then the attempts after it |
| FacBatches.LastAnswer | src/data_collection/fac_api.py:342-345 | the third attempt decides the batch whatever it raises |
| FacBatches.BatchCallAnswers | src/data_collection/fac_api.py:323 | whatever the environment, a batch call whose next answer ends the loop gives that answer's reply |
| FacBatches.ConnectionFailuresExhaust | src/data_collection/fac_api.py:316-345 | three connection failures in a row cost three requests and sleeps of 5 s and 10 s, and the batch fails with the last |
| FacBatches.CollectStepLaws | src/data_collection/fac_api.py:304-352 | one batch adds one run numbered and holding its ids, shaped by the retry loop, adding its records and, when it failed, itself to `failed_batches` |
| FacBatches.CollectStepKeeps | src/data_collection/fac_api.py:304-352 | one more batch keeps the loop invariant |
| FacBatches.CollectOverLaws | src/data_collection/fac_api.py:304-352 | the batch-loop invariant holds after every prefix of the batches |
| FacBatches.CollectStepSleeps | src/data_collection/fac_api.py:304-349 | one batch appends its own sleeps to the log, then the half-second pause unless it stopped the loop or is the last batch |
| FacBatches.CollectOverSleeps | src/data_collection/fac_api.py:304-349 | after the batch loop the sleep log is the one before it, followed batch by batch by that batch's sleeps and pause |
| FacBatches.CollectOverQuiet | src/data_collection/fac_api.py:304-349 | on a script without 429 answers every batch sleeps exactly its back-offs |
| FacBatches.CollectBatchesLaws | src/data_collection/fac_api.py:299-352 | for a positive batch size, `total_batches` batches covering the ids in order run, numbered from 1; the phase raises only the OverflowError of a Retry-After too large to sleep, returns exactly when every batch ran and none stopped the loop, then with their records in batch order, and otherwise ends with the last batch's reply; `failed_batches` is the batches whose last attempt raised APIError; the sleep log grows batch by batch by each batch's sleeps and pause, and without 429 answers a batch's sleeps are its back-offs |
| FacBatches.AsWrittenDiscardsRecords | src/data_collection/fac_api.py:359-363 | the function as written gives back None exactly when the corrected one returns records, and raises as it does otherwise |
| FacBatches.BatchAnswered | src/data_collection/fac_api.py:316-331 | a batch whose first answer is a list is fetched by its first attempt |
| FacBatches.SingleBatchFetched | src/data_collection/fac_api.py:304-331 | a single batch answered with a list returns that list |
| FacBatches.SinglePairHarvest | src/data_collection/fac_api.py:213-224 | a sweep over one pair answered with a list returns that list |
| FacBatches.SingleYearStateHarvest | src/data_collection/fac_api.py:288 | one year and one state answered with a list: the harvest returns it |
| FacBatches.SingleIdBatch | src/data_collection/fac_api.py:291-306 | one record with a report id gives one id in one batch of the default size |
| FacBatches.AsWrittenLosesRecords | src/data_collection/fac_api.py:272-363 | a harvest of one id whose batch fetches `rs`: the corrected function returns `rs`, the function as written None |
| FacBatches.SettledStep | src/data_collection/fac_api.py:304-352 | a batch settled by its first answer: one run, no retries, and the half-second pause unless it is the last batch or the loop stops |
| FacBatches.AwardsNameLetters | src/data_collection/fac_api.py:323 | the endpoint name of batch calls contains neither `F` nor `N` |
| FacBatches.TimeoutRetried | src/data_collection/fac_api.py:335 | a batch time-out is retried exactly when its text reads as a network error |
| FacBatches.TimeoutAnswers | src/data_collection/fac_api.py:333-345 | a time-out without a network error is raised at once and not retried |
| FacBatches.TimedOutBatchRecorded | src/data_collection/fac_api.py:347-352 | such a batch before the last is recorded in `failed_batches` under its number, adds no records and is followed by the 0.5 s pause |
| FacClient.Network.constructor | src/data_collection/fac_api.py:29 | the session starts in the given state |
| FacClient.Network.Get | src/data_collection/fac_api.py:108 | a GET sends the request and takes the next answer, or takes nothing when the script is out |
| FacClient.Network.Sleep | src/data_collection/fac_api.py:129 | `time.sleep` adds one delay to the sleep log and changes nothing else |
| FacClient.LoopExhausted | src/data_collection/fac_api.py:106-108 | with no answer left the loop waits and changes nothing |
| FacClient.LoopFinishes | src/data_collection/fac_api.py:106-145 | an answer that ends the loop: that reply, one request sent, the answer consumed |
| FacClient.LoopAgain | src/data_collection/fac_api.py:120-133 | a 429 with `handle_429`: one request sent, the hinted sleep taken, then the loop from the rest |
| FacClient.SweepPrefix | src/data_collection/fac_api.py:213-221 | the sweep over the first `k + 1` pairs is one step after the sweep over the first `k` |
| FacClient.SweepStopped | src/data_collection/fac_api.py:217-221 | a sweep stopped after `k` pairs is the whole sweep |
| FacClient.StepTakes | src/data_collection/fac_api.py:217-221 | a running sweep takes a pair's call: its verdict, its list and its environment |
| FacClient.StoppedOutcome | src/data_collection/fac_api.py:217-221 | a stopped sweep gives back the reply that stopped it |
| FacClient.StateIteration | src/data_collection/fac_api.py:214-221 | one iteration of the inner loop is one sweep step |
| FacClient.StateCall | src/data_collection/fac_api.py:218 | the inner loop's `get_general` call is the pair's query |
| FacClient.StateEndsYear | src/data_collection/fac_api.py:214-221 | an exception inside a year ends the sweep with that reply |
| FacClient.PairsFromSnoc | src/data_collection/fac_api.py:213-214 | the pairs of `y + 1` years are those of `y` years and then the next year's |
| FacClient.PairsFromSplit | src/data_collection/fac_api.py:213-214 | the pairs of `a + b` years are those of the first `a` years, then those of the next `b` |
| FacClient.YearsSplit | src/data_collection/fac_api.py:213-214 | the same split, with the later start year named |
| FacClient.YearStep | src/data_collection/fac_api.py:213-214 | one more year of the outer loop is the inner loop over its states |
| FacClient.YearEndsSweep | src/data_collection/fac_api.py:213-221 | a sweep stopped within the first `y` years ends there |
| FacClient.SweepByYears | src/data_collection/fac_api.py:213-214 | the sweep is the outer loop over the years |
| FacClient.GoingOutcome | src/data_collection/fac_api.py:224 | a sweep that finished returns its records |
| FacClient.OffsetDiv | src/data_collection/fac_api.py:305 | `batch_num` of the batch starting at offset `k·b` is `k + 1` |
| FacClient.BatchesCover | src/data_collection/fac_api.py:304 | the batches' offsets reach the end of the ids |
| FacClient.BatchIndex | src/data_collection/fac_api.py:304-306 | at offset `i = k·b`, `batch_num` is `k + 1`, the slice is batch `k`, and the range goes on exactly while batches remain |
| FacClient.BatchTaken | src/data_collection/fac_api.py:316-352 | one batch of the loop: its verdict, records, failure entry and pause |
| FacClient.CollectStopped | src/data_collection/fac_api.py:304-352 | a batch loop stopped after `j` batches is the whole loop |
| FacClient.RetryGoesOn | src/data_collection/fac_api.py:334-340 | a retried attempt leaves the outcome to the remaining attempts |
| FacClient.RetryEnds | src/data_collection/fac_api.py:342-345 | an attempt that is not retried is the outcome |
| FacClient.ProgressIsCollectOver | src/data_collection/fac_api.py:304-352 | the loop's progress after `k` batches is the batch loop over the first `k` batches |
| FacClient.ProgressStep | src/data_collection/fac_api.py:304-352 | progress after batch `k + 1` is one batch step after progress at `k` |
| FacClient.ProgressEnds | src/data_collection/fac_api.py:304-352 | progress that has stopped, or covered every batch, is the whole loop |
| FacClient.StoppedEnded | src/data_collection/fac_api.py:304-352 | a stopped batch loop gives back the reply that stopped it |
| FacClient.Client.constructor | src/data_collection/fac_api.py:36-59 | the client's years are 2016 to the current year and its states are the 59 codes |
| FacClient.Client.MakeRequest | src/data_collection/fac_api.py:82-148 | `_make_request` leaves exactly the reply and network state of its specification: name validation, then the request loop |
| FacClient.Client.RequestUntilAnswered | src/data_collection/fac_api.py:106-148 | the `while True` loop leaves exactly the reply and network state of the request loop |
| FacClient.Client.SendOnce | src/data_collection/fac_api.py:107-148 | one pass either ends the loop with its reply, or consumes an answer and leaves the rest of the loop's outcome unchanged |
| FacClient.Client.GetGeneral | src/data_collection/fac_api.py:150-198 | `get_general` leaves exactly the reply and network state of its specification |
| FacClient.Client.GetFederalAwards | src/data_collection/fac_api.py:226-270 | `get_federal_awards` leaves exactly the reply and network state of its specification |
| FacClient.Client.SweepYear | src/data_collection/fac_api.py:214-221 | the inner loop over the states of one year is the sweep over that year's pairs |
| FacClient.Client.GetAllGeneral | src/data_collection/fac_api.py:200-224 | `get_all_general` leaves exactly the reply and network state of the sweep |
| FacClient.Client.FetchBatch | src/data_collection/fac_api.py:311-345 | the retry loop of one batch ends with the reply and state of the retry specification |
| FacClient.Client.RunBatch | src/data_collection/fac_api.py:304-352 | one iteration at offset `i` is batch `i // batch_size + 1` of the batch loop |
| FacClient.Client.TakeBatch | src/data_collection/fac_api.py:323-352 | one batch's records, failure entry and pause are those of one batch-loop step |
| FacClient.Client.BatchLoop | src/data_collection/fac_api.py:299-352 | the `for i in range(0, len(report_ids), batch_size)` loop leaves exactly the batch loop's reply and state |
| FacClient.Client.FetchBatches | src/data_collection/fac_api.py:299-352 | `total_batches` (ZeroDivisionError for a zero batch size), then the batch loop, as specified |
| FacClient.Client.GetAllFederalAwards | src/data_collection/fac_api.py:272-363 | `get_all_federal_awards` (corrected to return its records) leaves exactly the reply and state of its specification |

## Left out

- The constructor's API key and `requests.Session` headers (src/data_collection/fac_api.py:28-33): reading the environment variable and raising when it is unset are process I/O; the model starts from a built client.
- `time.strftime('%Y')`: the current year is a parameter of `ClientConfig` and of the `Client` constructor.
- `print`, `show_progress` and `save_progress`: output only, with no effect on the results.
- `Retry-After` is a float number of seconds in Python. The model takes a usable hint as a whole number of milliseconds. A hint that `float` or `time.sleep` rejects with ValueError (text, a negative number, NaN) is unusable, as the `except ValueError` at line 131 makes it. A hint too large for `time.sleep` (`inf`, `1e10`) is `TooLong`: its OverflowError escapes the loop and every `except APIError` of the core. The exact threshold is left to the hint's classification.
- The `requests` library and the server are a script of answers. An endless 429 storm, or a script that runs out, shows as `Stalled` instead of a loop that never ends.
- The mapping from `requests` exceptions to answers is taken as given. A JSON decode error surfaces as a `NotJson` body, which gives the "Invalid JSON" APIError of line 145. What `response.json()` raises in newer versions of `requests` is not modelled.
- `_validate_string`'s None and non-string checks: every name in the model is a string.
- FacBatches.Unique: `list(set(...))` has no fixed order in Python; the model keeps first-occurrence order. Only its duplicate-freedom and its elements are claimed.
- Text.Lower, Text.Upper: only ASCII letters change case; Python's Unicode case mapping is not modelled.
- Text.IsSpace: the white-space set of `str.strip()` is written out; characters outside it are not white space.
- `Path` objects are sequences of path components. Separators, absolute paths and the resolution of `__file__` are not modelled.
- Cache.CachePathInjective, Cache.KindsSeparate, Cache.LogPathLaws, Cache.DataPathLaws: distinctness is claimed only for names without a separator (and data file names other than `""`, `.` and `..`). `pathlib` folds `./b` into `b` and `a//b` into `a/b`, and an absolute name replaces the directory, so such names can share a path.
- Record values are strings. A harvested `report_id` that is not a string makes `','.join` at line 320 raise TypeError, which no `except APIError` catches. That case is not modelled.
- `CacheConfig._ensure_directories`, `list_cache_files`, `clear_cache` and the other file-system operations: these are I/O.
- FacClient.Client.RunBatch, FacClient.Client.TakeBatch, FacClient.Client.SendOnce, FacClient.Client.SweepYear: these methods are single loop bodies or single passes split out of their loops, so that each proof stays small.
- FacClient.Client.GetAllFederalAwards: this method returns the collected records. The source returns None (see Findings).
- The exception chaining `from e` is not modelled. Exception texts are kept as structured reasons, and `Describe` gives their `str()`.

## Findings

| source | as written | input that shows it | evidently intended | confidence | as-written member | corrected member |
|---|---|---|---|---|---|---|
| src/data_collection/fac_api.py:272-363 | `get_all_federal_awards` collects `all_results` but has no `return` statement, so every run that does not raise gives back None | one year and one state; the harvest returns one record `{'report_id': id}`; its batch is answered with records `rs` | return `all_results`, the federal award records the docstring promises (line 281) | not executed | FacBatches.AwardsAsWritten (shown by FacBatches.AsWrittenLosesRecords) | FacBatches.CollectAwards (FacBatches.CollectBatchesLaws, FacClient.Client.GetAllFederalAwards) |
