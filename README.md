# Bounded-concurrency segment downloader, modelled in Dafny

`lib/download.js` fetches the numbered `.ts` segments listed in an M3U8
playlist with at most `max` requests outstanding at a time. This project
models that scheduler. It keeps its state in module-level variables:
- the descriptor list `objArray`;
- the admitted and completed counters `downloadStartCount` and `downloadEndCount`;
- the success list `successObjArray`.

Network and file callbacks update those variables in place. The model is the
`Download.Downloader` class, with those variables as fields. Each callback is
a method:
- `Start`: the run's synchronous part.
- `OnPlaylistRead`: the playlist file has been read.
- `Download`: the admission routine.
- `OnResponse`, `OnHttpError`, `OnSuccess`: a response arrives.
- `OnTransportError`: a request fails with no response.

Completions may arrive in any order. A caller may deliver an event for any
task that is in flight.

Ghost state records each segment's task state and the index of each success:
- `Pending`, `InFlight`, `Succeeded` and `Failed`;
- `Stalled`: a task whose request failed at the transport level; it never ends.

The registry's invariant `Registry.Inv` is stated on a value, `RegistryState`.
Each event is specified as a function of that value:
- `Admit`, `EndFailed`, `EndSucceeded` and `Stall` are single events;
- `AdmitMany` is the initial loop.

Lemmas prove that every transition keeps the invariant. The invariant says:
- admission is FIFO, so exactly the first `downloadStartCount` tasks have left `Pending`;
- `downloadEndCount` counts the ended tasks once each;
- every other admitted task holds a slot;
- the success list holds each succeeded descriptor once, in completion order;
- a segment's file exists from admission on, empty until written;
- a segment's file is gone after an HTTP error.

The class invariant `Valid` adds the slot bound:
- no more tasks hold a slot than the initial loop admitted;
- exactly that many hold one while tasks remain pending.

`Valid` also adds the progress bar and the run's promise:
- the promise resolves, once, exactly when the last task ends;
- it resolves with the success list;
- a rejection through a transport error names a stalled task of the initial batch.

Modules:

| module | contents |
|---|---|
| `Text` | decimal numerals, as `String(n)` and template literals render a number |
| `Status` | the status pattern `^[45]\d{2}$`; the outcome classes of the 4xx and 5xx ranges of sections 15.5 and 15.6 of RFC 9110 |
| `Bytes` | bytes, a response body's chunks, and writing them in order |
| `Registry` | descriptors and file names, task states, `RegistryState`, its invariant and its transitions |
| `Download` | the `Downloader` class: the module state and its event methods |
| `Scenarios` | three whole runs driven event by event, with their outcomes |

Behaviour of the code that the model keeps as written:

- **`max`** is an integer, and the initial loop stops once `start + max` tasks are admitted (lib/download.js:196-201):
  - `max >= 1` admits `min(max, N)` tasks;
  - `max = 0` admits none, so no event can follow and the run never settles;
  - a negative `max` never equals the admitted count, so all `N` tasks are admitted.
- **Transport errors** reject the run only for tasks of the initial batch. Only the initial loop attaches a rejection handler (lib/download.js:209-211).
  - A task admitted later, from a completion (lines 65 and 91), has its rejection dropped. The run then neither rejects nor resolves: see `Scenarios.UncaughtTransportErrorRun`.
  - A rejected run does not stop admissions. Later completions still admit the next segment and still record successes: see `Scenarios.CaughtTransportErrorRun`.

## Model

| member | source | states |
|---|---|---|
| `Text.DecimalString` | lib/download.js:171 | a numeral is non-empty, all digits, and has no leading zero unless it is "0" |
| `Text.DecimalInjective` | lib/download.js:171 | different indices give different numerals |
| `Text.DecimalLength` | lib/download.js:39 | a number's numeral has exactly three characters iff it lies in 100..999 |
| `Text.HundredsDigit` | lib/download.js:39 | the first character of a three-digit numeral is the hundreds digit |
| `Status.StatusPatternIff` | lib/download.js:39 | the pattern `^[45]\d{2}$` matches the code's numeral iff the code lies in 400..599 |
| `Status.Classify` | lib/download.js:39-62 | a code takes the error path iff it is in 400..599; "not found" iff 404; "expired" iff 403; every other code is a success |
| `Bytes.ConcatAppend` | lib/download.js:78-80 | writing two runs of chunks in turn gives the two contents concatenated |
| `Bytes.SplitRoundTrip` | lib/download.js:73-80 | however a body is cut into data events, writing the chunks in order restores it exactly |
| `Registry.FileNameInjective` | lib/download.js:171 | two indices with the same file name are equal |
| `Registry.DescriptorNamesDistinct` | lib/download.js:166-175 | the descriptors built from a playlist have pairwise distinct file names |
| `Registry.IdleInv` | lib/download.js:116-123 | the reset registry, with no descriptors, satisfies the invariant whatever files exist |
| `Registry.FreshInv` | lib/download.js:166-175 | a freshly built descriptor list, all pending, satisfies the invariant |
| `Registry.AdmitInv` | lib/download.js:22-31 | admitting the next pending task keeps the invariant: FIFO order, counts, slots and files |
| `Registry.EndFailedInv` | lib/download.js:39-42 | ending an in-flight task on an HTTP error keeps the invariant and does not touch the success list |
| `Registry.EndSucceededInv` | lib/download.js:76-88 | ending an in-flight task successfully keeps the invariant; the descriptor joins the success list exactly once |
| `Registry.StallInv` | lib/download.js:97-99 | a transport error keeps the invariant; the task keeps its slot and is never counted as ended |
| `Registry.FailedThenAdmit` | lib/download.js:39-68 | an HTTP error followed by the next admission keeps the invariant, ends one task, admits one more while any is pending, and leaves stalled tasks stalled |
| `Registry.SucceededThenAdmit` | lib/download.js:76-94 | a success followed by the next admission keeps the invariant, ends one task, admits one more while any is pending, and leaves stalled tasks stalled |
| `Registry.AdmitManyInv` | lib/download.js:196-213 | any number of admissions keeps the invariant, the descriptors, the ended count and the success list |
| `Registry.AdmitManyFresh` | lib/download.js:196-213 | `k` admissions from a fresh list put exactly tasks `0..k-1` in flight with empty files and leave the rest pending |
| `Registry.SuccessesAreSucceeded` | lib/download.js:88 | under the invariant, a descriptor is in the success list iff its task succeeded |
| `Registry.StalledBlocksEnd` | lib/download.js:97-105 | while a task is stalled, the ended count stays below the number of descriptors |
| `Download.Downloader.constructor` | lib/download.js:6-14 | the module starts with empty lists, zero counters and a valid state |
| `Download.Downloader.Download` | lib/download.js:21-31 | the admission routine admits a task iff one is pending: exactly the next one by index, with its file opened empty |
| `Download.Downloader.ReadDescriptors` | lib/download.js:165-175 | the extraction loop builds one descriptor per URL, in order, entry `i` named `i.ts`, all pending |
| `Download.Downloader.AdmitInitialBatch` | lib/download.js:196-213 | the initial loop admits `InitialBatchSize(max, N)` tasks, the first ones by index, and attaches the run's handler to exactly those |
| `Download.Downloader.AdmitCaught` | lib/download.js:205-211 | one pass of the initial loop admits the next task and counts it as carrying the run's handler |
| `Download.Downloader.SlotBounds` | lib/download.js:196-201 | between events `ended <= started <= N`, and with `max >= 0` at most `max` tasks hold a slot |
| `Download.Downloader.NoDeadlock` | lib/download.js:101-105 | with a non-zero limit, a started run that has not finished has a task in flight or stalled |
| `Download.Downloader.Reset` | lib/download.js:115-126 | the run's reset zeroes the counters, empties both lists, keeps the cache files and restores the invariant |
| `Download.Downloader.Start` | lib/download.js:110-153 | a missing input folder rejects; then a missing playlist rejects; otherwise the cache is emptied and the run waits for the playlist |
| `Download.Downloader.BeginDownloads` | lib/download.js:194-213 | the progress bar starts, and the initial batch is admitted from the fresh descriptor list |
| `Download.Downloader.OnPlaylistRead` | lib/download.js:158-213 | a read error rejects; no matching URL rejects before any admission or progress start; otherwise the initial batch is in flight |
| `Download.Downloader.WriteChunks` | lib/download.js:78-80 | the chunk-writing loop leaves the file holding the chunks concatenated in order |
| `Download.Downloader.SettleIfLast` | lib/download.js:101-106 | once the ended count reaches `N`, the bar stops and the run resolves with the success list; before that nothing changes |
| `Download.Downloader.OnHttpError` | lib/download.js:39-68 | an error status ends the task without a success, reports it, admits the next task and resolves the run if it was the last |
| `Download.Downloader.EndWithHttpError` | lib/download.js:39-62 | the error path deletes the file, counts the end once and reports the outcome class with the segment's name |
| `Download.Downloader.OnSuccess` | lib/download.js:71-95 | a success writes the body, appends exactly that descriptor to the success list, admits the next task and resolves the run if it was the last |
| `Download.Downloader.EndWithSuccess` | lib/download.js:76-88 | the success path writes the chunks, counts the end once, reports it and appends the descriptor |
| `Download.Downloader.OnResponse` | lib/download.js:34-95 | a response takes the error path iff its status is in 400..599, and the success path otherwise |
| `Download.Downloader.OnTransportError` | lib/download.js:97-99 | the task stalls and is never counted; the run rejects iff the task belongs to the initial batch and the run is still pending |
| `Scenarios.ExpiredSegmentRun` | lib/download.js:51-55 | three segments, limit two, the second answered 403: resolves with segments 0 and 2 and deletes the failed segment's file |
| `Scenarios.CaughtTransportErrorRun` | lib/download.js:209-211 | a transport error on an initial task rejects the run; later completions still admit and record successes |
| `Scenarios.UncaughtTransportErrorRun` | lib/download.js:91 | a transport error on a task admitted by a completion leaves the run pending with nothing in flight |

## Left out

- The HTTP and HTTPS requests (lib/download.js:28, 34, 73-76, 97) are not modelled. A response is an `OnResponse` event carrying a status code and the body's chunks, in arrival order. A failed request is an `OnTransportError` event.
- The choice between `http` and `https` by URL prefix (line 28) is not modelled.
- File-system calls are not modelled as I/O:
  - the existence checks (lines 138-145) are boolean inputs of `Start`;
  - `readFile` (line 158) is the `Playlist` argument of `OnPlaylistRead`;
  - `openSync`, `writeSync` and `closeSync` are updates of the `files` map.
- The asynchronous `unlink` (line 41) takes effect at once in the model.
- Errors thrown by the file-system calls are not modelled.
- The `util` helpers are code not shown here (the URL pattern `m3u8UrlReg`, path builders, `mkdir`/`rmdir`, the progress bar, text colouring and the console message `consoleSuccess`):
  - the URLs the pattern matches are an input;
  - file names are `i.ts`, without the cache-directory prefix;
  - the progress bar is a list of reports (outcome and segment name) plus started and stopped flags;
  - the colours and the start message (line 147) are dropped;
  - removing the main cache folder (line 183) is not modelled.
- `config` and the option merge (lines 2, 111) are not part of this model. The limit `max` is a parameter of `Start`. The other options only build paths and messages.
- The rejection reasons are the variants of `RunError`, not message strings or error objects.
- Promise and microtask machinery is reduced to the run's settlement, which can change only once. A completion and the terminal check in its `.then` are one event, because no other callback runs in between.
- A task whose promise rejects with no handler can, depending on the Node.js version, end the process. That is not modelled: the model keeps the task stalled and the run pending.
- A response whose body never ends is not modelled. Only a transport failure leaves a task `Stalled`.
- Two runs in flight at once, sharing the module variables, are not modelled. A run starts with `Start` after the previous one's events.
- The JavaScript array `objArray`, built with `push`, is a `seq` field that the model reassigns.
