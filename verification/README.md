# ttvrecorder — a Dafny model of the recorder's decision core

`ttvrecorder.py` polls the Twitch channel-search API every 30 seconds. When the
configured channel goes live it starts a `Recorder` on a worker thread, which
opens the stream through Streamlink and copies it into
`<output_folder>/<channel>_<DD-MM-YYYY_HH-MM>.tmp`. When the channel goes
offline the `Manager` stops the recorder. Stopping remuxes the capture with
ffmpeg to the same name with `.mp4`, then deletes the capture.

This project models the sequential decisions inside that program as pure
functions on immutable datatypes and proves properties of them:

- `Configuration`: the `TTVConfig` credential check.
- `Naming`: the timestamped file name, and the global `.tmp` → `.mp4`
  replacement that gives the remux target.
- `Recording`: the `Recorder` lifecycle. The record holds the state, the stop
  latch, whether a reader loop is alive, and the current file name. The
  transitions are `Start(openSucceeds)`, `ReadLoopExit`, `ReaderFails` (a
  read error), `Stop`, and `Shutdown` (the Ctrl-C handler).
- `Liveness`: `is_channel_live`. It finds the first search entry whose
  lower-cased display name equals the channel. Each 401 response triggers one
  re-authentication and a retry.
- `Polling`: one iteration of `Manager.run` (lookup, then the decision table),
  and the fold of it over a sequence of polls. `Poll` is a whole iteration on
  the HTTP responses; `Step` is the same iteration given the lookup's result,
  and the fold runs over those results.
- `Results`: the `Option` and `Result` types the others share.

Inputs stand in for the outside world. A poll is an `Observation`: the result
of its lookup, the clock reading, whether the stream opens, and whether ffmpeg
succeeds. The worker thread that runs `start` is treated as
having done so before the next poll; the sleeps are left out.

Behaviour of the code that the model makes visible:

- `start` sets RUNNING before it opens the stream. If the open fails, the
  recorder stays RUNNING with no reader. `start` can then no longer be called.
  The next offline poll calls `stop`, which waits forever for a STOPPED that
  nobody sets (`FailedOpenWedgesRecorder`, `FailedOpenThenOfflineHangs`).
  A recorder that can never be stopped again is evidently unintended; the
  model follows the code.
- A read error in the middle of a session (`fd.read` raising) leaves `start`
  before it sets STOPPED. This wedges the recorder the same way
  (`ReadErrorWedgesRecorder`). Once wedged, the recorder stays RUNNING with
  nothing finalized for the rest of the run (`WedgedRecorderStaysWedged`).
- Ctrl-C after a failed open or a read error does not shut the recorder
  down: the interrupt handler's `stop` waits forever
  (`InterruptAfterWedgeHangs`).
- The capture is deleted whatever ffmpeg's exit status, so a remux that
  ffmpeg reports as failed loses the recording; the model follows the code
  (`DeletionIgnoresRemuxResult`).
- A search that matches nothing raises `ChannelNotFound`, which nothing
  catches, so `run` ends (`ChannelNotFoundEndsLoop`). The model follows the
  code.
- Only the display names are lower-cased. A channel given with an upper-case
  letter is never found (`UppercaseChannelNeverFound`).
- `.replace(".tmp", ".mp4")` rewrites every occurrence. A folder named
  `x.tmp` sends the remuxed file into `x.mp4` (`FolderExtensionIsRewritten`).

## Model

| member | source | states |
|---|---|---|
| Configuration.MakeConfig | ttvrecorder.py:23-30 | construction succeeds exactly when both credentials are truthy (not `None`, not empty); the client id is checked first; a built config holds the given values |
| Configuration.ValidConfigsAreExactlyTheConstructible | ttvrecorder.py:23-30 | a config has both credentials if and only if constructing it from its own fields succeeds and returns it |
| Naming.Pad2 | ttvrecorder.py:112 | two decimal digit characters whose value is the number (zero padding of `%d`, `%m`, `%H`, `%M`) |
| Naming.Pad4 | ttvrecorder.py:112 | four decimal digit characters whose value is the number (`%Y`) |
| Naming.FormatStamp | ttvrecorder.py:112 | the stamp has the `DD-MM-YYYY_HH-MM` layout and its digit groups read back as day, month, year, hour and minute |
| Naming.FormatThenParse | ttvrecorder.py:112 | parsing a formatted stamp gives back the same minute |
| Naming.ParseThenFormat | ttvrecorder.py:112 | every stamp that parses is the formatted form of the minute it parses to |
| Naming.StampInjective | ttvrecorder.py:112 | two different minutes never format to the same stamp |
| Naming.Join | ttvrecorder.py:114 | `os.path.join` keeps the name as the suffix, drops the folder for an absolute name, and keeps the folder as the prefix otherwise |
| Naming.NewFilename | ttvrecorder.py:111-114 | the capture path ends with `<channel>_<stamp>.tmp` |
| Naming.FilenameRecordsStart | ttvrecorder.py:111-114 | the session's start minute can be parsed back out of its capture path |
| Naming.FilenamesOfDistinctMinutesDiffer | ttvrecorder.py:111-114 | sessions of one channel started in different minutes get different files |
| Naming.ReplaceTmp | ttvrecorder.py:104 | the replacement keeps the length of the path |
| Naming.ReplaceWithoutTmp | ttvrecorder.py:104 | a path without `.tmp` is unchanged |
| Naming.ReplaceFirstOccurrence | ttvrecorder.py:104 | after a `.tmp`-free prefix, the first `.tmp` becomes `.mp4` and the scan continues behind it |
| Naming.SuffixOnlyTarget | ttvrecorder.py:104 | when `.tmp` occurs only as the extension, the target is the path with its last four characters turned into `.mp4` |
| Naming.RemuxTargetOfNewFilename | ttvrecorder.py:104-114 | for a folder and channel without `.tmp`, the remux target of a capture path differs from it only in the extension |
| Naming.FolderExtensionIsRewritten | ttvrecorder.py:104-114 | a folder `<base>.tmp` is rewritten to `<base>.mp4` in the remux target, because every occurrence is replaced |
| Liveness.Lower | ttvrecorder.py:157 | lower-casing keeps the length and lowers each character on its own |
| Liveness.FindChannel | ttvrecorder.py:156-160 | the lookup succeeds exactly when some entry matches; it returns the live flag of the first match; otherwise it fails with `ChannelNotFound` |
| Liveness.LowerHasNoUpper | ttvrecorder.py:157 | no character of a lower-cased display name is an upper-case letter |
| Liveness.UppercaseChannelNeverFound | ttvrecorder.py:157 | a channel containing an upper-case letter is never found, whatever the entries |
| Liveness.Answer | ttvrecorder.py:156-160 | a non-401 response without `data` fails with `MissingData`; with `data` it succeeds exactly when some entry matches, returning the `is_live` flag of the first match, and otherwise fails with `ChannelNotFound` |
| Liveness.IsChannelLive | ttvrecorder.py:143-160 | with `k` leading 401s, `auth` is called `k` times and the result is the lookup on response `k`; if every response is a 401, `auth` is called once per response |
| Liveness.AnsweredOrUnauthorized | ttvrecorder.py:152-154 | every response sequence has a first non-401 response or is all 401s, so the two cases above cover every input |
| Liveness.OneUnauthorizedThenAnswer | ttvrecorder.py:152-154 | one 401 gives exactly one re-authentication, and the result is the answer of the retry |
| Recording.Init | ttvrecorder.py:51-57 | a new recorder is INITIALIZING with a clear latch and no file, and satisfies the between-calls invariant |
| Recording.Start | ttvrecorder.py:60-68 | `start` fails its assertion unless INITIALIZING or STOPPED, changing nothing; otherwise it sets RUNNING and the new file name before the open, so even a failed open leaves RUNNING; a reader runs only if the open succeeded; the latch is untouched |
| Recording.ReadLoopExit | ttvrecorder.py:80-83 | the state changes only to STOPPED, and only when a reader is running and the latch is set; otherwise nothing changes |
| Recording.Stop | ttvrecorder.py:85-109 | `stop` fails its assertion unless RUNNING; with no reader it never returns and leaves the latch set; it completes exactly when a reader runs and a file is set, ending STOPPED with a fresh clear latch, remuxing the capture to its `.mp4` target and deleting it |
| Recording.ReaderFails | ttvrecorder.py:80-83 | a raising `fd.read` ends the reader without reaching the line that sets STOPPED: state, latch and file name are unchanged |
| Recording.Shutdown | ttvrecorder.py:232-235 | the interrupt handler leaves a recorder that is not RUNNING alone; for a RUNNING recorder with no reader it never returns, with the latch set; with a reader and a file it completes STOPPED with a clear latch, remuxing and deleting the capture |
| Recording.StartPreservesValid | ttvrecorder.py:60-68 | `start` keeps the between-calls invariant whether or not the open succeeds |
| Recording.StopPreservesValid | ttvrecorder.py:85-109 | a completed `stop` keeps the between-calls invariant, the latch being clear again |
| Recording.StartThenStopCompletes | ttvrecorder.py:60-109 | after a successful start whose reader is still reading, `stop` completes, leaves a valid STOPPED recorder, and deletes the file the start named |
| Recording.FailedOpenWedgesRecorder | ttvrecorder.py:60-91 | after a failed open the recorder is RUNNING: a further `start` fails its assertion and `stop` never returns |
| Recording.FreshLatchKeepsNextSessionRunning | ttvrecorder.py:80-109 | after a completed `stop`, the next session's reader does not see the old stop request and keeps RUNNING |
| Recording.StaleLatchEndsNextSession | ttvrecorder.py:80-88 | had the latch stayed set, the next session's reader would stop at its first check |
| Recording.DeletionIgnoresRemuxResult | ttvrecorder.py:95-107 | the outcome of `stop` does not depend on ffmpeg's exit status: the capture is deleted whatever it is |
| Recording.ReaderFailsPreservesValid | ttvrecorder.py:80-83 | a read error keeps the between-calls invariant |
| Recording.ReadErrorWedgesRecorder | ttvrecorder.py:60-91 | after a successful start and a read error the recorder is RUNNING: a further `start` fails its assertion and `stop` never returns |
| Recording.InterruptAfterWedgeHangs | ttvrecorder.py:232-235 | after a failed open or a read error, the interrupt handler's `stop` never returns |
| Recording.InterruptDuringSessionFinalizes | ttvrecorder.py:232-235 | an interrupt during a healthy session stops it, leaves a valid STOPPED recorder, and remuxes and deletes the session's file |
| Polling.Decide | ttvrecorder.py:166-186 | not RUNNING and live launches a start; RUNNING and offline stops; the two other cases do nothing |
| Polling.NewManager | ttvrecorder.py:125-130 | a new manager is polling its recorder and has not authenticated; a valid recorder gives a valid manager |
| Polling.Step | ttvrecorder.py:162-188 | a failed lookup ends the loop and leaves the recorder alone; a successful one takes exactly the decided action; `auth` calls accumulate; a NoOp poll leaves recorder and status as they were; a start poll leaves the recorder `start` produces; a stop poll leaves the recorder `stop` produces and either finalizes its file and keeps polling, or hangs with nothing finalized; a start leaves the recorder RUNNING; a stop is issued only to a RUNNING recorder; `stop` never fails its assertion; a valid manager stays valid and crashes only by a failed lookup; it can also hang in `stop` |
| Polling.Poll | ttvrecorder.py:143-188 | with `k` leading 401s a poll adds `k` `auth` calls, and it takes the action the decision table gives for the answer of response `k` |
| Polling.Run | ttvrecorder.py:162-188 | the `while True` loop over a sequence of polls: once the loop has stopped (hung or crashed), further polls leave the manager as it is |
| Polling.HaltedIsSilent | ttvrecorder.py:162-188 | once the loop has stopped, further polls take no action and finalize no file |
| Polling.RunActsOncePerPoll | ttvrecorder.py:162-188 | over every run, each poll takes at most one action and finalizes at most one file |
| Polling.RunKeepsChannel | ttvrecorder.py:162-188 | over every run the recorder's channel and folder are kept, and `auth` calls only accumulate |
| Polling.RunAlternates | ttvrecorder.py:162-188 | over every sequence of polls, starts and stops alternate, beginning according to whether the recorder runs |
| Polling.AlternatesBoundsCounts | ttvrecorder.py:162-188 | along alternating actions, starts and stops differ by at most one |
| Polling.StartsAndStopsBalance | ttvrecorder.py:162-188 | from a recorder that is not running, every run has as many stops as starts or one start more |
| Polling.RunKeepsValid | ttvrecorder.py:162-188 | over every run from a valid manager, the recorder stays valid while the loop polls, and the loop ends only by a failed lookup or a `stop` that never returns |
| Polling.RecordingWhileLiveIsIdle | ttvrecorder.py:178-182 | while recording, live polls neither start nor stop and leave the recorder unchanged |
| Polling.LivePollsStartOnce | ttvrecorder.py:166-182 | from an idle recorder, any non-empty run of live polls yields exactly one start and no stop |
| Polling.OfflinePollsNeverStart | ttvrecorder.py:166-177 | from an idle recorder, offline polls neither start nor stop and leave the recorder unchanged |
| Polling.LiveThenOfflineRecordsOnce | ttvrecorder.py:162-188 | live then offline, with a stream that opens: one start, one stop, the capture remuxed and deleted, the loop still polling |
| Polling.FailedOpenThenOfflineHangs | ttvrecorder.py:162-188 | live then offline, with a stream that fails to open: one start, one stop that never returns, nothing finalized, and no later poll |
| Polling.ChannelNotFoundEndsLoop | ttvrecorder.py:160-164 | a lookup that raises `ChannelNotFound` ends the loop, with no action and the recorder unchanged |
| Polling.WedgedRecorderStaysWedged | ttvrecorder.py:162-188 | from a recorder RUNNING with no reader, every run keeps it RUNNING with no reader, never starts it and finalizes nothing |
| Polling.EmptySearchEndsLoop | ttvrecorder.py:156-164 | a search answered with no entries ends the loop with `ChannelNotFound`, with no action and the recorder unchanged |

## Left out

- The reader and writer threads, the `deque` and the busy-wait sleeps. Their
  interleavings are concurrency, which this sequential model does not cover.
  Two consequences are therefore unmodelled. The writer leaves its loop as
  soon as the state is no longer RUNNING, so chunks still queued are not
  written. The deque is never cleared between sessions.
- Reading the stream. The data read and end of stream are not modelled. A
  raising `fd.read` is the transition `ReaderFails`; a set latch is the only
  other way the reader loop ends.
- Streamlink session setup and stream resolution. The open is the input
  `openSucceeds`.
- The HTTP requests and JSON decoding. A response is its status code plus the
  `data` list, or no `data` key. The token value and a failing `auth` request
  are not modelled; only the number of `auth` calls is counted. A request
  that raises (a connection error) or a body that is not JSON also leaves
  `run`, like `ChannelNotFound`; the lookup input `Failure(RequestFailed)`
  stands for it, and `Step` ends the loop on it as on any failed lookup.
- ffmpeg, `os.remove`, and `prepare_output_folder` (`os.path.exists`,
  `os.mkdir`). They are foreign side effects. `Stop` returns the remux and
  delete it would perform. A `subprocess.run` or `os.remove` that raises (no
  `/usr/bin/ffmpeg`, a capture file already gone) is not modelled; `stop`
  would then end `run` with the state STOPPED, the latch still set, and the
  capture kept when the raise came from `subprocess.run`.
- `datetime.now()`. The time is the input `Timestamp`, restricted to four-digit
  years; glibc's `%Y` does not pad earlier years.
- Timing: `POLL_INTERVAL` (30 s), `CHUNKSIZE` (8192), and the latency of
  `stop`.
- The command line, environment defaults and logging.
- Polling.Step: the fold takes lookup results as inputs, so it also ranges
  over results no response sequence produces (for instance a successful lookup
  of a channel spelled with an upper-case letter). Its properties hold for
  these too.
- Polling.Step: the worker thread is assumed to have set RUNNING before the
  next poll. A poll that saw the state before the thread did would launch a
  second worker; the model does not cover this.
- Polling.Step: a poll does not include read errors. `ReaderFails` is a
  transition of the recorder alone; its effect on the loop follows from
  `WedgedRecorderStaysWedged`, which covers any recorder left without a
  reader.
- Liveness.Lower: lowers only ASCII `A`–`Z`. Python's `str.lower` also lowers
  other Unicode letters, and some of them change the string's length.
- Liveness.IsChannelLive: when the modelled responses run out while every one
  was a 401, the model returns `NoResponse`. The code would keep
  re-authenticating and retrying, without bound, until Python's recursion
  limit stops it.
- Recording.Shutdown: the interrupt handler is modelled on the recorder alone,
  interrupting a `run` between polls. An interrupt arriving during any `stop`
  is not modelled: during a `stop` that never returns, the handler would call
  `stop` again and wait forever again; during a completing `stop` (ffmpeg
  running, say) the state is already STOPPED, so the handler does nothing,
  the capture is not deleted and the latch is not replaced.
