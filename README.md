# Stream bot lifecycle model

The Telegram stream bot controls one `ffmpeg` child process. The child pulls a
fixed source URL and pushes it to an RTMP destination. Two module-level
variables hold the bot's state:

- `ffmpeg_process` is the child's handle, or `None`.
- `stream_status` is `"STOPPED"`, `"STREAMING"` or `"ERROR"`.

Three places change them. `/stream` runs `start_ffmpeg_stream`, `/stop` runs
`stop_ffmpeg_stream`, and `/status` first drops a handle whose child has
exited. A keyboard interrupt runs a final stop when a handle is recorded.
This project models that state machine and proves what it does to the
children it spawns.

Files and modules:

- `ffmpeg.dfy` (`Ffmpeg`): the constant source URL and the fixed `ffmpeg`
  argument vector.
- `lifecycle.dfy` (`Lifecycle`): the state machine on values. A `Session`
  holds the operating system's table of spawned children (each with its
  command line and whether it still runs), the handle (an index into that
  table, standing for the identity of the process object) and the status.
  `Start`, `Stop`, `Reconcile` and `Shutdown` are the bot's operations.
  `ChildExits` is the operating system ending a child on its own; the bot's
  code does not do this, but it is what makes a recorded handle go stale.
- `stream_bot.dfy` (`Supervisor`): the two globals as fields of a class
  `StreamBot`, one method per operation. Each method is proved to leave
  exactly the state the matching `Lifecycle` function gives, and to keep the
  invariant `Valid()`. A second class, `ProcessTable`, stands for the
  operating system's table of spawned children; it is the only object
  `ChildExits` may modify.
- `traces.dfy` (`Traces`): any sequence of commands and child exits from
  start-up, and the facts that hold after every such run.

The invariant (`Lifecycle.Inv`) says four things:
- the handle names a spawned child;
- every running child is the one the handle names;
- every child runs the fixed command line;
- STREAMING is recorded only with a handle, STOPPED never with one, and a
  running recorded child is always recorded as STREAMING (`StatusTracks`).

So "a handle is recorded exactly when the status is STREAMING" holds except in
one case: a failed respawn records ERROR but keeps the old, exited handle
(`Traces.HandleRecordedWithoutStreaming`). STREAMING does not mean the child
runs, though: a crashed child stays recorded as STREAMING until `/status`
looks at it.

Hence right after `/status` reconciles, the status it shows is STREAMING exactly
when the transcoder runs (`Traces.StatusReplyTracksLiveness`).

Every operating-system decision is a parameter: whether the spawn call
succeeds (`SpawnOutcome`), and how terminate-and-wait ends (`StopOutcome`:
exited in time, timed out and killed, or another exception).

What the code does and does not do:
- it has no restart operation and no per-call URL;
- it has no lock;
- `stop` tests whether the child is alive, not whether the status is STREAMING;
- a failed spawn keeps the previous (absent or exited) handle.

## Model

| member | source | states |
|---|---|---|
| Ffmpeg.FfmpegArgs | telegram_stream_bot.py:98-104 | the vector has 25 entries; it begins with `ffmpeg`; the source URL comes right after `-i`; it ends with `-f`, `flv` and the destination |
| Ffmpeg.FfmpegArgsFixedExceptUrls | telegram_stream_bot.py:98-104 | every entry other than the two URLs is the same constant whatever the URLs are |
| Ffmpeg.FfmpegArgsDetermineUrls | telegram_stream_bot.py:98-104 | two vectors are equal only when their source and destination URLs are equal |
| Lifecycle.Start | telegram_stream_bot.py:89-113 | with a live child recorded it returns false and changes nothing; it returns true exactly when no live child is recorded, the destination is set and the spawn succeeds; then exactly one running child is added with the fixed command line, recorded as the handle, status STREAMING; a failed spawn keeps the old, not running, handle and sets ERROR; the invariant is kept |
| Lifecycle.Stop | telegram_stream_bot.py:115-139 | returns true exactly when a live child is recorded and no fault occurs; a refused stop (even with a stale STREAMING) or a fault changes nothing; on success the child no longer runs whether it exited in time or was killed, the handle is cleared and the status is STOPPED, and no other child changes; the invariant is kept |
| Lifecycle.Reconcile | telegram_stream_bot.py:179-182 | changes the session exactly when a handle is recorded whose child has exited, and then only clears the handle and sets STOPPED; afterwards no exited handle is recorded and liveness is unchanged; the invariant is kept |
| Lifecycle.Shutdown | telegram_stream_bot.py:223-225 | without a handle nothing changes; with a live child and a stop that exits or kills, the child no longer runs, the handle is cleared and the status is STOPPED; no other child changes and no command line changes; in every other case (exited handle, or a stop fault) nothing changes; the invariant is kept |
| Lifecycle.ChildExits | telegram_stream_bot.py:180 | the operating system ending a child on its own, the event the poll here detects: only that child's liveness changes (every other child is the same, and a `pid` outside the table changes nothing), the recorded handle and status stay as they were, and the invariant is kept |
| Traces.StepKeepsInvariant | telegram_stream_bot.py:89-139 | each command, and each child exit, keeps the invariant |
| Traces.RunKeepsInvariant | telegram_stream_bot.py:89-139 | every sequence of commands and child exits keeps the invariant |
| Traces.LiveCountOneCandidate | telegram_stream_bot.py:93 | when only one index may hold a running child, the number running is 1 or 0 according to that child |
| Traces.OwnedLiveCount | telegram_stream_bot.py:93-98 | under the invariant exactly one child runs when the recorded child is live, and none otherwise |
| Traces.AtMostOneLiveChild | telegram_stream_bot.py:93-98 | from start-up, after any run, at most one child runs, that child is the recorded one, and every child runs the fixed command line |
| Traces.ShutdownStopsEveryChild | telegram_stream_bot.py:223-225 | the interrupt clean-up leaves no child running exactly when no live child was recorded or the stop did not fault |
| Traces.StartTwiceSpawnsOnce | telegram_stream_bot.py:93-108 | after an accepted `/stream`, a second one is refused, changes nothing, and one child in all has been added |
| Traces.ReconcileIdempotent | telegram_stream_bot.py:179-182 | reconciling twice is the same as reconciling once |
| Traces.CrashStatusThenStart | telegram_stream_bot.py:179-182 | a child that dies on its own leaves STREAMING recorded; the next `/status` sets STOPPED with no handle; a following `/stream` is accepted exactly when the destination is set and the spawn succeeds |
| Traces.FailedRespawnReportsStopped | telegram_stream_bot.py:179-182 | with an exited child still recorded, a failed spawn sets ERROR, and the following `/status` reports STOPPED instead |
| Traces.ReconciledStatusMeansLive | telegram_stream_bot.py:179-182 | under `StatusTracks`, the reconciled status is STREAMING exactly when the child runs, and exactly when a handle stays recorded |
| Traces.StatusReplyTracksLiveness | telegram_stream_bot.py:179-186 | from start-up, after any run, the status a `/status` reply shows is STREAMING exactly when the recorded transcoder runs |
| Traces.HandleRecordedWithoutStreaming | telegram_stream_bot.py:98-113 | a stream, a crash of its child and a failed respawn leave a handle recorded with status ERROR, so a recorded handle does not imply STREAMING |
| Traces.StoppedMeansNoHandle | telegram_stream_bot.py:126-134 | from start-up, after any run, a recorded handle never comes with status STOPPED, because every step that records STOPPED (lines 126-127, 133-134, 181-182, and the start-up values) clears the handle |
| Supervisor.StreamBot.Running | telegram_stream_bot.py:93 | reports whether a handle is recorded and its child is still running |
| Supervisor.StreamBot.StartFfmpegStream | telegram_stream_bot.py:89-113 | returns and leaves exactly what `Lifecycle.Start` gives, and keeps the invariant |
| Supervisor.StreamBot.StopFfmpegStream | telegram_stream_bot.py:115-139 | returns and leaves exactly what `Lifecycle.Stop` gives, and keeps the invariant |
| Supervisor.StreamBot.StatusCommand | telegram_stream_bot.py:177-186 | leaves exactly what `Lifecycle.Reconcile` gives, returns the resulting status as the string the reply shows (`STOPPED`, `STREAMING` or `ERROR`), and keeps the invariant |
| Supervisor.StreamBot.Shutdown | telegram_stream_bot.py:223-225 | leaves exactly what `Lifecycle.Shutdown` gives, and keeps the invariant |
| Supervisor.StreamBot.ChildExits | telegram_stream_bot.py:180 | leaves exactly what `Lifecycle.ChildExits` gives, touching only the process table, and keeps the invariant |
| Supervisor.StreamBot.constructor | telegram_stream_bot.py:15-19 | starts with no handle, status STOPPED and no children, with the destination taken from the environment |

## Left out

- Chat replies of the command handlers and the `/start` welcome text: message I/O through a library outside this model.
- The HTTP status page and its server: HTML rendering only; it reads `stream_status` without reconciling.
- `main`, the Flask thread and the asyncio loop: every operation is modelled as one atomic step. All three commands change the state in synchronous code, with no `await` inside, on the one asyncio loop thread. The Flask thread only reads `stream_status` (lines 85-87). So no two state changes interleave.
- The subprocess calls (`Popen`, `poll`, `terminate`, `wait`, `kill`): they are reduced to the liveness flag of each child plus the outcome parameters. The 5-second grace period is an outcome (`TimedOut`), not a clock.
- Lifecycle.Stop: an exception raised by `kill` itself inside the timeout handler is not modelled; kill is taken to end the child.
- Lifecycle.Stop: a fault (`StopFault`) leaves the child's liveness unchanged. If such a child later dies, that is a separate `ChildExits` step.
- Logging, and reading the bot token from the environment. An unset `RTMP` destination is modelled as an absent `rtmpOutput`. With it absent, the argument vector holds `None` and every spawn fails.
- The exit codes and output pipes of the child.
