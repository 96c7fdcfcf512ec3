/**
 The stream-lifecycle state machine, on values.

 A `Session` is what the bot records (the handle `process` and the status
 string) together with the operating system's table of the children the bot
 has spawned. The handle is an index into that table, standing for the
 identity of the process object the bot keeps; `alive` is what a
 non-blocking poll of that child would report. Every outcome the operating
 system decides (whether the spawn works, how termination goes, when a child
 dies on its own) is a parameter.
 */
module Lifecycle {
  import opened Wrappers
  import opened Ffmpeg

  /** The three values the status string takes. */
  datatype Status = Stopped | Streaming | Error {
    function Name(): string {
      match this
      case Stopped => "STOPPED"
      case Streaming => "STREAMING"
      case Error => "ERROR"
    }
  }

  /** A spawned child process: its command line and whether it still runs. */
  datatype Child = Child(args: seq<string>, alive: bool)

  datatype Session = Session(children: seq<Child>, process: Option<nat>, status: Status)

  /** What the spawn call does: returns a process, or raises. */
  datatype SpawnOutcome = Spawned | SpawnFailed

  /** How a stop goes: the child exits within the grace period, the wait
      times out (and the child is killed), or some other exception is raised. */
  datatype StopOutcome = Exited | TimedOut | StopFault

  /** The boolean an operation returns, and the session it leaves. */
  datatype Reply = Reply(ok: bool, after: Session)

  /** The state at start-up: no handle, status STOPPED, no children yet. */
  const Init: Session := Session([], None, Stopped)

  /** A handle is recorded and the child it names has not exited. */
  predicate Live(s: Session) {
    s.process.Some? && s.process.value < |s.children| && s.children[s.process.value].alive
  }

  /** A handle is recorded but its child has already exited. */
  predicate HasExited(s: Session) {
    s.process.Some? && !Live(s)
  }

  /** The handle, when there is one, names a child that was spawned. */
  predicate WellFormed(s: Session) {
    s.process.Some? ==> s.process.value < |s.children|
  }

  /** Every child still running is the one the handle names: the bot never
      loses track of a running transcoder. */
  predicate Owned(s: Session) {
    forall i :: 0 <= i < |s.children| && s.children[i].alive ==> s.process == Some(i)
  }

  /** Every child was started with the fixed command line for `output`. */
  predicate RunsFfmpeg(s: Session, output: Option<string>) {
    s.children != [] ==>
      output.Some? &&
      forall i :: 0 <= i < |s.children| ==> s.children[i].args == FfmpegArgs(StreamInput, output.value)
  }

  /** No child was added and none was started with other arguments. */
  predicate SameCommands(s: Session, t: Session) {
    |t.children| == |s.children| &&
    forall i :: 0 <= i < |s.children| ==> t.children[i].args == s.children[i].args
  }

  /** What the code keeps of "handle recorded exactly when STREAMING":
      STREAMING is only recorded with a handle, STOPPED never is, and a live
      recorded child is always recorded as STREAMING. (A STREAMING handle may
      have exited, and an ERROR may keep an exited handle.) */
  predicate StatusTracks(s: Session) {
    (s.status == Streaming ==> s.process.Some?) &&
    (s.status == Stopped ==> s.process.None?) &&
    (Live(s) ==> s.status == Streaming)
  }

  predicate Inv(s: Session, output: Option<string>) {
    WellFormed(s) && Owned(s) && RunsFfmpeg(s, output) && StatusTracks(s)
  }

  /** Number of children still running. */
  function LiveCount(cs: seq<Child>): nat {
    if cs == [] then 0 else (if cs[0].alive then 1 else 0) + LiveCount(cs[1..])
  }

  /**
   Starting the stream. `output` is the configured destination; when it is
   absent the argument vector holds a null and the spawn call raises, so the
   attempt fails whatever the operating system would have done.
   */
  function Start(s: Session, output: Option<string>, spawn: SpawnOutcome): (r: Reply)
    // a live child is never replaced: the call is refused and nothing changes
    ensures Live(s) ==> !r.ok && r.after == s
    ensures r.ok <==> !Live(s) && output.Some? && spawn == Spawned
    // on success exactly one child is added, running the fixed command line,
    // and it is recorded as the handle with status STREAMING
    ensures r.ok ==>
              r.after.children == s.children + [Child(FfmpegArgs(StreamInput, output.value), true)] &&
              r.after.process == Some(|s.children|) && Live(r.after) &&
              r.after.status == Streaming
    // a failed spawn keeps the old (absent or exited) handle and records ERROR
    ensures !Live(s) && !r.ok ==> r.after == s.(status := Error) && !Live(r.after)
    ensures WellFormed(s) ==> WellFormed(r.after)
    ensures Owned(s) ==> Owned(r.after)
    ensures StatusTracks(s) ==> StatusTracks(r.after)
    ensures RunsFfmpeg(s, output) ==> RunsFfmpeg(r.after, output)
  {
    if Live(s) then
      Reply(false, s)
    else if output.Some? && spawn == Spawned then
      var child := Child(FfmpegArgs(StreamInput, output.value), true);
      Reply(true, Session(s.children + [child], Some(|s.children|), Streaming))
    else
      var failed := s.(status := Error);
      Reply(false, failed)
  }

  /** Stopping the stream. */
  function Stop(s: Session, outcome: StopOutcome): (r: Reply)
    ensures r.ok <==> Live(s) && outcome != StopFault
    // no live child (even with a stale STREAMING), or a fault: nothing changes
    ensures !r.ok ==> r.after == s
    // whether the child exits in time or is killed, it is no longer running,
    // the handle is cleared and the status is STOPPED
    ensures r.ok ==>
              r.after.process == None && r.after.status == Stopped &&
              |r.after.children| == |s.children| &&
              !r.after.children[s.process.value].alive &&
              forall i :: 0 <= i < |s.children| && i != s.process.value ==>
                r.after.children[i] == s.children[i]
    ensures WellFormed(s) ==> WellFormed(r.after)
    ensures Owned(s) ==> Owned(r.after)
    ensures StatusTracks(s) ==> StatusTracks(r.after)
    ensures SameCommands(s, r.after)
  {
    if !Live(s) then
      Reply(false, s)
    else match outcome
      case Exited | TimedOut =>
        var pid := s.process.value;
        var dead := s.children[pid].(alive := false);
        Reply(true, Session(s.children[pid := dead], None, Stopped))
      case StopFault =>
        Reply(false, s)
  }

  /** The check the status command makes before it answers: a handle whose
      child has exited is dropped and the status becomes STOPPED. */
  function Reconcile(s: Session): (r: Session)
    ensures r != s <==> HasExited(s)
    ensures r != s ==> r == Session(s.children, None, Stopped)
    ensures !HasExited(r) && Live(r) == Live(s)
    ensures WellFormed(s) ==> WellFormed(r)
    ensures Owned(s) ==> Owned(r)
    ensures StatusTracks(s) ==> StatusTracks(r)
  {
    if HasExited(s) then s.(process := None, status := Stopped) else s
  }

  /** The clean-up on interrupt: a stop, attempted only when a handle is recorded. */
  function Shutdown(s: Session, outcome: StopOutcome): (r: Session)
    ensures s.process.None? ==> r == s
    ensures r.process.None? || r == s
    // a live child that stops cleanly or is killed: it no longer runs, the
    // handle is cleared and the status is STOPPED
    ensures Live(s) && outcome != StopFault ==>
              r.process.None? && r.status == Stopped &&
              |r.children| == |s.children| && !r.children[s.process.value].alive &&
              forall i :: 0 <= i < |s.children| && i != s.process.value ==>
                r.children[i] == s.children[i]
    // no live child, or a fault: nothing changes (an exited handle stays recorded)
    ensures !(Live(s) && outcome != StopFault) ==> r == s
    ensures SameCommands(s, r)
    ensures WellFormed(s) ==> WellFormed(r)
    ensures Owned(s) ==> Owned(r)
    ensures StatusTracks(s) ==> StatusTracks(r)
  {
    if s.process.Some? then Stop(s, outcome).after else s
  }

  /** The operating system ending child `pid` on its own (a crash, the
      source going away). The bot's own fields do not change. */
  function ChildExits(s: Session, pid: nat): (r: Session)
    ensures r.process == s.process && r.status == s.status
    ensures |r.children| == |s.children|
    ensures pid < |s.children| ==> !r.children[pid].alive
    ensures forall i :: 0 <= i < |s.children| && i != pid ==> r.children[i] == s.children[i]
    ensures pid >= |s.children| ==> r == s
    ensures SameCommands(s, r)
    ensures WellFormed(s) ==> WellFormed(r)
    ensures Owned(s) ==> Owned(r)
    ensures StatusTracks(s) ==> StatusTracks(r)
  {
    if pid < |s.children| then s.(children := s.children[pid := s.children[pid].(alive := false)]) else s
  }
}
