/**
 Whole runs of the bot: any sequence of chat commands interleaved with
 children dying on their own, and what holds after every one of them.
 */
module Traces {
  import opened Wrappers
  import opened Lifecycle

  /** One thing that can happen to the supervisor: a `/stream`, `/stop` or
      `/status` command (each with the operating system's outcome), or a
      child exiting without being asked to. */
  datatype Event =
    | StreamCmd(spawn: SpawnOutcome)
    | StopCmd(outcome: StopOutcome)
    | StatusCmd
    | ChildExit(pid: nat)

  function Step(s: Session, output: Option<string>, e: Event): Session {
    match e
    case StreamCmd(spawn) => Start(s, output, spawn).after
    case StopCmd(outcome) => Stop(s, outcome).after
    case StatusCmd => Reconcile(s)
    case ChildExit(pid) => ChildExits(s, pid)
  }

  function Run(s: Session, output: Option<string>, es: seq<Event>): Session
    decreases |es|
  {
    if es == [] then s else Run(Step(s, output, es[0]), output, es[1..])
  }

  lemma StepKeepsInvariant(s: Session, output: Option<string>, e: Event)
    requires Inv(s, output)
    ensures Inv(Step(s, output, e), output)
  {
  }

  /** The invariant holds after every run that starts where it holds. */
  lemma {:induction false} RunKeepsInvariant(s: Session, output: Option<string>, es: seq<Event>)
    requires Inv(s, output)
    ensures Inv(Run(s, output, es), output)
    decreases |es|
  {
    if es != [] {
      StepKeepsInvariant(s, output, es[0]);
      RunKeepsInvariant(Step(s, output, es[0]), output, es[1..]);
    }
  }

  /** When only child `k` may be running, at most that one runs. */
  lemma {:induction false} LiveCountOneCandidate(cs: seq<Child>, k: int)
    requires forall i :: 0 <= i < |cs| && cs[i].alive ==> i == k
    ensures LiveCount(cs) == if 0 <= k < |cs| && cs[k].alive then 1 else 0
    decreases |cs|
  {
    if cs != [] {
      forall i | 0 <= i < |cs[1..]| && cs[1..][i].alive
        ensures i == k - 1
      {
        assert cs[i + 1].alive;
      }
      LiveCountOneCandidate(cs[1..], k - 1);
    }
  }

  /** Under the invariant the only running child is the recorded one. */
  lemma OwnedLiveCount(s: Session)
    requires Owned(s)
    ensures LiveCount(s.children) == if Live(s) then 1 else 0
  {
    LiveCountOneCandidate(s.children, if s.process.Some? then s.process.value else -1);
  }

  /** From start-up, whatever commands arrive and whatever the operating
      system does, at most one transcoder runs, and when one does it is the
      one the bot has recorded. */
  lemma AtMostOneLiveChild(output: Option<string>, es: seq<Event>)
    ensures LiveCount(Run(Init, output, es).children) <= 1
    ensures LiveCount(Run(Init, output, es).children) == 1 <==> Live(Run(Init, output, es))
    ensures RunsFfmpeg(Run(Init, output, es), output)
  {
    RunKeepsInvariant(Init, output, es);
    OwnedLiveCount(Run(Init, output, es));
  }

  /** The interrupt clean-up leaves nothing running unless the stop itself
      faults; a fault is the only way a transcoder can outlive the bot. */
  lemma ShutdownStopsEveryChild(s: Session, outcome: StopOutcome)
    requires Owned(s)
    ensures outcome != StopFault ==> LiveCount(Shutdown(s, outcome).children) == 0
    ensures LiveCount(Shutdown(s, outcome).children) == 0 <==> !Live(s) || outcome != StopFault
  {
    OwnedLiveCount(s);
    OwnedLiveCount(Shutdown(s, outcome));
  }

  /** Two `/stream` commands in a row spawn one child: the second is refused
      and changes nothing. */
  lemma StartTwiceSpawnsOnce(s: Session, output: Option<string>, first: SpawnOutcome, second: SpawnOutcome)
    requires Start(s, output, first).ok
    ensures var again := Start(Start(s, output, first).after, output, second);
            !again.ok && again.after == Start(s, output, first).after &&
            |again.after.children| == |s.children| + 1
  {
  }

  /** Reconciling twice is reconciling once. */
  lemma ReconcileIdempotent(s: Session)
    ensures Reconcile(Reconcile(s)) == Reconcile(s)
  {
  }

  /** A transcoder that dies on its own leaves a stale STREAMING recorded;
      the next `/status` turns it into STOPPED with no handle, and the next
      `/stream` is then accepted. */
  lemma CrashStatusThenStart(s: Session, output: Option<string>, spawn: SpawnOutcome)
    requires Live(s) && s.status == Streaming
    ensures var crashed := ChildExits(s, s.process.value);
            crashed.status == Streaming && HasExited(crashed) &&
            Reconcile(crashed).status == Stopped && Reconcile(crashed).process == None &&
            (Start(Reconcile(crashed), output, spawn).ok <==> output.Some? && spawn == Spawned)
  {
  }

  /** With an exited child still recorded, a failed respawn records ERROR,
      and the next `/status` replaces it by STOPPED: the check looks only at
      the old handle, so the failure no longer shows. */
  lemma FailedRespawnReportsStopped(s: Session, output: Option<string>)
    requires HasExited(s)
    ensures Start(s, output, SpawnFailed).after.status == Error
    ensures Reconcile(Start(s, output, SpawnFailed).after).status == Stopped
  {
  }

  /** Right after `/status` reconciles, the status reads STREAMING exactly
      when the recorded child runs. */
  lemma ReconciledStatusMeansLive(s: Session)
    requires StatusTracks(s)
    ensures Reconcile(s).status == Streaming <==> Live(s)
    ensures Reconcile(s).status == Streaming <==> Reconcile(s).process.Some?
  {
  }

  /** From start-up, after any run, the status a `/status` reply shows is
      STREAMING exactly when a transcoder runs. */
  lemma StatusReplyTracksLiveness(output: Option<string>, es: seq<Event>)
    ensures var s := Run(Init, output, es);
            Reconcile(s).status == Streaming <==> Live(s)
  {
    RunKeepsInvariant(Init, output, es);
    ReconciledStatusMeansLive(Run(Init, output, es));
  }

  /** A recorded handle does not imply STREAMING: a stream, a crash and a
      failed respawn leave an exited handle recorded with status ERROR. */
  lemma HandleRecordedWithoutStreaming()
    ensures var s := Run(Init, Some("o"), [StreamCmd(Spawned), ChildExit(0), StreamCmd(SpawnFailed)]);
            s.process.Some? && s.status == Error
  {
  }

  /** From start-up, after any run, a recorded handle never comes with
      STOPPED: every step that records STOPPED clears the handle. */
  lemma StoppedMeansNoHandle(output: Option<string>, es: seq<Event>)
    ensures Run(Init, output, es).process.Some? ==> Run(Init, output, es).status != Stopped
  {
    RunKeepsInvariant(Init, output, es);
  }
}
