/**
 The bot's two module-level variables, `ffmpeg_process` and `stream_status`,
 as the fields of one object, and the operations that reassign them.
 */
module Supervisor {
  import opened Wrappers
  import opened Ffmpeg
  import opened Lifecycle

  /** The operating system's table of the children the bot has spawned. */
  class ProcessTable {
    var children: seq<Child>

    constructor ()
      ensures children == []
    {
      children := [];
    }
  }

  class StreamBot {
    /** The destination taken from the environment at start-up (absent when unset). */
    const rtmpOutput: Option<string>
    const os: ProcessTable
    /** `ffmpeg_process`: the recorded child, or none. */
    var ffmpegProcess: Option<nat>
    /** `stream_status`. */
    var streamStatus: Status

    ghost function View(): Session
      reads this, os
    {
      Session(os.children, ffmpegProcess, streamStatus)
    }

    ghost predicate Valid()
      reads this, os
    {
      Inv(View(), rtmpOutput)
    }

    constructor (rtmpOutput: Option<string>)
      ensures Valid() && fresh(os)
      ensures this.rtmpOutput == rtmpOutput && View() == Init
    {
      this.rtmpOutput := rtmpOutput;
      os := new ProcessTable();
      ffmpegProcess := None;
      streamStatus := Stopped;
    }

    /** Whether the recorded child is still running (a handle whose poll says so). */
    method Running() returns (running: bool)
      requires Valid()
      ensures running == Live(View())
    {
      running := ffmpegProcess.Some? && os.children[ffmpegProcess.value].alive;
    }

    /** `start_ffmpeg_stream`; `spawn` is what the spawn call does. */
    method StartFfmpegStream(spawn: SpawnOutcome) returns (ok: bool)
      requires Valid()
      modifies this, os
      ensures Valid()
      ensures ok == Start(old(View()), rtmpOutput, spawn).ok
      ensures View() == Start(old(View()), rtmpOutput, spawn).after
    {
      var running := Running();
      if running {
        return false;
      }
      if rtmpOutput.Some? && spawn == Spawned {
        var pid := |os.children|;
        os.children := os.children + [Child(FfmpegArgs(StreamInput, rtmpOutput.value), true)];
        ffmpegProcess := Some(pid);
        streamStatus := Streaming;
        ok := true;
      } else {
        streamStatus := Error;
        ok := false;
      }
    }

    /** `stop_ffmpeg_stream`; `outcome` is how terminate-and-wait goes. */
    method StopFfmpegStream(outcome: StopOutcome) returns (ok: bool)
      requires Valid()
      modifies this, os
      ensures Valid()
      ensures ok == Stop(old(View()), outcome).ok
      ensures View() == Stop(old(View()), outcome).after
    {
      var running := Running();
      if !running {
        return false;
      }
      var pid := ffmpegProcess.value;
      match outcome {
        case Exited =>
          // terminated and exited within the grace period
          os.children := os.children[pid := os.children[pid].(alive := false)];
          ffmpegProcess := None;
          streamStatus := Stopped;
          ok := true;
        case TimedOut =>
          // the wait timed out: killed
          os.children := os.children[pid := os.children[pid].(alive := false)];
          ffmpegProcess := None;
          streamStatus := Stopped;
          ok := true;
        case StopFault =>
          ok := false;
      }
    }

    /** The reconciliation `status_command` does before it answers; returns
        the status string its reply shows. */
    method StatusCommand() returns (reported: string)
      requires Valid()
      modifies this
      ensures Valid()
      ensures View() == Reconcile(old(View()))
      ensures reported == streamStatus.Name()
    {
      var running := Running();
      if ffmpegProcess.Some? && !running {
        streamStatus := Stopped;
        ffmpegProcess := None;
      }
      reported := streamStatus.Name();
    }

    /** The clean-up run when the bot is interrupted. */
    method Shutdown(outcome: StopOutcome)
      requires Valid()
      modifies this, os
      ensures Valid()
      ensures View() == Lifecycle.Shutdown(old(View()), outcome)
    {
      if ffmpegProcess.Some? {
        var _ := StopFfmpegStream(outcome);
      }
    }

    /** The operating system ending child `pid` on its own; the bot's fields
        do not change. */
    method ChildExits(pid: nat)
      requires Valid()
      modifies os
      ensures Valid()
      ensures View() == Lifecycle.ChildExits(old(View()), pid)
    {
      if pid < |os.children| {
        os.children := os.children[pid := os.children[pid].(alive := false)];
      }
    }
  }
}
