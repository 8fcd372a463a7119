/** The `useTermuxShell` hook: one project's shell session, with its output
    lines, the loading and running flags, the last error and the process id
    that a later stop is sent to. The command transport is a collaborator whose
    settled promise is a parameter; `Math.random()` for the pid is a `draw`. */
module TermuxShell {
  import opened Projects

  /** How the promise of `executeTermuxCommand(command)` settled. */
  datatype ExecResult =
    | Resolved(success: bool, output: seq<string>, error: Option<string>)
    | Rejected(error: Option<string>)

  /** How the promise of `stopTermuxProcess(pid)` settled. */
  datatype StopResult =
    | StopResolved(success: bool, message: string, error: Option<string>)
    | StopRejected

  const RunFailedDefault: string := "Unknown error during command execution."
  const RunRejectedDefault: string := "Failed to execute command."
  const StopFailedDefault: string := "Failed to stop process."
  const StopRejectedMessage: string := "Error stopping process."
  const PidRange: nat := 10000

  /** `e || fallback`: a missing or empty message gives way to the fallback. */
  function OrDefault(e: Option<string>, fallback: string): (r: string)
    ensures e.Some? && e.value != "" ==> r == e.value
    ensures r == fallback || (e.Some? && r == e.value)
    ensures fallback != "" ==> r != ""
  {
    if e.Some? && e.value != "" then e.value else fallback
  }

  /** `Math.floor(Math.random() * 10000) + 1`, with the random number as `draw`. */
  function PidFromDraw(draw: nat): (pid: nat)
    ensures 1 <= pid <= PidRange
  {
    draw % PidRange + 1
  }

  /** The hook's state as a value: the four state variables and `currentPid.current`. */
  datatype ShellState = ShellState(
    output: seq<string>,
    isLoading: bool,
    isRunning: bool,
    error: Option<string>,
    pid: Option<nat>)

  const Initial: ShellState := ShellState([], false, false, None, None)

  /** `runCommand` before its await. */
  function RunStarted(s: ShellState): ShellState
  {
    s.(isLoading := true, error := None, output := [])
  }

  /** `runCommand` after its await, through the `finally`. */
  function RunSettled(s: ShellState, result: ExecResult, draw: nat): ShellState
  {
    match result
    case Resolved(true, out, _) =>
      s.(output := out, isRunning := true, pid := Some(PidFromDraw(draw)), isLoading := false)
    case Resolved(false, _, e) =>
      s.(error := Some(OrDefault(e, RunFailedDefault)), isRunning := false, isLoading := false)
    case Rejected(e) =>
      s.(error := Some(OrDefault(e, RunRejectedDefault)), isRunning := false, isLoading := false)
  }

  /** The guard of `stopCommand`: running, and the pid is truthy. */
  predicate CanStop(s: ShellState)
  {
    s.isRunning && s.pid.Some? && s.pid.value != 0
  }

  /** `stopCommand` before its await. */
  function StopStarted(s: ShellState): ShellState
  {
    s.(isLoading := true)
  }

  /** `stopCommand` after its await, through the `finally`. */
  function StopSettled(s: ShellState, result: StopResult): ShellState
  {
    match result
    case StopResolved(true, msg, _) =>
      s.(output := s.output + [msg], isRunning := false, pid := None, isLoading := false)
    case StopResolved(false, _, e) =>
      s.(error := Some(OrDefault(e, StopFailedDefault)), isLoading := false)
    case StopRejected =>
      s.(error := Some(StopRejectedMessage), isLoading := false)
  }

  /** The whole of `stopCommand`: nothing at all unless the guard holds. */
  function Stopped(s: ShellState, result: StopResult): ShellState
  {
    if CanStop(s) then StopSettled(StopStarted(s), result) else s
  }

  class Shell {
    var output: seq<string>
    var isLoading: bool
    var isRunning: bool
    var error: Option<string>
    var currentPid: Option<nat>

    function State(): ShellState
      reads this
    {
      ShellState(output, isLoading, isRunning, error, currentPid)
    }

    constructor ()
      ensures State() == Initial
    {
      output, isLoading, isRunning, error, currentPid := [], false, false, None, None;
    }

    method BeginRun()
      modifies this
      ensures State() == RunStarted(old(State()))
    {
      isLoading := true;
      error := None;
      output := [];
    }

    method EndRun(result: ExecResult, draw: nat)
      modifies this
      ensures State() == RunSettled(old(State()), result, draw)
    {
      match result {
        case Resolved(success, out, e) =>
          if success {
            output := out;
            isRunning := true;
            currentPid := Some(PidFromDraw(draw));
          } else {
            error := Some(OrDefault(e, RunFailedDefault));
            isRunning := false;
          }
        case Rejected(e) =>
          error := Some(OrDefault(e, RunRejectedDefault));
          isRunning := false;
      }
      isLoading := false;
    }

    /** `runCommand(command)` run to completion; the command goes to the collaborator,
        whose answer is `result`. */
    method RunCommand(command: string, result: ExecResult, draw: nat)
      modifies this
      ensures State() == RunSettled(RunStarted(old(State())), result, draw)
    {
      BeginRun();
      EndRun(result, draw);
    }

    /** `stopCommand` up to its await; `started` is whether the guard let it through. */
    method BeginStop() returns (started: bool)
      modifies this
      ensures started == CanStop(old(State()))
      ensures State() == if started then StopStarted(old(State())) else old(State())
    {
      started := isRunning && currentPid.Some? && currentPid.value != 0;
      if started {
        isLoading := true;
      }
    }

    method EndStop(result: StopResult)
      modifies this
      ensures State() == StopSettled(old(State()), result)
    {
      match result {
        case StopResolved(success, msg, e) =>
          if success {
            output := output + [msg];
            isRunning := false;
            currentPid := None;
          } else {
            error := Some(OrDefault(e, StopFailedDefault));
          }
        case StopRejected =>
          error := Some(StopRejectedMessage);
      }
      isLoading := false;
    }

    /** `stopCommand()` run to completion. */
    method StopCommand(result: StopResult)
      modifies this
      ensures State() == Stopped(old(State()), result)
    {
      var started := BeginStop();
      if started {
        EndStop(result);
      }
    }
  }

  /** A run clears the error and the output and raises the loading flag first. */
  lemma RunStartClears(s: ShellState)
    ensures var t := RunStarted(s);
      t.isLoading && t.error.None? && t.output == [] && t.isRunning == s.isRunning && t.pid == s.pid
  {
  }

  /** However the collaborator answers, a completed run is no longer loading; it is
      running exactly when the answer was a success, and then it carries the answer's
      output, no error and a pid in 1..10000; otherwise it carries a non-empty error
      and the cleared output. */
  lemma RunOutcome(s: ShellState, result: ExecResult, draw: nat)
    ensures var t := RunSettled(RunStarted(s), result, draw);
      && !t.isLoading
      && (t.isRunning <==> result.Resolved? && result.success)
      && (t.isRunning ==> t.output == result.output && t.error.None?
                          && t.pid.Some? && 1 <= t.pid.value <= PidRange)
      && (!t.isRunning ==> t.output == [] && t.error.Some? && t.error.value != "" && t.pid == s.pid)
  {
  }

  /** A collaborator's own non-empty failure message is what the hook records. */
  lemma RunKeepsCollaboratorMessage(s: ShellState, result: ExecResult, draw: nat)
    requires !(result.Resolved? && result.success)
    requires result.error.Some? && result.error.value != ""
    ensures RunSettled(RunStarted(s), result, draw).error == result.error
  {
  }

  /** Without a running process and a pid, `stopCommand` changes nothing. */
  lemma StopGuarded(s: ShellState, result: StopResult)
    requires !CanStop(s)
    ensures Stopped(s, result) == s
  {
  }

  /** A stop that got through ends not loading and never loses output: the old output
      is a prefix of the new; a successful stop appends exactly its message, stops the
      process and forgets the pid; a failed one records a non-empty error and leaves
      the running flag and the pid as they were. */
  lemma StopOutcome(s: ShellState, result: StopResult)
    requires CanStop(s)
    ensures var t := Stopped(s, result);
      && !t.isLoading
      && |s.output| <= |t.output| && t.output[..|s.output|] == s.output
      && (result.StopResolved? && result.success ==>
            t.output == s.output + [result.message] && !t.isRunning && t.pid.None? && t.error == s.error)
      && (!(result.StopResolved? && result.success) ==>
            t.output == s.output && t.isRunning == s.isRunning && t.pid == s.pid
            && t.error.Some? && t.error.value != "")
  {
  }
}
