/**
  One agent invocation and how an iteration judges it.

  The subprocess itself is not modelled: its observable outcome (it completed with a return code
  and output, it exceeded the one-hour limit, or starting or talking to it raised an error) is an
  input. What is modelled is what the controller launches, what it makes of the outcome, and the
  verdict an iteration hands back to the loop.
 */
module Runner {
  import opened Options
  import opened PyStr
  import opened Commands

  /** What the agent process did, as far as the controller can observe it. */
  datatype Outcome =
    | Completed(rc: int, stdout: string, stderr: string)
    | TimedOut
    | Failed(error: string)

  /** The shell command started for one iteration, and the text written to its stdin, if any. */
  datatype Launch = Launch(command: string, stdin: Option<string>)

  /** What `_run_agent` returns, and whether it had to kill the process. */
  datatype AgentResult = AgentResult(rc: int, stdout: string, stderr: string, killed: bool)

  const TimeoutMessage := "Process timed out after 1 hour"

  /** The completion marker an agent prints when the work is done. */
  const Marker := "<PROMISE>DONE</PROMISE>"

  /**
    `_run_agent`'s result: a completed process reports its own return code and output; a timeout
    kills the process and reports -1 with the timeout message; any other error reports -1 with the
    error's text. Only a completed process can report success.
   */
  function Collect(outcome: Outcome): (r: AgentResult)
    ensures r.killed <==> outcome.TimedOut?
    ensures outcome.Completed? ==> r.rc == outcome.rc && r.stdout == outcome.stdout && r.stderr == outcome.stderr
    ensures !outcome.Completed? ==> r.rc == -1 && r.stdout == ""
    ensures outcome.TimedOut? ==> r.stderr == TimeoutMessage && Contains(r.stderr, "timed out")
    ensures outcome.Failed? ==> r.stderr == outcome.error
  {
    match outcome
    case Completed(rc, stdout, stderr) => AgentResult(rc, stdout, stderr, false)
    case TimedOut =>
      assert TimeoutMessage == "Process " + "timed out" + " after 1 hour";
      ContainsInfix("Process ", "timed out", " after 1 hour");
      AgentResult(-1, "", TimeoutMessage, true)
    case Failed(error) => AgentResult(-1, "", error, false)
  }

  /** `stdout and MARKER in stdout`: the emptiness guard adds nothing, the marker is not empty. */
  function CompletionDetected(stdout: string): (b: bool)
    ensures b <==> Contains(stdout, Marker)
  {
    if stdout == [] then
      ContainsEmpty(Marker);
      false
    else
      Contains(stdout, Marker)
  }

  /** The marker is recognised wherever it appears in the output. */
  lemma MarkerAnywhere(before: string, after: string)
    ensures CompletionDetected(before + Marker + after)
  {
    ContainsInfix(before, Marker, after);
  }

  /** What an iteration reports to the loop. */
  datatype Verdict = Verdict(success: bool, shouldStop: bool)

  /**
    The verdict of `run_single_iteration` in the two packaged variants. A prompt that cannot be
    read (`None`) fails the iteration without running the agent; otherwise the iteration succeeds
    exactly when the agent completed with return code 0, and asks to stop exactly when the agent
    completed and printed the marker.
   */
  function Evaluate(prompt: Option<string>, outcome: Outcome): (v: Verdict)
    ensures v.success <==> prompt.Some? && outcome.Completed? && outcome.rc == 0
    ensures v.shouldStop <==> prompt.Some? && outcome.Completed? && Contains(outcome.stdout, Marker)
  {
    if prompt.None? then Verdict(false, false)
    else
      var r := Collect(outcome);
      ContainsEmpty(Marker);
      Verdict(r.rc == 0, CompletionDetected(r.stdout))
  }

  /** With the prompt read, the verdict is read off the agent's result. */
  lemma EvaluateRead(prompt: Option<string>, outcome: Outcome)
    requires prompt.Some?
    ensures Evaluate(prompt, outcome) == Verdict(Collect(outcome).rc == 0, CompletionDetected(Collect(outcome).stdout))
  {
  }

  /**
    The verdict of `run_single_iteration` in `ralph.py`, which has no completion marker: the
    iteration never asks the loop to stop.
   */
  function EvaluateWithoutMarker(prompt: Option<string>, outcome: Outcome): (v: Verdict)
    ensures !v.shouldStop
    ensures v.success <==> prompt.Some? && outcome.Completed? && outcome.rc == 0
  {
    if prompt.None? then Verdict(false, false) else Verdict(Collect(outcome).rc == 0, false)
  }

  /** The two verdicts agree on success; they differ only in the marker. */
  lemma EvaluationsAgreeOnSuccess(prompt: Option<string>, outcome: Outcome)
    ensures EvaluateWithoutMarker(prompt, outcome).success == Evaluate(prompt, outcome).success
    ensures Evaluate(prompt, outcome).shouldStop ==> !EvaluateWithoutMarker(prompt, outcome).shouldStop
  {
  }

  /**
    `_run_agent` of `oh_my_ralph/ralph_loop.py`: the prompt text goes to stdin exactly when the
    builder left the command unchanged; otherwise the command names the prompt file instead.
   */
  function ArgumentOrStdinLaunch(cfg: AgentConfig, promptPath: string, prompt: string): (l: Launch)
    ensures l.stdin.None? <==> TakesPromptArgument(cfg.command)
    ensures l.stdin.Some? ==> l.command == cfg.command && l.stdin.value == prompt
    ensures l.stdin.None? ==> EndsWith(l.command, FileInstruction(promptPath))
  {
    var command := BuildAgentCommand(cfg, promptPath);
    if TakesPromptArgument(cfg.command) then Launch(command, None) else Launch(command, Some(prompt))
  }

  /**
    `_run_agent` of `oh_my_ralph/ralph.py` and of `ralph.py`: opencode is told to read the prompt
    file; every other agent gets the prompt text on stdin and an unchanged command.
   */
  function OpencodeOrStdinLaunch(cfg: AgentConfig, promptPath: string, prompt: string): (l: Launch)
    ensures l.stdin.None? <==> UsesOpencodeRun(cfg.command)
    ensures l.stdin.Some? ==> l.command == cfg.command && l.stdin.value == prompt
    ensures l.stdin.None? ==> StartsWith(l.command, cfg.command) && EndsWith(l.command, PlainInstruction(promptPath))
  {
    var command := BuildOpencodeCommand(cfg, promptPath);
    if UsesOpencodeRun(cfg.command) then Launch(command, None) else Launch(command, Some(prompt))
  }

  /**
    Where the variants part ways: a claude command that is not opencode gets the prompt file as an
    argument in `oh_my_ralph/ralph_loop.py`, but the prompt text on stdin in the other two.
   */
  lemma ClaudeLaunchesDiffer(cfg: AgentConfig, promptPath: string, prompt: string)
    requires UsesClaude(cfg.command) && !UsesOpencodeRun(cfg.command)
    ensures ArgumentOrStdinLaunch(cfg, promptPath, prompt).stdin.None?
    ensures OpencodeOrStdinLaunch(cfg, promptPath, prompt) == Launch(cfg.command, Some(prompt))
  {
  }
}
