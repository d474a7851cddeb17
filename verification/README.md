# oh-my-ralph: the Ralph loop controller in Dafny

oh-my-ralph drives a coding agent in a "Ralph loop". It runs the same agent command again and
again against a prompt file. It stops when the agent prints the completion marker
`<PROMISE>DONE</PROMISE>`, when an iteration cap is reached, or when a shutdown signal arrives.
A run of failures only ever produces a warning. Alongside the agent, the controller may keep an
auxiliary `opencode web` server process, which it starts before the loop and stops on every way
out of `run()`.

The controller exists in three near-duplicate `RalphLoop` classes, and each is modelled as its
own class:

- `oh_my_ralph/ralph_loop.py` becomes module `PackagedLoop`.
  - It provisions a `.ralphy/` control directory.
  - It recognises the opencode, copilot, claude and amp agents.
  - It manages the server only for commands that start with `opencode`.
- `oh_my_ralph/ralph.py` becomes module `PackagedRalph`.
  - It provisions `.ralphy/` the same way.
  - It recognises only `opencode run`.
  - It always manages the server.
  - It ignores its `prompt_file` argument.
- `ralph.py` becomes module `ScriptRalph`.
  - It has no `.ralphy/` directory and uses the prompt file it is given.
  - It has no completion marker.

The shared parts live in these modules:

- `PyStr`: the Python string operations the controller relies on. These are `strip`,
  `startswith`, `in`, whitespace `split`, `" ".join` and `str(int)`.
- `Commands`: the command builders. `BuildAgentCommand` is the rich builder; `BuildOpencodeCommand`
  is the opencode-only one.
- `Runner`: the agent invocation.
  - It decides whether the prompt goes on stdin or as an argument.
  - It maps errors and timeouts to a result.
  - It turns that result into the verdict of one iteration.
- `Provisioning`: the `.ralphy/` provisioning plan, `copy_resource_files` and the
  prerequisite check.
- `WorkingDir`: where the `.ralphy/` prompt file lies before and after `run()` changes into
  the working directory.
- `Controller`: the loop state machine, shared by all three classes.
  - `Loop` specifies the `while self.running:` loop.
  - `Session` specifies `run()` from the server start on.

The agent process is not run. What one iteration observes is an input, an `Observation`, with
four parts:

- the prompt file's text, or `None` when it cannot be read;
- the agent's `Outcome`: `Completed(rc, stdout, stderr)`, `TimedOut` or `Failed(error)`;
- whether the server process exited by itself;
- whether a shutdown signal arrived while the iteration ran.

Each class's `Run` method takes the file system and the sequence of observations. Its contract
ties the final state of the object (iteration counter, `running` flag, server handle, log of
events, launched processes) to `RunSpec`. The lemmas beside each class state what `run()`
promises about that specification.

## Model

| member | source | states |
|---|---|---|
| PyStr.ContainsAt | oh_my_ralph/ralph_loop.py:187 | Python's `needle in s` holds exactly when the needle occurs at some index of `s` |
| PyStr.StripSpec | oh_my_ralph/ralph_loop.py:90 | `str.strip()` is empty exactly for an all-whitespace text, and otherwise neither starts nor ends with whitespace |
| PyStr.StripIsInfix | oh_my_ralph/ralph_loop.py:90 | `str.strip()` keeps one contiguous part of the text, starting right after its leading whitespace |
| PyStr.StripRemovesSpace | oh_my_ralph/ralph_loop.py:90 | what `str.strip()` drops at either end is whitespace only |
| PyStr.StripUnpadded | oh_my_ralph/ralph_loop.py:90 | a text with no whitespace at either end is its own `strip()` |
| PyStr.SplitSpec | oh_my_ralph/ralph_loop.py:102 | `str.split()` yields non-empty, whitespace-free words, and none exactly for an all-whitespace text |
| PyStr.ContainsWordSplits | oh_my_ralph/ralph_loop.py:100-102 | a command containing `copilot` has a first word to keep |
| PyStr.SplitJoin | oh_my_ralph/ralph_loop.py:102-107 | splitting the single-space join of whitespace-free words gives back the words |
| PyStr.SplitWordThen | oh_my_ralph/ralph_loop.py:103 | a word followed by any whitespace character (space, tab, newline, ...) is split off whole, and the rest is split the same way: words are never glued across whitespace |
| PyStr.SplitSpace | oh_my_ralph/ralph_loop.py:109 | a leading whitespace character of any kind does not change `str.split()`, so a run of whitespace separates like a single space |
| PyStr.SplitWord | oh_my_ralph/ralph_loop.py:103 | a single word splits to itself; with the empty case of `PyStr.SplitSpec`, `SplitSpace` and `SplitWordThen`, this determines `str.split()` on every text |
| PyStr.NatToStringRoundTrip | oh_my_ralph/ralph_loop.py:98 | the decimal rendering of a port number reads back as the same number |
| PyStr.IntToStringSpec | oh_my_ralph/ralph_loop.py:98 | `str(n)` is the decimal digits of the magnitude of `n`, which read back as that magnitude, with a leading minus sign exactly for negative `n` |
| Commands.OpencodeInvocationShape | oh_my_ralph/ralph_loop.py:94-99 | the opencode command keeps the configured command as its prefix; it contains ` --model M` when a model is set and ends with ` --attach http://localhost:P` when the port is non-zero; with neither it is unchanged |
| Commands.CopilotInvocationShape | oh_my_ralph/ralph_loop.py:100-111 | a copilot command becomes its first word, then the optional model flag, then `--yolo`, then words that split back to exactly the remaining words of the command |
| Commands.BuildAgentCommand | oh_my_ralph/ralph_loop.py:88-121 | a command recognised as none of opencode, copilot, claude or amp comes back unchanged; every recognised one ends with the instruction naming the prompt file |
| Commands.BuildOpencodeCommand | oh_my_ralph/ralph.py:116-128 | a non-`opencode run` command comes back unchanged; an `opencode run` command keeps its prefix and ends with the instruction naming the prompt file |
| Commands.OpencodeTakesPrecedence | oh_my_ralph/ralph_loop.py:90-99 | an `opencode run` command gets exactly the model flag, the attach flag and the instruction, whatever copilot, claude or amp substrings it contains |
| Commands.CopilotWinsOverClaudeAndAmp | oh_my_ralph/ralph_loop.py:100-110 | a copilot command that is not `opencode run` gets exactly the copilot invocation and the instruction, even when it also mentions claude or amp |
| Commands.ClaudeWinsOverAmp | oh_my_ralph/ralph_loop.py:112-119 | a claude command that is neither opencode nor copilot gets the optional model flag and `--dangerously-skip-permissions`, even when it also matches amp |
| Commands.AmpAllowsAll | oh_my_ralph/ralph_loop.py:112-119 | an amp command that is not claude gets the optional model flag and `--dangerously-allow-all` |
| Commands.BuildersAgree | oh_my_ralph/ralph.py:116-128 | both builders add the same opencode flags and differ only in the instruction wording; both leave a command they do not recognise unchanged |
| Commands.OpencodeScenario | oh_my_ralph/ralph_loop.py:88-99 | with model `qwen` and port 8089 the opencode command is exactly `opencode run --model qwen --attach http://localhost:8089` followed by the instruction |
| Commands.AmpMatchesAnySubstring | oh_my_ralph/ralph_loop.py:93 | the amp test is a plain substring test: `npx --yes example` counts as amp because `example` contains `amp` |
| Runner.Collect | oh_my_ralph/ralph_loop.py:123-153 | a completed process reports its own return code and output; a timeout kills the process and reports -1, empty output and the timeout message; any other error reports -1, empty output and the error text |
| Runner.CompletionDetected | oh_my_ralph/ralph_loop.py:187 | the `stdout and MARKER in stdout` test holds exactly when the marker occurs in the output |
| Runner.MarkerAnywhere | oh_my_ralph/ralph_loop.py:187-190 | the marker is detected wherever it appears in the output |
| Runner.Evaluate | oh_my_ralph/ralph_loop.py:175-202 | an iteration succeeds exactly when the prompt was read and the agent completed with return code 0; it asks to stop exactly when the prompt was read and the completed agent printed the marker; every error path gives (False, False) |
| Runner.EvaluateWithoutMarker | ralph.py:168-206 | the script's iteration never asks to stop and succeeds exactly under the same condition as the packaged one |
| Runner.EvaluationsAgreeOnSuccess | ralph.py:168-206 | the two iteration verdicts agree on success |
| Runner.ArgumentOrStdinLaunch | oh_my_ralph/ralph_loop.py:123-147 | the prompt text goes to stdin exactly when the builder does not recognise the agent; a stdin launch runs the command unchanged; an argument launch ends with the instruction |
| Runner.OpencodeOrStdinLaunch | oh_my_ralph/ralph.py:130-160 | only an `opencode run` command is told to read the prompt file; any other command runs unchanged with the prompt text on stdin |
| Runner.ClaudeLaunchesDiffer | ralph.py:113-145 | a claude command is given the prompt file as an argument by `oh_my_ralph/ralph_loop.py` but the prompt text on stdin by the other two controllers |
| Provisioning.Resolve | oh_my_ralph/ralph_loop.py:211-223 | a control file's default is the bundled resource when one exists, otherwise the same-named file in the base directory |
| Provisioning.ResolveSources | oh_my_ralph/ralph_loop.py:213-223 | the resolution loop yields one source per control file, in order |
| Provisioning.CopyResourceFiles | oh_my_ralph/ralph_loop.py:282-291 | copying the zipped name and source pairs has the effect of `CopyAll`: each existing source is copied to `.ralphy/<name>` and each missing one is skipped and reported |
| Provisioning.CopyAllFrame | oh_my_ralph/ralph_loop.py:282-291 | a copy pass removes no file and changes nothing but the `.ralphy/` files it names |
| Provisioning.MissingAdvisory | oh_my_ralph/ralph_loop.py:228 | the files re-provisioned on a later run are exactly the agent and fix-plan files absent from `.ralphy/` |
| Provisioning.BaseSources | oh_my_ralph/ralph_loop.py:232 | missing advisory files are copied from the base directory, one source per name |
| Provisioning.Provision | oh_my_ralph/ralph_loop.py:208-234 | the provisioning steps of `run()` produce the disk described by `Provisioned` |
| Provisioning.ProvisionFreshDirectory | oh_my_ralph/ralph_loop.py:224-226 | without `.ralphy/`, every control file whose resolved default exists is copied from it, and no other file appears |
| Provisioning.AdvisoryCopiedSpec | oh_my_ralph/ralph_loop.py:227-232 | re-provisioning adds exactly the missing agent and fix-plan files, copied from the base directory when they exist there, keeps the present ones as they are, and touches no other file |
| Provisioning.ProvisionExistingDirectory | oh_my_ralph/ralph_loop.py:227-234 | with `.ralphy/`, present advisory files are kept, missing ones come from the base directory and never from the bundle, the prompt is re-copied from its default, and nothing outside `.ralphy/` changes |
| Provisioning.JoinPath | oh_my_ralph/ralph_loop.py:209 | `os.path.join(dir, name)` starts with `dir` and ends with `name` |
| Provisioning.RalphyPromptPath | oh_my_ralph/ralph_loop.py:35-41 | the prompt path lies under the base directory |
| Provisioning.MissingPaths | oh_my_ralph/ralph_loop.py:168 | the missing list holds exactly the required paths that do not exist |
| Provisioning.CheckPrerequisites | oh_my_ralph/ralph_loop.py:166-173 | the check fails exactly when the prompt file is missing; a missing advisory file is only reported |
| WorkingDir.Locate | oh_my_ralph/ralph_loop.py:237 | a relative path names a file under the current directory; an absolute one names itself |
| WorkingDir.RelativeWorkingDirMissesPrompt | oh_my_ralph/ralph_loop.py:35-39 | as written, for a relative working directory the prerequisite check tests a longer path than the prompt provisioning wrote |
| WorkingDir.RelativeWorkingDirFailsCheck | oh_my_ralph/ralph_loop.py:235-251 | as written, for a relative working directory the check does not find the prompt provisioning wrote, so the run ends before its first iteration |
| WorkingDir.ProjExample | oh_my_ralph/ralph_loop.py:35-39 | from `/home` with working directory `proj`, provisioning writes `/home/proj/.ralphy/prompt.md` and the check tests `/home/proj/proj/.ralphy/prompt.md` |
| WorkingDir.PromptPathResolved | oh_my_ralph/ralph_loop.py:35-39 | rendered from the absolute base directory, the prompt path is absolute |
| WorkingDir.ResolvedPromptStaysPut | oh_my_ralph/ralph_loop.py:235-251 | rendered from the absolute base directory, the prompt path names the same file before and after the change of directory, so the check tests the file provisioning wrote |
| WorkingDir.ResolvedAgreesWhenAbsolute | oh_my_ralph/ralph_loop.py:35-39 | for an absolute working directory, or none, the corrected rendering is the one the source produces |
| Controller.StopServer | oh_my_ralph/ralph_loop.py:66-74 | stopping leaves no live server; a live server is terminated and its handle dropped; with no handle or an exited process it changes nothing |
| Controller.StopServerIdempotent | oh_my_ralph/ralph_loop.py:66-74 | stopping twice is stopping once |
| Controller.StartServer | oh_my_ralph/ralph_loop.py:51-64 | the start is logged; a handle to a live server is held exactly when the process could be spawned, and a failed start is logged |
| Controller.Interrupt | oh_my_ralph/ralph_loop.py:46-49 | the signal handler clears `running` and leaves no live server, unconditionally |
| Controller.Record | oh_my_ralph/ralph_loop.py:175-190 | an iteration raises the counter by exactly 1, even when the prompt is missing, and records the process it launched |
| Controller.Step | oh_my_ralph/ralph_loop.py:258-276 | one pass raises the counter by 1; a signal during it clears `running` and stops the server |
| Controller.Warn | oh_my_ralph/ralph_loop.py:268-273 | the failure warning is logged exactly when the streak is at least 5, and nothing else changes |
| Controller.LoopUnfold | oh_my_ralph/ralph_loop.py:257-276 | a pass that is neither stopped nor capped runs one iteration, then either ends on the marker or continues with the updated streak |
| Controller.LoopProgress | oh_my_ralph/ralph_loop.py:257-276 | the counter moves by at most one per iteration and never past a positive cap; log and launches only grow; each stop reason holds only in its own situation; a loop never starts a server |
| Controller.LoopRunsToCap | oh_my_ralph/ralph_loop.py:258-260 | with a positive cap, no signal and no marker, the loop makes exactly the cap's iterations, however many fail, and logs that the cap was reached |
| Controller.LoopNeverGivesUp | oh_my_ralph/ralph_loop.py:265-273 | without a cap, failures never end the loop |
| Controller.LoopStopsAtMarker | oh_my_ralph/ralph_loop.py:261-264 | the marker ends the loop in the iteration that saw it |
| Controller.LoopStopsOnSignal | oh_my_ralph/ralph_loop.py:46-49 | a signal ends the loop after the iteration it interrupted, with `running` off and the server stopped |
| Controller.WarningsAtThreshold | oh_my_ralph/ralph_loop.py:268-273 | every failure warning the loop logs carries a count of at least 5 |
| Controller.SustainedFailuresWarn | oh_my_ralph/ralph_loop.py:265-273 | once consecutive failures reach 5 the warning with that count is logged and the loop carries on |
| Controller.LoopSplit | oh_my_ralph/ralph_loop.py:257-276 | the loop over two stretches of iterations is the loop over the first, continued over the second from where it stopped when the first merely ran out |
| Controller.LoopStreak | oh_my_ralph/ralph_loop.py:265-267 | the failure count the loop carries is the number of consecutive failures up to its last iteration: a success resets it to 0 |
| Controller.NoWarningsBelowThreshold | oh_my_ralph/ralph_loop.py:268-273 | fewer than five failures in all, counting the ones before, log no failure warning |
| Controller.SuccessSilencesWarnings | oh_my_ralph/ralph_loop.py:265-273 | a successful iteration followed by at most four failures logs no failure warning, however many failures came before it |
| Controller.LoopWithoutMarker | ralph.py:240-261 | a loop with no completion verdict never ends because the agent is done |
| Controller.LoopLaunches | oh_my_ralph/ralph_loop.py:257-276 | every process the loop records is one launched by one of its iterations |
| Controller.ReportMissing | oh_my_ralph/ralph_loop.py:170-171 | the missing-files warning is logged exactly when some required file is missing |
| Controller.SessionWithoutPrerequisites | oh_my_ralph/ralph_loop.py:250-253 | a failed prerequisite check ends the run before any iteration, logs the failure and leaves no live server |
| Controller.SessionServer | oh_my_ralph/ralph_loop.py:248-279 | a run that manages the server leaves none running on any exit path; one that does not manage it never starts one |
| Controller.SessionRunsLoop | oh_my_ralph/ralph_loop.py:254-276 | once the prerequisites hold, the run is the loop from a zero failure streak |
| Controller.SessionLaunches | oh_my_ralph/ralph_loop.py:248-279 | a property every iteration's launch has holds for every process the whole run launches |
| PackagedLoop.TickOf | oh_my_ralph/ralph_loop.py:175-202 | an iteration launches a process only when the prompt was read, and launches it as the runner decides |
| PackagedLoop.Ticks | oh_my_ralph/ralph_loop.py:257-276 | one iteration per observation, in order |
| PackagedLoop.RalphLoop.constructor | oh_my_ralph/ralph_loop.py:11-45 | a new controller is running, at iteration 0, with no server; its prompt file is `.ralphy/prompt.md` under the working directory or the current one |
| PackagedLoop.RalphLoop.SignalHandler | oh_my_ralph/ralph_loop.py:46-49 | the handler clears `running` and stops the server |
| PackagedLoop.RalphLoop.StartOpencodeWebAtPort | oh_my_ralph/ralph_loop.py:51-64 | the new state is that of `StartServer` |
| PackagedLoop.RalphLoop.StopOpencodeServer | oh_my_ralph/ralph_loop.py:66-74 | the new state is that of `StopServer` |
| PackagedLoop.RalphLoop.CheckPrerequisites | oh_my_ralph/ralph_loop.py:166-173 | the result is the prerequisite verdict over `.ralphy/prompt.md`, `agent.md` and `fix_plan.md`, and missing files are logged |
| PackagedLoop.RalphLoop.RunSingleIteration | oh_my_ralph/ralph_loop.py:175-202 | the returned (success, should_stop) pair is the iteration's verdict, and the counter goes up by exactly one |
| PackagedLoop.RalphLoop.RunAgent | oh_my_ralph/ralph_loop.py:123-153 | the agent's result is `Collect` of its outcome, and the one new launch is the one `ArgumentOrStdinLaunch` decides; nothing else changes |
| PackagedLoop.RalphLoop.Iterate | oh_my_ralph/ralph_loop.py:257-276 | one pass of the `while self.running:` body has the effect of `Step`: the server may have exited, the iteration runs, and a signal that arrived is handled at its end |
| PackagedLoop.RalphLoop.Run | oh_my_ralph/ralph_loop.py:204-280 | the run provisions `.ralphy/`, and its final state and stop reason are those of the specified session |
| PackagedLoop.RalphLoop.RunLoop | oh_my_ralph/ralph_loop.py:254-276 | the while loop ends in the state and for the reason `Loop` gives |
| PackagedLoop.RunWithoutPrompt | oh_my_ralph/ralph_loop.py:250-253 | with no prompt after provisioning there are zero iterations, no launch and no live server |
| PackagedLoop.RunLeavesNoServer | oh_my_ralph/ralph_loop.py:248-279 | for an `opencode` command no server is left running; for any other command none is started |
| PackagedLoop.RunReachesCap | oh_my_ralph/ralph_loop.py:257-276 | with the prompt present, a positive cap, no signal and no marker, a run makes exactly the cap's iterations |
| PackagedLoop.RunStopsAtMarker | oh_my_ralph/ralph_loop.py:261-264 | the first marker ends the run right after its iteration |
| PackagedLoop.RunLaunchesMatchAgent | oh_my_ralph/ralph_loop.py:126-147 | every launched process gets the prompt text on stdin exactly when the agent is not recognised, and then runs the command unchanged |
| PackagedRalph.TickOf | oh_my_ralph/ralph.py:195-240 | an iteration launches a process only when the prompt was read, and launches it as the opencode-only runner decides |
| PackagedRalph.Ticks | oh_my_ralph/ralph.py:314-339 | one iteration per observation, in order |
| PackagedRalph.RalphLoop.constructor | oh_my_ralph/ralph.py:28-65 | a new controller is running, at iteration 0, with no server; its prompt file is `.ralphy/prompt.md` whatever `prompt_file` was given |
| PackagedRalph.RalphLoop.SignalHandler | oh_my_ralph/ralph.py:67-71 | the handler clears `running` and stops the server |
| PackagedRalph.RalphLoop.StartOpencodeWebAtPort | oh_my_ralph/ralph.py:73-87 | the new state is that of `StartServer` |
| PackagedRalph.RalphLoop.StopOpencodeServer | oh_my_ralph/ralph.py:89-98 | the new state is that of `StopServer` |
| PackagedRalph.RalphLoop.CheckPrerequisites | oh_my_ralph/ralph.py:182-193 | the result is the prerequisite verdict over the three `.ralphy/` files, and missing files are logged |
| PackagedRalph.RalphLoop.RunSingleIteration | oh_my_ralph/ralph.py:195-240 | the returned pair is the iteration's verdict, and the counter goes up by exactly one |
| PackagedRalph.RalphLoop.RunAgent | oh_my_ralph/ralph.py:130-160 | the agent's result is `Collect` of its outcome, and the one new launch is the one `OpencodeOrStdinLaunch` decides; nothing else changes |
| PackagedRalph.RalphLoop.Iterate | oh_my_ralph/ralph.py:314-339 | one pass of the `while self.running:` body has the effect of `Step`: the server may have exited, the iteration runs, and a signal that arrived is handled at its end |
| PackagedRalph.RalphLoop.Run | oh_my_ralph/ralph.py:245-343 | the run provisions `.ralphy/`, always starts the server, and ends in the state and for the reason of the specified session |
| PackagedRalph.RalphLoop.RunLoop | oh_my_ralph/ralph.py:310-339 | the while loop ends in the state and for the reason `Loop` gives |
| PackagedRalph.RunWithoutPrompt | oh_my_ralph/ralph.py:305-308 | with no prompt after provisioning there are zero iterations, no launch and no live server |
| PackagedRalph.RunLeavesNoServer | oh_my_ralph/ralph.py:303-341 | however a run ends, no server process is left running |
| PackagedRalph.RunReachesCap | oh_my_ralph/ralph.py:313-339 | with the prompt present, a positive cap, no signal and no marker, a run makes exactly the cap's iterations |
| PackagedRalph.RunStopsAtMarker | oh_my_ralph/ralph.py:320-324 | the first marker ends the run right after its iteration |
| PackagedRalph.RunLaunchesMatchAgent | oh_my_ralph/ralph.py:137-160 | every launched process is told to read the prompt file exactly for an `opencode run` command; otherwise it gets the prompt on stdin and the command unchanged |
| ScriptRalph.TickOf | ralph.py:168-206 | an iteration never asks to stop and launches a process only when the prompt was read |
| ScriptRalph.Ticks | ralph.py:240-261 | one iteration per observation, in order |
| ScriptRalph.RalphLoop.constructor | ralph.py:28-56 | a new controller is running, at iteration 0, with no server, and keeps the prompt file it was given |
| ScriptRalph.RalphLoop.SignalHandler | ralph.py:58-62 | the handler clears `running` and stops the server |
| ScriptRalph.RalphLoop.StartOpencodeWebAtPort | ralph.py:64-78 | the new state is that of `StartServer` |
| ScriptRalph.RalphLoop.StopOpencodeServer | ralph.py:80-89 | the new state is that of `StopServer` |
| ScriptRalph.RalphLoop.CheckPrerequisites | ralph.py:155-166 | the result is the prerequisite verdict over the given prompt file, `AGENT.md` and `requirements.md`, and missing files are logged |
| ScriptRalph.RalphLoop.RunSingleIteration | ralph.py:168-206 | the returned flag is the iteration's success, and the counter goes up by exactly one |
| ScriptRalph.RalphLoop.RunAgent | ralph.py:107-153 | the agent's result is `Collect` of its outcome, and the one new launch is the one `OpencodeOrStdinLaunch` decides; nothing else changes |
| ScriptRalph.RalphLoop.Iterate | ralph.py:240-261 | one pass of the `while self.running:` body has the effect of `Step`: the server may have exited, the iteration runs, and a signal that arrived is handled at its end |
| ScriptRalph.RalphLoop.Run | ralph.py:210-265 | the run always starts the server and ends in the state and for the reason of the specified session |
| ScriptRalph.RalphLoop.RunLoop | ralph.py:239-263 | the while loop, which has no marker exit, ends in the state and for the reason `Loop` gives |
| ScriptRalph.RunWithoutPrompt | ralph.py:231-234 | without the prompt file there are zero iterations, no launch and no live server |
| ScriptRalph.RunLeavesNoServer | ralph.py:229-263 | however a run ends, no server process is left running |
| ScriptRalph.RunNeverReportsDone | ralph.py:168-206 | no agent output ends a run: it never stops because the work is done |
| ScriptRalph.RunReachesCap | ralph.py:239-261 | with the prompt present, a positive cap and no signal, a run makes exactly the cap's iterations, whatever the agent prints |
| ScriptRalph.RunIgnoresMarker | ralph.py:239-261 | without a cap or a signal the loop uses every observation, even those whose output holds the marker |
| ScriptRalph.RunLaunchesMatchAgent | ralph.py:113-145 | only an `opencode run` command is told to read the prompt file; any other command gets the prompt on stdin and runs unchanged |

## Left out

- Process spawning and pipes are not modelled. The agent's and the server's behaviour is an
  input to the model, as the `Outcome` and `Observation` values and the `started` flag.
- Time is left out. This covers `time.sleep` between iterations, the fixed start-up sleep, the
  elapsed-time measurement and its float formatting.
- Signals are not modelled as asynchronous events. A signal is observed at the end of the
  iteration during which it arrived, and it then runs the handler.
- Logging is kept only as a sequence of the events the properties talk about. Timestamps, the
  log file, console printing, output previews, stderr excerpts, the ASCII-art banner and the copy
  messages are left out.
- `importlib.resources` lookup is not modelled: a bundled resource is a `Bundled(name)` file that
  exists or not.
- `os.chdir` and `sys.exit(1)` on a bad working directory are process-global. Paths in
  `ScriptRalph` are taken relative to the working directory as `InBase` paths.
- The `.ralphy/` paths of `PackagedLoop` and `PackagedRalph` (`InRalphy`) name one location
  whatever the current directory is. That is the corrected behaviour of `WorkingDir`, which
  renders them from the absolute base directory. The source as written renders them from the
  working directory as given, and a relative working directory loses the prompt after the
  `os.chdir` (see "## Findings").
- PackagedLoop.RunReachesCap: holds for the corrected path resolution. As written, a relative
  working directory ends the run before its first iteration (`WorkingDir.RelativeWorkingDirFailsCheck`).
- PackagedRalph.RunReachesCap: as for `PackagedLoop.RunReachesCap`; `oh_my_ralph/ralph.py:55-59`
  and `:288-305` render and use the paths the same way.
- `os.makedirs` and `shutil.copy2` are assumed to succeed. Their failures, and the metadata that
  `copy2` keeps, are not modelled.
- The server stop is not modelled in detail: the `terminate`, the five-second `wait` and the
  fallback `kill` are one step.
- `_read_prompt` is not modelled: whether the prompt can be read, and its text, are part of each
  observation.
- Path normalisation by `str(Path(...))` and `os.path.join` with an absolute second argument are
  not modelled.
- The command-line front ends are not part of this model: `oh_my_ralph/ralph_cli.py` and the
  `main()` functions.
- Controller.Loop: the source's loop has no bound of its own when no cap is set. The model is
  given a finite sequence of observations and ends with `TicksExhausted` when they run out.
- PackagedLoop.RalphLoop.Run: the server is reported as started or not by the `started` input.
  The exception raised by `Popen` is not modelled.
- Runner.Collect: a timeout's `kill` is recorded as the `killed` flag only. The process
  itself is not modelled.
- Commands.BuildOpencodeCommand: its own contract gives only the prefix and the instruction
  suffix. `Commands.BuildersAgree` gives the exact flags, which `Commands.OpencodeInvocationShape` describes.

## Findings

| source | as written | input that shows it | evidently intended | confidence | as-written member | corrected member |
|---|---|---|---|---|---|---|
| oh_my_ralph/ralph_loop.py:35-39 | the control-file paths are joined onto the working directory as given, and `run()` then changes into that directory (lines 235-237) before `_check_prerequisites` tests the same relative paths (line 250); `oh_my_ralph/ralph.py:55-59` and `:288-305` do the same | working directory `proj` from `/home`: provisioning writes `/home/proj/.ralphy/prompt.md`, the check tests `/home/proj/proj/.ralphy/prompt.md`, and the run ends with zero iterations | the check tests the prompt that provisioning wrote, for a relative working directory as well | not executed | WorkingDir.RelativeWorkingDirMissesPrompt | WorkingDir.ResolvedPromptStaysPut |
