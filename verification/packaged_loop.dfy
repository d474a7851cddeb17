/**
  The controller of `oh_my_ralph/ralph_loop.py`.

  It provisions `.ralphy/` under the base directory, starts the opencode web server only for a
  command that starts with `opencode`, and recognises opencode, copilot, claude and amp when
  building the agent command. The prompt file is always `.ralphy/prompt.md`.
 */
module PackagedLoop {
  import opened Options
  import opened PyStr
  import opened Provisioning
  import opened Commands
  import opened Runner
  import opened Controller

  /** The files `_check_prerequisites` looks for, the prompt first. */
  function Prerequisites(d: Disk): PrereqReport {
    CheckPrerequisites(d.files.Keys, InRalphy(PromptMd), [InRalphy(AgentMd), InRalphy(FixPlanMd)])
  }

  /** One iteration as the loop sees it: the verdict, and the process launched if the prompt was read. */
  function TickOf(cfg: AgentConfig, promptPath: string, o: Observation): (t: Tick)
    ensures t.interrupted == o.interrupted && t.serverExited == o.serverExited
    ensures t.verdict == Evaluate(o.prompt, o.outcome)
    ensures t.launch == if o.prompt.Some? then Some(ArgumentOrStdinLaunch(cfg, promptPath, o.prompt.value)) else None
  {
    Tick(Evaluate(o.prompt, o.outcome),
         if o.prompt.Some? then Some(ArgumentOrStdinLaunch(cfg, promptPath, o.prompt.value)) else None,
         o.serverExited, o.interrupted)
  }

  function Ticks(cfg: AgentConfig, promptPath: string, obs: seq<Observation>): (ts: seq<Tick>)
    ensures |ts| == |obs|
    ensures forall i :: 0 <= i < |obs| ==> ts[i] == TickOf(cfg, promptPath, obs[i])
  {
    seq(|obs|, i requires 0 <= i < |obs| => TickOf(cfg, promptPath, obs[i]))
  }

  /**
    `run()`: provisioning, then the server only for an `opencode` command, the prerequisite
    check, the loop, and the server stopped again only for an `opencode` command.
   */
  function RunSpec(cfg: AgentConfig, promptPath: string, max: int, s: LoopState, disk: Disk,
                   started: bool, obs: seq<Observation>): LoopEnd
  {
    Session(max, s, UsesOpencode(cfg.command), cfg.port, started,
            Prerequisites(Provisioned(disk)), Ticks(cfg, promptPath, obs))
  }

  class RalphLoop {
    const config: AgentConfig
    const maxIterations: int
    /** The rendered path of `.ralphy/prompt.md`, which the agent is told to read. */
    const promptFile: string

    var iteration: nat
    var running: bool
    var server: Option<Server>
    var log: seq<Event>
    var launches: seq<Launch>

    function State(): LoopState
      reads this
    {
      LoopState(iteration, running, server, log, launches)
    }

    /** `__init__`: nothing has run yet, and the prompt file lies in `.ralphy/` under the base directory. */
    constructor (agentCommand: string, maxIterations: int, model: Option<string>, opencodePort: int,
                 workingDir: Option<string>, cwd: string)
      ensures config == AgentConfig(agentCommand, model, opencodePort)
      ensures this.maxIterations == maxIterations
      ensures promptFile == RalphyPromptPath(BaseDir(workingDir, cwd))
      ensures State() == LoopState(0, true, None, [], [])
    {
      config := AgentConfig(agentCommand, model, opencodePort);
      this.maxIterations := maxIterations;
      promptFile := RalphyPromptPath(BaseDir(workingDir, cwd));
      iteration := 0;
      running := true;
      server := None;
      log := [];
      launches := [];
    }

    method SignalHandler()
      modifies this
      ensures State() == Interrupt(old(State()))
    {
      running := false;
      StopOpencodeServer();
    }

    /** `started` says whether the `opencode web` process could be spawned. */
    method StartOpencodeWebAtPort(started: bool)
      modifies this
      ensures State() == StartServer(old(State()), config.port, started)
    {
      log := log + [ServerStarting(config.port)];
      if started {
        server := Some(Server(config.port, false));
      } else {
        log := log + [ServerStartFailed];
        server := None;
      }
    }

    method StopOpencodeServer()
      modifies this
      ensures State() == StopServer(old(State()))
    {
      if server.Some? && !server.value.exited {
        log := log + [ServerStopping];
        server := None;
      }
    }

    /** `_check_prerequisites` against the files present in `.ralphy/`. */
    method CheckPrerequisites(d: Disk) returns (ok: bool)
      modifies this
      ensures ok == Prerequisites(d).ok
      ensures State() == ReportMissing(old(State()), Prerequisites(d))
    {
      var report := Prerequisites(d);
      if |report.missing| > 0 {
        log := log + [MissingFiles(report.missing)];
      }
      ok := report.ok;
    }

    /** `run_single_iteration`: counts the iteration and runs the agent if the prompt can be read. */
    method RunSingleIteration(o: Observation) returns (success: bool, shouldStop: bool)
      modifies this
      ensures success == Evaluate(o.prompt, o.outcome).success
      ensures shouldStop == Evaluate(o.prompt, o.outcome).shouldStop
      ensures State() == Record(old(State()), TickOf(config, promptFile, o))
    {
      iteration := iteration + 1;
      log := log + [IterationStarted(iteration)];
      if o.prompt.None? {
        return false, false;
      }
      var result := RunAgent(o.prompt.value, o.outcome);
      shouldStop := CompletionDetected(result.stdout);
      success := result.rc == 0;
      EvaluateRead(o.prompt, o.outcome);
      if shouldStop {
        log := log + [CompletionMarker];
      }
    }

    /**
      `_run_agent`: builds the command, starts the agent process, recorded in `launches`, and
      collects what it did.
     */
    method RunAgent(prompt: string, outcome: Outcome) returns (result: AgentResult)
      modifies this
      ensures result == Collect(outcome)
      ensures State() == old(State()).(launches := old(launches) + [ArgumentOrStdinLaunch(config, promptFile, prompt)])
    {
      var launch := ArgumentOrStdinLaunch(config, promptFile, prompt);
      launches := launches + [launch];
      result := Collect(outcome);
    }

    /**
      `run()`. `disk` is the file system before provisioning, `started` whether the server could be
      spawned, and `observations` what each iteration observes, in order.
     */
    method Run(disk: Disk, started: bool, observations: seq<Observation>) returns (reason: StopReason, provisioned: Disk)
      modifies this
      ensures provisioned == Provisioned(disk)
      ensures var e := RunSpec(config, promptFile, maxIterations, old(State()), disk, started, observations);
              State() == e.state && reason == e.reason
    {
      provisioned := Provision(disk);
      var manageServer := UsesOpencode(config.command);
      if manageServer {
        StartOpencodeWebAtPort(started);
      }
      var ok := CheckPrerequisites(provisioned);
      if !ok {
        log := log + [PrerequisitesFailed];
        StopOpencodeServer();
        return PrerequisitesMissing, provisioned;
      }
      reason := RunLoop(observations);
      if manageServer {
        StopOpencodeServer();
      }
    }

    /**
      One iteration as the loop runs it: the server process may have exited by itself meanwhile,
      and a shutdown signal that arrived while the iteration ran is handled at its end.
     */
    method Iterate(o: Observation) returns (success: bool, shouldStop: bool)
      modifies this
      ensures success == TickOf(config, promptFile, o).verdict.success
      ensures shouldStop == TickOf(config, promptFile, o).verdict.shouldStop
      ensures State() == Step(old(State()), TickOf(config, promptFile, o))
    {
      ghost var before := State();
      if o.serverExited && server.Some? {
        server := Some(server.value.(exited := true));
      }
      assert State() == if o.serverExited then ServerExits(before) else before;
      success, shouldStop := RunSingleIteration(o);
      if o.interrupted {
        SignalHandler();
      }
    }

    /**
      The `while self.running:` loop of `run()`, from the current state with no failures behind it,
      one observation per iteration.
     */
    method RunLoop(observations: seq<Observation>) returns (reason: StopReason)
      modifies this
      ensures reason == Loop(maxIterations, old(State()), 0, Ticks(config, promptFile, observations)).reason
      ensures State() == Loop(maxIterations, old(State()), 0, Ticks(config, promptFile, observations)).state
    {
      ghost var ticks := Ticks(config, promptFile, observations);
      ghost var target := Loop(maxIterations, State(), 0, ticks);
      var streak: nat := 0;
      var k := 0;
      reason := Interrupted;
      while running
        invariant 0 <= k <= |observations|
        invariant Loop(maxIterations, State(), streak, ticks[k..]) == target
        invariant reason == Interrupted
        decreases |observations| - k
      {
        if maxIterations > 0 && iteration >= maxIterations {
          log := log + [MaxIterationsReached(maxIterations)];
          reason := CapReached;
          break;
        }
        if k == |observations| {
          reason := TicksExhausted;
          break;
        }
        var o := observations[k];
        LoopUnfold(maxIterations, State(), streak, ticks[k..]);
        assert ticks[k..][0] == TickOf(config, promptFile, o) && ticks[k..][1..] == ticks[k + 1..];
        var success, shouldStop := Iterate(o);
        k := k + 1;
        if shouldStop {
          reason := AgentDone;
          break;
        }
        if success {
          streak := 0;
        } else {
          streak := streak + 1;
          if streak >= MaxConsecutiveFailures {
            log := log + [FailureWarning(streak)];
          }
        }
      }
      assert LoopEnd(State(), streak, reason) == target;
    }
  }

  /** Without a prompt file after provisioning the run ends before any iteration, with the server down. */
  lemma RunWithoutPrompt(cfg: AgentConfig, promptPath: string, max: int, s: LoopState, disk: Disk,
                         started: bool, obs: seq<Observation>)
    requires InRalphy(PromptMd) !in Provisioned(disk).files
    ensures var r := RunSpec(cfg, promptPath, max, s, disk, started, obs);
      && r.reason == PrerequisitesMissing
      && r.state.iteration == s.iteration && r.state.launches == s.launches
      && ServerDown(r.state)
  {
    SessionWithoutPrerequisites(max, s, UsesOpencode(cfg.command), cfg.port, started,
                                Prerequisites(Provisioned(disk)), Ticks(cfg, promptPath, obs));
  }

  /**
    The server is stopped at the end of a run for an `opencode` command; for any other command it
    is never started, so a controller that had none still has none.
   */
  lemma RunLeavesNoServer(cfg: AgentConfig, promptPath: string, max: int, s: LoopState, disk: Disk,
                          started: bool, obs: seq<Observation>)
    ensures var r := RunSpec(cfg, promptPath, max, s, disk, started, obs);
      && (UsesOpencode(cfg.command) ==> ServerDown(r.state))
      && (s.server.None? ==> ServerDown(r.state))
  {
    SessionServer(max, s, UsesOpencode(cfg.command), cfg.port, started,
                  Prerequisites(Provisioned(disk)), Ticks(cfg, promptPath, obs));
  }

  /**
    With the prompt in place, no signal and no completion marker, a run with a positive cap makes
    exactly that many iterations, whether they succeed or fail.
   */
  lemma RunReachesCap(cfg: AgentConfig, promptPath: string, max: int, s: LoopState, disk: Disk,
                      started: bool, obs: seq<Observation>)
    requires InRalphy(PromptMd) in Provisioned(disk).files
    requires max > 0 && s.running && s.iteration <= max && |obs| >= max - s.iteration
    requires forall i :: 0 <= i < |obs| ==> Undisturbed(obs[i])
    ensures var r := RunSpec(cfg, promptPath, max, s, disk, started, obs);
      r.reason == CapReached && r.state.iteration == max
  {
    var manage := UsesOpencode(cfg.command);
    var report := Prerequisites(Provisioned(disk));
    var ticks := Ticks(cfg, promptPath, obs);
    var s1 := ReportMissing(if manage then StartServer(s, cfg.port, started) else s, report);
    LoopRunsToCap(max, s1, 0, ticks);
  }

  /**
    The first iteration whose agent prints the completion marker ends the run, if no signal came
    before it and the cap does not end the run first.
   */
  lemma RunStopsAtMarker(cfg: AgentConfig, promptPath: string, max: int, s: LoopState, disk: Disk,
                         started: bool, obs: seq<Observation>, j: nat)
    requires InRalphy(PromptMd) in Provisioned(disk).files
    requires s.running && j < |obs| && !CapHit(max, s.iteration + j)
    requires forall i :: 0 <= i < j ==> Undisturbed(obs[i])
    requires obs[j].prompt.Some? && obs[j].outcome.Completed? && Contains(obs[j].outcome.stdout, Marker)
    ensures var r := RunSpec(cfg, promptPath, max, s, disk, started, obs);
      r.reason == AgentDone && r.state.iteration == s.iteration + j + 1
  {
    var manage := UsesOpencode(cfg.command);
    var report := Prerequisites(Provisioned(disk));
    var ticks := Ticks(cfg, promptPath, obs);
    var s1 := ReportMissing(if manage then StartServer(s, cfg.port, started) else s, report);
    LoopStopsAtMarker(max, s1, 0, ticks, j);
  }

  /**
    Every agent process a run launches gets the prompt text on stdin exactly when it is not one of
    the recognised agents, and is told to read the prompt file otherwise.
   */
  lemma RunLaunchesMatchAgent(cfg: AgentConfig, promptPath: string, max: int, s: LoopState, disk: Disk,
                              started: bool, obs: seq<Observation>)
    ensures var r := RunSpec(cfg, promptPath, max, s, disk, started, obs);
      forall i :: |s.launches| <= i < |r.state.launches| ==>
        && (r.state.launches[i].stdin.None? <==> TakesPromptArgument(cfg.command))
        && (r.state.launches[i].stdin.Some? ==> r.state.launches[i].command == cfg.command)
  {
    TicksLaunchMatch(cfg, promptPath, obs);
    SessionLaunches(max, s, UsesOpencode(cfg.command), cfg.port, started, Prerequisites(Provisioned(disk)), Ticks(cfg, promptPath, obs),
                    l => LaunchMatches(cfg, l));
  }

  /** How each launch treats the prompt, given the configured command. */
  predicate LaunchMatches(cfg: AgentConfig, l: Launch) {
    (l.stdin.None? <==> TakesPromptArgument(cfg.command)) && (l.stdin.Some? ==> l.command == cfg.command)
  }

  lemma TicksLaunchMatch(cfg: AgentConfig, promptPath: string, obs: seq<Observation>)
    ensures var ticks := Ticks(cfg, promptPath, obs);
      forall i :: 0 <= i < |ticks| && ticks[i].launch.Some? ==> LaunchMatches(cfg, ticks[i].launch.value)
  {
    var ticks := Ticks(cfg, promptPath, obs);
    forall i | 0 <= i < |ticks| && ticks[i].launch.Some?
      ensures LaunchMatches(cfg, ticks[i].launch.value)
    {
      assert ticks[i].launch.value == ArgumentOrStdinLaunch(cfg, promptPath, obs[i].prompt.value);
    }
  }
}
