/**
  The controller of the stand-alone script `ralph.py`.

  It has no `.ralphy/` directory: the prompt file is the one given to the constructor, and the
  prerequisites are that file, `AGENT.md` and `requirements.md` in the working directory. It
  always starts and stops the opencode web server, recognises only opencode when building the
  agent command, and has no completion marker: only the cap or a signal ends its loop.
 */
module ScriptRalph {
  import opened Options
  import opened PyStr
  import opened Provisioning
  import opened Commands
  import opened Runner
  import opened Controller

  const AgentGuide := "AGENT.md"
  const Requirements := "requirements.md"

  /** The files `_check_prerequisites` looks for, the prompt first, relative to the working directory. */
  function Prerequisites(present: set<Path>, promptFile: string): PrereqReport {
    CheckPrerequisites(present, InBase(promptFile), [InBase(AgentGuide), InBase(Requirements)])
  }

  /** One iteration as the loop sees it: the verdict, and the process launched if the prompt was read. */
  function TickOf(cfg: AgentConfig, promptPath: string, o: Observation): (t: Tick)
    ensures t.interrupted == o.interrupted && t.serverExited == o.serverExited
    ensures t.verdict == EvaluateWithoutMarker(o.prompt, o.outcome)
    ensures t.launch == if o.prompt.Some? then Some(OpencodeOrStdinLaunch(cfg, promptPath, o.prompt.value)) else None
  {
    Tick(EvaluateWithoutMarker(o.prompt, o.outcome),
         if o.prompt.Some? then Some(OpencodeOrStdinLaunch(cfg, promptPath, o.prompt.value)) else None,
         o.serverExited, o.interrupted)
  }

  function Ticks(cfg: AgentConfig, promptPath: string, obs: seq<Observation>): (ts: seq<Tick>)
    ensures |ts| == |obs|
    ensures forall i :: 0 <= i < |obs| ==> ts[i] == TickOf(cfg, promptPath, obs[i])
  {
    seq(|obs|, i requires 0 <= i < |obs| => TickOf(cfg, promptPath, obs[i]))
  }

  /**
    `run()`: the server start, the prerequisite check against the files `present` in the working
    directory, the loop and the server stop.
   */
  function RunSpec(cfg: AgentConfig, promptPath: string, max: int, s: LoopState, present: set<Path>,
                   started: bool, obs: seq<Observation>): LoopEnd
  {
    Session(max, s, true, cfg.port, started, Prerequisites(present, promptPath), Ticks(cfg, promptPath, obs))
  }

  class RalphLoop {
    const config: AgentConfig
    const maxIterations: int
    /** The prompt file as given, which the agent is told to read. */
    const promptFile: string

    var iteration: nat
    var running: bool
    var server: Option<Server>
    var log: seq<Event>
    var launches: seq<Launch>

    function State(): LoopState
      reads this
    {
      LoopState(iteration, running, server, log, launches)
    }

    /** `__init__`: nothing has run yet; the prompt file is kept as given. */
    constructor (agentCommand: string, promptFile: string, maxIterations: int, model: Option<string>,
                 opencodePort: int)
      ensures config == AgentConfig(agentCommand, model, opencodePort)
      ensures this.maxIterations == maxIterations && this.promptFile == promptFile
      ensures State() == LoopState(0, true, None, [], [])
    {
      config := AgentConfig(agentCommand, model, opencodePort);
      this.maxIterations := maxIterations;
      this.promptFile := promptFile;
      iteration := 0;
      running := true;
      server := None;
      log := [];
      launches := [];
    }

    method SignalHandler()
      modifies this
      ensures State() == Interrupt(old(State()))
    {
      running := false;
      StopOpencodeServer();
    }

    /** `started` says whether the `opencode web` process could be spawned. */
    method StartOpencodeWebAtPort(started: bool)
      modifies this
      ensures State() == StartServer(old(State()), config.port, started)
    {
      log := log + [ServerStarting(config.port)];
      if started {
        server := Some(Server(config.port, false));
      } else {
        log := log + [ServerStartFailed];
        server := None;
      }
    }

    method StopOpencodeServer()
      modifies this
      ensures State() == StopServer(old(State()))
    {
      if server.Some? && !server.value.exited {
        log := log + [ServerStopping];
        server := None;
      }
    }

    /** `_check_prerequisites` against the files present in the working directory. */
    method CheckPrerequisites(present: set<Path>) returns (ok: bool)
      modifies this
      ensures ok == Prerequisites(present, promptFile).ok
      ensures State() == ReportMissing(old(State()), Prerequisites(present, promptFile))
    {
      var report := Prerequisites(present, promptFile);
      if |report.missing| > 0 {
        log := log + [MissingFiles(report.missing)];
      }
      ok := report.ok;
    }

    /** `run_single_iteration`: counts the iteration and runs the agent if the prompt can be read. */
    method RunSingleIteration(o: Observation) returns (success: bool)
      modifies this
      ensures success == EvaluateWithoutMarker(o.prompt, o.outcome).success
      ensures State() == Record(old(State()), TickOf(config, promptFile, o))
    {
      RecordUnmarked(State(), TickOf(config, promptFile, o));
      iteration := iteration + 1;
      log := log + [IterationStarted(iteration)];
      if o.prompt.None? {
        return false;
      }
      var result := RunAgent(o.prompt.value, o.outcome);
      success := result.rc == 0;
    }

    /**
      `_run_agent`: builds the command, starts the agent process, recorded in `launches`, and
      collects what it did.
     */
    method RunAgent(prompt: string, outcome: Outcome) returns (result: AgentResult)
      modifies this
      ensures result == Collect(outcome)
      ensures State() == old(State()).(launches := old(launches) + [OpencodeOrStdinLaunch(config, promptFile, prompt)])
    {
      var launch := OpencodeOrStdinLaunch(config, promptFile, prompt);
      launches := launches + [launch];
      result := Collect(outcome);
    }

    /**
      `run()`. `present` is the set of files in the working directory, `started` whether the
      server could be spawned, and `observations` what each iteration observes, in order.
     */
    method Run(present: set<Path>, started: bool, observations: seq<Observation>) returns (reason: StopReason)
      modifies this
      ensures var e := RunSpec(config, promptFile, maxIterations, old(State()), present, started, observations);
              State() == e.state && reason == e.reason
    {
      StartOpencodeWebAtPort(started);
      var ok := CheckPrerequisites(present);
      if !ok {
        log := log + [PrerequisitesFailed];
        StopOpencodeServer();
        return PrerequisitesMissing;
      }
      reason := RunLoop(observations);
      StopOpencodeServer();
    }

    /**
      One iteration as the loop runs it: the server process may have exited by itself meanwhile,
      and a shutdown signal that arrived while the iteration ran is handled at its end.
     */
    method Iterate(o: Observation) returns (success: bool)
      modifies this
      ensures success == TickOf(config, promptFile, o).verdict.success
      ensures State() == Step(old(State()), TickOf(config, promptFile, o))
    {
      ghost var before := State();
      if o.serverExited && server.Some? {
        server := Some(server.value.(exited := true));
      }
      assert State() == if o.serverExited then ServerExits(before) else before;
      success := RunSingleIteration(o);
      if o.interrupted {
        SignalHandler();
      }
    }

    /**
      The `while self.running:` loop of `run()`, from the current state with no failures behind it,
      one observation per iteration.
     */
    method RunLoop(observations: seq<Observation>) returns (reason: StopReason)
      modifies this
      ensures reason == Loop(maxIterations, old(State()), 0, Ticks(config, promptFile, observations)).reason
      ensures State() == Loop(maxIterations, old(State()), 0, Ticks(config, promptFile, observations)).state
    {
      ghost var ticks := Ticks(config, promptFile, observations);
      ghost var target := Loop(maxIterations, State(), 0, ticks);
      var streak: nat := 0;
      var k := 0;
      reason := Interrupted;
      while running
        invariant 0 <= k <= |observations|
        invariant Loop(maxIterations, State(), streak, ticks[k..]) == target
        invariant reason == Interrupted
        decreases |observations| - k
      {
        if maxIterations > 0 && iteration >= maxIterations {
          log := log + [MaxIterationsReached(maxIterations)];
          reason := CapReached;
          break;
        }
        if k == |observations| {
          reason := TicksExhausted;
          break;
        }
        var o := observations[k];
        LoopUnfold(maxIterations, State(), streak, ticks[k..]);
        assert ticks[k..][0] == TickOf(config, promptFile, o) && ticks[k..][1..] == ticks[k + 1..];
        var success := Iterate(o);
        k := k + 1;
        if success {
          streak := 0;
        } else {
          streak := streak + 1;
          if streak >= MaxConsecutiveFailures {
            log := log + [FailureWarning(streak)];
          }
        }
      }
      assert LoopEnd(State(), streak, reason) == target;
    }
  }

  /** Without the prompt file the run ends before any iteration, with the server down. */
  lemma RunWithoutPrompt(cfg: AgentConfig, promptPath: string, max: int, s: LoopState, present: set<Path>,
                         started: bool, obs: seq<Observation>)
    requires InBase(promptPath) !in present
    ensures var r := RunSpec(cfg, promptPath, max, s, present, started, obs);
      && r.reason == PrerequisitesMissing
      && r.state.iteration == s.iteration && r.state.launches == s.launches
      && ServerDown(r.state)
  {
    SessionWithoutPrerequisites(max, s, true, cfg.port, started,
                                Prerequisites(present, promptPath), Ticks(cfg, promptPath, obs));
  }

  /** However a run ends, no server process is left running. */
  lemma RunLeavesNoServer(cfg: AgentConfig, promptPath: string, max: int, s: LoopState, present: set<Path>,
                          started: bool, obs: seq<Observation>)
    ensures ServerDown(RunSpec(cfg, promptPath, max, s, present, started, obs).state)
  {
    SessionServer(max, s, true, cfg.port, started, Prerequisites(present, promptPath), Ticks(cfg, promptPath, obs));
  }

  /** No agent output ends a run of this controller: it never stops because the work is done. */
  lemma RunNeverReportsDone(cfg: AgentConfig, promptPath: string, max: int, s: LoopState, present: set<Path>,
                            started: bool, obs: seq<Observation>)
    ensures RunSpec(cfg, promptPath, max, s, present, started, obs).reason != AgentDone
  {
    var report := Prerequisites(present, promptPath);
    if report.ok {
      var s1 := ReportMissing(StartServer(s, cfg.port, started), report);
      LoopWithoutMarker(max, s1, 0, Ticks(cfg, promptPath, obs));
    }
  }

  /**
    With the prompt in place and no signal, a run with a positive cap makes exactly that many
    iterations, whatever the agent prints and whether the iterations succeed or fail.
   */
  lemma RunReachesCap(cfg: AgentConfig, promptPath: string, max: int, s: LoopState, present: set<Path>,
                      started: bool, obs: seq<Observation>)
    requires InBase(promptPath) in present
    requires max > 0 && s.running && s.iteration <= max && |obs| >= max - s.iteration
    requires forall i :: 0 <= i < |obs| ==> !obs[i].interrupted
    ensures var r := RunSpec(cfg, promptPath, max, s, present, started, obs);
      r.reason == CapReached && r.state.iteration == max
  {
    var s1 := ReportMissing(StartServer(s, cfg.port, started), Prerequisites(present, promptPath));
    LoopRunsToCap(max, s1, 0, Ticks(cfg, promptPath, obs));
  }

  /**
    Without a cap and without a signal, the loop takes every observation it is given, even those
    whose agent printed the completion marker.
   */
  lemma RunIgnoresMarker(cfg: AgentConfig, promptPath: string, max: int, s: LoopState, present: set<Path>,
                         started: bool, obs: seq<Observation>)
    requires InBase(promptPath) in present
    requires max <= 0 && s.running
    requires forall i :: 0 <= i < |obs| ==> !obs[i].interrupted
    ensures var r := RunSpec(cfg, promptPath, max, s, present, started, obs);
      r.reason == TicksExhausted && r.state.iteration == s.iteration + |obs|
  {
    var s1 := ReportMissing(StartServer(s, cfg.port, started), Prerequisites(present, promptPath));
    LoopNeverGivesUp(max, s1, 0, Ticks(cfg, promptPath, obs));
  }

  /**
    Every agent process a run launches is told to read the prompt file exactly when the command
    is an `opencode run` command; every other agent gets the prompt text on stdin and its command
    unchanged.
   */
  lemma RunLaunchesMatchAgent(cfg: AgentConfig, promptPath: string, max: int, s: LoopState, present: set<Path>,
                              started: bool, obs: seq<Observation>)
    ensures var r := RunSpec(cfg, promptPath, max, s, present, started, obs);
      forall i :: |s.launches| <= i < |r.state.launches| ==>
        && (r.state.launches[i].stdin.None? <==> UsesOpencodeRun(cfg.command))
        && (r.state.launches[i].stdin.Some? ==> r.state.launches[i].command == cfg.command)
  {
    TicksLaunchMatch(cfg, promptPath, obs);
    SessionLaunches(max, s, true, cfg.port, started, Prerequisites(present, promptPath),
                    Ticks(cfg, promptPath, obs), l => LaunchMatches(cfg, l));
  }

  /** How each launch treats the prompt, given the configured command. */
  predicate LaunchMatches(cfg: AgentConfig, l: Launch) {
    (l.stdin.None? <==> UsesOpencodeRun(cfg.command)) && (l.stdin.Some? ==> l.command == cfg.command)
  }

  lemma TicksLaunchMatch(cfg: AgentConfig, promptPath: string, obs: seq<Observation>)
    ensures var ticks := Ticks(cfg, promptPath, obs);
      forall i :: 0 <= i < |ticks| && ticks[i].launch.Some? ==> LaunchMatches(cfg, ticks[i].launch.value)
  {
    var ticks := Ticks(cfg, promptPath, obs);
    forall i | 0 <= i < |ticks| && ticks[i].launch.Some?
      ensures LaunchMatches(cfg, ticks[i].launch.value)
    {
      assert ticks[i].launch.value == OpencodeOrStdinLaunch(cfg, promptPath, obs[i].prompt.value);
    }
  }
}
