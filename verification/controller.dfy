/**
  The loop state machine shared by the three controllers.

  `Loop` is the specification of the `while self.running:` loop of `run()`: each pass checks the
  iteration cap, runs one iteration, stops on the completion marker, and otherwise keeps a count
  of consecutive failures that only ever produces a warning. The outcome of each iteration, and
  whether a shutdown signal arrived while it ran, are given as a sequence of ticks; the source's
  loop has no bound of its own, so the model also ends when the ticks run out.
 */
module Controller {
  import opened Options
  import opened PyStr
  import opened Runner
  import Provisioning

  /** Consecutive failures from which on every further failure is warned about. */
  const MaxConsecutiveFailures: nat := 5

  /** The handle of the auxiliary `opencode web` process, and whether it has exited by itself. */
  datatype Server = Server(port: int, exited: bool)

  /** The log lines the properties below talk about. */
  datatype Event =
    | ServerStarting(port: int)
    | ServerStartFailed
    | ServerStopping
    | MissingFiles(paths: seq<Provisioning.Path>)
    | PrerequisitesFailed
    | IterationStarted(iteration: nat)
    | CompletionMarker
    | FailureWarning(failures: nat)
    | MaxIterationsReached(max: int)

  /**
    The controller's mutable state: the iteration counter, the `running` flag, the server handle,
    the log, and the agent processes launched so far.
   */
  datatype LoopState = LoopState(
    iteration: nat,
    running: bool,
    server: Option<Server>,
    log: seq<Event>,
    launches: seq<Launch>)

  /** No server process is left running: there is no handle, or its process has exited. */
  predicate ServerDown(s: LoopState) {
    s.server.None? || s.server.value.exited
  }

  /**
    `_stop_opencode_server`: a live server is terminated and its handle dropped; a missing or
    already exited one is left as it is (the handle of an exited process is kept).
   */
  function StopServer(s: LoopState): (r: LoopState)
    ensures ServerDown(r)
    ensures ServerDown(s) ==> r == s
    ensures !ServerDown(s) ==> r == s.(server := None, log := s.log + [ServerStopping])
  {
    if s.server.Some? && !s.server.value.exited then
      s.(server := None, log := s.log + [ServerStopping])
    else
      s
  }

  /** Stopping the server twice is stopping it once. */
  lemma StopServerIdempotent(s: LoopState)
    ensures StopServer(StopServer(s)) == StopServer(s)
  {
  }

  /**
    `start_opencode_web_at_port`: logs the start and records the new handle, or logs the failure
    and records no handle when the process could not be started.
   */
  function StartServer(s: LoopState, port: int, started: bool): (r: LoopState)
    ensures r.server.Some? <==> started
    ensures started ==> r.server == Some(Server(port, false)) && !ServerDown(r)
    ensures r.log == s.log + [ServerStarting(port)] + (if started then [] else [ServerStartFailed])
    ensures r.iteration == s.iteration && r.running == s.running && r.launches == s.launches
  {
    if started then
      s.(server := Some(Server(port, false)), log := s.log + [ServerStarting(port)])
    else
      s.(server := None, log := s.log + [ServerStarting(port)] + [ServerStartFailed])
  }

  /** `_signal_handler`: clears `running` and stops the server. */
  function Interrupt(s: LoopState): (r: LoopState)
    ensures !r.running && ServerDown(r)
    ensures r.iteration == s.iteration && r.launches == s.launches
  {
    StopServer(s.(running := false))
  }

  /** The server process exits by itself (its `poll()` is no longer `None`). */
  function ServerExits(s: LoopState): LoopState {
    if s.server.Some? then s.(server := Some(s.server.value.(exited := true))) else s
  }

  /**
    What happened during one iteration: the iteration's verdict, the agent process it launched
    (none when the prompt could not be read), whether the server process exited by itself
    meanwhile, and whether a shutdown signal arrived.
   */
  datatype Tick = Tick(verdict: Verdict, launch: Option<Launch>, serverExited: bool, interrupted: bool)

  /**
    The bookkeeping of `run_single_iteration`: the counter goes up by one and is logged, the
    completion marker is logged when seen, and the launched process is recorded.
   */
  function Record(s: LoopState, t: Tick): (r: LoopState)
    ensures r.iteration == s.iteration + 1 && r.running == s.running && r.server == s.server
    ensures r.log == s.log + [IterationStarted(s.iteration + 1)] + (if t.verdict.shouldStop then [CompletionMarker] else [])
    ensures r.launches == s.launches + (if t.launch.Some? then [t.launch.value] else [])
  {
    var counted := s.(iteration := s.iteration + 1, log := s.log + [IterationStarted(s.iteration + 1)]);
    var launched := if t.launch.Some? then counted.(launches := s.launches + [t.launch.value]) else counted;
    if t.verdict.shouldStop then launched.(log := launched.log + [CompletionMarker]) else launched
  }

  /** Without the marker, recording an iteration counts it, logs its start and adds its launch, if any. */
  lemma RecordUnmarked(s: LoopState, t: Tick)
    requires !t.verdict.shouldStop
    ensures Record(s, t) == s.(iteration := s.iteration + 1, log := s.log + [IterationStarted(s.iteration + 1)],
                               launches := if t.launch.Some? then s.launches + [t.launch.value] else s.launches)
  {
  }

  /** One iteration as the loop sees it, including a signal delivered while it ran. */
  function Step(s: LoopState, t: Tick): (r: LoopState)
    ensures r.iteration == s.iteration + 1
    ensures t.interrupted ==> !r.running && ServerDown(r)
    ensures !t.interrupted ==> r.running == s.running
  {
    var s1 := Record(if t.serverExited then ServerExits(s) else s, t);
    if t.interrupted then Interrupt(s1) else s1
  }

  /** The consecutive-failure count after an iteration. */
  function NextStreak(streak: nat, success: bool): nat {
    if success then 0 else streak + 1
  }

  /** The warning logged once the count of consecutive failures reaches the threshold. */
  function Warn(s: LoopState, streak: nat): (r: LoopState)
    ensures r.iteration == s.iteration && r.running == s.running && r.server == s.server
    ensures r.launches == s.launches
    ensures r.log == s.log + (if streak >= MaxConsecutiveFailures then [FailureWarning(streak)] else [])
  {
    if streak >= MaxConsecutiveFailures then s.(log := s.log + [FailureWarning(streak)]) else s
  }

  /** Why the loop ended. */
  datatype StopReason = Interrupted | CapReached | AgentDone | TicksExhausted | PrerequisitesMissing

  datatype LoopEnd = LoopEnd(state: LoopState, streak: nat, reason: StopReason)

  /** The cap check of the loop: a positive `max_iterations` that the counter has reached. */
  predicate CapHit(max: int, iteration: nat) {
    max > 0 && iteration >= max
  }

  /** The `while self.running:` loop of `run()`, from state `s` with `streak` failures behind it. */
  function Loop(max: int, s: LoopState, streak: nat, ticks: seq<Tick>): LoopEnd
    decreases |ticks|
  {
    if !s.running then LoopEnd(s, streak, Interrupted)
    else if CapHit(max, s.iteration) then
      LoopEnd(s.(log := s.log + [MaxIterationsReached(max)]), streak, CapReached)
    else if ticks == [] then LoopEnd(s, streak, TicksExhausted)
    else
      var t := ticks[0];
      var s1 := Step(s, t);
      if t.verdict.shouldStop then LoopEnd(s1, streak, AgentDone)
      else
        var k := NextStreak(streak, t.verdict.success);
        Loop(max, Warn(s1, k), k, ticks[1..])
  }

  /** One pass of the loop that does not end it at the top: the iteration runs, then the marker or the next pass. */
  lemma LoopUnfold(max: int, s: LoopState, streak: nat, ticks: seq<Tick>)
    requires s.running && !CapHit(max, s.iteration) && ticks != []
    ensures Loop(max, s, streak, ticks)
         == if ticks[0].verdict.shouldStop then LoopEnd(Step(s, ticks[0]), streak, AgentDone)
            else Loop(max, Warn(Step(s, ticks[0]), NextStreak(streak, ticks[0].verdict.success)),
                      NextStreak(streak, ticks[0].verdict.success), ticks[1..])
  {
  }

  /** Neither stops the loop: no signal arrives and the agent does not report completion. */
  predicate Quiet(t: Tick) {
    !t.interrupted && !t.verdict.shouldStop
  }

  /**
    The counter moves by one per iteration, never past a positive cap it started within, and the
    log and the launches only grow; the loop ends on the cap only once it is hit, on a signal only
    when `running` is off, and by running out of ticks only after using all of them.
   */
  lemma {:induction false} LoopProgress(max: int, s: LoopState, streak: nat, ticks: seq<Tick>)
    ensures var r := Loop(max, s, streak, ticks);
      && s.iteration <= r.state.iteration <= s.iteration + |ticks|
      && (max > 0 && s.iteration <= max ==> r.state.iteration <= max)
      && s.log <= r.state.log
      && s.launches <= r.state.launches
      && |r.state.launches| - |s.launches| <= r.state.iteration - s.iteration
      && (r.reason == Interrupted ==> !r.state.running)
      && (r.reason == CapReached ==> CapHit(max, r.state.iteration))
      && (r.reason == TicksExhausted ==> r.state.iteration == s.iteration + |ticks|)
      && r.reason != PrerequisitesMissing
      && (s.server.None? ==> r.state.server.None?)
    decreases |ticks|
  {
    if s.running && !CapHit(max, s.iteration) && ticks != [] && !ticks[0].verdict.shouldStop {
      var s1 := Step(s, ticks[0]);
      var k := NextStreak(streak, ticks[0].verdict.success);
      LoopProgress(max, Warn(s1, k), k, ticks[1..]);
    }
  }

  /**
    With no signal and no completion marker the loop runs exactly up to a positive cap, however
    many of those iterations fail, and then logs that the cap was reached.
   */
  lemma {:induction false} LoopRunsToCap(max: int, s: LoopState, streak: nat, ticks: seq<Tick>)
    requires max > 0 && s.running && s.iteration <= max
    requires |ticks| >= max - s.iteration
    requires forall i :: 0 <= i < |ticks| ==> Quiet(ticks[i])
    ensures var r := Loop(max, s, streak, ticks);
      && r.reason == CapReached
      && r.state.iteration == max
      && r.state.log != [] && r.state.log[|r.state.log| - 1] == MaxIterationsReached(max)
    decreases |ticks|
  {
    if s.iteration < max {
      var s1 := Step(s, ticks[0]);
      var k := NextStreak(streak, ticks[0].verdict.success);
      LoopRunsToCap(max, Warn(s1, k), k, ticks[1..]);
    }
  }

  /**
    Without a cap, failures never end the loop: with no signal and no completion marker every
    tick is used, one iteration each.
   */
  lemma {:induction false} LoopNeverGivesUp(max: int, s: LoopState, streak: nat, ticks: seq<Tick>)
    requires max <= 0 && s.running
    requires forall i :: 0 <= i < |ticks| ==> Quiet(ticks[i])
    ensures var r := Loop(max, s, streak, ticks);
      r.reason == TicksExhausted && r.state.running && r.state.iteration == s.iteration + |ticks|
    decreases |ticks|
  {
    if ticks != [] {
      var s1 := Step(s, ticks[0]);
      var k := NextStreak(streak, ticks[0].verdict.success);
      LoopNeverGivesUp(max, Warn(s1, k), k, ticks[1..]);
    }
  }

  /**
    The completion marker ends the loop in the iteration that saw it, provided no signal came
    first and the cap was not reached before; the marker is in the log.
   */
  lemma {:induction false} LoopStopsAtMarker(max: int, s: LoopState, streak: nat, ticks: seq<Tick>, j: nat)
    requires s.running && j < |ticks| && ticks[j].verdict.shouldStop
    requires forall i :: 0 <= i < j ==> Quiet(ticks[i])
    requires !CapHit(max, s.iteration + j)
    ensures var r := Loop(max, s, streak, ticks);
      && r.reason == AgentDone
      && r.state.iteration == s.iteration + j + 1
      && CompletionMarker in r.state.log
    decreases j
  {
    if j == 0 {
      assert !CapHit(max, s.iteration);
      var s0 := if ticks[0].serverExited then ServerExits(s) else s;
      var s1 := Record(s0, ticks[0]);
      assert s1.log[|s1.log| - 1] == CompletionMarker;
      if ticks[0].interrupted {
        assert Interrupt(s1).log[|s1.log| - 1] == CompletionMarker;
      }
    } else {
      assert !CapHit(max, s.iteration) && Quiet(ticks[0]);
      var s1 := Step(s, ticks[0]);
      var k := NextStreak(streak, ticks[0].verdict.success);
      assert ticks[1..][j - 1] == ticks[j];
      LoopStopsAtMarker(max, Warn(s1, k), k, ticks[1..], j - 1);
    }
  }

  /**
    A shutdown signal ends the loop after the iteration it interrupted, with `running` off and
    the server stopped, provided that iteration did not report completion first.
   */
  lemma {:induction false} LoopStopsOnSignal(max: int, s: LoopState, streak: nat, ticks: seq<Tick>, j: nat)
    requires s.running && j < |ticks| && ticks[j].interrupted && !ticks[j].verdict.shouldStop
    requires forall i :: 0 <= i < j ==> Quiet(ticks[i])
    requires !CapHit(max, s.iteration + j)
    ensures var r := Loop(max, s, streak, ticks);
      && r.reason == Interrupted
      && r.state.iteration == s.iteration + j + 1
      && !r.state.running
      && ServerDown(r.state)
    decreases j
  {
    assert !CapHit(max, s.iteration);
    var s1 := Step(s, ticks[0]);
    var k := NextStreak(streak, ticks[0].verdict.success);
    if j > 0 {
      assert ticks[1..][j - 1] == ticks[j];
      LoopStopsOnSignal(max, Warn(s1, k), k, ticks[1..], j - 1);
    }
  }

  /**
    Failures are only ever warned about: every warning the loop logs carries a count of at least
    the threshold.
   */
  lemma {:induction false} WarningsAtThreshold(max: int, s: LoopState, streak: nat, ticks: seq<Tick>)
    ensures var r := Loop(max, s, streak, ticks);
      forall i :: |s.log| <= i < |r.state.log| && r.state.log[i].FailureWarning? ==>
        r.state.log[i].failures >= MaxConsecutiveFailures
    decreases |ticks|
  {
    if s.running && !CapHit(max, s.iteration) && ticks != [] && !ticks[0].verdict.shouldStop {
      var s1 := Step(s, ticks[0]);
      var k := NextStreak(streak, ticks[0].verdict.success);
      LoopProgress(max, Warn(s1, k), k, ticks[1..]);
      WarningsAtThreshold(max, Warn(s1, k), k, ticks[1..]);
    }
  }

  /**
    Enough consecutive failures are warned about: once the count reaches the threshold the
    warning with that count is in the log, and the loop carries on.
   */
  lemma {:induction false} SustainedFailuresWarn(max: int, s: LoopState, streak: nat, ticks: seq<Tick>, n: nat)
    requires s.running && 0 < n <= |ticks| && streak + n >= MaxConsecutiveFailures
    requires forall i :: 0 <= i < n ==> Quiet(ticks[i]) && !ticks[i].verdict.success
    requires !CapHit(max, s.iteration + n - 1)
    ensures var r := Loop(max, s, streak, ticks);
      FailureWarning(streak + n) in r.state.log && r.state.iteration >= s.iteration + n
    decreases n
  {
    assert !CapHit(max, s.iteration) && Quiet(ticks[0]) && !ticks[0].verdict.success;
    FailedStep(max, s, streak, ticks);
    var s2 := Warn(Step(s, ticks[0]), streak + 1);
    if n == 1 {
      LastWarningKept(max, s2, streak + 1, ticks[1..]);
    } else {
      FailuresTail(ticks, n);
      SustainedFailuresWarn(max, s2, streak + 1, ticks[1..], n - 1);
    }
  }

  /** A quiet failed iteration: the loop goes on with one more failure counted, warned about from the threshold on. */
  lemma FailedStep(max: int, s: LoopState, streak: nat, ticks: seq<Tick>)
    requires s.running && !CapHit(max, s.iteration) && ticks != []
    requires Quiet(ticks[0]) && !ticks[0].verdict.success
    ensures var s2 := Warn(Step(s, ticks[0]), streak + 1);
      && Loop(max, s, streak, ticks) == Loop(max, s2, streak + 1, ticks[1..])
      && s2.running && s2.iteration == s.iteration + 1
      && (streak + 1 >= MaxConsecutiveFailures ==>
            s2.log != [] && s2.log[|s2.log| - 1] == FailureWarning(streak + 1))
  {
    LoopUnfold(max, s, streak, ticks);
  }

  /** A warning at the end of the log survives the rest of the loop, which never lowers the counter. */
  lemma LastWarningKept(max: int, s: LoopState, streak: nat, ticks: seq<Tick>)
    requires s.log != [] && s.log[|s.log| - 1] == FailureWarning(streak)
    ensures var r := Loop(max, s, streak, ticks);
      FailureWarning(streak) in r.state.log && r.state.iteration >= s.iteration
  {
    var r := Loop(max, s, streak, ticks);
    LoopProgress(max, s, streak, ticks);
    LogKeeps(s.log, r.state.log, |s.log| - 1);
  }

  /** What is in a prefix of the log stays in the log. */
  lemma LogKeeps(a: seq<Event>, b: seq<Event>, i: nat)
    requires a <= b && i < |a|
    ensures a[i] in b
  {
    assert b[i] == a[i];
  }

  /** Quiet failures from the second tick on, as the rest of the loop sees them. */
  lemma FailuresTail(ticks: seq<Tick>, n: nat)
    requires 1 < n <= |ticks|
    requires forall i :: 0 <= i < n ==> Quiet(ticks[i]) && !ticks[i].verdict.success
    ensures forall i :: 0 <= i < n - 1 ==> Quiet(ticks[1..][i]) && !ticks[1..][i].verdict.success
  {
    forall i | 0 <= i < n - 1
      ensures Quiet(ticks[1..][i]) && !ticks[1..][i].verdict.success
    {
      assert ticks[1..][i] == ticks[i + 1];
    }
  }

  /**
    A loop over `a + b` is the loop over `a`, continued over `b` from where it stopped when it
    stopped only because `a` ran out: what is proved of a loop over a prefix of the iterations
    holds of those iterations in any longer run.
   */
  lemma {:induction false} LoopSplit(max: int, s: LoopState, streak: nat, a: seq<Tick>, b: seq<Tick>)
    ensures var r := Loop(max, s, streak, a);
      Loop(max, s, streak, a + b) == if r.reason == TicksExhausted then Loop(max, r.state, r.streak, b) else r
    decreases |a|
  {
    if a == [] {
      assert a + b == b;
    } else if s.running && !CapHit(max, s.iteration) {
      assert (a + b)[0] == a[0] && (a + b)[1..] == a[1..] + b;
      if !a[0].verdict.shouldStop {
        var k := NextStreak(streak, a[0].verdict.success);
        LoopSplit(max, Warn(Step(s, a[0]), k), k, a[1..], b);
      }
    }
  }

  /** The number of failed iterations at the end of `ticks`, counted back from the last one. */
  function TrailingFailures(ticks: seq<Tick>): (n: nat)
    ensures n <= |ticks|
    decreases |ticks|
  {
    if ticks == [] || ticks[|ticks| - 1].verdict.success then 0
    else 1 + TrailingFailures(ticks[..|ticks| - 1])
  }

  /** Counted from the front: the first tick adds to the trailing failures only when all the others failed. */
  lemma {:induction false} TrailingFailuresCons(ticks: seq<Tick>)
    requires ticks != []
    ensures var rest := ticks[1..];
      TrailingFailures(ticks)
        == if TrailingFailures(rest) < |rest| then TrailingFailures(rest)
           else if ticks[0].verdict.success then |rest| else |ticks|
    decreases |ticks|
  {
    var rest := ticks[1..];
    if |ticks| > 1 {
      assert rest[|rest| - 1] == ticks[|ticks| - 1];
      if !ticks[|ticks| - 1].verdict.success {
        var init := ticks[..|ticks| - 1];
        TrailingFailuresCons(init);
        assert init[1..] == rest[..|rest| - 1];
        assert init[0] == ticks[0];
      }
    }
  }

  /**
    The failure count the loop carries is the number of consecutive failures up to its last
    iteration: a success resets it to 0, and only when every iteration failed does the count it
    started with still show.
   */
  lemma {:induction false} LoopStreak(max: int, s: LoopState, streak: nat, ticks: seq<Tick>)
    requires s.running
    requires forall i :: 0 <= i < |ticks| ==> Quiet(ticks[i])
    requires ticks != [] ==> !CapHit(max, s.iteration + |ticks| - 1)
    ensures Loop(max, s, streak, ticks).streak
         == if TrailingFailures(ticks) == |ticks| then streak + |ticks| else TrailingFailures(ticks)
    decreases |ticks|
  {
    if ticks != [] {
      assert !CapHit(max, s.iteration) && Quiet(ticks[0]);
      var k := NextStreak(streak, ticks[0].verdict.success);
      LoopUnfold(max, s, streak, ticks);
      QuietTail(ticks);
      LoopStreak(max, Warn(Step(s, ticks[0]), k), k, ticks[1..]);
      TrailingFailuresCons(ticks);
    }
  }

  lemma QuietTail(ticks: seq<Tick>)
    requires ticks != [] && forall i :: 0 <= i < |ticks| ==> Quiet(ticks[i])
    ensures forall i :: 0 <= i < |ticks[1..]| ==> Quiet(ticks[1..][i])
  {
    forall i | 0 <= i < |ticks[1..]|
      ensures Quiet(ticks[1..][i])
    {
      assert ticks[1..][i] == ticks[i + 1];
    }
  }

  /** None of the entries added after `before` is a failure warning. */
  predicate NoNewWarnings(before: seq<Event>, after: seq<Event>) {
    forall i :: |before| <= i < |after| ==> !after[i].FailureWarning?
  }

  lemma NoNewWarningsTrans(a: seq<Event>, b: seq<Event>, c: seq<Event>)
    requires a <= b <= c && NoNewWarnings(a, b) && NoNewWarnings(b, c)
    ensures NoNewWarnings(a, c)
  {
    forall i | |a| <= i < |c|
      ensures !c[i].FailureWarning?
    {
      if i < |b| {
        assert c[i] == b[i];
      }
    }
  }

  /** An iteration by itself logs no failure warning; only `Warn` does. */
  lemma StepLogsNoWarning(s: LoopState, t: Tick)
    ensures s.log <= Step(s, t).log && NoNewWarnings(s.log, Step(s, t).log)
  {
    var s0 := if t.serverExited then ServerExits(s) else s;
    var s1 := Record(s0, t);
    assert s0.log == s.log;
    if t.interrupted {
      var s2 := s1.(running := false);
      assert Step(s, t).log == StopServer(s2).log;
    }
  }

  /** Fewer failures than the threshold, even counting all the iterations still to come, log no warning. */
  lemma {:induction false} NoWarningsBelowThreshold(max: int, s: LoopState, streak: nat, ticks: seq<Tick>)
    requires streak + |ticks| < MaxConsecutiveFailures
    ensures NoNewWarnings(s.log, Loop(max, s, streak, ticks).state.log)
    decreases |ticks|
  {
    if s.running && !CapHit(max, s.iteration) && ticks != [] {
      StepLogsNoWarning(s, ticks[0]);
      if !ticks[0].verdict.shouldStop {
        var k := NextStreak(streak, ticks[0].verdict.success);
        var s2 := Warn(Step(s, ticks[0]), k);
        LoopUnfold(max, s, streak, ticks);
        LoopProgress(max, s2, k, ticks[1..]);
        NoWarningsBelowThreshold(max, s2, k, ticks[1..]);
        NoNewWarningsTrans(s.log, s2.log, Loop(max, s2, k, ticks[1..]).state.log);
      }
    }
  }

  /**
    A success resets the failure count: a successful iteration followed by fewer failures than
    the threshold logs no failure warning, however many failures came before it.
   */
  lemma SuccessSilencesWarnings(max: int, s: LoopState, streak: nat, ticks: seq<Tick>)
    requires ticks != [] && ticks[0].verdict.success && |ticks| <= MaxConsecutiveFailures
    ensures NoNewWarnings(s.log, Loop(max, s, streak, ticks).state.log)
  {
    if s.running && !CapHit(max, s.iteration) {
      StepLogsNoWarning(s, ticks[0]);
      if !ticks[0].verdict.shouldStop {
        var s2 := Warn(Step(s, ticks[0]), 0);
        LoopUnfold(max, s, streak, ticks);
        LoopProgress(max, s2, 0, ticks[1..]);
        NoWarningsBelowThreshold(max, s2, 0, ticks[1..]);
        NoNewWarningsTrans(s.log, s2.log, Loop(max, s2, 0, ticks[1..]).state.log);
      }
    }
  }

  /** A loop none of whose iterations reports completion never ends with `AgentDone`. */
  lemma {:induction false} LoopWithoutMarker(max: int, s: LoopState, streak: nat, ticks: seq<Tick>)
    requires forall i :: 0 <= i < |ticks| ==> !ticks[i].verdict.shouldStop
    ensures Loop(max, s, streak, ticks).reason != AgentDone
    decreases |ticks|
  {
    if s.running && !CapHit(max, s.iteration) && ticks != [] {
      var s1 := Step(s, ticks[0]);
      var k := NextStreak(streak, ticks[0].verdict.success);
      LoopWithoutMarker(max, Warn(s1, k), k, ticks[1..]);
    }
  }

  /** Every process the loop launches is one of the ticks' launches: a property of all of them holds of the record. */
  lemma {:induction false} LoopLaunches(max: int, s: LoopState, streak: nat, ticks: seq<Tick>, P: Launch -> bool)
    requires forall i :: 0 <= i < |ticks| && ticks[i].launch.Some? ==> P(ticks[i].launch.value)
    ensures var r := Loop(max, s, streak, ticks);
      forall i :: |s.launches| <= i < |r.state.launches| ==> P(r.state.launches[i])
    decreases |ticks|
  {
    if s.running && !CapHit(max, s.iteration) && ticks != [] && !ticks[0].verdict.shouldStop {
      var s1 := Step(s, ticks[0]);
      var k := NextStreak(streak, ticks[0].verdict.success);
      LoopProgress(max, Warn(s1, k), k, ticks[1..]);
      LoopLaunches(max, Warn(s1, k), k, ticks[1..], P);
    }
  }

  /**
    What one iteration observes of the world: the prompt file's text (`None` when it is missing
    or unreadable), the agent's outcome, whether the server process exited by itself, and whether
    a shutdown signal arrived while the iteration ran.
   */
  datatype Observation = Observation(prompt: Option<string>, outcome: Outcome, serverExited: bool, interrupted: bool)

  /** An observation with no signal and no completion marker in the agent's output. */
  predicate Undisturbed(o: Observation) {
    !o.interrupted && !(o.outcome.Completed? && Contains(o.outcome.stdout, Marker))
  }

  /** The warning `_check_prerequisites` logs when any required file is missing. */
  function ReportMissing(s: LoopState, report: Provisioning.PrereqReport): (r: LoopState)
    ensures r == s.(log := s.log + (if |report.missing| > 0 then [MissingFiles(report.missing)] else []))
  {
    if |report.missing| > 0 then s.(log := s.log + [MissingFiles(report.missing)]) else s
  }

  /**
    `run()` from the server start on: the server is started when `manageServer` holds; a failed
    prerequisite check stops the server and ends the run before any iteration; otherwise the loop
    runs, and the server is stopped at the end when `manageServer` holds.
   */
  function Session(max: int, s: LoopState, manageServer: bool, port: int, started: bool,
                   report: Provisioning.PrereqReport, ticks: seq<Tick>): LoopEnd
  {
    var s1 := ReportMissing(if manageServer then StartServer(s, port, started) else s, report);
    if !report.ok then
      LoopEnd(StopServer(s1.(log := s1.log + [PrerequisitesFailed])), 0, PrerequisitesMissing)
    else
      var e := Loop(max, s1, 0, ticks);
      if manageServer then e.(state := StopServer(e.state)) else e
  }

  /**
    A failed prerequisite check ends the run before any iteration: no process is launched, the
    failure is logged and the server is stopped, whether or not it was started.
   */
  lemma SessionWithoutPrerequisites(max: int, s: LoopState, manageServer: bool, port: int, started: bool,
                                    report: Provisioning.PrereqReport, ticks: seq<Tick>)
    requires !report.ok
    ensures var r := Session(max, s, manageServer, port, started, report, ticks);
      && r.reason == PrerequisitesMissing
      && r.state.iteration == s.iteration && r.state.launches == s.launches
      && PrerequisitesFailed in r.state.log
      && ServerDown(r.state)
  {
    var s1 := ReportMissing(if manageServer then StartServer(s, port, started) else s, report);
    var s2 := s1.(log := s1.log + [PrerequisitesFailed]);
    assert s2.log[|s2.log| - 1] == PrerequisitesFailed;
    assert PrerequisitesFailed in StopServer(s2).log by {
      assert StopServer(s2).log[|s2.log| - 1] == PrerequisitesFailed;
    }
  }

  /**
    A session that manages the server leaves no server running, however it ends; one that does
    not manage it never starts one.
   */
  lemma SessionServer(max: int, s: LoopState, manageServer: bool, port: int, started: bool,
                      report: Provisioning.PrereqReport, ticks: seq<Tick>)
    ensures var r := Session(max, s, manageServer, port, started, report, ticks);
      && (manageServer ==> ServerDown(r.state))
      && (!manageServer && s.server.None? ==> r.state.server.None?)
  {
    var s1 := ReportMissing(if manageServer then StartServer(s, port, started) else s, report);
    LoopProgress(max, s1, 0, ticks);
  }

  /** A property that holds of every tick's launch holds of every process the session launches. */
  lemma SessionLaunches(max: int, s: LoopState, manageServer: bool, port: int, started: bool,
                        report: Provisioning.PrereqReport, ticks: seq<Tick>, P: Launch -> bool)
    requires forall i :: 0 <= i < |ticks| && ticks[i].launch.Some? ==> P(ticks[i].launch.value)
    ensures var r := Session(max, s, manageServer, port, started, report, ticks);
      forall i :: |s.launches| <= i < |r.state.launches| ==> P(r.state.launches[i])
  {
    var s1 := ReportMissing(if manageServer then StartServer(s, port, started) else s, report);
    if report.ok {
      LoopLaunches(max, s1, 0, ticks, P);
      SessionRunsLoop(max, s, manageServer, port, started, report, ticks);
    }
  }

  /**
    Once the prerequisites hold, the session is the loop started from the state after the server
    start, with no failures behind it.
   */
  lemma SessionRunsLoop(max: int, s: LoopState, manageServer: bool, port: int, started: bool,
                        report: Provisioning.PrereqReport, ticks: seq<Tick>)
    requires report.ok
    ensures var r := Session(max, s, manageServer, port, started, report, ticks);
      var e := Loop(max, ReportMissing(if manageServer then StartServer(s, port, started) else s, report), 0, ticks);
      r.reason == e.reason && r.state.iteration == e.state.iteration && r.state.launches == e.state.launches
  {
  }
}
