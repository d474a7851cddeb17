/**
  Building the shell command for one agent invocation.

  The agent is recognised from the configured command text: a command whose stripped text starts
  with `opencode run` is the primary backend; the richer builder also recognises copilot, claude
  and amp by substrings. Recognised agents get the prompt file named in a trailing instruction;
  any other command is left as it is and is fed the prompt text on standard input instead.
 */
module Commands {
  import opened Options
  import opened PyStr

  /** The configuration the builders read: the agent command, the model and the server port. */
  datatype AgentConfig = AgentConfig(command: string, model: Option<string>, port: int)

  /** Python truthiness of the `model` attribute: neither `None` nor the empty string. */
  predicate ModelSet(model: Option<string>) {
    model.Some? && model.value != ""
  }

  function ModelFlag(model: Option<string>): string {
    if ModelSet(model) then " --model " + model.value else ""
  }

  /** Python truthiness of the port: any port but 0 is attached to. */
  function AttachFlag(port: int): string {
    if port != 0 then " --attach http://localhost:" + IntToString(port) else ""
  }

  /** The trailing instruction of `oh_my_ralph/ralph_loop.py`, which quotes the path in backticks. */
  function FileInstruction(promptPath: string): string {
    " \"Read and follow the instructions in the file `" + promptPath + "`.\""
  }

  /** The trailing instruction of `oh_my_ralph/ralph.py` and `ralph.py`. */
  function PlainInstruction(promptPath: string): string {
    " \"Read and follow the instructions in the " + promptPath + ".\""
  }

  predicate UsesOpencodeRun(command: string) {
    StartsWith(Strip(command), "opencode run")
  }

  /** The wider test that decides whether the auxiliary web server is started. */
  predicate UsesOpencode(command: string) {
    StartsWith(Strip(command), "opencode")
  }

  predicate UsesCopilot(command: string) {
    Contains(command, "copilot")
  }

  predicate UsesClaude(command: string) {
    Contains(command, "claude")
  }

  /** Note the precedence: `"@sourcegraph/amp" in cmd or ("amp" in cmd and "--yes" in cmd)`. */
  predicate UsesAmp(command: string) {
    Contains(command, "@sourcegraph/amp") || (Contains(command, "amp") && Contains(command, "--yes"))
  }

  /** The runner's test for agents that take the prompt file as an argument rather than on stdin. */
  predicate TakesPromptArgument(command: string) {
    UsesOpencodeRun(command) || UsesCopilot(command) || UsesClaude(command) || UsesAmp(command)
  }

  /** The opencode invocation before its trailing instruction. */
  function OpencodeInvocation(cfg: AgentConfig): string {
    cfg.command + ModelFlag(cfg.model) + AttachFlag(cfg.port)
  }

  /**
    The opencode invocation keeps the configured command as its prefix, carries the model flag
    when a model is set, ends with the attach flag when the port is not 0, and is the command
    itself when neither applies.
   */
  lemma OpencodeInvocationShape(cfg: AgentConfig)
    ensures StartsWith(OpencodeInvocation(cfg), cfg.command)
    ensures ModelSet(cfg.model) ==> Contains(OpencodeInvocation(cfg), " --model " + cfg.model.value)
    ensures cfg.port != 0 ==>
              EndsWith(OpencodeInvocation(cfg), " --attach http://localhost:" + IntToString(cfg.port))
    ensures !ModelSet(cfg.model) && cfg.port == 0 ==> OpencodeInvocation(cfg) == cfg.command
  {
    var r := OpencodeInvocation(cfg);
    assert r[..|cfg.command|] == cfg.command;
    ContainsInfix(cfg.command, ModelFlag(cfg.model), AttachFlag(cfg.port));
  }

  /**
    The copilot invocation: the first word of the command, the model flag, `--yolo`, then the
    remaining words of the command joined by single spaces.
   */
  function CopilotInvocation(command: string, model: Option<string>): string
    requires UsesCopilot(command)
  {
    assert !AllSpace("copilot") by { assert !IsSpace("copilot"[0]); }
    ContainsWordSplits(command, "copilot");
    var words := Split(command);
    words[0] + ModelFlag(model) + " --yolo " + Join(words[1..], " ")
  }

  /**
    A copilot command has a first word, and what follows the first word, the model flag and
    `--yolo` splits back to exactly the remaining words of the command.
   */
  lemma CopilotInvocationShape(command: string, model: Option<string>)
    requires UsesCopilot(command)
    ensures Split(command) != []
    ensures var head := Split(command)[0] + ModelFlag(model) + " --yolo ";
            StartsWith(CopilotInvocation(command, model), head)
            && Split(CopilotInvocation(command, model)[|head|..]) == Split(command)[1..]
  {
    assert !AllSpace("copilot") by { assert !IsSpace("copilot"[0]); }
    ContainsWordSplits(command, "copilot");
    var words := Split(command);
    var head := words[0] + ModelFlag(model) + " --yolo ";
    var r := CopilotInvocation(command, model);
    SplitSpec(command);
    assert r == head + Join(words[1..], " ");
    assert r[..|head|] == head && r[|head|..] == Join(words[1..], " ");
    SplitJoin(words[1..]);
  }

  /**
    `_build_agent_command` of `oh_my_ralph/ralph_loop.py`. Exactly the commands the runner feeds
    on stdin come back unchanged; every other command ends with the instruction naming the
    prompt file.
   */
  function BuildAgentCommand(cfg: AgentConfig, promptPath: string): (r: string)
    ensures !TakesPromptArgument(cfg.command) ==> r == cfg.command
    ensures TakesPromptArgument(cfg.command) ==> EndsWith(r, FileInstruction(promptPath))
  {
    var cmd := cfg.command;
    var instruction := FileInstruction(promptPath);
    if UsesOpencodeRun(cmd) then
      OpencodeInvocation(cfg) + instruction
    else if UsesCopilot(cmd) || UsesClaude(cmd) || UsesAmp(cmd) then
      var body :=
        if UsesCopilot(cmd) then CopilotInvocation(cmd, cfg.model)
        else cmd + ModelFlag(cfg.model)
             + (if UsesClaude(cmd) then " --dangerously-skip-permissions" else " --dangerously-allow-all");
      assert (body + instruction)[|body|..] == instruction;
      body + instruction
    else
      cmd
  }

  /**
    `_build_agent_command` of `oh_my_ralph/ralph.py`, which is also the inline command building in
    `ralph.py`'s `_run_agent`: only opencode is recognised.
   */
  function BuildOpencodeCommand(cfg: AgentConfig, promptPath: string): (r: string)
    ensures !UsesOpencodeRun(cfg.command) ==> r == cfg.command
    ensures UsesOpencodeRun(cfg.command) ==>
              StartsWith(r, cfg.command) && EndsWith(r, PlainInstruction(promptPath))
  {
    if UsesOpencodeRun(cfg.command) then
      var head := OpencodeInvocation(cfg);
      var r := head + PlainInstruction(promptPath);
      OpencodeInvocationShape(cfg);
      assert r[..|head|][..|cfg.command|] == cfg.command;
      assert r[|head|..] == PlainInstruction(promptPath);
      r
    else
      cfg.command
  }

  /**
    The primary backend takes precedence: an `opencode run` command gets the model and attach
    flags and the instruction, and none of the copilot, claude or amp treatment, whatever
    substrings it contains.
   */
  lemma OpencodeTakesPrecedence(cfg: AgentConfig, promptPath: string)
    requires UsesOpencodeRun(cfg.command)
    ensures BuildAgentCommand(cfg, promptPath)
         == cfg.command + ModelFlag(cfg.model) + AttachFlag(cfg.port) + FileInstruction(promptPath)
  {
  }

  /**
    After opencode, copilot comes first: a copilot command gets the copilot invocation and the
    instruction, and none of the claude or amp flags, even when it also mentions claude or amp.
   */
  lemma CopilotWinsOverClaudeAndAmp(cfg: AgentConfig, promptPath: string)
    requires !UsesOpencodeRun(cfg.command) && UsesCopilot(cfg.command)
    ensures BuildAgentCommand(cfg, promptPath)
         == CopilotInvocation(cfg.command, cfg.model) + FileInstruction(promptPath)
  {
  }

  /** The claude flag wins over the amp flag when a command matches both, and copilot is not involved. */
  lemma ClaudeWinsOverAmp(cfg: AgentConfig, promptPath: string)
    requires !UsesOpencodeRun(cfg.command) && !UsesCopilot(cfg.command)
    requires UsesClaude(cfg.command)
    ensures BuildAgentCommand(cfg, promptPath)
         == cfg.command + ModelFlag(cfg.model) + " --dangerously-skip-permissions" + FileInstruction(promptPath)
  {
  }

  /** An amp command gets `--dangerously-allow-all` after the optional model flag. */
  lemma AmpAllowsAll(cfg: AgentConfig, promptPath: string)
    requires !UsesOpencodeRun(cfg.command) && !UsesCopilot(cfg.command) && !UsesClaude(cfg.command)
    requires UsesAmp(cfg.command)
    ensures BuildAgentCommand(cfg, promptPath)
         == cfg.command + ModelFlag(cfg.model) + " --dangerously-allow-all" + FileInstruction(promptPath)
  {
  }

  /**
    The two builders agree except where the richer one recognises more agents: on opencode they
    add the same flags and differ only in the wording of the instruction, and on a command neither
    recognises both leave it as it is.
   */
  lemma BuildersAgree(cfg: AgentConfig, promptPath: string)
    ensures UsesOpencodeRun(cfg.command) ==>
      && BuildAgentCommand(cfg, promptPath) == OpencodeInvocation(cfg) + FileInstruction(promptPath)
      && BuildOpencodeCommand(cfg, promptPath) == OpencodeInvocation(cfg) + PlainInstruction(promptPath)
    ensures !TakesPromptArgument(cfg.command) ==>
      BuildAgentCommand(cfg, promptPath) == BuildOpencodeCommand(cfg, promptPath) == cfg.command
  {
  }

  lemma Port8089()
    ensures IntToString(8089) == "8089"
  {
    assert NatToString(8) == "8";
    assert NatToString(80) == "80";
    assert NatToString(808) == "808";
  }

  /**
    The opencode scenario: with model `qwen` and port 8089 the command is exactly the opencode
    command followed by `--model qwen`, `--attach http://localhost:8089` and the instruction.
   */
  lemma OpencodeScenario(cfg: AgentConfig, promptPath: string)
    requires cfg == AgentConfig("opencode run", Some("qwen"), 8089)
    ensures BuildAgentCommand(cfg, promptPath)
         == "opencode run" + " --model qwen" + " --attach http://localhost:8089" + FileInstruction(promptPath)
  {
    StripUnpadded(cfg.command);
    OpencodeTakesPrecedence(cfg, promptPath);
    AttachTo8089(cfg.port);
    assert ModelFlag(cfg.model) == " --model qwen";
  }

  lemma AttachTo8089(port: int)
    requires port == 8089
    ensures AttachFlag(port) == " --attach http://localhost:8089"
  {
    Port8089();
  }

  /**
    The amp test is a plain substring test: a command that merely contains the letters `amp`
    (here inside `example`) and a `--yes` flag is treated as amp and gets `--dangerously-allow-all`.
   */
  lemma AmpMatchesAnySubstring(cfg: AgentConfig, promptPath: string)
    requires cfg == AgentConfig("npx --yes example", None, 0)
    ensures && UsesAmp(cfg.command) && !UsesClaude(cfg.command) && !UsesCopilot(cfg.command)
            && BuildAgentCommand(cfg, promptPath)
               == cfg.command + " --dangerously-allow-all" + FileInstruction(promptPath)
  {
    ExampleLooksLikeAmp(cfg.command);
    NotOpencodeExample(cfg.command);
    AmpAllowsAll(cfg, promptPath);
    assert cfg.command + ModelFlag(cfg.model) == cfg.command;
  }

  lemma ExampleLooksLikeAmp(command: string)
    requires command == "npx --yes example"
    ensures UsesAmp(command) && !UsesClaude(command) && !UsesCopilot(command)
  {
    ExampleIsAmp(command);
    NotContainsFirstChar(command, "claude");
    ExampleNotCopilot(command);
  }

  lemma ExampleIsAmp(command: string)
    requires command == "npx --yes example"
    ensures UsesAmp(command)
  {
    assert command == "npx --yes ex" + "amp" + "le";
    ContainsInfix("npx --yes ex", "amp", "le");
    assert command == "npx " + "--yes" + " example";
    ContainsInfix("npx ", "--yes", " example");
  }

  lemma ExampleNotCopilot(command: string)
    requires command == "npx --yes example"
    ensures !UsesCopilot(command)
  {
    NotContainsFirstChar(command, "copilot");
  }

  lemma NotOpencodeExample(command: string)
    requires command == "npx --yes example"
    ensures !UsesOpencodeRun(command)
  {
    StripUnpadded(command);
  }
}
