/**
  Where the packaged controllers find `.ralphy/prompt.md` when a working directory is given.

  The constructor renders the control-file paths from the working directory exactly as given;
  `run()` provisions those paths, then changes into the working directory, and the prerequisite
  check reads the same paths again. A relative path is resolved against the current directory
  each time it is used, so a relative working directory makes the check look one level too deep.
  `PromptPathAsWritten` is the rendering of the source; `PromptPathResolved` renders from the
  absolute base directory, which is the behaviour the rest of the model takes for granted: its
  `.ralphy/` paths name one place, wherever the process stands.
 */
module WorkingDir {
  import opened Options
  import opened PyStr
  import Provisioning

  predicate Absolute(p: string) {
    p != [] && p[0] == '/'
  }

  /** The file a path names when the process stands in `cwd`: an absolute path names itself. */
  function Locate(cwd: string, p: string): (r: string)
    requires Absolute(cwd)
    ensures Absolute(r)
    ensures Absolute(p) ==> r == p
  {
    if Absolute(p) then p
    else
      var r := Provisioning.JoinPath(cwd, p);
      assert r[..|cwd|][0] == r[0];
      r
  }

  /** The current directory after `run()`'s `os.chdir(working_dir)`, which happens only for a non-empty working directory. */
  function CwdAfterChdir(workingDir: Option<string>, cwd: string): (r: string)
    requires Absolute(cwd)
    ensures Absolute(r)
    ensures workingDir.None? || workingDir.value == [] ==> r == cwd
  {
    if workingDir.Some? && workingDir.value != [] then Locate(cwd, workingDir.value) else cwd
  }

  /** The prompt file provisioning writes: the prompt path seen from the directory `run()` starts in. */
  function ProvisionedAt(prompt: string, cwd: string): string
    requires Absolute(cwd)
  {
    Locate(cwd, prompt)
  }

  /** The prompt file the prerequisite check tests: the same path, seen after the change of directory. */
  function CheckedAt(prompt: string, workingDir: Option<string>, cwd: string): string
    requires Absolute(cwd)
  {
    Locate(CwdAfterChdir(workingDir, cwd), prompt)
  }

  /** The check finds the prompt when the file it tests is among the files present. */
  predicate PromptFound(present: set<string>, prompt: string, workingDir: Option<string>, cwd: string)
    requires Absolute(cwd)
  {
    CheckedAt(prompt, workingDir, cwd) in present
  }

  /** The prompt path as the constructor renders it: from the working directory exactly as given. */
  function PromptPathAsWritten(workingDir: Option<string>, cwd: string): string {
    Provisioning.RalphyPromptPath(Provisioning.BaseDir(workingDir, cwd))
  }

  /** The prompt path rendered from the absolute base directory (`os.path.abspath(base_dir)`). */
  function PromptPathResolved(workingDir: Option<string>, cwd: string): (p: string)
    requires Absolute(cwd)
    ensures Absolute(p)
  {
    var base := Locate(cwd, Provisioning.BaseDir(workingDir, cwd));
    var p := Provisioning.RalphyPromptPath(base);
    assert p[..|base|][0] == p[0];
    p
  }

  /** `JoinPath` adds at most one separator. */
  lemma JoinPathLength(dir: string, name: string)
    ensures |dir| + |name| <= |Provisioning.JoinPath(dir, name)| <= |dir| + |name| + 1
  {
  }

  /**
    As written, a relative working directory loses the prompt: the prerequisite check tests a
    different file from the one provisioning wrote, one that lies the working directory's length
    further down.
   */
  lemma RelativeWorkingDirMissesPrompt(workingDir: string, cwd: string)
    requires Absolute(cwd) && workingDir != [] && !Absolute(workingDir)
    ensures var p := PromptPathAsWritten(Some(workingDir), cwd);
      |CheckedAt(p, Some(workingDir), cwd)| > |ProvisionedAt(p, cwd)|
  {
    var p := PromptPathAsWritten(Some(workingDir), cwd);
    var dir := Provisioning.JoinPath(workingDir, ".ralphy");
    assert p == Provisioning.JoinPath(dir, Provisioning.PromptMd);
    assert p[0] == workingDir[0] by {
      assert p[..|dir|][..|workingDir|] == workingDir;
    }
    var after := CwdAfterChdir(Some(workingDir), cwd);
    assert after == Provisioning.JoinPath(cwd, workingDir);
    JoinPathLength(cwd, workingDir);
    JoinPathLength(cwd, p);
    JoinPathLength(after, p);
    assert !Absolute(p);
  }

  /**
    The consequence: on a disk that holds the provisioned prompt, the check does not find it, so
    `run()` ends before its first iteration.
   */
  lemma RelativeWorkingDirFailsCheck(workingDir: string, cwd: string)
    requires Absolute(cwd) && workingDir != [] && !Absolute(workingDir)
    ensures var p := PromptPathAsWritten(Some(workingDir), cwd);
      !PromptFound({ProvisionedAt(p, cwd)}, p, Some(workingDir), cwd)
  {
    RelativeWorkingDirMissesPrompt(workingDir, cwd);
  }

  /**
    The input that shows it: from `/home`, a working directory `proj`. Provisioning writes
    `/home/proj/.ralphy/prompt.md`; the check then tests `/home/proj/proj/.ralphy/prompt.md`.
   */
  lemma ProjExample()
    ensures var p := PromptPathAsWritten(Some("proj"), "/home");
      && p == "proj" + "/" + ".ralphy" + "/" + "prompt.md"
      && ProvisionedAt(p, "/home") == "/home" + "/" + p
      && CheckedAt(p, Some("proj"), "/home") == "/home" + "/" + "proj" + "/" + p
  {
    var d := Provisioning.JoinPath("proj", ".ralphy");
    assert "proj"[3] == 'j';
    assert d == "proj" + "/" + ".ralphy";
    assert d[|d| - 1] == 'y';
    var p := Provisioning.JoinPath(d, Provisioning.PromptMd);
    assert p == PromptPathAsWritten(Some("proj"), "/home");
    assert p[0] == 'p';
    assert "/home"[4] == 'e';
    var after := Provisioning.JoinPath("/home", "proj");
    assert CwdAfterChdir(Some("proj"), "/home") == after;
    assert after[|after| - 1] == 'j';
  }

  /**
    Rendered from the absolute base directory, the prompt path names the same file before and
    after the change of directory, whatever the working directory: the check tests the file
    provisioning wrote.
   */
  lemma ResolvedPromptStaysPut(workingDir: Option<string>, cwd: string)
    requires Absolute(cwd)
    ensures var p := PromptPathResolved(workingDir, cwd);
      CheckedAt(p, workingDir, cwd) == ProvisionedAt(p, cwd) == p
  {
  }

  /** Rendering from the absolute base changes nothing for an absolute working directory or none at all. */
  lemma ResolvedAgreesWhenAbsolute(workingDir: Option<string>, cwd: string)
    requires Absolute(cwd)
    requires workingDir.Some? && workingDir.value != [] ==> Absolute(workingDir.value)
    ensures PromptPathResolved(workingDir, cwd) == PromptPathAsWritten(workingDir, cwd)
  {
  }
}
