/**
  The `.ralphy/` control directory: where the three control files come from, how `run()` fills
  the directory before the loop starts, and the prerequisite check that decides whether the loop
  may start at all.

  The file system is reduced to what these decisions look at: whether `.ralphy/` exists and which
  files exist with which contents. Paths are kept symbolic, so that a bundled resource, a file in
  the base directory (the working directory, or the current one) and a file in `.ralphy/` can
  never be confused with one another.
 */
module Provisioning {
  import opened Options

  /** A file the controller looks at. `InBase` names are relative to the base directory. */
  datatype Path = Bundled(name: string) | InBase(name: string) | InRalphy(name: string)

  /** What the controller sees of the file system before the loop starts. */
  datatype Disk = Disk(ralphyDir: bool, files: map<Path, string>)

  const AgentMd := "agent.md"
  const FixPlanMd := "fix_plan.md"
  const PromptMd := "prompt.md"

  /** The control files, in the order `run()` lists them. */
  const ResourceFiles: seq<string> := [AgentMd, FixPlanMd, PromptMd]

  /**
    Where the default for `name` is taken from: the resource bundled with the package when there
    is one, otherwise the same-named file in the base directory.
   */
  function Resolve(files: map<Path, string>, name: string): (p: Path)
    ensures p == Bundled(name) || p == InBase(name)
    ensures p.Bundled? <==> Bundled(name) in files
  {
    if Bundled(name) in files then Bundled(name) else InBase(name)
  }

  function ResolvedSources(files: map<Path, string>): seq<Path> {
    [Resolve(files, AgentMd), Resolve(files, FixPlanMd), Resolve(files, PromptMd)]
  }

  /** The loop of `run()` that collects a source path for every control file. */
  method ResolveSources(files: map<Path, string>, names: seq<string>) returns (paths: seq<Path>)
    ensures |paths| == |names|
    ensures forall i :: 0 <= i < |names| ==> paths[i] == Resolve(files, names[i])
  {
    paths := [];
    for i := 0 to |names|
      invariant |paths| == i
      invariant forall j :: 0 <= j < i ==> paths[j] == Resolve(files, names[j])
    {
      if Bundled(names[i]) in files {
        paths := paths + [Bundled(names[i])];
      } else {
        paths := paths + [InBase(names[i])];
      }
    }
  }

  /** One `shutil.copy2(src, .ralphy/name)`, done only when the source exists. */
  function CopyOne(files: map<Path, string>, name: string, src: Path): map<Path, string> {
    if src in files then files[InRalphy(name) := files[src]] else files
  }

  /** The files after a copy pass, and the names skipped because their source did not exist. */
  datatype CopyReport = CopyReport(files: map<Path, string>, skipped: seq<string>)

  /** The effect of copying the pairs of `zip(names, sources)` into `.ralphy/`, in order. */
  function CopyAll(files: map<Path, string>, names: seq<string>, sources: seq<Path>): CopyReport
    decreases |names|
  {
    if names == [] || sources == [] then CopyReport(files, [])
    else
      var rest := CopyAll(CopyOne(files, names[0], sources[0]), names[1..], sources[1..]);
      CopyReport(rest.files, (if sources[0] in files then [] else [names[0]]) + rest.skipped)
  }

  /**
    A copy pass adds files and never removes one, and it touches nothing but the `.ralphy/` files
    it was asked to write.
   */
  lemma {:induction false} CopyAllFrame(files: map<Path, string>, names: seq<string>, sources: seq<Path>)
    ensures files.Keys <= CopyAll(files, names, sources).files.Keys
    ensures forall p :: p in CopyAll(files, names, sources).files && (!p.InRalphy? || p.name !in names)
                        ==> p in files && CopyAll(files, names, sources).files[p] == files[p]
    decreases |names|
  {
    if names != [] && sources != [] {
      CopyAllFrame(CopyOne(files, names[0], sources[0]), names[1..], sources[1..]);
    }
  }

  /** `copy_resource_files`: copies each existing source to `.ralphy/<name>` and reports the others. */
  method CopyResourceFiles(files: map<Path, string>, names: seq<string>, sources: seq<Path>)
    returns (report: CopyReport)
    ensures report == CopyAll(files, names, sources)
  {
    var current := files;
    var skipped: seq<string> := [];
    var n := if |names| < |sources| then |names| else |sources|;
    for i := 0 to n
      invariant Joined(skipped, CopyAll(current, names[i..], sources[i..])) == CopyAll(files, names, sources)
    {
      CopyAllJoined(skipped, current, names, sources, i);
      if sources[i] in current {
        current := current[InRalphy(names[i]) := current[sources[i]]];
      } else {
        skipped := skipped + [names[i]];
      }
    }
    assert names[n..] == [] || sources[n..] == [];
    report := CopyReport(current, skipped);
  }

  /** Pair `i` of a copy pass, with the names skipped before it carried along. */
  lemma CopyAllJoined(skipped: seq<string>, files: map<Path, string>, names: seq<string>, sources: seq<Path>, i: nat)
    requires i < |names| && i < |sources|
    ensures Joined(skipped, CopyAll(files, names[i..], sources[i..]))
         == if sources[i] in files
            then Joined(skipped, CopyAll(files[InRalphy(names[i]) := files[sources[i]]], names[i + 1..], sources[i + 1..]))
            else Joined(skipped + [names[i]], CopyAll(files, names[i + 1..], sources[i + 1..]))
  {
    assert names[i..][1..] == names[i + 1..] && sources[i..][1..] == sources[i + 1..];
    var rest := CopyAll(CopyOne(files, names[i], sources[i]), names[i + 1..], sources[i + 1..]);
    var first := if sources[i] in files then [] else [names[i]];
    assert CopyAll(files, names[i..], sources[i..]) == CopyReport(rest.files, first + rest.skipped);
    assert skipped + (first + rest.skipped) == (skipped + first) + rest.skipped;
  }

  /** A copy report with `skipped` reported before the report's own skipped names. */
  function Joined(skipped: seq<string>, r: CopyReport): CopyReport {
    CopyReport(r.files, skipped + r.skipped)
  }

  /** The advisory files (all but the prompt) that `.ralphy/` lacks, in `ResourceFiles` order. */
  function MissingAdvisory(files: map<Path, string>): (missing: seq<string>)
    ensures forall n :: n in missing <==> (n == AgentMd || n == FixPlanMd) && InRalphy(n) !in files
  {
    (if InRalphy(AgentMd) !in files then [AgentMd] else [])
    + (if InRalphy(FixPlanMd) !in files then [FixPlanMd] else [])
  }

  /** The base-directory fallback for each name (`os.path.join(base_dir, fname)`). */
  function BaseSources(names: seq<string>): (sources: seq<Path>)
    ensures |sources| == |names|
    ensures forall i :: 0 <= i < |names| ==> sources[i] == InBase(names[i])
  {
    seq(|names|, i requires 0 <= i < |names| => InBase(names[i]))
  }

  /**
    The provisioning step of `run()`. Without `.ralphy/`, the directory is created and all three
    defaults are copied. With it, only the missing advisory files are copied, from the base
    directory, and the prompt is copied again from its default.
   */
  function Provisioned(disk: Disk): Disk {
    var sources := ResolvedSources(disk.files);
    if !disk.ralphyDir then
      Disk(true, CopyAll(disk.files, ResourceFiles, sources).files)
    else
      Disk(true, CopyAll(AdvisoryCopied(disk.files), [PromptMd], [sources[2]]).files)
  }

  /** The files once the advisory files missing from `.ralphy/` are copied from the base directory. */
  function AdvisoryCopied(files: map<Path, string>): map<Path, string> {
    var missing := MissingAdvisory(files);
    if |missing| > 0 then CopyAll(files, missing, BaseSources(missing)).files else files
  }

  /** The provisioning step of `run()`, step by step. */
  method Provision(disk: Disk) returns (d: Disk)
    ensures d == Provisioned(disk)
  {
    var sources := ResolveSources(disk.files, ResourceFiles);
    assert sources == ResolvedSources(disk.files);
    var files := disk.files;
    if !disk.ralphyDir {
      var report := CopyResourceFiles(files, ResourceFiles, sources);
      files := report.files;
    } else {
      var missing := MissingAdvisory(files);
      if |missing| > 0 {
        var report := CopyResourceFiles(files, missing, BaseSources(missing));
        files := report.files;
      }
      assert files == AdvisoryCopied(disk.files);
      var report := CopyResourceFiles(files, [PromptMd], [sources[2]]);
      files := report.files;
    }
    d := Disk(true, files);
  }

  /** `os.path.join(dir, name)` for a relative `name`. */
  function JoinPath(dir: string, name: string): (p: string)
    ensures |p| >= |name| && p[|p| - |name|..] == name
    ensures |p| >= |dir| && p[..|dir|] == dir
  {
    if dir == [] || dir[|dir| - 1] == '/' then dir + name else dir + "/" + name
  }

  /** `working_dir if working_dir else os.getcwd()`. */
  function BaseDir(workingDir: Option<string>, cwd: string): string {
    if workingDir.Some? && workingDir.value != [] then workingDir.value else cwd
  }

  /** The path of `.ralphy/prompt.md` under the base directory, as the packaged variants render it. */
  function RalphyPromptPath(base: string): (p: string)
    ensures |p| >= |base| && p[..|base|] == base
  {
    var dir := JoinPath(base, ".ralphy");
    assert JoinPath(dir, PromptMd)[..|dir|][..|base|] == base;
    JoinPath(dir, PromptMd)
  }

  lemma CopySingle(files: map<Path, string>, name: string, src: Path)
    ensures CopyAll(files, [name], [src]).files == CopyOne(files, name, src)
  {
  }

  lemma CopyPair(files: map<Path, string>, a: string, b: string, sa: Path, sb: Path)
    ensures CopyAll(files, [a, b], [sa, sb]).files == CopyOne(CopyOne(files, a, sa), b, sb)
  {
    assert [a, b][1..] == [b] && [sa, sb][1..] == [sb];
    CopySingle(CopyOne(files, a, sa), b, sb);
  }

  lemma CopyTriple(files: map<Path, string>, a: string, b: string, c: string, sa: Path, sb: Path, sc: Path)
    ensures CopyAll(files, [a, b, c], [sa, sb, sc]).files == CopyOne(CopyOne(CopyOne(files, a, sa), b, sb), c, sc)
  {
    assert [a, b, c][1..] == [b, c] && [sa, sb, sc][1..] == [sb, sc];
    CopyPair(CopyOne(files, a, sa), b, c, sb, sc);
  }

  /** A first run: every control file whose default exists is copied from that default. */
  lemma {:induction false} ProvisionFreshDirectory(disk: Disk)
    requires !disk.ralphyDir
    ensures var d := Provisioned(disk);
      && d.ralphyDir
      && (forall n :: n in ResourceFiles && Resolve(disk.files, n) in disk.files ==>
            InRalphy(n) in d.files && d.files[InRalphy(n)] == disk.files[Resolve(disk.files, n)])
      && (forall p :: p in d.files <==>
            (p in disk.files || (p.InRalphy? && p.name in ResourceFiles && Resolve(disk.files, p.name) in disk.files)))
  {
    var f := disk.files;
    var s := ResolvedSources(f);
    CopyTriple(f, AgentMd, FixPlanMd, PromptMd, s[0], s[1], s[2]);
  }

  /**
    A later run: an advisory file already in `.ralphy/` is kept as it is, a missing one is copied
    from the base directory (never from the bundled default), and the prompt is refreshed from
    its default whenever that default exists.
   */
  lemma ProvisionExistingDirectory(disk: Disk)
    requires disk.ralphyDir
    ensures var d := Provisioned(disk);
      && d.ralphyDir
      && (forall n :: n == AgentMd || n == FixPlanMd ==>
            && (InRalphy(n) in d.files <==> InRalphy(n) in disk.files || InBase(n) in disk.files)
            && (InRalphy(n) in disk.files ==> d.files[InRalphy(n)] == disk.files[InRalphy(n)])
            && (InRalphy(n) !in disk.files && InBase(n) in disk.files ==>
                  d.files[InRalphy(n)] == disk.files[InBase(n)]))
      && (InRalphy(PromptMd) in d.files <==>
            InRalphy(PromptMd) in disk.files || Resolve(disk.files, PromptMd) in disk.files)
      && (Resolve(disk.files, PromptMd) in disk.files ==>
            d.files[InRalphy(PromptMd)] == disk.files[Resolve(disk.files, PromptMd)])
      && (forall p: Path :: !p.InRalphy? ==> (p in d.files <==> p in disk.files))
  {
    var f := disk.files;
    var kept := AdvisoryCopied(f);
    AdvisoryCopiedSpec(f);
    CopySingle(kept, PromptMd, Resolve(f, PromptMd));
  }

  /**
    Copying the missing advisory files fills in exactly those of them whose base-directory file
    exists, and leaves every other file, the prompt in `.ralphy/` included, as it was.
   */
  lemma {:induction false} AdvisoryCopiedSpec(f: map<Path, string>)
    ensures var k := AdvisoryCopied(f);
      && (forall n :: n == AgentMd || n == FixPlanMd ==>
            && (InRalphy(n) in k <==> InRalphy(n) in f || InBase(n) in f)
            && (InRalphy(n) in f ==> k[InRalphy(n)] == f[InRalphy(n)])
            && (InRalphy(n) !in f && InBase(n) in f ==> k[InRalphy(n)] == f[InBase(n)]))
      && (forall p: Path :: !p.InRalphy? || p == InRalphy(PromptMd) ==> (p in k <==> p in f) && (p in k ==> k[p] == f[p]))
  {
    var missing := MissingAdvisory(f);
    if InRalphy(AgentMd) !in f && InRalphy(FixPlanMd) !in f {
      assert missing == [AgentMd, FixPlanMd];
      assert BaseSources(missing) == [InBase(AgentMd), InBase(FixPlanMd)];
      CopyPair(f, AgentMd, FixPlanMd, InBase(AgentMd), InBase(FixPlanMd));
    } else if InRalphy(AgentMd) !in f {
      assert missing == [AgentMd];
      assert BaseSources(missing) == [InBase(AgentMd)];
      CopySingle(f, AgentMd, InBase(AgentMd));
    } else if InRalphy(FixPlanMd) !in f {
      assert missing == [FixPlanMd];
      assert BaseSources(missing) == [InBase(FixPlanMd)];
      CopySingle(f, FixPlanMd, InBase(FixPlanMd));
    } else {
      assert missing == [];
    }
  }

  /** The outcome of `_check_prerequisites` and the files it reports missing. */
  datatype PrereqReport = PrereqReport(ok: bool, missing: seq<Path>)

  /** The paths of `required` that do not exist, in order. */
  function MissingPaths(required: seq<Path>, present: set<Path>): (missing: seq<Path>)
    ensures forall p :: p in missing <==> p in required && p !in present
  {
    if required == [] then []
    else (if required[0] in present then [] else [required[0]]) + MissingPaths(required[1..], present)
  }

  /**
    `_check_prerequisites`: the prompt and the advisory files are checked together; a missing
    advisory file is only reported, and the check fails exactly when the prompt is missing.
   */
  function CheckPrerequisites(present: set<Path>, prompt: Path, advisory: seq<Path>): (r: PrereqReport)
    ensures r.ok <==> prompt in present
    ensures forall p :: p in r.missing <==> (p == prompt || p in advisory) && p !in present
  {
    var missing := MissingPaths([prompt] + advisory, present);
    if |missing| > 0 && prompt in missing then PrereqReport(false, missing)
    else PrereqReport(true, missing)
  }
}
