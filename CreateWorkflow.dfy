/**
 * The `create <project-name>` command of bin/cli.js as a state machine over
 * the abstract file system: name check, conflict with an existing target,
 * template choice, registry and directory checks, copy, and the rewrite of
 * `package.json`. Prompt answers and option flags are inputs; the run yields
 * an outcome, the final tree and the sequence of steps it took.
 */
module CreateWorkflow {
  import opened Wrappers
  import opened Json
  import opened FileSystem
  import opened Registry
  import opened ProjectName

  /** `--template <name>`, `--force`, `--git`, `--install`. */
  datatype Options = Options(template: Option<string>, force: bool, git: bool, install: bool)

  /** What the user would pick at each prompt, used only if that prompt is shown. */
  datatype Answers = Answers(overwrite: bool, template: string)

  /** The working directory and the directory `bin/../templates` of the installed tool. */
  datatype Env = Env(cwd: Path, templatesRoot: Path)

  datatype Failure =
    | InvalidName
    | UnknownTemplate(key: string)
    | MissingTemplateDir(dir: Path)
    | CopyFailed
    | PackageJsonFailed

  /** `Cancelled` returns normally (exit status 0); `Exit1` is `process.exit(1)`. */
  datatype Outcome = Cancelled | Exit1(failure: Failure) | Done

  /** What the command did, in order: prompts shown, file-system changes, processes started. */
  datatype Step =
    | PromptOverwrite
    | Delete(path: Path)
    | PromptTemplate
    | MakeDir(path: Path)
    | CopyTree(src: Path, dst: Path)
    | WritePackageJson(path: Path)
    | Spawn(command: string, args: seq<string>, dir: Path)

  datatype Run = Run(outcome: Outcome, tree: Tree, steps: seq<Step>)

  const PackageJson: string := "package.json"

  function ExitStatus(o: Outcome): (code: int)
    ensures code == 0 || code == 1
    ensures code == 1 <==> o.Exit1?
  {
    if o.Exit1? then 1 else 0
  }

  /** `path.join(process.cwd(), projectName)` for a valid name. */
  function Target(env: Env, name: string): Path
  {
    env.cwd + [name]
  }

  /** A truthy `--template` value skips the template prompt. */
  predicate TemplateGiven(opts: Options)
  {
    opts.template.Some? && opts.template.value != ""
  }

  function ChosenKey(opts: Options, ans: Answers): string
  {
    if TemplateGiven(opts) then opts.template.value else ans.template
  }

  /** `path.join(__dirname, '../templates', template)`. */
  function TemplateDir(env: Env, key: string): Path
  {
    env.templatesRoot + [key]
  }

  /**
   * `packageJson.name = projectName` on the parsed value, in non-strict code:
   * an object gets the property, `null` throws a TypeError (None), and any other
   * value ignores the assignment or drops it when serialised.
   */
  function RenamedPackage(v: Json, name: string): Option<Json>
  {
    match v
    case JNull => None
    case JObj(ms) => Some(JObj(SetMember(ms, "name", JStr(name))))
    case _ => Some(v)
  }

  /** The best-effort processes started after a successful copy. */
  function SpawnSteps(t: Tree, env: Env, target: Path, opts: Options): seq<Step>
  {
    var command := if Exists(t, env.cwd + ["yarn.lock"]) then "yarn" else "npm";
    (if opts.git then [Spawn("git", ["init"], target)] else [])
    + (if opts.install then [Spawn(command, ["install"], target)] else [])
  }

  /** From the template check on, once the conflict is resolved and a key is chosen. */
  function Materialize(t: Tree, steps: seq<Step>, env: Env, name: string, opts: Options, key: string): (r: Run)
    ensures steps <= r.steps
    ensures SameOutside(t, r.tree, Target(env, name))
    ensures r.outcome == Exit1(UnknownTemplate(key)) <==> !IsKey(key)
    ensures r.outcome == Exit1(MissingTemplateDir(TemplateDir(env, key))) <==> IsKey(key) && !Exists(t, TemplateDir(env, key))
    ensures r.outcome != Cancelled && r.outcome != Exit1(InvalidName)
    ensures r.outcome.Exit1? && !r.outcome.failure.CopyFailed? && !r.outcome.failure.PackageJsonFailed? ==> r.tree == t && r.steps == steps
  {
    var target := Target(env, name);
    var src := TemplateDir(env, key);
    if Lookup(key).None? then Run(Exit1(UnknownTemplate(key)), t, steps)
    else if !Exists(t, src) then Run(Exit1(MissingTemplateDir(src)), t, steps)
    else CopyStage(WithDir(t, target), steps + [MakeDir(target)], env, name, opts, src)
  }

  /** `fs.copy(templateDir, targetPath)` into the directory just ensured. */
  function CopyStage(t: Tree, steps: seq<Step>, env: Env, name: string, opts: Options, src: Path): (r: Run)
    ensures steps <= r.steps
    ensures SameOutside(t, r.tree, Target(env, name))
    ensures r.outcome == Exit1(CopyFailed) <==> CopyFails(t, src, Target(env, name))
    ensures r.outcome == Done || r.outcome == Exit1(CopyFailed) || r.outcome == Exit1(PackageJsonFailed)
    ensures r.outcome == Exit1(CopyFailed) ==> r.tree == t && r.steps == steps
  {
    var target := Target(env, name);
    if CopyFails(t, src, target) then Run(Exit1(CopyFailed), t, steps)
    else PackageStage(Copied(t, src, target), steps + [CopyTree(src, target)], env, name, opts)
  }

  /** The rewrite of the copied `package.json`, then the processes. */
  function PackageStage(t: Tree, steps: seq<Step>, env: Env, name: string, opts: Options): (r: Run)
    ensures steps <= r.steps
    ensures SameOutside(t, r.tree, Target(env, name))
    ensures r.outcome == Done || r.outcome == Exit1(PackageJsonFailed)
    ensures var pkg := Target(env, name) + [PackageJson];
            var read := ReadJson(t, pkg);
            r.outcome == Done <==> !Exists(t, pkg) || (read.Some? && !read.value.JNull?)
    ensures r.outcome.Exit1? ==> r.tree == t && r.steps == steps
  {
    var target := Target(env, name);
    var pkg := target + [PackageJson];
    if !Exists(t, pkg) then Run(Done, t, steps + SpawnSteps(t, env, target, opts))
    else
      var read := ReadJson(t, pkg);
      if read.None? then Run(Exit1(PackageJsonFailed), t, steps)
      else
        var renamed := RenamedPackage(read.value, name);
        if renamed.None? then Run(Exit1(PackageJsonFailed), t, steps)
        else
          var t4 := t[pkg := File(JsonText(renamed.value))];
          Run(Done, t4, steps + [WritePackageJson(pkg)] + SpawnSteps(t4, env, target, opts))
  }

  /** The whole `create` action: what it returns, leaves on disk, and does, in order. */
  function CreateRun(t: Tree, env: Env, name: string, opts: Options, ans: Answers): (r: Run)
    ensures r.outcome == Exit1(InvalidName) <==> !IsValidName(name)
    ensures r.outcome == Cancelled <==>
              IsValidName(name) && Exists(t, Target(env, name)) && !opts.force && !ans.overwrite
    ensures r.outcome.Exit1? && r.outcome.failure.InvalidName? ==> r.tree == t && r.steps == []
    ensures r.outcome.Cancelled? ==> r.tree == t && r.steps == [PromptOverwrite]
    ensures SameOutside(t, r.tree, Target(env, name))
  {
    if !IsValidName(name) then Run(Exit1(InvalidName), t, [])
    else
      var target := Target(env, name);
      var conflict := Exists(t, target);
      if conflict && !opts.force && !ans.overwrite then Run(Cancelled, t, [PromptOverwrite])
      else
        Materialize(ClearedTree(t, target), ClearSteps(t, target, opts), env, name, opts, ChosenKey(opts, ans))
  }

  /** The tree once an existing target has been removed. */
  function ClearedTree(t: Tree, target: Path): (r: Tree)
    ensures !Exists(r, target)
    ensures SameOutside(t, r, target)
  {
    if Exists(t, target) then Removed(t, target) else t
  }

  /** The prompts and deletions before the template is known. */
  function ClearSteps(t: Tree, target: Path, opts: Options): (s: seq<Step>)
    ensures Delete(target) in s <==> Exists(t, target)
    ensures PromptOverwrite in s <==> Exists(t, target) && !opts.force
    ensures PromptTemplate in s <==> !TemplateGiven(opts)
  {
    (if !Exists(t, target) then [] else if opts.force then [Delete(target)] else [PromptOverwrite, Delete(target)])
    + (if TemplateGiven(opts) then [] else [PromptTemplate])
  }

  /** The action itself, changing the file system one operation at a time. */
  method Create(fs: FileSystem, env: Env, name: string, opts: Options, ans: Answers)
    returns (outcome: Outcome, steps: seq<Step>)
    modifies fs
    ensures Run(outcome, fs.tree, steps) == CreateRun(old(fs.tree), env, name, opts, ans)
  {
    steps := [];
    if !IsValidName(name) {
      outcome := Exit1(InvalidName);
      return;
    }
    var target := env.cwd + [name];
    ghost var t0 := fs.tree;
    if fs.PathExists(target) {
      if !opts.force {
        steps := steps + [PromptOverwrite];
        if !ans.overwrite {
          outcome := Cancelled;
          return;
        }
      }
      fs.Remove(target);
      steps := steps + [Delete(target)];
    }

    var template := opts.template;
    if !(template.Some? && template.value != "") {
      steps := steps + [PromptTemplate];
      template := Some(ans.template);
    }
    var key := template.value;
    assert key == ChosenKey(opts, ans);
    assert fs.tree == ClearedTree(t0, target);
    assert steps == ClearSteps(t0, target, opts);
    outcome, steps := CopyTemplate(fs, steps, env, name, opts, key);
  }

  /** The second half of the action: template checks, directory and copy. */
  method CopyTemplate(fs: FileSystem, steps0: seq<Step>, env: Env, name: string, opts: Options, key: string)
    returns (outcome: Outcome, steps: seq<Step>)
    modifies fs
    ensures Run(outcome, fs.tree, steps) == Materialize(old(fs.tree), steps0, env, name, opts, key)
  {
    steps := steps0;
    var target := env.cwd + [name];
    if Lookup(key).None? {
      outcome := Exit1(UnknownTemplate(key));
      return;
    }
    var templateDir := env.templatesRoot + [key];
    if !fs.PathExists(templateDir) {
      outcome := Exit1(MissingTemplateDir(templateDir));
      return;
    }
    fs.EnsureDir(target);
    steps := steps + [MakeDir(target)];
    ghost var t2 := fs.tree;
    var copied := fs.Copy(templateDir, target);
    if !copied {
      outcome := Exit1(CopyFailed);
      return;
    }
    steps := steps + [CopyTree(templateDir, target)];
    assert CopyStage(t2, steps0 + [MakeDir(target)], env, name, opts, templateDir)
        == PackageStage(fs.tree, steps, env, name, opts);
    outcome, steps := FinishProject(fs, steps, env, name, opts);
  }

  /** The `package.json` rewrite and the optional processes. */
  method FinishProject(fs: FileSystem, steps0: seq<Step>, env: Env, name: string, opts: Options)
    returns (outcome: Outcome, steps: seq<Step>)
    modifies fs
    ensures Run(outcome, fs.tree, steps) == PackageStage(old(fs.tree), steps0, env, name, opts)
  {
    steps := steps0;
    var target := env.cwd + [name];
    var packageJsonPath := target + [PackageJson];
    if fs.PathExists(packageJsonPath) {
      var packageJson := ReadJson(fs.tree, packageJsonPath);
      if packageJson.None? {
        outcome := Exit1(PackageJsonFailed);
        return;
      }
      var renamed := RenamedPackage(packageJson.value, name);
      if renamed.None? {
        outcome := Exit1(PackageJsonFailed);
        return;
      }
      fs.WriteJson(packageJsonPath, renamed.value);
      steps := steps + [WritePackageJson(packageJsonPath)];
    }

    if opts.git {
      steps := steps + [Spawn("git", ["init"], target)];
    }
    if opts.install {
      var hasYarn := fs.PathExists(env.cwd + ["yarn.lock"]);
      var command := if hasYarn then "yarn" else "npm";
      steps := steps + [Spawn(command, ["install"], target)];
    }
    outcome := Done;
  }
}
