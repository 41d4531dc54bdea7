/**
 * What a run of `create` guarantees about the project it leaves behind: the
 * template's files arrive below the target, nothing else is there, the
 * target is a directory, `package.json` carries the project name, and the
 * processes start only after a complete copy.
 */
module CreateProperties {
  import opened Wrappers
  import opened Json
  import opened FileSystem
  import opened Registry
  import opened ProjectName
  import opened CreateWorkflow

  /** The tree after the template directory is copied into the cleared target. */
  function Staged(t: Tree, env: Env, name: string, key: string): Tree
  {
    var target := Target(env, name);
    Copied(WithDir(ClearedTree(t, target), target), TemplateDir(env, key), target)
  }

  /** Once every check before the copy passes, the run continues with `package.json`. */
  lemma ReachesPackageStage(t: Tree, env: Env, name: string, opts: Options, ans: Answers)
    requires IsValidName(name)
    requires !(Exists(t, Target(env, name)) && !opts.force && !ans.overwrite)
    requires IsKey(ChosenKey(opts, ans))
    requires Exists(ClearedTree(t, Target(env, name)), TemplateDir(env, ChosenKey(opts, ans)))
    requires !CopyFails(WithDir(ClearedTree(t, Target(env, name)), Target(env, name)),
                        TemplateDir(env, ChosenKey(opts, ans)), Target(env, name))
    ensures var target := Target(env, name);
            var src := TemplateDir(env, ChosenKey(opts, ans));
            CreateRun(t, env, name, opts, ans)
            == PackageStage(Staged(t, env, name, ChosenKey(opts, ans)),
                            ClearSteps(t, target, opts) + [MakeDir(target), CopyTree(src, target)],
                            env, name, opts)
  {
    var target := Target(env, name);
    var steps := ClearSteps(t, target, opts);
    var src := TemplateDir(env, ChosenKey(opts, ans));
    assert steps + [MakeDir(target)] + [CopyTree(src, target)]
        == steps + [MakeDir(target), CopyTree(src, target)];
  }

  /** Past the template checks, the run fails to copy exactly when fs-extra refuses. */
  lemma CopyStageReached(t: Tree, env: Env, name: string, opts: Options, ans: Answers)
    requires IsValidName(name)
    requires !(Exists(t, Target(env, name)) && !opts.force && !ans.overwrite)
    requires IsKey(ChosenKey(opts, ans))
    requires Exists(ClearedTree(t, Target(env, name)), TemplateDir(env, ChosenKey(opts, ans)))
    ensures CreateRun(t, env, name, opts, ans).outcome == Exit1(CopyFailed)
            <==> CopyFails(WithDir(ClearedTree(t, Target(env, name)), Target(env, name)),
                           TemplateDir(env, ChosenKey(opts, ans)), Target(env, name))
  {
  }

  /**
   * A completed run passed every check, and its tree is the staged copy,
   * possibly with `package.json` rewritten.
   */
  lemma DoneStages(t: Tree, env: Env, name: string, opts: Options, ans: Answers)
    requires CreateRun(t, env, name, opts, ans).outcome == Done
    ensures var key := ChosenKey(opts, ans);
            var target := Target(env, name);
            var src := TemplateDir(env, key);
            var t1 := ClearedTree(t, target);
            IsValidName(name) && IsKey(key) && Exists(t1, src)
            && !CopyFails(WithDir(t1, target), src, target)
            && CreateRun(t, env, name, opts, ans)
               == PackageStage(Staged(t, env, name, key),
                               ClearSteps(t, target, opts) + [MakeDir(target), CopyTree(src, target)],
                               env, name, opts)
  {
    ReachesPackageStage(t, env, name, opts, ans);
  }

  /** The entries of the final tree outside `package.json` are those of the staged copy. */
  lemma PackageStageKeeps(t: Tree, steps: seq<Step>, env: Env, name: string, opts: Options, p: Path)
    requires PackageStage(t, steps, env, name, opts).outcome == Done
    requires p != Target(env, name) + [PackageJson]
    ensures p in PackageStage(t, steps, env, name, opts).tree <==> p in t
    ensures p in t ==> PackageStage(t, steps, env, name, opts).tree[p] == t[p]
  {
  }

  /**
   * The template directory does not overlap the target in a run that gets
   * past the copy: neither lies below the other.
   */
  lemma TemplateApartFromTarget(t: Tree, target: Path, src: Path, s: Path)
    requires Exists(ClearedTree(t, target), src)
    requires !CopyFails(WithDir(ClearedTree(t, target), target), src, target)
    ensures !IsPrefix(target, src + s)
  {
    var t1 := ClearedTree(t, target);
    var q :| q in t1 && IsPrefix(src, q);
    assert IsPrefix(src, src + s);
    PrefixesCompare(target, src, src + s);
    PrefixesCompare(src, target, src + s);
    PrefixTrans(target, src, q);
  }

  lemma AppendedDiffer(target: Path, s: Path)
    requires s != [PackageJson]
    ensures target + s != target + [PackageJson]
  {
    assert (target + s)[|target|..] == s;
    assert (target + [PackageJson])[|target|..] == [PackageJson];
  }

  /**
   * Every file and directory of the template, except `package.json`, is in
   * the finished project at the same place below the target, unchanged.
   */
  lemma TemplateFileCopied(t: Tree, env: Env, name: string, opts: Options, ans: Answers, s: Path)
    requires CreateRun(t, env, name, opts, ans).outcome == Done
    requires TemplateDir(env, ChosenKey(opts, ans)) + s in t
    requires s != [PackageJson]
    ensures var r := CreateRun(t, env, name, opts, ans);
            Target(env, name) + s in r.tree
            && r.tree[Target(env, name) + s] == t[TemplateDir(env, ChosenKey(opts, ans)) + s]
  {
    var key := ChosenKey(opts, ans);
    var target := Target(env, name);
    var src := TemplateDir(env, key);
    DoneStages(t, env, name, opts, ans);
    TemplateApartFromTarget(t, target, src, s);
    var t2 := WithDir(ClearedTree(t, target), target);
    RelocatedTo(t2, src, target, s);
    AppendedDiffer(target, s);
    PackageStageKeeps(Staged(t, env, name, key),
                      ClearSteps(t, target, opts) + [MakeDir(target), CopyTree(src, target)],
                      env, name, opts, target + s);
  }

  /**
   * Below the target the finished project holds only what the template
   * holds: each entry other than the target itself and `package.json` is the
   * template's entry at the same relative place.
   */
  lemma TargetHoldsOnlyTemplate(t: Tree, env: Env, name: string, opts: Options, ans: Answers, p: Path)
    requires CreateRun(t, env, name, opts, ans).outcome == Done
    requires p in CreateRun(t, env, name, opts, ans).tree
    requires IsPrefix(Target(env, name), p)
    requires p != Target(env, name) && p != Target(env, name) + [PackageJson]
    ensures var src := TemplateDir(env, ChosenKey(opts, ans));
            var rel := p[|Target(env, name)|..];
            src + rel in t && CreateRun(t, env, name, opts, ans).tree[p] == t[src + rel]
  {
    var key := ChosenKey(opts, ans);
    var target := Target(env, name);
    var src := TemplateDir(env, key);
    var t1 := ClearedTree(t, target);
    var t2 := WithDir(t1, target);
    var t3 := Staged(t, env, name, key);
    DoneStages(t, env, name, opts, ans);
    PackageStageKeeps(t3, ClearSteps(t, target, opts) + [MakeDir(target), CopyTree(src, target)],
                      env, name, opts, p);
    assert forall x :: x in t1 ==> !IsPrefix(target, x);
    assert p in Relocated(t2, src, target);
    RelocatedFrom(t2, src, target, p);
    var q := src + p[|target|..];
    assert q != target by {
      assert IsPrefix(src, q);
    }
  }

  /** The target of a finished project is a directory. */
  lemma TargetIsDirectory(t: Tree, env: Env, name: string, opts: Options, ans: Answers)
    requires CreateRun(t, env, name, opts, ans).outcome == Done
    ensures var r := CreateRun(t, env, name, opts, ans);
            Target(env, name) in r.tree && r.tree[Target(env, name)] == Dir
  {
    var key := ChosenKey(opts, ans);
    var target := Target(env, name);
    var src := TemplateDir(env, key);
    var t1 := ClearedTree(t, target);
    var t2 := WithDir(t1, target);
    DoneStages(t, env, name, opts, ans);
    assert IsPrefix(target, target);
    assert target !in t1;
    assert t2[target] == Dir;
    assert target[|target|..] == [] && src + [] == src;
    if target in Relocated(t2, src, target) {
      RelocatedFrom(t2, src, target, target);
    }
    AppendedDiffer(target, []);
    PackageStageKeeps(Staged(t, env, name, key),
                      ClearSteps(t, target, opts) + [MakeDir(target), CopyTree(src, target)],
                      env, name, opts, target);
  }

  /** An object `package.json` in the staged copy is rewritten with the project name. */
  lemma PackageStageRenames(t: Tree, steps: seq<Step>, env: Env, name: string, opts: Options, ms: seq<Member>)
    requires Target(env, name) + [PackageJson] in t
    requires t[Target(env, name) + [PackageJson]] == File(JsonText(JObj(ms)))
    ensures var r := PackageStage(t, steps, env, name, opts);
            var pkg := Target(env, name) + [PackageJson];
            r.outcome == Done && pkg in r.tree
            && r.tree[pkg] == File(JsonText(JObj(SetMember(ms, "name", JStr(name)))))
  {
    var pkg := Target(env, name) + [PackageJson];
    assert IsPrefix(pkg, pkg);
  }

  /**
   * Setting `name` on an object: `name` reads as the project name, every
   * other property reads as before, and the property order is kept.
   */
  lemma RenamedObject(ms: seq<Member>, name: string)
    ensures var renamed := JObj(SetMember(ms, "name", JStr(name)));
            Field(renamed, "name") == Some(JStr(name))
            && (forall k :: k != "name" ==> Field(renamed, k) == Get(ms, k))
            && Keys(renamed.members) == if "name" in Keys(ms) then Keys(ms) else Keys(ms) + ["name"]
  {
    GetSetSame(ms, "name", JStr(name));
    forall k | k != "name"
      ensures Field(JObj(SetMember(ms, "name", JStr(name))), k) == Get(ms, k)
    {
      GetSetOther(ms, "name", JStr(name), k);
    }
    KeysAfterSet(ms, "name", JStr(name));
  }

  lemma PackageJsonApart(target: Path, src: Path)
    requires !IsPrefix(target, src) && !IsPrefix(src, target)
    ensures !IsPrefix(target, src + [PackageJson])
  {
    assert IsPrefix(src, src + [PackageJson]);
    PrefixesCompare(target, src, src + [PackageJson]);
    assert (src + [PackageJson])[..|src|] == src;
    assert |target| == |src| + 1 && IsPrefix(target, src + [PackageJson]) ==> target == src + [PackageJson];
  }

  /**
   * A template whose `package.json` is an object, in a template directory
   * apart from the target, yields a completed project whose `package.json`
   * is that object with `name` set to the project name.
   */
  lemma PackageJsonRenamed(t: Tree, env: Env, name: string, opts: Options, ans: Answers, ms: seq<Member>)
    requires IsValidName(name)
    requires !(Exists(t, Target(env, name)) && !opts.force && !ans.overwrite)
    requires IsKey(ChosenKey(opts, ans))
    requires !IsPrefix(Target(env, name), TemplateDir(env, ChosenKey(opts, ans)))
    requires !IsPrefix(TemplateDir(env, ChosenKey(opts, ans)), Target(env, name))
    requires TemplateDir(env, ChosenKey(opts, ans)) + [PackageJson] in t
    requires t[TemplateDir(env, ChosenKey(opts, ans)) + [PackageJson]] == File(JsonText(JObj(ms)))
    requires CreateRun(t, env, name, opts, ans).outcome != Exit1(CopyFailed)
    ensures var r := CreateRun(t, env, name, opts, ans);
            var pkg := Target(env, name) + [PackageJson];
            r.outcome == Done && pkg in r.tree
            && r.tree[pkg] == File(JsonText(JObj(SetMember(ms, "name", JStr(name)))))
  {
    var key := ChosenKey(opts, ans);
    var target := Target(env, name);
    var src := TemplateDir(env, key);
    var t1 := ClearedTree(t, target);
    var t2 := WithDir(t1, target);
    PackageJsonApart(target, src);
    assert src + [PackageJson] in t1;
    assert Exists(t1, src);
    CopyStageReached(t, env, name, opts, ans);
    ReachesPackageStage(t, env, name, opts, ans);
    RelocatedTo(t2, src, target, [PackageJson]);
    PackageStageRenames(Staged(t, env, name, key),
                        ClearSteps(t, target, opts) + [MakeDir(target), CopyTree(src, target)],
                        env, name, opts, ms);
  }

  /** No step of `s` starts a process. */
  predicate NoSpawn(s: seq<Step>)
  {
    forall i :: 0 <= i < |s| ==> !s[i].Spawn?
  }

  lemma NoSpawnAppend(s: seq<Step>, x: Step)
    requires NoSpawn(s) && !x.Spawn?
    ensures NoSpawn(s + [x])
  {
    assert forall i :: 0 <= i < |s| ==> (s + [x])[i] == s[i];
  }

  lemma PackageStageNoSpawn(t: Tree, steps: seq<Step>, env: Env, name: string, opts: Options)
    requires NoSpawn(steps)
    ensures var r := PackageStage(t, steps, env, name, opts);
            r.outcome != Done ==> NoSpawn(r.steps)
  {
  }

  lemma CopyStageNoSpawn(t: Tree, steps: seq<Step>, env: Env, name: string, opts: Options, src: Path)
    requires NoSpawn(steps)
    ensures var r := CopyStage(t, steps, env, name, opts, src);
            r.outcome != Done ==> NoSpawn(r.steps)
  {
    NoSpawnAppend(steps, CopyTree(src, Target(env, name)));
    PackageStageNoSpawn(Copied(t, src, Target(env, name)), steps + [CopyTree(src, Target(env, name))], env, name, opts);
  }

  lemma MaterializeNoSpawn(t: Tree, steps: seq<Step>, env: Env, name: string, opts: Options, key: string)
    requires NoSpawn(steps)
    ensures var r := Materialize(t, steps, env, name, opts, key);
            r.outcome != Done ==> NoSpawn(r.steps)
  {
    var target := Target(env, name);
    NoSpawnAppend(steps, MakeDir(target));
    CopyStageNoSpawn(WithDir(t, target), steps + [MakeDir(target)], env, name, opts, TemplateDir(env, key));
  }

  /** `git init` and the dependency install start only in a run that completed. */
  lemma SpawnOnlyWhenDone(t: Tree, env: Env, name: string, opts: Options, ans: Answers)
    ensures var r := CreateRun(t, env, name, opts, ans);
            r.outcome != Done ==> forall i :: 0 <= i < |r.steps| ==> !r.steps[i].Spawn?
  {
    if IsValidName(name) {
      var target := Target(env, name);
      var s := ClearSteps(t, target, opts);
      assert NoSpawn(s);
      MaterializeNoSpawn(ClearedTree(t, target), s, env, name, opts, ChosenKey(opts, ans));
    }
  }

  /** A completed `package.json` stage ends with the processes it starts. */
  lemma PackageStageSpawns(t: Tree, steps: seq<Step>, env: Env, name: string, opts: Options)
    requires PackageStage(t, steps, env, name, opts).outcome == Done
    ensures var r := PackageStage(t, steps, env, name, opts);
            var spawns := SpawnSteps(r.tree, env, Target(env, name), opts);
            |spawns| <= |r.steps| && r.steps[|r.steps| - |spawns|..] == spawns
  {
  }

  /**
   * The processes of a completed run: `git init` exactly when `--git` was
   * given, and an install exactly when `--install` was given, with yarn when
   * the working directory holds `yarn.lock` and npm otherwise, both in the
   * new project.
   */
  lemma SpawnsOfCompletedRun(t: Tree, env: Env, name: string, opts: Options, ans: Answers)
    requires CreateRun(t, env, name, opts, ans).outcome == Done
    ensures var r := CreateRun(t, env, name, opts, ans);
            var target := Target(env, name);
            var command := if Exists(t, env.cwd + ["yarn.lock"]) then "yarn" else "npm";
            var spawns := (if opts.git then [Spawn("git", ["init"], target)] else [])
                          + (if opts.install then [Spawn(command, ["install"], target)] else []);
            |spawns| <= |r.steps| && r.steps[|r.steps| - |spawns|..] == spawns
  {
    DoneStages(t, env, name, opts, ans);
    SpawnsOfStagedRun(t, CreateRun(t, env, name, opts, ans), env, name, opts, ChosenKey(opts, ans));
  }

  /**
   * The spawns of a completed `package.json` stage, with `yarn.lock` read in
   * the initial tree, which agrees with the final one outside the target.
   */
  lemma SpawnsOfStagedRun(t: Tree, r: Run, env: Env, name: string, opts: Options, key: string)
    requires IsValidName(name)
    requires SameOutside(t, r.tree, Target(env, name))
    requires r.outcome == Done
    requires var target := Target(env, name);
             r == PackageStage(Staged(t, env, name, key),
                               ClearSteps(t, target, opts) + [MakeDir(target), CopyTree(TemplateDir(env, key), target)],
                               env, name, opts)
    ensures var target := Target(env, name);
            var command := if Exists(t, env.cwd + ["yarn.lock"]) then "yarn" else "npm";
            var spawns := (if opts.git then [Spawn("git", ["init"], target)] else [])
                          + (if opts.install then [Spawn(command, ["install"], target)] else []);
            |spawns| <= |r.steps| && r.steps[|r.steps| - |spawns|..] == spawns
  {
    var target := Target(env, name);
    PackageStageSpawns(Staged(t, env, name, key),
                       ClearSteps(t, target, opts) + [MakeDir(target), CopyTree(TemplateDir(env, key), target)],
                       env, name, opts);
    LockUnaffected(t, r.tree, env, name);
  }

  /** `yarn.lock` in the working directory is never below a valid target. */
  lemma LockUnaffected(t: Tree, u: Tree, env: Env, name: string)
    requires IsValidName(name)
    requires SameOutside(t, u, Target(env, name))
    ensures Exists(u, env.cwd + ["yarn.lock"]) <==> Exists(t, env.cwd + ["yarn.lock"])
  {
    var target := Target(env, name);
    var lock := env.cwd + ["yarn.lock"];
    ValidNameIsOneComponent(name);
    assert "yarn.lock"[4] == '.';
    assert target[|env.cwd|] == name && lock[|env.cwd|] == "yarn.lock";
    ExistsAway(t, u, target, lock);
  }

  /** An answer picked from the template prompt always passes the registry check. */
  lemma ChoiceAnswerAccepted(t: Tree, env: Env, name: string, opts: Options, ans: Answers)
    requires !TemplateGiven(opts) && ans.template in ChoiceValues()
    ensures !CreateRun(t, env, name, opts, ans).outcome.Exit1?
            || !CreateRun(t, env, name, opts, ans).outcome.failure.UnknownTemplate?
  {
    ChoicesAreRegistered(ans.template);
  }

  /**
   * The target is removed before the template is checked: with `--force`, an
   * existing directory and an unregistered template, the directory is gone
   * and nothing is copied.
   */
  lemma ForcedUnknownTemplateDeletes(t: Tree, env: Env, name: string, opts: Options, ans: Answers)
    requires IsValidName(name) && opts.force && Exists(t, Target(env, name))
    requires TemplateGiven(opts) && !IsKey(opts.template.value)
    ensures CreateRun(t, env, name, opts, ans)
            == Run(Exit1(UnknownTemplate(opts.template.value)), Removed(t, Target(env, name)), [Delete(Target(env, name))])
  {
  }

  /**
   * A run can complete: `--force` with a registered template whose directory
   * holds only an object `package.json`, and a target apart from it, ends in
   * `Done` with the project's `package.json` renamed. The lemmas above about
   * completed runs therefore speak of reachable runs.
   */
  lemma DoneReachable(env: Env, name: string, key: string, ms: seq<Member>)
    requires IsValidName(name) && IsKey(key)
    requires !IsPrefix(Target(env, name), TemplateDir(env, key))
    requires !IsPrefix(TemplateDir(env, key), Target(env, name))
    ensures var t := map[TemplateDir(env, key) + [PackageJson] := File(JsonText(JObj(ms)))];
            var r := CreateRun(t, env, name, Options(Some(key), true, false, false), Answers(false, key));
            var pkg := Target(env, name) + [PackageJson];
            r.outcome == Done && pkg in r.tree
            && r.tree[pkg] == File(JsonText(JObj(SetMember(ms, "name", JStr(name)))))
  {
    var src := TemplateDir(env, key);
    var target := Target(env, name);
    var pkg := src + [PackageJson];
    var t := map[pkg := File(JsonText(JObj(ms)))];
    var opts := Options(Some(key), true, false, false);
    var ans := Answers(false, key);
    assert ChosenKey(opts, ans) == key;
    assert IsPrefix(src, pkg);
    if IsPrefix(target, pkg) {
      PrefixesCompare(src, target, pkg);
      assert false;
    }
    assert !Exists(t, target);
    CopyStageReached(t, env, name, opts, ans);
    PackageJsonRenamed(t, env, name, opts, ans, ms);
  }

  /** A working directory `home` and the tool's templates under `tool/templates`. */
  const SampleEnv: Env := Env(["home"], ["tool", "templates"])

  /** `create app --template node --force` with a template holding an empty `package.json`. */
  function SampleRun(): Run
  {
    CreateRun(map[TemplateDir(SampleEnv, "node") + [PackageJson] := File(JsonText(JObj([])))],
              SampleEnv, "app", Options(Some("node"), true, false, false), Answers(false, "node"))
  }

  /** The sample run completes and leaves `home/app/package.json` named `app`. */
  lemma SampleRunDone()
    ensures SampleRun().outcome == Done
    ensures Target(SampleEnv, "app") + [PackageJson] in SampleRun().tree
    ensures SampleRun().tree[Target(SampleEnv, "app") + [PackageJson]]
            == File(JsonText(JObj([Member("name", JStr("app"))])))
  {
    assert IsValidName("app");
    assert Templates[0].key == "node";
    assert Target(SampleEnv, "app")[0] != TemplateDir(SampleEnv, "node")[0];
    DoneReachable(SampleEnv, "app", "node", []);
    assert SetMember([], "name", JStr("app")) == [Member("name", JStr("app"))];
  }
}
