/** `main`: the configuration built from the answers and the three
    topologies (frontend only, fullstack monorepo, backend), as the effects
    they issue in order. */
module Orchestrator {
  import opened Common
  import opened Templates
  import opened Effects
  import opened Configuration
  import opened Frontend
  import opened Backend
  import opened Tooling
  import opened Questions

  /** The `config` record built from the answers. */
  function MakeConfig(a: Answers): (c: Config)
    ensures c.projectType == a.projectType && c.frontend == a.frontend && c.backend == a.backend
    ensures c.database == a.database && c.useTypeScript == a.useTypeScript
    ensures c.addLinting == a.addLinting && c.addPrettier == a.addPrettier && c.initGit == a.initGit
    ensures c.needsDatabase <==> a.database.Some? && a.database.value != "" && a.database.value != "none"
  {
    Config(a.projectType, a.frontend, a.backend, a.database, a.useTypeScript,
           NeedsDatabase(a.database), a.addLinting, a.addPrettier, a.initGit)
  }

  /** `{ ...config, projectType: "backend" }` */
  function BackendConfig(c: Config): Config {
    c.(projectType := Some("backend"))
  }

  /** The README options: `config` has no `useCodebase`, so it is off. */
  function ReadmeOptions(c: Config): TemplateOptions {
    TemplateOptions(c.frontend, c.backend, c.needsDatabase, false)
  }

  /** The tooling block: ESLint when linting is asked for, then Prettier
      when formatting is. */
  function ToolingPlan(serverDir: string, c: Config): seq<Effect> {
    (if c.addLinting then EslintPlan(serverDir, c.useTypeScript) else [])
    + (if c.addPrettier then PrettierPlan(serverDir) else [])
  }

  /** Git initialisation when asked for, then the README write. */
  function FinishPlan(projectName: string, c: Config): seq<Effect> {
    (if c.initGit then GitPlan(projectName, Doc(GitignoreFile)) else [])
    + [WriteFile(Under(projectName, "README.md"), Doc(ReadmeFile(projectName, ReadmeOptions(c))))]
  }

  function FullstackPlan(projectName: string, c: Config): seq<Effect> {
    [MkDir(projectName)] + FrontendPlan(Under(projectName, "frontend"), c.frontend)
    + [MkDir(Under(projectName, "backend"))] + BackendPlan(Under(projectName, "backend"), BackendConfig(c))
    + ToolingPlan(Under(Under(projectName, "backend"), "server"), c) + FinishPlan(projectName, c)
  }

  function BackendOnlyPlan(projectName: string, c: Config): seq<Effect> {
    [MkDir(projectName)] + BackendPlan(projectName, c)
    + ToolingPlan(Under(projectName, "server"), c) + FinishPlan(projectName, c)
  }

  /** The effects of `main` once the answers are in and the project folder
      is free: a single command for a frontend, the monorepo for fullstack,
      and the backend layout for every other project type. */
  function MainPlan(projectName: string, c: Config): seq<Effect> {
    if c.projectType == Some("frontend") then FrontendPlan(projectName, c.frontend)
    else if c.projectType == Some("fullstack") then FullstackPlan(projectName, c)
    else BackendOnlyPlan(projectName, c)
  }

  // ---------------------------------------------------------------------------
  // The methods
  // ---------------------------------------------------------------------------

  /** The tooling block of `main`, outer guard included. */
  method ApplyTooling(w: FileSystem, serverDir: string, c: Config)
    modifies w
    ensures w.Snapshot() == Exec(old(w.Snapshot()), w.oracle, ToolingPlan(serverDir, c))
  {
    ghost var s0 := w.Snapshot();
    ghost var s1 := s0;
    if c.addLinting || c.addPrettier {
      if c.addLinting {
        AddESLint(w, serverDir, c.useTypeScript);
      }
      s1 := w.Snapshot();
      if c.addPrettier {
        AddPrettier(w, serverDir);
      }
    }
    ghost var eslint := if c.addLinting then EslintPlan(serverDir, c.useTypeScript) else [];
    ghost var prettier := if c.addPrettier then PrettierPlan(serverDir) else [];
    assert s1 == Exec(s0, w.oracle, eslint);
    assert w.Snapshot() == Exec(s1, w.oracle, prettier);
    ExecAppend(s0, w.oracle, eslint, prettier);
  }

  /** Git initialisation and the README, shared by the two topologies with
      a server. */
  method FinishProject(w: FileSystem, projectName: string, c: Config)
    modifies w
    ensures w.Snapshot() == Exec(old(w.Snapshot()), w.oracle, FinishPlan(projectName, c))
  {
    ghost var s0 := w.Snapshot();
    if c.initGit {
      InitializeGit(w, projectName, Doc(GitignoreFile));
    }
    ghost var git := if c.initGit then GitPlan(projectName, Doc(GitignoreFile)) else [];
    ghost var s1 := w.Snapshot();
    w.CreateFile(Under(projectName, "README.md"), Doc(ReadmeFile(projectName, ReadmeOptions(c))));
    ghost var readme := WriteFile(Under(projectName, "README.md"), Doc(ReadmeFile(projectName, ReadmeOptions(c))));
    assert s1 == Exec(s0, w.oracle, git);
    ExecSnoc(s0, w.oracle, git, readme);
  }

  /** The fullstack branch of `main`. */
  method GenerateFullstack(w: FileSystem, projectName: string, c: Config)
    modifies w
    ensures w.Snapshot() == Exec(old(w.Snapshot()), w.oracle, FullstackPlan(projectName, c))
  {
    ghost var s0 := w.Snapshot();
    w.CreateFolder(projectName);
    ghost var s1 := w.Snapshot();
    var frontendPath := Under(projectName, "frontend");
    GenerateFrontend(w, frontendPath, c.frontend);
    ghost var s2 := w.Snapshot();
    var backendConfig := c.(projectType := Some("backend"));
    var backendPath := Under(projectName, "backend");
    w.CreateFolder(backendPath);
    ghost var s3 := w.Snapshot();
    GenerateBackend(w, backendPath, backendConfig);
    ghost var s4 := w.Snapshot();
    ApplyTooling(w, Under(backendPath, "server"), c);
    ghost var s5 := w.Snapshot();
    FinishProject(w, projectName, c);
    FullstackRun(w.oracle, projectName, c, s0, s1, s2, s3, s4, s5, w.Snapshot());
  }

  /** The backend branch of `main`. */
  method GenerateBackendOnly(w: FileSystem, projectName: string, c: Config)
    modifies w
    ensures w.Snapshot() == Exec(old(w.Snapshot()), w.oracle, BackendOnlyPlan(projectName, c))
  {
    ghost var s0 := w.Snapshot();
    w.CreateFolder(projectName);
    ghost var s1 := w.Snapshot();
    GenerateBackend(w, projectName, c);
    ghost var s2 := w.Snapshot();
    ApplyTooling(w, Under(projectName, "server"), c);
    ghost var s3 := w.Snapshot();
    FinishProject(w, projectName, c);
    BackendOnlyRun(w.oracle, projectName, c, s0, s1, s2, s3, w.Snapshot());
  }

  /** The branch of `main` on the project type. */
  method Generate(w: FileSystem, projectName: string, config: Config)
    modifies w
    ensures w.Snapshot() == Exec(old(w.Snapshot()), w.oracle, MainPlan(projectName, config))
  {
    if config.projectType == Some("frontend") {
      GenerateFrontend(w, projectName, config.frontend);
    } else if config.projectType == Some("fullstack") {
      GenerateFullstack(w, projectName, config);
    } else {
      GenerateBackendOnly(w, projectName, config);
    }
  }

  /** The part of `main` after the prompts: the folder check, the `config`
      record, and the branch on the project type. The status is 1 for a
      taken folder, and otherwise 1 exactly when a fatal effect failed. */
  method Scaffold(w: FileSystem, a: Answers) returns (code: int)
    modifies w
    ensures Exists(old(w.Snapshot()), a.projectName) ==> code == 1 && w.Snapshot() == old(w.Snapshot())
    ensures !Exists(old(w.Snapshot()), a.projectName)
            ==> w.Snapshot() == Exec(old(w.Snapshot()), w.oracle, MainPlan(a.projectName, MakeConfig(a)))
                && code == ExitCode(w.Snapshot())
  {
    var projectName := a.projectName;
    if w.FolderExists(projectName) {
      return 1;
    }
    var config := Config(a.projectType, a.frontend, a.backend, a.database, a.useTypeScript,
                         a.database.Some? && a.database.value != "" && a.database.value != "none",
                         a.addLinting, a.addPrettier, a.initGit);
    assert config == MakeConfig(a);
    Generate(w, projectName, config);
    code := if w.halted then 1 else 0;
  }

  /** `main`. `seen` is what `folderExists` reports while the name is being
      asked for; `main` asks again, of the file system as it is afterwards.
      It returns the answers it acted on and the exit status: 0 after a
      cancelled prompt, 1 for a taken folder, and otherwise 1 exactly when
      a fatal effect failed. */
  method Run(w: FileSystem, r: Replies, seen: set<string>) returns (answers: Reply<Answers>, code: int)
    modifies w
    ensures answers.Cancelled? <==> Aborted(r, seen)
    ensures answers.Answer? ==> AnswersFor(r, seen, answers.value)
    ensures answers.Cancelled? ==> code == 0 && w.Snapshot() == old(w.Snapshot())
    ensures answers.Answer? && Exists(old(w.Snapshot()), answers.value.projectName)
            ==> code == 1 && w.Snapshot() == old(w.Snapshot())
    ensures answers.Answer? && !Exists(old(w.Snapshot()), answers.value.projectName)
            ==> w.Snapshot() == Exec(old(w.Snapshot()), w.oracle, MainPlan(answers.value.projectName, MakeConfig(answers.value)))
                && code == ExitCode(w.Snapshot())
  {
    answers := GetUserInput(r, seen);
    if answers.Cancelled? {
      return answers, 0;
    }
    code := Scaffold(w, answers.value);
  }

  // ---------------------------------------------------------------------------
  // Composing the runs
  // ---------------------------------------------------------------------------

  /** The six parts of the fullstack branch, run one after the other. */
  lemma FullstackRun(o: Oracle, projectName: string, c: Config,
                      s: State, s1: State, s2: State, s3: State, s4: State, s5: State, s6: State)
    requires s1 == Step(s, o, MkDir(projectName))
    requires s2 == Exec(s1, o, FrontendPlan(Under(projectName, "frontend"), c.frontend))
    requires s3 == Step(s2, o, MkDir(Under(projectName, "backend")))
    requires s4 == Exec(s3, o, BackendPlan(Under(projectName, "backend"), BackendConfig(c)))
    requires s5 == Exec(s4, o, ToolingPlan(Under(Under(projectName, "backend"), "server"), c))
    requires s6 == Exec(s5, o, FinishPlan(projectName, c))
    ensures s6 == Exec(s, o, FullstackPlan(projectName, c))
  {
    var a := [MkDir(projectName)];
    var b := FrontendPlan(Under(projectName, "frontend"), c.frontend);
    var m := [MkDir(Under(projectName, "backend"))];
    var d := BackendPlan(Under(projectName, "backend"), BackendConfig(c));
    var e := ToolingPlan(Under(Under(projectName, "backend"), "server"), c);
    var f := FinishPlan(projectName, c);
    ExecSnoc(s, o, [], a[0]);
    assert [] + [a[0]] == a;
    ExecAppend(s, o, a, b);
    ExecSnoc(s, o, a + b, m[0]);
    ExecAppend(s, o, a + b + m, d);
    ExecAppend(s, o, a + b + m + d, e);
    ExecAppend(s, o, a + b + m + d + e, f);
  }

  /** The four parts of the backend branch, run one after the other. */
  lemma BackendOnlyRun(o: Oracle, projectName: string, c: Config,
                        s: State, s1: State, s2: State, s3: State, s4: State)
    requires s1 == Step(s, o, MkDir(projectName))
    requires s2 == Exec(s1, o, BackendPlan(projectName, c))
    requires s3 == Exec(s2, o, ToolingPlan(Under(projectName, "server"), c))
    requires s4 == Exec(s3, o, FinishPlan(projectName, c))
    ensures s4 == Exec(s, o, BackendOnlyPlan(projectName, c))
  {
    var a := [MkDir(projectName)];
    var d := BackendPlan(projectName, c);
    var e := ToolingPlan(Under(projectName, "server"), c);
    ExecSnoc(s, o, [], a[0]);
    assert [] + [a[0]] == a;
    ExecAppend(s, o, a, d);
    ExecAppend(s, o, a + d, e);
    ExecAppend(s, o, a + d + e, FinishPlan(projectName, c));
  }

  // ---------------------------------------------------------------------------
  // What `main` does, branch by branch
  // ---------------------------------------------------------------------------

  /** The backend half of a fullstack project is generated with the same
      choices except the project type, which is `backend`. */
  lemma BackendConfigKeepsChoices(c: Config)
    ensures BackendConfig(c).projectType == Some("backend")
    ensures BackendConfig(c).(projectType := c.projectType) == c
  {
  }

  /** A frontend project runs its one scaffolding command and nothing else:
      no folder is made, no file is written. */
  lemma FrontendProjectRunsOneCommand(projectName: string, c: Config)
    requires c.projectType == Some("frontend")
    ensures MainPlan(projectName, c) == [RunLoud(FrontendCommand(projectName, c.frontend))]
    ensures forall e :: e in MainPlan(projectName, c) ==> !e.MkDir? && !e.WriteFile?
  {
  }

  /** The prompts give a frontend project the value `vite`, which no branch
      of `generateFrontend` knows: `main` then runs the empty command. */
  lemma FrontendAnswersRunEmptyCommand(r: Replies, existing: set<string>, a: Answers)
    requires FrontendOnly(r) && AnswersFor(r, existing, a)
    ensures MainPlan(a.projectName, MakeConfig(a)) == [RunLoud("")]
  {
  }

  /** Every project type other than `frontend` and `fullstack`, a missing
      one included, takes the backend branch: the project folder, then the
      backend layout inside it. */
  lemma OtherTypesTakeBackendBranch(projectName: string, c: Config)
    requires c.projectType != Some("frontend") && c.projectType != Some("fullstack")
    ensures MainPlan(projectName, c) == BackendOnlyPlan(projectName, c)
    ensures MainPlan(projectName, c)[0] == MkDir(projectName)
    ensures MainPlan(projectName, c)[1..1 + |BackendPlan(projectName, c)|] == BackendPlan(projectName, c)
  {
    SliceSecond([MkDir(projectName)], BackendPlan(projectName, c),
                ToolingPlan(Under(projectName, "server"), c), FinishPlan(projectName, c));
  }

  /** A fullstack project makes its folder, runs the frontend command in
      `<name>/frontend`, and makes `<name>/backend`, in that order. */
  lemma FullstackOrder(projectName: string, c: Config)
    requires c.projectType == Some("fullstack")
    ensures |MainPlan(projectName, c)| > 3
    ensures MainPlan(projectName, c)[0] == MkDir(projectName)
    ensures MainPlan(projectName, c)[1] == RunLoud(FrontendCommand(Under(projectName, "frontend"), c.frontend))
    ensures MainPlan(projectName, c)[2] == MkDir(Under(projectName, "backend"))
  {
  }

  /** The tooling block is empty when neither tool is asked for; ESLint,
      when asked for, comes first, and Prettier, when asked for, makes up
      the last two effects. */
  lemma ToolingPlanShape(serverDir: string, c: Config)
    ensures ToolingPlan(serverDir, c) == [] <==> !c.addLinting && !c.addPrettier
    ensures c.addLinting ==> ToolingPlan(serverDir, c)[0] == RunLoud(EslintInstall(serverDir))
    ensures c.addLinting ==>
              ToolingPlan(serverDir, c)[..|EslintPlan(serverDir, c.useTypeScript)|] == EslintPlan(serverDir, c.useTypeScript)
    ensures c.addPrettier ==>
              var plan := ToolingPlan(serverDir, c);
              |plan| >= 2 && plan[|plan| - 2..] == PrettierPlan(serverDir)
    ensures !c.addPrettier && c.addLinting ==> ToolingPlan(serverDir, c) == EslintPlan(serverDir, c.useTypeScript)
    ensures !c.addLinting ==> ToolingPlan(serverDir, c) == (if c.addPrettier then PrettierPlan(serverDir) else [])
  {
    var e := if c.addLinting then EslintPlan(serverDir, c.useTypeScript) else [];
    var p := if c.addPrettier then PrettierPlan(serverDir) else [];
    assert ToolingPlan(serverDir, c) == e + p;
    assert (e + p)[..|e|] == e;
    if c.addPrettier {
      assert (e + p)[|e + p| - 2..] == p;
    }
  }

  /** Git comes before the README: `git init` and then the ignore file when
      git is asked for, and the README is always the last effect. */
  lemma FinishPlanShape(projectName: string, c: Config)
    ensures |FinishPlan(projectName, c)| == if c.initGit then 3 else 1
    ensures c.initGit ==> FinishPlan(projectName, c)[0] == RunSilent(GitInit(projectName))
                          && FinishPlan(projectName, c)[1] == WriteFile(Under(projectName, ".gitignore"), Doc(GitignoreFile))
    ensures FinishPlan(projectName, c)[|FinishPlan(projectName, c)| - 1]
            == WriteFile(Under(projectName, "README.md"), Doc(ReadmeFile(projectName, ReadmeOptions(c))))
  {
  }

  /** With a server, the README is the last file `main` writes, and it
      names the choices made. */
  lemma ReadmeIsLast(projectName: string, c: Config)
    requires c.projectType != Some("frontend")
    ensures var plan := MainPlan(projectName, c);
            plan[|plan| - 1] == WriteFile(Under(projectName, "README.md"),
                                          Doc(ReadmeFile(projectName, TemplateOptions(c.frontend, c.backend, c.needsDatabase, false))))
  {
    var f := FinishPlan(projectName, c);
    FinishPlanShape(projectName, c);
    var plan := MainPlan(projectName, c);
    if c.projectType == Some("fullstack") {
      var head := [MkDir(projectName)] + FrontendPlan(Under(projectName, "frontend"), c.frontend)
                  + [MkDir(Under(projectName, "backend"))] + BackendPlan(Under(projectName, "backend"), BackendConfig(c))
                  + ToolingPlan(Under(Under(projectName, "backend"), "server"), c);
      assert plan == head + f;
    } else {
      var head := [MkDir(projectName)] + BackendPlan(projectName, c) + ToolingPlan(Under(projectName, "server"), c);
      assert plan == head + f;
    }
  }

  /** A name the prompt accepted is free in every file system whose
      folders and files are the ones `folderExists` reported during the
      prompt, so there the exit-1 check of `main` does not fire. */
  lemma ValidatedNameIsFree(r: Replies, seen: set<string>, s: State)
    requires forall path :: Exists(s, path) ==> path in seen
    requires TextPrompt(r.names, seen).Answer?
    ensures !Exists(s, TextPrompt(r.names, seen).value)
  {
  }
}
