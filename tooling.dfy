/** `addESLint`, `addPrettier` and `initializeGit`: configuration records and
    the order of their install and write effects. */
module Tooling {
  import opened Common
  import opened Effects

  const EslintRecommended: string := "eslint:recommended"
  const TypeScriptRecommended: string := "plugin:@typescript-eslint/recommended"
  const TypeScriptParser: string := "@typescript-eslint/parser"

  /** The ESLint configuration as built: the base record with the
      `extends` list it ends with and, when set, the `parser` key. */
  function EslintRecord(presets: seq<string>, parser: Option<string>): (r: Json)
    ensures r.JObj?
    ensures "parser" in r.fields <==> parser.Some?
  {
    var base := map[
      "env" := JObj(map["node" := JBool(true), "es2021" := JBool(true)]),
      "extends" := JArr(seq(|presets|, i requires 0 <= i < |presets| => JStr(presets[i]))),
      "parserOptions" := JObj(map["ecmaVersion" := JStr("latest"), "sourceType" := JStr("module")]),
      "rules" := JObj(map[])
    ];
    if parser.Some? then JObj(base["parser" := JStr(parser.value)]) else JObj(base)
  }

  /** The `extends` list `addESLint` ends with. */
  function EslintPresets(useTypeScript: bool): seq<string> {
    if useTypeScript then [EslintRecommended, TypeScriptRecommended] else [EslintRecommended]
  }

  /** The parser `addESLint` sets, if any. */
  function EslintParser(useTypeScript: bool): Option<string> {
    if useTypeScript then Some(TypeScriptParser) else None
  }

  /** The configuration `addESLint(dir, useTypeScript)` writes. */
  function EslintConfig(useTypeScript: bool): Json {
    EslintRecord(EslintPresets(useTypeScript), EslintParser(useTypeScript))
  }

  function EslintInstall(dir: string): string {
    "cd " + dir + " && npm install -D eslint"
  }

  function EslintPluginInstall(dir: string): string {
    "cd " + dir + " && npm install -D @typescript-eslint/eslint-plugin @typescript-eslint/parser"
  }

  /** The effects of `addESLint(dir, useTypeScript)`. */
  function EslintPlan(dir: string, useTypeScript: bool): seq<Effect> {
    [RunLoud(EslintInstall(dir))]
    + (if useTypeScript then [RunSilent(EslintPluginInstall(dir))] else [])
    + [WriteFile(Under(dir, ".eslintrc.json"), Record(EslintConfig(useTypeScript)))]
  }

  /** `addESLint`: install, build the record, extend it for TypeScript
      (one more `extends` entry, a parser, a silent plugin install), write it. */
  method AddESLint(w: FileSystem, dir: string, useTypeScript: bool)
    modifies w
    ensures w.Snapshot() == Exec(old(w.Snapshot()), w.oracle, EslintPlan(dir, useTypeScript))
  {
    ghost var s0 := w.Snapshot();
    w.RunCommand("cd " + dir + " && npm install -D eslint");
    ghost var s1 := w.Snapshot();
    var presets := [EslintRecommended];
    var parser: Option<string> := None;
    if useTypeScript {
      presets := presets + [TypeScriptRecommended];
      parser := Some(TypeScriptParser);
      w.RunCommandSilent("cd " + dir + " && npm install -D @typescript-eslint/eslint-plugin @typescript-eslint/parser");
    }
    ghost var s2 := w.Snapshot();
    assert presets == EslintPresets(useTypeScript) && parser == EslintParser(useTypeScript);
    w.CreateFile(Under(dir, ".eslintrc.json"), Record(EslintRecord(presets, parser)));
    EslintRun(s0, w.oracle, dir, useTypeScript, s1, s2, w.Snapshot());
  }

  /** The run of `addESLint` from its three observable states: after the
      install, after the TypeScript plugin install (the same state when
      there is none), and after the write. */
  lemma EslintRun(s0: State, o: Oracle, dir: string, useTypeScript: bool, s1: State, s2: State, s3: State)
    requires s1 == Step(s0, o, RunLoud(EslintInstall(dir)))
    requires s2 == if useTypeScript then Step(s1, o, RunSilent(EslintPluginInstall(dir))) else s1
    requires s3 == Step(s2, o, WriteFile(Under(dir, ".eslintrc.json"), Record(EslintConfig(useTypeScript))))
    ensures s3 == Exec(s0, o, EslintPlan(dir, useTypeScript))
  {
    var plan := EslintPlan(dir, useTypeScript);
    if useTypeScript {
      ExecTrace(s0, o, plan, [s0, s1, s2, s3]);
    } else {
      ExecTrace(s0, o, plan, [s0, s1, s3]);
    }
  }

  /** The base configuration extends exactly the recommended rules, enables
      the `node` and `es2021` environments and has no rules; TypeScript adds
      the plugin's rules after it and a parser, and only TypeScript has a
      parser. */
  lemma EslintConfigShape(useTypeScript: bool)
    ensures EslintConfig(useTypeScript).JObj?
    ensures EslintConfig(useTypeScript).fields["env"] == JObj(map["node" := JBool(true), "es2021" := JBool(true)])
    ensures EslintConfig(useTypeScript).fields["rules"] == JObj(map[])
    ensures EslintConfig(useTypeScript).fields["extends"]
         == if useTypeScript then JArr([JStr(EslintRecommended), JStr(TypeScriptRecommended)])
            else JArr([JStr(EslintRecommended)])
    ensures "parser" in EslintConfig(useTypeScript).fields <==> useTypeScript
    ensures useTypeScript ==> EslintConfig(useTypeScript).fields["parser"] == JStr(TypeScriptParser)
    ensures EslintConfig(useTypeScript).fields.Keys
         == {"env", "extends", "parserOptions", "rules"} + (if useTypeScript then {"parser"} else {})
  {
    var ext := if useTypeScript then [EslintRecommended, TypeScriptRecommended] else [EslintRecommended];
    var js := seq(|ext|, i requires 0 <= i < |ext| => JStr(ext[i]));
    if useTypeScript {
      assert js == [JStr(EslintRecommended), JStr(TypeScriptRecommended)];
    } else {
      assert js == [JStr(EslintRecommended)];
    }
  }

  /** The loud `eslint` install comes first, the configuration file is the
      last effect, written to `<dir>/.eslintrc.json`, and the TypeScript
      plugin install between them is silent, so its failure is not fatal. */
  lemma EslintPlanOrder(dir: string, useTypeScript: bool)
    ensures EslintPlan(dir, useTypeScript)[0] == RunLoud(EslintInstall(dir))
    ensures |EslintPlan(dir, useTypeScript)| == if useTypeScript then 3 else 2
    ensures EslintPlan(dir, useTypeScript)[|EslintPlan(dir, useTypeScript)| - 1]
         == WriteFile(Under(dir, ".eslintrc.json"), Record(EslintConfig(useTypeScript)))
    ensures forall i :: 0 < i < |EslintPlan(dir, useTypeScript)| ==> !Fatal(EslintPlan(dir, useTypeScript)[i])
  {
  }

  /** `prettierConfig` */
  const PrettierConfig: Json := JObj(map[
    "semi" := JBool(true),
    "trailingComma" := JStr("es5"),
    "singleQuote" := JBool(true),
    "printWidth" := JNum(80),
    "tabWidth" := JNum(2)
  ])

  function PrettierInstall(dir: string): string {
    "cd " + dir + " && npm install -D prettier"
  }

  /** The effects of `addPrettier(dir)`. */
  function PrettierPlan(dir: string): seq<Effect> {
    [RunLoud(PrettierInstall(dir)), WriteFile(Under(dir, ".prettierrc.json"), Record(PrettierConfig))]
  }

  method AddPrettier(w: FileSystem, dir: string)
    modifies w
    ensures w.Snapshot() == Exec(old(w.Snapshot()), w.oracle, PrettierPlan(dir))
  {
    ghost var s0 := w.Snapshot();
    ghost var plan := PrettierPlan(dir);
    w.RunCommand("cd " + dir + " && npm install -D prettier");
    ExecSnoc(s0, w.oracle, [], plan[0]);
    w.CreateFile(Under(dir, ".prettierrc.json"), Record(PrettierConfig));
    ExecSnoc(s0, w.oracle, [plan[0]], plan[1]);
    assert [plan[0]] + [plan[1]] == plan;
  }

  /** The Prettier record has exactly five settings, with these values, and
      is written after a loud install. */
  lemma PrettierConfigShape(dir: string)
    ensures PrettierConfig.JObj? && PrettierConfig.fields.Keys == {"semi", "trailingComma", "singleQuote", "printWidth", "tabWidth"}
    ensures PrettierConfig.fields["printWidth"] == JNum(80) && PrettierConfig.fields["tabWidth"] == JNum(2)
    ensures PrettierConfig.fields["trailingComma"] == JStr("es5")
    ensures PrettierConfig.fields["semi"] == JBool(true) && PrettierConfig.fields["singleQuote"] == JBool(true)
    ensures PrettierPlan(dir)[0].RunLoud? && PrettierPlan(dir)[1].WriteFile?
  {
  }

  function GitInit(projectName: string): string {
    "cd " + projectName + " && git init"
  }

  /** The effects of `initializeGit(projectName, gitignore)`. */
  function GitPlan(projectName: string, gitignore: Content): seq<Effect> {
    [RunSilent(GitInit(projectName)), WriteFile(Under(projectName, ".gitignore"), gitignore)]
  }

  method InitializeGit(w: FileSystem, projectName: string, gitignore: Content)
    modifies w
    ensures w.Snapshot() == Exec(old(w.Snapshot()), w.oracle, GitPlan(projectName, gitignore))
  {
    ghost var s0 := w.Snapshot();
    ghost var plan := GitPlan(projectName, gitignore);
    w.RunCommandSilent("cd " + projectName + " && git init");
    ExecSnoc(s0, w.oracle, [], plan[0]);
    w.CreateFile(Under(projectName, ".gitignore"), gitignore);
    ExecSnoc(s0, w.oracle, [plan[0]], plan[1]);
    assert [plan[0]] + [plan[1]] == plan;
  }

  /** Git initialisation never ends the run: whether or not `git init`
      fails, the `.gitignore` write is attempted, and the file is there
      exactly when that write succeeds. */
  lemma GitNeverHalts(s: State, o: Oracle, projectName: string, gitignore: Content)
    requires !s.halted
    ensures !Exec(s, o, GitPlan(projectName, gitignore)).halted
    ensures Exec(s, o, GitPlan(projectName, gitignore)).attempted == s.attempted + GitPlan(projectName, gitignore)
    ensures o.succeeds(|s.attempted| + 1)
        ==> Exec(s, o, GitPlan(projectName, gitignore)).files[Under(projectName, ".gitignore")] == gitignore
    ensures !o.succeeds(|s.attempted| + 1) && Under(projectName, ".gitignore") !in s.files
        ==> Under(projectName, ".gitignore") !in Exec(s, o, GitPlan(projectName, gitignore)).files
  {
    var plan := GitPlan(projectName, gitignore);
    ExecSnoc(s, o, [], plan[0]);
    assert plan == [plan[0]] + [plan[1]];
    ExecAppend(s, o, [plan[0]], [plan[1]]);
    ExecSnoc(Exec(s, o, [plan[0]]), o, [], plan[1]);
  }
}
