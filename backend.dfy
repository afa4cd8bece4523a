/** `generateBackend`: dependency lists, folder layout, entry file, env
    files and the `package.json` rewrite, as the effects they issue. */
module Backend {
  import opened Common
  import opened Presets
  import opened Templates
  import opened Effects
  import opened Configuration

  /** `${projectName}/server` */
  function ServerDir(projectName: string): string {
    Under(projectName, "server")
  }

  /** The framework packages: the framework and, under TypeScript, its
      `@types` package; nothing for an unknown framework. */
  function FrameworkDeps(backend: Option<string>, useTypeScript: bool): seq<string> {
    if backend == Some("express") then ["express"] + (if useTypeScript then ["@types/express"] else [])
    else if backend == Some("hapi") then ["@hapi/hapi"] + (if useTypeScript then ["@types/hapi__hapi"] else [])
    else []
  }

  /** The driver packages: the driver of a database that is needed and has
      an entry in the driver table and, for `pg` under TypeScript, its types. */
  function DriverDeps(c: Config): seq<string> {
    if c.needsDatabase && Truthy(c.database) && DriverPackage(c.database.value).Some? then
      var package := DriverPackage(c.database.value).value;
      [package] + (if c.useTypeScript && package == "pg" then ["@types/pg"] else [])
    else []
  }

  /** The runtime dependencies, in installation order. */
  function RuntimeDeps(c: Config): seq<string> {
    FrameworkDeps(c.backend, c.useTypeScript) + ["dotenv"] + DriverDeps(c)
  }

  /** The development dependencies. */
  function DevDeps(useTypeScript: bool): seq<string> {
    if useTypeScript then ["typescript", "@types/node", "ts-node", "nodemon"] else ["nodemon"]
  }

  /** The `deps` and `devDeps` arrays, built by successive pushes. */
  method CollectDependencies(c: Config) returns (deps: seq<string>, devDeps: seq<string>)
    ensures deps == RuntimeDeps(c) && devDeps == DevDeps(c.useTypeScript)
  {
    deps := [];
    devDeps := [];
    if c.backend == Some("express") {
      deps := deps + ["express"];
      if c.useTypeScript {
        deps := deps + ["@types/express"];
      }
    } else if c.backend == Some("hapi") {
      deps := deps + ["@hapi/hapi"];
      if c.useTypeScript {
        deps := deps + ["@types/hapi__hapi"];
      }
    }
    deps := deps + ["dotenv"];
    if c.needsDatabase && c.database.Some? && c.database.value != "" && c.database.value in DatabaseDrivers {
      var dbPackage := DatabaseDrivers[c.database.value].package;
      deps := deps + [dbPackage];
      if c.useTypeScript && dbPackage == "pg" {
        deps := deps + ["@types/pg"];
      }
    }
    if c.useTypeScript {
      devDeps := devDeps + ["typescript", "@types/node", "ts-node", "nodemon"];
    } else {
      devDeps := devDeps + ["nodemon"];
    }
  }

  function InitCommand(serverDir: string): string {
    "cd " + serverDir + " && npm init -y"
  }

  function InstallCommand(serverDir: string, deps: seq<string>): string {
    "cd " + serverDir + " && npm install " + JoinSpace(deps)
  }

  function InstallDevCommand(serverDir: string, devDeps: seq<string>): string {
    "cd " + serverDir + " && npm install -D " + JoinSpace(devDeps)
  }

  /** The folder structure: four folders always, `src/config` with a
      database. */
  function FoldersPlan(serverDir: string, needsDatabase: bool): seq<Effect> {
    [MkDir(Under(serverDir, "src")), MkDir(Under(serverDir, "src/routes")),
     MkDir(Under(serverDir, "src/controllers")), MkDir(Under(serverDir, "src/models"))]
    + (if needsDatabase then [MkDir(Under(serverDir, "src/config"))] else [])
  }

  function MainFile(useTypeScript: bool): string {
    if useTypeScript then "src/index.ts" else "src/index.js"
  }

  /** Express for exactly `"express"`, Hapi for every other value. */
  function EntryTemplate(c: Config): ServerTemplate {
    if c.backend == Some("express") then GetExpressTemplate(c.useTypeScript) else GetHapiTemplate(c.useTypeScript)
  }

  function Scripts(useTypeScript: bool): map<string, string> {
    if useTypeScript then
      map["start" := "node dist/index.js", "dev" := "nodemon --exec ts-node src/index.ts", "build" := "tsc"]
    else
      map["start" := "node src/index.js", "dev" := "nodemon src/index.js"]
  }

  function ManifestEditFor(useTypeScript: bool): ManifestEdit {
    ManifestEdit(Scripts(useTypeScript), useTypeScript)
  }

  /** `tsConfig` */
  const TsConfig: Json := JObj(map[
    "compilerOptions" := JObj(map[
      "target" := JStr("ES2020"),
      "module" := JStr("ESNext"),
      "moduleResolution" := JStr("node"),
      "outDir" := JStr("./dist"),
      "rootDir" := JStr("./src"),
      "strict" := JBool(true),
      "esModuleInterop" := JBool(true),
      "skipLibCheck" := JBool(true),
      "forceConsistentCasingInFileNames" := JBool(true)]),
    "include" := JArr([JStr("src/**/*")]),
    "exclude" := JArr([JStr("node_modules")])
  ])

  /** The setup part: the server folder, `npm init`, and the two installs. */
  function SetupPlan(serverDir: string, c: Config): seq<Effect> {
    [MkDir(serverDir), RunSilent(InitCommand(serverDir)),
     RunLoud(InstallCommand(serverDir, RuntimeDeps(c))),
     RunLoud(InstallDevCommand(serverDir, DevDeps(c.useTypeScript)))]
  }

  /** The files part: the entry file and the two env files. */
  function FilesPlan(serverDir: string, c: Config): seq<Effect> {
    [WriteFile(Under(serverDir, MainFile(c.useTypeScript)), Source(EntryTemplate(c))),
     WriteFile(Under(serverDir, ".env"), Doc(EnvFile(c.needsDatabase))),
     WriteFile(Under(serverDir, ".env.example"), Doc(EnvFile(c.needsDatabase)))]
  }

  /** The manifest part: the read, `tsconfig.json` under TypeScript, then
      the rewrite. */
  function ManifestPlan(serverDir: string, useTypeScript: bool): seq<Effect> {
    [ReadManifest(Under(serverDir, "package.json"))]
    + (if useTypeScript then [WriteFile(Under(serverDir, "tsconfig.json"), Record(TsConfig))] else [])
    + [WriteManifest(Under(serverDir, "package.json"), ManifestEditFor(useTypeScript))]
  }

  /** The effects of `generateBackend(projectName, config)`, in order. */
  function BackendPlan(projectName: string, c: Config): seq<Effect> {
    var sd := ServerDir(projectName);
    SetupPlan(sd, c) + FoldersPlan(sd, c.needsDatabase) + FilesPlan(sd, c) + ManifestPlan(sd, c.useTypeScript)
  }

  /** The first part of `generateBackend`: the server folder, `npm init`,
      and the two installs (the second guarded by a non-empty list). */
  method SetUpServer(w: FileSystem, serverDir: string, c: Config)
    modifies w
    ensures w.Snapshot() == Exec(old(w.Snapshot()), w.oracle, SetupPlan(serverDir, c))
  {
    ghost var plan := SetupPlan(serverDir, c);
    ghost var s0 := w.Snapshot();
    w.CreateFolder(serverDir);
    ghost var s1 := w.Snapshot();
    w.RunCommandSilent("cd " + serverDir + " && npm init -y");
    ghost var s2 := w.Snapshot();
    var deps, devDeps := CollectDependencies(c);
    w.RunCommand("cd " + serverDir + " && npm install " + JoinSpace(deps));
    ghost var s3 := w.Snapshot();
    DevDepsNonEmpty(c.useTypeScript);
    if |devDeps| > 0 {
      w.RunCommand("cd " + serverDir + " && npm install -D " + JoinSpace(devDeps));
    }
    ExecTrace(s0, w.oracle, plan, [s0, s1, s2, s3, w.Snapshot()]);
  }

  /** The folder structure under the server folder. */
  method CreateSourceFolders(w: FileSystem, serverDir: string, needsDatabase: bool)
    modifies w
    ensures w.Snapshot() == Exec(old(w.Snapshot()), w.oracle, FoldersPlan(serverDir, needsDatabase))
  {
    ghost var e := [MkDir(Under(serverDir, "src")), MkDir(Under(serverDir, "src/routes")),
                    MkDir(Under(serverDir, "src/controllers")), MkDir(Under(serverDir, "src/models")),
                    MkDir(Under(serverDir, "src/config"))];
    ghost var s0 := w.Snapshot();
    w.CreateFolder(Under(serverDir, "src"));
    ghost var s1 := w.Snapshot();
    w.CreateFolder(Under(serverDir, "src/routes"));
    ghost var s2 := w.Snapshot();
    w.CreateFolder(Under(serverDir, "src/controllers"));
    ghost var s3 := w.Snapshot();
    w.CreateFolder(Under(serverDir, "src/models"));
    ghost var s4 := w.Snapshot();
    if needsDatabase {
      w.CreateFolder(Under(serverDir, "src/config"));
      assert e == FoldersPlan(serverDir, needsDatabase);
      Exec5(s0, w.oracle, e);
    } else {
      assert e[..4] == FoldersPlan(serverDir, needsDatabase);
      ExecTrace(s0, w.oracle, e[..4], [s0, s1, s2, s3, s4]);
    }
  }

  /** The entry file and the two env files. */
  method WriteServerFiles(w: FileSystem, serverDir: string, c: Config)
    modifies w
    ensures w.Snapshot() == Exec(old(w.Snapshot()), w.oracle, FilesPlan(serverDir, c))
  {
    ghost var plan := FilesPlan(serverDir, c);
    ghost var s0 := w.Snapshot();
    var mainFile := if c.useTypeScript then "src/index.ts" else "src/index.js";
    var template := if c.backend == Some("express") then GetExpressTemplate(c.useTypeScript)
                    else GetHapiTemplate(c.useTypeScript);
    w.CreateFile(Under(serverDir, mainFile), Source(template));
    ghost var s1 := w.Snapshot();
    w.CreateFile(Under(serverDir, ".env"), Doc(EnvFile(c.needsDatabase)));
    ghost var s2 := w.Snapshot();
    w.CreateFile(Under(serverDir, ".env.example"), Doc(EnvFile(c.needsDatabase)));
    ExecTrace(s0, w.oracle, plan, [s0, s1, s2, w.Snapshot()]);
  }

  /** The manifest read, the scripts, `type` and `tsconfig.json`, and the
      manifest write. */
  method RewriteManifest(w: FileSystem, serverDir: string, useTypeScript: bool)
    modifies w
    ensures w.Snapshot() == Exec(old(w.Snapshot()), w.oracle, ManifestPlan(serverDir, useTypeScript))
  {
    ghost var plan := ManifestPlan(serverDir, useTypeScript);
    ghost var s0 := w.Snapshot();
    var packageJsonPath := Under(serverDir, "package.json");
    w.ReadJson(packageJsonPath);
    ghost var trace := [s0, w.Snapshot()];
    var scripts: map<string, string>;
    if useTypeScript {
      scripts := map["start" := "node dist/index.js", "dev" := "nodemon --exec ts-node src/index.ts", "build" := "tsc"];
      w.CreateFile(Under(serverDir, "tsconfig.json"), Record(TsConfig));
      trace := trace + [w.Snapshot()];
    } else {
      scripts := map["start" := "node src/index.js", "dev" := "nodemon src/index.js"];
    }
    assert scripts == Scripts(useTypeScript);
    w.EditAndWriteJson(packageJsonPath, ManifestEdit(scripts, useTypeScript));
    ExecTrace(s0, w.oracle, plan, trace + [w.Snapshot()]);
  }

  /** `generateBackend` */
  method GenerateBackend(w: FileSystem, projectName: string, c: Config)
    modifies w
    ensures w.Snapshot() == Exec(old(w.Snapshot()), w.oracle, BackendPlan(projectName, c))
  {
    ghost var s0 := w.Snapshot();
    var serverDir := Under(projectName, "server");
    SetUpServer(w, serverDir, c);
    ghost var s1 := w.Snapshot();
    CreateSourceFolders(w, serverDir, c.needsDatabase);
    ghost var s2 := w.Snapshot();
    WriteServerFiles(w, serverDir, c);
    ghost var s3 := w.Snapshot();
    RewriteManifest(w, serverDir, c.useTypeScript);
    BackendRun(w.oracle, projectName, c, s0, s1, s2, s3, w.Snapshot());
  }

  /** The four parts of `generateBackend`, run one after the other, are the
      run of the whole plan. */
  lemma BackendRun(o: Oracle, projectName: string, c: Config, s: State, s1: State, s2: State, s3: State, s4: State)
    requires s1 == Exec(s, o, SetupPlan(ServerDir(projectName), c))
    requires s2 == Exec(s1, o, FoldersPlan(ServerDir(projectName), c.needsDatabase))
    requires s3 == Exec(s2, o, FilesPlan(ServerDir(projectName), c))
    requires s4 == Exec(s3, o, ManifestPlan(ServerDir(projectName), c.useTypeScript))
    ensures s4 == Exec(s, o, BackendPlan(projectName, c))
  {
    var sd := ServerDir(projectName);
    var setup := SetupPlan(sd, c);
    var folders := FoldersPlan(sd, c.needsDatabase);
    var files := FilesPlan(sd, c);
    ExecAppend(s, o, setup, folders);
    ExecAppend(s, o, setup + folders, files);
    ExecAppend(s, o, setup + folders + files, ManifestPlan(sd, c.useTypeScript));
  }

  // ---------------------------------------------------------------------------
  // Dependencies
  // ---------------------------------------------------------------------------

  /** The runtime list is the framework package, its types under
      TypeScript, `dotenv`, then the driver packages, case by case; an
      unknown framework contributes nothing before `dotenv`. */
  lemma RuntimeDepsOrder(c: Config)
    ensures c.backend == Some("express") ==>
      RuntimeDeps(c) == ["express"] + (if c.useTypeScript then ["@types/express"] else []) + ["dotenv"] + DriverDeps(c)
    ensures c.backend == Some("hapi") ==>
      RuntimeDeps(c) == ["@hapi/hapi"] + (if c.useTypeScript then ["@types/hapi__hapi"] else []) + ["dotenv"] + DriverDeps(c)
    ensures c.backend != Some("express") && c.backend != Some("hapi") ==> RuntimeDeps(c) == ["dotenv"] + DriverDeps(c)
    ensures "dotenv" in RuntimeDeps(c)
  {
    assert RuntimeDeps(c)[|FrameworkDeps(c.backend, c.useTypeScript)|] == "dotenv";
  }

  /** No driver is installed without a needed database that has an entry in
      the table; otherwise the driver is the table's package, followed by
      `@types/pg` exactly for PostgreSQL under TypeScript. */
  lemma DriverDepsCases(c: Config)
    ensures DriverDeps(c) == [] <==> !c.needsDatabase || c.database !in {Some("postgresql"), Some("mysql"), Some("sqlite")}
    ensures c.needsDatabase && c.database == Some("postgresql") ==>
      DriverDeps(c) == ["pg"] + (if c.useTypeScript then ["@types/pg"] else [])
    ensures c.needsDatabase && c.database == Some("mysql") ==> DriverDeps(c) == ["mysql2"]
    ensures c.needsDatabase && c.database == Some("sqlite") ==> DriverDeps(c) == ["sqlite3"]
  {
  }

  /** `@types/pg` is installed exactly for PostgreSQL under TypeScript. */
  lemma TypesPgOnlyForPostgres(c: Config)
    ensures "@types/pg" in RuntimeDeps(c) <==> c.useTypeScript && c.needsDatabase && c.database == Some("postgresql")
  {
    DriverDepsCases(c);
    var f := FrameworkDeps(c.backend, c.useTypeScript);
    assert "@types/pg" !in f;
    assert "@types/pg" in RuntimeDeps(c) <==> "@types/pg" in DriverDeps(c);
  }

  /** The development list is never empty, so the second install always runs. */
  lemma DevDepsNonEmpty(useTypeScript: bool)
    ensures |DevDeps(useTypeScript)| > 0
    ensures DevDeps(useTypeScript)[|DevDeps(useTypeScript)| - 1] == "nodemon"
    ensures "typescript" in DevDeps(useTypeScript) <==> useTypeScript
  {
  }

  /** Every package of a list is named in its install command. */
  lemma InstallNamesEveryPackage(serverDir: string, deps: seq<string>, i: nat)
    requires i < |deps|
    ensures Contains(InstallCommand(serverDir, deps), deps[i])
    ensures Contains(InstallDevCommand(serverDir, deps), deps[i])
  {
    JoinSpaceContains(deps, i);
    ContainsRight("cd " + serverDir + " && npm install ", JoinSpace(deps), deps[i]);
    ContainsRight("cd " + serverDir + " && npm install -D ", JoinSpace(deps), deps[i]);
  }

  // ---------------------------------------------------------------------------
  // The plan
  // ---------------------------------------------------------------------------

  /** The server folder comes first and `npm init` is silent; the runtime
      install precedes the development install, and both are loud. */
  lemma BackendPlanSetup(projectName: string, c: Config)
    ensures BackendPlan(projectName, c)[0] == MkDir(Under(projectName, "server"))
    ensures BackendPlan(projectName, c)[1] == RunSilent(InitCommand(Under(projectName, "server")))
    ensures BackendPlan(projectName, c)[2] == RunLoud(InstallCommand(Under(projectName, "server"), RuntimeDeps(c)))
    ensures BackendPlan(projectName, c)[3] == RunLoud(InstallDevCommand(Under(projectName, "server"), DevDeps(c.useTypeScript)))
  {
  }

  /** The four fixed folders are always in the folder part, and
      `src/config` exactly when a database is needed. */
  lemma FoldersPlanContents(serverDir: string, needsDatabase: bool)
    ensures forall n :: n in ["src", "src/routes", "src/controllers", "src/models"]
              ==> MkDir(Under(serverDir, n)) in FoldersPlan(serverDir, needsDatabase)
    ensures MkDir(Under(serverDir, "src/config")) in FoldersPlan(serverDir, needsDatabase) <==> needsDatabase
  {
    var names := ["src", "src/routes", "src/controllers", "src/models"];
    var folders := FoldersPlan(serverDir, needsDatabase);
    forall n | n in names
      ensures MkDir(Under(serverDir, n)) in folders
    {
      var i :| 0 <= i < 4 && names[i] == n;
      assert folders[i] == MkDir(Under(serverDir, n));
    }
    if needsDatabase {
      assert folders[4] == MkDir(Under(serverDir, "src/config"));
    } else {
      forall i | 0 <= i < 4 ensures folders[i] != MkDir(Under(serverDir, "src/config")) {
        assert folders[i] == MkDir(Under(serverDir, names[i]));
        UnderInjective(serverDir, names[i], "src/config");
      }
    }
  }

  /** Outside the folder part, the only folder `generateBackend` creates is
      the server folder itself. */
  lemma OnlyServerFolderOutside(serverDir: string, c: Config)
    ensures forall e :: e in SetupPlan(serverDir, c) + FilesPlan(serverDir, c) + ManifestPlan(serverDir, c.useTypeScript) && e.MkDir?
              ==> e == MkDir(serverDir)
  {
  }

  /** Every folder is created under the server folder; `src/config` exactly
      when a database is needed, the other four always. */
  lemma BackendFolders(projectName: string, c: Config)
    ensures forall n :: n in ["src", "src/routes", "src/controllers", "src/models"]
              ==> MkDir(Under(ServerDir(projectName), n)) in BackendPlan(projectName, c)
    ensures MkDir(Under(ServerDir(projectName), "src/config")) in BackendPlan(projectName, c) <==> c.needsDatabase
  {
    var sd := ServerDir(projectName);
    var setup, folders, files, manifest := SetupPlan(sd, c), FoldersPlan(sd, c.needsDatabase), FilesPlan(sd, c), ManifestPlan(sd, c.useTypeScript);
    var config := MkDir(Under(sd, "src/config"));
    FoldersPlanContents(sd, c.needsDatabase);
    assert BackendPlan(projectName, c) == setup + folders + files + manifest;
    OnlyServerFolderOutside(sd, c);
    assert config != MkDir(sd) by {
      assert |Under(sd, "src/config")| > |sd|;
    }
    assert config !in setup + files + manifest;
  }

  /** The entry file is `src/index.ts` exactly under TypeScript; its body is
      Express exactly for `"express"`, Hapi for every other value, in the
      chosen language. */
  lemma EntryFileChoice(c: Config)
    ensures MainFile(c.useTypeScript) == "src/index.ts" <==> c.useTypeScript
    ensures EntryTemplate(c).ExpressServer? <==> c.backend == Some("express")
    ensures EntryTemplate(c).typeScript == c.useTypeScript
  {
  }

  /** `.env` and `.env.example` are written with the same content, one
      after the other, right after the entry file. */
  lemma EnvFilesIdentical(projectName: string, c: Config)
    ensures var plan := BackendPlan(projectName, c);
            var k := 4 + |FoldersPlan(ServerDir(projectName), c.needsDatabase)|;
            k + 2 < |plan|
            && plan[k + 1] == WriteFile(Under(ServerDir(projectName), ".env"), Doc(EnvFile(c.needsDatabase)))
            && plan[k + 2] == WriteFile(Under(ServerDir(projectName), ".env.example"), Doc(EnvFile(c.needsDatabase)))
            && plan[k + 1].content == plan[k + 2].content
  {
  }

  /** The manifest is read before `tsconfig.json` is written, the rewrite is
      the last effect, and `tsconfig.json` is written exactly under
      TypeScript. */
  lemma ManifestLast(projectName: string, c: Config)
    ensures var plan := BackendPlan(projectName, c);
            plan[|plan| - 1] == WriteManifest(Under(ServerDir(projectName), "package.json"), ManifestEditFor(c.useTypeScript))
            && (c.useTypeScript <==> plan[|plan| - 2].WriteFile? && plan[|plan| - 2].path == Under(ServerDir(projectName), "tsconfig.json"))
            && plan[|plan| - (if c.useTypeScript then 3 else 2)] == ReadManifest(Under(ServerDir(projectName), "package.json"))
  {
    var sd := ServerDir(projectName);
    if !c.useTypeScript {
      var plan := BackendPlan(projectName, c);
      assert plan[|plan| - 2] == ReadManifest(Under(sd, "package.json"));
    }
  }

  /** The rewritten manifest: TypeScript gets `start`, `dev` and `build` and
      `type: "module"`; JavaScript gets `start` and `dev` and keeps whatever
      `type` it had; every other key keeps its value. */
  lemma ManifestRewrite(m: map<string, Json>, useTypeScript: bool)
    ensures var r := ApplyEdit(m, ManifestEditFor(useTypeScript));
            r["scripts"].JObj?
            && r["scripts"].fields.Keys == (if useTypeScript then {"start", "dev", "build"} else {"start", "dev"})
            && (useTypeScript ==> r["type"] == JStr("module"))
            && (!useTypeScript ==> ("type" in r <==> "type" in m) && ("type" in m ==> r["type"] == m["type"]))
            && (forall k :: k in m && k != "scripts" && k != "type" ==> k in r && r[k] == m[k])
  {
  }
}
