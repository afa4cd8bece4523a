# genova-cli scaffolder, modelled in Dafny

genova-cli is an interactive scaffolder. It asks for a project name and a few
choices, then builds a `config` record. From that record it issues a fixed,
branch-driven sequence of side effects:
- folders created;
- `npm`, `npx` and `git` commands run, loudly or silently;
- files written;
- `package.json` parsed, edited and written back.

This project models that configuration-to-effects pipeline, with every side
effect represented as data.

- `Common`: nullable strings read with JavaScript truthiness, the path join
  `` `${dir}/${name}` ``, text made of lines, and the project-name character
  class.
- `Presets`: the `databaseDrivers` table.
- `Templates`: the template builders.
  - The `.env`, README and architecture builders are sequences of lines.
  - The Express and Hapi bodies are opaque values that record their framework
    and language.
  - `Document` names a generated text file by its template and arguments.
    `Render` gives its lines.
- `Effects`: the effects (`MkDir`, `RunLoud`, `RunSilent`, `WriteFile`,
  `ReadManifest`, `WriteManifest`) and their failure classes.
  - A failed loud command exits with status 1.
  - A failed silent command or file write is logged and the run goes on.
  - A failing `mkdirSync` or `package.json` access throws to `main`, which
    exits with status 1.
  - Their meaning on an abstract state is the pure `Step`, and `Exec` runs a
    sequence of them.
  - The class `FileSystem` holds the same state in fields. Its methods are
    the utility wrappers, and each is proved to be one `Step`.
  - An `Oracle` decides whether the n-th attempted effect succeeds, and what
    `npm init -y` left in `package.json`.
- `Configuration`: the `config` record and `needsDatabase`.
- `Frontend`, `Backend`, `Tooling`: the generators.
  - Each is a method on a `FileSystem`, in the order and with the branches of
    the source.
  - Each is proved to perform exactly the run (`Exec`) of a plan function: the
    list of effects it issues.
  - Lemmas about the plan functions state the ordering, containment and
    content properties.
- `Questions`: the project-name validator and `getUserInput`.
  - There is no prompt interface. The reply to each prompt is an input, and
    cancelling a prompt is one of the possible replies.
  - The name prompt asks again until the validator accepts a name.
    `TextPrompt` models this over the list of names typed.
- `Orchestrator`: `main` (`Run`).
  - It covers the folder check, the `config` record, and the three branches:
    frontend only, the fullstack monorepo, and the backend for every other
    project type.
  - It also covers the tooling block, git and the README.

The model follows the code where it is unusual:
- `needsDatabase` is false for a null or empty database as well as for
  `"none"` (`index.js:43`).
- The value `"vite"` that the frontend-only prompt produces selects no command
  in `generateFrontend`.

## Model

| member | source | states |
|---|---|---|
| Common.Under | src/generators/backend.js:17 | `${dir}/${name}` is `dir`, a slash, then `name`, with the length that implies |
| Common.UnderInjective | src/generators/backend.js:64-67 | two names under one directory give the same path exactly when the names are equal |
| Presets.DriverPackage | src/config/presets.js:2-15 | the lookup finds a driver exactly for the three keys: `postgresql` → `pg`, `mysql` → `mysql2`, `sqlite` → `sqlite3` |
| Presets.DriverTableKeys | src/config/presets.js:2-15 | the table has exactly three keys, so `none` and the empty key have no entry |
| Presets.DriverPackagesDistinct | src/config/presets.js:2-15 | distinct keys have distinct packages |
| Presets.DriverDisplayNames | src/config/presets.js:3-14 | the display names are PostgreSQL, MySQL and SQLite |
| Configuration.NeedsDatabase | index.js:43 | true exactly when a database is chosen, it is not the empty string, and it is not `none` |
| Templates.GetExpressTemplate | src/templates/server.js:4-51 | yields the Express body of the requested language |
| Templates.GetHapiTemplate | src/templates/server.js:56-129 | yields the Hapi body of the requested language |
| Templates.ServerTemplatesDistinct | src/templates/server.js:4-129 | each selector is injective in its flag, and no Express body equals a Hapi body |
| Templates.RenderEnv | src/templates/server.js:134-152 | one rendered line per entry, in order |
| Templates.GetEnvTemplate | src/templates/server.js:134-152 | the method that appends the database block when asked yields the lines of the `.env` template: 3 lines without a database, 10 with one |
| Templates.EnvWithoutDatabaseIsPrefix | src/templates/server.js:135-149 | the text without a database is a strict prefix of the text with one |
| Templates.EnvKeysByDatabase | src/templates/server.js:135-148 | the keys are PORT and NODE_ENV, plus the five `DB_*` keys exactly when a database is needed |
| Templates.EnvValues | src/templates/server.js:135-148 | PORT=3000, NODE_ENV=development and, with a database, DB_HOST=localhost and DB_PORT=5432 |
| Templates.EnvNoDatabaseValues | src/templates/server.js:140-149 | without a database no `DB_*` key has a value |
| Templates.GetGitignoreTemplate | src/templates/server.js:157-189 | the constant ignores `node_modules/`, `package-lock.json`, `.env`, `dist/`, `build/`, `*.log` and `coverage/` |
| Templates.TreeEntry | src/templates/server.js:208-216 | a tree line starts with the branch glyph and the entry name, is blank up to column 21, and from there holds `# ` and the note |
| Templates.FrontendLabel | src/templates/server.js:259-263 | "React + Vite + TypeScript" exactly for `vite-react-ts`, and "Next.js + TypeScript" otherwise |
| Templates.BackendLabel | src/templates/server.js:267-269 | "Hapi.js" exactly for `hapi`, and "Express.js" otherwise |
| Templates.GetReadmeTemplate | src/templates/server.js:194-283 | the method, which appends each block under its condition, yields the README's lines |
| Templates.ReadmeStartsWithTitle | src/templates/server.js:197 | the README starts with the line `# <projectName>` |
| Templates.ReadmeClientEntry | src/templates/server.js:207-209 | for a valid project name, there is a `client/` tree line exactly when a frontend is set |
| Templates.ReadmeServerEntry | src/templates/server.js:211-213 | for a valid project name, there is a `server/` tree line exactly when a backend is set |
| Templates.ReadmeConfigureHint | src/templates/server.js:238-251 | the "Configure database" hint appears exactly when a backend is set and a database is needed |
| Templates.ReadmeDatabaseLine | src/templates/server.js:272-274 | the database line, which always reads PostgreSQL, appears exactly when a database is needed |
| Templates.ReadmeStackLabels | src/templates/server.js:258-270 | the tech-stack lines carry the frontend and backend labels when those are set |
| Templates.GetArchitectureDocTemplate | src/templates/server.js:315-355 | the method that appends the layer lines yields the architecture document |
| Templates.ArchitectureLayers | src/templates/server.js:318-352 | fixed intro and outro, with one layer line per set frontend, set backend and needed database between them; the server layer names the backend; the database layer appears exactly when a database is needed |
| Effects.ExitCode | index.js:137-140 | the status is 0 or 1, and it is 1 exactly when the run has halted |
| Effects.ApplyEdit | src/generators/backend.js:89-121 | `scripts` replaced, `type` set to `module` only when asked, and every other key kept |
| Effects.StepFrame | src/utils/files.js:7-22 | one effect never removes a folder or file, adds at most its own folder, changes only the file it writes, and can halt only if fatal |
| Effects.StepFailures | src/utils/commands.js:7-25 | failure by kind: a loud command halts and logs the command; a silent command logs the command and continues; a failed file write logs the path, leaves the files unchanged and continues; a successful write stores the content; a folder that exists is left alone, a folder that cannot be made halts and logs the path; an unreadable or missing manifest halts and logs the path |
| Effects.ExecAppend | index.js:61-132 | running two plans one after the other is running their concatenation |
| Effects.HaltedAbsorbs | src/utils/commands.js:12 | after exit nothing more happens |
| Effects.ExecAttempts | src/utils/commands.js:7-14 | a run attempts a prefix of its plan, and all of it unless it exits; it exits only on a fatal effect |
| Effects.NonFatalNeverHalts | src/utils/commands.js:19-25 | a plan of silent commands and file writes never ends the run |
| Effects.ExecMonotone | src/utils/files.js:7-22 | folders and files are never removed, and an existing file not targeted by the plan keeps its content |
| Effects.FileSystem.FolderExists | src/utils/files.js:27-29 | true exactly when a folder or a file is at the path |
| Effects.FileSystem.CreateFolder | src/utils/files.js:18-22 | one `MkDir` step: a no-op when the path exists, fatal on failure |
| Effects.FileSystem.RunCommand | src/utils/commands.js:7-14 | one loud step: a failure logs the command and halts |
| Effects.FileSystem.RunCommandSilent | src/utils/commands.js:19-25 | one silent step: a failure logs the command and continues |
| Effects.FileSystem.CreateFile | src/utils/files.js:7-13 | one write step: a failure is logged and swallowed |
| Effects.FileSystem.ReadJson | src/generators/backend.js:86-87 | parses the manifest, or halts when it is unreadable |
| Effects.FileSystem.EditAndWriteJson | src/generators/backend.js:89-121 | applies the edit to the parsed manifest and writes it; fatal on failure |
| Frontend.FrontendCommand | src/generators/frontend.js:10-15 | the command is non-empty exactly for `vite-react-ts` and `nextjs` |
| Frontend.GenerateFrontend | src/generators/frontend.js:7-18 | exactly one loud command, the selected one, and nothing else |
| Frontend.ViteCommandShape | src/generators/frontend.js:11-12 | the Vite command names the path right after the tool and asks for `react-ts` |
| Frontend.NextCommandFlags | src/generators/frontend.js:13-14 | the Next.js command always has `--ts` and `--no-git`, whatever language was chosen |
| Frontend.ViteChoiceRunsEmptyCommand | src/generators/frontend.js:10-17 | the value `vite` runs the empty command |
| Backend.CollectDependencies | src/generators/backend.js:27-56 | the method's successive pushes yield the runtime and dev lists of the specification functions |
| Backend.RuntimeDepsOrder | src/generators/backend.js:30-50 | framework package, its `@types` under TypeScript, `dotenv`, then the driver; an unknown framework gives `dotenv` plus the driver; `dotenv` is always there |
| Backend.DriverDepsCases | src/generators/backend.js:44-50 | no driver package, exactly when no database is needed or the key is not in the table; `pg` (+ `@types/pg` under TypeScript), `mysql2`, `sqlite3` otherwise |
| Backend.TypesPgOnlyForPostgres | src/generators/backend.js:47-49 | `@types/pg` is installed exactly when TypeScript is on and the database needs the `pg` driver |
| Backend.DevDepsNonEmpty | src/generators/backend.js:52-61 | the dev list is never empty and ends with `nodemon`, so the second loud install always runs; `typescript` is in it exactly under TypeScript |
| Backend.InstallNamesEveryPackage | src/generators/backend.js:58-60 | each install command names every package of its list |
| Backend.SetUpServer | src/generators/backend.js:21-61 | exactly: the server folder, silent `npm init -y`, the runtime install, then the dev install |
| Backend.CreateSourceFolders | src/generators/backend.js:64-70 | exactly: the four source folders, then `src/config` when a database is needed |
| Backend.WriteServerFiles | src/generators/backend.js:72-83 | exactly: the entry file, `.env`, then `.env.example` |
| Backend.RewriteManifest | src/generators/backend.js:86-121 | exactly: read the manifest, write `tsconfig.json` under TypeScript, then write the manifest back |
| Backend.GenerateBackend | src/generators/backend.js:15-122 | exactly the run of the backend plan |
| Backend.BackendRun | src/generators/backend.js:15-122 | the four phases of `generateBackend` run in sequence are the run of the whole plan |
| Backend.BackendPlanSetup | src/generators/backend.js:21-61 | the first four effects are mkdir server, silent init, loud install, loud dev install |
| Backend.FoldersPlanContents | src/generators/backend.js:64-70 | `src`, `routes`, `controllers` and `models` are always created; `src/config` exactly when a database is needed |
| Backend.OnlyServerFolderOutside | src/generators/backend.js:21 | outside the folder phase, the only folder created is the server folder |
| Backend.BackendFolders | src/generators/backend.js:17-70 | the same facts on the whole backend plan, all under `<projectName>/server` |
| Backend.EntryFileChoice | src/generators/backend.js:73-79 | the entry file is `src/index.ts` exactly under TypeScript; the Express template exactly for `express`, Hapi otherwise |
| Backend.EnvFilesIdentical | src/generators/backend.js:82-83 | `.env` and `.env.example` get identical content |
| Backend.ManifestLast | src/generators/backend.js:86-121 | the manifest is read, `tsconfig.json` is written exactly under TypeScript, and the manifest write is the last effect |
| Backend.ManifestRewrite | src/generators/backend.js:89-119 | TypeScript: scripts `start`, `dev` and `build`, with `type` set to `module`; otherwise `start` and `dev` only, with `type` untouched; other fields kept |
| Tooling.EslintRecord | src/generators/tooling.js:12-27 | an object, with a `parser` key exactly when a parser is set |
| Tooling.AddESLint | src/generators/tooling.js:8-37 | the method builds the preset list and the parser locally (one push and one assignment under TypeScript), then constructs the record once, and performs exactly the ESLint plan |
| Tooling.EslintRun | src/generators/tooling.js:10-36 | the three observable steps of `addESLint` make up the run of its plan |
| Tooling.EslintConfigShape | src/generators/tooling.js:12-31 | base env `node`/`es2021` and empty rules; `extends` gains the plugin preset under TypeScript; `parser` exactly under TypeScript; the exact key set |
| Tooling.EslintPlanOrder | src/generators/tooling.js:10-36 | the loud install comes first, the config write to `.eslintrc.json` comes last, and nothing after the install is fatal |
| Tooling.AddPrettier | src/generators/tooling.js:42-58 | exactly: the loud install, then the config write |
| Tooling.PrettierConfigShape | src/generators/tooling.js:44-57 | exactly the five settings with their values, written after a loud install |
| Tooling.InitializeGit | src/generators/tooling.js:63-67 | exactly: silent `git init`, then the `.gitignore` write |
| Tooling.GitNeverHalts | src/generators/tooling.js:65-66 | git never ends the run; the `.gitignore` write is always attempted and lands exactly when it succeeds |
| Questions.Validate | src/prompts/questions.js:12-20 | accepts exactly a non-empty name of `[a-z0-9-_]` characters whose folder does not exist |
| Questions.ValidationPrecedence | src/prompts/questions.js:12-20 | the message is that of the first failing check, in the order empty, pattern, exists; the three messages differ |
| Questions.PatternIsCheckedBeforeExistence | src/prompts/questions.js:14-19 | a name with a bad character gets the pattern message whether or not its folder exists |
| Questions.TextPrompt | src/prompts/questions.js:9-26 | cancelled exactly when every typed name is rejected; otherwise yields the first accepted name, which is valid |
| Questions.TextPromptAppend | src/prompts/questions.js:9-21 | names after an accepted one are never read; rejected names only delay the answer |
| Questions.AskedAfterFullstack | src/prompts/questions.js:54-185 | four further prompts for fullstack; one for a frontend project and four for any other type |
| Questions.AnswersFor | src/prompts/questions.js:7-189 | the answers the replies produce: the accepted name, tooling defaults on, and per branch the fields taken from its prompts |
| Questions.GetUserInput | src/prompts/questions.js:7-189 | aborts exactly when the name is never accepted or a reached prompt is cancelled; otherwise `AnswersFor` holds and the name is valid |
| Orchestrator.MakeConfig | index.js:37-47 | every field is copied from the answers, and `needsDatabase` is set exactly for a non-empty database other than `none` |
| Orchestrator.ApplyTooling | index.js:80-90 | exactly the tooling plan for the server folder |
| Orchestrator.FinishProject | index.js:93-99 | exactly: git when asked, then the README write |
| Orchestrator.GenerateFullstack | index.js:61-104 | exactly the fullstack plan |
| Orchestrator.GenerateBackendOnly | index.js:106-136 | exactly the backend-only plan |
| Orchestrator.Generate | index.js:52-136 | exactly the plan of the chosen branch |
| Orchestrator.Scaffold | index.js:28-140 | a taken folder gives status 1 with nothing done; otherwise exactly the branch's plan, status 1 exactly if it halted |
| Orchestrator.Run | index.js:22-141 | status 0 with nothing done after a cancel; otherwise the answers are `AnswersFor` the replies and the outcome is as `Scaffold` for them |
| Orchestrator.FullstackRun | index.js:61-99 | the six fullstack phases, run in sequence, are the run of the fullstack plan |
| Orchestrator.BackendOnlyRun | index.js:106-132 | the four backend-only phases, run in sequence, are the run of the backend-only plan |
| Orchestrator.BackendConfigKeepsChoices | index.js:71-74 | the nested backend's config differs from `config` only in `projectType`, which is `backend` |
| Orchestrator.FrontendProjectRunsOneCommand | index.js:53-58 | a frontend project issues one loud command and no folder or file |
| Orchestrator.FrontendAnswersRunEmptyCommand | index.js:55 | the answers the frontend-only replies produce (frontend `vite`) make `main` run the empty command |
| Orchestrator.OtherTypesTakeBackendBranch | index.js:106-110 | every other project type, none included, takes the backend branch: project folder, then the backend plan |
| Orchestrator.FullstackOrder | index.js:61-76 | fullstack: mkdir root, frontend command in `<p>/frontend`, then mkdir `<p>/backend` |
| Orchestrator.ToolingPlanShape | index.js:113-123 | no tooling exactly when neither tool is asked for; ESLint, if asked for, comes first; Prettier, if asked for, is last; without ESLint the plan is the Prettier plan or nothing |
| Orchestrator.FinishPlanShape | index.js:126-132 | `git init` then `.gitignore` at the root when asked, and the README at `<p>/README.md` last |
| Orchestrator.ReadmeIsLast | index.js:93-99 | with a server, the last effect of `main` is the README write with the chosen options |
| Orchestrator.ValidatedNameIsFree | index.js:31-34 | a name the prompt accepted does not exist in a file system no larger than the one it was validated against |

## Left out

- Prompt rendering, the spinner, the banner, coloured logging and the final
  `cd` hint are output only. Cancellation and the name prompt's re-asking are
  modelled as inputs (`Replies`, `TextPrompt`).
- `execSync`, `npm`, `npx`, `git` and the real file system are represented by
  an oracle. What the external scaffolding tools create on disk is not
  modelled.
- Logged messages keep only the failing command or path, not their decorated
  text.
- `mkdirSync(…, { recursive: true })` is modelled as adding the one requested
  path. The ancestor folders it would also create are not tracked.
- The bodies of the Express, Hapi and gitignore templates are opaque values.
  The gitignore value is the line list. `getCodebaseReadmeTemplate` is never
  called by `main` and is not part of this model.
- Written text files are recorded as the template and the arguments that
  produce them (`Document`); their lines are `Render(doc)`.
- `JSON.stringify` formatting and key order are not modelled. The ESLint,
  Prettier, tsconfig and manifest contents are records (`Json`).
- Exit statuses are 0 and 1 only. `process.exit` is the `halted` flag.
- The asynchronous `await` structure is not modelled; the prompts are answered
  in order.
- `databaseDrivers[database]` on keys inherited from JavaScript's object
  prototype is not modelled: the prompts only offer the table's keys and
  `none`.
- The third argument that `main` passes to `generateFrontend` is not a
  parameter, because `generateFrontend` ignores it.
- `useCodebase` is always false in the README options, because `config` has
  no such field.
- Templates.ReadmeClientEntry, ReadmeServerEntry, ReadmeConfigureHint,
  ReadmeDatabaseLine: these require a project name of admitted characters,
  which every name `main` receives is. For other names the facts are not
  stated.
- Frontend.GenerateFrontend: whether the empty command that `vite` selects
  succeeds is left to the oracle. Node's `execSync` rejects an empty command,
  so in practice a frontend-only run exits with status 1.
- Questions.GetUserInput: the `folderExists` calls made during validation
  answer from one fixed set of names (`existing`). The file system is not
  re-read between keystrokes.
