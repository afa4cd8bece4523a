/** The file templates. Text templates are sequences of lines; the file text
    is `Text(lines)`, each line followed by a newline, which is exactly the
    string the builders accumulate. The server entry files are opaque bodies
    named by framework and language. */
module Templates {
  import opened Common

  // ---------------------------------------------------------------------------
  // Server entry files (opaque bodies)
  // ---------------------------------------------------------------------------

  /** The body of a server entry file; its text is not part of the model. */
  datatype ServerTemplate = ExpressServer(typeScript: bool) | HapiServer(typeScript: bool)

  /** `getExpressTemplate(useTypeScript)` */
  function GetExpressTemplate(useTypeScript: bool): (t: ServerTemplate)
    ensures t.ExpressServer? && t.typeScript == useTypeScript
  {
    ExpressServer(useTypeScript)
  }

  /** `getHapiTemplate(useTypeScript)` */
  function GetHapiTemplate(useTypeScript: bool): (t: ServerTemplate)
    ensures t.HapiServer? && t.typeScript == useTypeScript
  {
    HapiServer(useTypeScript)
  }

  /** The TypeScript and JavaScript variants of each framework differ, and
      no Express body is a Hapi body. */
  lemma ServerTemplatesDistinct(a: bool, b: bool)
    ensures GetExpressTemplate(a) == GetExpressTemplate(b) <==> a == b
    ensures GetHapiTemplate(a) == GetHapiTemplate(b) <==> a == b
    ensures GetExpressTemplate(a) != GetHapiTemplate(b)
  {
  }

  // ---------------------------------------------------------------------------
  // .env
  // ---------------------------------------------------------------------------

  /** One line of a dotenv file. */
  datatype EnvEntry = Blank | Comment(text: string) | Assign(key: string, value: string)

  function RenderEnvEntry(e: EnvEntry): string {
    match e
    case Blank => ""
    case Comment(t) => "# " + t
    case Assign(k, v) => k + "=" + v
  }

  function RenderEnv(entries: seq<EnvEntry>): (lines: seq<string>)
    ensures |lines| == |entries|
    ensures forall i :: 0 <= i < |entries| ==> lines[i] == RenderEnvEntry(entries[i])
  {
    seq(|entries|, i requires 0 <= i < |entries| => RenderEnvEntry(entries[i]))
  }

  const EnvServerBlock: seq<EnvEntry> := [
    Comment("Server Configuration"),
    Assign("PORT", "3000"),
    Assign("NODE_ENV", "development")
  ]

  const EnvDatabaseBlock: seq<EnvEntry> := [
    Blank,
    Comment("Database Configuration"),
    Assign("DB_HOST", "localhost"),
    Assign("DB_PORT", "5432"),
    Assign("DB_NAME", "your_database"),
    Assign("DB_USER", "your_username"),
    Assign("DB_PASSWORD", "your_password")
  ]

  /** The entries of `getEnvTemplate(needsDatabase)`. */
  function EnvEntries(needsDatabase: bool): seq<EnvEntry> {
    EnvServerBlock + (if needsDatabase then EnvDatabaseBlock else [])
  }

  /** The lines of `getEnvTemplate(needsDatabase)`. */
  function EnvLines(needsDatabase: bool): seq<string> {
    RenderEnv(EnvEntries(needsDatabase))
  }

  /** `getEnvTemplate`: the server block, then the database block when a
      database is needed. */
  method GetEnvTemplate(needsDatabase: bool) returns (content: seq<string>)
    ensures content == EnvLines(needsDatabase)
    ensures |content| == if needsDatabase then 10 else 3
  {
    content := RenderEnv(EnvServerBlock);
    if needsDatabase {
      content := content + RenderEnv(EnvDatabaseBlock);
    }
    assert content == RenderEnv(EnvEntries(needsDatabase));
  }

  /** The keys a dotenv file assigns. */
  function EnvKeys(entries: seq<EnvEntry>): set<string> {
    set i | 0 <= i < |entries| && entries[i].Assign? :: entries[i].key
  }

  /** How a dotenv loader reads a key: the value of the first entry that
      assigns it, or nothing when no entry does. */
  function EnvValue(entries: seq<EnvEntry>, key: string): Option<string>
    decreases |entries|
  {
    if entries == [] then None
    else if entries[0].Assign? && entries[0].key == key then Some(entries[0].value)
    else EnvValue(entries[1..], key)
  }

  /** The first entry that assigns `key` gives its value. */
  lemma {:induction false} EnvValueAt(entries: seq<EnvEntry>, key: string, i: nat)
    requires i < |entries| && entries[i].Assign? && entries[i].key == key
    requires forall j :: 0 <= j < i ==> !(entries[j].Assign? && entries[j].key == key)
    ensures EnvValue(entries, key) == Some(entries[i].value)
    decreases i
  {
    if i > 0 {
      assert !(entries[0].Assign? && entries[0].key == key);
      EnvValueAt(entries[1..], key, i - 1);
    }
  }

  lemma {:induction false} EnvValueMissing(entries: seq<EnvEntry>, key: string)
    requires key !in EnvKeys(entries)
    ensures EnvValue(entries, key).None?
    decreases |entries|
  {
    if entries != [] {
      assert entries[0].Assign? ==> entries[0].key in EnvKeys(entries);
      assert EnvKeys(entries[1..]) <= EnvKeys(entries) by {
        forall k | k in EnvKeys(entries[1..]) ensures k in EnvKeys(entries) {
          var j :| 0 <= j < |entries| - 1 && entries[1..][j].Assign? && entries[1..][j].key == k;
          assert entries[j + 1] == entries[1..][j];
        }
      }
      EnvValueMissing(entries[1..], key);
    }
  }

  lemma {:induction false} RenderEnvAppend(a: seq<EnvEntry>, b: seq<EnvEntry>)
    ensures RenderEnv(a + b) == RenderEnv(a) + RenderEnv(b)
  {
  }

  /** The text without a database is a proper prefix of the text with one. */
  lemma EnvWithoutDatabaseIsPrefix()
    ensures Text(EnvLines(false)) < Text(EnvLines(true))
  {
    assert EnvEntries(false) == EnvServerBlock;
    RenderEnvAppend(EnvServerBlock, EnvDatabaseBlock);
    TextStrictPrefix(RenderEnv(EnvServerBlock), RenderEnv(EnvDatabaseBlock));
  }

  /** PORT and NODE_ENV are always set; the DB_* keys appear exactly when a
      database is needed. */
  lemma EnvKeysByDatabase(needsDatabase: bool)
    ensures EnvKeys(EnvEntries(needsDatabase)) ==
      {"PORT", "NODE_ENV"}
      + (if needsDatabase then {"DB_HOST", "DB_PORT", "DB_NAME", "DB_USER", "DB_PASSWORD"} else {})
  {
    var e := EnvEntries(needsDatabase);
    var expected := {"PORT", "NODE_ENV"}
      + (if needsDatabase then {"DB_HOST", "DB_PORT", "DB_NAME", "DB_USER", "DB_PASSWORD"} else {});
    assert e[1].key == "PORT" && e[2].key == "NODE_ENV";
    if needsDatabase {
      assert e[5].key == "DB_HOST" && e[6].key == "DB_PORT" && e[7].key == "DB_NAME";
      assert e[8].key == "DB_USER" && e[9].key == "DB_PASSWORD";
    }
    assert expected <= EnvKeys(e);
    forall k | k in EnvKeys(e) ensures k in expected {
      var j :| 0 <= j < |e| && e[j].Assign? && e[j].key == k;
    }
  }

  /** The values: port 3000 in development, and with a database the host is
      localhost and the port 5432. */
  lemma EnvValues(needsDatabase: bool)
    ensures EnvValue(EnvEntries(needsDatabase), "PORT") == Some("3000")
    ensures EnvValue(EnvEntries(needsDatabase), "NODE_ENV") == Some("development")
    ensures needsDatabase ==> EnvValue(EnvEntries(needsDatabase), "DB_HOST") == Some("localhost")
    ensures needsDatabase ==> EnvValue(EnvEntries(needsDatabase), "DB_PORT") == Some("5432")
  {
    var e := EnvEntries(needsDatabase);
    EnvValueAt(e, "PORT", 1);
    EnvValueAt(e, "NODE_ENV", 2);
    if needsDatabase {
      EnvValueAt(e, "DB_HOST", 5);
      EnvValueAt(e, "DB_PORT", 6);
    }
  }

  /** Without a database no DB_* key has a value. */
  lemma EnvNoDatabaseValues(key: string)
    requires key in {"DB_HOST", "DB_PORT", "DB_NAME", "DB_USER", "DB_PASSWORD"}
    ensures EnvValue(EnvEntries(false), key).None?
  {
    EnvKeysByDatabase(false);
    EnvValueMissing(EnvEntries(false), key);
  }

  // ---------------------------------------------------------------------------
  // .gitignore
  // ---------------------------------------------------------------------------

  const GitignoreLines: seq<string> := [
    "# Dependencies", "node_modules/", "package-lock.json", "yarn.lock", "pnpm-lock.yaml", "",
    "# Environment", ".env", ".env.local", ".env.*.local", "",
    "# Build outputs", "dist/", "build/", "*.log", "",
    "# IDE", ".vscode/", ".idea/", "*.swp", "*.swo", "*~", "",
    "# OS", ".DS_Store", "Thumbs.db", "",
    "# Testing", "coverage/", ".nyc_output/"
  ]

  /** `getGitignoreTemplate()`: a constant that ignores dependencies,
      lockfiles, env files, build outputs, logs and coverage. */
  function GetGitignoreTemplate(): (lines: seq<string>)
    ensures "node_modules/" in lines && "package-lock.json" in lines
    ensures ".env" in lines && "dist/" in lines && "build/" in lines
    ensures "*.log" in lines && "coverage/" in lines
  {
    GitignoreLines
  }

  // ---------------------------------------------------------------------------
  // README.md and the architecture document
  // ---------------------------------------------------------------------------

  /** The options object the README and architecture builders destructure. */
  datatype TemplateOptions = TemplateOptions(
    frontend: Option<string>,
    backend: Option<string>,
    needsDatabase: bool,
    useCodebase: bool)

  /** `n` spaces. */
  function Spaces(n: nat): (s: string)
    ensures |s| == n && forall i :: 0 <= i < n ==> s[i] == ' '
  {
    seq(n, _ => ' ')
  }

  /** A line of the project tree: a branch, the entry's name padded to a
      17-column field, and a `#` comment. */
  function TreeEntry(name: string, note: string): (l: string)
    requires |name| <= 17
    ensures |l| == 23 + |note| && l[0] == '├'
    ensures l[..4 + |name|] == "├── " + name
    ensures forall i :: 4 + |name| <= i < 21 ==> l[i] == ' '
    ensures l[21..] == "# " + note
  {
    "├── " + name + Spaces(17 - |name|) + "# " + note
  }

  const ClientEntry: string := TreeEntry("client/", "Front-end application (")
  const ServerEntry: string := TreeEntry("server/", "Back-end API (")
  const CodebaseEntry: string := TreeEntry("#codebase/", "Documentation and code references")
  const ConfigureHint: string := "# Configure database in .env"
  const DatabaseStackLine: string := "- **Database:** PostgreSQL"
  const FrontendStackPrefix: string := "- **Front-end:** "
  const BackendStackPrefix: string := "- **Back-end:** "

  /** The tech-stack label of a frontend choice: only `vite-react-ts` reads
      as Vite; every other value, `vite` included, reads as Next.js. */
  function FrontendLabel(frontend: string): (name: string)
    ensures name == "React + Vite + TypeScript" <==> frontend == "vite-react-ts"
    ensures name == "Next.js + TypeScript" <==> frontend != "vite-react-ts"
  {
    if frontend == "vite-react-ts" then "React + Vite + TypeScript" else "Next.js + TypeScript"
  }

  /** The tech-stack label of a backend choice: Hapi for `hapi`, Express
      for every other value. */
  function BackendLabel(backend: string): (name: string)
    ensures name == "Hapi.js" <==> backend == "hapi"
    ensures name == "Express.js" <==> backend != "hapi"
  {
    if backend == "hapi" then "Hapi.js" else "Express.js"
  }

  function ReadmeHeader(projectName: string): seq<string> {
    ["# " + projectName, "", "This project was " + "created using **Genova CLI**.", "",
     "## Project Structure", "", "```", projectName + "/"]
  }

  function ClientTreeLine(o: TemplateOptions): seq<string> {
    if Truthy(o.frontend) then [ClientEntry + o.frontend.value + ")"] else []
  }

  function ServerTreeLine(o: TemplateOptions): seq<string> {
    if Truthy(o.backend) then [ServerEntry + o.backend.value + ")"] else []
  }

  function CodebaseTreeLine(o: TemplateOptions): seq<string> {
    if o.useCodebase then [CodebaseEntry] else []
  }

  const ReadmeTreeEnd: seq<string> := ["└── README.md", "```", "", "## Getting Started", ""]

  const FrontendStepsBlock: seq<string> :=
    ["### Front-end", "", "```bash", "cd client", "npm install", "npm run dev", "```", ""]

  function ReadmeFrontendSteps(o: TemplateOptions): seq<string> {
    if Truthy(o.frontend) then FrontendStepsBlock else []
  }

  const BackendStepsStart: seq<string> := ["### Back-end", "", "```bash", "cd server", "npm install"]
  const BackendStepsEnd: seq<string> := ["npm run dev", "```", ""]

  function ReadmeBackendSteps(o: TemplateOptions): seq<string> {
    if Truthy(o.backend) then
      BackendStepsStart + (if o.needsDatabase then [ConfigureHint] else []) + BackendStepsEnd
    else []
  }

  const TechStackHeading: seq<string> := ["## Tech Stack", ""]

  function FrontendStackLine(o: TemplateOptions): seq<string> {
    if Truthy(o.frontend) then [FrontendStackPrefix + FrontendLabel(o.frontend.value)] else []
  }

  function BackendStackLine(o: TemplateOptions): seq<string> {
    if Truthy(o.backend) then [BackendStackPrefix + BackendLabel(o.backend.value)] else []
  }

  function DatabaseStackLines(o: TemplateOptions): seq<string> {
    if o.needsDatabase then [DatabaseStackLine] else []
  }

  const ReadmeLicense: seq<string> := ["", "## License", "", "MIT License"]

  /** The lines of `getReadmeTemplate(projectName, options)`, block by block. */
  function ReadmeLines(projectName: string, o: TemplateOptions): seq<string> {
    ReadmeHeader(projectName)
    + ClientTreeLine(o) + ServerTreeLine(o) + CodebaseTreeLine(o) + ReadmeTreeEnd
    + ReadmeFrontendSteps(o) + ReadmeBackendSteps(o)
    + TechStackHeading + FrontendStackLine(o) + BackendStackLine(o) + DatabaseStackLines(o)
    + ReadmeLicense
  }

  /** `getReadmeTemplate`: the content grows block by block, each optional
      block guarded by the truthiness of its option. */
  method GetReadmeTemplate(projectName: string, o: TemplateOptions) returns (content: seq<string>)
    ensures content == ReadmeLines(projectName, o)
  {
    content := ReadmeHeader(projectName);
    if Truthy(o.frontend) {
      content := content + [ClientEntry + o.frontend.value + ")"];
    }
    assert content == ReadmeHeader(projectName) + ClientTreeLine(o);
    if Truthy(o.backend) {
      content := content + [ServerEntry + o.backend.value + ")"];
    }
    ghost var sofar := ReadmeHeader(projectName) + ClientTreeLine(o) + ServerTreeLine(o);
    assert content == sofar;
    if o.useCodebase {
      content := content + [CodebaseEntry];
    }
    sofar := sofar + CodebaseTreeLine(o);
    assert content == sofar;
    content := content + ReadmeTreeEnd;
    sofar := sofar + ReadmeTreeEnd;
    if Truthy(o.frontend) {
      content := content + FrontendStepsBlock;
    }
    sofar := sofar + ReadmeFrontendSteps(o);
    assert content == sofar;
    if Truthy(o.backend) {
      content := content + BackendStepsStart;
      if o.needsDatabase {
        content := content + [ConfigureHint];
      }
      content := content + BackendStepsEnd;
    }
    sofar := sofar + ReadmeBackendSteps(o);
    assert content == sofar;
    content := content + TechStackHeading;
    sofar := sofar + TechStackHeading;
    if Truthy(o.frontend) {
      content := content + [FrontendStackPrefix + FrontendLabel(o.frontend.value)];
    }
    sofar := sofar + FrontendStackLine(o);
    assert content == sofar;
    if Truthy(o.backend) {
      content := content + [BackendStackPrefix + BackendLabel(o.backend.value)];
    }
    sofar := sofar + BackendStackLine(o);
    assert content == sofar;
    if o.needsDatabase {
      content := content + [DatabaseStackLine];
    }
    sofar := sofar + DatabaseStackLines(o);
    assert content == sofar;
    content := content + ReadmeLicense;
  }

  /** The README opens with the project title. */
  lemma ReadmeStartsWithTitle(projectName: string, o: TemplateOptions)
    ensures ReadmeLines(projectName, o)[0] == "# " + projectName
    ensures StartsWith(Text(ReadmeLines(projectName, o)), "# " + projectName + "\n")
  {
    var lines := ReadmeLines(projectName, o);
    assert lines[0] == "# " + projectName;
    assert Text(lines) == lines[0] + "\n" + Text(lines[1..]);
    assert Text(lines)[..|"# " + projectName + "\n"|] == "# " + projectName + "\n";
  }

  /** `l` does not begin with a box-drawing branch. */
  predicate NoBranch(l: string) {
    |l| == 0 || l[0] != '├'
  }

  lemma NoBranchNotStarting(l: string, prefix: string)
    requires |prefix| > 0 && prefix[0] == '├' && NoBranch(l)
    ensures !StartsWith(l, prefix)
  {
    if |prefix| <= |l| {
      assert l[..|prefix|][0] == l[0];
    }
  }

  /** A block of branch-free lines adds no line that begins with a branch. */
  lemma NoBranchSuffix(a: seq<string>, b: seq<string>, prefix: string)
    requires |prefix| > 0 && prefix[0] == '├'
    requires forall i :: 0 <= i < |b| ==> NoBranch(b[i])
    ensures HasLineStarting(a + b, prefix) <==> HasLineStarting(a, prefix)
  {
    HasLineStartingAppend(a, b, prefix);
    forall i | 0 <= i < |b|
      ensures !StartsWith(b[i], prefix)
    {
      NoBranchNotStarting(b[i], prefix);
    }
  }

  lemma HeaderHasNoBranch(projectName: string)
    requires NameChars(projectName)
    ensures forall i :: 0 <= i < |ReadmeHeader(projectName)| ==> NoBranch(ReadmeHeader(projectName)[i])
  {
    var t := "# " + projectName;
    assert t[0] == '#';
    var r := projectName + "/";
    if |projectName| > 0 {
      assert r[0] == projectName[0] && NameChar(projectName[0]);
    } else {
      assert r == "/";
    }
    var created := "This project was " + "created using **Genova CLI**.";
    assert created[0] == 'T';
    assert ReadmeHeader(projectName) == [t, "", created, "", "## Project Structure", "", "```", r];
  }

  lemma BodyBlocksHaveNoBranch(o: TemplateOptions)
    ensures forall i :: 0 <= i < |ReadmeTreeEnd| ==> NoBranch(ReadmeTreeEnd[i])
    ensures forall i :: 0 <= i < |ReadmeFrontendSteps(o)| ==> NoBranch(ReadmeFrontendSteps(o)[i])
    ensures forall i :: 0 <= i < |ReadmeBackendSteps(o)| ==> NoBranch(ReadmeBackendSteps(o)[i])
    ensures forall i :: 0 <= i < |TechStackHeading| ==> NoBranch(TechStackHeading[i])
    ensures forall i :: 0 <= i < |FrontendStackLine(o)| ==> NoBranch(FrontendStackLine(o)[i])
    ensures forall i :: 0 <= i < |BackendStackLine(o)| ==> NoBranch(BackendStackLine(o)[i])
    ensures forall i :: 0 <= i < |DatabaseStackLines(o)| ==> NoBranch(DatabaseStackLines(o)[i])
    ensures forall i :: 0 <= i < |ReadmeLicense| ==> NoBranch(ReadmeLicense[i])
  {
    if Truthy(o.frontend) {
      assert (FrontendStackPrefix + FrontendLabel(o.frontend.value))[0] == '-';
    }
    if Truthy(o.backend) {
      assert (BackendStackPrefix + BackendLabel(o.backend.value))[0] == '-';
    }
  }

  /** Whether the README has a line beginning with `prefix` (a tree-entry
      prefix) is decided by the three tree blocks alone. */
  lemma ReadmeBranchLines(projectName: string, o: TemplateOptions, prefix: string)
    requires NameChars(projectName)
    requires |prefix| > 0 && prefix[0] == '├'
    ensures HasLineStarting(ReadmeLines(projectName, o), prefix)
        <==> HasLineStarting(ClientTreeLine(o) + ServerTreeLine(o) + CodebaseTreeLine(o), prefix)
  {
    HeaderHasNoBranch(projectName);
    BodyBlocksHaveNoBranch(o);
    var h := ReadmeHeader(projectName);
    var t := ClientTreeLine(o) + ServerTreeLine(o) + CodebaseTreeLine(o);
    var l3 := h + ClientTreeLine(o) + ServerTreeLine(o) + CodebaseTreeLine(o);
    assert l3 == h + t;
    HasLineStartingAppend(h, t, prefix);
    NoBranchSuffix([], h, prefix);
    assert [] + h == h;
    var l4 := l3 + ReadmeTreeEnd;
    NoBranchSuffix(l3, ReadmeTreeEnd, prefix);
    var l5 := l4 + ReadmeFrontendSteps(o);
    NoBranchSuffix(l4, ReadmeFrontendSteps(o), prefix);
    var l6 := l5 + ReadmeBackendSteps(o);
    NoBranchSuffix(l5, ReadmeBackendSteps(o), prefix);
    var l7 := l6 + TechStackHeading;
    NoBranchSuffix(l6, TechStackHeading, prefix);
    var l8 := l7 + FrontendStackLine(o);
    NoBranchSuffix(l7, FrontendStackLine(o), prefix);
    var l9 := l8 + BackendStackLine(o);
    NoBranchSuffix(l8, BackendStackLine(o), prefix);
    var l10 := l9 + DatabaseStackLines(o);
    NoBranchSuffix(l9, DatabaseStackLines(o), prefix);
    var l11 := l10 + ReadmeLicense;
    NoBranchSuffix(l10, ReadmeLicense, prefix);
    assert l11 == ReadmeLines(projectName, o);
  }

  /** A tree entry begins with `├── ` and its own name, and with no other
      name of the same length. */
  lemma TreeEntryPrefix(name: string, note: string, other: string)
    requires |name| <= 17 && |other| == |name|
    ensures StartsWith(TreeEntry(name, note), "├── " + other) <==> other == name
  {
    var l := TreeEntry(name, note);
    if StartsWith(l, "├── " + other) {
      assert other == ("├── " + other)[4..] == l[..4 + |name|][4..] == name;
    }
  }

  lemma SingletonStarting(l: string, prefix: string)
    ensures HasLineStarting([l], prefix) <==> StartsWith(l, prefix)
  {
    if StartsWith(l, prefix) {
      assert [l][0] == l;
    }
  }

  /** Which of `client/` and `server/` the three tree blocks list. */
  lemma TreeBlocksStarting(o: TemplateOptions, name: string)
    requires name == "client/" || name == "server/"
    ensures HasLineStarting(ClientTreeLine(o) + ServerTreeLine(o) + CodebaseTreeLine(o), "├── " + name)
        <==> (Truthy(o.frontend) && name == "client/") || (Truthy(o.backend) && name == "server/")
  {
    var pre := "├── " + name;
    HasLineStartingAppend(ClientTreeLine(o) + ServerTreeLine(o), CodebaseTreeLine(o), pre);
    HasLineStartingAppend(ClientTreeLine(o), ServerTreeLine(o), pre);
    if Truthy(o.frontend) {
      SingletonStarting(ClientEntry + o.frontend.value + ")", pre);
      assert ClientEntry + o.frontend.value + ")" == TreeEntry("client/", "Front-end application (" + o.frontend.value + ")");
      TreeEntryPrefix("client/", "Front-end application (" + o.frontend.value + ")", name);
    }
    if Truthy(o.backend) {
      SingletonStarting(ServerEntry + o.backend.value + ")", pre);
      assert ServerEntry + o.backend.value + ")" == TreeEntry("server/", "Back-end API (" + o.backend.value + ")");
      TreeEntryPrefix("server/", "Back-end API (" + o.backend.value + ")", name);
    }
    if o.useCodebase {
      SingletonStarting(CodebaseEntry, pre);
      var l := CodebaseEntry;
      assert l[..4 + |"#codebase/"|] == "├── #codebase/";
      assert l[4] == l[..4 + |"#codebase/"|][4] == '#';
      DiffersAt(l, pre, 4);
    }
  }

  /** The tree lists `client/` exactly when a frontend is configured. */
  lemma ReadmeClientEntry(projectName: string, o: TemplateOptions)
    requires NameChars(projectName)
    ensures HasLineStarting(ReadmeLines(projectName, o), "├── client/") <==> Truthy(o.frontend)
  {
    ReadmeBranchLines(projectName, o, "├── " + "client/");
    TreeBlocksStarting(o, "client/");
  }

  /** The tree lists `server/` exactly when a backend is configured. */
  lemma ReadmeServerEntry(projectName: string, o: TemplateOptions)
    requires NameChars(projectName)
    ensures HasLineStarting(ReadmeLines(projectName, o), "├── server/") <==> Truthy(o.backend)
  {
    ReadmeBranchLines(projectName, o, "├── " + "server/");
    TreeBlocksStarting(o, "server/");
  }

  lemma HintNotInHeader(projectName: string)
    requires NameChars(projectName)
    ensures ConfigureHint !in ReadmeHeader(projectName)
  {
    var title := "# " + projectName;
    if |projectName| > 0 {
      assert title[2] == projectName[0] && NameChar(projectName[0]);
      DiffersAt(title, ConfigureHint, 2);
    }
    var root := projectName + "/";
    if |projectName| > 0 {
      assert root[0] == projectName[0] && NameChar(projectName[0]);
      DiffersAt(root, ConfigureHint, 0);
    } else {
      assert root == "/";
    }
  }

  lemma HintNotInTreeOrStack(o: TemplateOptions)
    ensures ConfigureHint !in ClientTreeLine(o) + ServerTreeLine(o) + CodebaseTreeLine(o)
    ensures ConfigureHint !in FrontendStackLine(o) + BackendStackLine(o)
  {
    if Truthy(o.frontend) {
      assert (ClientEntry + o.frontend.value + ")")[0] == '├';
      assert (FrontendStackPrefix + FrontendLabel(o.frontend.value))[0] == '-';
    }
    if Truthy(o.backend) {
      assert (ServerEntry + o.backend.value + ")")[0] == '├';
      assert (BackendStackPrefix + BackendLabel(o.backend.value))[0] == '-';
    }
    assert CodebaseEntry[0] == '├';
  }

  /** The database hint is written only inside the backend steps, and only
      when a database is used. */
  lemma ReadmeConfigureHint(projectName: string, o: TemplateOptions)
    requires NameChars(projectName)
    ensures ConfigureHint in ReadmeLines(projectName, o) <==> Truthy(o.backend) && o.needsDatabase
  {
    HintNotInHeader(projectName);
    HintNotInTreeOrStack(o);
    assert ConfigureHint !in ReadmeTreeEnd + ReadmeFrontendSteps(o);
    assert ConfigureHint !in TechStackHeading + DatabaseStackLines(o) + ReadmeLicense;
    assert ConfigureHint in ReadmeBackendSteps(o) <==> Truthy(o.backend) && o.needsDatabase;
  }

  lemma DatabaseLineNotInHeader(projectName: string)
    requires NameChars(projectName)
    ensures DatabaseStackLine !in ReadmeHeader(projectName)
  {
    var title := "# " + projectName;
    assert title[0] == '#';
    DiffersAt(title, DatabaseStackLine, 0);
    var root := projectName + "/";
    if |projectName| > 1 {
      assert root[1] == projectName[1] && NameChar(projectName[1]);
      DiffersAt(root, DatabaseStackLine, 1);
    } else if |projectName| == 1 {
      assert root[1] == '/';
      DiffersAt(root, DatabaseStackLine, 1);
    } else {
      assert root == "/";
    }
  }

  lemma DatabaseLineNotInStack(o: TemplateOptions)
    ensures DatabaseStackLine !in FrontendStackLine(o) + BackendStackLine(o)
  {
    if Truthy(o.frontend) {
      var l := FrontendStackPrefix + FrontendLabel(o.frontend.value);
      assert l[4] == 'F';
      DiffersAt(l, DatabaseStackLine, 4);
    }
    if Truthy(o.backend) {
      var l := BackendStackPrefix + BackendLabel(o.backend.value);
      assert l[4] == 'B';
      DiffersAt(l, DatabaseStackLine, 4);
    }
  }

  lemma DatabaseLineNotInTree(o: TemplateOptions)
    ensures DatabaseStackLine !in ClientTreeLine(o) + ServerTreeLine(o) + CodebaseTreeLine(o)
  {
    if Truthy(o.frontend) {
      assert (ClientEntry + o.frontend.value + ")")[0] == '├';
    }
    if Truthy(o.backend) {
      assert (ServerEntry + o.backend.value + ")")[0] == '├';
    }
    assert CodebaseEntry[0] == '├';
  }

  /** The stack section names a database, always PostgreSQL, exactly when a
      database is used; which database was chosen plays no part. */
  lemma ReadmeDatabaseLine(projectName: string, o: TemplateOptions)
    requires NameChars(projectName)
    ensures DatabaseStackLine in ReadmeLines(projectName, o) <==> o.needsDatabase
  {
    DatabaseLineNotInHeader(projectName);
    DatabaseLineNotInStack(o);
    DatabaseLineNotInTree(o);
    assert DatabaseStackLine !in ReadmeTreeEnd + ReadmeFrontendSteps(o) + ReadmeBackendSteps(o);
    assert DatabaseStackLine !in TechStackHeading + ReadmeLicense;
  }

  /** The tech-stack section carries the label of each configured part. */
  lemma ReadmeStackLabels(projectName: string, o: TemplateOptions)
    ensures Truthy(o.frontend) ==> FrontendStackPrefix + FrontendLabel(o.frontend.value) in ReadmeLines(projectName, o)
    ensures Truthy(o.backend) ==> BackendStackPrefix + BackendLabel(o.backend.value) in ReadmeLines(projectName, o)
  {
  }

  const ArchitectureIntro: seq<string> := [
    "# Project Architecture", "", "## Overview", "",
    "This document explains the application architecture.", "", "## Layers", ""
  ]

  const ArchitectureOutro: seq<string> := [
    "", "## Data Flow", "", "[Describe your application data flow here]", "",
    "## Best Practices", "", "- Use TypeScript for type safety",
    "- Implement proper error handling", "- Write tests for critical features"
  ]

  const ClientLayerPrefix: string := "- **Client**: Front-end layer using "
  const ServerLayerPrefix: string := "- **Server**: Back-end API using "
  const DatabaseLayerLine: string := "- **Database**: PostgreSQL"

  /** The lines of `getArchitectureDocTemplate(config)`. */
  function ArchitectureLines(o: TemplateOptions): seq<string> {
    ArchitectureIntro
    + (if Truthy(o.frontend) then
         [ClientLayerPrefix + (if o.frontend.value == "vite-react-ts" then "React + Vite" else "Next.js")]
       else [])
    + (if Truthy(o.backend) then [ServerLayerPrefix + o.backend.value] else [])
    + (if o.needsDatabase then [DatabaseLayerLine] else [])
    + ArchitectureOutro
  }

  /** `getArchitectureDocTemplate`: one layer line per configured part. */
  method GetArchitectureDocTemplate(o: TemplateOptions) returns (content: seq<string>)
    ensures content == ArchitectureLines(o)
  {
    content := ArchitectureIntro;
    if Truthy(o.frontend) {
      content := content + [ClientLayerPrefix + (if o.frontend.value == "vite-react-ts" then "React + Vite" else "Next.js")];
    }
    if Truthy(o.backend) {
      content := content + [ServerLayerPrefix + o.backend.value];
    }
    if o.needsDatabase {
      content := content + [DatabaseLayerLine];
    }
    content := content + ArchitectureOutro;
  }

  /** The architecture document keeps its fixed opening and closing and
      lists one layer per configured part, in the order client, server,
      database. */
  lemma ArchitectureLayers(o: TemplateOptions)
    ensures ArchitectureLines(o)[..|ArchitectureIntro|] == ArchitectureIntro
    ensures ArchitectureLines(o)[|ArchitectureLines(o)| - |ArchitectureOutro|..] == ArchitectureOutro
    ensures |ArchitectureLines(o)| == |ArchitectureIntro| + |ArchitectureOutro|
      + (if Truthy(o.frontend) then 1 else 0) + (if Truthy(o.backend) then 1 else 0)
      + (if o.needsDatabase then 1 else 0)
    ensures Truthy(o.backend) ==> ServerLayerPrefix + o.backend.value in ArchitectureLines(o)
    ensures DatabaseLayerLine in ArchitectureLines(o) <==> o.needsDatabase
  {
    if Truthy(o.frontend) {
      var l := ClientLayerPrefix + (if o.frontend.value == "vite-react-ts" then "React + Vite" else "Next.js");
      assert l[4] == 'C';
      DiffersAt(l, DatabaseLayerLine, 4);
    }
    if Truthy(o.backend) {
      var l := ServerLayerPrefix + o.backend.value;
      assert l[4] == 'S';
      DiffersAt(l, DatabaseLayerLine, 4);
    }
  }

  // ---------------------------------------------------------------------------
  // Documents written to disk
  // ---------------------------------------------------------------------------

  /** A generated text file, named by the template that builds it and the
      arguments it was called with. */
  datatype Document = EnvFile(needsDatabase: bool) | GitignoreFile | ReadmeFile(projectName: string, options: TemplateOptions)

  /** The lines of a document: what its template returns. */
  function Render(d: Document): seq<string> {
    match d
    case EnvFile(needsDatabase) => EnvLines(needsDatabase)
    case GitignoreFile => GitignoreLines
    case ReadmeFile(projectName, options) => ReadmeLines(projectName, options)
  }
}
