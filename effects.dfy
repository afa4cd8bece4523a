/** The side effects of the scaffolder as data, their meaning on an abstract
    file system, and a file-system object whose methods are the utility
    wrappers `createFolder`, `createFile`, `runCommand` and
    `runCommandSilent`, plus the two unwrapped `fs` calls the backend
    generator makes on `package.json`.

    Whether an operation succeeds in the world is not decided by the model:
    an `Oracle` answers for the n-th attempted effect, and supplies the
    manifest that `npm init -y` left behind. */
module Effects {
  import opened Common
  import opened Templates

  /** What a created file holds: a generated document (its text is
      `Render(doc)`), an opaque server entry body, or a JSON record
      serialised by `JSON.stringify`. */
  datatype Content = Doc(doc: Document) | Source(template: ServerTemplate) | Record(json: Json)

  /** The edit `generateBackend` applies to the parsed `package.json`:
      replace `scripts`, and set `type` to `"module"` when asked. */
  datatype ManifestEdit = ManifestEdit(scripts: map<string, string>, setModule: bool)

  datatype Effect =
    | MkDir(path: string)                             // createFolder
    | RunLoud(command: string)                        // runCommand
    | RunSilent(command: string)                      // runCommandSilent
    | WriteFile(path: string, content: Content)       // createFile
    | ReadManifest(path: string)                      // JSON.parse(fs.readFileSync(path))
    | WriteManifest(path: string, edit: ManifestEdit) // fs.writeFileSync(path, JSON.stringify(edited))

  /** The effects whose failure ends the run with exit status 1: a loud
      command exits itself; `mkdirSync` and the two `package.json` calls
      throw, and `main` catches and exits. */
  predicate Fatal(e: Effect) {
    e.RunLoud? || e.MkDir? || e.ReadManifest? || e.WriteManifest?
  }

  /** The world's answers: whether the n-th attempted effect succeeds, and
      the parsed manifest found at a path (`None`: unreadable or not JSON). */
  datatype Oracle = Oracle(succeeds: nat -> bool, manifestAt: string -> Option<map<string, Json>>)

  /** The observable state: directories and files on disk, the in-memory
      parsed manifest, the effects attempted so far, the failures logged,
      and whether the process has exited with status 1. */
  datatype State = State(
    dirs: set<string>,
    files: map<string, Content>,
    manifest: Option<map<string, Json>>,
    attempted: seq<Effect>,
    errors: seq<string>,
    halted: bool)

  /** `fs.existsSync(path)`: a directory or a file. */
  predicate Exists(s: State, path: string) {
    path in s.dirs || path in s.files
  }

  function ExitCode(s: State): (code: int)
    ensures code == 0 || code == 1
    ensures code == 1 <==> s.halted
  {
    if s.halted then 1 else 0
  }

  /** The manifest after the edit: `scripts` replaced, `type` set to
      `"module"` only when asked, every other key untouched. */
  function ApplyEdit(m: map<string, Json>, edit: ManifestEdit): (r: map<string, Json>)
    ensures r.Keys == m.Keys + {"scripts"} + (if edit.setModule then {"type"} else {})
    ensures r["scripts"] == JObj(map k | k in edit.scripts :: JStr(edit.scripts[k]))
    ensures edit.setModule ==> r["type"] == JStr("module")
    ensures forall k :: k in m && k != "scripts" && (k != "type" || !edit.setModule) ==> r[k] == m[k]
  {
    var scripts := JObj(map k | k in edit.scripts :: JStr(edit.scripts[k]));
    if edit.setModule then m["scripts" := scripts]["type" := JStr("module")] else m["scripts" := scripts]
  }

  /** The path an effect writes, if any. */
  function Target(e: Effect): Option<string> {
    match e
    case WriteFile(p, _) => Some(p)
    case WriteManifest(p, _) => Some(p)
    case _ => None
  }

  /** One effect. Once the process has exited nothing happens; otherwise the
      effect is attempted and the oracle decides its outcome. */
  function Step(s: State, o: Oracle, e: Effect): State {
    if s.halted then s
    else
      var ok := o.succeeds(|s.attempted|);
      var s1 := s.(attempted := s.attempted + [e]);
      match e
      case MkDir(p) =>
        if Exists(s, p) then s1
        else if ok then s1.(dirs := s.dirs + {p})
        else s1.(errors := s.errors + [p], halted := true)
      case RunLoud(c) =>
        if ok then s1 else s1.(errors := s.errors + [c], halted := true)
      case RunSilent(c) =>
        if ok then s1 else s1.(errors := s.errors + [c])
      case WriteFile(p, content) =>
        if ok then s1.(files := s.files[p := content]) else s1.(errors := s.errors + [p])
      case ReadManifest(p) =>
        if o.manifestAt(p).None? then s1.(errors := s.errors + [p], halted := true)
        else s1.(manifest := o.manifestAt(p))
      case WriteManifest(p, edit) =>
        if s.manifest.None? then s1.(errors := s.errors + [p], halted := true)
        else
          var edited := ApplyEdit(s.manifest.value, edit);
          if ok then s1.(manifest := Some(edited), files := s.files[p := Record(JObj(edited))])
          else s1.(manifest := Some(edited), errors := s.errors + [p], halted := true)
  }

  /** What one effect can change: an exited process stays as it is; a
      running one records the attempt, exits only on a fatal effect, never
      removes a directory or a file, adds at most the directory it was
      asked for, and changes no file but the one it writes. */
  lemma StepFrame(s: State, o: Oracle, e: Effect)
    ensures s.halted ==> Step(s, o, e) == s
    ensures !s.halted ==> Step(s, o, e).attempted == s.attempted + [e]
    ensures Step(s, o, e).halted ==> s.halted || Fatal(e)
    ensures s.dirs <= Step(s, o, e).dirs && s.files.Keys <= Step(s, o, e).files.Keys
    ensures Step(s, o, e).dirs != s.dirs ==> e.MkDir? && Step(s, o, e).dirs == s.dirs + {e.path}
    ensures forall p :: p in Step(s, o, e).files && (p !in s.files || Step(s, o, e).files[p] != s.files[p])
                     ==> Target(e) == Some(p)
  {
  }

  /** How each kind of effect fails in a running process: a loud command
      logs and exits; a silent command and a file write log and carry on,
      the write leaving the files as they were; a folder that is already
      there is left alone whatever the world would say; an unreadable
      manifest, or a rewrite with none parsed, throws and ends the run. */
  lemma StepFailures(s: State, o: Oracle, e: Effect)
    requires !s.halted
    ensures e.RunLoud? && !o.succeeds(|s.attempted|)
            ==> Step(s, o, e).halted && Step(s, o, e).errors == s.errors + [e.command]
    ensures e.RunSilent? && !o.succeeds(|s.attempted|)
            ==> !Step(s, o, e).halted && Step(s, o, e).errors == s.errors + [e.command]
    ensures e.WriteFile? && !o.succeeds(|s.attempted|)
            ==> !Step(s, o, e).halted && Step(s, o, e).files == s.files
                && Step(s, o, e).errors == s.errors + [e.path]
    ensures e.WriteFile? && o.succeeds(|s.attempted|)
            ==> Step(s, o, e).files == s.files[e.path := e.content]
    ensures e.MkDir? && Exists(s, e.path)
            ==> Step(s, o, e) == s.(attempted := s.attempted + [e])
    ensures e.MkDir? && !Exists(s, e.path) && !o.succeeds(|s.attempted|)
            ==> Step(s, o, e).halted && Step(s, o, e).errors == s.errors + [e.path]
    ensures e.ReadManifest? && o.manifestAt(e.path).None?
            ==> Step(s, o, e).halted && Step(s, o, e).errors == s.errors + [e.path]
    ensures e.WriteManifest? && s.manifest.None?
            ==> Step(s, o, e).halted && Step(s, o, e).errors == s.errors + [e.path]
  {
  }

  /** A sequence of effects, in order. */
  function Exec(s: State, o: Oracle, es: seq<Effect>): State
    decreases |es|
  {
    if es == [] then s else Step(Exec(s, o, es[..|es| - 1]), o, es[|es| - 1])
  }

  lemma ExecSnoc(s: State, o: Oracle, es: seq<Effect>, e: Effect)
    ensures Exec(s, o, es + [e]) == Step(Exec(s, o, es), o, e)
  {
    assert (es + [e])[..|es|] == es;
  }

  /** A plan's run is the last of a trace of states in which each state is
      the step of the one before it under the next effect. */
  lemma {:induction false} ExecTrace(s: State, o: Oracle, es: seq<Effect>, trace: seq<State>)
    requires |trace| == |es| + 1 && trace[0] == s
    requires forall i :: 0 <= i < |es| ==> trace[i + 1] == Step(trace[i], o, es[i])
    ensures Exec(s, o, es) == trace[|es|]
    decreases |es|
  {
    if es != [] {
      ExecTrace(s, o, es[..|es| - 1], trace[..|es|]);
    }
  }

  lemma Exec5(s: State, o: Oracle, es: seq<Effect>)
    requires |es| == 5
    ensures Exec(s, o, es) == Step(Step(Step(Step(Step(s, o, es[0]), o, es[1]), o, es[2]), o, es[3]), o, es[4])
  {
    var t1 := Step(s, o, es[0]);
    var t2 := Step(t1, o, es[1]);
    var t3 := Step(t2, o, es[2]);
    var t4 := Step(t3, o, es[3]);
    ExecTrace(s, o, es, [s, t1, t2, t3, t4, Step(t4, o, es[4])]);
  }

  /** Running two plans one after the other is running their concatenation. */
  lemma {:induction false} ExecAppend(s: State, o: Oracle, a: seq<Effect>, b: seq<Effect>)
    ensures Exec(s, o, a + b) == Exec(Exec(s, o, a), o, b)
    decreases |b|
  {
    if b == [] {
      assert a + b == a;
    } else {
      var b0 := b[..|b| - 1];
      var e := b[|b| - 1];
      assert b == b0 + [e];
      assert a + b == (a + b0) + [e];
      ExecSnoc(s, o, a + b0, e);
      ExecAppend(s, o, a, b0);
      ExecSnoc(Exec(s, o, a), o, b0, e);
    }
  }

  /** After exit nothing more happens. */
  lemma {:induction false} HaltedAbsorbs(s: State, o: Oracle, es: seq<Effect>)
    requires s.halted
    ensures Exec(s, o, es) == s
    decreases |es|
  {
    if es != [] {
      HaltedAbsorbs(s, o, es[..|es| - 1]);
    }
  }

  /** A run attempts a prefix of its plan and, unless it exits, the whole
      plan; it exits only if it was already halted or some fatal effect of
      the plan failed. */
  lemma {:induction false} ExecAttempts(s: State, o: Oracle, es: seq<Effect>)
    requires !s.halted
    ensures exists k :: 0 <= k <= |es| && Exec(s, o, es).attempted == s.attempted + es[..k]
    ensures !Exec(s, o, es).halted ==> Exec(s, o, es).attempted == s.attempted + es
    ensures Exec(s, o, es).halted ==> exists i :: 0 <= i < |es| && Fatal(es[i])
    decreases |es|
  {
    if es == [] {
      assert s.attempted + es[..0] == s.attempted;
    } else {
      var es0 := es[..|es| - 1];
      var e := es[|es| - 1];
      ExecAttempts(s, o, es0);
      var t := Exec(s, o, es0);
      StepFrame(t, o, e);
      var k :| 0 <= k <= |es0| && t.attempted == s.attempted + es0[..k];
      assert es0[..k] == es[..k];
      if t.halted {
        assert Exec(s, o, es) == t;
        var i :| 0 <= i < |es0| && Fatal(es0[i]);
        assert es[i] == es0[i];
      } else {
        assert t.attempted == s.attempted + es0;
        assert Exec(s, o, es).attempted == s.attempted + es[..|es|];
        if Exec(s, o, es).halted {
          assert Fatal(es[|es| - 1]);
        }
      }
    }
  }

  /** A plan of non-fatal effects never ends the run, whatever fails. */
  lemma NonFatalNeverHalts(s: State, o: Oracle, es: seq<Effect>)
    requires !s.halted
    requires forall i :: 0 <= i < |es| ==> !Fatal(es[i])
    ensures !Exec(s, o, es).halted
    ensures Exec(s, o, es).attempted == s.attempted + es
  {
    ExecAttempts(s, o, es);
  }

  /** Directories and files are never removed, and only written paths change. */
  lemma {:induction false} ExecMonotone(s: State, o: Oracle, es: seq<Effect>)
    ensures s.dirs <= Exec(s, o, es).dirs
    ensures s.files.Keys <= Exec(s, o, es).files.Keys
    ensures forall p :: p in s.files && (forall i :: 0 <= i < |es| ==> Target(es[i]) != Some(p))
                     ==> Exec(s, o, es).files[p] == s.files[p]
    decreases |es|
  {
    if es != [] {
      var es0 := es[..|es| - 1];
      ExecMonotone(s, o, es0);
      StepFrame(Exec(s, o, es0), o, es[|es| - 1]);
      forall p | p in s.files && (forall i :: 0 <= i < |es| ==> Target(es[i]) != Some(p))
        ensures Exec(s, o, es).files[p] == s.files[p]
      {
        forall i | 0 <= i < |es0| ensures Target(es0[i]) != Some(p) {
          assert es0[i] == es[i];
        }
        assert Target(es[|es| - 1]) != Some(p);
      }
    }
  }

  /** The file-system object. Its fields are the observable state, and
      each method is one `Step` of the semantics above. */
  class FileSystem {
    var dirs: set<string>
    var files: map<string, Content>
    var manifest: Option<map<string, Json>>
    var attempted: seq<Effect>
    var errors: seq<string>
    var halted: bool
    const oracle: Oracle

    function Snapshot(): State
      reads this
    {
      State(dirs, files, manifest, attempted, errors, halted)
    }

    /** A fresh process over existing directories and files. */
    constructor (dirs0: set<string>, files0: map<string, Content>, oracle0: Oracle)
      ensures oracle == oracle0
      ensures Snapshot() == State(dirs0, files0, None, [], [], false)
    {
      dirs, files, manifest, attempted, errors, halted := dirs0, files0, None, [], [], false;
      oracle := oracle0;
    }

    /** `folderExists(path)` */
    function FolderExists(path: string): (b: bool)
      reads this
      ensures b <==> Exists(Snapshot(), path)
    {
      path in dirs || path in files
    }

    /** `createFolder(path)`: nothing when the path exists; otherwise
        `mkdirSync`, whose failure throws and ends the run. */
    method CreateFolder(path: string)
      modifies this
      ensures Snapshot() == Step(old(Snapshot()), oracle, MkDir(path))
    {
      ghost var before := Snapshot();
      if !halted {
        var ok := oracle.succeeds(|attempted|);
        attempted := attempted + [MkDir(path)];
        if path in dirs || path in files {
        } else if ok {
          dirs := dirs + {path};
        } else {
          errors := errors + [path];
          halted := true;
        }
      }
      assert Snapshot() == Step(before, oracle, MkDir(path));
    }

    /** `runCommand(command)`: a failure is logged and exits with status 1. */
    method RunCommand(command: string)
      modifies this
      ensures Snapshot() == Step(old(Snapshot()), oracle, RunLoud(command))
    {
      ghost var before := Snapshot();
      if !halted {
        var ok := oracle.succeeds(|attempted|);
        attempted := attempted + [RunLoud(command)];
        if !ok {
          errors := errors + [command];
          halted := true;
        }
      }
      assert Snapshot() == Step(before, oracle, RunLoud(command));
    }

    /** `runCommandSilent(command)`: a failure is logged and the run goes on. */
    method RunCommandSilent(command: string)
      modifies this
      ensures Snapshot() == Step(old(Snapshot()), oracle, RunSilent(command))
    {
      ghost var before := Snapshot();
      if !halted {
        var ok := oracle.succeeds(|attempted|);
        attempted := attempted + [RunSilent(command)];
        if !ok {
          errors := errors + [command];
        }
      }
      assert Snapshot() == Step(before, oracle, RunSilent(command));
    }

    /** `createFile(path, content)`: a failed write is logged and swallowed. */
    method CreateFile(path: string, content: Content)
      modifies this
      ensures Snapshot() == Step(old(Snapshot()), oracle, WriteFile(path, content))
    {
      ghost var before := Snapshot();
      if !halted {
        var ok := oracle.succeeds(|attempted|);
        attempted := attempted + [WriteFile(path, content)];
        if ok {
          files := files[path := content];
        } else {
          errors := errors + [path];
        }
      }
      assert Snapshot() == Step(before, oracle, WriteFile(path, content));
    }

    /** `JSON.parse(fs.readFileSync(path, "utf8"))`, unguarded: a missing or
        malformed manifest throws and ends the run. */
    method ReadJson(path: string)
      modifies this
      ensures Snapshot() == Step(old(Snapshot()), oracle, ReadManifest(path))
    {
      ghost var before := Snapshot();
      if !halted {
        attempted := attempted + [ReadManifest(path)];
        var found := oracle.manifestAt(path);
        if found.None? {
          errors := errors + [path];
          halted := true;
        } else {
          manifest := found;
        }
      }
      assert Snapshot() == Step(before, oracle, ReadManifest(path));
    }

    /** The edit of the parsed manifest followed by the unguarded
        `fs.writeFileSync(path, JSON.stringify(packageJson))`. */
    method EditAndWriteJson(path: string, edit: ManifestEdit)
      modifies this
      ensures Snapshot() == Step(old(Snapshot()), oracle, WriteManifest(path, edit))
    {
      ghost var before := Snapshot();
      if !halted {
        var ok := oracle.succeeds(|attempted|);
        attempted := attempted + [WriteManifest(path, edit)];
        if manifest.None? {
          errors := errors + [path];
          halted := true;
        } else {
          var edited := ApplyEdit(manifest.value, edit);
          manifest := Some(edited);
          if ok {
            files := files[path := Record(JObj(edited))];
          } else {
            errors := errors + [path];
            halted := true;
          }
        }
      }
      assert Snapshot() == Step(before, oracle, WriteManifest(path, edit));
    }
  }
}
