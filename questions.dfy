/** `getUserInput`: project-name validation and the assembly of the answers
    record from the replies given at each prompt. */
module Questions {
  import opened Common

  /** What a prompt hands back: the user's choice, or the cancel symbol. */
  datatype Reply<T> = Cancelled | Answer(value: T)

  /** The user's side of the dialogue. `names` are the names typed at the
      project-name prompt, in order: the prompt asks again after each name
      its validator rejects, so running out of names means the user
      cancelled there. Each select prompt has its reply; the replies of
      prompts the dialogue never reaches play no part. */
  datatype Replies = Replies(
    names: seq<string>,
    fullstack: Reply<bool>,
    projectType: Reply<string>,
    frontend: Reply<string>,
    backend: Reply<string>,
    language: Reply<string>,
    database: Reply<string>)

  /** The `answers` object. */
  datatype Answers = Answers(
    projectName: string,
    projectType: Option<string>,
    frontend: Option<string>,
    backend: Option<string>,
    database: Option<string>,
    useTypeScript: bool,
    addLinting: bool,
    addPrettier: bool,
    initGit: bool)

  const EmptyMessage: string := "Project name cannot be empty."
  const PatternMessage: string := "Only lowercase letters, " + "numbers, -, and _ allowed."

  function ExistsMessage(input: string): string {
    "Folder '" + input + "' already exists."
  }

  /** The `validate` callback of the project-name prompt: `None` accepts,
      a message rejects. `existing` holds the names `folderExists` finds. */
  function Validate(input: string, existing: set<string>): (message: Option<string>)
    ensures message.None? <==> input != "" && NameChars(input) && input !in existing
  {
    if input == "" then Some(EmptyMessage)
    else if !NameChars(input) then Some(PatternMessage)
    else if input in existing then Some(ExistsMessage(input))
    else None
  }

  /** The checks are made in order, so each rejected name gets the message of
      the first check it fails: the empty name, then the character pattern,
      then an existing folder. The three messages are distinct. */
  lemma ValidationPrecedence(input: string, existing: set<string>)
    ensures input == "" ==> Validate(input, existing) == Some(EmptyMessage)
    ensures input != "" && !NameChars(input) ==> Validate(input, existing) == Some(PatternMessage)
    ensures input != "" && NameChars(input) && input in existing ==> Validate(input, existing) == Some(ExistsMessage(input))
    ensures EmptyMessage != PatternMessage && EmptyMessage != ExistsMessage(input) && PatternMessage != ExistsMessage(input)
  {
    var folder := "Folder '";
    assert ExistsMessage(input) == folder + (input + "' already exists.");
    assert ExistsMessage(input)[0] == folder[0] == 'F';
    assert EmptyMessage[0] == 'P' && PatternMessage[0] == 'O';
  }

  /** A name made of admitted characters is rejected only when it is empty
      or already taken, and a name with any other character never passes,
      whether or not a folder of that name exists. */
  lemma PatternIsCheckedBeforeExistence(input: string, existing: set<string>, i: nat)
    requires i < |input| && !NameChar(input[i])
    ensures Validate(input, existing) == Some(PatternMessage)
    ensures Validate(input, existing + {input}) == Some(PatternMessage)
  {
  }

  /** The project-name prompt: the first name the validator accepts, or
      `Cancelled` when the user gives up before typing one. */
  function TextPrompt(names: seq<string>, existing: set<string>): (r: Reply<string>)
    ensures r.Cancelled? <==> forall i :: 0 <= i < |names| ==> Validate(names[i], existing).Some?
    ensures r.Answer? ==> Validate(r.value, existing).None?
    ensures r.Answer? ==> exists k :: 0 <= k < |names| && names[k] == r.value
                            && forall j :: 0 <= j < k ==> Validate(names[j], existing).Some?
  {
    if names == [] then Cancelled
    else if Validate(names[0], existing).None? then Answer(names[0])
    else
      var rest := TextPrompt(names[1..], existing);
      assert forall i :: 1 <= i < |names| ==> names[i] == names[1..][i - 1];
      if rest.Answer? then
        assert exists k :: 1 <= k < |names| && names[k] == rest.value
                 && forall j :: 0 <= j < k ==> Validate(names[j], existing).Some? by {
          var k :| 0 <= k < |names[1..]| && names[1..][k] == rest.value
                   && forall j :: 0 <= j < k ==> Validate(names[1..][j], existing).Some?;
          assert names[k + 1] == rest.value;
          forall j | 0 <= j < k + 1 ensures Validate(names[j], existing).Some? {
            if j > 0 {
              assert names[j] == names[1..][j - 1];
            }
          }
        }
        rest
      else rest
  }

  /** Names typed after an accepted one are never read; names before it
      that were rejected only delay it. */
  lemma {:induction false} TextPromptAppend(a: seq<string>, b: seq<string>, existing: set<string>)
    ensures TextPrompt(a, existing).Answer? ==> TextPrompt(a + b, existing) == TextPrompt(a, existing)
    ensures TextPrompt(a, existing).Cancelled? ==> TextPrompt(a + b, existing) == TextPrompt(b, existing)
  {
    if a == [] {
      assert a + b == b;
    } else {
      assert (a + b)[0] == a[0];
      assert (a + b)[1..] == a[1..] + b;
      if Validate(a[0], existing).Some? {
        TextPromptAppend(a[1..], b, existing);
      }
    }
  }

  /** The select prompts reached after the fullstack question, in order, if
      none of them is cancelled: frontend, backend, language and database
      for a fullstack project; the project type, and for anything but a
      frontend the backend, language and database otherwise. */
  function AskedAfterFullstack(r: Replies): (asked: seq<Reply<string>>)
    ensures r.fullstack == Answer(true) ==> |asked| == 4
    ensures r.fullstack == Answer(false) ==> |asked| == (if r.projectType == Answer("frontend") then 1 else 4)
  {
    match r.fullstack
    case Cancelled => []
    case Answer(isFullstack) =>
      if isFullstack then [r.frontend, r.backend, r.language, r.database]
      else [r.projectType] + (if r.projectType == Answer("frontend") then [] else [r.backend, r.language, r.database])
  }

  /** The dialogue ends early, with the process leaving with status 0, when
      the project name is never accepted or any prompt reached is cancelled. */
  predicate Aborted(r: Replies, existing: set<string>) {
    TextPrompt(r.names, existing).Cancelled? || r.fullstack.Cancelled? || Cancelled in AskedAfterFullstack(r)
  }

  /** A frontend-only project: not fullstack, and the project type chosen
      is `frontend`. */
  predicate FrontendOnly(r: Replies) {
    r.fullstack == Answer(false) && r.projectType == Answer("frontend")
  }

  /** What `getUserInput` returns for the replies when nobody cancels: the
      first accepted name, the tooling defaults on, and the fields the
      branch taken fills from its prompts. */
  predicate AnswersFor(r: Replies, existing: set<string>, a: Answers) {
    && TextPrompt(r.names, existing) == Answer(a.projectName)
    && a.addLinting && a.addPrettier && a.initGit
    && (r.fullstack == Answer(true) ==>
          && r.frontend.Answer? && r.backend.Answer? && r.language.Answer? && r.database.Answer?
          && a.projectType == Some("fullstack") && a.frontend == Some(r.frontend.value)
          && a.backend == Some(r.backend.value) && a.database == Some(r.database.value)
          && a.useTypeScript == (r.language.value == "typescript"))
    && (FrontendOnly(r) ==>
          a.projectType == Some("frontend") && a.frontend == Some("vite")
          && a.backend.None? && a.database.None? && !a.useTypeScript)
    && (r.fullstack == Answer(false) && !FrontendOnly(r) ==>
          && r.projectType.Answer? && r.backend.Answer? && r.language.Answer? && r.database.Answer?
          && a.projectType == Some(r.projectType.value) && a.frontend.None?
          && a.backend == Some(r.backend.value) && a.database == Some(r.database.value)
          && a.useTypeScript == (r.language.value == "typescript"))
  }

  /** `getUserInput`: asks the prompts in order, stops at the first
      cancellation, and fills in `answers` field by field. */
  method GetUserInput(r: Replies, existing: set<string>) returns (answers: Reply<Answers>)
    ensures answers.Cancelled? <==> Aborted(r, existing)
    ensures answers.Answer? ==> AnswersFor(r, existing, answers.value)
    ensures answers.Answer? ==> Validate(answers.value.projectName, existing).None?
  {
    var projectName := TextPrompt(r.names, existing);
    if projectName.Cancelled? {
      return Cancelled;
    }
    var isFullstack := r.fullstack;
    if isFullstack.Cancelled? {
      return Cancelled;
    }
    var a := Answers(projectName.value, if isFullstack.value then Some("fullstack") else None,
                     None, None, None, false, true, true, true);
    if isFullstack.value {
      var frontend := r.frontend;
      if frontend.Cancelled? {
        return Cancelled;
      }
      a := a.(frontend := Some(frontend.value));
      var backend := r.backend;
      if backend.Cancelled? {
        return Cancelled;
      }
      a := a.(backend := Some(backend.value));
      var language := r.language;
      if language.Cancelled? {
        return Cancelled;
      }
      a := a.(useTypeScript := language.value == "typescript");
      var database := r.database;
      if database.Cancelled? {
        return Cancelled;
      }
      a := a.(database := Some(database.value));
    } else {
      var projectType := r.projectType;
      if projectType.Cancelled? {
        return Cancelled;
      }
      a := a.(projectType := Some(projectType.value));
      if projectType.value == "frontend" {
        a := a.(frontend := Some("vite"));
      } else {
        var backend := r.backend;
        if backend.Cancelled? {
          return Cancelled;
        }
        a := a.(backend := Some(backend.value));
        var language := r.language;
        if language.Cancelled? {
          return Cancelled;
        }
        a := a.(useTypeScript := language.value == "typescript");
        var database := r.database;
        if database.Cancelled? {
          return Cancelled;
        }
        a := a.(database := Some(database.value));
      }
    }
    return Answer(a);
  }
}
