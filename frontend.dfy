/** `generateFrontend`: the choice of the one scaffolding command. */
module Frontend {
  import opened Common
  import opened Effects

  const NextAppFlags: seq<string> :=
    ["--ts", "--app", "--eslint", "--tailwind", "--src-dir", "--import-alias=\"@/*\"", "--no-git"]

  /** The Vite command for a target path. */
  function ViteCommand(path: string): string {
    "npm create vite@latest " + path + " -- --template react-ts"
  }

  /** The Next.js command for a target path: the flags are fixed. */
  function NextCommand(path: string): string {
    "npx create-next-app@latest " + path + " " + JoinSpace(NextAppFlags)
  }

  /** The command `generateFrontend` runs: Vite for `vite-react-ts`, Next.js
      for `nextjs`, and the empty string for every other value. */
  function FrontendCommand(path: string, frontend: Option<string>): (command: string)
    ensures command != "" <==> frontend == Some("vite-react-ts") || frontend == Some("nextjs")
  {
    if frontend == Some("vite-react-ts") then ViteCommand(path)
    else if frontend == Some("nextjs") then NextCommand(path)
    else ""
  }

  /** The effects of `generateFrontend(path, frontend, …)`: a single loud
      command. The language flag the callers pass is not a parameter. */
  function FrontendPlan(path: string, frontend: Option<string>): seq<Effect> {
    [RunLoud(FrontendCommand(path, frontend))]
  }

  /** `generateFrontend`: `feCommand` starts empty and is reassigned in one of
      two branches; the command then runs loudly. */
  method GenerateFrontend(w: FileSystem, path: string, frontend: Option<string>)
    modifies w
    ensures w.Snapshot() == Exec(old(w.Snapshot()), w.oracle, FrontendPlan(path, frontend))
  {
    var feCommand := "";
    if frontend == Some("vite-react-ts") {
      feCommand := "npm create vite@latest " + path + " -- --template react-ts";
    } else if frontend == Some("nextjs") {
      feCommand := "npx create-next-app@latest " + path + " " + JoinSpace(NextAppFlags);
    }
    w.RunCommand(feCommand);
    ExecSnoc(old(w.Snapshot()), w.oracle, [], RunLoud(feCommand));
  }

  /** The Vite command names the target path right after the tool and asks
      for the React TypeScript template. */
  lemma ViteCommandShape(path: string)
    ensures StartsWith(FrontendCommand(path, Some("vite-react-ts")), "npm create vite@latest " + path + " ")
    ensures Contains(FrontendCommand(path, Some("vite-react-ts")), "react-ts")
  {
    var c := FrontendCommand(path, Some("vite-react-ts"));
    var pre := "npm create vite@latest " + path + " ";
    assert c == pre + "-- --template react-ts";
    assert c[..|pre|] == pre;
    var tail := "react-ts";
    assert c[|c| - |tail|..] == tail;
    assert OccursAt(c, tail, |c| - |tail|);
  }

  /** Next.js is always created with TypeScript and without a git
      repository, whatever language was chosen for the backend. */
  lemma NextCommandFlags(path: string)
    ensures StartsWith(FrontendCommand(path, Some("nextjs")), "npx create-next-app@latest " + path + " ")
    ensures Contains(FrontendCommand(path, Some("nextjs")), "--ts")
    ensures Contains(FrontendCommand(path, Some("nextjs")), "--no-git")
  {
    var c := FrontendCommand(path, Some("nextjs"));
    var pre := "npx create-next-app@latest " + path + " ";
    assert c == pre + JoinSpace(NextAppFlags);
    assert c[..|pre|] == pre;
    JoinSpaceContains(NextAppFlags, 0);
    JoinSpaceContains(NextAppFlags, 6);
    ContainsRight(pre, JoinSpace(NextAppFlags), "--ts");
    ContainsRight(pre, JoinSpace(NextAppFlags), "--no-git");
  }

  /** The `vite` value the prompts produce selects no command: the empty
      command is run. */
  lemma ViteChoiceRunsEmptyCommand(path: string)
    ensures FrontendPlan(path, Some("vite")) == [RunLoud("")]
  {
  }
}
