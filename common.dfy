/** Shared vocabulary: nullable values, JavaScript truthiness, text made of
    lines, JSON values, shell-argument joining and path joining. */
module Common {

  datatype Option<+T> = None | Some(value: T)

  /** JavaScript truthiness of a nullable string: `null` and `""` are falsy,
      every other string is truthy. */
  predicate Truthy(s: Option<string>) {
    s.Some? && s.value != ""
  }

  /** A JSON value as `JSON.parse` produces it; objects are maps, so the
      order of keys (a matter of `JSON.stringify` formatting) is not kept. */
  datatype Json =
    | JNull
    | JBool(b: bool)
    | JNum(n: int)
    | JStr(s: string)
    | JArr(items: seq<Json>)
    | JObj(fields: map<string, Json>)

  /** `${dir}/${name}` */
  function Under(dir: string, name: string): (path: string)
    ensures |path| == |dir| + 1 + |name|
    ensures path[..|dir|] == dir && path[|dir|] == '/' && path[|dir| + 1..] == name
  {
    dir + "/" + name
  }

  /** Two paths under the same directory are equal exactly when their names are. */
  lemma UnderInjective(dir: string, a: string, b: string)
    ensures Under(dir, a) == Under(dir, b) <==> a == b
  {
    if Under(dir, a) == Under(dir, b) {
      assert a == Under(dir, a)[|dir| + 1..];
    }
  }

  /** `xs.join(" ")` */
  function JoinSpace(xs: seq<string>): string
    decreases |xs|
  {
    if |xs| == 0 then ""
    else if |xs| == 1 then xs[0]
    else xs[0] + " " + JoinSpace(xs[1..])
  }

  /** The text of a file given as lines: every line is followed by a newline. */
  function Text(lines: seq<string>): string
    decreases |lines|
  {
    if lines == [] then "" else lines[0] + "\n" + Text(lines[1..])
  }

  lemma {:induction false} TextAppend(a: seq<string>, b: seq<string>)
    ensures Text(a + b) == Text(a) + Text(b)
    decreases |a|
  {
    if a == [] {
      assert a + b == b;
    } else {
      assert (a + b)[0] == a[0];
      assert (a + b)[1..] == a[1..] + b;
      TextAppend(a[1..], b);
    }
  }

  /** Every line contributes at least its newline to the text. */
  lemma {:induction false} TextLength(lines: seq<string>)
    ensures |Text(lines)| >= |lines|
    decreases |lines|
  {
    if lines != [] {
      TextLength(lines[1..]);
    }
  }

  /** Appending lines extends the text strictly: the old text is a proper prefix. */
  lemma TextStrictPrefix(a: seq<string>, b: seq<string>)
    requires b != []
    ensures Text(a) < Text(a + b)
  {
    TextAppend(a, b);
    TextLength(b);
    assert Text(a + b)[..|Text(a)|] == Text(a);
  }

  /** `line` begins with `prefix`. */
  predicate StartsWith(line: string, prefix: string) {
    |prefix| <= |line| && line[..|prefix|] == prefix
  }

  /** Two strings that differ at a position are unequal and neither
      begins with the other. */
  lemma DiffersAt(a: string, b: string, i: nat)
    requires i < |a| && i < |b| && a[i] != b[i]
    ensures a != b && !StartsWith(a, b) && !StartsWith(b, a)
  {
    if |b| <= |a| { assert a[..|b|][i] == a[i]; }
    if |a| <= |b| { assert b[..|a|][i] == b[i]; }
  }

  /** Some line of `lines` begins with `prefix`. */
  predicate HasLineStarting(lines: seq<string>, prefix: string) {
    exists i :: 0 <= i < |lines| && StartsWith(lines[i], prefix)
  }

  /** A line of a concatenation begins with `prefix` exactly when a line of
      one of the two parts does. */
  lemma HasLineStartingAppend(a: seq<string>, b: seq<string>, prefix: string)
    ensures HasLineStarting(a + b, prefix) <==> HasLineStarting(a, prefix) || HasLineStarting(b, prefix)
  {
    if HasLineStarting(a + b, prefix) {
      var i :| 0 <= i < |a + b| && StartsWith((a + b)[i], prefix);
      if i >= |a| {
        assert b[i - |a|] == (a + b)[i];
      }
    }
    if HasLineStarting(a, prefix) {
      var i :| 0 <= i < |a| && StartsWith(a[i], prefix);
      assert (a + b)[i] == a[i];
    }
    if HasLineStarting(b, prefix) {
      var i :| 0 <= i < |b| && StartsWith(b[i], prefix);
      assert (a + b)[|a| + i] == b[i];
    }
  }

  /** `t` occurs in `s` starting at index `i`. */
  predicate OccursAt(s: string, t: string, i: int) {
    0 <= i <= |s| - |t| && s[i..i + |t|] == t
  }

  /** `t` occurs in `s` as a contiguous substring. */
  predicate Contains(s: string, t: string) {
    exists i :: 0 <= i <= |s| - |t| && OccursAt(s, t, i)
  }

  lemma ContainsLeft(s: string, u: string, t: string)
    requires Contains(s, t)
    ensures Contains(s + u, t)
  {
    var i :| 0 <= i <= |s| - |t| && OccursAt(s, t, i);
    assert (s + u)[i..i + |t|] == s[i..i + |t|];
    assert OccursAt(s + u, t, i);
  }

  lemma ContainsRight(s: string, u: string, t: string)
    requires Contains(u, t)
    ensures Contains(s + u, t)
  {
    var i :| 0 <= i <= |u| - |t| && OccursAt(u, t, i);
    assert (s + u)[|s| + i..|s| + i + |t|] == u[i..i + |t|];
    assert OccursAt(s + u, t, |s| + i);
  }

  lemma ContainsSelf(s: string)
    ensures Contains(s, s)
  {
    assert s[0..|s|] == s;
    assert OccursAt(s, s, 0);
  }

  /** Every word of a space-joined list occurs in the joined text. */
  lemma {:induction false} JoinSpaceContains(xs: seq<string>, i: nat)
    requires i < |xs|
    ensures Contains(JoinSpace(xs), xs[i])
    decreases |xs|
  {
    if |xs| == 1 {
      ContainsSelf(xs[0]);
    } else if i == 0 {
      ContainsSelf(xs[0]);
      ContainsLeft(xs[0], " " + JoinSpace(xs[1..]), xs[0]);
      assert xs[0] + (" " + JoinSpace(xs[1..])) == JoinSpace(xs);
    } else {
      JoinSpaceContains(xs[1..], i - 1);
      ContainsRight(xs[0] + " ", JoinSpace(xs[1..]), xs[i]);
      assert (xs[0] + " ") + JoinSpace(xs[1..]) == JoinSpace(xs);
    }
  }

  /** A character the project-name pattern `^[a-z0-9-_]+$` admits. */
  predicate NameChar(c: char) {
    ('a' <= c <= 'z') || ('0' <= c <= '9') || c == '-' || c == '_'
  }

  /** Every character of `s` is admitted by the project-name pattern. */
  predicate NameChars(s: string) {
    forall i :: 0 <= i < |s| ==> NameChar(s[i])
  }

  /** The second of four concatenated pieces, sliced back out. */
  lemma SliceSecond<T>(a: seq<T>, b: seq<T>, c: seq<T>, d: seq<T>)
    ensures (a + b + c + d)[|a|..|a| + |b|] == b
  {
    var whole := a + b + c + d;
    assert whole == a + (b + (c + d));
    assert whole[|a|..] == b + (c + d);
    assert whole[|a|..][..|b|] == b;
  }
}
