/** Display paths: `strip_base_path`, `file_name` and the `File.basename`
    that the line-number pattern is built from. */
module Paths {
  import opened Text

  predicate OccursAt(s: string, p: string, i: nat)
  {
    i + |p| <= |s| && s[i..i + |p|] == p
  }

  ghost predicate Occurs(s: string, p: string)
  {
    exists i: nat :: OccursAt(s, p, i)
  }

  /** String#gsub(p, "") with a literal pattern: scanning from the left, every
      match is deleted and the scan resumes right after it. An empty pattern
      changes nothing. */
  function RemoveAll(s: string, p: string): (r: string)
    ensures |r| <= |s|
    decreases |s|
  {
    if p == [] || |s| < |p| then s
    else if s[..|p|] == p then RemoveAll(s[|p|..], p)
    else [s[0]] + RemoveAll(s[1..], p)
  }

  lemma {:induction false} RemoveAllNoMatch(s: string, p: string)
    requires !Occurs(s, p)
    ensures RemoveAll(s, p) == s
    decreases |s|
  {
    if p != [] && |s| >= |p| {
      assert !OccursAt(s, p, 0);
      forall i: nat ensures !OccursAt(s[1..], p, i) {
        assert !OccursAt(s, p, i + 1);
      }
      RemoveAllNoMatch(s[1..], p);
    }
  }

  lemma {:induction false} RemoveAllShrinks(s: string, p: string)
    requires p != [] && Occurs(s, p)
    ensures |RemoveAll(s, p)| <= |s| - |p|
    decreases |s|
  {
    var i: nat :| OccursAt(s, p, i);
    if s[..|p|] != p {
      assert i > 0;
      assert s[1..][i - 1..i - 1 + |p|] == s[i..i + |p|];
      assert OccursAt(s[1..], p, i - 1);
      RemoveAllShrinks(s[1..], p);
    }
  }

  /** gsub leaves the path unchanged exactly when the base path is empty or
      does not occur in it. */
  lemma RemoveAllUnchanged(s: string, p: string)
    ensures RemoveAll(s, p) == s <==> p == [] || !Occurs(s, p)
  {
    if p != [] && Occurs(s, p) {
      RemoveAllShrinks(s, p);
    } else if p != [] {
      RemoveAllNoMatch(s, p);
    }
  }

  /** The scan deletes the leftmost occurrence and carries on after it: text
      before the first occurrence is kept as it is, and what follows that
      occurrence is stripped on its own. With RemoveAllNoMatch this fixes
      gsub's behaviour on every string. */
  lemma {:induction false} RemoveAllLeftmost(x: string, p: string, y: string)
    requires p != []
    requires forall i :: 0 <= i < |x| ==> !OccursAt(x + p + y, p, i)
    ensures RemoveAll(x + p + y, p) == x + RemoveAll(y, p)
    decreases |x|
  {
    var s := x + p + y;
    if x == [] {
      assert s[..|p|] == p && s[|p|..] == y;
    } else {
      var t := x[1..] + p + y;
      assert s == [x[0]] + t;
      assert s[1..] == t;
      assert !OccursAt(s, p, 0);
      assert |s| >= |p| && s[..|p|] != p;
      forall i | 0 <= i < |x[1..]| ensures !OccursAt(t, p, i) {
        ShiftedOccurrence(s, p, i);
      }
      RemoveAllLeftmost(x[1..], p, y);
      assert x == [x[0]] + x[1..];
    }
  }

  lemma ShiftedOccurrence(s: string, p: string, i: nat)
    requires |s| > 0
    ensures OccursAt(s[1..], p, i) ==> OccursAt(s, p, i + 1)
  {
    if OccursAt(s[1..], p, i) {
      assert s[1..][i..i + |p|] == s[i + 1..i + 1 + |p|];
    }
  }

  /** Stripping a second time is harmless once the base path no longer occurs. */
  lemma RemoveAllIdempotent(s: string, p: string)
    requires !Occurs(RemoveAll(s, p), p)
    ensures RemoveAll(RemoveAll(s, p), p) == RemoveAll(s, p)
  {
    RemoveAllNoMatch(RemoveAll(s, p), p);
  }

  /** gsub!(/^root/, '') with a literal root: `^` holds at the start of the
      string and right after every newline; the anchor is judged on the
      string being scanned, so after a deleted match it holds only when the
      match ended in a newline. */
  function StripRootFrom(s: string, root: string, lineStart: bool): (r: string)
    ensures |r| <= |s|
    decreases |s|
  {
    if root == [] || s == [] then s
    else if lineStart && |root| <= |s| && s[..|root|] == root then
      StripRootFrom(s[|root|..], root, root[|root| - 1] == '\n')
    else [s[0]] + StripRootFrom(s[1..], root, s[0] == '\n')
  }

  function StripRoot(s: string, root: string): (r: string)
    ensures |r| <= |s|
    ensures root == [] ==> r == s
  {
    StripRootFrom(s, root, true)
  }

  lemma {:induction false} StripRootInsideLine(s: string, root: string)
    requires '\n' !in s
    ensures StripRootFrom(s, root, false) == s
    decreases |s|
  {
    if root != [] && s != [] {
      StripRootInsideLine(s[1..], root);
    }
  }

  /** On a single-line path the root pattern removes a leading root and nothing else. */
  lemma StripRootSingleLine(s: string, root: string)
    requires '\n' !in s
    ensures StripRoot(s, root) ==
      if root != [] && |root| <= |s| && s[..|root|] == root then s[|root|..] else s
  {
    if root != [] && s != [] {
      if |root| <= |s| && s[..|root|] == root {
        assert root[|root| - 1] == s[|root| - 1];
        StripRootInsideLine(s[|root|..], root);
      } else {
        StripRootInsideLine(s[1..], root);
      }
    }
  }

  /** strip_base_path: every occurrence of the base path is removed, then a
      configured project root at the start of a line. */
  function StripBasePath(path: string, basePath: string, root: Option<string>): (r: string)
    ensures |r| <= |path|
  {
    var stripped := RemoveAll(path, basePath);
    if root.Some? then StripRoot(stripped, root.value) else stripped
  }

  /** Without a configured root, strip_base_path leaves the path as it is
      exactly when the base path is empty or does not occur in it. */
  lemma StripBasePathUnchanged(path: string, basePath: string)
    ensures StripBasePath(path, basePath, None) == path <==> basePath == [] || !Occurs(path, basePath)
  {
    RemoveAllUnchanged(path, basePath);
  }

  /** file_name: the stripped path with at most one leading '/' sliced off. */
  function FileNameOf(path: string, basePath: string, root: Option<string>): (r: string)
    ensures var s := StripBasePath(path, basePath, root);
      && |s| - 1 <= |r| <= |s|
      && r == s[|s| - |r|..]
      && (r != s <==> |s| > 0 && s[0] == '/')
      && (|r| > 0 && r[0] == '/' <==> |s| > 1 && s[0] == '/' && s[1] == '/')
  {
    var s := StripBasePath(path, basePath, root);
    if |s| > 0 && s[0] == '/' then s[1..] else s
  }

  function DropTrailingSlashes(p: string): (r: string)
    ensures r <= p
    ensures r == [] || r[|r| - 1] != '/'
    ensures forall i :: |r| <= i < |p| ==> p[i] == '/'
  {
    if p != [] && p[|p| - 1] == '/' then DropTrailingSlashes(p[..|p| - 1]) else p
  }

  function AfterLastSlash(p: string): (r: string)
    ensures |r| <= |p| && r == p[|p| - |r|..]
    ensures '/' !in r
    ensures |r| < |p| ==> p[|p| - |r| - 1] == '/'
  {
    if p == [] || p[|p| - 1] == '/' then [] else AfterLastSlash(p[..|p| - 1]) + [p[|p| - 1]]
  }

  /** File.basename: the last component, trailing slashes ignored; a path made
      only of slashes gives "/". */
  function Basename(p: string): (r: string)
    ensures r == [] <==> p == []
    ensures r == "/" || '/' !in r
    ensures '/' !in p ==> r == p
  {
    var t := DropTrailingSlashes(p);
    if t == [] then (if p == [] then [] else "/") else AfterLastSlash(t)
  }

  lemma {:induction false} AfterLastSlashOf(dir: string, name: string)
    requires '/' !in name
    ensures AfterLastSlash(dir + "/" + name) == name
  {
    var p := dir + "/" + name;
    if name != [] {
      assert p[..|p| - 1] == dir + "/" + name[..|name| - 1];
      AfterLastSlashOf(dir, name[..|name| - 1]);
    } else {
      assert p[|p| - 1] == '/';
    }
  }

  /** The base name of a path is its last component. */
  lemma BasenameOfLastComponent(dir: string, name: string)
    requires name != [] && '/' !in name
    ensures Basename(dir + "/" + name) == name
  {
    AfterLastSlashOf(dir, name);
  }
}
