/**
 * The few JavaScript string operations and Node `path` (POSIX) helpers the
 * plugin relies on, with the semantics of the JavaScript and Node built-ins.
 */
module JsString {

  /** `pat` occurs in `s` starting at index `k`. */
  predicate OccursAt(s: string, pat: string, k: nat) {
    k + |pat| <= |s| && s[k..k + |pat|] == pat
  }

  /** `s.indexOf(pat, from)`: the first occurrence at or after `from`, or -1. */
  function IndexFrom(s: string, pat: string, from: nat): (r: int)
    ensures r == -1 || (from <= r && OccursAt(s, pat, r))
    ensures forall k {:trigger OccursAt(s, pat, k)} ::
      from <= k && (r == -1 || k < r) ==> !OccursAt(s, pat, k)
    decreases |s| - from
  {
    if from + |pat| > |s| then -1
    else if s[from..from + |pat|] == pat then from
    else IndexFrom(s, pat, from + 1)
  }

  /** `s.indexOf(pat)`. */
  function IndexOf(s: string, pat: string): int {
    IndexFrom(s, pat, 0)
  }

  /** `s.lastIndexOf(c)` for a one-character pattern: the last index holding `c`, or -1. */
  function LastIndexOf(s: string, c: char): (r: int)
    ensures -1 <= r < |s|
    ensures r >= 0 ==> s[r] == c
    ensures forall k :: r < k < |s| ==> s[k] != c
  {
    if |s| == 0 then -1
    else if s[|s| - 1] == c then |s| - 1
    else LastIndexOf(s[..|s| - 1], c)
  }

  /** The two postconditions of LastIndexOf pin its result down. */
  lemma LastIndexOfIs(s: string, c: char, i: int)
    requires -1 <= i < |s|
    requires i >= 0 ==> s[i] == c
    requires forall k :: i < k < |s| ==> s[k] != c
    ensures LastIndexOf(s, c) == i
  {
  }

  /**
   * `s.replace(pat, rep)` with a string pattern: only the first occurrence is
   * replaced, and `s` comes back unchanged when `pat` does not occur.
   * (`$` patterns in `rep` are not interpreted.)
   */
  function Replace(s: string, pat: string, rep: string): (r: string)
    ensures (forall k {:trigger OccursAt(s, pat, k)} :: !OccursAt(s, pat, k)) ==> r == s
    ensures (exists k {:trigger OccursAt(s, pat, k)} :: OccursAt(s, pat, k)) ==> |r| == |s| - |pat| + |rep|
    ensures forall i: nat {:trigger OccursAt(s, pat, i)} ::
      OccursAt(s, pat, i) && (forall j: nat {:trigger OccursAt(s, pat, j)} :: j < i ==> !OccursAt(s, pat, j)) ==>
        r == s[..i] + rep + s[i + |pat|..]
  {
    var i := IndexOf(s, pat);
    if i < 0 then s else s[..i] + rep + s[i + |pat|..]
  }

  /** A template whose text before the pattern cannot start it gets its first hole filled. */
  lemma ReplaceFirstHole(pre: string, pat: string, post: string, rep: string)
    requires pat != [] && pat[0] !in pre
    ensures Replace(pre + pat + post, pat, rep) == pre + rep + post
  {
    var s := pre + pat + post;
    assert OccursAt(s, pat, |pre|) by {
      assert s[|pre|..|pre| + |pat|] == pat;
    }
    forall k | 0 <= k < |pre|
      ensures !OccursAt(s, pat, k)
    {
      assert s[k] == pre[k];
    }
    var i := IndexOf(s, pat);
    assert i == |pre|;
    assert s[..i] == pre;
    assert s[i + |pat|..] == post;
  }

  /** Node's `path.isAbsolute` on POSIX: the path starts with `/`. */
  predicate IsAbsolute(p: string) {
    |p| > 0 && p[0] == '/'
  }

  /** `p` with every trailing `/` removed. */
  function TrimTrailingSlashes(p: string): (t: string)
    ensures t <= p
    ensures t == [] || t[|t| - 1] != '/'
    ensures forall k :: |t| <= k < |p| ==> p[k] == '/'
  {
    if |p| > 0 && p[|p| - 1] == '/' then TrimTrailingSlashes(p[..|p| - 1]) else p
  }

  /** The last path component, after trailing separators are ignored. */
  function Basename(p: string): (b: string)
    ensures '/' !in b
  {
    var t := TrimTrailingSlashes(p);
    t[LastIndexOf(t, '/') + 1..]
  }

  /**
   * Node's `path.extname` on POSIX: from the last `.` of the basename to its
   * end; empty when the basename has no `.`, starts with its only `.`
   * (a dot-file such as `.env`), or is `..`.
   */
  function ExtName(p: string): (e: string)
    ensures e == [] || (e[0] == '.' && '.' !in e[1..] && '/' !in e)
  {
    var b := Basename(p);
    var d := LastIndexOf(b, '.');
    if d <= 0 || b == ".." then "" else b[d..]
  }

  /** The basename of a path whose last component is `name`, with or without a directory before it. */
  lemma BasenameOfComponent(dir: string, name: string)
    requires '/' !in name && name != []
    ensures Basename(dir + "/" + name) == name
  {
    var p := dir + "/" + name;
    assert p[|p| - 1] == name[|name| - 1];
    assert TrimTrailingSlashes(p) == p;
    forall k | |dir| < k < |p|
      ensures p[k] != '/'
    {
      assert p[k] == name[k - |dir| - 1];
    }
    LastIndexOfIs(p, '/', |dir|);
    assert p[|dir| + 1..] == name;
  }

  /** A character absent from `b` has its last occurrence in `a + b` where it has it in `a`. */
  lemma {:induction false} LastIndexOfAppend(a: string, b: string, c: char)
    requires c !in b
    ensures LastIndexOf(a + b, c) == LastIndexOf(a, c)
  {
    if b == [] {
      assert a + b == a;
    } else {
      var init := b[..|b| - 1];
      assert c !in init by {
        assert forall x :: x in init ==> x in b;
      }
      LastIndexOfAppend(a, init, c);
      assert (a + b)[..|a + b| - 1] == a + init;
      assert (a + b)[|a + b| - 1] == b[|b| - 1];
    }
  }

  /** A last component ending in `tail` (no `/`): the basename is the rest of that component, then `tail`. */
  lemma BasenameKeepsTail(dir: string, tail: string)
    requires tail != [] && '/' !in tail
    ensures Basename(dir + tail) == dir[LastIndexOf(dir, '/') + 1..] + tail
  {
    var p := dir + tail;
    assert tail[|tail| - 1] != '/';
    assert p[|p| - 1] == tail[|tail| - 1];
    assert TrimTrailingSlashes(p) == p;
    LastIndexOfAppend(dir, tail, '/');
    SliceOfAppend(dir, tail, LastIndexOf(dir, '/') + 1);
  }

  /** Slicing a concatenation from inside its first part. */
  lemma SliceOfAppend(a: string, b: string, k: nat)
    requires k <= |a|
    ensures (a + b)[k..] == a[k..] + b
  {
  }

  /** A basename `front.ext` with a non-empty `front` and a dot-free, non-empty `ext` has extension `.ext`. */
  lemma ExtNameOfDotted(p: string, front: string, ext: string)
    requires Basename(p) == front + "." + ext
    requires front != "" && ext != "" && '.' !in ext
    ensures ExtName(p) == "." + ext
  {
    var b := Basename(p);
    LastIndexOfAppend(front + ".", ext, '.');
    assert b == (front + ".") + ext;
    assert b[|front|..] == "." + ext;
    assert b[|b| - 1] == ext[|ext| - 1];
  }

  /** `s.length`: JavaScript counts UTF-16 code units, two for a character outside the Basic Multilingual Plane. */
  function Utf16Length(s: string): (n: nat)
    ensures |s| <= n <= 2 * |s|
  {
    if s == [] then 0
    else Utf16Length(s[..|s| - 1]) + (if s[|s| - 1] as int < 0x1_0000 then 1 else 2)
  }

  /** For text made of Basic Multilingual Plane characters, `length` is the number of characters. */
  lemma {:induction false} Utf16LengthOfBmp(s: string)
    requires forall i :: 0 <= i < |s| ==> s[i] as int < 0x1_0000
    ensures Utf16Length(s) == |s|
  {
    if s != [] {
      Utf16LengthOfBmp(s[..|s| - 1]);
    }
  }
}
