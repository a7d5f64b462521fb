/**
 * The few .NET string operations the modelled code relies on, over
 * `seq<char>`: character replacement, ordinal case-insensitive comparison,
 * substring search, last index of a character and the file-name part of
 * a path. Case folding is ASCII only.
 */
module Text {
  import opened Wrappers

  /** `s.Replace(from, to)` for single characters. */
  function ReplaceChar(s: string, from: char, to: char): (r: string)
    ensures |r| == |s|
    ensures forall i :: 0 <= i < |s| ==> r[i] == (if s[i] == from then to else s[i])
    ensures from != to ==> from !in r
  {
    if s == [] then []
    else [if s[0] == from then to else s[0]] + ReplaceChar(s[1..], from, to)
  }

  /** ASCII lower-casing of one character. */
  function LowerChar(c: char): char
  {
    if 'A' <= c <= 'Z' then (c as int + 32) as char else c
  }

  /** `s.ToLower()`, ASCII letters only. */
  function ToLower(s: string): (r: string)
    ensures |r| == |s|
    ensures forall i :: 0 <= i < |s| ==> r[i] == LowerChar(s[i])
  {
    if s == [] then [] else [LowerChar(s[0])] + ToLower(s[1..])
  }

  /** `string.Equals(a, b, StringComparison.OrdinalIgnoreCase)`. */
  predicate EqualsIgnoreCase(a: string, b: string)
  {
    ToLower(a) == ToLower(b)
  }

  lemma EqualsIgnoreCaseIsEquivalence(a: string, b: string, c: string)
    ensures EqualsIgnoreCase(a, a)
    ensures EqualsIgnoreCase(a, b) ==> EqualsIgnoreCase(b, a)
    ensures EqualsIgnoreCase(a, b) && EqualsIgnoreCase(b, c) ==> EqualsIgnoreCase(a, c)
  {
  }

  /** `t` occurs in `s` at position `i`. */
  predicate OccursAt(s: string, t: string, i: int)
  {
    0 <= i && i + |t| <= |s| && s[i..i + |t|] == t
  }

  /** `s.Contains(t)`: the first position at which `t` occurs, searched left to right. */
  function IndexOf(s: string, t: string, from: nat): (r: Option<nat>)
    requires from <= |s|
    decreases |s| - from
    ensures r.Some? ==> from <= r.value && OccursAt(s, t, r.value)
    ensures r.Some? ==> forall j :: from <= j < r.value ==> !OccursAt(s, t, j)
    ensures r.None? ==> forall j :: from <= j ==> !OccursAt(s, t, j)
  {
    if from + |t| > |s| then None
    else if s[from..from + |t|] == t then Some(from)
    else IndexOf(s, t, from + 1)
  }

  predicate Contains(s: string, t: string)
  {
    IndexOf(s, t, 0).Some?
  }

  lemma ContainsMeansOccurs(s: string, t: string)
    ensures Contains(s, t) <==> exists i :: OccursAt(s, t, i)
  {
    if Contains(s, t) {
      assert OccursAt(s, t, IndexOf(s, t, 0).value);
    }
  }

  /** `s.LastIndexOf(c)`: -1 when `c` does not occur. */
  function LastIndexOf(s: string, c: char): (r: int)
    ensures -1 <= r < |s|
    ensures r >= 0 ==> s[r] == c
    ensures forall k :: r < k < |s| ==> s[k] != c
    ensures r == -1 <==> c !in s
  {
    if s == [] then -1
    else if s[|s| - 1] == c then |s| - 1
    else LastIndexOf(s[..|s| - 1], c)
  }

  /** `name` is the part of `path` after its last '/': a suffix without '/', preceded by '/' unless it is all of `path`. */
  predicate IsFileNameOf(name: string, path: string)
  {
    '/' !in name && |name| <= |path| && path[|path| - |name|..] == name &&
    (|name| < |path| ==> path[|path| - |name| - 1] == '/')
  }

  /** A path has one file name: `IsFileNameOf` pins `GetFileName` down. */
  lemma FileNameUnique(a: string, b: string, path: string)
    requires IsFileNameOf(a, path) && IsFileNameOf(b, path)
    ensures a == b
  {
  }

  /** `Path.GetFileName(path)` for a path whose separators are '/'. */
  function GetFileName(path: string): (r: string)
    ensures IsFileNameOf(r, path)
  {
    path[LastIndexOf(path, '/') + 1..]
  }
}
