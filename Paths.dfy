/**
 * The few .NET string and path helpers the core relies on, written out:
 * Path.GetExtension, Path.ChangeExtension, string.Replace("\\", "/"),
 * ToLower and an ordinal case-insensitive EndsWith. Case mapping is the
 * ASCII one; path separators are those of the Windows targets.
 */
module Paths {
  import opened Wrappers

  predicate IsSeparator(c: char) {
    c == '/' || c == '\\'
  }

  /** A character that may appear inside an extension after its dot. */
  predicate IsExtensionChar(c: char) {
    c != '.' && !IsSeparator(c)
  }

  function LowerChar(c: char): char {
    if 'A' <= c <= 'Z' then (c as int + 32) as char else c
  }

  /** string.ToLower, restricted to ASCII letters. */
  function Lower(s: string): string {
    seq(|s|, i requires 0 <= i < |s| => LowerChar(s[i]))
  }

  /** string.Replace("\\", "/"). */
  function ReplaceBackslashes(s: string): (r: string)
    ensures |r| == |s|
    ensures forall i :: 0 <= i < |s| ==> r[i] != '\\'
    ensures forall i :: 0 <= i < |s| && s[i] == '\\' ==> r[i] == '/'
    ensures forall i :: 0 <= i < |s| && s[i] != '\\' ==> r[i] == s[i]
  {
    seq(|s|, i requires 0 <= i < |s| => if s[i] == '\\' then '/' else s[i])
  }

  /** string.EndsWith(suffix, StringComparison.OrdinalIgnoreCase). */
  predicate EndsWithIgnoreCase(s: string, suffix: string) {
    |suffix| <= |s| && Lower(s[|s| - |suffix|..]) == Lower(suffix)
  }

  /**
   * The position of the dot that starts the extension of path[..i]: the
   * last '.' met when scanning backwards before a separator is met.
   */
  function DotIndex(path: string, i: nat): (d: Option<nat>)
    requires i <= |path|
    ensures d.Some? ==> d.value < i && path[d.value] == '.'
    ensures d.Some? ==> forall k :: d.value < k < i ==> IsExtensionChar(path[k])
    decreases i
  {
    if i == 0 then None
    else if path[i - 1] == '.' then Some(i - 1)
    else if IsSeparator(path[i - 1]) then None
    else DotIndex(path, i - 1)
  }

  /** Path.GetExtension: the extension with its dot, or "" when there is none. */
  function Extension(path: string): (ext: string)
    ensures ext != "" ==> 2 <= |ext| <= |path| && ext[0] == '.' && path[|path| - |ext|..] == ext
    ensures ext != "" ==> forall k :: 1 <= k < |ext| ==> IsExtensionChar(ext[k])
  {
    match DotIndex(path, |path|)
    case Some(d) => if d == |path| - 1 then "" else path[d..]
    case None => ""
  }

  /** Path.ChangeExtension: the path up to its extension's dot, then the new extension. */
  function ChangeExtension(path: string, ext: string): (r: string)
    ensures path == "" ==> r == ""
    ensures path != "" && ext != "" && ext[0] == '.' ==> exists n :: 0 <= n <= |path| && r == path[..n] + ext
  {
    if path == "" then ""
    else
      var n := match DotIndex(path, |path|)
        case Some(d) => d
        case None => |path|;
      if ext != "" && ext[0] == '.' then path[..n] + ext else path[..n] + "." + ext
  }

  lemma {:induction false} DotIndexAt(path: string, i: nat, j: nat)
    requires j < i <= |path| && path[j] == '.'
    requires forall k :: j < k < i ==> IsExtensionChar(path[k])
    ensures DotIndex(path, i) == Some(j)
    decreases i
  {
    if i - 1 != j {
      DotIndexAt(path, i - 1, j);
    }
  }

  lemma {:induction false} DotIndexWithoutDot(path: string, i: nat)
    requires i <= |path|
    requires forall k :: 0 <= k < i ==> path[k] != '.'
    ensures DotIndex(path, i) == None
    decreases i
  {
    if i > 0 && !IsSeparator(path[i - 1]) {
      DotIndexWithoutDot(path, i - 1);
    }
  }

  /** The extension of "stem.name" is ".name" whatever the stem holds. */
  lemma ExtensionOfName(stem: string, name: string)
    requires name != []
    requires forall k :: 0 <= k < |name| ==> IsExtensionChar(name[k])
    ensures Extension(stem + "." + name) == "." + name
  {
    var p := stem + "." + name;
    DotIndexAt(p, |p|, |stem|);
    assert p[|stem|..] == "." + name;
  }

  /** A path without any dot has no extension. */
  lemma NoDotNoExtension(path: string)
    requires forall k :: 0 <= k < |path| ==> path[k] != '.'
    ensures Extension(path) == ""
  {
    DotIndexWithoutDot(path, |path|);
  }

  /** Changing the extension of "stem.name" keeps the stem exactly. */
  lemma ChangeExtensionOfName(stem: string, name: string, ext: string)
    requires forall k :: 0 <= k < |name| ==> IsExtensionChar(name[k])
    requires ext != "" && ext[0] == '.'
    ensures ChangeExtension(stem + "." + name, ext) == stem + ext
  {
    var p := stem + "." + name;
    DotIndexAt(p, |p|, |stem|);
    assert p[..|stem|] == stem;
  }

  lemma LowerAppend(a: string, b: string)
    ensures Lower(a + b) == Lower(a) + Lower(b)
  {
  }
}
