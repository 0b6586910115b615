/**
 * The parts of `pathlib.Path` the core relies on: the final component
 * (`name`), its last extension (`suffix`) and the name without it (`stem`),
 * following CPython 3.12's definitions on POSIX paths.
 */
module Paths {
  import opened Text

  /** Index of the last `c` in `s`, or -1 (`str.rfind`). */
  function LastIndexOf(s: string, c: char): (r: int)
    ensures -1 <= r < |s|
    ensures r >= 0 ==> s[r] == c
    ensures forall k :: r < k < |s| ==> s[k] != c
  {
    if s == [] then -1
    else if s[|s| - 1] == c then |s| - 1
    else LastIndexOf(s[..|s| - 1], c)
  }

  /** `LastIndexOf` is the one index its contract describes. */
  lemma LastIndexOfIs(s: string, c: char, r: int)
    requires -1 <= r < |s|
    requires r >= 0 ==> s[r] == c
    requires forall k :: r < k < |s| ==> s[k] != c
    ensures LastIndexOf(s, c) == r
  {
  }

  /** A separator-free string is its own name. */
  lemma NameOfPlain(s: string)
    requires '/' !in s
    ensures Name(s) == s
  {
    LastIndexOfIs(s, '/', -1);
  }

  /** The path with trailing separators removed, as `Path` normalises it. */
  function StripTrailingSeparators(p: string): (r: string)
    ensures r == [] || r[|r| - 1] != '/'
    ensures StartsWith(p, r)
  {
    if p != [] && p[|p| - 1] == '/' then StripTrailingSeparators(p[..|p| - 1]) else p
  }

  /** `Path(p).name`: the text after the last separator. */
  function Name(p: string): (r: string)
    ensures '/' !in r
  {
    var q := StripTrailingSeparators(p);
    q[LastIndexOf(q, '/') + 1..]
  }

  /** `Path.suffix`: from the last dot on, unless that dot starts or ends the name. */
  function Suffix(name: string): (r: string)
    ensures r == [] || (|r| >= 2 && r[0] == '.' && '.' !in r[1..] && EndsWith(name, r))
  {
    var i := LastIndexOf(name, '.');
    if 0 < i < |name| - 1 then name[i..] else ""
  }

  /** `Path.stem`: the name without its suffix. */
  function Stem(name: string): string
  {
    var i := LastIndexOf(name, '.');
    if 0 < i < |name| - 1 then name[..i] else name
  }

  /** Stem and suffix split the name without losing or adding a character. */
  lemma StemSuffixSplit(name: string)
    ensures Stem(name) + Suffix(name) == name
    ensures Suffix(name) == [] ==> Stem(name) == name
  {
  }

  /** A suffix holds exactly one dot, so it is never a multi-dot extension. */
  lemma {:induction false} SuffixHasOneDot(name: string)
    ensures Suffix(name) != [] ==> Count(Suffix(name), '.') == 1
  {
    var r := Suffix(name);
    if r != [] {
      CountAbsent(r[1..], '.');
      assert r == [r[0]] + r[1..];
    }
  }
}
