/** The few file-path operations of Node's `path` module that the job panel and the
    interpreter resolution use: `join`, `basename`, `dirname`/`parse().dir`,
    `extname` and `parse().name`.

    A path is a string whose segments are separated by '/'. The model does not
    normalise `.`/`..` segments or repeated separators, and it uses one separator
    character throughout. */
module Paths {

  const Sep: char := '/'

  /** The index of the last occurrence of `c` in `s`, or -1 when there is none. */
  function LastIndex(s: string, c: char): (r: int)
    ensures -1 <= r < |s|
    ensures r >= 0 ==> s[r] == c
    ensures forall i :: r < i < |s| ==> s[i] != c
  {
    if |s| == 0 then -1
    else if s[|s| - 1] == c then |s| - 1
    else LastIndex(s[..|s| - 1], c)
  }

  /** `c` does not occur in `s`. */
  predicate Free(s: string, c: char)
  {
    forall i :: 0 <= i < |s| ==> s[i] != c
  }

  /** The directory part, as `path.parse(p).dir` gives it for a path without a trailing
      separator: everything before the last separator, "/" for a file directly under the
      root, "" when there is no separator. A trailing separator is not stripped. */
  function Dir(p: string): string
  {
    var k := LastIndex(p, Sep);
    if k < 0 then "" else if k == 0 then "/" else p[..k]
  }

  /** The last segment, as `path.basename(p)` gives it for a path without a trailing
      separator; a trailing separator is not stripped, so the result is then "". */
  function Basename(p: string): (r: string)
    ensures Free(r, Sep)
  {
    p[LastIndex(p, Sep) + 1..]
  }

  /** The extension of the last segment, as `path.extname(p)` gives it: from its last
      '.' to its end, or "" when it has no '.' or its only '.' leads it (".bashrc"). */
  function Extname(p: string): string
  {
    var base := Basename(p);
    var i := LastIndex(base, '.');
    if i <= 0 then "" else base[i..]
  }

  /** The last segment without its extension, as `path.parse(p).name` and
      `path.basename(p, path.extname(p))` give it. */
  function Stem(p: string): string
  {
    var base := Basename(p);
    var i := LastIndex(base, '.');
    if i <= 0 then base else base[..i]
  }

  /** `path.basename(p, suffix)`: the last segment with `suffix` removed when the
      segment ends with it and is longer than it; "" when the whole path is `suffix`. */
  function BasenameWithout(p: string, suffix: string): (r: string)
    ensures Free(r, Sep)
  {
    var base := Basename(p);
    if p == suffix && suffix != "" then ""
    else if |suffix| < |base| && base[|base| - |suffix|..] == suffix then base[..|base| - |suffix|]
    else base
  }

  /** `path.join(d, n)` for a single segment `n`: no separator is added after an empty
      directory or one that already ends with a separator. */
  function Join(d: string, n: string): string
  {
    if d == "" then n
    else if d[|d| - 1] == Sep then d + n
    else d + [Sep] + n
  }

  /** A directory string that `Dir` can give back unchanged: empty, the root, or one
      that does not end with a separator. */
  predicate PlainDir(d: string)
  {
    d == "" || d == "/" || d[|d| - 1] != Sep
  }

  /** Splitting the last segment into name and extension loses nothing. */
  lemma StemExtname(p: string)
    ensures Stem(p) + Extname(p) == Basename(p)
  {
  }

  /** Appending text free of `c` does not move the last `c`. */
  lemma {:induction false} LastIndexAppend(d: string, n: string, c: char)
    requires Free(n, c)
    ensures LastIndex(d + n, c) == LastIndex(d, c)
  {
    assert forall i :: 0 <= i < |d| ==> (d + n)[i] == d[i];
    assert forall i :: |d| <= i < |d + n| ==> (d + n)[i] == n[i - |d|];
  }

  /** The segment joined onto a directory is the base name of the result. */
  lemma JoinBasename(d: string, n: string)
    requires Free(n, Sep)
    ensures Basename(Join(d, n)) == n
  {
    var j := Join(d, n);
    var k := LastIndex(j, Sep);
    var pre := j[..|j| - |n|];
    assert j == pre + n;
    LastIndexAppend(pre, n, Sep);
    if d == "" {
      assert pre == [];
    } else {
      assert pre[|pre| - 1] == Sep;
    }
    assert k == |pre| - 1;
  }

  /** The directory a segment is joined onto is the directory of the result. */
  lemma JoinDir(d: string, n: string)
    requires Free(n, Sep) && PlainDir(d)
    ensures Dir(Join(d, n)) == d
  {
    var j := Join(d, n);
    var pre := j[..|j| - |n|];
    assert j == pre + n;
    LastIndexAppend(pre, n, Sep);
    if d == "" {
      assert pre == [];
    } else if d == "/" {
      assert pre == "/";
    } else {
      assert pre == d + [Sep];
      assert LastIndex(pre, Sep) == |d|;
      assert j[..|d|] == d;
    }
  }

  /** Both halves of a join can be read back: the segment as the base name and, for a
      plain directory, the directory. */
  lemma JoinParts(d: string, n: string)
    ensures Free(n, Sep) ==> Basename(Join(d, n)) == n
    ensures Free(n, Sep) && PlainDir(d) ==> Dir(Join(d, n)) == d
  {
    if Free(n, Sep) {
      JoinBasename(d, n);
      if PlainDir(d) {
        JoinDir(d, n);
      }
    }
  }

  /** The extension of `name + ext` is `ext` when `ext` is a single '.'-led suffix
      and `name` is not empty. */
  lemma ExtnameOfSuffixed(d: string, name: string, ext: string)
    requires name != "" && Free(name, Sep)
    requires |ext| >= 1 && ext[0] == '.' && Free(ext[1..], '.') && Free(ext, Sep)
    ensures Extname(Join(d, name + ext)) == ext
    ensures Stem(Join(d, name + ext)) == name
  {
    var base := name + ext;
    assert Free(base, Sep);
    JoinBasename(d, base);
    assert base == (name + ".") + ext[1..];
    LastIndexAppend(name + ".", ext[1..], '.');
    assert LastIndex(base, '.') == |name|;
  }

  /** `path.basename(p, path.extname(p))` is the name part of `path.parse(p)`. */
  lemma StemIsBasenameWithoutExtname(p: string)
    ensures BasenameWithout(p, Extname(p)) == Stem(p)
  {
  }

  /** The name part of a non-empty base name is not empty and has no separator. */
  lemma StemShape(p: string)
    requires Basename(p) != ""
    ensures Stem(p) != "" && Free(Stem(p), Sep)
  {
  }
}
