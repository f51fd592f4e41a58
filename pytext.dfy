/** The few Python string and path operations the modelled code relies on:
    `str.lower`, `str.endswith`, `str.split(sep)[0]`, `str.join`, `'*' * n`,
    decimal rendering of integers, `os.path.join` and `pathlib.Path.stem`. */
module PyText {
  import opened Wrappers

  /** `str.lower()` restricted to ASCII letters. */
  function LowerChar(c: char): char {
    if 'A' <= c <= 'Z' then (c as int - 'A' as int + 'a' as int) as char else c
  }

  function Lower(s: string): (r: string)
    ensures |r| == |s|
    ensures forall i :: 0 <= i < |s| ==> r[i] == LowerChar(s[i])
  {
    seq(|s|, i requires 0 <= i < |s| => LowerChar(s[i]))
  }

  predicate IsLower(s: string) {
    forall i :: 0 <= i < |s| ==> !('A' <= s[i] <= 'Z')
  }

  /** Lower-casing twice is lower-casing once, and its result has no upper-case letter. */
  lemma LowerIdempotent(s: string)
    ensures IsLower(Lower(s))
    ensures Lower(Lower(s)) == Lower(s)
  {
  }

  predicate EndsWith(s: string, suffix: string) {
    |suffix| <= |s| && s[|s| - |suffix|..] == suffix
  }

  /** `s.split(sep)[0]`: the part of `s` before the first `sep`, or all of `s`. */
  function SplitHead(s: string, sep: char): (r: string)
    ensures sep !in r
    ensures r <= s
    ensures r == s || s[|r|] == sep
  {
    if s == [] then []
    else if s[0] == sep then []
    else [s[0]] + SplitHead(s[1..], sep)
  }

  /** `s.rfind(c)`, with `None` for -1. */
  function LastIndexOf(s: string, c: char): (r: Option<nat>)
    ensures r.None? <==> c !in s
    ensures r.Some? ==> r.value < |s| && s[r.value] == c && c !in s[r.value + 1..]
  {
    if s == [] then None
    else if s[|s| - 1] == c then Some(|s| - 1)
    else
      var r := LastIndexOf(s[..|s| - 1], c);
      assert s[..|s| - 1] + [s[|s| - 1]] == s;
      r
  }

  /** `s.find(c)` or `xs.index(c)`, with `None` for the not-found case. */
  function IndexOf<T(==)>(s: seq<T>, c: T): (r: Option<nat>)
    ensures r.None? <==> c !in s
    ensures r.Some? ==> r.value < |s| && s[r.value] == c && c !in s[..r.value]
  {
    if s == [] then None
    else if s[0] == c then Some(0)
    else
      match IndexOf(s[1..], c)
      case None => None
      case Some(k) => assert s[..k + 1] == [s[0]] + s[1..][..k]; Some(k + 1)
  }

  lemma IndexOfBefore<T>(x: seq<T>, c: T, rest: seq<T>)
    requires c !in x
    ensures IndexOf(x + [c] + rest, c) == Some(|x|)
  {
    var s := x + [c] + rest;
    assert s[|x|] == c;
    var r := IndexOf(s, c);
    assert forall k :: |x| < k <= |s| ==> s[..k][|x|] == c;
  }

  /** `sep.join(xs)`. */
  function Join(sep: string, xs: seq<string>): string
    decreases |xs|
  {
    if xs == [] then ""
    else if |xs| == 1 then xs[0]
    else xs[0] + sep + Join(sep, xs[1..])
  }

  /** `'*' * n` */
  function Stars(n: nat): (r: string)
    ensures |r| == n
    ensures forall i :: 0 <= i < n ==> r[i] == '*'
  {
    seq(n, i => '*')
  }

  function DigitChar(d: nat): (c: char)
    requires d < 10
    ensures '0' <= c <= '9'
  {
    ('0' as int + d) as char
  }

  /** The decimal digits of `n`, most significant first, with no leading zero. */
  function NatToString(n: nat): (r: string)
    ensures |r| > 0 && (r[0] == '0' <==> n == 0)
    ensures forall i :: 0 <= i < |r| ==> '0' <= r[i] <= '9'
  {
    if n < 10 then [DigitChar(n)] else NatToString(n / 10) + [DigitChar(n % 10)]
  }

  /** `str(n)` for an integer: a minus sign exactly for negative numbers, then digits. */
  function IntToString(n: int): (r: string)
    ensures |r| > 0 && (r[0] == '-' <==> n < 0)
    ensures forall i :: 0 < i < |r| ==> '0' <= r[i] <= '9'
    ensures forall i :: 0 <= i < |r| ==> r[i] == '-' || '0' <= r[i] <= '9'
  {
    if n < 0 then "-" + NatToString(-n) else NatToString(n)
  }

  /** `os.path.join(a, b)` on POSIX: an absolute `b` discards `a`; a slash is
      inserted unless `a` is empty or already ends with one. */
  function PathJoin(a: string, b: string): string {
    if |b| > 0 && b[0] == '/' then b
    else if a == "" || a[|a| - 1] == '/' then a + b
    else a + "/" + b
  }

  /** The last component of a path (`Path.name` for a path without a trailing slash). */
  function BaseName(p: string): (r: string)
    ensures '/' !in r
  {
    match LastIndexOf(p, '/')
    case None => p
    case Some(i) => p[i + 1..]
  }

  /** `Path.stem` of a final component: drop the last suffix, where a suffix is a
      final `.` that is neither the first nor the last character. */
  function Stem(name: string): (r: string)
    ensures r <= name
  {
    match LastIndexOf(name, '.')
    case Some(i) => if 0 < i < |name| - 1 then name[..i] else name
    case None => name
  }

  function PathStem(p: string): string {
    Stem(BaseName(p))
  }

  lemma {:induction false} LastIndexOfAfter(x: string, f: string, c: char)
    requires |x| > 0 && x[|x| - 1] == c && c !in f
    ensures LastIndexOf(x + f, c) == Some(|x| - 1)
  {
    if f != [] {
      var init := f[..|f| - 1];
      assert (x + f)[..|x + f| - 1] == x + init;
      LastIndexOfAfter(x, init, c);
    } else {
      assert x + f == x;
    }
  }

  /** Joining a directory with a slash-free file name keeps that name as the last component. */
  lemma BaseNameOfJoin(dir: string, file: string)
    requires '/' !in file
    ensures BaseName(PathJoin(dir, file)) == file
  {
    if dir == "" {
      assert PathJoin(dir, file) == file;
    } else if dir[|dir| - 1] == '/' {
      LastIndexOfAfter(dir, file, '/');
      assert (dir + file)[|dir|..] == file;
    } else {
      LastIndexOfAfter(dir + "/", file, '/');
      assert (dir + "/" + file)[|dir| + 1..] == file;
    }
  }

  /** The stem of `x + ".json"` is `x` whenever `x` is not empty. */
  lemma StemOfJson(x: string)
    requires x != ""
    ensures Stem(x + ".json") == x
  {
    assert x + ".json" == x + ['.'] + "json";
    StemOfExtension(x, "json");
  }

  /** The stem of `x + "." + ext` is `x` when neither part is empty and `ext` has no dot. */
  lemma StemOfExtension(x: string, ext: string)
    requires x != "" && ext != "" && '.' !in ext
    ensures Stem(x + ['.'] + ext) == x
  {
    var name := x + ['.'] + ext;
    LastIndexOfAfter(x + ['.'], ext, '.');
    assert x + ['.'] + ext == (x + ['.']) + ext;
    assert name[..|x|] == x;
  }

  /** `(p + [sep] + q).split(sep)[0] == p` exactly when `p` holds no `sep`. */
  lemma {:induction false} SplitHeadOfConcat(p: string, q: string, sep: char)
    ensures SplitHead(p + [sep] + q, sep) == p <==> sep !in p
  {
    if sep !in p {
      if p != [] {
        assert (p + [sep] + q)[1..] == p[1..] + [sep] + q;
        SplitHeadOfConcat(p[1..], q, sep);
      }
    }
  }
}
