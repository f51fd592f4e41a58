/** Bullet lists as both markdown builders write them: one line per item,
    `prefix + item + "\n"`, in list order, appended with `+=` inside a `for`
    loop.  A parser for such a block is the partner that shows nothing is lost. */
module Markdown {
  import opened Wrappers
  import opened PyText

  /** The block a loop `for x in xs: md += prefix + x + "\n"` appends. */
  function Bullets(prefix: string, xs: seq<string>): string
    decreases |xs|
  {
    if xs == [] then "" else prefix + xs[0] + "\n" + Bullets(prefix, xs[1..])
  }

  lemma {:induction false} BulletsSnoc(prefix: string, xs: seq<string>, x: string)
    ensures Bullets(prefix, xs + [x]) == Bullets(prefix, xs) + prefix + x + "\n"
    decreases |xs|
  {
    if xs == [] {
      assert xs + [x] == [x];
    } else {
      assert (xs + [x])[1..] == xs[1..] + [x];
      BulletsSnoc(prefix, xs[1..], x);
    }
  }

  /** The loop itself: appends one line per item to `md`, in order. */
  method AppendBullets(md: string, prefix: string, xs: seq<string>) returns (r: string)
    ensures r == md + Bullets(prefix, xs)
  {
    r := md;
    for i := 0 to |xs|
      invariant r == md + Bullets(prefix, xs[..i])
    {
      BulletsSnoc(prefix, xs[..i], xs[i]);
      assert xs[..i + 1] == xs[..i] + [xs[i]];
      r := r + prefix + xs[i] + "\n";
    }
    assert xs[..|xs|] == xs;
  }

  /** Splits the first line off a block: it must start with `prefix` and end in a newline. */
  function ParseLine(prefix: string, s: string): (r: Option<(string, string)>)
    ensures r.Some? ==> |r.value.1| < |s|
  {
    if |prefix| <= |s| && s[..|prefix|] == prefix then
      match IndexOf(s[|prefix|..], '\n')
      case None => None
      case Some(k) => Some((s[|prefix|..|prefix| + k], s[|prefix| + k + 1..]))
    else None
  }

  /** Reads a bullet block back: every line must start with `prefix`; the items are
      the rests of the lines. */
  function ParseBullets(prefix: string, s: string): Option<seq<string>>
    decreases |s|
  {
    if s == "" then Some([])
    else
      match ParseLine(prefix, s)
      case None => None
      case Some((item, rest)) =>
        match ParseBullets(prefix, rest)
        case None => None
        case Some(items) => Some([item] + items)
  }

  /** Parsing one line off the front of a block. */
  lemma ParseLineOfLine(prefix: string, x: string, rest: string)
    requires '\n' !in x
    ensures ParseLine(prefix, prefix + x + "\n" + rest) == Some((x, rest))
  {
    var t := x + ['\n'] + rest;
    assert prefix + x + "\n" + rest == prefix + t;
    IndexOfBefore(x, '\n', rest);
    assert t[..|x|] == x && t[|x| + 1..] == rest;
    ParseLineOfConcat(prefix, t, |x|);
  }

  /** `ParseLine` on `prefix + t` reads `t` up to its first newline, at `k`. */
  lemma ParseLineOfConcat(prefix: string, t: string, k: nat)
    requires IndexOf(t, '\n') == Some(k)
    ensures ParseLine(prefix, prefix + t) == Some((t[..k], t[k + 1..]))
  {
    var s := prefix + t;
    var n := |prefix|;
    assert s[..n] == prefix;
    var u := s[n..];
    assert u == t;
    assert s[n..n + k] == u[..k];
    assert s[n + k + 1..] == u[k + 1..];
  }

  /** Round trip: a bullet block of one-line items parses back to exactly those items,
      so the block keeps every item, in order, and adds none. */
  lemma {:induction false} ParseBulletsOfBullets(prefix: string, xs: seq<string>)
    requires forall i :: 0 <= i < |xs| ==> '\n' !in xs[i]
    ensures ParseBullets(prefix, Bullets(prefix, xs)) == Some(xs)
    decreases |xs|
  {
    if xs != [] {
      var rest := Bullets(prefix, xs[1..]);
      var s := Bullets(prefix, xs);
      assert s == prefix + xs[0] + "\n" + rest;
      assert |s| > 0;
      ParseBulletsOfBullets(prefix, xs[1..]);
      ParseLineOfLine(prefix, xs[0], rest);
      assert ParseBullets(prefix, s) == Some([xs[0]] + xs[1..]);
      assert [xs[0]] + xs[1..] == xs;
    }
  }

  /** The block is empty exactly when the list is. */
  lemma BulletsEmpty(prefix: string, xs: seq<string>)
    ensures Bullets(prefix, xs) == "" <==> xs == []
  {
  }
}
