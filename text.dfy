/**
  String helpers with Python's meaning: `sep.join(xs)`, `s.split(sep)` and a split
  at the first separator, all for a one-character separator, together with the
  round trips between joining and splitting.
 */
module Text {

  /** The number of occurrences of `c` in `s`. */
  function Count(s: string, c: char): (n: nat)
    ensures n == 0 <==> c !in s
    ensures n <= |s|
  {
    if |s| == 0 then 0
    else (if s[0] == c then 1 else 0) + Count(s[1..], c)
  }

  /** Python's `sep.join(xs)` for a one-character separator. */
  function Join(xs: seq<string>, sep: char): (s: string)
  {
    if |xs| == 0 then ""
    else if |xs| == 1 then xs[0]
    else xs[0] + [sep] + Join(xs[1..], sep)
  }

  /**
    Python's `s.split(sep)`: the pieces between the occurrences of `sep`.
    There is always one piece more than there are separators, and no piece
    holds a separator.
   */
  function Split(s: string, sep: char): (pieces: seq<string>)
    ensures |pieces| == Count(s, sep) + 1
    ensures forall i :: 0 <= i < |pieces| ==> sep !in pieces[i]
    decreases |s|
  {
    if |s| == 0 then [""]
    else
      var rest := Split(s[1..], sep);
      if s[0] == sep then [""] + rest
      else [[s[0]] + rest[0]] + rest[1..]
  }

  /**
    The part of `s` before its first `sep` and the part after it (Python's
    `s.partition(sep)` without the separator); without a separator the whole of
    `s` is the first part.
   */
  function SplitOnce(s: string, sep: char): (parts: (string, string))
    ensures sep !in parts.0
    ensures sep in s ==> s == parts.0 + [sep] + parts.1
    ensures sep !in s ==> parts == (s, "")
    decreases |s|
  {
    if |s| == 0 then ("", "")
    else if s[0] == sep then ("", s[1..])
    else
      var (k, v) := SplitOnce(s[1..], sep);
      assert s == [s[0]] + s[1..];
      ([s[0]] + k, v)
  }

  lemma {:induction false} CountAppend(a: string, b: string, c: char)
    ensures Count(a + b, c) == Count(a, c) + Count(b, c)
    decreases |a|
  {
    if |a| == 0 {
      assert a + b == b;
    } else {
      assert (a + b)[1..] == a[1..] + b;
      CountAppend(a[1..], b, c);
    }
  }

  lemma {:induction false} JoinAppend(xs: seq<string>, ys: seq<string>, sep: char)
    requires |xs| >= 1 && |ys| >= 1
    ensures Join(xs + ys, sep) == Join(xs, sep) + [sep] + Join(ys, sep)
    decreases |xs|
  {
    if |xs| == 1 {
      assert (xs + ys)[1..] == ys;
    } else {
      assert (xs + ys)[1..] == xs[1..] + ys;
      JoinAppend(xs[1..], ys, sep);
    }
  }

  /** A piece with no separator, followed by a separator, splits off as the first piece. */
  lemma {:induction false} SplitPrefix(x: string, rest: string, sep: char)
    requires sep !in x
    ensures Split(x + [sep] + rest, sep) == [x] + Split(rest, sep)
    decreases |x|
  {
    if |x| > 0 {
      assert (x + [sep] + rest)[1..] == x[1..] + [sep] + rest;
      SplitPrefix(x[1..], rest, sep);
      assert [x[0]] + x[1..] == x;
    } else {
      assert x + [sep] + rest == [sep] + rest;
      assert ([sep] + rest)[1..] == rest;
    }
  }

  lemma {:induction false} SplitNoSeparator(x: string, sep: char)
    requires sep !in x
    ensures Split(x, sep) == [x]
    decreases |x|
  {
    if |x| > 0 {
      SplitNoSeparator(x[1..], sep);
      assert [x[0]] + x[1..] == x;
    }
  }

  /**
    Joining then splitting gives back the pieces exactly when there is at least
    one piece and no piece holds the separator.
   */
  lemma {:induction false} JoinSplit(xs: seq<string>, sep: char)
    requires |xs| >= 1
    requires forall i :: 0 <= i < |xs| ==> sep !in xs[i]
    ensures Split(Join(xs, sep), sep) == xs
    decreases |xs|
  {
    if |xs| == 1 {
      SplitNoSeparator(xs[0], sep);
    } else {
      JoinSplit(xs[1..], sep);
      SplitPrefix(xs[0], Join(xs[1..], sep), sep);
      assert [xs[0]] + xs[1..] == xs;
    }
  }

  /** A key with no separator is recovered, with its value, from `key sep value`. */
  lemma {:induction false} SplitOnceOf(k: string, v: string, sep: char)
    requires sep !in k
    ensures SplitOnce(k + [sep] + v, sep) == (k, v)
    decreases |k|
  {
    if |k| == 0 {
      assert k + [sep] + v == [sep] + v;
      assert ([sep] + v)[1..] == v;
    } else {
      assert (k + [sep] + v)[1..] == k[1..] + [sep] + v;
      SplitOnceOf(k[1..], v, sep);
      assert [k[0]] + k[1..] == k;
    }
  }

  /** A joined string holds every separator of its pieces and the ones between them. */
  lemma {:induction false} CountJoin(xs: seq<string>, sep: char, j: nat)
    requires j < |xs|
    ensures Count(Join(xs, sep), sep) >= |xs| - 1 + Count(xs[j], sep)
    decreases |xs|
  {
    if |xs| > 1 {
      var tail := Join(xs[1..], sep);
      CountAppend(xs[0] + [sep], tail, sep);
      CountAppend(xs[0], [sep], sep);
      assert Count([sep], sep) == 1;
      CountJoin(xs[1..], sep, if j == 0 then 0 else j - 1);
    }
  }
}
