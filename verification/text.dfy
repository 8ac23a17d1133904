/** String helpers shared by the formatters: prefixes and infixes, `join`,
    and the decimal rendering of integers that template literals perform,
    together with a reader that inverts it. */
module Text {
  import opened Wrappers

  predicate IsPrefix(p: string, s: string)
  {
    |p| <= |s| && s[..|p|] == p
  }

  predicate IsSuffix(p: string, s: string)
  {
    |p| <= |s| && s[|s| - |p|..] == p
  }

  /** `p` occurs in `s` starting at index `k`. */
  predicate OccursAt(p: string, s: string, k: int)
  {
    0 <= k && k + |p| <= |s| && s[k..k + |p|] == p
  }

  predicate IsInfix(p: string, s: string)
  {
    exists k | 0 <= k <= |s| :: OccursAt(p, s, k)
  }

  /** An occurrence inside `m` is an occurrence inside `a + m + b`. */
  lemma OccursInside(p: string, a: string, m: string, b: string, k: int)
    requires OccursAt(p, m, k)
    ensures OccursAt(p, a + m + b, |a| + k)
  {
  }

  lemma PrefixOfConcat(a: string, b: string)
    ensures IsPrefix(a, a + b)
  {
  }

  lemma SuffixOfNested(a: string, b: string, c: string)
    ensures IsSuffix(c, a + (b + c))
  {
    assert a + (b + c) == (a + b) + c;
  }

  /** A three-part text opens with its first part and ends with its last. */
  lemma FramedBy(a: string, b: string, c: string)
    ensures IsPrefix(a, a + b + c) && IsSuffix(c, a + b + c)
  {
    assert (a + b + c)[..|a|] == a;
    assert (a + b + c)[|a + b + c| - |c|..] == c;
  }

  /** Cutting the first and last part off a three-part text leaves the
      middle one. */
  lemma MiddleOf(a: string, b: string, c: string)
    ensures (a + b + c)[|a|..|a + b + c| - |c|] == b
  {
  }

  /** Element `i` extends the blocks of the elements before it. */
  lemma ConcatMapSnoc<T>(xs: seq<T>, first: int, f: (int, T) -> string, i: int)
    requires 0 <= i < |xs|
    ensures ConcatMap(xs[..i + 1], first, f) == ConcatMap(xs[..i], first, f) + f(first + i, xs[i])
  {
    ConcatMapAppend(xs[..i], [xs[i]], first, f);
    assert xs[..i + 1] == xs[..i] + [xs[i]];
    assert ConcatMap([xs[i]], first + i, f) == f(first + i, xs[i]) + ConcatMap([xs[i]][1..], first + i + 1, f);
  }

  /** The blocks `f(first, xs[0])`, `f(first + 1, xs[1])`, ... one after
      the other: what a loop appending one numbered block per element
      builds. */
  function ConcatMap<T>(xs: seq<T>, first: int, f: (int, T) -> string): string
  {
    if |xs| == 0 then "" else f(first, xs[0]) + ConcatMap(xs[1..], first + 1, f)
  }

  /** Numbering runs on across a split of the element list. */
  lemma {:induction false} ConcatMapAppend<T>(a: seq<T>, b: seq<T>, first: int, f: (int, T) -> string)
    ensures ConcatMap(a + b, first, f) == ConcatMap(a, first, f) + ConcatMap(b, first + |a|, f)
  {
    if |a| == 0 {
      assert a + b == b;
    } else {
      assert (a + b)[1..] == a[1..] + b;
      ConcatMapAppend(a[1..], b, first + 1, f);
    }
  }

  /** Element `i` contributes the block numbered `first + i`, after the
      blocks of the elements before it and before those of the ones after. */
  lemma ConcatMapAt<T>(xs: seq<T>, first: int, f: (int, T) -> string, i: int)
    requires 0 <= i < |xs|
    ensures ConcatMap(xs, first, f)
         == ConcatMap(xs[..i], first, f) + f(first + i, xs[i]) + ConcatMap(xs[i + 1..], first + i + 1, f)
  {
    var a, b := xs[..i], xs[i..];
    assert xs == a + b;
    ConcatMapAppend(a, b, first, f);
    assert b[1..] == xs[i + 1..];
  }

  /** Element `i`'s block sits right after the blocks of the elements
      before it. */
  lemma ConcatMapBlockIn<T>(xs: seq<T>, first: int, f: (int, T) -> string, i: int)
    requires 0 <= i < |xs|
    ensures OccursAt(f(first + i, xs[i]), ConcatMap(xs, first, f), |ConcatMap(xs[..i], first, f)|)
    ensures |ConcatMap(xs[..i + 1], first, f)| == |ConcatMap(xs[..i], first, f)| + |f(first + i, xs[i])|
  {
    ConcatMapAt(xs, first, f, i);
    OccursInside(f(first + i, xs[i]), ConcatMap(xs[..i], first, f), f(first + i, xs[i]),
                 ConcatMap(xs[i + 1..], first + i + 1, f), 0);
    ConcatMapSnoc(xs, first, f, i);
  }

  /** Inside any surrounding text, element `i`'s block sits right after
      the blocks of the elements before it. */
  lemma ConcatMapBlockAt<T>(pre: string, xs: seq<T>, first: int, f: (int, T) -> string, post: string, i: int)
    requires 0 <= i < |xs|
    ensures OccursAt(f(first + i, xs[i]), pre + ConcatMap(xs, first, f) + post,
                     |pre| + |ConcatMap(xs[..i], first, f)|)
    ensures |ConcatMap(xs[..i + 1], first, f)| == |ConcatMap(xs[..i], first, f)| + |f(first + i, xs[i])|
  {
    var e := f(first + i, xs[i]);
    var before := pre + ConcatMap(xs[..i], first, f);
    var after := ConcatMap(xs[i + 1..], first + i + 1, f) + post;
    ConcatMapAt(xs, first, f, i);
    assert pre + ConcatMap(xs, first, f) + post == before + e + after;
    assert OccursAt(e, e, 0);
    OccursInside(e, before, e, after, 0);
    ConcatMapAt(xs[..i + 1], first, f, i);
    assert xs[..i + 1][..i] == xs[..i];
    assert xs[..i + 1][i + 1..] == [];
  }

  /** An occurrence inside an occurrence. */
  lemma OccursWithin(p: string, m: string, s: string, j: int, k: int)
    requires OccursAt(p, m, j) && OccursAt(m, s, k)
    ensures OccursAt(p, s, k + j)
  {
    forall t | 0 <= t < |p|
      ensures s[k + j + t] == p[t]
    {
      assert s[k + j + t] == s[k..k + |m|][j + t];
    }
  }

  /** `Array.prototype.join`: the parts separated by `sep`. */
  function Join(parts: seq<string>, sep: string): string
  {
    if |parts| == 0 then ""
    else if |parts| == 1 then parts[0]
    else parts[0] + sep + Join(parts[1..], sep)
  }

  predicate IsDigit(c: char)
  {
    '0' <= c <= '9'
  }

  predicate AllDigits(s: string)
  {
    forall i :: 0 <= i < |s| ==> IsDigit(s[i])
  }

  function DigitChar(d: int): (c: char)
    requires 0 <= d < 10
    ensures IsDigit(c) && c as int - '0' as int == d
  {
    (d + '0' as int) as char
  }

  /** Decimal digits of `n`, most significant first, without leading zeros. */
  function NatToString(n: nat): (s: string)
    ensures |s| > 0 && AllDigits(s)
    ensures s[0] == '0' ==> n == 0
  {
    if n < 10 then [DigitChar(n)] else NatToString(n / 10) + [DigitChar(n % 10)]
  }

  /** How JavaScript prints an integer-valued number. */
  function IntToString(n: int): string
  {
    if n < 0 then "-" + NatToString(-n) else NatToString(n)
  }

  /** The number a string of digits denotes. */
  function DigitsValue(d: string): nat
    requires AllDigits(d)
  {
    if |d| == 0 then 0
    else DigitsValue(d[..|d| - 1]) * 10 + (d[|d| - 1] as int - '0' as int)
  }

  /** Length of the longest all-digit prefix of `s`. */
  function DigitRun(s: string): (k: nat)
    ensures k <= |s| && AllDigits(s[..k])
    ensures k < |s| ==> !IsDigit(s[k])
  {
    if |s| > 0 && IsDigit(s[0]) then
      var k := 1 + DigitRun(s[1..]);
      assert s[..k] == [s[0]] + s[1..][..k - 1];
      k
    else 0
  }

  /** Reads a non-empty run of digits from the front of `s`. */
  function ReadNat(s: string): (r: Option<(nat, string)>)
    ensures r.Some? ==> |r.value.1| < |s|
  {
    var k := DigitRun(s);
    if k == 0 then None else Some((DigitsValue(s[..k]), s[k..]))
  }

  /** Reads an optionally negative decimal integer from the front of `s`,
      returning it with the rest of the string. */
  function ReadInt(s: string): Option<(int, string)>
  {
    if |s| > 0 && s[0] == '-' then
      match ReadNat(s[1..])
      case Some((v, rest)) => var r: (int, string) := (-(v as int), rest); Some(r)
      case None => None
    else
      match ReadNat(s)
      case Some((v, rest)) => var r: (int, string) := (v as int, rest); Some(r)
      case None => None
  }

  lemma {:induction false} NatToStringValue(n: nat)
    ensures DigitsValue(NatToString(n)) == n
  {
    if n >= 10 {
      var d := NatToString(n / 10);
      var s := NatToString(n);
      assert s == d + [DigitChar(n % 10)];
      assert s[..|s| - 1] == d;
      NatToStringValue(n / 10);
    }
  }

  lemma {:induction false} DigitRunOfDigits(d: string, rest: string)
    requires AllDigits(d)
    requires |rest| == 0 || !IsDigit(rest[0])
    ensures DigitRun(d + rest) == |d|
  {
    if |d| > 0 {
      assert (d + rest)[1..] == d[1..] + rest;
      DigitRunOfDigits(d[1..], rest);
    } else {
      assert d + rest == rest;
    }
  }

  /** An integer printed between an opening text and a closing one that
      does not start with a digit is read back after the opening, and what
      follows it is the closing text and the rest. */
  lemma ReadFramedInt(open: string, n: int, close: string, rest: string)
    requires |close| > 0 && !IsDigit(close[0])
    ensures IsPrefix(open, open + IntToString(n) + close + rest)
    ensures ReadInt((open + IntToString(n) + close + rest)[|open|..]) == Some((n, close + rest))
  {
    var d := IntToString(n);
    var s := open + d + close + rest;
    assert s == open + (d + (close + rest));
    assert s[..|open|] == open;
    assert s[|open|..] == d + (close + rest);
    ReadIntToString(n, close + rest);
  }

  /** Reading back a printed integer recovers it, as long as what follows
      it does not start with a digit. */
  lemma ReadIntToString(n: int, rest: string)
    requires |rest| == 0 || !IsDigit(rest[0])
    ensures ReadInt(IntToString(n) + rest) == Some((n, rest))
  {
    var m: nat := if n < 0 then -n else n;
    var d := NatToString(m);
    DigitRunOfDigits(d, rest);
    NatToStringValue(m);
    assert (d + rest)[..|d|] == d;
    assert (d + rest)[|d|..] == rest;
    if n < 0 {
      assert IntToString(n) + rest == "-" + (d + rest);
      assert ("-" + (d + rest))[1..] == d + rest;
    }
  }
}
