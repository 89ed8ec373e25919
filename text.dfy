/** The few pieces of Python string behaviour the core relies on: `str()` and `int()`
    on integers, `sep.join(xs)` and `s.split(c)`. */
module Text {
  import opened Wrappers

  predicate IsDigit(c: char) { '0' <= c <= '9' }

  predicate AllDigits(s: string) { forall i :: 0 <= i < |s| ==> IsDigit(s[i]) }

  function DigitChar(d: nat): (c: char)
    requires d < 10
    ensures IsDigit(c) && DigitValue(c) == d
  {
    ('0' as int + d) as char
  }

  function DigitValue(c: char): (d: nat)
    requires IsDigit(c)
    ensures d < 10
  {
    c as int - '0' as int
  }

  /** Decimal rendering of a non-negative integer, as `str(n)`: no sign, no leading zeros. */
  function NatToString(n: nat): (s: string)
    ensures |s| >= 1 && AllDigits(s)
    ensures n > 0 ==> s[0] != '0'
    decreases n
  {
    if n < 10 then [DigitChar(n)] else NatToString(n / 10) + [DigitChar(n % 10)]
  }

  /** Python `str(i)` on an integer. */
  function IntToString(i: int): (s: string)
    ensures |s| >= 1 && (s[0] == '-' <==> i < 0)
    ensures AllDigits(if i < 0 then s[1..] else s)
  {
    if i < 0 then "-" + NatToString(-i) else NatToString(i)
  }

  /** The value of a string of decimal digits, most significant first. */
  function ParseDigits(s: string): nat
    requires AllDigits(s)
  {
    if s == [] then 0 else ParseDigits(s[..|s| - 1]) * 10 + DigitValue(s[|s| - 1])
  }

  /** Python `int(s)` on the strings the core produces: an optional minus sign followed by
      at least one decimal digit; anything else raises (`None`). */
  function ParseInt(s: string): (r: Option<int>)
    ensures r.Some? <==> (|s| >= 1 && AllDigits(s)) || (|s| >= 2 && s[0] == '-' && AllDigits(s[1..]))
    ensures r.Some? ==> (r.value < 0 ==> s[0] == '-')
  {
    if |s| >= 2 && s[0] == '-' && AllDigits(s[1..]) then Some(0 - ParseDigits(s[1..]))
    else if |s| >= 1 && AllDigits(s) then Some(ParseDigits(s))
    else None
  }

  lemma {:induction false} ParseDigitsOfNatToString(n: nat)
    ensures ParseDigits(NatToString(n)) == n
    decreases n
  {
    var s := NatToString(n);
    if n >= 10 {
      assert s[..|s| - 1] == NatToString(n / 10);
      ParseDigitsOfNatToString(n / 10);
    }
  }

  /** `int(str(i)) == i`: integer identifiers survive a trip through their text form. */
  lemma IntStringRoundTrip(i: int)
    ensures ParseInt(IntToString(i)) == Some(i)
  {
    var s := IntToString(i);
    if i < 0 {
      var digits := NatToString(-i);
      assert s[1..] == digits;
      ParseDigitsOfNatToString(-i);
    } else {
      assert s == NatToString(i);
      ParseDigitsOfNatToString(i);
    }
  }

  /** Distinct integers have distinct text forms. */
  lemma IntToStringInjective(i: int, j: int)
    requires IntToString(i) == IntToString(j)
    ensures i == j
  {
    IntStringRoundTrip(i);
    IntStringRoundTrip(j);
  }

  /** Python `sep.join(xs)`. */
  function Join(xs: seq<string>, sep: string): (r: string)
    ensures |xs| == 0 ==> r == ""
    ensures |xs| == 1 ==> r == xs[0]
    ensures |xs| >= 2 ==> xs[0] + sep <= r
  {
    if |xs| == 0 then ""
    else if |xs| == 1 then xs[0]
    else xs[0] + sep + Join(xs[1..], sep)
  }

  /** Python `s.split(c)` for a one-character separator: always at least one piece. */
  function Split(s: string, c: char): (pieces: seq<string>)
    ensures |pieces| >= 1
  {
    if |s| == 0 then [""]
    else if s[0] == c then [""] + Split(s[1..], c)
    else
      var rest := Split(s[1..], c);
      [[s[0]] + rest[0]] + rest[1..]
  }

  lemma {:induction false} SplitWithout(s: string, c: char)
    requires c !in s
    ensures Split(s, c) == [s]
  {
    if |s| > 0 {
      assert c !in s[1..];
      SplitWithout(s[1..], c);
      assert [s[0]] + s[1..] == s;
    }
  }

  lemma {:induction false} SplitAtFirst(a: string, c: char, rest: string)
    requires c !in a
    ensures Split(a + [c] + rest, c) == [a] + Split(rest, c)
  {
    if |a| == 0 {
      assert a + [c] + rest == [c] + rest;
      assert ([c] + rest)[1..] == rest;
    } else {
      assert (a + [c] + rest)[1..] == a[1..] + [c] + rest;
      assert c !in a[1..];
      SplitAtFirst(a[1..], c, rest);
      assert [a[0]] + a[1..] == a;
    }
  }

  /** Splitting a comma-free list joined on that character gives the list back. The list
      must not be empty: `"".split(c)` is `[""]`, not `[]`. */
  lemma {:induction false} SplitJoin(xs: seq<string>, c: char)
    requires |xs| >= 1
    requires forall i :: 0 <= i < |xs| ==> c !in xs[i]
    ensures Split(Join(xs, [c]), c) == xs
  {
    if |xs| == 1 {
      SplitWithout(xs[0], c);
    } else {
      SplitJoin(xs[1..], c);
      SplitAtFirst(xs[0], c, Join(xs[1..], [c]));
      assert [xs[0]] + xs[1..] == xs;
    }
  }

  /** Joining the pieces of a split gives the string back, for every string. */
  lemma {:induction false} JoinSplit(s: string, c: char)
    ensures Join(Split(s, c), [c]) == s
  {
    if |s| > 0 {
      JoinSplit(s[1..], c);
      var rest := Split(s[1..], c);
      if s[0] == c {
        assert ([""] + rest)[1..] == rest;
      } else {
        assert ([[s[0]] + rest[0]] + rest[1..])[1..] == rest[1..];
      }
    }
  }

  /** The pieces with `t` put in front of every piece but the first. */
  function Indented(xs: seq<string>, t: string): (ys: seq<string>)
    ensures |ys| == |xs|
    ensures forall i :: 0 <= i < |xs| ==> ys[i] == (if i == 0 then xs[i] else t + xs[i])
  {
    seq(|xs|, i requires 0 <= i < |xs| => if i == 0 then xs[i] else t + xs[i])
  }

  /** Text in front of a join lands in its first piece. */
  lemma JoinPrependFirst(ys: seq<string>, sep: string, t: string)
    requires |ys| >= 1
    ensures t + Join(ys, sep) == Join([t + ys[0]] + ys[1..], sep)
  {
    var zs := [t + ys[0]] + ys[1..];
    assert zs[1..] == ys[1..];
  }

  /** A join on `c` followed by `t` is a join on `c` alone whose later pieces start with `t`:
      `", ".join(xs)` splits on `,` into `xs[0]`, `" " + xs[1]`, ... */
  lemma {:induction false} JoinLongSeparator(xs: seq<string>, c: char, t: string)
    requires |xs| >= 1
    ensures Join(xs, [c] + t) == Join(Indented(xs, t), [c])
    decreases |xs|
  {
    if |xs| >= 2 {
      var inner := Indented(xs[1..], t);
      JoinLongSeparator(xs[1..], c, t);
      JoinPrependFirst(inner, [c], t);
      var whole := Indented(xs, t);
      assert [t + inner[0]] + inner[1..] == whole[1..];
      calc {
        Join(xs, [c] + t);
        xs[0] + ([c] + t) + Join(inner, [c]);
        xs[0] + [c] + (t + Join(inner, [c]));
        xs[0] + [c] + Join(whole[1..], [c]);
        Join(whole, [c]);
      }
    }
  }

  /** Splitting a join on a separator that starts with `c` (and holds no other `c`) on `c`
      alone gives the pieces back, each but the first behind the rest of the separator. */
  lemma SplitLongJoin(xs: seq<string>, sep: string, c: char)
    requires |sep| >= 1 && sep[0] == c && c !in sep[1..]
    requires |xs| >= 1 && forall i :: 0 <= i < |xs| ==> c !in xs[i]
    ensures Split(Join(xs, sep), c) == Indented(xs, sep[1..])
  {
    var t := sep[1..];
    assert sep == [c] + t;
    JoinLongSeparator(xs, c, t);
    var ys := Indented(xs, t);
    forall i | 0 <= i < |ys| ensures c !in ys[i] {
      assert c !in xs[i];
    }
    SplitJoin(ys, c);
  }

  /** Number of occurrences of `c` in `s`. */
  function Count(s: string, c: char): nat
  {
    if |s| == 0 then 0 else (if s[0] == c then 1 else 0) + Count(s[1..], c)
  }

  lemma {:induction false} CountAppend(a: string, b: string, c: char)
    ensures Count(a + b, c) == Count(a, c) + Count(b, c)
  {
    if |a| > 0 {
      assert (a + b)[0] == a[0] && (a + b)[1..] == a[1..] + b;
      CountAppend(a[1..], b, c);
    } else {
      assert a + b == b;
    }
  }

  lemma {:induction false} CountAbsent(s: string, c: char)
    requires c !in s
    ensures Count(s, c) == 0
  {
    if |s| > 0 {
      assert c !in s[1..];
      CountAbsent(s[1..], c);
    }
  }

  /** A join of `n >= 1` pieces free of `c`, with a separator holding `c` once, holds
      exactly `n - 1` occurrences of `c`: one per separator. */
  lemma {:induction false} CountJoin(xs: seq<string>, sep: string, c: char)
    requires |xs| >= 1
    requires forall i :: 0 <= i < |xs| ==> c !in xs[i]
    requires Count(sep, c) == 1
    ensures Count(Join(xs, sep), c) == |xs| - 1
  {
    CountAbsent(xs[0], c);
    if |xs| > 1 {
      CountJoin(xs[1..], sep, c);
      CountAppend(xs[0] + sep, Join(xs[1..], sep), c);
      CountAppend(xs[0], sep, c);
    }
  }
}
