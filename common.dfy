/** Small helpers shared by the dashboard model: an optional value, JavaScript
    truthiness of optional strings and numbers, and the decimal rendering that a
    template string such as `${id}` applies to an integer. */
module Common {

  datatype Option<+T> = None | Some(value: T)

  /** A string is truthy in JavaScript when it is present and non-empty. */
  predicate TruthyString(s: Option<string>)
  {
    s.Some? && s.value != ""
  }

  /** A number is truthy in JavaScript when it is present and not zero
      (NaN does not arise in this model: numbers are integers). */
  predicate TruthyNumber(n: Option<int>)
  {
    n.Some? && n.value != 0
  }

  function DigitChar(d: nat): (c: char)
    requires d < 10
    ensures '0' <= c <= '9'
    ensures c as int - '0' as int == d
  {
    ('0' as int + d) as char
  }

  /** The decimal digits of `n`, most significant first, as `n.toString()`
      gives them for a safe integer. */
  function NatToDecimal(n: nat): (s: string)
    ensures |s| >= 1
    ensures n < 10 <==> |s| == 1
    ensures forall i :: 0 <= i < |s| ==> '0' <= s[i] <= '9'
    decreases n
  {
    if n < 10 then [DigitChar(n)] else NatToDecimal(n / 10) + [DigitChar(n % 10)]
  }

  /** `${i}` for an integer `i`: a minus sign before the digits of a negative one. */
  function IntToDecimal(i: int): (s: string)
    ensures |s| >= 1
    ensures s[0] == '-' <==> i < 0
  {
    if i < 0 then "-" + NatToDecimal(-i) else NatToDecimal(i)
  }

  /** Two natural numbers never share a decimal rendering. */
  lemma {:induction false} NatToDecimalInjective(a: nat, b: nat)
    requires NatToDecimal(a) == NatToDecimal(b)
    ensures a == b
    decreases a
  {
    var s := NatToDecimal(a);
    if a < 10 {
      assert |NatToDecimal(b)| == 1;
      assert s[0] == DigitChar(a) && NatToDecimal(b)[0] == DigitChar(b);
    } else {
      assert |NatToDecimal(b)| != 1;
      var pa, pb := NatToDecimal(a / 10), NatToDecimal(b / 10);
      assert s == pa + [DigitChar(a % 10)];
      assert s == pb + [DigitChar(b % 10)];
      assert |pa| == |pb|;
      assert DigitChar(a % 10) == s[|s| - 1] == DigitChar(b % 10);
      assert pa == s[..|s| - 1] == pb;
      NatToDecimalInjective(a / 10, b / 10);
    }
  }

  /** Distinct integers render as distinct strings. */
  lemma IntToDecimalInjective(a: int, b: int)
    requires IntToDecimal(a) == IntToDecimal(b)
    ensures a == b
  {
    var s := IntToDecimal(a);
    if a < 0 {
      assert b < 0;
      assert NatToDecimal(-a) == s[1..] == NatToDecimal(-b);
      NatToDecimalInjective(-a, -b);
    } else {
      assert b >= 0;
      NatToDecimalInjective(a, b);
    }
  }

  /** Cancelling a common prefix and suffix: equal framed strings have equal middles. */
  lemma FramedEqual(p: string, x: string, y: string, t: string)
    requires p + x + t == p + y + t
    ensures x == y
  {
    var s := p + x + t;
    assert |x| == |y|;
    assert x == s[|p|..|p| + |x|];
    assert y == (p + y + t)[|p|..|p| + |y|];
  }

  /** `Array.prototype.filter`: the elements satisfying `p`, in their original order. */
  function Filter<T(!new)>(s: seq<T>, p: T -> bool): (r: seq<T>)
    ensures |r| <= |s|
    ensures forall x :: x in r <==> x in s && p(x)
    decreases |s|
  {
    if s == [] then [] else (if p(s[0]) then [s[0]] else []) + Filter(s[1..], p)
  }

  /** Filtering distributes over concatenation. */
  lemma {:induction false} FilterConcat<T(!new)>(a: seq<T>, b: seq<T>, p: T -> bool)
    ensures Filter(a + b, p) == Filter(a, p) + Filter(b, p)
    decreases |a|
  {
    if a == [] {
      assert a + b == b;
    } else {
      assert (a + b)[0] == a[0] && (a + b)[1..] == a[1..] + b;
      FilterConcat(a[1..], b, p);
    }
  }

  /** A filter that keeps every element keeps the sequence as it is. */
  lemma {:induction false} FilterKeepsAll<T(!new)>(s: seq<T>, p: T -> bool)
    requires forall x :: x in s ==> p(x)
    ensures Filter(s, p) == s
    decreases |s|
  {
    if s != [] {
      FilterKeepsAll(s[1..], p);
    }
  }

  /** A filter that rejects exactly the element at index `k` removes that
      element and keeps the others in order. */
  lemma FilterDropsOne<T(!new)>(s: seq<T>, k: nat, p: T -> bool)
    requires k < |s| && !p(s[k])
    requires forall i :: 0 <= i < |s| && i != k ==> p(s[i])
    ensures Filter(s, p) == s[..k] + s[k + 1..]
  {
    FilterKeepsSlice(s, 0, k, p);
    FilterKeepsSlice(s, k + 1, |s|, p);
    SplitAround(s, k);
    FilterAroundOne(s[..k], s[k], s[k + 1..], p);
  }

  /** A sequence is its prefix before `k`, its element at `k` and the rest. */
  lemma SplitAround<T>(s: seq<T>, k: nat)
    requires k < |s|
    ensures s == s[..k] + [s[k]] + s[k + 1..]
    ensures s[0..k] == s[..k] && s[k + 1..|s|] == s[k + 1..]
  {
  }

  /** Between two stretches the filter keeps, one rejected element is dropped. */
  lemma FilterAroundOne<T(!new)>(pre: seq<T>, x: T, post: seq<T>, p: T -> bool)
    requires Filter(pre, p) == pre && !p(x) && Filter(post, p) == post
    ensures Filter(pre + [x] + post, p) == pre + post
  {
    var rest := [x] + post;
    assert rest[0] == x && rest[1..] == post;
    assert Filter(rest, p) == post;
    FilterConcat(pre, rest, p);
    assert pre + [x] + post == pre + rest;
  }

  /** A slice whose every element passes the filter is kept as it is. */
  lemma FilterKeepsSlice<T(!new)>(s: seq<T>, lo: nat, hi: nat, p: T -> bool)
    requires lo <= hi <= |s|
    requires forall i :: lo <= i < hi ==> p(s[i])
    ensures Filter(s[lo..hi], p) == s[lo..hi]
  {
    forall y | y in s[lo..hi]
      ensures p(y)
    {
      var i :| 0 <= i < hi - lo && s[lo..hi][i] == y;
      assert y == s[lo + i];
    }
    FilterKeepsAll(s[lo..hi], p);
  }

  /** `s.filter(p).length`. */
  function Count<T(!new)>(s: seq<T>, p: T -> bool): (n: nat)
    ensures n <= |s|
  {
    |Filter(s, p)|
  }

  /** Counting a non-empty sequence: its head, then its tail. */
  lemma CountCons<T(!new)>(s: seq<T>, p: T -> bool)
    requires s != []
    ensures Count(s, p) == (if p(s[0]) then 1 else 0) + Count(s[1..], p)
  {
  }

  /** Counting over a concatenation adds up. */
  lemma CountConcat<T(!new)>(a: seq<T>, b: seq<T>, p: T -> bool)
    ensures Count(a + b, p) == Count(a, p) + Count(b, p)
  {
    FilterConcat(a, b, p);
  }

  /** Every element either satisfies `p` or does not, so the two counts add up. */
  lemma {:induction false} CountComplement<T(!new)>(s: seq<T>, p: T -> bool, q: T -> bool)
    requires forall x :: q(x) == !p(x)
    ensures Count(s, p) + Count(s, q) == |s|
    decreases |s|
  {
    if s != [] {
      CountCons(s, p);
      CountCons(s, q);
      CountComplement(s[1..], p, q);
    }
  }

  /** Replacing one element changes a count by what the old and the new element contribute. */
  lemma CountUpdate<T(!new)>(s: seq<T>, k: nat, x: T, p: T -> bool)
    requires k < |s|
    ensures Count(s[k := x], p) + (if p(s[k]) then 1 else 0)
            == Count(s, p) + (if p(x) then 1 else 0)
  {
    var pre, post := s[..k], s[k + 1..];
    assert s == pre + [s[k]] + post;
    assert s[k := x] == pre + [x] + post;
    CountConcat(pre + [s[k]], post, p);
    CountConcat(pre, [s[k]], p);
    CountConcat(pre + [x], post, p);
    CountConcat(pre, [x], p);
    CountCons([s[k]], p);
    CountCons([x], p);
  }
}
