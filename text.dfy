/** String helpers shared by every part of the model: Ruby's `Array#join`,
    integer-to-decimal conversion and substring containment. */
module Text {

  /** `parts.join(sep)` */
  function Join(parts: seq<string>, sep: string): string
  {
    if |parts| == 0 then ""
    else if |parts| == 1 then parts[0]
    else parts[0] + sep + Join(parts[1..], sep)
  }

  /** Joining one more part adds the separator and that part at the end. */
  lemma {:induction false} JoinSnoc(parts: seq<string>, last: string, sep: string)
    ensures Join(parts + [last], sep) ==
            if parts == [] then last else Join(parts, sep) + sep + last
  {
    if |parts| <= 1 {
    } else {
      assert (parts + [last])[1..] == parts[1..] + [last];
      JoinSnoc(parts[1..], last, sep);
    }
  }

  /** Joining a single part yields that part, whatever the separator. */
  lemma JoinSingleton(part: string, sep: string)
    ensures Join([part], sep) == part
  {
  }

  /** `xs.map(f)`, built from the back so that one more element adds its
      image at the end. */
  function MapSeq<T, U>(f: T -> U, xs: seq<T>): seq<U>
  {
    if xs == [] then [] else MapSeq(f, xs[..|xs| - 1]) + [f(xs[|xs| - 1])]
  }

  /** The mapped sequence has one image per element, in order. */
  lemma {:induction false} MapSeqAt<T, U>(f: T -> U, xs: seq<T>, i: nat)
    requires i < |xs|
    ensures |MapSeq(f, xs)| == |xs|
    ensures MapSeq(f, xs)[i] == f(xs[i])
  {
    var init := xs[..|xs| - 1];
    if i < |init| {
      MapSeqAt(f, init, i);
      assert xs[i] == init[i];
    } else if init != [] {
      MapSeqAt(f, init, 0);
    }
  }

  /** A prefix one longer is the prefix and the next element. */
  lemma TakeSnoc<T>(s: seq<T>, i: nat)
    requires i < |s|
    ensures s[..i + 1] == s[..i] + [s[i]]
  {
  }

  /** Sequence concatenation associates. */
  lemma AppendAssociates<T>(a: seq<T>, b: seq<T>, c: seq<T>)
    ensures a + b + c == a + (b + c)
  {
  }

  /** A string framed by a head and a tail starts with the head and ends
      with the tail. */
  lemma Framed<T>(head: seq<T>, middle: seq<T>, tail: seq<T>)
    ensures var r := head + middle + tail;
            |head| + |tail| <= |r| && r[..|head|] == head && r[|r| - |tail|..] == tail
  {
    var r := head + middle + tail;
    assert r[..|head|] == head;
    assert r[|r| - |tail|..] == tail;
  }

  /** The same for a call text built left to right: it starts with its
      head and ends with its two closing parts. */
  lemma FramedCall<T>(head: seq<T>, a: seq<T>, b: seq<T>, c: seq<T>, d: seq<T>, e: seq<T>,
                      close: seq<T>, end: seq<T>)
    ensures var r := head + a + b + c + d + e + close + end;
            |head| + |close| + |end| <= |r| && r[..|head|] == head && r[|r| - |close| - |end|..] == close + end
  {
    var middle := a + b + c + d + e;
    assert head + a + b + c + d + e + close + end == head + middle + (close + end);
    Framed(head, middle, close + end);
  }

  function DigitChar(d: nat): (c: char)
    requires d < 10
    ensures '0' <= c <= '9'
  {
    "0123456789"[d]
  }

  /** Decimal digits of a natural number, most significant first. */
  function NatDigits(n: nat): (r: string)
    ensures |r| >= 1
    ensures forall i :: 0 <= i < |r| ==> '0' <= r[i] <= '9'
    decreases n
  {
    if n < 10 then [DigitChar(n)] else NatDigits(n / 10) + [DigitChar(n % 10)]
  }

  /** Ruby's `Integer#to_s`: an optional minus sign, then the digits. */
  function Decimal(i: int): (r: string)
    ensures |r| >= 1
    ensures forall k :: 0 <= k < |r| ==> ('0' <= r[k] <= '9' || r[k] == '-')
    ensures (r[0] == '-') <==> i < 0
  {
    if i < 0 then "-" + NatDigits(-i) else NatDigits(i)
  }

  /** `s` occurs in `t` starting at index `i`. */
  predicate InfixAt(s: string, t: string, i: int)
  {
    0 <= i && i + |s| <= |t| && t[i..i + |s|] == s
  }

  /** `s` occurs as a contiguous piece of `t`. */
  ghost predicate IsInfix(s: string, t: string)
  {
    exists i :: InfixAt(s, t, i)
  }

  lemma InfixOfConcat(a: string, s: string, b: string)
    ensures IsInfix(s, a + s + b)
  {
    assert InfixAt(s, a + s + b, |a|);
  }

  lemma InfixTransitive(r: string, s: string, t: string)
    requires IsInfix(r, s) && IsInfix(s, t)
    ensures IsInfix(r, t)
  {
    var i :| InfixAt(r, s, i);
    var j :| InfixAt(s, t, j);
    forall k | 0 <= k < |r| ensures t[j + i + k] == r[k] {
      assert s[i + k] == t[j..j + |s|][i + k];
    }
    assert InfixAt(r, t, j + i);
  }

  lemma InfixOfPrefix(s: string, u: string)
    ensures IsInfix(s, s + u)
  {
    assert (s + u)[0..|s|] == s;
    assert InfixAt(s, s + u, 0);
  }

  lemma InfixOfSuffix(t: string, s: string)
    ensures IsInfix(s, t + s)
  {
    assert (t + s)[|t|..|t| + |s|] == s;
    assert InfixAt(s, t + s, |t|);
  }

  /** An infix of `t` is an infix of `t + u`. */
  lemma InfixGrowRight(s: string, t: string, u: string)
    requires IsInfix(s, t)
    ensures IsInfix(s, t + u)
  {
    var i :| InfixAt(s, t, i);
    assert (t + u)[i..i + |s|] == t[i..i + |s|];
    assert InfixAt(s, t + u, i);
  }

  /** An infix of `u` is an infix of `t + u`. */
  lemma InfixGrowLeft(s: string, t: string, u: string)
    requires IsInfix(s, u)
    ensures IsInfix(s, t + u)
  {
    var i :| InfixAt(s, u, i);
    assert (t + u)[|t| + i..|t| + i + |s|] == u[i..i + |s|];
    assert InfixAt(s, t + u, |t| + i);
  }

  /** In `a + b + c + d + e`, `b` starts at `|a|` and `d` after `a`, `b`
      and `c`. */
  lemma FiveParts(a: string, b: string, c: string, d: string, e: string)
    ensures InfixAt(b, a + b + c + d + e, |a|)
    ensures InfixAt(d, a + b + c + d + e, |a| + |b| + |c|)
  {
    var w := a + b + c + d + e;
    assert w == (a + b) + (c + d + e);
    assert w[|a|..|a| + |b|] == b;
    assert w == (a + b + c) + d + e;
    assert w[|a| + |b| + |c|..|a| + |b| + |c| + |d|] == d;
  }

  /** Computable substring test (Ruby's unanchored regexp match on a plain
      word). */
  predicate Contains(t: string, s: string)
  {
    exists i | 0 <= i <= |t| - |s| :: InfixAt(s, t, i)
  }

  lemma ContainsIsInfix(t: string, s: string)
    ensures Contains(t, s) <==> IsInfix(s, t)
  {
  }

  lemma ContainsSelf(s: string)
    ensures Contains(s, s)
  {
    assert InfixAt(s, s, 0);
  }
}
