/**
 Address prefixes (section 3.1 of RFC 4632).  The programs decide membership with
 masks; every other module reasons about intervals.  `MaskIsInterval` is the bridge.
 */
module Prefixes {
  function Pow2(n: nat): (r: nat)
    ensures r > 0
  {
    if n == 0 then 1 else 2 * Pow2(n - 1)
  }

  lemma {:induction false} Pow2Add(m: nat, n: nat)
    ensures Pow2(m + n) == Pow2(m) * Pow2(n)
  {
    if m != 0 {
      Pow2Add(m - 1, n);
      assert Pow2(m + n) == 2 * Pow2(m - 1 + n);
    }
  }

  lemma {:induction false} Pow2Monotone(m: nat, n: nat)
    requires m <= n
    ensures Pow2(m) <= Pow2(n)
    decreases n
  {
    if m < n {
      Pow2Monotone(m, n - 1);
    }
  }

  /** A prefix of a `width`-bit address space, by its first address and length. */
  datatype Prefix = Prefix(width: nat, base: nat, bits: nat) {
    function Size(): (r: nat)
      requires bits <= width
      ensures r > 0
    {
      Pow2(width - bits)
    }

    ghost predicate Valid() {
      && bits <= width
      && base % Size() == 0
      && base < Pow2(width)
    }

    predicate Has(a: nat)
      requires bits <= width
    {
      base <= a < base + Size()
    }
  }

  lemma PrefixFits(p: Prefix)
    requires p.Valid()
    ensures p.base + p.Size() <= Pow2(p.width)
  {
    Pow2Add(p.bits, p.width - p.bits);
    NextMultiple(p.base, p.Size(), Pow2(p.bits));
  }

  /** A multiple of `s` below `n * s` is at most `(n - 1) * s`. */
  lemma NextMultiple(a: nat, s: nat, n: nat)
    requires s > 0 && a % s == 0 && a < n * s
    ensures a + s <= n * s
  {
    var q := a / s;
    assert a == q * s;
    assert q >= n ==> q * s >= n * s by {
      if q >= n {
        MulMonotone(n, q, s);
      }
    }
    MulMonotone(q + 1, n, s);
    assert (q + 1) * s == q * s + s;
  }

  lemma MulMonotone(a: nat, b: nat, c: nat)
    requires a <= b
    ensures a * c <= b * c
  {
    assert b * c - a * c == (b - a) * c;
  }

  // ---------------------------------------------------------------- bits and masks

  /** The most significant bit comes first, as in the wire format. */
  type Bits = seq<bool>

  function Value(b: Bits): (r: nat)
    ensures r < Pow2(|b|)
  {
    if b == [] then 0 else (if b[0] then Pow2(|b| - 1) else 0) + Value(b[1..])
  }

  function ToBits(n: nat, width: nat): (b: Bits)
    ensures |b| == width
  {
    if width == 0 then []
    else if n >= Pow2(width - 1) then [true] + ToBits(n - Pow2(width - 1), width - 1)
    else [false] + ToBits(n, width - 1)
  }

  lemma {:induction false} ValueOfBits(n: nat, width: nat)
    requires n < Pow2(width)
    ensures Value(ToBits(n, width)) == n
  {
    if width > 0 {
      var high := n >= Pow2(width - 1);
      var rest := if high then n - Pow2(width - 1) else n;
      ValueOfBits(rest, width - 1);
      assert ToBits(n, width)[1..] == ToBits(rest, width - 1);
    }
  }

  function Mask(ones: nat, width: nat): (m: Bits)
    ensures |m| == width
  {
    seq(width, i => i < ones)
  }

  function And(a: Bits, b: Bits): (r: Bits)
    requires |a| == |b|
    ensures |r| == |a|
  {
    seq(|a|, i requires 0 <= i < |a| => a[i] && b[i])
  }

  /** The membership test of the address libraries: equal lengths, equal under the mask. */
  predicate MaskContains(net: Bits, ones: nat, ip: Bits) {
    |net| == |ip| && And(net, Mask(ones, |net|)) == And(ip, Mask(ones, |ip|))
  }

  function NetworkNumber(net: Bits, ones: nat): nat {
    Value(And(net, Mask(ones, |net|)))
  }

  lemma AndMaskTail(b: Bits, ones: nat)
    requires b != []
    ensures And(b, Mask(ones, |b|))[0] == (ones > 0 && b[0])
    ensures And(b, Mask(ones, |b|))[1..] == And(b[1..], Mask(if ones > 0 then ones - 1 else 0, |b| - 1))
  {
  }

  lemma {:induction false} NoOnesIsZero(b: Bits)
    ensures Value(And(b, Mask(0, |b|))) == 0
  {
    if b != [] {
      AndMaskTail(b, 0);
      NoOnesIsZero(b[1..]);
    }
  }

  lemma SameHeadAndTail(n: Bits, m: Bits)
    requires n != [] && m != []
    ensures n == m <==> n[0] == m[0] && n[1..] == m[1..]
  {
    assert n == [n[0]] + n[1..] && m == [m[0]] + m[1..];
  }

  /** Comparing under a mask is membership in an interval, for every width and length. */
  lemma {:induction false} MaskIsInterval(net: Bits, ones: nat, ip: Bits)
    requires |net| == |ip| && ones <= |net|
    ensures MaskContains(net, ones, ip) <==>
            NetworkNumber(net, ones) <= Value(ip) < NetworkNumber(net, ones) + Pow2(|net| - ones)
  {
    var n := And(net, Mask(ones, |net|));
    var m := And(ip, Mask(ones, |ip|));
    if ones == 0 {
      NoOnesIsZero(net);
      assert n == m;
    } else {
      AndMaskTail(net, ones);
      AndMaskTail(ip, ones);
      MaskIsInterval(net[1..], ones - 1, ip[1..]);
      SameHeadAndTail(n, m);
      NetworkNumberFits(net[1..], ones - 1);
    }
  }

  lemma {:induction false} NetworkNumberFits(net: Bits, ones: nat)
    requires ones <= |net|
    ensures NetworkNumber(net, ones) + Pow2(|net| - ones) <= Pow2(|net|)
  {
    if ones == 0 {
      NoOnesIsZero(net);
    } else {
      AndMaskTail(net, ones);
      NetworkNumberFits(net[1..], ones - 1);
    }
  }

  /** The network number of a valid prefix is its base. */
  lemma {:induction false} NetworkNumberIsBase(base: nat, bits: nat, width: nat)
    requires bits <= width && base < Pow2(width) && base % Pow2(width - bits) == 0
    ensures NetworkNumber(ToBits(base, width), bits) == base
  {
    var net := ToBits(base, width);
    if bits == 0 {
      NoOnesIsZero(net);
      assert base == 0 by { ModSmall(base, Pow2(width)); }
    } else {
      AndMaskTail(net, bits);
      var half := Pow2(width - 1);
      var rest := if base >= half then base - half else base;
      assert net[1..] == ToBits(rest, width - 1);
      Pow2Add(width - bits, bits - 1);
      ModSub(base, Pow2(width - bits), Pow2(bits - 1));
      NetworkNumberIsBase(rest, bits - 1, width - 1);
    }
  }

  lemma ModSmall(a: nat, m: nat)
    requires a < m
    ensures a % m == a
  {
  }

  lemma ModSub(a: nat, m: nat, k: nat)
    requires m > 0 && a % m == 0
    ensures a >= m * k ==> (a - m * k) % m == 0
  {
    if a >= m * k {
      var q := a / m;
      assert a == m * q;
      assert a - m * k == m * (q - k);
      MulModZero(m, q - k);
    }
  }

  lemma MulModZero(m: int, q: int)
    requires m > 0
    ensures (m * q) % m == 0
  {
    var x := m * q;
    var d, r := x / m, x % m;
    assert x == m * d + r;
    assert m * (q - d) == r;
    assert q - d >= 1 ==> m * (q - d) >= m;
    assert q - d <= -1 ==> m * (q - d) <= -m;
  }

  /** For numbers: the mask test of a prefix is the interval test of that prefix. */
  lemma PrefixMask(p: Prefix, a: nat)
    requires p.Valid() && a < Pow2(p.width)
    ensures MaskContains(ToBits(p.base, p.width), p.bits, ToBits(a, p.width)) <==> p.Has(a)
  {
    MaskIsInterval(ToBits(p.base, p.width), p.bits, ToBits(a, p.width));
    ValueOfBits(a, p.width);
    NetworkNumberIsBase(p.base, p.bits, p.width);
  }
}
