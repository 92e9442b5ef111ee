/** Byte strings read as unsigned integers, in both byte orders, and the lexicographic
    order Rust gives to byte arrays. */
module Bytes {

  type Byte = x: int | 0 <= x < 256

  const U64_MAX := 0xFFFF_FFFF_FFFF_FFFF

  function Min(a: int, b: int): int {
    if a <= b then a else b
  }

  function Max(a: int, b: int): int {
    if a <= b then b else a
  }

  function Pow256(e: nat): (r: nat)
    ensures r > 0
  {
    if e == 0 then 1 else 256 * Pow256(e - 1)
  }

  lemma {:induction false} PowSum(a: nat, b: nat)
    ensures Pow256(a + b) == Pow256(a) * Pow256(b)
  {
    if a == 0 {
    } else {
      PowSum(a - 1, b);
    }
  }

  lemma PowMonotone(a: nat, b: nat)
    requires a <= b
    ensures Pow256(a) <= Pow256(b)
  {
    PowSum(a, b - a);
    assert Pow256(a) * Pow256(b - a) >= Pow256(a) * 1;
  }

  // ---- big-endian and little-endian readings ----

  function Be(s: seq<Byte>): nat {
    if s == [] then 0 else Be(s[..|s| - 1]) * 256 + s[|s| - 1]
  }

  function Reverse<T>(s: seq<T>): (r: seq<T>)
    ensures |r| == |s|
    ensures forall i :: 0 <= i < |s| ==> r[i] == s[|s| - 1 - i]
  {
    if s == [] then [] else [s[|s| - 1]] + Reverse(s[..|s| - 1])
  }

  function Le(s: seq<Byte>): nat {
    Be(Reverse(s))
  }

  function BeBytes(n: nat, len: nat): (r: seq<Byte>)
    ensures |r| == len
  {
    if len == 0 then [] else BeBytes(n / 256, len - 1) + [n % 256]
  }

  lemma {:induction false} BeConcat(a: seq<Byte>, b: seq<Byte>)
    ensures Be(a + b) == Be(a) * Pow256(|b|) + Be(b)
  {
    if b == [] {
      assert a + b == a;
    } else {
      var b' := b[..|b| - 1];
      assert (a + b)[..|a + b| - 1] == a + b';
      BeConcat(a, b');
      assert (Be(a) * Pow256(|b'|)) * 256 == Be(a) * (256 * Pow256(|b'|));
    }
  }

  lemma {:induction false} BeBound(s: seq<Byte>)
    ensures Be(s) < Pow256(|s|)
  {
    if s != [] {
      BeBound(s[..|s| - 1]);
    }
  }

  lemma BeSingle(b: Byte)
    ensures Be([b]) == b
  {
    assert [b][..0] == [];
  }

  lemma {:induction false} BeHead(s: seq<Byte>)
    requires s != []
    ensures Be(s) == s[0] * Pow256(|s| - 1) + Be(s[1..])
  {
    var (head, tail) := ([s[0]], s[1..]);
    assert s == head + tail;
    BeConcat(head, tail);
    BeSingle(s[0]);
  }

  lemma {:induction false} BeOfZeros(s: seq<Byte>)
    requires forall i :: 0 <= i < |s| ==> s[i] == 0
    ensures Be(s) == 0
  {
    if s != [] {
      BeOfZeros(s[..|s| - 1]);
    }
  }

  lemma {:induction false} BeBytesValue(n: nat, len: nat)
    requires n < Pow256(len)
    ensures Be(BeBytes(n, len)) == n
  {
    if len > 0 {
      BeBytesValue(n / 256, len - 1);
      assert BeBytes(n, len)[..len - 1] == BeBytes(n / 256, len - 1);
    }
  }

  /** Equal width and equal value mean equal bytes, so a value contract pins every byte. */
  lemma {:induction false} BeInjective(a: seq<Byte>, b: seq<Byte>)
    requires |a| == |b| && Be(a) == Be(b)
    ensures a == b
  {
    if a != [] {
      BeInjective(a[..|a| - 1], b[..|b| - 1]);
      assert a == a[..|a| - 1] + [a[|a| - 1]];
      assert b == b[..|b| - 1] + [b[|b| - 1]];
    }
  }

  // ---- lexicographic order, as derived on Rust byte arrays ----

  predicate LexLe(a: seq<Byte>, b: seq<Byte>)
    requires |a| == |b|
  {
    a == [] || a[0] < b[0] || (a[0] == b[0] && LexLe(a[1..], b[1..]))
  }

  lemma {:induction false} LexLeIsNumeric(a: seq<Byte>, b: seq<Byte>)
    requires |a| == |b|
    ensures LexLe(a, b) <==> Be(a) <= Be(b)
  {
    if a != [] {
      BeHead(a);
      BeHead(b);
      BeBound(a[1..]);
      BeBound(b[1..]);
      LexLeIsNumeric(a[1..], b[1..]);
      LeadingDigitDecides(a[0], Be(a[1..]), b[0], Be(b[1..]), Pow256(|a| - 1));
    }
  }

  lemma LeadingDigitDecides(x: nat, r: nat, y: nat, t: nat, p: nat)
    requires r < p && t < p
    ensures x * p + r <= y * p + t <==> x < y || (x == y && r <= t)
  {
    if x < y {
      assert (x + 1) * p <= y * p;
    } else if y < x {
      assert (y + 1) * p <= x * p;
    }
  }
}
