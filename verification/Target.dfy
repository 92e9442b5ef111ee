/** Share and block targets: difficulty to target, the target test, compact bits, and the
    fixed-point reading of a hash's own difficulty.

    A hash is 32 bytes, least significant first; a target is 32 bytes, most significant first. */
module Target {
  import opened Bytes
  import opened Division

  type Hash = s: seq<Byte> | |s| == 32 witness seq(32, _ => 0)

  /** Bitcoin's difficulty-1 target, 0xFFFF * 2^208. */
  function Diff1(): (r: nat)
    ensures r > 0
  {
    MulPositive(0xFFFF, Pow256(26));
    0xFFFF * Pow256(26)
  }

  function Diff1Bytes(): Hash {
    seq(32, i => if i == 4 || i == 5 then 0xFF else 0)
  }

  lemma Diff1BytesValue()
    ensures Be(Diff1Bytes()) == Diff1()
  {
    hide Pow256;
    var head: seq<Byte> := [0, 0, 0, 0, 0xFF, 0xFF];
    var tail: seq<Byte> := seq(26, _ => 0);
    assert Diff1Bytes() == head + tail;
    BeConcat(head, tail);
    BeOfZeros(tail);
    assert head[..5] == [0, 0, 0, 0, 0xFF];
    assert head[..5][..4] == [0, 0, 0, 0];
    BeOfZeros(head[..5][..4]);
  }

  /** The largest hash value accepted at difficulty d, as 32 big-endian bytes. */
  function ShareTarget(d: nat): Hash {
    BeBytes(Diff1() / Max(d, 1), 32)
  }

  lemma Diff1Fits()
    ensures Diff1() < Pow256(32)
  {
    NarrowProduct(0xFFFF, 6, 26);
  }

  lemma NarrowProduct(x: nat, width: nat, k: nat)
    requires x < Pow256(width)
    ensures x * Pow256(k) < Pow256(width + k)
  {
    PowSum(width, k);
    ScaledBelow(x, Pow256(width), Pow256(k));
  }

  lemma ScaledBelow(x: nat, a: nat, b: nat)
    requires x < a && b > 0
    ensures x * b < a * b
  {
  }

  lemma ShareTargetValue(d: nat)
    ensures Be(ShareTarget(d)) == Diff1() / Max(d, 1)
  {
    hide Pow256, Diff1;
    Diff1Fits();
    DivAntitone(Diff1(), 1, Max(d, 1));
    assert Diff1() / 1 == Diff1();
    BeBytesValue(Diff1() / Max(d, 1), 32);
  }

  /** Long division one byte at a time: the digits written and the remainder carried. */
  function Digits(s: seq<Byte>, divisor: nat): (seq<Byte>, nat)
    requires divisor > 0
  {
    if s == [] then ([], 0)
    else
      var (written, rem) := Digits(s[..|s| - 1], divisor);
      var accum := rem * 256 + s[|s| - 1];
      (written + [accum / divisor % 256], accum % divisor)
  }

  /** The u8 cast of each digit loses nothing, so the digits spell the quotient. */
  lemma {:induction false} DigitsSpellQuotient(s: seq<Byte>, divisor: nat)
    requires divisor > 0
    ensures var (written, rem) := Digits(s, divisor);
            |written| == |s| && rem < divisor && Be(s) == Be(written) * divisor + rem
  {
    if s != [] {
      var init := s[..|s| - 1];
      DigitsSpellQuotient(init, divisor);
      var (written, rem) := Digits(init, divisor);
      var accum := rem * 256 + s[|s| - 1];
      QuotientDigit(accum, divisor);
      BeSnoc(written, accum / divisor % 256);
      Regroup(Be(written), divisor, accum / divisor);
    }
  }

  lemma QuotientDigit(accum: nat, divisor: nat)
    requires divisor > 0 && accum < divisor * 256
    ensures accum == accum / divisor * divisor + accum % divisor
    ensures accum / divisor % 256 == accum / divisor
  {
    NonNegative(accum, divisor);
    AtLeastIff(accum, divisor, 256);
    SmallMod(accum / divisor, 256);
  }

  lemma Regroup(q: nat, divisor: nat, digit: nat)
    ensures q * divisor * 256 + digit * divisor == (q * 256 + digit) * divisor
  {
  }

  lemma BeSnoc(s: seq<Byte>, b: Byte)
    ensures Be(s + [b]) == Be(s) * 256 + b
  {
    assert (s + [b])[..|s|] == s;
  }

  lemma DigitsQuotient(s: seq<Byte>, divisor: nat)
    requires divisor > 0
    ensures Be(Digits(s, divisor).0) == Be(s) / divisor
  {
    DigitsSpellQuotient(s, divisor);
    var (written, rem) := Digits(s, divisor);
    LeadingQuotient(Be(written), divisor, rem);
  }

  method DivBeU256ByU64(value: Hash, divisor: nat) returns (out: Hash)
    requires 1 <= divisor <= U64_MAX
    ensures Be(out) == Be(value) / divisor
  {
    var buf := new Byte[32];
    var rem := 0;
    var i := 0;
    while i < 32
      invariant 0 <= i <= 32
      invariant Digits(value[..i], divisor) == (buf[..i], rem)
      invariant 0 <= rem < divisor
    {
      assert value[..i + 1][..i] == value[..i];
      var accum := rem * 256 + value[i];
      assert accum <= 0xFFFF_FFFF_FFFF_FFFF_FFFF_FFFF_FFFF_FFFF;
      ghost var done := buf[..i];
      buf[i] := accum / divisor % 256;
      rem := accum % divisor;
      assert buf[..i + 1] == done + [buf[i]];
      i := i + 1;
    }
    assert value[..32] == value;
    out := buf[..32];
    DigitsQuotient(value, divisor);
  }

  method DifficultyToTarget(difficulty: nat) returns (target: Hash)
    requires difficulty <= U64_MAX
    ensures target == ShareTarget(difficulty)
  {
    Diff1BytesValue();
    ShareTargetValue(difficulty);
    if difficulty <= 1 {
      target := Diff1Bytes();
      assert Diff1() / 1 == Diff1();
    } else {
      target := DivBeU256ByU64(Diff1Bytes(), difficulty);
    }
    BeInjective(target, ShareTarget(difficulty));
  }

  predicate MeetsTarget(hash: Hash, target: Hash) {
    LexLe(Reverse(hash), target)
  }

  lemma MeetsTargetIsNumeric(hash: Hash, target: Hash)
    ensures MeetsTarget(hash, target) <==> Le(hash) <= Be(target)
  {
    LexLeIsNumeric(Reverse(hash), target);
  }

  /** The whole share test, from bytes to integers: no rounding survives it. */
  lemma ShareTestIsExact(hash: Hash, d: nat)
    requires d >= 1
    ensures MeetsTarget(hash, ShareTarget(d)) <==> Le(hash) * d <= Diff1()
  {
    MeetsTargetIsNumeric(hash, ShareTarget(d));
    ShareTargetValue(d);
    AtLeastIff(Diff1(), d, Le(hash));
  }

  // ---- the difficulty a hash reads as ----

  /** How many low-order bytes of h are cut so that eight significant bytes remain. */
  function Cut(h: nat): nat {
    if h < Pow256(8) then 0 else 1 + Cut(h / 256)
  }

  function Kept(h: nat): nat {
    h / Pow256(Cut(h)) * Pow256(Cut(h))
  }

  /** The reading, stated without bytes or shifts: difficulty 1 divided by the hash with all
      but its eight leading bytes cleared, saturated to 64 bits. */
  function Reading(h: nat): (r: nat)
    ensures r <= U64_MAX
  {
    if h == 0 then U64_MAX
    else
      KeptBounds(h);
      Capped(Diff1(), Kept(h))
  }

  function Capped(n: nat, d: nat): (r: nat)
    requires d > 0
    ensures r <= U64_MAX
  {
    NonNegative(n, d);
    Min(U64_MAX, n / d)
  }

  lemma {:induction false} CutBounds(h: nat)
    ensures h / Pow256(Cut(h)) < Pow256(8)
    ensures Cut(h) > 0 ==> Pow256(7) <= h / Pow256(Cut(h))
  {
    if h >= Pow256(8) {
      CutBounds(h / 256);
      DivDiv(h, 256, Pow256(Cut(h / 256)));
      if Cut(h / 256) == 0 {
        assert Pow256(8) == 256 * Pow256(7);
        AtLeastIff(h, 256, Pow256(7));
      }
    }
  }

  /** A size bracket determines the cut. */
  lemma {:induction false} CutIs(h: nat, k: nat)
    requires Pow256(k + 7) <= h < Pow256(k + 8)
    ensures Cut(h) == k
  {
    if k > 0 {
      PowMonotone(8, k + 7);
      assert Pow256(k + 7) == 256 * Pow256(k + 6);
      assert Pow256(k + 8) == 256 * Pow256(k + 7);
      AtLeastIff(h, 256, Pow256(k + 6));
      AtLeastIff(h, 256, Pow256(k + 7));
      CutIs(h / 256, k - 1);
    }
  }

  lemma KeptBounds(h: nat)
    ensures Kept(h) <= h < Kept(h) + Pow256(Cut(h))
    ensures h > 0 ==> Kept(h) > 0
  {
    var b := Pow256(Cut(h));
    QuotientBounds(h, b);
    assert (h / b + 1) * b == h / b * b + b;
    if h > 0 {
      CutBounds(h);
      if Cut(h) == 0 {
        assert Kept(h) == h;
      } else {
        MulPositive(h / b, b);
      }
    }
  }

  lemma {:induction false} CutMonotone(g: nat, h: nat)
    requires g <= h
    ensures Cut(g) <= Cut(h)
  {
    if g >= Pow256(8) {
      DivMonotone(g, h, 256);
      CutMonotone(g / 256, h / 256);
    }
  }

  lemma KeptMonotone(g: nat, h: nat)
    requires g <= h
    ensures Kept(g) <= Kept(h)
  {
    CutMonotone(g, h);
    if Cut(g) == Cut(h) {
      DivMonotone(g, h, Pow256(Cut(h)));
      ProductOrder(g / Pow256(Cut(h)), h / Pow256(Cut(h)), Pow256(Cut(h)));
    } else {
      KeptBounds(g);
      CutBounds(g);
      CutBounds(h);
      var (i, j) := (Cut(g), Cut(h));
      // g is below 256^(i+8), and the eight bytes kept of h start at 256^(j+7) or higher
      AtLeastIff(g, Pow256(i), Pow256(8));
      PowSum(8, i);
      PowMonotone(i + 8, j + 7);
      PowSum(7, j);
      ProductOrder(Pow256(7), h / Pow256(j), Pow256(j));
    }
  }

  /** The reading never under-reports: it is at least the true quotient, up to 64 bits. */
  lemma ReadingNeverBelow(h: nat)
    requires h > 0
    ensures Reading(h) >= Min(U64_MAX, Diff1() / h)
  {
    KeptBounds(h);
    DivAntitone(Diff1(), Kept(h), h);
  }

  /** A smaller hash never reads as an easier one. */
  lemma ReadingAntitone(g: nat, h: nat)
    requires g <= h
    ensures Reading(g) >= Reading(h)
  {
    if g > 0 {
      KeptBounds(g);
      KeptMonotone(g, h);
      DivAntitone(Diff1(), Kept(g), Kept(h));
    }
  }

  lemma ReadingIs(h: nat)
    requires h > 0
    ensures Kept(h) > 0 && Reading(h) == Min(U64_MAX, Diff1() / Kept(h))
  {
    hide Diff1, Kept;
    KeptBounds(h);
  }

  /** While the true quotient is under 2^56, the reading is it or one more. */
  lemma ReadingAtMostOneAbove(h: nat)
    requires h > 0
    requires Diff1() / h < Pow256(7)
    ensures Reading(h) <= Diff1() / h + 1
  {
    hide Pow256, Diff1, Kept, Cut, Reading;
    var (n, t, kept) := (Diff1(), Diff1() / h, Kept(h));
    ReadingIs(h);
    if Cut(h) == 0 {
      NothingCut(h);
    } else {
      EnoughKept(h, t);
      KeptBounds(h);
      TruncatedQuotient(n, h, kept, Pow256(Cut(h)));
    }
  }

  lemma NothingCut(h: nat)
    requires Cut(h) == 0
    ensures Kept(h) == h
  {
  }

  /** Eight kept bytes are worth more than t + 1 cut ones, for t below 2^56. */
  lemma EnoughKept(h: nat, t: nat)
    requires Cut(h) > 0 && t < Pow256(7)
    ensures (t + 1) * Pow256(Cut(h)) <= Kept(h)
  {
    hide Pow256, Cut;
    var b := Pow256(Cut(h));
    CutBounds(h);
    ProductOrder(Pow256(7), h / b, b);
    ProductOrder(t + 1, Pow256(7), b);
  }

  lemma TruncatedQuotient(n: nat, h: nat, kept: nat, b: nat)
    requires h > 0 && kept > 0 && h < kept + b && (n / h + 1) * b <= kept
    ensures n / kept <= n / h + 1
  {
    NonNegative(n, h);
    var t: nat := n / h;
    AtLeastIff(n, h, t + 1);
    // (t + 2) * kept = (t + 1) * kept + kept, and the cut bytes cost less than one kept
    TruncationCost(t + 1, h, kept, b);
    AtLeastIff(n, kept, t + 2);
  }

  lemma TruncationCost(t: nat, h: nat, kept: nat, b: nat)
    requires h < kept + b && t * b <= kept
    ensures t * h <= (t + 1) * kept
  {
    ProductOrder(h, kept + b, t);
    assert t * (kept + b) == t * kept + t * b;
  }

  /** What the pool relies on: a share accepted at difficulty d reads at least d. */
  lemma AcceptedShareReadsItsDifficulty(hash: Hash, d: nat)
    requires 1 <= d <= U64_MAX
    requires MeetsTarget(hash, ShareTarget(d))
    ensures Reading(Le(hash)) >= d
  {
    var h := Le(hash);
    ShareTestIsExact(hash, d);
    if h > 0 {
      AtLeastIff(Diff1(), h, d);
      ReadingNeverBelow(h);
    }
  }

  /** A left shift by k whole bytes in a 64-bit word: high bytes fall off. */
  function ShlBytes64(x: nat, k: nat): nat {
    (x * Pow256(k)) % Pow256(8)
  }

  /** The source's fixed-point computation. */
  method HashToDifficulty(hash: Hash) returns (r: nat)
    ensures r == Reading(Le(hash))
  {
    var be := Reverse(hash);
    var nz := LeadingZeros(be);
    var sig := LeadingWord(be, nz);
    FixedPointIsReading(Le(hash), nz, sig);
    r := FixedPoint(nz, sig);
  }

  function ShrBytes(x: nat, k: nat): nat {
    NonNegative(x, Pow256(k));
    x / Pow256(k)
  }

  /** The difficulty-1 word over the leading word, with 64 fractional bits. */
  function Ratio(sig: nat): nat
    requires sig > 0
  {
    (0xFFFF * Pow256(6) * Pow256(8)) / sig
  }

  /** The ratio shifted down by the difference in leading zero bytes, saturated. The source's
      exponent is in bits, eight per byte of difference. */
  function FixedPoint(nz: nat, sig: nat): nat
    requires nz <= 31
  {
    if sig == 0 then U64_MAX
    else if (nz - 4) * 8 > 64 then U64_MAX
    else Min(ShrBytes(Ratio(sig), (64 - (nz - 4) * 8) / 8), U64_MAX)
  }

  lemma FixedPointIsReading(h: nat, nz: nat, sig: nat)
    requires nz <= 31 && h < Pow256(32 - nz)
    requires sig == if nz <= 24 then h / Pow256(24 - nz) else h * Pow256(nz - 24)
    requires sig > 0 <==> h > 0
    requires h > 0 ==> Pow256(31 - nz) <= h
    ensures FixedPoint(nz, sig) == Reading(h)
  {
    hide Pow256, Diff1, Kept, Reading, Ratio, ShrBytes;
    if h == 0 {
      ReadingOfZero();
    } else if nz > 12 {
      SmallHashSaturates(h, nz);
    } else {
      assert (64 - (nz - 4) * 8) / 8 == 12 - nz;
      ScaledQuotient(h, nz, sig);
      ReadingIs(h);
    }
  }

  /** The hash scaled to its eight leading bytes, left-aligned in a 64-bit word. The contract
      has no remainder mod 2^64 in it: nothing is ever shifted out. */
  method LeadingWord(be: Hash, nz: nat) returns (sig: nat)
    requires nz <= 31
    requires forall i :: 0 <= i < nz ==> be[i] == 0
    requires be[nz] == 0 ==> nz == 31
    ensures sig == if nz <= 24 then Be(be) / Pow256(24 - nz) else Be(be) * Pow256(nz - 24)
    ensures sig > 0 <==> Be(be) > 0
    ensures Be(be) < Pow256(32 - nz)
    ensures Be(be) > 0 ==> Pow256(31 - nz) <= Be(be)
  {
    hide Pow256, Be;
    var take := Min(8, 32 - nz);
    sig := CollectWord(be[nz..], take);
    WordBracket(be, nz);
    if take < 8 {
      assert be[nz..][..take] == be[nz..];
      ShortWord(be[nz..]);
    } else {
      LongWord(be[nz..]);
    }
    sig := ShlBytes64(sig, 8 - take);
  }

  lemma WordBracket(be: Hash, nz: nat)
    requires nz <= 31
    requires forall i :: 0 <= i < nz ==> be[i] == 0
    requires be[nz] == 0 ==> nz == 31
    ensures Be(be[nz..]) == Be(be) < Pow256(32 - nz)
    ensures Be(be) > 0 ==> Pow256(31 - nz) <= Be(be)
  {
    AfterZeros(be, nz);
    if be[nz] == 0 {
      assert be[31..] == [0];
      BeSingle(0);
    }
  }

  method CollectWord(rest: seq<Byte>, take: nat) returns (sig: nat)
    requires take <= 8 && take <= |rest|
    ensures sig == Be(rest[..take])
  {
    sig := 0;
    var j := 0;
    while j < take
      invariant 0 <= j <= take
      invariant sig == Be(rest[..j])
    {
      BeBound(rest[..j]);
      NothingShiftedOut(sig, j, 1);
      BeSnoc(rest[..j], rest[j]);
      assert rest[..j + 1] == rest[..j] + [rest[j]];
      sig := ShlBytes64(sig, 1) + rest[j];
      j := j + 1;
    }
  }

  lemma NothingShiftedOut(x: nat, used: nat, k: nat)
    requires used + k <= 8 && x < Pow256(used)
    ensures ShlBytes64(x, k) == x * Pow256(k)
  {
    hide Pow256;
    PowSum(used, k);
    ScaledBelow(x, Pow256(used), Pow256(k));
    PowMonotone(used + k, 8);
    SmallMod(x * Pow256(k), Pow256(8));
  }

  /** Index of the first non-zero byte, or 31 when there is none. */
  method LeadingZeros(be: Hash) returns (nz: nat)
    ensures nz <= 31
    ensures forall i :: 0 <= i < nz ==> be[i] == 0
    ensures be[nz] == 0 ==> nz == 31
  {
    nz := 0;
    while nz < 32 && be[nz] == 0
      invariant nz <= 32
      invariant forall i :: 0 <= i < nz ==> be[i] == 0
    {
      nz := nz + 1;
    }
    if nz == 32 {
      nz := 31;
    }
  }

  lemma {:induction false} AfterZeros(be: seq<Byte>, nz: nat)
    requires nz < |be|
    requires forall i :: 0 <= i < nz ==> be[i] == 0
    ensures Be(be) == Be(be[nz..]) < Pow256(|be| - nz)
    ensures be[nz] > 0 ==> Pow256(|be| - nz - 1) <= Be(be)
  {
    if nz == 0 {
      assert be[0..] == be;
      BeBound(be);
      LeadingByteSize(be);
    } else {
      BeHead(be);
      AfterZeros(be[1..], nz - 1);
      assert be[1..][nz - 1..] == be[nz..];
    }
  }

  lemma LeadingByteSize(s: seq<Byte>)
    requires s != []
    ensures s[0] > 0 ==> Pow256(|s| - 1) <= Be(s)
  {
    BeHead(s);
    if s[0] > 0 {
      ProductOrder(1, s[0], Pow256(|s| - 1));
    }
  }

  lemma ShortWord(rest: seq<Byte>)
    requires |rest| < 8
    ensures ShlBytes64(Be(rest), 8 - |rest|) == Be(rest) * Pow256(8 - |rest|)
    ensures ShlBytes64(Be(rest), 8 - |rest|) > 0 <==> Be(rest) > 0
  {
    BeBound(rest);
    NothingShiftedOut(Be(rest), |rest|, 8 - |rest|);
    if Be(rest) > 0 {
      MulPositive(Be(rest), Pow256(8 - |rest|));
    }
  }

  lemma LongWord(rest: seq<Byte>)
    requires |rest| >= 8
    requires Be(rest) > 0 ==> Pow256(|rest| - 1) <= Be(rest)
    ensures ShlBytes64(Be(rest[..8]), 0) == Be(rest[..8]) == Be(rest) / Pow256(|rest| - 8)
    ensures Be(rest[..8]) > 0 <==> Be(rest) > 0
  {
    hide Be, ShlBytes64;
    BeBound(rest[..8]);
    NothingShiftedOut(Be(rest[..8]), 8, 0);
    TopBytes(rest, 8);
    if Be(rest) > 0 {
      PowMonotone(|rest| - 8, |rest| - 1);
      AtLeastIff(Be(rest), Pow256(|rest| - 8), 1);
    } else {
      ZeroOver(|rest| - 8);
    }
  }

  lemma TopBytes(s: seq<Byte>, n: nat)
    requires n <= |s|
    ensures Be(s[..n]) == Be(s) / Pow256(|s| - n)
  {
    assert s == s[..n] + s[n..];
    BeConcat(s[..n], s[n..]);
    BeBound(s[n..]);
    LeadingQuotient(Be(s[..n]), Pow256(|s| - n), Be(s[n..]));
  }

  lemma LargeQuotient(h: nat)
    requires 0 < h <= Pow256(19)
    ensures Diff1() / h >= 0xFFFF * Pow256(7)
  {
    hide Pow256;
    PowSum(7, 19);
    MulAssoc(0xFFFF, Pow256(7), Pow256(19));
    ProductOrder(h, Pow256(19), 0xFFFF * Pow256(7));
    AtLeastIff(Diff1(), h, 0xFFFF * Pow256(7));
  }

  /** Thirteen or more leading zero bytes put the true quotient past 64 bits. */
  lemma SmallHashSaturates(h: nat, nz: nat)
    requires 12 < nz <= 31 && h < Pow256(32 - nz)
    ensures Reading(h) == U64_MAX
  {
    hide Pow256, Diff1, Reading;
    if h == 0 {
      ReadingOfZero();
    } else {
      PowMonotone(32 - nz, 19);
      LargeQuotient(h);
      ReadingNeverBelow(h);
      SevenBytes();
    }
  }

  lemma ReadingOfZero()
    ensures Reading(0) == U64_MAX
  {
  }

  lemma SevenBytes()
    ensures 0xFFFF * Pow256(7) > U64_MAX
  {
  }

  lemma RatioNumerator()
    ensures 0xFFFF * Pow256(6) * Pow256(8) * Pow256(12) == Diff1()
  {
    hide Pow256;
    PowSum(6, 8);
    PowSum(14, 12);
    MulAssoc(0xFFFF, Pow256(6), Pow256(8));
    MulAssoc(0xFFFF, Pow256(14), Pow256(12));
  }

  lemma KeptIs(h: nat, nz: nat, sig: nat)
    requires nz <= 12 && Pow256(31 - nz) <= h < Pow256(32 - nz) && sig == h / Pow256(24 - nz)
    ensures Kept(h) == sig * Pow256(12 - nz) * Pow256(12)
  {
    hide Pow256;
    CutIs(h, 24 - nz);
    PowSum(12 - nz, 12);
    MulAssoc(sig, Pow256(12 - nz), Pow256(12));
  }

  /** Dividing the 64.64 ratio back down by the exponent is the division by Kept. */
  lemma ScaledQuotient(h: nat, nz: nat, sig: nat)
    requires nz <= 12 && sig > 0
    requires Pow256(31 - nz) <= h < Pow256(32 - nz)
    requires sig == h / Pow256(24 - nz)
    ensures Kept(h) > 0
    ensures ShrBytes(Ratio(sig), 12 - nz) == Diff1() / Kept(h)
  {
    hide Pow256, Kept, Diff1;
    KeptIs(h, nz, sig);
    RatioNumerator();
    var (n, c) := (0xFFFF * Pow256(6) * Pow256(8), Pow256(12 - nz));
    DivDiv(n, sig, c);
    DivCancel(n, sig * c, Pow256(12));
  }

  // ---- compact bits ----

  datatype CompactResult = Target(bytes: Hash) | Overflow

  /** The compact form: one exponent byte over a 23-bit mantissa (the sign bit is masked off). */
  function CompactToTarget(exponent: Byte, mantissa: nat): CompactResult
    requires mantissa < 0x80_0000
  {
    if mantissa == 0 then
      Target(seq(32, _ => 0))
    else if exponent <= 3 then
      Target(seq(28, _ => 0) + BeBytes(ShrBytes(mantissa, 3 - exponent), 4))
    else if exponent - 3 > 29 then
      Overflow
    else
      var offset := 32 - 3 - (exponent - 3);
      Target(seq(offset, _ => 0) + BeBytes(mantissa, 3) + seq(29 - offset, _ => 0))
  }

  /** What a compact value stands for. */
  function CompactNumber(exponent: Byte, mantissa: nat): nat {
    NonNegative(mantissa, Pow256(if exponent <= 3 then 3 - exponent else 0));
    if exponent <= 3 then mantissa / Pow256(3 - exponent) else mantissa * Pow256(exponent - 3)
  }

  /** The value is mantissa * 256^(exponent - 3), floored for small exponents; the error is
      raised exactly when a non-zero mantissa is shifted more than 29 bytes. */
  lemma CompactValue(exponent: Byte, mantissa: nat)
    requires mantissa < 0x80_0000
    ensures CompactToTarget(exponent, mantissa).Overflow? <==> mantissa != 0 && exponent > 32
    ensures CompactToTarget(exponent, mantissa).Target? ==>
              Be(CompactToTarget(exponent, mantissa).bytes) == CompactNumber(exponent, mantissa)
  {
    if mantissa == 0 {
      BeOfZeros(seq(32, _ => 0));
      ZeroOver(if exponent <= 3 then 3 - exponent else 0);
    } else if exponent <= 3 {
      FlooredCompact(exponent, mantissa);
    } else if exponent <= 32 {
      assert Pow256(3) == 0x100_0000;
      PaddedValue(32 - exponent, mantissa, 3, exponent - 3);
    }
  }

  lemma ZeroOver(k: nat)
    ensures 0 / Pow256(k) == 0
  {
    QuotientIs(0, Pow256(k), 0);
  }

  lemma FlooredCompact(exponent: Byte, mantissa: nat)
    requires mantissa < 0x80_0000 && exponent <= 3
    ensures Be(seq(28, _ => 0) + BeBytes(ShrBytes(mantissa, 3 - exponent), 4)) == mantissa / Pow256(3 - exponent)
  {
    var v := ShrBytes(mantissa, 3 - exponent);
    AtLeastIff(mantissa, Pow256(3 - exponent), v);
    ProductOrder(1, Pow256(3 - exponent), v);
    assert Pow256(4) == 0x1_0000_0000;
    PaddedValue(28, v, 4, 0);
    assert seq(28, _ => 0) + BeBytes(v, 4) + seq(0, _ => 0) == seq(28, _ => 0) + BeBytes(v, 4);
  }

  lemma PaddedValue(lead: nat, v: nat, width: nat, trail: nat)
    requires v < Pow256(width)
    ensures Be(seq(lead, _ => 0) + BeBytes(v, width) + seq(trail, _ => 0)) == v * Pow256(trail)
  {
    var (pad, m, tail) := (seq(lead, _ => 0), BeBytes(v, width), seq(trail, _ => 0));
    BeConcat(pad + m, tail);
    BeConcat(pad, m);
    BeOfZeros(pad);
    BeOfZeros(tail);
    BeBytesValue(v, width);
  }

  /** Every value too wide for 32 bytes is refused. */
  lemma TooWideIsRefused(exponent: Byte, mantissa: nat)
    requires mantissa < 0x80_0000 && exponent > 3
    requires mantissa * Pow256(exponent - 3) >= Pow256(32)
    ensures CompactToTarget(exponent, mantissa).Overflow?
  {
    if exponent <= 32 {
      assert Pow256(3) == 0x100_0000;
      NarrowProduct(mantissa, 3, exponent - 3);
      PowMonotone(exponent, 32);
    }
  }

  lemma FitsIff(mantissa: nat, a: nat, b: nat)
    ensures mantissa * Pow256(b) < Pow256(a + b) <==> mantissa < Pow256(a)
  {
    PowSum(a, b);
    ScaledOrder(Pow256(a), mantissa, Pow256(b));
  }

  lemma NoneFits(exponent: nat, mantissa: nat)
    requires exponent > 35 && mantissa > 0
    ensures mantissa * Pow256(exponent - 3) >= Pow256(32)
  {
    PowMonotone(32, exponent - 3);
    ProductOrder(1, mantissa, Pow256(exponent - 3));
  }

  /** The guard is stricter than the width: a target below 2^256 is refused exactly when its exponent
      is 33 with a mantissa of at most two bytes, or 34 with a mantissa of one. */
  lemma FittingTargetRefusedIff(exponent: Byte, mantissa: nat)
    requires mantissa < 0x80_0000
    ensures CompactToTarget(exponent, mantissa).Overflow? && CompactNumber(exponent, mantissa) < Pow256(32)
       <==> (exponent == 33 && 0 < mantissa < 0x1_0000) || (exponent == 34 && 0 < mantissa < 0x100)
  {
    hide CompactToTarget, Be;
    CompactValue(exponent, mantissa);
    if mantissa > 0 && exponent > 32 {
      if exponent <= 35 {
        FitsIff(mantissa, 35 - exponent, exponent - 3);
        assert Pow256(0) == 1 && Pow256(1) == 0x100 && Pow256(2) == 0x1_0000;
      } else {
        NoneFits(exponent, mantissa);
      }
    }
  }
}
