/** The coinbase transaction: the BIP 34 height push, the scriptSig layout, the boot-time length
    check, and the extranonce splice that pool and miner must agree on. */
module Coinbase {
  import opened Bytes
  import opened Target
  import opened Division
  import opened Merkle

  // ---- script numbers ----

  /** Little-endian value, least significant byte first. */
  function LeVal(s: seq<Byte>): nat {
    if s == [] then 0 else s[0] + 256 * LeVal(s[1..])
  }

  function LeBytes(n: nat): seq<Byte> {
    if n == 0 then [] else [n % 256] + LeBytes(n / 256)
  }

  /** Bitcoin's signed script number: the top bit of the last byte is the sign. */
  function ScriptNum(s: seq<Byte>): int {
    if s == [] then 0
    else if s[|s| - 1] < 128 then LeVal(s)
    else 0 - LeVal(s[..|s| - 1] + [s[|s| - 1] - 128])
  }

  /** Core's minimality rule: the last byte carries value bits, or only the sign of a byte that
      already uses its top bit. */
  predicate Minimal(s: seq<Byte>) {
    s == [] || s[|s| - 1] % 128 != 0 || (|s| > 1 && s[|s| - 2] >= 128)
  }

  datatype Push = Push(value: int, rest: seq<Byte>) | BadPush

  /** Reading back the first push of a script. */
  function DecodePush(script: seq<Byte>): Push {
    if script == [] then BadPush
    else if script[0] == 0 then Push(0, script[1..])
    else if 0x51 <= script[0] <= 0x60 then Push(script[0] - 0x50, script[1..])
    else if script[0] <= 75 && |script| > script[0] then
      Push(ScriptNum(script[1..1 + script[0]]), script[1 + script[0]..])
    else BadPush
  }

  function Payload(height: nat): seq<Byte> {
    var bytes := LeBytes(height);
    if bytes != [] && bytes[|bytes| - 1] >= 128 then bytes + [0] else bytes
  }

  function HeightPush(height: nat): seq<Byte> {
    if height == 0 then [0]
    else if height <= 16 then [0x50 + height]
    else [|Payload(height)| % 256] + Payload(height)
  }

  lemma {:induction false} LeBytesValue(n: nat)
    ensures LeVal(LeBytes(n)) == n
    ensures n > 0 ==> LeBytes(n) != [] && LeBytes(n)[|LeBytes(n)| - 1] > 0
  {
    if n > 0 {
      LeBytesValue(n / 256);
      assert LeBytes(n)[1..] == LeBytes(n / 256);
    }
  }

  lemma {:induction false} LeValSnoc(s: seq<Byte>, b: Byte)
    ensures LeVal(s + [b]) == LeVal(s) + b * Pow256(|s|)
  {
    if s == [] {
      assert s + [b] == [b] && [b][1..] == [];
    } else {
      assert (s + [b])[1..] == s[1..] + [b];
      LeValSnoc(s[1..], b);
      assert 256 * (b * Pow256(|s| - 1)) == b * (256 * Pow256(|s| - 1));
    }
  }

  lemma {:induction false} LeBytesUnique(s: seq<Byte>)
    requires s == [] || s[|s| - 1] > 0
    ensures s == LeBytes(LeVal(s))
  {
    if s != [] {
      LeBytesUnique(s[1..]);
      assert LeVal(s) > 0 by {
        assert s[1..] == [] || s[1..][|s[1..]| - 1] > 0;
        if s[1..] != [] && LeVal(s[1..]) == 0 {
          assert false;
        }
      }
      assert LeVal(s) % 256 == s[0] && LeVal(s) / 256 == LeVal(s[1..]);
    }
  }

  lemma {:induction false} LeBytesLength(n: nat, k: nat)
    ensures |LeBytes(n)| <= k <==> n < Pow256(k)
  {
    if n > 0 && k > 0 {
      LeBytesLength(n / 256, k - 1);
    }
  }

  lemma PayloadValue(height: nat)
    ensures ScriptNum(Payload(height)) == height && Minimal(Payload(height))
  {
    var bytes := LeBytes(height);
    LeBytesValue(height);
    if bytes != [] && bytes[|bytes| - 1] >= 128 {
      LeValSnoc(bytes, 0);
    }
  }

  /** The payload is the only minimal encoding of its height. */
  lemma PayloadIsUnique(height: nat, s: seq<Byte>)
    requires Minimal(s) && ScriptNum(s) == height
    ensures s == Payload(height)
  {
    if s != [] {
      var last := s[|s| - 1];
      if last >= 128 {
        NegativeForm(s);
        assert false;
      } else if last > 0 {
        LeBytesUnique(s);
      } else {
        var init := s[..|s| - 1];
        assert s == init + [0];
        LeValSnoc(init, 0);
        LeBytesUnique(init);
      }
    }
  }

  /** A minimal encoding with the sign bit set is strictly negative. */
  lemma NegativeForm(s: seq<Byte>)
    requires s != [] && s[|s| - 1] >= 128 && Minimal(s)
    ensures ScriptNum(s) < 0
  {
    var init := s[..|s| - 1];
    var top: Byte := s[|s| - 1] - 128;
    LeValSnoc(init, top);
    if top > 0 {
      MulPositive(top, Pow256(|init|));
    } else {
      LeBytesUnique(init);
      assert LeBytes(0) == [];
    }
  }

  lemma PayloadLength(height: nat)
    ensures |Payload(height)| <= 4 <==> height < 0x8000_0000
  {
    var bytes := LeBytes(height);
    LeBytesLength(height, 3);
    LeBytesLength(height, 4);
    assert Pow256(3) == 0x100_0000 && Pow256(4) == 0x1_0000_0000;
    if |bytes| == 4 {
      LeBytesValue(height);
      assert bytes == bytes[..3] + [bytes[3]];
      LeValSnoc(bytes[..3], bytes[3]);
      LeValBound(bytes[..3]);
    }
  }

  lemma {:induction false} LeValBound(s: seq<Byte>)
    ensures LeVal(s) < Pow256(|s|)
  {
    if s != [] {
      LeValBound(s[1..]);
    }
  }

  lemma PayloadFits(height: nat)
    requires height <= U64_MAX
    ensures |Payload(height)| <= 9
  {
    LeBytesLength(height, 8);
    assert Pow256(8) == U64_MAX + 1;
  }

  /** BIP 34 round trip: for every 64-bit height, under any trailing bytes, the push decodes to
      the height and consumes nothing more. */
  lemma HeightRoundTrip(height: nat, trailing: seq<Byte>)
    requires height <= U64_MAX
    ensures DecodePush(HeightPush(height) + trailing) == Push(height, trailing)
  {
    hide Payload, ScriptNum, Minimal, DecodePush, HeightPush;
    if height <= 16 {
      SmallRoundTrip(height, trailing);
    } else {
      PayloadFits(height);
      PayloadValue(height);
      PayloadNotEmpty(height);
      LargePush(height);
      PushedRoundTrip(Payload(height), trailing);
    }
  }

  lemma SmallRoundTrip(height: nat, trailing: seq<Byte>)
    requires height <= 16
    ensures DecodePush(HeightPush(height) + trailing) == Push(height, trailing)
  {
    assert (HeightPush(height) + trailing)[1..] == trailing;
  }

  lemma LargePush(height: nat)
    requires 16 < height && |Payload(height)| < 256
    ensures HeightPush(height) == [|Payload(height)|] + Payload(height)
  {
  }

  lemma PayloadNotEmpty(height: nat)
    requires height > 0
    ensures Payload(height) != []
  {
    LeBytesValue(height);
  }

  /** A direct push of up to 75 bytes decodes to what was pushed. */
  lemma PushedRoundTrip(payload: seq<Byte>, trailing: seq<Byte>)
    requires 0 < |payload| <= 9
    ensures DecodePush([|payload|] + payload + trailing) == Push(ScriptNum(payload), trailing)
  {
    hide ScriptNum;
    var script := [|payload|] + payload + trailing;
    assert script[1..1 + |payload|] == payload;
    assert script[1 + |payload|..] == trailing;
  }

  method EncodeBip34Height(height: nat) returns (push: seq<Byte>)
    requires height <= U64_MAX
    ensures push == HeightPush(height)
  {
    if height == 0 {
      return [0x00];
    }
    if height <= 16 {
      return [0x50 + height];
    }
    var n := height;
    var bytes: seq<Byte> := [];
    while n > 0
      invariant n >= 0
      invariant bytes + LeBytes(n) == LeBytes(height)
    {
      Regrouped(bytes, n % 256, LeBytes(n / 256));
      bytes := bytes + [n % 256];
      n := n / 256;
    }
    if bytes != [] && bytes[|bytes| - 1] >= 128 {
      bytes := bytes + [0x00];
    }
    push := [|bytes| % 256] + bytes;
  }

  lemma Regrouped(a: seq<Byte>, b: Byte, c: seq<Byte>)
    ensures a + ([b] + c) == a + [b] + c
  {
  }

  // ---- the scriptSig and its length check ----

  predicate ScriptSigLenOk(len: nat) {
    2 <= len <= 100
  }

  /** Boot validation, against the widest height push the source expects. */
  predicate ConfigValid(tag: seq<Byte>, en1: nat, en2: nat) {
    en1 + en2 >= 1 && ScriptSigLenOk(5 + |tag| + en1 + en2)
  }

  datatype BuildError = NoExtranonce | ScriptSigLength | LayoutChanged | TooHeavy
  datatype BuildResult = Built(bytes: seq<Byte>, offset: nat) | Failed(error: BuildError)

  function Zeros(n: nat): (r: seq<Byte>)
    ensures |r| == n
  {
    seq(n, _ => 0)
  }

  function ScriptSig(height: nat, tag: seq<Byte>, width: nat): seq<Byte> {
    HeightPush(height) + tag + Zeros(width)
  }

  /** Version 1, one input, the null outpoint. */
  function Preamble(): (r: seq<Byte>)
    ensures |r| == 41
  {
    [1, 0, 0, 0] + [1] + Zeros(32) + [0xFF, 0xFF, 0xFF, 0xFF]
  }

  function Serialized(script: seq<Byte>, tail: seq<Byte>): seq<Byte>
    requires |script| < 256
  {
    Preamble() + [|script|] + script + tail
  }

  predicate OccursAt(haystack: seq<Byte>, needle: seq<Byte>, i: nat) {
    i + |needle| <= |haystack| && haystack[i..i + |needle|] == needle
  }

  /** Index of the first occurrence, or -1. */
  function FindBytes(haystack: seq<Byte>, needle: seq<Byte>, from: nat := 0): int
    decreases |haystack| - from
  {
    if OccursAt(haystack, needle, from) then from
    else if from >= |haystack| then -1
    else FindBytes(haystack, needle, from + 1)
  }

  const SCRIPT_SIG_OFFSET := 42
  const COINBASE_WEIGHT_RESERVE := 4000

  /** tail is everything after the scriptSig: sequence, outputs and lock time. */
  function BuildCoinbase(height: nat, tag: seq<Byte>, en1: nat, en2: nat, tail: seq<Byte>): BuildResult {
    var script := ScriptSig(height, tag, en1 + en2);
    if en1 + en2 == 0 then Failed(NoExtranonce)
    else if !ScriptSigLenOk(|script|) then Failed(ScriptSigLength)
    else
      var bytes := Serialized(script, tail);
      if FindBytes(bytes, script) != SCRIPT_SIG_OFFSET then Failed(LayoutChanged)
      else if |bytes| * 4 + 36 > COINBASE_WEIGHT_RESERVE then Failed(TooHeavy)
      else Built(bytes, SCRIPT_SIG_OFFSET + |HeightPush(height)| + |tag|)
  }

  /** Boot guarantee: a configuration that boots builds a script of legal length at every height
      below 2^31, and only there. From 2^31 on, some valid configuration overflows. */
  lemma BootGuarantee(height: nat)
    requires height <= U64_MAX
    ensures (forall tag, en1: nat, en2: nat :: ConfigValid(tag, en1, en2) ==>
               ScriptSigLenOk(|ScriptSig(height, tag, en1 + en2)|))
            <==> height < 0x8000_0000
  {
    PayloadLength(height);
    PayloadFits(height);
    if height >= 0x8000_0000 {
      var tag := Zeros(94);
      assert ConfigValid(tag, 1, 0);
      assert |ScriptSig(height, tag, 1 + 0)| > 100;
    }
  }

  /** The layout tripwire compares the first occurrence of the script with the expected offset.
      It never fires for a height of at least 1, whatever the tag: no earlier match exists. */
  lemma TripwireNeverFires(height: nat, tag: seq<Byte>, width: nat, tail: seq<Byte>)
    requires 1 <= height <= U64_MAX && width >= 1
    requires ScriptSigLenOk(|ScriptSig(height, tag, width)|)
    ensures FindBytes(Serialized(ScriptSig(height, tag, width), tail), ScriptSig(height, tag, width))
            == SCRIPT_SIG_OFFSET
  {
    var script := ScriptSig(height, tag, width);
    var bytes := Serialized(script, tail);
    assert bytes[42..42 + |script|] == script;
    forall i: nat | i < 42
      ensures !OccursAt(bytes, script, i)
    {
      NoEarlierMatch(height, tag, width, tail, i);
    }
    FirstOccurrence(bytes, script, 0, 42);
  }

  lemma {:induction false} FirstOccurrence(haystack: seq<Byte>, needle: seq<Byte>, from: nat, at: nat)
    requires from <= at && OccursAt(haystack, needle, at)
    requires forall i: nat | from <= i < at :: !OccursAt(haystack, needle, i)
    ensures FindBytes(haystack, needle, from) == at
    decreases at - from
  {
    if from < at {
      FirstOccurrence(haystack, needle, from + 1, at);
    }
  }

  /** The script starts with a non-zero byte, and is not one byte repeated. */
  lemma ScriptHead(height: nat, tag: seq<Byte>, width: nat)
    requires 1 <= height <= U64_MAX && width >= 1
    ensures var s := ScriptSig(height, tag, width);
            |s| >= 2 && s[|s| - 1] == 0 && s[0] != 0 && s[0] != 0xFF && (s[0] == 1 ==> s[1] != 0)
  {
    hide Payload, LeBytes;
    if height > 16 {
      PayloadFits(height);
      PayloadNotEmpty(height);
      ShortPayload(height);
    }
  }

  lemma ShortPayload(height: nat)
    requires height > 0
    ensures |Payload(height)| == 1 ==> Payload(height)[0] != 0
  {
    LeBytesValue(height);
    if |Payload(height)| == 1 {
      assert LeBytes(height) == Payload(height);
    }
  }

  lemma NoEarlierMatch(height: nat, tag: seq<Byte>, width: nat, tail: seq<Byte>, i: nat)
    requires 1 <= height <= U64_MAX && width >= 1 && i < 42
    requires ScriptSigLenOk(|ScriptSig(height, tag, width)|)
    ensures !OccursAt(Serialized(ScriptSig(height, tag, width), tail), ScriptSig(height, tag, width), i)
  {
    var s := ScriptSig(height, tag, width);
    ScriptHead(height, tag, width);
    if OccursAt(Serialized(s, tail), s, i) {
      if i == 41 {
        ShiftedMatch(s, tail);
        Constant(s);
      } else {
        PreambleBytes(s, tail, i);
      }
    }
  }

  lemma PreambleBytes(s: seq<Byte>, tail: seq<Byte>, i: nat)
    requires 2 <= |s| < 256 && i < 41
    requires OccursAt(Serialized(s, tail), s, i)
    ensures s[0] == 0 || s[0] == 0xFF || (s[0] == 1 && s[1] == 0)
  {
    var bytes := Serialized(s, tail);
    assert bytes[i..i + |s|][0] == bytes[i] == Preamble()[i];
    assert bytes[i..i + |s|][1] == bytes[i + 1];
  }

  /** A match one byte early makes every script byte equal to the one before it. */
  lemma ShiftedMatch(s: seq<Byte>, tail: seq<Byte>)
    requires 2 <= |s| < 256
    requires OccursAt(Serialized(s, tail), s, 41)
    ensures forall j :: 1 <= j < |s| ==> s[j] == s[j - 1]
  {
    var bytes := Serialized(s, tail);
    forall j | 1 <= j < |s|
      ensures s[j] == s[j - 1]
    {
      assert bytes[41..41 + |s|][j] == bytes[41 + j] == s[j - 1];
    }
  }

  lemma {:induction false} Constant(s: seq<Byte>)
    requires s != []
    requires forall j :: 1 <= j < |s| ==> s[j] == s[j - 1]
    ensures s[|s| - 1] == s[0]
  {
    if |s| > 1 {
      Constant(s[..|s| - 1]);
    }
  }

  lemma {:induction false} FoundNoLater(haystack: seq<Byte>, needle: seq<Byte>, from: nat, at: nat)
    requires from <= at && OccursAt(haystack, needle, at)
    ensures from <= FindBytes(haystack, needle, from) <= at
    decreases at - from
  {
    if from < at {
      FoundNoLater(haystack, needle, from + 1, at);
    }
  }

  predicate AllZero(s: seq<Byte>) {
    forall i :: 0 <= i < |s| ==> s[i] == 0
  }

  /** All zero except for a single 1. */
  predicate OneAt(s: seq<Byte>, a: nat) {
    a < |s| && s[a] == 1 && forall i :: 0 <= i < |s| && i != a ==> s[i] == 0
  }

  /** The bytes before the script already contain it: in the 32 zeros of the null outpoint, or in the
      end of the version, the input count and those zeros. */
  predicate Shadowed(script: seq<Byte>) {
    || (AllZero(script) && |script| <= 32)
    || (exists a: nat :: 1 <= a <= 3 && OneAt(script, a) && |script| <= a + 33)
  }

  lemma PreambleAt(s: seq<Byte>, tail: seq<Byte>, k: nat)
    requires |s| < 256 && k < 42
    ensures var bytes := Serialized(s, tail);
            && k < |bytes|
            && bytes[k] == (if k == 0 || k == 4 then 1 else if k < 37 then 0 else if k < 41 then 0xFF else |s|)
  {
  }

  lemma MatchedByte(haystack: seq<Byte>, needle: seq<Byte>, i: nat, j: nat)
    requires OccursAt(haystack, needle, i) && j < |needle|
    ensures i + j < |haystack| && needle[j] == haystack[i + j]
  {
    assert haystack[i..i + |needle|][j] == haystack[i + j];
  }

  /** A script that starts with zero and has no 0xFF byte matches early only inside the zeros. */
  lemma EarlyMatchIsShadowed(s: seq<Byte>, tail: seq<Byte>, i: nat)
    requires 2 <= |s| <= 100 && s[0] == 0 && (forall j :: 0 <= j < |s| ==> s[j] != 0xFF)
    requires i < 42 && OccursAt(Serialized(s, tail), s, i)
    ensures Shadowed(s)
  {
    hide Serialized, OccursAt;
    var bytes := Serialized(s, tail);
    MatchedByte(bytes, s, i, 0);
    PreambleAt(s, tail, i);
    assert 1 <= i <= 3 || 5 <= i <= 36;
    if i + |s| > 37 {
      MatchedByte(bytes, s, i, 37 - i);
      PreambleAt(s, tail, 37);
    }
    forall j | 0 <= j < |s|
      ensures s[j] == if i + j == 4 then 1 else 0
    {
      MatchedByte(bytes, s, i, j);
      PreambleAt(s, tail, i + j);
    }
    if i <= 3 && |s| > 4 - i {
      assert OneAt(s, 4 - i);
    }
  }

  lemma ShadowedMatchesEarly(s: seq<Byte>, tail: seq<Byte>) returns (i: nat)
    requires 2 <= |s| <= 100 && Shadowed(s)
    ensures i < 42 && OccursAt(Serialized(s, tail), s, i)
  {
    hide Serialized;
    var bytes := Serialized(s, tail);
    if AllZero(s) && |s| <= 32 {
      i := 5;
    } else {
      var a: nat :| 1 <= a <= 3 && OneAt(s, a) && |s| <= a + 33;
      i := 4 - a;
    }
    assert i + |s| <= 37;
    PreambleAt(s, tail, 36);
    forall j | 0 <= j < |s|
      ensures i + j < |bytes| && bytes[i + j] == s[j]
    {
      PreambleAt(s, tail, i + j);
    }
    assert bytes[i..i + |s|] == s;
  }

  /** The layout tripwire fires on a correct serialization exactly at height 0, for a script its
      preamble already contains. The tag is text, so it has no byte 0xFF. */
  lemma TripwireFiresIff(height: nat, tag: seq<Byte>, width: nat, tail: seq<Byte>)
    requires height <= U64_MAX && width >= 1 && 0xFF !in tag
    requires ScriptSigLenOk(|ScriptSig(height, tag, width)|)
    ensures FindBytes(Serialized(ScriptSig(height, tag, width), tail), ScriptSig(height, tag, width))
            != SCRIPT_SIG_OFFSET
       <==> height == 0 && Shadowed(ScriptSig(height, tag, width))
  {
    var script := ScriptSig(height, tag, width);
    var bytes := Serialized(script, tail);
    if height >= 1 {
      TripwireNeverFires(height, tag, width, tail);
    } else if Shadowed(script) {
      var i := ShadowedMatchesEarly(script, tail);
      FoundNoLater(bytes, script, 0, i);
    } else {
      GenesisScript(tag, width);
      assert bytes[42..42 + |script|] == script;
      forall i: nat | i < 42
        ensures !OccursAt(bytes, script, i)
      {
        if OccursAt(bytes, script, i) {
          EarlyMatchIsShadowed(script, tail, i);
        }
      }
      FirstOccurrence(bytes, script, 0, 42);
    }
  }

  lemma GenesisScript(tag: seq<Byte>, width: nat)
    requires width >= 1 && 0xFF !in tag
    ensures var s := ScriptSig(0, tag, width); s[0] == 0 && forall j :: 0 <= j < |s| ==> s[j] != 0xFF
  {
  }

  /** So at height 0 the build is refused with every short all-zero script; a longer one is built. */
  lemma GenesisBuildsIff(en1: nat, en2: nat, tail: seq<Byte>)
    requires 1 <= en1 + en2 <= 99
    ensures BuildCoinbase(0, [], en1, en2, tail) == Failed(LayoutChanged) <==> en1 + en2 <= 31
  {
    var script := ScriptSig(0, [], en1 + en2);
    TripwireFiresIff(0, [], en1 + en2, tail);
    assert AllZero(script) && |script| == 1 + en1 + en2;
    assert forall a: nat :: a < |script| ==> !OneAt(script, a);
  }

  /** Putting the guarantees together: at real heights a valid configuration builds a coinbase exactly
      when it weighs, with its witness, no more than what the template leaves room for. */
  lemma ValidConfigBuilds(height: nat, tag: seq<Byte>, en1: nat, en2: nat, tail: seq<Byte>)
    requires 1 <= height < 0x8000_0000 && ConfigValid(tag, en1, en2)
    ensures var r := BuildCoinbase(height, tag, en1, en2, tail);
            var weight := (42 + |ScriptSig(height, tag, en1 + en2)| + |tail|) * 4 + 36;
            && (weight <= 4000 ==> r.Built?) && (weight > 4000 ==> r == Failed(TooHeavy))
  {
    hide Payload, HeightPush, ScriptSig, FindBytes;
    BootGuarantee(height);
    TripwireNeverFires(height, tag, en1 + en2, tail);
  }

  // ---- the splice ----

  /** The parts of a job that decide its header: coinbase template and Merkle path. */
  datatype Job = Job(template: seq<Byte>, offset: nat, en1: nat, en2: nat, branch: seq<Hash>) {
    predicate WellFormed() {
      offset + en1 + en2 <= |template|
    }
    function Coinbase1(): seq<Byte>
      requires WellFormed()
    {
      template[..offset]
    }
    function Coinbase2(): seq<Byte>
      requires WellFormed()
    {
      template[offset + en1 + en2..]
    }
  }

  /** The coinbase a miner hashes: the two announced halves around its extranonces. */
  function MinerCoinbase(job: Job, extranonce1: seq<Byte>, extranonce2: seq<Byte>): seq<Byte>
    requires job.WellFormed()
  {
    job.Coinbase1() + extranonce1 + extranonce2 + job.Coinbase2()
  }

  /** What the validator's scratch buffer must hold: the miner's coinbase when the split fills the
      reserved width, whatever the split, and the untouched template otherwise. */
  function Spliced(job: Job, extranonce1: seq<Byte>, extranonce2: seq<Byte>): seq<Byte>
    requires job.WellFormed()
  {
    if |extranonce1| + |extranonce2| == job.en1 + job.en2
    then MinerCoinbase(job, extranonce1, extranonce2)
    else job.template
  }

  /** The per-thread scratch buffer reused across shares. */
  class Scratch {
    var bytes: seq<Byte>

    constructor ()
      ensures bytes == []
    {
      bytes := [];
    }

    /** Nothing of an earlier share survives in the buffer. */
    method AssembleCoinbaseInto(job: Job, extranonce1: seq<Byte>, extranonce2: seq<Byte>)
      requires job.WellFormed()
      modifies this
      ensures bytes == Spliced(job, extranonce1, extranonce2)
    {
      bytes := [];
      bytes := bytes + job.template;
      var (off, p, m) := (job.offset, |extranonce1|, |extranonce2|);
      if p + m != job.en1 + job.en2 {
        return;
      }
      TwoSplices(job.template, off, extranonce1, extranonce2);
      bytes := bytes[..off] + extranonce1 + bytes[off + p..];
      bytes := bytes[..off + p] + extranonce2 + bytes[off + p + m..];
    }
  }

  lemma TwoSplices(s: seq<Byte>, off: nat, a: seq<Byte>, b: seq<Byte>)
    requires off + |a| + |b| <= |s|
    ensures var once := s[..off] + a + s[off + |a|..];
            once[..off + |a|] + b + once[off + |a| + |b|..] == s[..off] + a + b + s[off + |a| + |b|..]
  {
    var once := s[..off] + a + s[off + |a|..];
    assert once[..off + |a|] == s[..off] + a;
    assert once[off + |a| + |b|..] == s[off + |a| + |b|..];
  }

  function BuildJob(sha: Sha, coinbase: BuildResult, en1: nat, en2: nat, txids: seq<Hash>): Job
    requires coinbase.Built?
  {
    Job(coinbase.bytes, coinbase.offset, en1, en2, Branch(sha, txids))
  }

  lemma BuiltHalves(height: nat, tag: seq<Byte>, en1: nat, en2: nat, tail: seq<Byte>, branch: seq<Hash>)
    requires BuildCoinbase(height, tag, en1, en2, tail).Built?
    ensures var built := BuildCoinbase(height, tag, en1, en2, tail);
            var job := Job(built.bytes, built.offset, en1, en2, branch);
            && job.WellFormed()
            && |ScriptSig(height, tag, en1 + en2)| < 256
            && job.Coinbase1() == Preamble() + [|ScriptSig(height, tag, en1 + en2)|] + HeightPush(height) + tag
            && job.Coinbase2() == tail
  {
    var head := Preamble() + [|ScriptSig(height, tag, en1 + en2)|];
    Halves(head, HeightPush(height), tag, en1 + en2, tail);
  }

  /** What a validated share commits to. For every split of the reserved width, the root the
      validator derives is the root of the full tree over the miner's coinbase and the template's
      transactions, and that coinbase still opens with the block's height. */
  lemma ShareCommitsToBlock(sha: Sha, height: nat, tag: seq<Byte>, en1: nat, en2: nat, tail: seq<Byte>,
                            txids: seq<Hash>, extranonce1: seq<Byte>, extranonce2: seq<Byte>)
    requires height <= U64_MAX
    requires BuildCoinbase(height, tag, en1, en2, tail).Built?
    requires |extranonce1| + |extranonce2| == en1 + en2
    ensures var job := BuildJob(sha, BuildCoinbase(height, tag, en1, en2, tail), en1, en2, txids);
            && job.WellFormed()
            && Climb(sha, sha(Spliced(job, extranonce1, extranonce2)), job.branch)
               == TreeRoot(sha, [sha(MinerCoinbase(job, extranonce1, extranonce2))] + txids)
            && DecodePush(Spliced(job, extranonce1, extranonce2)[SCRIPT_SIG_OFFSET..])
               == Push(height, tag + extranonce1 + extranonce2 + tail)
  {
    hide Climb, TreeRoot, Branch, DecodePush, HeightPush;
    var branch := Branch(sha, txids);
    BuiltHalves(height, tag, en1, en2, tail, branch);
    var head := Preamble() + [|ScriptSig(height, tag, en1 + en2)|];
    var miner := head + HeightPush(height) + tag + extranonce1 + extranonce2 + tail;
    BranchReachesRoot(sha, sha(miner), txids);
    SplicedScript(head, HeightPush(height), tag, extranonce1, extranonce2, tail);
    HeightRoundTrip(height, tag + extranonce1 + extranonce2 + tail);
  }

  lemma Halves(head: seq<Byte>, push: seq<Byte>, tag: seq<Byte>, width: nat, tail: seq<Byte>)
    ensures var bytes := head + (push + tag + Zeros(width)) + tail;
            var offset := |head| + |push| + |tag|;
            bytes[..offset] == head + push + tag && bytes[offset + width..] == tail
  {
    var bytes := head + (push + tag + Zeros(width)) + tail;
    assert bytes == head + push + tag + Zeros(width) + tail;
  }

  lemma SplicedScript(head: seq<Byte>, push: seq<Byte>, tag: seq<Byte>, e1: seq<Byte>, e2: seq<Byte>, tail: seq<Byte>)
    ensures (head + push + tag + e1 + e2 + tail)[|head|..] == push + (tag + e1 + e2 + tail)
  {
  }
}
