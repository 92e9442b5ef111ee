/** Exponentially decaying averages over reals. The exponential enters only through
    p(x) = 1 - exp(-x), of which the stated bounds are used. */
module Decay {

  const TICK_SECS := 2.0
  const TINY := 0.0000000000000002
  const WINDOW_SECS := [60.0, 300.0, 600.0, 3600.0, 10800.0, 21600.0, 86400.0]

  /** What is used of p: strictly between 0 and 1, and below its argument. */
  ghost predicate Rises(p: real -> real) {
    forall x :: x > 0.0 ==> 0.0 < p(x) < 1.0 && p(x) <= x
  }

  function MinR(a: real, b: real): real {
    if a <= b then a else b
  }

  /** The share of a step that the new rate gets, with the exponent capped at 36. */
  function Prop(p: real -> real, secs: real, interval: real): real
    requires interval > 0.0
  {
    p(MinR(secs / interval, 36.0))
  }

  /** Past 36 windows the exponent stands still. */
  lemma PropIs(p: real -> real, secs: real, interval: real)
    requires interval > 0.0
    ensures secs / interval <= 36.0 ==> Prop(p, secs, interval) == p(secs / interval)
    ensures secs / interval > 36.0 ==> Prop(p, secs, interval) == p(36.0)
  {
  }

  function Snap(f: real): real {
    if f < TINY then 0.0 else f
  }

  /** The averaging step on its own. */
  function Mix(f: real, fadd: real, secs: real, q: real): real
    requires secs > 0.0 && 1.0 + q != 0.0
  {
    (f + fadd / secs * q) / (1.0 + q)
  }

  /** decay_time. */
  function Decayed(p: real -> real, f: real, fadd: real, secs: real, interval: real): real
    requires interval > 0.0 && (secs > 0.0 ==> Prop(p, secs, interval) > 0.0)
  {
    if secs <= 0.0 then f else Snap(Mix(f, fadd, secs, Prop(p, secs, interval)))
  }

  // ---- small facts ----

  lemma QuotientPositive(a: real, b: real)
    requires a > 0.0 && b > 0.0
    ensures a / b > 0.0
  {
  }

  lemma PropBounds(p: real -> real, secs: real, interval: real)
    requires Rises(p) && secs > 0.0 && interval > 0.0
    ensures 0.0 < Prop(p, secs, interval) < 1.0 && Prop(p, secs, interval) <= secs / interval
  {
    QuotientPositive(secs, interval);
    var x := MinR(secs / interval, 36.0);
    assert x > 0.0;
  }

  function Times(a: real, b: real): real {
    a * b
  }

  function Factor(q: real): real
    requires q > 0.0
  {
    1.0 / (1.0 + q)
  }

  /** What is left of a value after a step without income. */
  function Shrunk(v: real, q: real): real
    requires q > 0.0
  {
    Times(v, Factor(q))
  }

  lemma ShrunkBounds(v: real, q: real)
    requires v >= 0.0 && q > 0.0
    ensures 0.0 <= Shrunk(v, q) <= v
  {
    hide Times, Factor;
    UnitFactor(q);
    if v > 0.0 {
      TimesLess(v, Factor(q));
    } else {
      TimesZero(Factor(q));
    }
  }

  lemma TimesZero(g: real)
    ensures Times(0.0, g) == 0.0
  {
  }

  lemma TimesLess(v: real, g: real)
    requires v > 0.0 && 0.0 < g && g < 1.0
    ensures 0.0 < Times(v, g)
    ensures Times(v, g) < v
  {
    hide Times;
    TimesPositive(v, g);
    TimesBelow(v, g);
  }

  lemma TimesPositive(v: real, g: real)
    requires v > 0.0 && g > 0.0
    ensures 0.0 < Times(v, g)
  {
  }

  lemma TimesBelow(v: real, g: real)
    requires v > 0.0 && g < 1.0
    ensures Times(v, g) < v
  {
    ProductPositive(v, 1.0 - g);
  }

  lemma UnitFactor(q: real)
    requires q > 0.0
    ensures 0.0 < Factor(q) < 1.0
    ensures Factor(q) + Times(q, Factor(q)) == 1.0
  {
    QuotientPositive(1.0, 1.0 + q);
    Invert(Factor(q), q);
    ProductPositive(q, Factor(q));
  }

  lemma Invert(g: real, q: real)
    requires g * (1.0 + q) == 1.0
    ensures g + Times(q, g) == 1.0
  {
  }

  lemma ProductPositive(a: real, b: real)
    requires a > 0.0 && b > 0.0
    ensures a * b > 0.0
  {
  }

  lemma IdleMix(v: real, secs: real, q: real)
    requires secs > 0.0 && q > 0.0
    ensures Mix(v, 0.0, secs, q) == Shrunk(v, q)
  {
    assert 0.0 / secs == 0.0;
    DivideIsTimes(v, q);
  }

  lemma DivideIsTimes(v: real, q: real)
    requires q > 0.0
    ensures v / (1.0 + q) == Shrunk(v, q)
  {
  }

  // ---- restoring a checkpoint ----

  function Pow(g: real, n: nat): real {
    if n == 0 then 1.0 else Times(Pow(g, n - 1), g)
  }

  /** n idle steps without the snap. */
  function Faded(v: real, q: real, n: nat): real
    requires q > 0.0
  {
    if n == 0 then v else Shrunk(Faded(v, q, n - 1), q)
  }

  /** The same as one power. */
  function Scaled(v: real, q: real, n: nat): real
    requires q > 0.0
  {
    Times(v, Pow(Factor(q), n))
  }

  lemma {:induction false} FadedIsPower(v: real, q: real, n: nat)
    requires q > 0.0
    ensures Faded(v, q, n) == Scaled(v, q, n)
  {
    hide Times, Factor;
    if n == 0 {
      TimesOne(v);
    } else {
      FadedIsPower(v, q, n - 1);
      TimesAssoc(v, Pow(Factor(q), n - 1), Factor(q));
    }
  }

  lemma TimesOne(a: real)
    ensures Times(1.0, a) == a == Times(a, 1.0)
  {
  }

  lemma TimesAssoc(a: real, b: real, c: real)
    ensures Times(a, Times(b, c)) == Times(Times(a, b), c)
  {
  }

  lemma {:induction false} FadedNotNegative(v: real, q: real, n: nat)
    requires v >= 0.0 && q > 0.0
    ensures Faded(v, q, n) >= 0.0
  {
    hide Shrunk;
    if n > 0 {
      FadedNotNegative(v, q, n - 1);
      ShrunkBounds(Faded(v, q, n - 1), q);
    }
  }

  /** n idle ticks one by one, snap included. */
  function IdleTicks(p: real -> real, f: real, n: nat, interval: real): real
    requires interval > 0.0 && Prop(p, TICK_SECS, interval) > 0.0
  {
    if n == 0 then f else Decayed(p, IdleTicks(p, f, n - 1, interval), 0.0, TICK_SECS, interval)
  }

  /** The ticks a downtime would have had, and one step for the rest of it. */
  function Replay(p: real -> real, f: real, n: nat, remainder: real, interval: real): real
    requires interval > 0.0 && Prop(p, TICK_SECS, interval) > 0.0
             && (remainder > 0.0 ==> Prop(p, remainder, interval) > 0.0)
  {
    Decayed(p, IdleTicks(p, f, n, interval), 0.0, remainder, interval)
  }

  function WholeTicks(elapsed: real): nat
    requires elapsed >= 0.0
  {
    QuotientNotNegative(elapsed);
    (elapsed / TICK_SECS).Floor
  }

  lemma QuotientNotNegative(elapsed: real)
    requires elapsed >= 0.0
    ensures elapsed / TICK_SECS >= 0.0
  {
  }

  function Remainder(elapsed: real): (r: real)
    requires elapsed >= 0.0
    ensures 0.0 <= r < TICK_SECS
  {
    elapsed - WholeTicks(elapsed) as real * TICK_SECS
  }

  /** decay_idle_for, one window: a power for the whole ticks. */
  function Restored(p: real -> real, f: real, elapsed: real, interval: real): real
    requires interval > 0.0 && Prop(p, TICK_SECS, interval) > 0.0
    requires elapsed > 0.0 && Remainder(elapsed) > 0.0 ==> Prop(p, Remainder(elapsed), interval) > 0.0
  {
    if elapsed <= 0.0 then f else Downtime(p, f, WholeTicks(elapsed), Remainder(elapsed), interval)
  }

  function Downtime(p: real -> real, f: real, n: nat, remainder: real, interval: real): real
    requires interval > 0.0 && Prop(p, TICK_SECS, interval) > 0.0
             && (remainder > 0.0 ==> Prop(p, remainder, interval) > 0.0)
  {
    Snap(Decayed(p, Scaled(f, Prop(p, TICK_SECS, interval), n), 0.0, remainder, interval))
  }

  /** Snapping before a shrinking step changes nothing after it. */
  lemma SnapAbsorbs(v: real, q: real)
    requires v >= 0.0 && q > 0.0
    ensures Snap(Shrunk(Snap(v), q)) == Snap(Shrunk(v, q))
  {
    hide Shrunk;
    ShrunkBounds(v, q);
    ShrunkBounds(0.0, q);
  }

  lemma IdleStep(p: real -> real, f: real, secs: real, interval: real)
    requires interval > 0.0 && secs > 0.0 && Prop(p, secs, interval) > 0.0
    ensures Decayed(p, f, 0.0, secs, interval) == Snap(Shrunk(f, Prop(p, secs, interval)))
  {
    hide Mix, Prop, Shrunk, Snap;
    IdleMix(f, secs, Prop(p, secs, interval));
  }

  lemma {:induction false} IdleTicksClosed(p: real -> real, f: real, n: nat, interval: real)
    requires interval > 0.0 && f >= 0.0 && n > 0
    requires Prop(p, TICK_SECS, interval) > 0.0
    ensures IdleTicks(p, f, n, interval) == Snap(Faded(f, Prop(p, TICK_SECS, interval), n))
  {
    hide Shrunk, Snap, Prop, Decayed;
    var q := Prop(p, TICK_SECS, interval);
    IdleStep(p, IdleTicks(p, f, n - 1, interval), TICK_SECS, interval);
    if n > 1 {
      IdleTicksClosed(p, f, n - 1, interval);
      FadedNotNegative(f, q, n - 1);
      SnapAbsorbs(Faded(f, q, n - 1), q);
    }
  }

  lemma SnapTwice(v: real)
    ensures Snap(Snap(v)) == Snap(v)
  {
  }

  /** Restoring a checkpoint equals running its downtime tick by tick. */
  lemma RestoreEqualsReplay(p: real -> real, f: real, elapsed: real, interval: real)
    requires interval > 0.0 && f >= 0.0 && elapsed >= 0.0
    requires Prop(p, TICK_SECS, interval) > 0.0
    requires Remainder(elapsed) > 0.0 ==> Prop(p, Remainder(elapsed), interval) > 0.0
    ensures Restored(p, f, elapsed, interval) == Replay(p, f, WholeTicks(elapsed), Remainder(elapsed), interval)
  {
    hide WholeTicks, Prop, Pow, Snap, Mix;
    TicksAndRest(elapsed);
    RestoredIsReplay(p, f, WholeTicks(elapsed), Remainder(elapsed), interval);
  }

  lemma TicksAndRest(elapsed: real)
    requires elapsed >= 0.0
    ensures elapsed > 0.0 <==> WholeTicks(elapsed) > 0 || Remainder(elapsed) > 0.0
  {
  }

  lemma RestoredIsReplay(p: real -> real, f: real, n: nat, rest: real, interval: real)
    requires interval > 0.0 && f >= 0.0 && rest >= 0.0
    requires Prop(p, TICK_SECS, interval) > 0.0 && (rest > 0.0 ==> Prop(p, rest, interval) > 0.0)
    ensures if n > 0 || rest > 0.0 then Downtime(p, f, n, rest, interval) == Replay(p, f, n, rest, interval)
            else Replay(p, f, n, rest, interval) == f
  {
    hide Shrunk, Snap, Prop, Mix, Scaled;
    var q := Prop(p, TICK_SECS, interval);
    var v := Faded(f, q, n);
    FadedNotNegative(f, q, n);
    FadedIsPower(f, q, n);
    if n > 0 {
      IdleTicksClosed(p, f, n, interval);
    }
    if rest > 0.0 {
      var r := Prop(p, rest, interval);
      IdleStep(p, v, rest, interval);
      IdleStep(p, IdleTicks(p, f, n, interval), rest, interval);
      SnapAbsorbs(v, r);
      SnapTwice(Shrunk(v, r));
    }
  }

  // ---- a constant rate ----

  /** One step fed the constant rate r. */
  function Fed(f: real, r: real, q: real): real
    requires q > 0.0
  {
    (f + r * q) / (1.0 + q)
  }

  lemma FedIsMix(f: real, r: real, secs: real, q: real)
    requires secs > 0.0 && q > 0.0
    ensures Mix(f, r * secs, secs, q) == Fed(f, r, q)
  {
    assert (r * secs) / secs == r;
  }

  lemma GapShrinks(f: real, r: real, q: real)
    requires q > 0.0
    ensures Fed(f, r, q) - r == Shrunk(f - r, q)
  {
    var d := 1.0 + q;
    assert r * q - r * d == -r;
    assert (f + r * q) / d - r == (f + r * q - r * d) / d;
    DivideIsTimes(f - r, q);
  }

  function FedRun(f: real, r: real, qs: seq<real>): real
    requires forall i :: 0 <= i < |qs| ==> qs[i] > 0.0
  {
    if qs == [] then f else Fed(FedRun(f, r, qs[..|qs| - 1]), r, qs[|qs| - 1])
  }

  /** The product of the factors 1/(1+q). */
  function Shrinkage(qs: seq<real>): real
    requires forall i :: 0 <= i < |qs| ==> qs[i] > 0.0
  {
    if qs == [] then 1.0 else Shrunk(Shrinkage(qs[..|qs| - 1]), qs[|qs| - 1])
  }

  lemma ShrunkScales(a: real, b: real, q: real)
    requires q > 0.0
    ensures Shrunk(Times(a, b), q) == Times(a, Shrunk(b, q))
  {
    TimesAssoc(a, b, Factor(q));
  }

  /** x is as far from r as f, times s. */
  predicate Contracted(f: real, r: real, x: real, s: real) {
    x - r == Times(f - r, s)
  }

  lemma ContractStep(f: real, r: real, x: real, s: real, q: real)
    requires q > 0.0 && Contracted(f, r, x, s)
    ensures Contracted(f, r, Fed(x, r, q), Shrunk(s, q))
  {
    GapShrinks(x, r, q);
    ShrunkScales(f - r, s, q);
  }

  /** Whatever the spacing of the ticks, the distance to the true rate shrinks by the product of
      1/(1+q), and the reading stays between where it was and the rate. */
  lemma {:induction false} ConstantRateContracts(f: real, r: real, qs: seq<real>)
    requires forall i :: 0 <= i < |qs| ==> qs[i] > 0.0
    ensures Contracted(f, r, FedRun(f, r, qs), Shrinkage(qs))
    ensures 0.0 < Shrinkage(qs) <= 1.0
    ensures |qs| > 0 ==> Shrinkage(qs) < 1.0
    ensures if f <= r then f <= FedRun(f, r, qs) <= r else r <= FedRun(f, r, qs) <= f
  {
    hide Fed, Shrunk, Contracted;
    if qs == [] {
      assert Contracted(f, r, f, 1.0) by { ContractedAtOnce(f, r); }
    } else {
      var (front, q) := (qs[..|qs| - 1], qs[|qs| - 1]);
      ConstantRateContracts(f, r, front);
      ContractStep(f, r, FedRun(f, r, front), Shrinkage(front), q);
      ShrunkStrictly(Shrinkage(front), q);
    }
    Within(f, r, Shrinkage(qs), FedRun(f, r, qs));
  }

  lemma ContractedAtOnce(f: real, r: real)
    ensures Contracted(f, r, f, 1.0)
  {
  }

  lemma ShrunkStrictly(v: real, q: real)
    requires v > 0.0 && q > 0.0
    ensures 0.0 < Shrunk(v, q)
    ensures Shrunk(v, q) < v
  {
    hide Times, Factor;
    UnitFactor(q);
    TimesLess(v, Factor(q));
  }

  lemma Within(f: real, r: real, s: real, x: real)
    requires Contracted(f, r, x, s) && 0.0 < s <= 1.0
    ensures if f <= r then f <= x <= r else r <= x <= f
  {
    var gap := if f <= r then r - f else f - r;
    NotNegative(gap, s);
    NotNegative(gap, 1.0 - s);
    assert gap * s == gap - gap * (1.0 - s);
    assert f <= r ==> (f - r) * s == -(gap * s);
  }

  lemma NotNegative(a: real, b: real)
    requires a >= 0.0 && b >= 0.0
    ensures a * b >= 0.0
  {
  }

  // ---- bursts ----

  datatype Tick = Tick(fadd: real, secs: real)

  predicate Sane(ts: seq<Tick>) {
    forall i :: 0 <= i < |ts| ==> ts[i].fadd >= 0.0 && ts[i].secs > 0.0
  }

  function TotalAdded(ts: seq<Tick>): real {
    if ts == [] then 0.0 else TotalAdded(ts[..|ts| - 1]) + ts[|ts| - 1].fadd
  }

  /** A run of decay_time steps, snap included. */
  ghost function Metered(p: real -> real, f: real, ts: seq<Tick>, interval: real): real
    requires Rises(p) && interval > 0.0 && Sane(ts)
  {
    if ts == [] then f
    else
      var t := ts[|ts| - 1];
      PropBounds(p, t.secs, interval);
      Decayed(p, Metered(p, f, ts[..|ts| - 1], interval), t.fadd, t.secs, interval)
  }

  lemma StepAdds(f: real, fadd: real, secs: real, q: real, interval: real)
    requires f >= 0.0 && fadd >= 0.0 && secs > 0.0 && interval > 0.0 && 0.0 < q <= secs / interval
    ensures 0.0 <= Mix(f, fadd, secs, q) <= f + fadd / interval
  {
    var rate := fadd / secs;
    RateNotNegative(fadd, secs);
    NotNegative(rate, q);
    NotNegative(rate, secs / interval - q);
    assert rate * (secs / interval) == rate * q + rate * (secs / interval - q);
    Spread(fadd, secs, interval);
    DivideIsTimes(f + rate * q, q);
    ShrunkBounds(f + rate * q, q);
  }

  lemma RateNotNegative(a: real, b: real)
    requires a >= 0.0 && b > 0.0
    ensures a / b >= 0.0
  {
  }

  lemma Spread(a: real, b: real, c: real)
    requires b > 0.0 && c > 0.0
    ensures a / b * (b / c) == a / c
  {
    assert a / b * b == a;
    var x := a / b;
    assert x * (b / c) == x * b / c;
  }

  /** A meter started at zero never reads more than everything it was fed, over its window. */
  lemma {:induction false} BurstBound(p: real -> real, ts: seq<Tick>, interval: real)
    requires Rises(p) && interval > 0.0 && Sane(ts)
    ensures 0.0 <= Metered(p, 0.0, ts, interval) <= TotalAdded(ts) / interval
  {
    hide Mix, Prop;
    if ts == [] {
      assert 0.0 / interval == 0.0;
    } else {
      var (front, t) := (ts[..|ts| - 1], ts[|ts| - 1]);
      BurstBound(p, front, interval);
      PropBounds(p, t.secs, interval);
      StepAdds(Metered(p, 0.0, front, interval), t.fadd, t.secs, Prop(p, t.secs, interval), interval);
      DivideSum(TotalAdded(front), t.fadd, interval);
    }
  }

  lemma DivideSum(a: real, b: real, c: real)
    requires c > 0.0
    ensures (a + b) / c == a / c + b / c
  {
  }

  // ---- the meter at a constant rate ----

  /** Ticks at the given spacing, each fed the rate r for its length. */
  function Steady(r: real, spacing: seq<real>): (ts: seq<Tick>)
    requires r >= 0.0 && forall i :: 0 <= i < |spacing| ==> spacing[i] > 0.0
    ensures |ts| == |spacing| && Sane(ts)
    ensures forall i :: 0 <= i < |ts| ==> ts[i] == Tick(Times(r, spacing[i]), spacing[i])
  {
    if spacing == [] then []
    else
      var secs := spacing[|spacing| - 1];
      NotNegative(r, secs);
      Steady(r, spacing[..|spacing| - 1]) + [Tick(Times(r, secs), secs)]
  }

  ghost function Props(p: real -> real, spacing: seq<real>, interval: real): (qs: seq<real>)
    requires Rises(p) && interval > 0.0 && forall i :: 0 <= i < |spacing| ==> spacing[i] > 0.0
    ensures |qs| == |spacing| && forall i :: 0 <= i < |qs| ==> qs[i] > 0.0
  {
    if spacing == [] then []
    else
      PropBounds(p, spacing[|spacing| - 1], interval);
      Props(p, spacing[..|spacing| - 1], interval) + [Prop(p, spacing[|spacing| - 1], interval)]
  }

  lemma SteadyFront(r: real, spacing: seq<real>)
    requires r >= 0.0 && spacing != [] && forall i :: 0 <= i < |spacing| ==> spacing[i] > 0.0
    ensures Steady(r, spacing)[..|spacing| - 1] == Steady(r, spacing[..|spacing| - 1])
  {
  }

  lemma {:induction false} FedRunHead(f: real, r: real, qs: seq<real>)
    requires qs != [] && forall i :: 0 <= i < |qs| ==> qs[i] > 0.0
    ensures FedRun(f, r, qs) == FedRun(Fed(f, r, qs[0]), r, qs[1..])
  {
    hide Fed;
    var front := qs[..|qs| - 1];
    if front == [] {
      assert FedRun(f, r, qs) == Fed(FedRun(f, r, front), r, qs[0]);
    } else {
      FedRunHead(f, r, front);
      assert qs[1..][..|qs| - 2] == front[1..];
    }
  }

  /** Once the first step leaves a showable reading, every later one is showable. */
  lemma FedRunShows(f: real, r: real, qs: seq<real>)
    requires qs != [] && (forall i :: 0 <= i < |qs| ==> qs[i] > 0.0)
    requires r >= TINY && Fed(f, r, qs[0]) >= TINY
    ensures FedRun(f, r, qs) >= TINY
  {
    hide Fed, Shrunk, Shrinkage, Contracted, FedRun;
    FedRunHead(f, r, qs);
    ConstantRateContracts(Fed(f, r, qs[0]), r, qs[1..]);
  }

  /** The first step of a run at the given spacing. */
  ghost function FirstStep(p: real -> real, f: real, r: real, spacing: seq<real>, interval: real): real
    requires Rises(p) && interval > 0.0 && spacing != [] && forall i :: 0 <= i < |spacing| ==> spacing[i] > 0.0
  {
    PropBounds(p, spacing[0], interval);
    Fed(f, r, Prop(p, spacing[0], interval))
  }

  lemma {:induction false} PropsAt(p: real -> real, spacing: seq<real>, interval: real, i: nat)
    requires Rises(p) && interval > 0.0 && i < |spacing| && forall j :: 0 <= j < |spacing| ==> spacing[j] > 0.0
    ensures Props(p, spacing, interval)[i] == Prop(p, spacing[i], interval)
  {
    hide Prop;
    if i < |spacing| - 1 {
      PropsAt(p, spacing[..|spacing| - 1], interval, i);
    }
  }

  /** The meter itself, snap included, contracts towards any rate it can show, from any reading whose
      first step shows: every reading it can hold, and zero when the first step is large enough. */
  lemma {:induction false} MeterContracts(p: real -> real, f: real, r: real, spacing: seq<real>, interval: real)
    requires Rises(p) && interval > 0.0 && r >= TINY
    requires forall i :: 0 <= i < |spacing| ==> spacing[i] > 0.0
    requires spacing == [] || FirstStep(p, f, r, spacing, interval) >= TINY
    ensures Metered(p, f, Steady(r, spacing), interval) == FedRun(f, r, Props(p, spacing, interval))
    ensures Contracted(f, r, Metered(p, f, Steady(r, spacing), interval), Shrinkage(Props(p, spacing, interval)))
  {
    hide Fed, Shrunk, Contracted, Prop, Decayed, Shrinkage, Times;
    var qs := Props(p, spacing, interval);
    ConstantRateContracts(f, r, qs);
    if spacing != [] {
      var (front, secs) := (spacing[..|spacing| - 1], spacing[|spacing| - 1]);
      MeterContracts(p, f, r, front, interval);
      SteadyFront(r, spacing);
      assert qs[..|qs| - 1] == Props(p, front, interval);
      PropBounds(p, secs, interval);
      PropsAt(p, spacing, interval, 0);
      FedRunShows(f, r, qs);
      SteadyStep(p, Metered(p, f, Steady(r, front), interval), r, secs, interval);
    }
  }

  /** A reading the meter can hold always shows after a step. */
  lemma HeldReadingShows(p: real -> real, f: real, r: real, spacing: seq<real>, interval: real)
    requires Rises(p) && interval > 0.0 && f >= TINY && r >= TINY
    requires spacing != [] && forall i :: 0 <= i < |spacing| ==> spacing[i] > 0.0
    ensures FirstStep(p, f, r, spacing, interval) >= TINY
  {
    hide Fed, Shrunk, Shrinkage, Contracted, Prop;
    PropBounds(p, spacing[0], interval);
    var q := Prop(p, spacing[0], interval);
    ConstantRateContracts(f, r, [q]);
    assert FedRun(f, r, [q]) == Fed(FedRun(f, r, []), r, q) by {
      assert [q][..0] == [];
    }
  }

  /** A new meter follows the contraction exactly when its first step shows; a smaller one snaps back
      to zero. */
  lemma FreshMeterContractsIff(p: real -> real, r: real, spacing: seq<real>, interval: real)
    requires Rises(p) && interval > 0.0 && r >= TINY
    requires spacing != [] && forall i :: 0 <= i < |spacing| ==> spacing[i] > 0.0
    ensures (forall n :: 0 < n <= |spacing| ==>
               Metered(p, 0.0, Steady(r, spacing[..n]), interval) == FedRun(0.0, r, Props(p, spacing[..n], interval)))
            <==> FirstStep(p, 0.0, r, spacing, interval) >= TINY
    ensures FirstStep(p, 0.0, r, spacing, interval) < TINY ==> Metered(p, 0.0, Steady(r, spacing[..1]), interval) == 0.0
  {
    hide Fed, Shrunk, Contracted, Prop, Metered, Shrinkage, Times, Steady, Props;
    FirstTick(p, r, spacing[..1], interval);
    assert FirstStep(p, 0.0, r, spacing[..1], interval) == FirstStep(p, 0.0, r, spacing, interval);
    if FirstStep(p, 0.0, r, spacing, interval) >= TINY {
      forall n | 0 < n <= |spacing|
        ensures Metered(p, 0.0, Steady(r, spacing[..n]), interval) == FedRun(0.0, r, Props(p, spacing[..n], interval))
      {
        assert FirstStep(p, 0.0, r, spacing[..n], interval) == FirstStep(p, 0.0, r, spacing, interval);
        MeterContracts(p, 0.0, r, spacing[..n], interval);
      }
    }
  }

  /** A single tick from zero. */
  lemma FirstTick(p: real -> real, r: real, spacing: seq<real>, interval: real)
    requires Rises(p) && interval > 0.0 && r >= TINY && |spacing| == 1 && spacing[0] > 0.0
    ensures var x := FirstStep(p, 0.0, r, spacing, interval);
            && x > 0.0
            && FedRun(0.0, r, Props(p, spacing, interval)) == x
            && (x < TINY ==> Metered(p, 0.0, Steady(r, spacing), interval) == 0.0)
  {
    hide Fed, Prop, Times, Mix;
    var secs := spacing[0];
    PropBounds(p, secs, interval);
    var (q, qs, ts) := (Prop(p, secs, interval), Props(p, spacing, interval), Steady(r, spacing));
    PropsAt(p, spacing, interval, 0);
    assert qs[..0] == [] && ts[..0] == [];
    FedFromZero(r, q);
    FedIsMix(0.0, r, secs, q);
    TimesMeans(r, secs);
  }

  lemma TimesMeans(a: real, b: real)
    ensures Times(a, b) == a * b
  {
  }

  lemma FedFromZero(r: real, q: real)
    requires r > 0.0 && q > 0.0
    ensures Fed(0.0, r, q) > 0.0
  {
    ProductPositive(r, q);
    QuotientPositive(r * q, 1.0 + q);
  }

  lemma SteadyStep(p: real -> real, x: real, r: real, secs: real, interval: real)
    requires interval > 0.0 && secs > 0.0 && Prop(p, secs, interval) > 0.0
    requires Fed(x, r, Prop(p, secs, interval)) >= TINY
    ensures Decayed(p, x, Times(r, secs), secs, interval) == Fed(x, r, Prop(p, secs, interval))
  {
    hide Mix, Prop, Fed;
    FedIsMix(x, r, secs, Prop(p, secs, interval));
  }

  // ---- summing sessions ----

  /** Sessions decayed on the same tick add up: the sum of the meters is the meter of the sums. */
  lemma MetersAdd(f: real, g: real, a: real, b: real, secs: real, q: real)
    requires secs > 0.0 && q > 0.0
    ensures Mix(f + g, a + b, secs, q) == Mix(f, a, secs, q) + Mix(g, b, secs, q)
  {
    DivideSum(a, b, secs);
    assert (a / secs + b / secs) * q == a / secs * q + b / secs * q;
    DivideSum(f + a / secs * q, g + b / secs * q, 1.0 + q);
  }

  /** Two sessions' ticks taken together: same times, amounts added. */
  function Together(ts: seq<Tick>, us: seq<Tick>): (vs: seq<Tick>)
    requires |ts| == |us| && Sane(ts) && Sane(us) && forall i :: 0 <= i < |ts| ==> ts[i].secs == us[i].secs
    ensures |vs| == |ts| && Sane(vs)
    ensures forall i :: 0 <= i < |vs| ==> vs[i] == Tick(ts[i].fadd + us[i].fadd, ts[i].secs)
  {
    if ts == [] then []
    else
      var (t, u) := (ts[|ts| - 1], us[|us| - 1]);
      Together(ts[..|ts| - 1], us[..|us| - 1]) + [Tick(t.fadd + u.fadd, t.secs)]
  }

  predicate Near(x: real, sum: real, n: nat) {
    sum - n as real * TINY <= x <= sum + n as real * (2.0 * TINY)
  }

  lemma SnapLoses(x: real)
    requires x >= 0.0
    ensures x - TINY <= Snap(x) <= x && Snap(x) >= 0.0
  {
  }

  lemma MixNotNegative(f: real, fadd: real, secs: real, q: real)
    requires f >= 0.0 && fadd >= 0.0 && secs > 0.0 && q > 0.0
    ensures Mix(f, fadd, secs, q) >= 0.0
  {
    RateNotNegative(fadd, secs);
    NotNegative(fadd / secs, q);
    RateNotNegative(f + fadd / secs * q, 1.0 + q);
  }

  /** A difference carried into a step only shrinks. */
  lemma MixShift(f: real, d: real, a: real, secs: real, q: real)
    requires secs > 0.0 && q > 0.0
    ensures var e := Mix(f + d, a, secs, q) - Mix(f, a, secs, q); if d >= 0.0 then 0.0 <= e <= d else d <= e <= 0.0
  {
    hide Shrunk;
    DivideSum(f + a / secs * q, d, 1.0 + q);
    DivideIsTimes(d, q);
    DivideIsTimes(-d, q);
    if d >= 0.0 {
      ShrunkBounds(d, q);
    } else {
      ShrunkBounds(-d, q);
      assert d / (1.0 + q) == -((-d) / (1.0 + q));
    }
  }

  lemma StepNear(x: real, f: real, g: real, a: real, b: real, secs: real, q: real, n: nat)
    requires x >= 0.0 && f >= 0.0 && g >= 0.0 && a >= 0.0 && b >= 0.0 && secs > 0.0 && q > 0.0 && Near(x, f + g, n)
    ensures Near(Snap(Mix(x, a + b, secs, q)), Snap(Mix(f, a, secs, q)) + Snap(Mix(g, b, secs, q)), n + 1)
  {
    hide Mix, Snap;
    MixShift(f + g, x - (f + g), a + b, secs, q);
    MetersAdd(f, g, a, b, secs, q);
    MixNotNegative(x, a + b, secs, q);
    MixNotNegative(f, a, secs, q);
    MixNotNegative(g, b, secs, q);
    SnapLoses(Mix(x, a + b, secs, q));
    SnapLoses(Mix(f, a, secs, q));
    SnapLoses(Mix(g, b, secs, q));
  }

  /** Over whole runs, snap included, the sum of two meters stays within 4e-16 per tick of the meter of
      their sums. */
  lemma {:induction false} MetersAddUp(p: real -> real, f: real, g: real, ts: seq<Tick>, us: seq<Tick>, interval: real)
    requires Rises(p) && interval > 0.0 && f >= 0.0 && g >= 0.0
    requires |ts| == |us| && Sane(ts) && Sane(us) && forall i :: 0 <= i < |ts| ==> ts[i].secs == us[i].secs
    ensures Metered(p, f, ts, interval) >= 0.0 && Metered(p, g, us, interval) >= 0.0
    ensures Metered(p, f + g, Together(ts, us), interval) >= 0.0
    ensures Near(Metered(p, f + g, Together(ts, us), interval),
                 Metered(p, f, ts, interval) + Metered(p, g, us, interval), |ts|)
  {
    hide Mix, Snap, Prop, Near, Metered, Together;
    if ts == [] {
      NearAtOnce(f + g);
      MeteredNothing(p, f, interval);
      MeteredNothing(p, g, interval);
      MeteredNothing(p, f + g, interval);
    } else {
      var (ts', us', vs) := (ts[..|ts| - 1], us[..|us| - 1], Together(ts, us));
      var (t, u) := (ts[|ts| - 1], us[|us| - 1]);
      MetersAddUp(p, f, g, ts', us', interval);
      TogetherFront(ts, us);
      PropBounds(p, t.secs, interval);
      MeteredLast(p, f, ts, interval);
      MeteredLast(p, g, us, interval);
      MeteredLast(p, f + g, vs, interval);
      StepNear(Metered(p, f + g, Together(ts', us'), interval),
               Metered(p, f, ts', interval), Metered(p, g, us', interval),
               t.fadd, u.fadd, t.secs, Prop(p, t.secs, interval), |ts'|);
    }
  }

  lemma MeteredNothing(p: real -> real, f: real, interval: real)
    requires Rises(p) && interval > 0.0
    ensures Metered(p, f, [], interval) == f
  {
  }

  lemma MeteredLast(p: real -> real, f: real, ts: seq<Tick>, interval: real)
    requires Rises(p) && interval > 0.0 && Sane(ts) && ts != []
    ensures var (front, t) := (ts[..|ts| - 1], ts[|ts| - 1]);
            && Prop(p, t.secs, interval) > 0.0
            && Metered(p, f, ts, interval)
               == Snap(Mix(Metered(p, f, front, interval), t.fadd, t.secs, Prop(p, t.secs, interval)))
            && Metered(p, f, ts, interval) >= 0.0
  {
    hide Mix, Prop;
    PropBounds(p, ts[|ts| - 1].secs, interval);
  }

  lemma TogetherFront(ts: seq<Tick>, us: seq<Tick>)
    requires |ts| == |us| && ts != [] && Sane(ts) && Sane(us) && forall i :: 0 <= i < |ts| ==> ts[i].secs == us[i].secs
    ensures Together(ts, us)[..|ts| - 1] == Together(ts[..|ts| - 1], us[..|us| - 1])
  {
  }

  lemma NearAtOnce(x: real)
    ensures Near(x, x, 0)
  {
  }

  lemma SnapNotNegative(v: real)
    ensures Snap(v) >= 0.0
  {
  }

  // ---- the warm-up correction ----

  /** x is r short of w of itself. */
  predicate ShortBy(r: real, x: real, w: real) {
    x == r - Times(r, w)
  }

  lemma TimesNegated(a: real, b: real)
    ensures Times(-a, b) == -Times(a, b)
  {
  }

  /** A run from zero is short of the rate by exactly the shrinkage. */
  lemma SteadyFromZero(r: real, qs: seq<real>)
    requires forall i :: 0 <= i < |qs| ==> qs[i] > 0.0
    ensures ShortBy(r, FedRun(0.0, r, qs), Shrinkage(qs))
  {
    hide FedRun, Shrinkage, Times;
    ConstantRateContracts(0.0, r, qs);
    TimesNegated(r, Shrinkage(qs));
    assert 0.0 - r == -r;
  }

  /** What a true exponential satisfies besides the bounds. */
  ghost predicate Exponential(p: real -> real) {
    forall x, y :: x > 0.0 && y > 0.0 ==> 1.0 - p(x + y) == Times(1.0 - p(x), 1.0 - p(y))
  }

  /** The age of a session after ticks at the given spacing, in units of its window. */
  function Age(spacing: seq<real>, interval: real): real
    requires interval > 0.0
  {
    if spacing == [] then 0.0 else Age(spacing[..|spacing| - 1], interval) + spacing[|spacing| - 1] / interval
  }

  function TotalSecs(spacing: seq<real>): real {
    if spacing == [] then 0.0 else TotalSecs(spacing[..|spacing| - 1]) + spacing[|spacing| - 1]
  }

  lemma {:induction false} AgeIsTotal(spacing: seq<real>, interval: real)
    requires interval > 0.0
    ensures Age(spacing, interval) == TotalSecs(spacing) / interval
  {
    if spacing == [] {
      assert 0.0 / interval == 0.0;
    } else {
      AgeIsTotal(spacing[..|spacing| - 1], interval);
      DivideSum(TotalSecs(spacing[..|spacing| - 1]), spacing[|spacing| - 1], interval);
    }
  }

  /** The product of the factors 1-q. */
  function Survival(qs: seq<real>): real {
    if qs == [] then 1.0 else Times(Survival(qs[..|qs| - 1]), 1.0 - qs[|qs| - 1])
  }

  /** While the age is below the cap, the correction misses one by the product of the ticks' own. */
  lemma {:induction false} BiasOfTicks(p: real -> real, spacing: seq<real>, interval: real)
    requires Rises(p) && Exponential(p) && interval > 0.0 && spacing != [] && Age(spacing, interval) <= 36.0
    requires forall i :: 0 <= i < |spacing| ==> spacing[i] > 0.0
    ensures Age(spacing, interval) > 0.0
    ensures 1.0 - p(Age(spacing, interval)) == Survival(Props(p, spacing, interval))
  {
    hide Times, Exponential, Prop;
    var (front, secs, qs) := (spacing[..|spacing| - 1], spacing[|spacing| - 1], Props(p, spacing, interval));
    QuotientPositive(secs, interval);
    assert qs[..|qs| - 1] == Props(p, front, interval);
    PropsAt(p, spacing, interval, |spacing| - 1);
    if front == [] {
      Uncapped(p, secs, interval);
      TimesOne(1.0 - qs[0]);
    } else {
      BiasOfTicks(p, front, interval);
      Uncapped(p, secs, interval);
      BiasOfSum(p, Age(front, interval), secs / interval);
    }
  }

  lemma Uncapped(p: real -> real, secs: real, interval: real)
    requires interval > 0.0 && secs / interval <= 36.0
    ensures Prop(p, secs, interval) == p(secs / interval)
  {
  }

  lemma BiasOfSum(p: real -> real, x: real, y: real)
    requires Exponential(p) && x > 0.0 && y > 0.0
    ensures 1.0 - p(x + y) == Times(1.0 - p(x), 1.0 - p(y))
  {
  }

  /** Shrinking by 1/(1+q) leaves more than shrinking by 1-q. */
  lemma {:induction false} FadesSlower(qs: seq<real>)
    requires qs != [] && forall i :: 0 <= i < |qs| ==> 0.0 < qs[i] < 1.0
    ensures 0.0 < Survival(qs)
    ensures Survival(qs) < Shrinkage(qs)
  {
    hide Shrunk, Times;
    var (front, q) := (qs[..|qs| - 1], qs[|qs| - 1]);
    OneStepSlower(q);
    if front == [] {
      TimesOne(1.0 - q);
    } else {
      FadesSlower(front);
      SlowerStill(Survival(front), Shrinkage(front), q);
    }
  }

  lemma SlowerStill(a: real, b: real, q: real)
    requires 0.0 < a && a < b && 0.0 < q && q < 1.0
    ensures 0.0 < Times(a, 1.0 - q)
    ensures Times(a, 1.0 - q) < Shrunk(b, q)
  {
    hide Times, Factor;
    OneStepSlower(q);
    TimesOne(Factor(q));
    LessProduct(a, b, 1.0 - q, Factor(q));
  }

  lemma LessProduct(a: real, b: real, c: real, d: real)
    requires 0.0 < a && a < b && 0.0 < c && c < d
    ensures 0.0 < Times(a, c)
    ensures Times(a, c) < Times(b, d)
  {
    hide Times;
    TimesPositive(a, c);
    TimesMonotone(c, a, b);
    TimesMonotone(b, c, d);
    TimesComm(a, c);
    TimesComm(b, c);
  }

  lemma TimesComm(a: real, b: real)
    ensures Times(a, b) == Times(b, a)
  {
  }

  lemma TimesMonotone(a: real, b: real, c: real)
    requires a > 0.0 && b < c
    ensures Times(a, b) < Times(a, c)
  {
    ProductPositive(a, c - b);
  }

  lemma OneStepSlower(q: real)
    requires 0.0 < q && q < 1.0
    ensures 1.0 - q < Shrunk(1.0, q)
  {
    hide Times, Factor;
    UnitFactor(q);
    TimesLess(q, Factor(q));
    TimesOne(Factor(q));
  }

  /** time_bias, for an age given in units of the window. */
  function Bias(p: real -> real, age: real): real {
    p(MinR(age, 36.0))
  }

  lemma FedMonotone(x: real, y: real, r: real, q: real)
    requires q > 0.0 && x <= y
    ensures Fed(x, r, q) <= Fed(y, r, q)
  {
    DivideSum(x + r * q, y - x, 1.0 + q);
    RateNotNegative(y - x, 1.0 + q);
  }

  /** The snap only ever lowers a meter. */
  lemma {:induction false} MeterBelowRun(p: real -> real, r: real, spacing: seq<real>, interval: real)
    requires Rises(p) && interval > 0.0 && r > 0.0
    requires forall i :: 0 <= i < |spacing| ==> spacing[i] > 0.0
    ensures 0.0 <= Metered(p, 0.0, Steady(r, spacing), interval) <= FedRun(0.0, r, Props(p, spacing, interval))
  {
    hide Fed, Prop, Times, Mix;
    if spacing != [] {
      var (front, secs, qs) := (spacing[..|spacing| - 1], spacing[|spacing| - 1], Props(p, spacing, interval));
      MeterBelowRun(p, r, front, interval);
      SteadyFront(r, spacing);
      assert qs[..|qs| - 1] == Props(p, front, interval);
      PropBounds(p, secs, interval);
      var (x, y) := (Metered(p, 0.0, Steady(r, front), interval), FedRun(0.0, r, Props(p, front, interval)));
      var q := Prop(p, secs, interval);
      FedIsMix(x, r, secs, q);
      TimesMeans(r, secs);
      FedMonotone(x, y, r, q);
      FedNotNegative(x, r, q);
    }
  }

  lemma FedNotNegative(x: real, r: real, q: real)
    requires x >= 0.0 && r >= 0.0 && q > 0.0
    ensures Fed(x, r, q) >= 0.0
  {
    NotNegative(r, q);
    RateNotNegative(x + r * q, 1.0 + q);
  }

  lemma {:induction false} PropsBelowOne(p: real -> real, spacing: seq<real>, interval: real)
    requires Rises(p) && interval > 0.0 && forall i :: 0 <= i < |spacing| ==> spacing[i] > 0.0
    ensures forall i :: 0 <= i < |spacing| ==> 0.0 < Props(p, spacing, interval)[i] < 1.0
  {
    hide Prop;
    if spacing != [] {
      PropsBelowOne(p, spacing[..|spacing| - 1], interval);
      PropBounds(p, spacing[|spacing| - 1], interval);
    }
  }

  /** The correction does not recover the true rate: for any spacing of the ticks from zero, up to the
      36 windows the exponent is capped at, the meter's reading divided by the correction is strictly
      below the rate it was fed. */
  lemma CorrectedReadingIsLow(p: real -> real, r: real, spacing: seq<real>, interval: real)
    requires Rises(p) && Exponential(p) && r > 0.0 && interval > 0.0 && spacing != []
    requires forall i :: 0 <= i < |spacing| ==> spacing[i] > 0.0
    requires TotalSecs(spacing) / interval <= 36.0
    ensures Bias(p, TotalSecs(spacing) / interval) > 0.0
    ensures Metered(p, 0.0, Steady(r, spacing), interval) / Bias(p, TotalSecs(spacing) / interval) < r
  {
    hide FedRun, Times, Metered, Steady, Props, Shrinkage, Survival, Age, TotalSecs, ShortBy;
    var (qs, age) := (Props(p, spacing, interval), Age(spacing, interval));
    AgeIsTotal(spacing, interval);
    BiasOfTicks(p, spacing, interval);
    SteadyFromZero(r, qs);
    PropsBelowOne(p, spacing, interval);
    FadesSlower(qs);
    MeterBelowRun(p, r, spacing, interval);
    ShortOfBias(FedRun(0.0, r, qs), r, Shrinkage(qs), p(age));
    QuotientMonotone(Metered(p, 0.0, Steady(r, spacing), interval), FedRun(0.0, r, qs), p(age));
  }

  lemma QuotientMonotone(a: real, b: real, d: real)
    requires a <= b && d > 0.0
    ensures a / d <= b / d
  {
    DivideSum(a, b - a, d);
    RateNotNegative(b - a, d);
  }

  lemma ShortOfBias(f: real, r: real, w: real, bias: real)
    requires r > 0.0 && ShortBy(r, f, w) && 1.0 - bias < w && bias > 0.0
    ensures f / bias < r
  {
    hide Times;
    TimesMonotone(r, 1.0 - bias, w);
    TimesRest(r, bias);
    TimesComm(r, bias);
    DivideTimes(f, bias);
    if f / bias > r {
      TimesMonotone(bias, r, f / bias);
    }
  }

  lemma TimesRest(r: real, b: real)
    ensures Times(r, 1.0 - b) == r - Times(r, b)
  {
  }

  lemma DivideTimes(f: real, b: real)
    requires b > 0.0
    ensures Times(b, f / b) == f
  {
  }

  // ---- the meter ----

  function MaxR(a: real, b: real): real {
    if a <= b then b else a
  }

  /** Time between two readings, floored at a millisecond. */
  function SaneGap(now: real, last: real): real {
    MaxR(if now < last then 0.0 else now - last, 0.001)
  }

  lemma WindowPositive(i: nat)
    requires i < |WINDOW_SECS|
    ensures WINDOW_SECS[i] > 0.0
  {
  }

  /** RestoreEqualsReplay with its side conditions discharged. */
  lemma WindowReplays(p: real -> real, f: real, elapsed: real, i: nat)
    requires Rises(p) && f >= 0.0 && elapsed > 0.0 && i < |WINDOW_SECS|
    ensures WINDOW_SECS[i] > 0.0 && Prop(p, TICK_SECS, WINDOW_SECS[i]) > 0.0
    ensures Remainder(elapsed) > 0.0 ==> Prop(p, Remainder(elapsed), WINDOW_SECS[i]) > 0.0
    ensures Downtime(p, f, WholeTicks(elapsed), Remainder(elapsed), WINDOW_SECS[i])
         == Replay(p, f, WholeTicks(elapsed), Remainder(elapsed), WINDOW_SECS[i])
  {
    hide WholeTicks, Prop, Pow, Snap, Mix;
    WindowPositive(i);
    PropBounds(p, TICK_SECS, WINDOW_SECS[i]);
    if Remainder(elapsed) > 0.0 {
      PropBounds(p, Remainder(elapsed), WINDOW_SECS[i]);
    }
    TicksAndRest(elapsed);
    RestoredIsReplay(p, f, WholeTicks(elapsed), Remainder(elapsed), WINDOW_SECS[i]);
  }

  /** What replaying a downtime leaves in window i. */
  ghost function Replayed(p: real -> real, f: real, elapsed: real, i: nat): real
    requires Rises(p) && f >= 0.0 && elapsed >= 0.0 && i < |WINDOW_SECS|
  {
    if elapsed == 0.0 then f
    else
      WindowReplays(p, f, elapsed, i);
      Replay(p, f, WholeTicks(elapsed), Remainder(elapsed), WINDOW_SECS[i])
  }

  ghost function Ticked(p: real -> real, f: real, fadd: real, secs: real, i: nat): real
    requires Rises(p) && secs > 0.0 && i < |WINDOW_SECS|
  {
    WindowPositive(i);
    PropBounds(p, secs, WINDOW_SECS[i]);
    Decayed(p, f, fadd, secs, WINDOW_SECS[i])
  }

  class HashrateDecay {
    const dsps: array<real>
    var pending: real
    var lastDecay: real

    ghost predicate Valid()
      reads this, dsps
    {
      dsps.Length == |WINDOW_SECS| && pending >= 0.0 && forall i :: 0 <= i < dsps.Length ==> dsps[i] >= 0.0
    }

    constructor (now: real)
      ensures Valid() && fresh(dsps) && pending == 0.0 && lastDecay == now
      ensures forall i :: 0 <= i < dsps.Length ==> dsps[i] == 0.0
    {
      dsps := new real[|WINDOW_SECS|](_ => 0.0);
      pending := 0.0;
      lastDecay := now;
    }

    /** Restore a checkpoint; values that are not positive count as zero. */
    constructor RestoredRates(p: real -> real, now: real, rates: seq<real>, offline: real)
      requires Rises(p) && |rates| == |WINDOW_SECS| && offline >= 0.0
      ensures Valid() && fresh(dsps) && pending == 0.0 && lastDecay == now
      ensures forall i :: 0 <= i < dsps.Length ==> dsps[i] == Replayed(p, MaxR(rates[i], 0.0), offline, i)
    {
      dsps := new real[|WINDOW_SECS|](i requires 0 <= i < |rates| => MaxR(rates[i], 0.0));
      pending := 0.0;
      lastDecay := now;
      new;
      DecayIdleFor(p, offline);
    }

    /** Closed form for the whole ticks, checked against the replay. */
    method DecayIdleFor(p: real -> real, elapsed: real)
      requires Valid() && Rises(p) && elapsed >= 0.0
      modifies dsps
      ensures Valid()
      ensures forall i :: 0 <= i < dsps.Length ==> dsps[i] == Replayed(p, old(dsps[i]), elapsed, i)
    {
      if elapsed <= 0.0 {
        return;
      }
      hide Mix, Prop, Snap, Decayed, Downtime, Replay;
      var (ticks, remainder) := (WholeTicks(elapsed), Remainder(elapsed));
      for i := 0 to dsps.Length
        invariant forall j :: 0 <= j < i ==> dsps[j] >= 0.0 && dsps[j] == Replayed(p, old(dsps[j]), elapsed, j)
        invariant forall j :: i <= j < dsps.Length ==> dsps[j] == old(dsps[j])
      {
        WindowReplays(p, dsps[i], elapsed, i);
        ReplayedNotNegative(p, dsps[i], elapsed, i);
        dsps[i] := Downtime(p, dsps[i], ticks, remainder, WINDOW_SECS[i]);
      }
    }

    method AddShare(diff: real)
      requires Valid()
      modifies this`pending
      ensures Valid() && pending == old(pending) + MaxR(diff, 0.0)
    {
      if diff > 0.0 {
        pending := pending + diff;
      }
    }

    /** Fold what accumulated since the last tick into every window. */
    method Tick(p: real -> real, now: real)
      requires Valid() && Rises(p)
      modifies this, dsps
      ensures Valid() && pending == 0.0 && lastDecay == now
      ensures forall i :: 0 <= i < dsps.Length ==>
                dsps[i] == Ticked(p, old(dsps[i]), old(pending), SaneGap(now, old(lastDecay)), i)
    {
      hide Mix, Prop, Snap, Decayed;
      var gap := SaneGap(now, lastDecay);
      lastDecay := now;
      var fadd := pending;
      pending := 0.0;
      for i := 0 to dsps.Length
        invariant pending == 0.0 && lastDecay == now
        invariant forall j :: 0 <= j < i ==> dsps[j] >= 0.0 && dsps[j] == Ticked(p, old(dsps[j]), fadd, gap, j)
        invariant forall j :: i <= j < dsps.Length ==> dsps[j] == old(dsps[j])
      {
        WindowPositive(i);
        PropBounds(p, gap, WINDOW_SECS[i]);
        TickedNotNegative(p, dsps[i], fadd, gap, i);
        dsps[i] := Decayed(p, dsps[i], fadd, gap, WINDOW_SECS[i]);
      }
    }
  }

  lemma ReplayedNotNegative(p: real -> real, f: real, elapsed: real, i: nat)
    requires Rises(p) && f >= 0.0 && elapsed > 0.0 && i < |WINDOW_SECS|
    ensures Replayed(p, f, elapsed, i) >= 0.0
  {
    hide WholeTicks, Prop, Pow, Snap, Mix;
    WindowReplays(p, f, elapsed, i);
    var (n, rest, interval) := (WholeTicks(elapsed), Remainder(elapsed), WINDOW_SECS[i]);
    SnapNotNegative(Decayed(p, Scaled(f, Prop(p, TICK_SECS, interval), n), 0.0, rest, interval));
  }

  lemma TickedNotNegative(p: real -> real, f: real, fadd: real, secs: real, i: nat)
    requires Rises(p) && secs > 0.0 && i < |WINDOW_SECS|
    ensures Ticked(p, f, fadd, secs, i) >= 0.0
  {
    hide Mix, Prop, Snap;
    WindowPositive(i);
    PropBounds(p, secs, WINDOW_SECS[i]);
    SnapNotNegative(Mix(f, fadd, secs, Prop(p, secs, WINDOW_SECS[i])));
  }

  // ---- a meter on a clock ----

  /** Time since the last reading, in seconds, at least a millisecond. */
  function Gap(now: real, last: real): real {
    if now - last >= 0.001 then now - last else 0.001
  }

  lemma GapIsSane(now: real, last: real)
    ensures Gap(now, last) == SaneGap(now, last) > 0.0
  {
  }

  lemma MeteredOne(p: real -> real, f: real, ts: seq<Tick>, t: Tick, interval: real)
    requires Rises(p) && interval > 0.0 && Sane(ts) && Sane([t])
    ensures Sane(ts + [t]) && Prop(p, t.secs, interval) > 0.0
    ensures Metered(p, f, ts + [t], interval) == Decayed(p, Metered(p, f, ts, interval), t.fadd, t.secs, interval)
  {
    assert (ts + [t])[..|ts|] == ts;
    assert [t][0] == t;
    PropBounds(p, t.secs, interval);
  }

  /** A run of ticks: when each came, and what had accumulated. */
  datatype Beat = Beat(now: real, added: real)

  predicate BeatsOk(bs: seq<Beat>) {
    forall i :: 0 <= i < |bs| ==> bs[i].added >= 0.0
  }

  function LastBeat(start: real, bs: seq<Beat>): real {
    if bs == [] then start else bs[|bs| - 1].now
  }

  /** Window i after those ticks. */
  ghost function Beaten(p: real -> real, f: real, start: real, bs: seq<Beat>, i: nat): real
    requires Rises(p) && i < |WINDOW_SECS|
  {
    if bs == [] then f
    else
      var (front, b) := (bs[..|bs| - 1], bs[|bs| - 1]);
      Ticked(p, Beaten(p, f, start, front, i), b.added, SaneGap(b.now, LastBeat(start, front)), i)
  }

  /** The same as steps of the clock's differences. */
  function Steps(start: real, bs: seq<Beat>): seq<Tick> {
    if bs == [] then []
    else
      var (front, b) := (bs[..|bs| - 1], bs[|bs| - 1]);
      Steps(start, front) + [Tick(b.added, Gap(b.now, LastBeat(start, front)))]
  }

  lemma {:induction false} StepsAreSane(start: real, bs: seq<Beat>)
    requires BeatsOk(bs)
    ensures Sane(Steps(start, bs))
  {
    if bs != [] {
      StepsAreSane(start, bs[..|bs| - 1]);
    }
  }

  /** A meter is its averaging step run over the time that passed between its ticks. */
  lemma {:induction false} TicksFollowTheClock(p: real -> real, f: real, start: real, bs: seq<Beat>, i: nat)
    requires Rises(p) && BeatsOk(bs) && i < |WINDOW_SECS|
    ensures Sane(Steps(start, bs)) && WINDOW_SECS[i] > 0.0
    ensures Beaten(p, f, start, bs, i) == Metered(p, f, Steps(start, bs), WINDOW_SECS[i])
  {
    hide Decayed, Prop;
    WindowPositive(i);
    StepsAreSane(start, bs);
    if bs != [] {
      var (front, b) := (bs[..|bs| - 1], bs[|bs| - 1]);
      TicksFollowTheClock(p, f, start, front, i);
      GapIsSane(b.now, LastBeat(start, front));
      MeteredOne(p, f, Steps(start, front), Tick(b.added, Gap(b.now, LastBeat(start, front))), WINDOW_SECS[i]);
    }
  }

  /** n idle ticks two seconds apart. */
  function IdleRun(n: nat): (ts: seq<Tick>)
    ensures Sane(ts) && |ts| == n && forall i :: 0 <= i < n ==> ts[i] == Tick(0.0, 2.0)
  {
    seq(n, _ => Tick(0.0, 2.0))
  }

  /** The ticks of a downtime: every two seconds, and once at its end. */
  function Downticks(elapsed: real): (ts: seq<Tick>)
    requires elapsed >= 0.0
    ensures Sane(ts)
  {
    var n := (elapsed / 2.0).Floor;
    if elapsed - 2.0 * n as real > 0.0 then IdleRun(n) + [Tick(0.0, elapsed - 2.0 * n as real)] else IdleRun(n)
  }

  lemma {:induction false} IdleRunMeters(p: real -> real, f: real, n: nat, interval: real)
    requires Rises(p) && interval > 0.0
    ensures Prop(p, TICK_SECS, interval) > 0.0
    ensures IdleTicks(p, f, n, interval) == Metered(p, f, IdleRun(n), interval)
  {
    hide Decayed, Prop, Rises;
    PropBounds(p, TICK_SECS, interval);
    if n > 0 {
      IdleRunMeters(p, f, n - 1, interval);
      assert IdleRun(n)[..n - 1] == IdleRun(n - 1);
    }
  }

  /** A restored checkpoint reads what the meter would have read, ticking every two seconds with nothing
      coming in until the end of the downtime. */
  lemma RestoredIsMetered(p: real -> real, f: real, elapsed: real, i: nat)
    requires Rises(p) && f >= 0.0 && elapsed >= 0.0 && i < |WINDOW_SECS|
    ensures WINDOW_SECS[i] > 0.0
    ensures Replayed(p, f, elapsed, i) == Metered(p, f, Downticks(elapsed), WINDOW_SECS[i])
  {
    hide Decayed, Prop, Rises, Metered, IdleTicks;
    WindowPositive(i);
    var (n, rest, interval) := (WholeTicks(elapsed), Remainder(elapsed), WINDOW_SECS[i]);
    IdleRunMeters(p, f, n, interval);
    if elapsed == 0.0 {
      NothingMetered(p, f, interval);
    } else if rest > 0.0 {
      MeteredOne(p, f, IdleRun(n), Tick(0.0, rest), interval);
    } else {
      NoStep(p, IdleTicks(p, f, n, interval), interval);
    }
  }

  lemma NothingMetered(p: real -> real, f: real, interval: real)
    requires Rises(p) && interval > 0.0
    ensures Metered(p, f, Downticks(0.0), interval) == f
  {
    assert Downticks(0.0) == [];
  }

  lemma NoStep(p: real -> real, f: real, interval: real)
    requires interval > 0.0
    ensures Decayed(p, f, 0.0, 0.0, interval) == f
  {
  }
}
