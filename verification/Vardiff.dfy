/** Per-session variable difficulty: bounds that hold whatever the rate estimate reads, what the estimate
    is over a run of shares, and what a check answers from it. */
module Vardiff {
  import opened Bytes
  import opened Options
  import opened Decay

  /** Times in seconds. */
  datatype Config = Config(minDiff: nat, maxDiff: nat, target: nat, interval: nat, factor: real, deadLow: real,
                           deadHigh: real)

  /** What boot validation lets through. */
  predicate ConfigOk(c: Config) {
    && 1 <= c.target && 1 <= c.minDiff <= c.maxDiff <= U64_MAX
    && c.factor > 1.0 && 0.0 < c.deadLow < 1.0 && c.deadHigh > 1.0
  }

  datatype State = State(current: nat, fast: real, slow: real, lastDecay: real, firstShare: Option<real>,
                         lastChange: real, since: nat)

  const FAST_WINDOW_MULTIPLE := 20.0
  const SLOW_WINDOW_MULTIPLE := 120.0

  /** Round to the nearest integer, halves up, as rounding does on non-negative values. */
  function Rounded(x: real): nat
    requires x >= 0.0
  {
    (x + 0.5).Floor
  }

  function RetargetShares(c: Config): nat
    requires ConfigOk(c)
  {
    RateNotNegative(c.interval as real, c.target as real);
    Max(Rounded(c.interval as real / c.target as real), 4)
  }

  function FastSecs(c: Config): real {
    FAST_WINDOW_MULTIPLE * c.target as real
  }

  function SlowSecs(c: Config): real {
    SLOW_WINDOW_MULTIPLE * c.target as real
  }

  function Start(current: nat, now: real): State {
    State(current, 0.0, 0.0, now, None, now, 0)
  }

  ghost function Folded(c: Config, p: real -> real, s: State, credit: real, now: real): State
    requires ConfigOk(c) && Rises(p)
  {
    var gap := SaneGap(now, s.lastDecay);
    PropBounds(p, gap, FastSecs(c));
    PropBounds(p, gap, SlowSecs(c));
    s.(lastDecay := now, fast := Decayed(p, s.fast, credit, gap, FastSecs(c)),
       slow := Decayed(p, s.slow, credit, gap, SlowSecs(c)))
  }

  function OpenWindow(s: State, now: real): State {
    s.(lastChange := now, since := 0)
  }

  function ClampNat(x: nat, lo: nat, hi: nat): nat {
    if x < lo then lo else if x > hi then hi else x
  }

  function Clamp(x: real, lo: real, hi: real): real {
    if x < lo then lo else if x > hi then hi else x
  }

  function Suggested(c: Config, s: State, d: nat, now: real): State {
    OpenWindow(s, now).(current := ClampNat(d, c.minDiff, c.maxDiff))
  }

  ghost function Recorded(c: Config, p: real -> real, s: State, credit: nat, now: real): State
    requires ConfigOk(c) && Rises(p)
  {
    var n := Folded(c, p, s, credit as real, now);
    n.(firstShare := Some(if s.firstShare.Some? then s.firstShare.value else now), since := s.since + 1)
  }

  /** The hardest share worth asking for: a block, but never below the floor. */
  function Ceiling(c: Config, network: Option<nat>): nat {
    Max(if network.Some? then Min(c.maxDiff, network.value) else c.maxDiff, c.minDiff)
  }

  predicate Due(c: Config, s: State, now: real)
    requires ConfigOk(c)
  {
    s.since >= RetargetShares(c) || Elapsed(now, s.lastChange) >= c.interval as real
  }

  function Elapsed(now: real, then_: real): real {
    if now < then_ then 0.0 else now - then_
  }

  /** The difficulty at which the measured rate would hit the target share time. */
  ghost function Optimal(c: Config, p: real -> real, s: State, first: real, now: real): real
    requires ConfigOk(c) && Rises(p)
  {
    var hit := s.since >= RetargetShares(c);
    var (rate, window) := if hit then (s.fast, FastSecs(c)) else (s.slow, SlowSecs(c));
    PropBounds(p, SaneGap(now, first), window);
    rate / Prop(p, SaneGap(now, first), window) * c.target as real
  }

  /** The range one retarget may reach. */
  function Lowest(c: Config, current: nat): real
    requires ConfigOk(c)
  {
    current as real / c.factor
  }

  function Highest(c: Config, current: nat): real {
    current as real * c.factor
  }

  function Ratio(optimal: real, current: nat): real
    requires current > 0
  {
    optimal / current as real
  }

  function Proposed(c: Config, current: nat, optimal: real, ceiling: nat): nat
    requires ConfigOk(c) && c.minDiff <= ceiling
  {
    var bounded := Clamp(optimal, Lowest(c, current), Highest(c, current));
    Rounded(Clamp(bounded, c.minDiff as real, ceiling as real))
  }

  datatype Check = Check(state: State, sent: Option<nat>)

  /** The decision once an optimum is at hand. */
  function Decided(c: Config, s: State, optimal: real, now: real, network: Option<nat>): Check
    requires ConfigOk(c) && s.current > 0
  {
    if c.deadLow < Ratio(optimal, s.current) < c.deadHigh then Check(OpenWindow(s, now), None)
    else
      var d := Proposed(c, s.current, optimal, Ceiling(c, network));
      if d < s.current && s.since <= 1 then Check(s.(lastChange := now), None)
      else if d == s.current then Check(OpenWindow(s, now), None)
      else Check(OpenWindow(s, now).(current := d), Some(d))
  }

  ghost function Checked(c: Config, p: real -> real, s: State, now: real, network: Option<nat>): Check
    requires ConfigOk(c) && Rises(p) && s.current > 0
  {
    var n := Folded(c, p, s, 0.0, now);
    if s.firstShare.None? || !Due(c, n, now) then Check(n, None)
    else Decided(c, n, Optimal(c, p, n, s.firstShare.value, now), now, network)
  }

  // ---- one decision ----

  lemma FactorSpans(c: Config, current: nat)
    requires ConfigOk(c)
    ensures Lowest(c, current) <= current as real <= Highest(c, current)
  {
    Spans(current as real, c.factor);
  }

  lemma Spans(x: real, factor: real)
    requires x >= 0.0 && factor > 1.0
    ensures x / factor <= x
    ensures x <= x * factor
  {
    NotNegative(x, factor - 1.0);
    assert x * (factor - 1.0) == x * factor - x;
    RateNotNegative(x, factor);
    NotNegative(x / factor, factor - 1.0);
    DivideTimes(x, factor);
    assert x / factor * (factor - 1.0) == x - x / factor;
  }

  /** An emitted value respects the floor and the ceiling; it is within the retarget factor, up to
      rounding, exactly as long as the ceiling is; below that the ceiling itself is sent. */
  lemma SentBounds(c: Config, s: State, optimal: real, now: real, network: Option<nat>)
    requires ConfigOk(c) && s.current > 0 && c.minDiff <= s.current
    requires Decided(c, s, optimal, now, network).sent.Some?
    ensures var (d, ceiling) := (Decided(c, s, optimal, now, network).sent.value, Ceiling(c, network));
            var (lo, hi) := (Lowest(c, s.current), Highest(c, s.current));
            && c.minDiff <= d <= ceiling <= c.maxDiff && d != s.current
            && (network.Some? ==> d <= network.value || d == c.minDiff)
            && (ceiling as real >= lo ==> lo - 0.5 <= d as real <= hi + 0.5)
            && (ceiling as real < lo ==> d == ceiling)
  {
    hide Lowest, Highest, Ratio, Rounded, Clamp;
    FactorSpans(c, s.current);
    SentBetween(c, s.current, optimal, Lowest(c, s.current), Highest(c, s.current), Ceiling(c, network));
  }

  lemma SentBetween(c: Config, current: nat, optimal: real, lo: real, hi: real, ceiling: nat)
    requires ConfigOk(c) && c.minDiff <= current && c.minDiff <= ceiling && lo <= current as real <= hi
    ensures var d := Rounded(Clamp(Clamp(optimal, lo, hi), c.minDiff as real, ceiling as real));
            && c.minDiff <= d <= ceiling
            && (ceiling as real >= lo ==> lo - 0.5 <= d as real <= hi + 0.5)
            && (ceiling as real < lo ==> d == ceiling)
  {
    var v := Clamp(Clamp(optimal, lo, hi), c.minDiff as real, ceiling as real);
    RoundBounds(v, c.minDiff, ceiling);
  }

  lemma RoundBounds(v: real, lo: nat, hi: nat)
    requires lo as real <= v <= hi as real
    ensures lo <= Rounded(v) <= hi && v - 0.5 <= Rounded(v) as real <= v + 0.5
  {
  }

  /** Difficulty is raised only once the optimum has reached the upper edge of the deadzone, and cut
      only once it has fallen to the lower edge or the ceiling lies below the current value. */
  lemma SentForAReason(c: Config, s: State, optimal: real, now: real, network: Option<nat>)
    requires ConfigOk(c) && s.current > 0 && c.minDiff <= s.current
    requires Decided(c, s, optimal, now, network).sent.Some?
    ensures var (d, ratio) := (Decided(c, s, optimal, now, network).sent.value, Ratio(optimal, s.current));
            && (d > s.current ==> ratio >= c.deadHigh)
            && (d < s.current ==> (ratio <= c.deadLow || Ceiling(c, network) < s.current) && s.since >= 2)
  {
    hide Lowest, Highest, Ratio, Rounded, Clamp;
    FactorSpans(c, s.current);
    Leaning(c, s.current, optimal, Lowest(c, s.current), Highest(c, s.current), Ceiling(c, network));
    RatioOfOne(optimal, s.current);
  }

  lemma Leaning(c: Config, current: nat, optimal: real, lo: real, hi: real, ceiling: nat)
    requires ConfigOk(c) && c.minDiff <= current && c.minDiff <= ceiling && lo <= current as real <= hi
    ensures var d := Rounded(Clamp(Clamp(optimal, lo, hi), c.minDiff as real, ceiling as real));
            && (d > current ==> optimal > current as real)
            && (d < current && ceiling >= current ==> optimal < current as real)
  {
    var v := Clamp(Clamp(optimal, lo, hi), c.minDiff as real, ceiling as real);
    RoundBounds(v, c.minDiff, ceiling);
  }

  lemma RatioOfOne(a: real, b: nat)
    requires b > 0
    ensures a > b as real ==> Ratio(a, b) > 1.0
    ensures a < b as real ==> Ratio(a, b) < 1.0
  {
    QuotientOfOne(a, b as real);
  }

  lemma QuotientOfOne(a: real, b: real)
    requires b > 0.0
    ensures a > b ==> a / b > 1.0
    ensures a < b ==> a / b < 1.0
  {
    hide Times;
    DivideTimes(a, b);
    TimesOne(b);
    if a / b < 1.0 {
      TimesMonotone(b, a / b, 1.0);
    } else if a / b > 1.0 {
      TimesMonotone(b, 1.0, a / b);
    }
  }

  // ---- whole runs ----

  datatype Event =
    | Suggest(difficulty: nat, now: real)
    | Share(credit: nat, now: real)
    | Retarget(now: real, network: Option<nat>)

  predicate InRange(c: Config, s: State) {
    c.minDiff <= s.current <= c.maxDiff
  }

  ghost function Happened(c: Config, p: real -> real, s: State, e: Event): Check
    requires ConfigOk(c) && Rises(p) && InRange(c, s)
  {
    match e
    case Suggest(d, now) => Check(Suggested(c, s, d, now), None)
    case Share(credit, now) => Check(Recorded(c, p, s, credit, now), None)
    case Retarget(now, network) => Checked(c, p, s, now, network)
  }

  /** Every event keeps the difficulty in range. */
  lemma StepInRange(c: Config, p: real -> real, s: State, e: Event)
    requires ConfigOk(c) && Rises(p) && InRange(c, s)
    ensures InRange(c, Happened(c, p, s, e).state)
  {
    hide Decayed, Proposed, Due, Prop;
    if e.Retarget? {
      var n := Folded(c, p, s, 0.0, e.now);
      if s.firstShare.Some? && Due(c, n, e.now) {
        var optimal := Optimal(c, p, n, s.firstShare.value, e.now);
        if Decided(c, n, optimal, e.now, e.network).sent.Some? {
          SentBounds(c, n, optimal, e.now, e.network);
        }
      }
    }
  }

  ghost function After(c: Config, p: real -> real, s: State, es: seq<Event>): (t: State)
    requires ConfigOk(c) && Rises(p) && InRange(c, s)
    ensures InRange(c, t)
  {
    if es == [] then s
    else
      var t := After(c, p, s, es[..|es| - 1]);
      StepInRange(c, p, t, es[|es| - 1]);
      Happened(c, p, t, es[|es| - 1]).state
  }

  ghost function Sent(c: Config, p: real -> real, s: State, es: seq<Event>): Option<nat>
    requires ConfigOk(c) && Rises(p) && InRange(c, s) && es != []
  {
    Happened(c, p, After(c, p, s, es[..|es| - 1]), es[|es| - 1]).sent
  }

  function Shares(es: seq<Event>): nat {
    if es == [] then 0 else Shares(es[..|es| - 1]) + if es[|es| - 1].Share? then 1 else 0
  }

  ghost function Cuts(c: Config, p: real -> real, s: State, es: seq<Event>): nat
    requires ConfigOk(c) && Rises(p) && InRange(c, s)
  {
    if es == [] then 0
    else
      var (t, sent) := (After(c, p, s, es[..|es| - 1]), Sent(c, p, s, es));
      Cuts(c, p, s, es[..|es| - 1]) + if sent.Some? && sent.value < t.current then 1 else 0
  }

  /** What one event does to the share count of the window. */
  lemma StepSince(c: Config, p: real -> real, s: State, e: Event)
    requires ConfigOk(c) && Rises(p) && InRange(c, s)
    ensures var r := Happened(c, p, s, e);
            && r.state.since <= s.since + (if e.Share? then 1 else 0)
            && (r.sent.Some? ==> e.Retarget? && r.state.since == 0 && (r.sent.value < s.current ==> s.since >= 2))
  {
    hide Decayed, Proposed, Due, Prop, Optimal;
  }

  /** Every cut is paid for by two shares recorded since the change before it. */
  lemma {:induction false} CutsCostTwoShares(c: Config, p: real -> real, s: State, es: seq<Event>)
    requires ConfigOk(c) && Rises(p) && InRange(c, s) && s.since == 0
    ensures 2 * Cuts(c, p, s, es) + After(c, p, s, es).since <= Shares(es)
  {
    hide Happened;
    if es != [] {
      CutsCostTwoShares(c, p, s, es[..|es| - 1]);
      StepSince(c, p, After(c, p, s, es[..|es| - 1]), es[|es| - 1]);
    }
  }

  predicate Ordered(from: real, es: seq<Event>) {
    && (forall i :: 0 <= i < |es| ==> from <= es[i].now)
    && (forall i, j :: 0 <= i < j < |es| ==> es[i].now <= es[j].now)
  }

  lemma StepChange(c: Config, p: real -> real, s: State, e: Event)
    requires ConfigOk(c) && Rises(p) && InRange(c, s)
    ensures var r := Happened(c, p, s, e);
            && (r.state.lastChange == s.lastChange || r.state.lastChange == e.now)
            && (r.sent.Some? ==> s.since >= RetargetShares(c) || Elapsed(e.now, s.lastChange) >= c.interval as real)
  {
    hide Decayed, Proposed, Prop, Optimal, RetargetShares;
  }

  lemma {:induction false} WindowSince(c: Config, p: real -> real, s: State, es: seq<Event>)
    requires ConfigOk(c) && Rises(p) && InRange(c, s) && s.since == 0 && Ordered(s.lastChange, es)
    ensures After(c, p, s, es).lastChange >= s.lastChange && After(c, p, s, es).since <= Shares(es)
  {
    hide Happened;
    if es != [] {
      WindowSince(c, p, s, es[..|es| - 1]);
      StepSince(c, p, After(c, p, s, es[..|es| - 1]), es[|es| - 1]);
      StepChange(c, p, After(c, p, s, es[..|es| - 1]), es[|es| - 1]);
    }
  }

  /** From one emission to the next, with a clock that does not run backwards, a full interval passes
      or the trigger number of shares arrives. */
  lemma EmissionsAreSpaced(c: Config, p: real -> real, s: State, es: seq<Event>)
    requires ConfigOk(c) && Rises(p) && InRange(c, s) && s.since == 0 && Ordered(s.lastChange, es)
    requires es != [] && Sent(c, p, s, es).Some?
    ensures || es[|es| - 1].now - s.lastChange >= c.interval as real
            || Shares(es) >= RetargetShares(c)
  {
    hide Happened, RetargetShares;
    var front := es[..|es| - 1];
    WindowSince(c, p, s, front);
    StepChange(c, p, After(c, p, s, front), es[|es| - 1]);
    assert Shares(front) <= Shares(es);
  }

  /** An emission leaves the state the spacing starts from. */
  lemma EmissionOpensWindow(c: Config, p: real -> real, s: State, e: Event)
    requires ConfigOk(c) && Rises(p) && InRange(c, s) && Happened(c, p, s, e).sent.Some?
    ensures var t := Happened(c, p, s, e).state;
            t.since == 0 && t.lastChange == e.now && t.current == Happened(c, p, s, e).sent.value
  {
    hide Decayed, Proposed, Prop, Optimal, Due;
  }

  // ---- what the averages are, and what they decide ----

  /** What a run feeds both averages: each share's credit, nothing at a check, and the time between. */
  function TicksOf(last: real, es: seq<Event>): seq<Tick> {
    if es == [] then []
    else
      var (front, e) := (es[..|es| - 1], es[|es| - 1]);
      TicksOf(last, front)
      + match e
        case Suggest(_, _) => []
        case Share(credit, now) => [Tick(credit as real, Gap(now, LastTime(last, front)))]
        case Retarget(now, _) => [Tick(0.0, Gap(now, LastTime(last, front)))]
  }

  function LastTime(last: real, es: seq<Event>): real {
    if es == [] then last
    else
      var e := es[|es| - 1];
      if e.Suggest? then LastTime(last, es[..|es| - 1]) else e.now
  }

  lemma {:induction false} TicksAreSane(last: real, es: seq<Event>)
    ensures Sane(TicksOf(last, es))
  {
    if es != [] {
      TicksAreSane(last, es[..|es| - 1]);
    }
  }

  lemma FoldIs(c: Config, p: real -> real, s: State, credit: real, now: real)
    requires ConfigOk(c) && Rises(p)
    ensures var (n, gap, t) := (Folded(c, p, s, credit, now), Gap(now, s.lastDecay), c.target as real);
            && gap > 0.0 && Prop(p, gap, 20.0 * t) > 0.0 && Prop(p, gap, 120.0 * t) > 0.0
            && n.fast == Decayed(p, s.fast, credit, gap, 20.0 * t)
            && n.slow == Decayed(p, s.slow, credit, gap, 120.0 * t)
            && n == s.(fast := n.fast, slow := n.slow, lastDecay := now)
  {
    hide Decayed, Prop;
    GapIsSane(now, s.lastDecay);
    PropBounds(p, Gap(now, s.lastDecay), FastSecs(c));
    PropBounds(p, Gap(now, s.lastDecay), SlowSecs(c));
  }

  /** An event is a fold of its credit, or a hint that folds nothing. */
  lemma HappenedFolds(c: Config, p: real -> real, s: State, e: Event)
    requires ConfigOk(c) && Rises(p) && InRange(c, s)
    ensures var r := Happened(c, p, s, e).state;
            if e.Suggest? then r.fast == s.fast && r.slow == s.slow && r.lastDecay == s.lastDecay
            else
              var n := Folded(c, p, s, if e.Share? then e.credit as real else 0.0, e.now);
              r.fast == n.fast && r.slow == n.slow && r.lastDecay == e.now
  {
    hide Decayed, Proposed, Due, Prop, Optimal, FastSecs, SlowSecs;
  }

  /** Over every run the two averages are meters over 20 and 120 target times, fed the shares' credits
      and the clock's differences. */
  lemma {:induction false} AveragesAreMeters(c: Config, p: real -> real, s: State, es: seq<Event>)
    requires ConfigOk(c) && Rises(p) && InRange(c, s)
    ensures Sane(TicksOf(s.lastDecay, es))
    ensures var (t, ts) := (After(c, p, s, es), TicksOf(s.lastDecay, es));
            && t.fast == Metered(p, s.fast, ts, 20.0 * c.target as real)
            && t.slow == Metered(p, s.slow, ts, 120.0 * c.target as real)
            && t.lastDecay == LastTime(s.lastDecay, es)
  {
    hide Happened, Metered, Decayed, Prop, Folded;
    TicksAreSane(s.lastDecay, es);
    if es == [] {
      NoTicks(p, s.fast, 20.0 * c.target as real);
      NoTicks(p, s.slow, 120.0 * c.target as real);
    } else {
      var (front, e) := (es[..|es| - 1], es[|es| - 1]);
      AveragesAreMeters(c, p, s, front);
      var (t, ts) := (After(c, p, s, front), TicksOf(s.lastDecay, front));
      HappenedFolds(c, p, t, e);
      if e.Suggest? {
        assert ts + [] == ts;
      } else {
        var credit := if e.Share? then e.credit as real else 0.0;
        FoldIs(c, p, t, credit, e.now);
        var tick := Tick(credit, Gap(e.now, t.lastDecay));
        MeteredOne(p, s.fast, ts, tick, 20.0 * c.target as real);
        MeteredOne(p, s.slow, ts, tick, 120.0 * c.target as real);
      }
    }
  }

  lemma NoTicks(p: real -> real, f: real, interval: real)
    requires Rises(p) && interval > 0.0
    ensures Metered(p, f, [], interval) == f
  {
  }

  /** When the first share of a run came. */
  function FirstShareOf(es: seq<Event>): Option<real> {
    if es == [] then None
    else
      var (before, e) := (FirstShareOf(es[..|es| - 1]), es[|es| - 1]);
      if before.None? && e.Share? then Some(e.now) else before
  }

  /** The session's age is counted from its first share, whatever came after. */
  lemma {:induction false} AnchoredAtFirstShare(c: Config, p: real -> real, s: State, es: seq<Event>)
    requires ConfigOk(c) && Rises(p) && InRange(c, s)
    ensures After(c, p, s, es).firstShare == if s.firstShare.Some? then s.firstShare else FirstShareOf(es)
  {
    hide Happened;
    if es != [] {
      AnchoredAtFirstShare(c, p, s, es[..|es| - 1]);
      AnchorStep(c, p, After(c, p, s, es[..|es| - 1]), es[|es| - 1]);
    }
  }

  lemma AnchorStep(c: Config, p: real -> real, s: State, e: Event)
    requires ConfigOk(c) && Rises(p) && InRange(c, s)
    ensures Happened(c, p, s, e).state.firstShare
         == if s.firstShare.None? && e.Share? then Some(e.now) else s.firstShare
    ensures e.Share? ==> Happened(c, p, s, e).state.since == s.since + 1
  {
    hide Decayed, Proposed, Due, Prop, Optimal;
  }

  /** A hint in range is taken as it is, one outside at the nearer end, and a window opens. */
  lemma HintIsTaken(c: Config, p: real -> real, s: State, d: nat, now: real)
    requires ConfigOk(c) && Rises(p) && InRange(c, s)
    ensures var r := Happened(c, p, s, Suggest(d, now)).state;
            && r == s.(current := r.current, lastChange := now, since := 0)
            && (c.minDiff <= d <= c.maxDiff ==> r.current == d)
            && (d < c.minDiff ==> r.current == c.minDiff) && (d > c.maxDiff ==> r.current == c.maxDiff)
  {
  }

  /** The share trigger: the shares that fill an interval at the target rate, to the nearest, but four. */
  lemma TriggerShares(c: Config)
    requires ConfigOk(c)
    ensures var (n, q) := (RetargetShares(c), c.interval as real / c.target as real);
            (n == 4 && q < 4.5) || (n > 4 && n as real - 0.5 <= q < n as real + 0.5)
  {
    RateNotNegative(c.interval as real, c.target as real);
  }

  /** Nothing is sent before the first share, or before the trigger number of shares or the interval. */
  lemma NothingSentUntilDue(c: Config, p: real -> real, s: State, now: real, network: Option<nat>)
    requires ConfigOk(c) && Rises(p) && InRange(c, s)
    requires || s.firstShare.None?
             || (s.since < RetargetShares(c) && now - s.lastChange < c.interval as real && c.interval > 0)
    ensures var r := Checked(c, p, s, now, network);
            r.sent.None? && r.state.(fast := s.fast, slow := s.slow, lastDecay := s.lastDecay) == s
  {
    hide Decayed, Decided, Prop, Optimal, RetargetShares, FastSecs, SlowSecs;
  }

  /** The rate a due check goes by: the fast average at the share trigger, the slow one otherwise, each
      decayed to now. */
  ghost function RateInForce(c: Config, p: real -> real, s: State, now: real): real
    requires ConfigOk(c) && Rises(p)
  {
    FoldIs(c, p, s, 0.0, now);
    if s.since >= RetargetShares(c) then Decayed(p, s.fast, 0.0, Gap(now, s.lastDecay), 20.0 * c.target as real)
    else Decayed(p, s.slow, 0.0, Gap(now, s.lastDecay), 120.0 * c.target as real)
  }

  /** The window it is averaged over, in seconds. */
  function WindowInForce(c: Config, s: State): real
    requires ConfigOk(c)
  {
    if s.since >= RetargetShares(c) then 20.0 * c.target as real else 120.0 * c.target as real
  }

  /** x times the current difficulty, within the factor of it, then within floor and ceiling. */
  function Aim(c: Config, x: real, current: nat, ceiling: nat): nat
    requires ConfigOk(c) && c.minDiff <= ceiling
  {
    var aim := Clamp(Times(x, current as real), Lowest(c, current), Highest(c, current));
    Rounded(Clamp(aim, c.minDiff as real, ceiling as real))
  }

  /** What a due check answers, from the rate alone: when the rate in force over its warm-up share, at
      the target share time, is x times the current difficulty, nothing is sent inside the deadzone;
      outside it x times the current difficulty is, within the factor, the floor and the ceiling. */
  lemma RetargetFollowsTheRate(c: Config, p: real -> real, s: State, now: real, network: Option<nat>, first: real,
                               x: real, ceiling: nat)
    requires ConfigOk(c) && Rises(p) && InRange(c, s) && s.firstShare == Some(first)
    requires s.since >= RetargetShares(c) || now - s.lastChange >= c.interval as real
    requires Times(Times(x, s.current as real), Prop(p, Gap(now, first), WindowInForce(c, s)))
          == Times(RateInForce(c, p, s, now), c.target as real)
    requires c.minDiff <= ceiling <= c.maxDiff && (network.None? ==> ceiling == c.maxDiff)
    requires network.Some? ==> (ceiling == network.value || (ceiling == c.maxDiff && c.maxDiff < network.value)
                                || (ceiling == c.minDiff && network.value < c.minDiff))
    ensures var d := Aim(c, x, s.current, ceiling);
            var dead := c.deadLow < x && x < c.deadHigh;
            var spared := !dead && d < s.current && s.since <= 1;
            var r := Checked(c, p, s, now, network);
            && r.sent == (if dead || spared || d == s.current then None else Some(d))
            && r.state.current == (if r.sent.Some? then d else s.current)
            && r.state.lastChange == now && r.state.since == (if spared then s.since else 0)
  {
    hide Decayed, Prop, RetargetShares, Times, Rounded, Clamp, Rises, Decided, Ceiling;
    var n := Folded(c, p, s, 0.0, now);
    FoldIs(c, p, s, 0.0, now);
    GapIsSane(now, first);
    PropBounds(p, Gap(now, first), WindowInForce(c, s));
    var (rate, q, t) := (RateInForce(c, p, s, now), Prop(p, Gap(now, first), WindowInForce(c, s)), c.target as real);
    SolveFor(Times(x, s.current as real), q, rate, t);
    assert Optimal(c, p, n, first, now) == Times(x, s.current as real);
    assert Due(c, n, now);
    CeilingIs(c, network, ceiling);
    DecidedIs(c, n, x, now, network);
  }

  lemma CeilingIs(c: Config, network: Option<nat>, ceiling: nat)
    requires ConfigOk(c) && c.minDiff <= ceiling <= c.maxDiff && (network.None? ==> ceiling == c.maxDiff)
    requires network.Some? ==> (ceiling == network.value || (ceiling == c.maxDiff && c.maxDiff < network.value)
                                || (ceiling == c.minDiff && network.value < c.minDiff))
    ensures Ceiling(c, network) == ceiling
  {
  }

  lemma DecidedIs(c: Config, s: State, x: real, now: real, network: Option<nat>)
    requires ConfigOk(c) && s.current > 0
    ensures var d := Aim(c, x, s.current, Ceiling(c, network));
            var dead := c.deadLow < x && x < c.deadHigh;
            var spared := !dead && d < s.current && s.since <= 1;
            var r := Decided(c, s, Times(x, s.current as real), now, network);
            && r.sent == (if dead || spared || d == s.current then None else Some(d))
            && r.state.current == (if r.sent.Some? then d else s.current)
            && r.state.lastChange == now && r.state.since == (if spared then s.since else 0)
  {
    hide Rounded, Clamp, Times, Ratio, Aim, Proposed;
    RatioIs(x, s.current);
    AimIsProposed(c, x, s.current, Ceiling(c, network));
  }

  lemma AimIsProposed(c: Config, x: real, current: nat, ceiling: nat)
    requires ConfigOk(c) && c.minDiff <= ceiling
    ensures Aim(c, x, current, ceiling) == Proposed(c, current, Times(x, current as real), ceiling)
  {
    hide Rounded, Clamp, Times, Lowest, Highest;
  }

  /** The range is the current difficulty over and times the factor. */
  lemma FactorRange(c: Config, current: nat)
    requires ConfigOk(c)
    ensures Times(c.factor, Lowest(c, current)) == current as real
    ensures Highest(c, current) == Times(current as real, c.factor)
  {
    hide Times;
    DivideTimes(current as real, c.factor);
    assert Highest(c, current) == Times(current as real, c.factor) by { TimesIs(current as real, c.factor); }
  }

  lemma TimesIs(a: real, b: real)
    ensures Times(a, b) == a * b
  {
  }

  lemma SolveFor(y: real, q: real, rate: real, t: real)
    requires q > 0.0 && Times(y, q) == Times(rate, t)
    ensures rate / q * t == y
  {
    assert rate / q * t == rate * t / q;
  }

  lemma RatioIs(x: real, current: nat)
    requires current > 0
    ensures Ratio(Times(x, current as real), current) == x
  {
  }

  /** At the share trigger the slow average has no say, and before it the fast one has none. */
  lemma OtherAverageIsIgnored(c: Config, p: real -> real, s: State, now: real, network: Option<nat>, y: real)
    requires ConfigOk(c) && Rises(p) && InRange(c, s)
    ensures var (r, swapped) := (Checked(c, p, s, now, network).sent,
                                 if s.since >= RetargetShares(c) then s.(slow := y) else s.(fast := y));
            Checked(c, p, swapped, now, network).sent == r
  {
    hide Decayed, Prop, RetargetShares, Decided;
    var swapped := if s.since >= RetargetShares(c) then s.(slow := y) else s.(fast := y);
    var (n, m) := (Folded(c, p, s, 0.0, now), Folded(c, p, swapped, 0.0, now));
    if s.firstShare.Some? && Due(c, n, now) {
      var optimal := Optimal(c, p, n, s.firstShare.value, now);
      assert Optimal(c, p, m, s.firstShare.value, now) == optimal;
      SameDecision(c, n, m, optimal, now, network);
    }
  }

  lemma SameDecision(c: Config, s: State, t: State, optimal: real, now: real, network: Option<nat>)
    requires ConfigOk(c) && s.current > 0 && t == s.(fast := t.fast, slow := t.slow)
    ensures Decided(c, s, optimal, now, network).sent == Decided(c, t, optimal, now, network).sent
  {
    hide Proposed, Ratio;
  }

  // ---- the controller ----

  class Controller {
    const c: Config
    const fastSecs: real
    const slowSecs: real
    const retargetShares: nat
    var current: nat
    var fast: real
    var slow: real
    var lastDecay: real
    var firstShare: Option<real>
    var lastChange: real
    var since: nat

    ghost predicate Valid()
      reads this
    {
      && ConfigOk(c) && fastSecs == FastSecs(c) && slowSecs == SlowSecs(c) && retargetShares == RetargetShares(c)
      && InRange(c, View())
    }

    function View(): State
      reads this
    {
      State(current, fast, slow, lastDecay, firstShare, lastChange, since)
    }

    constructor (c: Config, initial: nat, now: real)
      requires ConfigOk(c) && c.minDiff <= initial <= c.maxDiff
      ensures Valid() && this.c == c && View() == Start(initial, now)
    {
      this.c := c;
      fastSecs := FAST_WINDOW_MULTIPLE * c.target as real;
      slowSecs := SLOW_WINDOW_MULTIPLE * c.target as real;
      retargetShares := RetargetShares(c);
      current, fast, slow, lastDecay, firstShare, lastChange, since := initial, 0.0, 0.0, now, None, now, 0;
    }

    method Suggest(d: nat, now: real) returns (applied: nat)
      requires Valid()
      modifies this
      ensures Valid() && View() == Suggested(c, old(View()), d, now) && applied == current
    {
      applied := ClampNat(d, c.minDiff, c.maxDiff);
      current := applied;
      lastChange := now;
      since := 0;
    }

    method Fold(p: real -> real, credit: real, now: real)
      requires Valid() && Rises(p)
      modifies this`lastDecay, this`fast, this`slow
      ensures Valid() && View() == Folded(c, p, old(View()), credit, now)
    {
      hide Decayed;
      var gap := SaneGap(now, lastDecay);
      lastDecay := now;
      PropBounds(p, gap, fastSecs);
      PropBounds(p, gap, slowSecs);
      fast := Decayed(p, fast, credit, gap, fastSecs);
      slow := Decayed(p, slow, credit, gap, slowSecs);
    }

    method RecordShare(p: real -> real, credit: nat, now: real)
      requires Valid() && Rises(p)
      modifies this
      ensures Valid() && View() == Recorded(c, p, old(View()), credit, now)
    {
      hide Folded;
      if firstShare.None? {
        firstShare := Some(now);
      }
      FirstShareApart(c, p, old(View()), firstShare, credit as real, now);
      Fold(p, credit as real, now);
      since := since + 1;
    }

    /** The optimum, on the fast average when the share count was reached and the slow one otherwise. */
    method Estimate(p: real -> real, first: real, now: real) returns (optimal: real)
      requires Valid() && Rises(p)
      ensures optimal == Optimal(c, p, View(), first, now)
    {
      hide Prop, RetargetShares;
      var (rate, window) := if since >= retargetShares then (fast, fastSecs) else (slow, slowSecs);
      PropBounds(p, SaneGap(now, first), window);
      optimal := rate / Prop(p, SaneGap(now, first), window) * c.target as real;
    }

    /** Deadzone, clamps, the spared first cut, and the change itself. */
    method Settle(optimal: real, now: real, network: Option<nat>) returns (sent: Option<nat>)
      requires Valid()
      modifies this`current, this`lastChange, this`since
      ensures Check(View(), sent) == Decided(c, old(View()), optimal, now, network)
    {
      hide Rounded, Clamp, RetargetShares, Lowest, Highest, Ratio;
      var ratio := Ratio(optimal, current);
      if c.deadLow < ratio && ratio < c.deadHigh {
        lastChange, since := now, 0;
        return None;
      }
      var d := Proposed(c, current, optimal, Ceiling(c, network));
      if d < current && since <= 1 {
        lastChange := now;
        return None;
      }
      if d == current {
        lastChange, since := now, 0;
        return None;
      }
      current := d;
      lastChange, since := now, 0;
      sent := Some(d);
    }

    method CheckRetarget(p: real -> real, now: real, network: Option<nat>) returns (sent: Option<nat>)
      requires Valid() && Rises(p)
      modifies this
      ensures Valid() && Check(View(), sent) == Checked(c, p, old(View()), now, network)
    {
      StepInRange(c, p, View(), Retarget(now, network));
      hide RetargetShares, Folded, Optimal, Decided, FastSecs, SlowSecs;
      Fold(p, 0.0, now);
      FoldKeeps(c, p, old(View()), 0.0, now);
      if firstShare.None? {
        return None;
      }
      if since < retargetShares && Elapsed(now, lastChange) < c.interval as real {
        return None;
      }
      var optimal := Estimate(p, firstShare.value, now);
      sent := Settle(optimal, now, network);
    }
  }

  lemma FoldKeeps(c: Config, p: real -> real, s: State, credit: real, now: real)
    requires ConfigOk(c) && Rises(p)
    ensures var n := Folded(c, p, s, credit, now);
            n.current == s.current && n.firstShare == s.firstShare && n.lastChange == s.lastChange && n.since == s.since
  {
  }

  lemma FirstShareApart(c: Config, p: real -> real, s: State, first: Option<real>, credit: real, now: real)
    requires ConfigOk(c) && Rises(p)
    ensures Folded(c, p, s.(firstShare := first), credit, now) == Folded(c, p, s, credit, now).(firstShare := first)
    ensures Folded(c, p, s, credit, now).since == s.since
  {
  }
}
