/** The two ledger tables, the rollup that folds old minutes into hours, and the query that reads
    both back as one series. */
module WorkHistory {
  import opened Ledgers
  import opened Division

  datatype Key = Key(worker: nat, ts: nat)
  type Rows = map<Key, Amounts>
  datatype Tables = Tables(minutes: Rows, hourly: Rows)

  const HOUR := 3600
  const FINE_RETENTION_SECS := 8 * 86400

  function Floor(ts: nat, grid: nat): nat
    requires grid > 0
  {
    NonNegative(ts, grid);
    ts / grid * grid
  }

  function HourOf(k: Key): Key {
    Key(k.worker, Floor(k.ts, HOUR))
  }

  // ---- rollup ----

  function Due(minutes: Rows, cutoff: nat): set<Key> {
    set k | k in minutes && k.ts < cutoff
  }

  /** The due minutes added to the hourly rows, one at a time. */
  ghost function Folded(hourly: Rows, minutes: Rows, due: set<Key>): Rows
    requires due <= minutes.Keys
    decreases due
  {
    if due == {} then hourly
    else AddRow(Folded(hourly, minutes, due - {Pick(due)}), HourOf(Pick(due)), minutes[Pick(due)])
  }

  /** One transaction: the grouped insert, then the delete. */
  ghost function RollUp(t: Tables, cutoff: nat): Tables {
    var due := Due(t.minutes, cutoff);
    Tables(t.minutes - due, Folded(t.hourly, t.minutes, due))
  }

  function Cutoff(now: nat): nat {
    Floor(if now < FINE_RETENTION_SECS then 0 else now - FINE_RETENTION_SECS, HOUR)
  }

  ghost function Group(due: set<Key>, g: Key): set<Key> {
    set k | k in due && HourOf(k) == g
  }

  lemma {:induction false} FoldedKeys(hourly: Rows, minutes: Rows, due: set<Key>, g: Key)
    requires due <= minutes.Keys
    ensures g in Folded(hourly, minutes, due) <==> g in hourly || Group(due, g) != {}
    decreases due
  {
    if due != {} {
      var k := Pick(due);
      FoldedKeys(hourly, minutes, due - {k}, g);
      if g == HourOf(k) {
        assert k in Group(due, g);
      } else {
        assert Group(due, g) == Group(due - {k}, g);
      }
    }
  }

  /** The fold is the statement the source runs: INSERT ... SELECT SUM ... GROUP BY worker and hour,
      accumulating on conflict. */
  lemma {:induction false} FoldedIsGroupBy(hourly: Rows, minutes: Rows, due: set<Key>, g: Key)
    requires due <= minutes.Keys
    ensures Get(Folded(hourly, minutes, due), g) == Plus(Get(hourly, g), Sum(minutes, Group(due, g)))
    decreases due
  {
    if due == {} {
      assert Group(due, g) == {};
      PlusZero(Get(hourly, g));
    } else {
      var k := Pick(due);
      var less := due - {k};
      FoldedIsGroupBy(hourly, minutes, less, g);
      if g == HourOf(k) {
        assert Group(due, g) - {k} == Group(less, g);
        SumRemove(minutes, Group(due, g), k);
        PlusSwaps(Get(hourly, g), minutes[k], Sum(minutes, Group(less, g)));
      } else {
        assert Group(due, g) == Group(less, g);
      }
    }
  }

  /** The order of the rows does not matter. */
  lemma FoldedAnyOrder(hourly: Rows, minutes: Rows, due: set<Key>, k: Key)
    requires due <= minutes.Keys && k in due
    ensures Folded(hourly, minutes, due) == Folded(AddRow(hourly, HourOf(k), minutes[k]), minutes, due - {k})
  {
    var (first, less) := (AddRow(hourly, HourOf(k), minutes[k]), due - {k});
    var (l, r) := (Folded(hourly, minutes, due), Folded(first, minutes, less));
    forall g: Key
      ensures g in l <==> g in r
    {
      GroupLess(due, k, g);
      FoldedKeys(hourly, minutes, due, g);
      FoldedKeys(first, minutes, less, g);
    }
    forall g: Key
      ensures Get(l, g) == Get(r, g)
    {
      GroupLess(due, k, g);
      FoldedIsGroupBy(hourly, minutes, due, g);
      FoldedIsGroupBy(first, minutes, less, g);
      if g == HourOf(k) {
        SumRemove(minutes, Group(due, g), k);
        PlusSwaps(Get(hourly, g), minutes[k], Sum(minutes, Group(less, g)));
      }
    }
    SameRows(l, r);
  }

  lemma GroupLess(due: set<Key>, k: Key, g: Key)
    requires k in due
    ensures g == HourOf(k) ==> k in Group(due, g) && Group(due, g) - {k} == Group(due - {k}, g)
    ensures g != HourOf(k) ==> Group(due, g) == Group(due - {k}, g)
  {
  }

  lemma SameRows(l: Rows, r: Rows)
    requires forall g :: g in l <==> g in r
    requires forall g :: Get(l, g) == Get(r, g)
    ensures l == r
  {
    forall g | g in l
      ensures l[g] == r[g]
    {
      assert Get(l, g) == Get(r, g);
    }
  }

  ghost function SelectedHours(due: set<Key>, p: Key -> bool): (r: set<Key>)
    ensures r <= due
  {
    set k | k in due && p(HourOf(k))
  }

  lemma {:induction false} FoldedTotal(hourly: Rows, minutes: Rows, due: set<Key>, p: Key -> bool)
    requires due <= minutes.Keys
    ensures Total(Folded(hourly, minutes, due), p)
         == Plus(Total(hourly, p), Sum(minutes, SelectedHours(due, p)))
    decreases due
  {
    var sel := SelectedHours(due, p);
    if due == {} {
      assert sel == {};
      PlusZero(Total(hourly, p));
    } else {
      var k := Pick(due);
      var due' := due - {k};
      var sel' := SelectedHours(due', p);
      FoldedTotal(hourly, minutes, due', p);
      TotalAddRow(Folded(hourly, minutes, due'), HourOf(k), minutes[k], p);
      if p(HourOf(k)) {
        assert sel - {k} == sel';
        SumRemove(minutes, sel, k);
        PlusSwaps(Total(hourly, p), minutes[k], Sum(minutes, sel'));
      } else {
        assert sel == sel';
      }
    }
  }

  /** A test on rows that does not look inside the hour. */
  ghost predicate HourAligned(p: Key -> bool) {
    forall k: Key {:trigger HourOf(k)} :: p(HourOf(k)) == p(k)
  }

  ghost function Grand(t: Tables, p: Key -> bool): Amounts {
    Plus(Total(t.minutes, p), Total(t.hourly, p))
  }

  ghost predicate Present(t: Tables, p: Key -> bool) {
    Any(t.minutes, p) || Any(t.hourly, p)
  }

  /** Rollup loses nothing that an hour-level question can see. */
  lemma RollUpKeepsTotals(t: Tables, cutoff: nat, p: Key -> bool)
    requires HourAligned(p)
    ensures Grand(RollUp(t, cutoff), p) == Grand(t, p)
    ensures Present(RollUp(t, cutoff), p) <==> Present(t, p)
  {
    var (due, r) := (Due(t.minutes, cutoff), RollUp(t, cutoff));
    var sel := Selected(due, p);
    assert sel == SelectedHours(due, p);
    calc {
      Grand(r, p);
    ==  { FoldedTotal(t.hourly, t.minutes, due, p); }
      Plus(Total(r.minutes, p), Plus(Total(t.hourly, p), Sum(t.minutes, sel)));
    ==  { PlusSwaps(Total(r.minutes, p), Total(t.hourly, p), Sum(t.minutes, sel)); }
      Plus(Plus(Total(r.minutes, p), Sum(t.minutes, sel)), Total(t.hourly, p));
    ==  { TotalRestrict(t.minutes, due, p); }
      Grand(t, p);
    }
    RollUpKeepsPresence(t, cutoff, p);
  }

  lemma RollUpKeepsPresence(t: Tables, cutoff: nat, p: Key -> bool)
    requires HourAligned(p)
    ensures Present(RollUp(t, cutoff), p) <==> Present(t, p)
  {
    var (due, r) := (Due(t.minutes, cutoff), RollUp(t, cutoff));
    if k :| k in t.minutes && p(k) {
      if k in due {
        FoldedKeys(t.hourly, t.minutes, due, HourOf(k));
        assert k in Group(due, HourOf(k));
        assert HourOf(k) in r.hourly && p(HourOf(k));
      } else {
        assert k in r.minutes && p(k);
      }
    }
    if g :| g in t.hourly && p(g) {
      FoldedKeys(t.hourly, t.minutes, due, g);
      assert g in r.hourly && p(g);
    }
    if g :| g in r.hourly && p(g) {
      FoldedKeys(t.hourly, t.minutes, due, g);
      if g !in t.hourly {
        var k :| k in Group(due, g);
        assert k in t.minutes && p(k);
      }
    }
  }

  // ---- the query ----

  /** Sums over [ts, ts + span). */
  datatype Point = Point(ts: nat, amounts: Amounts, span: nat)

  /** The rows of one table that fall in the bucket starting at `at`. */
  function InBucket(since: nat, grid: nat, scope: nat -> bool, at: nat): Key -> bool
    requires grid > 0
  {
    (k: Key) => k.ts >= since && scope(k.worker) && Floor(k.ts, grid) == at
  }

  function Bucket(bucketSecs: nat): (b: nat)
    ensures b > 0
  {
    if bucketSecs == 0 then 1 else bucketSecs
  }

  /** Rolled-up rows can only be bucketed at whole hours. */
  function HourlyBucket(bucketSecs: nat): (b: nat)
    ensures b > 0 && b % HOUR == 0
  {
    var b := Bucket(bucketSecs);
    if b < HOUR then HOUR else Floor(b, HOUR)
  }

  function Since(sinceTs: nat, bucketSecs: nat): nat {
    Floor(sinceTs, Bucket(bucketSecs))
  }

  /** The query of one bucket start: nothing, or one point. The union of the two tables is grouped
      by bucket start, with the larger grid reported as the span; points whose span has not elapsed
      are withheld. ORDER BY lists the points by ascending start. */
  ghost function PointAt(t: Tables, sinceTs: nat, bucketSecs: nat, now: nat, scope: nat -> bool, at: nat): set<Point> {
    var since := Since(sinceTs, bucketSecs);
    Merged(t, InBucket(since, Bucket(bucketSecs), scope, at), Bucket(bucketSecs),
           InBucket(since, HourlyBucket(bucketSecs), scope, at), HourlyBucket(bucketSecs), now, at)
  }

  ghost function Merged(t: Tables, p: Key -> bool, b: nat, q: Key -> bool, hb: nat, now: nat, at: nat): set<Point> {
    var span := if Any(t.hourly, q) && (b < hb || !Any(t.minutes, p)) then hb else b;
    if (Any(t.minutes, p) || Any(t.hourly, q)) && at + span <= now
    then {Point(at, Plus(Total(t.minutes, p), Total(t.hourly, q)), span)}
    else {}
  }

  ghost predicate SameHistory(t: Tables, u: Tables, sinceTs: nat, bucketSecs: nat, now: nat, scope: nat -> bool) {
    forall at: nat :: PointAt(t, sinceTs, bucketSecs, now, scope, at) == PointAt(u, sinceTs, bucketSecs, now, scope, at)
  }

  lemma NestedFloor(ts: nat, q: nat)
    requires q > 0
    ensures Floor(Floor(ts, HOUR), HOUR * q) == Floor(ts, HOUR * q)
  {
    DivDiv(ts, HOUR, q);
    DivDiv(Floor(ts, HOUR), HOUR, q);
    assert Floor(ts, HOUR) / HOUR == ts / HOUR;
  }

  lemma WholeHourBucket(bucketSecs: nat) returns (q: nat)
    requires bucketSecs > 0 && bucketSecs % HOUR == 0
    ensures q > 0 && bucketSecs == HOUR * q
    ensures Bucket(bucketSecs) == HourlyBucket(bucketSecs) == bucketSecs
  {
    q := bucketSecs / HOUR;
  }

  lemma WholeHourTests(sinceTs: nat, bucketSecs: nat, scope: nat -> bool, at: nat)
    requires bucketSecs > 0 && bucketSecs % HOUR == 0
    ensures HourAligned(InBucket(Since(sinceTs, bucketSecs), bucketSecs, scope, at))
  {
    var q := WholeHourBucket(bucketSecs);
    var since := Since(sinceTs, bucketSecs);
    var p := InBucket(since, bucketSecs, scope, at);
    forall k: Key
      ensures p(HourOf(k)) == p(k)
    {
      NestedFloor(k.ts, q);
      AlignedBound(since, k.ts, sinceTs / bucketSecs * q);
    }
  }

  /** Flooring to the hour does not cross a whole-hour bound. */
  lemma AlignedBound(bound: nat, ts: nat, hours: nat)
    ensures bound == hours * HOUR ==> (Floor(ts, HOUR) >= bound <==> ts >= bound)
  {
  }

  /** For whole-hour buckets a point is a function of hour-level totals. */
  lemma WholeHourPoint(t: Tables, sinceTs: nat, bucketSecs: nat, now: nat, scope: nat -> bool, at: nat)
    requires bucketSecs > 0 && bucketSecs % HOUR == 0
    ensures var p := InBucket(Since(sinceTs, bucketSecs), bucketSecs, scope, at);
            PointAt(t, sinceTs, bucketSecs, now, scope, at)
            == if Present(t, p) && at + bucketSecs <= now then {Point(at, Grand(t, p), bucketSecs)} else {}
  {
    var q := WholeHourBucket(bucketSecs);
  }

  /** Rollup is invisible to every whole-hour bucket: any scope, any start, any cutoff. */
  lemma RollUpIsInvisible(t: Tables, cutoff: nat, sinceTs: nat, bucketSecs: nat, now: nat, scope: nat -> bool)
    requires bucketSecs > 0 && bucketSecs % HOUR == 0
    ensures SameHistory(RollUp(t, cutoff), t, sinceTs, bucketSecs, now, scope)
  {
    forall at: nat
      ensures PointAt(RollUp(t, cutoff), sinceTs, bucketSecs, now, scope, at)
              == PointAt(t, sinceTs, bucketSecs, now, scope, at)
    {
      WholeHourTests(sinceTs, bucketSecs, scope, at);
      RollUpKeepsTotals(t, cutoff, InBucket(Since(sinceTs, bucketSecs), bucketSecs, scope, at));
      WholeHourPoint(t, sinceTs, bucketSecs, now, scope, at);
      WholeHourPoint(RollUp(t, cutoff), sinceTs, bucketSecs, now, scope, at);
    }
  }

  // ---- whole histories of writes and rollups ----

  datatype Event = Upsert(key: Key, amounts: Amounts) | Roll(cutoff: nat)

  ghost function Step(t: Tables, e: Event): Tables {
    match e
    case Upsert(k, a) => Tables(AddRow(t.minutes, k, a), t.hourly)
    case Roll(cutoff) => RollUp(t, Floor(cutoff, HOUR))
  }

  ghost function After(log: seq<Event>): Tables {
    if log == [] then Tables(map[], map[]) else Step(After(log[..|log| - 1]), log[|log| - 1])
  }

  function FileStep(m: Rows, e: Event): Rows {
    match e
    case Upsert(k, a) => AddRow(m, k, a)
    case Roll(_) => m
  }

  /** Everything ever filed, at minute resolution: the ledger that never rolls up. */
  function Filed(log: seq<Event>): Rows {
    if log == [] then map[] else FileStep(Filed(log[..|log| - 1]), log[|log| - 1])
  }

  ghost predicate Agree(t: Tables, filed: Rows, p: Key -> bool) {
    Grand(t, p) == Total(filed, p) && (Present(t, p) <==> Any(filed, p))
  }

  lemma {:induction false} TotalsSurvive(log: seq<Event>, p: Key -> bool)
    requires HourAligned(p)
    ensures Agree(After(log), Filed(log), p)
  {
    if log == [] {
      EmptyAgrees(p);
    } else {
      var (init, e) := (log[..|log| - 1], log[|log| - 1]);
      TotalsSurvive(init, p);
      StepAgrees(After(init), Filed(init), e, p);
    }
  }

  lemma EmptyAgrees(p: Key -> bool)
    ensures Agree(Tables(map[], map[]), map[], p)
  {
    var none: Rows := map[];
    NoneSumsToZero(none, p);
  }

  lemma StepAgrees(t: Tables, filed: Rows, e: Event, p: Key -> bool)
    requires HourAligned(p) && Agree(t, filed, p)
    ensures Agree(Step(t, e), FileStep(filed, e), p)
  {
    match e
    case Upsert(k, a) =>
      UpsertKeepsAgreement(t, filed, k, a, p);
    case Roll(cutoff) =>
      RollUpKeepsTotals(t, Floor(cutoff, HOUR), p);
  }

  lemma UpsertKeepsAgreement(t: Tables, filed: Rows, k: Key, a: Amounts, p: Key -> bool)
    requires Agree(t, filed, p)
    ensures Agree(Tables(AddRow(t.minutes, k, a), t.hourly), AddRow(filed, k, a), p)
  {
    TotalAddRow(t.minutes, k, a, p);
    TotalAddRow(filed, k, a, p);
    UpsertPresence(t.minutes, k, a, p);
    UpsertPresence(filed, k, a, p);
    PlusSwaps(Total(t.minutes, p), a, Total(t.hourly, p));
    PlusSwaps(Total(t.minutes, p), Total(t.hourly, p), a);
  }

  lemma UpsertPresence(m: Rows, k: Key, a: Amounts, p: Key -> bool)
    ensures Any(AddRow(m, k, a), p) <==> Any(m, p) || p(k)
  {
    var n := AddRow(m, k, a);
    if p(k) {
      assert k in n && p(k);
    }
    if j :| j in m && p(j) {
      assert j in n && p(j);
    }
  }

  /** Meaning preservation over whole runs: for whole-hour buckets the rolled-up ledger answers
      every query exactly as a ledger that was never rolled up. */
  lemma AnswersAsIfNeverRolledUp(log: seq<Event>, sinceTs: nat, bucketSecs: nat, now: nat, scope: nat -> bool)
    requires bucketSecs > 0 && bucketSecs % HOUR == 0
    ensures SameHistory(After(log), Tables(Filed(log), map[]), sinceTs, bucketSecs, now, scope)
  {
    var whole := Tables(Filed(log), map[]);
    forall at: nat
      ensures PointAt(After(log), sinceTs, bucketSecs, now, scope, at)
              == PointAt(whole, sinceTs, bucketSecs, now, scope, at)
    {
      var p := InBucket(Since(sinceTs, bucketSecs), bucketSecs, scope, at);
      WholeHourTests(sinceTs, bucketSecs, scope, at);
      TotalsSurvive(log, p);
      NoneSumsToZero(whole.hourly, p);
      PlusZero(Total(whole.minutes, p));
      WholeHourPoint(After(log), sinceTs, bucketSecs, now, scope, at);
      WholeHourPoint(whole, sinceTs, bucketSecs, now, scope, at);
    }
  }

  // ---- buckets finer than an hour ----

  /** Until an hour of a worker has been rolled up, its minutes stand exactly as filed. */
  lemma {:induction false} UnrolledHoursAreExact(log: seq<Event>, k: Key)
    requires HourOf(k) !in After(log).hourly
    ensures k in After(log).minutes <==> k in Filed(log)
    ensures k in Filed(log) ==> After(log).minutes[k] == Filed(log)[k]
  {
    if log != [] {
      var init := log[..|log| - 1];
      var t := After(init);
      if log[|log| - 1].Roll? {
        var due := Due(t.minutes, Floor(log[|log| - 1].cutoff, HOUR));
        FoldedKeys(t.hourly, t.minutes, due, HourOf(k));
        assert k in due ==> k in Group(due, HourOf(k));
      }
      UnrolledHoursAreExact(init, k);
    }
  }

  /** In an hour of the scope that has rows in both tables, minutes lie in its first bucket only. */
  ghost predicate FirstBucketOnly(t: Tables, b: nat, scope: nat -> bool) {
    forall k, g :: k in t.minutes && g in t.hourly && scope(k.worker) && scope(g.worker) && HourOf(k).ts == g.ts
                   ==> k.ts < g.ts + b
  }

  function Between(lo: nat, hi: nat, scope: nat -> bool): Key -> bool {
    (k: Key) => scope(k.worker) && lo <= k.ts < hi
  }

  lemma FloorRange(ts: nat, grid: nat, at: nat)
    requires grid > 0
    ensures Floor(ts, grid) == at ==> at <= ts < at + grid
    ensures Floor(at, grid) == at && at <= ts < at + grid ==> Floor(ts, grid) == at
  {
    QuotientBounds(ts, grid);
    QuotientBounds(at, grid);
    if Floor(at, grid) == at && at <= ts < at + grid {
      assert (at / grid + 1) * grid == at + grid;
      QuotientIs(ts, grid, at / grid);
    }
  }

  /** Sub-hour exactness: every point the query returns carries exactly what was filed in
      [ts, ts + span), whichever table served it. */
  lemma SubHourPointsAreExact(log: seq<Event>, sinceTs: nat, bucketSecs: nat, now: nat, scope: nat -> bool, at: nat,
                              pt: Point)
    requires bucketSecs > 0 && HOUR % bucketSecs == 0
    requires FirstBucketOnly(After(log), bucketSecs, scope)
    requires pt in PointAt(After(log), sinceTs, bucketSecs, now, scope, at)
    ensures pt.ts == at && pt.amounts == Total(Filed(log), Between(at, at + pt.span, scope))
  {
    hide Sum;
    DivisorBucket(bucketSecs);
    FloorIdempotent(sinceTs, bucketSecs);
    var since := Since(sinceTs, bucketSecs);
    assert pt in Merged(After(log), InBucket(since, bucketSecs, scope, at), bucketSecs,
                        InBucket(since, HOUR, scope, at), HOUR, now, at);
    MergedIsExact(log, scope, since, bucketSecs, now, at, pt);
  }

  lemma MergedIsExact(log: seq<Event>, scope: nat -> bool, since: nat, b: nat, now: nat, at: nat, pt: Point)
    requires 0 < b <= HOUR && HOUR % b == 0 && Floor(since, b) == since
    requires FirstBucketOnly(After(log), b, scope)
    requires pt in Merged(After(log), InBucket(since, b, scope, at), b, InBucket(since, HOUR, scope, at), HOUR, now, at)
    ensures pt.ts == at && pt.amounts == Total(Filed(log), Between(at, at + pt.span, scope))
  {
    hide *;
    var (t, p, q) := (After(log), InBucket(since, b, scope, at), InBucket(since, HOUR, scope, at));
    if Any(t.hourly, q) {
      HourPoint(log, scope, since, b, at);
    } else if Any(t.minutes, p) {
      FinePoint(log, scope, since, b, at);
    }
    TheOnePoint(t, p, b, q, now, at, pt);
  }

  /** A point with hourly rows spans the hour; one without is the minute table's sum. */
  lemma TheOnePoint(t: Tables, p: Key -> bool, b: nat, q: Key -> bool, now: nat, at: nat, pt: Point)
    requires b <= HOUR && pt in Merged(t, p, b, q, HOUR, now, at)
    ensures pt.ts == at
    ensures Any(t.hourly, q) ==> pt.span == HOUR && pt.amounts == Plus(Total(t.minutes, p), Total(t.hourly, q))
    ensures !Any(t.hourly, q) ==> Any(t.minutes, p) && pt.span == b && pt.amounts == Total(t.minutes, p)
  {
    hide Sum;
    if !Any(t.hourly, q) {
      NoneSumsToZero(t.hourly, q);
      PlusZero(Total(t.minutes, p));
    }
  }

  lemma DivisorBucket(b: nat)
    requires b > 0 && HOUR % b == 0
    ensures Bucket(b) == b <= HOUR && HourlyBucket(b) == HOUR
  {
    if b > HOUR {
      SmallMod(HOUR, b);
    }
  }

  lemma {:induction false} HourlyOnGrid(log: seq<Event>, g: Key)
    requires g in After(log).hourly
    ensures Floor(g.ts, HOUR) == g.ts
  {
    if log != [] {
      var init := log[..|log| - 1];
      var t := After(init);
      if g in t.hourly {
        HourlyOnGrid(init, g);
      } else {
        var due := Due(t.minutes, Floor(log[|log| - 1].cutoff, HOUR));
        FoldedKeys(t.hourly, t.minutes, due, g);
        var k :| k in Group(due, g);
        FloorIdempotent(k.ts, HOUR);
      }
    }
  }

  /** The hour at `at` as filed is what the two tables hold of it. */
  lemma HourAsFiled(log: seq<Event>, scope: nat -> bool, at: nat)
    requires Floor(at, HOUR) == at
    ensures var all := InBucket(0, HOUR, scope, at);
            Plus(Total(After(log).minutes, all), Total(After(log).hourly, all))
               == Total(Filed(log), Between(at, at + HOUR, scope))
  {
    hide Sum, Plus, Total;
    var all := InBucket(0, HOUR, scope, at);
    HourTestAligned(scope, at);
    TotalsSurvive(log, all);
    forall k | k in Filed(log)
      ensures all(k) == Between(at, at + HOUR, scope)(k)
    {
      FloorRange(k.ts, HOUR, at);
    }
    TotalSame(Filed(log), all, Between(at, at + HOUR, scope));
  }

  /** Hourly rows of a bucket are those of the hour, wherever the range starts. */
  lemma HourlyInBucket(log: seq<Event>, scope: nat -> bool, since: nat, at: nat)
    requires Any(After(log).hourly, InBucket(since, HOUR, scope, at))
    ensures since <= at && Floor(at, HOUR) == at
    ensures Total(After(log).hourly, InBucket(since, HOUR, scope, at))
            == Total(After(log).hourly, InBucket(0, HOUR, scope, at))
  {
    hide Sum, Total;
    var (t, q, all) := (After(log), InBucket(since, HOUR, scope, at), InBucket(0, HOUR, scope, at));
    var g :| g in t.hourly && q(g);
    HourlyOnGrid(log, g);
    forall j | j in t.hourly
      ensures q(j) == all(j)
    {
      HourlyOnGrid(log, j);
    }
    TotalSame(t.hourly, q, all);
  }

  lemma OnFinerGrid(at: nat, b: nat)
    requires 0 < b && HOUR % b == 0 && Floor(at, HOUR) == at
    ensures Floor(at, b) == at
  {
    var n := HOUR / b;
    assert n * b == HOUR;
    var m := at / HOUR * n;
    assert m * b == at by { MulAssoc(at / HOUR, n, b); }
    LeadingQuotient(m, b, 0);
  }

  /** A bucket with hourly rows: the minutes it adds are all its hour has left. */
  lemma HourPoint(log: seq<Event>, scope: nat -> bool, since: nat, b: nat, at: nat)
    requires 0 < b <= HOUR && HOUR % b == 0
    requires FirstBucketOnly(After(log), b, scope)
    requires Any(After(log).hourly, InBucket(since, HOUR, scope, at))
    ensures Plus(Total(After(log).minutes, InBucket(since, b, scope, at)),
                 Total(After(log).hourly, InBucket(since, HOUR, scope, at)))
         == Total(Filed(log), Between(at, at + HOUR, scope))
  {
    hide Sum, Plus, Total;
    var (t, p, all) := (After(log), InBucket(since, b, scope, at), InBucket(0, HOUR, scope, at));
    HourlyInBucket(log, scope, since, at);
    var g :| g in t.hourly && InBucket(since, HOUR, scope, at)(g);
    HourlyOnGrid(log, g);
    OnFinerGrid(at, b);
    forall k | k in t.minutes
      ensures p(k) == all(k)
    {
      FloorRange(k.ts, b, at);
      FloorRange(k.ts, HOUR, at);
      if all(k) {
        assert HourOf(k).ts == g.ts;
      }
    }
    TotalSame(t.minutes, p, all);
    HourAsFiled(log, scope, at);
  }

  lemma HourTestAligned(scope: nat -> bool, at: nat)
    ensures HourAligned(InBucket(0, HOUR, scope, at))
  {
    forall k: Key
      ensures InBucket(0, HOUR, scope, at)(HourOf(k)) == InBucket(0, HOUR, scope, at)(k)
    {
      FloorIdempotent(k.ts, HOUR);
    }
  }

  lemma SameHour(x: nat, y: nat, b: nat, at: nat)
    requires 0 < b && HOUR % b == 0 && Floor(x, b) == at == Floor(y, b)
    ensures Floor(x, HOUR) == Floor(y, HOUR)
  {
    var n := HOUR / b;
    assert b * n == HOUR;
    DivDiv(x, b, n);
    DivDiv(y, b, n);
    FloorRange(x, b, at);
    assert x / b == y / b by {
      QuotientIs(x, b, y / b);
    }
  }

  /** A bucket served by the minute table alone lies in an hour the scope never rolled up. */
  lemma FinePoint(log: seq<Event>, scope: nat -> bool, since: nat, b: nat, at: nat)
    requires 0 < b <= HOUR && HOUR % b == 0 && Floor(since, b) == since
    requires FirstBucketOnly(After(log), b, scope)
    requires Any(After(log).minutes, InBucket(since, b, scope, at))
             && !Any(After(log).hourly, InBucket(since, HOUR, scope, at))
    ensures Total(After(log).minutes, InBucket(since, b, scope, at)) == Total(Filed(log), Between(at, at + b, scope))
  {
    var (t, filed, p, r) := (After(log), Filed(log), InBucket(since, b, scope, at), Between(at, at + b, scope));
    var k0 :| k0 in t.minutes && p(k0);
    FloorRange(k0.ts, b, at);
    forall k: Key | r(k)
      ensures p(k) && (k in t.minutes <==> k in filed) && (k in filed ==> t.minutes[k] == filed[k])
    {
      FloorIdempotent(k0.ts, b);
      FloorRange(k.ts, b, at);
      AboveSince(since, k0.ts, k.ts, b, at);
      SameHour(k0.ts, k.ts, b, at);
      NotRolled(log, scope, since, b, at, k0, HourOf(k));
      UnrolledHoursAreExact(log, k);
    }
    assert Where(t.minutes, p) == Where(filed, r) by {
      forall k | k in Where(t.minutes, p)
        ensures k in Where(filed, r)
      {
        FloorRange(k.ts, b, at);
        assert r(k);
      }
    }
    SumCongruent(t.minutes, filed, Where(filed, r));
  }

  lemma NotRolled(log: seq<Event>, scope: nat -> bool, since: nat, b: nat, at: nat, k0: Key, g: Key)
    requires 0 < b <= HOUR && HOUR % b == 0 && Floor(since, b) == since
    requires FirstBucketOnly(After(log), b, scope) && !Any(After(log).hourly, InBucket(since, HOUR, scope, at))
    requires k0 in After(log).minutes && InBucket(since, b, scope, at)(k0)
    requires scope(g.worker) && g.ts == Floor(k0.ts, HOUR)
    ensures g !in After(log).hourly
  {
    if g in After(log).hourly {
      HourlyOnGrid(log, g);
      assert HourOf(k0).ts == g.ts;
      FloorRange(k0.ts, HOUR, g.ts);
      OnFinerGrid(g.ts, b);
      FloorRange(k0.ts, b, g.ts);
      assert at == g.ts;
      FloorRange(k0.ts, b, at);
      AboveSince(since, k0.ts, at, b, at);
    }
  }

  lemma FloorIdempotent(ts: nat, grid: nat)
    requires grid > 0
    ensures Floor(Floor(ts, grid), grid) == Floor(ts, grid)
  {
    NonNegative(ts, grid);
    LeadingQuotient(ts / grid, grid, 0);
  }

  lemma AboveSince(since: nat, x: nat, y: nat, b: nat, at: nat)
    requires 0 < b && Floor(since, b) == since && x >= since
    requires Floor(x, b) == at == Floor(y, b)
    ensures y >= since
  {
    DivMonotone(since, x, b);
    ProductOrder(since / b, x / b, b);
    FloorRange(y, b, at);
  }

  // ---- exactly when ----

  /** Every staged entry carries something. */
  predicate NonZero(log: seq<Event>) {
    forall i :: 0 <= i < |log| && log[i].Upsert? ==> log[i].amounts != Zero
  }

  lemma PlusNonZero(a: Amounts, b: Amounts)
    requires a != Zero || b != Zero
    ensures Plus(a, b) != Zero
  {
  }

  lemma {:induction false} RowsNonZero(log: seq<Event>, k: Key)
    requires NonZero(log) && k in After(log).minutes
    ensures After(log).minutes[k] != Zero
  {
    hide Plus;
    if log != [] {
      var (init, e) := (log[..|log| - 1], log[|log| - 1]);
      assert After(log) == Step(After(init), e);
      if k in After(init).minutes {
        RowsNonZero(init, k);
      }
      if e.Upsert? && k == e.key {
        PlusNonZero(Get(After(init).minutes, k), e.amounts);
      }
    }
  }

  lemma TotalNonZero(m: Rows, k: Key, r: Key -> bool)
    requires k in m && r(k) && m[k] != Zero
    ensures Total(m, r) != Zero
  {
    SumRemove(m, Where(m, r), k);
    PlusNonZero(m[k], Sum(m, Where(m, r) - {k}));
  }

  lemma PlusCancels(x: Amounts, l: Amounts, y: Amounts)
    requires l != Zero
    ensures Plus(Plus(x, l), y) != Plus(x, y)
  {
  }

  function Late(at: nat, b: nat, scope: nat -> bool): Key -> bool {
    (k: Key) => scope(k.worker) && Floor(k.ts, HOUR) == at && k.ts >= at + b
  }

  /** The minutes of an hour are those of its first bucket and the later ones. */
  lemma FirstAndLate(m: Rows, at: nat, b: nat, scope: nat -> bool)
    requires 0 < b <= HOUR && HOUR % b == 0 && Floor(at, HOUR) == at
    ensures Total(m, InBucket(0, HOUR, scope, at))
            == Plus(Total(m, InBucket(0, b, scope, at)), Total(m, Late(at, b, scope)))
  {
    hide Sum, Plus;
    var (all, p, late) := (InBucket(0, HOUR, scope, at), InBucket(0, b, scope, at), Late(at, b, scope));
    OnFinerGrid(at, b);
    forall k | k in m
      ensures p(k) == (all(k) && !late(k)) && (late(k) ==> all(k))
    {
      FloorRange(k.ts, b, at);
      FloorRange(k.ts, HOUR, at);
    }
    assert Where(m, all) - Where(m, p) == Where(m, late);
    SumSplit(m, Where(m, all), Where(m, p));
  }

  /** A minute that lands after its hour was rolled up, past the hour's first bucket, makes the hour's
      point miss it. */
  lemma LateMinuteMisreads(log: seq<Event>, b: nat, scope: nat -> bool, k: Key, g: Key) returns (pt: Point)
    requires 0 < b && HOUR % b == 0 && NonZero(log)
    requires k in After(log).minutes && g in After(log).hourly && scope(k.worker) && scope(g.worker)
    requires HourOf(k).ts == g.ts && k.ts >= g.ts + b
    ensures pt in PointAt(After(log), 0, b, g.ts + HOUR, scope, g.ts)
    ensures pt.amounts != Total(Filed(log), Between(g.ts, g.ts + pt.span, scope))
  {
    hide Sum, Plus, Total, Filed, Merged, InBucket;
    var (t, at) := (After(log), g.ts);
    var (p, all, late) := (InBucket(0, b, scope, at), InBucket(0, HOUR, scope, at), Late(at, b, scope));
    HourlyOnGrid(log, g);
    DivisorBucket(b);
    FloorOfZero(b);
    InItsHour(g, scope);
    pt := HourlyShows(t, p, b, all, at, g);
    FirstAndLate(t.minutes, at, b, scope);
    RowsNonZero(log, k);
    assert late(k);
    TotalNonZero(t.minutes, k, late);
    PlusCancels(Total(t.minutes, p), Total(t.minutes, late), Total(t.hourly, all));
    HourAsFiled(log, scope, at);
  }

  lemma InItsHour(g: Key, scope: nat -> bool)
    requires scope(g.worker) && Floor(g.ts, HOUR) == g.ts
    ensures InBucket(0, HOUR, scope, g.ts)(g)
  {
  }

  /** A bucket with an hourly row is returned once its hour has elapsed. */
  lemma HourlyShows(t: Tables, p: Key -> bool, b: nat, q: Key -> bool, at: nat, g: Key) returns (pt: Point)
    requires b <= HOUR && g in t.hourly && q(g)
    ensures pt in Merged(t, p, b, q, HOUR, at + HOUR, at)
    ensures pt.span == HOUR && pt.amounts == Plus(Total(t.minutes, p), Total(t.hourly, q))
  {
    hide Sum, Plus, Total;
    assert Any(t.hourly, q);
    pt := Point(at, Plus(Total(t.minutes, p), Total(t.hourly, q)), HOUR);
  }

  lemma FloorOfZero(b: nat)
    requires b > 0
    ensures Floor(0, b) == 0
  {
    QuotientIs(0, b, 0);
  }

  ghost predicate AllExact(log: seq<Event>, b: nat, scope: nat -> bool) {
    forall sinceTs: nat, now: nat, at: nat, pt :: pt in PointAt(After(log), sinceTs, b, now, scope, at) ==>
      pt.ts == at && pt.amounts == Total(Filed(log), Between(at, at + pt.span, scope))
  }

  /** Exactly when buckets that divide an hour read true, for every range and clock: when no minute of
      the scope lies past the first bucket of an hour the scope has rolled up. */
  lemma SubHourExactIff(log: seq<Event>, b: nat, scope: nat -> bool)
    requires 0 < b && HOUR % b == 0 && NonZero(log)
    ensures AllExact(log, b, scope) <==> FirstBucketOnly(After(log), b, scope)
  {
    hide PointAt, Total, Filed, HourOf, After;
    if FirstBucketOnly(After(log), b, scope) {
      forall sinceTs: nat, now: nat, at: nat, pt | pt in PointAt(After(log), sinceTs, b, now, scope, at)
        ensures pt.ts == at && pt.amounts == Total(Filed(log), Between(at, at + pt.span, scope))
      {
        SubHourPointsAreExact(log, sinceTs, b, now, scope, at, pt);
      }
    } else {
      var k, g :| k in After(log).minutes && g in After(log).hourly && scope(k.worker) && scope(g.worker)
                  && HourOf(k).ts == g.ts && k.ts >= g.ts + b;
      var pt := LateMinuteMisreads(log, b, scope, k, g);
    }
  }

  // ---- what a point is, bucket by bucket ----

  /** The rows of [lo, hi) that the range does not cut off. */
  function Spanning(lo: nat, hi: nat, since: nat, scope: nat -> bool): Key -> bool {
    (k: Key) => scope(k.worker) && lo <= k.ts < hi && since <= k.ts
  }

  lemma OnGridIff(at: nat, grid: nat)
    requires grid > 0
    ensures Floor(at, grid) == at <==> at % grid == 0
    ensures Floor(at, grid) % grid == 0
  {
    QuotientBounds(at, grid);
    NonNegative(at, grid);
    var f := Floor(at, grid);
    LeadingQuotient(at / grid, grid, 0);
    QuotientBounds(f, grid);
  }

  lemma BucketRows(rows: Rows, since: nat, grid: nat, scope: nat -> bool, at: nat)
    requires grid > 0
    ensures var (p, q) := (InBucket(since, grid, scope, at), Spanning(at, at + grid, since, scope));
            if at % grid == 0 then Total(rows, p) == Total(rows, q) && (Any(rows, p) <==> Any(rows, q))
            else Total(rows, p) == Zero && !Any(rows, p)
  {
    hide Sum;
    var (p, q) := (InBucket(since, grid, scope, at), Spanning(at, at + grid, since, scope));
    OnGridIff(at, grid);
    forall k: Key
      ensures p(k) <==> at % grid == 0 && q(k)
    {
      FloorRange(k.ts, grid, at);
      if p(k) {
        OnGridIff(k.ts, grid);
      }
    }
    if at % grid == 0 {
      TotalSame(rows, p, q);
    } else {
      NoneSumsToZero(rows, p);
    }
  }

  /** Multiples of b on either side of x. */
  lemma GridUnique(x: nat, b: nat, y: nat)
    requires b > 0 && y % b == 0 && y <= x < y + b
    ensures Floor(x, b) == y
  {
    OnGridIff(y, b);
    FloorRange(x, b, y);
  }

  /** The rows of one table that a bucket of this grid collects. */
  ghost predicate Collects(rows: Rows, at: nat, grid: nat, since: nat, scope: nat -> bool)
    requires grid > 0
  {
    at % grid == 0 && exists k :: k in rows && scope(k.worker) && at <= k.ts < at + grid && since <= k.ts
  }

  ghost function Collected(rows: Rows, at: nat, grid: nat, since: nat, scope: nat -> bool): Amounts
    requires grid > 0
  {
    if at % grid == 0 then Total(rows, Spanning(at, at + grid, since, scope)) else Zero
  }

  /** The query in full, for every bucket width: b is the width, hb the whole hours rolled-up rows are
      grouped by, since the start of the range on the grid. A point is returned exactly at the starts
      of buckets that hold rows, with their sums, once the wider grid in use has elapsed. */
  lemma PointIff(t: Tables, sinceTs: nat, bucketSecs: nat, now: nat, scope: nat -> bool, at: nat, pt: Point,
                 b: nat, hb: nat, since: nat)
    requires b > 0 && b == (if bucketSecs == 0 then 1 else bucketSecs)
    requires hb > 0 && hb % HOUR == 0 && (if b < HOUR then hb == HOUR else hb <= b < hb + HOUR)
    requires since % b == 0 && since <= sinceTs < since + b
    ensures pt in PointAt(t, sinceTs, bucketSecs, now, scope, at) <==>
              var fine := Collects(t.minutes, at, b, since, scope);
              var coarse := Collects(t.hourly, at, hb, since, scope);
              && (fine || coarse)
              && pt.ts == at && pt.ts + pt.span <= now
              && pt.span == (if coarse && (!fine || b < hb) then hb else b)
              && pt.amounts == Plus(Collected(t.minutes, at, b, since, scope),
                                    Collected(t.hourly, at, hb, since, scope))
  {
    hide Sum, Total, Plus, InBucket, Any, Bucket, HourlyBucket, Since, Spanning, Collects;
    BucketGrids(sinceTs, bucketSecs, b, hb, since);
    BucketRows(t.minutes, since, b, scope, at);
    BucketRows(t.hourly, since, hb, scope, at);
    CollectsIffAny(t.minutes, at, b, since, scope);
    CollectsIffAny(t.hourly, at, hb, since, scope);
  }

  lemma BucketGrids(sinceTs: nat, bucketSecs: nat, b: nat, hb: nat, since: nat)
    requires b > 0 && b == (if bucketSecs == 0 then 1 else bucketSecs)
    requires hb > 0 && hb % HOUR == 0 && (if b < HOUR then hb == HOUR else hb <= b < hb + HOUR)
    requires since % b == 0 && since <= sinceTs < since + b
    ensures Bucket(bucketSecs) == b && HourlyBucket(bucketSecs) == hb && Since(sinceTs, bucketSecs) == since
  {
    GridUnique(sinceTs, b, since);
    if b >= HOUR {
      GridUnique(b, HOUR, hb);
    }
  }

  lemma CollectsIffAny(rows: Rows, at: nat, grid: nat, since: nat, scope: nat -> bool)
    requires grid > 0
    ensures Collects(rows, at, grid, since, scope) <==>
              at % grid == 0 && Any(rows, Spanning(at, at + grid, since, scope))
  {
    var q := Spanning(at, at + grid, since, scope);
    if k :| k in rows && scope(k.worker) && at <= k.ts < at + grid && since <= k.ts {
      assert q(k);
    }
  }

  /** Whole-hour buckets, to the point: after any history the query returns a bucket exactly when it
      starts on the grid, ends after the start of the range and not after the clock, and something was
      filed in it; and it carries exactly what was filed in it. */
  lemma WholeHourPointsAreExact(log: seq<Event>, sinceTs: nat, b: nat, now: nat, scope: nat -> bool, at: nat, pt: Point)
    requires b > 0 && b % HOUR == 0
    ensures pt in PointAt(After(log), sinceTs, b, now, scope, at) <==>
              && pt == Point(at, Total(Filed(log), Between(at, at + b, scope)), b)
              && at % b == 0 && sinceTs < at + b <= now
              && exists k :: k in Filed(log) && scope(k.worker) && at <= k.ts < at + b
  {
    hide Sum, Total, Plus, InBucket, Filed, Since;
    var (t, p) := (After(log), InBucket(Since(sinceTs, b), b, scope, at));
    WholeHourPoint(t, sinceTs, b, now, scope, at);
    WholeHourTests(sinceTs, b, scope, at);
    TotalsSurvive(log, p);
    BucketRows(Filed(log), Since(sinceTs, b), b, scope, at);
    var since := Since(sinceTs, b);
    SinceIs(sinceTs, b);
    if at % b == 0 {
      SameGrid(at, since, sinceTs, b);
      ReachesBack(Filed(log), at, b, since, scope);
    }
  }

  lemma SinceIs(sinceTs: nat, b: nat)
    requires b > 0
    ensures Since(sinceTs, b) % b == 0 && Since(sinceTs, b) <= sinceTs < Since(sinceTs, b) + b
  {
    OnGridIff(sinceTs, b);
    QuotientBounds(sinceTs, b);
    assert (sinceTs / b + 1) * b == sinceTs / b * b + b;
  }

  /** A bucket of the grid ends after the start of the range exactly when it starts no earlier than the
      range's first bucket. */
  lemma SameGrid(at: nat, since: nat, sinceTs: nat, b: nat)
    requires b > 0 && at % b == 0 && since % b == 0 && since <= sinceTs < since + b
    ensures sinceTs < at + b <==> since <= at
  {
    QuotientBounds(at, b);
    QuotientBounds(since, b);
    if at < since {
      assert at / b < since / b by { if at / b >= since / b { ProductOrder(since / b, at / b, b); } }
      ProductOrder(at / b + 1, since / b, b);
      assert (at / b + 1) * b == at / b * b + b;
    }
  }

  lemma ReachesBack(rows: Rows, at: nat, b: nat, since: nat, scope: nat -> bool)
    requires b > 0 && at % b == 0 && since % b == 0
    ensures var (p, q) := (Spanning(at, at + b, since, scope), Between(at, at + b, scope));
            if since <= at then Total(rows, p) == Total(rows, q) && (Any(rows, p) <==> Any(rows, q)) else !Any(rows, p)
  {
    hide Sum;
    var (p, q) := (Spanning(at, at + b, since, scope), Between(at, at + b, scope));
    if since <= at {
      TotalSame(rows, p, q);
      assert forall k :: p(k) <==> q(k);
    } else {
      SameGrid(at, since, since, b);
    }
  }

  // ---- what a rollup takes ----

  /** A minute leaves the fine table at a rollup exactly when the whole hour it lies in is past the
      retention; its hour then has a row. */
  lemma RolledUpIff(t: Tables, now: nat, k: Key, hour: nat)
    requires k in t.minutes && hour % HOUR == 0 && hour <= k.ts < hour + HOUR
    ensures var r := RollUp(t, Cutoff(now));
            && (k in r.minutes <==> now < hour + HOUR + FINE_RETENTION_SECS)
            && (k !in r.minutes ==> Key(k.worker, hour) in r.hourly)
            && (k in r.minutes ==> r.minutes[k] == t.minutes[k])
  {
    hide Folded;
    var cutoff := Cutoff(now);
    var past := if now < FINE_RETENTION_SECS then 0 else now - FINE_RETENTION_SECS;
    SinceIs(past, HOUR);
    assert Since(past, HOUR) == cutoff;
    SameGrid(hour, cutoff, past, HOUR);
    SameGrid(hour, cutoff, cutoff, HOUR);
    assert k.ts < cutoff <==> hour < cutoff;
    GridUnique(k.ts, HOUR, hour);
    var due := Due(t.minutes, cutoff);
    FoldedKeys(t.hourly, t.minutes, due, Key(k.worker, hour));
    assert k in due ==> k in Group(due, Key(k.worker, hour));
  }
}
