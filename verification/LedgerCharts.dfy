/** From the shares to the chart: while the clock does not go back, a worker's whole-hour points show the
    shares recorded in them, all of them once nothing waits and nothing was lost. */
module LedgerCharts {
  import opened Bytes
  import opened Options
  import opened Ledgers
  import opened WorkHistory
  import opened Store
  import opened Writer
  import opened ShareLedger
  import opened LedgerLog
  import opened LedgerMinutes

  // ---- rows on the minute grid ----

  predicate MinuteOk(w: StoreWrite) {
    w.Ledger? ==> w.minuteTs % 60 == 0
  }

  predicate TicketsOk(ts: seq<Ticket>) {
    forall i :: 0 <= i < |ts| ==> MinuteOk(ts[i].write)
  }

  predicate WorldOnGrid(w: World) {
    && w.stage.minuteTs % 60 == 0
    && (forall i :: 0 <= i < |w.inFlight| ==> MinuteOk(w.inFlight[i]))
    && TicketsOk(w.pipe.queue) && TicketsOk(w.pipe.backlog)
  }

  predicate LogOnGrid(log: seq<Event>) {
    forall i :: 0 <= i < |log| && log[i].Upsert? ==> log[i].key.ts % 60 == 0
  }

  lemma StepOnGrid(p: Pipe, s: WriterStep)
    requires Enabled(p, s) && TicketsOk(p.queue) && TicketsOk(p.backlog)
    ensures TicketsOk(Do(p, s).queue) && TicketsOk(Do(p, s).backlog)
  {
    hide Apply, MinuteOk;
  }

  lemma ActionOnGrid(w: World, a: Action)
    requires CanDo(w, a) && WorldOnGrid(w)
    ensures WorldOnGrid(Next(w, a))
  {
    hide Enumerates, Do, AllEntries, MinuteOf;
    match a
    case Record(_, _, now, _) => WithinItsMinute(now);
    case Tick(now, _) => WithinItsMinute(now);
    case Restart(now, _) => WithinItsMinute(now);
    case Writing(step) => StepOnGrid(w.pipe, step);
    case _ =>
  }

  lemma {:induction false} FiledOnGrid(tx: Tx, minuteTs: nat, entries: seq<LedgerEntry>)
    requires minuteTs % 60 == 0
    ensures LogOnGrid(FiledAs(tx, minuteTs, entries))
  {
    hide Resolve, FileEntries;
    if entries != [] {
      FiledOnGrid(tx, minuteTs, entries[..|entries| - 1]);
    }
  }

  lemma ActionLogOnGrid(w: World, a: Action)
    requires CanDo(w, a) && WorldOnGrid(w)
    ensures LogOnGrid(ActionLog(w, a))
  {
    hide FiledAs;
    if a.Writing? {
      var p := w.pipe;
      var t := if a.step.Taking? then p.queue[0] else p.backlog[0];
      assert MinuteOk(t.write);
      if t.write.Ledger? {
        FiledOnGrid(OpenTx(p.db, p.st), t.write.minuteTs, t.write.entries);
      }
    }
  }

  lemma {:induction false} RunLogOnGrid(w: World, acts: seq<Action>, w': World)
    requires Reaches(w, acts, w') && WorldOnGrid(w)
    ensures LogOnGrid(RunLog(w, acts))
    decreases |acts|
  {
    hide Next, CanDo, ActionLog, WorldOnGrid;
    if acts != [] {
      ActionLogOnGrid(w, acts[0]);
      ActionOnGrid(w, acts[0]);
      RunLogOnGrid(Next(w, acts[0]), acts[1..], w');
    }
  }

  lemma {:induction false} RowsOnGrid(log: seq<Event>, k: Key)
    requires LogOnGrid(log) && k in Filed(log)
    ensures k.ts % 60 == 0
  {
    if log != [] {
      var init := log[..|log| - 1];
      if k in Filed(init) {
        RowsOnGrid(init, k);
      }
    }
  }

  // ---- an interval as its minutes ----

  /** The shares of a worker recorded in [lo, hi). */
  function SharesIn(es: seq<LedgerEntry>, clocks: seq<nat>, k: WorkerKey, lo: nat, hi: nat, f: Field): nat
    requires |es| == |clocks|
  {
    if es == [] then 0
    else
      var n := |es| - 1;
      SharesIn(es[..n], clocks[..n], k, lo, hi, f)
      + if SplitName(es[n].worker) == k && lo <= clocks[n] < hi then Val(es[n].amounts, f) else 0
  }

  lemma {:induction false} SharesSplit(es: seq<LedgerEntry>, clocks: seq<nat>, k: WorkerKey, lo: nat, minute: nat,
                                       f: Field)
    requires |es| == |clocks| && lo <= minute
    ensures SharesIn(es, clocks, k, lo, minute + 60, f)
         == SharesIn(es, clocks, k, lo, minute, f) + SharesAt(es, clocks, k, minute, f)
    ensures SharesIn(es, clocks, k, lo, lo, f) == 0
  {
    hide SplitName, FirstDot;
    if es != [] {
      var n := |es| - 1;
      SharesSplit(es[..n], clocks[..n], k, lo, minute, f);
    }
  }

  function Only(id: nat): nat -> bool {
    x => x == id
  }

  lemma RowsSplit(filed: Rows, id: nat, lo: nat, minute: nat, f: Field)
    requires lo <= minute && minute % 60 == 0 && forall k :: k in filed ==> k.ts % 60 == 0
    ensures Val(Total(filed, Between(lo, minute + 60, Only(id))), f)
         == Val(Total(filed, Between(lo, minute, Only(id))), f) + Val(Get(filed, Key(id, minute)), f)
  {
    hide Sum;
    var (all, part) := (Between(lo, minute + 60, Only(id)), Between(lo, minute, Only(id)));
    var k := Key(id, minute);
    forall j | j in filed
      ensures all(j) <==> part(j) || j == k
    {
    }
    if k in filed {
      assert Where(filed, all) - {k} == Where(filed, part);
      SumRemove(filed, Where(filed, all), k);
      ValPlus(filed[k], Sum(filed, Where(filed, part)), f);
    } else {
      assert Where(filed, all) == Where(filed, part);
    }
  }

  lemma NoRows(filed: Rows, id: nat, lo: nat)
    ensures Total(filed, Between(lo, lo, Only(id))) == Zero
  {
    NoneSumsToZero(filed, Between(lo, lo, Only(id)));
  }

  /** What holds of every minute holds of a row of n of them. */
  lemma {:induction false} MinutesAddUp(es: seq<LedgerEntry>, clocks: seq<nat>, k: WorkerKey, filed: Rows, id: nat,
                                        lo: nat, n: nat, f: Field)
    requires |es| == |clocks| && lo % 60 == 0 && forall k :: k in filed ==> k.ts % 60 == 0
    requires forall m: nat :: m % 60 == 0 ==> Val(Get(filed, Key(id, m)), f) <= SharesAt(es, clocks, k, m, f)
    ensures var (shown, recorded) := (Val(Total(filed, Between(lo, lo + 60 * n, Only(id))), f),
                                      SharesIn(es, clocks, k, lo, lo + 60 * n, f));
            && shown <= recorded
            && ((forall m: nat :: m % 60 == 0 ==> Val(Get(filed, Key(id, m)), f) == SharesAt(es, clocks, k, m, f))
                ==> shown == recorded)
  {
    hide Total, SharesIn, SharesAt, Between;
    if n == 0 {
      NoRows(filed, id, lo);
      SharesSplit(es, clocks, k, lo, lo, f);
    } else {
      var m := lo + 60 * (n - 1);
      MinutesAddUp(es, clocks, k, filed, id, lo, n - 1, f);
      RowsSplit(filed, id, lo, m, f);
      SharesSplit(es, clocks, k, lo, m, f);
      assert m + 60 == lo + 60 * n;
    }
  }

  // ---- the chart ----

  /** Nothing waits to be filed, and nothing was lost on the way. */
  predicate Settled(w: World) {
    && Drained(w) && w.pipe.lost == [] && w.pipe.dead == [] && w.crashed == []
    && forall i :: 0 <= i < |w.saturated| ==> w.saturated[i].amounts == Zero
  }

  lemma {:induction false} NothingCutOff(es: seq<LedgerEntry>, clocks: seq<nat>, k: WorkerKey, minute: nat, f: Field)
    requires |es| == |clocks| && forall i :: 0 <= i < |es| ==> es[i].amounts == Zero
    ensures SharesAt(es, clocks, k, minute, f) == 0
  {
    hide SplitName, FirstDot;
    if es != [] {
      NothingCutOff(es[..|es| - 1], clocks[..|es| - 1], k, minute, f);
    }
  }

  /** What the log filed for a worker and a minute is at most what was recorded in it, and all of it once
      settled. */
  lemma MinuteShows(now: nat, acts: seq<Action>, w: World, k: WorkerKey, minute: nat, f: Field)
    requires Reaches(Boot(now), acts, w) && NeverBack(acts, now) && k in w.pipe.db.workers && minute % 60 == 0
    ensures Aligned(w)
    ensures var (filed, shares) := (Val(Get(Filed(RunLog(Boot(now), acts)), Key(w.pipe.db.workers[k], minute)), f),
                                    SharesAt(w.recorded, w.clocks, k, minute, f));
            filed <= shares && (Settled(w) ==> filed == shares)
  {
    hide Reaches, RunLog, Filed, SharesAt, WritesAt, HeldAt, Total, NamesOf, SplitName, FirstDot, NeverBack,
         EntriesTotal;
    SharesLandInTheirMinute(now, acts, w, k, minute, f);
    if Settled(w) {
      NothingHeld(k, minute, f);
      NothingTotal(k);
      NothingCutOff(w.saturated, w.clocks, k, minute, f);
    }
  }

  /** A point of a worker's chart, for any whole-hour bucket, never shows more than the shares recorded in
      its bucket, and shows exactly those once settled. */
  lemma ChartShowsTheShares(now: nat, acts: seq<Action>, w: World, k: WorkerKey, sinceTs: nat, b: nat, clock: nat,
                            at: nat, pt: Point, f: Field)
    requires Reaches(Boot(now), acts, w) && NeverBack(acts, now) && k in w.pipe.db.workers && b > 0 && b % 3600 == 0
    requires pt in PointAt(w.pipe.db.tables, sinceTs, b, clock, Only(w.pipe.db.workers[k]), at)
    ensures Aligned(w) && pt.ts == at && pt.span == b
    ensures var shares := SharesIn(w.recorded, w.clocks, k, at, at + b, f);
            Val(pt.amounts, f) <= shares && (Settled(w) ==> Val(pt.amounts, f) == shares)
  {
    hide Reaches, RunLog, Filed, SharesIn, SharesAt, Total, PointAt, NeverBack, Between, Settled;
    var (log, id) := (RunLog(Boot(now), acts), w.pipe.db.workers[k]);
    var filed := Filed(log);
    TablesFromLog(now, acts, w);
    WholeHourPointsAreExact(log, sinceTs, b, clock, Only(id), at, pt);
    forall m: nat | m % 60 == 0
      ensures var shown := Val(Get(filed, Key(id, m)), f);
              Aligned(w) && shown <= SharesAt(w.recorded, w.clocks, k, m, f)
              && (Settled(w) ==> shown == SharesAt(w.recorded, w.clocks, k, m, f))
    {
      MinuteShows(now, acts, w, k, m, f);
    }
    assert Aligned(w) by { MinuteShows(now, acts, w, k, 0, f); }
    WholeMinutes(at, b);
    MinutesAddUp(w.recorded, w.clocks, k, filed, id, at, b / 60, f);
  }

  lemma WholeMinutes(at: nat, b: nat)
    requires b > 0 && b % 3600 == 0 && at % b == 0
    ensures at % 60 == 0 && 60 * (b / 60) == b
  {
    var (q, h) := (at / b, b / 3600);
    assert at == 60 * (q * (60 * h)) by { assert at == q * b && b == 3600 * h; }
  }

  lemma TablesFromLog(now: nat, acts: seq<Action>, w: World)
    requires Reaches(Boot(now), acts, w)
    ensures var log := RunLog(Boot(now), acts);
            w.pipe.db.tables == After(log) && forall k :: k in Filed(log) ==> k.ts % 60 == 0
  {
    hide Reaches, RunLog, After, Filed;
    var (o, log) := (Boot(now), RunLog(Boot(now), acts));
    assert After([]) == Tables(map[], map[]) by { EmptyLog(); }
    RunIsLogged(o, acts, w, []);
    assert [] + log == log;
    WithinItsMinute(now);
    RunLogOnGrid(o, acts, w);
    forall k | k in Filed(log)
      ensures k.ts % 60 == 0
    {
      RowsOnGrid(log, k);
    }
  }

  /** And once settled no share is missing from it: a bucket of the range that has ended and in which the
      worker has something recorded has its point. */
  lemma ChartMissesNothing(now: nat, acts: seq<Action>, w: World, k: WorkerKey, sinceTs: nat, b: nat, clock: nat,
                           at: nat, f: Field)
    requires Reaches(Boot(now), acts, w) && NeverBack(acts, now) && k in w.pipe.db.workers && b > 0 && b % 3600 == 0
    requires Settled(w) && at % b == 0 && sinceTs < at + b <= clock
    ensures Aligned(w)
    ensures SharesIn(w.recorded, w.clocks, k, at, at + b, f) > 0 ==>
              PointAt(w.pipe.db.tables, sinceTs, b, clock, Only(w.pipe.db.workers[k]), at) != {}
  {
    hide Reaches, RunLog, Filed, SharesIn, SharesAt, Total, PointAt, NeverBack, Settled;
    var (log, id) := (RunLog(Boot(now), acts), w.pipe.db.workers[k]);
    var filed := Filed(log);
    TablesFromLog(now, acts, w);
    forall m: nat | m % 60 == 0
      ensures Aligned(w) && Val(Get(filed, Key(id, m)), f) == SharesAt(w.recorded, w.clocks, k, m, f)
    {
      MinuteShows(now, acts, w, k, m, f);
    }
    assert Aligned(w) by { MinuteShows(now, acts, w, k, 0, f); }
    WholeMinutes(at, b);
    MinutesAddUp(w.recorded, w.clocks, k, filed, id, at, b / 60, f);
    if SharesIn(w.recorded, w.clocks, k, at, at + b, f) > 0 {
      var p := Between(at, at + b, Only(id));
      if !Any(filed, p) {
        NoneSumsToZero(filed, p);
      }
      var j :| j in filed && p(j);
      WholeHourPointsAreExact(log, sinceTs, b, clock, Only(id), at, Point(at, Total(filed, p), b));
    }
  }
}
