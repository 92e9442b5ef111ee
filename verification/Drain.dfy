/** The writer loop draining its queue on a healthy disk, as at shutdown: what lands, what stays
    parked, and exactly when. */
module Drain {
  import opened Bytes
  import opened Store
  import opened Writer
  import opened WorkHistory

  function EnqueueAll(p: Pipe, ws: seq<StoreWrite>): Pipe {
    if ws == [] then p else Enqueue(EnqueueAll(p, ws[..|ws| - 1]), ws[|ws| - 1])
  }

  lemma {:induction false} EnqueuedAll(p: Pipe, ws: seq<StoreWrite>)
    ensures var q := EnqueueAll(p, ws);
            && |q.queue| == |p.queue| + |ws| && q.queue[..|p.queue|] == p.queue
            && (forall i :: 0 <= i < |ws| ==> q.queue[|p.queue| + i].write == ws[i])
            && q == p.(queue := q.queue, nextId := q.nextId)
  {
    if ws != [] {
      EnqueuedAll(p, ws[..|ws| - 1]);
    }
  }

  lemma {:induction false} RetryPassFrame(p: Pipe, disks: seq<Disk>)
    requires |disks| <= |p.backlog|
    ensures RetryPass(p, disks).queue == p.queue && RetryPass(p, disks).lost == p.lost
    decreases |disks|
  {
    hide Apply;
    if disks != [] && RetrySucceeds(p, disks[0]) {
      RetryPassFrame(Retry(p, disks[0]), disks[1..]);
    }
  }

  /** A full retry pass with every statement succeeding. */
  ghost function Pass(p: Pipe): (q: Pipe)
    ensures q.queue == p.queue && q.lost == p.lost
  {
    RetryPassFrame(p, AllHealthy(|p.backlog|));
    RetryPass(p, AllHealthy(|p.backlog|))
  }

  lemma HandleKeepsQueue(p: Pipe, t: Ticket, disk: Disk)
    ensures Handle(p, t, disk).queue == p.queue
  {
    hide Apply;
  }

  /** The loop until its queue is empty, each write taken after a retry pass. */
  ghost function Loop(p: Pipe): (q: Pipe)
    ensures q.queue == []
    decreases |p.queue|
  {
    if p.queue == [] then p
    else
      var n := Pass(p);
      HandleKeepsQueue(n.(queue := n.queue[1..]), n.queue[0], Healthy);
      Loop(Iteration(p, AllHealthy(|p.backlog|), true, Healthy))
  }

  /** The queue drained and the flush behind it acknowledged: its own iteration retries once more. */
  ghost function Flushed(p: Pipe): Pipe {
    Pass(Loop(p))
  }

  lemma {:induction false} RunConcat(p: Pipe, a: seq<WriterStep>, q: Pipe, b: seq<WriterStep>, r: Pipe)
    requires IsRun(p, a, q) && IsRun(q, b, r)
    ensures IsRun(p, a + b, r)
    decreases |a|
  {
    hide Do, Enabled;
    if a == [] {
      assert a + b == b;
    } else {
      RunConcat(Do(p, a[0]), a[1..], q, b, r);
      assert (a + b)[1..] == a[1..] + b;
    }
  }

  /** Draining is one of the runs of the writer's atomic steps. */
  lemma {:induction false} LoopIsRun(p: Pipe) returns (steps: seq<WriterStep>)
    ensures IsRun(p, steps, Loop(p))
    decreases |p.queue|
  {
    hide Apply, IsRun, RetryPass;
    if p.queue == [] {
      steps := [];
      assert IsRun(p, [], p) by { NoSteps(p); }
    } else {
      var n := Pass(p);
      HandleKeepsQueue(n.(queue := n.queue[1..]), n.queue[0], Healthy);
      var q := Iteration(p, AllHealthy(|p.backlog|), true, Healthy);
      steps := IterationIsRun(p, AllHealthy(|p.backlog|), true, Healthy);
      var rest := LoopIsRun(q);
      RunConcat(p, steps, q, rest, Loop(q));
      steps := steps + rest;
    }
  }

  lemma NoSteps(p: Pipe)
    ensures IsRun(p, [], p)
  {
  }

  lemma FlushedIsRun(p: Pipe) returns (steps: seq<WriterStep>)
    ensures IsRun(p, steps, Flushed(p))
  {
    hide IsRun, RetryPass, Loop;
    var q := Loop(p);
    steps := LoopIsRun(p);
    var rest := RetryPassIsRun(q, AllHealthy(|q.backlog|));
    RunConcat(p, steps, q, rest, Pass(q));
    steps := steps + rest;
  }

  // ---- one healthy step ----

  function FoundIn(ts: seq<Ticket>): set<BlockHash> {
    set t | t in ts && t.write.BlockFound? :: t.write.block.hash
  }

  /** The block rows there are, or will be once the queue is taken. */
  ghost function Coming(p: Pipe): set<BlockHash> {
    p.db.blocks.Keys + FoundIn(p.queue)
  }

  predicate Lands(db: Db, w: StoreWrite) {
    w.BlockResolved? ==> w.hash in db.blocks
  }

  lemma HealthyApply(db: Db, st: WriterState, w: StoreWrite)
    ensures var r := Apply(db, st, w, Healthy);
            && (r.ok <==> Lands(db, w))
            && r.db.blocks.Keys == RowsAfter(db.blocks.Keys, w)
            && r.st.roundEpoch == (if w.RoundReset? then Max(st.roundEpoch, w.epoch) else st.roundEpoch)
            && (!w.RoundReset? && !w.Snapshot? ==> r.db.round == db.round)
  {
    hide FileEntries, RollUp;
  }

  lemma FoundInHead(ts: seq<Ticket>)
    requires ts != []
    ensures FoundIn(ts) == RowsAfter(FoundIn(ts[1..]), ts[0].write)
  {
    assert ts == [ts[0]] + ts[1..];
  }

  lemma TakeHealthy(p: Pipe)
    requires p.queue != [] && Take(p, Healthy).lost == p.lost
    ensures var (q, w) := (Take(p, Healthy), p.queue[0].write);
            && q.queue == p.queue[1..]
            && q.backlog == (if Lands(p.db, w) then p.backlog else p.backlog + [p.queue[0]])
            && q.db.blocks.Keys == RowsAfter(p.db.blocks.Keys, w)
            && Coming(q) == Coming(p)
            && q.st.roundEpoch == (if w.RoundReset? then Max(p.st.roundEpoch, w.epoch) else p.st.roundEpoch)
            && (!w.RoundReset? && !w.Snapshot? ==> q.db.round == p.db.round)
  {
    hide Apply;
    HealthyApply(p.db, p.st, p.queue[0].write);
    FoundInHead(p.queue);
  }

  lemma RetryHealthy(p: Pipe)
    requires p.backlog != []
    ensures var (q, w) := (Retry(p, Healthy), p.backlog[0].write);
            && (RetrySucceeds(p, Healthy) <==> Lands(p.db, w))
            && (Lands(p.db, w) ==>
                  && q.backlog == p.backlog[1..] && q.queue == p.queue
                  && q.db.blocks.Keys == RowsAfter(p.db.blocks.Keys, w)
                  && Coming(q) == RowsAfter(Coming(p), w)
                  && q.st.roundEpoch == (if w.RoundReset? then Max(p.st.roundEpoch, w.epoch) else p.st.roundEpoch))
  {
    hide Apply;
    HealthyApply(p.db, p.st, p.backlog[0].write);
  }

  /** Retrying would change nothing: the backlog is empty or a resolution without its row heads it. */
  predicate Stuck(p: Pipe) {
    p.backlog == [] || !Lands(p.db, p.backlog[0].write)
  }

  lemma FailedRetry(p: Pipe)
    requires p.backlog != [] && !Lands(p.db, p.backlog[0].write)
    ensures Retry(p, Healthy) == p
  {
    hide FileEntries, RollUp;
  }

  lemma StuckPass(p: Pipe)
    requires Stuck(p)
    ensures Pass(p) == p
  {
    hide Apply;
    if p.backlog != [] {
      RetryHealthy(p);
      FailedRetry(p);
    }
  }

  // ---- when everything lands ----

  lemma {:induction false} OrderlyConcat(rows: set<BlockHash>, a: seq<Ticket>, b: seq<Ticket>)
    ensures Orderly(rows, a + b) <==> Orderly(rows, a) && Orderly(rows + FoundIn(a), b)
    decreases |a|
  {
    hide Orderly;
    if a == [] {
      assert a + b == b && rows + FoundIn(a) == rows;
      NothingIsOrderly(rows);
    } else {
      var rows' := RowsAfter(rows, a[0].write);
      assert (a + b)[0] == a[0] && (a + b)[1..] == a[1..] + b;
      OrderlyStep(rows, a + b);
      OrderlyStep(rows, a);
      FoundInHead(a);
      assert rows + FoundIn(a) == rows' + FoundIn(a[1..]);
      OrderlyConcat(rows', a[1..], b);
    }
  }

  lemma NothingIsOrderly(rows: set<BlockHash>)
    ensures Orderly(rows, [])
  {
  }

  lemma OrderlyOne(rows: set<BlockHash>, t: Ticket)
    ensures Orderly(rows, [t]) <==> (t.write.BlockResolved? ==> t.write.hash in rows)
  {
    hide Orderly;
    OrderlyStep(rows, [t]);
    assert [t][1..] == [];
    NothingIsOrderly(RowsAfter(rows, t.write));
  }

  /** A write that has landed, and whose row is counted, can be left out of the sequence. */
  lemma OrderlyWithout(rows: set<BlockHash>, a: seq<Ticket>, t: Ticket, b: seq<Ticket>)
    requires t.write.BlockResolved? ==> t.write.hash in rows
    requires t.write.BlockFound? ==> t.write.block.hash in rows
    ensures Orderly(rows, a + ([t] + b)) <==> Orderly(rows, a + b)
  {
    hide Orderly;
    var rows' := rows + FoundIn(a);
    OrderlyConcat(rows, a, [t] + b);
    OrderlyConcat(rows, a, b);
    OrderlyConcat(rows', [t], b);
    OrderlyOne(rows', t);
    assert rows' + FoundIn([t]) == rows';
  }

  /** Every waiting resolution has its row on disk or in the queue, or its insert ahead of it. */
  ghost predicate AllWillLand(p: Pipe) {
    Orderly(Coming(p), p.backlog + p.queue)
  }

  lemma TakeKeepsAll(p: Pipe)
    requires p.queue != [] && Take(p, Healthy).lost == p.lost
    ensures AllWillLand(Take(p, Healthy)) <==> AllWillLand(p)
  {
    hide Take, Orderly;
    var (q, t, rest) := (Take(p, Healthy), p.queue[0], p.queue[1..]);
    TakeHealthy(p);
    assert p.queue == [t] + rest;
    if Lands(p.db, t.write) {
      FoundInHead(p.queue);
      OrderlyWithout(Coming(p), p.backlog, t, rest);
    } else {
      assert p.backlog + p.queue == q.backlog + q.queue;
    }
  }

  lemma RetryKeepsAll(p: Pipe)
    requires p.backlog != [] && RetrySucceeds(p, Healthy)
    ensures AllWillLand(Retry(p, Healthy)) <==> AllWillLand(p)
  {
    hide Retry, Orderly, RetrySucceeds;
    RetryHealthy(p);
    var ts := p.backlog + p.queue;
    assert ts[0] == p.backlog[0] && ts[1..] == p.backlog[1..] + p.queue;
    OrderlyStep(Coming(p), ts);
  }

  /** A pass ends stuck, having changed nothing about what will land. */
  lemma {:induction false} PassKeepsAll(p: Pipe)
    ensures Stuck(Pass(p)) && (AllWillLand(Pass(p)) <==> AllWillLand(p))
    decreases |p.backlog|
  {
    hide Apply, AllWillLand, Retry, RetrySucceeds;
    if p.backlog != [] {
      RetryHealthy(p);
      assert AllHealthy(|p.backlog|)[1..] == AllHealthy(|p.backlog| - 1);
      if RetrySucceeds(p, Healthy) {
        RetryKeepsAll(p);
        PassKeepsAll(Retry(p, Healthy));
      } else {
        FailedRetry(p);
      }
    }
  }

  // ---- over the whole loop ----

  lemma TakeLoses(p: Pipe)
    requires p.queue != []
    ensures p.lost <= Take(p, Healthy).lost && Take(p, Healthy).queue == p.queue[1..]
    ensures |p.backlog| < MAX_WRITE_BACKLOG ==> Take(p, Healthy).lost == p.lost
    ensures |Take(p, Healthy).backlog| <= |p.backlog| + 1
  {
    hide Apply;
  }

  lemma {:induction false} LoopLoses(p: Pipe)
    ensures p.lost <= Loop(p).lost
    decreases |p.queue|
  {
    hide Apply, Take;
    if p.queue != [] {
      var n := Pass(p);
      TakeLoses(n);
      LoopLoses(Take(n, Healthy));
    }
  }

  /** Nothing is dropped while the queue and the backlog fit the backlog together. */
  lemma {:induction false} RoomForAll(p: Pipe)
    requires |p.backlog| + |p.queue| <= MAX_WRITE_BACKLOG
    ensures Loop(p).lost == p.lost
    decreases |p.queue|
  {
    hide Apply, Take;
    if p.queue != [] {
      var n := Pass(p);
      PassShrinks(p);
      TakeLoses(n);
      RoomForAll(Take(n, Healthy));
    }
  }

  lemma {:induction false} PassShrinks(p: Pipe)
    ensures |Pass(p).backlog| <= |p.backlog|
    decreases |p.backlog|
  {
    hide Apply, Retry, RetrySucceeds;
    if p.backlog != [] {
      RetryHealthy(p);
      assert AllHealthy(|p.backlog|)[1..] == AllHealthy(|p.backlog| - 1);
      if RetrySucceeds(p, Healthy) {
        PassShrinks(Retry(p, Healthy));
      } else {
        FailedRetry(p);
      }
    }
  }

  lemma {:induction false} LoopKeepsAll(p: Pipe)
    requires Loop(p).lost == p.lost
    ensures AllWillLand(Loop(p)) <==> AllWillLand(p)
    decreases |p.queue|
  {
    hide Apply, Take, AllWillLand;
    if p.queue != [] {
      var n := Pass(p);
      PassKeepsAll(p);
      TakeLoses(n);
      LoopLoses(Take(n, Healthy));
      TakeKeepsAll(n);
      LoopKeepsAll(Take(n, Healthy));
    }
  }

  /** A shutdown on a healthy disk leaves nothing parked if and only if every waiting resolution has
      its row on disk or anywhere in the queue, or the row's insert parked ahead of it. */
  lemma FlushedCleanIff(p: Pipe)
    requires Loop(p).lost == p.lost
    ensures Flushed(p).queue == [] && Flushed(p).lost == p.lost
    ensures Flushed(p).backlog == [] <==> Orderly(Coming(p), p.backlog + p.queue)
  {
    hide Loop, Pass, Orderly;
    var q := Loop(p);
    LoopKeepsAll(p);
    PassKeepsAll(q);
    StuckIsOrderlyIff(Pass(q));
  }

  lemma StuckIsOrderlyIff(p: Pipe)
    requires Stuck(p) && p.queue == []
    ensures p.backlog == [] <==> AllWillLand(p)
  {
    hide Orderly;
    assert p.backlog + p.queue == p.backlog;
    assert Coming(p) == p.db.blocks.Keys;
    if p.backlog == [] {
      NothingIsOrderly(Coming(p));
    } else {
      OrderlyStep(Coming(p), p.backlog);
    }
  }

  // ---- when a reset lands ----

  /** The write that starts epoch e is among ts. */
  predicate Has(ts: seq<Ticket>, e: nat) {
    exists t :: t in ts && t.write == RoundReset(e)
  }

  /** That write is parked with no stuck resolution ahead of it. */
  predicate Free(rows: set<BlockHash>, ts: seq<Ticket>, e: nat) {
    exists j :: 0 <= j < |ts| && ts[j].write == RoundReset(e) && Orderly(rows, ts[..j])
  }

  /** The reset of epoch e has landed, or is queued, or is parked and free. */
  ghost predicate ResetLands(p: Pipe, e: nat) {
    p.st.roundEpoch == e || Has(p.queue, e) || Free(Coming(p), p.backlog, e)
  }

  predicate Within(ts: seq<Ticket>, e: nat) {
    forall t :: t in ts && t.write.RoundReset? ==> t.write.epoch <= e
  }

  ghost predicate EpochsWithin(p: Pipe, e: nat) {
    p.st.roundEpoch <= e && Within(p.queue, e) && Within(p.backlog, e)
  }

  lemma HasHead(ts: seq<Ticket>, e: nat)
    requires ts != []
    ensures Has(ts, e) <==> ts[0].write == RoundReset(e) || Has(ts[1..], e)
  {
    assert ts == [ts[0]] + ts[1..];
  }

  lemma FreeHead(rows: set<BlockHash>, ts: seq<Ticket>, e: nat)
    requires ts != []
    ensures var w := ts[0].write;
            Free(rows, ts, e) <==>
              w == RoundReset(e) || ((w.BlockResolved? ==> w.hash in rows) && Free(RowsAfter(rows, w), ts[1..], e))
  {
    hide Orderly;
    var rows' := RowsAfter(rows, ts[0].write);
    NothingIsOrderly(rows);
    forall j | 1 <= j < |ts|
      ensures Orderly(rows, ts[..j]) <==>
                (ts[0].write.BlockResolved? ==> ts[0].write.hash in rows) && Orderly(rows', ts[1..][..j - 1])
    {
      OrderlyStep(rows, ts[..j]);
      assert ts[..j][1..] == ts[1..][..j - 1];
    }
    if ts[0].write == RoundReset(e) {
      assert ts[..0] == [];
    }
    if Free(rows, ts, e) {
      var j :| 0 <= j < |ts| && ts[j].write == RoundReset(e) && Orderly(rows, ts[..j]);
      if j > 0 {
        assert ts[1..][j - 1] == ts[j];
      }
    }
    if (ts[0].write.BlockResolved? ==> ts[0].write.hash in rows) && Free(rows', ts[1..], e) {
      var j :| 0 <= j < |ts[1..]| && ts[1..][j].write == RoundReset(e) && Orderly(rows', ts[1..][..j]);
      assert ts[j + 1] == ts[1..][j];
    }
  }

  lemma FreeSnoc(rows: set<BlockHash>, ts: seq<Ticket>, t: Ticket, e: nat)
    requires t.write != RoundReset(e)
    ensures Free(rows, ts + [t], e) <==> Free(rows, ts, e)
  {
    hide Orderly;
    forall j | 0 <= j < |ts|
      ensures (ts + [t])[..j] == ts[..j] && (ts + [t])[j] == ts[j]
    {
    }
    if Free(rows, ts, e) {
      var j :| 0 <= j < |ts| && ts[j].write == RoundReset(e) && Orderly(rows, ts[..j]);
      assert (ts + [t])[j].write == RoundReset(e);
    }
    if Free(rows, ts + [t], e) {
      var j :| 0 <= j < |ts + [t]| && (ts + [t])[j].write == RoundReset(e) && Orderly(rows, (ts + [t])[..j]);
      assert ts[j].write == RoundReset(e);
    }
  }

  lemma TakeKeepsReset(p: Pipe, e: nat)
    requires p.queue != [] && Take(p, Healthy).lost == p.lost && EpochsWithin(p, e)
    ensures EpochsWithin(Take(p, Healthy), e) && (ResetLands(Take(p, Healthy), e) <==> ResetLands(p, e))
  {
    hide Take, Free, Has;
    TakeHealthy(p);
    HasHead(p.queue, e);
    if !Lands(p.db, p.queue[0].write) {
      FreeSnoc(Coming(p), p.backlog, p.queue[0], e);
    }
  }

  lemma RetryKeepsReset(p: Pipe, e: nat)
    requires p.backlog != [] && RetrySucceeds(p, Healthy) && EpochsWithin(p, e)
    ensures EpochsWithin(Retry(p, Healthy), e) && (ResetLands(Retry(p, Healthy), e) <==> ResetLands(p, e))
  {
    hide Retry, RetrySucceeds, Free, Has;
    RetryHealthy(p);
    FreeHead(Coming(p), p.backlog, e);
  }

  lemma {:induction false} PassKeepsReset(p: Pipe, e: nat)
    requires EpochsWithin(p, e)
    ensures EpochsWithin(Pass(p), e) && (ResetLands(Pass(p), e) <==> ResetLands(p, e))
    decreases |p.backlog|
  {
    hide Apply, ResetLands, EpochsWithin, Retry, RetrySucceeds;
    if p.backlog != [] {
      RetryHealthy(p);
      assert AllHealthy(|p.backlog|)[1..] == AllHealthy(|p.backlog| - 1);
      if RetrySucceeds(p, Healthy) {
        RetryKeepsReset(p, e);
        PassKeepsReset(Retry(p, Healthy), e);
      } else {
        FailedRetry(p);
      }
    }
  }

  /** Once the pass is stuck and the queue brings neither rows nor resets, only a landed reset lands. */
  lemma StuckReset(p: Pipe, e: nat)
    requires Stuck(p) && FoundIn(p.queue) == {} && !Has(p.queue, e)
    ensures ResetLands(p, e) <==> p.st.roundEpoch == e
  {
    hide Orderly;
    if p.backlog != [] {
      FreeHead(Coming(p), p.backlog, e);
    }
  }
}
