/** The single writer thread: a queue of writes, a backlog of failed durable ones, and the loop that
    retries the backlog before each new write. */
module Writer {
  import opened WorkHistory
  import opened Store

  /** A queued write with its position in the order of enqueueing. */
  datatype Ticket = Ticket(id: nat, write: StoreWrite)

  const MAX_WRITE_BACKLOG := 10000

  /** discarded holds failed writes that are not durable; lost holds durable ones dropped when the
      backlog overflowed since boot; dead holds what earlier runs of the process never applied. */
  datatype Pipe = Pipe(db: Db, st: WriterState, queue: seq<Ticket>, backlog: seq<Ticket>,
                       applied: seq<Ticket>, discarded: seq<Ticket>, lost: seq<Ticket>, dead: seq<Ticket>,
                       capped: seq<LedgerEntry>, nextId: nat)

  function Enqueue(p: Pipe, w: StoreWrite): Pipe {
    p.(queue := p.queue + [Ticket(p.nextId, w)], nextId := p.nextId + 1)
  }

  /** Park a failed durable write, dropping the oldest one when the backlog is full. */
  function Park(p: Pipe, t: Ticket): Pipe {
    if |p.backlog| >= MAX_WRITE_BACKLOG
    then p.(backlog := p.backlog[1..] + [t], lost := p.lost + [p.backlog[0]])
    else p.(backlog := p.backlog + [t])
  }

  /** The process stops with whatever has not been applied, and starts over on the same database. */
  function Restarted(p: Pipe): Pipe {
    p.(st := FreshWriter, queue := [], backlog := [], lost := [], dead := p.dead + p.lost + p.backlog + p.queue)
  }

  ghost function Handle(p: Pipe, t: Ticket, disk: Disk): Pipe {
    var r := Apply(p.db, p.st, t.write, disk);
    var q := p.(db := r.db, st := r.st, capped := p.capped + r.capped);
    if r.ok then q.(applied := q.applied + [t])
    else if IsDurable(t.write) then Park(q, t)
    else q.(discarded := q.discarded + [t])
  }

  /** Take the next write off the queue. */
  ghost function Take(p: Pipe, disk: Disk): Pipe
    requires p.queue != []
  {
    Handle(p.(queue := p.queue[1..]), p.queue[0], disk)
  }

  /** Re-attempt the oldest parked write; on failure it stays at the head. */
  ghost function Retry(p: Pipe, disk: Disk): Pipe
    requires p.backlog != []
  {
    var t := p.backlog[0];
    var r := Apply(p.db, p.st, t.write, disk);
    var q := p.(db := r.db, st := r.st, capped := p.capped + r.capped);
    if r.ok then q.(backlog := q.backlog[1..], applied := q.applied + [t]) else q
  }

  ghost predicate RetrySucceeds(p: Pipe, disk: Disk)
    requires p.backlog != []
  {
    Apply(p.db, p.st, p.backlog[0].write, disk).ok
  }

  /** One pass over the backlog, oldest first, stopping at the first failure. disks gives the disk's
      behaviour at each attempt. */
  ghost function RetryPass(p: Pipe, disks: seq<Disk>): Pipe
    requires |disks| <= |p.backlog|
    decreases |disks|
  {
    if disks == [] then p
    else if RetrySucceeds(p, disks[0]) then RetryPass(Retry(p, disks[0]), disks[1..])
    else Retry(p, disks[0])
  }

  // ---- atomic steps, and the loop as a run of them ----

  datatype WriterStep = Taking(disk: Disk) | Retrying(disk: Disk)

  ghost predicate Enabled(p: Pipe, s: WriterStep) {
    match s
    case Taking(_) => p.queue != []
    case Retrying(_) => p.backlog != []
  }

  ghost function Do(p: Pipe, s: WriterStep): Pipe
    requires Enabled(p, s)
  {
    match s
    case Taking(disk) => Take(p, disk)
    case Retrying(disk) => Retry(p, disk)
  }

  ghost predicate IsRun(p: Pipe, steps: seq<WriterStep>, q: Pipe)
    decreases |steps|
  {
    if steps == [] then p == q else Enabled(p, steps[0]) && IsRun(Do(p, steps[0]), steps[1..], q)
  }

  /** One iteration of the writer loop: a retry pass, then the received write if there was one. */
  ghost function Iteration(p: Pipe, disks: seq<Disk>, received: bool, disk: Disk): Pipe
    requires |disks| <= |p.backlog|
  {
    var q := RetryPass(p, disks);
    if received && q.queue != [] then Take(q, disk) else q
  }

  lemma {:induction false} RetryPassIsRun(p: Pipe, disks: seq<Disk>) returns (steps: seq<WriterStep>)
    requires |disks| <= |p.backlog|
    ensures IsRun(p, steps, RetryPass(p, disks))
    decreases |disks|
  {
    hide Apply;
    if disks == [] {
      steps := [];
    } else if RetrySucceeds(p, disks[0]) {
      var rest := RetryPassIsRun(Retry(p, disks[0]), disks[1..]);
      steps := [Retrying(disks[0])] + rest;
      assert steps[1..] == rest;
    } else {
      steps := [Retrying(disks[0])];
      assert steps[1..] == [];
    }
  }

  lemma {:induction false} RunThenStep(p: Pipe, steps: seq<WriterStep>, q: Pipe, s: WriterStep)
    requires IsRun(p, steps, q) && Enabled(q, s)
    ensures IsRun(p, steps + [s], Do(q, s))
    decreases |steps|
  {
    hide Take, Retry;
    if steps == [] {
      assert [s][1..] == [];
      assert steps + [s] == [s];
    } else {
      RunThenStep(Do(p, steps[0]), steps[1..], q, s);
      assert (steps + [s])[1..] == steps[1..] + [s];
    }
  }

  /** The loop refines the atomic steps, so whatever every step keeps, the writer thread keeps. */
  lemma IterationIsRun(p: Pipe, disks: seq<Disk>, received: bool, disk: Disk) returns (steps: seq<WriterStep>)
    requires |disks| <= |p.backlog|
    ensures IsRun(p, steps, Iteration(p, disks, received, disk))
  {
    hide Take, Retry, RetryPass;
    steps := RetryPassIsRun(p, disks);
    var q := RetryPass(p, disks);
    if received && q.queue != [] {
      RunThenStep(p, steps, q, Taking(disk));
      steps := steps + [Taking(disk)];
    }
  }

  // ---- where a write is after a step ----

  lemma ParkKeeps(p: Pipe, t: Ticket, u: Ticket)
    requires u in p.backlog || u == t || u in p.lost
    ensures u in Park(p, t).backlog || u in Park(p, t).lost
  {
    if u in p.backlog && |p.backlog| >= MAX_WRITE_BACKLOG {
      assert p.backlog == [p.backlog[0]] + p.backlog[1..];
    }
  }

  /** A write that is waiting and not applied by a step is still waiting, or lost, after it. */
  lemma StillThere(p: Pipe, a: WriterStep, u: Ticket)
    requires Enabled(p, a) && IsDurable(u.write)
    requires u in p.queue || u in p.backlog || u in p.lost
    ensures var (q, t) := (Do(p, a), if a.Taking? then p.queue[0] else p.backlog[0]);
            || u in q.queue || u in q.backlog || u in q.lost
            || (u == t && Apply(p.db, p.st, t.write, a.disk).ok)
  {
    hide Apply, Park;
    if a.Taking? {
      var t := p.queue[0];
      assert p.queue == [t] + p.queue[1..];
      var r := Apply(p.db, p.st, t.write, a.disk);
      if !r.ok && IsDurable(t.write) && (u in p.backlog || u == t || u in p.lost) {
        ParkKeeps(p.(queue := p.queue[1..], db := r.db, st := r.st, capped := p.capped + r.capped), t, u);
      } else if !r.ok && IsDurable(t.write) {
        ParkKeepsQueue(p.(queue := p.queue[1..], db := r.db, st := r.st, capped := p.capped + r.capped), t);
      }
    } else {
      assert p.backlog == [p.backlog[0]] + p.backlog[1..];
    }
  }

  lemma ParkKeepsQueue(p: Pipe, t: Ticket)
    ensures Park(p, t).queue == p.queue && Park(p, t).db == p.db && Park(p, t).st == p.st
  {
  }

  lemma StepStore(p: Pipe, a: WriterStep)
    requires Enabled(p, a)
    ensures var (q, t) := (Do(p, a), if a.Taking? then p.queue[0] else p.backlog[0]);
            var r := Apply(p.db, p.st, t.write, a.disk);
            q.db == r.db && q.st == r.st
  {
    hide Apply;
  }

  /** What a step does with the write it works on: applied if it succeeded; otherwise a retry leaves it
      parked, and a new one is parked if it is a record nothing can reconstruct and dropped if it is a
      snapshot or a watermark. */
  lemma StepSorts(p: Pipe, a: WriterStep)
    requires Enabled(p, a) && |p.backlog| < 10000
    ensures var (q, t) := (Do(p, a), if a.Taking? then p.queue[0] else p.backlog[0]);
            var ok := Apply(p.db, p.st, t.write, a.disk).ok;
            var snap := t.write.Snapshot? || t.write.Watermark?;
            && q.applied == (if ok then p.applied + [t] else p.applied)
            && q.discarded == (if a.Taking? && !ok && snap then p.discarded + [t] else p.discarded)
            && q.queue == (if a.Taking? then p.queue[1..] else p.queue)
            && q.backlog == (if a.Retrying? then (if ok then p.backlog[1..] else p.backlog)
                             else if !ok && !snap then p.backlog + [t] else p.backlog)
            && q.lost == p.lost
  {
    hide Apply;
  }

  // ---- exactly once ----

  function Ids(ts: seq<Ticket>): multiset<nat> {
    if ts == [] then multiset{} else Ids(ts[..|ts| - 1]) + multiset{ts[|ts| - 1].id}
  }

  function UpTo(n: nat): multiset<nat> {
    if n == 0 then multiset{} else UpTo(n - 1) + multiset{n - 1}
  }

  lemma {:induction false} IdsConcat(a: seq<Ticket>, b: seq<Ticket>)
    ensures Ids(a + b) == Ids(a) + Ids(b)
  {
    if b == [] {
      assert a + b == a;
    } else {
      assert (a + b)[..|a + b| - 1] == a + b[..|b| - 1];
      IdsConcat(a, b[..|b| - 1]);
    }
  }

  lemma IdsHead(ts: seq<Ticket>)
    requires ts != []
    ensures Ids(ts) == multiset{ts[0].id} + Ids(ts[1..])
  {
    var head := [ts[0]];
    assert ts == head + ts[1..];
    IdsConcat(head, ts[1..]);
    assert head[..0] == [];
  }

  lemma IdsSnoc(ts: seq<Ticket>, t: Ticket)
    ensures Ids(ts + [t]) == Ids(ts) + multiset{t.id}
  {
    assert (ts + [t])[..|ts|] == ts;
  }

  lemma {:induction false} UpToOnce(n: nat, i: nat)
    ensures UpTo(n)[i] == if i < n then 1 else 0
  {
    if n > 0 {
      UpToOnce(n - 1, i);
    }
  }

  ghost function Everywhere(p: Pipe): multiset<nat> {
    Ids(p.queue) + Ids(p.backlog) + Ids(p.applied) + Ids(p.discarded) + Ids(p.lost) + Ids(p.dead)
  }

  /** Each write ever enqueued is in exactly one place. Only durable writes are parked or lost, and
      the backlog is bounded. */
  ghost predicate PipeOk(p: Pipe) {
    && Everywhere(p) == UpTo(p.nextId)
    && |p.backlog| <= MAX_WRITE_BACKLOG
    && (forall i :: 0 <= i < |p.backlog| ==> IsDurable(p.backlog[i].write))
    && (forall i :: 0 <= i < |p.discarded| ==> !IsDurable(p.discarded[i].write))
  }

  lemma EnqueueOk(p: Pipe, w: StoreWrite)
    requires PipeOk(p)
    ensures PipeOk(Enqueue(p, w))
  {
    IdsSnoc(p.queue, Ticket(p.nextId, w));
  }

  /** PipeOk while one more write is in the thread's hands. */
  ghost predicate HoldingOk(p: Pipe, t: Ticket) {
    && Everywhere(p) + multiset{t.id} == UpTo(p.nextId)
    && |p.backlog| <= MAX_WRITE_BACKLOG
    && (forall i :: 0 <= i < |p.backlog| ==> IsDurable(p.backlog[i].write))
    && (forall i :: 0 <= i < |p.discarded| ==> !IsDurable(p.discarded[i].write))
  }

  lemma ParkOk(p: Pipe, t: Ticket)
    requires HoldingOk(p, t) && IsDurable(t.write)
    ensures PipeOk(Park(p, t))
  {
    hide UpTo, Ids;
    if |p.backlog| >= MAX_WRITE_BACKLOG {
      IdsHead(p.backlog);
      IdsSnoc(p.backlog[1..], t);
      IdsSnoc(p.lost, p.backlog[0]);
    } else {
      IdsSnoc(p.backlog, t);
    }
  }

  lemma HandleOk(p: Pipe, t: Ticket, disk: Disk)
    requires HoldingOk(p, t)
    ensures PipeOk(Handle(p, t, disk))
  {
    hide Apply, UpTo, Ids, Park;
    var r := Apply(p.db, p.st, t.write, disk);
    var q := p.(db := r.db, st := r.st, capped := p.capped + r.capped);
    assert HoldingOk(q, t);
    if r.ok {
      IdsSnoc(q.applied, t);
    } else if IsDurable(t.write) {
      ParkOk(q, t);
    } else {
      IdsSnoc(q.discarded, t);
    }
  }

  /** Exactly-once, step by step. */
  lemma StepOk(p: Pipe, s: WriterStep)
    requires PipeOk(p) && Enabled(p, s)
    ensures PipeOk(Do(p, s))
  {
    hide Apply, UpTo, Ids, Handle;
    match s
    case Taking(disk) =>
      IdsHead(p.queue);
      HandleOk(p.(queue := p.queue[1..]), p.queue[0], disk);
    case Retrying(disk) =>
      IdsHead(p.backlog);
      IdsSnoc(p.applied, p.backlog[0]);
  }

  // ---- when the backlog drains ----

  predicate FoundAmong(ts: seq<Ticket>, hash: BlockHash) {
    exists j :: 0 <= j < |ts| && ts[j].write.BlockFound? && ts[j].write.block.hash == hash
  }

  /** Every parked resolution has its block row on disk, or the row's insert parked ahead of it. */
  predicate Orderly(rows: set<BlockHash>, ts: seq<Ticket>) {
    forall i :: 0 <= i < |ts| && ts[i].write.BlockResolved? ==>
      ts[i].write.hash in rows || FoundAmong(ts[..i], ts[i].write.hash)
  }

  function RowsAfter(rows: set<BlockHash>, w: StoreWrite): set<BlockHash> {
    if w.BlockFound? then rows + {w.block.hash} else rows
  }

  lemma OrderlyStep(rows: set<BlockHash>, ts: seq<Ticket>)
    requires ts != []
    ensures Orderly(rows, ts) <==>
              (ts[0].write.BlockResolved? ==> ts[0].write.hash in rows)
                 && Orderly(RowsAfter(rows, ts[0].write), ts[1..])
  {
    var rows' := RowsAfter(rows, ts[0].write);
    forall i, hash | 1 <= i < |ts|
      ensures hash in rows || FoundAmong(ts[..i], hash) <==> hash in rows' || FoundAmong(ts[1..][..i - 1], hash)
    {
      assert ts[..i][1..] == ts[1..][..i - 1];
      assert ts[..i][0] == ts[0];
      FoundHead(ts[..i], hash);
    }
    if Orderly(rows, ts) {
      forall i | 0 <= i < |ts[1..]| && ts[1..][i].write.BlockResolved?
        ensures ts[1..][i].write.hash in rows' || FoundAmong(ts[1..][..i], ts[1..][i].write.hash)
      {
        assert ts[i + 1] == ts[1..][i];
      }
    }
    if (ts[0].write.BlockResolved? ==> ts[0].write.hash in rows) && Orderly(rows', ts[1..]) {
      forall i | 0 <= i < |ts| && ts[i].write.BlockResolved?
        ensures ts[i].write.hash in rows || FoundAmong(ts[..i], ts[i].write.hash)
      {
        if i > 0 {
          assert ts[i] == ts[1..][i - 1];
        }
      }
    }
  }

  lemma FoundHead(ts: seq<Ticket>, hash: BlockHash)
    requires ts != []
    ensures FoundAmong(ts, hash) <==>
            (ts[0].write.BlockFound? && ts[0].write.block.hash == hash) || FoundAmong(ts[1..], hash)
  {
    if j :| 0 <= j < |ts| && ts[j].write.BlockFound? && ts[j].write.block.hash == hash {
      if j > 0 {
        assert ts[1..][j - 1] == ts[j];
      }
    }
    if j :| 0 <= j < |ts[1..]| && ts[1..][j].write.BlockFound? && ts[1..][j].write.block.hash == hash {
      assert ts[j + 1] == ts[1..][j];
    }
  }

  function AllHealthy(n: nat): (r: seq<Disk>)
    ensures |r| == n
  {
    seq(n, _ => Healthy)
  }

  lemma HealthyRetry(p: Pipe)
    requires p.backlog != [] && IsDurable(p.backlog[0].write)
    ensures var w := p.backlog[0].write;
            && (RetrySucceeds(p, Healthy) <==> (w.BlockResolved? ==> w.hash in p.db.blocks))
            && (RetrySucceeds(p, Healthy) ==> Retry(p, Healthy).db.blocks.Keys == RowsAfter(p.db.blocks.Keys, w))
  {
    hide FileEntries, RollUp;
  }

  /** With the disk healthy again one pass empties the backlog exactly when no resolution is parked
      ahead of its own block. */
  lemma {:induction false} BacklogDrainsIff(p: Pipe)
    requires forall i :: 0 <= i < |p.backlog| ==> IsDurable(p.backlog[i].write)
    ensures RetryPass(p, AllHealthy(|p.backlog|)).backlog == [] <==> Orderly(p.db.blocks.Keys, p.backlog)
    decreases |p.backlog|
  {
    hide Apply;
    if p.backlog != [] {
      HealthyRetry(p);
      OrderlyStep(p.db.blocks.Keys, p.backlog);
      assert AllHealthy(|p.backlog|)[1..] == AllHealthy(|p.backlog| - 1);
      if RetrySucceeds(p, Healthy) {
        BacklogDrainsIff(Retry(p, Healthy));
      }
    }
  }

  /** A resolution at the head whose block row is neither on disk nor in the queue. */
  predicate Jammed(p: Pipe, hash: BlockHash) {
    && p.backlog != [] && p.backlog[0].write.BlockResolved? && p.backlog[0].write.hash == hash
    && hash !in p.db.blocks
    && !FoundAmong(p.queue, hash)
  }

  lemma ApplyLeavesRow(db: Db, st: WriterState, w: StoreWrite, disk: Disk, hash: BlockHash)
    requires hash !in db.blocks && !(w.BlockFound? && w.block.hash == hash)
    ensures hash !in Apply(db, st, w, disk).db.blocks
    ensures w.BlockResolved? && w.hash == hash ==> !Apply(db, st, w, disk).ok
  {
    hide FileEntries, RollUp;
  }

  // ---- everything that can happen to the pipe ----

  /** A new write arrives, or the thread takes a step. */
  datatype PipeEvent = Arriving(write: StoreWrite) | Working(step: WriterStep)

  ghost predicate Possible(p: Pipe, e: PipeEvent) {
    e.Working? ==> Enabled(p, e.step)
  }

  ghost function Happen(p: Pipe, e: PipeEvent): Pipe
    requires Possible(p, e)
  {
    match e
    case Arriving(write) => Enqueue(p, write)
    case Working(step) => Do(p, step)
  }

  ghost predicate IsHistory(p: Pipe, events: seq<PipeEvent>, q: Pipe)
    decreases |events|
  {
    if events == [] then p == q else Possible(p, events[0]) && IsHistory(Happen(p, events[0]), events[1..], q)
  }

  /** An event drops at most the head of the backlog, and only when ten thousand writes are parked. */
  lemma LostGrows(p: Pipe, e: PipeEvent)
    requires Possible(p, e)
    ensures var lost := Happen(p, e).lost; lost == p.lost || (|p.backlog| >= 10000 && lost == p.lost + [p.backlog[0]])
  {
    hide Apply;
  }

  lemma {:induction false} LostGrowsThroughout(p: Pipe, events: seq<PipeEvent>, q: Pipe)
    requires IsHistory(p, events, q)
    ensures p.lost <= q.lost
    decreases |events|
  {
    hide Happen;
    if events != [] {
      LostGrows(p, events[0]);
      LostGrowsThroughout(Happen(p, events[0]), events[1..], q);
    }
  }

  lemma JamStep(p: Pipe, e: PipeEvent, hash: BlockHash)
    requires Jammed(p, hash) && Possible(p, e) && Happen(p, e).lost == p.lost
    requires e.Arriving? && e.write.BlockFound? ==> e.write.block.hash != hash
    ensures Jammed(Happen(p, e), hash) && p.backlog <= Happen(p, e).backlog
  {
    hide Apply;
    match e
    case Arriving(write) =>
    case Working(Retrying(disk)) =>
      ApplyLeavesRow(p.db, p.st, p.backlog[0].write, disk, hash);
    case Working(Taking(disk)) =>
      FoundHead(p.queue, hash);
      ApplyLeavesRow(p.db, p.st, p.queue[0].write, disk, hash);
  }

  /** Head-of-line deadlock: once jammed, however long the thread runs, whatever the disk does and
      whatever else arrives, no parked write lands, the block's own parked row included. The one way
      out is an overflow, and the first write it drops is the resolution at the head. */
  lemma {:induction false} JamHoldsEverything(p: Pipe, events: seq<PipeEvent>, q: Pipe, hash: BlockHash)
    requires Jammed(p, hash) && IsHistory(p, events, q)
    requires forall i :: 0 <= i < |events| && events[i].Arriving? && events[i].write.BlockFound? ==>
      events[i].write.block.hash != hash
    ensures q.lost == p.lost ==> Jammed(q, hash) && p.backlog <= q.backlog
    ensures q.lost != p.lost ==> p.lost + [p.backlog[0]] <= q.lost
    decreases |events|
  {
    hide Happen, FoundAmong;
    if events != [] {
      var n := Happen(p, events[0]);
      LostGrows(p, events[0]);
      LostGrowsThroughout(n, events[1..], q);
      if n.lost == p.lost {
        JamStep(p, events[0], hash);
        JamHoldsEverything(n, events[1..], q, hash);
      }
    }
  }

  const EmptyPipe := Pipe(EmptyDb, FreshWriter, [], [], [], [], [], [], [], 0)
}
