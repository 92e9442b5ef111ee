/** The round across a shutdown: the writer loop drains what is queued, the final snapshot with it, and
    the next boot reads the round back. Parked resets decide whether it is the right one. */
module Shutdown {
  import opened Bytes
  import opened Options
  import opened Store
  import opened Writer
  import opened WorkHistory
  import opened Drain
  import opened Round

  predicate ResetsDone(c: Core) {
    forall i :: 0 <= i < |c.resets| ==> c.resets[i].ResetDone?
  }

  /** No reset, snapshot or new block among them. */
  predicate Plain(ts: seq<Ticket>) {
    forall t :: t in ts ==> !t.write.RoundReset? && !t.write.Snapshot? && !t.write.BlockFound?
  }

  /** Disk and memory agree on the round and its epoch. */
  ghost predicate Agrees(c: Core, p: Pipe) {
    p.st.roundEpoch == c.mem.epoch && p.db.round == View(c.mem)
  }

  lemma {:induction false} PassBounded(c: Core, p: Pipe)
    requires SysOk(Sys(c, p))
    ensures SysOk(Sys(c, Pass(p)))
    decreases |p.backlog|
  {
    hide Apply, SysOk, Retry, RetrySucceeds;
    if p.backlog != [] {
      RetryHealthy(p);
      WriterBounded(c, p, Retrying(Healthy));
      assert AllHealthy(|p.backlog|)[1..] == AllHealthy(|p.backlog| - 1);
      if RetrySucceeds(p, Healthy) {
        PassBounded(c, Retry(p, Healthy));
      } else {
        FailedRetry(p);
      }
    }
  }

  lemma OkEpochs(c: Core, p: Pipe)
    requires SysOk(Sys(c, p))
    ensures EpochsWithin(p, c.mem.epoch)
  {
    hide CoreOk, Bounded;
    BoundedEpoch(c, p.st.roundEpoch, p.db.round);
    forall t | (t in p.queue || t in p.backlog) && t.write.RoundReset?
      ensures t.write.epoch <= c.mem.epoch
    {
      assert WriteOk(c, t.write);
    }
  }

  /** The final snapshot's turn: it lands if and only if its epoch's reset has. */
  lemma SnapshotTurn(c: Core, p: Pipe)
    requires SysOk(Sys(c, p)) && Exact(c) && ResetsDone(c) && Stuck(p)
    requires p.queue != [] && p.queue[0].write == Snapshot(c.mem.epoch, View(c.mem)) && Plain(p.queue[1..])
    requires Take(p, Healthy).lost == p.lost
    ensures var q := Take(p, Healthy); Stuck(q) && (Agrees(c, q) <==> ResetLands(p, c.mem.epoch))
  {
    hide Apply, Take, CoreOk, Bounded, Exact, View, ResetLands;
    var (e, t, q) := (c.mem.epoch, p.queue[0], Take(p, Healthy));
    TakeHealthy(p);
    assert p.queue == [t] + p.queue[1..];
    StuckReset(p, e);
    WriterBounded(c, p, Taking(Healthy));
    if p.st.roundEpoch == e {
      StepStore(p, Taking(Healthy));
      HealthySnapshot(p.db, p.st, t.write);
      BoundedByView(c, q.db.round);
    }
  }

  /** What follows it changes neither the round nor what is stuck. */
  lemma {:induction false} RestOfLoop(c: Core, p: Pipe)
    requires Stuck(p) && Plain(p.queue) && Loop(p).lost == p.lost
    ensures Stuck(Loop(p)) && (Agrees(c, Loop(p)) <==> Agrees(c, p))
    decreases |p.queue|
  {
    hide Apply, Take, View;
    if p.queue != [] {
      var q := Take(p, Healthy);
      StuckPass(p);
      TakeLoses(p);
      LoopLoses(q);
      TakeHealthy(p);
      assert p.queue[0] in p.queue;
      RestOfLoop(c, q);
    }
  }

  lemma {:induction false} LoopAgreesIff(c: Core, p: Pipe, k: nat)
    requires SysOk(Sys(c, p)) && Exact(c) && ResetsDone(c) && Loop(p).lost == p.lost
    requires k < |p.queue| && p.queue[k].write == Snapshot(c.mem.epoch, View(c.mem)) && Plain(p.queue[k + 1..])
    ensures Stuck(Loop(p)) && (Agrees(c, Loop(p)) <==> ResetLands(p, c.mem.epoch))
    decreases k
  {
    hide Apply, Take, SysOk, Exact, View, ResetLands, EpochsWithin, Agrees, Pass;
    var (e, n) := (c.mem.epoch, Pass(p));
    var q := Take(n, Healthy);
    PassBounded(c, p);
    OkEpochs(c, p);
    PassKeepsReset(p, e);
    PassKeepsAll(p);
    TakeLoses(n);
    assert Loop(p) == Loop(q) by { LoopStep(p); }
    LoopLoses(q);
    if k == 0 {
      SnapshotTurn(c, n);
      RestOfLoop(c, q);
    } else {
      TakeKeepsReset(n, e);
      WriterBounded(c, n, Taking(Healthy));
      assert q.queue[k..] == p.queue[k + 1..];
      LoopAgreesIff(c, q, k - 1);
    }
  }

  lemma LoopStep(p: Pipe)
    requires p.queue != []
    ensures Loop(p) == Loop(Take(Pass(p), Healthy))
  {
    hide Apply, Take;
  }

  /** The shutdown's queue, behind whatever was already waiting. */
  lemma ShutdownQueued(s: Sys, behind: seq<StoreWrite>)
    requires SysOk(s)
    requires forall i :: 0 <= i < |behind| ==> !behind[i].RoundReset? && !behind[i].Snapshot? && !behind[i].BlockFound?
    ensures var (p, n, e) := (ShutdownQueue(s, behind), |s.pipe.queue|, s.core.mem.epoch);
            && n < |p.queue| && p.queue[n].write == Snapshot(e, View(s.core.mem)) && Plain(p.queue[n + 1..])
            && SysOk(Sys(s.core, p)) && p.lost == s.pipe.lost
            && (ResetLands(p, e) <==> ResetLands(s.pipe, e))
  {
    hide CoreOk, View, Lowest, EnqueueAll, Free, Bounded;
    var (c, e, n) := (s.core, s.core.mem.epoch, |s.pipe.queue|);
    var first := Enqueue(s.pipe, Snapshot(e, View(c.mem)));
    var p := ShutdownQueue(s, behind);
    EnqueuedAll(first, behind);
    ViewIsBounded(c);
    var tail := p.queue[n..];
    assert p.queue == s.pipe.queue + tail by { assert p.queue[..n] == first.queue[..n] == s.pipe.queue; }
    assert tail[0] == p.queue[..n + 1][n];
    forall i | 0 <= i < |tail|
      ensures WriteOk(c, tail[i].write) && !tail[i].write.RoundReset? && !tail[i].write.BlockFound?
      ensures i > 0 ==> !tail[i].write.Snapshot?
    {
      if i > 0 {
        assert p.queue[|first.queue| + (i - 1)].write == behind[i - 1];
      }
    }
    assert FoundIn(p.queue) == FoundIn(s.pipe.queue);
    assert Coming(p) == Coming(s.pipe);
    assert Has(p.queue, e) <==> Has(s.pipe.queue, e);
    assert p.queue[n + 1..] == tail[1..];
  }

  /** A shutdown on a healthy disk leaves the disk equal to memory, and the next boot with the same
      round, if and only if the reset that began the current epoch has landed, is queued, or is parked
      with no stuck resolution ahead of it. Older resets may be parked anywhere. */
  lemma ShutdownExactIff(s: Sys, behind: seq<StoreWrite>)
    requires Settling(s) && ResetsDone(s.core)
    requires forall i :: 0 <= i < |behind| ==> !behind[i].RoundReset? && !behind[i].Snapshot? && !behind[i].BlockFound?
    requires Loop(ShutdownQueue(s, behind)).lost == s.pipe.lost
    ensures var q := Flushed(ShutdownQueue(s, behind));
            && (q.st.roundEpoch == s.core.mem.epoch && q.db.round == View(s.core.mem) <==>
               ResetLands(s.pipe, s.core.mem.epoch))
            && (q.db.round == View(s.core.mem) ==> View(BootCore(q.db.round).mem) == View(s.core.mem))
    ensures !ResetLands(s.pipe, s.core.mem.epoch) ==>
            Has(s.pipe.lost, s.core.mem.epoch) || Has(s.pipe.backlog, s.core.mem.epoch)
  {
    hide SysOk, Exact, View, Life, BootCore, Loop, ShutdownQueue, Free, Has;
    var p := ShutdownQueue(s, behind);
    ShutdownQueued(s, behind);
    LoopAgreesIff(s.core, p, |s.pipe.queue|);
    StuckPass(Loop(p));
    BootView(View(s.core.mem));
    ViewFits(s.core.mem);
  }

  // ---- runs that need the condition ----

  /** Memory after a reset nobody interrupts. */
  function Fresh(m: Mem): Mem {
    m.(offset := Pair(Life(m, Acc), Life(m, Rej)), work := 0, wiped := m.wiped + m.work, epoch := m.epoch + 1)
  }

  /** One step of the newest reset. */
  lemma ResetAlone(o: Sys, acts: seq<SysStep>, s: Sys, t: ResetTask, m: Mem, next: ResetTask)
    returns (more: seq<SysStep>, s': Sys)
    requires Reaches(o, acts, s) && NoRestart(acts) && s.core.resets != [] && !t.Bumped?
    requires s.core.resets[|s.core.resets| - 1] == t
    requires var d := StepReset(s.core, |s.core.resets| - 1); d.mem == m && d.resets[|s.core.resets| - 1] == next
    ensures Reaches(o, more, s') && NoRestart(more) && s'.pipe == s.pipe && s'.core.snaps == s.core.snaps
    ensures s'.core.mem == m && s'.core.resets == s.core.resets[..|s.core.resets| - 1] + [next]
  {
    hide Reaches, Life, Lowest;
    var i := |s.core.resets| - 1;
    more := ReachesThen(o, acts, s, Memory(ResetStep(i)));
    s' := Next(s, Memory(ResetStep(i)));
    assert s'.core.resets == s.core.resets[i := next];
  }

  lemma FullReset(o: Sys, acts: seq<SysStep>, s: Sys) returns (more: seq<SysStep>, s': Sys)
    requires Reaches(o, acts, s) && NoRestart(acts)
    ensures Reaches(o, more, s') && NoRestart(more)
    ensures s'.core.mem == Fresh(s.core.mem) && s'.core.resets == s.core.resets + [ResetDone]
    ensures s'.core.snaps == s.core.snaps && s'.pipe == Enqueue(s.pipe, RoundReset(s.core.mem.epoch + 1))
  {
    hide Reaches, Life, Lowest;
    var (m, i) := (s.core.mem, |s.core.resets|);
    var (a, r) := (Life(m, Acc), Life(m, Rej));
    more := ReachesThen(o, acts, s, Memory(StartReset));
    s' := Next(s, Memory(StartReset));
    var m1 := m.(offset := m.offset.(acc := a));
    var m2 := m.(offset := Pair(a, r));
    var m3 := m2.(work := 0, wiped := m.wiped + m.work);
    LifeSame(m, m1);
    more, s' := ResetAlone(o, more, s', AccLoaded(a), m1, AccStored(a));
    more, s' := ResetAlone(o, more, s', AccStored(a), m1, RejLoaded(a, r));
    more, s' := ResetAlone(o, more, s', RejLoaded(a, r), m2, RejStored(a, r));
    more, s' := ResetAlone(o, more, s', RejStored(a, r), m3, Zeroed(a, r, m3.wiped));
    more, s' := ResetAlone(o, more, s', Zeroed(a, r, m3.wiped), Fresh(m), Bumped(m.epoch + 1));
    more := ReachesThen(o, more, s', Memory(ResetStep(i)));
    s' := Next(s', Memory(ResetStep(i)));
  }

  lemma LifeSame(m: Mem, n: Mem)
    requires m.base == n.base && m.count == n.count
    ensures Life(m, Acc) == Life(n, Acc) && Life(m, Rej) == Life(n, Rej)
  {
  }

  lemma FreshView(m: Mem)
    ensures View(Fresh(m)) == Store.Round(0, 0, 0)
    ensures Life(m, Acc) < U64_MAX ==> View(Counting(Fresh(m))) == Store.Round(1, 0, 0)
  {
  }

  /** One more accepted share. */
  function Counting(m: Mem): Mem {
    m.(count := Put(m.count, Acc, m.count.acc + 1))
  }

  /** The loop retries before each write it takes; a failing disk leaves the parked reset where it is. */
  lemma RetryFails(o: Sys, acts: seq<SysStep>, s: Sys) returns (more: seq<SysStep>)
    requires Reaches(o, acts, s) && NoRestart(acts) && s.pipe.backlog != [] && s.pipe.backlog[0].write.RoundReset?
    ensures Reaches(o, more, s) && NoRestart(more)
  {
    hide Reaches;
    more := ReachesThen(o, acts, s, Writing(Retrying(Broken(0))));
    assert s.pipe.capped + [] == s.pipe.capped;
  }

  /** Nothing waits and nothing is under way. */
  predicate Idle(s: Sys) {
    s.pipe.queue == [] && s.pipe.backlog == [] && s.pipe.st.roundEpoch == s.core.mem.epoch && ResetsDone(s.core)
  }

  /** Two resets, the first parked by a failing disk and overtaken by the second. */
  lemma Overtaken(s: Sys) returns (acts: seq<SysStep>, s': Sys)
    requires Idle(s)
    ensures Reaches(s, acts, s') && NoRestart(acts) && ResetsDone(s'.core)
    ensures s'.core.mem == Fresh(Fresh(s.core.mem)) && s'.pipe.st.roundEpoch == s.core.mem.epoch + 2
    ensures s'.pipe.queue == [] && |s'.pipe.backlog| == 1
            && s'.pipe.backlog[0].write == RoundReset(s.core.mem.epoch + 1)
    ensures s'.pipe.db.round == Store.Round(0, 0, 0)
  {
    hide Reaches, Life;
    ReachesNothing(s);
    acts, s' := FullReset(s, [], s);
    acts := ReachesThen(s, acts, s', Writing(Taking(Broken(0))));
    s' := Next(s', Writing(Taking(Broken(0))));
    acts, s' := FullReset(s, acts, s');
    acts := RetryFails(s, acts, s');
    acts := ReachesThen(s, acts, s', Writing(Taking(Healthy)));
    s' := Next(s', Writing(Taking(Healthy)));
  }

  /** An older reset that was overtaken lands late and wipes the newer round: from every idle state
      some run ends idle again with a share in memory's round and none in the disk's. */
  lemma LateResetWipes(s: Sys) returns (acts: seq<SysStep>, s': Sys)
    requires Idle(s) && Life(s.core.mem, Acc) < U64_MAX
    ensures Reaches(s, acts, s') && NoRestart(acts) && Idle(s')
    ensures View(s'.core.mem) == Store.Round(1, 0, 0) && s'.pipe.db.round == Store.Round(0, 0, 0)
  {
    hide Reaches, Life, View;
    acts, s' := Overtaken(s);
    var m := Fresh(s.core.mem);
    LifeSame(s.core.mem, m);
    FreshView(m);
    acts := ReachesThen(s, acts, s', Memory(CountShare(Acc)));
    s' := Next(s', Memory(CountShare(Acc)));
    assert s'.core.mem == Counting(Fresh(m));
    acts, s' := SnapshotQueued(s, acts, s');
    acts := RetryFails(s, acts, s');
    acts := ReachesThen(s, acts, s', Writing(Taking(Healthy)));
    s' := Next(s', Writing(Taking(Healthy)));
    assert s'.pipe.db.round == Store.Round(1, 0, 0);
    acts := ReachesThen(s, acts, s', Writing(Retrying(Healthy)));
    s' := Next(s', Writing(Retrying(Healthy)));
  }

  /** A round ends behind a jam: its reset, and then the row of the block that ended it, are parked
      behind a resolution whose own row never came. */
  lemma ResetBehindJam(s: Sys, hash: BlockHash, r: Resolution, b: Block) returns (acts: seq<SysStep>, s': Sys)
    requires Idle(s) && hash !in s.pipe.db.blocks
    ensures Reaches(s, acts, s') && NoRestart(acts) && ResetsDone(s'.core) && s'.core.mem == Fresh(s.core.mem)
    ensures s'.pipe.queue == [] && s'.pipe.db == s.pipe.db && s'.pipe.st.roundEpoch == s.core.mem.epoch
    ensures |s'.pipe.backlog| == 3 && s'.pipe.backlog[0].write == BlockResolved(hash, r)
    ensures s'.pipe.backlog[2].write == BlockFound(b)
  {
    hide Reaches, Life, View;
    ReachesNothing(s);
    acts := ReachesThen(s, [], s, Other(BlockResolved(hash, r)));
    s' := Next(s, Other(BlockResolved(hash, r)));
    acts := ReachesThen(s, acts, s', Writing(Taking(Healthy)));
    s' := Next(s', Writing(Taking(Healthy)));
    acts, s' := FullReset(s, acts, s');
    acts, s' := JamFails(s, acts, s');
    acts := ReachesThen(s, acts, s', Writing(Taking(Broken(0))));
    s' := Next(s', Writing(Taking(Broken(0))));
    acts := ReachesThen(s, acts, s', Other(BlockFound(b)));
    s' := Next(s', Other(BlockFound(b)));
    acts, s' := JamFails(s, acts, s');
    acts := ReachesThen(s, acts, s', Writing(Taking(Broken(0))));
    s' := Next(s', Writing(Taking(Broken(0))));
  }

  /** The retry pass before a write stops at the jam. */
  lemma JamFails(o: Sys, acts: seq<SysStep>, s: Sys) returns (more: seq<SysStep>, s': Sys)
    requires Reaches(o, acts, s) && NoRestart(acts) && s.pipe.backlog != [] && Stuck(s.pipe)
    ensures s' == s && Reaches(o, more, s) && NoRestart(more)
  {
    hide Reaches;
    s' := s;
    more := ReachesThen(o, acts, s, Writing(Retrying(Healthy)));
    FailedRetry(s.pipe);
  }

  /** A shutdown from there, on a healthy disk, leaves the finished round on disk, and no row by which
      the next boot could tell that it ended. */
  lemma FinishedRoundComesBack(s: Sys, hash: BlockHash, r: Resolution, b: Block)
    returns (acts: seq<SysStep>, s': Sys)
    requires Idle(s) && hash !in s.pipe.db.blocks
    ensures Reaches(s, acts, s') && NoRestart(acts) && ResetsDone(s'.core) && s'.pipe.queue == []
    ensures !ResetLands(s'.pipe, s'.core.mem.epoch) && View(s'.core.mem) == Store.Round(0, 0, 0)
    ensures Flushed(ShutdownQueue(s', [])).db == s.pipe.db
  {
    hide Reaches, Life, View, ShutdownQueue, Flushed, ResetLands;
    acts, s' := ResetBehindJam(s, hash, r, b);
    FreshView(s.core.mem);
    assert FoundIn(s'.pipe.queue) == {};
    StuckReset(s'.pipe, s'.core.mem.epoch);
    StaleSnapshot(s');
  }

  /** A stuck backlog and a snapshot ahead of its reset: the shutdown leaves the disk as it is. */
  lemma StaleSnapshot(s: Sys)
    requires Stuck(s.pipe) && s.pipe.queue == [] && s.pipe.st.roundEpoch != s.core.mem.epoch
    ensures Flushed(ShutdownQueue(s, [])).db == s.pipe.db
  {
    hide View;
    var p := ShutdownQueue(s, []);
    StuckPass(p);
    var q := Take(p, Healthy);
    assert q.queue == [] && q.db == p.db && q.backlog == p.backlog;
    StuckPass(q);
    LoopStep(p);
  }
}
