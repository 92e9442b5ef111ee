/** Found blocks: in-memory counters against the found-block table, over every interleaving of
    outcomes, resolutions, the writer's retries and restarts. */
module Blocks {
  import opened Options
  import opened Store
  import opened Writer
  import opened WorkHistory

  // ---- the table, counted ----

  type BlockRows = map<BlockHash, BlockRow>

  datatype Column = FoundSum | OrphanedSum | InconclusiveSum

  /** The three case expressions the recount sums. */
  predicate In(r: BlockRow, c: Column) {
    match c
    case FoundSum =>
      (r.block.wonAtSubmit && r.resolution != Some(Orphaned))
         || (!r.block.wonAtSubmit && r.resolution == Some(Confirmed))
    case OrphanedSum => r.block.wonAtSubmit && r.resolution == Some(Orphaned)
    case InconclusiveSum => !r.block.wonAtSubmit && r.resolution != Some(Confirmed)
  }

  datatype Counts = Counts(found: nat, orphaned: nat, inconclusive: nat)

  ghost function Chosen(rows: BlockRows, c: Column): set<BlockHash> {
    set h | h in rows && In(rows[h], c)
  }

  /** The recount a boot runs over the table. */
  ghost function Recount(rows: BlockRows): Counts {
    Counts(|Chosen(rows, FoundSum)|, |Chosen(rows, OrphanedSum)|, |Chosen(rows, InconclusiveSum)|)
  }

  function One(b: bool): nat {
    if b then 1 else 0
  }

  lemma DropCounts(rows: BlockRows, h: BlockHash, c: Column)
    ensures |Chosen(rows, c)| == |Chosen(rows - {h}, c)| + One(h in rows && In(rows[h], c))
  {
    hide In;
    assert Chosen(rows - {h}, c) == Chosen(rows, c) - {h};
    CardDrop(Chosen(rows, c), h);
  }

  lemma CardDrop(s: set<BlockHash>, h: BlockHash)
    ensures |s| == |s - {h}| + One(h in s)
  {
    if h in s {
      assert s == (s - {h}) + {h};
    } else {
      assert s == s - {h};
    }
  }

  lemma PutCounts(rows: BlockRows, h: BlockHash, r: BlockRow, c: Column)
    ensures |Chosen(rows[h := r], c)| + One(h in rows && In(rows[h], c)) == |Chosen(rows, c)| + One(In(r, c))
  {
    hide In, Chosen;
    DropCounts(rows, h, c);
    DropCounts(rows[h := r], h, c);
    assert rows[h := r] - {h} == rows - {h};
  }

  /** Each row counts exactly once. */
  lemma RecountCovers(rows: BlockRows)
    ensures Recount(rows).found + Recount(rows).orphaned + Recount(rows).inconclusive == |rows|
  {
    var (f, o, i) := (Chosen(rows, FoundSum), Chosen(rows, OrphanedSum), Chosen(rows, InconclusiveSum));
    assert f + o + i == rows.Keys by {
      forall h | h in rows
        ensures h in f + o + i
      {
        var r := rows[h];
        assert In(r, FoundSum) || In(r, OrphanedSum) || In(r, InconclusiveSum);
      }
    }
    Disjoint(rows);
    DisjointSum(f, o, i);
  }

  lemma Disjoint(rows: BlockRows)
    ensures Chosen(rows, FoundSum) !! Chosen(rows, OrphanedSum)
    ensures (Chosen(rows, FoundSum) + Chosen(rows, OrphanedSum)) !! Chosen(rows, InconclusiveSum)
  {
  }

  lemma DisjointSum(f: set<BlockHash>, o: set<BlockHash>, i: set<BlockHash>)
    requires f !! o && (f + o) !! i
    ensures |f + o + i| == |f| + |o| + |i|
  {
  }

  // ---- the system ----

  /** An outcome on its way through record_block_outcome, or a resolution on its way through
      resolve_block, after each of its steps. */
  datatype Task =
    | Reported(block: Block)
    | Enrolled(block: Block)
    | Removed(block: Block, resolution: Resolution)
    | Counted(block: Block, resolution: Resolution)
    | Finished

  /** seen holds the copies confirmation sweeps have taken of pending blocks. booked is the row each
      reported block is owed and reports the hashes reported or loaded since boot; no operation
      reads these two. */
  datatype Sys = Sys(counts: Counts, pending: map<BlockHash, Block>, seen: set<Block>, tasks: seq<Task>,
                     booked: BlockRows, reports: multiset<BlockHash>, pipe: Pipe)

  datatype Action =
    | Report(block: Block)
    | Look(hash: BlockHash)
    | Resolve(block: Block, resolution: Resolution)
    | Go(i: nat)
    | Other(write: StoreWrite)
    | Writing(step: WriterStep)
    | Restart

  predicate IsBlockWrite(w: StoreWrite) {
    w.BlockFound? || w.BlockResolved?
  }

  ghost predicate CanDo(s: Sys, a: Action) {
    match a
    case Report(_) => true
    case Look(hash) => hash in s.pending
    case Resolve(block, _) => block in s.seen
    case Go(i) => i < |s.tasks|
    case Other(write) => !IsBlockWrite(write)
    case Writing(step) => Enabled(s.pipe, step)
    case Restart => true
  }

  function Less1(n: nat): nat {
    if n == 0 then 0 else n - 1
  }

  /** A submit outcome moves one counter. */
  function CountReport(c: Counts, won: bool): Counts {
    if won then c.(found := c.found + 1) else c.(inconclusive := c.inconclusive + 1)
  }

  /** A resolution that contradicts the submit-time verdict moves two. */
  function CountResolution(c: Counts, won: bool, r: Resolution): Counts {
    if won && r.Orphaned? then c.(orphaned := c.orphaned + 1, found := Less1(c.found))
    else if !won && r.Confirmed? then c.(inconclusive := Less1(c.inconclusive), found := c.found + 1)
    else c
  }

  /** The next step of task i. */
  function GoOn(s: Sys, i: nat): Sys
    requires i < |s.tasks|
  {
    match s.tasks[i]
    case Reported(b) =>
      // the first enrolment of a hash wins
      if b.hash in s.pending then s.(tasks := s.tasks[i := Finished])
      else s.(pending := s.pending[b.hash := b], tasks := s.tasks[i := Enrolled(b)])
    case Enrolled(b) => s.(pipe := Enqueue(s.pipe, BlockFound(b)), tasks := s.tasks[i := Finished])
    case Removed(b, r) =>
      s.(counts := CountResolution(s.counts, b.wonAtSubmit, r), tasks := s.tasks[i := Counted(b, r)],
         booked := if b.hash in s.booked
                   then s.booked[b.hash := s.booked[b.hash].(resolution := Some(r))]
                   else s.booked)
    case Counted(b, r) => s.(pipe := Enqueue(s.pipe, BlockResolved(b.hash, r)), tasks := s.tasks[i := Finished])
    case Finished => s
  }

  /** A boot recounts the table and reloads the rows still open. */
  ghost function Booted(s: Sys): Sys {
    var rows := s.pipe.db.blocks;
    Sys(Recount(rows), map h | h in rows && rows[h].resolution.None? :: rows[h].block, {}, [],
        rows, multiset(rows.Keys), Restarted(s.pipe))
  }

  ghost function Next(s: Sys, a: Action): Sys
    requires CanDo(s, a)
  {
    match a
    case Report(b) =>
      s.(counts := CountReport(s.counts, b.wonAtSubmit), tasks := s.tasks + [Reported(b)],
         booked := if b.hash in s.booked then s.booked else s.booked[b.hash := BlockRow(b, None)],
         reports := s.reports + multiset{b.hash})
    case Look(hash) => s.(seen := s.seen + {s.pending[hash]})
    case Resolve(b, r) =>
      if b.hash in s.pending then s.(pending := s.pending - {b.hash}, tasks := s.tasks + [Removed(b, r)]) else s
    case Go(i) => GoOn(s, i)
    case Other(write) => s.(pipe := Enqueue(s.pipe, write))
    case Writing(step) => s.(pipe := Do(s.pipe, step))
    case Restart => Booted(s)
  }

  // ---- what every run keeps ----

  predicate QueueKnown(ts: seq<Ticket>, reports: multiset<BlockHash>) {
    forall t :: t in ts && t.write.BlockFound? ==> t.write.block.hash in reports
  }

  /** Every report moved a counter for good, and only reported blocks have rows. */
  ghost predicate Loose(s: Sys) {
    && |s.reports| <= s.counts.found + s.counts.orphaned + s.counts.inconclusive
    && (forall h :: h in s.pipe.db.blocks ==> h in s.reports && s.pipe.db.blocks[h].block.hash == h)
    && QueueKnown(s.pipe.queue, s.reports) && QueueKnown(s.pipe.backlog, s.reports)
    && (forall i :: 0 <= i < |s.tasks| && (s.tasks[i].Reported? || s.tasks[i].Enrolled?) ==>
       s.tasks[i].block.hash in s.reports)
  }

  /** What one write can do to the block table. */
  lemma ApplyBlocks(db: Db, st: WriterState, w: StoreWrite, disk: Disk)
    ensures var r := Apply(db, st, w, disk);
            || (r.db.blocks == db.blocks
                && (w.BlockFound? && r.ok ==> w.block.hash in db.blocks)
                && (w.BlockResolved? && r.ok ==> w.hash in db.blocks && db.blocks[w.hash].resolution.Some?))
            || (w.BlockFound? && r.ok && w.block.hash !in db.blocks
                && r.db.blocks == db.blocks[w.block.hash := BlockRow(w.block, None)])
            || (w.BlockResolved? && r.ok && w.hash in db.blocks && db.blocks[w.hash].resolution.None?
                && r.db.blocks == db.blocks[w.hash := db.blocks[w.hash].(resolution := Some(w.resolution))])
  {
    hide FileEntries, RollUp;
  }

  lemma StepWaits(p: Pipe, a: WriterStep)
    requires Enabled(p, a)
    ensures forall u :: u in Do(p, a).queue || u in Do(p, a).backlog ==> u in p.queue || u in p.backlog
  {
    hide Apply;
  }

  lemma WritingLoose(s: Sys, a: WriterStep)
    requires Loose(s) && Enabled(s.pipe, a)
    ensures Loose(Next(s, Writing(a)))
  {
    hide Apply, Do;
    var p := s.pipe;
    var t := if a.Taking? then p.queue[0] else p.backlog[0];
    assert t in p.queue || t in p.backlog;
    StepStore(p, a);
    StepWaits(p, a);
    ApplyBlocks(p.db, p.st, t.write, a.disk);
  }

  lemma BootLoose(s: Sys)
    requires Loose(s)
    ensures Loose(Booted(s))
  {
    hide Recount;
    RecountCovers(s.pipe.db.blocks);
    assert |multiset(s.pipe.db.blocks.Keys)| == |s.pipe.db.blocks|;
  }

  lemma GoLoose(s: Sys, i: nat)
    requires Loose(s) && i < |s.tasks|
    ensures Loose(GoOn(s, i))
  {
    var t := s.tasks[i];
    if t.Enrolled? {
      KnownSnoc(s.pipe, BlockFound(t.block), s.reports);
    } else if t.Counted? {
      KnownSnoc(s.pipe, BlockResolved(t.block.hash, t.resolution), s.reports);
    }
    hide QueueKnown;
  }

  lemma KnownSnoc(p: Pipe, w: StoreWrite, reports: multiset<BlockHash>)
    requires QueueKnown(p.queue, reports) && (w.BlockFound? ==> w.block.hash in reports)
    ensures QueueKnown(Enqueue(p, w).queue, reports)
  {
  }

  lemma StepLoose(s: Sys, a: Action)
    requires Loose(s) && CanDo(s, a)
    ensures Loose(Next(s, a))
  {
    hide Do, Booted, GoOn;
    match a
    case Report(b) =>
    case Look(_) =>
    case Resolve(_, _) =>
    case Go(i) => GoLoose(s, i);
    case Other(_) =>
    case Writing(step) => WritingLoose(s, step);
    case Restart => BootLoose(s);
  }

  // ---- what a run without repeated reports keeps ----

  ghost predicate NoRepeat(reports: multiset<BlockHash>) {
    forall h :: reports[h] <= 1
  }

  predicate Owed(booked: BlockRows, b: Block) {
    b.hash in booked && booked[b.hash].block == b
  }

  predicate OwedOpen(booked: BlockRows, b: Block) {
    b.hash in booked && booked[b.hash] == BlockRow(b, None)
  }

  predicate TaskOk(booked: BlockRows, pending: map<BlockHash, Block>, t: Task) {
    match t
    case Reported(b) => OwedOpen(booked, b) && b.hash !in pending
    case Enrolled(b) => Owed(booked, b)
    case Removed(b, _) => OwedOpen(booked, b) && b.hash !in pending
    case Counted(b, r) => Owed(booked, b) && booked[b.hash].resolution == Some(r)
    case Finished => true
  }

  /** A block not enrolled yet, or taken out and not counted yet. */
  predicate Between(t: Task) {
    t.Reported? || t.Removed?
  }

  predicate AtMostOneEach(tasks: seq<Task>) {
    forall i, j :: 0 <= i < j < |tasks| && Between(tasks[i]) && Between(tasks[j])
                   ==> tasks[i].block.hash != tasks[j].block.hash
  }

  ghost predicate Entered(booked: BlockRows, reports: multiset<BlockHash>) {
    && (forall h :: h in booked <==> h in reports)
    && (forall h :: h in booked ==> booked[h].block.hash == h)
  }

  predicate PendingOk(booked: BlockRows, pending: map<BlockHash, Block>) {
    forall h :: h in pending ==> pending[h].hash == h && OwedOpen(booked, pending[h])
  }

  predicate SeenOk(booked: BlockRows, seen: set<Block>) {
    forall b :: b in seen ==> Owed(booked, b)
  }

  predicate TasksOk(booked: BlockRows, pending: map<BlockHash, Block>, tasks: seq<Task>) {
    (forall i :: 0 <= i < |tasks| ==> TaskOk(booked, pending, tasks[i])) && AtMostOneEach(tasks)
  }

  /** Memory's half: the counters are the recount of what is owed. */
  ghost predicate MemOk(s: Sys) {
    && s.counts == Recount(s.booked)
    && Entered(s.booked, s.reports) && PendingOk(s.booked, s.pending) && SeenOk(s.booked, s.seen)
    && TasksOk(s.booked, s.pending, s.tasks)
  }

  lemma BookRow(booked: BlockRows, b: Block)
    requires b.hash !in booked
    ensures Recount(booked[b.hash := BlockRow(b, None)]) == CountReport(Recount(booked), b.wonAtSubmit)
  {
    hide Chosen;
    PutCounts(booked, b.hash, BlockRow(b, None), FoundSum);
    PutCounts(booked, b.hash, BlockRow(b, None), OrphanedSum);
    PutCounts(booked, b.hash, BlockRow(b, None), InconclusiveSum);
  }

  /** The counter to be lowered is never at zero. */
  lemma BookResolution(booked: BlockRows, b: Block, r: Resolution)
    requires OwedOpen(booked, b)
    ensures Recount(booked[b.hash := BlockRow(b, Some(r))]) == CountResolution(Recount(booked), b.wonAtSubmit, r)
  {
    hide Chosen;
    PutCounts(booked, b.hash, BlockRow(b, Some(r)), FoundSum);
    PutCounts(booked, b.hash, BlockRow(b, Some(r)), OrphanedSum);
    PutCounts(booked, b.hash, BlockRow(b, Some(r)), InconclusiveSum);
  }

  /** A first report touches nothing that is already owed. */
  lemma ReportTasks(booked: BlockRows, pending: map<BlockHash, Block>, tasks: seq<Task>, b: Block)
    requires TasksOk(booked, pending, tasks) && PendingOk(booked, pending) && b.hash !in booked
    ensures var more := booked[b.hash := BlockRow(b, None)];
            TasksOk(more, pending, tasks + [Reported(b)]) && PendingOk(more, pending)
  {
    var (more, all) := (booked[b.hash := BlockRow(b, None)], tasks + [Reported(b)]);
    forall i | 0 <= i < |all|
      ensures TaskOk(more, pending, all[i])
      ensures i < |tasks| && Between(all[i]) ==> all[i].block.hash != b.hash
    {
      if i < |tasks| {
        assert TaskOk(booked, pending, tasks[i]);
      }
    }
  }

  lemma ReportMemOk(s: Sys, b: Block)
    requires MemOk(s) && NoRepeat(Next(s, Report(b)).reports)
    ensures MemOk(Next(s, Report(b)))
  {
    hide Recount, TasksOk, PendingOk;
    var n := Next(s, Report(b));
    assert n.reports[b.hash] == s.reports[b.hash] + 1;
    assert b.hash !in s.booked;
    BookRow(s.booked, b);
    ReportTasks(s.booked, s.pending, s.tasks, b);
  }

  lemma ResolveTasks(booked: BlockRows, pending: map<BlockHash, Block>, tasks: seq<Task>, b: Block, r: Resolution)
    requires TasksOk(booked, pending, tasks) && PendingOk(booked, pending)
    requires b.hash in pending && pending[b.hash] == b
    ensures TasksOk(booked, pending - {b.hash}, tasks + [Removed(b, r)]) && PendingOk(booked, pending - {b.hash})
  {
    var (less, all) := (pending - {b.hash}, tasks + [Removed(b, r)]);
    forall i | 0 <= i < |all|
      ensures TaskOk(booked, less, all[i])
      ensures i < |tasks| && Between(all[i]) ==> all[i].block.hash != b.hash
    {
      if i < |tasks| {
        assert TaskOk(booked, pending, tasks[i]);
      }
    }
  }

  lemma ResolveMemOk(s: Sys, b: Block, r: Resolution)
    requires MemOk(s) && b in s.seen
    ensures MemOk(Next(s, Resolve(b, r)))
  {
    hide Recount, TasksOk, Entered;
    if b.hash in s.pending {
      assert s.pending[b.hash] == b;
      hide PendingOk;
      ResolveTasks(s.booked, s.pending, s.tasks, b, r);
    }
  }

  /** Task i moves on, without becoming one of the states only one task per hash may be in. */
  lemma TaskMoves(booked: BlockRows, pending: map<BlockHash, Block>, tasks: seq<Task>, i: nat, t: Task)
    requires TasksOk(booked, pending, tasks) && i < |tasks| && TaskOk(booked, pending, t) && !Between(t)
    ensures TasksOk(booked, pending, tasks[i := t])
  {
  }

  lemma EnrolTasks(booked: BlockRows, pending: map<BlockHash, Block>, tasks: seq<Task>, i: nat)
    requires TasksOk(booked, pending, tasks) && PendingOk(booked, pending) && i < |tasks| && tasks[i].Reported?
    ensures var b := tasks[i].block;
            && b.hash !in pending
            && TasksOk(booked, pending[b.hash := b], tasks[i := Enrolled(b)]) && PendingOk(booked, pending[b.hash := b])
  {
    var b := tasks[i].block;
    assert TaskOk(booked, pending, tasks[i]);
    var (more, all) := (pending[b.hash := b], tasks[i := Enrolled(b)]);
    forall j | 0 <= j < |all|
      ensures TaskOk(booked, more, all[j])
    {
      assert TaskOk(booked, pending, tasks[j]);
    }
  }

  lemma CountTasks(booked: BlockRows, pending: map<BlockHash, Block>, tasks: seq<Task>, i: nat)
    requires TasksOk(booked, pending, tasks) && PendingOk(booked, pending) && i < |tasks| && tasks[i].Removed?
    ensures var (b, r) := (tasks[i].block, tasks[i].resolution);
            var more := booked[b.hash := BlockRow(b, Some(r))];
            && OwedOpen(booked, b)
            && TasksOk(more, pending, tasks[i := Counted(b, r)]) && PendingOk(more, pending)
  {
    var (b, r) := (tasks[i].block, tasks[i].resolution);
    assert TaskOk(booked, pending, tasks[i]);
    var (more, all) := (booked[b.hash := BlockRow(b, Some(r))], tasks[i := Counted(b, r)]);
    forall j | 0 <= j < |all|
      ensures TaskOk(more, pending, all[j])
    {
      assert TaskOk(booked, pending, tasks[j]);
    }
  }

  lemma RemovedMemOk(s: Sys, i: nat)
    requires MemOk(s) && i < |s.tasks| && s.tasks[i].Removed?
    ensures MemOk(GoOn(s, i))
  {
    hide Recount, TasksOk, PendingOk;
    CountTasks(s.booked, s.pending, s.tasks, i);
    BookResolution(s.booked, s.tasks[i].block, s.tasks[i].resolution);
  }

  lemma TaskIsOk(booked: BlockRows, pending: map<BlockHash, Block>, tasks: seq<Task>, i: nat)
    requires TasksOk(booked, pending, tasks) && i < |tasks|
    ensures TaskOk(booked, pending, tasks[i])
  {
  }

  lemma GoMemOk(s: Sys, i: nat)
    requires MemOk(s) && i < |s.tasks|
    ensures MemOk(GoOn(s, i))
  {
    hide Recount, TasksOk, PendingOk, Entered, SeenOk, CountResolution;
    TaskIsOk(s.booked, s.pending, s.tasks, i);
    match s.tasks[i]
    case Reported(b) =>
      EnrolTasks(s.booked, s.pending, s.tasks, i);
    case Removed(_, _) =>
      RemovedMemOk(s, i);
    case Finished =>
    case _ =>
      TaskMoves(s.booked, s.pending, s.tasks, i, Finished);
  }

  lemma StepMemOk(s: Sys, a: Action)
    requires MemOk(s) && CanDo(s, a) && !a.Restart? && NoRepeat(Next(s, a).reports)
    ensures MemOk(Next(s, a))
  {
    hide Recount, GoOn, TasksOk, PendingOk, Entered, Do;
    match a
    case Report(b) => ReportMemOk(s, b);
    case Resolve(b, r) => ResolveMemOk(s, b, r);
    case Go(i) => GoMemOk(s, i);
    case Look(h) => LookSeen(s, h);
    case _ =>
  }

  lemma LookSeen(s: Sys, h: BlockHash)
    requires PendingOk(s.booked, s.pending) && SeenOk(s.booked, s.seen) && h in s.pending
    ensures SeenOk(s.booked, s.seen + {s.pending[h]})
  {
  }

  /** A block is resolved at most once: a booked verdict is never replaced. */
  lemma VerdictStands(s: Sys, a: Action, h: BlockHash)
    requires MemOk(s) && CanDo(s, a) && !a.Restart?
    requires h in s.booked && s.booked[h].resolution.Some?
    ensures h in Next(s, a).booked && Next(s, a).booked[h] == s.booked[h]
  {
    hide Recount, AtMostOneEach;
    if a.Go? {
      assert TaskOk(s.booked, s.pending, s.tasks[a.i]);
    }
  }

  lemma BootMemOk(s: Sys)
    requires Loose(s)
    ensures MemOk(Booted(s)) && NoRepeat(Booted(s).reports)
  {
    hide Recount;
  }

  // ---- the table's half ----

  predicate WriteFits(booked: BlockRows, w: StoreWrite) {
    match w
    case BlockFound(b) => Owed(booked, b)
    case BlockResolved(h, r) => h in booked && booked[h].resolution == Some(r)
    case _ => true
  }

  predicate Waits(p: Pipe, u: Ticket) {
    u in p.queue || u in p.backlog || u in p.lost
  }

  /** The row of h is still on its way, or its write was dropped. */
  ghost predicate RowComing(s: Sys, h: BlockHash) {
    || (exists i :: 0 <= i < |s.tasks| && (s.tasks[i].Reported? || s.tasks[i].Enrolled?) && s.tasks[i].block.hash == h)
    || (exists u :: Waits(s.pipe, u) && u.write.BlockFound? && u.write.block.hash == h)
  }

  ghost predicate ResolutionComing(s: Sys, h: BlockHash) {
    || (exists i :: 0 <= i < |s.tasks| && s.tasks[i].Counted? && s.tasks[i].block.hash == h)
    || (exists u :: Waits(s.pipe, u) && u.write.BlockResolved? && u.write.hash == h)
  }

  /** A row says nothing that is not owed. */
  predicate RowFits(booked: BlockRows, h: BlockHash, row: BlockRow) {
    && h in booked && row.block == booked[h].block
    && (row.resolution.Some? ==> row.resolution == booked[h].resolution)
  }

  ghost predicate RowSettled(s: Sys, h: BlockHash)
    requires h in s.booked
  {
    && (h in s.pipe.db.blocks || RowComing(s, h))
    && (s.booked[h].resolution.Some? ==>
        || (h in s.pipe.db.blocks && s.pipe.db.blocks[h].resolution == s.booked[h].resolution)
        || ResolutionComing(s, h))
  }

  predicate TableFits(booked: BlockRows, rows: BlockRows) {
    forall h :: h in rows ==> RowFits(booked, h, rows[h])
  }

  ghost predicate WritesFit(booked: BlockRows, p: Pipe) {
    forall t :: t in p.queue || t in p.backlog ==> WriteFits(booked, t.write)
  }

  ghost predicate DiskOk(s: Sys) {
    && TableFits(s.booked, s.pipe.db.blocks) && WritesFit(s.booked, s.pipe)
    && (forall h :: h in s.booked ==> RowSettled(s, h))
  }

  lemma SentFits(booked: BlockRows, p: Pipe, w: StoreWrite)
    requires WritesFit(booked, p) && WriteFits(booked, w)
    ensures WritesFit(booked, Enqueue(p, w))
  {
  }

  /** Booking a resolution contradicts no row and no write: none could have named one yet. */
  lemma ResolutionFits(booked: BlockRows, p: Pipe, b: Block, r: Resolution)
    requires TableFits(booked, p.db.blocks) && WritesFit(booked, p) && OwedOpen(booked, b)
    ensures var more := booked[b.hash := BlockRow(b, Some(r))]; TableFits(more, p.db.blocks) && WritesFit(more, p)
  {
  }

  lemma ReportFits(booked: BlockRows, p: Pipe, b: Block)
    requires TableFits(booked, p.db.blocks) && WritesFit(booked, p) && b.hash !in booked
    ensures var more := booked[b.hash := BlockRow(b, None)]; TableFits(more, p.db.blocks) && WritesFit(more, p)
  {
  }

  /** Writes on their way stay on their way, and tasks keep their block. */
  lemma SettledStays(s: Sys, n: Sys, h: BlockHash)
    requires h in s.booked && RowSettled(s, h) && n.pipe.db == s.pipe.db
    requires h in n.booked && n.booked[h] == s.booked[h]
    requires RowComing(s, h) ==> RowComing(n, h)
    requires ResolutionComing(s, h) ==> ResolutionComing(n, h)
    ensures RowSettled(n, h)
  {
  }

  lemma SentStays(p: Pipe, w: StoreWrite)
    ensures forall u :: Waits(p, u) ==> Waits(Enqueue(p, w), u)
    ensures Waits(Enqueue(p, w), Ticket(p.nextId, w))
  {
    var q := Enqueue(p, w);
    assert q.queue[|p.queue|] == Ticket(p.nextId, w);
  }

  lemma GoComing(s: Sys, i: nat, h: BlockHash)
    requires MemOk(s) && i < |s.tasks|
    ensures RowComing(s, h) ==> RowComing(GoOn(s, i), h)
    ensures ResolutionComing(s, h) ==> ResolutionComing(GoOn(s, i), h)
  {
    hide Recount, Enqueue;
    var (n, t) := (GoOn(s, i), s.tasks[i]);
    assert TaskOk(s.booked, s.pending, t);
    if t.Enrolled? {
      SentStays(s.pipe, BlockFound(t.block));
    } else if t.Counted? {
      SentStays(s.pipe, BlockResolved(t.block.hash, t.resolution));
    }
    assert forall j :: 0 <= j < |s.tasks| && j != i ==> n.tasks[j] == s.tasks[j];
    if j :| 0 <= j < |s.tasks| && (s.tasks[j].Reported? || s.tasks[j].Enrolled?) && s.tasks[j].block.hash == h {
      if j == i && t.Reported? {
        assert n.tasks[j] == Enrolled(t.block);
      } else if j == i {
        assert Waits(n.pipe, Ticket(s.pipe.nextId, BlockFound(t.block)));
      } else {
        assert n.tasks[j] == s.tasks[j];
      }
    }
    if j :| 0 <= j < |s.tasks| && s.tasks[j].Counted? && s.tasks[j].block.hash == h {
      if j == i {
        assert Waits(n.pipe, Ticket(s.pipe.nextId, BlockResolved(h, t.resolution)));
      } else {
        assert n.tasks[j] == s.tasks[j];
      }
    }
  }

  lemma GoFits(s: Sys, i: nat)
    requires MemOk(s) && DiskOk(s) && i < |s.tasks|
    ensures var n := GoOn(s, i); TableFits(n.booked, n.pipe.db.blocks) && WritesFit(n.booked, n.pipe)
  {
    hide Recount, TasksOk, TableFits, WritesFit, RowSettled, Enqueue;
    var t := s.tasks[i];
    TaskIsOk(s.booked, s.pending, s.tasks, i);
    match t
    case Enrolled(b) =>
      SentFits(s.booked, s.pipe, StoreWrite.BlockFound(b));
      SentKeepsDb(s.pipe, StoreWrite.BlockFound(b));
    case Removed(b, r) =>
      ResolutionFits(s.booked, s.pipe, b, r);
    case Counted(b, r) =>
      SentFits(s.booked, s.pipe, BlockResolved(b.hash, r));
      SentKeepsDb(s.pipe, BlockResolved(b.hash, r));
    case _ =>
  }

  lemma SentKeepsDb(p: Pipe, w: StoreWrite)
    ensures Enqueue(p, w).db == p.db
  {
  }

  lemma GoSettled(s: Sys, i: nat, h: BlockHash)
    requires MemOk(s) && DiskOk(s) && i < |s.tasks| && h in GoOn(s, i).booked
    ensures RowSettled(GoOn(s, i), h)
  {
    hide Recount, RowComing, ResolutionComing, TasksOk, TableFits, WritesFit;
    var (n, t) := (GoOn(s, i), s.tasks[i]);
    TaskIsOk(s.booked, s.pending, s.tasks, i);
    GoComing(s, i, h);
    if t.Removed? && h == t.block.hash {
      assert RowSettled(s, h);
      assert n.tasks[i].Counted? && n.tasks[i].block.hash == h;
      Counting(n, i);
    } else {
      SettledStays(s, n, h);
    }
  }

  lemma GoDiskOk(s: Sys, i: nat)
    requires MemOk(s) && DiskOk(s) && i < |s.tasks|
    ensures DiskOk(GoOn(s, i))
  {
    hide GoOn, MemOk, TableFits, WritesFit, RowSettled;
    GoFits(s, i);
    forall h | h in GoOn(s, i).booked
      ensures RowSettled(GoOn(s, i), h)
    {
      GoSettled(s, i, h);
    }
  }

  lemma Counting(s: Sys, i: nat)
    requires i < |s.tasks| && s.tasks[i].Counted?
    ensures ResolutionComing(s, s.tasks[i].block.hash)
  {
  }

  lemma Reporting(s: Sys, i: nat)
    requires i < |s.tasks| && s.tasks[i].Reported?
    ensures RowComing(s, s.tasks[i].block.hash)
  {
  }

  /** More tasks and more queued writes only add to what is coming. */
  lemma MoreComing(s: Sys, n: Sys, h: BlockHash)
    requires s.tasks <= n.tasks && (forall u :: Waits(s.pipe, u) ==> Waits(n.pipe, u))
    ensures RowComing(s, h) ==> RowComing(n, h)
    ensures ResolutionComing(s, h) ==> ResolutionComing(n, h)
  {
    assert forall i :: 0 <= i < |s.tasks| ==> n.tasks[i] == s.tasks[i];
  }

  lemma ReportDiskOk(s: Sys, b: Block)
    requires MemOk(s) && DiskOk(s) && NoRepeat(Next(s, Report(b)).reports)
    ensures DiskOk(Next(s, Report(b)))
  {
    hide Recount, RowComing, ResolutionComing, TasksOk, PendingOk, TableFits, WritesFit;
    var n := Next(s, Report(b));
    assert n.reports[b.hash] == s.reports[b.hash] + 1;
    assert b.hash !in s.booked;
    ReportFits(s.booked, s.pipe, b);
    forall h | h in n.booked
      ensures RowSettled(n, h)
    {
      if h == b.hash {
        Reporting(n, |s.tasks|);
      } else {
        MoreComing(s, n, h);
        SettledStays(s, n, h);
      }
    }
  }

  lemma QuietDiskOk(s: Sys, a: Action)
    requires DiskOk(s) && CanDo(s, a) && (a.Look? || a.Resolve? || a.Other?)
    ensures DiskOk(Next(s, a))
  {
    hide RowComing, ResolutionComing, RowSettled, RowFits, WriteFits;
    var n := Next(s, a);
    if a.Other? {
      SentStays(s.pipe, a.write);
      assert WriteFits(s.booked, a.write) by { OtherFits(s.booked, a.write); }
    }
    forall h | h in n.booked
      ensures RowSettled(n, h)
    {
      MoreComing(s, n, h);
      SettledStays(s, n, h);
    }
  }

  lemma OtherFits(booked: BlockRows, w: StoreWrite)
    requires !IsBlockWrite(w)
    ensures WriteFits(booked, w)
  {
  }

  lemma RowLands(s: Sys, a: WriterStep, h: BlockHash)
    requires DiskOk(s) && Enabled(s.pipe, a) && h in s.booked
    ensures var n := Next(s, Writing(a)); h in n.pipe.db.blocks || RowComing(n, h)
  {
    hide Apply, Do, ResolutionComing, WriteFits, RowFits;
    var (p, n) := (s.pipe, Next(s, Writing(a)));
    var t := if a.Taking? then p.queue[0] else p.backlog[0];
    StepStore(p, a);
    ApplyBlocks(p.db, p.st, t.write, a.disk);
    assert RowSettled(s, h);
    if h !in p.db.blocks {
      if u: Ticket :| Waits(p, u) && u.write.BlockFound? && u.write.block.hash == h {
        StillThere(p, a, u);
        assert Waits(n.pipe, u) || h in n.pipe.db.blocks;
      }
    }
  }

  lemma ResolutionLands(s: Sys, a: WriterStep, h: BlockHash)
    requires DiskOk(s) && Enabled(s.pipe, a) && h in s.booked && s.booked[h].resolution.Some?
    ensures var n := Next(s, Writing(a));
            || (h in n.pipe.db.blocks && n.pipe.db.blocks[h].resolution == s.booked[h].resolution)
            || ResolutionComing(n, h)
  {
    hide Apply, Do, RowComing;
    var (p, n) := (s.pipe, Next(s, Writing(a)));
    var t := if a.Taking? then p.queue[0] else p.backlog[0];
    assert t in p.queue || t in p.backlog;
    assert WriteFits(s.booked, t.write);
    StepStore(p, a);
    ApplyBlocks(p.db, p.st, t.write, a.disk);
    assert RowSettled(s, h);
    assert h in p.db.blocks ==> RowFits(s.booked, h, p.db.blocks[h]);
    if !(h in p.db.blocks && p.db.blocks[h].resolution == s.booked[h].resolution) {
      if u: Ticket :| Waits(p, u) && u.write.BlockResolved? && u.write.hash == h {
        StillThere(p, a, u);
        assert Waits(n.pipe, u) || u == t;
      }
    }
  }

  lemma WritingFits(s: Sys, a: WriterStep)
    requires DiskOk(s) && Enabled(s.pipe, a)
    ensures var q := Do(s.pipe, a);
            && (forall h :: h in q.db.blocks ==> RowFits(s.booked, h, q.db.blocks[h]))
            && (forall t :: t in q.queue || t in q.backlog ==> WriteFits(s.booked, t.write))
  {
    hide Apply, Do, RowSettled;
    var p := s.pipe;
    var t := if a.Taking? then p.queue[0] else p.backlog[0];
    assert t in p.queue || t in p.backlog;
    assert WriteFits(s.booked, t.write);
    StepStore(p, a);
    StepWaits(p, a);
    ApplyBlocks(p.db, p.st, t.write, a.disk);
  }

  lemma WritingDiskOk(s: Sys, a: WriterStep)
    requires DiskOk(s) && Enabled(s.pipe, a)
    ensures DiskOk(Next(s, Writing(a)))
  {
    hide Apply, Do, RowComing, ResolutionComing, RowFits, WriteFits;
    WritingFits(s, a);
    var n := Next(s, Writing(a));
    forall h | h in n.booked
      ensures RowSettled(n, h)
    {
      RowLands(s, a, h);
      if s.booked[h].resolution.Some? {
        ResolutionLands(s, a, h);
      }
    }
  }

  ghost predicate Tight(s: Sys) {
    MemOk(s) && DiskOk(s)
  }

  lemma BootTight(s: Sys)
    requires Loose(s)
    ensures Tight(Booted(s)) && NoRepeat(Booted(s).reports)
  {
    hide Recount;
    BootMemOk(s);
  }

  lemma StepTight(s: Sys, a: Action)
    requires Loose(s) && Tight(s) && CanDo(s, a) && NoRepeat(Next(s, a).reports)
    ensures Tight(Next(s, a))
  {
    hide MemOk, DiskOk, Next, Loose;
    if a.Restart? {
      BootTight(s);
      assert Next(s, a) == Booted(s) by { RestartBoots(s); }
    } else {
      StepMemOk(s, a);
      match a
      case Report(b) => ReportDiskOk(s, b);
      case Go(i) =>
        GoDiskOk(s, i);
        assert Next(s, a) == GoOn(s, i) by { GoIs(s, i); }
      case Writing(step) => WritingDiskOk(s, step);
      case _ => QuietDiskOk(s, a);
    }
  }

  lemma RestartBoots(s: Sys)
    ensures Next(s, Restart) == Booted(s)
  {
  }

  lemma GoIs(s: Sys, i: nat)
    requires i < |s.tasks|
    ensures Next(s, Go(i)) == GoOn(s, i)
  {
  }

  // ---- whole runs ----

  ghost predicate Reaches(s: Sys, acts: seq<Action>, s': Sys)
    decreases |acts|
  {
    if acts == [] then s == s' else CanDo(s, acts[0]) && Reaches(Next(s, acts[0]), acts[1..], s')
  }

  ghost predicate Kept(s: Sys) {
    Loose(s) && (NoRepeat(s.reports) ==> Tight(s))
  }

  lemma StepKeeps(s: Sys, a: Action)
    requires Kept(s) && CanDo(s, a)
    ensures Kept(Next(s, a))
  {
    hide Loose, Tight, Recount;
    StepLoose(s, a);
    if a.Restart? {
      BootTight(s);
    } else if NoRepeat(Next(s, a).reports) {
      forall h
        ensures s.reports[h] <= 1
      {
        assert s.reports[h] <= Next(s, a).reports[h] by { ReportsGrow(s, a, h); }
      }
      StepTight(s, a);
    }
  }

  lemma ReportsGrow(s: Sys, a: Action, h: BlockHash)
    requires CanDo(s, a) && !a.Restart?
    ensures s.reports[h] <= Next(s, a).reports[h]
  {
  }

  lemma {:induction false} RunKeeps(s: Sys, acts: seq<Action>, s': Sys)
    requires Kept(s) && Reaches(s, acts, s')
    ensures Kept(s')
    decreases |acts|
  {
    hide Kept, Next;
    if acts != [] {
      StepKeeps(s, acts[0]);
      RunKeeps(Next(s, acts[0]), acts[1..], s');
    }
  }

  /** Nothing under way, nothing waiting, and no block write dropped since boot. */
  predicate Drained(s: Sys) {
    && (forall i :: 0 <= i < |s.tasks| ==> s.tasks[i].Finished?)
    && s.pipe.queue == [] && s.pipe.backlog == []
    && (forall u :: u in s.pipe.lost ==> !IsBlockWrite(u.write))
  }

  lemma DrainedIsBooked(s: Sys)
    requires Tight(s) && Drained(s)
    ensures s.pipe.db.blocks == s.booked
  {
    hide Recount;
    var rows := s.pipe.db.blocks;
    assert forall h :: !RowComing(s, h) && !ResolutionComing(s, h);
    forall h | h in s.booked
      ensures h in rows && rows[h] == s.booked[h]
    {
      assert RowSettled(s, h);
      assert RowFits(s.booked, h, rows[h]);
    }
  }

  /** More rows than hashes is impossible, so equal counts leave no room for a repeat. */
  lemma EqualCountsMeanNoRepeat(s: Sys)
    requires Loose(s) && s.counts == Recount(s.pipe.db.blocks)
    ensures NoRepeat(s.reports)
  {
    hide Recount;
    var keys := s.pipe.db.blocks.Keys;
    RecountCovers(s.pipe.db.blocks);
    assert multiset(keys) <= s.reports;
    var extra := s.reports - multiset(keys);
    assert s.reports == multiset(keys) + extra;
    assert |s.reports| == |multiset(keys)| + |extra|;
    assert |multiset(keys)| == |keys|;
    assert extra == multiset{};
  }

  /** Over every run: once the writes have drained, the counters equal the recount of the table
      exactly when no block was reported twice. */
  lemma CountersAgreeIff(s: Sys, acts: seq<Action>, s': Sys)
    requires Kept(s) && Reaches(s, acts, s') && Drained(s')
    ensures s'.counts == Recount(s'.pipe.db.blocks) <==> NoRepeat(s'.reports)
  {
    hide Recount, Reaches;
    RunKeeps(s, acts, s');
    if NoRepeat(s'.reports) {
      DrainedIsBooked(s');
    } else if s'.counts == Recount(s'.pipe.db.blocks) {
      EqualCountsMeanNoRepeat(s');
    }
  }

  // ---- no block is forgotten ----

  /** Every block still open is pending, or a report or a resolution of it is under way. */
  ghost predicate Unforgotten(s: Sys) {
    forall h :: h in s.booked && s.booked[h].resolution.None? ==> h in s.pending || UnderWay(s.tasks, h)
  }

  predicate UnderWay(tasks: seq<Task>, h: BlockHash) {
    exists i :: 0 <= i < |tasks| && (tasks[i].Reported? || tasks[i].Removed?) && tasks[i].block.hash == h
  }

  lemma GoUnforgotten(s: Sys, i: nat)
    requires Unforgotten(s) && i < |s.tasks|
    ensures Unforgotten(GoOn(s, i))
  {
    var n := GoOn(s, i);
    forall h | h in n.booked && n.booked[h].resolution.None?
      ensures h in n.pending || UnderWay(n.tasks, h)
    {
      if h !in s.pending {
        var j :| 0 <= j < |s.tasks| && (s.tasks[j].Reported? || s.tasks[j].Removed?) && s.tasks[j].block.hash == h;
        assert j != i ==> n.tasks[j] == s.tasks[j];
      }
    }
  }

  lemma StepUnforgotten(s: Sys, a: Action)
    requires Unforgotten(s) && CanDo(s, a)
    ensures Unforgotten(Next(s, a))
  {
    hide Recount, Do, GoOn;
    if a.Go? {
      GoUnforgotten(s, a.i);
    }
    var n := Next(s, a);
    if a.Report? || a.Resolve? {
      assert forall j :: 0 <= j < |s.tasks| ==> n.tasks[j] == s.tasks[j];
      assert |n.tasks| > |s.tasks| ==>
             n.tasks[|s.tasks|] == if a.Report? then Reported(a.block) else Removed(a.block, a.resolution);
    }
  }

  /** Over every run, restarts and repeated reports included, no block drops out of confirmation before
      it has its verdict. */
  lemma {:induction false} NoneForgotten(s: Sys, acts: seq<Action>, s': Sys)
    requires Unforgotten(s) && Reaches(s, acts, s')
    ensures Unforgotten(s')
    decreases |acts|
  {
    hide Unforgotten, Next, CanDo;
    if acts != [] {
      StepUnforgotten(s, acts[0]);
      NoneForgotten(Next(s, acts[0]), acts[1..], s');
    }
  }

  const Start := Sys(Counts(0, 0, 0), map[], {}, [], map[], multiset{}, EmptyPipe)

  lemma StartKeeps()
    ensures Kept(Start)
  {
    assert Chosen(map[], FoundSum) == {} && Chosen(map[], OrphanedSum) == {} && Chosen(map[], InconclusiveSum) == {};
  }

  /** Two reports of one block, both enrolled: the second finds it pending. */
  lemma TwiceReported(b: Block) returns (acts: seq<Action>, s: Sys)
    ensures Reaches(Start, acts, s) && s.tasks == [Finished, Finished]
    ensures s.reports[b.hash] == 2 && s.pipe == Enqueue(EmptyPipe, StoreWrite.BlockFound(b))
  {
    hide Reaches, Recount, Enqueue;
    ReachesNothing(Start);
    acts, s := ReachesThen(Start, [], Start, Report(b));
    acts, s := ReachesThen(Start, acts, s, Report(b));
    assert s.tasks == [Reported(b), Reported(b)];
    acts, s := ReachesThen(Start, acts, s, Go(0));
    assert s.tasks == [Enrolled(b), Reported(b)] && b.hash in s.pending;
    acts, s := ReachesThen(Start, acts, s, Go(0));
    assert s.tasks == [Finished, Reported(b)] && b.hash in s.pending;
    acts, s := ReachesThen(Start, acts, s, Go(1));
  }

  /** A block reported twice has one row and two counts. */
  lemma TwiceReportedDisagrees(b: Block) returns (acts: seq<Action>, s: Sys)
    ensures Reaches(Start, acts, s) && Drained(s) && s.counts != Recount(s.pipe.db.blocks)
  {
    hide Reaches, Recount;
    acts, s := TwiceReported(b);
    acts, s := ReachesThen(Start, acts, s, Writing(Taking(Healthy)));
    assert s.reports[b.hash] == 2;
    assert Drained(s);
    StartKeeps();
    CountersAgreeIff(Start, acts, s);
  }

  // ---- how the backlog jams ----

  lemma {:induction false} ReachesThen(s: Sys, acts: seq<Action>, s': Sys, a: Action)
    returns (more: seq<Action>, n: Sys)
    requires Reaches(s, acts, s') && CanDo(s', a)
    ensures n == Next(s', a) && more == acts + [a] && Reaches(s, more, n)
    decreases |acts|
  {
    hide Next, CanDo;
    more, n := acts + [a], Next(s', a);
    if acts == [] {
      assert more[1..] == [];
    } else {
      var rest, _ := ReachesThen(Next(s, acts[0]), acts[1..], s', a);
      assert more[1..] == rest;
    }
  }

  /** Enrolled, seen by a sweep and resolved, all before the row's own write is queued. */
  lemma EarlyResolution(b: Block, r: Resolution) returns (acts: seq<Action>, s: Sys)
    ensures Reaches(Start, acts, s) && s.tasks == [Enrolled(b), Finished]
    ensures s.pipe == Enqueue(EmptyPipe, BlockResolved(b.hash, r))
  {
    hide Reaches, Recount, Enqueue;
    ReachesNothing(Start);
    acts, s := ReachesThen(Start, [], Start, Report(b));
    acts, s := ReachesThen(Start, acts, s, Go(0));
    assert s.tasks == [Enrolled(b)] && s.pending[b.hash] == b;
    acts, s := ReachesThen(Start, acts, s, Look(b.hash));
    acts, s := ReachesThen(Start, acts, s, Resolve(b, r));
    assert s.tasks == [Enrolled(b), Removed(b, r)];
    acts, s := ReachesThen(Start, acts, s, Go(1));
    assert s.tasks == [Enrolled(b), Counted(b, r)];
    acts, s := ReachesThen(Start, acts, s, Go(1));
  }

  lemma ReachesNothing(s: Sys)
    ensures Reaches(s, [], s)
  {
  }

  /** The jam is reachable from an empty pool by one race and one failed write: the resolution parks
      first, and its block's row behind it. */
  lemma JamIsReachable(b: Block, r: Resolution, at: nat) returns (acts: seq<Action>, s: Sys)
    ensures Reaches(Start, acts, s) && Jammed(s.pipe, b.hash) && FoundAmong(s.pipe.backlog, b.hash)
  {
    hide Reaches, Recount;
    acts, s := EarlyResolution(b, r);
    acts, s := ReachesThen(Start, acts, s, Writing(Taking(Healthy)));
    assert s.pipe.backlog == [Ticket(0, BlockResolved(b.hash, r))] && s.pipe.queue == [];
    acts, s := ReachesThen(Start, acts, s, Go(0));
    assert s.pipe.queue == [Ticket(1, StoreWrite.BlockFound(b))];
    acts, s := ReachesThen(Start, acts, s, Writing(Taking(Broken(at))));
    assert s.pipe.backlog[1].write == StoreWrite.BlockFound(b);
  }
}
