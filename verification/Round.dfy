/** The round counters: shares and work since the last found block, reset in memory by one task,
    snapshotted by another, and merged on disk under an epoch guard. Every task is a program of
    atomic steps, and the steps of all tasks and of the writer interleave freely. */
module Round {
  import opened Bytes
  import opened Options
  import opened Store
  import opened Writer
  import opened Drain
  import opened WorkHistory

  // ---- memory ----

  datatype Count = Acc | Rej

  datatype Pair = Pair(acc: nat, rej: nat)

  function Of(p: Pair, f: Count): nat {
    if f.Acc? then p.acc else p.rej
  }

  function Put(p: Pair, f: Count, n: nat): Pair {
    if f.Acc? then p.(acc := n) else p.(rej := n)
  }

  /** base and work come from the last persisted round. wiped is the work zeroed away so far, so
      wiped + work is all the work ever credited; no program reads it. */
  datatype Mem = Mem(base: Pair, count: Pair, offset: Pair, work: nat, epoch: nat, wiped: nat)

  /** Shares of the persisted baseline plus this boot, in 64-bit saturating arithmetic. */
  function Life(m: Mem, f: Count): nat {
    Min(U64_MAX, Of(m.base, f) + Of(m.count, f))
  }

  function Minus(a: nat, b: nat): nat {
    if a < b then 0 else a - b
  }

  /** The round as memory shows it. */
  function View(m: Mem): Round {
    Store.Round(Minus(Life(m, Acc), m.offset.acc), Minus(Life(m, Rej), m.offset.rej), m.work)
  }

  // ---- programs ----

  /** A round reset after each of its steps: read and store the accepted offset, read and store the
      rejected offset, zero the work, bump the epoch, queue the write. The readings are carried
      along; at is the work credited when this reset zeroed it. */
  datatype ResetTask =
    | AccLoaded(acc: nat)
    | AccStored(acc: nat)
    | RejLoaded(acc: nat, rej: nat)
    | RejStored(acc: nat, rej: nat)
    | Zeroed(acc: nat, rej: nat, at: nat)
    | Bumped(epoch: nat)
    | ResetDone

  /** A snapshot: epoch first, then each count with its offset, then the work. */
  datatype SnapTask =
    | EpochRead(epoch: nat)
    | AccRead(epoch: nat, life: nat)
    | AccDone(epoch: nat, acc: nat)
    | RejRead(epoch: nat, acc: nat, life: nat)
    | RejDone(epoch: nat, acc: nat, rej: nat)
    | WorkDone(epoch: nat, totals: Round)
    | SnapDone

  /** Where the round of an epoch begins, in lifetime shares and work. */
  datatype Mark = Mark(shares: Pair, work: nat)

  /** Memory with the programs in flight. marks[e] is the lowest reading in play when epoch e began, and
      own[e] what the reset that began it read itself. */
  datatype Core = Core(mem: Mem, resets: seq<ResetTask>, snaps: seq<SnapTask>, marks: seq<Mark>, own: seq<Mark>)

  /** A reading taken and not stored yet. */
  predicate Holds(t: ResetTask, f: Count) {
    if f.Acc? then t.AccLoaded? else t.RejLoaded?
  }

  function Held(t: ResetTask, f: Count): nat
    requires Holds(t, f)
  {
    if f.Acc? then t.acc else t.rej
  }

  /** The lowest value the offset has or can still be given by a reading already taken. */
  function Lowest(resets: seq<ResetTask>, offset: nat, f: Count): nat {
    if resets == [] then offset
    else
      var (rest, t) := (Lowest(resets[..|resets| - 1], offset, f), resets[|resets| - 1]);
      if Holds(t, f) then Min(rest, Held(t, f)) else rest
  }

  function MarkNow(c: Core): Mark {
    Mark(Pair(Lowest(c.resets, c.mem.offset.acc, Acc), Lowest(c.resets, c.mem.offset.rej, Rej)), c.mem.wiped)
  }

  function StoreOffset(m: Mem, f: Count, n: nat): Mem {
    m.(offset := Put(m.offset, f, n))
  }

  /** One step of reset i. */
  function StepReset(c: Core, i: nat): Core
    requires i < |c.resets|
  {
    var (m, t) := (c.mem, c.resets[i]);
    match t
    case AccLoaded(a) => c.(mem := StoreOffset(m, Acc, a), resets := c.resets[i := AccStored(a)])
    case AccStored(a) => c.(resets := c.resets[i := RejLoaded(a, Life(m, Rej))])
    case RejLoaded(a, r) => c.(mem := StoreOffset(m, Rej, r), resets := c.resets[i := RejStored(a, r)])
    case RejStored(a, r) =>
      c.(mem := m.(work := 0, wiped := m.wiped + m.work), resets := c.resets[i := Zeroed(a, r, m.wiped + m.work)])
    case Zeroed(a, r, at) =>
      c.(mem := m.(epoch := m.epoch + 1), resets := c.resets[i := Bumped(m.epoch + 1)],
         marks := c.marks + [MarkNow(c)], own := c.own + [Mark(Pair(a, r), at)])
    case Bumped(_) => c.(resets := c.resets[i := ResetDone])
    case ResetDone => c
  }

  function NextSnap(m: Mem, t: SnapTask): SnapTask {
    match t
    case EpochRead(e) => AccRead(e, Life(m, Acc))
    case AccRead(e, life) => AccDone(e, Minus(life, m.offset.acc))
    case AccDone(e, a) => RejRead(e, a, Life(m, Rej))
    case RejRead(e, a, life) => RejDone(e, a, Minus(life, m.offset.rej))
    case RejDone(e, a, r) => WorkDone(e, Store.Round(a, r, m.work))
    case WorkDone(_, _) => SnapDone
    case SnapDone => SnapDone
  }

  function StepSnap(c: Core, i: nat): Core
    requires i < |c.snaps|
  {
    c.(snaps := c.snaps[i := NextSnap(c.mem, c.snaps[i])])
  }

  datatype MemStep =
    | CountShare(f: Count)
    | CreditWork(credit: nat)
    | StartReset
    | ResetStep(i: nat)
    | StartSnap
    | SnapStep(i: nat)

  predicate CanStep(c: Core, s: MemStep) {
    match s
    case ResetStep(i) => i < |c.resets|
    case SnapStep(i) => i < |c.snaps|
    case _ => true
  }

  function StepMem(c: Core, s: MemStep): Core
    requires CanStep(c, s)
  {
    var m := c.mem;
    match s
    case CountShare(f) => c.(mem := m.(count := Put(m.count, f, Of(m.count, f) + 1)))
    case CreditWork(credit) => c.(mem := m.(work := m.work + credit))
    case StartReset => c.(resets := c.resets + [AccLoaded(Life(m, Acc))])
    case ResetStep(i) => StepReset(c, i)
    case StartSnap => c.(snaps := c.snaps + [EpochRead(m.epoch)])
    case SnapStep(i) => StepSnap(c, i)
  }

  /** The write a memory step hands to the queue. */
  function Emitted(c: Core, s: MemStep): Option<StoreWrite>
    requires CanStep(c, s)
  {
    match s
    case ResetStep(i) => if c.resets[i].Bumped? then Some(RoundReset(c.resets[i].epoch)) else None
    case SnapStep(i) => if c.snaps[i].WorkDone? then Some(Snapshot(c.snaps[i].epoch, c.snaps[i].totals)) else None
    case _ => None
  }

  // ---- what memory keeps ----

  /** Totals that only count what came after the mark of their epoch. */
  predicate Bounded(c: Core, e: nat, totals: Round) {
    && e < |c.marks|
    && totals.accepted + c.marks[e].shares.acc <= Life(c.mem, Acc)
    && totals.rejected + c.marks[e].shares.rej <= Life(c.mem, Rej)
    && totals.work + c.marks[e].work <= c.mem.wiped + c.mem.work
  }

  predicate SnapOk(c: Core, t: SnapTask) {
    match t
    case EpochRead(e) => e < |c.marks|
    case AccRead(e, life) => e < |c.marks| && life <= Life(c.mem, Acc)
    case AccDone(e, a) => Bounded(c, e, Store.Round(a, 0, 0))
    case RejRead(e, a, life) => Bounded(c, e, Store.Round(a, 0, 0)) && life <= Life(c.mem, Rej)
    case RejDone(e, a, r) => Bounded(c, e, Store.Round(a, r, 0))
    case WorkDone(e, totals) => Bounded(c, e, totals)
    case SnapDone => true
  }

  predicate ResetOk(c: Core, t: ResetTask) {
    match t
    case AccLoaded(a) => a <= Life(c.mem, Acc)
    case RejLoaded(_, r) => r <= Life(c.mem, Rej)
    case Zeroed(_, _, at) => at <= c.mem.wiped
    case Bumped(e) => e <= c.mem.epoch
    case _ => true
  }

  /** The mark is below the offset and below every reading that may yet become the offset. */
  predicate MarkOk(c: Core, mark: Mark) {
    && (forall f :: Of(mark.shares, f) <= Of(c.mem.offset, f))
    && (forall i, f :: 0 <= i < |c.resets| && Holds(c.resets[i], f) ==> Of(mark.shares, f) <= Held(c.resets[i], f))
    && mark.work <= c.mem.wiped
  }

  predicate CoreOk(c: Core) {
    && |c.marks| == |c.own| == c.mem.epoch + 1
    && (forall f :: Of(c.mem.offset, f) <= Life(c.mem, f))
    && (forall i :: 0 <= i < |c.resets| ==> ResetOk(c, c.resets[i]))
    && (forall e :: 0 <= e < |c.marks| ==> MarkOk(c, c.marks[e]) && c.own[e].work <= c.marks[e].work)
    && (forall i :: 0 <= i < |c.snaps| ==> SnapOk(c, c.snaps[i]))
  }

  lemma {:induction false} LowestIff(resets: seq<ResetTask>, offset: nat, f: Count, x: nat)
    ensures x <= Lowest(resets, offset, f)
       <==> x <= offset && forall i :: 0 <= i < |resets| && Holds(resets[i], f) ==> x <= Held(resets[i], f)
  {
    if resets != [] {
      LowestIff(resets[..|resets| - 1], offset, f, x);
    }
  }

  lemma MarkNowOk(c: Core)
    ensures MarkOk(c, MarkNow(c))
  {
    LowestIff(c.resets, c.mem.offset.acc, Acc, Lowest(c.resets, c.mem.offset.acc, Acc));
    LowestIff(c.resets, c.mem.offset.rej, Rej, Lowest(c.resets, c.mem.offset.rej, Rej));
  }

  /** Lifetime counts and credited work never fall, and the marks of past epochs stand. */
  predicate Grows(c: Core, d: Core) {
    && (forall f :: Life(c.mem, f) <= Life(d.mem, f))
    && c.mem.wiped <= d.mem.wiped
    && c.mem.wiped + c.mem.work <= d.mem.wiped + d.mem.work
    && c.mem.epoch <= d.mem.epoch
    && |c.marks| <= |d.marks| && c.marks == d.marks[..|c.marks|]
  }

  lemma BoundedStays(c: Core, d: Core, e: nat, totals: Round)
    requires Grows(c, d) && Bounded(c, e, totals)
    ensures Bounded(d, e, totals)
  {
    assert c.marks[e] == d.marks[e];
    assert Life(c.mem, Acc) <= Life(d.mem, Acc) && Life(c.mem, Rej) <= Life(d.mem, Rej);
  }

  lemma SnapStays(c: Core, d: Core, t: SnapTask)
    requires Grows(c, d) && SnapOk(c, t)
    ensures SnapOk(d, t)
  {
    assert Life(c.mem, Acc) <= Life(d.mem, Acc) && Life(c.mem, Rej) <= Life(d.mem, Rej);
    match t
    case AccDone(e, a) => BoundedStays(c, d, e, Store.Round(a, 0, 0));
    case RejRead(e, a, _) => BoundedStays(c, d, e, Store.Round(a, 0, 0));
    case RejDone(e, a, r) => BoundedStays(c, d, e, Store.Round(a, r, 0));
    case WorkDone(e, totals) => BoundedStays(c, d, e, totals);
    case _ =>
  }

  lemma StepGrows(c: Core, s: MemStep)
    requires CanStep(c, s)
    ensures Grows(c, StepMem(c, s))
  {
  }

  lemma ResetsStayOk(c: Core, s: MemStep)
    requires CanStep(c, s) && CoreOk(c)
    ensures var d := StepMem(c, s); forall i :: 0 <= i < |d.resets| ==> ResetOk(d, d.resets[i])
  {
    hide MarkOk, SnapOk, Lowest;
  }

  /** A stored or newly taken reading is never below a standing mark. */
  lemma MarksStayOk(c: Core, s: MemStep)
    requires CanStep(c, s) && CoreOk(c)
    ensures var d := StepMem(c, s); forall e :: 0 <= e < |d.marks| ==> MarkOk(d, d.marks[e])
  {
    hide SnapOk, Lowest;
    var d := StepMem(c, s);
    forall e | 0 <= e < |d.marks|
      ensures MarkOk(d, d.marks[e])
    {
      if e < |c.marks| {
        assert d.marks[e] == c.marks[e];
        assert MarkOk(c, c.marks[e]);
      } else {
        MarkNowOk(c);
      }
    }
  }

  lemma SnapsStayOk(c: Core, s: MemStep)
    requires CanStep(c, s) && CoreOk(c)
    ensures var d := StepMem(c, s); forall i :: 0 <= i < |d.snaps| ==> SnapOk(d, d.snaps[i])
  {
    hide Lowest, ResetOk;
    var d := StepMem(c, s);
    StepGrows(c, s);
    forall i | 0 <= i < |d.snaps|
      ensures SnapOk(d, d.snaps[i])
    {
      if i < |c.snaps| {
        SnapStays(c, d, c.snaps[i]);
        if s.SnapStep? && s.i == i && !c.snaps[i].SnapDone? {
          assert MarkOk(c, c.marks[c.snaps[i].epoch]);
          assert Of(c.marks[c.snaps[i].epoch].shares, Acc) <= Of(c.mem.offset, Acc) <= Life(c.mem, Acc);
          assert Of(c.marks[c.snaps[i].epoch].shares, Rej) <= Of(c.mem.offset, Rej) <= Life(c.mem, Rej);
        }
      }
    }
  }

  lemma CoreStaysOk(c: Core, s: MemStep)
    requires CanStep(c, s) && CoreOk(c)
    ensures CoreOk(StepMem(c, s))
  {
    ResetsStayOk(c, s);
    MarksStayOk(c, s);
    SnapsStayOk(c, s);
    assert forall f :: Of(c.mem.offset, f) <= Life(c.mem, f);
    if s.ResetStep? {
      assert ResetOk(c, c.resets[s.i]);
    }
  }

  // ---- memory and the writer together ----

  datatype Sys = Sys(core: Core, pipe: Pipe)

  datatype SysStep =
    | Memory(step: MemStep)
    | Other(write: StoreWrite)
    | Writing(wstep: WriterStep)
    | Restart

  ghost predicate CanDo(s: Sys, a: SysStep) {
    match a
    case Memory(step) => CanStep(s.core, step)
    case Other(write) => !write.RoundReset? && !write.Snapshot?
    case Writing(wstep) => Enabled(s.pipe, wstep)
    case Restart => true
  }

  /** Memory as a boot finds it: the persisted round is the baseline of epoch 0. */
  function BootCore(r: Round): Core {
    var m := Mem(Pair(r.accepted, r.rejected), Pair(0, 0), Pair(0, 0), r.work, 0, 0);
    Core(m, [], [], [Mark(Pair(0, 0), 0)], [Mark(Pair(0, 0), 0)])
  }

  ghost function Next(s: Sys, a: SysStep): Sys
    requires CanDo(s, a)
  {
    match a
    case Memory(step) =>
      var e := Emitted(s.core, step);
      Sys(StepMem(s.core, step), if e.Some? then Enqueue(s.pipe, e.value) else s.pipe)
    case Other(write) => s.(pipe := Enqueue(s.pipe, write))
    case Writing(wstep) => s.(pipe := Do(s.pipe, wstep))
    case Restart => Sys(BootCore(s.pipe.db.round), Restarted(s.pipe))
  }

  predicate WriteOk(c: Core, w: StoreWrite) {
    match w
    case RoundReset(e) => e <= c.mem.epoch
    case Snapshot(e, totals) => Bounded(c, e, totals)
    case _ => true
  }

  predicate AllOk(c: Core, ts: seq<Ticket>) {
    forall t :: t in ts ==> WriteOk(c, t.write)
  }

  /** The persisted round counts nothing from before the mark of the last applied epoch. */
  ghost predicate SysOk(s: Sys) {
    && CoreOk(s.core)
    && Bounded(s.core, s.pipe.st.roundEpoch, s.pipe.db.round)
    && AllOk(s.core, s.pipe.queue) && AllOk(s.core, s.pipe.backlog)
  }

  /** What one write can do to the persisted round. */
  lemma ApplyRound(db: Db, st: WriterState, w: StoreWrite, disk: Disk)
    ensures var r := Apply(db, st, w, disk);
            || (r.db.round == db.round && r.st.roundEpoch == st.roundEpoch && (w.RoundReset? ==> !r.ok))
            || (w.RoundReset? && r.ok && r.db.round == Store.Round(0, 0, 0)
                && r.st.roundEpoch == Max(st.roundEpoch, w.epoch))
            || (w.Snapshot? && w.epoch == st.roundEpoch == r.st.roundEpoch
               && r.db.round == MergeRound(db.round, w.totals))
  {
    hide FileEntries, RollUp;
  }

  lemma ApplyBounded(c: Core, db: Db, st: WriterState, w: StoreWrite, disk: Disk)
    requires CoreOk(c) && WriteOk(c, w) && Bounded(c, st.roundEpoch, db.round)
    ensures var r := Apply(db, st, w, disk); Bounded(c, r.st.roundEpoch, r.db.round)
  {
    hide Apply, Lowest, SnapOk, ResetOk;
    ApplyRound(db, st, w, disk);
    if w.RoundReset? {
      var e := Max(st.roundEpoch, w.epoch);
      assert MarkOk(c, c.marks[e]);
      assert Of(c.marks[e].shares, Acc) <= Of(c.mem.offset, Acc) <= Life(c.mem, Acc);
      assert Of(c.marks[e].shares, Rej) <= Of(c.mem.offset, Rej) <= Life(c.mem, Rej);
    }
  }

  lemma WriterBounded(c: Core, p: Pipe, a: WriterStep)
    requires SysOk(Sys(c, p)) && Enabled(p, a)
    ensures SysOk(Sys(c, Do(p, a)))
  {
    hide Apply, CoreOk, Bounded, WriteOk;
    var t := if a.Taking? then p.queue[0] else p.backlog[0];
    assert t in p.queue || t in p.backlog;
    ApplyBounded(c, p.db, p.st, t.write, a.disk);
  }

  lemma QueueStays(c: Core, d: Core, ts: seq<Ticket>)
    requires Grows(c, d) && AllOk(c, ts)
    ensures AllOk(d, ts)
  {
    hide Bounded;
    forall t | t in ts
      ensures WriteOk(d, t.write)
    {
      if t.write.Snapshot? {
        BoundedStays(c, d, t.write.epoch, t.write.totals);
      }
    }
  }

  lemma EmittedOk(c: Core, step: MemStep)
    requires CoreOk(c) && CanStep(c, step) && Emitted(c, step).Some?
    ensures WriteOk(StepMem(c, step), Emitted(c, step).value)
  {
    hide MarkOk, Lowest;
    if step.SnapStep? {
      assert SnapOk(c, c.snaps[step.i]);
    } else {
      assert ResetOk(c, c.resets[step.i]);
    }
  }

  lemma MemoryBounded(s: Sys, step: MemStep)
    requires SysOk(s) && CanStep(s.core, step)
    ensures SysOk(Next(s, Memory(step)))
  {
    hide CoreOk, Bounded, StepMem, WriteOk, Grows;
    var (c, d) := (s.core, StepMem(s.core, step));
    CoreStaysOk(c, step);
    StepGrows(c, step);
    BoundedStays(c, d, s.pipe.st.roundEpoch, s.pipe.db.round);
    QueueStays(c, d, s.pipe.queue);
    QueueStays(c, d, s.pipe.backlog);
    if Emitted(c, step).Some? {
      EmittedOk(c, step);
    }
  }

  lemma BootBounded(r: Round)
    requires r.accepted <= U64_MAX && r.rejected <= U64_MAX
    ensures CoreOk(BootCore(r)) && Bounded(BootCore(r), 0, r)
  {
  }

  lemma StepBounded(s: Sys, a: SysStep)
    requires SysOk(s) && CanDo(s, a)
    ensures SysOk(Next(s, a))
  {
    hide CoreOk, StepMem, Do, BootCore;
    match a
    case Memory(step) => MemoryBounded(s, step);
    case Other(write) =>
    case Writing(wstep) => WriterBounded(s.core, s.pipe, wstep);
    case Restart => BootBounded(s.pipe.db.round);
  }

  ghost predicate Reaches(s: Sys, acts: seq<SysStep>, s': Sys)
    decreases |acts|
  {
    if acts == [] then s == s' else CanDo(s, acts[0]) && Reaches(Next(s, acts[0]), acts[1..], s')
  }

  predicate NoRestart(acts: seq<SysStep>) {
    forall i :: 0 <= i < |acts| ==> !acts[i].Restart?
  }

  /** No interleaving, however long a reset stays parked, brings a finished round back. */
  lemma {:induction false} NeverResurrected(s: Sys, acts: seq<SysStep>, s': Sys)
    requires SysOk(s) && Reaches(s, acts, s')
    ensures SysOk(s')
    decreases |acts|
  {
    hide SysOk, Next;
    if acts != [] {
      StepBounded(s, acts[0]);
      NeverResurrected(Next(s, acts[0]), acts[1..], s');
    }
  }

  // ---- shutdown ----

  /** A reset that has stored its offset and not bumped the epoch yet. */
  predicate PastStore(t: ResetTask, f: Count) {
    if f.Acc? then t.AccStored? || t.RejLoaded? || t.RejStored? || t.Zeroed? else t.RejStored? || t.Zeroed?
  }

  predicate NonePastStore(c: Core, f: Count) {
    forall i :: 0 <= i < |c.resets| ==> !PastStore(c.resets[i], f)
  }

  /** With no reset between its store and its bump, the round began exactly at its mark. */
  predicate Exact(c: Core) {
    && |c.marks| == c.mem.epoch + 1
    && (forall f :: Of(c.mem.offset, f) <= Life(c.mem, f))
    && (forall f :: NonePastStore(c, f) ==>
       Of(c.marks[c.mem.epoch].shares, f) == Lowest(c.resets, Of(c.mem.offset, f), f))
    && ((forall i :: 0 <= i < |c.resets| ==> !c.resets[i].Zeroed?) ==> c.marks[c.mem.epoch].work == c.mem.wiped)
  }

  lemma LowestRises(a: seq<ResetTask>, b: seq<ResetTask>, offset: nat, offset': nat, f: Count)
    requires Lowest(a, offset, f) <= offset'
    requires forall i :: 0 <= i < |b| && Holds(b[i], f) ==> Lowest(a, offset, f) <= Held(b[i], f)
    ensures Lowest(a, offset, f) <= Lowest(b, offset', f)
  {
    LowestIff(b, offset', f, Lowest(a, offset, f));
  }

  /** A step that stores no offset of f leaves the lowest reading where it was. */
  lemma LowestStays(c: Core, s: MemStep, f: Count)
    requires CanStep(c, s) && CoreOk(c)
    requires s.ResetStep? ==> !Holds(c.resets[s.i], f)
    ensures var d := StepMem(c, s); Lowest(d.resets, Of(d.mem.offset, f), f) == Lowest(c.resets, Of(c.mem.offset, f), f)
  {
    hide Lowest, MarkOk, SnapOk;
    var d := StepMem(c, s);
    var (x, y) := (Lowest(c.resets, Of(c.mem.offset, f), f), Lowest(d.resets, Of(d.mem.offset, f), f));
    LowestIff(c.resets, Of(c.mem.offset, f), f, x);
    LowestIff(d.resets, Of(d.mem.offset, f), f, y);
    assert Of(d.mem.offset, f) == Of(c.mem.offset, f) <= Life(c.mem, f);
    forall i | 0 <= i < |d.resets| && Holds(d.resets[i], f)
      ensures x <= Held(d.resets[i], f)
    {
      if i < |c.resets| && d.resets[i] == c.resets[i] {
        assert Holds(c.resets[i], f);
      } else {
        assert Held(d.resets[i], f) == Life(c.mem, f);
      }
    }
    LowestRises(c.resets, d.resets, Of(c.mem.offset, f), Of(d.mem.offset, f), f);
    forall i | 0 <= i < |c.resets| && Holds(c.resets[i], f)
      ensures y <= Held(c.resets[i], f)
    {
      assert d.resets[i] == c.resets[i];
    }
    LowestRises(d.resets, c.resets, Of(d.mem.offset, f), Of(c.mem.offset, f), f);
  }

  lemma ExactStays(c: Core, s: MemStep)
    requires CanStep(c, s) && CoreOk(c) && Exact(c)
    ensures Exact(StepMem(c, s))
  {
    hide MarkOk, SnapOk, ResetOk, Lowest;
    var d := StepMem(c, s);
    CoreStaysOk(c, s);
    forall f | NonePastStore(d, f)
      ensures Of(d.marks[d.mem.epoch].shares, f) == Lowest(d.resets, Of(d.mem.offset, f), f)
    {
      if s.ResetStep? {
        assert !PastStore(d.resets[s.i], f);
      }
      LowestStays(c, s, f);
      if !(s.ResetStep? && c.resets[s.i].Zeroed?) {
        forall i | 0 <= i < |c.resets|
          ensures !PastStore(c.resets[i], f)
        {
          assert !PastStore(d.resets[i], f);
        }
        assert NonePastStore(c, f);
      }
    }
    if forall i :: 0 <= i < |d.resets| ==> !d.resets[i].Zeroed? {
      if !(s.ResetStep? && c.resets[s.i].Zeroed?) {
        forall i | 0 <= i < |c.resets|
          ensures !c.resets[i].Zeroed?
        {
          assert !d.resets[i].Zeroed?;
        }
        assert s.ResetStep? ==> !d.resets[s.i].Zeroed?;
      }
    }
  }

  /** The write that starts the current epoch is somewhere. */
  ghost predicate Carried(s: Sys) {
    var (e, p) := (s.core.mem.epoch, s.pipe);
    || p.st.roundEpoch == e
    || Has(p.queue, e) || Has(p.backlog, e) || Has(p.lost, e)
    || exists i :: 0 <= i < |s.core.resets| && s.core.resets[i] == Bumped(e)
  }

  lemma MemoryCarries(s: Sys, step: MemStep)
    requires CanStep(s.core, step) && Carried(s)
    ensures Carried(Next(s, Memory(step)))
  {
    hide Lowest, Life;
    var (c, p, d, e) := (s.core, s.pipe, StepMem(s.core, step), s.core.mem.epoch);
    var q := Next(s, Memory(step)).pipe;
    assert forall t :: t in p.queue ==> t in q.queue;
    if d.mem.epoch != e {
      assert d.resets[step.i] == Bumped(d.mem.epoch);
    } else if i :| 0 <= i < |c.resets| && c.resets[i] == Bumped(e) {
      if step == ResetStep(i) {
        assert q.queue[|p.queue|].write == RoundReset(e);
        assert q.queue[|p.queue|] in q.queue;
      } else {
        assert d.resets[i] == Bumped(e);
      }
    }
  }

  lemma WriterCarries(s: Sys, a: WriterStep)
    requires SysOk(s) && Enabled(s.pipe, a) && Carried(s)
    ensures Carried(Next(s, Writing(a)))
  {
    hide Apply, Do, CoreOk, Bounded;
    var (p, e) := (s.pipe, s.core.mem.epoch);
    var t := if a.Taking? then p.queue[0] else p.backlog[0];
    assert t in p.queue || t in p.backlog;
    assert WriteOk(s.core, t.write);
    StepStore(p, a);
    ApplyRound(p.db, p.st, t.write, a.disk);
    WriterBounded(s.core, p, a);
    BoundedEpoch(s.core, p.st.roundEpoch, p.db.round);
    if Has(p.queue, e) || Has(p.backlog, e) || Has(p.lost, e) {
      var u: Ticket :| u.write == RoundReset(e) && (u in p.queue || u in p.backlog || u in p.lost);
      StillThere(p, a, u);
    }
  }

  lemma BoundedEpoch(c: Core, e: nat, totals: Round)
    requires CoreOk(c) && Bounded(c, e, totals)
    ensures e <= c.mem.epoch
  {
  }

  /** What a run keeps besides safety, so that a clean stop can be exact. */
  ghost predicate Settling(s: Sys) {
    SysOk(s) && Exact(s.core) && Carried(s)
  }

  lemma SettlingStays(s: Sys, a: SysStep)
    requires Settling(s) && CanDo(s, a)
    ensures Settling(Next(s, a))
  {
    hide SysOk, Exact, Carried, StepMem, Do, CoreOk, BootCore;
    StepBounded(s, a);
    assert CoreOk(s.core) by { OkCore(s); }
    match a
    case Memory(step) =>
      ExactStays(s.core, step);
      MemoryCarries(s, step);
    case Other(write) =>
      OtherCarries(s, write);
    case Writing(wstep) =>
      WriterCarries(s, wstep);
    case Restart =>
      BootSettled(s);
  }

  lemma OkCore(s: Sys)
    requires SysOk(s)
    ensures CoreOk(s.core)
    ensures s.pipe.db.round.accepted <= U64_MAX && s.pipe.db.round.rejected <= U64_MAX
  {
  }

  lemma OtherCarries(s: Sys, write: StoreWrite)
    requires Carried(s)
    ensures Carried(s.(pipe := Enqueue(s.pipe, write)))
  {
    assert forall t :: t in s.pipe.queue ==> t in Enqueue(s.pipe, write).queue;
  }

  lemma BootSettled(s: Sys)
    ensures Exact(BootCore(s.pipe.db.round)) && Carried(Sys(BootCore(s.pipe.db.round), Restarted(s.pipe)))
  {
  }

  lemma {:induction false} AlwaysSettling(s: Sys, acts: seq<SysStep>, s': Sys)
    requires Settling(s) && Reaches(s, acts, s')
    ensures Settling(s')
    decreases |acts|
  {
    hide Settling, Next;
    if acts != [] {
      SettlingStays(s, acts[0]);
      AlwaysSettling(Next(s, acts[0]), acts[1..], s');
    }
  }

  lemma {:induction false} NoneHeld(resets: seq<ResetTask>, offset: nat, f: Count)
    requires forall i :: 0 <= i < |resets| ==> !Holds(resets[i], f)
    ensures Lowest(resets, offset, f) == offset
  {
    if resets != [] {
      NoneHeld(resets[..|resets| - 1], offset, f);
    }
  }

  lemma {:induction false} ReachesThen(s: Sys, acts: seq<SysStep>, s': Sys, a: SysStep) returns (more: seq<SysStep>)
    requires Reaches(s, acts, s') && CanDo(s', a)
    ensures more == acts + [a] && Reaches(s, more, Next(s', a))
    decreases |acts|
  {
    hide Next, CanDo;
    more := acts + [a];
    if acts == [] {
      assert more[1..] == [];
    } else {
      var rest := ReachesThen(Next(s, acts[0]), acts[1..], s', a);
      assert more[1..] == rest;
    }
  }

  function WithSnap(s: Sys, t: SnapTask): Sys {
    s.(core := s.core.(snaps := s.core.snaps + [t]))
  }

  /** One step of a snapshot nobody interrupts. */
  lemma SnapAlone(s: Sys, acts: seq<SysStep>, s': Sys, t: SnapTask) returns (more: seq<SysStep>)
    requires Reaches(s, acts, WithSnap(s', t)) && NoRestart(acts) && !t.WorkDone?
    ensures Reaches(s, more, WithSnap(s', NextSnap(s'.core.mem, t))) && NoRestart(more)
  {
    hide Reaches, Life;
    var i := |s'.core.snaps|;
    assert (s'.core.snaps + [t])[i := NextSnap(s'.core.mem, t)] == s'.core.snaps + [NextSnap(s'.core.mem, t)];
    more := ReachesThen(s, acts, WithSnap(s', t), Memory(SnapStep(i)));
  }

  /** A snapshot nobody interrupts queues memory's view under the current epoch. */
  lemma SnapshotQueued(o: Sys, acts: seq<SysStep>, s: Sys) returns (more: seq<SysStep>, s': Sys)
    requires Reaches(o, acts, s) && NoRestart(acts)
    ensures Reaches(o, more, s') && NoRestart(more)
    ensures s' == Sys(WithSnap(s, SnapDone).core, Enqueue(s.pipe, Snapshot(s.core.mem.epoch, View(s.core.mem))))
  {
    hide Reaches, Life;
    var (m, e, i) := (s.core.mem, s.core.mem.epoch, |s.core.snaps|);
    more := ReachesThen(o, acts, s, Memory(StartSnap));
    var t0 := EpochRead(e);
    more := SnapAlone(o, more, s, t0);
    var t1 := NextSnap(m, t0);
    more := SnapAlone(o, more, s, t1);
    var t2 := NextSnap(m, t1);
    more := SnapAlone(o, more, s, t2);
    var t3 := NextSnap(m, t2);
    more := SnapAlone(o, more, s, t3);
    var t4 := NextSnap(m, t3);
    more := SnapAlone(o, more, s, t4);
    var ready := WithSnap(s, WorkDone(e, View(m)));
    more := ReachesThen(o, more, ready, Memory(SnapStep(i)));
    s' := Next(ready, Memory(SnapStep(i)));
    assert s'.core.snaps == s.core.snaps + [SnapDone];
  }

  /** Taken and applied with nothing in between, it is merged into the disk. */
  lemma SnapshotLands(o: Sys, acts: seq<SysStep>, s: Sys) returns (more: seq<SysStep>, s': Sys)
    requires Reaches(o, acts, s) && NoRestart(acts) && s.pipe.queue == [] && s.pipe.st.roundEpoch == s.core.mem.epoch
    ensures Reaches(o, more, s') && NoRestart(more)
    ensures s'.core == WithSnap(s, SnapDone).core && s'.pipe.st.roundEpoch == s.pipe.st.roundEpoch
    ensures s'.pipe.db.round == MergeRound(s.pipe.db.round, View(s.core.mem))
  {
    hide Reaches, Life;
    var sent;
    more, sent := SnapshotQueued(o, acts, s);
    more := ReachesThen(o, more, sent, Writing(Taking(Healthy)));
    s' := Next(sent, Writing(Taking(Healthy)));
  }

  // ---- the shutdown ----

  predicate NoResets(ts: seq<Ticket>) {
    forall t :: t in ts ==> !t.write.RoundReset?
  }

  /** No reset is under way, parked or dropped; one may still be queued. */
  predicate Stopped(s: Sys) {
    && (forall i :: 0 <= i < |s.core.resets| ==> s.core.resets[i].ResetDone?)
    && NoResets(s.pipe.backlog)
    && !Has(s.pipe.lost, s.core.mem.epoch)
  }

  /** What the shutdown queues: the final snapshot, then whatever else it flushes. */
  function ShutdownQueue(s: Sys, behind: seq<StoreWrite>): Pipe {
    EnqueueAll(Enqueue(s.pipe, Snapshot(s.core.mem.epoch, View(s.core.mem))), behind)
  }

  /** The final snapshot is still queued, at or behind the current epoch's reset and ahead of no other. */
  ghost predicate WillLand(p: Pipe, e: nat, v: Round, k: nat) {
    && k < |p.queue| && p.queue[k].write == Snapshot(e, v)
    && (p.st.roundEpoch == e || Has(p.queue[..k], e))
    && NoResets(p.queue[k + 1..])
  }

  ghost predicate HasLanded(p: Pipe, e: nat, v: Round) {
    p.st.roundEpoch == e && p.db.round == v && NoResets(p.queue)
  }

  ghost predicate Stopping(c: Core, p: Pipe) {
    && SysOk(Sys(c, p)) && Exact(c) && (forall i :: 0 <= i < |c.resets| ==> c.resets[i].ResetDone?)
    && NoResets(p.backlog)
    && (HasLanded(p, c.mem.epoch, View(c.mem)) || exists k: nat :: WillLand(p, c.mem.epoch, View(c.mem), k))
  }

  /** With no reset under way, what is bounded by the current epoch's mark is within memory's view. */
  lemma BoundedByView(c: Core, r: Round)
    requires CoreOk(c) && Exact(c) && Bounded(c, c.mem.epoch, r)
    requires forall i :: 0 <= i < |c.resets| ==> c.resets[i].ResetDone?
    ensures r.accepted <= View(c.mem).accepted && r.rejected <= View(c.mem).rejected && r.work <= View(c.mem).work
  {
    hide Lowest, MarkOk, SnapOk, ResetOk;
    NoneHeld(c.resets, c.mem.offset.acc, Acc);
    NoneHeld(c.resets, c.mem.offset.rej, Rej);
    assert NonePastStore(c, Acc) && NonePastStore(c, Rej);
    assert Of(c.mem.offset, Acc) <= Life(c.mem, Acc) && Of(c.mem.offset, Rej) <= Life(c.mem, Rej);
    assert Of(c.marks[c.mem.epoch].shares, Acc) == c.mem.offset.acc;
    assert Of(c.marks[c.mem.epoch].shares, Rej) == c.mem.offset.rej;
  }

  /** Every reset has finished, every write has been applied, and the current reset was not dropped. */
  predicate Quiet(s: Sys) {
    Stopped(s) && s.pipe.queue == [] && s.pipe.backlog == []
  }

  /** The persisted round never exceeds memory once things are quiet. */
  lemma QuietIsExact(s: Sys)
    requires Settling(s) && Quiet(s)
    ensures s.pipe.st.roundEpoch == s.core.mem.epoch
    ensures var (disk, mem) := (s.pipe.db.round, View(s.core.mem));
            disk.accepted <= mem.accepted && disk.rejected <= mem.rejected && disk.work <= mem.work
  {
    hide CoreOk, Exact, Bounded, View;
    BoundedByView(s.core, s.pipe.db.round);
  }

  predicate OnHealthyDisk(steps: seq<WriterStep>) {
    forall i :: 0 <= i < |steps| ==> steps[i].disk.Healthy?
  }

  /** A healthy step parks no reset and takes exactly the head of what it works on. */
  lemma HealthyStep(p: Pipe, a: WriterStep)
    requires Enabled(p, a) && a.disk.Healthy? && NoResets(p.backlog)
    ensures var q := Do(p, a);
            && NoResets(q.backlog)
            && q.queue == (if a.Taking? then p.queue[1..] else p.queue)
  {
    hide Apply;
    var t := if a.Taking? then p.queue[0] else p.backlog[0];
    HealthyReset(p.db, p.st, t.write);
  }

  lemma LandedStays(c: Core, p: Pipe, a: WriterStep)
    requires Stopping(c, p) && HasLanded(p, c.mem.epoch, View(c.mem)) && Enabled(p, a) && a.disk.Healthy?
    ensures HasLanded(Do(p, a), c.mem.epoch, View(c.mem))
  {
    hide Apply, Do, CoreOk, Bounded, Exact, View;
    var t := if a.Taking? then p.queue[0] else p.backlog[0];
    assert t in p.queue || t in p.backlog;
    HealthyStep(p, a);
    StepStore(p, a);
    ApplyRound(p.db, p.st, t.write, a.disk);
    WriterBounded(c, p, a);
    BoundedByView(c, Do(p, a).db.round);
  }

  lemma TakingHead(c: Core, p: Pipe, k: nat)
    requires Stopping(c, p) && p.queue != [] && WillLand(p, c.mem.epoch, View(c.mem), k)
    ensures var q := Do(p, Taking(Healthy));
            if k == 0 then HasLanded(q, c.mem.epoch, View(c.mem)) else WillLand(q, c.mem.epoch, View(c.mem), k - 1)
  {
    hide Apply, Do, CoreOk, Bounded, Exact, View;
    var (e, t, q) := (c.mem.epoch, p.queue[0], Do(p, Taking(Healthy)));
    assert t in p.queue;
    assert WriteOk(c, t.write);
    HealthyStep(p, Taking(Healthy));
    StepStore(p, Taking(Healthy));
    ApplyRound(p.db, p.st, t.write, Healthy);
    HealthyReset(p.db, p.st, t.write);
    WriterBounded(c, p, Taking(Healthy));
    BoundedEpoch(c, p.st.roundEpoch, p.db.round);
    if k == 0 {
      assert p.queue[..0] == [];
      HealthySnapshot(p.db, p.st, t.write);
      BoundedByView(c, q.db.round);
    } else {
      assert p.queue[1..][k..] == p.queue[k + 1..];
      assert p.queue[..k] == [t] + p.queue[1..][..k - 1];
    }
  }

  lemma HealthySnapshot(db: Db, st: WriterState, w: StoreWrite)
    requires w.Snapshot? && w.epoch == st.roundEpoch
    ensures Apply(db, st, w, Healthy).db.round == MergeRound(db.round, w.totals)
    ensures Apply(db, st, w, Healthy).st == st
  {
  }

  lemma RetryKeepsWill(c: Core, p: Pipe, k: nat)
    requires Stopping(c, p) && p.backlog != [] && WillLand(p, c.mem.epoch, View(c.mem), k)
    ensures WillLand(Do(p, Retrying(Healthy)), c.mem.epoch, View(c.mem), k)
  {
    hide Apply, Do, CoreOk, Bounded, Exact, View;
    var t := p.backlog[0];
    assert t in p.backlog;
    HealthyStep(p, Retrying(Healthy));
    StepStore(p, Retrying(Healthy));
    ApplyRound(p.db, p.st, t.write, Healthy);
  }

  lemma StoppingStays(c: Core, p: Pipe, a: WriterStep)
    requires Stopping(c, p) && Enabled(p, a) && a.disk.Healthy?
    ensures Stopping(c, Do(p, a))
  {
    hide Do, CoreOk, Bounded, Exact, View, WillLand, HasLanded;
    HealthyStep(p, a);
    WriterBounded(c, p, a);
    if HasLanded(p, c.mem.epoch, View(c.mem)) {
      LandedStays(c, p, a);
    } else {
      var k: nat :| WillLand(p, c.mem.epoch, View(c.mem), k);
      if a.Taking? {
        TakingHead(c, p, k);
      } else {
        RetryKeepsWill(c, p, k);
      }
    }
  }

  lemma {:induction false} StoppingThroughout(c: Core, p: Pipe, steps: seq<WriterStep>, q: Pipe)
    requires Stopping(c, p) && IsRun(p, steps, q) && OnHealthyDisk(steps)
    ensures Stopping(c, q)
    decreases |steps|
  {
    hide Stopping, Do, Enabled;
    if steps != [] {
      StoppingStays(c, p, steps[0]);
      StoppingThroughout(c, Do(p, steps[0]), steps[1..], q);
    }
  }

  lemma {:induction false} QueuedBehind(p: Pipe, behind: seq<StoreWrite>)
    requires forall i :: 0 <= i < |behind| ==> !behind[i].RoundReset? && !behind[i].Snapshot?
    ensures var q := EnqueueAll(p, behind);
            && |q.queue| == |p.queue| + |behind| && q.queue[..|p.queue|] == p.queue
            && (forall t :: t in q.queue[|p.queue|..] ==> !t.write.RoundReset? && !t.write.Snapshot?)
            && q.backlog == p.backlog && q.st == p.st && q.db == p.db
  {
    if behind != [] {
      QueuedBehind(p, behind[..|behind| - 1]);
      var r := EnqueueAll(p, behind[..|behind| - 1]);
      var q := EnqueueAll(p, behind);
      assert q.queue[|p.queue|..] == r.queue[|p.queue|..] + [q.queue[|q.queue| - 1]];
    }
  }

  lemma ShutdownIsStopping(s: Sys, behind: seq<StoreWrite>)
    requires Settling(s) && Stopped(s)
    requires forall i :: 0 <= i < |behind| ==> !behind[i].RoundReset? && !behind[i].Snapshot?
    ensures Stopping(s.core, ShutdownQueue(s, behind))
  {
    hide CoreOk, Exact, View, Lowest, NonePastStore, EnqueueAll;
    var (c, e, v) := (s.core, s.core.mem.epoch, View(s.core.mem));
    var (p, n) := (Enqueue(s.pipe, Snapshot(e, v)), |s.pipe.queue|);
    var q := ShutdownQueue(s, behind);
    QueuedBehind(p, behind);
    ViewIsBounded(c);
    assert q.queue[..n] == p.queue[..n] == s.pipe.queue;
    assert q.queue[n] == p.queue[n] == Ticket(s.pipe.nextId, Snapshot(e, v));
    forall t | t in q.queue
      ensures WriteOk(c, t.write)
    {
      assert t in q.queue[..n] || t == q.queue[n] || t in q.queue[n + 1..];
    }
    assert WillLand(q, e, v, n);
  }

  lemma ViewIsBounded(c: Core)
    requires CoreOk(c)
    ensures Bounded(c, c.mem.epoch, View(c.mem))
  {
    hide Lowest, SnapOk, ResetOk;
    assert MarkOk(c, c.marks[c.mem.epoch]);
    assert Of(c.marks[c.mem.epoch].shares, Acc) <= Of(c.mem.offset, Acc) <= Life(c.mem, Acc);
    assert Of(c.marks[c.mem.epoch].shares, Rej) <= Of(c.mem.offset, Rej) <= Life(c.mem, Rej);
  }

  /** A failure-free shutdown leaves the disk equal to memory, whatever was still queued ahead of the
      final snapshot and whatever is flushed behind it: so ends every run of the writer on a healthy
      disk that empties the queue. The next boot shows the same round. */
  lemma CleanStop(s: Sys, behind: seq<StoreWrite>, steps: seq<WriterStep>, q: Pipe)
    requires Settling(s) && Stopped(s)
    requires forall i :: 0 <= i < |behind| ==> !behind[i].RoundReset? && !behind[i].Snapshot?
    requires IsRun(ShutdownQueue(s, behind), steps, q) && OnHealthyDisk(steps) && q.queue == []
    ensures q.db.round == View(s.core.mem) && q.st.roundEpoch == s.core.mem.epoch
    ensures View(BootCore(q.db.round).mem) == View(s.core.mem)
  {
    hide IsRun, Settling, SysOk, Exact, View, Life, BootCore;
    ShutdownIsStopping(s, behind);
    StoppingThroughout(s.core, ShutdownQueue(s, behind), steps, q);
    BootView(View(s.core.mem));
    ViewFits(s.core.mem);
  }

  lemma {:induction false} WritesKeepSettling(c: Core, p: Pipe, steps: seq<WriterStep>, q: Pipe)
    requires Settling(Sys(c, p)) && IsRun(p, steps, q)
    ensures Settling(Sys(c, q))
    decreases |steps|
  {
    hide Settling, Do, Enabled;
    if steps != [] {
      assert Next(Sys(c, p), Writing(steps[0])) == Sys(c, Do(p, steps[0]));
      SettlingStays(Sys(c, p), Writing(steps[0]));
      WritesKeepSettling(c, Do(p, steps[0]), steps[1..], q);
    }
  }

  /** The loop retries the backlog before each new write, so parked resets do no harm as long as that
      pass empties it: the shutdown then starts from a stopped state. */
  lemma RetryThenStop(s: Sys)
    requires Settling(s) && !Has(s.pipe.lost, s.core.mem.epoch)
    requires forall i :: 0 <= i < |s.core.resets| ==> s.core.resets[i].ResetDone?
    requires forall i :: 0 <= i < |s.pipe.backlog| ==> IsDurable(s.pipe.backlog[i].write)
    requires Orderly(s.pipe.db.blocks.Keys, s.pipe.backlog)
    ensures var n := s.(pipe := RetryPass(s.pipe, AllHealthy(|s.pipe.backlog|))); Settling(n) && Stopped(n)
  {
    hide Settling, RetryPass, Orderly, IsRun;
    var p := s.pipe;
    BacklogDrainsIff(p);
    var steps := RetryPassIsRun(p, AllHealthy(|p.backlog|));
    WritesKeepSettling(s.core, p, steps, RetryPass(p, AllHealthy(|p.backlog|)));
    RetryPassFrame(p, AllHealthy(|p.backlog|));
  }

  function Takes(n: nat): seq<WriterStep> {
    seq(n, _ => Taking(Healthy))
  }

  /** Such a run exists from every queue: take its writes one after another. */
  lemma {:induction false} QueueDrains(p: Pipe) returns (q: Pipe)
    ensures IsRun(p, Takes(|p.queue|), q) && OnHealthyDisk(Takes(|p.queue|)) && q.queue == []
    decreases |p.queue|
  {
    hide Apply;
    q := p;
    if p.queue != [] {
      q := QueueDrains(Do(p, Taking(Healthy)));
      assert Takes(|p.queue|)[1..] == Takes(|p.queue| - 1);
    }
  }

  lemma ReachesNothing(s: Sys)
    ensures Reaches(s, [], s)
  {
  }

  lemma ViewFits(m: Mem)
    ensures View(m).accepted <= U64_MAX && View(m).rejected <= U64_MAX
  {
  }

  lemma BootView(r: Round)
    ensures r.accepted <= U64_MAX && r.rejected <= U64_MAX ==> View(BootCore(r).mem) == r
  {
  }

  // ---- whose reading the mark is ----

  predicate Active(t: ResetTask) {
    !t.Bumped? && !t.ResetDone?
  }

  /** What a reset has stored is still in place. */
  predicate StoredStands(m: Mem, t: ResetTask) {
    match t
    case AccStored(a) => m.offset.acc == a
    case RejLoaded(a, _) => m.offset.acc == a
    case RejStored(a, r) => m.offset == Pair(a, r)
    case Zeroed(a, r, at) => m.offset == Pair(a, r) && m.wiped == at
    case _ => true
  }

  /** At most one reset under way, and every mark is the reading of the reset that made it. */
  predicate OneAtATime(c: Core) {
    && c.marks == c.own
    && (forall i, j :: 0 <= i < |c.resets| && 0 <= j < |c.resets| && Active(c.resets[i]) && Active(c.resets[j]) ==>
       i == j)
    && (forall i :: 0 <= i < |c.resets| ==> StoredStands(c.mem, c.resets[i]))
  }

  predicate Serial(c: Core, s: MemStep) {
    s.StartReset? ==> forall i :: 0 <= i < |c.resets| ==> !Active(c.resets[i])
  }

  /** While resets do not overlap, the round of an epoch begins at that reset's own readings. */
  lemma SerialResetsOwnTheirMark(c: Core, s: MemStep)
    requires CanStep(c, s) && Serial(c, s) && OneAtATime(c)
    ensures OneAtATime(StepMem(c, s))
  {
    hide Lowest, Life;
    var d := StepMem(c, s);
    if s.ResetStep? {
      assert StoredStands(c.mem, c.resets[s.i]);
      if c.resets[s.i].Zeroed? {
        NoneHeld(c.resets, c.mem.offset.acc, Acc);
        NoneHeld(c.resets, c.mem.offset.rej, Rej);
      }
    }
    forall i | 0 <= i < |d.resets|
      ensures StoredStands(d.mem, d.resets[i])
    {
      if i < |c.resets| && d.resets[i] == c.resets[i] {
        assert StoredStands(c.mem, c.resets[i]);
      }
    }
  }

  ghost predicate SerialRun(s: Sys, acts: seq<SysStep>)
    decreases |acts|
  {
    acts == [] || (&& CanDo(s, acts[0]) && (acts[0].Memory? ==> Serial(s.core, acts[0].step))
                   && SerialRun(Next(s, acts[0]), acts[1..]))
  }

  /** With resets taken one at a time, the persisted round is at most what was counted after the
      applied reset's own readings. */
  lemma {:induction false} SerialRunsCountFromOwnReading(s: Sys, acts: seq<SysStep>, s': Sys)
    requires SysOk(s) && OneAtATime(s.core) && Reaches(s, acts, s') && SerialRun(s, acts)
    ensures SysOk(s') && OneAtATime(s'.core)
    ensures var own := s'.core.own[s'.pipe.st.roundEpoch];
            && s'.pipe.db.round.accepted + own.shares.acc <= Life(s'.core.mem, Acc)
            && s'.pipe.db.round.rejected + own.shares.rej <= Life(s'.core.mem, Rej)
            && s'.pipe.db.round.work + own.work <= s'.core.mem.wiped + s'.core.mem.work
    decreases |acts|
  {
    if acts != [] {
      var n := Next(s, acts[0]);
      StepBounded(s, acts[0]);
      assert OneAtATime(n.core) by {
        if acts[0].Memory? {
          SerialResetsOwnTheirMark(s.core, acts[0].step);
        }
      }
      SerialRunsCountFromOwnReading(n, acts[1..], s');
    }
  }

  // ---- exactly when the own reading bounds the round ----

  /** Applying the whole queue on a healthy disk applies every reset in it. */
  lemma {:induction false} DrainQueue(o: Sys, acts: seq<SysStep>, s: Sys) returns (more: seq<SysStep>, s': Sys)
    requires Reaches(o, acts, s) && NoRestart(acts) && SysOk(s)
    requires Has(s.pipe.queue, s.core.mem.epoch) || s.pipe.st.roundEpoch == s.core.mem.epoch
    ensures Reaches(o, more, s') && NoRestart(more) && SysOk(s') && s'.core == s.core && s'.pipe.queue == []
    ensures s'.pipe.st.roundEpoch == s.core.mem.epoch
    decreases |s.pipe.queue|
  {
    hide Reaches, CoreOk, Bounded;
    if s.pipe.queue == [] {
      more, s' := acts, s;
    } else {
      var (p, e) := (s.pipe, s.core.mem.epoch);
      var a := Taking(Healthy);
      more := ReachesThen(o, acts, s, Writing(a));
      var n := Next(s, Writing(a));
      WriterBounded(s.core, p, a);
      HealthyTake(s);
      more, s' := DrainQueue(o, more, n);
    }
  }

  lemma HealthyTake(s: Sys)
    requires SysOk(s) && s.pipe.queue != []
    requires Has(s.pipe.queue, s.core.mem.epoch) || s.pipe.st.roundEpoch == s.core.mem.epoch
    ensures var q := Do(s.pipe, Taking(Healthy));
            && q.queue == s.pipe.queue[1..]
            && (Has(q.queue, s.core.mem.epoch) || q.st.roundEpoch == s.core.mem.epoch)
  {
    hide Apply, CoreOk, Bounded, Park;
    var (p, e) := (s.pipe, s.core.mem.epoch);
    var t := p.queue[0];
    assert t in p.queue;
    assert WriteOk(s.core, t.write);
    StepStore(p, Taking(Healthy));
    ApplyRound(p.db, p.st, t.write, Healthy);
    HealthyReset(p.db, p.st, t.write);
    BoundedEpoch(s.core, p.st.roundEpoch, p.db.round);
    var r := Apply(p.db, p.st, t.write, Healthy);
    ParkKeepsQueue(p.(queue := p.queue[1..], db := r.db, st := r.st, capped := p.capped + r.capped), t);
    if Has(p.queue, e) && t.write != RoundReset(e) {
      var u :| u in p.queue && u.write == RoundReset(e);
      assert u in p.queue[1..];
    }
  }

  lemma HealthyReset(db: Db, st: WriterState, w: StoreWrite)
    ensures w.RoundReset? ==> Apply(db, st, w, Healthy).ok
  {
  }

  lemma {:induction false} LowestAttained(resets: seq<ResetTask>, offset: nat, f: Count)
    ensures || Lowest(resets, offset, f) == offset
            || exists i :: 0 <= i < |resets| && Holds(resets[i], f) && Held(resets[i], f) == Lowest(resets, offset, f)
  {
    if resets != [] {
      var front := resets[..|resets| - 1];
      LowestAttained(front, offset, f);
      if i :| 0 <= i < |front| && Holds(front[i], f) && Held(front[i], f) == Lowest(front, offset, f) {
        assert resets[i] == front[i];
      }
    }
  }

  function Counted(r: Round, f: Count): nat {
    if f.Acc? then r.accepted else r.rejected
  }

  /** The persisted count is within what came after the applied reset's own reading. */
  ghost predicate WithinOwn(s: Sys, f: Count) {
    var e := s.pipe.st.roundEpoch;
    e < |s.core.own| && Counted(s.pipe.db.round, f) + Of(s.core.own[e].shares, f) <= Life(s.core.mem, f)
  }

  /** Whoever holds the lowest reading stores it. */
  lemma StoreLowest(s: Sys, acts: seq<SysStep>, o: Sys, f: Count) returns (more: seq<SysStep>, s': Sys)
    requires Reaches(o, acts, s) && NoRestart(acts) && SysOk(s)
    ensures Reaches(o, more, s') && NoRestart(more) && SysOk(s') && s'.pipe == s.pipe && s'.core.own == s.core.own
    ensures s'.core.mem.epoch == s.core.mem.epoch && Life(s'.core.mem, f) == Life(s.core.mem, f)
    ensures Of(s'.core.mem.offset, f) == Lowest(s.core.resets, Of(s.core.mem.offset, f), f)
  {
    hide Reaches, CoreOk, Bounded, Lowest;
    more, s' := acts, s;
    var low := Lowest(s.core.resets, Of(s.core.mem.offset, f), f);
    LowestAttained(s.core.resets, Of(s.core.mem.offset, f), f);
    if low != Of(s.core.mem.offset, f) {
      var i :| 0 <= i < |s.core.resets| && Holds(s.core.resets[i], f) && Held(s.core.resets[i], f) == low;
      more := ReachesThen(o, acts, s, Memory(ResetStep(i)));
      s' := Next(s, Memory(ResetStep(i)));
      StepBounded(s, Memory(ResetStep(i)));
    }
  }

  /** A reset whose reading is not the lowest in play at its bump can be overcounted. */
  lemma LowerReadingOvercounts(s: Sys, j: nat, f: Count) returns (acts: seq<SysStep>, s': Sys)
    requires SysOk(s) && j < |s.core.resets| && s.core.resets[j] == Bumped(s.core.mem.epoch)
    requires Lowest(s.core.resets, Of(s.core.mem.offset, f), f) < Of(s.core.own[s.core.mem.epoch].shares, f)
    ensures Reaches(s, acts, s') && NoRestart(acts)
    ensures s'.core.mem.epoch == s.core.mem.epoch == s'.pipe.st.roundEpoch && !WithinOwn(s', f)
  {
    var (c, e) := (s.core, s.core.mem.epoch);
    hide Reaches, CoreOk, Bounded, Lowest;
    ReachesNothing(s);
    acts := ReachesThen(s, [], s, Memory(ResetStep(j)));
    var s1 := Next(s, Memory(ResetStep(j)));
    StepBounded(s, Memory(ResetStep(j)));
    assert CoreOk(c) by { OkCore(s); }
    LowestStays(c, ResetStep(j), f);
    var t := Ticket(s.pipe.nextId, RoundReset(e));
    assert s1.pipe.queue == s.pipe.queue + [t];
    assert t in s1.pipe.queue;
    var s2;
    acts, s2 := StoreLowest(s1, acts, s, f);
    var s3;
    acts, s3 := DrainQueue(s, acts, s2);
    acts, s' := SnapshotLands(s, acts, s3);
    OffsetFits(s3.core, f);
  }

  lemma OffsetFits(c: Core, f: Count)
    requires CoreOk(c)
    ensures Of(c.mem.offset, f) <= Life(c.mem, f)
  {
  }

  /** Within one boot, marks and readings of past epochs stand. */
  lemma {:induction false} RecordStands(s: Sys, acts: seq<SysStep>, s': Sys)
    requires Reaches(s, acts, s') && NoRestart(acts)
    ensures s.core.marks <= s'.core.marks && s.core.own <= s'.core.own
    decreases |acts|
  {
    hide Lowest, Life, Do;
    if acts != [] {
      var n := Next(s, acts[0]);
      assert s.core.marks <= n.core.marks && s.core.own <= n.core.own by { StepRecord(s, acts[0]); }
      RecordStands(n, acts[1..], s');
    }
  }

  lemma StepRecord(s: Sys, a: SysStep)
    requires CanDo(s, a) && !a.Restart?
    ensures s.core.marks <= Next(s, a).core.marks && s.core.own <= Next(s, a).core.own
  {
    hide Lowest, Life, Do;
  }

  /** The exact condition, checkable at the bump: in every continuation of this boot the persisted
      accepted or rejected count of the new epoch stays within the reset's own reading, if and only
      if no other reset's reading then in play is lower. */
  lemma OwnReadingBoundsIff(s0: Sys, j: nat, f: Count)
    requires SysOk(s0) && j < |s0.core.resets| && s0.core.resets[j].Zeroed?
    ensures var s := Next(s0, Memory(ResetStep(j)));
            var e := s.core.mem.epoch;
            (forall acts, s' :: Reaches(s, acts, s') && NoRestart(acts) && s'.pipe.st.roundEpoch == e ==>
               WithinOwn(s', f))
            <==> OwnReading(s0.core.resets[j], f) <= Lowest(s0.core.resets, Of(s0.core.mem.offset, f), f)
  {
    hide Lowest, CoreOk, Bounded, Reaches, WithinOwn;
    var s := Next(s0, Memory(ResetStep(j)));
    var e := s.core.mem.epoch;
    var low := Lowest(s0.core.resets, Of(s0.core.mem.offset, f), f);
    StepBounded(s0, Memory(ResetStep(j)));
    assert CoreOk(s0.core) by { OkCore(s0); }
    LowestStays(s0.core, ResetStep(j), f);
    BumpRecords(s0.core, j, f);
    if OwnReading(s0.core.resets[j], f) <= low {
      forall acts, s' | Reaches(s, acts, s') && NoRestart(acts) && s'.pipe.st.roundEpoch == e
        ensures WithinOwn(s', f)
      {
        NeverResurrected(s, acts, s');
        RecordStands(s, acts, s');
        MarkedWithin(s', e, f, low);
      }
    } else {
      var acts, s' := LowerReadingOvercounts(s, j, f);
    }
  }

  function OwnReading(t: ResetTask, f: Count): nat
    requires t.Zeroed?
  {
    Of(Pair(t.acc, t.rej), f)
  }

  lemma BumpRecords(c: Core, j: nat, f: Count)
    requires CoreOk(c) && j < |c.resets| && c.resets[j].Zeroed?
    ensures var d := StepReset(c, j);
            && d.mem.epoch == c.mem.epoch + 1 < |d.marks| == |d.own|
            && d.resets[j] == Bumped(d.mem.epoch)
            && Of(d.marks[d.mem.epoch].shares, f) == Lowest(c.resets, Of(c.mem.offset, f), f)
            && Of(d.own[d.mem.epoch].shares, f) == OwnReading(c.resets[j], f)
  {
  }

  lemma MarkedWithin(s: Sys, e: nat, f: Count, low: nat)
    requires SysOk(s) && e == s.pipe.st.roundEpoch && e < |s.core.marks| && Of(s.core.marks[e].shares, f) == low
    requires e < |s.core.own| && Of(s.core.own[e].shares, f) <= low
    ensures WithinOwn(s, f)
  {
  }

  const Start := Sys(BootCore(Store.Round(0, 0, 0)), EmptyPipe)

  lemma StartSettles()
    ensures Settling(Start) && OneAtATime(Start.core)
  {
    hide Lowest;
    BootBounded(Store.Round(0, 0, 0));
    BootSettled(Start);
  }

  lemma Go(acts: seq<SysStep>, s: Sys, step: MemStep, d: Core) returns (more: seq<SysStep>, n: Sys)
    requires Reaches(Start, acts, s) && CanStep(s.core, step) && StepMem(s.core, step) == d
             && Emitted(s.core, step).None?
    ensures n == Sys(d, s.pipe) && Reaches(Start, more, n)
  {
    hide Reaches, StepMem;
    n := Next(s, Memory(step));
    more := ReachesThen(Start, acts, s, Memory(step));
  }

  /** Two blocks found at once: the first reset reads nothing, the second one share. */
  lemma TwoReadings() returns (acts: seq<SysStep>, s: Sys)
    ensures Reaches(Start, acts, s)
    ensures var zero := [Mark(Pair(0, 0), 0)];
            var m := Mem(Pair(0, 0), Pair(1, 0), Pair(0, 0), 0, 0, 0);
            s == Sys(Core(m, [AccLoaded(0), AccLoaded(1)], [], zero, zero), EmptyPipe)
  {
    hide Reaches;
    var marks := [Mark(Pair(0, 0), 0)];
    var m0 := Mem(Pair(0, 0), Pair(0, 0), Pair(0, 0), 0, 0, 0);
    var m1 := m0.(count := Pair(1, 0));
    ReachesNothing(Start);
    acts, s := Go([], Start, StartReset, Core(m0, [AccLoaded(0)], [], marks, marks));
    acts, s := Go(acts, s, CountShare(Acc), Core(m1, [AccLoaded(0)], [], marks, marks));
    acts, s := Go(acts, s, StartReset, Core(m1, [AccLoaded(0), AccLoaded(1)], [], marks, marks));
  }

  /** The second runs to its bump. */
  lemma TwoResets() returns (acts: seq<SysStep>, s: Sys)
    ensures Reaches(Start, acts, s)
    ensures var zero := Mark(Pair(0, 0), 0);
            s == Sys(Core(Mem(Pair(0, 0), Pair(1, 0), Pair(1, 0), 0, 1, 0), [AccLoaded(0), Bumped(1)], [],
                          [zero, zero], [zero, Mark(Pair(1, 0), 0)]), EmptyPipe)
  {
    hide Reaches;
    var zero := Mark(Pair(0, 0), 0);
    var (first, marks) := (AccLoaded(0), [zero]);
    acts, s := TwoReadings();
    var m2 := s.core.mem.(offset := Pair(1, 0));
    acts, s := Go(acts, s, ResetStep(1), Core(m2, [first, AccStored(1)], [], marks, marks));
    acts, s := Go(acts, s, ResetStep(1), Core(m2, [first, RejLoaded(1, 0)], [], marks, marks));
    acts, s := Go(acts, s, ResetStep(1), Core(m2, [first, RejStored(1, 0)], [], marks, marks));
    acts, s := Go(acts, s, ResetStep(1), Core(m2, [first, Zeroed(1, 0, 0)], [], marks, marks));
    LowestIff(s.core.resets, 1, Acc, 1);
    LowestIff(s.core.resets, 0, Rej, 1);
    acts, s := Go(acts, s, ResetStep(1),
                  Core(m2.(epoch := 1), [first, Bumped(1)], [], [zero, zero], [zero, Mark(Pair(1, 0), 0)]));
  }

  /** Overlapping resets do not keep the own-reading bound: the first reset's late store makes a
      share counted before the second reset reappear under the second reset's epoch. */
  lemma OverlappingResetsOvercount() returns (acts: seq<SysStep>, s: Sys)
    ensures Reaches(Start, acts, s)
    ensures s.pipe.st.roundEpoch < |s.core.own|
    ensures s.pipe.db.round.accepted + s.core.own[s.pipe.st.roundEpoch].shares.acc > Life(s.core.mem, Acc)
  {
    hide Reaches;
    acts, s := TwoResets();
    var (m, marks, own) := (s.core.mem.(offset := Pair(0, 0)), s.core.marks, s.core.own);
    acts := ReachesThen(Start, acts, s, Memory(ResetStep(1)));
    s := Next(s, Memory(ResetStep(1)));
    assert s.pipe.queue == [Ticket(0, RoundReset(1))];
    acts := ReachesThen(Start, acts, s, Writing(Taking(Healthy)));
    s := Next(s, Writing(Taking(Healthy)));
    assert s.pipe.st.roundEpoch == 1 && s.pipe.queue == [];
    var tasks := [AccStored(0), ResetDone];
    acts, s := Go(acts, s, ResetStep(0), Core(m, tasks, [], marks, own));
    acts, s := Go(acts, s, StartSnap, Core(m, tasks, [EpochRead(1)], marks, own));
    acts, s := Go(acts, s, SnapStep(0), Core(m, tasks, [AccRead(1, 1)], marks, own));
    acts, s := Go(acts, s, SnapStep(0), Core(m, tasks, [AccDone(1, 1)], marks, own));
    acts, s := Go(acts, s, SnapStep(0), Core(m, tasks, [RejRead(1, 1, 0)], marks, own));
    acts, s := Go(acts, s, SnapStep(0), Core(m, tasks, [RejDone(1, 1, 0)], marks, own));
    acts, s := Go(acts, s, SnapStep(0), Core(m, tasks, [WorkDone(1, Store.Round(1, 0, 0))], marks, own));
    acts := ReachesThen(Start, acts, s, Memory(SnapStep(0)));
    s := Next(s, Memory(SnapStep(0)));
    assert s.pipe.queue == [Ticket(1, Snapshot(1, Store.Round(1, 0, 0)))];
    acts := ReachesThen(Start, acts, s, Writing(Taking(Healthy)));
    s := Next(s, Writing(Taking(Healthy)));
    assert s.pipe.db.round.accepted == 1;
  }
}
