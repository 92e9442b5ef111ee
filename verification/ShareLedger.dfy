/** The share ledger end to end: staging per worker-minute, the hand-over to the writer, the tables.
    Conservation over every interleaving, clock reading, disk failure and restart. */
module ShareLedger {
  import opened Bytes
  import opened Options
  import opened Ledgers
  import opened WorkHistory
  import opened Store
  import opened Writer

  const LEDGER_INTERVAL_SECS := 60

  function MinuteOf(now: nat): nat {
    Floor(now, LEDGER_INTERVAL_SECS)
  }

  /** The minute a clock reading lies in. */
  predicate Within(now: nat, minute: nat) {
    minute % 60 == 0 && minute <= now < minute + 60
  }

  lemma WithinItsMinute(now: nat)
    ensures Within(now, MinuteOf(now))
  {
    OnGridIff(now, LEDGER_INTERVAL_SECS);
    SinceIs(now, LEDGER_INTERVAL_SECS);
  }

  lemma OneMinute(now: nat, m: nat, n: nat)
    requires Within(now, m) && Within(now, n)
    ensures m == n
  {
  }

  /** 64-bit saturating addition, field by field. */
  function SatPlus(a: Amounts, b: Amounts): Amounts {
    Amounts(Min(U64_MAX, a.work + b.work), Min(U64_MAX, a.accepted + b.accepted), Min(U64_MAX, a.rejected + b.rejected))
  }

  /** What saturation cuts off. */
  function Excess(a: Amounts, b: Amounts): Amounts {
    Amounts(a.work + b.work - Min(U64_MAX, a.work + b.work),
            a.accepted + b.accepted - Min(U64_MAX, a.accepted + b.accepted),
            a.rejected + b.rejected - Min(U64_MAX, a.rejected + b.rejected))
  }

  type Pending = map<string, Amounts>

  /** entries lists the pending map, in whatever order the drain produced. */
  predicate Enumerates(entries: seq<LedgerEntry>, pending: Pending) {
    if entries == [] then pending == map[]
    else
      var e := entries[0];
      e.worker in pending && pending[e.worker] == e.amounts && Enumerates(entries[1..], pending - {e.worker})
  }

  datatype Stage = Stage(minuteTs: nat, pending: Pending)

  /** The minute closed by a clock reading: only a later minute closes the open one. */
  predicate Closes(s: Stage, now: nat) {
    MinuteOf(now) > s.minuteTs
  }

  function Rolled(s: Stage, now: nat): Stage {
    if Closes(s, now) then Stage(MinuteOf(now), map[]) else s
  }

  function Staged(s: Stage, name: string, a: Amounts): Stage {
    s.(pending := s.pending[name := SatPlus(Get(s.pending, name), a)])
  }

  /** The accumulator behind its mutex. */
  class LedgerAccum {
    var minuteTs: nat
    var pending: Pending

    ghost predicate Valid()
      reads this
    {
      minuteTs % 60 == 0
    }

    constructor (now: nat)
      ensures Valid() && View() == Stage(MinuteOf(now), map[]) && Within(now, minuteTs)
    {
      minuteTs := MinuteOf(now);
      pending := map[];
      new;
      WithinItsMinute(now);
    }

    function View(): Stage
      reads this
    {
      Stage(minuteTs, pending)
    }

    /** Drain the open minute without closing it. */
    method TakeOpen() returns (closed: Option<StoreWrite>)
      modifies this`pending
      ensures pending == map[]
      ensures closed.None? <==> old(pending) == map[]
      ensures closed.Some? ==> closed.value.Ledger? && closed.value.minuteTs == minuteTs
                               && Enumerates(closed.value.entries, old(pending))
    {
      if pending == map[] {
        return None;
      }
      var entries: seq<LedgerEntry> := [];
      ghost var whole := pending;
      forall rest | Enumerates(rest, pending)
        ensures Enumerates(entries + rest, whole)
      {
        assert entries + rest == rest;
      }
      while pending != map[]
        invariant forall rest :: Enumerates(rest, pending) ==> Enumerates(entries + rest, whole)
        decreases pending.Keys
      {
        var worker :| worker in pending;
        ghost var (before, done, e) := (pending, entries, LedgerEntry(worker, pending[worker]));
        entries := entries + [LedgerEntry(worker, pending[worker])];
        pending := pending - {worker};
        forall rest | Enumerates(rest, pending)
          ensures Enumerates(entries + rest, whole)
        {
          assert ([e] + rest)[1..] == rest;
          assert Enumerates([e] + rest, before);
          assert entries + rest == done + ([e] + rest);
        }
      }
      assert Enumerates([], pending);
      assert entries + [] == entries;
      closed := Some(Ledger(minuteTs, entries));
    }

    /** Advance to the minute of now. A clock stepped backwards reopens nothing. */
    method RollTo(now: nat) returns (closed: Option<StoreWrite>)
      requires Valid()
      modifies this
      ensures Valid() && View() == Rolled(old(View()), now)
      ensures if now < old(minuteTs) then minuteTs == old(minuteTs) else Within(now, minuteTs)
      ensures closed.Some? <==> now >= old(minuteTs) + 60 && old(pending) != map[]
      ensures closed.Some? ==> closed.value.Ledger? && closed.value.minuteTs == old(minuteTs)
                               && Enumerates(closed.value.entries, old(pending))
    {
      var minute := MinuteOf(now);
      WithinItsMinute(now);
      if minute <= minuteTs {
        return None;
      }
      closed := TakeOpen();
      minuteTs := minute;
    }

    method Record(name: string, a: Amounts, now: nat) returns (closed: Option<StoreWrite>)
      requires Valid()
      modifies this
      ensures Valid() && View() == Staged(Rolled(old(View()), now), name, a)
      ensures if now < old(minuteTs) then minuteTs == old(minuteTs) else Within(now, minuteTs)
      ensures closed.Some? <==> now >= old(minuteTs) + 60 && old(pending) != map[]
      ensures closed.Some? ==> closed.value.Ledger? && closed.value.minuteTs == old(minuteTs)
                               && Enumerates(closed.value.entries, old(pending))
    {
      closed := RollTo(now);
      pending := pending[name := SatPlus(Get(pending, name), a)];
    }
  }

  // ---- the system ----

  /** recorded is everything the share path was told to record, in order, clocks when each was, and
      saturated what staging it cut off. crashed holds the minutes that died before the channel. */
  datatype World = World(recorded: seq<LedgerEntry>, clocks: seq<nat>, stage: Stage, inFlight: seq<StoreWrite>,
                         pipe: Pipe, saturated: seq<LedgerEntry>, crashed: seq<StoreWrite>)

  /** A closed minute leaves the lock first and reaches the channel later, so several can be in
      flight and overtake each other. listed is the order a drain happened to produce. */
  datatype Action =
    | Record(name: string, amounts: Amounts, now: nat, listed: seq<LedgerEntry>)
    | Tick(now: nat, listed: seq<LedgerEntry>)
    | FlushPartial(listed: seq<LedgerEntry>)
    | HandOver(i: nat)
    | EnqueueOther(write: StoreWrite)
    | Writing(step: WriterStep)
    | Restart(now: nat, listed: seq<LedgerEntry>)

  ghost predicate CanDo(w: World, a: Action) {
    match a
    case Record(_, _, now, listed) => Closes(w.stage, now) ==> Enumerates(listed, w.stage.pending)
    case Tick(now, listed) => Closes(w.stage, now) ==> Enumerates(listed, w.stage.pending)
    case FlushPartial(listed) => Enumerates(listed, w.stage.pending)
    case HandOver(i) => i < |w.inFlight|
    case EnqueueOther(write) => !write.Ledger?
    case Writing(step) => Enabled(w.pipe, step)
    case Restart(_, listed) => Enumerates(listed, w.stage.pending)
  }

  /** The minute a drain hands out; an empty minute hands out nothing. */
  function Closed(minuteTs: nat, listed: seq<LedgerEntry>): seq<StoreWrite> {
    if listed == [] then [] else [Ledger(minuteTs, listed)]
  }

  function RollWorld(w: World, now: nat, listed: seq<LedgerEntry>): World {
    if Closes(w.stage, now)
    then w.(stage := Rolled(w.stage, now), inFlight := w.inFlight + Closed(w.stage.minuteTs, listed))
    else w
  }

  function StageShare(w: World, name: string, a: Amounts, now: nat): World {
    var old' := Get(w.stage.pending, name);
    w.(stage := Staged(w.stage, name, a),
       recorded := w.recorded + [LedgerEntry(name, a)],
       clocks := w.clocks + [now],
       saturated := w.saturated + [LedgerEntry(name, Excess(old', a))])
  }

  /** The process dies with whatever is not on disk, and starts over on the same database. */
  function Reboot(w: World, now: nat, listed: seq<LedgerEntry>): World {
    World(w.recorded, w.clocks, Stage(MinuteOf(now), map[]), [], Restarted(w.pipe),
          w.saturated, w.crashed + (w.inFlight + Closed(w.stage.minuteTs, listed)))
  }

  function EntriesIn(w: StoreWrite): seq<LedgerEntry> {
    if w.Ledger? then w.entries else []
  }

  function AllEntries(writes: seq<StoreWrite>): seq<LedgerEntry> {
    if writes == [] then [] else AllEntries(writes[..|writes| - 1]) + EntriesIn(writes[|writes| - 1])
  }

  ghost function Next(w: World, a: Action): World
    requires CanDo(w, a)
  {
    match a
    case Record(name, amounts, now, listed) => StageShare(RollWorld(w, now, listed), name, amounts, now)
    case Tick(now, listed) => RollWorld(w, now, listed)
    case FlushPartial(listed) =>
      w.(stage := w.stage.(pending := map[]), inFlight := w.inFlight + Closed(w.stage.minuteTs, listed))
    case HandOver(i) =>
      w.(inFlight := w.inFlight[..i] + w.inFlight[i + 1..], pipe := Enqueue(w.pipe, w.inFlight[i]))
    case EnqueueOther(write) => w.(pipe := Enqueue(w.pipe, write))
    case Writing(step) => w.(pipe := Do(w.pipe, step))
    case Restart(now, listed) => Reboot(w, now, listed)
  }

  // ---- the books ----

  datatype Field = Work | Accepted | Rejected

  function Val(a: Amounts, f: Field): nat {
    match f
    case Work => a.work
    case Accepted => a.accepted
    case Rejected => a.rejected
  }

  lemma ValPlus(a: Amounts, b: Amounts, f: Field)
    ensures Val(Plus(a, b), f) == Val(a, f) + Val(b, f)
  {
  }

  function NamesOf(k: WorkerKey): string -> bool {
    name => SplitName(name) == k
  }

  ghost function InStage(w: World, k: WorkerKey, f: Field): nat {
    Val(Total(w.stage.pending, NamesOf(k)), f)
  }

  function InEntries(es: seq<LedgerEntry>, k: WorkerKey, f: Field): nat {
    Val(EntriesTotal(es, k), f)
  }

  function InTickets(ts: seq<Ticket>, k: WorkerKey, f: Field): nat {
    if ts == [] then 0 else InTickets(ts[..|ts| - 1], k, f) + Val(WriteTotal(ts[|ts| - 1].write, k), f)
  }

  ghost function OnDisk(w: World, k: WorkerKey, f: Field): nat {
    Val(LedgerTotal(w.pipe.db, k), f)
  }

  /** Recorded = staged + in flight + queued + parked + minute and hourly rows, plus the four explicit
      losses: saturation, the worker cap, backlog overflow or an unclean stop, staged at a stop. */
  ghost predicate Balanced(w: World, k: WorkerKey, f: Field) {
    InEntries(w.recorded, k, f)
    == InStage(w, k, f) + InEntries(AllEntries(w.inFlight), k, f)
       + InTickets(w.pipe.queue, k, f) + InTickets(w.pipe.backlog, k, f) + OnDisk(w, k, f)
       + InEntries(w.saturated, k, f) + InEntries(w.pipe.capped, k, f)
       + InTickets(w.pipe.lost, k, f) + InTickets(w.pipe.dead, k, f) + InEntries(AllEntries(w.crashed), k, f)
  }

  // ---- staging ----

  lemma {:induction false} DrainTotal(listed: seq<LedgerEntry>, pending: Pending, k: WorkerKey)
    requires Enumerates(listed, pending)
    ensures EntriesTotal(listed, k) == Total(pending, NamesOf(k))
  {
    hide Sum, Total, Selected, Where, Plus, SplitName, FirstDot, EntriesTotal, NamesOf;
    if listed == [] {
      NothingTotal(k);
    } else {
      var (e, rest) := (listed[0], listed[1..]);
      DrainTotal(rest, pending - {e.worker}, k);
      assert listed == [e] + rest;
      EntriesTotalConcat([e], rest, k);
      OneEntry(e, k);
      TotalDrop(pending, e.worker, NamesOf(k));
      NamesOfIs(e.worker, k);
      PlusComm(Share(e, k), EntriesTotal(rest, k));
    }
  }

  lemma NothingTotal(k: WorkerKey)
    ensures EntriesTotal([], k) == Zero
    ensures Total<string>(map[], NamesOf(k)) == Zero
  {
    hide Sum, SplitName, FirstDot, Plus;
    var none: Pending := map[];
    NoneSumsToZero(none, NamesOf(k));
  }

  lemma OneEntry(e: LedgerEntry, k: WorkerKey)
    ensures EntriesTotal([e], k) == Share(e, k)
  {
    hide SplitName, FirstDot, Plus;
    assert [e][..0] == [];
    PlusZero(e.amounts);
  }

  lemma NamesOfIs(name: string, k: WorkerKey)
    ensures NamesOf(k)(name) == (SplitName(name) == k)
  {
    hide SplitName, FirstDot;
  }

  /** Saturation loses what does not fit in 64 bits, and nothing else. */
  lemma SaturationSplits(a: Amounts, b: Amounts)
    ensures Plus(SatPlus(a, b), Excess(a, b)) == Plus(a, b)
    ensures forall f :: Val(SatPlus(a, b), f) <= U64_MAX
    ensures forall f :: Val(Excess(a, b), f) > 0 ==> Val(SatPlus(a, b), f) == U64_MAX
  {
  }

  lemma StageTotal(pending: Pending, name: string, a: Amounts, k: WorkerKey, f: Field)
    ensures var kept := pending[name := SatPlus(Get(pending, name), a)];
            Val(Total(kept, NamesOf(k)), f) + Val(Share(LedgerEntry(name, Excess(Get(pending, name), a)), k), f)
            == Val(Total(pending, NamesOf(k)), f) + Val(Share(LedgerEntry(name, a), k), f)
  {
    hide Total, Plus, SplitName, FirstDot, SatPlus, Excess, NamesOf, Val;
    var (p, b) := (NamesOf(k), Get(pending, name));
    var (n, x) := (SatPlus(b, a), Excess(b, a));
    SaturationSplits(b, a);
    TotalReplace(pending, name, a, n, x, p);
    NamesOfIs(name, k);
    ValPlus(Total(pending[name := n], p), if p(name) then x else Zero, f);
    ValPlus(Total(pending, p), if p(name) then a else Zero, f);
  }

  // ---- lists of writes ----

  lemma InEntriesSnoc(es: seq<LedgerEntry>, e: LedgerEntry, k: WorkerKey, f: Field)
    ensures InEntries(es + [e], k, f) == InEntries(es, k, f) + Val(Share(e, k), f)
  {
    assert (es + [e])[..|es|] == es;
    ValPlus(EntriesTotal(es, k), e.amounts, f);
  }

  lemma InEntriesConcat(a: seq<LedgerEntry>, b: seq<LedgerEntry>, k: WorkerKey, f: Field)
    ensures InEntries(a + b, k, f) == InEntries(a, k, f) + InEntries(b, k, f)
  {
    EntriesTotalConcat(a, b, k);
    ValPlus(EntriesTotal(a, k), EntriesTotal(b, k), f);
  }

  lemma {:induction false} AllEntriesConcat(a: seq<StoreWrite>, b: seq<StoreWrite>)
    ensures AllEntries(a + b) == AllEntries(a) + AllEntries(b)
  {
    hide EntriesIn;
    if b == [] {
      assert a + b == a;
    } else {
      assert (a + b)[..|a + b| - 1] == a + b[..|b| - 1];
      AllEntriesConcat(a, b[..|b| - 1]);
    }
  }

  lemma OneWrite(w: StoreWrite, k: WorkerKey, f: Field)
    ensures InEntries(AllEntries([w]), k, f) == Val(WriteTotal(w, k), f)
  {
    assert [w][..0] == [];
    assert AllEntries([w]) == EntriesIn(w);
  }

  lemma ClosedTotal(minuteTs: nat, listed: seq<LedgerEntry>, k: WorkerKey, f: Field)
    ensures InEntries(AllEntries(Closed(minuteTs, listed)), k, f) == InEntries(listed, k, f)
  {
    if listed != [] {
      OneWrite(Ledger(minuteTs, listed), k, f);
    }
  }

  lemma InTicketsSnoc(ts: seq<Ticket>, t: Ticket, k: WorkerKey, f: Field)
    ensures InTickets(ts + [t], k, f) == InTickets(ts, k, f) + Val(WriteTotal(t.write, k), f)
  {
    assert (ts + [t])[..|ts|] == ts;
  }

  lemma {:induction false} InTicketsConcat(a: seq<Ticket>, b: seq<Ticket>, k: WorkerKey, f: Field)
    ensures InTickets(a + b, k, f) == InTickets(a, k, f) + InTickets(b, k, f)
  {
    if b == [] {
      assert a + b == a;
    } else {
      assert (a + b)[..|a + b| - 1] == a + b[..|b| - 1];
      InTicketsConcat(a, b[..|b| - 1], k, f);
    }
  }

  lemma InTicketsHead(ts: seq<Ticket>, k: WorkerKey, f: Field)
    requires ts != []
    ensures InTickets(ts, k, f) == Val(WriteTotal(ts[0].write, k), f) + InTickets(ts[1..], k, f)
  {
    assert ts == [ts[0]] + ts[1..];
    InTicketsConcat([ts[0]], ts[1..], k, f);
    InTicketsSnoc([], ts[0], k, f);
    assert [] + [ts[0]] == [ts[0]];
  }

  // ---- the writer's part of the books ----

  ghost function InPipe(p: Pipe, k: WorkerKey, f: Field): nat {
    InTickets(p.queue, k, f) + InTickets(p.backlog, k, f) + Val(LedgerTotal(p.db, k), f)
    + InEntries(p.capped, k, f) + InTickets(p.lost, k, f) + InTickets(p.dead, k, f)
  }

  ghost predicate StoreOk(p: Pipe) {
    DbOk(p.db) && CacheOk(p.db.workers, p.st.workerIds)
  }

  lemma ApplyBooks(p: Pipe, w: StoreWrite, disk: Disk, k: WorkerKey, f: Field)
    requires StoreOk(p)
    ensures var r := Apply(p.db, p.st, w, disk);
            && DbOk(r.db) && CacheOk(r.db.workers, r.st.workerIds)
            && Val(LedgerTotal(r.db, k), f) + InEntries(p.capped + r.capped, k, f)
               == Val(LedgerTotal(p.db, k), f) + InEntries(p.capped, k, f)
                  + (if r.ok then Val(WriteTotal(w, k), f) else 0)
  {
    hide Apply, Plus, LedgerTotal, EntriesTotal, DbOk, CacheOk;
    var r := Apply(p.db, p.st, w, disk);
    ApplyConserves(p.db, p.st, w, disk, k);
    InEntriesConcat(p.capped, r.capped, k, f);
    ValPlus(LedgerTotal(r.db, k), EntriesTotal(r.capped, k), f);
    ValPlus(LedgerTotal(p.db, k), if r.ok then WriteTotal(w, k) else Zero, f);
  }

  lemma ParkBooks(p: Pipe, t: Ticket, k: WorkerKey, f: Field)
    ensures InPipe(Park(p, t), k, f) == InPipe(p, k, f) + Val(WriteTotal(t.write, k), f)
  {
    hide LedgerTotal, EntriesTotal, WriteTotal, InTickets;
    if |p.backlog| >= MAX_WRITE_BACKLOG {
      InTicketsHead(p.backlog, k, f);
      InTicketsSnoc(p.backlog[1..], t, k, f);
      InTicketsSnoc(p.lost, p.backlog[0], k, f);
    } else {
      InTicketsSnoc(p.backlog, t, k, f);
    }
  }

  lemma StepBooks(p: Pipe, s: WriterStep, k: WorkerKey, f: Field)
    requires StoreOk(p) && Enabled(p, s)
    ensures StoreOk(Do(p, s)) && InPipe(Do(p, s), k, f) == InPipe(p, k, f)
  {
    hide Apply, LedgerTotal, EntriesTotal, InTickets, DbOk, CacheOk, Park;
    match s
    case Taking(disk) =>
      var t := p.queue[0];
      var r := Apply(p.db, p.st, t.write, disk);
      InTicketsHead(p.queue, k, f);
      ApplyBooks(p, t.write, disk, k, f);
      var q := p.(queue := p.queue[1..], db := r.db, st := r.st, capped := p.capped + r.capped);
      ParkBooks(q, t, k, f);
      assert Park(q, t).db == q.db && Park(q, t).st == q.st by {
        ParkKeepsQueue(q, t);
      }
    case Retrying(disk) =>
      InTicketsHead(p.backlog, k, f);
      ApplyBooks(p, p.backlog[0].write, disk, k, f);
  }

  lemma EnqueueBooks(p: Pipe, w: StoreWrite, k: WorkerKey, f: Field)
    ensures InPipe(Enqueue(p, w), k, f) == InPipe(p, k, f) + Val(WriteTotal(w, k), f)
  {
    InTicketsSnoc(p.queue, Ticket(p.nextId, w), k, f);
  }

  // ---- every action keeps the books ----

  ghost predicate WorldOk(w: World) {
    && StoreOk(w.pipe) && PipeOk(w.pipe)
    && forall k, f :: Balanced(w, k, f)
  }

  lemma RollBalanced(w: World, now: nat, listed: seq<LedgerEntry>, k: WorkerKey, f: Field)
    requires Closes(w.stage, now) ==> Enumerates(listed, w.stage.pending)
    requires Balanced(w, k, f)
    ensures Balanced(RollWorld(w, now, listed), k, f)
  {
    hide Total, EntriesTotal, InTickets, LedgerTotal, AllEntries, NamesOf, SplitName, FirstDot, Closed, Enumerates;
    if Closes(w.stage, now) {
      DrainBalanced(w.stage.pending, w.stage.minuteTs, w.inFlight, listed, k, f);
    }
  }

  /** A drain moves the staged amounts into flight. */
  lemma DrainBalanced(pending: Pending, minuteTs: nat, inFlight: seq<StoreWrite>, listed: seq<LedgerEntry>,
                      k: WorkerKey, f: Field)
    requires Enumerates(listed, pending)
    ensures InEntries(AllEntries(inFlight + Closed(minuteTs, listed)), k, f)
         == InEntries(AllEntries(inFlight), k, f) + Val(Total(pending, NamesOf(k)), f)
    ensures Val(Total(map[], NamesOf(k)), f) == 0
  {
    hide EntriesTotal, AllEntries, Closed;
    DrainTotal(listed, pending, k);
    ClosedTotal(minuteTs, listed, k, f);
    AllEntriesConcat(inFlight, Closed(minuteTs, listed));
    InEntriesConcat(AllEntries(inFlight), AllEntries(Closed(minuteTs, listed)), k, f);
    var none: Pending := map[];
    NoneSumsToZero(none, NamesOf(k));
  }

  lemma ShareBalanced(w: World, name: string, a: Amounts, now: nat, k: WorkerKey, f: Field)
    requires Balanced(w, k, f)
    ensures Balanced(StageShare(w, name, a, now), k, f)
  {
    hide Total, EntriesTotal, InTickets, LedgerTotal, AllEntries, NamesOf, SplitName, FirstDot, SatPlus, Excess,
         Enumerates;
    var x := Excess(Get(w.stage.pending, name), a);
    StageTotal(w.stage.pending, name, a, k, f);
    InEntriesSnoc(w.recorded, LedgerEntry(name, a), k, f);
    InEntriesSnoc(w.saturated, LedgerEntry(name, x), k, f);
  }

  lemma Unflown(writes: seq<StoreWrite>, i: nat, k: WorkerKey, f: Field)
    requires i < |writes|
    ensures InEntries(AllEntries(writes), k, f)
         == InEntries(AllEntries(writes[..i] + writes[i + 1..]), k, f) + Val(WriteTotal(writes[i], k), f)
  {
    hide EntriesTotal, AllEntries, SplitName, Val, WriteTotal;
    var (before, x, after) := (writes[..i], writes[i], writes[i + 1..]);
    assert writes == before + [x] + after;
    AllEntriesConcat(before + [x], after);
    AllEntriesConcat(before, [x]);
    AllEntriesConcat(before, after);
    InEntriesConcat(AllEntries(before) + AllEntries([x]), AllEntries(after), k, f);
    InEntriesConcat(AllEntries(before), AllEntries([x]), k, f);
    InEntriesConcat(AllEntries(before), AllEntries(after), k, f);
    OneWrite(x, k, f);
  }

  lemma RebootBalanced(w: World, now: nat, listed: seq<LedgerEntry>, k: WorkerKey, f: Field)
    requires Enumerates(listed, w.stage.pending) && Balanced(w, k, f)
    ensures Balanced(Reboot(w, now, listed), k, f)
  {
    hide Total, EntriesTotal, InTickets, LedgerTotal, AllEntries, NamesOf, SplitName, FirstDot, Enumerates;
    var p := w.pipe;
    DrainBalanced(w.stage.pending, w.stage.minuteTs, w.inFlight, listed, k, f);
    AllEntriesConcat(w.crashed, w.inFlight + Closed(w.stage.minuteTs, listed));
    InEntriesConcat(AllEntries(w.crashed), AllEntries(w.inFlight + Closed(w.stage.minuteTs, listed)), k, f);
    InTicketsConcat(p.dead, p.lost, k, f);
    InTicketsConcat(p.dead + p.lost, p.backlog, k, f);
    InTicketsConcat(p.dead + p.lost + p.backlog, p.queue, k, f);
    NothingBooked(k, f);
  }

  lemma NothingBooked(k: WorkerKey, f: Field)
    ensures InTickets([], k, f) == 0 && InEntries(AllEntries([]), k, f) == 0
  {
  }

  lemma ActionBalanced(w: World, a: Action, k: WorkerKey, f: Field)
    requires StoreOk(w.pipe) && CanDo(w, a) && Balanced(w, k, f)
    ensures Balanced(Next(w, a), k, f)
  {
    hide Total, EntriesTotal, InTickets, LedgerTotal, AllEntries, NamesOf, SplitName, FirstDot, DbOk, CacheOk, Do,
         Enumerates;
    match a
    case Record(name, amounts, now, listed) =>
      RollBalanced(w, now, listed, k, f);
      ShareBalanced(RollWorld(w, now, listed), name, amounts, now, k, f);
    case Tick(now, listed) =>
      RollBalanced(w, now, listed, k, f);
    case FlushPartial(listed) =>
      DrainBalanced(w.stage.pending, w.stage.minuteTs, w.inFlight, listed, k, f);
    case HandOver(i) =>
      Unflown(w.inFlight, i, k, f);
      EnqueueBooks(w.pipe, w.inFlight[i], k, f);
    case EnqueueOther(write) =>
      EnqueueBooks(w.pipe, write, k, f);
    case Writing(step) =>
      StepBooks(w.pipe, step, k, f);
    case Restart(now, listed) =>
      RebootBalanced(w, now, listed, k, f);
  }

  lemma ActionStoreOk(w: World, a: Action)
    requires StoreOk(w.pipe) && PipeOk(w.pipe) && CanDo(w, a)
    ensures StoreOk(Next(w, a).pipe) && PipeOk(Next(w, a).pipe)
  {
    hide Ids, UpTo, DbOk, Do;
    match a
    case HandOver(i) =>
      EnqueueOk(w.pipe, w.inFlight[i]);
    case EnqueueOther(write) =>
      EnqueueOk(w.pipe, write);
    case Writing(step) =>
      StepBooks(w.pipe, step, ("", ""), Work);
      StepOk(w.pipe, step);
    case Restart(_, _) =>
      var p := w.pipe;
      IdsConcat(p.dead, p.lost);
      IdsConcat(p.dead + p.lost, p.backlog);
      IdsConcat(p.dead + p.lost + p.backlog, p.queue);
      NoIds();
    case _ =>
  }

  lemma UnknownWorker(db: Db, k: WorkerKey)
    requires k !in db.workers
    ensures LedgerTotal(db, k) == Zero
  {
    hide Total, Plus;
    PlusZero(Zero);
  }

  lemma NoIds()
    ensures Ids([]) == multiset{}
  {
  }

  lemma ActionOk(w: World, a: Action)
    requires WorldOk(w) && CanDo(w, a)
    ensures WorldOk(Next(w, a))
  {
    hide Balanced, Next, StoreOk, PipeOk;
    ActionStoreOk(w, a);
    forall k, f
      ensures Balanced(Next(w, a), k, f)
    {
      ActionBalanced(w, a, k, f);
    }
  }

  ghost predicate Reaches(w: World, acts: seq<Action>, w': World)
    decreases |acts|
  {
    if acts == [] then w == w' else CanDo(w, acts[0]) && Reaches(Next(w, acts[0]), acts[1..], w')
  }

  function Boot(now: nat): World {
    World([], [], Stage(MinuteOf(now), map[]), [], EmptyPipe, [], [])
  }

  lemma BootOk(now: nat)
    ensures WorldOk(Boot(now))
  {
    hide Total, EntriesTotal, InTickets, AllEntries, NamesOf, SplitName, FirstDot, LedgerTotal, Ids;
    forall k, f
      ensures Balanced(Boot(now), k, f)
    {
      NothingTotal(k);
      NothingBooked(k, f);
      UnknownWorker(EmptyDb, k);
    }
    NoIds();
  }

  /** Conservation and exactly-once over every run: the books balance for every worker and field,
      every write is in exactly one place, and every cached id names a committed row. */
  lemma {:induction false} BooksAlwaysBalance(w: World, acts: seq<Action>, w': World)
    requires WorldOk(w) && Reaches(w, acts, w')
    ensures WorldOk(w')
    decreases |acts|
  {
    hide WorldOk, Next;
    if acts != [] {
      ActionOk(w, acts[0]);
      BooksAlwaysBalance(Next(w, acts[0]), acts[1..], w');
    }
  }

  /** A clean stop: nothing staged, in flight, queued or parked. */
  predicate Drained(w: World) {
    w.stage.pending == map[] && w.inFlight == [] && w.pipe.queue == [] && w.pipe.backlog == []
  }

  /** A restart after a clean stop loses nothing: everything recorded is in the tables, up to the
      losses already on the books, and no loss is added. */
  lemma CleanRestartLosesNothing(w: World, now: nat, k: WorkerKey, f: Field)
    requires WorldOk(w) && Drained(w)
    ensures var r := Reboot(w, now, []);
            && r.pipe.dead == w.pipe.dead + w.pipe.lost && r.crashed == w.crashed && r.pipe.db == w.pipe.db
            && InEntries(r.recorded, k, f)
               == OnDisk(r, k, f) + InEntries(r.saturated, k, f) + InEntries(r.pipe.capped, k, f)
                                              + InTickets(r.pipe.dead, k, f) + InEntries(AllEntries(r.crashed), k, f)
  {
    hide Total, EntriesTotal, InTickets, LedgerTotal, NamesOf, SplitName, FirstDot, PipeOk, StoreOk;
    var r := Reboot(w, now, []);
    assert r.crashed == w.crashed && r.pipe.dead == w.pipe.dead + w.pipe.lost;
    assert Enumerates([], w.stage.pending);
    assert Balanced(w, k, f);
    RebootBalanced(w, now, [], k, f);
    DrainTotal([], map[], k);
    NothingBooked(k, f);
  }
}
