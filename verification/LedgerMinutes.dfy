/** Which minute a share is filed under. While the clock does not go back, what is filed, waiting or
    lost for a worker and a minute is the sum of that worker's shares of that minute. */
module LedgerMinutes {
  import opened Bytes
  import opened Options
  import opened Ledgers
  import opened WorkHistory
  import opened Store
  import opened Writer
  import opened ShareLedger
  import opened LedgerLog

  // ---- sums of one worker and minute ----

  /** The shares of a worker recorded in [minute, minute + 60). */
  function SharesAt(es: seq<LedgerEntry>, clocks: seq<nat>, k: WorkerKey, minute: nat, f: Field): nat
    requires |es| == |clocks|
  {
    if es == [] then 0
    else
      var n := |es| - 1;
      SharesAt(es[..n], clocks[..n], k, minute, f)
      + if SplitName(es[n].worker) == k && minute <= clocks[n] < minute + 60 then Val(es[n].amounts, f) else 0
  }

  function WriteAt(w: StoreWrite, k: WorkerKey, minute: nat, f: Field): nat {
    if w.Ledger? && w.minuteTs == minute then InEntries(w.entries, k, f) else 0
  }

  function WritesAt(ws: seq<StoreWrite>, k: WorkerKey, minute: nat, f: Field): nat {
    if ws == [] then 0 else WritesAt(ws[..|ws| - 1], k, minute, f) + WriteAt(ws[|ws| - 1], k, minute, f)
  }

  function HeldAt(ts: seq<Ticket>, k: WorkerKey, minute: nat, f: Field): nat {
    Val(TicketsAt(ts, k, minute), f)
  }

  ghost function StagedAt(s: Stage, k: WorkerKey, minute: nat, f: Field): nat {
    if s.minuteTs == minute then Val(Total(s.pending, NamesOf(k)), f) else 0
  }

  ghost function InPipeAt(p: Pipe, k: WorkerKey, minute: nat, f: Field): nat {
    HeldAt(p.queue, k, minute, f) + HeldAt(p.backlog, k, minute, f) + HeldAt(p.applied, k, minute, f)
    + HeldAt(p.lost, k, minute, f) + HeldAt(p.dead, k, minute, f)
  }

  predicate Aligned(w: World) {
    |w.recorded| == |w.clocks| == |w.saturated|
  }

  /** Recorded in the minute = staged, in flight, queued, parked and applied for it, plus the losses. */
  ghost predicate Timely(w: World, k: WorkerKey, minute: nat, f: Field)
    requires Aligned(w)
  {
    SharesAt(w.recorded, w.clocks, k, minute, f)
    == StagedAt(w.stage, k, minute, f) + WritesAt(w.inFlight, k, minute, f) + InPipeAt(w.pipe, k, minute, f)
       + SharesAt(w.saturated, w.clocks, k, minute, f) + WritesAt(w.crashed, k, minute, f)
  }

  // ---- lists ----

  lemma SharesAtSnoc(es: seq<LedgerEntry>, clocks: seq<nat>, e: LedgerEntry, now: nat, k: WorkerKey, minute: nat,
                     f: Field)
    requires |es| == |clocks|
    ensures SharesAt(es + [e], clocks + [now], k, minute, f)
         == SharesAt(es, clocks, k, minute, f) + if minute <= now < minute + 60 then Val(Share(e, k), f) else 0
  {
    hide SplitName, FirstDot;
    assert (es + [e])[..|es|] == es && (clocks + [now])[..|clocks|] == clocks;
  }

  lemma {:induction false} WritesAtConcat(a: seq<StoreWrite>, b: seq<StoreWrite>, k: WorkerKey, minute: nat, f: Field)
    ensures WritesAt(a + b, k, minute, f) == WritesAt(a, k, minute, f) + WritesAt(b, k, minute, f)
  {
    hide WriteAt;
    if b == [] {
      assert a + b == a;
    } else {
      assert (a + b)[..|a + b| - 1] == a + b[..|b| - 1];
      WritesAtConcat(a, b[..|b| - 1], k, minute, f);
    }
  }

  lemma OneWriteAt(w: StoreWrite, k: WorkerKey, minute: nat, f: Field)
    ensures WritesAt([w], k, minute, f) == WriteAt(w, k, minute, f)
  {
    assert [w][..0] == [];
  }

  lemma ClosedAt(minuteTs: nat, listed: seq<LedgerEntry>, k: WorkerKey, minute: nat, f: Field)
    ensures WritesAt(Closed(minuteTs, listed), k, minute, f)
         == if minuteTs == minute then InEntries(listed, k, f) else 0
  {
    if listed != [] {
      OneWriteAt(Ledger(minuteTs, listed), k, minute, f);
    }
  }

  lemma WithoutOne(ws: seq<StoreWrite>, i: nat, k: WorkerKey, minute: nat, f: Field)
    requires i < |ws|
    ensures WritesAt(ws, k, minute, f)
         == WritesAt(ws[..i] + ws[i + 1..], k, minute, f) + WriteAt(ws[i], k, minute, f)
  {
    hide WritesAt, WriteAt;
    assert ws == ws[..i] + [ws[i]] + ws[i + 1..];
    WritesAtConcat(ws[..i] + [ws[i]], ws[i + 1..], k, minute, f);
    WritesAtConcat(ws[..i], [ws[i]], k, minute, f);
    WritesAtConcat(ws[..i], ws[i + 1..], k, minute, f);
    OneWriteAt(ws[i], k, minute, f);
  }

  lemma HeldAtSnoc(ts: seq<Ticket>, t: Ticket, k: WorkerKey, minute: nat, f: Field)
    ensures HeldAt(ts + [t], k, minute, f) == HeldAt(ts, k, minute, f) + WriteAt(t.write, k, minute, f)
  {
    hide TicketsAt, EntriesTotal;
    TicketsAtSnoc(ts, t, k, minute);
    if t.write.Ledger? {
      ValPlus(TicketsAt(ts, k, minute), EntriesTotal(t.write.entries, k), f);
    }
  }

  lemma {:induction false} HeldAtConcat(a: seq<Ticket>, b: seq<Ticket>, k: WorkerKey, minute: nat, f: Field)
    ensures HeldAt(a + b, k, minute, f) == HeldAt(a, k, minute, f) + HeldAt(b, k, minute, f)
  {
    hide HeldAt, WriteAt;
    if b == [] {
      assert a + b == a;
      NothingHeld(k, minute, f);
    } else {
      var (init, t) := (b[..|b| - 1], b[|b| - 1]);
      HeldAtConcat(a, init, k, minute, f);
      HeldAtSnoc(init, t, k, minute, f);
      HeldAtSnoc(a + init, t, k, minute, f);
      assert init + [t] == b && a + init + [t] == a + b;
    }
  }

  lemma NothingHeld(k: WorkerKey, minute: nat, f: Field)
    ensures HeldAt([], k, minute, f) == 0 && WritesAt([], k, minute, f) == 0
  {
  }

  lemma HeldAtHead(ts: seq<Ticket>, k: WorkerKey, minute: nat, f: Field)
    requires ts != []
    ensures HeldAt(ts, k, minute, f) == WriteAt(ts[0].write, k, minute, f) + HeldAt(ts[1..], k, minute, f)
  {
    hide HeldAt, WriteAt;
    assert ts == [ts[0]] + ts[1..] && [] + [ts[0]] == [ts[0]];
    HeldAtConcat([ts[0]], ts[1..], k, minute, f);
    HeldAtSnoc([], ts[0], k, minute, f);
    NothingHeld(k, minute, f);
  }

  // ---- every action keeps the time ----

  lemma ParkAt(p: Pipe, t: Ticket, k: WorkerKey, minute: nat, f: Field)
    ensures InPipeAt(Park(p, t), k, minute, f) == InPipeAt(p, k, minute, f) + WriteAt(t.write, k, minute, f)
  {
    hide HeldAt, WriteAt;
    if |p.backlog| >= MAX_WRITE_BACKLOG {
      HeldAtHead(p.backlog, k, minute, f);
      HeldAtSnoc(p.backlog[1..], t, k, minute, f);
      HeldAtSnoc(p.lost, p.backlog[0], k, minute, f);
    } else {
      HeldAtSnoc(p.backlog, t, k, minute, f);
    }
  }

  /** The thread moves writes about and keeps their minutes. */
  lemma StepAt(p: Pipe, s: WriterStep, k: WorkerKey, minute: nat, f: Field)
    requires Enabled(p, s)
    ensures InPipeAt(Do(p, s), k, minute, f) == InPipeAt(p, k, minute, f)
  {
    hide HeldAt, InEntries, Apply, Park;
    match s
    case Taking(disk) =>
      var t := p.queue[0];
      var r := Apply(p.db, p.st, t.write, disk);
      HeldAtHead(p.queue, k, minute, f);
      HeldAtSnoc(p.applied, t, k, minute, f);
      ParkAt(p.(queue := p.queue[1..], db := r.db, st := r.st, capped := p.capped + r.capped), t, k, minute, f);
    case Retrying(disk) =>
      HeldAtHead(p.backlog, k, minute, f);
      HeldAtSnoc(p.applied, p.backlog[0], k, minute, f);
  }

  lemma RestartAt(p: Pipe, k: WorkerKey, minute: nat, f: Field)
    ensures InPipeAt(Restarted(p), k, minute, f) == InPipeAt(p, k, minute, f)
  {
    hide HeldAt;
    HeldAtConcat(p.dead, p.lost, k, minute, f);
    HeldAtConcat(p.dead + p.lost, p.backlog, k, minute, f);
    HeldAtConcat(p.dead + p.lost + p.backlog, p.queue, k, minute, f);
    NothingHeld(k, minute, f);
  }

  /** Draining the open minute keeps its amounts in its minute. */
  lemma DrainAt(s: Stage, ws: seq<StoreWrite>, listed: seq<LedgerEntry>, k: WorkerKey, minute: nat, f: Field)
    requires Enumerates(listed, s.pending)
    ensures WritesAt(ws + Closed(s.minuteTs, listed), k, minute, f)
         == WritesAt(ws, k, minute, f) + StagedAt(s, k, minute, f)
    ensures forall m :: StagedAt(Stage(m, map[]), k, minute, f) == 0
  {
    hide Closed, WritesAt, EntriesTotal, Total, Enumerates, NamesOf, SplitName, FirstDot;
    WritesAtConcat(ws, Closed(s.minuteTs, listed), k, minute, f);
    ClosedAt(s.minuteTs, listed, k, minute, f);
    DrainTotal(listed, s.pending, k);
    NothingTotal(k);
  }

  lemma RollTimely(w: World, now: nat, listed: seq<LedgerEntry>, k: WorkerKey, minute: nat, f: Field)
    requires Closes(w.stage, now) ==> Enumerates(listed, w.stage.pending)
    requires Aligned(w) && Timely(w, k, minute, f)
    ensures var n := RollWorld(w, now, listed); Aligned(n) && Timely(n, k, minute, f)
  {
    hide WritesAt, SharesAt, InPipeAt, StagedAt, Enumerates, Closed, MinuteOf;
    if Closes(w.stage, now) {
      DrainAt(w.stage, w.inFlight, listed, k, minute, f);
    }
  }

  lemma ShareTimely(w: World, name: string, a: Amounts, now: nat, k: WorkerKey, minute: nat, f: Field)
    requires Aligned(w) && Timely(w, k, minute, f) && Within(now, w.stage.minuteTs) && minute % 60 == 0
    ensures var n := StageShare(w, name, a, now); Aligned(n) && Timely(n, k, minute, f)
  {
    hide WritesAt, SharesAt, InPipeAt, Total, SatPlus, Excess, NamesOf, Share, Val;
    var x := Excess(Get(w.stage.pending, name), a);
    SharesAtSnoc(w.recorded, w.clocks, LedgerEntry(name, a), now, k, minute, f);
    SharesAtSnoc(w.saturated, w.clocks, LedgerEntry(name, x), now, k, minute, f);
    StageTotal(w.stage.pending, name, a, k, f);
    if minute <= now < minute + 60 {
      OneMinute(now, minute, w.stage.minuteTs);
    }
  }

  /** The clock reading an action takes, if any. */
  function Reading(a: Action, last: nat): nat {
    if a.Record? || a.Tick? || a.Restart? then a.now else last
  }

  /** The open minute is that of the last reading. */
  predicate OnTime(w: World, last: nat) {
    Aligned(w) && Within(last, w.stage.minuteTs)
  }

  lemma RolledOnTime(s: Stage, last: nat, now: nat)
    requires Within(last, s.minuteTs) && last <= now
    ensures Within(now, Rolled(s, now).minuteTs)
  {
    WithinItsMinute(now);
  }

  lemma ActionTimely(w: World, a: Action, last: nat, k: WorkerKey, minute: nat, f: Field)
    requires CanDo(w, a) && OnTime(w, last) && last <= Reading(a, last) && minute % 60 == 0 && Timely(w, k, minute, f)
    ensures OnTime(Next(w, a), Reading(a, last)) && Timely(Next(w, a), k, minute, f)
  {
    hide WritesAt, SharesAt, InPipeAt, Total, SatPlus, Excess, NamesOf, Val, Do, Enumerates, Closed, MinuteOf,
         AllEntries;
    match a
    case Record(name, amounts, now, listed) =>
      RolledOnTime(w.stage, last, now);
      RollTimely(w, now, listed, k, minute, f);
      ShareTimely(RollWorld(w, now, listed), name, amounts, now, k, minute, f);
    case Tick(now, listed) =>
      RolledOnTime(w.stage, last, now);
      RollTimely(w, now, listed, k, minute, f);
    case FlushPartial(listed) =>
      DrainAt(w.stage, w.inFlight, listed, k, minute, f);
    case HandOver(i) =>
      WithoutOne(w.inFlight, i, k, minute, f);
      EnqueueAt(w.pipe, w.inFlight[i], k, minute, f);
    case EnqueueOther(write) =>
      EnqueueAt(w.pipe, write, k, minute, f);
    case Writing(step) =>
      StepAt(w.pipe, step, k, minute, f);
    case Restart(now, listed) =>
      WithinItsMinute(now);
      DrainAt(w.stage, w.inFlight, listed, k, minute, f);
      WritesAtConcat(w.crashed, w.inFlight + Closed(w.stage.minuteTs, listed), k, minute, f);
      RestartAt(w.pipe, k, minute, f);
      NothingHeld(k, minute, f);
  }

  lemma EnqueueAt(p: Pipe, w: StoreWrite, k: WorkerKey, minute: nat, f: Field)
    ensures InPipeAt(Enqueue(p, w), k, minute, f) == InPipeAt(p, k, minute, f) + WriteAt(w, k, minute, f)
  {
    hide HeldAt, WriteAt;
    HeldAtSnoc(p.queue, Ticket(p.nextId, w), k, minute, f);
  }

  /** No reading is behind the one before it. */
  predicate NeverBack(acts: seq<Action>, last: nat)
    decreases |acts|
  {
    acts == [] || (last <= Reading(acts[0], last) && NeverBack(acts[1..], Reading(acts[0], last)))
  }

  lemma {:induction false} RunTimely(w: World, acts: seq<Action>, w': World, last: nat, k: WorkerKey, minute: nat,
                                     f: Field)
    requires Reaches(w, acts, w') && OnTime(w, last) && NeverBack(acts, last)
    requires minute % 60 == 0 && Timely(w, k, minute, f)
    ensures Aligned(w') && Timely(w', k, minute, f)
    decreases |acts|
  {
    hide Timely, Next, CanDo, Within;
    if acts != [] {
      ActionTimely(w, acts[0], last, k, minute, f);
      RunTimely(Next(w, acts[0]), acts[1..], w', Reading(acts[0], last), k, minute, f);
    }
  }

  /** While the clock does not go back, for every worker with an id and every minute: the shares
      recorded with a clock reading in that minute are exactly what the log filed under it, what waits
      to be filed under it, and the losses on the books. */
  lemma SharesLandInTheirMinute(now: nat, acts: seq<Action>, w: World, k: WorkerKey, minute: nat, f: Field)
    requires Reaches(Boot(now), acts, w) && NeverBack(acts, now) && minute % 60 == 0 && k in w.pipe.db.workers
    ensures Aligned(w)
    ensures var (p, filed) := (w.pipe, Filed(RunLog(Boot(now), acts)));
            SharesAt(w.recorded, w.clocks, k, minute, f)
            == Val(Get(filed, Key(p.db.workers[k], minute)), f)
               + StagedAt(w.stage, k, minute, f) + WritesAt(w.inFlight, k, minute, f)
               + HeldAt(p.queue, k, minute, f) + HeldAt(p.backlog, k, minute, f)
               + SharesAt(w.saturated, w.clocks, k, minute, f) + HeldAt(p.lost, k, minute, f)
               + HeldAt(p.dead, k, minute, f) + WritesAt(w.crashed, k, minute, f)
  {
    hide Reaches, RunLog, Filed, SharesAt, WritesAt, TicketsAt, StagedAt;
    BootTimely(now, k, minute, f);
    RunTimely(Boot(now), acts, w, now, k, minute, f);
    FiledIsApplied(now, acts, w, k, minute);
  }

  lemma BootTimely(now: nat, k: WorkerKey, minute: nat, f: Field)
    ensures OnTime(Boot(now), now) && Timely(Boot(now), k, minute, f)
  {
    hide Total, NamesOf, MinuteOf;
    WithinItsMinute(now);
    NothingTotal(k);
    NothingHeld(k, minute, f);
  }
}
