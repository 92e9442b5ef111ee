/** The ledger across a shutdown: the open minute is flushed, every closed minute is handed over, and
    the writer drains. */
module LedgerStop {
  import opened Bytes
  import opened Options
  import opened Ledgers
  import opened WorkHistory
  import opened Store
  import opened Writer
  import opened Drain
  import opened ShareLedger

  /** What the shutdown hands to the writer, in the order it does. */
  function HandedOver(w: World, listed: seq<LedgerEntry>): seq<StoreWrite> {
    w.inFlight + Closed(w.stage.minuteTs, listed)
  }

  /** The world after the shutdown, on a healthy disk. */
  ghost function Halted(w: World, listed: seq<LedgerEntry>): World {
    w.(stage := w.stage.(pending := map[]), inFlight := [],
       pipe := Flushed(EnqueueAll(w.pipe, HandedOver(w, listed))))
  }

  lemma {:induction false} ReachesConcat(w: World, a: seq<Action>, v: World, b: seq<Action>, u: World)
    requires Reaches(w, a, v) && Reaches(v, b, u)
    ensures Reaches(w, a + b, u)
    decreases |a|
  {
    hide Next, CanDo;
    if a == [] {
      assert a + b == b;
    } else {
      ReachesConcat(Next(w, a[0]), a[1..], v, b, u);
      assert (a + b)[1..] == a[1..] + b;
    }
  }

  lemma {:induction false} EnqueueAllHead(p: Pipe, ws: seq<StoreWrite>)
    requires ws != []
    ensures EnqueueAll(p, ws) == EnqueueAll(Enqueue(p, ws[0]), ws[1..])
    decreases |ws|
  {
    if |ws| > 1 {
      EnqueueAllHead(p, ws[..|ws| - 1]);
      assert ws[..|ws| - 1][1..] == ws[1..][..|ws| - 2];
    }
  }

  lemma {:induction false} HandOverAll(w: World) returns (acts: seq<Action>)
    ensures Reaches(w, acts, w.(inFlight := [], pipe := EnqueueAll(w.pipe, w.inFlight)))
    decreases |w.inFlight|
  {
    if w.inFlight == [] {
      acts := [];
    } else {
      var n := Next(w, HandOver(0));
      assert w.inFlight[..0] + w.inFlight[1..] == w.inFlight[1..];
      EnqueueAllHead(w.pipe, w.inFlight);
      var rest := HandOverAll(n);
      acts := [HandOver(0)] + rest;
      assert acts[1..] == rest;
    }
  }

  lemma {:induction false} WritesReach(w: World, steps: seq<WriterStep>, q: Pipe) returns (acts: seq<Action>)
    requires IsRun(w.pipe, steps, q)
    ensures Reaches(w, acts, w.(pipe := q))
    decreases |steps|
  {
    hide Do, Enabled;
    acts := [];
    if steps != [] {
      var rest := WritesReach(w.(pipe := Do(w.pipe, steps[0])), steps[1..], q);
      acts := [Writing(steps[0])] + rest;
      assert acts[1..] == rest;
    }
  }

  lemma {:induction false} RunKeepsDead(p: Pipe, steps: seq<WriterStep>, q: Pipe)
    requires IsRun(p, steps, q)
    ensures q.dead == p.dead
    decreases |steps|
  {
    hide Apply;
    if steps != [] {
      RunKeepsDead(Do(p, steps[0]), steps[1..], q);
    }
  }

  /** The shutdown is a run of the ledger: flush the open minute, hand everything over, drain. */
  lemma HaltedIsReached(w: World, listed: seq<LedgerEntry>) returns (acts: seq<Action>)
    requires Enumerates(listed, w.stage.pending)
    ensures Reaches(w, acts, Halted(w, listed))
  {
    hide EnqueueAll, Flushed, Enumerates, IsRun;
    var v := Next(w, FlushPartial(listed));
    var hand := HandOverAll(v);
    var u := v.(inFlight := [], pipe := EnqueueAll(v.pipe, v.inFlight));
    var steps := FlushedIsRun(u.pipe);
    var write := WritesReach(u, steps, Flushed(u.pipe));
    ReachesConcat(v, hand, u, write, Halted(w, listed));
    acts := [FlushPartial(listed)] + (hand + write);
    assert acts[1..] == hand + write;
  }

  predicate OnlyLedgers(writes: seq<StoreWrite>) {
    forall i :: 0 <= i < |writes| ==> writes[i].Ledger?
  }

  /** Only ledger minutes are ever on their way to the channel. */
  lemma {:induction false} FlightCarriesLedgers(w: World, acts: seq<Action>, w': World)
    requires Reaches(w, acts, w') && OnlyLedgers(w.inFlight)
    ensures OnlyLedgers(w'.inFlight)
    decreases |acts|
  {
    hide Do, Enumerates, AllEntries;
    if acts != [] {
      FlightCarriesLedgers(Next(w, acts[0]), acts[1..], w');
    }
  }

  /** Ledger minutes queued behind change nothing about which resolutions land. */
  lemma LedgersDoNotMatter(p: Pipe, ws: seq<StoreWrite>)
    requires OnlyLedgers(ws)
    ensures AllWillLand(EnqueueAll(p, ws)) <==> AllWillLand(p)
  {
    hide Orderly, EnqueueAll;
    var q := EnqueueAll(p, ws);
    EnqueuedAll(p, ws);
    var tail := q.queue[|p.queue|..];
    forall i | 0 <= i < |tail|
      ensures tail[i].write.Ledger?
    {
      assert q.queue[|p.queue| + i].write == ws[i];
    }
    assert q.queue == p.queue + tail;
    assert FoundIn(q.queue) == FoundIn(p.queue);
    assert p.backlog + q.queue == (p.backlog + p.queue) + tail;
    OrderlyConcat(Coming(p), p.backlog + p.queue, tail);
    NoResolutions(Coming(p) + FoundIn(p.backlog + p.queue), tail);
  }

  lemma NoResolutions(rows: set<BlockHash>, ts: seq<Ticket>)
    requires forall i :: 0 <= i < |ts| ==> !ts[i].write.BlockResolved?
    ensures Orderly(rows, ts)
  {
  }

  /** A shutdown on a healthy disk, from any state of the ledger, leaves nothing staged, in flight,
      queued or parked if and only if every waiting resolution has its row on disk or in the queue, or
      the row's insert parked ahead of it. Then the next boot finds every recorded amount on disk, up
      to the losses already on the books. */
  lemma ShutdownKeepsAllIff(w: World, listed: seq<LedgerEntry>, now: nat)
    requires WorldOk(w) && OnlyLedgers(w.inFlight) && Enumerates(listed, w.stage.pending)
    requires Loop(EnqueueAll(w.pipe, HandedOver(w, listed))).lost == w.pipe.lost
    ensures var h := Halted(w, listed);
            && WorldOk(h) && h.recorded == w.recorded
            && (Drained(h) <==> Orderly(Coming(w.pipe), w.pipe.backlog + w.pipe.queue))
            && (Drained(h) ==> forall k, f ::
                  InEntries(w.recorded, k, f)
                  == OnDisk(Reboot(h, now, []), k, f) + InEntries(w.saturated, k, f) + InEntries(h.pipe.capped, k, f)
                     + InTickets(w.pipe.dead + w.pipe.lost, k, f) + InEntries(AllEntries(w.crashed), k, f))
  {
    hide WorldOk, Enumerates, Orderly, Flushed, Loop, EnqueueAll, InEntries, InTickets, OnDisk, AllEntries, Coming,
         IsRun;
    var (h, p) := (Halted(w, listed), EnqueueAll(w.pipe, HandedOver(w, listed)));
    var acts := HaltedIsReached(w, listed);
    BooksAlwaysBalance(w, acts, h);
    EnqueuedAll(w.pipe, HandedOver(w, listed));
    LedgersDoNotMatter(w.pipe, HandedOver(w, listed));
    FlushedCleanIff(p);
    var steps := FlushedIsRun(p);
    RunKeepsDead(p, steps, h.pipe);
    if Drained(h) {
      forall k, f
        ensures InEntries(w.recorded, k, f)
                == OnDisk(Reboot(h, now, []), k, f) + InEntries(w.saturated, k, f) + InEntries(h.pipe.capped, k, f)
                   + InTickets(w.pipe.dead + w.pipe.lost, k, f) + InEntries(AllEntries(w.crashed), k, f)
      {
        CleanRestartLosesNothing(h, now, k, f);
      }
    }
  }
}
