/** The tables of every ledger run are the result of an event log, so what holds of logs of upserts and
    rollups holds of the system. */
module LedgerLog {
  import opened Bytes
  import opened Options
  import opened Ledgers
  import opened WorkHistory
  import opened Store
  import opened Writer
  import opened ShareLedger

  /** The upserts a ledger minute makes: one for each entry whose worker has or gets an id. */
  function FiledAs(tx: Tx, minuteTs: nat, entries: seq<LedgerEntry>): seq<Event> {
    if entries == [] then []
    else
      var (init, e) := (entries[..|entries| - 1], entries[|entries| - 1]);
      var r := Resolve(FileEntries(tx, minuteTs, init), e.worker);
      FiledAs(tx, minuteTs, init)
      + if e.worker in r.cache then [Upsert(Key(r.cache[e.worker], minuteTs), e.amounts)] else []
  }

  /** What one attempt at a write does to the tables. */
  ghost function EventsOf(db: Db, st: WriterState, w: StoreWrite, disk: Disk): seq<Event> {
    if !w.Ledger? || (disk.Broken? && w.entries != []) then []
    else FiledAs(OpenTx(db, st), w.minuteTs, w.entries) + if disk.Healthy? then [Roll(Cutoff(w.minuteTs))] else []
  }

  ghost function ActionLog(w: World, a: Action): seq<Event>
    requires CanDo(w, a)
  {
    var p := w.pipe;
    if !a.Writing? then []
    else EventsOf(p.db, p.st, (if a.step.Taking? then p.queue[0] else p.backlog[0]).write, a.step.disk)
  }

  /** The events of a whole run. */
  ghost function RunLog(w: World, acts: seq<Action>): seq<Event>
    decreases |acts|
  {
    if acts == [] || !CanDo(w, acts[0]) then []
    else ActionLog(w, acts[0]) + RunLog(Next(w, acts[0]), acts[1..])
  }

  lemma AfterOne(log: seq<Event>, e: Event)
    ensures After(log + [e]) == Step(After(log), e)
  {
    assert (log + [e])[..|log|] == log;
  }

  lemma {:induction false} FilingIsLogged(tx: Tx, minuteTs: nat, entries: seq<LedgerEntry>, log: seq<Event>,
                                          hourly: Rows)
    requires After(log) == Tables(tx.minutes, hourly)
    ensures After(log + FiledAs(tx, minuteTs, entries)) == Tables(FileEntries(tx, minuteTs, entries).minutes, hourly)
  {
    hide After, AddRow, SplitName;
    if entries == [] {
      assert log + [] == log;
    } else {
      var (init, e) := (entries[..|entries| - 1], entries[|entries| - 1]);
      var (done, r) := (FiledAs(tx, minuteTs, init), Resolve(FileEntries(tx, minuteTs, init), e.worker));
      FilingIsLogged(tx, minuteTs, init, log, hourly);
      if e.worker in r.cache {
        var u := Upsert(Key(r.cache[e.worker], minuteTs), e.amounts);
        AfterOne(log + done, u);
        assert log + (done + [u]) == log + done + [u];
      } else {
        assert log + (done + []) == log + done;
      }
    }
  }

  lemma ApplyIsLogged(db: Db, st: WriterState, w: StoreWrite, disk: Disk, log: seq<Event>)
    requires db.tables == After(log)
    ensures Apply(db, st, w, disk).db.tables == After(log + EventsOf(db, st, w, disk))
  {
    hide After, FileEntries, FiledAs, RollUp;
    var events := EventsOf(db, st, w, disk);
    if events == [] {
      assert log + events == log;
    }
    if w.Ledger? && !(disk.Broken? && w.entries != []) {
      var done := FiledAs(OpenTx(db, st), w.minuteTs, w.entries);
      FilingIsLogged(OpenTx(db, st), w.minuteTs, w.entries, log, db.tables.hourly);
      if disk.Healthy? {
        var roll := Roll(Cutoff(w.minuteTs));
        AfterOne(log + done, roll);
        assert log + (done + [roll]) == log + done + [roll];
        FloorIdempotent(if w.minuteTs < FINE_RETENTION_SECS then 0 else w.minuteTs - FINE_RETENTION_SECS, HOUR);
      } else {
        assert log + (done + []) == log + done;
      }
    }
  }

  lemma ActionIsLogged(w: World, a: Action, log: seq<Event>)
    requires CanDo(w, a) && w.pipe.db.tables == After(log)
    ensures Next(w, a).pipe.db.tables == After(log + ActionLog(w, a))
  {
    hide Apply, EventsOf, After, Enumerates, Do, AllEntries;
    if a.Writing? {
      var p := w.pipe;
      StepStore(p, a.step);
      ApplyIsLogged(p.db, p.st, (if a.step.Taking? then p.queue[0] else p.backlog[0]).write, a.step.disk, log);
    } else {
      assert log + [] == log;
    }
  }

  /** In every run the tables are the result of the log: the upserts of the applied minutes and the
      rollups that came with them, in the order the disk saw them. */
  lemma {:induction false} RunIsLogged(w: World, acts: seq<Action>, w': World, log: seq<Event>)
    requires Reaches(w, acts, w') && w.pipe.db.tables == After(log)
    ensures w'.pipe.db.tables == After(log + RunLog(w, acts))
    decreases |acts|
  {
    hide After, ActionLog, Next, CanDo;
    if acts == [] {
      assert log + [] == log;
    } else {
      var (n, events) := (Next(w, acts[0]), ActionLog(w, acts[0]));
      ActionIsLogged(w, acts[0], log);
      RunIsLogged(n, acts[1..], w', log + events);
      assert log + (events + RunLog(n, acts[1..])) == log + events + RunLog(n, acts[1..]);
    }
  }

  // ---- what the log filed, minute by minute ----

  /** A worker's share of some writes for one minute. */
  function TicketsAt(ts: seq<Ticket>, k: WorkerKey, minute: nat): Amounts {
    if ts == [] then Zero
    else
      var (rest, w) := (TicketsAt(ts[..|ts| - 1], k, minute), ts[|ts| - 1].write);
      if w.Ledger? && w.minuteTs == minute then Plus(rest, EntriesTotal(w.entries, k)) else rest
  }

  /** The filed rows hold want for this worker and minute. A worker without an id was turned away by a
      full table, and then never gets one, or has nothing. */
  ghost predicate Holds(workers: map<WorkerKey, nat>, filed: Rows, k: WorkerKey, minute: nat, want: Amounts) {
    && RowsOk(workers, filed)
    && (k in workers ==> Get(filed, Key(workers[k], minute)) == want)
    && (k !in workers && |workers| < MAX_LEDGER_WORKERS ==> want == Zero)
  }

  lemma FiledOne(log: seq<Event>, e: Event)
    ensures Filed(log + [e]) == FileStep(Filed(log), e)
  {
    assert (log + [e])[..|log|] == log;
  }

  lemma ResolveHolds(tx: Tx, name: string, filed: Rows, k: WorkerKey, minute: nat, want: Amounts)
    requires TxOk(tx) && Holds(tx.workers, filed, k, minute, want)
    ensures var r := Resolve(tx, name);
            && TxOk(r) && Holds(r.workers, filed, k, minute, want)
            && (name in r.cache ==> SplitName(name) in r.workers && r.workers[SplitName(name)] == r.cache[name])
            && (name !in r.cache ==> SplitName(name) !in r.workers && |r.workers| >= MAX_LEDGER_WORKERS)
  {
    hide Sum, Total, SplitName, FirstDot;
    ResolveOk(tx, name, filed, k);
  }

  lemma EntryHolds(tx: Tx, ts: nat, e: LedgerEntry, log: seq<Event>, k: WorkerKey, minute: nat, want: Amounts)
    requires TxOk(tx) && Holds(tx.workers, Filed(log), k, minute, want)
    ensures var r := Resolve(tx, e.worker);
            var more := if e.worker in r.cache then [Upsert(Key(r.cache[e.worker], ts), e.amounts)] else [];
            Holds(r.workers, Filed(log + more), k, minute,
                  if ts == minute && SplitName(e.worker) == k then Plus(want, e.amounts) else want)
  {
    hide Filed, Resolve, SplitName, Plus, CacheOk;
    ResolveHolds(tx, e.worker, Filed(log), k, minute, want);
    var r := Resolve(tx, e.worker);
    if e.worker in r.cache {
      FiledOne(log, Upsert(Key(r.cache[e.worker], ts), e.amounts));
    } else {
      assert log + [] == log;
    }
  }

  lemma {:induction false} EntriesHold(tx: Tx, ts: nat, entries: seq<LedgerEntry>, log: seq<Event>, k: WorkerKey,
                                       minute: nat, want: Amounts)
    requires TxOk(tx) && Holds(tx.workers, Filed(log), k, minute, want)
    ensures var r := FileEntries(tx, ts, entries);
            && TxOk(r)
            && Holds(r.workers, Filed(log + FiledAs(tx, ts, entries)), k, minute,
                     if ts == minute then Plus(want, EntriesTotal(entries, k)) else want)
  {
    hide Filed, Resolve, SplitName, Plus, TxOk, Holds;
    if entries == [] {
      assert log + [] == log;
      PlusZero(want);
    } else {
      var (init, e) := (entries[..|entries| - 1], entries[|entries| - 1]);
      var (done, t) := (FiledAs(tx, ts, init), FileEntries(tx, ts, init));
      var sofar := if ts == minute then Plus(want, EntriesTotal(init, k)) else want;
      EntriesHold(tx, ts, init, log, k, minute, want);
      EntryHolds(t, ts, e, log + done, k, minute, sofar);
      PlusAssoc(want, EntriesTotal(init, k), e.amounts);
      var r := Resolve(t, e.worker);
      var more := if e.worker in r.cache then [Upsert(Key(r.cache[e.worker], ts), e.amounts)] else [];
      assert log + (done + more) == log + done + more;
      FileEntryKeepsOk(t, ts, e, k);
    }
  }

  lemma FileEntryKeepsOk(tx: Tx, ts: nat, e: LedgerEntry, k: WorkerKey)
    requires TxOk(tx)
    ensures TxOk(FileEntry(tx, ts, e)) && FileEntry(tx, ts, e).workers == Resolve(tx, e.worker).workers
  {
    hide TxOk, Resolve, Sum, Total, WorkerTotal, TxTotal, Plus, SplitName, FirstDot, AddRow, EntriesTotal;
    var none: Rows := map[];
    FileEntryConserves(tx, ts, e, none, k);
  }

  lemma PlusAssoc(a: Amounts, b: Amounts, c: Amounts)
    ensures Plus(Plus(a, b), c) == Plus(a, Plus(b, c))
  {
  }

  ghost predicate LogHolds(p: Pipe, log: seq<Event>, k: WorkerKey, minute: nat) {
    Holds(p.db.workers, Filed(log), k, minute, TicketsAt(p.applied, k, minute))
  }

  lemma ApplyHolds(db: Db, st: WriterState, w: StoreWrite, disk: Disk, log: seq<Event>, k: WorkerKey, minute: nat,
                   want: Amounts)
    requires DbOk(db) && CacheOk(db.workers, st.workerIds) && Holds(db.workers, Filed(log), k, minute, want)
    ensures var r := Apply(db, st, w, disk);
            Holds(r.db.workers, Filed(log + EventsOf(db, st, w, disk)), k, minute,
                  if r.ok && w.Ledger? && w.minuteTs == minute then Plus(want, EntriesTotal(w.entries, k)) else want)
  {
    hide Filed, FileEntries, FiledAs, RollUp, Plus, Holds, EntriesTotal;
    var events := EventsOf(db, st, w, disk);
    if w.Ledger? && !(disk.Broken? && w.entries != []) {
      var done := FiledAs(OpenTx(db, st), w.minuteTs, w.entries);
      EntriesHold(OpenTx(db, st), w.minuteTs, w.entries, log, k, minute, want);
      if disk.Healthy? {
        FiledOne(log + done, Roll(Cutoff(w.minuteTs)));
        assert log + events == log + done + [Roll(Cutoff(w.minuteTs))];
      } else {
        assert log + events == log + done;
      }
    } else {
      assert log + events == log;
    }
  }

  lemma TicketsAtSnoc(ts: seq<Ticket>, t: Ticket, k: WorkerKey, minute: nat)
    ensures var (rest, w) := (TicketsAt(ts, k, minute), t.write);
            TicketsAt(ts + [t], k, minute)
            == if w.Ledger? && w.minuteTs == minute then Plus(rest, EntriesTotal(w.entries, k)) else rest
  {
    assert (ts + [t])[..|ts|] == ts;
  }

  lemma StepApplies(p: Pipe, s: WriterStep)
    requires Enabled(p, s)
    ensures var t := if s.Taking? then p.queue[0] else p.backlog[0];
            Do(p, s).applied == if Apply(p.db, p.st, t.write, s.disk).ok then p.applied + [t] else p.applied
  {
    hide Apply;
  }

  lemma ActionHolds(w: World, a: Action, log: seq<Event>, k: WorkerKey, minute: nat)
    requires StoreOk(w.pipe) && CanDo(w, a) && LogHolds(w.pipe, log, k, minute)
    ensures LogHolds(Next(w, a).pipe, log + ActionLog(w, a), k, minute)
  {
    hide Apply, EventsOf, Filed, Enumerates, Do, AllEntries, TicketsAt, Holds, EntriesTotal, DbOk, CacheOk, Plus;
    var p := w.pipe;
    if a.Writing? {
      var t := if a.step.Taking? then p.queue[0] else p.backlog[0];
      StepStore(p, a.step);
      StepApplies(p, a.step);
      TicketsAtSnoc(p.applied, t, k, minute);
      ApplyHolds(p.db, p.st, t.write, a.step.disk, log, k, minute, TicketsAt(p.applied, k, minute));
    } else {
      assert log + [] == log;
    }
  }

  lemma {:induction false} RunHolds(w: World, acts: seq<Action>, w': World, log: seq<Event>, k: WorkerKey, minute: nat)
    requires Reaches(w, acts, w') && StoreOk(w.pipe) && PipeOk(w.pipe) && LogHolds(w.pipe, log, k, minute)
    ensures LogHolds(w'.pipe, log + RunLog(w, acts), k, minute)
    decreases |acts|
  {
    hide ActionLog, Next, CanDo, LogHolds, StoreOk, PipeOk;
    if acts == [] {
      assert log + [] == log;
    } else {
      var (n, events) := (Next(w, acts[0]), ActionLog(w, acts[0]));
      ActionHolds(w, acts[0], log, k, minute);
      ActionStoreOk(w, acts[0]);
      RunHolds(n, acts[1..], w', log + events, k, minute);
      assert log + (events + RunLog(n, acts[1..])) == log + events + RunLog(n, acts[1..]);
    }
  }

  /** The log filed, for every registered worker and minute, exactly that worker's entries of the
      applied writes of that minute, each once, retries and restarts included. */
  lemma FiledIsApplied(now: nat, acts: seq<Action>, w: World, k: WorkerKey, minute: nat)
    requires Reaches(Boot(now), acts, w) && k in w.pipe.db.workers
    ensures Get(Filed(RunLog(Boot(now), acts)), Key(w.pipe.db.workers[k], minute))
            == TicketsAt(w.pipe.applied, k, minute)
  {
    hide Reaches, RunLog, TicketsAt;
    var o := Boot(now);
    BootOk(now);
    assert LogHolds(o.pipe, [], k, minute) by { NothingApplied(k, minute); }
    RunHolds(o, acts, w, [], k, minute);
    assert [] + RunLog(o, acts) == RunLog(o, acts);
  }

  lemma NothingApplied(k: WorkerKey, minute: nat)
    ensures LogHolds(EmptyPipe, [], k, minute)
  {
  }

  // ---- the worker cap ----

  lemma {:induction false} FilingCapped(tx: Tx, ts: nat, entries: seq<LedgerEntry>)
    requires |tx.workers| <= 10000
    ensures |FileEntries(tx, ts, entries).workers| <= 10000
  {
    hide SplitName, AddRow;
    if entries != [] {
      FilingCapped(tx, ts, entries[..|entries| - 1]);
    }
  }

  /** No run registers more than ten thousand workers. */
  lemma {:induction false} WorkersCapped(w: World, acts: seq<Action>, w': World)
    requires Reaches(w, acts, w') && |w.pipe.db.workers| <= 10000
    ensures |w'.pipe.db.workers| <= 10000
    decreases |acts|
  {
    hide CanDo;
    if acts != [] {
      CappedStep(w, acts[0]);
      WorkersCapped(Next(w, acts[0]), acts[1..], w');
    }
  }

  lemma CappedStep(w: World, a: Action)
    requires CanDo(w, a) && |w.pipe.db.workers| <= 10000
    ensures |Next(w, a).pipe.db.workers| <= 10000
  {
    hide Enumerates, Do, AllEntries, FileEntries, RollUp;
    if a.Writing? {
      var p := w.pipe;
      var write := (if a.step.Taking? then p.queue[0] else p.backlog[0]).write;
      StepStore(p, a.step);
      if write.Ledger? {
        FilingCapped(OpenTx(p.db, p.st), write.minuteTs, write.entries);
      }
    }
  }

  // ---- entries that carry something ----

  predicate Carries(entries: seq<LedgerEntry>) {
    forall i :: 0 <= i < |entries| ==> entries[i].amounts != Zero
  }

  predicate WriteCarries(w: StoreWrite) {
    w.Ledger? ==> Carries(w.entries)
  }

  predicate AllCarry(ts: seq<Ticket>) {
    forall i :: 0 <= i < |ts| ==> WriteCarries(ts[i].write)
  }

  ghost predicate WorldCarries(w: World) {
    && (forall name :: name in w.stage.pending ==> w.stage.pending[name] != Zero)
    && (forall i :: 0 <= i < |w.inFlight| ==> WriteCarries(w.inFlight[i]))
    && AllCarry(w.pipe.queue) && AllCarry(w.pipe.backlog)
  }

  /** Every share recorded counts as accepted, rejected or work. */
  predicate RecordsCarry(acts: seq<Action>) {
    forall i :: 0 <= i < |acts| && acts[i].Record? ==> acts[i].amounts != Zero
  }

  lemma {:induction false} ListedCarries(listed: seq<LedgerEntry>, pending: Pending)
    requires Enumerates(listed, pending) && forall name :: name in pending ==> pending[name] != Zero
    ensures Carries(listed)
  {
    if listed != [] {
      ListedCarries(listed[1..], pending - {listed[0].worker});
      assert listed == [listed[0]] + listed[1..];
    }
  }

  lemma StepCarries(p: Pipe, s: WriterStep)
    requires Enabled(p, s) && AllCarry(p.queue) && AllCarry(p.backlog)
    ensures AllCarry(Do(p, s).queue) && AllCarry(Do(p, s).backlog)
  {
    hide Apply, WriteCarries;
  }

  lemma ActionCarries(w: World, a: Action)
    requires CanDo(w, a) && WorldCarries(w) && (a.Record? ==> a.amounts != Zero)
    ensures WorldCarries(Next(w, a))
  {
    hide Enumerates, Do, AllEntries, Carries;
    match a
    case Record(name, amounts, now, listed) =>
      if Closes(w.stage, now) {
        ListedCarries(listed, w.stage.pending);
      }
    case Tick(now, listed) =>
      if Closes(w.stage, now) {
        ListedCarries(listed, w.stage.pending);
      }
    case FlushPartial(listed) =>
      ListedCarries(listed, w.stage.pending);
    case Writing(step) =>
      StepCarries(w.pipe, step);
    case _ =>
  }

  lemma {:induction false} FiledCarries(tx: Tx, minuteTs: nat, entries: seq<LedgerEntry>)
    requires Carries(entries)
    ensures NonZero(FiledAs(tx, minuteTs, entries))
  {
    hide Resolve, FileEntries;
    if entries != [] {
      FiledCarries(tx, minuteTs, entries[..|entries| - 1]);
    }
  }

  lemma LogCarries(w: World, a: Action)
    requires CanDo(w, a) && WorldCarries(w)
    ensures NonZero(ActionLog(w, a))
  {
    hide FiledAs, Carries;
    if a.Writing? {
      var p := w.pipe;
      var t := if a.step.Taking? then p.queue[0] else p.backlog[0];
      assert WriteCarries(t.write);
      if t.write.Ledger? {
        FiledCarries(OpenTx(p.db, p.st), t.write.minuteTs, t.write.entries);
      }
    }
  }

  lemma {:induction false} RunCarries(w: World, acts: seq<Action>, w': World)
    requires Reaches(w, acts, w') && WorldCarries(w) && RecordsCarry(acts)
    ensures NonZero(RunLog(w, acts))
    decreases |acts|
  {
    hide Next, CanDo, ActionLog, WorldCarries;
    if acts != [] {
      LogCarries(w, acts[0]);
      ActionCarries(w, acts[0]);
      RunCarries(Next(w, acts[0]), acts[1..], w');
    }
  }

  // ---- the query theorems, of the system ----

  lemma WorkerTestAligned(id: nat)
    ensures HourAligned(OfWorker(id))
  {
  }

  /** What a worker has on disk is what the log filed for it. */
  lemma DiskIsFiled(w: World, log: seq<Event>, k: WorkerKey, f: Field)
    requires w.pipe.db.tables == After(log) && k in w.pipe.db.workers
    ensures OnDisk(w, k, f) == Val(Total(Filed(log), OfWorker(w.pipe.db.workers[k])), f)
  {
    hide After, Filed, Total, Plus, OfWorker, HourAligned;
    var id := w.pipe.db.workers[k];
    WorkerTestAligned(id);
    TotalsSurvive(log, OfWorker(id));
  }

  /** For every run since the first boot there is one log behind the tables. It filed for each worker
      exactly what the books say is on disk, so all work recorded is accounted for in it. Whole-hour
      queries answer as that log without rollups, and buckets that divide an hour read true if and
      only if no minute lies past the first bucket of a rolled-up hour. */
  lemma QueriesSpeakOfTheLedger(now: nat, acts: seq<Action>, w: World) returns (log: seq<Event>)
    requires Reaches(Boot(now), acts, w) && RecordsCarry(acts)
    ensures log == RunLog(Boot(now), acts) && w.pipe.db.tables == After(log)
    ensures forall k, f :: k in w.pipe.db.workers ==>
              OnDisk(w, k, f) == Val(Total(Filed(log), OfWorker(w.pipe.db.workers[k])), f)
    ensures forall k, f :: Balanced(w, k, f)
    ensures forall sinceTs: nat, b: nat, at: nat, scope: nat -> bool :: b > 0 && b % HOUR == 0 ==>
              SameHistory(w.pipe.db.tables, Tables(Filed(log), map[]), sinceTs, b, at, scope)
    ensures forall b: nat, scope: nat -> bool :: b > 0 && HOUR % b == 0 ==>
              (AllExact(log, b, scope) <==> FirstBucketOnly(w.pipe.db.tables, b, scope))
  {
    hide After, Filed, RunLog, Reaches, OnDisk, SameHistory, AllExact, FirstBucketOnly, Balanced;
    var o := Boot(now);
    log := RunLog(o, acts);
    assert After([]) == Tables(map[], map[]) by { EmptyLog(); }
    RunIsLogged(o, acts, w, []);
    assert [] + log == log;
    BootOk(now);
    BooksAlwaysBalance(o, acts, w);
    RunCarries(o, acts, w);
    forall k, f | k in w.pipe.db.workers
      ensures OnDisk(w, k, f) == Val(Total(Filed(log), OfWorker(w.pipe.db.workers[k])), f)
    {
      DiskIsFiled(w, log, k, f);
    }
    forall sinceTs: nat, b: nat, at: nat, scope: nat -> bool | b > 0 && b % HOUR == 0
      ensures SameHistory(w.pipe.db.tables, Tables(Filed(log), map[]), sinceTs, b, at, scope)
    {
      AnswersAsIfNeverRolledUp(log, sinceTs, b, at, scope);
    }
    forall b: nat, scope: nat -> bool | b > 0 && HOUR % b == 0
      ensures AllExact(log, b, scope) <==> FirstBucketOnly(w.pipe.db.tables, b, scope)
    {
      SubHourExactIff(log, b, scope);
    }
  }

  lemma EmptyLog()
    ensures After([]) == Tables(map[], map[])
  {
  }

  // ---- a minute that lands late ----

  lemma {:induction false} ReachesThen(w: World, acts: seq<Action>, v: World, a: Action)
    returns (more: seq<Action>, n: World)
    requires Reaches(w, acts, v) && CanDo(v, a)
    ensures n == Next(v, a) && more == acts + [a] && Reaches(w, more, n)
    decreases |acts|
  {
    hide Next, CanDo;
    more, n := acts + [a], Next(v, a);
    if acts == [] {
      assert more[1..] == [];
    } else {
      var rest, _ := ReachesThen(Next(w, acts[0]), acts[1..], v, a);
      assert more[1..] == rest;
    }
  }

  lemma OneListed(name: string, a: Amounts)
    ensures Enumerates([LedgerEntry(name, a)], map[name := a])
  {
    var one: Pending := map[name := a];
    assert one - {name} == map[];
    assert [LedgerEntry(name, a)][1..] == [];
  }

  lemma OneFiled(tx: Tx, ts: nat, e: LedgerEntry, id: nat)
    requires e.worker in tx.cache ==> tx.cache[e.worker] == id
    requires var k := SplitName(e.worker);
             if k in tx.workers then tx.workers[k] == id else tx.workers == map[] && id == 1 && e.worker !in tx.cache
    ensures var r := FileEntries(tx, ts, [e]);
            && r.workers == tx.workers[SplitName(e.worker) := id] && r.cache == tx.cache[e.worker := id]
            && r.minutes == AddRow(tx.minutes, Key(id, ts), e.amounts)
  {
    hide SplitName, AddRow;
    assert [e][..0] == [] && FileEntries(tx, ts, []) == tx;
    assert FileEntries(tx, ts, [e]) == FileEntry(tx, ts, e);
  }

  /** A rollup leaves young rows alone and gives every due row's hour a row. */
  lemma RollMoves(t: Tables, cutoff: nat)
    ensures var r := RollUp(t, cutoff);
            && (forall m :: m in t.minutes && m.ts >= cutoff ==> m in r.minutes)
            && (forall g :: g in t.hourly ==> g in r.hourly)
            && (forall m :: m in t.minutes && m.ts < cutoff ==> HourOf(m) in r.hourly)
  {
    hide Folded, HourOf;
    var due := Due(t.minutes, cutoff);
    forall g
      ensures g in Folded(t.hourly, t.minutes, due) <==> g in t.hourly || Group(due, g) != {}
    {
      FoldedKeys(t.hourly, t.minutes, due, g);
    }
    forall m | m in t.minutes && m.ts < cutoff
      ensures HourOf(m) in Folded(t.hourly, t.minutes, due)
    {
      assert m in Group(due, HourOf(m));
    }
  }

  /** A minute of one worker, filed on a healthy disk: its row appears, and due rows move to their hours. */
  lemma MinuteLands(db: Db, st: WriterState, ts: nat, e: LedgerEntry, id: nat)
    requires Cutoff(ts) <= ts && (e.worker in st.workerIds ==> st.workerIds[e.worker] == id)
    requires var k := SplitName(e.worker);
             if k in db.workers then db.workers[k] == id
             else db.workers == map[] && id == 1 && e.worker !in st.workerIds
    ensures var r := Apply(db, st, Ledger(ts, [e]), Healthy);
            && r.ok && r.db.workers == db.workers[SplitName(e.worker) := id]
               && r.st.workerIds == st.workerIds[e.worker := id]
            && Key(id, ts) in r.db.tables.minutes
            && (forall g :: g in db.tables.hourly ==> g in r.db.tables.hourly)
            && (forall m :: m in db.tables.minutes && m.ts < Cutoff(ts) ==> HourOf(m) in r.db.tables.hourly)
  {
    hide RollUp, SplitName, Cutoff, HourOf, Plus, FileEntries;
    OneFiled(OpenTx(db, st), ts, e, id);
    RollMoves(Tables(AddRow(db.tables.minutes, Key(id, ts), e.amounts), db.tables.hourly), Cutoff(ts));
  }

  /** Old enough for the first hour to be rolled up. */
  const MUCH_LATER := FINE_RETENTION_SECS + HOUR

  lemma Clock()
    ensures MinuteOf(0) == 0 && MinuteOf(60) == 60 && MinuteOf(MUCH_LATER) == MUCH_LATER
    ensures MinuteOf(MUCH_LATER + 60) == MUCH_LATER + 60
    ensures Cutoff(0) == 0 && Cutoff(60) == 0 && Cutoff(MUCH_LATER) == HOUR
    ensures Floor(0, HOUR) == 0 && Floor(60, HOUR) == 0
  {
  }

  /** A worker whose first minute is on disk. */
  ghost predicate FirstMinute(w: World, name: string, c: Amounts) {
    && w.stage == Stage(60, map[name := c]) && w.inFlight == []
    && w.pipe.queue == [] && w.pipe.backlog == []
    && w.pipe.db.workers == map[SplitName(name) := 1]
    && Key(1, 0) in w.pipe.db.tables.minutes
  }

  lemma FirstMinuteReached(name: string, a: Amounts, c: Amounts) returns (acts: seq<Action>, w: World)
    ensures Reaches(Boot(0), acts, w) && FirstMinute(w, name, SatPlus(Zero, c))
    ensures a != Zero && c != Zero ==> RecordsCarry(acts)
  {
    hide Reaches, SplitName, Apply, Enumerates, MinuteOf, Cutoff;
    Clock();
    var o := Boot(0);
    var (a', c') := (SatPlus(Zero, a), SatPlus(Zero, c));
    var first := LedgerEntry(name, a');
    BootReached();
    acts, w := ReachesThen(o, [], o, Record(name, a, 0, []));
    assert w.stage == Stage(0, map[name := a']);
    OneListed(name, a');
    acts, w := ReachesThen(o, acts, w, Record(name, c, 60, [first]));
    assert w.stage == Stage(60, map[name := c']) && w.inFlight == [Ledger(0, [first])];
    acts, w := ReachesThen(o, acts, w, HandOver(0));
    assert w.pipe.queue == [Ticket(0, Ledger(0, [first]))] && w.pipe.db == EmptyDb && w.pipe.st == FreshWriter;
    MinuteLands(EmptyDb, FreshWriter, 0, first, 1);
    acts, w := ReachesThen(o, acts, w, Writing(Taking(Healthy)));
  }

  lemma BootReached()
    ensures Reaches(Boot(0), [], Boot(0))
  {
  }

  lemma BrokenMinute(db: Db, st: WriterState, ts: nat, e: LedgerEntry, at: nat)
    ensures Apply(db, st, Ledger(ts, [e]), Broken(at)) == Applied(db, st.(workerIds := map[]), false, [])
  {
  }

  /** The second minute is parked by a failing disk while a much later one is closed. */
  ghost predicate SecondParked(w: World, name: string, e: LedgerEntry, l: LedgerEntry) {
    && |w.pipe.queue| == 1 && w.pipe.queue[0].write == Ledger(MUCH_LATER, [l]) && l.worker == name
    && |w.pipe.backlog| == 1 && w.pipe.backlog[0].write == Ledger(60, [e]) && e.worker == name
    && w.pipe.st.workerIds == map[]
    && w.pipe.db.workers == map[SplitName(name) := 1]
    && Key(1, 0) in w.pipe.db.tables.minutes
  }

  lemma SecondMinuteParks(acts: seq<Action>, w: World, name: string, c: Amounts, d: Amounts, at: nat)
    returns (more: seq<Action>, w': World)
    requires Reaches(Boot(0), acts, w) && FirstMinute(w, name, c)
    ensures Reaches(Boot(0), more, w')
            && SecondParked(w', name, LedgerEntry(name, c), LedgerEntry(name, SatPlus(Zero, d)))
    ensures RecordsCarry(acts) && d != Zero ==> RecordsCarry(more)
  {
    hide Reaches, SplitName, Apply, Enumerates, MinuteOf, Cutoff;
    Clock();
    var (o, e, d') := (Boot(0), LedgerEntry(name, c), SatPlus(Zero, d));
    OneListed(name, c);
    more, w' := ReachesThen(o, acts, w, Record(name, d, MUCH_LATER, [e]));
    assert w'.stage == Stage(MUCH_LATER, map[name := d']) && w'.inFlight == [Ledger(60, [e])];
    more, w' := ReachesThen(o, more, w', HandOver(0));
    assert w'.inFlight == [];
    BrokenMinute(w'.pipe.db, w'.pipe.st, 60, e, at);
    more, w' := ReachesThen(o, more, w', Writing(Taking(Broken(at))));
    OneListed(name, d');
    more, w' := ReachesThen(o, more, w', Tick(MUCH_LATER + 60, [LedgerEntry(name, d')]));
    more, w' := ReachesThen(o, more, w', HandOver(0));
  }

  /** Such a minute happens: a failing disk parks it, its hour is rolled up in the meantime, and the
      retry lands it. Sub-hour points of the hour then misread. */
  lemma LateMinuteHappens(name: string, a: Amounts, c: Amounts, d: Amounts, at: nat, b: nat, scope: nat -> bool)
    returns (acts: seq<Action>, w: World)
    requires a != Zero && c != Zero && d != Zero && 0 < b <= 60 && HOUR % b == 0 && scope(1)
    ensures Reaches(Boot(0), acts, w) && RecordsCarry(acts) && w.pipe.queue == [] && w.pipe.backlog == []
    ensures var log := RunLog(Boot(0), acts); w.pipe.db.tables == After(log) && !AllExact(log, b, scope)
  {
    hide Reaches, SplitName, Apply, Enumerates, MinuteOf, Cutoff, RunLog, AllExact, After;
    Clock();
    acts, w := FirstMinuteReached(name, a, c);
    var (o, e, l) := (Boot(0), LedgerEntry(name, SatPlus(Zero, c)), LedgerEntry(name, SatPlus(Zero, d)));
    acts, w := SecondMinuteParks(acts, w, name, e.amounts, d, at);
    BrokenMinute(w.pipe.db, w.pipe.st, 60, e, at);
    acts, w := ReachesThen(o, acts, w, Writing(Retrying(Broken(at))));
    MinuteLands(w.pipe.db, w.pipe.st, MUCH_LATER, l, 1);
    acts, w := ReachesThen(o, acts, w, Writing(Taking(Healthy)));
    assert HourOf(Key(1, 0)) == Key(1, 0) && Key(1, 0) in w.pipe.db.tables.hourly;
    MinuteLands(w.pipe.db, w.pipe.st, 60, e, 1);
    acts, w := ReachesThen(o, acts, w, Writing(Retrying(Healthy)));
    assert HourOf(Key(1, 60)) == Key(1, 0);
    var log := QueriesSpeakOfTheLedger(0, acts, w);
  }
}
