/** The stats database and what one write does to it. A transaction either commits or changes
    nothing; the disk's behaviour is an input. */
module Store {
  import opened Bytes
  import opened Options
  import opened Ledgers
  import opened WorkHistory

  // ---- worker names ----

  /** A worker row is keyed by payout address and label. */
  type WorkerKey = (string, string)

  function FirstDot(name: string): (i: nat)
    ensures i <= |name|
    ensures i < |name| ==> name[i] == '.'
    ensures forall j :: 0 <= j < i ==> name[j] != '.'
  {
    if name == [] || name[0] == '.' then 0 else 1 + FirstDot(name[1..])
  }

  /** Split on the first dot; a bare address has the empty label. */
  function SplitName(name: string): WorkerKey {
    var i := FirstDot(name);
    if i < |name| then (name[..i], name[i + 1..]) else (name, "")
  }

  // ---- writes ----

  datatype LedgerEntry = LedgerEntry(worker: string, amounts: Amounts)

  /** A block hash, read as a number. */
  type BlockHash = nat

  datatype Resolution = Confirmed | Orphaned | Abandoned
  datatype Block = Block(hash: BlockHash, height: nat, worker: string, payout: string, foundTs: nat, wonAtSubmit: bool)
  datatype BlockRow = BlockRow(block: Block, resolution: Option<Resolution>)

  /** The round's persisted counters. */
  datatype Round = Round(accepted: nat, rejected: nat, work: nat)

  datatype StoreWrite =
    | Ledger(minuteTs: nat, entries: seq<LedgerEntry>)
    | RoundReset(epoch: nat)
    | BlockFound(block: Block)
    | BlockResolved(hash: BlockHash, resolution: Resolution)
    | Snapshot(epoch: nat, totals: Round)
    | Watermark

  /** Records nothing else can reconstruct: a failed one is retried, not dropped. */
  predicate IsDurable(w: StoreWrite) {
    w.Ledger? || w.BlockFound? || w.BlockResolved? || w.RoundReset?
  }

  datatype Db = Db(workers: map<WorkerKey, nat>, tables: Tables, blocks: map<BlockHash, BlockRow>, round: Round)

  const EmptyDb := Db(map[], Tables(map[], map[]), map[], Round(0, 0, 0))

  /** What the writer thread remembers between writes. */
  datatype WriterState = WriterState(roundEpoch: nat, workerIds: map<string, nat>)

  const FreshWriter := WriterState(0, map[])

  /** How the disk behaves during one write: every statement succeeds; the statement numbered `at`
      (or the commit) fails; or the main transaction commits and the statement after it fails. */
  datatype Disk = Healthy | Broken(at: nat) | TailBroken

  const MAX_LEDGER_WORKERS := 10000

  // ---- one ledger minute ----

  /** The open transaction of a ledger minute, with the worker-id cache it fills as it goes and the
      entries it skipped because the worker table is full. */
  datatype Tx = Tx(workers: map<WorkerKey, nat>, minutes: Rows, cache: map<string, nat>, capped: seq<LedgerEntry>)

  /** Resolve a worker name to its id, registering it on first sight. The name stays out of the cache
      only when the table is full. */
  function Resolve(tx: Tx, name: string): Tx {
    var k := SplitName(name);
    if name in tx.cache then tx
    else if k in tx.workers then tx.(cache := tx.cache[name := tx.workers[k]])
    else if |tx.workers| >= MAX_LEDGER_WORKERS then tx
    else
      var id := |tx.workers| + 1;
      tx.(workers := tx.workers[k := id], cache := tx.cache[name := id])
  }

  function FileEntry(tx: Tx, minuteTs: nat, e: LedgerEntry): Tx {
    var r := Resolve(tx, e.worker);
    if e.worker in r.cache
    then r.(minutes := AddRow(r.minutes, Key(r.cache[e.worker], minuteTs), e.amounts))
    else r.(capped := r.capped + [e])
  }

  function FileEntries(tx: Tx, minuteTs: nat, entries: seq<LedgerEntry>): Tx {
    if entries == [] then tx
    else FileEntry(FileEntries(tx, minuteTs, entries[..|entries| - 1]), minuteTs, entries[|entries| - 1])
  }

  function OpenTx(db: Db, st: WriterState): Tx {
    Tx(db.workers, db.tables.minutes, st.workerIds, [])
  }

  // ---- applying a write ----

  datatype Applied = Applied(db: Db, st: WriterState, ok: bool, capped: seq<LedgerEntry>)

  function MergeRound(r: Round, s: Round): Round {
    Round(Max(r.accepted, s.accepted), Max(r.rejected, s.rejected), Max(r.work, s.work))
  }

  ghost function Apply(db: Db, st: WriterState, w: StoreWrite, disk: Disk): Applied {
    match w
    case Ledger(minuteTs, entries) =>
      if disk.Broken? && entries != [] then
        // rolled back; the cache may name rolled-back rows, so it is cleared
        Applied(db, st.(workerIds := map[]), false, [])
      else
        var tx := FileEntries(OpenTx(db, st), minuteTs, entries);
        var filed := Tables(tx.minutes, db.tables.hourly);
        // a failed rollup is only logged: the minute itself has committed
        var tables := if disk.Healthy? then RollUp(filed, Cutoff(minuteTs)) else filed;
        Applied(db.(workers := tx.workers, tables := tables), st.(workerIds := tx.cache), true, tx.capped)
    case RoundReset(epoch) =>
      if disk.Broken? then Applied(db, st, false, [])
      else Applied(db.(round := Round(0, 0, 0)), st.(roundEpoch := Max(st.roundEpoch, epoch)), true, [])
    case BlockFound(block) =>
      if disk.Broken? then Applied(db, st, false, [])
      else if block.hash in db.blocks then Applied(db, st, true, [])
      else Applied(db.(blocks := db.blocks[block.hash := BlockRow(block, None)]), st, true, [])
    case BlockResolved(hash, resolution) =>
      if disk.Broken? then Applied(db, st, false, [])
      else if hash in db.blocks && db.blocks[hash].resolution.None? then
        Applied(db.(blocks := db.blocks[hash := db.blocks[hash].(resolution := Some(resolution))]), st, true, [])
      else
        // zero rows updated: a replay if the row exists, a failure if it has not landed yet
        Applied(db, st, disk.Healthy? && hash in db.blocks, [])
    case Snapshot(epoch, totals) =>
      if disk.Broken? then Applied(db, st, false, [])
      else if epoch != st.roundEpoch then Applied(db, st, disk.Healthy?, [])
      else Applied(db.(round := MergeRound(db.round, totals)), st, disk.Healthy?, [])
    case Watermark =>
      Applied(db, st, !disk.Broken?, [])
  }

  // ---- what the ledger owes each worker ----

  function EntriesTotal(entries: seq<LedgerEntry>, k: WorkerKey): Amounts {
    if entries == [] then Zero
    else
      var rest := EntriesTotal(entries[..|entries| - 1], k);
      if SplitName(entries[|entries| - 1].worker) == k then Plus(rest, entries[|entries| - 1].amounts) else rest
  }

  lemma {:induction false} EntriesTotalConcat(a: seq<LedgerEntry>, b: seq<LedgerEntry>, k: WorkerKey)
    ensures EntriesTotal(a + b, k) == Plus(EntriesTotal(a, k), EntriesTotal(b, k))
  {
    if b == [] {
      assert a + b == a;
      PlusZero(EntriesTotal(a, k));
    } else {
      var b' := b[..|b| - 1];
      assert (a + b)[..|a + b| - 1] == a + b';
      EntriesTotalConcat(a, b', k);
      PlusSwaps(EntriesTotal(a, k), EntriesTotal(b', k), b[|b| - 1].amounts);
    }
  }

  function OfWorker(id: nat): Key -> bool {
    (r: Key) => r.worker == id
  }

  /** Everything a worker has in a table. */
  ghost function WorkerTotal(workers: map<WorkerKey, nat>, rows: Rows, k: WorkerKey): Amounts {
    if k in workers then Total(rows, OfWorker(workers[k])) else Zero
  }

  ghost function LedgerTotal(db: Db, k: WorkerKey): Amounts {
    Plus(WorkerTotal(db.workers, db.tables.minutes, k), WorkerTotal(db.workers, db.tables.hourly, k))
  }

  /** Ids are dense and distinct, as SQLite assigns them to an insert-only table. */
  ghost predicate WorkersOk(workers: map<WorkerKey, nat>) {
    && (forall k :: k in workers ==> 1 <= workers[k] <= |workers|)
    && (forall k, l :: k in workers && l in workers && workers[k] == workers[l] ==> k == l)
  }

  /** The foreign key: every row belongs to a registered worker. */
  ghost predicate RowsOk(workers: map<WorkerKey, nat>, rows: Rows) {
    forall r :: r in rows ==> r.worker <= |workers|
  }

  /** Every cached id names a row of the worker table. */
  ghost predicate CacheOk(workers: map<WorkerKey, nat>, cache: map<string, nat>) {
    forall name :: name in cache ==> SplitName(name) in workers && workers[SplitName(name)] == cache[name]
  }

  ghost predicate DbOk(db: Db) {
    && WorkersOk(db.workers)
    && RowsOk(db.workers, db.tables.minutes)
    && RowsOk(db.workers, db.tables.hourly)
  }

  ghost predicate TxOk(tx: Tx) {
    WorkersOk(tx.workers) && RowsOk(tx.workers, tx.minutes) && CacheOk(tx.workers, tx.cache)
  }

  ghost function TxTotal(tx: Tx, k: WorkerKey): Amounts {
    Plus(WorkerTotal(tx.workers, tx.minutes, k), EntriesTotal(tx.capped, k))
  }

  function Share(e: LedgerEntry, k: WorkerKey): Amounts {
    if SplitName(e.worker) == k then e.amounts else Zero
  }

  lemma FileUnderId(workers: map<WorkerKey, nat>, minutes: Rows, id: nat, minuteTs: nat, e: LedgerEntry, k: WorkerKey)
    requires WorkersOk(workers)
    requires SplitName(e.worker) in workers && workers[SplitName(e.worker)] == id
    ensures WorkerTotal(workers, AddRow(minutes, Key(id, minuteTs), e.amounts), k)
         == Plus(WorkerTotal(workers, minutes, k), Share(e, k))
  {
    hide Sum, Total, Plus, AddRow, SplitName, FirstDot;
    PlusZero(WorkerTotal(workers, minutes, k));
    if k in workers {
      assert OfWorker(workers[k])(Key(id, minuteTs)) == (k == SplitName(e.worker));
      TotalAddRow(minutes, Key(id, minuteTs), e.amounts, OfWorker(workers[k]));
    }
  }

  /** Registering a worker gives it an id no row uses yet. */
  lemma Register(workers: map<WorkerKey, nat>, rows: Rows, newcomer: WorkerKey, k: WorkerKey)
    requires WorkersOk(workers) && RowsOk(workers, rows) && newcomer !in workers
    ensures WorkersOk(workers[newcomer := |workers| + 1]) && RowsOk(workers[newcomer := |workers| + 1], rows)
    ensures WorkerTotal(workers[newcomer := |workers| + 1], rows, k) == WorkerTotal(workers, rows, k)
  {
    if k == newcomer {
      NoneSumsToZero(rows, OfWorker(|workers| + 1));
    }
  }

  lemma CacheGrows(workers: map<WorkerKey, nat>, cache: map<string, nat>, name: string, id: nat)
    requires CacheOk(workers, cache)
    requires SplitName(name) in workers ==> workers[SplitName(name)] == id
    ensures CacheOk(workers[SplitName(name) := id], cache[name := id])
  {
    hide SplitName, FirstDot;
  }

  lemma ResolveOk(tx: Tx, name: string, rows: Rows, k: WorkerKey)
    requires TxOk(tx) && RowsOk(tx.workers, rows)
    ensures var r := Resolve(tx, name);
            && TxOk(r) && RowsOk(r.workers, rows)
            && r.minutes == tx.minutes && r.capped == tx.capped
            && WorkerTotal(r.workers, tx.minutes, k) == WorkerTotal(tx.workers, tx.minutes, k)
            && WorkerTotal(r.workers, rows, k) == WorkerTotal(tx.workers, rows, k)
  {
    hide Sum, Total, SplitName, FirstDot, WorkerTotal, CacheOk, WorkersOk, RowsOk;
    var (key, id) := (SplitName(name), |tx.workers| + 1);
    if name !in tx.cache {
      if key in tx.workers {
        CacheGrows(tx.workers, tx.cache, name, tx.workers[key]);
        assert tx.workers[key := tx.workers[key]] == tx.workers;
      } else if |tx.workers| < MAX_LEDGER_WORKERS {
        CacheGrows(tx.workers, tx.cache, name, id);
        Register(tx.workers, tx.minutes, key, k);
        Register(tx.workers, rows, key, k);
      }
    }
  }

  lemma FileEntryConserves(tx: Tx, minuteTs: nat, e: LedgerEntry, hourly: Rows, k: WorkerKey)
    requires TxOk(tx) && RowsOk(tx.workers, hourly)
    ensures var f := FileEntry(tx, minuteTs, e);
            && TxOk(f) && RowsOk(f.workers, hourly)
            && TxTotal(f, k) == Plus(TxTotal(tx, k), Share(e, k))
            && WorkerTotal(f.workers, hourly, k) == WorkerTotal(tx.workers, hourly, k)
  {
    hide Sum, Total, Plus, SplitName, FirstDot, Resolve;
    ResolveOk(tx, e.worker, hourly, k);
    var r := Resolve(tx, e.worker);
    var (kept, before) := (EntriesTotal(tx.capped, k), WorkerTotal(r.workers, r.minutes, k));
    PlusSwaps(before, kept, Share(e, k));
    if e.worker in r.cache {
      FileUnderId(r.workers, r.minutes, r.cache[e.worker], minuteTs, e, k);
      PlusSwaps(before, Share(e, k), kept);
    } else {
      assert (r.capped + [e])[..|r.capped|] == r.capped;
      PlusZero(kept);
    }
  }

  lemma {:induction false} FileEntriesConserve(tx: Tx, minuteTs: nat, entries: seq<LedgerEntry>, hourly: Rows,
                                               k: WorkerKey)
    requires TxOk(tx) && RowsOk(tx.workers, hourly)
    ensures var tx' := FileEntries(tx, minuteTs, entries);
            && TxOk(tx') && RowsOk(tx'.workers, hourly)
            && TxTotal(tx', k) == Plus(TxTotal(tx, k), EntriesTotal(entries, k))
            && WorkerTotal(tx'.workers, hourly, k) == WorkerTotal(tx.workers, hourly, k)
  {
    hide Sum, Total, Plus, AddRow, SplitName, FirstDot, FileEntry;
    if entries == [] {
      PlusZero(TxTotal(tx, k));
    } else {
      var (init, e) := (entries[..|entries| - 1], entries[|entries| - 1]);
      FileEntriesConserve(tx, minuteTs, init, hourly, k);
      var mid := FileEntries(tx, minuteTs, init);
      FileEntryConserves(mid, minuteTs, e, hourly, k);
      PlusSwaps(TxTotal(tx, k), EntriesTotal(init, k), Share(e, k));
      PlusZero(EntriesTotal(init, k));
    }
  }

  lemma RollUpConserves(workers: map<WorkerKey, nat>, t: Tables, cutoff: nat, k: WorkerKey)
    requires RowsOk(workers, t.minutes) && RowsOk(workers, t.hourly)
    ensures var r := RollUp(t, cutoff);
            && RowsOk(workers, r.minutes) && RowsOk(workers, r.hourly)
            && Plus(WorkerTotal(workers, r.minutes, k), WorkerTotal(workers, r.hourly, k))
               == Plus(WorkerTotal(workers, t.minutes, k), WorkerTotal(workers, t.hourly, k))
  {
    hide Sum, Total, Plus, Folded;
    if k in workers {
      assert HourAligned(OfWorker(workers[k]));
      RollUpKeepsTotals(t, cutoff, OfWorker(workers[k]));
    }
    var due := Due(t.minutes, cutoff);
    forall g | g in Folded(t.hourly, t.minutes, due)
      ensures g.worker <= |workers|
    {
      FoldedKeys(t.hourly, t.minutes, due, g);
      if g !in t.hourly {
        var m :| m in Group(due, g);
        assert HourOf(m) == g;
      }
    }
  }

  function WriteTotal(w: StoreWrite, k: WorkerKey): Amounts {
    if w.Ledger? then EntriesTotal(w.entries, k) else Zero
  }

  /** One write conserves every worker's ledger: what lands in the tables plus what the worker cap
      turned away is exactly what the write carried, or nothing if it failed. Every cached id still
      names a committed row. */
  lemma ApplyConserves(db: Db, st: WriterState, w: StoreWrite, disk: Disk, k: WorkerKey)
    requires DbOk(db) && CacheOk(db.workers, st.workerIds)
    ensures var r := Apply(db, st, w, disk);
            && DbOk(r.db) && CacheOk(r.db.workers, r.st.workerIds)
            && Plus(LedgerTotal(r.db, k), EntriesTotal(r.capped, k))
               == Plus(LedgerTotal(db, k), if r.ok then WriteTotal(w, k) else Zero)
  {
    hide Sum, Total, Plus, AddRow, SplitName, FirstDot, Folded;
    if w.Ledger? && !(disk.Broken? && w.entries != []) {
      LedgerCommitConserves(db, st, w.minuteTs, w.entries, disk.Healthy?, k);
    }
  }

  lemma LedgerCommitConserves(db: Db, st: WriterState, minuteTs: nat, entries: seq<LedgerEntry>, roll: bool,
                              k: WorkerKey)
    requires DbOk(db) && CacheOk(db.workers, st.workerIds)
    ensures var tx := FileEntries(OpenTx(db, st), minuteTs, entries);
            var filed := Tables(tx.minutes, db.tables.hourly);
            var db' := db.(workers := tx.workers, tables := if roll then RollUp(filed, Cutoff(minuteTs)) else filed);
            && DbOk(db') && CacheOk(tx.workers, tx.cache)
            && Plus(LedgerTotal(db', k), EntriesTotal(tx.capped, k))
               == Plus(LedgerTotal(db, k), EntriesTotal(entries, k))
  {
    hide Sum, Total, Plus, AddRow, SplitName, FirstDot, Folded;
    var (tx0, hourly) := (OpenTx(db, st), db.tables.hourly);
    var tx := FileEntries(tx0, minuteTs, entries);
    FileEntriesConserve(tx0, minuteTs, entries, hourly, k);
    if roll {
      RollUpConserves(tx.workers, Tables(tx.minutes, hourly), Cutoff(minuteTs), k);
    }
    var (m, h) := (WorkerTotal(db.workers, db.tables.minutes, k), WorkerTotal(db.workers, hourly, k));
    var m' := WorkerTotal(tx.workers, tx.minutes, k);
    PlusZero(m);
    PlusSwaps(m', h, EntriesTotal(tx.capped, k));
    PlusSwaps(m', EntriesTotal(tx.capped, k), h);
    PlusSwaps(m, h, EntriesTotal(entries, k));
    PlusSwaps(m, EntriesTotal(entries, k), h);
  }
}
