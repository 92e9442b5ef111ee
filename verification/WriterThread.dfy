/** The writer thread as the source runs it: one object whose methods change the tables, the backlog
    and the thread's state in place, each method tied to the step it performs. */
module WriterThread {
  import opened Bytes
  import opened Options
  import opened Ledgers
  import opened WorkHistory
  import opened Store
  import opened Writer

  class StatsWriter {
    var workers: map<WorkerKey, nat>
    var minutes: Rows
    var hourly: Rows
    var blocks: map<BlockHash, BlockRow>
    var round: Round
    var roundEpoch: nat
    var workerIds: map<string, nat>
    var backlog: seq<Ticket>
    ghost var applied: seq<Ticket>
    ghost var discarded: seq<Ticket>
    ghost var lost: seq<Ticket>
    ghost var capped: seq<LedgerEntry>

    ghost function Database(): Db
      reads this
    {
      Db(workers, Tables(minutes, hourly), blocks, round)
    }

    ghost function State(): WriterState
      reads this
    {
      WriterState(roundEpoch, workerIds)
    }

    /** The thread's part of the pipe; the queue belongs to the channel. */
    ghost function View(): Pipe
      reads this
    {
      Pipe(Database(), State(), [], backlog, applied, discarded, lost, [], capped, 0)
    }

    /** Look a worker up, registering it in the open transaction on first sight. */
    method ResolveWorker(registered: map<WorkerKey, nat>, name: string) returns (now: map<WorkerKey, nat>)
      modifies this`workerIds
      ensures forall rows, skipped ::
                Tx(now, rows, workerIds, skipped) == Resolve(Tx(registered, rows, old(workerIds), skipped), name)
    {
      hide SplitName, FirstDot;
      now := registered;
      if name !in workerIds {
        var key := SplitName(name);
        if key in now {
          workerIds := workerIds[name := now[key]];
        } else if |now| < MAX_LEDGER_WORKERS {
          now := now[key := |now| + 1];
          workerIds := workerIds[name := now[key]];
        }
      }
    }

    /** On success the minute is committed; on failure only the cache may have changed. */
    method WriteLedgerMinute(minuteTs: nat, entries: seq<LedgerEntry>, disk: Disk) returns (ok: bool)
      modifies this`workers, this`minutes, this`workerIds, this`capped
      ensures ok <==> !(disk.Broken? && entries != [])
      ensures var tx := FileEntries(old(OpenTx(Database(), State())), minuteTs, entries);
              if ok then workers == tx.workers && minutes == tx.minutes && workerIds == tx.cache
                 && capped == old(capped) + tx.capped
              else workers == old(workers) && minutes == old(minutes) && capped == old(capped)
    {
      hide AddRow, SplitName, FirstDot, Resolve;
      if entries == [] {
        assert capped == capped + [];
        return true;
      }
      var txWorkers: map<WorkerKey, nat> := workers;
      var txMinutes := minutes;
      ghost var skipped: seq<LedgerEntry> := [];
      ghost var tx0 := OpenTx(Database(), State());
      var i := 0;
      while i < |entries|
        invariant 0 <= i <= |entries|
        invariant workers == old(workers) && minutes == old(minutes) && capped == old(capped)
        invariant Tx(txWorkers, txMinutes, workerIds, skipped) == FileEntries(tx0, minuteTs, entries[..i])
      {
        if disk == Broken(i) {
          return false;
        }
        assert entries[..i + 1][..i] == entries[..i];
        var e := entries[i];
        ghost var tx := Tx(txWorkers, txMinutes, workerIds, skipped);
        txWorkers := ResolveWorker(txWorkers, e.worker);
        assert Tx(txWorkers, txMinutes, workerIds, skipped) == Resolve(tx, e.worker);
        if e.worker in workerIds {
          txMinutes := AddRow(txMinutes, Key(workerIds[e.worker], minuteTs), e.amounts);
        } else {
          skipped := skipped + [e];
        }
        i := i + 1;
      }
      assert entries[..|entries|] == entries;
      if disk.Broken? {
        return false;
      }
      workers, minutes := txWorkers, txMinutes;
      capped := capped + skipped;
      ok := true;
    }

    method RollUpLedger(now: nat, disk: Disk)
      modifies this`minutes, this`hourly
      ensures Tables(minutes, hourly)
           == if disk.Healthy? then RollUp(old(Tables(minutes, hourly)), Cutoff(now)) else old(Tables(minutes, hourly))
    {
      hide AddRow, Cutoff;
      if !disk.Healthy? {
        return;
      }
      var due := Due(minutes, Cutoff(now));
      ghost var (due0, minutes0, hourly0) := (due, minutes, hourly);
      while due != {}
        invariant due <= due0 <= minutes0.Keys
        invariant minutes == minutes0 - (due0 - due)
        invariant Folded(hourly, minutes0, due) == Folded(hourly0, minutes0, due0)
        decreases due
      {
        var k :| k in due;
        FoldedAnyOrder(hourly, minutes0, due, k);
        hourly := AddRow(hourly, HourOf(k), minutes[k]);
        minutes := minutes - {k};
        due := due - {k};
      }
    }

    method ApplyWrite(w: StoreWrite, disk: Disk) returns (ok: bool)
      modifies this`workers, this`minutes, this`hourly, this`blocks, this`round, this`roundEpoch, this`workerIds,
               this`capped
      ensures var r := Apply(old(Database()), old(State()), w, disk);
              Database() == r.db && State() == r.st && ok == r.ok && capped == old(capped) + r.capped
    {
      hide FileEntries, RollUp;
      match w
      case Ledger(minuteTs, entries) =>
        ok := WriteLedgerMinute(minuteTs, entries, disk);
        if ok {
          RollUpLedger(minuteTs, disk);
        } else {
          workerIds := map[];
        }
      case RoundReset(epoch) =>
        ok := !disk.Broken?;
        if ok {
          round := Round(0, 0, 0);
          roundEpoch := Max(roundEpoch, epoch);
        }
      case BlockFound(block) =>
        ok := !disk.Broken?;
        if ok && block.hash !in blocks {
          blocks := blocks[block.hash := BlockRow(block, None)];
        }
      case BlockResolved(hash, resolution) =>
        ok := !disk.Broken?;
        if ok {
          var updated := hash in blocks && blocks[hash].resolution.None?;
          if updated {
            blocks := blocks[hash := blocks[hash].(resolution := Some(resolution))];
          } else {
            ok := disk.Healthy? && hash in blocks;
          }
        }
      case Snapshot(epoch, totals) =>
        ok := disk.Healthy?;
        if !disk.Broken? && epoch == roundEpoch {
          round := MergeRound(round, totals);
        }
      case Watermark =>
        ok := !disk.Broken?;
    }

    method HandleWrite(t: Ticket, disk: Disk)
      modifies this
      ensures View() == Handle(old(View()), t, disk)
    {
      hide Apply;
      var ok := ApplyWrite(t.write, disk);
      if ok {
        applied := applied + [t];
      } else if IsDurable(t.write) {
        if |backlog| >= MAX_WRITE_BACKLOG {
          lost := lost + [backlog[0]];
          backlog := backlog[1..];
        }
        backlog := backlog + [t];
      } else {
        discarded := discarded + [t];
      }
    }

    /** Pop the oldest, try it, push it back to the front on failure and stop. */
    method RetryBacklog(disks: seq<Disk>)
      requires |disks| == |backlog|
      modifies this
      ensures View() == RetryPass(old(View()), disks)
    {
      hide Apply;
      var parked := |backlog|;
      var i := 0;
      assert disks[0..] == disks;
      while i < parked
        invariant 0 <= i <= parked && |backlog| == parked - i
        invariant RetryPass(View(), disks[i..]) == RetryPass(old(View()), disks)
      {
        ghost var p := View();
        var t := backlog[0];
        backlog := backlog[1..];
        var ok := ApplyWrite(t.write, disks[i]);
        assert disks[i..][1..] == disks[i + 1..];
        if !ok {
          backlog := [t] + backlog;
          assert backlog == p.backlog;
          assert p.capped + Apply(p.db, p.st, t.write, disks[i]).capped == capped;
          assert View() == Retry(p, disks[i]);
          return;
        }
        applied := applied + [t];
        assert View() == Retry(p, disks[i]);
        i := i + 1;
      }
      assert disks[i..] == [];
    }
  }
}
