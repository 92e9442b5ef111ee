/** The deferred confirmation pass: the verdict rule, what a reorganisation can do to a verdict, and
    the sweep that applies it to the pending blocks. */
module Confirm {
  import opened Options
  import opened Store
  import opened Writer
  import opened Blocks

  // ---- the rule ----

  datatype Position =
    | OnChain(confirmations: nat, tipHeight: nat)
    | SideBranch(tipHeight: nat)
    | Unknown

  datatype Ruling = Undecided | Final(resolution: Resolution)

  function Classify(position: Position, height: nat, depth: nat): Ruling {
    match position
    case OnChain(confirmations, _) => if confirmations >= depth then Final(Confirmed) else Undecided
    case SideBranch(tip) => if tip >= height + depth then Final(Orphaned) else Undecided
    case Unknown => Undecided
  }

  // ---- the chain ----

  /** The active chain, one hash per height from genesis. */
  type Chain = c: seq<BlockHash> | |c| > 0 witness [0]

  predicate Active(c: Chain, b: BlockHash, height: nat) {
    height < |c| && c[height] == b
  }

  /** What an undisturbed probe of a block the node has reads. */
  function Probe(c: Chain, b: BlockHash, height: nat): Position {
    if Active(c, b, height) then OnChain(|c| - height, |c| - 1) else SideBranch(|c| - 1)
  }

  /** Disconnect k blocks and connect at least as many. */
  datatype Reorg = Reorg(k: nat, connect: seq<BlockHash>)

  predicate Possible(c: Chain, r: Reorg) {
    r.k < |c| && r.k <= |r.connect|
  }

  function Switch(c: Chain, r: Reorg): Chain
    requires Possible(c, r)
  {
    c[..|c| - r.k] + r.connect
  }

  predicate Follows(c: Chain, rs: seq<Reorg>, c': Chain)
    decreases |rs|
  {
    if rs == [] then c == c' else Possible(c, rs[0]) && Follows(Switch(c, rs[0]), rs[1..], c')
  }

  predicate Shallow(rs: seq<Reorg>, limit: nat) {
    forall i :: 0 <= i < |rs| ==> rs[i].k < limit
  }

  /** A Confirmed verdict stands until a reorganisation of at least depth blocks. */
  lemma {:induction false} ConfirmedStands(c: Chain, rs: seq<Reorg>, c': Chain, b: BlockHash, height: nat, depth: nat)
    requires Follows(c, rs, c') && Shallow(rs, depth)
    requires Classify(Probe(c, b, height), height, depth) == Final(Confirmed)
    ensures Classify(Probe(c', b, height), height, depth) == Final(Confirmed)
    decreases |rs|
  {
    if rs != [] {
      ConfirmedStands(Switch(c, rs[0]), rs[1..], c', b, height, depth);
    }
  }

  /** An Orphaned verdict stands one block longer: it takes more than depth blocks to undo it. */
  lemma {:induction false} OrphanedStands(c: Chain, rs: seq<Reorg>, c': Chain, b: BlockHash, height: nat, depth: nat)
    requires Follows(c, rs, c') && Shallow(rs, depth + 1)
    requires Classify(Probe(c, b, height), height, depth) == Final(Orphaned)
    ensures Classify(Probe(c', b, height), height, depth) == Final(Orphaned)
    decreases |rs|
  {
    if rs != [] {
      OrphanedStands(Switch(c, rs[0]), rs[1..], c', b, height, depth);
    }
  }

  /** A block has one height. */
  predicate Proper(c: seq<BlockHash>) {
    forall i, j :: 0 <= i < j < |c| ==> c[i] != c[j]
  }

  /** A hash above all of these. */
  function Above(c: seq<BlockHash>): (r: BlockHash)
    ensures forall i :: 0 <= i < |c| ==> c[i] < r
  {
    if c == [] then 0
    else
      var r := Above(c[..|c| - 1]);
      if c[|c| - 1] < r then r else c[|c| - 1] + 1
  }

  /** n blocks nobody has seen. */
  function NewBlocks(seen: seq<BlockHash>, n: nat): (r: seq<BlockHash>)
    ensures |r| == n && forall i :: 0 <= i < n ==> r[i] == Above(seen) + i
  {
    seq(n, i => Above(seen) + i)
  }

  /** Replace the last k blocks by b, if given, and new ones. */
  lemma StaysProper(c: Chain, k: nat, middle: seq<BlockHash>, n: nat)
    requires Proper(c) && k < |c| && |middle| <= 1 && (forall x :: x in middle ==> x !in c)
    ensures Proper(c[..|c| - k] + (middle + NewBlocks(c + middle, n)))
  {
    var seen := c + middle;
    var kept := c[..|c| - k];
    var all := kept + (middle + NewBlocks(seen, n));
    forall i, j | 0 <= i < j < |all|
      ensures all[i] != all[j]
    {
      if j >= |kept| + |middle| {
        assert all[j] == Above(seen) + (j - |kept| - |middle|);
        if i < |kept| {
          assert all[i] == seen[i];
        } else if i < |kept| + |middle| {
          assert all[i] == seen[|c| + i - |kept|];
        } else {
          assert all[i] == Above(seen) + (i - |kept| - |middle|);
        }
      } else if j >= |kept| {
        assert all[j] == middle[j - |kept|] && all[j] in middle;
        assert all[i] == c[i];
      } else {
        assert all[i] == c[i] && all[j] == c[j];
      }
    }
  }

  /** Both limits are exact: whenever the verdict has only just been reached, a reorganisation of
      that size exists and contradicts it, on chains where every block has one height. */
  lemma ConfirmedCanFall(c: Chain, b: BlockHash, height: nat, depth: nat) returns (r: Reorg)
    requires Proper(c) && 1 <= depth && 1 <= height
    requires Probe(c, b, height) == OnChain(depth, |c| - 1)
    ensures Possible(c, r) && r.k == depth && Proper(Switch(c, r)) && !Active(Switch(c, r), b, height)
  {
    r := Reorg(depth, [] + NewBlocks(c + [], depth));
    StaysProper(c, depth, [], depth);
    assert Switch(c, r)[height] == r.connect[0] == Above(c + []);
    assert b == (c + [])[height];
  }

  lemma OrphanedCanFall(c: Chain, b: BlockHash, height: nat, depth: nat) returns (r: Reorg)
    requires Proper(c) && 1 <= height && b !in c && |c| - 1 == height + depth
    ensures Classify(Probe(c, b, height), height, depth) == Final(Orphaned)
    ensures Possible(c, r) && r.k == depth + 1 && Proper(Switch(c, r)) && Active(Switch(c, r), b, height)
  {
    r := Reorg(depth + 1, [b] + NewBlocks(c + [b], depth));
    StaysProper(c, depth + 1, [b], depth);
    assert Switch(c, r)[height] == r.connect[0];
  }

  // ---- the probe as it is made ----

  /** The header is read on one chain and the tip height on a later one. */
  function SplitProbe(c: Chain, c': Chain, b: BlockHash, height: nat): Position {
    if Active(c, b, height) then OnChain(|c| - height, |c'| - 1) else SideBranch(|c'| - 1)
  }

  /** A split probe's final verdict is the one an undisturbed probe of the later chain gives,
      exactly when the block's place did not change between the two reads. */
  lemma SplitProbeAgreesIff(c: Chain, c': Chain, b: BlockHash, height: nat, depth: nat)
    requires |c| <= |c'| && Classify(SplitProbe(c, c', b, height), height, depth).Final?
    ensures Classify(SplitProbe(c, c', b, height), height, depth) == Classify(Probe(c', b, height), height, depth)
       <==> (Active(c, b, height) <==> Active(c', b, height))
  {
  }

  /** One block disconnected between the reads is enough: the block that reorganisation brings back,
      buried depth blocks deep, is declared orphaned. */
  lemma SplitProbeMisjudges(c: Chain, b: BlockHash, height: nat, depth: nat) returns (r: Reorg)
    requires Proper(c) && 1 <= height == |c| - 1 && b !in c
    ensures Possible(c, r) && r.k == 1 && Proper(Switch(c, r)) && Active(Switch(c, r), b, height)
    ensures Classify(SplitProbe(c, Switch(c, r), b, height), height, depth) == Final(Orphaned)
    ensures depth >= 1 ==> Classify(Probe(Switch(c, r), b, height), height, depth) == Final(Confirmed)
  {
    r := Reorg(1, [b] + NewBlocks(c + [b], depth));
    StaysProper(c, 1, [b], depth);
    assert Switch(c, r)[height] == r.connect[0];
  }

  /** The rule on a chain: a block becomes Confirmed exactly with its depth-th confirmation, its own block
      included, and Orphaned exactly when the chain without it is depth blocks past its height. */
  lemma VerdictIff(c: Chain, b: BlockHash, height: nat, depth: nat)
    ensures var (v, active) := (Classify(Probe(c, b, height), height, depth), height < |c| && c[height] == b);
            && (v == Final(Confirmed) <==> active && |c| >= height + depth)
            && (v == Final(Orphaned) <==> !active && |c| > height + depth)
            && v != Final(Abandoned)
  {
  }

  // ---- the sweep ----

  const ABANDON_AFTER := 86400

  datatype Reading = Failed | At(position: Position)

  /** What a sweep does about one block; a block the node does not know is given up after a day. */
  function Decide(b: Block, reading: Reading, now: nat, depth: nat): Option<Resolution> {
    match reading
    case Failed => None
    case At(position) =>
      var ruling := Classify(position, b.height, depth);
      if ruling.Final? then Some(ruling.resolution)
      else if position.Unknown? && now >= b.foundTs + ABANDON_AFTER then Some(Abandoned)
      else None
  }

  /** What each reading decides. */
  lemma DecideIff(b: Block, reading: Reading, now: nat, depth: nat)
    ensures var d := Decide(b, reading, now, depth);
            && (d == Some(Confirmed) <==>
                  reading.At? && reading.position.OnChain? && reading.position.confirmations >= depth)
            && (d == Some(Orphaned) <==>
                  reading.At? && reading.position.SideBranch? && reading.position.tipHeight >= b.height + depth)
            && (d == Some(Abandoned) <==> reading == At(Unknown) && now >= b.foundTs + 86400)
  {
  }

  /** The in-memory half of block accounting: counters, pending blocks, writes queued, rounds reset. */
  datatype Books = Books(counts: Counts, pending: map<BlockHash, Block>, sent: seq<StoreWrite>, resets: nat)

  function Resolved(v: Books, b: Block, r: Resolution): Books {
    if b.hash !in v.pending then v
    else v.(counts := CountResolution(v.counts, b.wonAtSubmit, r), pending := v.pending - {b.hash},
            sent := v.sent + [BlockResolved(b.hash, r)],
            resets := v.resets + if !b.wonAtSubmit && r.Confirmed? then 1 else 0)
  }

  function Swept(v: Books, listed: seq<Block>, node: BlockHash -> Reading, now: nat, depth: nat): Books {
    if listed == [] then v
    else
      var b := listed[|listed| - 1];
      var w := Swept(v, listed[..|listed| - 1], node, now, depth);
      var d := Decide(b, node(b.hash), now, depth);
      if d.Some? then Resolved(w, b, d.value) else w
  }

  predicate Copied(listed: seq<Block>, pending: map<BlockHash, Block>) {
    && (forall i :: 0 <= i < |listed| ==> listed[i].hash in pending && pending[listed[i].hash] == listed[i])
    && (forall i, j :: 0 <= i < j < |listed| ==> listed[i].hash != listed[j].hash)
  }

  /** A copy of the whole pending set, in some order. */
  predicate Lists(listed: seq<Block>, pending: map<BlockHash, Block>) {
    Copied(listed, pending) && forall h :: h in pending ==> pending[h] in listed
  }

  /** The resolutions queued for h, in order. */
  function ResolutionsOf(sent: seq<StoreWrite>, h: BlockHash): seq<Resolution> {
    if sent == [] then []
    else
      var w := sent[|sent| - 1];
      ResolutionsOf(sent[..|sent| - 1], h) + if w.BlockResolved? && w.hash == h then [w.resolution] else []
  }

  lemma ResolvedEffect(v: Books, b: Block, r: Resolution, h: BlockHash)
    requires b.hash in v.pending
    ensures var w := Resolved(v, b, r);
            && (h in w.pending <==> h in v.pending && h != b.hash)
            && (h in w.pending ==> w.pending[h] == v.pending[h])
            && ResolutionsOf(w.sent, h) == ResolutionsOf(v.sent, h) + if h == b.hash then [r] else []
  {
    var sent := v.sent + [BlockResolved(b.hash, r)];
    assert sent[..|sent| - 1] == v.sent;
  }

  /** What a sweep of these blocks queues for b. */
  function Verdicts(listed: seq<Block>, b: Block, node: BlockHash -> Reading, now: nat, depth: nat): seq<Resolution> {
    var d := Decide(b, node(b.hash), now, depth);
    if b in listed && d.Some? then [d.value] else []
  }

  /** One sweep retires a block exactly when its reading decides it, and queues that one decision. */
  lemma {:induction false} SweptExactly(v: Books, listed: seq<Block>, node: BlockHash -> Reading, now: nat,
                                        depth: nat, h: BlockHash)
    requires Copied(listed, v.pending) && h in v.pending && v.pending[h].hash == h
    ensures var (w, queued) := (Swept(v, listed, node, now, depth), Verdicts(listed, v.pending[h], node, now, depth));
            && (h in w.pending <==> queued == [])
            && (h in w.pending ==> w.pending[h] == v.pending[h])
            && ResolutionsOf(w.sent, h) == ResolutionsOf(v.sent, h) + queued
    decreases |listed|
  {
    hide Decide, Resolved, ResolutionsOf;
    if listed != [] {
      var (front, last, b) := (listed[..|listed| - 1], listed[|listed| - 1], v.pending[h]);
      SweptExactly(v, front, node, now, depth, h);
      SweptExactly(v, front, node, now, depth, last.hash);
      assert b in listed <==> b in front || b == last;
      assert last !in front;
      var d := Decide(last, node(last.hash), now, depth);
      if d.Some? {
        ResolvedEffect(Swept(v, front, node, now, depth), last, d.value, h);
      }
    }
  }

  /** A round is reset exactly when a block is found: at a win, or at the promotion of a block that had
      lost its race. Neither verdict moves anything else. */
  lemma ResetsFollowFinds(v: Books, b: Block, r: Resolution)
    requires b.hash in v.pending && (b.wonAtSubmit && r.Orphaned? ==> v.counts.found > 0)
    ensures var w := Resolved(v, b, r);
            && w.counts.found + w.counts.orphaned + v.resets == v.counts.found + v.counts.orphaned + w.resets
            && (w.counts != v.counts <==> b.wonAtSubmit == r.Orphaned? && !r.Abandoned?)
            && (w.resets > v.resets <==> !b.wonAtSubmit && r == Confirmed)
  {
  }

  // ---- the same accounting, step by step ----

  function WritesOf(ts: seq<Ticket>): seq<StoreWrite> {
    seq(|ts|, i requires 0 <= i < |ts| => ts[i].write)
  }

  /** The books and the interleaved system agree on counters, pending blocks and what was queued. */
  predicate Matches(s: Sys, v: Books) {
    s.counts == v.counts && s.pending == v.pending && WritesOf(s.pipe.queue) == v.sent
  }

  /** Resolving a pending block is a copy, a removal, a count and a write of the block accounting. */
  lemma ResolvedIsRun(o: Sys, acts: seq<Action>, s: Sys, v: Books, b: Block, r: Resolution)
    returns (more: seq<Action>, s': Sys)
    requires Reaches(o, acts, s) && Matches(s, v) && b.hash in v.pending && v.pending[b.hash] == b
    ensures Reaches(o, more, s') && Matches(s', Resolved(v, b, r))
  {
    hide Reaches, Recount, CountResolution;
    var i := |s.tasks|;
    more, s' := ReachesThen(o, acts, s, Look(b.hash));
    more, s' := ReachesThen(o, more, s', Resolve(b, r));
    assert s'.tasks[i] == Removed(b, r);
    more, s' := ReachesThen(o, more, s', Go(i));
    assert s'.tasks[i] == Counted(b, r);
    more, s' := ReachesThen(o, more, s', Go(i));
  }

  /** Reporting a block is a count, an enrolment and a write, the latter two for the first report only. */
  lemma ReportIsRun(o: Sys, acts: seq<Action>, s: Sys, v: Books, b: Block, resets: nat)
    returns (more: seq<Action>, s': Sys)
    requires Reaches(o, acts, s) && Matches(s, v)
    ensures Reaches(o, more, s')
    ensures var counts := CountReport(v.counts, b.wonAtSubmit);
            Matches(s', if b.hash in v.pending then Books(counts, v.pending, v.sent, resets)
                        else Books(counts, v.pending[b.hash := b], v.sent + [StoreWrite.BlockFound(b)], resets))
  {
    hide Reaches, Recount, CountReport;
    var i := |s.tasks|;
    more, s' := ReachesThen(o, acts, s, Report(b));
    assert s'.tasks[i] == Reported(b);
    more, s' := ReachesThen(o, more, s', Go(i));
    more, s' := ReachesThen(o, more, s', Go(i));
  }

  /** A sweep is a run of the block accounting, so all that holds of its runs holds of sweeps. */
  lemma {:induction false} SweepIsRun(o: Sys, acts: seq<Action>, s: Sys, v: Books, listed: seq<Block>,
                                      node: BlockHash -> Reading, now: nat, depth: nat)
    returns (more: seq<Action>, s': Sys)
    requires Reaches(o, acts, s) && Matches(s, v) && Copied(listed, v.pending)
    ensures Reaches(o, more, s') && Matches(s', Swept(v, listed, node, now, depth))
    decreases |listed|
  {
    hide Reaches, Decide, Resolved, WritesOf;
    if listed == [] {
      more, s' := acts, s;
    } else {
      var (front, last) := (listed[..|listed| - 1], listed[|listed| - 1]);
      more, s' := SweepIsRun(o, acts, s, v, front, node, now, depth);
      var d := Decide(last, node(last.hash), now, depth);
      if d.Some? {
        assert last !in front;
        LeftAlone(v, front, node, now, depth, last);
        more, s' := ResolvedIsRun(o, more, s', Swept(v, front, node, now, depth), last, d.value);
      }
    }
  }

  lemma LeftAlone(v: Books, listed: seq<Block>, node: BlockHash -> Reading, now: nat, depth: nat, b: Block)
    requires Copied(listed, v.pending) && b.hash in v.pending && v.pending[b.hash] == b && b !in listed
    ensures var w := Swept(v, listed, node, now, depth); b.hash in w.pending && w.pending[b.hash] == b
  {
    SweptExactly(v, listed, node, now, depth, b.hash);
  }

  class FoundBlocks {
    var counts: Counts
    var pending: map<BlockHash, Block>
    var sent: seq<StoreWrite>
    var resets: nat

    function View(): Books
      reads this
    {
      Books(counts, pending, sent, resets)
    }

    /** Count a win and start a new round. */
    method BlockWon()
      modifies this`counts, this`resets
      ensures counts == old(counts).(found := old(counts.found) + 1) && resets == old(resets) + 1
    {
      counts := counts.(found := counts.found + 1);
      resets := resets + 1;
    }

    method RecordOutcome(b: Block)
      modifies this
      ensures counts == CountReport(old(counts), b.wonAtSubmit)
      ensures resets == old(resets) + if b.wonAtSubmit then 1 else 0
      ensures b.hash in old(pending) ==> pending == old(pending) && sent == old(sent)
      ensures b.hash !in old(pending) ==>
              pending == old(pending)[b.hash := b] && sent == old(sent) + [StoreWrite.BlockFound(b)]
    {
      if b.wonAtSubmit {
        BlockWon();
      } else {
        counts := counts.(inconclusive := counts.inconclusive + 1);
      }
      if b.hash in pending {
        return;
      }
      pending := pending[b.hash := b];
      sent := sent + [StoreWrite.BlockFound(b)];
    }

    method ResolveBlock(b: Block, r: Resolution) returns (ok: bool)
      modifies this
      ensures ok <==> b.hash in old(pending)
      ensures View() == Resolved(old(View()), b, r)
    {
      if b.hash !in pending {
        return false;
      }
      pending := pending - {b.hash};
      if b.wonAtSubmit && r.Orphaned? {
        counts := counts.(orphaned := counts.orphaned + 1);
        counts := counts.(found := Less1(counts.found));
      } else if !b.wonAtSubmit && r.Confirmed? {
        counts := counts.(inconclusive := Less1(counts.inconclusive));
        BlockWon();
      }
      sent := sent + [BlockResolved(b.hash, r)];
      ok := true;
    }

    method PendingBlocks() returns (listed: seq<Block>)
      requires forall h :: h in pending ==> pending[h].hash == h
      ensures Lists(listed, pending)
    {
      listed := [];
      var rest := pending.Keys;
      while rest != {}
        invariant rest <= pending.Keys
        invariant forall i :: 0 <= i < |listed| ==>
                    listed[i].hash in pending && pending[listed[i].hash] == listed[i] && listed[i].hash !in rest
        invariant forall i, j :: 0 <= i < j < |listed| ==> listed[i].hash != listed[j].hash
        invariant forall h :: h in pending && h !in rest ==> pending[h] in listed
        decreases |rest|
      {
        var h :| h in rest;
        listed := listed + [pending[h]];
        rest := rest - {h};
      }
    }

    /** One pass over a copy of the pending set. */
    method Sweep(node: BlockHash -> Reading, now: nat, depth: nat) returns (listed: seq<Block>)
      requires forall h :: h in pending ==> pending[h].hash == h
      modifies this
      ensures Lists(listed, old(pending))
      ensures View() == Swept(old(View()), listed, node, now, depth)
    {
      listed := PendingBlocks();
      for i := 0 to |listed|
        invariant View() == Swept(old(View()), listed[..i], node, now, depth)
      {
        assert listed[..i + 1][..i] == listed[..i];
        var b := listed[i];
        var decision := Decide(b, node(b.hash), now, depth);
        if decision.Some? {
          var _ := ResolveBlock(b, decision.value);
        }
      }
      assert listed[..|listed|] == listed;
    }
  }
}
