/** The round counted from outside: what memory shows and what is on disk, in terms of the shares and
    the credits of the run itself, and of the moments at which resets read and zeroed. */
module RoundRuns {
  import opened Bytes
  import opened Options
  import opened Store
  import opened Writer
  import opened Round

  /** Shares of one kind counted by a run. */
  function Shares(acts: seq<SysStep>, f: Count): nat {
    if acts == [] then 0 else Shares(acts[..|acts| - 1], f) + if acts[|acts| - 1] == Memory(CountShare(f)) then 1 else 0
  }

  /** Work credited by a run. */
  function Credits(acts: seq<SysStep>): nat {
    if acts == [] then 0
    else
      var a := acts[|acts| - 1];
      Credits(acts[..|acts| - 1]) + if a.Memory? && a.step.CreditWork? then a.step.credit else 0
  }

  lemma {:induction false} CountsSplit(acts: seq<SysStep>, i: nat, f: Count)
    requires i <= |acts|
    ensures Shares(acts, f) == Shares(acts[..i], f) + Shares(acts[i..], f)
    ensures Credits(acts) == Credits(acts[..i]) + Credits(acts[i..])
    decreases |acts|
  {
    if i == |acts| {
      assert acts[..i] == acts && acts[i..] == [];
    } else {
      var init := acts[..|acts| - 1];
      CountsSplit(init, i, f);
      assert init[..i] == acts[..i] && init[i..] == acts[i..][..|acts[i..]| - 1];
    }
  }

  // ---- the run so far ----

  lemma {:induction false} ReachesFront(o: Sys, h: seq<SysStep>, s: Sys) returns (b: Sys)
    requires Reaches(o, h, s) && h != []
    ensures Reaches(o, h[..|h| - 1], b) && CanDo(b, h[|h| - 1]) && s == Next(b, h[|h| - 1])
    decreases |h|
  {
    hide Next, CanDo;
    if |h| == 1 {
      b := o;
      assert h[1..] == [];
    } else {
      b := ReachesFront(Next(o, h[0]), h[1..], s);
      assert h[1..][..|h[1..]| - 1] == h[..|h| - 1][1..];
    }
  }

  lemma {:induction false} OneOutcome(o: Sys, h: seq<SysStep>, s: Sys, t: Sys)
    requires Reaches(o, h, s) && Reaches(o, h, t)
    ensures s == t
    decreases |h|
  {
    hide Next, CanDo;
    if h != [] {
      OneOutcome(Next(o, h[0]), h[1..], s, t);
    }
  }

  lemma StepCounts(s: Sys, a: SysStep, f: Count)
    requires CanDo(s, a) && !a.Restart?
    ensures var (m, n) := (s.core.mem, Next(s, a).core.mem);
            && n.base == m.base
            && Of(n.count, f) == Of(m.count, f) + (if a == Memory(CountShare(f)) then 1 else 0)
            && n.wiped + n.work == m.wiped + m.work + (if a.Memory? && a.step.CreditWork? then a.step.credit else 0)
  {
    hide Lowest, Life, Do;
  }

  /** Within one boot each count is the number of its shares, and the work wiped and standing together
      are the credits. */
  lemma {:induction false} RunCounts(o: Sys, h: seq<SysStep>, s: Sys, f: Count)
    requires Reaches(o, h, s) && NoRestart(h)
    ensures s.core.mem.base == o.core.mem.base
    ensures Of(s.core.mem.count, f) == Of(o.core.mem.count, f) + Shares(h, f)
    ensures s.core.mem.wiped + s.core.mem.work == o.core.mem.wiped + o.core.mem.work + Credits(h)
    decreases |h|
  {
    hide Next, CanDo, Reaches;
    if h == [] {
      assert s == o by { OneOutcome(o, [], s, o) by { ReachesNothing(o); } }
    } else {
      var b := ReachesFront(o, h, s);
      RunCounts(o, h[..|h| - 1], b, f);
      StepCounts(b, h[|h| - 1], f);
    }
  }

  // ---- moments ----

  /** The step that takes a reset's reading of f. */
  predicate Loading(s: Sys, a: SysStep, f: Count) {
    if f.Acc? then a == Memory(StartReset)
    else a.Memory? && a.step.ResetStep? && a.step.i < |s.core.resets| && s.core.resets[a.step.i].AccStored?
  }

  predicate Zeroing(s: Sys, a: SysStep) {
    a.Memory? && a.step.ResetStep? && a.step.i < |s.core.resets| && s.core.resets[a.step.i].RejStored?
  }

  predicate Bumping(s: Sys, a: SysStep) {
    a.Memory? && a.step.ResetStep? && a.step.i < |s.core.resets| && s.core.resets[a.step.i].Zeroed?
  }

  /** At step i of the run some reset read f. */
  ghost predicate Loads(o: Sys, h: seq<SysStep>, i: nat, f: Count) {
    i < |h| && exists s :: Reaches(o, h[..i], s) && Loading(s, h[i], f)
  }

  ghost predicate Zeroes(o: Sys, h: seq<SysStep>, i: nat) {
    i < |h| && exists s :: Reaches(o, h[..i], s) && Zeroing(s, h[i])
  }

  /** At step i epoch e began. */
  ghost predicate Begins(o: Sys, h: seq<SysStep>, i: nat, e: nat) {
    i < |h| && exists s :: Reaches(o, h[..i], s) && Bumping(s, h[i]) && s.core.mem.epoch + 1 == e
  }

  lemma LoadsStill(o: Sys, h: seq<SysStep>, a: SysStep, i: nat, f: Count)
    requires i < |h|
    ensures Loads(o, h + [a], i, f) <==> Loads(o, h, i, f)
    ensures Zeroes(o, h + [a], i) <==> Zeroes(o, h, i)
    ensures forall e :: Begins(o, h + [a], i, e) <==> Begins(o, h, i, e)
  {
    hide Reaches, Loading, Zeroing, Bumping;
    assert (h + [a])[..i] == h[..i] && (h + [a])[i] == h[i];
  }

  /** v is a reading some reset took of f. */
  ghost predicate WasRead(o: Sys, h: seq<SysStep>, f: Count, v: nat) {
    exists i, s :: 0 <= i < |h| && Reaches(o, h[..i], s) && Loading(s, h[i], f) && v == Life(s.core.mem, f)
  }

  /** Everything that is or may become the offset is such a reading. */
  ghost predicate ReadingsOk(o: Sys, h: seq<SysStep>, s: Sys, f: Count) {
    && (forall i :: 0 <= i < |s.core.resets| && Holds(s.core.resets[i], f) ==>
       WasRead(o, h, f, Held(s.core.resets[i], f)))
    && (WasRead(o, h, f, Of(s.core.mem.offset, f))
        || (Of(s.core.mem.offset, f) == 0
            && forall i :: 0 <= i < |s.core.resets| ==> BeforeStore(s.core.resets[i], f)))
  }

  predicate BeforeStore(t: ResetTask, f: Count) {
    t.AccLoaded? || (f.Rej? && (t.AccStored? || t.RejLoaded?))
  }

  lemma ReadStill(o: Sys, h: seq<SysStep>, a: SysStep, f: Count, v: nat)
    requires WasRead(o, h, f, v)
    ensures WasRead(o, h + [a], f, v)
  {
    hide Reaches, Loading, Life;
    var i, s :| 0 <= i < |h| && Reaches(o, h[..i], s) && Loading(s, h[i], f) && v == Life(s.core.mem, f);
    assert (h + [a])[..i] == h[..i] && (h + [a])[i] == h[i];
  }

  lemma ReadNow(o: Sys, h: seq<SysStep>, s: Sys, a: SysStep, f: Count)
    requires Reaches(o, h, s) && Loading(s, a, f)
    ensures WasRead(o, h + [a], f, Life(s.core.mem, f))
  {
    hide Reaches, Loading, Life;
    assert (h + [a])[..|h|] == h && (h + [a])[|h|] == a;
  }

  lemma ReadingsStay(o: Sys, h: seq<SysStep>, s: Sys, a: SysStep, f: Count)
    requires Reaches(o, h, s) && CanDo(s, a) && !a.Restart? && ReadingsOk(o, h, s, f)
    ensures ReadingsOk(o, h + [a], Next(s, a), f)
  {
    hide Reaches, WasRead, Lowest, Life, Do;
    var (c, d, g) := (s.core, Next(s, a).core, h + [a]);
    if Loading(s, a, f) {
      ReadNow(o, h, s, a, f);
    }
    forall v | WasRead(o, h, f, v)
      ensures WasRead(o, g, f, v)
    {
      ReadStill(o, h, a, f, v);
    }
    forall i | 0 <= i < |d.resets| && Holds(d.resets[i], f)
      ensures WasRead(o, g, f, Held(d.resets[i], f))
    {
      if i < |c.resets| && d.resets[i] == c.resets[i] {
        assert Holds(c.resets[i], f);
      }
    }
    if a.Memory? && a.step.ResetStep? && Holds(c.resets[a.step.i], f) {
      assert Of(d.mem.offset, f) == Held(c.resets[a.step.i], f);
    }
  }

  /** The last zeroing left the wiped work at v. */
  ghost predicate WipedAt(o: Sys, h: seq<SysStep>, z: nat, v: nat) {
    && z < |h| && (forall j :: z < j < |h| ==> !Zeroes(o, h, j))
    && exists s :: Reaches(o, h[..z], s) && Zeroing(s, h[z]) && v == s.core.mem.wiped + s.core.mem.work
  }

  ghost predicate WipedOk(o: Sys, h: seq<SysStep>, s: Sys) {
    || (exists z: nat :: WipedAt(o, h, z, s.core.mem.wiped))
    || (&& s.core.mem.wiped == o.core.mem.wiped && (forall j :: 0 <= j < |h| ==> !Zeroes(o, h, j))
        && forall i :: 0 <= i < |s.core.resets| ==> BeforeZero(s.core.resets[i]))
  }

  predicate BeforeZero(t: ResetTask) {
    t.AccLoaded? || t.AccStored? || t.RejLoaded? || t.RejStored?
  }

  lemma ZeroesNow(o: Sys, h: seq<SysStep>, s: Sys, a: SysStep)
    requires Reaches(o, h, s)
    ensures Zeroes(o, h + [a], |h|) <==> Zeroing(s, a)
  {
    hide Reaches, Zeroing;
    assert (h + [a])[..|h|] == h && (h + [a])[|h|] == a;
    forall t | Reaches(o, h, t)
      ensures t == s
    {
      OneOutcome(o, h, s, t);
    }
  }

  lemma WipedStays(o: Sys, h: seq<SysStep>, s: Sys, a: SysStep)
    requires Reaches(o, h, s) && CanDo(s, a) && !a.Restart? && WipedOk(o, h, s)
    ensures WipedOk(o, h + [a], Next(s, a))
  {
    hide Reaches, Zeroes, Lowest, Life, Do;
    var (g, n) := (h + [a], Next(s, a));
    ZeroesNow(o, h, s, a);
    forall j | 0 <= j < |h|
      ensures Zeroes(o, g, j) <==> Zeroes(o, h, j)
    {
      LoadsStill(o, h, a, j, Acc);
    }
    if Zeroing(s, a) {
      assert g[..|h|] == h && g[|h|] == a;
      assert WipedAt(o, g, |h|, n.core.mem.wiped);
    } else if z: nat :| WipedAt(o, h, z, s.core.mem.wiped) {
      assert g[..z] == h[..z] && g[z] == h[z];
      assert WipedAt(o, g, z, n.core.mem.wiped);
    } else {
      assert n.core.mem.wiped == s.core.mem.wiped;
    }
  }

  lemma {:induction false} MomentsKnown(o: Sys, h: seq<SysStep>, s: Sys, f: Count)
    requires Reaches(o, h, s) && NoRestart(h)
    requires o.core.resets == [] && Of(o.core.mem.offset, f) == 0
    ensures ReadingsOk(o, h, s, f) && WipedOk(o, h, s)
    decreases |h|
  {
    hide Next, CanDo, Reaches, WasRead, WipedAt;
    if h == [] {
      assert s == o by { OneOutcome(o, [], s, o) by { ReachesNothing(o); } }
    } else {
      var (front, a) := (h[..|h| - 1], h[|h| - 1]);
      var b := ReachesFront(o, h, s);
      MomentsKnown(o, front, b, f);
      assert front + [a] == h;
      ReadingsStay(o, front, b, a, f);
      WipedStays(o, front, b, a);
    }
  }

  // ---- what memory shows ----

  /** Memory's work is what was credited since the last zeroing, or since the boot. */
  lemma WorkSinceZeroing(o: Sys, h: seq<SysStep>, s: Sys, r: Store.Round) returns (z: nat)
    requires o.core == BootCore(r) && Reaches(o, h, s) && NoRestart(h)
    ensures z <= |h| && forall j :: z < j < |h| ==> !Zeroes(o, h, j)
    ensures if z < |h| then Zeroes(o, h, z) && View(s.core.mem).work == Credits(h[z..])
            else (forall j :: 0 <= j < |h| ==> !Zeroes(o, h, j)) && View(s.core.mem).work == r.work + Credits(h)
  {
    hide Reaches, Zeroes, Zeroing, Life;
    MomentsKnown(o, h, s, Acc);
    RunCounts(o, h, s, Acc);
    if x: nat :| WipedAt(o, h, x, s.core.mem.wiped) {
      z := x;
      assert Zeroes(o, h, z) by { WipedZeroes(o, h, z, s.core.mem.wiped); }
      var b :| Reaches(o, h[..z], b) && Zeroing(b, h[z]) && s.core.mem.wiped == b.core.mem.wiped + b.core.mem.work;
      RunCounts(o, h[..z], b, Acc);
      CountsSplit(h, z, Acc);
    } else {
      z := |h|;
    }
  }

  lemma WipedZeroes(o: Sys, h: seq<SysStep>, z: nat, v: nat)
    requires WipedAt(o, h, z, v)
    ensures Zeroes(o, h, z)
  {
  }

  /** While nothing saturates, memory's count is the shares since some reset's reading, or since the boot
      on top of the round it found. */
  lemma SharesSinceReading(o: Sys, h: seq<SysStep>, s: Sys, r: Store.Round, f: Count) returns (i: nat)
    requires o.core == BootCore(r) && Reaches(o, h, s) && NoRestart(h) && Counted(r, f) + Shares(h, f) <= U64_MAX
    ensures i <= |h|
    ensures if i < |h| then Loads(o, h, i, f) && Counted(View(s.core.mem), f) == Shares(h[i..], f)
            else Counted(View(s.core.mem), f) == Counted(r, f) + Shares(h, f)
  {
    hide Reaches, Loading, Shares;
    MomentsKnown(o, h, s, f);
    RunCounts(o, h, s, f);
    if WasRead(o, h, f, Of(s.core.mem.offset, f)) {
      var x, t :| 0 <= x < |h| && Reaches(o, h[..x], t) && Loading(t, h[x], f)
                  && Of(s.core.mem.offset, f) == Life(t.core.mem, f);
      i := x;
      RunCounts(o, h[..x], t, f);
      CountsSplit(h, x, f);
    } else {
      i := |h|;
    }
  }

  // ---- what is on disk ----

  /** No counter of a is above the one of b. */
  predicate AtMost(a: Store.Round, b: Store.Round) {
    a.accepted <= b.accepted && a.rejected <= b.rejected && a.work <= b.work
  }

  /** Merging takes the larger of each counter. */
  lemma MergeIsMax(a: Store.Round, b: Store.Round)
    ensures var m := MergeRound(a, b);
            && AtMost(a, m) && AtMost(b, m)
            && (m.accepted == a.accepted || m.accepted == b.accepted)
            && (m.rejected == a.rejected || m.rejected == b.rejected) && (m.work == a.work || m.work == b.work)
  {
  }

  lemma StepNeverFalls(s: Sys, a: SysStep)
    requires CanDo(s, a) && !a.Restart?
    ensures var (p, q) := (s.pipe, Next(s, a).pipe);
            && p.applied <= q.applied
            && (AtMost(p.db.round, q.db.round)
               || (|q.applied| > |p.applied| && q.applied[|p.applied|].write.RoundReset?))
  {
    hide Apply, StepMem, Life;
    if a.Writing? {
      var p := s.pipe;
      var t := if a.wstep.Taking? then p.queue[0] else p.backlog[0];
      StepStore(p, a.wstep);
      ApplyRound(p.db, p.st, t.write, a.wstep.disk);
    }
  }

  /** Until a reset lands, snapshots in whatever order never lower a persisted counter. */
  lemma {:induction false} PersistedNeverFalls(s: Sys, acts: seq<SysStep>, s': Sys)
    requires Reaches(s, acts, s') && NoRestart(acts)
    ensures s.pipe.applied <= s'.pipe.applied
    ensures || AtMost(s.pipe.db.round, s'.pipe.db.round)
            || exists i :: |s.pipe.applied| <= i < |s'.pipe.applied| && s'.pipe.applied[i].write.RoundReset?
    decreases |acts|
  {
    hide Next, CanDo;
    if acts != [] {
      var n := Next(s, acts[0]);
      StepNeverFalls(s, acts[0]);
      PersistedNeverFalls(n, acts[1..], s');
      if !AtMost(s.pipe.db.round, n.pipe.db.round) {
        assert s'.pipe.applied[|s.pipe.applied|].write.RoundReset?;
      }
    }
  }

  /** The mark of epoch e is what was in play at its bump. */
  ghost predicate MarkedAt(o: Sys, h: seq<SysStep>, b: nat, e: nat, mark: Mark) {
    && b < |h|
    && exists t :: Reaches(o, h[..b], t) && Bumping(t, h[b]) && t.core.mem.epoch + 1 == e && mark == MarkNow(t.core)
  }

  ghost predicate Marked(o: Sys, h: seq<SysStep>, e: nat, mark: Mark) {
    exists b: nat :: MarkedAt(o, h, b, e, mark)
  }

  ghost predicate MarksOk(o: Sys, h: seq<SysStep>, s: Sys) {
    && |s.core.marks| == s.core.mem.epoch + 1
    && forall e: nat :: 1 <= e < |s.core.marks| ==> Marked(o, h, e, s.core.marks[e])
  }

  lemma MarkedStill(o: Sys, h: seq<SysStep>, a: SysStep, e: nat, mark: Mark)
    requires Marked(o, h, e, mark)
    ensures Marked(o, h + [a], e, mark)
  {
    hide Reaches, Bumping, MarkNow;
    var b: nat :| MarkedAt(o, h, b, e, mark);
    assert (h + [a])[..b] == h[..b] && (h + [a])[b] == h[b];
    assert MarkedAt(o, h + [a], b, e, mark);
  }

  lemma MarksStep(s: Sys, a: SysStep)
    requires CanDo(s, a) && !a.Restart?
    ensures var (c, d) := (s.core, Next(s, a).core);
            if Bumping(s, a) then d.marks == c.marks + [MarkNow(c)] && d.mem.epoch == c.mem.epoch + 1
            else d.marks == c.marks && d.mem.epoch == c.mem.epoch
  {
    hide Life, Do, MarkNow;
  }

  lemma MarksStay(o: Sys, h: seq<SysStep>, s: Sys, a: SysStep)
    requires Reaches(o, h, s) && CanDo(s, a) && !a.Restart? && MarksOk(o, h, s)
    ensures MarksOk(o, h + [a], Next(s, a))
  {
    hide Reaches, Marked, MarkNow, Next, CanDo, Bumping;
    var (g, n) := (h + [a], Next(s, a));
    MarksStep(s, a);
    if Bumping(s, a) {
      MarkedNow(o, h, s, a);
    }
    forall e: nat | 1 <= e < |n.core.marks|
      ensures Marked(o, g, e, n.core.marks[e])
    {
      if e < |s.core.marks| {
        assert n.core.marks[e] == s.core.marks[e];
        MarkedStill(o, h, a, e, s.core.marks[e]);
      }
    }
  }

  lemma MarkedNow(o: Sys, h: seq<SysStep>, s: Sys, a: SysStep)
    requires Reaches(o, h, s) && Bumping(s, a)
    ensures Marked(o, h + [a], s.core.mem.epoch + 1, MarkNow(s.core))
  {
    hide Reaches, MarkNow;
    assert (h + [a])[..|h|] == h && (h + [a])[|h|] == a;
    assert MarkedAt(o, h + [a], |h|, s.core.mem.epoch + 1, MarkNow(s.core));
  }

  lemma {:induction false} MarksKnown(o: Sys, h: seq<SysStep>, s: Sys)
    requires Reaches(o, h, s) && NoRestart(h) && |o.core.marks| == 1 && o.core.mem.epoch == 0
    ensures MarksOk(o, h, s)
    decreases |h|
  {
    hide Next, CanDo, Reaches, Marked;
    if h == [] {
      assert s == o by { OneOutcome(o, [], s, o) by { ReachesNothing(o); } }
    } else {
      var (front, a) := (h[..|h| - 1], h[|h| - 1]);
      var b := ReachesFront(o, h, s);
      MarksKnown(o, front, b);
      assert front + [a] == h;
      MarksStay(o, front, b, a);
    }
  }

  /** At a bump the lowest reading in play was read, and the work was zeroed, at steps before it. */
  lemma BumpReading(o: Sys, h: seq<SysStep>, t: Sys, a: SysStep, f: Count)
    requires o.core.resets == [] && Of(o.core.mem.offset, f) == 0 && Reaches(o, h, t) && NoRestart(h) && Bumping(t, a)
    ensures WasRead(o, h, f, Lowest(t.core.resets, Of(t.core.mem.offset, f), f))
    ensures exists z: nat :: WipedAt(o, h, z, t.core.mem.wiped)
  {
    hide Reaches, WasRead, WipedAt, Life;
    MomentsKnown(o, h, t, f);
    LowestAttained(t.core.resets, Of(t.core.mem.offset, f), f);
    assert !BeforeStore(t.core.resets[a.step.i], f) && !BeforeZero(t.core.resets[a.step.i]);
  }

  /** What the counts grew by since a reading is at most the shares since. */
  lemma SinceReading(o: Sys, h: seq<SysStep>, s: Sys, i: nat, t: Sys, f: Count)
    requires i <= |h| && Reaches(o, h, s) && Reaches(o, h[..i], t) && NoRestart(h)
    ensures Life(s.core.mem, f) <= Life(t.core.mem, f) + Shares(h[i..], f)
  {
    hide Reaches;
    RunCounts(o, h, s, f);
    RunCounts(o, h[..i], t, f);
    CountsSplit(h, i, f);
  }

  lemma CountSince(o: Sys, h: seq<SysStep>, s: Sys, b: nat, f: Count, v: nat, n: nat) returns (i: nat)
    requires b <= |h| && Reaches(o, h, s) && NoRestart(h) && WasRead(o, h[..b], f, v) && n + v <= Life(s.core.mem, f)
    ensures i < b && Loads(o, h, i, f) && n <= Shares(h[i..], f)
  {
    hide Reaches, Loading, Life;
    var g := h[..b];
    var x, t :| 0 <= x < |g| && Reaches(o, g[..x], t) && Loading(t, g[x], f) && v == Life(t.core.mem, f);
    i := x;
    assert g[..x] == h[..x] && g[x] == h[x];
    SinceReading(o, h, s, i, t, f);
  }

  lemma WorkSince(o: Sys, h: seq<SysStep>, s: Sys, b: nat, v: nat, n: nat) returns (z: nat)
    requires b <= |h| && Reaches(o, h, s) && NoRestart(h) && n + v <= s.core.mem.wiped + s.core.mem.work
    requires exists z: nat :: WipedAt(o, h[..b], z, v)
    ensures z < b && Zeroes(o, h, z) && n <= Credits(h[z..])
  {
    hide Reaches, Zeroing, Zeroes;
    var g := h[..b];
    z :| WipedAt(o, g, z, v);
    var t :| Reaches(o, g[..z], t) && Zeroing(t, g[z]) && v == t.core.mem.wiped + t.core.mem.work;
    assert g[..z] == h[..z] && g[z] == h[z];
    assert Zeroes(o, h, z) by { ZeroesThere(o, h, z, t); }
    RunCounts(o, h, s, Acc);
    RunCounts(o, h[..z], t, Acc);
    CountsSplit(h, z, Acc);
  }

  lemma ZeroesThere(o: Sys, h: seq<SysStep>, z: nat, t: Sys)
    requires z < |h| && Reaches(o, h[..z], t) && Zeroing(t, h[z])
    ensures Zeroes(o, h, z)
  {
  }

  /** Before any reset of this boot has landed, the disk holds no more than it held at the boot and what
      came since. */
  lemma BootRoundCounts(o: Sys, h: seq<SysStep>, s: Sys, r: Store.Round)
    requires o.core == BootCore(r) && SysOk(o) && Reaches(o, h, s) && NoRestart(h) && s.pipe.st.roundEpoch == 0
    ensures var d := s.pipe.db.round;
            && d.accepted <= r.accepted + Shares(h, Acc) && d.rejected <= r.rejected + Shares(h, Rej)
            && d.work <= r.work + Credits(h)
  {
    hide Reaches, CoreOk, Shares, Credits;
    NeverResurrected(o, h, s);
    RunCounts(o, h, s, Acc);
    RunCounts(o, h, s, Rej);
  }

  /** Once the reset of epoch e has landed, everything on disk was counted after that epoch's resets
      read and zeroed: the accepted and rejected shares after readings, the work after a zeroing, all
      three taken before the step b at which epoch e began. */
  lemma PersistedSinceReset(o: Sys, h: seq<SysStep>, s: Sys, r: Store.Round) returns (b: nat, i: nat, j: nat, z: nat)
    requires o.core == BootCore(r) && SysOk(o) && Reaches(o, h, s) && NoRestart(h) && s.pipe.st.roundEpoch > 0
    ensures Begins(o, h, b, s.pipe.st.roundEpoch)
    ensures i < b && Loads(o, h, i, Acc) && s.pipe.db.round.accepted <= Shares(h[i..], Acc)
    ensures j < b && Loads(o, h, j, Rej) && s.pipe.db.round.rejected <= Shares(h[j..], Rej)
    ensures z < b && Zeroes(o, h, z) && s.pipe.db.round.work <= Credits(h[z..])
  {
    hide Reaches, CoreOk, Shares, Credits, Loads, Zeroes, WasRead, WipedAt, Life, Bumping, Lowest;
    var (e, d) := (s.pipe.st.roundEpoch, s.pipe.db.round);
    NeverResurrected(o, h, s);
    MarksKnown(o, h, s);
    b :| MarkedAt(o, h, b, e, s.core.marks[e]);
    var t :| Reaches(o, h[..b], t) && Bumping(t, h[b]) && t.core.mem.epoch + 1 == e
             && s.core.marks[e] == MarkNow(t.core);
    BumpReading(o, h[..b], t, h[b], Acc);
    BumpReading(o, h[..b], t, h[b], Rej);
    i := CountSince(o, h, s, b, Acc, s.core.marks[e].shares.acc, d.accepted);
    j := CountSince(o, h, s, b, Rej, s.core.marks[e].shares.rej, d.rejected);
    z := WorkSince(o, h, s, b, s.core.marks[e].work, d.work);
  }
}
