/** One miner's session against the template engine: authorize, receive jobs, submit, authorize again.
    What every run keeps about payouts, duplicates and the tip the live jobs build on. */
module Session {
  import opened Options
  import opened Store
  import opened Jobs

  // ---- identities ----

  /** A parsed identity: the name as typed, its checked address, and the label if there is one. */
  datatype Identity = Identity(raw: string, address: string, device: Option<string>)

  predicate IdentityOk(i: Identity) {
    '.' !in i.address && (i.device.Some? ==> i.device.value != [])
  }

  /** What every statistic and every block is booked under. */
  function Canonical(i: Identity): string {
    if i.device.Some? then i.address + "." + i.device.value else i.address
  }

  /** Splitting a canonical name gives the address and the label back. */
  lemma CanonicalSplits(i: Identity)
    requires IdentityOk(i)
    ensures SplitName(Canonical(i)) == (i.address, if i.device.Some? then i.device.value else "")
  {
    var name := Canonical(i);
    var d := FirstDot(name);
    if i.device.Some? {
      assert name[|i.address|] == '.';
      assert forall j :: 0 <= j < |i.address| ==> name[j] == i.address[j];
      assert d == |i.address|;
      assert name[..d] == i.address;
      assert name[d + 1..] == i.device.value;
    } else {
      assert d == |name|;
    }
  }

  // ---- state ----

  datatype Broadcast = Broadcast(tip: nat, clean: bool)

  /** counter is shared by every session of the process. */
  datatype Engine = Engine(current: Option<nat>, log: seq<Broadcast>, counter: nat)

  datatype Booked = Booked(worker: string, payout: string)

  /** pos is the next broadcast to receive. accepted lists every key accepted, since those accepted
      since the duplicate set was last cleared; overflowed says that list ever outgrew the set. No
      operation reads these three. */
  datatype Miner = Miner(subscribed: bool, authorized: bool, worker: Option<string>, identity: Option<Identity>,
                         template: Option<nat>, jobs: seq<JobEntry>, shares: seq<ShareKey>, pos: nat, closed: bool,
                         accepted: seq<ShareKey>, since: seq<ShareKey>, overflowed: bool, booked: seq<Booked>)

  datatype Sys = Sys(engine: Engine, miner: Miner)

  function Connected(pos: nat, template: Option<nat>): Miner {
    Miner(false, false, None, None, template, [], [], pos, false, [], [], false, [])
  }

  /** What validation says of a share whose job is neither missing nor stale. */
  datatype Verdict = Invalid | Valid | Block

  datatype Action =
    | Refresh(tip: nat)
    | Withdraw
    | OtherJob
    | Subscribe
    | Deliver(difficulty: nat)
    | Lag(missed: nat)
    | Authorize(identity: Identity, allowed: bool, difficulty: nat)
    | Submit(worker: string, key: ShareKey, verdict: Verdict)

  predicate CanDo(s: Sys, a: Action) {
    match a
    case Deliver(_) => !s.miner.closed && s.miner.pos < |s.engine.log|
    case Lag(missed) => !s.miner.closed && s.miner.pos + missed <= |s.engine.log|
    case Authorize(i, _, _) => !s.miner.closed && IdentityOk(i)
    case Subscribe => !s.miner.closed
    case Submit(_, _, _) => !s.miner.closed
    case _ => true
  }

  const ID_MODULUS := 0x1_0000_0000

  /** Job ids count up in 32 bits. */
  function JobId(counter: nat): nat {
    counter % ID_MODULUS
  }

  // ---- steps ----

  /** A refresh is clean exactly when the tip moved, or there was nothing to compare it with. */
  function Refreshed(e: Engine, tip: nat): Engine {
    e.(current := Some(tip), log := e.log + [Broadcast(tip, e.current != Some(tip))])
  }

  function ClearShares(m: Miner): Miner {
    m.(shares := [], since := [])
  }

  /** Build the job for the current identity and send it. */
  function SendJob(s: Sys, tip: nat, clean: bool, difficulty: nat): Sys {
    if s.miner.identity.None? then s.(miner := s.miner.(closed := true))
    else
      var job := Job(JobId(s.engine.counter), tip, s.miner.identity.value.address);
      Sys(s.engine.(counter := s.engine.counter + 1),
          s.miner.(jobs := Issued(s.miner.jobs, job, clean, difficulty), template := Some(tip)))
  }

  function Delivered(s: Sys, difficulty: nat): Sys
    requires s.miner.pos < |s.engine.log|
  {
    var b := s.engine.log[s.miner.pos];
    var m := (if b.clean then ClearShares(s.miner) else s.miner).(pos := s.miner.pos + 1);
    if m.subscribed && m.authorized then SendJob(Sys(s.engine, m), b.tip, b.clean, difficulty)
    else s.(miner := m.(template := Some(b.tip)))
  }

  predicate SameIdentity(m: Miner, i: Identity) {
    m.identity.Some? && Canonical(m.identity.value) == Canonical(i)
  }

  function Authorized(s: Sys, i: Identity, allowed: bool, difficulty: nat): Sys {
    var m := s.miner;
    if !m.subscribed then s
    else if !SameIdentity(m, i) && !allowed then s.(miner := m.(closed := true))
    else
      var kept := if SameIdentity(m, i) then m else ClearShares(m).(jobs := []);
      var n := kept.(authorized := true, worker := Some(i.raw), identity := Some(i));
      var template := if n.template.Some? then n.template else s.engine.current;
      if template.Some? then SendJob(Sys(s.engine, n), template.value, true, difficulty) else s.(miner := n)
  }

  /** Whether a submission is accepted. */
  predicate Accepts(m: Miner, worker: string, key: ShareKey, verdict: Verdict) {
    && m.authorized && m.worker == Some(worker)
    && Found(m.jobs, key.job).Some? && !Found(m.jobs, key.job).value.superseded
    && key !in m.shares && !verdict.Invalid?
  }

  function Submitted(m: Miner, worker: string, key: ShareKey, verdict: Verdict): Miner {
    if !Accepts(m, worker, key, verdict) then m
    else
      var booker := if m.identity.Some? then Canonical(m.identity.value) else worker;
      m.(shares := LastN(m.shares + [key], MAX_SHARE_KEYS), since := m.since + [key], accepted := m.accepted + [key],
         overflowed := m.overflowed || |m.since| + 1 > MAX_SHARE_KEYS,
         booked := if verdict.Block?
                   then m.booked + [Booked(booker, Found(m.jobs, key.job).value.job.payout)]
                   else m.booked)
  }

  function Next(s: Sys, a: Action): Sys
    requires CanDo(s, a)
  {
    match a
    case Refresh(tip) => s.(engine := Refreshed(s.engine, tip))
    case Withdraw => s.(engine := s.engine.(current := None))
    case OtherJob => s.(engine := s.engine.(counter := s.engine.counter + 1))
    case Subscribe => s.(miner := s.miner.(subscribed := true))
    case Deliver(difficulty) => Delivered(s, difficulty)
    case Lag(missed) => s.(miner := s.miner.(pos := s.miner.pos + missed))
    case Authorize(i, allowed, difficulty) => Authorized(s, i, allowed, difficulty)
    case Submit(worker, key, verdict) => s.(miner := Submitted(s.miner, worker, key, verdict))
  }

  predicate Reaches(s: Sys, acts: seq<Action>, s': Sys)
    decreases |acts|
  {
    if acts == [] then s == s' else CanDo(s, acts[0]) && Reaches(Next(s, acts[0]), acts[1..], s')
  }

  // ---- payouts ----

  predicate PaysOk(m: Miner) {
    && (m.authorized ==> m.identity.Some? && IdentityOk(m.identity.value))
    && (m.jobs != [] ==> m.authorized)
    && (m.identity.Some? ==> m.authorized)
    && (forall e :: e in m.jobs ==> m.identity.Some? && e.job.payout == m.identity.value.address)
    && (forall b :: b in m.booked ==> b.payout == SplitName(b.worker).0)
  }

  lemma IssuedFrom(es: seq<JobEntry>, job: Job, clean: bool, difficulty: nat, e: JobEntry)
    requires e in Issued(es, job, clean, difficulty)
    ensures || e == JobEntry(job, false, difficulty)
            || (e in es && !clean)
            || (clean && e.superseded && exists d :: d in es && d.job == e.job)
  {
    var marked := if clean then Supersede(es) else es;
    assert e in marked + [JobEntry(job, false, difficulty)];
    if clean && e in marked {
      var i :| 0 <= i < |marked| && marked[i] == e;
      assert es[i].job == e.job && es[i] in es;
    }
  }

  lemma SendPays(s: Sys, tip: nat, clean: bool, difficulty: nat)
    requires PaysOk(s.miner) && s.miner.authorized
    ensures PaysOk(SendJob(s, tip, clean, difficulty).miner)
  {
    hide SplitName, Issued;
    var m := SendJob(s, tip, clean, difficulty).miner;
    var job := Job(JobId(s.engine.counter), tip, s.miner.identity.value.address);
    forall e | e in m.jobs
      ensures e.job.payout == m.identity.value.address
    {
      IssuedFrom(s.miner.jobs, job, clean, difficulty, e);
    }
  }

  /** Two spellings of one canonical name pay the same address. */
  lemma SameAddress(i: Identity, j: Identity)
    requires IdentityOk(i) && IdentityOk(j) && Canonical(i) == Canonical(j)
    ensures i.address == j.address
  {
    CanonicalSplits(i);
    CanonicalSplits(j);
  }

  lemma AuthorizePays(s: Sys, i: Identity, allowed: bool, difficulty: nat)
    requires PaysOk(s.miner) && IdentityOk(i)
    ensures PaysOk(Authorized(s, i, allowed, difficulty).miner)
  {
    hide SplitName, Issued, SendJob, Canonical;
    var m := s.miner;
    if m.subscribed && (SameIdentity(m, i) || allowed) {
      if SameIdentity(m, i) {
        SameAddress(m.identity.value, i);
      }
      var kept := if SameIdentity(m, i) then m else ClearShares(m).(jobs := []);
      var n := kept.(authorized := true, worker := Some(i.raw), identity := Some(i));
      assert PaysOk(n);
      var template := if n.template.Some? then n.template else s.engine.current;
      if template.Some? {
        SendPays(Sys(s.engine, n), template.value, true, difficulty);
      }
    }
  }

  lemma DeliverPays(s: Sys, difficulty: nat)
    requires PaysOk(s.miner) && s.miner.pos < |s.engine.log|
    ensures PaysOk(Delivered(s, difficulty).miner)
  {
    hide SplitName, Issued, SendJob, Canonical;
    var b := s.engine.log[s.miner.pos];
    var m := (if b.clean then ClearShares(s.miner) else s.miner).(pos := s.miner.pos + 1);
    assert PaysOk(m);
    if m.subscribed && m.authorized {
      SendPays(Sys(s.engine, m), b.tip, b.clean, difficulty);
    }
  }

  lemma SubmitPays(m: Miner, worker: string, key: ShareKey, verdict: Verdict)
    requires PaysOk(m)
    ensures PaysOk(Submitted(m, worker, key, verdict))
  {
    hide SplitName, Canonical;
    if Accepts(m, worker, key, verdict) {
      CanonicalSplits(m.identity.value);
    }
  }

  lemma StepPays(s: Sys, a: Action)
    requires PaysOk(s.miner) && CanDo(s, a)
    ensures PaysOk(Next(s, a).miner)
  {
    hide SplitName, Issued, SendJob, Canonical, Delivered, Authorized, Submitted;
    match a
    case Deliver(difficulty) => DeliverPays(s, difficulty);
    case Authorize(i, allowed, difficulty) => AuthorizePays(s, i, allowed, difficulty);
    case Submit(worker, key, verdict) => SubmitPays(s.miner, worker, key, verdict);
    case _ =>
  }

  /** In every run, lag and withdrawal included: every job in the history pays the identity now
      authorized, and every booked block pays the address part of the worker it is booked to. */
  lemma {:induction false} PayoutsAreBound(s: Sys, acts: seq<Action>, s': Sys)
    requires PaysOk(s.miner) && Reaches(s, acts, s')
    ensures PaysOk(s'.miner)
    decreases |acts|
  {
    hide PaysOk, Next, CanDo;
    if acts != [] {
      StepPays(s, acts[0]);
      PayoutsAreBound(Next(s, acts[0]), acts[1..], s');
    }
  }

  // ---- duplicates ----

  predicate Retired(jobs: seq<JobEntry>, id: nat) {
    forall e :: e in jobs && e.job.id == id ==> e.superseded
  }

  /** An accepted key is still in the list since the last clear, or its job is superseded or gone. */
  predicate DedupOk(s: Sys) {
    var m := s.miner;
    && (m.jobs != [] ==> m.authorized) && (m.authorized ==> m.subscribed && m.identity.Some?)
    && (forall e :: e in m.jobs ==> e.job.id < s.engine.counter)
    && (forall k :: k in m.accepted ==> k.job < s.engine.counter && (k in m.since || Retired(m.jobs, k.job)))
    && m.shares == LastN(m.since, MAX_SHARE_KEYS)
    && (!m.overflowed ==> |m.since| <= MAX_SHARE_KEYS && Distinct(m.accepted))
  }

  lemma WindowSlides<T>(s: seq<T>, k: T, n: nat)
    requires n > 0
    ensures LastN(LastN(s, n) + [k], n) == LastN(s + [k], n)
  {
  }

  lemma SendDedup(s: Sys, tip: nat, clean: bool, difficulty: nat)
    requires DedupOk(s) && s.miner.authorized && s.engine.counter < ID_MODULUS
    ensures DedupOk(SendJob(s, tip, clean, difficulty))
    ensures clean ==> forall k :: k in s.miner.accepted ==>
            Retired(SendJob(s, tip, clean, difficulty).miner.jobs, k.job)
  {
    hide Issued, LastN;
    var (m, n) := (s.miner, SendJob(s, tip, clean, difficulty).miner);
    var job := Job(JobId(s.engine.counter), tip, m.identity.value.address);
    assert job.id == s.engine.counter;
    forall e | e in n.jobs
      ensures e.job.id < s.engine.counter + 1
      ensures e.job.id < s.engine.counter ==> (clean ==> e.superseded) && (!clean ==> e in m.jobs)
    {
      IssuedFrom(m.jobs, job, clean, difficulty, e);
    }
  }

  lemma ClearedDedup(s: Sys, m: Miner)
    requires DedupOk(s) && m == ClearShares(s.miner).(jobs := [])
    ensures DedupOk(Sys(s.engine, m))
  {
  }

  lemma AuthorizeDedup(s: Sys, i: Identity, allowed: bool, difficulty: nat)
    requires DedupOk(s) && s.engine.counter < ID_MODULUS
    ensures DedupOk(Authorized(s, i, allowed, difficulty))
  {
    hide Issued, SendJob, Canonical, LastN;
    var m := s.miner;
    if m.subscribed && (SameIdentity(m, i) || allowed) {
      var kept := if SameIdentity(m, i) then m else ClearShares(m).(jobs := []);
      assert DedupOk(Sys(s.engine, kept)) by {
        if !SameIdentity(m, i) {
          ClearedDedup(s, kept);
        }
      }
      var n := kept.(authorized := true, worker := Some(i.raw), identity := Some(i));
      var template := if n.template.Some? then n.template else s.engine.current;
      if template.Some? {
        SendDedup(Sys(s.engine, n), template.value, true, difficulty);
      }
    }
  }

  /** A clean broadcast empties the duplicate set and retires every job those keys name. */
  lemma DeliverDedup(s: Sys, difficulty: nat)
    requires DedupOk(s) && s.miner.pos < |s.engine.log| && s.engine.counter < ID_MODULUS
    ensures DedupOk(Delivered(s, difficulty))
  {
    hide Issued, LastN, Distinct;
    var b := s.engine.log[s.miner.pos];
    var m := s.miner.(pos := s.miner.pos + 1);
    assert DedupOk(Sys(s.engine, m));
    if m.subscribed && m.authorized {
      SendDedup(Sys(s.engine, m), b.tip, b.clean, difficulty);
      var n := SendJob(Sys(s.engine, m), b.tip, b.clean, difficulty);
      if b.clean {
        assert Delivered(s, difficulty) == n.(miner := ClearShares(n.miner));
        EmptyWindow();
      }
    } else {
      EmptyWindow();
    }
  }

  lemma EmptyWindow()
    ensures LastN<ShareKey>([], MAX_SHARE_KEYS) == []
  {
  }

  lemma SubmitDedup(s: Sys, worker: string, key: ShareKey, verdict: Verdict)
    requires DedupOk(s)
    ensures DedupOk(s.(miner := Submitted(s.miner, worker, key, verdict)))
  {
    hide LastN;
    var m := s.miner;
    if Accepts(m, worker, key, verdict) {
      var e := Found(m.jobs, key.job).value;
      WindowSlides(m.since, key, MAX_SHARE_KEYS);
      if !m.overflowed {
        assert m.shares == m.since by { WholeWindow(m.since); }
        assert key !in m.accepted;
      }
    }
  }

  lemma WholeWindow(s: seq<ShareKey>)
    requires |s| <= MAX_SHARE_KEYS
    ensures LastN(s, MAX_SHARE_KEYS) == s
  {
  }

  lemma StepDedup(s: Sys, a: Action)
    requires DedupOk(s) && CanDo(s, a) && s.engine.counter < ID_MODULUS
    ensures DedupOk(Next(s, a)) && s.engine.counter <= Next(s, a).engine.counter
  {
    hide Issued, Canonical, Submitted, LastN, Distinct;
    match a
    case Deliver(difficulty) => DeliverDedup(s, difficulty);
    case Authorize(i, allowed, difficulty) => AuthorizeDedup(s, i, allowed, difficulty);
    case Submit(worker, key, verdict) => SubmitDedup(s, worker, key, verdict);
    case _ =>
  }

  lemma CounterGrows(s: Sys, a: Action)
    requires CanDo(s, a)
    ensures s.engine.counter <= Next(s, a).engine.counter
  {
    hide Issued, Canonical, Submitted;
  }

  lemma {:induction false} CounterGrowsAlong(s: Sys, acts: seq<Action>, s': Sys)
    requires Reaches(s, acts, s')
    ensures s.engine.counter <= s'.engine.counter
    decreases |acts|
  {
    hide Next, CanDo;
    if acts != [] {
      CounterGrows(s, acts[0]);
      CounterGrowsAlong(Next(s, acts[0]), acts[1..], s');
    }
  }

  /** No key is accepted twice in a session, over any run in which the list since the last clear
      never outgrows the duplicate set and the process issues fewer than 2^32 jobs. */
  lemma {:induction false} NoKeyAcceptedTwice(s: Sys, acts: seq<Action>, s': Sys)
    requires DedupOk(s) && Reaches(s, acts, s') && s'.engine.counter < ID_MODULUS
    ensures DedupOk(s') && (!s'.miner.overflowed ==> Distinct(s'.miner.accepted))
    decreases |acts|
  {
    hide DedupOk, Next, CanDo, Distinct;
    CounterGrowsAlong(s, acts, s');
    if acts != [] {
      StepDedup(s, acts[0]);
      NoKeyAcceptedTwice(Next(s, acts[0]), acts[1..], s');
    } else {
      DedupMeans(s);
    }
  }

  lemma DedupMeans(s: Sys)
    requires DedupOk(s)
    ensures !s.miner.overflowed ==> Distinct(s.miner.accepted)
  {
  }

  /** A submission that is otherwise in order. */
  predicate InOrder(m: Miner, worker: string, key: ShareKey, verdict: Verdict) {
    && m.authorized && m.worker == Some(worker) && !verdict.Invalid?
    && Found(m.jobs, key.job).Some? && !Found(m.jobs, key.job).value.superseded
  }

  /** The set is exactly a window over the accepted keys: a key is refused as a duplicate if and only
      if it is among the last 4096 accepted since the last clear. */
  lemma RefusedIffInWindow(s: Sys, worker: string, key: ShareKey, verdict: Verdict)
    requires DedupOk(s) && InOrder(s.miner, worker, key, verdict)
    ensures Accepts(s.miner, worker, key, verdict) <==> key !in LastN(s.miner.since, MAX_SHARE_KEYS)
  {
  }

  lemma ReachesNothing(s: Sys)
    ensures Reaches(s, [], s)
  {
  }

  lemma {:induction false} ReachesThen(s: Sys, acts: seq<Action>, s': Sys, a: Action)
    requires Reaches(s, acts, s') && CanDo(s', a)
    ensures Reaches(s, acts + [a], Next(s', a))
    decreases |acts|
  {
    hide Next, CanDo;
    if acts == [] {
      assert (acts + [a])[1..] == [];
    } else {
      ReachesThen(Next(s, acts[0]), acts[1..], s', a);
      assert (acts + [a])[1..] == acts[1..] + [a];
    }
  }

  function NthKey(job: nat, i: nat): ShareKey {
    ShareKey(job, [], 0, i, {})
  }

  function FirstKeys(job: nat, n: nat): (r: seq<ShareKey>)
    ensures |r| == n && forall i :: 0 <= i < n ==> r[i] == NthKey(job, i)
  {
    seq(n, i requires i >= 0 => NthKey(job, i))
  }

  /** A session with a live job can have any number of keys accepted on it. */
  lemma {:induction false} SubmitMany(s: Sys, worker: string, job: nat, n: nat) returns (acts: seq<Action>, s': Sys)
    requires !s.miner.closed && s.miner.since == [] == s.miner.shares
    requires InOrder(s.miner, worker, NthKey(job, 0), Valid)
    ensures Reaches(s, acts, s') && !s'.miner.closed && InOrder(s'.miner, worker, NthKey(job, 0), Valid)
    ensures s'.miner.since == FirstKeys(job, n) && s'.miner.shares == LastN(FirstKeys(job, n), MAX_SHARE_KEYS)
    ensures s'.miner.accepted == s.miner.accepted + FirstKeys(job, n)
  {
    hide Reaches, LastN, Canonical;
    if n == 0 {
      acts, s' := [], s;
      ReachesNothing(s);
      WholeWindow([]);
    } else {
      var k := NthKey(job, n - 1);
      acts, s' := SubmitMany(s, worker, job, n - 1);
      WindowIsPart(FirstKeys(job, n - 1), k);
      WindowSlides(FirstKeys(job, n - 1), k, MAX_SHARE_KEYS);
      assert FirstKeys(job, n) == FirstKeys(job, n - 1) + [k];
      ReachesThen(s, acts, s', Submit(worker, k, Valid));
      acts, s' := acts + [Submit(worker, k, Valid)], Next(s', Submit(worker, k, Valid));
    }
  }

  lemma WindowIsPart(s: seq<ShareKey>, k: ShareKey)
    requires k !in s
    ensures k !in LastN(s, MAX_SHARE_KEYS)
  {
  }

  /** So the bound cannot be dropped: from any session with a live job and an empty set, 4097
      submissions later the oldest key is accepted again. */
  lemma OldestKeyComesBack(s: Sys, worker: string, job: nat) returns (acts: seq<Action>, s': Sys)
    requires !s.miner.closed && s.miner.since == [] == s.miner.shares
    requires InOrder(s.miner, worker, NthKey(job, 0), Valid)
    ensures Reaches(s, acts, s') && !Distinct(s'.miner.accepted)
  {
    hide Reaches, Canonical;
    var (n, k) := (MAX_SHARE_KEYS + 1, NthKey(job, 0));
    acts, s' := SubmitMany(s, worker, job, n);
    var m := s'.miner;
    forall i | 0 <= i < |m.shares|
      ensures m.shares[i] != k
    {
      assert m.shares[i] == FirstKeys(job, n)[i + 1];
    }
    ReachesThen(s, acts, s', Submit(worker, k, Valid));
    acts, s' := acts + [Submit(worker, k, Valid)], Next(s', Submit(worker, k, Valid));
    var first := |s.miner.accepted|;
    assert s'.miner.accepted[first] == k == s'.miner.accepted[|s'.miner.accepted| - 1];
  }

  // ---- one header, one key ----

  /** What the session and the miner agreed about the version field of the header. */
  datatype Rolling = Rolling(enabled: bool, mask: Bits)

  /** The version a submission is validated with, refused when its bits leave the mask. Without
      rolling the submitted bits are ignored. */
  function HeaderVersion(r: Rolling, base: Bits, bits: Option<Bits>): Option<Bits> {
    if !r.enabled || bits.None? then Some(base)
    else if !(bits.value <= r.mask) then None
    else Some((base - r.mask) + (bits.value * r.mask))
  }

  /** The version part of the duplicate key: the submitted bits, rolling or not. */
  function KeyBits(bits: Option<Bits>): Bits {
    if bits.Some? then bits.value else {}
  }

  /** Two submissions alike in everything else share a key exactly when they share a header. */
  ghost predicate KeyTellsHeaders(r: Rolling, base: Bits) {
    forall a: Option<Bits>, b: Option<Bits> ::
      HeaderVersion(r, base, a).Some? && HeaderVersion(r, base, b).Some? ==>
        (KeyBits(a) == KeyBits(b) <==> HeaderVersion(r, base, a) == HeaderVersion(r, base, b))
  }

  lemma VersionShowsBits(r: Rolling, base: Bits, a: Option<Bits>)
    requires r.enabled && base !! r.mask && HeaderVersion(r, base, a).Some?
    ensures HeaderVersion(r, base, a).value * r.mask == KeyBits(a)
    ensures HeaderVersion(r, base, a).value == base + KeyBits(a)
  {
  }

  /** The key stands for the header if and only if rolling is on and the template's own version has no
      bit inside the mask. */
  lemma KeyTellsHeadersIff(r: Rolling, base: Bits)
    ensures KeyTellsHeaders(r, base) <==> r.enabled && base !! r.mask
  {
    if r.enabled && base !! r.mask {
      forall a: Option<Bits>, b: Option<Bits> | HeaderVersion(r, base, a).Some? && HeaderVersion(r, base, b).Some?
        ensures KeyBits(a) == KeyBits(b) <==> HeaderVersion(r, base, a) == HeaderVersion(r, base, b)
      {
        VersionShowsBits(r, base, a);
        VersionShowsBits(r, base, b);
      }
    } else if r.enabled {
      var none: Bits := {};
      var i :| i in base && i in r.mask;
      assert i !in HeaderVersion(r, base, Some(none)).value;
      assert KeyBits(None) == KeyBits(Some(none)) && HeaderVersion(r, base, None) != HeaderVersion(r, base, Some(none));
    } else {
      var none: Bits := {};
      var one: Bits := {0};
      assert 0 in one;
      assert KeyBits(Some(none)) != KeyBits(Some(one));
      assert HeaderVersion(r, base, Some(none)) == HeaderVersion(r, base, Some(one));
    }
  }

  /** A submission of key with these version bits, found to win a block. */
  function Winning(worker: string, key: ShareKey, bits: Option<Bits>): Action {
    Submit(worker, key.(versionBits := KeyBits(bits)), Verdict.Block)
  }

  /** With rolling off one winning header is accepted once for each way of spelling its ignored bits,
      and booked as a block each time. */
  lemma OneHeaderBookedTwice(s: Sys, worker: string, key: ShareKey, a: Option<Bits>, b: Option<Bits>, r: Rolling,
                             base: Bits)
    returns (s': Sys)
    requires !s.miner.closed && !r.enabled && KeyBits(a) != KeyBits(b)
    requires Accepts(s.miner, worker, key.(versionBits := KeyBits(a)), Verdict.Block)
    requires Accepts(s.miner, worker, key.(versionBits := KeyBits(b)), Verdict.Block)
    ensures HeaderVersion(r, base, a) == HeaderVersion(r, base, b)
    ensures Reaches(s, [Winning(worker, key, a), Winning(worker, key, b)], s')
    ensures exists found :: s'.miner.booked == s.miner.booked + [found, found]
  {
    hide Reaches, Canonical, Found;
    var (first, second) := (Winning(worker, key, a), Winning(worker, key, b));
    ReachesNothing(s);
    ReachesThen(s, [], s, first);
    var n := Next(s, first);
    assert [] + [first] == [first];
    ReachesThen(s, [first], n, second);
    s' := Next(n, second);
    assert [first] + [second] == [first, second];
    var found := n.miner.booked[|s.miner.booked|];
    assert s'.miner.booked == s.miner.booked + [found, found];
  }

  // ---- what a submission earns ----

  /** Entry j is the oldest with this id, and live. */
  predicate LiveAt(jobs: seq<JobEntry>, j: nat, id: nat) {
    j < |jobs| && jobs[j].job.id == id && !jobs[j].superseded && forall i :: 0 <= i < j ==> jobs[i].job.id != id
  }

  /** A share worth taking: validation passed it, the authorized worker sent it, its job is live and its
      key is new. */
  ghost predicate Earned(m: Miner, worker: string, key: ShareKey, verdict: Verdict) {
    && (verdict.Valid? || verdict.Block?)
    && m.authorized && m.worker == Some(worker)
    && key !in m.shares
    && exists j: nat :: LiveAt(m.jobs, j, key.job)
  }

  lemma {:induction false} FoundIsOldest(jobs: seq<JobEntry>, id: nat)
    ensures Found(jobs, id).Some? && !Found(jobs, id).value.superseded ==> exists j: nat :: LiveAt(jobs, j, id)
    ensures forall j: nat :: LiveAt(jobs, j, id) ==> Found(jobs, id) == Some(jobs[j])
  {
    if jobs != [] && jobs[0].job.id == id {
      assert LiveAt(jobs, 0, id) <==> !jobs[0].superseded;
    } else if jobs != [] {
      var rest := jobs[1..];
      FoundIsOldest(rest, id);
      forall j: nat | j < |rest|
        ensures LiveAt(rest, j, id) <==> LiveAt(jobs, j + 1, id)
      {
        assert rest[j] == jobs[j + 1];
        assert forall i :: 0 <= i < j ==> rest[i] == jobs[i + 1];
      }
      forall j: nat | LiveAt(jobs, j, id)
        ensures Found(jobs, id) == Some(jobs[j])
      {
        assert LiveAt(rest, j - 1, id);
      }
    }
  }

  /** A submission changes the session exactly when it earns something. Then its key is remembered, and a
      winning one is booked to the authorized identity under the payout of its job; nothing else moves. */
  lemma SubmissionEarnsIff(s: Sys, worker: string, key: ShareKey, verdict: Verdict)
    requires !s.miner.closed
    ensures var (m, n) := (s.miner, Next(s, Submit(worker, key, verdict)));
            && (!Earned(m, worker, key, verdict) ==> n == s)
            && (Earned(m, worker, key, verdict) ==>
                  && n.engine == s.engine
                  && n.miner.accepted == m.accepted + [key] && n.miner.since == m.since + [key]
                  && key in n.miner.shares
                  && n.miner == m.(accepted := n.miner.accepted, since := n.miner.since, shares := n.miner.shares,
                                   overflowed := n.miner.overflowed, booked := n.miner.booked)
                  && (!verdict.Block? ==> n.miner.booked == m.booked)
                  && (verdict.Block? && m.identity.Some? ==>
                        forall j: nat :: LiveAt(m.jobs, j, key.job) ==>
                          n.miner.booked == m.booked + [Booked(Canonical(m.identity.value), m.jobs[j].job.payout)]))
  {
    hide Canonical, Found;
    FoundIsOldest(s.miner.jobs, key.job);
    var shares := LastN(s.miner.shares + [key], MAX_SHARE_KEYS);
    assert shares[|shares| - 1] == key;
  }

  /** Nothing but a submission touches what was accepted or booked. */
  lemma OthersEarnNothing(s: Sys, a: Action)
    requires CanDo(s, a) && !a.Submit?
    ensures Next(s, a).miner.accepted == s.miner.accepted && Next(s, a).miner.booked == s.miner.booked
  {
    hide Canonical, Issued, SplitName, Found, LastN;
  }

  /** Step j of the run is a submission of this key that earned, from the state it met. */
  ghost predicate EarnedAt(s: Sys, acts: seq<Action>, j: nat, key: ShareKey) {
    && j < |acts| && acts[j].Submit? && acts[j].key == key
    && exists t :: Reaches(s, acts[..j], t) && Earned(t.miner, acts[j].worker, key, acts[j].verdict)
  }

  lemma {:induction false} RecordsGrow(s: Sys, acts: seq<Action>, s': Sys)
    requires Reaches(s, acts, s')
    ensures s.miner.accepted <= s'.miner.accepted && s.miner.booked <= s'.miner.booked
    decreases |acts|
  {
    hide Next, CanDo, Earned;
    if acts != [] {
      StepEarns(s, acts[0]);
      RecordsGrow(Next(s, acts[0]), acts[1..], s');
    }
  }

  /** In every run each accepted key was earned by a submission of the run. */
  lemma {:induction false} AcceptedWasEarned(s: Sys, acts: seq<Action>, s': Sys, i: nat) returns (j: nat)
    requires Reaches(s, acts, s') && |s.miner.accepted| <= i < |s'.miner.accepted|
    ensures EarnedAt(s, acts, j, s'.miner.accepted[i])
    decreases |acts|
  {
    hide Next, CanDo, Earned;
    var (n, rest) := (Next(s, acts[0]), acts[1..]);
    StepEarns(s, acts[0]);
    RecordsGrow(n, rest, s');
    if i < |n.miner.accepted| {
      j := 0;
      EarnedFirst(s, acts);
    } else {
      j := AcceptedWasEarned(n, rest, s', i);
      EarnedLater(s, acts, j, s'.miner.accepted[i]);
      j := j + 1;
    }
  }

  /** And each booked block by a winning one. */
  lemma {:induction false} BookedWasWon(s: Sys, acts: seq<Action>, s': Sys, i: nat) returns (j: nat, key: ShareKey)
    requires Reaches(s, acts, s') && |s.miner.booked| <= i < |s'.miner.booked|
    ensures EarnedAt(s, acts, j, key) && acts[j].verdict.Block?
    decreases |acts|
  {
    hide Next, CanDo, Earned;
    var (n, rest) := (Next(s, acts[0]), acts[1..]);
    StepEarns(s, acts[0]);
    RecordsGrow(n, rest, s');
    if i < |n.miner.booked| {
      j, key := 0, acts[0].key;
      EarnedFirst(s, acts);
    } else {
      j, key := BookedWasWon(n, rest, s', i);
      EarnedLater(s, acts, j, key);
      j := j + 1;
    }
  }

  lemma StepEarns(s: Sys, a: Action)
    requires CanDo(s, a)
    ensures var (m, n) := (s.miner, Next(s, a).miner);
            && (n.accepted == m.accepted || (a.Submit? && n.accepted == m.accepted + [a.key]))
            && (n.accepted != m.accepted ==> a.Submit? && Earned(m, a.worker, a.key, a.verdict))
            && (n.booked == m.booked
                || (n.accepted != m.accepted && a.verdict.Block? && |n.booked| == |m.booked| + 1
                   && m.booked <= n.booked))
  {
    hide Canonical, Earned;
    if a.Submit? {
      SubmissionEarnsIff(s, a.worker, a.key, a.verdict);
    } else {
      OthersEarnNothing(s, a);
    }
  }

  lemma EarnedFirst(s: Sys, acts: seq<Action>)
    requires acts != [] && acts[0].Submit? && Earned(s.miner, acts[0].worker, acts[0].key, acts[0].verdict)
    ensures EarnedAt(s, acts, 0, acts[0].key)
  {
    hide Earned;
    assert acts[..0] == [];
    ReachesNothing(s);
  }

  lemma EarnedLater(s: Sys, acts: seq<Action>, j: nat, key: ShareKey)
    requires acts != [] && CanDo(s, acts[0]) && EarnedAt(Next(s, acts[0]), acts[1..], j, key)
    ensures EarnedAt(s, acts, j + 1, key) && acts[j + 1] == acts[1..][j]
  {
    hide Next, CanDo, Earned;
    var t :| Reaches(Next(s, acts[0]), acts[1..][..j], t)
        && Earned(t.miner, acts[1..][j].worker, key, acts[1..][j].verdict);
    assert acts[..j + 1][1..] == acts[1..][..j];
    assert Reaches(s, acts[..j + 1], t);
  }

  // ---- what a job message does ----

  /** One new live job at the end, behind the newest fifteen of the others, which a clean job retires. */
  predicate Renewed(jobs: seq<JobEntry>, next: seq<JobEntry>, job: Job, clean: bool, difficulty: nat) {
    var n := |next| - 1;
    && n >= 0 && n == (if |jobs| < 15 then |jobs| else 15)
    && next[n] == JobEntry(job, false, difficulty)
    && forall i :: 0 <= i < n ==>
         var e := jobs[|jobs| - n + i];
         next[i] == JobEntry(e.job, clean || e.superseded, e.difficulty)
  }

  lemma IssuedRenews(jobs: seq<JobEntry>, job: Job, clean: bool, difficulty: nat)
    ensures Renewed(jobs, Issued(jobs, job, clean, difficulty), job, clean, difficulty)
  {
    hide Supersede;
  }

  /** The job a session is sent: on this tip, paying the authorized address, with the next free id. */
  predicate Sent(m: Miner, n: Sys, s: Sys, tip: nat, clean: bool, difficulty: nat) {
    && m.identity.Some? && n.engine == s.engine.(counter := s.engine.counter + 1)
    && (var job := Job(s.engine.counter % 0x1_0000_0000, tip, m.identity.value.address);
        Renewed(m.jobs, n.miner.jobs, job, clean, difficulty))
    && n.miner == m.(jobs := n.miner.jobs, template := Some(tip))
  }

  /** A refresh reaches a session exactly once: a new tip, and only that, clears its keys and retires its
      jobs, and an authorized session gets one new job on the refresh's tip. */
  lemma DeliveryEffect(s: Sys, difficulty: nat)
    requires CanDo(s, Deliver(difficulty)) && PaysOk(s.miner)
    ensures var (m, b, n) := (s.miner, s.engine.log[s.miner.pos], Next(s, Deliver(difficulty)));
            var seen := if b.clean then m.(pos := m.pos + 1, shares := [], since := []) else m.(pos := m.pos + 1);
            if m.subscribed && m.authorized then Sent(seen, n, s, b.tip, b.clean, difficulty)
            else n == Sys(s.engine, seen.(template := Some(b.tip)))
  {
    hide Issued, Renewed, SplitName;
    var (m, b) := (s.miner, s.engine.log[s.miner.pos]);
    if m.identity.Some? {
      IssuedRenews(m.jobs, Job(JobId(s.engine.counter), b.tip, m.identity.value.address), b.clean, difficulty);
    }
  }

  /** Authorizing: nothing before subscribing, a new identity only if there is room for it, and then the
      previous one's jobs and keys are gone. Another spelling of the same identity keeps its keys. Either
      way a clean job paying the address follows as soon as there is a template. */
  lemma AuthorizeEffect(s: Sys, i: Identity, allowed: bool, difficulty: nat)
    requires CanDo(s, Authorize(i, allowed, difficulty))
    ensures var (m, n) := (s.miner, Next(s, Authorize(i, allowed, difficulty)));
            var same := m.identity.Some? && Canonical(m.identity.value) == Canonical(i);
            var kept := if same then m else m.(jobs := [], shares := [], since := []);
            var known := kept.(authorized := true, worker := Some(i.raw), identity := Some(i));
            var tip := if m.template.Some? then m.template else s.engine.current;
            if !m.subscribed then n == s
            else if !same && !allowed then n == Sys(s.engine, m.(closed := true))
            else if tip.None? then n == Sys(s.engine, known)
            else Sent(known, n, s, tip.value, true, difficulty)
  {
    hide Issued, Renewed, SplitName, Canonical;
    var m := s.miner;
    var kept := if SameIdentity(m, i) then m else m.(jobs := [], shares := [], since := []);
    var tip := if m.template.Some? then m.template else s.engine.current;
    if tip.Some? {
      IssuedRenews(kept.jobs, Job(JobId(s.engine.counter), tip.value, i.address), true, difficulty);
    }
  }

  /** A refresh is broadcast clean exactly when the tip is not the one the engine had. */
  lemma RefreshEffect(s: Sys, tip: nat)
    ensures var (e, n) := (s.engine, Next(s, Refresh(tip)));
            && n.miner == s.miner && n.engine.current == Some(tip) && n.engine.counter == e.counter
            && n.engine.log == e.log + [Broadcast(tip, e.current.None? || e.current.value != tip)]
  {
  }

  // ---- one tip ----

  predicate EngineOk(e: Engine) {
    && (e.log != [] ==> e.log[0].clean)
    && (forall i :: 0 < i < |e.log| ==> e.log[i].clean || e.log[i].tip == e.log[i - 1].tip)
    && (e.current.Some? ==> e.log != [] && e.current.value == e.log[|e.log| - 1].tip)
  }

  /** What the miner will receive next continues what it has. */
  predicate InStep(e: Engine, m: Miner) {
    && m.pos <= |e.log|
    && (m.pos < |e.log| ==> e.log[m.pos].clean || m.template == Some(e.log[m.pos].tip))
    && (m.pos == |e.log| && e.current.Some? ==> m.template == e.current)
  }

  predicate Live(e: JobEntry) {
    !e.superseded
  }

  predicate LiveIsSuffix(jobs: seq<JobEntry>) {
    forall i, j :: 0 <= i < j < |jobs| && Live(jobs[i]) ==> Live(jobs[j])
  }

  predicate OneTip(m: Miner) {
    && (m.jobs != [] ==> m.authorized && m.template.Some?)
    && (m.authorized ==> m.subscribed)
    && (forall e :: e in m.jobs && Live(e) ==> Some(e.job.tip) == m.template)
    && LiveIsSuffix(m.jobs)
  }

  predicate TipOk(s: Sys) {
    EngineOk(s.engine) && InStep(s.engine, s.miner) && OneTip(s.miner)
  }

  lemma IssuedSuffix(es: seq<JobEntry>, job: Job, clean: bool, difficulty: nat)
    requires LiveIsSuffix(es)
    ensures LiveIsSuffix(Issued(es, job, clean, difficulty))
  {
    var all := (if clean then Supersede(es) else es) + [JobEntry(job, false, difficulty)];
    assert LiveIsSuffix(all);
  }

  lemma SendOneTip(s: Sys, tip: nat, clean: bool, difficulty: nat)
    requires OneTip(s.miner) && s.miner.authorized && (clean || s.miner.template == Some(tip))
    ensures OneTip(SendJob(s, tip, clean, difficulty).miner)
    ensures s.miner.identity.Some? ==> SendJob(s, tip, clean, difficulty).miner.template == Some(tip)
    ensures SendJob(s, tip, clean, difficulty).miner.pos == s.miner.pos
  {
    hide Issued, LiveIsSuffix;
    if s.miner.identity.Some? {
      var job := Job(JobId(s.engine.counter), tip, s.miner.identity.value.address);
      var n := SendJob(s, tip, clean, difficulty).miner;
      IssuedSuffix(s.miner.jobs, job, clean, difficulty);
      forall e | e in n.jobs && Live(e)
        ensures e.job.tip == tip
      {
        IssuedFrom(s.miner.jobs, job, clean, difficulty, e);
      }
    }
  }

  lemma DeliverTip(s: Sys, difficulty: nat)
    requires TipOk(s) && PaysOk(s.miner) && s.miner.pos < |s.engine.log|
    ensures TipOk(Delivered(s, difficulty))
  {
    hide Issued, SendJob, SplitName;
    var b := s.engine.log[s.miner.pos];
    var m := (if b.clean then ClearShares(s.miner) else s.miner).(pos := s.miner.pos + 1);
    if m.subscribed && m.authorized {
      SendOneTip(Sys(s.engine, m), b.tip, b.clean, difficulty);
      SendKeepsEngine(Sys(s.engine, m), b.tip, b.clean, difficulty);
    }
  }

  lemma SendKeepsEngine(s: Sys, tip: nat, clean: bool, difficulty: nat)
    ensures var e := SendJob(s, tip, clean, difficulty).engine; e.current == s.engine.current && e.log == s.engine.log
  {
  }

  lemma AuthorizeTip(s: Sys, i: Identity, allowed: bool, difficulty: nat)
    requires TipOk(s) && PaysOk(s.miner)
    ensures TipOk(Authorized(s, i, allowed, difficulty))
  {
    hide Issued, SendJob, SplitName, Canonical;
    var m := s.miner;
    if m.subscribed && (SameIdentity(m, i) || allowed) {
      var kept := if SameIdentity(m, i) then m else ClearShares(m).(jobs := []);
      var n := kept.(authorized := true, worker := Some(i.raw), identity := Some(i));
      assert OneTip(n);
      var template := if n.template.Some? then n.template else s.engine.current;
      if template.Some? {
        SendOneTip(Sys(s.engine, n), template.value, true, difficulty);
        SendKeepsEngine(Sys(s.engine, n), template.value, true, difficulty);
      }
    }
  }

  lemma StepTip(s: Sys, a: Action)
    requires TipOk(s) && PaysOk(s.miner) && CanDo(s, a) && !a.Lag?
    ensures TipOk(Next(s, a))
  {
    hide Issued, SplitName, Canonical, Delivered, Authorized;
    match a
    case Deliver(difficulty) => DeliverTip(s, difficulty);
    case Authorize(i, allowed, difficulty) => AuthorizeTip(s, i, allowed, difficulty);
    case _ =>
  }

  predicate KeepsUp(acts: seq<Action>) {
    forall i :: 0 <= i < |acts| ==> !acts[i].Lag?
  }

  /** For a session that receives every broadcast from its starting template on, rules-driven
      withdrawals included: the live jobs all build on the tip of the last template it was given, and
      they are the newest entries of its history. */
  lemma {:induction false} LiveJobsShareOneTip(s: Sys, acts: seq<Action>, s': Sys)
    requires TipOk(s) && PaysOk(s.miner) && Reaches(s, acts, s') && KeepsUp(acts)
    ensures TipOk(s')
    decreases |acts|
  {
    hide TipOk, PaysOk, Next, CanDo;
    if acts != [] {
      StepPays(s, acts[0]);
      StepTip(s, acts[0]);
      LiveJobsShareOneTip(Next(s, acts[0]), acts[1..], s');
    }
  }

  /** A session that subscribes and reads the engine's template with no refresh in between starts in
      step, whether or not the template has been withdrawn. */
  lemma ConnectInStep(e: Engine)
    requires EngineOk(e)
    ensures var s := Sys(e, Connected(|e.log|, e.current)); TipOk(s) && PaysOk(s.miner) && DedupOk(s)
  {
  }

  lemma ReachesFrom(s: Sys, a: Action, rest: seq<Action>, s': Sys)
    requires CanDo(s, a) && Reaches(Next(s, a), rest, s')
    ensures Reaches(s, [a] + rest, s')
  {
    assert ([a] + rest)[1..] == rest;
  }

  /** Two live jobs on different tips. */
  predicate MixesTips(jobs: seq<JobEntry>) {
    exists a, b :: a in jobs && b in jobs && Live(a) && Live(b) && a.job.tip != b.job.tip
  }

  lemma MixedIsNotOne(m: Miner)
    requires MixesTips(m.jobs)
    ensures !OneTip(m)
  {
  }

  const Someone := Identity("a", "a", None)

  lemma IssuedLast(es: seq<JobEntry>, job: Job, clean: bool, difficulty: nat)
    ensures var r := Issued(es, job, clean, difficulty);
            && r != [] && r[|r| - 1] == JobEntry(job, false, difficulty)
            && (!clean && es != [] ==> |r| >= 2 && r[|r| - 2] == es[|es| - 1])
  {
  }

  /** Authorizing under a new name always leaves a live job on the session's template. */
  lemma AuthorizeSends(s: Sys, x: nat)
    requires !s.miner.closed && s.miner.subscribed
    requires Some(x) == if s.miner.template.Some? then s.miner.template else s.engine.current
    ensures var n := Next(s, Authorize(Someone, true, 0));
            && n.engine.log == s.engine.log && n.miner.pos == s.miner.pos && !n.miner.closed
            && n.miner.subscribed && n.miner.authorized && n.miner.identity.Some? && n.miner.jobs != []
            && Live(n.miner.jobs[|n.miner.jobs| - 1]) && n.miner.jobs[|n.miner.jobs| - 1].job.tip == x
  {
    hide Issued, Canonical;
    var m := s.miner;
    var kept := if SameIdentity(m, Someone) then m else ClearShares(m).(jobs := []);
    IssuedLast(kept.jobs, Job(JobId(s.engine.counter), x, Someone.address), true, 0);
  }

  lemma UncleanDeliverMixes(s: Sys)
    requires CanDo(s, Deliver(0)) && s.miner.subscribed && s.miner.authorized && s.miner.identity.Some?
             && s.miner.jobs != []
    requires !s.engine.log[s.miner.pos].clean
    requires var last := s.miner.jobs[|s.miner.jobs| - 1]; Live(last) && last.job.tip != s.engine.log[s.miner.pos].tip
    ensures MixesTips(Next(s, Deliver(0)).miner.jobs)
  {
    hide Issued;
    var (m, t) := (s.miner, s.engine.log[s.miner.pos].tip);
    IssuedLast(m.jobs, Job(JobId(s.engine.counter), t, m.identity.value.address), false, 0);
    var jobs := Next(s, Deliver(0)).miner.jobs;
    assert jobs[|jobs| - 1] in jobs && jobs[|jobs| - 2] in jobs;
  }

  /** A session working on one tip and about to receive an unclean job on another. */
  lemma MixUp(s: Sys, x: nat, t: nat) returns (acts: seq<Action>, s': Sys)
    requires !s.miner.closed && s.miner.pos < |s.engine.log|
    requires s.engine.log[s.miner.pos] == Broadcast(t, false) && x != t
    requires Some(x) == if s.miner.template.Some? then s.miner.template else s.engine.current
    ensures Reaches(s, acts, s') && KeepsUp(acts) && MixesTips(s'.miner.jobs)
  {
    hide Reaches, Issued, MixesTips, Authorized, Delivered;
    var s1 := Next(s, Subscribe);
    var s2 := Next(s1, Authorize(Someone, true, 0));
    AuthorizeSends(s1, x);
    s' := Next(s2, Deliver(0));
    UncleanDeliverMixes(s2);
    ReachesNothing(s');
    ReachesFrom(s2, Deliver(0), [], s');
    ReachesFrom(s1, Authorize(Someone, true, 0), [Deliver(0)] + [], s');
    ReachesFrom(s, Subscribe, [Authorize(Someone, true, 0)] + ([Deliver(0)] + []), s');
    acts := [Subscribe] + ([Authorize(Someone, true, 0)] + ([Deliver(0)] + []));
  }

  /** A session out of step can be led to two tips, whatever else is true of it and of the engine. */
  lemma OutOfStepMixes(s: Sys) returns (acts: seq<Action>, s': Sys)
    requires EngineOk(s.engine) && !s.miner.closed
    requires s.miner.pos <= |s.engine.log| && !InStep(s.engine, s.miner)
    ensures Reaches(s, acts, s') && KeepsUp(acts) && MixesTips(s'.miner.jobs)
  {
    hide Reaches, MixesTips;
    var (e, m) := (s.engine, s.miner);
    if m.pos == |e.log| {
      // the next refresh of the unchanged tip is not clean
      var n := Next(s, Refresh(e.current.value));
      var rest;
      rest, s' := NotFollowedMixes(n);
      ReachesFrom(s, Refresh(e.current.value), rest, s');
      acts := [Refresh(e.current.value)] + rest;
    } else {
      acts, s' := NotFollowedMixes(s);
    }
  }

  lemma NotFollowedMixes(s: Sys) returns (acts: seq<Action>, s': Sys)
    requires !s.miner.closed && s.miner.pos < |s.engine.log|
    requires !s.engine.log[s.miner.pos].clean && s.miner.template != Some(s.engine.log[s.miner.pos].tip)
    ensures Reaches(s, acts, s') && KeepsUp(acts) && MixesTips(s'.miner.jobs)
  {
    hide Reaches, MixesTips;
    var t := s.engine.log[s.miner.pos].tip;
    if s.miner.template.Some? {
      acts, s' := MixUp(s, s.miner.template.value, t);
    } else {
      // with nothing cached, authorizing reads the engine's newest template
      var n := Next(s, Refresh(t + 1));
      var rest;
      rest, s' := MixUp(n, t + 1, t);
      ReachesFrom(s, Refresh(t + 1), rest, s');
      acts := [Refresh(t + 1)] + rest;
    }
  }

  /** Whether every run from here on in which nothing more is missed keeps the live jobs on one tip. */
  ghost predicate StaysOnOneTip(s: Sys) {
    forall acts, s' :: Reaches(s, acts, s') && KeepsUp(acts) ==> OneTip(s'.miner)
  }

  /** Exactly when any open session is safe: if and only if its next broadcast continues the template
      it holds. */
  lemma OneTipIffInStep(s: Sys)
    requires EngineOk(s.engine) && OneTip(s.miner) && PaysOk(s.miner)
    requires !s.miner.closed && s.miner.pos <= |s.engine.log|
    ensures StaysOnOneTip(s) <==> InStep(s.engine, s.miner)
  {
    hide Reaches, OneTip, InStep, PaysOk;
    if InStep(s.engine, s.miner) {
      forall acts, s' | Reaches(s, acts, s') && KeepsUp(acts)
        ensures OneTip(s'.miner)
      {
        LiveJobsShareOneTip(s, acts, s');
      }
    } else {
      var acts, s' := OutOfStepMixes(s);
      MixedIsNotOne(s'.miner);
    }
  }

  /** A session that subscribes at pos and then reads the template, with anything in between. */
  lemma FreshOneTipIff(e: Engine, pos: nat, template: Option<nat>)
    requires EngineOk(e) && pos <= |e.log|
    ensures var s := Sys(e, Connected(pos, template)); StaysOnOneTip(s) <==> InStep(e, s.miner)
  {
    hide StaysOnOneTip, InStep;
    OneTipIffInStep(Sys(e, Connected(pos, template)));
  }

  /** A lag is harmless if and only if the session is in step after it. */
  lemma LagIsSafeIff(s: Sys, missed: nat)
    requires TipOk(s) && PaysOk(s.miner) && CanDo(s, Lag(missed))
    ensures var n := Next(s, Lag(missed)); StaysOnOneTip(n) <==> InStep(n.engine, n.miner)
  {
    hide StaysOnOneTip, InStep, PaysOk;
    StepPays(s, Lag(missed));
    OneTipIffInStep(Next(s, Lag(missed)));
  }

  /** So a missed tip change followed by an unclean job on the new tip is never harmless. */
  lemma LagMixesTips(s: Sys) returns (acts: seq<Action>, s': Sys)
    requires TipOk(s) && !s.miner.closed && s.miner.pos + 1 < |s.engine.log|
    requires s.miner.template != Some(s.engine.log[s.miner.pos].tip) && !s.engine.log[s.miner.pos + 1].clean
    ensures Reaches(s, [Lag(1)] + acts, s') && KeepsUp(acts) && MixesTips(s'.miner.jobs)
  {
    hide Reaches, MixesTips;
    acts, s' := OutOfStepMixes(Next(s, Lag(1)));
    ReachesFrom(s, Lag(1), acts, s');
  }

  // ---- the session object ----

  class MinerSession {
    const issued: IssuedJobs
    const shareSet: ShareSet
    var subscribed: bool
    var authorized: bool
    var worker: Option<string>
    var identity: Option<Identity>
    var template: Option<nat>
    var closed: bool
    var booked: seq<Booked>
    ghost var pos: nat
    ghost var accepted: seq<ShareKey>
    ghost var since: seq<ShareKey>
    ghost var overflowed: bool

    ghost predicate Valid()
      reads this, issued, shareSet
    {
      issued.Valid() && shareSet.Valid()
    }

    ghost function View(): Miner
      reads this, issued, shareSet
    {
      Miner(subscribed, authorized, worker, identity, template, issued.entries, shareSet.order, pos, closed,
            accepted, since, overflowed, booked)
    }

    constructor (ghost pos: nat, template: Option<nat>)
      ensures Valid() && fresh(issued) && fresh(shareSet) && View() == Connected(pos, template)
    {
      issued := new IssuedJobs();
      shareSet := new ShareSet();
      subscribed, authorized, worker, identity, closed, booked := false, false, None, None, false, [];
      this.template := template;
      this.pos, accepted, since, overflowed := pos, [], [], false;
    }

    method Send(counter: nat, tip: nat, clean: bool, difficulty: nat, ghost e: Engine) returns (next: nat)
      requires Valid() && e.counter == counter
      modifies this, issued
      ensures Valid() && Sys(e.(counter := next), View()) == SendJob(Sys(e, old(View())), tip, clean, difficulty)
    {
      if identity.None? {
        closed := true;
        return counter;
      }
      issued.Issue(Job(JobId(counter), tip, identity.value.address), clean, difficulty);
      template := Some(tip);
      next := counter + 1;
    }

    /** A broadcast from the engine. */
    method OnBroadcast(b: Broadcast, counter: nat, difficulty: nat, ghost e: Engine) returns (next: nat)
      requires Valid() && e.counter == counter && pos < |e.log| && e.log[pos] == b
      modifies this, issued, shareSet
      ensures Valid() && Sys(e.(counter := next), View()) == Delivered(Sys(e, old(View())), difficulty)
    {
      hide Issued;
      pos := pos + 1;
      next := counter;
      if b.clean {
        shareSet.Clear();
        since := [];
      }
      if subscribed && authorized {
        next := Send(counter, b.tip, b.clean, difficulty, e);
      } else {
        template := Some(b.tip);
      }
    }

    /** Drop the jobs and keys of the previous identity. */
    method Forget()
      requires Valid()
      modifies this`since, issued, shareSet
      ensures Valid() && View() == ClearShares(old(View())).(jobs := [])
    {
      issued.Clear();
      shareSet.Clear();
      since := [];
    }

    /** Take on an identity, forgetting the previous one's work if it is another. */
    method Adopt(i: Identity)
      requires Valid()
      modifies this`since, this`authorized, this`worker, this`identity, issued, shareSet
      ensures Valid()
      ensures var kept := if SameIdentity(old(View()), i) then old(View()) else ClearShares(old(View())).(jobs := []);
              View() == kept.(authorized := true, worker := Some(i.raw), identity := Some(i))
    {
      hide Canonical;
      if identity.None? || Canonical(identity.value) != Canonical(i) {
        Forget();
      }
      authorized, worker, identity := true, Some(i.raw), Some(i);
    }

    method OnAuthorize(i: Identity, allowed: bool, current: Option<nat>, counter: nat, difficulty: nat, ghost e: Engine)
      returns (next: nat)
      requires Valid() && e.counter == counter && e.current == current
      modifies this, issued, shareSet
      ensures Valid() && Sys(e.(counter := next), View()) == Authorized(Sys(e, old(View())), i, allowed, difficulty)
    {
      hide Issued, Canonical, Distinct, SendJob;
      next := counter;
      if !subscribed {
        return;
      }
      if !allowed && (identity.None? || Canonical(identity.value) != Canonical(i)) {
        closed := true;
        return;
      }
      Adopt(i);
      var start := if template.Some? then template else current;
      if start.Some? {
        next := Send(counter, start.value, true, difficulty, e);
      }
    }

    method OnSubmit(name: string, key: ShareKey, verdict: Verdict) returns (ok: bool)
      requires Valid()
      modifies this, shareSet
      ensures Valid() && View() == Submitted(old(View()), name, key, verdict)
      ensures ok <==> Earned(old(View()), name, key, verdict)
      ensures !ok ==> View() == old(View())
    {
      hide Canonical, Distinct, LastN;
      FoundIsOldest(issued.entries, key.job);
      if !authorized || worker != Some(name) {
        return false;
      }
      var entry := issued.Find(key.job);
      if entry.None? {
        return false;
      }
      var duplicate := shareSet.Contains(key);
      if duplicate || entry.value.superseded || verdict.Invalid? {
        return false;
      }
      Remember(key);
      if verdict.Block? {
        var booker := if identity.Some? then Canonical(identity.value) else name;
        booked := booked + [Booked(booker, entry.value.job.payout)];
      }
      ok := true;
    }

    method Remember(key: ShareKey)
      requires Valid() && key !in shareSet.order
      modifies this`overflowed, this`since, this`accepted, shareSet
      ensures Valid() && shareSet.order == LastN(old(shareSet.order) + [key], MAX_SHARE_KEYS)
      ensures since == old(since) + [key] && accepted == old(accepted) + [key]
      ensures overflowed == (old(overflowed) || |old(since)| + 1 > MAX_SHARE_KEYS)
    {
      shareSet.Insert(key);
      overflowed := overflowed || |since| + 1 > MAX_SHARE_KEYS;
      since, accepted := since + [key], accepted + [key];
    }
  }
}
