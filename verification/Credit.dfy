/** What an accepted share is worth: full difficulty while a session is believed to honour the
    difficulty it was given, the pool's floor while it is not. */
module Credit {
  import opened Bytes
  import opened Target

  const EVIDENCE_SHARES := 3
  const REDEEM_SHARES := 20

  /** Thirty seconds, in the clock's nanoseconds. */
  const RETARGET_GRACE := 30_000_000_000

  /** An accepted share: the session's difficulty, its job's stamp, what its hash reads, and when. */
  datatype Share = Share(assignment: nat, job: nat, hash: nat, now: nat)

  datatype State = State(floor: nat, assignment: nat, assignedAt: nat, below: nat, redeeming: nat, honors: bool)

  function Fresh(floor: nat, now: nat): State {
    State(Max(floor, 1), 0, now, 0, 0, true)
  }

  /** The difficulty a share had to clear. */
  function Effective(floor: nat, sh: Share): nat {
    Max(Min(sh.assignment, sh.job), floor)
  }

  /** At least 99% of it. */
  predicate Meets(floor: nat, sh: Share) {
    100 * sh.hash >= 99 * Effective(floor, sh)
  }

  /** A changed assignment restarts the grace period and drops the evidence. */
  function Noticed(s: State, sh: Share): State {
    if sh.assignment != s.assignment then s.(assignment := sh.assignment, assignedAt := sh.now, below := 0) else s
  }

  /** The clock never reads a negative age. */
  predicate OutOfGrace(s: State, sh: Share) {
    sh.now > Noticed(s, sh).assignedAt + RETARGET_GRACE
  }

  /** A share that counts as evidence. */
  predicate IsEvidence(s: State, sh: Share) {
    !Meets(s.floor, sh) && OutOfGrace(s, sh)
  }

  function Judged(s: State, sh: Share): State {
    var n := Noticed(s, sh);
    if n.honors then
      if !IsEvidence(s, sh) then n
      else if n.below + 1 >= EVIDENCE_SHARES then n.(below := n.below + 1, honors := false, redeeming := 0)
      else n.(below := n.below + 1)
    else if !Meets(s.floor, sh) then n.(redeeming := 0)
    else if n.redeeming + 1 >= REDEEM_SHARES then
      n.(redeeming := n.redeeming + 1, honors := true, below := 0, assignedAt := sh.now)
    else n.(redeeming := n.redeeming + 1)
  }

  function Worth(s: State, sh: Share): nat {
    if Judged(s, sh).honors then Effective(s.floor, sh) else s.floor
  }

  class ShareCredit {
    var floor: nat
    var assignment: nat
    var assignedAt: nat
    var belowAssigned: nat
    var redeeming: nat
    var honorsAssigned: bool

    constructor (floor: nat, now: nat)
      ensures View() == Fresh(floor, now)
    {
      this.floor := Max(floor, 1);
      assignment := 0;
      assignedAt := now;
      belowAssigned := 0;
      redeeming := 0;
      honorsAssigned := true;
    }

    function View(): State
      reads this
    {
      State(floor, assignment, assignedAt, belowAssigned, redeeming, honorsAssigned)
    }

    method Credit(sh: Share) returns (credit: nat)
      modifies this`assignment, this`assignedAt, this`belowAssigned, this`redeeming, this`honorsAssigned
      ensures View() == Judged(old(View()), sh)
      ensures credit == Worth(old(View()), sh)
    {
      if sh.assignment != assignment {
        assignment := sh.assignment;
        assignedAt := sh.now;
        belowAssigned := 0;
      }
      var effective := Max(Min(assignment, sh.job), floor);
      var meets := 100 * sh.hash >= 99 * effective;
      if honorsAssigned {
        var age := if sh.now < assignedAt then 0 else sh.now - assignedAt;
        if !meets && age > RETARGET_GRACE {
          belowAssigned := belowAssigned + 1;
          if belowAssigned >= EVIDENCE_SHARES {
            honorsAssigned := false;
            redeeming := 0;
          }
        }
      } else if meets {
        redeeming := redeeming + 1;
        if redeeming >= REDEEM_SHARES {
          honorsAssigned := true;
          belowAssigned := 0;
          assignedAt := sh.now;
        }
      } else {
        redeeming := 0;
      }
      credit := if honorsAssigned then effective else floor;
    }
  }

  // ---- whole traces ----

  function After(s: State, shares: seq<Share>): State {
    if shares == [] then s else Judged(After(s, shares[..|shares| - 1]), shares[|shares| - 1])
  }

  /** What holds of a session from its start. */
  predicate Sound(s: State) {
    && 1 <= s.floor
    && (s.honors ==> s.below < EVIDENCE_SHARES)
    && (!s.honors ==> s.redeeming < REDEEM_SHARES)
  }

  lemma {:induction false} AlwaysSound(s: State, shares: seq<Share>)
    requires Sound(s)
    ensures Sound(After(s, shares)) && After(s, shares).floor == s.floor
  {
    if shares != [] {
      AlwaysSound(s, shares[..|shares| - 1]);
    }
  }

  /** What a share of any trace is paid: the floor, or above it the smaller of the session's difficulty and
      the job's stamp; a session believed to honour its difficulty gets the latter whenever it is more. */
  lemma {:induction false} CreditBounds(s: State, shares: seq<Share>, sh: Share)
    requires Sound(s)
    ensures var (t, credit) := (After(s, shares), Worth(After(s, shares), sh));
            && credit >= s.floor
            && (credit > s.floor ==>
                  credit <= sh.assignment && credit <= sh.job && (credit == sh.assignment || credit == sh.job))
            && (Judged(t, sh).honors ==> credit >= sh.assignment || credit >= sh.job)
            && (!Judged(t, sh).honors ==> credit == s.floor)
  {
    AlwaysSound(s, shares);
  }

  /** A share counts against its session exactly when its hash reads under 99% of what it had to clear,
      under a difficulty that has stood for more than thirty seconds. */
  lemma EvidenceIff(s: State, sh: Share)
    ensures IsEvidence(s, sh) <==>
              && (100 * sh.hash < 99 * s.floor || (100 * sh.hash < 99 * sh.assignment && 100 * sh.hash < 99 * sh.job))
              && sh.assignment == s.assignment && sh.now > s.assignedAt + 30_000_000_000
  {
  }

  /** An assignment change, or the share that redeems a flagged session. */
  predicate Resets(s: State, sh: Share) {
    sh.assignment != s.assignment || (!s.honors && Judged(s, sh).honors)
  }

  /** A reset, and nothing else, restarts the grace period and forgets the evidence. */
  lemma GraceRestartsIff(s: State, sh: Share)
    ensures var t := Judged(s, sh);
            && t.floor == s.floor && t.assignment == sh.assignment
            && (Resets(s, sh) ==> t.assignedAt == sh.now && t.below == 0)
            && (!Resets(s, sh) ==> t.assignedAt == s.assignedAt && t.below >= s.below)
  {
  }

  function ResetCount(s: State, shares: seq<Share>): nat {
    if shares == [] then 0
    else ResetCount(s, shares[..|shares| - 1])
         + if Resets(After(s, shares[..|shares| - 1]), shares[|shares| - 1]) then 1 else 0
  }

  /** Evidence against the session, paid above the floor all the same. */
  predicate Overpaid(s: State, sh: Share) {
    IsEvidence(s, sh) && Worth(s, sh) > s.floor
  }

  function OverpaidCount(s: State, shares: seq<Share>): nat {
    if shares == [] then 0
    else OverpaidCount(s, shares[..|shares| - 1])
         + if Overpaid(After(s, shares[..|shares| - 1]), shares[|shares| - 1]) then 1 else 0
  }

  /** Over any trace, at most two shares of evidence are paid above the floor for the start and for
      each assignment change or redemption. */
  lemma {:induction false} OverpaidAtMostTwoPerReset(s: State, shares: seq<Share>)
    requires Sound(s)
    ensures OverpaidCount(s, shares) <= 2 * (1 + ResetCount(s, shares))
  {
    OverpaidPotential(s, shares);
    AlwaysSound(s, shares);
  }

  lemma {:induction false} OverpaidPotential(s: State, shares: seq<Share>)
    requires Sound(s)
    ensures var t := After(s, shares);
            OverpaidCount(s, shares) + (if t.honors then 2 - t.below else 0) <= 2 * (1 + ResetCount(s, shares))
  {
    if shares != [] {
      var front := shares[..|shares| - 1];
      OverpaidPotential(s, front);
      AlwaysSound(s, front);
    }
  }

  function EvidenceCount(s: State, shares: seq<Share>): nat {
    if shares == [] then 0
    else EvidenceCount(s, shares[..|shares| - 1])
         + if IsEvidence(After(s, shares[..|shares| - 1]), shares[|shares| - 1]) then 1 else 0
  }

  /** Between resets, a session that starts without evidence is flagged exactly at the third share
      of evidence. */
  lemma {:induction false} FlaggedAtThreeIff(s: State, shares: seq<Share>)
    requires Sound(s) && s.honors && s.below == 0 && ResetCount(s, shares) == 0
    ensures After(s, shares).honors <==> EvidenceCount(s, shares) < 3
    ensures After(s, shares).honors ==> After(s, shares).below == EvidenceCount(s, shares)
  {
    if shares != [] {
      FlaggedAtThreeIff(s, shares[..|shares| - 1]);
    }
  }

  /** Length of the run of good shares a trace ends with. */
  function GoodRun(floor: nat, shares: seq<Share>): nat {
    if shares == [] || !Meets(floor, shares[|shares| - 1]) then 0 else 1 + GoodRun(floor, shares[..|shares| - 1])
  }

  predicate FlaggedThroughout(s: State, shares: seq<Share>) {
    forall i :: 0 <= i < |shares| ==> !After(s, shares[..i]).honors
  }

  /** A flagged session is redeemed exactly by its twentieth good share in a row. */
  lemma {:induction false} RedeemedAtTwentyIff(s: State, shares: seq<Share>)
    requires Sound(s) && !s.honors && s.redeeming == 0 && FlaggedThroughout(s, shares)
    ensures After(s, shares).honors <==> GoodRun(s.floor, shares) >= 20
    ensures !After(s, shares).honors ==> After(s, shares).redeeming == GoodRun(s.floor, shares)
  {
    if shares != [] {
      var front := shares[..|shares| - 1];
      forall i | 0 <= i < |front|
        ensures !After(s, front[..i]).honors
      {
        assert front[..i] == shares[..i];
      }
      RedeemedAtTwentyIff(s, front);
      AlwaysSound(s, front);
      assert !After(s, shares[..|front|]).honors;
    }
  }

  lemma GoodShare(t: State, sh: Share)
    requires t.honors && Meets(t.floor, sh)
    ensures Judged(t, sh).honors && Worth(t, sh) == Effective(t.floor, sh)
  {
  }

  /** A session whose every share meets its effective difficulty is never flagged, and every share
      earns that difficulty. */
  lemma {:induction false} GoodSharesEarnInFull(s: State, shares: seq<Share>)
    requires Sound(s) && s.honors
    requires forall i :: 0 <= i < |shares| ==> Meets(s.floor, shares[i])
    ensures After(s, shares).honors
    ensures forall i :: 0 <= i < |shares| ==> Worth(After(s, shares[..i]), shares[i]) == Effective(s.floor, shares[i])
  {
    hide Judged, Worth, Effective, Meets, Sound;
    if shares != [] {
      var (n, front) := (|shares| - 1, shares[..|shares| - 1]);
      GoodSharesEarnInFull(s, front);
      AlwaysSound(s, front);
      GoodShare(After(s, front), shares[n]);
      forall i | 0 <= i < |shares|
        ensures Worth(After(s, shares[..i]), shares[i]) == Effective(s.floor, shares[i])
      {
        if i < n {
          assert front[..i] == shares[..i] && front[i] == shares[i];
        }
      }
    }
  }

  /** From the hash to the credit: a miner whose hashes meet the target of their effective difficulty
      is paid that difficulty for every share. The reading never falls short, so the one per cent of
      tolerance is never needed. */
  lemma HonestHashesEarnInFull(s: State, shares: seq<Share>, hashes: seq<Hash>)
    requires Sound(s) && s.honors && |hashes| == |shares|
    requires forall i :: 0 <= i < |shares| ==> shares[i].hash == Reading(Le(hashes[i]))
    requires forall i :: 0 <= i < |shares| ==> Effective(s.floor, shares[i]) <= U64_MAX
    requires forall i :: 0 <= i < |shares| ==> MeetsTarget(hashes[i], ShareTarget(Effective(s.floor, shares[i])))
    ensures After(s, shares).honors
    ensures forall i :: 0 <= i < |shares| ==>
              && shares[i].hash >= Effective(s.floor, shares[i])
              && Worth(After(s, shares[..i]), shares[i]) == Effective(s.floor, shares[i])
  {
    hide MeetsTarget, ShareTarget, Reading, Le, Worth, After;
    forall i | 0 <= i < |shares|
      ensures shares[i].hash >= Effective(s.floor, shares[i]) && Meets(s.floor, shares[i])
    {
      AcceptedShareReadsItsDifficulty(hashes[i], Effective(s.floor, shares[i]));
    }
    GoodSharesEarnInFull(s, shares);
  }
}
