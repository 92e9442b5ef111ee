/** Submitting a found block: a few attempts in line, then a background task until a deadline. */
module Submission {
  import opened Options

  datatype Outcome = Accepted | Duplicate | Inconclusive

  /** What one submission attempt comes back with. Anything that is neither a verdict nor a
      consensus rejection may be tried again. */
  datatype Answer = Verdict(outcome: Outcome) | Rejected | Transient

  const SUBMIT_INLINE_ATTEMPTS := 3

  /** Attempt i is the first that is not transient. */
  ghost predicate Settles(node: nat -> Answer, i: nat) {
    !node(i).Transient? && forall j :: 0 <= j < i ==> node(j).Transient?
  }

  lemma SettlesOnce(node: nat -> Answer, i: nat, j: nat)
    requires Settles(node, i) && Settles(node, j)
    ensures i == j
  {
    NotBefore(node, i, j);
    NotBefore(node, j, i);
  }

  lemma NotBefore(node: nat -> Answer, i: nat, j: nat)
    requires Settles(node, j) && !node(i).Transient?
    ensures j <= i
  {
  }

  /** What n attempts establish: the first non-transient answer, if it is a verdict. */
  ghost predicate Establishes(node: nat -> Answer, n: nat, o: Outcome) {
    exists i :: 0 <= i < n && node(i) == Verdict(o) && Settles(node, i)
  }

  datatype Inline = Settled(answer: Answer) | HandedOver

  /** The attempts made while the miner waits. */
  method SubmitInline(node: nat -> Answer) returns (r: Inline)
    ensures r.Settled? ==> exists i :: 0 <= i < 3 && node(i) == r.answer && Settles(node, i)
    ensures r.HandedOver? <==> forall i :: 0 <= i < 3 ==> node(i).Transient?
  {
    for attempt := 0 to SUBMIT_INLINE_ATTEMPTS
      invariant forall i :: 0 <= i < attempt ==> node(i).Transient?
    {
      var answer := node(attempt);
      if !answer.Transient? {
        assert Settles(node, attempt);
        return Settled(answer);
      }
    }
    r := HandedOver;
  }

  /** Loop passes the background task gets: readings before the first one at or past the deadline. */
  function Passes(clock: seq<nat>, deadline: nat): (n: nat)
    ensures n <= |clock|
  {
    if clock == [] || clock[0] >= deadline then 0 else 1 + Passes(clock[1..], deadline)
  }

  lemma {:induction false} PassesUntilDeadline(clock: seq<nat>, deadline: nat)
    ensures var n := Passes(clock, deadline);
            (n < |clock| ==> clock[n] >= deadline) && forall i :: 0 <= i < n ==> clock[i] < deadline
  {
    if clock != [] && clock[0] < deadline {
      PassesUntilDeadline(clock[1..], deadline);
      assert clock == [clock[0]] + clock[1..];
    }
  }

  /** The background task; clock holds what its clock reads at each loop test. */
  method Resubmit(node: nat -> Answer, clock: seq<nat>, deadline: nat) returns (recorded: Option<Outcome>, passes: nat)
    requires clock != [] && clock[|clock| - 1] >= deadline
    requires forall i :: 0 <= i < SUBMIT_INLINE_ATTEMPTS ==> node(i).Transient?
    ensures passes <= Passes(clock, deadline)
    ensures forall o :: recorded == Some(o) <==> Establishes(node, 3 + Passes(clock, deadline), o)
  {
    var attempt := SUBMIT_INLINE_ATTEMPTS;
    passes := 0;
    recorded := None;
    assert clock[0..] == clock;
    while clock[passes] < deadline
      invariant passes < |clock| && attempt == SUBMIT_INLINE_ATTEMPTS + passes
      invariant forall i :: 0 <= i < attempt ==> node(i).Transient?
      invariant passes + Passes(clock[passes..], deadline) == Passes(clock, deadline)
      decreases |clock| - passes
    {
      var answer := node(attempt);
      attempt := attempt + 1;
      assert clock[passes..][1..] == clock[passes + 1..];
      passes := passes + 1;
      if !answer.Transient? {
        assert Settles(node, attempt - 1);
        if answer.Verdict? {
          recorded := Some(answer.outcome);
        }
        forall o | Establishes(node, SUBMIT_INLINE_ATTEMPTS + Passes(clock, deadline), o)
          ensures answer == Verdict(o)
        {
          var i :| node(i) == Verdict(o) && Settles(node, i);
          SettlesOnce(node, i, attempt - 1);
        }
        return;
      }
    }
  }

  /** Everything recorded for one found block: by the session after a verdict in line, or by the
      background task. */
  method Submit(node: nat -> Answer, clock: seq<nat>, deadline: nat) returns (records: seq<Outcome>)
    requires clock != [] && clock[|clock| - 1] >= deadline
    ensures |records| <= 1
    ensures forall o :: o in records <==> Establishes(node, 3 + Passes(clock, deadline), o)
  {
    ghost var n := SUBMIT_INLINE_ATTEMPTS + Passes(clock, deadline);
    var inline := SubmitInline(node);
    match inline
    case Settled(answer) =>
      ghost var i :| 0 <= i < SUBMIT_INLINE_ATTEMPTS && node(i) == answer && Settles(node, i);
      forall o
        ensures answer == Verdict(o) <==> Establishes(node, n, o)
      {
        if Establishes(node, n, o) {
          var j :| node(j) == Verdict(o) && Settles(node, j);
          SettlesOnce(node, i, j);
        }
      }
      records := if answer.Verdict? then [answer.outcome] else [];
      assert forall o :: o in records <==> answer == Verdict(o);
      assert forall o :: o in records <==> Establishes(node, n, o);
    case HandedOver =>
      var recorded, _ := Resubmit(node, clock, deadline);
      records := if recorded.Some? then [recorded.value] else [];
      assert forall o :: o in records <==> recorded == Some(o);
      assert forall o :: o in records <==> Establishes(node, n, o);
  }
}
