/** What one session remembers: the jobs it was sent and the share keys it has had accepted. */
module Jobs {
  import opened Bytes
  import opened Options

  const JOB_HISTORY_DEPTH := 16
  const MAX_SHARE_KEYS := 4096

  /** tip is the previous-block hash the job builds on. */
  datatype Job = Job(id: nat, tip: nat, payout: string)
  datatype JobEntry = JobEntry(job: Job, superseded: bool, difficulty: nat)

  // ---- job history ----

  function Supersede(es: seq<JobEntry>): (r: seq<JobEntry>)
    ensures |r| == |es|
    ensures forall i :: 0 <= i < |es| ==> r[i] == es[i].(superseded := true)
  {
    if es == [] then [] else Supersede(es[..|es| - 1]) + [es[|es| - 1].(superseded := true)]
  }

  function LastN<T>(s: seq<T>, n: nat): seq<T> {
    if |s| <= n then s else s[|s| - n..]
  }

  function Issued(es: seq<JobEntry>, job: Job, clean: bool, difficulty: nat): seq<JobEntry> {
    LastN((if clean then Supersede(es) else es) + [JobEntry(job, false, difficulty)], JOB_HISTORY_DEPTH)
  }

  /** The oldest entry with this id. */
  function Found(es: seq<JobEntry>, id: nat): (r: Option<JobEntry>)
    ensures r.Some? ==> r.value in es && r.value.job.id == id
    ensures r.None? ==> forall e :: e in es ==> e.job.id != id
  {
    if es == [] then None else if es[0].job.id == id then Some(es[0]) else Found(es[1..], id)
  }

  class IssuedJobs {
    var entries: seq<JobEntry>

    ghost predicate Valid()
      reads this
    {
      |entries| <= JOB_HISTORY_DEPTH
    }

    constructor ()
      ensures Valid() && entries == []
    {
      entries := [];
    }

    method Issue(job: Job, clean: bool, difficulty: nat)
      requires Valid()
      modifies this
      ensures Valid() && entries == Issued(old(entries), job, clean, difficulty)
    {
      if clean {
        for i := 0 to |entries|
          invariant |entries| == |old(entries)|
          invariant forall j :: 0 <= j < i ==> entries[j] == old(entries)[j].(superseded := true)
          invariant forall j :: i <= j < |entries| ==> entries[j] == old(entries)[j]
        {
          entries := entries[i := entries[i].(superseded := true)];
        }
        assert entries == Supersede(old(entries));
      }
      ghost var marked := entries;
      if |entries| >= JOB_HISTORY_DEPTH {
        entries := entries[1..];
      }
      entries := entries + [JobEntry(job, false, difficulty)];
      assert entries == LastN(marked + [JobEntry(job, false, difficulty)], JOB_HISTORY_DEPTH);
    }

    method Find(id: nat) returns (r: Option<JobEntry>)
      ensures r == Found(entries, id)
    {
      assert entries[0..] == entries;
      for i := 0 to |entries|
        invariant Found(entries, id) == Found(entries[i..], id)
      {
        if entries[i].job.id == id {
          return Some(entries[i]);
        }
        assert entries[i..][1..] == entries[i + 1..];
      }
      r := None;
    }

    method Clear()
      modifies this
      ensures Valid() && entries == []
    {
      entries := [];
    }
  }

  // ---- duplicate detection ----

  /** A 32-bit word, as the set of its one bits. */
  type Bits = s: set<nat> | forall i :: i in s ==> i < 32

  datatype ShareKey = ShareKey(job: nat, extranonce2: seq<Byte>, ntime: nat, nonce: nat, versionBits: Bits)

  /** No key twice. */
  predicate Distinct<T(==)>(s: seq<T>) {
    forall i, j :: 0 <= i < j < |s| ==> s[i] != s[j]
  }

  class ShareSet {
    var seen: set<ShareKey>
    var order: seq<ShareKey>

    ghost predicate Valid()
      reads this
    {
      Distinct(order) && |order| <= MAX_SHARE_KEYS && (forall k :: k in seen <==> k in order) && |seen| == |order|
    }

    constructor ()
      ensures Valid() && order == []
    {
      seen, order := {}, [];
    }

    method Contains(key: ShareKey) returns (r: bool)
      requires Valid()
      ensures r <==> key in order
    {
      r := key in seen;
    }

    method EvictOldest()
      requires Valid() && order != []
      modifies this
      ensures Valid() && order == old(order)[1..]
    {
      var oldest := order[0];
      order := order[1..];
      seen := seen - {oldest};
      assert old(order) == [oldest] + order;
    }

    method Append(key: ShareKey)
      requires Valid() && key !in order && |order| < MAX_SHARE_KEYS
      modifies this
      ensures Valid() && order == old(order) + [key]
    {
      order := order + [key];
      seen := seen + {key};
    }

    /** The set holds the last keys inserted: a new key drives out the oldest when it is full. */
    method Insert(key: ShareKey)
      requires Valid()
      modifies this
      ensures Valid()
      ensures order == if key in old(order) then old(order) else LastN(old(order) + [key], MAX_SHARE_KEYS)
    {
      hide Distinct;
      if key in seen {
        return;
      }
      if |seen| >= MAX_SHARE_KEYS {
        EvictOldest();
        assert key !in order;
        assert LastN(old(order) + [key], MAX_SHARE_KEYS) == order + [key];
      }
      Append(key);
    }

    method Clear()
      modifies this
      ensures Valid() && order == []
    {
      seen, order := {}, [];
    }
  }
}
