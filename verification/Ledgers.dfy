/** Ledger amounts and finite sums of them over the rows of a table. */
module Ledgers {

  /** Credited work, accepted shares and rejected shares, always recorded together. */
  datatype Amounts = Amounts(work: nat, accepted: nat, rejected: nat)

  const Zero := Amounts(0, 0, 0)

  function Plus(a: Amounts, b: Amounts): Amounts {
    Amounts(a.work + b.work, a.accepted + b.accepted, a.rejected + b.rejected)
  }

  function Get<K>(m: map<K, Amounts>, k: K): Amounts {
    if k in m then m[k] else Zero
  }

  /** The upsert every ledger table uses: insert, or accumulate on conflict. */
  function AddRow<K>(m: map<K, Amounts>, k: K, a: Amounts): map<K, Amounts> {
    m[k := Plus(Get(m, k), a)]
  }

  // ---- sums ----

  ghost function Pick<K>(ks: set<K>): (k: K)
    requires ks != {}
    ensures k in ks
  {
    var k :| k in ks;
    k
  }

  ghost function Sum<K>(m: map<K, Amounts>, ks: set<K>): Amounts
    requires ks <= m.Keys
  {
    if ks == {} then Zero else Plus(m[Pick(ks)], Sum(m, ks - {Pick(ks)}))
  }

  lemma {:induction false} SumRemove<K>(m: map<K, Amounts>, ks: set<K>, k: K)
    requires ks <= m.Keys && k in ks
    ensures Sum(m, ks) == Plus(m[k], Sum(m, ks - {k}))
    decreases ks
  {
    var j := Pick(ks);
    if j != k {
      SumRemove(m, ks - {j}, k);
      SumRemove(m, ks - {k}, j);
      assert ks - {j} - {k} == ks - {k} - {j};
      PlusSwaps(m[j], m[k], Sum(m, ks - {j} - {k}));
    }
  }

  lemma PlusSwaps(a: Amounts, b: Amounts, c: Amounts)
    ensures Plus(a, Plus(b, c)) == Plus(b, Plus(a, c))
    ensures Plus(a, Plus(b, c)) == Plus(Plus(a, b), c) == Plus(Plus(a, c), b)
  {
  }

  lemma PlusComm(a: Amounts, b: Amounts)
    ensures Plus(a, b) == Plus(b, a)
  {
  }

  lemma {:induction false} SumCongruent<K>(m: map<K, Amounts>, n: map<K, Amounts>, ks: set<K>)
    requires ks <= m.Keys && ks <= n.Keys
    requires forall k :: k in ks ==> m[k] == n[k]
    ensures Sum(m, ks) == Sum(n, ks)
    decreases ks
  {
    if ks != {} {
      var k :| k in ks;
      SumRemove(m, ks, k);
      SumRemove(n, ks, k);
      SumCongruent(m, n, ks - {k});
    }
  }

  lemma {:induction false} SumSplit<K>(m: map<K, Amounts>, all: set<K>, part: set<K>)
    requires part <= all <= m.Keys
    ensures Sum(m, all) == Plus(Sum(m, part), Sum(m, all - part))
    decreases part
  {
    if part == {} {
      assert all - part == all;
      PlusZero(Sum(m, all));
    } else {
      var k :| k in part;
      var (all', part', rest) := (all - {k}, part - {k}, all - part);
      assert all' - part' == rest;
      calc {
        Sum(m, all);
      ==  { SumRemove(m, all, k); }
        Plus(m[k], Sum(m, all'));
      ==  { SumSplit(m, all', part'); }
        Plus(m[k], Plus(Sum(m, part'), Sum(m, rest)));
      ==  { PlusSwaps(m[k], Sum(m, part'), Sum(m, rest)); }
        Plus(Plus(m[k], Sum(m, part')), Sum(m, rest));
      ==  { SumRemove(m, part, k); }
        Plus(Sum(m, part), Sum(m, rest));
      }
    }
  }

  lemma PlusZero(a: Amounts)
    ensures Plus(Zero, a) == a == Plus(a, Zero)
  {
  }

  ghost function Where<K(!new)>(m: map<K, Amounts>, p: K -> bool): (ks: set<K>)
    ensures ks <= m.Keys
  {
    set k | k in m && p(k)
  }

  /** Whether a query over the table returns any row at all. */
  ghost predicate Any<K(!new)>(m: map<K, Amounts>, p: K -> bool) {
    exists k :: k in m && p(k)
  }

  lemma NoneSumsToZero<K(!new)>(m: map<K, Amounts>, p: K -> bool)
    requires !Any(m, p)
    ensures Total(m, p) == Zero
  {
    assert Where(m, p) == {};
  }

  ghost function Selected<K(!new)>(ks: set<K>, p: K -> bool): (r: set<K>)
    ensures r <= ks
  {
    set k | k in ks && p(k)
  }

  ghost function Total<K(!new)>(m: map<K, Amounts>, p: K -> bool): Amounts {
    Sum(m, Where(m, p))
  }

  lemma TotalAddRow<K(!new)>(m: map<K, Amounts>, k: K, a: Amounts, p: K -> bool)
    ensures Total(AddRow(m, k, a), p) == if p(k) then Plus(Total(m, p), a) else Total(m, p)
  {
    var n := AddRow(m, k, a);
    var others := Where(m, p) - {k};
    SumCongruent(m, n, others);
    if p(k) {
      assert Where(n, p) - {k} == others;
      SumRemove(n, Where(n, p), k);
      if k in m {
        SumRemove(m, Where(m, p), k);
      } else {
        assert others == Where(m, p);
      }
    } else {
      assert Where(n, p) == Where(m, p) == others;
    }
  }

  lemma TotalRestrict<K(!new)>(m: map<K, Amounts>, gone: set<K>, p: K -> bool)
    requires gone <= m.Keys
    ensures Total(m, p) == Plus(Total(m - gone, p), Sum(m, Selected(gone, p)))
  {
    var (kept, cut) := (m - gone, Selected(gone, p));
    assert Where(m, p) - Where(kept, p) == cut;
    SumSplit(m, Where(m, p), Where(kept, p));
    SumCongruent(m, kept, Where(kept, p));
  }

  lemma TotalDrop<K(!new)>(m: map<K, Amounts>, k: K, p: K -> bool)
    requires k in m
    ensures Total(m, p) == Plus(Total(m - {k}, p), if p(k) then m[k] else Zero)
  {
    hide Total, Plus;
    TotalRestrict(m, {k}, p);
    if p(k) {
      assert Selected({k}, p) == {k};
      SumRemove(m, {k}, k);
      assert {k} - {k} == {};
      PlusZero(m[k]);
    } else {
      assert Selected({k}, p) == {};
    }
  }

  /** An entry replaced by n, with the excess x over it kept elsewhere. */
  lemma TotalReplace<K(!new)>(m: map<K, Amounts>, k: K, a: Amounts, n: Amounts, x: Amounts, p: K -> bool)
    requires Plus(n, x) == Plus(Get(m, k), a)
    ensures Plus(Total(m[k := n], p), if p(k) then x else Zero) == Plus(Total(m, p), if p(k) then a else Zero)
  {
    hide Total, Plus;
    assert AddRow(m[k := n], k, x) == AddRow(m, k, a);
    TotalAddRow(m[k := n], k, x, p);
    TotalAddRow(m, k, a, p);
    PlusZero(Total(m[k := n], p));
    PlusZero(Total(m, p));
  }

  /** A sum over keys selected by another, equivalent test. */
  lemma TotalSame<K(!new)>(m: map<K, Amounts>, p: K -> bool, q: K -> bool)
    requires forall k :: k in m ==> p(k) == q(k)
    ensures Total(m, p) == Total(m, q)
  {
    assert Where(m, p) == Where(m, q);
  }
}
