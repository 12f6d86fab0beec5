/** Small shared vocabulary: optional values and string-keyed tables. */
module Prelude {
  datatype Option<+T> = None | Some(value: T)

  /** A Go slice or map that may be nil; nil and empty are different values. */
  type Nilable<+T> = Option<T>

  /** What a Go `range` over a possibly nil slice visits. */
  function Elems<T>(s: Nilable<seq<T>>): (r: seq<T>) {
    if s.Some? then s.value else []
  }

  /** Reads a table the way a client Get does: NotFound is None. */
  function Lookup<K(==), V>(m: map<K, V>, k: K): Option<V> {
    if k in m then Some(m[k]) else None
  }

  /** Writes (or, for None, deletes) one entry of a table. */
  function Assign<K(==,!new), V>(m: map<K, V>, k: K, o: Option<V>): (r: map<K, V>)
    ensures forall x {:trigger Lookup(r, x)} :: Lookup(r, x) == if x == k then o else Lookup(m, x)
  {
    match o
    case Some(v) => m[k := v]
    case None => m - {k}
  }

  /** Tables are equal when every lookup agrees. */
  lemma SameTable<K(!new), V>(m: map<K, V>, n: map<K, V>)
    requires forall k {:trigger k in m} {:trigger k in n} :: Lookup(m, k) == Lookup(n, k)
    ensures m == n
  {
    forall k ensures k in m <==> k in n {
      assert Lookup(m, k) == Lookup(n, k);
    }
    forall k | k in m ensures m[k] == n[k] {
      assert Lookup(m, k) == Lookup(n, k);
    }
  }

  /** Writing back what is there changes nothing. */
  lemma AssignLookup<K(!new), V>(m: map<K, V>, k: K)
    ensures Assign(m, k, Lookup(m, k)) == m
  {
    SameTable(Assign(m, k, Lookup(m, k)), m);
  }

  lemma AssignAssign<K(!new), V>(m: map<K, V>, k: K, o: Option<V>, p: Option<V>)
    ensures Assign(Assign(m, k, o), k, p) == Assign(m, k, p)
  {
    SameTable(Assign(Assign(m, k, o), k, p), Assign(m, k, p));
  }

  lemma AssignCommutes<K(!new), V>(m: map<K, V>, k: K, o: Option<V>, l: K, p: Option<V>)
    requires k != l
    ensures Assign(Assign(m, k, o), l, p) == Assign(Assign(m, l, p), k, o)
  {
    SameTable(Assign(Assign(m, k, o), l, p), Assign(Assign(m, l, p), k, o));
  }

  /** Writes a list of entries, first to last. */
  function AssignAll<K(==,!new), V>(m: map<K, V>, ks: seq<K>, os: seq<Option<V>>): (r: map<K, V>)
    requires |ks| == |os|
    ensures forall x {:trigger Lookup(r, x)} :: x !in ks ==> Lookup(r, x) == Lookup(m, x)
    decreases |ks|
  {
    if ks == [] then m else AssignAll(Assign(m, ks[0], os[0]), ks[1..], os[1..])
  }

  lemma {:induction false} AssignAllAt<K(!new), V>(m: map<K, V>, ks: seq<K>, os: seq<Option<V>>, i: nat)
    requires |ks| == |os| && i < |ks|
    requires forall j, k :: 0 <= j < k < |ks| ==> ks[j] != ks[k]
    ensures Lookup(AssignAll(m, ks, os), ks[i]) == os[i]
    decreases |ks|
  {
    if i > 0 { AssignAllAt(Assign(m, ks[0], os[0]), ks[1..], os[1..], i - 1); }
  }

  lemma {:induction false} AssignAllLast<K(!new), V>(m: map<K, V>, n: map<K, V>, ks: seq<K>, os: seq<Option<V>>)
    requires |ks| == |os|
    requires forall x :: x !in ks ==> Lookup(m, x) == Lookup(n, x)
    ensures AssignAll(m, ks, os) == AssignAll(n, ks, os)
    decreases |ks|
  {
    if ks == [] {
      SameTable(m, n);
    } else {
      var m', n' := Assign(m, ks[0], os[0]), Assign(n, ks[0], os[0]);
      forall x | x !in ks[1..] ensures Lookup(m', x) == Lookup(n', x) {
        if x != ks[0] { assert x !in ks; }
      }
      AssignAllLast(m', n', ks[1..], os[1..]);
    }
  }

  lemma {:induction false} AssignPastAll<K(!new), V>(m: map<K, V>, k: K, o: Option<V>, ks: seq<K>, os: seq<Option<V>>)
    requires |ks| == |os| && k !in ks
    ensures AssignAll(Assign(m, k, o), ks, os) == Assign(AssignAll(m, ks, os), k, o)
    decreases |ks|
  {
    if ks != [] {
      assert ks[0] in ks;
      AssignCommutes(m, k, o, ks[0], os[0]);
      AssignPastAll(Assign(m, ks[0], os[0]), k, o, ks[1..], os[1..]);
    }
  }

  lemma {:induction false} AssignAllCommutes<K(!new), V>(m: map<K, V>, ks: seq<K>, os: seq<Option<V>>,
                                                          ls: seq<K>, ps: seq<Option<V>>)
    requires |ks| == |os| && |ls| == |ps|
    requires forall x :: x in ks ==> x !in ls
    ensures AssignAll(AssignAll(m, ks, os), ls, ps) == AssignAll(AssignAll(m, ls, ps), ks, os)
    decreases |ks|
  {
    if ks != [] {
      assert ks[0] in ks;
      forall x | x in ks[1..] ensures x !in ls { assert x in ks; }
      AssignAllCommutes(Assign(m, ks[0], os[0]), ks[1..], os[1..], ls, ps);
      AssignPastAll(m, ks[0], os[0], ls, ps);
    }
  }

  lemma {:induction false} AssignAllSame<K(!new), V>(m: map<K, V>, ks: seq<K>, os: seq<Option<V>>)
    requires |ks| == |os| && forall i :: 0 <= i < |ks| ==> os[i] == Lookup(m, ks[i])
    ensures AssignAll(m, ks, os) == m
    decreases |ks|
  {
    if ks != [] {
      AssignLookup(m, ks[0]);
      forall i | 0 <= i < |ks[1..]| ensures os[1..][i] == Lookup(m, ks[1..][i]) { assert ks[1..][i] == ks[i + 1]; }
      AssignAllSame(m, ks[1..], os[1..]);
    }
  }
}
