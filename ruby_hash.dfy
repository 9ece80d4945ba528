/** A Ruby Hash as an association list: Ruby hashes remember insertion order, and
    the code being modelled iterates over them and builds query strings from them. */
module RubyHash {
  import opened Wrappers

  /** Hash#[] as a lookup: the value under `k`, if any. */
  function Find<K(==), V>(h: seq<(K, V)>, k: K): (r: Option<V>)
    ensures r.Some? <==> exists i :: 0 <= i < |h| && h[i].0 == k
    decreases |h|
  {
    if h == [] then None else if h[0].0 == k then Some(h[0].1) else Find(h[1..], k)
  }

  /** Hash#key?. */
  predicate HasKey<K(==), V>(h: seq<(K, V)>, k: K) {
    Find(h, k).Some?
  }

  /** What every Ruby Hash satisfies: no key occurs twice. */
  predicate DistinctKeys<K(==), V>(h: seq<(K, V)>) {
    forall i, j :: 0 <= i < j < |h| ==> h[i].0 != h[j].0
  }

  /** Hash#keys, in insertion order. */
  function Keys<K, V>(h: seq<(K, V)>): (ks: seq<K>)
    ensures |ks| == |h| && forall i :: 0 <= i < |h| ==> ks[i] == h[i].0
  {
    seq(|h|, i requires 0 <= i < |h| => h[i].0)
  }

  /** Hash#[]=: an existing key keeps its position and takes the new value, a new key
      is appended at the end. */
  function Assign<K(==,!new), V>(h: seq<(K, V)>, k: K, v: V): (r: seq<(K, V)>)
    ensures forall j :: Find(r, j) == if j == k then Some(v) else Find(h, j)
    ensures HasKey(h, k) ==> Keys(r) == Keys(h)
    ensures !HasKey(h, k) ==> r == h + [(k, v)]
    decreases |h|
  {
    if h == [] then [(k, v)]
    else if h[0].0 == k then [(k, v)] + h[1..]
    else [h[0]] + Assign(h[1..], k, v)
  }

  /** Assignment keeps the keys distinct. */
  lemma AssignDistinct<K(!new), V>(h: seq<(K, V)>, k: K, v: V)
    requires DistinctKeys(h)
    ensures DistinctKeys(Assign(h, k, v))
  {
    var r := Assign(h, k, v);
    if HasKey(h, k) {
      assert Keys(r) == Keys(h);
      forall i, j | 0 <= i < j < |r| ensures r[i].0 != r[j].0 {
        assert Keys(r)[i] == Keys(h)[i] && Keys(r)[j] == Keys(h)[j];
      }
    }
  }

  /** Keys listed alike are distinct alike. */
  lemma SameKeysDistinct<K, V>(a: seq<(K, V)>, b: seq<(K, V)>)
    requires Keys(a) == Keys(b) && DistinctKeys(a)
    ensures DistinctKeys(b)
  {
    forall i, j | 0 <= i < j < |b| ensures b[i].0 != b[j].0 {
      assert Keys(a)[i] == Keys(b)[i] && Keys(a)[j] == Keys(b)[j];
    }
  }

  /** In a hash with distinct keys, the lookup of an entry's key finds that entry. */
  lemma {:induction false} FindEntry<K, V>(h: seq<(K, V)>, i: nat)
    requires DistinctKeys(h) && i < |h|
    ensures Find(h, h[i].0) == Some(h[i].1)
    decreases |h|
  {
    if i > 0 {
      FindEntry(h[1..], i - 1);
    }
  }

  /** Looking up in a hash with one more entry at the end. */
  lemma {:induction false} FindAppend<K, V>(h: seq<(K, V)>, e: (K, V), k: K)
    ensures Find(h + [e], k) == if HasKey(h, k) then Find(h, k) else if e.0 == k then Some(e.1) else None
    decreases |h|
  {
    if h != [] {
      assert (h + [e])[1..] == h[1..] + [e];
      FindAppend(h[1..], e, k);
    }
  }

  /** Two hashes with the same keys in the same order have the same key set. */
  lemma SameKeysSameHasKey<K, V>(a: seq<(K, V)>, b: seq<(K, V)>, k: K)
    requires Keys(a) == Keys(b)
    ensures HasKey(a, k) <==> HasKey(b, k)
  {
    if HasKey(a, k) {
      var i :| 0 <= i < |a| && a[i].0 == k;
      assert Keys(a)[i] == Keys(b)[i];
    }
    if HasKey(b, k) {
      var i :| 0 <= i < |b| && b[i].0 == k;
      assert Keys(a)[i] == Keys(b)[i];
    }
  }

  /** Distinct hashes holding the same entries answer every lookup alike, whatever
      the order of their entries. */
  lemma SameEntriesSameFind<K, V>(a: seq<(K, V)>, b: seq<(K, V)>, k: K)
    requires DistinctKeys(a) && DistinctKeys(b)
    requires forall e :: e in a <==> e in b
    ensures Find(a, k) == Find(b, k)
  {
    if HasKey(a, k) {
      var i :| 0 <= i < |a| && a[i].0 == k;
      assert a[i] in b;
      var j :| 0 <= j < |b| && b[j] == a[i];
      FindEntry(a, i);
      FindEntry(b, j);
    }
    if HasKey(b, k) {
      var j :| 0 <= j < |b| && b[j].0 == k;
      assert b[j] in a;
      var i :| 0 <= i < |a| && a[i] == b[j];
      FindEntry(a, i);
      FindEntry(b, j);
    }
  }

  /** Dropping the last entry of a hash with distinct keys leaves distinct keys, none
      of them the dropped one. */
  lemma DropLast<K, V>(h: seq<(K, V)>)
    requires DistinctKeys(h) && h != []
    ensures DistinctKeys(h[..|h| - 1]) && !HasKey(h[..|h| - 1], h[|h| - 1].0)
  {
    var init := h[..|h| - 1];
    forall i | 0 <= i < |init| ensures init[i].0 != h[|h| - 1].0 {
      assert init[i] == h[i];
    }
  }

  /** A lookup in a hash is a lookup in the hash without its last entry, unless it is
      that entry's key. */
  lemma DropLastFind<K, V>(h: seq<(K, V)>, k: K)
    requires DistinctKeys(h) && h != []
    ensures Find(h, k) == if k == h[|h| - 1].0 then Some(h[|h| - 1].1) else Find(h[..|h| - 1], k)
  {
    DropLast(h);
    assert h == h[..|h| - 1] + [h[|h| - 1]];
    FindAppend(h[..|h| - 1], h[|h| - 1], k);
  }

  /** The keys of a hash are those of the hash without its last entry, and then the
      last key. */
  lemma DropLastKeys<K, V>(h: seq<(K, V)>)
    requires h != []
    ensures Keys(h) == Keys(h[..|h| - 1]) + [h[|h| - 1].0]
  {
    var ks := Keys(h[..|h| - 1]) + [h[|h| - 1].0];
    forall i | 0 <= i < |h| ensures Keys(h)[i] == ks[i] {
      if i < |h| - 1 {
        assert h[..|h| - 1][i] == h[i];
      }
    }
  }
}
