/**
 * Ordered shape collections keyed by opaque ids, and the id-directed update that every
 * pointer-move handler applies to one collection: each entry whose id matches is replaced by
 * its updated copy, every other entry is kept as it is, and the order is kept.
 */
module ShapeStore {

  /** The opaque identifier a shape receives when it is created. */
  type ShapeId = string

  /** The ids of a collection, in collection order. */
  function Keys<T>(s: seq<T>, idOf: T -> ShapeId): seq<ShapeId>
  {
    seq(|s|, i requires 0 <= i < |s| => idOf(s[i]))
  }

  /** No id occurs twice. */
  predicate Distinct(ks: seq<ShapeId>)
  {
    forall i, j :: 0 <= i < j < |ks| ==> ks[i] != ks[j]
  }

  /** The collection with `f` applied to every entry whose id is `id`. */
  function UpdateById<T>(s: seq<T>, idOf: T -> ShapeId, id: ShapeId, f: T --> T): (r: seq<T>)
    requires forall i :: 0 <= i < |s| && idOf(s[i]) == id ==> f.requires(s[i])
    ensures |r| == |s|
    ensures forall i :: 0 <= i < |s| && idOf(s[i]) == id ==> r[i] == f(s[i])
    ensures forall i :: 0 <= i < |s| && idOf(s[i]) != id ==> r[i] == s[i]
    decreases |s|
  {
    if s == [] then []
    else [if idOf(s[0]) == id then f(s[0]) else s[0]] + UpdateById(s[1..], idOf, id, f)
  }

  /** An update keyed by an id that no entry carries leaves the collection as it was. */
  lemma UpdateByIdMissing<T>(s: seq<T>, idOf: T -> ShapeId, id: ShapeId, f: T --> T)
    requires forall i :: 0 <= i < |s| ==> idOf(s[i]) != id
    ensures UpdateById(s, idOf, id, f) == s
  {
  }

  /** With distinct ids, the update rewrites exactly the one entry that carries the id. */
  lemma UpdateByIdUnique<T>(s: seq<T>, idOf: T -> ShapeId, id: ShapeId, f: T --> T, k: nat)
    requires Distinct(Keys(s, idOf))
    requires k < |s| && idOf(s[k]) == id && f.requires(s[k])
    ensures forall i :: 0 <= i < |s| && idOf(s[i]) == id ==> i == k
    ensures UpdateById(s, idOf, id, f) == s[k := f(s[k])]
  {
    assert forall i :: 0 <= i < |s| && idOf(s[i]) == id ==> Keys(s, idOf)[i] == Keys(s, idOf)[k];
  }

  /** When the update keeps ids, the ids of the collection are unchanged. */
  lemma UpdateByIdKeepsKeys<T>(s: seq<T>, idOf: T -> ShapeId, id: ShapeId, f: T --> T)
    requires forall i :: 0 <= i < |s| && idOf(s[i]) == id ==> f.requires(s[i]) && idOf(f(s[i])) == id
    ensures Keys(UpdateById(s, idOf, id, f), idOf) == Keys(s, idOf)
  {
  }

  /** Appending an entry appends its id. */
  lemma KeysAppend<T>(s: seq<T>, idOf: T -> ShapeId, x: T)
    ensures Keys(s + [x], idOf) == Keys(s, idOf) + [idOf(x)]
  {
  }

  /** Inserting an id that does not occur yet keeps the ids distinct. */
  lemma DistinctInsert(a: seq<ShapeId>, b: seq<ShapeId>, e: ShapeId)
    requires Distinct(a + b) && e !in a + b
    ensures Distinct(a + [e] + b)
  {
    var c, ab := a + [e] + b, a + b;
    forall i, j | 0 <= i < j < |c|
      ensures c[i] != c[j]
    {
      if i != |a| && j != |a| {
        var i', j' := if i < |a| then i else i - 1, if j < |a| then j else j - 1;
        assert c[i] == ab[i'] && c[j] == ab[j'];
      } else if i == |a| {
        assert c[j] == ab[j - 1];
      } else {
        assert c[i] == ab[i];
      }
    }
  }

  /** Both halves of a distinct sequence are distinct, and they share no id. */
  lemma DistinctSplit(a: seq<ShapeId>, b: seq<ShapeId>)
    requires Distinct(a + b)
    ensures Distinct(a) && Distinct(b)
    ensures forall k :: k in a ==> k !in b
  {
    var ab := a + b;
    forall i, j | 0 <= i < j < |a| ensures a[i] != a[j] {
      assert ab[i] == a[i] && ab[j] == a[j];
    }
    forall i, j | 0 <= i < j < |b| ensures b[i] != b[j] {
      assert ab[|a| + i] == b[i] && ab[|a| + j] == b[j];
    }
    forall k | k in a ensures k !in b {
      var i :| 0 <= i < |a| && a[i] == k;
      assert ab[i] == k;
      forall j | 0 <= j < |b| ensures b[j] != k {
        assert ab[|a| + j] == b[j];
      }
    }
  }
}
