/**
 * One collection of the document store: documents keyed by their unique
 * external id, together with the collection's natural order, the order in
 * which a query without a sort returns its documents.
 */
module Store {
  import opened Js

  datatype Collection<K, T> = Collection(docs: map<K, T>, order: seq<K>)

  /** A value that passes a `required: true` String check: a non-empty string. */
  predicate Required(v: Value) {
    v.Some? && v.value.JStr? && v.value.s != ""
  }

  function RequiredText(v: Value): string
    requires Required(v)
  {
    v.value.s
  }

  /** No element occurs twice. */
  predicate Distinct<T(==)>(s: seq<T>) {
    forall i, j :: 0 <= i < j < |s| ==> s[i] != s[j]
  }

  /** The natural order lists every stored key exactly once. */
  ghost predicate Valid<K(!new), T>(c: Collection<K, T>) {
    Distinct(c.order) && forall k :: k in c.order <==> k in c.docs
  }

  /** `findOne` by key. */
  function FindOne<K, T>(c: Collection<K, T>, k: K): (r: Option<T>)
    ensures r.Some? <==> k in c.docs
    ensures r.Some? ==> r.value == c.docs[k]
  {
    if k in c.docs then Some(c.docs[k]) else None
  }

  /** `create`: a new document goes to the end of the natural order. */
  function Insert<K(!new), T>(c: Collection<K, T>, k: K, v: T): (r: Collection<K, T>)
    requires k !in c.docs
    ensures Valid(c) ==> Valid(r)
    ensures r.docs.Keys == c.docs.Keys + {k} && r.docs[k] == v
    ensures forall k' :: k' in c.docs ==> r.docs[k'] == c.docs[k']
    ensures r.order == c.order + [k]
  {
    Collection(c.docs[k := v], c.order + [k])
  }

  /** `save` of a document already stored: it keeps its place. */
  function Save<K(!new), T>(c: Collection<K, T>, k: K, v: T): (r: Collection<K, T>)
    requires k in c.docs
    ensures Valid(c) ==> Valid(r)
    ensures r.docs.Keys == c.docs.Keys && r.docs[k] == v && r.order == c.order
    ensures forall k' :: k' in c.docs && k' != k ==> r.docs[k'] == c.docs[k']
  {
    Collection(c.docs[k := v], c.order)
  }

  /** `find()`: every document, in natural order. */
  function All<K(!new), T(!new)>(c: Collection<K, T>): (r: seq<T>)
    requires Valid(c)
    ensures |r| == |c.order|
    ensures forall i :: 0 <= i < |r| ==> r[i] == c.docs[c.order[i]]
    ensures forall k :: k in c.docs ==> c.docs[k] in r
  {
    var r := seq(|c.order|, i requires 0 <= i < |c.order| => c.docs[c.order[i]]);
    assert forall k :: k in c.docs ==> exists i :: 0 <= i < |c.order| && c.order[i] == k;
    r
  }

  /** `find().map(f)`: `f` of every document, in natural order. */
  function MapAll<K(!new), T(!new), U>(c: Collection<K, T>, f: T -> U): (r: seq<U>)
    requires Valid(c)
    ensures |r| == |c.order|
    ensures forall i :: 0 <= i < |r| ==> r[i] == f(c.docs[c.order[i]])
    ensures forall k :: k in c.docs ==> f(c.docs[k]) in r
  {
    var all := All(c);
    var r := seq(|all|, i requires 0 <= i < |all| => f(all[i]));
    assert forall k :: k in c.docs ==> f(c.docs[k]) in r by {
      forall k | k in c.docs ensures f(c.docs[k]) in r {
        var i :| 0 <= i < |all| && all[i] == c.docs[k];
        assert r[i] == f(c.docs[k]);
      }
    }
    r
  }

  /** The keys of `order` that satisfy `p`, in order. */
  function WhereKeys<K(!new)>(order: seq<K>, p: K -> bool): (r: seq<K>)
    ensures forall k :: k in r <==> k in order && p(k)
    ensures Distinct(order) ==> Distinct(r)
  {
    if order == [] then []
    else
      var rest := WhereKeys(order[1..], p);
      assert forall k :: k in order <==> k == order[0] || k in order[1..];
      if p(order[0]) then
        assert Distinct(order) ==> order[0] !in order[1..];
        [order[0]] + rest
      else rest
  }

  /** Filters that agree on the stored keys select the same keys. */
  lemma {:induction false} WhereKeysAgree<K(!new)>(order: seq<K>, p: K -> bool, q: K -> bool)
    requires forall k :: k in order ==> p(k) == q(k)
    ensures WhereKeys(order, p) == WhereKeys(order, q)
  {
    if order != [] {
      WhereKeysAgree(order[1..], p, q);
    }
  }

  /** `find` with a filter on the key: the matching documents, in natural order. */
  function Where<K(!new), T(!new)>(c: Collection<K, T>, p: K -> bool): (r: seq<T>)
    requires Valid(c)
    ensures forall v :: v in r <==> exists k :: k in c.docs && p(k) && c.docs[k] == v
  {
    var ks := WhereKeys(c.order, p);
    var r := seq(|ks|, i requires 0 <= i < |ks| => c.docs[ks[i]]);
    assert forall k :: k in c.docs && p(k) ==> k in ks && c.docs[k] in r by {
      forall k | k in c.docs && p(k) ensures k in ks && c.docs[k] in r {
        var i :| 0 <= i < |ks| && ks[i] == k;
        assert r[i] == c.docs[k];
      }
    }
    r
  }

  /** The matching documents come from distinct keys, so each stored document appears once. */
  lemma WhereOnce<K(!new), T(!new)>(c: Collection<K, T>, p: K -> bool)
    requires Valid(c)
    ensures var ks := WhereKeys(c.order, p);
      && Distinct(ks)
      && |Where(c, p)| == |ks|
      && forall i :: 0 <= i < |ks| ==> ks[i] in c.docs && p(ks[i]) && Where(c, p)[i] == c.docs[ks[i]]
  {
  }
}
