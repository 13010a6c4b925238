/** Python's `dict`, which remembers the order in which keys were first inserted.
    The pipeline depends on that order: it decides the order in which graph nodes
    are registered, and so which node a call resolves to. */
module OrderedDict {

  /** Values by key, plus the keys in first-insertion order. */
  datatype ODict<K, V> = ODict(keys: seq<K>, vals: map<K, V>)

  predicate Distinct<T(==)>(s: seq<T>)
  {
    forall i, j :: 0 <= i < j < |s| ==> s[i] != s[j]
  }

  /** The key order lists every key of the map exactly once. */
  ghost predicate Valid<K, V>(d: ODict<K, V>)
  {
    && Distinct(d.keys)
    && (forall k :: k in d.keys ==> k in d.vals)
    && (forall k :: k in d.vals ==> k in d.keys)
  }

  function Empty<K, V>(): (d: ODict<K, V>)
    ensures Valid(d) && d.vals == map[] && d.keys == []
  {
    ODict([], map[])
  }

  /** `d[k] = v`: an existing key keeps its position and gets the new value;
      a new key goes last. */
  function Put<K, V>(d: ODict<K, V>, k: K, v: V): (r: ODict<K, V>)
    ensures Valid(d) ==> Valid(r)
    ensures r.vals == d.vals[k := v]
    ensures k in d.vals ==> r.keys == d.keys
    ensures k !in d.vals ==> r.keys == d.keys + [k]
  {
    if k in d.vals then ODict(d.keys, d.vals[k := v]) else ODict(d.keys + [k], d.vals[k := v])
  }

  /** The keys of `ks`, in order, that are not in `seen`. */
  function NewKeys<K>(ks: seq<K>, seen: set<K>): seq<K>
  {
    if ks == [] then []
    else if ks[|ks| - 1] in seen then NewKeys(ks[..|ks| - 1], seen)
    else NewKeys(ks[..|ks| - 1], seen) + [ks[|ks| - 1]]
  }

  /** Storing the entries of `vals` for the keys `ks`, one after another. */
  function PutAll<K, V>(d: ODict<K, V>, ks: seq<K>, vals: map<K, V>): (r: ODict<K, V>)
    requires forall k :: k in ks ==> k in vals
    requires Valid(d) && Distinct(ks)
    ensures Valid(r)
    ensures r.vals.Keys == d.vals.Keys + set k | k in ks
    ensures forall k :: k in r.vals ==> r.vals[k] == if k in ks then vals[k] else d.vals[k]
    ensures r.keys == d.keys + NewKeys(ks, d.vals.Keys)
  {
    if ks == [] then d
    else
      var k := ks[|ks| - 1];
      var init := ks[..|ks| - 1];
      var prev := PutAll(d, init, vals);
      assert k !in init;
      assert k in prev.vals <==> k in d.vals;
      Put(prev, k, vals[k])
  }

  /** `d.update(e)`: the entries of `e` in `e`'s order; a key already in `d`
      keeps its place and takes `e`'s value, a new key is appended. */
  function Update<K, V>(d: ODict<K, V>, e: ODict<K, V>): (r: ODict<K, V>)
    requires Valid(d) && Valid(e)
    ensures Valid(r)
    ensures r.vals == d.vals + e.vals
    ensures r.keys == d.keys + NewKeys(e.keys, d.vals.Keys)
  {
    var r := PutAll(d, e.keys, e.vals);
    assert (set k | k in e.keys) == e.vals.Keys;
    assert r.vals.Keys == (d.vals + e.vals).Keys;
    r
  }

  /** The keys the pairs of `ps` assign. */
  function KeySet<K, V>(ps: seq<(K, V)>): set<K>
  {
    set i | 0 <= i < |ps| :: ps[i].0
  }

  /** The keys of `ps` in order of first occurrence, leaving out those in `seen`. */
  function FirstKeys<K, V>(ps: seq<(K, V)>, seen: set<K>): seq<K>
  {
    if ps == [] then []
    else
      var init := ps[..|ps| - 1];
      var k := ps[|ps| - 1].0;
      if k in seen || k in KeySet(init) then FirstKeys(init, seen) else FirstKeys(init, seen) + [k]
  }

  /** `for k, v in ps: d[k] = v`: every assigned key is present afterwards, and
      the keys not present before are appended in order of first assignment. */
  function PutSeq<K, V>(d: ODict<K, V>, ps: seq<(K, V)>): (r: ODict<K, V>)
    ensures Valid(d) ==> Valid(r)
    ensures r.vals.Keys == d.vals.Keys + KeySet(ps)
    ensures r.keys == d.keys + FirstKeys(ps, d.vals.Keys)
  {
    if ps == [] then d
    else
      var init := ps[..|ps| - 1];
      var prev := PutSeq(d, init);
      assert KeySet(ps) == KeySet(init) + {ps[|ps| - 1].0} by {
        assert ps == init + [ps[|ps| - 1]];
      }
      Put(prev, ps[|ps| - 1].0, ps[|ps| - 1].1)
  }

  /** The last assignment to a key decides its value. */
  lemma {:induction false} PutSeqLastWins<K, V>(d: ODict<K, V>, ps: seq<(K, V)>, j: nat)
    requires j < |ps|
    requires forall i :: j < i < |ps| ==> ps[i].0 != ps[j].0
    ensures ps[j].0 in PutSeq(d, ps).vals && PutSeq(d, ps).vals[ps[j].0] == ps[j].1
  {
    if j < |ps| - 1 {
      PutSeqLastWins(d, ps[..|ps| - 1], j);
    }
  }

  /** A key that no pair assigns keeps its value. */
  lemma {:induction false} PutSeqKeepsOthers<K, V>(d: ODict<K, V>, ps: seq<(K, V)>, k: K)
    requires k in d.vals && k !in KeySet(ps)
    ensures PutSeq(d, ps).vals[k] == d.vals[k]
  {
    if ps != [] {
      var init := ps[..|ps| - 1];
      assert KeySet(init) <= KeySet(ps);
      PutSeqKeepsOthers(d, init, k);
    }
  }

  /** Assigning two lists of pairs is assigning their concatenation. */
  lemma {:induction false} PutSeqAppend<K, V>(d: ODict<K, V>, a: seq<(K, V)>, b: seq<(K, V)>)
    ensures PutSeq(d, a + b) == PutSeq(PutSeq(d, a), b)
    decreases |b|
  {
    if b == [] {
      assert a + b == a;
    } else {
      var binit := b[..|b| - 1];
      assert (a + b)[..|a + b| - 1] == a + binit;
      PutSeqAppend(d, a, binit);
    }
  }

  /** The values after the assignments: the old map overridden by what the
      pairs assign to an empty dictionary. */
  lemma {:induction false} PutSeqVals<K, V>(d: ODict<K, V>, ps: seq<(K, V)>)
    ensures PutSeq(d, ps).vals == d.vals + PutSeq(Empty(), ps).vals
  {
    if ps != [] {
      var init := ps[..|ps| - 1];
      var (k, v) := ps[|ps| - 1];
      var e: ODict<K, V> := PutSeq(Empty(), init);
      PutSeqVals(d, init);
      assert PutSeq(d, ps).vals == PutSeq(d, init).vals[k := v];
      assert PutSeq(Empty(), ps).vals == e.vals[k := v];
      OverrideThenSet(d.vals, e.vals, k, v);
    }
  }

  /** Setting a key after a merge is merging with the key already set. */
  lemma OverrideThenSet<K, V>(a: map<K, V>, b: map<K, V>, k: K, v: V)
    ensures (a + b)[k := v] == a + b[k := v]
  {
    var l := (a + b)[k := v];
    var r := a + b[k := v];
    assert l.Keys == r.Keys;
    forall x | x in l
      ensures l[x] == r[x]
    {
    }
  }

  /** Filtering the first-occurrence keys by `seen` afterwards is the same as
      leaving out `seen` while collecting them. */
  lemma {:induction false} NewKeysOfFirstKeys<K, V>(ps: seq<(K, V)>, seen: set<K>)
    ensures NewKeys(FirstKeys(ps, {}), seen) == FirstKeys(ps, seen)
  {
    if ps != [] {
      var init := ps[..|ps| - 1];
      var k := ps[|ps| - 1].0;
      NewKeysOfFirstKeys(init, seen);
      var f := FirstKeys(init, {});
      if k !in KeySet(init) {
        assert (f + [k])[..|f + [k]| - 1] == f;
      }
    }
  }

  /** Merging a dictionary built by assignments (`d.update(e)`) is making the
      same assignments on `d` directly. */
  lemma UpdateOfPutSeq<K, V>(d: ODict<K, V>, ps: seq<(K, V)>)
    requires Valid(d)
    ensures Update(d, PutSeq(Empty(), ps)) == PutSeq(d, ps)
  {
    var em: ODict<K, V> := Empty();
    var e := PutSeq(em, ps);
    assert em.vals.Keys == {};
    assert e.keys == em.keys + FirstKeys(ps, em.vals.Keys);
    var u := Update(d, e);
    var r := PutSeq(d, ps);
    PutSeqVals(d, ps);
    assert u.vals == r.vals;
    NewKeysOfFirstKeys(ps, d.vals.Keys);
    assert e.keys == FirstKeys(ps, {});
    assert u.keys == r.keys;
  }
}
