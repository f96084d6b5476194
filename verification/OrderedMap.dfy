// The insertion-ordered map of util/orderedmap: a value-level view, and the heap
// structure (a slice of shared pair cells plus an index that decoding loses) refining it.
module OrderedMaps {

  /** What an ordered map means: its keys in first-insertion order and a finite map. */
  datatype View<K(==), V> = View(keys: seq<K>, vals: map<K, V>) {
    ghost predicate Valid() {
      && NoDuplicates(keys)
      && (forall k :: k in keys ==> k in vals)
      && (forall k :: k in vals ==> k in keys)
    }

    /** Overwriting keeps a key's position, a new key goes last. */
    function Store(k: K, v: V): View<K, V> {
      View(if k in vals then keys else keys + [k], vals[k := v])
    }
  }

  type OMap<K(==), V> = m: View<K, V> | m.Valid() witness View([], map[])

  ghost predicate NoDuplicates<K>(s: seq<K>) {
    forall i, j :: 0 <= i < j < |s| ==> s[i] != s[j]
  }

  function New<K(==), V>(): OMap<K, V> {
    View([], map[])
  }

  function Put<K(==), V>(m: OMap<K, V>, k: K, v: V): (r: OMap<K, V>)
    ensures r.vals == m.vals[k := v]
  {
    m.Store(k, v)
  }

  /** The keys that are in `kept`, in order. */
  ghost function Restricted<K>(keys: seq<K>, kept: set<K>): seq<K> {
    if keys == [] then []
    else Restricted(keys[..|keys| - 1], kept) + if keys[|keys| - 1] in kept then [keys[|keys| - 1]] else []
  }

  lemma RestrictedOn<K>(keys: seq<K>, kept: set<K>, k: K)
    ensures Restricted(keys + [k], kept) == Restricted(keys, kept) + if k in kept then [k] else []
  {
    assert (keys + [k])[..|keys|] == keys;
  }

  lemma {:induction false} RestrictedElsewhere<K>(keys: seq<K>, kept: set<K>, k: K)
    requires k !in keys
    ensures Restricted(keys, kept + {k}) == Restricted(keys, kept)
  {
    if keys != [] {
      RestrictedElsewhere(keys[..|keys| - 1], kept, k);
    }
  }

  datatype Index<K(==), V> = Lost | Allocated(cells: map<K, Pair<K, V>>)

  class Pair<K, V> {
    const key: K
    var value: V
    constructor (key: K, value: V)
      ensures this.key == key && this.value == value
    {
      this.key := key;
      this.value := value;
    }
  }

  ghost predicate DistinctKeys<K, V>(pairs: seq<Pair<K, V>>) {
    forall i, j :: 0 <= i < j < |pairs| ==> pairs[i].key != pairs[j].key
  }

  ghost predicate Indexes<K, V>(cells: map<K, Pair<K, V>>, pairs: seq<Pair<K, V>>) {
    && (forall k :: k in cells ==> cells[k] in pairs && cells[k].key == k)
    && (forall i :: 0 <= i < |pairs| ==> pairs[i].key in cells && cells[pairs[i].key] == pairs[i])
  }

  /** A complete index has as many entries as there are pairs, which is what `rehydrate` tests. */
  lemma {:induction false} IndexSize<K, V>(cells: map<K, Pair<K, V>>, pairs: seq<Pair<K, V>>)
    requires DistinctKeys(pairs) && Indexes(cells, pairs)
    ensures |cells| == |pairs|
  {
    if pairs == [] {
      assert cells == map[];
    } else {
      var n := |pairs| - 1;
      var p, front := pairs[n], pairs[..n];
      var fewer := cells - {p.key};
      assert pairs == front + [p];
      forall k | k in fewer
        ensures fewer[k] in front
      {
        assert cells[k] in pairs && cells[k] != p;
      }
      assert Indexes(fewer, front);
      IndexSize(fewer, front);
      assert cells.Keys == fewer.Keys + {p.key};
    }
  }

  /** Two indexes of the same pairs agree, so a rebuilt index loses nothing. */
  lemma IndexUnique<K, V>(cells: map<K, Pair<K, V>>, cells': map<K, Pair<K, V>>, pairs: seq<Pair<K, V>>)
    requires Indexes(cells, pairs) && Indexes(cells', pairs)
    ensures cells == cells'
  {
    forall k | k in cells
      ensures k in cells' && cells[k] == cells'[k]
    {
      var i :| 0 <= i < |pairs| && pairs[i] == cells[k];
    }
    forall k | k in cells'
      ensures k in cells
    {
      var i :| 0 <= i < |pairs| && pairs[i] == cells'[k];
    }
  }

  /** The meaning of a list of pair cells: store them one after the other. */
  ghost function ViewOf<K, V>(pairs: seq<Pair<K, V>>): (r: OMap<K, V>)
    requires DistinctKeys(pairs)
    reads pairs
    ensures |r.keys| == |pairs|
    ensures forall i :: 0 <= i < |pairs| ==> r.keys[i] == pairs[i].key
    ensures forall i :: 0 <= i < |pairs| ==> pairs[i].key in r.vals && r.vals[pairs[i].key] == pairs[i].value
  {
    if pairs == [] then New() else
      var n := |pairs| - 1;
      var front := ViewOf(pairs[..n]);
      assert forall k :: k in front.vals ==> k in front.keys;
      Put(front, pairs[n].key, pairs[n].value)
  }

  /** A complete index knows exactly the keys and values of the view. */
  lemma IndexedView<K, V>(cells: map<K, Pair<K, V>>, pairs: seq<Pair<K, V>>, k: K)
    requires DistinctKeys(pairs) && Indexes(cells, pairs)
    ensures k in ViewOf(pairs).vals <==> k in cells
    ensures k in cells ==> cells[k] in pairs && ViewOf(pairs).vals[k] == cells[k].value
  {
    var view := ViewOf(pairs);
    if k in view.vals {
      assert k in view.keys;
    }
    if k in cells {
      var i :| 0 <= i < |pairs| && pairs[i] == cells[k];
    }
  }

  lemma IndexedKey<K, V>(cells: map<K, Pair<K, V>>, pairs: seq<Pair<K, V>>, k: K)
    requires Indexes(cells, pairs) && k in cells
    ensures cells[k].key == k && cells[k] in pairs
  {
  }

  lemma AppendedIndex<K, V>(cells: map<K, Pair<K, V>>, front: seq<Pair<K, V>>, p: Pair<K, V>)
    requires DistinctKeys(front) && Indexes(cells, front) && p.key !in cells
    ensures DistinctKeys(front + [p]) && Indexes(cells[p.key := p], front + [p])
  {
  }

  lemma AppendedView<K, V>(cells: map<K, Pair<K, V>>, front: seq<Pair<K, V>>, p: Pair<K, V>)
    requires DistinctKeys(front) && DistinctKeys(front + [p]) && Indexes(cells, front) && p.key !in cells
    ensures ViewOf(front + [p]) == ViewOf(front).Store(p.key, p.value)
  {
    IndexedView(cells, front, p.key);
    hide Indexes, DistinctKeys;
    assert (front + [p])[..|front|] == front;
  }

  method BuildIndex<K(==), V>(pairs: seq<Pair<K, V>>) returns (cells: map<K, Pair<K, V>>)
    requires DistinctKeys(pairs)
    ensures Indexes(cells, pairs)
  {
    cells := map[];
    for i := 0 to |pairs|
      invariant Indexes(cells, pairs[..i])
    {
      assert pairs[..i + 1] == pairs[..i] + [pairs[i]];
      cells := cells[pairs[i].key := pairs[i]];
    }
    assert pairs[..] == pairs;
  }

  class OrderedMap<K(==), V> {
    var pairs: seq<Pair<K, V>>
    var inner: Index<K, V>

    /** The index may be lost or stale, but one of the right size is right. */
    ghost predicate Valid()
      reads this
    {
      && DistinctKeys(pairs)
      && (inner.Allocated? && |inner.cells| == |pairs| ==> Indexes(inner.cells, pairs))
    }

    ghost function Contents(): OMap<K, V>
      requires Valid()
      reads this, pairs
    {
      ViewOf(pairs)
    }

    constructor ()
      ensures Valid() && inner.Allocated? && pairs == [] && Contents() == New()
    {
      pairs := [];
      inner := Allocated(map[]);
    }

    /** Decoding restores the pairs, in order, and not the index. */
    constructor Decoded(decoded: seq<Pair<K, V>>, hasIndex: bool)
      requires DistinctKeys(decoded)
      ensures Valid() && pairs == decoded
      ensures inner == if hasIndex then Allocated(map[]) else Lost
    {
      pairs := decoded;
      inner := if hasIndex then Allocated(map[]) else Lost;
    }

    method Rehydrate()
      requires Valid()
      modifies this`inner
      ensures Valid() && Contents() == old(Contents())
      ensures inner.Lost? <==> old(inner.Lost?) && pairs == []
      ensures inner.Allocated? ==> Indexes(inner.cells, pairs)
    {
      hide Indexes, DistinctKeys;
      var size := if inner.Lost? then 0 else |inner.cells|;
      if size == |pairs| {
        return;
      }
      var cells := BuildIndex(pairs);
      inner := Allocated(cells);
    }

    /** `Load` and `Value`; `zero` is what an absent key reads as. */
    method Load(k: K, zero: V) returns (v: V, found: bool)
      requires Valid()
      modifies this`inner
      ensures Valid() && Contents() == old(Contents())
      ensures found <==> k in Contents().vals
      ensures v == if found then Contents().vals[k] else zero
    {
      Rehydrate();
      if inner.Lost? {
        return zero, false;
      }
      IndexedView(inner.cells, pairs, k);
      if k in inner.cells {
        return inner.cells[k].value, true;
      }
      return zero, false;
    }

    /** Overwrites in place: every holder of the cell sees the new value, and no position changes. */
    method Overwrite(p: Pair<K, V>, v: V)
      requires Valid() && p in pairs
      modifies p
      ensures Valid() && Contents() == old(Contents()).Store(p.key, v)
    {
      hide Indexes;
      ghost var was := ViewOf(pairs);
      p.value := v;
      Overwritten(was, ViewOf(pairs), pairs, p, v);
    }

    method Append(k: K, v: V)
      requires Valid() && inner.Allocated? && Indexes(inner.cells, pairs) && k !in inner.cells
      modifies this
      ensures Valid() && Contents() == old(Contents()).Store(k, v)
      ensures inner.Allocated? && |pairs| > 0 && pairs[..|pairs| - 1] == old(pairs) && fresh(pairs[|pairs| - 1])
    {
      hide Indexes, DistinctKeys, ViewOf;
      var p := new Pair(k, v);
      AppendedIndex(inner.cells, pairs, p);
      AppendedView(inner.cells, pairs, p);
      pairs := pairs + [p];
      inner := Allocated(inner.cells[k := p]);
    }

    /** Writing to an index that was never allocated panics, which needs the pairs to be empty too. */
    method Store(k: K, v: V) returns (panics: bool)
      requires Valid()
      modifies this, pairs
      ensures Valid()
      ensures panics <==> old(inner.Lost? && pairs == [])
      ensures !panics ==> inner.Allocated?
      ensures Contents() == if panics then old(Contents()) else old(Contents()).Store(k, v)
      ensures forall i :: 0 <= i < |pairs| ==> pairs[i] in old(pairs) || fresh(pairs[i])
    {
      hide Indexes, DistinctKeys, ViewOf;
      Rehydrate();
      if inner.Lost? {
        return true;
      }
      if k in inner.cells {
        IndexedKey(inner.cells, pairs, k);
        Overwrite(inner.cells[k], v);
      } else {
        Append(k, v);
      }
      return false;
    }
  }

  /** Writing through a shared cell is a store under that cell's key. */
  lemma Overwritten<K, V>(was: OMap<K, V>, now: OMap<K, V>, pairs: seq<Pair<K, V>>, p: Pair<K, V>, v: V)
    requires p in pairs && |was.keys| == |now.keys| == |pairs|
    requires forall i :: 0 <= i < |pairs| ==> was.keys[i] == now.keys[i] == pairs[i].key
    requires forall i :: 0 <= i < |pairs| ==>
      now.vals[pairs[i].key] == if pairs[i] == p then v else was.vals[pairs[i].key]
    requires DistinctKeys(pairs)
    ensures now == was.Store(p.key, v)
  {
    var stored := was.vals[p.key := v];
    assert was.keys == now.keys;
    forall k
      ensures k in stored <==> k in now.vals
      ensures k in stored ==> now.vals[k] == stored[k]
    {
      if k in was.keys {
        var i :| 0 <= i < |pairs| && was.keys[i] == k;
      }
    }
    assert now.vals == stored;
  }

  /** The first `i` insertions of a map. */
  ghost predicate PrefixOf<K(!new), V(!new)>(out: OMap<K, V>, m: OMap<K, V>, i: nat) {
    && i <= |m.keys| && out.keys == m.keys[..i]
    && forall k :: k in out.vals ==> k in m.vals && out.vals[k] == m.vals[k]
  }

  lemma NothingYet<K(!new), V(!new)>(m: OMap<K, V>)
    ensures PrefixOf(New(), m, 0)
  {
  }

  lemma PrefixGrows<K(!new), V(!new)>(out: OMap<K, V>, m: OMap<K, V>, i: nat)
    requires PrefixOf(out, m, i) && i < |m.keys|
    ensures PrefixOf(out.Store(m.keys[i], m.vals[m.keys[i]]), m, i + 1)
  {
    assert m.keys[..i + 1] == m.keys[..i] + [m.keys[i]];
    assert m.keys[i] !in out.keys;
  }

  lemma PrefixIsAll<K(!new), V(!new)>(out: OMap<K, V>, m: OMap<K, V>)
    requires PrefixOf(out, m, |m.keys|)
    ensures out == m
  {
    assert m.keys[..|m.keys|] == m.keys;
    assert forall k :: k in out.vals <==> k in out.keys;
    assert forall k :: k in m.vals <==> k in m.keys;
    assert out.vals == m.vals;
  }

  /** Copies pair by pair, into new cells: nothing of `m` is shared, so storing into either map later
      leaves the other as it is. */
  method CopyMap<K(==, !new), V(!new)>(m: OrderedMap<K, V>) returns (out: OrderedMap<K, V>)
    requires m.Valid()
    ensures fresh(out) && fresh(out.pairs) && out.inner.Allocated?
    ensures out.Valid() && out.Contents() == m.Contents()
  {
    hide PrefixOf, ListedBy, DistinctKeys, ViewOf, Indexes, OrderedMap.Valid, OrderedMap.Contents;
    ghost var view := m.Contents();
    var todo := m.pairs;
    ContentsList(m);
    out := new OrderedMap();
    NothingYet(view);
    for i := 0 to |todo|
      invariant fresh(out) && out.inner.Allocated? && out.Valid() && fresh(out.pairs)
      invariant ListedBy(todo, view) && |view.keys| == |todo| && PrefixOf(out.Contents(), view, i)
    {
      StoreNext(todo, out, i, view);
    }
    PrefixIsAll(out.Contents(), view);
  }

  ghost predicate ListedBy<K, V>(pairs: seq<Pair<K, V>>, view: OMap<K, V>)
    reads pairs
  {
    && |view.keys| == |pairs|
    && (forall i :: 0 <= i < |pairs| ==> view.keys[i] == pairs[i].key)
    && (forall p :: p in pairs ==> p.key in view.vals && view.vals[p.key] == p.value)
  }

  lemma ContentsList<K, V>(m: OrderedMap<K, V>)
    requires m.Valid()
    ensures ListedBy(m.pairs, m.Contents()) && |m.Contents().keys| == |m.pairs|
  {
  }

  /** A list of cells has one view. */
  lemma ViewIsUnique<K, V>(pairs: seq<Pair<K, V>>, view: OMap<K, V>, view': OMap<K, V>)
    requires ListedBy(pairs, view) && ListedBy(pairs, view')
    ensures view == view'
  {
    assert view.keys == view'.keys;
    forall k
      ensures k in view.vals <==> k in view'.vals
      ensures k in view.vals ==> view.vals[k] == view'.vals[k]
    {
      if k in view.keys {
        var i :| 0 <= i < |view.keys| && view.keys[i] == k;
      }
    }
    assert view.vals == view'.vals;
  }

  method StoreNext<K(==, !new), V(!new)>(todo: seq<Pair<K, V>>, out: OrderedMap<K, V>, i: nat, ghost view: OMap<K, V>)
    requires out.Valid() && out.inner.Allocated? && i < |todo| && ListedBy(todo, view)
    requires PrefixOf(out.Contents(), view, i)
    modifies out, out.pairs
    ensures out.Valid() && out.inner.Allocated? && PrefixOf(out.Contents(), view, i + 1)
    ensures forall j :: 0 <= j < |out.pairs| ==> out.pairs[j] in old(out.pairs) || fresh(out.pairs[j])
  {
    PrefixGrows(out.Contents(), view, i);
    hide PrefixOf, DistinctKeys, ViewOf, Indexes, OrderedMap.Valid, OrderedMap.Contents;
    var _ := out.Store(todo[i].key, todo[i].value);
  }

  /** Encoding and decoding: new cells with the same keys and values in the same order, and no index. The
      decoded map loads and stores like the original. */
  method Transmit<K(==, !new), V(!new)>(m: OrderedMap<K, V>, hasIndex: bool) returns (decoded: OrderedMap<K, V>)
    requires m.Valid()
    ensures fresh(decoded) && fresh(decoded.pairs) && decoded.Valid() && decoded.Contents() == m.Contents()
    ensures decoded.inner == if hasIndex then Allocated(map[]) else Lost
  {
    hide PrefixOf, ListedBy, Indexes, OrderedMap.Valid, OrderedMap.Contents, ViewOf;
    var copy := CopyMap(m);
    DistinctPairs(copy);
    decoded := new OrderedMap.Decoded(copy.pairs, hasIndex);
    ContentsList(copy);
    ContentsList(decoded);
    ViewIsUnique(copy.pairs, copy.Contents(), decoded.Contents());
  }

  lemma DistinctPairs<K, V>(m: OrderedMap<K, V>)
    requires m.Valid()
    ensures DistinctKeys(m.pairs)
  {
  }
}
