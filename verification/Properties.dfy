/** The published property table shared by the Qt providers (src/util/ns.cpp).

    A namespace owns properties, in creation order, and a map from source names to
    setters. A setter writes one property, so it is modelled by that property's
    position. Bridges and lemmas use the `View`: the value behind each source name. */
module Properties {
  import opened Values

  /** Writing one property: a name without a setter changes nothing. */
  function Put<K, V>(view: map<K, V>, name: K, value: V): map<K, V> {
    if name in view then view[name := value] else view
  }

  /** Writing a whole map at once. */
  function PutAll<K, V>(view: map<K, V>, src: map<K, V>): map<K, V> {
    map k | k in view :: if k in src then src[k] else view[k]
  }

  /** Writing a list of pairs from left to right. */
  function PutEach<K, V>(view: map<K, V>, src: seq<(K, V)>): map<K, V> {
    if src == [] then view else PutEach(Put(view, src[0].0, src[0].1), src[1..])
  }

  /** A list of defaults; an entry may hold a null value. */
  type Defaults<K, V> = seq<(K, Option<V>)>

  function PutDefaults<K, V>(view: map<K, V>, src: Defaults<K, V>): map<K, V> {
    if src == [] then view
    else
      var next := if src[0].1.None? then view else Put(view, src[0].0, src[0].1.value);
      PutDefaults(next, src[1..])
  }

  /** The value that the last non-null entry for `k` gives, if there is one. */
  function LastFor<K(==), V>(src: Defaults<K, V>, k: K): Option<V> {
    if src == [] then None
    else
      var later := LastFor(src[1..], k);
      if later.Some? then later else if src[0].0 == k then src[0].1 else None
  }

  /** `order` lists every key of `src` exactly once. */
  ghost predicate Enumerates<K, V>(order: seq<K>, src: map<K, V>) {
    && (forall i | 0 <= i < |order| :: order[i] in src)
    && (forall k | k in src :: k in order)
    && (forall i, j | 0 <= i < j < |order| :: order[i] != order[j])
  }

  function Entries<K, V>(order: seq<K>, src: map<K, V>): seq<(K, V)>
    requires forall i | 0 <= i < |order| :: order[i] in src
  {
    seq(|order|, i requires 0 <= i < |order| => (order[i], src[order[i]]))
  }

  /** Writing a map is the same as updating its entries one by one, in any order. */
  lemma {:induction false} MapIsAnyFold<K, V>(view: map<K, V>, src: map<K, V>, order: seq<K>)
    requires Enumerates(order, src)
    ensures PutEach(view, Entries(order, src)) == PutAll(view, src)
    decreases |order|
  {
    if order == [] {
      assert src == map[];
    } else {
      var k, rest := order[0], src - {order[0]};
      assert Enumerates(order[1..], rest) by {
        forall j | j in rest ensures j in order[1..] {
          assert j in order;
        }
      }
      assert Entries(order, src)[1..] == Entries(order[1..], rest);
      MapIsAnyFold(Put(view, k, src[k]), rest, order[1..]);
    }
  }

  lemma DefaultStep<K, V>(view: map<K, V>, src: Defaults<K, V>, i: nat)
    requires i < |src|
    ensures PutDefaults(view, src[i..]) ==
      PutDefaults(if src[i].1.None? then view else Put(view, src[i].0, src[i].1.value), src[i + 1..])
  {
    assert src[i..][1..] == src[i + 1..];
  }

  /** In a default list the last non-null value of a name wins, null values are
      skipped, and names without a setter are ignored. */
  lemma {:induction false} LastDefaultWins<K, V>(view: map<K, V>, src: Defaults<K, V>)
    ensures PutDefaults(view, src).Keys == view.Keys
    ensures forall k | k in view ::
      PutDefaults(view, src)[k] == match LastFor(src, k) { case Some(v) => v case None => view[k] }
    decreases |src|
  {
    if src != [] {
      var next := if src[0].1.None? then view else Put(view, src[0].0, src[0].1.value);
      LastDefaultWins(next, src[1..]);
    }
  }

  class Namespace<K(==), V> {
    var names: seq<K>
    var values: seq<V>
    var setters: map<K, nat>

    ghost predicate Valid()
      reads this
    {
      && |names| == |values|
      && (forall k | k in setters :: setters[k] < |values|)
      && (forall j, k | j in setters && k in setters && setters[j] == setters[k] :: j == k)
    }

    ghost function View(): map<K, V>
      reads this
      requires Valid()
    {
      map k | k in setters :: values[setters[k]]
    }

    constructor ()
      ensures Valid() && View() == map[]
    {
      names, values, setters := [], [], map[];
    }

    /** Creates a property and makes `source` its (only) setter name. */
    method AddProperty(name: K, value: V, source: K)
      requires Valid()
      modifies this
      ensures Valid() && View() == old(View())[source := value]
      ensures names == old(names) + [name]
    {
      names, values := names + [name], values + [value];
      setters := setters[source := |values| - 1];
    }

    method UpdateProperty(name: K, value: V)
      requires Valid()
      modifies this`values
      ensures Valid() && View() == Put(old(View()), name, value)
    {
      if name in setters {
        values := values[setters[name] := value];
      }
    }

    /** Walks the setters, in any order, and looks each name up in the source. */
    method SetProperties(src: map<K, V>)
      requires Valid()
      modifies this`values
      ensures Valid() && View() == PutAll(old(View()), src)
    {
      var rest := setters.Keys;
      while rest != {}
        invariant Valid() && rest <= setters.Keys && |values| == |old(values)|
        invariant forall k | k in setters ::
          View()[k] == if k in src && k !in rest then src[k] else old(View())[k]
      {
        var name :| name in rest;
        if name in src {
          UpdateProperty(name, src[name]);
        }
        rest := rest - {name};
      }
    }

    /** Walks the list and looks each name up among the setters. */
    method SetDefaults(src: Defaults<K, V>)
      requires Valid()
      modifies this`values
      ensures Valid() && View() == PutDefaults(old(View()), src)
    {
      var i := 0;
      while i < |src|
        invariant Valid() && 0 <= i <= |src|
        invariant PutDefaults(View(), src[i..]) == PutDefaults(old(View()), src)
      {
        DefaultStep(View(), src, i);
        if src[i].1.Some? {
          UpdateProperty(src[i].0, src[i].1.value);
        }
        i := i + 1;
      }
    }
  }
}
