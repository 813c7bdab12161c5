/**
 * The keyed store shared by both examples of the playground: a dictionary from
 * a closed key enum to an array of items, read and written through a subscript
 * whose value is optional.
 *
 * The functions in this module describe the dictionary as a value; the class
 * `Store` is the object whose `data` field the subscript setter and the
 * optional-chained `remove(at:)` update in place.
 */
module KeyedStore {
  import opened Wrappers

  /** Dictionary subscript read: the stored array, or `nil` when the key is absent. */
  function Lookup<K(==,!new), V>(m: map<K, seq<V>>, k: K): Option<seq<V>>
  {
    if k in m then Some(m[k]) else None
  }

  /**
   * Dictionary subscript write `m[k] = newValue`: a present value replaces the
   * whole array under `k`, `nil` removes the key. No other key is touched.
   */
  function Assign<K(==,!new), V>(m: map<K, seq<V>>, k: K, newValue: Option<seq<V>>): (r: map<K, seq<V>>)
    ensures Lookup(r, k) == newValue
    ensures forall k' :: k' != k ==> Lookup(r, k') == Lookup(m, k')
    ensures r.Keys == if newValue.Some? then m.Keys + {k} else m.Keys - {k}
  {
    match newValue
    case Some(v) => m[k := v]
    case None => m - {k}
  }

  /**
   * `Array.remove(at: i)`: drops element `i` and keeps the others in their
   * order. An index outside the array is a trap, hence a precondition.
   */
  function RemoveAtSeq<V>(s: seq<V>, i: nat): (r: seq<V>)
    requires i < |s|
    ensures |r| == |s| - 1
    ensures forall j :: 0 <= j < i ==> r[j] == s[j]
    ensures forall j :: i <= j < |r| ==> r[j] == s[j + 1]
  {
    s[..i] + s[i + 1..]
  }

  /** The dropped element and what is left together are exactly the old array. */
  lemma RemoveAtSeqMultiset<V>(s: seq<V>, i: nat)
    requires i < |s|
    ensures multiset(RemoveAtSeq(s, i)) + multiset{s[i]} == multiset(s)
  {
    assert s == s[..i] + [s[i]] + s[i + 1..];
  }

  /** Putting the dropped element back at `i` restores the old array. */
  lemma RemoveAtSeqReinsert<V>(s: seq<V>, i: nat)
    requires i < |s|
    ensures RemoveAtSeq(s, i)[..i] + [s[i]] + RemoveAtSeq(s, i)[i..] == s
  {
  }

  /** The caller may remove at `i` under `k`: either the chain stops at `nil`, or `i` is in range. */
  predicate CanRemoveAt<K(==,!new), V>(m: map<K, seq<V>>, k: K, i: nat)
  {
    k in m ==> i < |m[k]|
  }

  /**
   * `m[k]?.remove(at: i)`: when `k` is absent the optional chain stops and the
   * dictionary is unchanged; otherwise the array under `k` loses element `i`.
   */
  function RemoveAtKey<K(==,!new), V>(m: map<K, seq<V>>, k: K, i: nat): (r: map<K, seq<V>>)
    requires CanRemoveAt(m, k, i)
    ensures k !in m ==> r == m
    ensures k in m ==> Lookup(r, k) == Some(RemoveAtSeq(m[k], i))
    ensures forall k' :: k' != k ==> Lookup(r, k') == Lookup(m, k')
    ensures r.Keys == m.Keys
  {
    if k in m then Assign(m, k, Some(RemoveAtSeq(m[k], i))) else m
  }

  /** One statement of a script on a store: a subscript assignment or an optional-chained removal. */
  datatype Step<K, V> =
    | Write(key: K, newValue: Option<seq<V>>)
    | Remove(key: K, index: nat)

  /** A step does not trap on `m`. */
  predicate Applicable<K(==,!new), V>(m: map<K, seq<V>>, step: Step<K, V>)
  {
    step.Remove? ==> CanRemoveAt(m, step.key, step.index)
  }

  /** The dictionary after one step; only the step's own key can change. */
  function Apply<K(==,!new), V>(m: map<K, seq<V>>, step: Step<K, V>): (r: map<K, seq<V>>)
    requires Applicable(m, step)
    ensures forall k :: k != step.key ==> Lookup(r, k) == Lookup(m, k)
    ensures step.Write? ==> Lookup(r, step.key) == step.newValue
  {
    match step
    case Write(k, v) => Assign(m, k, v)
    case Remove(k, i) => RemoveAtKey(m, k, i)
  }

  /** No step of the script traps. */
  predicate CanRun<K(==,!new), V>(m: map<K, seq<V>>, steps: seq<Step<K, V>>)
    decreases |steps|
  {
    steps == [] || (Applicable(m, steps[0]) && CanRun(Apply(m, steps[0]), steps[1..]))
  }

  /** The dictionary after running the script top to bottom. */
  function Run<K(==,!new), V>(m: map<K, seq<V>>, steps: seq<Step<K, V>>): map<K, seq<V>>
    requires CanRun(m, steps)
    decreases |steps|
  {
    if steps == [] then m else Run(Apply(m, steps[0]), steps[1..])
  }

  /** `k` is not the key of any step of the script. */
  predicate Untouched<K(==,!new), V>(steps: seq<Step<K, V>>, k: K)
  {
    forall j :: 0 <= j < |steps| ==> steps[j].key != k
  }

  /** A script changes nothing under a key none of its steps names. */
  lemma {:induction false} RunFrame<K(!new), V>(m: map<K, seq<V>>, steps: seq<Step<K, V>>, k: K)
    requires CanRun(m, steps)
    requires Untouched(steps, k)
    ensures Lookup(Run(m, steps), k) == Lookup(m, k)
    decreases |steps|
  {
    if steps != [] {
      assert steps[0].key != k;
      RunFrame(Apply(m, steps[0]), steps[1..], k);
    }
  }

  /** The store starts empty, so a key no step names still reads `nil` after the script. */
  lemma NeverAssignedReadsNil<K(!new), V>(steps: seq<Step<K, V>>, k: K)
    requires CanRun(map[], steps)
    requires Untouched(steps, k)
    ensures Lookup(Run(map[], steps), k) == None
  {
    RunFrame(map[], steps, k);
  }

  /**
   * A store object: the `data` dictionary and its subscript. Both store classes
   * of the playground are this class at different key and item types.
   */
  class Store<K(==,!new), V> {
    var data: map<K, seq<V>>

    /** `data` starts as an empty dictionary. */
    constructor ()
      ensures data == map[]
    {
      data := map[];
    }

    /** Subscript getter: the array stored under `key`, or `nil`. */
    method Get(key: K) returns (r: Option<seq<V>>)
      ensures r.Some? <==> key in data
      ensures r.Some? ==> r.value == data[key]
    {
      r := Lookup(data, key);
    }

    /** Subscript setter: `data[key] = newValue`, where `nil` removes the key. */
    method Set(key: K, newValue: Option<seq<V>>)
      modifies this
      ensures data == Assign(old(data), key, newValue)
    {
      data := Assign(data, key, newValue);
    }

    /**
     * `self[key]?.remove(at: index)`: the getter yields the array; on `nil` the
     * chain stops, otherwise the element is removed from a copy that the setter
     * stores back. `removed` is the value of the chain expression.
     */
    method RemoveAt(key: K, index: nat) returns (removed: Option<V>)
      requires CanRemoveAt(data, key, index)
      modifies this
      ensures data == RemoveAtKey(old(data), key, index)
      ensures removed == if key in old(data) then Some(old(data)[key][index]) else None
    {
      var current := Get(key);
      match current
      case None =>
        removed := None;
      case Some(items) =>
        removed := Some(items[index]);
        Set(key, Some(RemoveAtSeq(items, index)));
    }
  }
}
