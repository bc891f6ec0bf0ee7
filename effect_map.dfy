/**
 * The plugin's `Map<RaffleEffectId, Integer>` values. The code builds them as
 * `LinkedHashMap`s, whose iteration order is insertion order, so a map is
 * an association list with distinct keys: `Put` on a present key keeps its
 * position and replaces the level, `Put` on a new key appends it.
 */
module EffectMaps {
  import opened Wrappers
  import opened RaffleEffectIds

  type EffectMap = seq<(EffectId, int)>

  predicate DistinctKeys(m: EffectMap) {
    forall i, j :: 0 <= i < j < |m| ==> m[i].0 != m[j].0
  }

  /** `keySet()`. */
  function Keys(m: EffectMap): (ks: set<EffectId>)
    ensures forall i :: 0 <= i < |m| ==> m[i].0 in ks
  {
    if m == [] then {} else {m[0].0} + Keys(m[1..])
  }

  /** `get`: the level stored for `id`, None when absent. */
  function Get(m: EffectMap, id: EffectId): (r: Option<int>)
    ensures r.None? <==> id !in Keys(m)
    ensures r.Some? ==> exists i :: 0 <= i < |m| && m[i] == (id, r.value)
  {
    if m == [] then None
    else if m[0].0 == id then Some(m[0].1)
    else Get(m[1..], id)
  }

  lemma {:induction false} GetAt(m: EffectMap, i: int)
    requires DistinctKeys(m) && 0 <= i < |m|
    ensures Get(m, m[i].0) == Some(m[i].1)
  {
    if i > 0 {
      assert m[0].0 != m[i].0;
      GetAt(m[1..], i - 1);
    }
  }

  /** `put`: replaces in place when present, appends otherwise. */
  function Put(m: EffectMap, id: EffectId, v: int): (r: EffectMap)
    ensures Get(r, id) == Some(v)
    ensures forall k :: k != id ==> Get(r, k) == Get(m, k)
    ensures Keys(r) == Keys(m) + {id}
  {
    if m == [] then [(id, v)]
    else if m[0].0 == id then ([(id, v)] + m[1..])
    else [m[0]] + Put(m[1..], id, v)
  }

  /** A new key goes to the end; a present key keeps its position. */
  lemma {:induction false} PutShape(m: EffectMap, id: EffectId, v: int)
    ensures id !in Keys(m) ==> Put(m, id, v) == m + [(id, v)]
    ensures |Put(m, id, v)| == if id in Keys(m) then |m| else |m| + 1
  {
    if m != [] && m[0].0 != id {
      PutShape(m[1..], id, v);
      assert [m[0]] + (m[1..] + [(id, v)]) == m + [(id, v)];
    }
  }

  lemma {:induction false} KeysHead(m: EffectMap, id: EffectId)
    requires id in Keys(m)
    ensures exists i :: 0 <= i < |m| && m[i].0 == id
  {
    if m[0].0 != id {
      KeysHead(m[1..], id);
      var i :| 0 <= i < |m[1..]| && m[1..][i].0 == id;
      assert m[i + 1].0 == id;
    }
  }

  lemma {:induction false} NotInKeys(m: EffectMap, id: EffectId)
    requires forall j :: 0 <= j < |m| ==> m[j].0 != id
    ensures id !in Keys(m)
  {
    if m != [] {
      NotInKeys(m[1..], id);
    }
  }

  /** In a map with distinct keys the first key does not occur again. */
  lemma HeadNotInTail(m: EffectMap)
    requires DistinctKeys(m) && m != []
    ensures m[0].0 !in Keys(m[1..])
  {
    NotInKeys(m[1..], m[0].0);
  }

  /** Every entry after a put is the new one or one that was there before. */
  lemma {:induction false} PutEntries(m: EffectMap, id: EffectId, v: int)
    ensures forall i :: 0 <= i < |Put(m, id, v)| ==> Put(m, id, v)[i] == (id, v) || Put(m, id, v)[i] in m
  {
    if m != [] && m[0].0 != id {
      PutEntries(m[1..], id, v);
    }
  }

  /** Put keeps the keys distinct. */
  lemma {:induction false} PutDistinct(m: EffectMap, id: EffectId, v: int)
    requires DistinctKeys(m)
    ensures DistinctKeys(Put(m, id, v))
  {
    if m != [] && m[0].0 != id {
      PutDistinct(m[1..], id, v);
      var t := Put(m[1..], id, v);
      var r := [m[0]] + t;
      HeadNotInTail(m);
      forall i | 1 <= i < |r| ensures r[i].0 != m[0].0 {
        assert r[i].0 in Keys(t);
      }
    }
  }

  /** Two maps with the same keys and levels, order aside. */
  predicate SameEntries(a: EffectMap, b: EffectMap) {
    forall id :: Get(a, id) == Get(b, id)
  }
}
