/**
 * The integer weighted pick both boss loops use: the weights are added up
 * in order, and the first entry whose running sum exceeds the roll wins.
 */
module WeightedPicks {
  /** A candidate id and its weight. */
  datatype Entry = Entry(id: string, weight: int)

  /** The sum of the weights. */
  function Sum(es: seq<Entry>): int
    decreases |es|
  {
    if es == [] then 0 else Sum(es[..|es| - 1]) + es[|es| - 1].weight
  }

  /** The running sum after entry `j`. */
  function Running(es: seq<Entry>, j: nat): int
    requires j < |es|
  {
    Sum(es[..j + 1])
  }

  /** The first index from `k` on whose running sum exceeds `roll`, or -1. */
  function PickFrom(es: seq<Entry>, roll: int, k: nat): (r: int)
    ensures -1 <= r < |es|
    decreases |es| - k
  {
    if k >= |es| then -1 else if roll < Running(es, k) then k else PickFrom(es, roll, k + 1)
  }

  function Pick(es: seq<Entry>, roll: int): int {
    PickFrom(es, roll, 0)
  }

  predicate PositiveWeights(es: seq<Entry>) {
    forall i :: 0 <= i < |es| ==> es[i].weight > 0
  }

  /** The entries with one index removed (`List.remove(int)`). */
  function RemoveAt(es: seq<Entry>, k: nat): (r: seq<Entry>)
    requires k < |es|
    ensures |r| == |es| - 1
    ensures forall i :: 0 <= i < |r| ==> r[i] == (if i < k then es[i] else es[i + 1])
  {
    es[..k] + es[k + 1..]
  }

  /** The ids of the entries. */
  function Ids(es: seq<Entry>): (r: seq<string>)
    ensures |r| == |es| && forall i :: 0 <= i < |es| ==> r[i] == es[i].id
  {
    seq(|es|, i requires 0 <= i < |es| => es[i].id)
  }

  predicate DistinctIds(es: seq<Entry>) {
    forall i, j :: 0 <= i < j < |es| ==> es[i].id != es[j].id
  }

  /** The loop summing the weights. */
  method TotalWeight(es: seq<Entry>) returns (total: int)
    ensures total == Sum(es)
  {
    total := 0;
    var i := 0;
    while i < |es|
      invariant 0 <= i <= |es|
      invariant total == Sum(es[..i])
    {
      assert es[..i + 1][..i] == es[..i];
      total := total + es[i].weight;
      i := i + 1;
    }
    assert es[..|es|] == es;
  }

  /** The loop adding up the weights until the running sum exceeds the roll. */
  method PickIndex(es: seq<Entry>, roll: int) returns (picked: int)
    ensures picked == Pick(es, roll)
  {
    var running := 0;
    var i := 0;
    while i < |es|
      invariant 0 <= i <= |es|
      invariant running == Sum(es[..i])
      invariant PickFrom(es, roll, i) == Pick(es, roll)
    {
      assert es[..i + 1][..i] == es[..i];
      running := running + es[i].weight;
      assert running == Running(es, i);
      if roll < running {
        return i;
      }
      i := i + 1;
    }
    return -1;
  }

  // ---------------------------------------------------------------- properties

  /**
   * The pick is the first index whose running sum exceeds the roll: every
   * earlier running sum is at most the roll; -1 exactly when none exceeds it.
   */
  lemma {:induction false} PickFromFirst(es: seq<Entry>, roll: int, k: nat)
    requires k <= |es|
    ensures var r := PickFrom(es, roll, k);
            (r >= 0 ==> k <= r && roll < Running(es, r) && forall j :: k <= j < r ==> roll >= Running(es, j))
            && (r == -1 <==> forall j :: k <= j < |es| ==> roll >= Running(es, j))
    decreases |es| - k
  {
    if k < |es| && roll >= Running(es, k) {
      PickFromFirst(es, roll, k + 1);
    }
  }

  lemma PickFirst(es: seq<Entry>, roll: int)
    ensures var r := Pick(es, roll);
            (r >= 0 ==> roll < Running(es, r) && forall j :: 0 <= j < r ==> roll >= Running(es, j))
            && (r == -1 <==> forall j :: 0 <= j < |es| ==> roll >= Running(es, j))
  {
    PickFromFirst(es, roll, 0);
  }

  /** A non-negative roll below the total always picks an entry. */
  lemma PickFound(es: seq<Entry>, roll: int)
    requires 0 <= roll < Sum(es)
    ensures 0 <= Pick(es, roll) < |es|
  {
    PickFirst(es, roll);
    assert es != [] && es[..(|es| - 1) + 1] == es;
    assert roll < Running(es, |es| - 1);
  }

  /** With positive weights the sum is positive exactly for a non-empty list. */
  lemma {:induction false} SumPositive(es: seq<Entry>)
    requires PositiveWeights(es)
    ensures es != [] <==> Sum(es) > 0
    ensures Sum(es) >= 0
    decreases |es|
  {
    if es != [] {
      SumPositive(es[..|es| - 1]);
    }
  }

  /** Removing an entry keeps the other ids, and drops its own when the ids are distinct. */
  lemma RemoveAtIds(es: seq<Entry>, k: nat)
    requires k < |es|
    ensures forall x :: x in Ids(RemoveAt(es, k)) ==> x in Ids(es)
    ensures DistinctIds(es) ==> DistinctIds(RemoveAt(es, k)) && es[k].id !in Ids(RemoveAt(es, k))
    ensures PositiveWeights(es) ==> PositiveWeights(RemoveAt(es, k))
  {
    var r := RemoveAt(es, k);
    forall x | x in Ids(r) ensures x in Ids(es) {
      var i :| 0 <= i < |r| && Ids(r)[i] == x;
      if i < k { assert Ids(es)[i] == x; } else { assert Ids(es)[i + 1] == x; }
    }
  }
}
