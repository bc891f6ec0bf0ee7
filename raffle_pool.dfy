/**
 * RafflePool: the configured list of effects a raffle can roll, reloaded
 * from the `raffle.effects` string list.
 */
module RafflePool {
  import opened Wrappers
  import opened RaffleEffectIds
  import JavaText

  /** The configured names that parse, in configured order, duplicates kept. */
  function ParsedPool(raw: seq<string>): (r: seq<EffectId>)
    ensures |r| <= |raw|
  {
    if raw == [] then []
    else
      var front := ParsedPool(raw[..|raw| - 1]);
      match FromString(Some(raw[|raw| - 1]))
      case None => front
      case Some(id) => front + [id]
  }

  /** The parse of each configured entry, in order. */
  function ParseEach(raw: seq<string>): (r: seq<Option<EffectId>>)
    ensures |r| == |raw| && forall i :: 0 <= i < |raw| ==> r[i] == FromString(Some(raw[i]))
  {
    seq(|raw|, i requires 0 <= i < |raw| => FromString(Some(raw[i])))
  }

  /** The present values of a sequence of options, in order. */
  function Somes(os: seq<Option<EffectId>>): seq<EffectId> {
    if os == [] then []
    else
      var front := Somes(os[..|os| - 1]);
      match os[|os| - 1]
      case None => front
      case Some(id) => front + [id]
  }

  lemma {:induction false} SomesMembers(os: seq<Option<EffectId>>, id: EffectId)
    ensures id in Somes(os) <==> exists i :: 0 <= i < |os| && os[i] == Some(id)
  {
    if os != [] {
      var front := os[..|os| - 1];
      SomesMembers(front, id);
      if exists i :: 0 <= i < |front| && front[i] == Some(id) {
        var i :| 0 <= i < |front| && front[i] == Some(id);
        assert os[i] == Some(id);
      }
      if exists i :: 0 <= i < |os| && os[i] == Some(id) {
        var i :| 0 <= i < |os| && os[i] == Some(id);
        if i < |front| {
          assert front[i] == Some(id);
        }
      }
    }
  }

  /** The pool keeps the entries that parse, so it is the present values of the parses. */
  lemma {:induction false} ParsedPoolSomes(raw: seq<string>)
    ensures ParsedPool(raw) == Somes(ParseEach(raw))
  {
    if raw != [] {
      var front := raw[..|raw| - 1];
      ParsedPoolSomes(front);
      var os := ParseEach(raw);
      assert os[..|os| - 1] == ParseEach(front);
    }
  }

  /** The pool holds exactly the ids that some configured entry parses to. */
  lemma ParsedPoolMembers(raw: seq<string>, id: EffectId)
    ensures id in ParsedPool(raw) <==> exists i :: 0 <= i < |raw| && FromString(Some(raw[i])) == Some(id)
  {
    ParsedPoolSomes(raw);
    SomesMembers(ParseEach(raw), id);
  }

  /** Parsing is done entry by entry: the pool of a concatenation is the concatenation of the pools. */
  lemma {:induction false} ParsedPoolAppend(a: seq<string>, b: seq<string>)
    ensures ParsedPool(a + b) == ParsedPool(a) + ParsedPool(b)
    decreases |b|
  {
    if b == [] {
      assert a + b == a;
    } else {
      var b0 := b[..|b| - 1];
      assert (a + b)[..|a + b| - 1] == a + b0;
      assert (a + b)[|a + b| - 1] == b[|b| - 1];
      ParsedPoolAppend(a, b0);
    }
  }

  lemma ParsedPoolStep(raw: seq<string>, id: EffectId)
    requires |raw| > 0 && FromString(Some(raw[|raw| - 1])) == Some(id)
    ensures ParsedPool(raw) == ParsedPool(raw[..|raw| - 1]) + [id]
  {
  }

  /** One more configured entry adds its id when it parses, and nothing otherwise. */
  lemma ParsedPoolPrefix(raw: seq<string>, i: nat)
    requires i < |raw|
    ensures var id := FromString(Some(raw[i]));
            ParsedPool(raw[..i + 1]) == ParsedPool(raw[..i]) + (if id.Some? then [id.value] else [])
  {
    assert raw[..i + 1][..i] == raw[..i];
  }

  /** The constants' names, in order. */
  function Names(ids: seq<EffectId>): (r: seq<string>)
    ensures |r| == |ids|
  {
    if ids == [] then [] else Names(ids[..|ids| - 1]) + [Name(ids[|ids| - 1])]
  }

  /** A list of constant names gives back those constants, once per occurrence. */
  lemma {:induction false} ParsedPoolNames(ids: seq<EffectId>)
    ensures ParsedPool(Names(ids)) == ids
  {
    if ids != [] {
      var front := ids[..|ids| - 1];
      var names := Names(ids);
      assert names[..|names| - 1] == Names(front);
      FromStringName(ids[|ids| - 1]);
      ParsedPoolStep(names, ids[|ids| - 1]);
      ParsedPoolNames(front);
      JavaText.FrontLast(ids);
    }
  }

  class Pool {
    var pool: seq<EffectId>

    constructor()
      ensures pool == []
    {
      pool := [];
    }

    /**
     * `reloadFromConfig`: the previous pool is replaced by the configured
     * entries that parse, so reloading the same list twice gives the same pool.
     */
    method ReloadFromConfig(raw: seq<string>)
      modifies this
      ensures pool == ParsedPool(raw)
    {
      var parsed: seq<EffectId> := [];
      var i := 0;
      while i < |raw|
        invariant 0 <= i <= |raw|
        invariant parsed == ParsedPool(raw[..i])
      {
        ParsedPoolPrefix(raw, i);
        var id := FromString(Some(raw[i]));
        if id.Some? {
          parsed := parsed + [id.value];
        }
        i := i + 1;
      }
      assert raw[..|raw|] == raw;
      pool := parsed;
    }

    /** `isEmpty`. */
    function IsEmpty(): (r: bool)
      reads this
      ensures r <==> |pool| == 0
    {
      |pool| == 0
    }

    /** `snapshot`: a read-only view with the pool's contents. */
    function Snapshot(): (r: seq<EffectId>)
      reads this
      ensures |r| == |pool| && forall i :: 0 <= i < |r| ==> r[i] == pool[i]
    {
      pool
    }

    /**
     * `roll`: None exactly when the pool is empty, otherwise the element at
     * the drawn index (`nextInt(size)` is `draw % size`).
     */
    method Roll(draw: nat) returns (r: Option<EffectId>)
      ensures r.None? <==> pool == []
      ensures r.Some? ==> r.value in pool && r.value == pool[draw % |pool|]
    {
      if IsEmpty() {
        return None;
      }
      r := Some(pool[draw % |pool|]);
    }
  }
}
