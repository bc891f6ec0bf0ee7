/**
 * The `|`-separated effect list ArmorEquipListener reads from an armour
 * piece: `id:lvl|id:lvl|...`. Ids are trimmed and lower-cased, a missing
 * or unreadable level reads as 1, and levels are at least 1.
 */
module ArmorEffectCodec {
  import opened Wrappers
  import opened JavaText

  /** What one `|`-piece contributes. `Crash` is the out-of-bounds `kv[0]` of a piece made only of ':'. */
  datatype Piece = Skip | Entry(id: string, level: int) | Crash

  /** `trim().toLowerCase()` of an id. */
  function Normalized(raw: string): string {
    ToLower(Trim(raw))
  }

  /** Lower-casing a trimmed string keeps it trimmed, and lower-casing twice is lower-casing once. */
  lemma NormalizedStable(raw: string)
    ensures Normalized(Normalized(raw)) == Normalized(raw)
  {
    var y := Trim(raw);
    var l := ToLower(y);
    ToLowerAt(y);
    ToLowerAt(l);
    TrimKeeps(l);
    assert ToLower(l) == l;
  }

  /** One piece as the decoding loop reads it. */
  function ReadPiece(part: string): (r: Piece)
    ensures r.Entry? ==> r.id != [] && r.level >= 1 && Normalized(r.id) == r.id
  {
    var p := Trim(part);
    if p == [] then Skip
    else
      var kv := Split(p, ':');
      if |kv| == 0 then Crash
      else
        var id := Normalized(kv[0]);
        if id == [] then Skip
        else
          var lvl := if |kv| >= 2 then ParseInt(Trim(kv[1])).GetOr(1) else 1;
          NormalizedStable(kv[0]);
          Entry(id, Max(1, lvl))
  }

  /** How each piece reads, in order. */
  function Pieces(parts: seq<string>): (r: seq<Piece>)
    ensures |r| == |parts|
  {
    seq(|parts|, i requires 0 <= i < |parts| => ReadPiece(parts[i]))
  }

  /** The map the loop fills, as written: a crashing piece aborts the whole decode (None). */
  function GatherAsWritten(ps: seq<Piece>): Option<map<string, int>>
    decreases |ps|
  {
    if ps == [] then Some(map[])
    else
      match GatherAsWritten(ps[..|ps| - 1])
      case None => None
      case Some(m) =>
        match ps[|ps| - 1]
        case Crash => None
        case Skip => Some(m)
        case Entry(id, lvl) => Some(m[id := lvl])
  }

  /** `decodeEffects` as written. */
  function DecodeAsWritten(encoded: string): Option<map<string, int>> {
    if Trim(encoded) == [] then Some(map[]) else GatherAsWritten(Pieces(Split(encoded, '|')))
  }

  /** The map the loop fills when a piece without an id is skipped, whatever its shape. */
  function Gather(ps: seq<Piece>): map<string, int>
    decreases |ps|
  {
    if ps == [] then map[]
    else
      var m := Gather(ps[..|ps| - 1]);
      match ps[|ps| - 1]
      case Entry(id, lvl) => m[id := lvl]
      case _ => m
  }

  /** `decodeEffects` with the id-less piece skipped. */
  function Decode(encoded: string): map<string, int> {
    if Trim(encoded) == [] then map[] else Gather(Pieces(Split(encoded, '|')))
  }

  /** `decodeEffects`, skipping a piece without an id: the loop over the `|`-pieces. */
  method DecodeEffects(encoded: string) returns (out: map<string, int>)
    ensures out == Decode(encoded)
  {
    out := map[];
    if Trim(encoded) == [] {
      return;
    }
    var parts := Split(encoded, '|');
    ghost var ps := Pieces(parts);
    var i := 0;
    while i < |parts|
      invariant 0 <= i <= |parts|
      invariant out == Gather(ps[..i])
    {
      GatherStep(ps, i);
      var piece := ReadPiece(parts[i]);
      assert piece == ps[i];
      if piece.Entry? {
        out := out[piece.id := piece.level];
      }
      i := i + 1;
    }
    assert ps[..|parts|] == ps;
  }

  /** One more piece updates the map by itself. */
  lemma GatherStep(ps: seq<Piece>, i: nat)
    requires i < |ps|
    ensures Gather(ps[..i + 1]) == if ps[i].Entry? then Gather(ps[..i])[ps[i].id := ps[i].level] else Gather(ps[..i])
  {
    assert ps[..i + 1][..i] == ps[..i];
  }

  /** The piece names `id`. */
  predicate Names(p: Piece, id: string) {
    p.Entry? && p.id == id
  }

  /** Whether some piece names `id`. */
  ghost predicate Named(ps: seq<Piece>, id: string) {
    exists i :: 0 <= i < |ps| && Names(ps[i], id)
  }

  /** An id is in the map exactly when some piece names it. */
  lemma {:induction false} GatherNamed(ps: seq<Piece>, id: string)
    ensures id in Gather(ps) <==> Named(ps, id)
    decreases |ps|
  {
    if ps != [] {
      var n := |ps| - 1;
      var front := ps[..n];
      GatherNamed(front, id);
      if Named(front, id) {
        var i :| 0 <= i < n && Names(front[i], id);
        assert Names(ps[i], id);
      }
      if Named(ps, id) && !Names(ps[n], id) {
        var i :| 0 <= i < |ps| && Names(ps[i], id);
        assert Names(front[i], id);
      }
    }
  }

  /** The level of an id in the map is the one of the last piece naming it. */
  lemma {:induction false} GatherLast(ps: seq<Piece>, id: string)
    requires id in Gather(ps)
    ensures exists i :: 0 <= i < |ps| && ps[i] == Entry(id, Gather(ps)[id])
              && forall j :: i < j < |ps| ==> !Names(ps[j], id)
    decreases |ps|
  {
    var n := |ps| - 1;
    var front := ps[..n];
    if Names(ps[n], id) {
      assert ps[n] == Entry(id, Gather(ps)[id]);
    } else {
      assert id in Gather(front);
      GatherLast(front, id);
      var i :| 0 <= i < n && front[i] == Entry(id, Gather(front)[id])
               && forall j :: i < j < n ==> !Names(front[j], id);
      assert ps[i] == Entry(id, Gather(ps)[id]);
      forall j | i < j < |ps|
        ensures !Names(ps[j], id)
      {
        if j < n {
          assert ps[j] == front[j];
        }
      }
    }
  }

  /** Every key is a non-empty normalized id and every level is at least 1. */
  lemma {:induction false} DecodeWellFormed(parts: seq<string>)
    ensures forall id :: id in Gather(Pieces(parts)) ==> id != [] && Normalized(id) == id && Gather(Pieces(parts))[id] >= 1
  {
    GatherWellFormed(Pieces(parts));
  }

  /** A sequence of pieces each read from some string. */
  ghost predicate AllRead(ps: seq<Piece>) {
    forall i :: 0 <= i < |ps| ==> ps[i].Entry? ==> ps[i].id != [] && Normalized(ps[i].id) == ps[i].id && ps[i].level >= 1
  }

  lemma {:induction false} GatherWellFormed(ps: seq<Piece>)
    requires AllRead(ps)
    ensures forall id :: id in Gather(ps) ==> id != [] && Normalized(id) == id && Gather(ps)[id] >= 1
    decreases |ps|
  {
    if ps != [] {
      var front := ps[..|ps| - 1];
      assert AllRead(front);
      GatherWellFormed(front);
    }
  }

  /** A blank encoding decodes to nothing. */
  lemma BlankDecodesEmpty(encoded: string)
    requires IsTrimPad(encoded)
    ensures Decode(encoded) == map[] && DecodeAsWritten(encoded) == Some(map[])
  {
    TrimEmptyIff(encoded);
  }

  /**
   * The code as written agrees with the corrected reading except that one
   * crashing piece anywhere makes it fail as a whole.
   */
  lemma {:induction false} AsWrittenAgrees(ps: seq<Piece>)
    ensures GatherAsWritten(ps).None? <==> exists i :: 0 <= i < |ps| && ps[i].Crash?
    ensures GatherAsWritten(ps).Some? ==> GatherAsWritten(ps).value == Gather(ps)
    decreases |ps|
  {
    if ps != [] {
      var front := ps[..|ps| - 1];
      AsWrittenAgrees(front);
      assert forall i :: 0 <= i < |ps| - 1 ==> ps[i] == front[i];
    }
  }

  /** The piece ":" throws in the code as written; skipped, it contributes nothing. */
  lemma ColonPieceCrashes()
    ensures ReadPiece(":").Crash?
    ensures DecodeAsWritten(":") == None
    ensures Decode(":") == map[]
  {
    assert RawSplit(":", ':') == [[], []];
    assert Split(":", ':') == [];
    assert Trim(":") == ":" by { TrimKeeps(":"); }
    assert Split(":", '|') == [":"];
    assert Pieces([":"]) == [Crash];
    assert [Crash][..0] == [];
  }

  // ---------------------------------------------------------------- encoding

  /** An id that reads back as itself: visible, lower-case, free of both separators. */
  predicate PlainId(id: string) {
    |id| > 0 && forall i :: 0 <= i < |id| ==> id[i] > ' ' && id[i] != '|' && id[i] != ':' && !('A' <= id[i] <= 'Z')
  }

  function EncodePiece(id: string, level: int): string {
    id + ":" + IntToString(level)
  }

  /** The encoding of a list of entries, in order. */
  function Encode(entries: seq<(string, int)>): string {
    Join(seq(|entries|, i requires 0 <= i < |entries| => EncodePiece(entries[i].0, entries[i].1)), '|')
  }

  /** The map the entries describe, a later entry for an id overriding an earlier one. */
  function AsMap(entries: seq<(string, int)>): map<string, int>
    decreases |entries|
  {
    if entries == [] then map[]
    else AsMap(entries[..|entries| - 1])[entries[|entries| - 1].0 := entries[|entries| - 1].1]
  }

  predicate Encodable(entries: seq<(string, int)>) {
    forall i :: 0 <= i < |entries| ==> PlainId(entries[i].0) && 1 <= entries[i].1 <= INT_MAX
  }

  /** A piece written as `id:lvl` is read back as that entry. */
  lemma ReadEncodedPiece(id: string, level: int)
    requires PlainId(id) && 1 <= level <= INT_MAX
    ensures ReadPiece(EncodePiece(id, level)) == Entry(id, level)
  {
    var digits := IntToString(level);
    var p := EncodePiece(id, level);
    assert p == id + [':'] + digits;
    TrimKeeps(p);
    assert ':' !in digits;
    RawSplitCons(id, ':', digits);
    RawSplitNoSep(digits, ':');
    assert p[|id|] == ':';
    assert Split(p, ':') == [id, digits];
    TrimKeeps(id);
    ToLowerAt(id);
    assert ToLower(id) == id;
    TrimKeeps(digits);
    ParseIntToString(level);
  }

  /** Decoding an encoded list gives the map of its entries. */
  lemma DecodeEncoded(entries: seq<(string, int)>)
    requires |entries| >= 1 && Encodable(entries)
    ensures Decode(Encode(entries)) == AsMap(entries)
  {
    var pieces := seq(|entries|, i requires 0 <= i < |entries| => EncodePiece(entries[i].0, entries[i].1));
    var s := Encode(entries);
    forall i | 0 <= i < |pieces|
      ensures '|' !in pieces[i] && pieces[i] != []
    {
      assert pieces[i] == entries[i].0 + ":" + IntToString(entries[i].1);
      assert '|' !in IntToString(entries[i].1);
    }
    SplitJoin(pieces, '|');
    JoinPrefix(pieces, '|');
    assert s[0] == pieces[0][0] == entries[0].0[0];
    assert Trim(s) != [] by {
      TrimEmptyIff(s);
    }
    EncodedPieces(entries);
  }

  /** The pieces of an encoded list, each as it reads back. */
  function EntryPieces(entries: seq<(string, int)>): seq<Piece> {
    seq(|entries|, i requires 0 <= i < |entries| => Entry(entries[i].0, entries[i].1))
  }

  lemma {:induction false} GatherEntries(entries: seq<(string, int)>)
    ensures Gather(EntryPieces(entries)) == AsMap(entries)
    decreases |entries|
  {
    if entries != [] {
      var n := |entries| - 1;
      GatherEntries(entries[..n]);
      assert EntryPieces(entries)[..n] == EntryPieces(entries[..n]);
    }
  }

  /** Each encoded piece reads back as its entry. */
  lemma EncodedPieces(entries: seq<(string, int)>)
    requires Encodable(entries)
    ensures Gather(Pieces(seq(|entries|, i requires 0 <= i < |entries| => EncodePiece(entries[i].0, entries[i].1)))) == AsMap(entries)
  {
    var pieces := seq(|entries|, i requires 0 <= i < |entries| => EncodePiece(entries[i].0, entries[i].1));
    forall i | 0 <= i < |entries|
      ensures Pieces(pieces)[i] == EntryPieces(entries)[i]
    {
      ReadEncodedPiece(entries[i].0, entries[i].1);
    }
    assert Pieces(pieces) == EntryPieces(entries);
    GatherEntries(entries);
  }
}
