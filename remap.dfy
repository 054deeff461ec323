/**
 * The restart-index translator: copies an index array, replacing every occurrence of an
 * application-chosen restart value by the fixed all-ones sentinel of the destination width.
 */
module Remap {

  import opened Indices

  /** The sentinel written in place of a restart index: 0xffff for 1- and 2-byte input. */
  function Sentinel(indexSize: nat): nat
  {
    if indexSize == 4 then 0xffff_ffff else 0xffff
  }

  /** The width of the destination elements: 1-byte input is widened to 16 bits. */
  function DestSize(indexSize: nat): (d: nat)
    requires ValidIndexSize(indexSize)
    ensures ValidIndexSize(d) && d >= indexSize && d != 1
  {
    if indexSize == 1 then 2 else indexSize
  }

  /** The translation of one element. */
  function RemapOne(indexSize: nat, restartIndex: nat, x: nat): nat
  {
    if x == restartIndex then Sentinel(indexSize) else x
  }

  /** The translation of a whole array, element by element from the front. */
  function Translate(indexSize: nat, s: seq<nat>, restartIndex: nat): (r: seq<nat>)
    ensures |r| == |s|
  {
    if s == [] then []
    else Translate(indexSize, s[..|s| - 1], restartIndex) + [RemapOne(indexSize, restartIndex, s[|s| - 1])]
  }

  /**
   * util_translate_prim_restart_data: writes the translation of `src[..count]` into
   * `dst[..count]`; the rest of `dst` is untouched. `src` and `dst` may be the same array.
   */
  method TranslatePrimRestartData(indexSize: nat, src: array<nat>, dst: array<nat>, count: nat, restartIndex: nat)
    requires ValidIndexSize(indexSize)
    requires count <= src.Length && count <= dst.Length
    modifies dst
    ensures dst[..count] == Translate(indexSize, old(src[..count]), restartIndex)
    ensures dst[count..] == old(dst[count..])
  {
    ghost var input := src[..count];
    ghost var before := dst[..];
    var i := 0;
    while i < count
      invariant 0 <= i <= count
      invariant dst[..i] == Translate(indexSize, input[..i], restartIndex)
      invariant forall k :: i <= k < dst.Length ==> dst[k] == before[k]
      invariant forall k :: i <= k < count ==> src[k] == input[k]
    {
      TranslateSnoc(indexSize, input, restartIndex, i);
      ghost var done := dst[..i];
      dst[i] := if src[i] == restartIndex then Sentinel(indexSize) else src[i];
      assert dst[..i + 1] == done + [dst[i]];
      i := i + 1;
    }
    assert dst[count..] == before[count..];
    assert input[..count] == input;
  }

  /** Translating one more element appends its translation. */
  lemma TranslateSnoc(indexSize: nat, s: seq<nat>, restartIndex: nat, i: nat)
    requires i < |s|
    ensures Translate(indexSize, s[..i + 1], restartIndex)
            == Translate(indexSize, s[..i], restartIndex) + [RemapOne(indexSize, restartIndex, s[i])]
  {
    assert s[..i + 1][..i] == s[..i];
  }

  /** Position by position: a restart index becomes the sentinel, anything else is copied. */
  lemma {:induction false} TranslateAt(indexSize: nat, s: seq<nat>, restartIndex: nat, k: nat)
    requires k < |s|
    ensures Translate(indexSize, s, restartIndex)[k]
            == if s[k] == restartIndex then Sentinel(indexSize) else s[k]
  {
    if k < |s| - 1 {
      assert s[..|s| - 1][k] == s[k];
      TranslateAt(indexSize, s[..|s| - 1], restartIndex, k);
    }
  }

  /** Input of the source width yields output of the destination width (16 bits for 1-byte input). */
  lemma {:induction false} TranslateFitsDest(indexSize: nat, s: seq<nat>, restartIndex: nat)
    requires ValidIndexSize(indexSize)
    requires FitsWidth(s, indexSize)
    ensures FitsWidth(Translate(indexSize, s, restartIndex), DestSize(indexSize))
  {
    var r := Translate(indexSize, s, restartIndex);
    forall k | 0 <= k < |r|
      ensures r[k] < IndexLimit(DestSize(indexSize))
    {
      TranslateAt(indexSize, s, restartIndex, k);
    }
  }

  /** Unless the restart value is the sentinel itself, no restart value survives the translation. */
  lemma {:induction false} TranslateRemovesRestart(indexSize: nat, s: seq<nat>, restartIndex: nat)
    requires restartIndex != Sentinel(indexSize)
    ensures restartIndex !in Translate(indexSize, s, restartIndex)
  {
    if s != [] {
      TranslateRemovesRestart(indexSize, s[..|s| - 1], restartIndex);
    }
  }

  /**
   * For 2- and 4-byte indices source and destination have the same width, and translating
   * twice with the same restart value is the same as translating once.
   */
  lemma {:induction false} TranslateIdempotent(indexSize: nat, s: seq<nat>, restartIndex: nat)
    requires indexSize == 2 || indexSize == 4
    ensures Translate(indexSize, Translate(indexSize, s, restartIndex), restartIndex)
            == Translate(indexSize, s, restartIndex)
  {
    if s != [] {
      var t := Translate(indexSize, s, restartIndex);
      assert t[..|t| - 1] == Translate(indexSize, s[..|s| - 1], restartIndex);
      TranslateIdempotent(indexSize, s[..|s| - 1], restartIndex);
    }
  }
}
