/**
 * Lights.h: the light type tags and the `Light` record the pixel shader reads
 * from a constant buffer.
 *
 * The record is uploaded byte for byte, so the CPU layout (each field right
 * after the previous one, all 4-byte aligned) must coincide with the HLSL
 * constant-buffer packing rule (a field that would cross a 16-byte row starts
 * on the next row). `PackingAgreesIffNoStraddle` proves the two layouts agree
 * exactly when no field straddles a row, and `LightLayout` shows the record
 * meets that condition with a 64-byte size.
 */
module Lights {
  import opened Math3D
  import opened Wrappers

  const LightTypeDirectional: int := 0
  const LightTypePoint: int := 1
  const LightTypeSpot: int := 2

  /** Every light carries every field, whatever its type. */
  datatype Light = Light(
    lightType: int,
    direction: Vec3,
    range: real,
    position: Vec3,
    intensity: real,
    color: Vec3,
    spotInnerAngle: real,
    spotOuterAngle: real,
    padding: Vec2)

  /** `lights.push_back({})`: value-initialised, every field zero. */
  const ZeroLight: Light :=
    Light(0, Zero, 0.0, Zero, 0.0, Zero, 0.0, 0.0, Vec2(0.0, 0.0))

  /** The three tags name three different kinds of light, as the shader's switch on Type needs. */
  lemma LightTypeTagsDistinct()
    ensures LightTypeDirectional != LightTypePoint && LightTypePoint != LightTypeSpot
    ensures LightTypeDirectional != LightTypeSpot
    ensures 0 <= LightTypeDirectional < LightTypePoint < LightTypeSpot == 2
  {
  }

  predicate IsDirectional(l: Light) {
    l.lightType == LightTypeDirectional
  }

  // ---------------------------------------------------------------------------
  // Byte layout

  /** Byte sizes of Light's fields in declaration order: int, float3, float, float3, float, float3, float, float, float2. */
  const LightFieldSizes: seq<nat> := [4, 12, 4, 12, 4, 12, 4, 4, 8]

  const RowBytes: nat := 16

  function Sum(s: seq<nat>): nat {
    if |s| == 0 then 0 else s[0] + Sum(s[1..])
  }

  /** The 16-byte row a byte offset falls in. */
  function Row(offset: nat): nat {
    offset / RowBytes
  }

  predicate PositiveSizes(sizes: seq<nat>) {
    forall i :: 0 <= i < |sizes| ==> sizes[i] > 0
  }

  /** A field of `size` bytes at `offset` has its first and last byte in different rows. */
  predicate Straddles(offset: nat, size: nat)
    requires size > 0
  {
    Row(offset) != Row(offset + size - 1)
  }

  /** C++ layout: each field starts where the previous one ended. */
  function SequentialOffsets(sizes: seq<nat>, start: nat): (offsets: seq<nat>)
    ensures |offsets| == |sizes|
    ensures |sizes| > 0 ==> offsets[0] == start
  {
    if |sizes| == 0 then [] else [start] + SequentialOffsets(sizes[1..], start + sizes[0])
  }

  /** HLSL constant-buffer layout: a field that would straddle a row is pushed to the next row. */
  function PackedOffsets(sizes: seq<nat>, start: nat): (offsets: seq<nat>)
    requires PositiveSizes(sizes)
    ensures |offsets| == |sizes|
  {
    if |sizes| == 0 then []
    else
      var here := if Straddles(start, sizes[0]) then (Row(start) + 1) * RowBytes else start;
      [here] + PackedOffsets(sizes[1..], here + sizes[0])
  }

  /** No field of the sequential layout straddles a row. */
  predicate NoStraddle(sizes: seq<nat>, start: nat)
    requires PositiveSizes(sizes)
  {
    var offsets := SequentialOffsets(sizes, start);
    forall i :: 0 <= i < |sizes| ==> !Straddles(offsets[i], sizes[i])
  }

  lemma SequentialOffsetsTail(sizes: seq<nat>, start: nat, i: nat)
    requires 0 < i < |sizes|
    ensures SequentialOffsets(sizes, start)[i] == SequentialOffsets(sizes[1..], start + sizes[0])[i - 1]
  {
  }

  /** The sequential offsets are the running sums of the sizes. */
  lemma {:induction false} SequentialOffsetsAreRunningSums(sizes: seq<nat>, start: nat)
    ensures forall i :: 0 <= i < |sizes| ==> SequentialOffsets(sizes, start)[i] == start + Sum(sizes[..i])
  {
    if |sizes| > 0 {
      SequentialOffsetsAreRunningSums(sizes[1..], start + sizes[0]);
      forall i | 0 <= i < |sizes|
        ensures SequentialOffsets(sizes, start)[i] == start + Sum(sizes[..i])
      {
        if i > 0 {
          assert sizes[..i][1..] == sizes[1..][..i - 1];
        }
      }
    }
  }

  /**
   * The CPU layout and the HLSL packing agree exactly when no field of the
   * CPU layout straddles a 16-byte row.
   */
  lemma {:induction false} PackingAgreesIffNoStraddle(sizes: seq<nat>, start: nat)
    requires PositiveSizes(sizes)
    ensures PackedOffsets(sizes, start) == SequentialOffsets(sizes, start) <==> NoStraddle(sizes, start)
  {
    if |sizes| > 0 {
      var tail := sizes[1..];
      var next := start + sizes[0];
      assert PositiveSizes(tail) by {
        forall i | 0 <= i < |tail| ensures tail[i] > 0 {
          assert tail[i] == sizes[i + 1];
        }
      }
      PackingAgreesIffNoStraddle(tail, next);
      var seqOffsets := SequentialOffsets(sizes, start);
      if Straddles(start, sizes[0]) {
        assert PackedOffsets(sizes, start)[0] != start;
        assert !NoStraddle(sizes, start) by {
          assert seqOffsets[0] == start;
        }
      } else {
        assert PackedOffsets(sizes, start) == [start] + PackedOffsets(tail, next);
        assert seqOffsets == [start] + SequentialOffsets(tail, next);
        if NoStraddle(sizes, start) {
          assert NoStraddle(tail, next) by {
            forall i | 0 <= i < |tail|
              ensures !Straddles(SequentialOffsets(tail, next)[i], tail[i])
            {
              assert SequentialOffsets(tail, next)[i] == seqOffsets[i + 1];
              assert tail[i] == sizes[i + 1];
            }
          }
        } else {
          var k :| 0 <= k < |sizes| && Straddles(seqOffsets[k], sizes[k]);
          assert k > 0;
          assert !NoStraddle(tail, next) by {
            assert SequentialOffsets(tail, next)[k - 1] == seqOffsets[k];
            assert tail[k - 1] == sizes[k];
          }
          assert PackedOffsets(tail, next) != SequentialOffsets(tail, next);
          assert PackedOffsets(sizes, start)[1..] == PackedOffsets(tail, next);
          assert seqOffsets[1..] == SequentialOffsets(tail, next);
        }
      }
    }
  }

  /** In the HLSL packing no field of at most one row ever straddles a row. */
  lemma {:induction false} PackedNeverStraddles(sizes: seq<nat>, start: nat)
    requires PositiveSizes(sizes)
    requires forall i :: 0 <= i < |sizes| ==> sizes[i] <= RowBytes
    ensures forall i :: 0 <= i < |sizes| ==> !Straddles(PackedOffsets(sizes, start)[i], sizes[i])
    ensures forall i :: 0 <= i < |sizes| ==> PackedOffsets(sizes, start)[i] >= SequentialOffsets(sizes, start)[i]
  {
    if |sizes| > 0 {
      var tail := sizes[1..];
      assert PositiveSizes(tail) by {
        forall i | 0 <= i < |tail| ensures tail[i] > 0 {
          assert tail[i] == sizes[i + 1];
        }
      }
      var here := if Straddles(start, sizes[0]) then (Row(start) + 1) * RowBytes else start;
      PackedNeverStraddles(tail, here + sizes[0]);
      SequentialNotAhead(tail, start + sizes[0], here + sizes[0]);
      forall i | 0 <= i < |sizes|
        ensures !Straddles(PackedOffsets(sizes, start)[i], sizes[i])
        ensures PackedOffsets(sizes, start)[i] >= SequentialOffsets(sizes, start)[i]
      {
        if i == 0 {
          PackedHeadFits(start, sizes[0]);
        } else {
          assert PackedOffsets(sizes, start)[i] == PackedOffsets(tail, here + sizes[0])[i - 1];
          assert SequentialOffsets(sizes, start)[i] == SequentialOffsets(tail, start + sizes[0])[i - 1];
          assert sizes[i] == tail[i - 1];
        }
      }
    }
  }

  /** A field of at most one row, pushed to the next row when it would straddle, fits in one row and does not move back. */
  lemma PackedHeadFits(start: nat, size: nat)
    requires 0 < size <= RowBytes
    ensures var here := if Straddles(start, size) then (Row(start) + 1) * RowBytes else start;
            !Straddles(here, size) && here >= start
  {
    if Straddles(start, size) {
      var here := (Row(start) + 1) * RowBytes;
      assert Row(here) == Row(start) + 1;
      assert Row(here + size - 1) == Row(start) + 1;
    }
  }

  /** Starting later never moves a sequential offset earlier. */
  lemma {:induction false} SequentialNotAhead(sizes: seq<nat>, a: nat, b: nat)
    requires a <= b
    ensures forall i :: 0 <= i < |sizes| ==> SequentialOffsets(sizes, a)[i] + (b - a) == SequentialOffsets(sizes, b)[i]
  {
    if |sizes| > 0 {
      SequentialNotAhead(sizes[1..], a + sizes[0], b + sizes[0]);
      forall i | 0 < i < |sizes|
        ensures SequentialOffsets(sizes, a)[i] + (b - a) == SequentialOffsets(sizes, b)[i]
      {
        SequentialOffsetsTail(sizes, a, i);
        SequentialOffsetsTail(sizes, b, i);
      }
    }
  }

  /** Light's fields take 64 bytes, a whole number of rows, at these C++ offsets. */
  lemma LightFieldOffsets()
    ensures Sum(LightFieldSizes) == 64 && 64 % RowBytes == 0
    ensures SequentialOffsets(LightFieldSizes, 0) == [0, 4, 16, 20, 32, 36, 48, 52, 56]
  {
    LightFieldSum();
    LightFieldSequentialOffsets();
  }

  lemma LightFieldSum()
    ensures Sum(LightFieldSizes) == 64
  {
    var sizes := LightFieldSizes;
    assert Sum(sizes[8..]) == 8;
    assert Sum(sizes[6..]) == 16 by { assert sizes[6..][1..] == sizes[7..]; assert sizes[7..][1..] == sizes[8..]; }
    assert Sum(sizes[4..]) == 32 by { assert sizes[4..][1..] == sizes[5..]; assert sizes[5..][1..] == sizes[6..]; }
    assert Sum(sizes[2..]) == 48 by { assert sizes[2..][1..] == sizes[3..]; assert sizes[3..][1..] == sizes[4..]; }
    assert sizes[1..][1..] == sizes[2..];
  }

  lemma LightFieldSequentialOffsets()
    ensures SequentialOffsets(LightFieldSizes, 0) == [0, 4, 16, 20, 32, 36, 48, 52, 56]
  {
    var sizes := LightFieldSizes;
    assert SequentialOffsets(sizes[8..], 56) == [56];
    assert SequentialOffsets(sizes[6..], 48) == [48, 52, 56] by { assert sizes[6..][1..] == sizes[7..]; assert sizes[7..][1..] == sizes[8..]; }
    assert SequentialOffsets(sizes[4..], 32) == [32, 36, 48, 52, 56] by { assert sizes[4..][1..] == sizes[5..]; assert sizes[5..][1..] == sizes[6..]; }
    assert SequentialOffsets(sizes[2..], 16) == [16, 20, 32, 36, 48, 52, 56] by { assert sizes[2..][1..] == sizes[3..]; assert sizes[3..][1..] == sizes[4..]; }
    assert sizes[1..][1..] == sizes[2..];
  }

  /** The row of each of Light's fields: (Type, Direction), (Range, Position), (Intensity, Color), (SpotInnerAngle, SpotOuterAngle, Padding). */
  const LightFieldRows: seq<nat> := [0, 0, 1, 1, 2, 2, 3, 3, 3]

  /**
   * No field of Light straddles a row, each lies in the row listed in
   * `LightFieldRows`, and so the shader's packing puts every field where the
   * CPU wrote it.
   */
  lemma LightLayout()
    ensures NoStraddle(LightFieldSizes, 0)
    ensures forall i :: 0 <= i < |LightFieldSizes| ==>
              Row(SequentialOffsets(LightFieldSizes, 0)[i]) == LightFieldRows[i]
    ensures PackedOffsets(LightFieldSizes, 0) == SequentialOffsets(LightFieldSizes, 0)
  {
    LowFieldRows();
    HighFieldRows();
    PackingAgreesIffNoStraddle(LightFieldSizes, 0);
  }

  /** Fields 0 to 4 of Light (Type to Intensity) begin and end in their listed rows. */
  lemma LowFieldRows()
    ensures forall i :: 0 <= i < 5 ==>
              && Row(SequentialOffsets(LightFieldSizes, 0)[i]) == LightFieldRows[i]
              && !Straddles(SequentialOffsets(LightFieldSizes, 0)[i], LightFieldSizes[i])
  {
    LightFieldSequentialOffsets();
    var sizes, offsets := LightFieldSizes, SequentialOffsets(LightFieldSizes, 0);
    forall i | 0 <= i < 5
      ensures Row(offsets[i]) == LightFieldRows[i] && Row(offsets[i] + sizes[i] - 1) == LightFieldRows[i]
    {
      if i == 0 { assert offsets[i] == 0 && sizes[i] == 4; }
      else if i == 1 { assert offsets[i] == 4 && sizes[i] == 12; }
      else if i == 2 { assert offsets[i] == 16 && sizes[i] == 4; }
      else if i == 3 { assert offsets[i] == 20 && sizes[i] == 12; }
      else { assert offsets[i] == 32 && sizes[i] == 4; }
    }
  }

  /** Fields 5 to 8 of Light (Color to Padding) begin and end in their listed rows. */
  lemma HighFieldRows()
    ensures forall i :: 5 <= i < 9 ==>
              && Row(SequentialOffsets(LightFieldSizes, 0)[i]) == LightFieldRows[i]
              && !Straddles(SequentialOffsets(LightFieldSizes, 0)[i], LightFieldSizes[i])
  {
    LightFieldSequentialOffsets();
    var sizes, offsets := LightFieldSizes, SequentialOffsets(LightFieldSizes, 0);
    forall i | 5 <= i < 9
      ensures Row(offsets[i]) == LightFieldRows[i] && Row(offsets[i] + sizes[i] - 1) == LightFieldRows[i]
    {
      if i == 5 { assert offsets[i] == 36 && sizes[i] == 12; }
      else if i == 6 { assert offsets[i] == 48 && sizes[i] == 4; }
      else if i == 7 { assert offsets[i] == 52 && sizes[i] == 4; }
      else { assert offsets[i] == 56 && sizes[i] == 8; }
    }
  }

  // ---------------------------------------------------------------------------
  // The uploaded blob: `SetData("lights", &lights[0], sizeof(Light) * lights.size())`

  /** One 4-byte word of the constant buffer: the int Type or a float. */
  datatype Word = IntWord(i: int) | FloatWord(f: real)

  const LightWords: nat := 16

  /** The bytes of one light, as sixteen 4-byte words in declaration order. */
  function EncodeLight(l: Light): (words: seq<Word>)
    ensures |words| == LightWords
    ensures words[0] == IntWord(l.lightType)
  {
    [IntWord(l.lightType),
     FloatWord(l.direction.x), FloatWord(l.direction.y), FloatWord(l.direction.z),
     FloatWord(l.range),
     FloatWord(l.position.x), FloatWord(l.position.y), FloatWord(l.position.z),
     FloatWord(l.intensity),
     FloatWord(l.color.x), FloatWord(l.color.y), FloatWord(l.color.z),
     FloatWord(l.spotInnerAngle), FloatWord(l.spotOuterAngle),
     FloatWord(l.padding.x), FloatWord(l.padding.y)]
  }

  /** The word each field of Light starts at, in declaration order. */
  const FieldWords: seq<nat> := [0, 1, 4, 5, 8, 9, 12, 13, 14]

  /** What the shader reads back from sixteen words; None when a word has the wrong kind. */
  function DecodeLight(words: seq<Word>): (r: Option<Light>)
    requires |words| == LightWords
    ensures r.Some? ==> words[0] == IntWord(r.value.lightType)
  {
    if words[0].IntWord? && forall k :: 1 <= k < LightWords ==> words[k].FloatWord? then
      Some(Light(words[FieldWords[0]].i,
                 Vec3(words[FieldWords[1]].f, words[FieldWords[1] + 1].f, words[FieldWords[1] + 2].f),
                 words[FieldWords[2]].f,
                 Vec3(words[FieldWords[3]].f, words[FieldWords[3] + 1].f, words[FieldWords[3] + 2].f),
                 words[FieldWords[4]].f,
                 Vec3(words[FieldWords[5]].f, words[FieldWords[5] + 1].f, words[FieldWords[5] + 2].f),
                 words[FieldWords[6]].f, words[FieldWords[7]].f,
                 Vec2(words[FieldWords[8]].f, words[FieldWords[8] + 1].f)))
    else None
  }

  /**
   * DecodeLight reads each field where the HLSL packing puts it: field k
   * starts at byte 4 * FieldWords[k], and its words run up to the next
   * field's first word (the last field to the end of the sixteen words).
   */
  lemma DecoderFollowsLayout()
    ensures |FieldWords| == |LightFieldSizes|
    ensures forall k :: 0 <= k < |FieldWords| ==> 4 * FieldWords[k] == SequentialOffsets(LightFieldSizes, 0)[k]
    ensures forall k :: 0 <= k < |FieldWords| ==>
              FieldWords[k] + LightFieldSizes[k] / 4 == (if k + 1 < |FieldWords| then FieldWords[k + 1] else LightWords)
  {
    LightFieldSequentialOffsets();
    var offsets := SequentialOffsets(LightFieldSizes, 0);
    forall k | 0 <= k < |FieldWords|
      ensures 4 * FieldWords[k] == offsets[k]
      ensures FieldWords[k] + LightFieldSizes[k] / 4 == (if k + 1 < |FieldWords| then FieldWords[k + 1] else LightWords)
    {
      if k == 0 {
      } else if k == 1 {
      } else if k == 2 {
      } else if k == 3 {
      } else if k == 4 {
      } else if k == 5 {
      } else if k == 6 {
      } else if k == 7 {
      } else {
        assert k == 8;
      }
    }
  }

  /** The array of lights laid end to end. */
  function EncodeLights(ls: seq<Light>): (blob: seq<Word>)
    ensures |blob| == LightWords * |ls|
  {
    if |ls| == 0 then [] else EncodeLight(ls[0]) + EncodeLights(ls[1..])
  }

  function DecodeLights(blob: seq<Word>): (r: Option<seq<Light>>)
    requires |blob| % LightWords == 0
    ensures r.Some? ==> |r.value| * LightWords == |blob|
    decreases |blob|
  {
    if |blob| == 0 then Some([])
    else
      match DecodeLight(blob[..LightWords])
      case None => None
      case Some(l) =>
        match DecodeLights(blob[LightWords..])
        case None => None
        case Some(rest) => Some([l] + rest)
  }

  /** The upload size the draw passes: sizeof(Light) times the light count, in bytes. */
  function LightBlobBytes(lightCount: nat): (bytes: nat)
    ensures bytes == Sum(LightFieldSizes) * lightCount
  {
    LightFieldOffsets();
    64 * lightCount
  }

  lemma DecodeEncodeLight(l: Light)
    ensures DecodeLight(EncodeLight(l)) == Some(l)
  {
  }

  /** Whatever their types, the shader reads back exactly the lights the CPU wrote, in order. */
  lemma {:induction false} DecodeEncodeLights(ls: seq<Light>)
    ensures DecodeLights(EncodeLights(ls)) == Some(ls)
    ensures 4 * |EncodeLights(ls)| == LightBlobBytes(|ls|)
  {
    if |ls| > 0 {
      var blob := EncodeLights(ls);
      assert blob[..LightWords] == EncodeLight(ls[0]);
      assert blob[LightWords..] == EncodeLights(ls[1..]);
      DecodeEncodeLight(ls[0]);
      DecodeEncodeLights(ls[1..]);
      assert [ls[0]] + ls[1..] == ls;
    }
  }
}
