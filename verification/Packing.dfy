/** Samples packed into words, and the strided threads that unpack and pack them.

A word is its unsigned value. It holds two 16-bit or four 8-bit codes, lowest lane first. Values are
reals.
 */
module Packing {
  import opened Numbers

  type Word = nat

  /** How many codes a word holds, and the largest code there is. */
  datatype Format = Format(samples: nat, max: nat)
  {
    predicate Valid() { (samples == 2 && 1 <= max <= 0xFFFF) || (samples == 4 && 1 <= max <= 0xFF) }

    /** One past the largest code a lane can hold. */
    function Base(): (base: nat)
      ensures base > 0
    {
      if samples == 2 then 0x1_0000 else 0x100
    }

    /** What a code counts for in its lane: a shift by whole lanes, as a factor. */
    function Scale(lane: nat): (scale: nat)
      ensures scale > 0
    {
      if lane == 0 then 1
      else if samples == 2 then 0x1_0000
      else if lane == 1 then 0x100
      else if lane == 2 then 0x1_0000
      else 0x100_0000
    }

    /** A word shifted down to one of its lanes. */
    function ShiftedDown(word: Word, lane: nat): Word {
      if lane == 0 then word
      else if samples == 2 then word / 0x1_0000
      else if lane == 1 then word / 0x100
      else if lane == 2 then word / 0x1_0000
      else word / 0x100_0000
    }

    /** The code in one lane of a word: the word shifted down, with the other lanes masked off. */
    function Code(word: Word, lane: nat): (code: nat)
      ensures code < Base()
    {
      if samples == 2 then ShiftedDown(word, lane) % 0x1_0000 else ShiftedDown(word, lane) % 0x100
    }

    /** The first `lanes` codes, each shifted to its lane and combined bit by bit. */
    function Packed(codes: seq<nat>, lanes: nat): Word
      requires lanes <= |codes|
    {
      if lanes == 0 then 0 else Or(Packed(codes, lanes - 1), codes[lanes - 1] * Scale(lanes - 1))
    }
  }

  /** The bits set in either number. */
  function Or(a: nat, b: nat): nat
    decreases a + b
  {
    if a == 0 then b
    else if b == 0 then a
    else 2 * Or(a / 2, b / 2) + (if a % 2 == 1 || b % 2 == 1 then 1 else 0)
  }

  /** Numbers with no bits in common add up. */
  lemma {:induction false} OrAdds(a: nat, b: nat, shift: nat)
    requires a < Pow2(shift)
    ensures Or(a, b * Pow2(shift)) == a + b * Pow2(shift)
  {
    if shift > 0 && a > 0 && b * Pow2(shift) > 0 {
      var half := b * Pow2(shift - 1);
      assert b * Pow2(shift) == 2 * half;
      OrAdds(a / 2, b, shift - 1);
    }
  }

  lemma Powers()
    ensures Pow2(8) == 0x100 && Pow2(16) == 0x1_0000 && Pow2(24) == 0x100_0000
  {
    assert Pow2(8) == 0x100 by {
      assert Pow2(4) == 16;
    }
    assert Pow2(16) == 0x1_0000 by {
      assert Pow2(12) == 16 * Pow2(8);
    }
    assert Pow2(24) == 0x100_0000 by {
      assert Pow2(20) == 16 * Pow2(16);
    }
  }

  /** A format is valid exactly when its codes, of which there are at least two, fit the lanes of a 32-bit word. */
  lemma ValidFits(f: Format)
    ensures f.Valid() <==> (f.samples == 2 || f.samples == 4) && 1 < f.max + 1 <= Pow2(32 / f.samples) == f.Base()
  {
    Powers();
  }

  /** Packed codes are the digits of a number, lowest first. */
  lemma PackedIsDigits(f: Format, codes: seq<nat>)
    requires f.Valid() && |codes| == f.samples && forall i | 0 <= i < |codes| :: codes[i] < f.Base()
    ensures f.Packed(codes, f.samples)
         == if f.samples == 2 then codes[0] + codes[1] * 0x1_0000
            else codes[0] + codes[1] * 0x100 + codes[2] * 0x1_0000 + codes[3] * 0x100_0000
  {
    Powers();
    assert f.Packed(codes, 1) == Or(f.Packed(codes, 0), codes[0] * f.Scale(0)) == codes[0];
    if f.samples == 2 {
      OrAdds(codes[0], codes[1], 16);
    } else {
      OrAdds(codes[0], codes[1], 8);
      OrAdds(codes[0] + codes[1] * 0x100, codes[2], 16);
      OrAdds(codes[0] + codes[1] * 0x100 + codes[2] * 0x1_0000, codes[3], 24);
      assert f.Packed(codes, 2) == codes[0] + codes[1] * 0x100;
      assert f.Packed(codes, 3) == codes[0] + codes[1] * 0x100 + codes[2] * 0x1_0000;
    }
  }

  lemma TwoDigits(a: nat, b: nat)
    requires a < 0x1_0000 && b < 0x1_0000
    ensures var w := a + b * 0x1_0000; w % 0x1_0000 == a && w / 0x1_0000 % 0x1_0000 == b
  {
  }

  lemma FourDigits(a: nat, b: nat, c: nat, d: nat)
    requires a < 0x100 && b < 0x100 && c < 0x100 && d < 0x100
    ensures var w := a + b * 0x100 + c * 0x1_0000 + d * 0x100_0000;
            && w % 0x100 == a && w / 0x100 % 0x100 == b
            && w / 0x1_0000 % 0x100 == c && w / 0x100_0000 % 0x100 == d
  {
    var w := a + b * 0x100 + c * 0x1_0000 + d * 0x100_0000;
    assert w / 0x100 == b + c * 0x100 + d * 0x1_0000;
    assert w / 0x1_0000 == c + d * 0x100;
    assert w / 0x100_0000 == d;
  }

  /** Each lane reads back the code that was packed into it. */
  lemma PackedReadsBack(f: Format, codes: seq<nat>, lane: nat)
    requires f.Valid() && lane < |codes| == f.samples && forall i | 0 <= i < |codes| :: codes[i] < f.Base()
    ensures f.Code(f.Packed(codes, f.samples), lane) == codes[lane]
  {
    PackedIsDigits(f, codes);
    if f.samples == 2 {
      TwoDigits(codes[0], codes[1]);
    } else {
      FourDigits(codes[0], codes[1], codes[2], codes[3]);
    }
  }

  lemma WordIsDigits(f: Format, word: Word)
    requires f.Valid() && word < 0x1_0000_0000
    ensures word == if f.samples == 2 then f.Code(word, 0) + f.Code(word, 1) * 0x1_0000
                    else f.Code(word, 0) + f.Code(word, 1) * 0x100 + f.Code(word, 2) * 0x1_0000
                         + f.Code(word, 3) * 0x100_0000
  {
    if f.samples == 4 {
      assert word / 0x1_0000 == word / 0x100 / 0x100;
      assert word / 0x100_0000 == word / 0x1_0000 / 0x100 < 0x100;
    }
  }

  /** A word is what its own codes pack to, and no other codes pack to it. */
  lemma WordIsPacked(f: Format, word: Word, codes: seq<nat>)
    requires f.Valid() && word < 0x1_0000_0000
    requires |codes| == f.samples && forall i | 0 <= i < |codes| :: codes[i] < f.Base()
    ensures f.Packed(codes, f.samples) == word
            <==> forall lane | 0 <= lane < f.samples :: codes[lane] == f.Code(word, lane)
  {
    if f.Packed(codes, f.samples) == word {
      forall lane | 0 <= lane < f.samples
        ensures codes[lane] == f.Code(word, lane)
      {
        PackedReadsBack(f, codes, lane);
      }
    }
    if forall lane | 0 <= lane < f.samples :: codes[lane] == f.Code(word, lane) {
      PackedIsDigits(f, codes);
      WordIsDigits(f, word);
    }
  }

  // ---------------------------------------------------------------------------------------------
  // Values
  // ---------------------------------------------------------------------------------------------

  function Normal(code: nat, max: nat): real
    requires max >= 1
  {
    code as real / max as real
  }

  function Clamp(value: real): real { if value < 0.0 then 0.0 else if value > 1.0 then 1.0 else value }

  /** The nearest code to a value, clamped to the format's. */
  function Quantised(value: real, max: nat): (code: nat)
    requires max >= 1
    ensures code <= max
  {
    var scaled := Clamp(value) * max as real;
    assert 0.0 <= scaled <= max as real;
    (scaled + 0.5).Floor
  }

  /** A code comes back from its value exactly when it is one of the format's. */
  lemma QuantisedBack(code: nat, max: nat)
    requires max >= 1
    ensures Quantised(Normal(code, max), max) == if code <= max then code else max
  {
    assert Normal(code, max) * max as real == code as real;
    if code <= max {
      assert Normal(code, max) <= 1.0;
    } else {
      assert Normal(code, max) > 1.0;
    }
  }

  /** Whether `code` is the nearest to a value from 0 to 1, the upper one from halfway, and for any other value
  the end it lies beyond. */
  predicate IsNearest(code: nat, value: real, max: nat) {
    if value < 0.0 then code == 0
    else if value > 1.0 then code == max
    else -0.5 < code as real - value * max as real <= 0.5
  }

  lemma NearestCode(value: real, max: nat)
    requires max >= 1
    ensures IsNearest(Quantised(value, max), value, max)
  {
  }

  /** Codes share out the values from 0 to 1 evenly. */
  lemma CodesAreEven(code: nat, max: nat)
    requires code < max
    ensures Normal(0, max) == 0.0 && Normal(max, max) == 1.0
    ensures (Normal(code + 1, max) - Normal(code, max)) * max as real == 1.0
  {
    assert Normal(code, max) * max as real == code as real;
    assert Normal(code + 1, max) * max as real == (code + 1) as real;
  }

  /** Where a pixel's first channel sits in an interleaved frame. */
  function FirstChannel(pixel: nat, channels: nat): (base: nat)
    requires channels == 1 || channels == 2
    ensures base == pixel * channels
  {
    if channels == 1 then pixel else pixel + pixel
  }

  /** A pixel's value, read from its word-packed plane. */
  function Sample(f: Format, plane: seq<Word>, pixel: nat): real
    requires f.Valid() && pixel / f.samples < |plane|
  {
    Normal(f.Code(plane[pixel / f.samples], pixel % f.samples), f.max)
  }

  /** The codes of one word of a plane: a frame's quantised values, and zero past its last pixel. */
  function LaneCodes(f: Format, frame: seq<real>, pixels: nat, channels: nat, channel: nat, word: nat):
    (codes: seq<nat>)
    requires f.Valid() && (channels == 1 || channels == 2) && channel < channels && |frame| == pixels * channels
    ensures |codes| == f.samples
    ensures forall lane | 0 <= lane < f.samples :: codes[lane] ==
              LaneCode(f, frame, pixels, channels, channel, word * f.samples + lane)
  {
    seq<nat>(f.samples, lane requires 0 <= lane < f.samples =>
      LaneCode(f, frame, pixels, channels, channel, word * f.samples + lane))
  }

  function LaneCode(f: Format, frame: seq<real>, pixels: nat, channels: nat, channel: nat, pixel: nat): (code: nat)
    requires f.Valid() && (channels == 1 || channels == 2) && channel < channels && |frame| == pixels * channels
    ensures code < f.Base()
  {
    if pixel < pixels then Quantised(frame[FirstChannel(pixel, channels) + channel], f.max) else 0
  }

  /** The word an egress writes. */
  function EgressWord(f: Format, frame: seq<real>, pixels: nat, channels: nat, channel: nat, word: nat): Word
    requires f.Valid() && (channels == 1 || channels == 2) && channel < channels && |frame| == pixels * channels
  {
    f.Packed(LaneCodes(f, frame, pixels, channels, channel, word), f.samples)
  }

  lemma PixelIsInFrame(pixel: nat, pixels: nat, channels: nat, channel: nat)
    requires (channels == 1 || channels == 2) && channel < channels && pixel < pixels
    ensures FirstChannel(pixel, channels) == pixel * channels
    ensures pixel * channels + channel < pixels * channels
  {
  }

  /** Whether one lane of a plane's word holds the nearest code to its pixel's value, and nothing past the last
  pixel. */
  predicate LaneIsNearest(f: Format, content: Word, frame: seq<real>, pixels: nat, channels: nat, channel: nat,
                          word: nat, lane: nat)
  {
    var code := f.Code(content, lane);
    var pixel := word * f.samples + lane;
    if pixels <= pixel then code == 0
    else
      && pixel * channels + channel < |frame|
      && IsNearest(code, frame[pixel * channels + channel], f.max)
  }

  /** Every lane of a word an egress writes reads back as it is to be. */
  lemma WordHoldsNearest(f: Format, frame: seq<real>, pixels: nat, channels: nat, channel: nat, word: nat, lane: nat)
    requires f.Valid() && (channels == 1 || channels == 2) && channel < channels && |frame| == pixels * channels
    requires lane < f.samples
    ensures LaneIsNearest(f, EgressWord(f, frame, pixels, channels, channel, word), frame, pixels, channels, channel,
                          word, lane)
  {
    hide Format.Code, Format.Packed, IsNearest, Quantised;
    var pixel := word * f.samples + lane;
    PackedReadsBack(f, LaneCodes(f, frame, pixels, channels, channel, word), lane);
    if pixel < pixels {
      PixelIsInFrame(pixel, pixels, channels, channel);
      NearestCode(frame[pixel * channels + channel], f.max);
    }
  }

  /** A frame holds what an ingest of `plane` puts in one of its channels. */
  ghost predicate Ingested(f: Format, plane: seq<Word>, frame: seq<real>, pixels: nat, channels: nat, channel: nat)
    requires f.Valid() && (channels == 1 || channels == 2) && channel < channels && |frame| == pixels * channels
  {
    && pixels <= |plane| * f.samples
    && forall pixel | 0 <= pixel < pixels ::
         && pixel / f.samples < |plane|
         && frame[FirstChannel(pixel, channels) + channel] == Sample(f, plane, pixel)
  }

  /** An egress after an ingest restores exactly the words whose codes are all the format's and whose
  lanes past the last pixel are zero. */
  lemma EgressRestores(f: Format, plane: seq<Word>, frame: seq<real>, pixels: nat, channels: nat, channel: nat,
                       word: nat)
    requires f.Valid() && (channels == 1 || channels == 2) && channel < channels && |frame| == pixels * channels
    requires Ingested(f, plane, frame, pixels, channels, channel)
    requires word < |plane| && plane[word] < 0x1_0000_0000
    ensures EgressWord(f, frame, pixels, channels, channel, word) == plane[word]
            <==> forall lane | 0 <= lane < f.samples :: LaneIsClean(f, plane[word], pixels, word, lane)
  {
    hide Ingested, LaneCode, LaneIsClean;
    var codes := LaneCodes(f, frame, pixels, channels, channel, word);
    WordIsPacked(f, plane[word], codes);
    forall lane | 0 <= lane < f.samples
      ensures codes[lane] == f.Code(plane[word], lane) <==> LaneIsClean(f, plane[word], pixels, word, lane)
    {
      LaneRestores(f, plane, frame, pixels, channels, channel, word, lane);
    }
  }

  /** A lane holds a code of the format's, or nothing past the last pixel. */
  predicate LaneIsClean(f: Format, content: Word, pixels: nat, word: nat, lane: nat) {
    f.Code(content, lane) <= if word * f.samples + lane < pixels then f.max else 0
  }

  lemma LaneRestores(f: Format, plane: seq<Word>, frame: seq<real>, pixels: nat, channels: nat, channel: nat,
                     word: nat, lane: nat)
    requires f.Valid() && (channels == 1 || channels == 2) && channel < channels && |frame| == pixels * channels
    requires Ingested(f, plane, frame, pixels, channels, channel)
    requires word < |plane| && lane < f.samples
    ensures LaneCode(f, frame, pixels, channels, channel, word * f.samples + lane) == f.Code(plane[word], lane)
            <==> LaneIsClean(f, plane[word], pixels, word, lane)
  {
    LaneOf(word, lane, f.samples);
    QuantisedBack(f.Code(plane[word], lane), f.max);
  }

  lemma LaneOf(word: nat, lane: nat, samples: nat)
    requires lane < samples
    ensures (word * samples + lane) / samples == word && (word * samples + lane) % samples == lane
  {
    var pixel := word * samples + lane;
    var apart := pixel / samples - word;
    assert pixel == samples * (pixel / samples) + pixel % samples;
    assert samples * apart == samples * (pixel / samples) - word * samples;
    WholeSteps(samples, apart);
  }
}
