/** Where each level and frame of the luma pyramid sits in its flat buffer. */
module Pyramid {
  import opened Schedule
  import opened Numbers

  /** The bytes of one value. */
  const VALUE_BYTES: nat := 4

  function NextMultiple(n: nat, step: nat): (r: nat)
    requires step > 0
  {
    (n + step - 1) / step * step
  }

  /** How many values cover one alignment boundary. */
  function PerBoundary(align: nat): (per: nat)
    ensures per > 0
  {
    if align <= VALUE_BYTES then 1 else (align + VALUE_BYTES - 1) / VALUE_BYTES
  }

  /** A count of values rounded up to whole alignment boundaries. */
  function PadElems(align: nat, elems: nat): nat { NextMultiple(elems, PerBoundary(align)) }

  function Halved(n: nat): nat { if n / 2 < 1 then 1 else n / 2 }

  datatype Dims = Dims(width: nat, height: nat)

  function LevelDims(dims: Dims, level: nat): Dims {
    if level == 0 then dims
    else
      var above := LevelDims(dims, level - 1);
      Dims(Halved(above.width), Halved(above.height))
  }

  method ComputeLevelDims(dims: Dims, level: nat) returns (r: Dims)
    ensures r == LevelDims(dims, level)
  {
    r := dims;
    for i := 0 to level
      invariant r == LevelDims(dims, i)
    {
      r := Dims(Halved(r.width), Halved(r.height));
    }
  }

  /** The values one frame takes up at a level. */
  function SlotPixels(dims: Dims, level: nat, align: nat): nat {
    var at := LevelDims(dims, level);
    PadElems(align, at.width * at.height)
  }

  /** What one frame takes up at each level. */
  function Sizes(dims: Dims, levels: nat, align: nat): (sizes: seq<nat>)
    ensures |sizes| == levels
    ensures forall level | 0 <= level < levels :: sizes[level] == SlotPixels(dims, level, align)
  {
    seq(levels, level requires 0 <= level < levels => SlotPixels(dims, level, align))
  }

  /** What one frame takes up in the levels below `level`. */
  function Below(sizes: seq<nat>, level: nat): nat
    requires level <= |sizes|
  {
    if level == 0 then 0 else Below(sizes, level - 1) + sizes[level - 1]
  }

  /** The first value of one frame's slot in one level. */
  function SlotStart(sizes: seq<nat>, frames: nat, level: nat, frame: nat): nat
    requires level < |sizes|
  {
    Times(frames, Below(sizes, level)) + Times(frame, sizes[level])
  }

  /** Where a level starts, in values, summed level by level. */
  function LevelStart(sizes: seq<nat>, frames: nat, level: nat): nat
    requires level <= |sizes|
  {
    if level == 0 then 0 else LevelStart(sizes, frames, level - 1) + Times(frames, sizes[level - 1])
  }

  lemma {:induction false} LevelStartIs(sizes: seq<nat>, frames: nat, level: nat)
    requires level <= |sizes|
    ensures LevelStart(sizes, frames, level) == Times(frames, Below(sizes, level))
  {
    if level > 0 {
      LevelStartIs(sizes, frames, level - 1);
      Distribute(frames, Below(sizes, level - 1), sizes[level - 1]);
    }
  }

  method PixelsPerFrame(dims: Dims, levels: nat, align: nat) returns (pixels: nat)
    ensures pixels == Below(Sizes(dims, levels, align), levels)
  {
    pixels := 0;
    ghost var sizes := Sizes(dims, levels, align);
    for level := 0 to levels
      invariant pixels == Below(sizes, level)
    {
      pixels := pixels + SlotPixels(dims, level, align);
    }
  }

  method SlotByteOffset(dims: Dims, frames: nat, ghost levels: nat, level: nat, frame: nat, align: nat)
    returns (offset: nat)
    requires level < levels
    ensures offset == SlotStart(Sizes(dims, levels, align), frames, level, frame) * VALUE_BYTES
  {
    ghost var sizes := Sizes(dims, levels, align);
    var pixels := 0;
    for lower := 0 to level
      invariant pixels == LevelStart(sizes, frames, lower)
    {
      var size := SlotPixels(dims, lower, align);
      pixels := pixels + Times(frames, size);
    }
    LevelStartIs(sizes, frames, level);
    var size := SlotPixels(dims, level, align);
    pixels := pixels + Times(frame, size);
    offset := pixels * VALUE_BYTES;
  }

  function Times(n: nat, size: nat): nat { n * size }

  lemma Distribute(n: nat, a: nat, b: nat)
    ensures n * (a + b) == n * a + n * b
  {
  }

  // ---------------------------------------------------------------------------------------------
  // What the layout promises
  // ---------------------------------------------------------------------------------------------

  /** A level is the full size divided by a power of two, and never smaller than one pixel. */
  lemma {:induction false} LevelIsScaled(dims: Dims, level: nat)
    requires dims.width >= 1 && dims.height >= 1
    ensures LevelDims(dims, level) == Dims(Max(1, dims.width / Pow2(level)), Max(1, dims.height / Pow2(level)))
  {
    if level > 0 {
      LevelIsScaled(dims, level - 1);
      HalfOfQuotient(dims.width, Pow2(level - 1));
      HalfOfQuotient(dims.height, Pow2(level - 1));
    }
  }

  lemma HalfOfQuotient(n: nat, d: nat)
    requires d >= 1
    ensures n / d / 2 == n / (2 * d)
  {
    var q := n / d / 2;
    var r := n - 2 * d * q;
    assert n / d == 2 * q + n / d % 2;
    assert n == d * (n / d) + n % d;
    assert d * (n / d) == 2 * d * q + d * (n / d % 2) by {
      assert d * (2 * q + n / d % 2) == 2 * d * q + d * (n / d % 2);
    }
    assert 0 <= r < 2 * d;
    QuotientIs(n, 2 * d, q, r);
  }

  lemma QuotientIs(n: nat, d: nat, q: nat, r: nat)
    requires d > 0 && r < d && n == d * q + r
    ensures n / d == q && n % d == r
  {
    assert n == d * (n / d) + n % d;
    var apart := n / d - q;
    assert d * apart == d * (n / d) - d * q;
    WholeSteps(d, apart);
  }

  /** A boundary is the fewest values that cover the alignment. */
  lemma BoundaryCovers(align: nat)
    ensures align <= PerBoundary(align) * VALUE_BYTES
    ensures align > 0 ==> (PerBoundary(align) - 1) * VALUE_BYTES < align
  {
  }

  lemma PaddingCovers(n: nat, step: nat)
    requires step > 0
    ensures n <= NextMultiple(n, step) < n + step && NextMultiple(n, step) % step == 0
  {
    var q := (n + step - 1) / step;
    assert n + step - 1 == step * q + (n + step - 1) % step;
    QuotientIs(step * q, step, q, 0);
    assert q * step == step * q;
  }

  /** The slots of lower levels end where a level begins. */
  lemma {:induction false} LevelsStack(sizes: seq<nat>, lower: nat, level: nat)
    requires lower < level <= |sizes|
    ensures Below(sizes, lower) + sizes[lower] <= Below(sizes, level)
    decreases level
  {
    if lower + 1 < level {
      LevelsStack(sizes, lower, level - 1);
    }
  }

  lemma Scales(n: nat, a: nat, b: nat)
    requires a <= b
    ensures n * a <= n * b
  {
  }

  /** A slot ends before any later level begins. */
  lemma SlotEndsBefore(sizes: seq<nat>, frames: nat, level: nat, frame: nat, later: nat)
    requires frame < frames && level < later <= |sizes|
    ensures SlotStart(sizes, frames, level, frame) + sizes[level] <= frames * Below(sizes, later)
  {
    LevelsStack(sizes, level, later);
    FramesEndBefore(frames, frame, sizes[level], Below(sizes, level), Below(sizes, later));
  }

  lemma FramesEndBefore(frames: nat, frame: nat, size: nat, lower: nat, upper: nat)
    requires frame < frames && lower + size <= upper
    ensures frames * lower + frame * size + size <= frames * upper
  {
    var below, within, before, after := frames * lower, frames * size, frame * size, frames * upper;
    assert before + size <= within by {
      Scales(size, frame + 1, frames);
      Distribute(size, frame, 1);
    }
    assert below + within <= after by {
      Scales(frames, lower + size, upper);
      Distribute(frames, lower, size);
    }
  }

  /** Every slot lies within the buffer, and no two overlap: of any two, the earlier ends before the
  later starts. */
  lemma SlotsAreDisjoint(sizes: seq<nat>, frames: nat, level: nat, frame: nat, laterLevel: nat, laterFrame: nat)
    requires frame < frames && laterFrame < frames && laterLevel < |sizes|
    requires level < laterLevel || (level == laterLevel && frame < laterFrame)
    ensures SlotStart(sizes, frames, level, frame) + sizes[level]
         <= SlotStart(sizes, frames, laterLevel, laterFrame)
    ensures SlotStart(sizes, frames, laterLevel, laterFrame) + sizes[laterLevel]
         <= frames * Below(sizes, |sizes|)
  {
    if level < laterLevel {
      SlotEndsBefore(sizes, frames, level, frame, laterLevel);
    } else {
      Scales(sizes[level], frame + 1, laterFrame);
      Distribute(sizes[level], frame, 1);
    }
    SlotEndsBefore(sizes, frames, laterLevel, laterFrame, |sizes|);
  }

  lemma MultiplesAdd(a: nat, b: nat, d: nat)
    requires d > 0 && a % d == 0 && b % d == 0
    ensures (a + b) % d == 0
  {
    QuotientIs(a + b, d, a / d + b / d, 0);
  }

  lemma MultiplesScale(n: nat, a: nat, d: nat)
    requires d > 0 && a % d == 0
    ensures n * a % d == 0
  {
    assert n * a == d * (n * (a / d)) by {
      assert a == d * (a / d);
      assert n * (d * (a / d)) == d * (n * (a / d));
    }
    QuotientIs(n * a, d, n * (a / d), 0);
  }

  lemma {:induction false} LevelsArePadded(sizes: seq<nat>, level: nat, per: nat)
    requires per > 0 && level <= |sizes| && forall i | 0 <= i < |sizes| :: sizes[i] % per == 0
    ensures Below(sizes, level) % per == 0
  {
    if level > 0 {
      LevelsArePadded(sizes, level - 1, per);
      MultiplesAdd(Below(sizes, level - 1), sizes[level - 1], per);
    }
  }

  /** Slots of padded sizes start on whole boundaries. */
  lemma SlotStartsOnBoundary(sizes: seq<nat>, frames: nat, level: nat, frame: nat, per: nat)
    requires per > 0 && level < |sizes| && forall i | 0 <= i < |sizes| :: sizes[i] % per == 0
    ensures SlotStart(sizes, frames, level, frame) % per == 0
  {
    LevelsArePadded(sizes, level, per);
    MultiplesScale(frames, Below(sizes, level), per);
    MultiplesScale(frame, sizes[level], per);
    MultiplesAdd(frames * Below(sizes, level), frame * sizes[level], per);
  }

  /** Every size is padded to whole boundaries, and no further than it takes to hold its level's pixels. */
  lemma SizesArePadded(dims: Dims, levels: nat, align: nat)
    ensures var sizes := Sizes(dims, levels, align);
            forall level | 0 <= level < levels ::
              && sizes[level] % PerBoundary(align) == 0
              && LevelDims(dims, level).width * LevelDims(dims, level).height <= sizes[level]
                 < LevelDims(dims, level).width * LevelDims(dims, level).height + PerBoundary(align)
  {
    forall level | 0 <= level < levels
      ensures SlotPixels(dims, level, align) % PerBoundary(align) == 0
      ensures LevelDims(dims, level).width * LevelDims(dims, level).height <= SlotPixels(dims, level, align)
              < LevelDims(dims, level).width * LevelDims(dims, level).height + PerBoundary(align)
    {
      PaddingCovers(LevelDims(dims, level).width * LevelDims(dims, level).height, PerBoundary(align));
    }
  }

  /** A whole boundary of values is a whole number of alignments exactly when the alignment and the
  value's size divide one another, as they do when the alignment is a power of two. */
  lemma BoundaryIsAligned(align: nat)
    requires align > 0
    ensures PerBoundary(align) * VALUE_BYTES % align == 0
            <==> VALUE_BYTES % align == 0 || align % VALUE_BYTES == 0
  {
    if align > VALUE_BYTES {
      var bytes := PerBoundary(align) * VALUE_BYTES;
      assert align <= bytes < align + VALUE_BYTES < 2 * align;
      if bytes > align {
        QuotientIs(bytes, align, 1, bytes - align);
      }
    }
  }

  lemma {:induction false} PowersDivide(exponent: nat)
    ensures VALUE_BYTES % Pow2(exponent) == 0 || Pow2(exponent) % VALUE_BYTES == 0
  {
    if exponent > 2 {
      PowersDivide(exponent - 1);
      if exponent == 3 { assert Pow2(3) == 2 * Pow2(2) == 4 * Pow2(1) == 8 * Pow2(0); }
    } else {
      assert Pow2(0) == 1 && Pow2(1) == 2 && Pow2(2) == 2 * Pow2(1);
    }
  }

  lemma BytesAreAligned(start: nat, per: nat, align: nat)
    requires per > 0 && align > 0 && start % per == 0 && per * VALUE_BYTES % align == 0
    ensures start * VALUE_BYTES % align == 0
  {
    MultiplesScale(start / per, per * VALUE_BYTES, align);
    assert start == per * (start / per);
    assert start / per * (per * VALUE_BYTES) == start * VALUE_BYTES;
  }

  /** Whatever the dimensions, the frames, the levels and the power-of-two alignment: every slot
  starts on an aligned byte, holds its level's pixels with less than one alignment to spare, lies within
  the buffer, and overlaps no later slot. */
  lemma EverySlotIsSound(dims: Dims, frames: nat, levels: nat, exponent: nat, level: nat, frame: nat,
                         laterLevel: nat, laterFrame: nat)
    requires frame < frames && laterFrame < frames && level < levels && laterLevel < levels
    ensures var align := Pow2(exponent);
            var sizes := Sizes(dims, levels, align);
            var start := SlotStart(sizes, frames, level, frame);
            && start * VALUE_BYTES % align == 0
            && var pixels := LevelDims(dims, level).width * LevelDims(dims, level).height;
            && pixels <= sizes[level] && (sizes[level] - pixels) * VALUE_BYTES < align
            && start + sizes[level] <= frames * Below(sizes, levels)
            && (level < laterLevel || (level == laterLevel && frame < laterFrame) ==>
                  start + sizes[level] <= SlotStart(sizes, frames, laterLevel, laterFrame))
  {
    var align := Pow2(exponent);
    var sizes := Sizes(dims, levels, align);
    SizesArePadded(dims, levels, align);
    SlotStartsOnBoundary(sizes, frames, level, frame, PerBoundary(align));
    PowersDivide(exponent);
    BoundaryIsAligned(align);
    BytesAreAligned(SlotStart(sizes, frames, level, frame), PerBoundary(align), align);
    BoundaryCovers(align);
    SlotEndsBefore(sizes, frames, level, frame, levels);
    if level < laterLevel || (level == laterLevel && frame < laterFrame) {
      SlotsAreDisjoint(sizes, frames, level, frame, laterLevel, laterFrame);
    }
  }
}
