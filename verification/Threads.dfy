/** The kernels that copy, unpack and pack words, as loops of one thread and as launches of many. */
module Threads {
  import opened Numbers
  import opened Packing
  import opened Launches

  /** One row per channel. */
  function Rows<T>(row0: seq<T>, row1: seq<T>, channels: nat): (rows: seq<seq<T>>)
    requires channels == 1 || channels == 2
    ensures |rows| == channels && rows[0] == row0 && (channels == 2 ==> rows[1] == row1)
  {
    if channels == 1 then [row0] else [row0, row1]
  }

  /** Every channel of index `i` stored. */
  ghost function RoundStored<T>(rows: seq<seq<T>>, due: seq<seq<T>>, words: nat, i: nat): (after: seq<seq<T>>)
    requires Fits(rows, due, words) && i < words
  {
    if |rows| == 1 then [rows[0][i := due[0][i]]]
    else [rows[0][i := due[0][i]], rows[1][i := due[1][i]]]
  }

  /** The stores of a round, one after another. */
  lemma RoundIsStored<T>(rows: seq<seq<T>>, due: seq<seq<T>>, words: nat, total: nat, thread: nat, round: nat, i: nat)
    requires Fits(rows, due, words) && i == thread + round * total < words
    ensures |rows| == 1 ==> Stored(rows, due, words, total, thread, round) == RoundStored(rows, due, words, i)
    ensures |rows| == 2 ==>
              var first := Stored(rows, due, words, total, thread, 2 * round);
              Stored(first, due, words, total, thread, 2 * round + 1) == RoundStored(rows, due, words, i)
  {
    assert (2 * round) / 2 == round && (2 * round + 1) / 2 == round;
    assert (2 * round) % 2 == 0 && (2 * round + 1) % 2 == 1;
  }

  /** A thread's next round on its own. */
  lemma AloneRound<T>(rows: seq<seq<T>>, due: seq<seq<T>>, words: nat, total: nat, thread: nat, round: nat, i: nat)
    requires Fits(rows, due, words) && i == thread + round * total < words
    ensures Interleaved(rows, due, words, total, Alone(thread, TurnOf(|rows|, round + 1, 0)))
         == RoundStored(Interleaved(rows, due, words, total, Alone(thread, TurnOf(|rows|, round, 0))), due, words, i)
  {
    hide Alone, Interleaved, RoundStored, Stored;
    var turns := TurnOf(|rows|, round, 0);
    RoundIsStored(Interleaved(rows, due, words, total, Alone(thread, turns)), due, words, total, thread, round, i);
    AloneNext(rows, due, words, total, thread, turns);
    if |rows| == 2 { AloneNext(rows, due, words, total, thread, turns + 1); }
  }

  /** Nothing stored yet. */
  lemma AloneBegins<T>(rows: seq<seq<T>>, due: seq<seq<T>>, words: nat, total: nat, thread: nat)
    requires Fits(rows, due, words)
    ensures Interleaved(rows, due, words, total, Alone(thread, TurnOf(|rows|, 0, 0))) == rows
  {
  }

  /** One thread's copy of its words. */
  method CopyWords(src: array<Word>, dst: array<Word>, words: nat, start: nat, total: nat)
    requires start < total && words <= src.Length && words <= dst.Length && src != dst
    modifies dst
    ensures forall i | 0 <= i < dst.Length ::
              dst[i] == if i < words && Covers(start, total, i) then src[i] else old(dst[i])
  {
    hide Alone, Interleaved;
    var idx := start;
    ghost var before, due, round := [dst[..]], [src[..]], 0;
    AloneBegins(before, due, words, total, start);
    while idx < words
      invariant idx == start + round * total
      invariant [dst[..]] == Interleaved(before, due, words, total, Alone(start, round))
    {
      AloneRound(before, due, words, total, start, round, idx);
      dst[idx] := src[idx];
      idx := idx + total;
      round := round + 1;
    }
    forall i | 0 <= i < dst.Length
      ensures dst[i] == if i < words && Covers(start, total, i) then src[i] else old(dst[i])
    {
      AloneStoresShare(before, due, words, total, start, round, 0, i);
      assert dst[i] == [dst[..]][0][i];
    }
  }

  // ---------------------------------------------------------------------------------------------
  // Packing
  // ---------------------------------------------------------------------------------------------

  /** Whether a frame and its planes have the sizes a launch needs. */
  predicate Sized(f: Format, pixels: nat, channels: nat, frame: nat) {
    f.Valid() && (channels == 1 || channels == 2) && frame == pixels * channels
  }

  /** Adds one lane to each plane's word. A lane past the last pixel adds nothing. */
  method PackLane(f: Format, frame: seq<real>, pixels: nat, channels: nat, pixel: nat, lane: nat,
                  packed0: Word, packed1: Word)
    returns (next0: Word, next1: Word)
    requires Sized(f, pixels, channels, |frame|)
    ensures next0 == Or(packed0, LaneCode(f, frame, pixels, channels, 0, pixel) * f.Scale(lane))
    ensures channels == 2 ==> next1 == Or(packed1, LaneCode(f, frame, pixels, channels, 1, pixel) * f.Scale(lane))
  {
    next0, next1 := packed0, packed1;
    if pixel < pixels {
      var base := FirstChannel(pixel, channels);
      next0 := Or(packed0, Quantised(frame[base], f.max) * f.Scale(lane));
      if channels > 1 {
        next1 := Or(packed1, Quantised(frame[base + 1], f.max) * f.Scale(lane));
      }
    }
  }

  /** Packs one word of each plane, lane by lane. */
  method PackWord(f: Format, frame: seq<real>, pixels: nat, channels: nat, word: nat)
    returns (packed0: Word, packed1: Word)
    requires Sized(f, pixels, channels, |frame|)
    ensures packed0 == EgressWord(f, frame, pixels, channels, 0, word)
    ensures channels == 2 ==> packed1 == EgressWord(f, frame, pixels, channels, 1, word)
  {
    packed0, packed1 := 0, 0;
    ghost var codes0 := LaneCodes(f, frame, pixels, channels, 0, word);
    ghost var codes1 := if channels == 2 then LaneCodes(f, frame, pixels, channels, 1, word) else codes0;
    for lane := 0 to f.samples
      invariant packed0 == f.Packed(codes0, lane)
      invariant channels == 2 ==> packed1 == f.Packed(codes1, lane)
    {
      packed0, packed1 := PackLane(f, frame, pixels, channels, word * f.samples + lane, lane, packed0, packed1);
    }
  }

  /** The words an egress is to write to one plane. */
  ghost function EgressRow(f: Format, frame: seq<real>, pixels: nat, channels: nat, channel: nat, words: nat):
    (row: seq<Word>)
    requires Sized(f, pixels, channels, |frame|)
    ensures channel < channels ==>
              |row| == words
              && forall word | 0 <= word < words :: row[word] == EgressWord(f, frame, pixels, channels, channel, word)
  {
    if channel >= channels then []
    else seq(words, word requires 0 <= word => EgressWord(f, frame, pixels, channels, channel, word))
  }

  ghost function EgressDue(f: Format, frame: seq<real>, pixels: nat, channels: nat, words: nat): seq<seq<Word>>
    requires Sized(f, pixels, channels, |frame|)
  {
    Rows(EgressRow(f, frame, pixels, channels, 0, words), EgressRow(f, frame, pixels, channels, 1, words), channels)
  }

  /** One thread's share of packing a frame: its own words of each plane and no others, in the order
  in which a launch has it store them. */
  method EgressThread(f: Format, frame: seq<real>, plane0: array<Word>, plane1: array<Word>,
                      pixels: nat, channels: nat, words: nat, start: nat, total: nat)
    returns (ghost round: nat)
    requires Sized(f, pixels, channels, |frame|) && start < total && plane0 != plane1
    requires words <= plane0.Length && (channels == 2 ==> words <= plane1.Length)
    modifies plane0, plane1
    ensures words <= start + round * total
    ensures Rows(plane0[..], plane1[..], channels)
         == Interleaved(old(Rows(plane0[..], plane1[..], channels)), EgressDue(f, frame, pixels, channels, words),
                        words, total, Alone(start, TurnOf(channels, round, 0)))
    ensures channels == 1 ==> plane1[..] == old(plane1[..])
  {
    hide Alone, EgressWord, Interleaved;
    var word := start;
    round := 0;
    ghost var before := Rows(plane0[..], plane1[..], channels);
    ghost var due := EgressDue(f, frame, pixels, channels, words);
    AloneBegins(before, due, words, total, start);
    while word < words
      invariant word == start + round * total
      invariant Rows(plane0[..], plane1[..], channels)
             == Interleaved(before, due, words, total, Alone(start, TurnOf(channels, round, 0)))
      invariant channels == 1 ==> plane1[..] == old(plane1[..])
    {
      AloneRound(before, due, words, total, start, round, word);
      WriteWord(f, frame, plane0, plane1, pixels, channels, word);
      word := word + total;
      round := round + 1;
    }
  }

  /** Packs and writes one word of each plane. */
  method WriteWord(f: Format, frame: seq<real>, plane0: array<Word>, plane1: array<Word>,
                   pixels: nat, channels: nat, word: nat)
    requires Sized(f, pixels, channels, |frame|) && plane0 != plane1
    requires word < plane0.Length && (channels == 2 ==> word < plane1.Length)
    modifies plane0, plane1
    ensures plane0[..] == old(plane0[..])[word := EgressWord(f, frame, pixels, channels, 0, word)]
    ensures plane1[..] == if channels == 2
                          then old(plane1[..])[word := EgressWord(f, frame, pixels, channels, 1, word)]
                          else old(plane1[..])
  {
    var packed0, packed1 := PackWord(f, frame, pixels, channels, word);
    plane0[word] := packed0;
    if channels > 1 {
      plane1[word] := packed1;
    }
  }

  // ---------------------------------------------------------------------------------------------
  // Unpacking
  // ---------------------------------------------------------------------------------------------

  /** Whether the planes of a launch cover its pixels. */
  predicate PlanesCover(f: Format, pixels: nat, channels: nat, plane0: seq<Word>, plane1: seq<Word>) {
    && f.Valid() && (channels == 1 || channels == 2)
    && pixels <= |plane0| * f.samples && (channels == 2 ==> pixels <= |plane1| * f.samples)
  }

  lemma PixelHasWord(samples: nat, pixels: nat, words: nat, pixel: nat)
    requires samples > 0 && pixel < pixels <= words * samples
    ensures pixel / samples < words
  {
    var apart := pixel / samples - words;
    assert pixel == samples * (pixel / samples) + pixel % samples;
    assert samples * apart == samples * (pixel / samples) - words * samples;
    WholeSteps(samples, apart);
  }

  /** The values an ingest is to put in one channel. */
  ghost function IngestRow(f: Format, plane: seq<Word>, pixels: nat): (row: seq<real>)
    requires f.Valid()
    ensures |row| == pixels
    ensures pixels <= |plane| * f.samples ==>
              forall pixel | 0 <= pixel < pixels ::
                pixel / f.samples < |plane| && row[pixel] == Sample(f, plane, pixel)
  {
    var row := seq(pixels, pixel requires 0 <= pixel =>
      if pixel / f.samples < |plane| then Sample(f, plane, pixel) else 0.0);
    assert pixels <= |plane| * f.samples ==>
             forall pixel | 0 <= pixel < pixels ::
               pixel / f.samples < |plane| && row[pixel] == Sample(f, plane, pixel)
    by {
      forall pixel | 0 <= pixel < pixels <= |plane| * f.samples
        ensures pixel / f.samples < |plane|
      {
        PixelHasWord(f.samples, pixels, |plane|, pixel);
      }
    }
    row
  }

  ghost function IngestDue(f: Format, plane0: seq<Word>, plane1: seq<Word>, pixels: nat, channels: nat):
    seq<seq<real>>
    requires f.Valid() && (channels == 1 || channels == 2)
  {
    Rows(IngestRow(f, plane0, pixels), IngestRow(f, plane1, pixels), channels)
  }

  /** One channel of the frame that starts at `offset`. */
  ghost function RingRow(ring: seq<real>, offset: nat, pixels: nat, channels: nat, channel: nat): (row: seq<real>)
    requires (channels == 1 || channels == 2) && offset + pixels * channels <= |ring|
    ensures |row| == pixels
    ensures channel < channels ==>
              forall pixel | 0 <= pixel < pixels :: row[pixel] == ring[offset + FirstChannel(pixel, channels) + channel]
  {
    seq(pixels, pixel requires 0 <= pixel < pixels =>
      if channel < channels then ring[offset + FirstChannel(pixel, channels) + channel] else 0.0)
  }

  ghost function RingRows(ring: seq<real>, offset: nat, pixels: nat, channels: nat): seq<seq<real>>
    requires (channels == 1 || channels == 2) && offset + pixels * channels <= |ring|
  {
    Rows(RingRow(ring, offset, pixels, channels, 0), RingRow(ring, offset, pixels, channels, 1), channels)
  }

  /** Whether two states of the ring agree outside the frame that starts at `offset`. */
  ghost predicate SameAround(before: seq<real>, ring: seq<real>, offset: nat, count: nat) {
    && |ring| == |before|
    && forall i | 0 <= i < |ring| && (i < offset || offset + count <= i) :: ring[i] == before[i]
  }

  /** Storing one value of a pixel changes its channel there and nothing around the frame. */
  lemma PixelIsStored(before: seq<real>, ring: seq<real>, offset: nat, pixels: nat, channels: nat, channel: nat,
                      pixel: nat, base: nat, value: real)
    requires (channels == 1 || channels == 2) && offset + pixels * channels <= |before|
    requires channel < channels && pixel < pixels && base == offset + FirstChannel(pixel, channels) + channel
    requires base < |before| && ring == before[base := value]
    ensures RingRow(ring, offset, pixels, channels, channel)
         == RingRow(before, offset, pixels, channels, channel)[pixel := value]
    ensures SameAround(before, ring, offset, pixels * channels)
  {
    BaseIsInside(offset, pixels, channels, pixel);
  }

  lemma BaseIsInside(offset: nat, pixels: nat, channels: nat, pixel: nat)
    requires (channels == 1 || channels == 2) && pixel < pixels
    ensures offset + FirstChannel(pixel, channels) + channels <= offset + pixels * channels
  {
    if channels == 1 {
      assert pixels * channels == pixels;
    } else {
      assert pixels * channels == pixels + pixels;
    }
  }

  /** Storing one channel of a pixel leaves the other as it is. */
  lemma OtherIsKept(before: seq<real>, ring: seq<real>, offset: nat, pixels: nat, channel: nat, pixel: nat,
                    base: nat, value: real)
    requires offset + pixels * 2 <= |before| && channel < 2 && pixel < pixels
    requires base == offset + FirstChannel(pixel, 2) + channel < |before| && ring == before[base := value]
    ensures RingRow(ring, offset, pixels, 2, 1 - channel) == RingRow(before, offset, pixels, 2, 1 - channel)
  {
  }

  /** `ring` with a pixel's channels stored at `base`. */
  function WithPixel(ring: seq<real>, base: nat, channels: nat, value0: real, value1: real): seq<real>
    requires (channels == 1 || channels == 2) && base + channels <= |ring|
  {
    if channels == 1 then ring[base := value0] else ring[base := value0][base + 1 := value1]
  }

  lemma SameAroundJoins(before: seq<real>, middle: seq<real>, ring: seq<real>, offset: nat, count: nat)
    requires SameAround(before, middle, offset, count) && SameAround(middle, ring, offset, count)
    ensures SameAround(before, ring, offset, count)
  {
  }

  /** Storing both channels of a pixel changes each of them there and nothing else. */
  lemma PairIsStored(before: seq<real>, offset: nat, pixels: nat, pixel: nat, base: nat, value0: real, value1: real)
    requires offset + pixels * 2 <= |before| && pixel < pixels && base == offset + FirstChannel(pixel, 2)
    ensures base + 1 < offset + pixels * 2
    ensures var ring := before[base := value0][base + 1 := value1];
            && RingRow(ring, offset, pixels, 2, 0) == RingRow(before, offset, pixels, 2, 0)[pixel := value0]
            && RingRow(ring, offset, pixels, 2, 1) == RingRow(before, offset, pixels, 2, 1)[pixel := value1]
            && SameAround(before, ring, offset, pixels * 2)
  {
    BaseIsInside(offset, pixels, 2, pixel);
    hide FirstChannel, RingRow, SameAround;
    var middle := before[base := value0];
    var ring := middle[base + 1 := value1];
    PixelIsStored(before, middle, offset, pixels, 2, 0, pixel, base, value0);
    OtherIsKept(before, middle, offset, pixels, 0, pixel, base, value0);
    PixelIsStored(middle, ring, offset, pixels, 2, 1, pixel, base + 1, value1);
    OtherIsKept(middle, ring, offset, pixels, 1, pixel, base + 1, value1);
    SameAroundJoins(before, middle, ring, offset, pixels * 2);
  }

  /** Storing a whole pixel is a round of its thread. */
  lemma PixelIsRound(f: Format, plane0: seq<Word>, plane1: seq<Word>, before: seq<real>, offset: nat,
                     pixels: nat, channels: nat, pixel: nat, value0: real, value1: real)
    requires PlanesCover(f, pixels, channels, plane0, plane1) && pixel < pixels
    requires offset + pixels * channels <= |before|
    requires value0 == IngestRow(f, plane0, pixels)[pixel]
    requires channels == 2 ==> value1 == IngestRow(f, plane1, pixels)[pixel]
    ensures offset + FirstChannel(pixel, channels) + channels <= offset + pixels * channels
    ensures var ring := WithPixel(before, offset + FirstChannel(pixel, channels), channels, value0, value1);
            && RingRows(ring, offset, pixels, channels)
               == RoundStored(RingRows(before, offset, pixels, channels),
                              IngestDue(f, plane0, plane1, pixels, channels), pixels, pixel)
            && SameAround(before, ring, offset, pixels * channels)
  {
    hide FirstChannel, IngestRow, RingRow, SameAround;
    if channels == 1 {
      BaseIsInside(offset, pixels, 1, pixel);
      PixelIsStored(before, before[offset + FirstChannel(pixel, 1) := value0], offset, pixels, 1, 0, pixel,
                    offset + FirstChannel(pixel, 1), value0);
    } else {
      PairIsStored(before, offset, pixels, pixel, offset + FirstChannel(pixel, 2), value0, value1);
    }
  }

  /** Unpacks and writes one pixel. */
  method WritePixel(f: Format, plane0: seq<Word>, plane1: seq<Word>, ring: array<real>, offset: nat,
                    pixels: nat, channels: nat, pixel: nat)
    requires PlanesCover(f, pixels, channels, plane0, plane1) && pixel < pixels
    requires offset + pixels * channels <= ring.Length
    modifies ring
    ensures RingRows(ring[..], offset, pixels, channels)
         == RoundStored(old(RingRows(ring[..], offset, pixels, channels)),
                        IngestDue(f, plane0, plane1, pixels, channels), pixels, pixel)
    ensures SameAround(old(ring[..]), ring[..], offset, pixels * channels)
  {
    hide IngestDue, RingRows, RoundStored, SameAround;
    var word, lane := pixel / f.samples, pixel % f.samples;
    var base := offset + FirstChannel(pixel, channels);
    ghost var value0 := IngestRow(f, plane0, pixels)[pixel];
    ghost var value1 := IngestRow(f, plane1, pixels)[pixel];
    PixelIsRound(f, plane0, plane1, ring[..], offset, pixels, channels, pixel, value0, value1);
    ring[base] := Normal(f.Code(plane0[word], lane), f.max);
    if channels > 1 {
      ring[base + 1] := Normal(f.Code(plane1[word], lane), f.max);
    }
    assert ring[..] == WithPixel(old(ring[..]), base, channels, value0, value1);
  }

  /** One thread's share of unpacking a frame into its ring slot: its own pixels and no others, in the
  order in which a launch has it store them. */
  method IngestThread(f: Format, plane0: seq<Word>, plane1: seq<Word>, ring: array<real>, offset: nat,
                      pixels: nat, channels: nat, start: nat, total: nat)
    returns (ghost round: nat)
    requires PlanesCover(f, pixels, channels, plane0, plane1) && start < total
    requires offset + pixels * channels <= ring.Length
    modifies ring
    ensures pixels <= start + round * total
    ensures RingRows(ring[..], offset, pixels, channels)
         == Interleaved(old(RingRows(ring[..], offset, pixels, channels)),
                        IngestDue(f, plane0, plane1, pixels, channels),
                        pixels, total, Alone(start, TurnOf(channels, round, 0)))
    ensures SameAround(old(ring[..]), ring[..], offset, pixels * channels)
  {
    hide Alone, IngestRow, Interleaved, RingRow, RoundStored;
    var pixel := start;
    round := 0;
    ghost var before := RingRows(ring[..], offset, pixels, channels);
    ghost var due := IngestDue(f, plane0, plane1, pixels, channels);
    AloneBegins(before, due, pixels, total, start);
    while pixel < pixels
      invariant pixel == start + round * total
      invariant RingRows(ring[..], offset, pixels, channels)
             == Interleaved(before, due, pixels, total, Alone(start, TurnOf(channels, round, 0)))
      invariant SameAround(old(ring[..]), ring[..], offset, pixels * channels)
    {
      AloneRound(before, due, pixels, total, start, round, pixel);
      WritePixel(f, plane0, plane1, ring, offset, pixels, channels, pixel);
      pixel := pixel + total;
      round := round + 1;
    }
  }

  // ---------------------------------------------------------------------------------------------
  // Whole launches, in any interleaving
  // ---------------------------------------------------------------------------------------------

  /** Whether planes, one per channel, are of one size and cover a launch's pixels. */
  ghost predicate Cover(f: Format, planes: seq<seq<Word>>, pixels: nat) {
    && f.Valid() && (|planes| == 1 || |planes| == 2)
    && forall c | 0 <= c < |planes| :: pixels <= |planes[c]| * f.samples && |planes[c]| == |planes[0]|
  }

  /** Whether a ring slot, one row per channel, takes a launch's pixels. */
  ghost predicate Takes(slot: seq<seq<real>>, pixels: nat) {
    (|slot| == 1 || |slot| == 2) && forall c | 0 <= c < |slot| :: |slot[c]| == pixels
  }

  /** A frame put together from its channels. */
  ghost function Woven(rows: seq<seq<real>>, pixels: nat): (frame: seq<real>)
    requires Takes(rows, pixels)
    ensures |frame| == pixels * |rows|
    ensures forall c, pixel | 0 <= c < |rows| && 0 <= pixel < pixels ::
              frame[FirstChannel(pixel, |rows|) + c] == rows[c][pixel]
  {
    if |rows| == 1 then rows[0]
    else seq(2 * pixels, i requires 0 <= i < 2 * pixels => rows[i % 2][i / 2])
  }

  /** The frame in a slot after an ingest whose threads moved as `run` says. */
  ghost function Unpacked(f: Format, planes: seq<seq<Word>>, slot: seq<seq<real>>, pixels: nat, total: nat,
                          run: seq<nat>): (frame: seq<real>)
    requires Cover(f, planes, pixels) && Takes(slot, pixels) && |slot| == |planes|
    ensures |frame| == pixels * |planes|
  {
    var due := IngestDue(f, planes[0], if |planes| == 1 then [] else planes[1], pixels, |planes|);
    Woven(Interleaved(slot, due, pixels, total, run), pixels)
  }

  /** The planes after an egress whose threads moved as `run` says. */
  ghost function Repacked(f: Format, frame: seq<real>, out: seq<seq<Word>>, pixels: nat, total: nat,
                          run: seq<nat>): (planes: seq<seq<Word>>)
    requires Cover(f, out, pixels) && |frame| == pixels * |out|
    ensures |planes| == |out| && forall c | 0 <= c < |out| :: |planes[c]| == |out[c]|
  {
    Interleaved(out, EgressDue(f, frame, pixels, |out|, |out[0]|), |out[0]|, total, run)
  }

  /** A frame woven from channels that hold what an ingest is to put there is what it is to be. */
  lemma WovenIsIngested(f: Format, plane: seq<Word>, rows: seq<seq<real>>, pixels: nat, channel: nat)
    requires f.Valid() && Takes(rows, pixels) && channel < |rows| && pixels <= |plane| * f.samples
    requires forall pixel | 0 <= pixel < pixels :: rows[channel][pixel] == IngestRow(f, plane, pixels)[pixel]
    ensures Ingested(f, plane, Woven(rows, pixels), pixels, |rows|, channel)
  {
    hide IngestRow, Sample, Woven;
    var row, frame := IngestRow(f, plane, pixels), Woven(rows, pixels);
    forall pixel | 0 <= pixel < pixels
      ensures pixel / f.samples < |plane|
      ensures frame[FirstChannel(pixel, |rows|) + channel] == Sample(f, plane, pixel)
    {
      assert frame[FirstChannel(pixel, |rows|) + channel] == rows[channel][pixel] == row[pixel];
    }
  }

  /** However the threads of an ingest move, once all have finished the slot holds the whole frame. */
  lemma IngestLaunch(f: Format, planes: seq<seq<Word>>, slot: seq<seq<real>>, pixels: nat, total: nat,
                     run: seq<nat>, channel: nat)
    requires Cover(f, planes, pixels) && Takes(slot, pixels) && |slot| == |planes|
    requires Finishes(run, |planes|, pixels, total) && channel < |planes|
    ensures Ingested(f, planes[channel], Unpacked(f, planes, slot, pixels, total, run), pixels, |planes|, channel)
  {
    var due := IngestDue(f, planes[0], if |planes| == 1 then [] else planes[1], pixels, |planes|);
    var rows := Interleaved(slot, due, pixels, total, run);
    var row := IngestRow(f, planes[channel], pixels);
    assert due[channel] == row && Unpacked(f, planes, slot, pixels, total, run) == Woven(rows, pixels);
    hide Finishes, IngestDue, Ingested, IngestRow, Interleaved, Unpacked, Woven;
    forall pixel | 0 <= pixel < pixels
      ensures rows[channel][pixel] == row[pixel]
    {
      LaunchStoresAll(slot, due, pixels, total, run, channel, pixel);
    }
    WovenIsIngested(f, planes[channel], rows, pixels, channel);
  }

  /** However the threads of an egress move, once all have finished each plane holds the whole frame. */
  lemma EgressLaunch(f: Format, frame: seq<real>, out: seq<seq<Word>>, pixels: nat, total: nat,
                     run: seq<nat>, channel: nat, word: nat)
    requires Cover(f, out, pixels) && |frame| == pixels * |out|
    requires Finishes(run, |out|, |out[0]|, total) && channel < |out| && word < |out[channel]|
    ensures Repacked(f, frame, out, pixels, total, run)[channel][word]
         == EgressWord(f, frame, pixels, |out|, channel, word)
  {
    hide EgressWord, Interleaved;
    LaunchStoresAll(out, EgressDue(f, frame, pixels, |out|, |out[0]|), |out[0]|, total, run, channel, word);
  }

  /** However the threads of an egress move, every lane comes out as the nearest code to its pixel's value,
  and as nothing past the last pixel. */
  lemma LaunchStoresNearest(f: Format, frame: seq<real>, out: seq<seq<Word>>, pixels: nat, total: nat,
                            run: seq<nat>, channel: nat, word: nat, lane: nat)
    requires Cover(f, out, pixels) && |frame| == pixels * |out|
    requires Finishes(run, |out|, |out[0]|, total) && channel < |out| && word < |out[channel]| && lane < f.samples
    ensures LaneIsNearest(f, Repacked(f, frame, out, pixels, total, run)[channel][word], frame, pixels, |out|,
                          channel, word, lane)
  {
    hide EgressWord, LaneIsNearest, Repacked;
    EgressLaunch(f, frame, out, pixels, total, run, channel, word);
    WordHoldsNearest(f, frame, pixels, |out|, channel, word, lane);
  }

  /** Whether every lane of a word is clean. */
  ghost predicate WordIsClean(f: Format, content: Word, pixels: nat, word: nat) {
    forall lane | 0 <= lane < f.samples :: LaneIsClean(f, content, pixels, word, lane)
  }

  /** A frame unpacked into its ring slot and packed again, by any number of threads in either launch
  and in whatever order they move: of every plane exactly the words are restored whose codes are the
  format's, with nothing past the last pixel. */
  lemma RoundTrip(f: Format, planes: seq<seq<Word>>, slot: seq<seq<real>>, out: seq<seq<Word>>, pixels: nat,
                  readers: nat, writers: nat, ingest: seq<nat>, egress: seq<nat>,
                  channel: nat, word: nat)
    requires Cover(f, planes, pixels) && Takes(slot, pixels) && |slot| == |planes|
    requires Cover(f, out, pixels) && |out| == |planes| && |out[0]| == |planes[0]|
    requires Finishes(ingest, |planes|, pixels, readers) && Finishes(egress, |out|, |out[0]|, writers)
    requires channel < |planes| && word < |planes[channel]| && planes[channel][word] < 0x1_0000_0000
    ensures var frame := Unpacked(f, planes, slot, pixels, readers, ingest);
            Repacked(f, frame, out, pixels, writers, egress)[channel][word] == planes[channel][word]
            <==> WordIsClean(f, planes[channel][word], pixels, word)
  {
    hide EgressWord, Ingested, Repacked, Unpacked;
    var frame := Unpacked(f, planes, slot, pixels, readers, ingest);
    IngestLaunch(f, planes, slot, pixels, readers, ingest, channel);
    EgressLaunch(f, frame, out, pixels, writers, egress, channel, word);
    EgressRestores(f, planes[channel], frame, pixels, |planes|, channel, word);
  }
}
