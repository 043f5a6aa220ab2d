/** Two passes driven as one: luma, perhaps chroma along luma's motion, and beside them the planes that
neither of them touches. */
module Planar {
  import opened Schedule
  import opened Protocol
  import opened Rings
  import opened LumaMotion
  import opened Wrappers
  import opened Front
  import opened Denoiser
  import opened Engine

  /** A frame's planes, and whether each group's sizes match the geometry. */
  datatype FramePlanes = FramePlanes(luma: Image, chroma: Image, lumaFits: bool, chromaFits: bool)

  predicate Fits(planes: FramePlanes) { planes.lumaFits && planes.chromaFits }

  /** The planes one pass cleans. */
  datatype PlaneGroup = Luma | Chroma
  {
    function Of(planes: FramePlanes): Image { if Luma? then planes.luma else planes.chroma }
  }

  /** One plane group of recent frames, for as many frames back as there are slots. */
  class PassthroughRing {
    const slots: nat
    var held: seq<Image>

    ghost predicate Shaped()
      reads this
    {
      slots > 0 && |held| == slots
    }

    constructor (slots: nat, memory: Image)
      requires slots > 0
      ensures Shaped() && this.slots == slots
    {
      this.slots := slots;
      held := seq(slots, _ => memory);
    }

    /** The ring holds a group of the newest of `frames`, each in its own slot. */
    ghost predicate HoldsNewest(frames: seq<FramePlanes>, group: PlaneGroup)
      requires Shaped()
      reads this
    {
      forall f: nat | |frames| - slots <= f < |frames| :: held[Slot(f, slots)] == group.Of(frames[f])
    }

    /** Adds a group of the stream's next frame, and keeps those of the newest before it. */
    method Store(frame: nat, planes: FramePlanes, group: PlaneGroup, ghost frames: seq<FramePlanes>)
      requires Shaped() && HoldsNewest(frames, group) && frame == |frames|
      modifies this`held
      ensures Shaped() && HoldsNewest(frames + [planes], group)
    {
      held := held[frame % slots := group.Of(planes)];
      forall f: nat | frame + 1 - slots <= f < frame
        ensures Slot(f, slots) != Slot(frame, slots)
      {
        SlotsDiffer(f, frame, slots);
      }
    }

    /** The planes of stream frame `frame`, which are still there for each of the newest `slots`. */
    method Load(frame: nat, ghost frames: seq<FramePlanes>, ghost group: PlaneGroup) returns (image: Image)
      requires Shaped()
      ensures HoldsNewest(frames, group) && |frames| - slots <= frame < |frames| ==>
                image == group.Of(frames[frame])
    {
      image := held[frame % slots];
    }
  }

  /** A frame written out: what each pass wrote and the planes that passed through uncleaned. */
  datatype PlanarFrame =
    PlanarFrame(luma: Emission, chroma: Option<Emission>, passed: Option<Image>)

  /** What a stream was given: the frames of each pass, and every frame's planes. */
  datatype Footage = Footage(luma: Reel, chroma: Reel, frames: seq<FramePlanes>)

  /** What a validated spec promises of its passes: equal spans and radii, no shared state but the
  motion ring, which luma writes and chroma reads. */
  ghost predicate Matched(luma: Nl4d, chroma: Nl4d?) {
    && luma.G().radius >= 1
    && (chroma == null ==> luma.inner.front.role.NoRing?)
    && (chroma != null ==>
          && luma != chroma && luma.inner != chroma.inner
          && luma.inner.front != chroma.inner.front
          && luma.inner.front.log != chroma.inner.front.log
          && chroma.G() == luma.G() && !chroma.inner.guidesOnly
          && luma.inner.front.role.Writer?
          && chroma.inner.front.role == Reader(luma.inner.front.role.ring))
  }

  class PlanarEngine {
    /** The luma pass, whether or not it writes anything out itself. */
    const luma: Nl4d
    const chroma: Nl4d?
    const passthrough: PassthroughRing?
    var streamStarted: bool
    var poisoned: bool

    /** The planes of the current stream's frames. */
    ghost var frames: seq<FramePlanes>

    /** Builds the engine around the passes a validated spec names: a passthrough ring one slot
    longer than the passes hold frames, when one plane group of a colour frame is not cleaned. */
    constructor (luma: Nl4d, chroma: Nl4d?, gray: bool, memory: Image)
      requires Matched(luma, chroma)
      requires luma.Valid() && !luma.poisoned && luma.stream == FRESH
      requires luma.inner.front.frames == []
      requires chroma != null ==>
                 chroma.Valid() && !chroma.poisoned && chroma.stream == FRESH
                 && chroma.inner.front.run == luma.inner.front.run
                 && chroma.emitted == luma.emitted && chroma.pace() == luma.pace()
                 && chroma.inner.front.log.passes == luma.inner.front.log.passes
                 && chroma.inner.front.log.pairs == luma.inner.front.log.pairs
      ensures Valid() && !Refusing() && frames == []
      ensures this.luma == luma && this.chroma == chroma
      ensures passthrough != null <==> !gray && (!luma.inner.guidesOnly) != (chroma != null)
      ensures passthrough != null ==> fresh(passthrough)
    {
      this.luma, this.chroma := luma, chroma;
      streamStarted, poisoned, frames := false, false, [];
      var cleansLuma := !luma.inner.guidesOnly;
      if !gray && cleansLuma != (chroma != null) {
        passthrough := new PassthroughRing(
          2 * luma.inner.front.radius + luma.inner.front.depth + 1, memory);
      } else {
        passthrough := null;
      }
    }

    function G(): Shape { luma.G() }

    /** Whether the luma pass writes frames out. */
    predicate CleansLuma() { !luma.inner.guidesOnly }

    /** Of a frame's planes, those that pass through. */
    function UncleanedGroup(): PlaneGroup { if CleansLuma() then Chroma else Luma }

    /** What the current stream was given. */
    ghost function Given(): Footage
      reads this`frames, luma.inner.front`run, luma.inner.front`frames, ChromaFronts()`run,
            ChromaFronts()`frames
    {
      Footage(luma.inner.Stream(), ChromaStream(), frames)
    }

    ghost function ChromaStream(): Reel
      reads ChromaFronts()`run, ChromaFronts()`frames
    {
      if chroma == null then Reel(0, []) else chroma.inner.Stream()
    }

    /** What a pushed frame adds to the chroma pass's stream. */
    ghost function ChromaFed(reel: Reel, planes: FramePlanes): Reel {
      if chroma == null then reel else reel.Fed(planes.chroma)
    }

    ghost function ChromaAfter(reel: Reel, ends: bool): Reel {
      if chroma == null then reel else reel.After(ends)
    }

    /** What a pushed frame adds to the streams. */
    ghost function Fed(given: Footage, planes: FramePlanes): Footage {
      Footage(given.luma.Fed(planes.luma), ChromaFed(given.chroma, planes), given.frames + [planes])
    }

    /** The streams after an emit or an end: the next ones, if that was their last. */
    ghost function After(given: Footage, ends: bool): Footage {
      Footage(given.luma.After(ends), ChromaAfter(given.chroma, ends), if ends then [] else given.frames)
    }

    // What a validated spec builds.

    /** The motion ring, if there are two passes. */
    ghost function MotionObjects(): set<LumaMotionRing> {
      luma.inner.front.RingObject()
    }

    ghost predicate Built() {
      && Matched(luma, chroma)
      && (passthrough != null ==>
            && passthrough.slots == HeldSpan(G()) + 1
            && UncleanedGroup() == if chroma == null then Chroma else Luma)
    }

    /** The passthrough ring, if any, has the planes without a pass of every recent frame. */
    ghost predicate KeepsUncleaned()
      reads this`frames, passthrough
    {
      passthrough != null ==>
        && passthrough.Shaped()
        && passthrough.HoldsNewest(frames, if chroma == null then Chroma else Luma)
    }

    // What a call may change of the chroma pass, when there is one.

    ghost function Chromas(): set<Nl4d> { if chroma == null then {} else {chroma} }

    ghost function ChromaInners(): set<Nl4dDenoiser> {
      if chroma == null then {} else {chroma.inner}
    }

    ghost function ChromaFronts(): set<NlmFront> {
      if chroma == null then {} else {chroma.inner.front}
    }

    ghost function ChromaRings(): set<LumaMotionRing> {
      if chroma == null then {} else chroma.inner.front.RingObject()
    }

    ghost function ChromaLogs(): set<MotionLog> {
      if chroma == null then {} else {chroma.inner.front.log}
    }

    /** Both passes stand at the same point of the same stream and have run along the same motion. */
    ghost predicate InStep()
      reads luma, luma.inner.front, luma.inner.front.log, Chromas(), ChromaInners(),
            ChromaFronts(), ChromaLogs()
    {
      chroma != null ==>
        && !chroma.poisoned
        && luma.stream == chroma.stream && luma.pace() == chroma.pace()
        && luma.emitted == chroma.emitted
        && luma.inner.front.run == chroma.inner.front.run
        && luma.inner.front.log.passes == chroma.inner.front.log.passes
        && luma.inner.front.log.pairs == chroma.inner.front.log.pairs
    }

    ghost predicate Refusing()
      reads this`poisoned, luma`poisoned
    {
      poisoned || luma.poisoned
    }

    /** Each pass is valid on its own. */
    ghost predicate PassesValid()
      reads luma, luma.inner, luma.inner.front, MotionObjects(), Chromas(), ChromaInners(),
            ChromaFronts(), ChromaRings()
    {
      luma.Valid() && (chroma != null ==> chroma.Valid())
    }

    ghost predicate Valid()
      reads this, luma, luma.inner, luma.inner.front, luma.inner.front.log, MotionObjects(),
            Chromas(), ChromaInners(), ChromaFronts(), ChromaLogs(), ChromaRings(), passthrough
    {
      && Built() && PassesValid()
      && (passthrough != null ==> passthrough.Shaped())
      && (!Refusing() ==>
            && InStep() && |frames| == luma.stream.pushes && KeepsUncleaned())
    }

    /** The luma pass has taken the frame the chroma pass takes next: everything the chroma pass will
    read is there, and running it brings the two level. */
    ghost predicate LumaAhead(reader: Nl4d, s: Stream)
      requires reader.inner.front.SourceFits()
      reads luma, luma.inner.front, luma.inner.front.log, reader, reader.inner.front,
            reader.inner.front.log, reader.inner.front.Source()
    {
      var due := PushDue(G(), s.context, s.pushes);
      var front := reader.inner.front;
      && reader.stream == s && !reader.poisoned && !luma.poisoned
      && luma.emitted == reader.emitted && luma.inner.front.run == front.run
      && reader.FindsDue(front.Motions(), s) && front.FindsPair(s.pushes)
      && luma.inner.front.log.passes
         == Extended(front.log.passes, front.Motions(), due.first, due.end)
      && luma.inner.front.log.pairs == front.PairedWith(front.log.pairs, s.pushes)
    }

    /** The luma half of a push. */
    method PushLuma(image: Image, healthy: bool) returns (r: Result<int>)
      requires Valid() && !poisoned
      modifies luma, luma.inner, luma.inner.front, luma.inner.front.log, MotionObjects()
      ensures PassesValid() == true
      ensures var answer := Protocol.Push(G(), old(luma.stream));
              if old(luma.poisoned) then r == Err(NeedsReset) && luma.poisoned
              else if answer.Err? then
                r == Err(answer.error) && !luma.poisoned && luma.Untouched()
              else
                && (r.Err? ==> luma.poisoned)
                && (healthy ==> r.Ok?)
                && (r.Ok? ==>
                      && !luma.poisoned && r.value == answer.value.1
                      && luma.stream == answer.value.0
                      && luma.pace() == Pace(Taken(G(), luma.stream.pushes), false)
                      && luma.inner.Stream() == old(luma.inner.Stream()).Fed(image)
                      && (chroma != null ==> LumaAhead(chroma, old(luma.stream)) == true))
    {
      hide Nl4d.Live;
      ghost var s, run := luma.stream, luma.inner.front.run;
      ghost var due := PushDue(G(), s.context, s.pushes);
      r := luma.Push(Planes(image, true), healthy, luma.PushCall());
      if r.Ok? && chroma != null {
        ghost var ring := luma.inner.front.role.ring;
        SharedIsFound(ring.tags, ring.fields, run, chroma.inner.front.log.passes,
                      due.first, due.end);
      }
    }

    /** The chroma half of a push, which finds everything it reads and comes out level with luma. */
    method PushChroma(image: Image, fits: bool, healthy: bool, ghost s: Stream)
      returns (r: Result<int>)
      requires Built() && chroma != null && luma.Valid() && chroma.Valid()
      requires LumaAhead(chroma, s) && Protocol.Push(G(), s).Ok?
      requires luma.stream == Protocol.Push(G(), s).value.0
      requires luma.pace() == Pace(Taken(G(), luma.stream.pushes), false)
      modifies chroma, chroma.inner, chroma.inner.front, chroma.inner.front.log
      ensures luma.Valid() == true && chroma.Valid() == true
      ensures r.Ok? ==> InStep() == true && fits && r.value == Protocol.Push(G(), s).value.1
                        && chroma.inner.Stream() == old(chroma.inner.Stream()).Fed(image)
      ensures healthy && fits ==> r.Ok?
    {
      hide Nl4d.Live;
      r := chroma.Push(Planes(image, fits), healthy, chroma.PushCall());
    }

    /** Pushes a frame to luma and then to chroma. They come out level, or the engine refuses from then
    on. The source also checks that the passes ready the same number, and the assertion shows that
    they always do. */
    method ForwardPush(planes: FramePlanes, healthy: bool) returns (r: Result<int>)
      requires Valid() && !poisoned
      modifies this`poisoned, luma, luma.inner, luma.inner.front, luma.inner.front.log,
               MotionObjects(), Chromas(), ChromaInners(), ChromaFronts(), ChromaLogs()
      ensures PassesValid() == true
      ensures var answer := Protocol.Push(G(), old(luma.stream));
              if old(luma.poisoned) then r == Err(NeedsReset) && Refusing()
              else if answer.Err? then
                r == Err(answer.error) && !Refusing() && InStep() == true
                && luma.stream == old(luma.stream)
                && luma.inner.Stream() == old(luma.inner.Stream()) && ChromaStream() == old(ChromaStream())
              else
                && (r.Err? ==> Refusing())
                && (r.Ok? ==> !Refusing() && InStep() == true && r.value == answer.value.1
                              && luma.stream == answer.value.0
                              && luma.inner.Stream() == old(luma.inner.Stream()).Fed(planes.luma)
                              && ChromaStream() == ChromaFed(old(ChromaStream()), planes)
                              && (chroma != null ==> planes.chromaFits))
                && (healthy && (chroma != null ==> planes.chromaFits) ==> r.Ok?)
    {
      hide Nl4d.Live;
      ghost var s := luma.stream;
      r := PushLuma(planes.luma, healthy);
      if r.Err? || chroma == null {
        return;
      }
      var second := PushChroma(planes.chroma, planes.chromaFits, healthy, s);
      if second.Err? {
        poisoned := true;
        return second;
      }
      assert second.value == r.value;
    }

    /** Brings the passthrough ring level with the passes, which are one frame ahead of it. */
    method StoreUncleaned(frame: nat, planes: FramePlanes)
      requires Built() && PassesValid() && InStep() && !Refusing()
      requires frame == |frames| && frame + 1 == luma.stream.pushes
      requires KeepsUncleaned()
      modifies this`frames, passthrough
      ensures Valid() == true && !Refusing()
      ensures frames == old(frames) + [planes]
    {
      hide Nl4d.Live;
      if passthrough != null {
        passthrough.Store(frame, planes, UncleanedGroup(), frames);
      }
      frames := frames + [planes];
    }

    /** Answers as the protocol's `Push` does for both passes, or refuses from then on. */
    method Push(planes: FramePlanes, healthy: bool) returns (r: Result<int>)
      requires Valid()
      modifies this, luma, luma.inner, luma.inner.front, luma.inner.front.log, MotionObjects(),
               Chromas(), ChromaInners(), ChromaFronts(), ChromaLogs(), passthrough
      ensures Valid() == true
      ensures old(Refusing()) ==>
                Refusing() && r.Err? && (Fits(planes) ==> r == Err(NeedsReset))
      ensures !old(Refusing()) && !(planes.lumaFits && planes.chromaFits) ==> r == Err(PlaneMismatch) && Unmoved()
      ensures var answer := Protocol.Push(G(), old(luma.stream));
              !old(Refusing()) ==>
                if !Fits(planes) then r == Err(PlaneMismatch) && Unmoved()
                else if answer.Err? then r == Err(answer.error) && Unmoved()
                else
                  && (healthy ==> r.Ok?)
                  && (r.Err? ==> Refusing())
                  && (r.Ok? ==> !Refusing() && r.value == answer.value.1
                                && luma.stream == answer.value.0
                                && Given() == Fed(old(Given()), planes))
    {
      hide Nl4d.Live;
      if poisoned {
        return Err(NeedsReset);
      }
      if !Fits(planes) {
        return Err(PlaneMismatch);
      }
      streamStarted := true;
      r := TakeFrame(planes, healthy);
    }

    /** Gives a frame to the passes and keeps its uncleaned planes. */
    method TakeFrame(planes: FramePlanes, healthy: bool) returns (r: Result<int>)
      requires Valid() && !poisoned && Fits(planes)
      modifies this`poisoned, this`frames, luma, luma.inner, luma.inner.front, luma.inner.front.log,
               MotionObjects(), Chromas(), ChromaInners(), ChromaFronts(), ChromaLogs(), passthrough
      ensures Valid() == true
      ensures var answer := Protocol.Push(G(), old(luma.stream));
              if old(luma.poisoned) then r == Err(NeedsReset) && Refusing()
              else if answer.Err? then r == Err(answer.error) && Unmoved()
              else
                && (healthy ==> r.Ok?)
                && (r.Err? ==> Refusing())
                && (r.Ok? ==> !Refusing() && r.value == answer.value.1
                              && luma.stream == answer.value.0
                              && Given() == Fed(old(Given()), planes))
    {
      hide Nl4d.Live;
      var frame := luma.NextStreamFrame();
      r := ForwardPush(planes, healthy);
      if r.Ok? {
        StoreUncleaned(frame, planes);
      }
    }

    /** The stream stands where it stood. */
    twostate predicate Unmoved()
      reads this, luma, luma.inner.front, ChromaFronts()
    {
      !Refusing() && luma.stream == old(luma.stream) && Given() == old(Given())
    }

    /** The luma pass has written out the frame the chroma pass writes next, perhaps starting a new
    stream: everything the chroma pass will read is there, and running it brings the two level. */
    ghost predicate LumaWrote(reader: Nl4d, s: Stream, p: Pace, run: nat)
      requires reader.inner.front.SourceFits() && Waiting(G(), s) > 0
      reads luma, luma.inner.front, luma.inner.front.log, reader, reader.inner.front,
            reader.inner.front.log, reader.inner.front.Source()
    {
      var span := EmitSpan(G(), s, p);
      var front := reader.inner.front;
      && reader.stream == s && reader.pace() == p && front.run == run && !reader.poisoned
      && luma.stream == Protocol.Emit(G(), s).value.0 && luma.pace() == EmitPace(G(), s, p)
      && luma.emitted == Some(NextFrame(G(), s)) && !luma.poisoned
      && luma.inner.front.run == (if luma.Ends(s) then run + 1 else run)
      && Finds(front.Motions(), span.first, span.end)
      && luma.inner.front.log.passes
         == Extended(front.log.passes, front.Motions(), span.first, span.end)
      && luma.inner.front.log.pairs == front.log.pairs
    }

    /** The luma half of an emit. */
    method EmitLuma(healthy: bool) returns (r: Result<Emission>)
      requires Valid() && !poisoned
      modifies luma, luma.inner, luma.inner.front, luma.inner.front.log`passes, MotionObjects()
      ensures PassesValid() == true
      ensures var answer := Protocol.Emit(G(), old(luma.stream));
              if old(luma.poisoned) then r == Err(NeedsReset) && luma.poisoned
              else if answer.Err? then
                r == Err(answer.error) && !luma.poisoned && luma.Untouched()
              else
                && (r.Err? ==> luma.poisoned)
                && (healthy ==> r.Ok?)
                && (r.Ok? ==>
                      && !luma.poisoned && r.value == old(luma.NextEmission(luma.stream))
                      && luma.emitted == Some(NextFrame(G(), old(luma.stream)))
                      && luma.stream == answer.value.0
                      && luma.inner.Stream()
                         == old(luma.inner.Stream()).After(luma.Ends(old(luma.stream)))
                      && (chroma != null ==>
                            LumaWrote(chroma, old(luma.stream), old(luma.pace()),
                                      old(luma.inner.front.run)) == true))
    {
      hide Nl4d.Live;
      ghost var s, p, run := luma.stream, luma.pace(), luma.inner.front.run;
      ghost var span := EmitSpan(G(), s, p);
      r := luma.EmitInto(Planes(0, true), healthy, luma.EmitCall());
      if r.Ok? && chroma != null {
        ghost var ring := luma.inner.front.role.ring;
        SharedIsFound(ring.tags, ring.fields, run, chroma.inner.front.log.passes,
                      span.first, span.end);
      }
    }

    /** The chroma half of an emit. */
    method EmitChroma(healthy: bool, ghost s: Stream, ghost p: Pace, ghost run: nat)
      returns (r: Result<Emission>)
      requires Built() && chroma != null && luma.Valid() && chroma.Valid()
      requires Waiting(G(), s) > 0 && LumaWrote(chroma, s, p, run)
      modifies chroma, chroma.inner, chroma.inner.front, chroma.inner.front.log`passes
      ensures luma.Valid() == true && chroma.Valid() == true
      ensures r.Ok? ==> InStep() == true && r.value == old(chroma.NextEmission(s))
                        && chroma.inner.Stream() == old(chroma.inner.Stream()).After(luma.Ends(s))
      ensures healthy ==> r.Ok?
    {
      hide Nl4d.Live;
      r := chroma.EmitInto(Planes(0, true), healthy, chroma.EmitCall());
    }

    /** The chroma half of an emit, which poisons the engine if it fails after luma has moved. */
    method FollowEmit(healthy: bool, ghost s: Stream, ghost p: Pace, ghost run: nat)
      returns (r: Result<Emission>)
      requires Built() && chroma != null && luma.Valid() && chroma.Valid() && !poisoned
      requires Waiting(G(), s) > 0 && LumaWrote(chroma, s, p, run)
      modifies this`poisoned, chroma, chroma.inner, chroma.inner.front, chroma.inner.front.log`passes
      ensures PassesValid() == true
      ensures healthy ==> r.Ok?
      ensures r.Err? <==> Refusing()
      ensures r.Ok? ==> InStep() == true && r.value == old(chroma.NextEmission(s))
                        && chroma.inner.Stream() == old(chroma.inner.Stream()).After(luma.Ends(s))
    {
      hide Nl4d.Live;
      r := EmitChroma(healthy, s, p, run);
      poisoned := r.Err?;
    }

    /** What the next emit writes out of the passes. */
    ghost function NextWritten(s: Stream): (Emission, Option<Emission>)
      requires Built() && Waiting(G(), s) > 0
      reads luma.inner.front`run, luma.inner.front`frames, ChromaFronts()`run, ChromaFronts()`frames
    {
      (luma.NextEmission(s), if chroma == null then None else Some(chroma.NextEmission(s)))
    }

    /** Has luma and then chroma write out the same stream frame. */
    method ForwardEmit(healthy: bool) returns (r: Result<(Emission, Option<Emission>)>)
      requires Valid() && !poisoned
      modifies this`poisoned, luma, luma.inner, luma.inner.front, luma.inner.front.log`passes,
               MotionObjects(), Chromas(), ChromaInners(), ChromaFronts(), ChromaLogs()
      ensures PassesValid() == true
      ensures var answer := Protocol.Emit(G(), old(luma.stream));
              if old(luma.poisoned) then r == Err(NeedsReset) && Refusing()
              else if answer.Err? then
                r == Err(answer.error) && !Refusing() && InStep() == true
                && luma.stream == old(luma.stream)
                && luma.inner.Stream() == old(luma.inner.Stream()) && ChromaStream() == old(ChromaStream())
              else
                && (r.Err? ==> Refusing())
                && (healthy ==> r.Ok?)
                && (r.Ok? ==> !Refusing() && InStep() == true && luma.stream == answer.value.0
                              && luma.inner.Stream()
                                 == old(luma.inner.Stream()).After(luma.Ends(old(luma.stream)))
                              && ChromaStream()
                                 == ChromaAfter(old(ChromaStream()), luma.Ends(old(luma.stream)))
                              && luma.emitted == Some(NextFrame(G(), old(luma.stream)))
                              && r.value == old(NextWritten(luma.stream)))
    {
      hide Nl4d.Live;
      ghost var s, p, run := luma.stream, luma.pace(), luma.inner.front.run;
      if !luma.poisoned { luma.StreamIsLegal(); }
      var first := EmitLuma(healthy);
      if first.Err? {
        return Err(first.error);
      }
      if chroma == null {
        return Ok((first.value, None));
      }
      var second := FollowEmit(healthy, s, p, run);
      r := if second.Err? then Err(second.error) else Ok((first.value, Some(second.value)));
    }

    /** The uncleaned planes of the frame just written out, when a plane group passes through. The
    pass may already have started its next stream. */
    method TakePassed(ghost s: Stream) returns (passed: Option<Image>)
      requires Built() && PassesValid() && !Refusing() && InStep()
      requires KeepsUncleaned()
      requires Waiting(G(), s) > 0 && Legal(G(), s) && |frames| == s.pushes
      requires luma.stream == Protocol.Emit(G(), s).value.0
      requires luma.emitted == Some(NextFrame(G(), s))
      modifies this`frames
      ensures Valid() && NextFrame(G(), s) < |old(frames)|
      ensures frames == if luma.Ends(s) then [] else old(frames)
      ensures passed == if passthrough == null then None
                        else if chroma == null then Some(old(frames)[NextFrame(G(), s)].chroma)
                        else Some(old(frames)[NextFrame(G(), s)].luma)
    {
      hide Nl4d.Live;
      NextFrameIsRecent(G(), s);
      EmitMoves(G(), s);
      passed := None;
      if passthrough != null {
        var image := passthrough.Load(luma.emitted.value, frames, UncleanedGroup());
        passed := Some(image);
      }
      if luma.Ends(s) {
        frames := [];
      }
    }

    /** Answers as the protocol's `Emit` does for both passes, or refuses from then on. The frame holds what
    each pass owes for it and, untouched, the planes of that same frame that pass through. */
    method EmitInto(fits: bool, healthy: bool) returns (r: Result<PlanarFrame>)
      requires Valid()
      modifies this, luma, luma.inner, luma.inner.front, luma.inner.front.log, MotionObjects(),
               Chromas(), ChromaInners(), ChromaFronts(), ChromaLogs(), passthrough
      ensures Valid()
      ensures old(Refusing()) ==> Refusing() && r.Err? && (fits ==> r == Err(NeedsReset))
      ensures var s := old(luma.stream);
              var answer := Protocol.Emit(G(), s);
              !old(Refusing()) ==>
                if !fits then r == Err(PlaneMismatch) && Unmoved()
                else if answer.Err? then r == Err(answer.error) && Unmoved()
                else
                  && (healthy ==> r.Ok?)
                  && (r.Err? ==> Refusing())
                  && (r.Ok? ==>
                        && !Refusing() && luma.stream == answer.value.0
                        && Given() == After(old(Given()), luma.Ends(s))
                        && (r.value.luma, r.value.chroma) == old(NextWritten(luma.stream))
                        && NextFrame(G(), s) < |old(frames)|
                        && r.value.passed == (if passthrough == null then None
                                              else if chroma == null then Some(old(frames)[NextFrame(G(), s)].chroma)
                                              else Some(old(frames)[NextFrame(G(), s)].luma)))
    {
      hide Expected, Nl4d.Live, Nl4d.Valid, Owed;
      if poisoned {
        return Err(NeedsReset);
      }
      if !fits {
        return Err(PlaneMismatch);
      }

      ghost var s := luma.stream;
      if !luma.poisoned { luma.StreamIsLegal(); }
      var written := ForwardEmit(healthy);
      if written.Err? {
        return Err(written.error);
      }

      var passed := TakePassed(s);
      r := Ok(PlanarFrame(written.value.0, written.value.1, passed));
    }

    /** Does what `Push` does, except that unfit chroma planes only show once luma has its frame, which
    leaves the engine refusing. */
    method PushFrom(planes: FramePlanes, healthy: bool) returns (r: Result<int>)
      requires Valid()
      modifies this, luma, luma.inner, luma.inner.front, luma.inner.front.log, MotionObjects(),
               Chromas(), ChromaInners(), ChromaFronts(), ChromaLogs(), passthrough
      ensures Valid() == true
      ensures old(Refusing()) ==>
                Refusing() && r.Err? && (planes.lumaFits ==> r == Err(NeedsReset))
      ensures var answer := Protocol.Push(G(), old(luma.stream));
              !old(Refusing()) ==>
                if !planes.lumaFits then r == Err(PlaneMismatch) && Unmoved()
                else if answer.Err? then r == Err(answer.error) && Unmoved()
                else
                  && (healthy && planes.chromaFits ==> r.Ok?)
                  && (chroma != null || passthrough != null ==> (r.Ok? ==> planes.chromaFits))
                  && (r.Err? ==> Refusing())
                  && (r.Ok? ==> !Refusing() && r.value == answer.value.1
                                && luma.stream == answer.value.0
                                && Given() == Fed(old(Given()), planes))
    {
      hide Nl4d.Live;
      if poisoned {
        return Err(NeedsReset);
      }
      streamStarted := true;
      if !planes.lumaFits {
        return Err(PlaneMismatch);
      }

      r := TakeStaged(planes, healthy);
    }

    /** Gives a frame to the passes, each asking for its own planes, and then stages the uncleaned
    ones, which may be the wrong size. */
    method TakeStaged(planes: FramePlanes, healthy: bool) returns (r: Result<int>)
      requires Valid() && !poisoned && planes.lumaFits
      modifies this`poisoned, this`frames, luma, luma.inner, luma.inner.front, luma.inner.front.log,
               MotionObjects(), Chromas(), ChromaInners(), ChromaFronts(), ChromaLogs(), passthrough
      ensures Valid() == true
      ensures var answer := Protocol.Push(G(), old(luma.stream));
              if old(luma.poisoned) then r == Err(NeedsReset) && Refusing()
              else if answer.Err? then r == Err(answer.error) && Unmoved()
              else
                && (healthy && planes.chromaFits ==> r.Ok?)
                && (chroma != null || passthrough != null ==> (r.Ok? ==> planes.chromaFits))
                && (r.Err? ==> Refusing())
                && (r.Ok? ==> !Refusing() && r.value == answer.value.1
                              && luma.stream == answer.value.0
                              && Given() == Fed(old(Given()), planes))
    {
      hide Nl4d.Live;
      var frame := luma.NextStreamFrame();
      r := ForwardPush(planes, healthy);
      if r.Ok? {
        var stored := StoreStaged(frame, planes);
        r := if stored then r else Err(PlaneMismatch);
      }
    }

    /** Stages and stores the uncleaned planes, poisoning the engine when they are the wrong size. */
    method StoreStaged(frame: nat, planes: FramePlanes) returns (stored: bool)
      requires Built() && PassesValid() && InStep() && !Refusing()
      requires frame == |frames| && frame + 1 == luma.stream.pushes
      requires KeepsUncleaned()
      modifies this`poisoned, this`frames, passthrough
      ensures Valid() == true
      ensures stored == !(passthrough != null && CleansLuma() && !planes.chromaFits) == !Refusing()
      ensures stored ==> frames == old(frames) + [planes]
    {
      hide Nl4d.Live;
      stored := !(passthrough != null && CleansLuma() && !planes.chromaFits);
      if stored {
        StoreUncleaned(frame, planes);
      } else {
        poisoned := true;
      }
    }

    /** The luma pass has taken a context frame the chroma pass takes next. */
    ghost predicate LumaPrimed(reader: Nl4d, s: Stream)
      requires reader.inner.front.SourceFits()
      reads luma, luma.inner.front, luma.inner.front.log, reader, reader.inner.front,
            reader.inner.front.log, reader.inner.front.Source()
    {
      var front := reader.inner.front;
      && reader.stream == s && !reader.poisoned && !luma.poisoned
      && luma.emitted == reader.emitted && luma.inner.front.run == front.run
      && luma.tailRun == reader.tailRun && front.FindsPair(s.pushes)
      && luma.inner.front.log.passes == front.log.passes
      && luma.inner.front.log.pairs == front.PairedWith(front.log.pairs, s.pushes)
    }

    /** The chroma half of a context frame, which finds all it reads and comes out level with luma. */
    method ContextChroma(image: Image, healthy: bool, ghost s: Stream) returns (r: Result<()>)
      requires Built() && chroma != null && luma.Valid() && chroma.Valid()
      requires LumaPrimed(chroma, s) && Protocol.PushContext(G(), s).Ok?
      requires luma.stream == Protocol.PushContext(G(), s).value
      requires luma.pace() == Pace(Taken(G(), luma.stream.pushes), false)
      modifies chroma, chroma.inner, chroma.inner.front, chroma.inner.front.log
      ensures luma.Valid() == true && chroma.Valid() == true
      ensures r.Ok? ==> InStep() == true
                        && chroma.inner.Stream() == old(chroma.inner.Stream()).Fed(image)
      ensures healthy ==> r.Ok?
    {
      hide Nl4d.Live, Protocol.PushContext;
      r := chroma.PushContext(Planes(image, true), healthy);
    }

    /** Gives luma and then chroma a context frame, as `ForwardPush` does a pushed one. */
    method ForwardContext(planes: FramePlanes, healthy: bool) returns (r: Result<()>)
      requires Valid() && !poisoned
      modifies this`poisoned, luma, luma.inner, luma.inner.front, luma.inner.front.log,
               MotionObjects(), Chromas(), ChromaInners(), ChromaFronts(), ChromaLogs()
      ensures PassesValid() == true
      ensures var answer := Protocol.PushContext(G(), old(luma.stream));
              if old(luma.poisoned) then r == Err(NeedsReset) && Refusing()
              else if answer.Err? then
                r == Err(answer.error) && !Refusing() && InStep() == true
                && luma.stream == old(luma.stream)
                && luma.inner.Stream() == old(luma.inner.Stream()) && ChromaStream() == old(ChromaStream())
              else
                && (r.Err? ==> Refusing())
                && (r.Ok? ==> !Refusing() && InStep() == true && luma.stream == answer.value
                              && luma.inner.Stream() == old(luma.inner.Stream()).Fed(planes.luma)
                              && ChromaStream() == ChromaFed(old(ChromaStream()), planes))
                && (healthy ==> r.Ok?)
    {
      hide Nl4d.Live, PassthroughRing.HoldsNewest, PlanarEngine.KeepsUncleaned, Protocol.PushContext;
      ghost var s := luma.stream;
      r := luma.PushContext(Planes(planes.luma, true), healthy);
      if r.Err? || chroma == null {
        return;
      }
      assert LumaPrimed(chroma, s);
      r := ContextChroma(planes.chroma, healthy, s);
      poisoned := r.Err?;
    }

    /** Answers as the protocol's `PushContext` does for both passes, or refuses from then on. */
    method PushContext(planes: FramePlanes, healthy: bool) returns (r: Result<()>)
      requires Valid()
      modifies this, luma, luma.inner, luma.inner.front, luma.inner.front.log, MotionObjects(),
               Chromas(), ChromaInners(), ChromaFronts(), ChromaLogs(), passthrough
      ensures Valid() == true
      ensures old(Refusing()) ==>
                Refusing() && r.Err? && (Fits(planes) ==> r == Err(NeedsReset))
      ensures !old(Refusing()) && !(planes.lumaFits && planes.chromaFits) ==> r == Err(PlaneMismatch) && Unmoved()
      ensures var answer := Protocol.PushContext(G(), old(luma.stream));
              !old(Refusing()) ==>
                if !Fits(planes) then r == Err(PlaneMismatch) && Unmoved()
                else if answer.Err? then r == Err(answer.error) && Unmoved()
                else
                  && (healthy ==> r.Ok?)
                  && (r.Err? ==> Refusing())
                  && (r.Ok? ==> !Refusing() && luma.stream == answer.value
                                && Given() == Fed(old(Given()), planes))
    {
      hide Nl4d.Live;
      if poisoned {
        return Err(NeedsReset);
      }
      if !Fits(planes) {
        return Err(PlaneMismatch);
      }
      streamStarted := true;
      r := TakeContext(planes, healthy);
    }

    /** Gives a context frame to the passes and keeps its uncleaned planes. */
    method TakeContext(planes: FramePlanes, healthy: bool) returns (r: Result<()>)
      requires Valid() && !poisoned
      modifies this`poisoned, this`frames, luma, luma.inner, luma.inner.front, luma.inner.front.log,
               MotionObjects(), Chromas(), ChromaInners(), ChromaFronts(), ChromaLogs(), passthrough
      ensures Valid() == true
      ensures var answer := Protocol.PushContext(G(), old(luma.stream));
              if old(luma.poisoned) then r == Err(NeedsReset) && Refusing()
              else if answer.Err? then r == Err(answer.error) && Unmoved()
              else
                && (healthy ==> r.Ok?)
                && (r.Err? ==> Refusing())
                && (r.Ok? ==> !Refusing() && luma.stream == answer.value
                              && Given() == Fed(old(Given()), planes))
    {
      hide Nl4d.Live;
      var frame := luma.NextStreamFrame();
      r := ForwardContext(planes, healthy);
      if r.Ok? {
        StoreUncleaned(frame, planes);
      }
    }

    /** Forwards the end of a stream to each pass. They owe the same count, which the source would
    refuse otherwise. */
    method ForwardFinish() returns (r: Result<int>)
      requires Valid() && !poisoned
      modifies luma, luma.inner, luma.inner.front, Chromas(), ChromaInners(), ChromaFronts()
      ensures PassesValid() == true
      ensures var answer := Protocol.Finish(G(), old(luma.stream));
              if old(luma.poisoned) then r == Err(NeedsReset) && luma.poisoned
              else if answer.Err? then
                r == Err(answer.error) && !luma.poisoned && InStep() == true
                && luma.stream == old(luma.stream)
                && luma.inner.Stream() == old(luma.inner.Stream()) && ChromaStream() == old(ChromaStream())
              else
                !luma.poisoned && InStep() == true && r == Ok(answer.value.1)
                && luma.stream == answer.value.0
                && luma.inner.Stream() == old(luma.inner.Stream()).After(answer.value.1 == 0)
                && ChromaStream() == ChromaAfter(old(ChromaStream()), answer.value.1 == 0)
    {
      hide Nl4d.Live;
      r := luma.Finish();
      if r.Ok? && chroma != null {
        var second := chroma.Finish();
        assert second == r;
      }
    }

    /** Answers as the protocol's `Finish` does for both passes. */
    method Finish() returns (r: Result<int>)
      requires Valid()
      modifies this`streamStarted, this`frames, luma, luma.inner, luma.inner.front,
               Chromas(), ChromaInners(), ChromaFronts()
      ensures Valid()
      ensures old(Refusing()) ==> Refusing() && r == Err(NeedsReset)
      ensures var answer := Protocol.Finish(G(), old(luma.stream));
              !old(Refusing()) ==>
                if answer.Err? then r == Err(answer.error) && Unmoved()
                else
                  && !Refusing() && r == Ok(answer.value.1) && luma.stream == answer.value.0
                  && Given() == After(old(Given()), answer.value.1 == 0)
    {
      hide Nl4d.Live;
      if poisoned {
        return Err(NeedsReset);
      }
      streamStarted := false;
      r := ForwardFinish();
      if r.Ok? && r.value == 0 {
        frames := [];
      }
    }

    /** Abandons the stream and clears any poison, whatever state a failure left the passes in. */
    method Reset()
      requires Valid()
      modifies this, luma, luma.inner, luma.inner.front, luma.inner.front.log, MotionObjects(),
               Chromas(), ChromaInners(), ChromaFronts(), ChromaLogs()
      ensures Valid() && !Refusing() && luma.stream == FRESH && frames == []
      ensures Given().luma.frames == [] && Given().chroma.frames == []
      ensures luma.inner.front.run > old(luma.inner.front.run)
      ensures chroma != null ==> chroma.inner.front.run > old(chroma.inner.front.run)
    {
      hide Nl4d.Live;
      var number := 1 + if chroma != null && chroma.inner.front.run > luma.inner.front.run
                        then chroma.inner.front.run else luma.inner.front.run;
      luma.Reset(number);
      if chroma != null {
        chroma.Reset(number);
        luma.inner.front.role.ring.Clear();
      }
      StartOver();
    }

    method StartOver()
      modifies this`streamStarted, this`poisoned, this`frames
      ensures !poisoned && frames == []
    {
      streamStarted, poisoned, frames := false, false, [];
    }
  }
}
