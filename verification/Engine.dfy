/** The NL4D pass engine: the protocol checks, the queue of finished regions and the lazy tail. */
module Engine {
  import opened Schedule
  import opened Protocol
  import opened Rings
  import opened LumaMotion
  import opened Wrappers
  import opened Front
  import opened Denoiser

  /** One call's planes: what they hold and whether their sizes match the geometry. */
  datatype Planes = Planes(image: Image, fits: bool)

  /** A frame written out and what its region held. A pass that only guides writes nothing. */
  datatype Emission = Emission(frame: nat, contents: seq<Contribution>)

  /** What a stream writes out for `o`: nothing when its pass only guides, and otherwise exactly the
  passes `o` names, each over the frames the ring held when it ran. */
  ghost function Owed(g: Shape, reel: Reel, guidesOnly: bool, o: Output): Emission {
    Emission(o.frame, if guidesOnly then [] else Contributions(g, reel, o.first, o.end, o.frame))
  }

  /** Another frame changes nothing that is owed for an output whose window was complete. */
  lemma OwedStays(g: Shape, reel: Reel, image: Image, guidesOnly: bool, o: Output)
    requires RingSlots(g) <= |reel.frames| && o.end + g.radius <= |reel.frames|
    ensures Owed(g, reel.Fed(image), guidesOnly, o) == Owed(g, reel, guidesOnly, o)
  {
    ContributionsStay(g, reel, image, o.first, o.end, o.frame);
  }

  /** Where a stream's machinery stands: the frames its ring has taken and whether its tail passes
  have run. */
  datatype Pace = Pace(taken: nat, tailRun: bool)

  /** A range of pass centres, `first` up to `end`. */
  datatype Span = Span(first: nat, end: nat)

  /** Whether the next emit has to run passes before it has a region to read out. */
  function NeedsQueue(g: Shape, s: Stream, p: Pace): bool {
    s.finishing && !p.tailRun && CompletedBy(g, s.context, p.taken) == s.emitted
  }

  /** Where the machinery stands once the next tail regions are queued. */
  function QueuedPace(g: Shape, s: Stream, p: Pace): Pace {
    var next := NextReady(g, s.context, p.taken);
    if next <= s.pushes then Pace(next, false) else Pace(s.pushes, true)
  }

  /** The passes that queueing the next tail regions runs. */
  function QueueSpan(g: Shape, s: Stream, p: Pace): Span {
    var next := NextReady(g, s.context, p.taken);
    if next <= s.pushes then Span(PassEnd(g, s.context, p.taken), PassEnd(g, s.context, next))
    else if s.pushes < RingSlots(g) then Span(0, s.pushes)
    else Span(PassEnd(g, s.context, p.taken), s.pushes)
  }

  function EmitSpan(g: Shape, s: Stream, p: Pace): Span {
    if NeedsQueue(g, s, p) then QueueSpan(g, s, p) else Span(0, 0)
  }

  /** Where the machinery stands after an emit that succeeds. */
  function EmitPace(g: Shape, s: Stream, p: Pace): Pace {
    if s.finishing && Waiting(g, s) == 1 then Pace(0, false)
    else if NeedsQueue(g, s, p) then QueuedPace(g, s, p) else p
  }

  /** What stream and pace say of each other. */
  ghost predicate PaceFits(g: Shape, s: Stream, p: Pace) {
    && Legal(g, s)
    && (if p.tailRun then s.finishing && p.taken == s.pushes
        else
          && Taken(g, s.pushes) <= p.taken <= s.pushes
          && (!s.finishing ==> p.taken == Taken(g, s.pushes))
          && s.emitted <= CompletedBy(g, s.context, p.taken) <= s.emitted + 1)
  }

  /** No call turns the ring of shared motion more than once. */
  lemma SpansFit(g: Shape, s: Stream, p: Pace)
    requires g.radius >= 1 && PaceFits(g, s, p)
    ensures var span := EmitSpan(g, s, p);
            span.first <= span.end <= span.first + RingSlots(g)
  {
  }

  /** A push keeps the books and readies exactly the region its passes complete. */
  lemma PushAdvances(g: Shape, s: Stream, p: Pace)
    requires PaceFits(g, s, p) && !s.finishing && CompletedBy(g, s.context, p.taken) == s.emitted
    ensures var next := s.(pushes := s.pushes + 1);
            var taken := Taken(g, s.pushes + 1);
            && !p.tailRun && p.taken == Taken(g, s.pushes)
            && PaceFits(g, next, Pace(taken, false))
            && CompletedBy(g, s.context, taken) - s.emitted
               == if RegionReady(g, s.context, taken).Some? then 1 else 0
  {
  }

  /** A context frame keeps the books: no pass has run and none is owed. */
  lemma ContextAdvances(g: Shape, s: Stream)
    requires Legal(g, s) && !s.finishing && Waiting(g, s) == 0 && s.pushes == s.context
    ensures var next := s.(context := s.context + 1, pushes := s.pushes + 1);
            Legal(g, next) && Waiting(g, next) == 0
  {
  }

  /** Where a stream that has ended stands when it needs its next tail regions. */
  lemma QueueStands(g: Shape, s: Stream, p: Pace)
    requires g.radius >= 1 && PaceFits(g, s, p) && NeedsQueue(g, s, p)
    ensures var first := PassEnd(g, s.context, p.taken);
            var stop := DrainStop(g, s.context, p.taken, s.pushes);
            var span := QueueSpan(g, s, p);
            && p.taken <= stop <= s.pushes && stop <= NextReady(g, s.context, p.taken)
            && QueuedPace(g, s, p) == Pace(stop, stop < NextReady(g, s.context, p.taken))
            && (stop == NextReady(g, s.context, p.taken) ==>
                  span == Span(first, PassEnd(g, s.context, stop))
                  && stop >= RingSlots(g) && CompletedBy(g, s.context, stop) == s.emitted + 1)
            && (stop < NextReady(g, s.context, p.taken) ==>
                  && stop == s.pushes && span.end == s.pushes <= span.first + RingSlots(g)
                  && CompletedBy(g, s.context, stop) == s.emitted
                  && Waiting(g, s) == Min(s.pushes, 2 * g.radius)
                  && (if s.pushes < RingSlots(g)
                      then PassEnd(g, s.context, stop) == first && span.first == 0
                      else PassEnd(g, s.context, stop) == TailStart(g, s.pushes)
                           && span.first == first))
  {
  }

  /** The frame a stream writes out next: the ring's oldest while passes complete regions one by one,
  and the first of those left once its tail passes have run. */
  lemma NextIsOldest(g: Shape, s: Stream, taken: nat)
    requires Legal(g, s) && taken <= s.pushes && CompletedBy(g, s.context, taken) == s.emitted + 1
    ensures RingSlots(g) <= taken && FirstPass(g, s.context) <= taken
    ensures NextFrame(g, s) == taken - RingSlots(g)
  {
  }

  lemma NextOfTail(g: Shape, s: Stream)
    requires Legal(g, s) && s.finishing
    ensures NextFrame(g, s) == s.pushes - Waiting(g, s)
  {
  }

  class Nl4d {
    const inner: Nl4dDenoiser
    /** The queue of regions whose frames come next. */
    var pending: seq<CompletedRegion>
    /** The tail frames still to write out after a finish. */
    var tailRemaining: nat
    /** Pushes since the stream started. */
    var pushes: nat
    /** Set by a push, and not by a context frame. */
    var pushed: bool
    /** The frame last written out, if any since the engine was reset. */
    var emitted: Option<nat>
    var poisoned: bool

    /** The stream as its caller sees it. */
    ghost var stream: Stream
    ghost var tailRun: bool

    constructor (radius: nat, depth: nat, role: RingRole, guidesOnly: bool, memory: Image,
                 uninitialised: seq<seq<Contribution>>)
      requires radius >= 1 && |uninitialised| == 2 * radius + 1
      requires !role.NoRing? ==> role.ring.Shaped() && role.ring.slots == 2 * radius + 1
      ensures Valid() && !poisoned && stream == FRESH && pace() == Pace(0, false)
      ensures emitted == None && inner.front.frames == []
      ensures G() == Shape(radius, depth) && inner.front.role == role
      ensures inner.guidesOnly == guidesOnly && inner.front.run == 0
      ensures inner.front.log.passes == Blank && inner.front.log.pairs == Blank
      ensures fresh(inner) && fresh(inner.front) && fresh(inner.front.log)
    {
      inner := new Nl4dDenoiser(radius, depth, role, guidesOnly, memory, uninitialised);
      pending, tailRemaining, pushes, pushed := [], 0, 0, false;
      emitted, poisoned := None, false;
      stream, tailRun := FRESH, false;
    }

    function G(): Shape { inner.G() }

    ghost function pace(): Pace
      reads this`tailRun, inner.front`realPushes
    {
      Pace(inner.front.realPushes, tailRun)
    }

    /** How a push of this engine's stream begins. */
    ghost function PushCall(): CallStart
      reads this`stream, inner.front`run, inner.front.log`passes, inner.front.Source()
    {
      CallStart(inner.front.Motions(), inner.front.log.passes,
                PushDue(G(), stream.context, stream.pushes).first)
    }

    /** How an emit of this engine's stream begins. */
    ghost function EmitCall(): CallStart
      reads this`stream, this`tailRun, inner.front`realPushes, inner.front`run,
            inner.front.log`passes, inner.front.Source()
    {
      CallStart(inner.front.Motions(), inner.front.log.passes, EmitSpan(G(), stream, pace()).first)
    }

    // The three ways a live stream can stand.

    /** A stream that still takes frames. */
    ghost predicate Feeding()
      requires inner.Shaped()
      reads this, inner, inner.front
    {
      && !tailRun && !stream.finishing && tailRemaining == 0
      && Legal(G(), stream)
      && stream.pushes == pushes && (pushed <==> pushes > stream.context)
      && inner.Feeding(stream.context, stream.pushes)
      && |pending| == Waiting(G(), stream)
      && OldestQueued()
    }

    /** A stream that has ended but whose look-ahead may still hold frames. */
    ghost predicate Draining()
      requires inner.Shaped()
      reads this, inner, inner.front
    {
      && !tailRun && stream.finishing && tailRemaining == Waiting(G(), stream)
      && Legal(G(), stream)
      && inner.Running(stream.context) && |inner.front.frames| == stream.pushes
      && inner.front.realPushes >= Taken(G(), stream.pushes)
      && |pending| == CompletedBy(G(), stream.context, inner.front.realPushes) - stream.emitted
      && OldestQueued()
    }

    /** A stream whose tail passes have run. */
    ghost predicate Tailing()
      requires inner.Shaped()
      reads this, inner, inner.front
    {
      && tailRun && stream.finishing && tailRemaining == Waiting(G(), stream) == |pending|
      && Legal(G(), stream)
      && |pending| <= 2 * inner.front.radius
      && inner.ZeroedIsEmpty() && |inner.front.frames| == inner.front.realPushes == stream.pushes
      && inner.front.StreamFrames() == stream.pushes
      && inner.TailCollected(stream.context, stream.pushes, stream.pushes - |pending|)
      && |pending| <= stream.pushes && pending == LastRegions(G(), stream.pushes, |pending|)
    }

    /** A queued region is that of the ring's oldest frame and holds what it owes. */
    ghost predicate OldestQueued()
      requires inner.Shaped()
      reads this, inner, inner.front
    {
      pending != [] ==>
        && inner.front.realPushes >= inner.front.Slots()
        && pending == [RegionOf(G(), inner.front.realPushes - inner.front.Slots(), false)]
        && inner.RegionsHeld(stream.context, inner.front.realPushes, true)
    }

    ghost predicate Live()
      requires inner.Shaped()
      reads this, inner, inner.front
    {
      if tailRun then Tailing() else if stream.finishing then Draining() else Feeding()
    }

    ghost predicate Valid()
      reads this, inner, inner.front, inner.front.RingObject()
    {
      && inner.Shaped() && inner.front.RingFits()
      && (!poisoned ==> Live())
    }

    /** Nothing has changed, which is what a refusal leaves behind. */
    twostate predicate Untouched()
      reads this, inner, inner.front, inner.front.log, inner.front.RingObject()
    {
      && unchanged(this) && unchanged(inner) && unchanged(inner.front)
      && unchanged(inner.front.log) && unchanged(inner.front.RingObject())
    }

    lemma StreamIsLegal()
      requires Valid() && !poisoned
      ensures Legal(G(), stream) && |inner.front.frames| == stream.pushes
    {
    }

    /** The checks before a call see exactly what the protocol sees. */
    lemma BusyWhenWaiting()
      requires inner.Shaped() && Live()
      ensures (pending != [] || tailRemaining > 0) <==> (Waiting(G(), stream) != 0 || stream.finishing)
      ensures pending == [] && tailRemaining == 0 ==> Feeding() && Legal(G(), stream)
    {
    }

    // Taking frames in.

    /** Whether the passes of the stream's next push find their motion. */
    ghost predicate FindsDue(source: MotionSource, s: Stream) {
      var due := PushDue(G(), s.context, s.pushes);
      Finds(source, due.first, due.end)
    }

    /** Takes a frame in and runs the passes it owes, poisoning the engine on a failure. */
    method Ingest(image: Image, healthy: bool, ghost call: CallStart) returns (r: Result<()>)
      requires inner.Shaped() && inner.front.RingFits() && !poisoned && Feeding() && pending == []
      requires inner.front.Began(call)
      requires call.first == PushDue(G(), stream.context, stream.pushes).first
      modifies this`pending, this`pushes, this`pushed, this`poisoned, this`stream,
               inner`passesRun, inner`zeroedRegions, inner`accum, inner.front`slotFrames,
               inner.front`input, inner.front`ringHead, inner.front`framesLoaded,
               inner.front`realPushes, inner.front`released, inner.front`held,
               inner.front`pushed, inner.front`frames, inner.front.log, inner.front.Shared()
      ensures inner.Shaped() && inner.front.RingFits()
      ensures r.Err? ==> r.error == Gpu && poisoned
      ensures r.Ok? ==>
                && !poisoned && Feeding() && stream == old(stream.(pushes := stream.pushes + 1))
                && inner.front.frames == old(inner.front.frames) + [image]
                && inner.front.Ran(call, PushDue(G(), stream.context, old(stream.pushes)).end)
      ensures (healthy && old(inner.front.FindsPair(stream.pushes))
               && FindsDue(call.source, old(stream))) ==> r.Ok?
      ensures r.Ok? ==>
                && inner.front.PairShared(old(stream.pushes))
                && inner.front.log.pairs
                   == old(inner.front.PairedWith(inner.front.log.pairs, stream.pushes))
    {
      hide Collects, CompletedBy, HeldIn, PassEnd;
      PushAdvances(G(), stream, pace());
      var region := inner.TakeFrame(image, healthy, stream.context, stream.pushes, call);
      if region.Err? {
        poisoned := true;
        return Err(Gpu);
      }
      NoteFrame(region.value);
      r := Ok(());
    }

    /** Counts a frame taken in, and queues the region it completed. */
    method NoteFrame(region: Option<CompletedRegion>)
      modifies this`pushed, this`pending, this`pushes, this`stream
      ensures pushed && pushes == old(pushes) + 1
      ensures stream == old(stream.(pushes := stream.pushes + 1))
      ensures pending == old(pending) + (if region.Some? then [region.value] else [])
    {
      pushed := true;
      Enqueue(region);
      pushes := pushes + 1;
      stream := stream.(pushes := stream.pushes + 1);
    }

    /** Answers as the protocol's `Push` does, unless the planes are unfit or the GPU fails. A refusal
    changes nothing. */
    method Push(planes: Planes, healthy: bool, ghost call: CallStart) returns (r: Result<int>)
      requires Valid()
      requires inner.front.Began(call)
      requires call.first == PushDue(G(), stream.context, stream.pushes).first
      modifies this, inner, inner.front, inner.front.log, inner.front.Shared()
      ensures Valid() == true && inner.front.run == old(inner.front.run)
      ensures var answer := Protocol.Push(G(), old(stream));
              if old(poisoned) then r == Err(NeedsReset) && Untouched()
              else if answer.Err? then r == Err(answer.error) && Untouched()
              else if !planes.fits then r == Err(PlaneMismatch) && Untouched()
              else
                && (r.Err? ==> r.error == Gpu && poisoned)
                && (r.Ok? ==> !poisoned && r.value == answer.value.1
                              && stream == answer.value.0 && TookFrame(planes.image)
                              && inner.front.Ran(call, PushDue(G(), old(stream.context),
                                                               old(stream.pushes)).end))
                && ((healthy && old(inner.front.FindsPair(stream.pushes))
                     && FindsDue(call.source, old(stream))) ==> r.Ok?)
    {
      if poisoned {
        return Err(NeedsReset);
      }
      BusyWhenWaiting();
      if pending != [] || tailRemaining > 0 {
        return Err(OutputsPending);
      }
      if !planes.fits {
        return Err(PlaneMismatch);
      }

      var ingested := Ingest(planes.image, healthy, call);
      if ingested.Err? {
        return Err(Gpu);
      }
      r := Ok(|pending|);
    }

    /** What a frame taken in leaves unchanged, and what it adds to the record. */
    twostate predicate TookFrame(image: Image)
      requires old(inner.front.SourceFits())
      reads this, inner.front, inner.front.log, inner.front.RingObject()
    {
      && emitted == old(emitted) && tailRun == old(tailRun)
      && pace() == Pace(Taken(G(), stream.pushes), false)
      && inner.front.run == old(inner.front.run)
      && inner.front.frames == old(inner.front.frames) + [image]
      && inner.front.PairShared(old(stream.pushes))
      && inner.front.log.pairs
         == old(inner.front.PairedWith(inner.front.log.pairs, stream.pushes))
    }

    /** Answers as the protocol's `PushContext` does, unless the planes are unfit or the GPU fails. A
    refusal changes nothing. */
    method PushContext(planes: Planes, healthy: bool) returns (r: Result<()>)
      requires Valid()
      modifies this`pushes, this`poisoned, this`stream, inner`sceneStart, inner.front`slotFrames,
               inner.front`input, inner.front`ringHead, inner.front`framesLoaded,
               inner.front`realPushes, inner.front`released, inner.front`held,
               inner.front`pushed, inner.front`frames, inner.front.log`pairs,
               inner.front.Shared()`lookaheadTag, inner.front.Shared()`lookahead
      ensures Valid() == true
      ensures var answer := Protocol.PushContext(G(), old(stream));
              if old(poisoned) then r == Err(NeedsReset) && Untouched()
              else if answer == Err(OutputsPending) then r == Err(OutputsPending) && Untouched()
              else if !planes.fits then r == Err(PlaneMismatch) && Untouched()
              else if answer.Err? then r == Err(answer.error) && Untouched()
              else
                && (r.Err? ==> r.error == Gpu && poisoned)
                && (r.Ok? ==> !poisoned && stream == answer.value && TookFrame(planes.image))
                && (healthy && old(inner.front.FindsPair(stream.pushes)) ==> r.Ok?)
    {
      hide Collects, CompletedBy, Draining, FirstPass, HeldIn, Legal, NlmFront.Streaming, Tailing;
      if poisoned {
        return Err(NeedsReset);
      }
      BusyWhenWaiting();
      if pending != [] || tailRemaining > 0 {
        return Err(OutputsPending);
      }
      if !planes.fits {
        return Err(PlaneMismatch);
      }
      if pushed {
        return Err(ContextAfterPush);
      }

      ContextAdvances(G(), stream);
      var taken := inner.TakeContext(planes.image, pushes == 0, healthy, stream.context);
      if taken.Err? {
        poisoned := true;
        return Err(Gpu);
      }
      NoteContext();
      r := Ok(());
    }

    /** Counts a context frame taken in. */
    method NoteContext()
      modifies this`pushes, this`stream
      ensures pushes == old(pushes) + 1
      ensures stream == old(stream.(context := stream.context + 1, pushes := stream.pushes + 1))
    {
      pushes := pushes + 1;
      stream := stream.(context := stream.context + 1, pushes := stream.pushes + 1);
    }

    // Writing frames out.

    lemma DrainingFits()
      requires inner.Shaped() && Draining() && pending == []
      ensures PaceFits(G(), stream, pace())
      ensures NeedsQueue(G(), stream, pace())
    {
    }

    /** Drains the look-ahead until a region is ready, and queues it. */
    method QueueDrained(healthy: bool, ghost call: CallStart) returns (r: Result<bool>)
      requires inner.Shaped() && inner.front.RingFits() && Draining() && pending == []
      requires inner.front.Began(call)
      requires call.first == QueueSpan(G(), stream, pace()).first
      modifies this`pending, inner`passesRun, inner`zeroedRegions, inner`accum,
               inner.front`slotFrames, inner.front`input, inner.front`ringHead,
               inner.front`framesLoaded, inner.front`realPushes, inner.front`released,
               inner.front.log`passes, inner.front.Shared()`tags, inner.front.Shared()`fields
      ensures inner.Shaped() && inner.front.RingFits()
      ensures r.Err? ==> r.error == Gpu
      ensures var queued := QueuedPace(G(), stream, old(pace()));
              var span := QueueSpan(G(), stream, old(pace()));
              && (healthy && Finds(call.source, span.first, span.end) ==> r.Ok?)
              && (r.Ok? ==>
                    && Draining() && r.value == !queued.tailRun == (pending != [])
                    && inner.front.realPushes == queued.taken
                    && inner.front.Ran(call, if r.value then span.end
                                             else TailStart(G(), stream.pushes))
                    && (!r.value ==> tailRemaining == Min(stream.pushes, 2 * inner.front.radius)))
    {
      hide Collects, CompletedBy, DrainStop, HeldIn, NextReady, NlmFront.Streaming, QueuedPace, QueueSpan;
      ghost var start, context, n := inner.front.realPushes, stream.context, stream.pushes;
      ghost var stop := DrainStop(G(), context, start, n);
      ghost var first := PassEnd(G(), context, start);
      ghost var due := Due(context, stop, first, PassEnd(G(), context, stop));
      ghost var drain := call.(first := first);
      DrainingFits();
      QueueStands(G(), stream, pace());
      var drained := inner.DrainLookahead(healthy, due, drain);
      if drained.Err? {
        return Err(Gpu);
      }
      Enqueue(drained.value);
      r := Ok(drained.value.Some?);
    }

    /** Queues a completed region, if there is one. */
    method Enqueue(region: Option<CompletedRegion>)
      modifies this`pending
      ensures pending == old(pending) + (if region.Some? then [region.value] else [])
    {
      if region.Some? {
        pending := pending + [region.value];
      }
    }

    /** Runs the tail passes and queues every region left. */
    method QueueTail(healthy: bool, ghost call: CallStart) returns (r: Result<()>)
      requires inner.Shaped() && inner.front.RingFits() && Draining() && pending == []
      requires inner.front.realPushes == stream.pushes
      requires tailRemaining == Min(stream.pushes, 2 * inner.front.radius)
      requires inner.front.Ran(call, TailStart(G(), stream.pushes))
      requires stream.pushes <= call.first + inner.front.Slots()
      modifies this`pending, this`tailRun, inner`passesRun, inner`zeroedRegions, inner`accum,
               inner.front`slotFrames, inner.front`input, inner.front`ringHead,
               inner.front`framesLoaded,
               inner.front.log`passes, inner.front.Shared()`tags, inner.front.Shared()`fields
      ensures inner.Shaped() && inner.front.RingFits()
      ensures r.Err? ==> r.error == Gpu
      ensures r.Ok? ==> Tailing() && pending != [] && inner.front.Ran(call, stream.pushes)
      ensures healthy && Finds(call.source, TailStart(G(), stream.pushes), stream.pushes) ==> r.Ok?
    {
      var regions := inner.FinishPasses(healthy, stream.context, call);
      if regions.Err? {
        return Err(Gpu);
      }
      assert |regions.value| == tailRemaining;
      pending := pending + regions.value;
      tailRun := true;
      r := Ok(());
    }

    /** Fills the queue of a stream that has ended: from the look-ahead while that still readies a
    region, and with all that is left once it does not. */
    method QueueTailRegions(healthy: bool, ghost call: CallStart) returns (r: Result<()>)
      requires inner.Shaped() && inner.front.RingFits() && Draining() && pending == []
      requires inner.front.Began(call)
      requires call.first == QueueSpan(G(), stream, pace()).first
      modifies this`pending, this`tailRun, inner`passesRun, inner`zeroedRegions, inner`accum,
               inner.front`slotFrames, inner.front`input, inner.front`ringHead,
               inner.front`framesLoaded, inner.front`realPushes, inner.front`released,
               inner.front.log`passes, inner.front.Shared()`tags, inner.front.Shared()`fields
      ensures inner.Shaped() && inner.front.RingFits()
      ensures r.Err? ==> r.error == Gpu
      ensures r.Ok? ==>
                && (if tailRun then Tailing() == true else Draining() == true) && pending != []
                && pace() == QueuedPace(G(), stream, old(pace()))
                && inner.front.Ran(call, QueueSpan(G(), stream, old(pace())).end)
      ensures var span := QueueSpan(G(), stream, old(pace()));
              (healthy && Finds(call.source, span.first, span.end)) ==> r.Ok?
    {
      QueueStands(G(), stream, pace());
      var drained := QueueDrained(healthy, call);
      if drained.Err? {
        return Err(Gpu);
      }
      if drained.value {
        return Ok(());
      }
      r := QueueTail(healthy, call);
    }

    /** What the next emit writes out of a stream. */
    ghost function NextEmission(s: Stream): Emission
      requires Waiting(G(), s) > 0
      reads inner.front`run, inner.front`frames
    {
      Owed(G(), inner.Stream(), inner.guidesOnly,
           Expected(G(), s.context, s.pushes, NextFrame(G(), s)))
    }

    /** A live stream's oldest queued region is that of its next frame. */
    lemma QueueIsNext()
      requires inner.Shaped() && Live() && pending != []
      ensures Waiting(G(), stream) > 0
      ensures var frame := NextFrame(G(), stream);
              && pending[0].slot == Slot(frame, inner.front.Slots())
              && inner.ReadyToRead(stream.context, stream.pushes, frame, tailRun)
              && inner.front.slotFrames[pending[0].slot] == frame
    {
      hide Collects, Expected, FirstOutput, FirstPass, HeldIn, NextFrame;
      if tailRun {
        NextOfTail(G(), stream);
      } else {
        NextIsOldest(G(), stream, inner.front.realPushes);
        inner.front.LogicalFrame(0);
      }
    }

    /** Reads out the region of the stream's next frame, or nothing for a pass that only guides. */
    method ReadOut(region: CompletedRegion, ghost s: Stream, ghost tail: bool)
      returns (e: Emission)
      requires inner.Shaped() && Waiting(G(), s) > 0
      requires region.slot == Slot(NextFrame(G(), s), inner.front.Slots())
      requires inner.front.slotFrames[region.slot] == NextFrame(G(), s)
      requires inner.ReadyToRead(s.context, s.pushes, NextFrame(G(), s), tail)
      modifies this`emitted, inner`zeroedRegions, inner`accum
      ensures inner.Shaped() && e == NextEmission(s) && emitted == Some(e.frame)
      ensures if tail then inner.ZeroedIsEmpty()
                           && inner.TailCollected(s.context, s.pushes, NextFrame(G(), s) + 1)
              else inner.Running(s.context)
    {
      var frame := inner.front.slotFrames[region.slot];
      var contents := [];
      if !inner.guidesOnly {
        contents := inner.ReadRegion(region, s.context, s.pushes, NextFrame(G(), s), tail);
      }
      e := Emission(frame, contents);
      emitted := Some(frame);
    }

    /** Writes out the oldest queued region. */
    method WriteOldest() returns (e: Emission)
      requires inner.Shaped() && Live() && pending != []
      modifies this`pending, this`emitted, this`tailRemaining, this`stream,
               inner`zeroedRegions, inner`accum
      ensures inner.Shaped()
      ensures old(Waiting(G(), stream)) > 0 && e == old(NextEmission(stream))
      ensures emitted == Some(e.frame)
      ensures stream == old(stream.(emitted := stream.emitted + 1))
      ensures tailRemaining == (if stream.finishing then Waiting(G(), stream) else 0)
      ensures !(stream.finishing && tailRemaining == 0) ==> Live() == true
      ensures stream.finishing && tailRemaining == 0 ==> pending == []
    {
      hide Collects, CompletedBy, Expected, FirstOutput, HeldIn, LastRegions, OutputCount, Owed;
      hide Nl4dDenoiser.TailCollected, NlmFront.Streaming;
      if tailRun { LastRegionsRest(G(), stream.pushes, |pending|); }
      QueueIsNext();
      e := ReadOut(pending[0], stream, tailRun);
      PopOldest();
    }

    /** Takes the oldest queued region off the queue, and counts its frame as written out. */
    method PopOldest()
      requires pending != []
      modifies this`pending, this`tailRemaining, this`stream
      ensures pending == old(pending)[1..]
      ensures tailRemaining == if old(tailRemaining) > 0 then old(tailRemaining) - 1 else 0
      ensures stream == old(stream.(emitted := stream.emitted + 1))
    {
      pending := pending[1..];
      if tailRemaining > 0 {
        tailRemaining := tailRemaining - 1;
      }
      stream := stream.(emitted := stream.emitted + 1);
    }

    /** Drops the stream and everything known about it, and starts the `number`th. */
    method RestartStream(number: nat)
      requires inner.Shaped() && inner.front.RingFits() && pending == []
      modifies this`tailRemaining, this`pushes, this`pushed, this`stream, this`tailRun,
               inner`passesRun, inner`sceneStart, inner`zeroedRegions, inner.front`ringHead,
               inner.front`framesLoaded, inner.front`realPushes, inner.front`pushed,
               inner.front`released, inner.front`run, inner.front`frames
      ensures inner.Shaped() && inner.front.RingFits() && Live() == true
      ensures stream == FRESH && pace() == Pace(0, false)
      ensures inner.front.run == number && inner.front.frames == []
    {
      inner.ResetStream(number);
      tailRemaining, pushes, pushed := 0, 0, false;
      stream, tailRun := FRESH, false;
    }

    /** Whether the stream's next emit is its last. */
    ghost predicate Ends(s: Stream) {
      s.finishing && Waiting(G(), s) == 1
    }

    lemma EndsAtOne()
      requires inner.Shaped() && Live() && pending != []
      ensures tailRemaining == 1 <==> Ends(stream)
    {
    }

    /** Writes out the oldest queued region, and starts afresh after the stream's last. */
    method WriteNext() returns (e: Emission)
      requires inner.Shaped() && inner.front.RingFits() && Live() && pending != []
      modifies this`pending, this`emitted, this`tailRemaining, this`pushes, this`pushed,
               this`stream, this`tailRun, inner`passesRun, inner`sceneStart,
               inner`zeroedRegions, inner`accum, inner.front`ringHead, inner.front`framesLoaded,
               inner.front`realPushes, inner.front`pushed, inner.front`released,
               inner.front`run, inner.front`frames
      ensures inner.Shaped() && inner.front.RingFits() && Live() == true
      ensures old(Waiting(G(), stream)) > 0 && e == old(NextEmission(stream))
      ensures emitted == Some(e.frame)
      ensures stream == Protocol.Emit(G(), old(stream)).value.0
      ensures if Ends(old(stream))
              then pace() == Pace(0, false) && inner.front.frames == []
                   && inner.front.run == old(inner.front.run) + 1
              else pace() == old(pace()) && inner.front.frames == old(inner.front.frames)
                   && inner.front.run == old(inner.front.run)
    {
      hide Draining, Feeding, Tailing, OldestQueued;
      EndsAtOne();
      var ends := tailRemaining == 1;
      e := WriteOldest();
      if ends {
        RestartStream(inner.front.run + 1);
      }
    }

    /** The record of motion after an emit that began at `call`, and what a writer shared in it. */
    ghost predicate RanSpan(call: CallStart, span: Span, run: nat)
      requires inner.front.RingFits()
      reads inner.front.log, inner.front.RingObject()
    {
      && RanAlong(call.source, call.passes, inner.front.log.passes, span.first, span.end)
      && (inner.front.role.Writer? ==>
            Shares(inner.front.role.ring.tags, inner.front.role.ring.fields, run,
                   span.first, span.end))
    }

    /** Makes sure a region is queued when the stream owes one. */
    method FillQueue(healthy: bool, ghost call: CallStart) returns (r: Result<()>)
      requires inner.Shaped() && inner.front.RingFits() && Live() && !poisoned
      requires inner.front.Began(call) && call.first == EmitSpan(G(), stream, pace()).first
      modifies this`pending, this`tailRun, this`poisoned, inner`passesRun, inner`zeroedRegions,
               inner`accum, inner.front`slotFrames, inner.front`input, inner.front`ringHead,
               inner.front`framesLoaded, inner.front`realPushes, inner.front`released,
               inner.front.log`passes, inner.front.Shared()`tags, inner.front.Shared()`fields
      ensures inner.Shaped() && inner.front.RingFits()
      ensures r.Err? ==> r.error == Gpu && poisoned
      ensures r.Ok? ==>
                && !poisoned && Live() == true && (pending == [] <==> Waiting(G(), stream) == 0)
                && (pending == [] ==> Untouched())
                && pace() == (if NeedsQueue(G(), stream, old(pace()))
                              then QueuedPace(G(), stream, old(pace())) else old(pace()))
                && RanSpan(call, EmitSpan(G(), stream, old(pace())), inner.front.run)
      ensures old(Waiting(G(), stream)) == 0 ==> r.Ok?
      ensures var span := EmitSpan(G(), stream, old(pace()));
              (healthy && Finds(call.source, span.first, span.end)) ==> r.Ok?
    {
      if pending == [] && tailRemaining > 0 {
        r := QueueTailRegions(healthy, call);
        poisoned := r.Err?;
      } else {
        r := Ok(());
      }
    }

    /** Answers as the protocol's `Emit` does, unless the planes are unfit or the GPU fails: the frame is the
    stream's next and holds exactly what the stream owes it. A refusal changes nothing. */
    method EmitInto(planes: Planes, healthy: bool, ghost call: CallStart)
      returns (r: Result<Emission>)
      requires Valid()
      requires inner.front.Began(call) && call.first == EmitSpan(G(), stream, pace()).first
      modifies this, inner, inner.front, inner.front.log`passes,
               inner.front.Shared()`tags, inner.front.Shared()`fields
      ensures Valid() == true && (r.Err? ==> inner.front.run == old(inner.front.run))
      ensures var answer := Protocol.Emit(G(), old(stream));
              if old(poisoned) then r == Err(NeedsReset) && Untouched()
              else if !planes.fits then r == Err(PlaneMismatch) && Untouched()
              else if answer.Err? then r == Err(answer.error) && Untouched()
              else
                && (r.Err? ==> r.error == Gpu && poisoned)
                && (r.Ok? ==>
                      && !poisoned && r.value == old(NextEmission(stream))
                      && emitted == Some(r.value.frame) && stream == answer.value.0
                      && pace() == EmitPace(G(), old(stream), old(pace()))
                      && RanSpan(call, EmitSpan(G(), old(stream), old(pace())),
                                 old(inner.front.run))
                      && (if Ends(old(stream))
                          then inner.front.frames == []
                               && inner.front.run == old(inner.front.run) + 1
                          else inner.front.frames == old(inner.front.frames)
                               && inner.front.run == old(inner.front.run)))
      ensures var span := EmitSpan(G(), old(stream), old(pace()));
              (!old(poisoned) && planes.fits && Protocol.Emit(G(), old(stream)).Ok?
               && healthy && Finds(call.source, span.first, span.end)) ==> r.Ok?
    {
      hide Draining, EmitSpan, Expected, Feeding, NeedsQueue, OldestQueued, Owed, QueuedPace, QueueSpan, Tailing;
      if poisoned {
        return Err(NeedsReset);
      }
      if !planes.fits {
        return Err(PlaneMismatch);
      }

      var queued := FillQueue(healthy, call);
      if queued.Err? {
        return Err(Gpu);
      }
      if pending == [] {
        return Err(NothingToEmit);
      }
      var emission := WriteNext();
      r := Ok(emission);
    }

    /** Answers as the protocol's `Finish` does, with the number of frames still to be written out. */
    method Finish() returns (r: Result<int>)
      requires Valid()
      modifies this, inner, inner.front
      ensures Valid() == true
      ensures var answer := Protocol.Finish(G(), old(stream));
              if old(poisoned) then r == Err(NeedsReset) && Untouched()
              else if answer.Err? then r == Err(answer.error) && Untouched()
              else
                && r == Ok(answer.value.1) && stream == answer.value.0 && !poisoned
                && pace() == old(pace()).(taken := if r.value == 0 then 0
                                                   else old(pace()).taken)
                && emitted == old(emitted)
                && (if r.value == 0
                    then inner.front.run == old(inner.front.run) + 1 && inner.front.frames == []
                    else inner.front.run == old(inner.front.run)
                         && inner.front.frames == old(inner.front.frames))
    {
      hide Collects, FirstReady, HeldIn, NlmFront.Streaming;
      if poisoned {
        return Err(NeedsReset);
      }
      BusyWhenWaiting();
      if pending != [] || tailRemaining > 0 {
        return Err(OutputsPending);
      }

      var count := inner.FinishCount(stream.context);
      if count == 0 {
        RestartStream(inner.front.run + 1);
      } else {
        tailRemaining := count;
        stream := stream.(finishing := true);
      }
      r := Ok(count);
    }

    /** Abandons the current stream and clears any poison, whatever state a failure left behind. The
    next stream is the `number`th, and its record of motion starts blank. */
    method Reset(number: nat)
      requires Valid() && number > inner.front.run
      modifies this, inner, inner.front, inner.front.log
      ensures Valid() && !poisoned && emitted == None
      ensures stream == FRESH && pace() == Pace(0, false)
      ensures inner.front.run == number && inner.front.frames == []
      ensures inner.front.log.passes == Blank && inner.front.log.pairs == Blank
    {
      pending := [];
      emitted := None;
      poisoned := false;
      RestartStream(number);
      inner.front.log.passes, inner.front.log.pairs := Blank, Blank;
    }

    /** The number a push would give its frame. */
    function NextStreamFrame(): (frame: nat)
      requires Valid()
      reads this, inner, inner.front, inner.front.RingObject()
      ensures !poisoned ==> frame == stream.pushes
    {
      inner.front.StreamFrames()
    }
  }
}
