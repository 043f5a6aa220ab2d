/** The NLMeans front end a pass reads its window from: a noise look-ahead that feeds a cyclic ring
of frames, and the motion search of each pass. */
module Front {
  import opened Schedule
  import opened Protocol
  import opened Rings
  import opened LumaMotion
  import opened Wrappers

  /** One plane group of one source frame. */
  type Image = nat

  /** The ring as one pass sees it: the slot of its centre frame, and the slot of every ring
  position, oldest frame first. */
  datatype RingView = RingView(centreSlot: nat, slots: seq<nat>)

  /** The images a pass reads from the ring through its view, oldest first. */
  function Seen(input: seq<Image>, slots: seq<nat>): (images: seq<Image>)
    requires forall l | 0 <= l < |slots| :: slots[l] < |input|
    ensures |images| == |slots|
    ensures forall l | 0 <= l < |slots| :: images[l] == input[slots[l]]
  {
    seq(|slots|, l requires 0 <= l < |slots| && slots[l] < |input| => input[slots[l]])
  }

  /** The motion a front's passes and its look-ahead pairs were read along so far, oldest first.
  Nothing reads it back: it exists so that two fronts can be compared. */
  class MotionLog {
    ghost var passes: Log
    ghost var pairs: Log

    constructor ()
      ensures passes == Blank && pairs == Blank
    {
      passes, pairs := Blank, Blank;
    }
  }

  /** The slot `logical` places on from slot `head` of a cycle. */
  function SlotFrom(head: nat, logical: nat, slots: nat): (slot: nat)
    requires slots > 0
    ensures slot < slots
  {
    (head % slots + logical % slots) % slots
  }

  class NlmFront {
    const radius: nat
    const depth: nat
    const role: RingRole

    /** Frames pushed into the ring including duplicates, which picks the next slot. */
    var ringHead: nat
    /** How much of the ring is in use. */
    var framesLoaded: nat
    /** The stream frames the ring has seen, padding aside. */
    var realPushes: nat
    /** Per slot, the number of the frame whose image is there. */
    var slotFrames: seq<nat>
    /** The ring itself. */
    var input: seq<Image>
    /** The look-ahead ring and its counters, unused when `depth` is 0. */
    var held: seq<Image>
    var pushed: nat
    var released: nat
    /** Counts streams, so that one stream's motion is never taken for another's. */
    var run: nat

    /** The frames the current stream was given. */
    ghost var frames: seq<Image>
    const log: MotionLog

    constructor (radius: nat, depth: nat, role: RingRole, memory: Image)
      ensures Streaming() && frames == [] && run == 0
      ensures this.radius == radius && this.depth == depth && this.role == role
      ensures fresh(log) && log.passes == Blank && log.pairs == Blank
    {
      this.radius, this.depth, this.role := radius, depth, role;
      ringHead, framesLoaded, realPushes, pushed, released, run := 0, 0, 0, 0, 0, 0;
      slotFrames := seq(2 * radius + 1, _ => 0);
      input := seq(2 * radius + 1, _ => memory);
      held := seq(depth, _ => memory);
      frames := [];
      log := new MotionLog();
    }

    function Slots(): (slots: nat)
      ensures slots > 0
    {
      2 * radius + 1
    }

    ghost predicate Shaped()
      reads this
    {
      |slotFrames| == Slots() && |input| == Slots() && |held| == depth
    }

    /** Whether the ring's slots name, and hold, the newest of the first `taken` stream frames. */
    ghost predicate RingHoldsFrames()
      requires Shaped() && realPushes <= |frames|
      reads this
    {
      forall f: nat | realPushes - Slots() <= f < realPushes ::
        slotFrames[Slot(f, Slots())] == f && input[Slot(f, Slots())] == frames[f]
    }

    /** Whether the look-ahead holds the stream frames the ring has not taken yet. */
    ghost predicate LookaheadHoldsFrames()
      requires Shaped()
      reads this
    {
      if depth == 0 then
        pushed == 0 && released == 0 && realPushes == |frames|
      else
        && pushed == |frames| && released == realPushes && |frames| - realPushes <= depth
        && forall f: nat | realPushes <= f < |frames| :: held[Slot(f, depth)] == frames[f]
    }

    /** A stream under way: every real frame sits where the counters say, and no slot is padding. */
    ghost predicate Streaming()
      reads this
    {
      && Shaped()
      && ringHead == realPushes <= |frames|
      && framesLoaded == Min(realPushes, Slots())
      && RingHoldsFrames()
      && LookaheadHoldsFrames()
    }

    /** The whole of a stream that does not fill its ring, followed by its last frame over and over. */
    ghost predicate Padded()
      reads this
    {
      && Shaped()
      && 0 < realPushes == |frames| < Slots()
      && ringHead == framesLoaded == Slots()
      && (forall s: nat | s < Slots() ::
            slotFrames[s] == Min(s, realPushes - 1) && input[s] == frames[Min(s, realPushes - 1)])
      && LookaheadHoldsFrames()
    }

    // The ring the front shares motion through, and what a pass of it gets from there.

    ghost function RingObject(): set<LumaMotionRing> {
      if role.NoRing? then {} else {role.ring}
    }

    /** The ring the front writes, if it writes one. */
    ghost function Shared(): set<LumaMotionRing> {
      if role.Writer? then {role.ring} else {}
    }

    /** The ring the front reads, if it reads one. */
    ghost function Source(): set<LumaMotionRing> {
      if role.Reader? then {role.ring} else {}
    }

    ghost predicate RingFits()
      reads RingObject()
    {
      !role.NoRing? ==> role.ring.Shaped() && role.ring.slots == Slots()
    }

    ghost predicate SourceFits()
      reads Source()
    {
      role.Reader? ==> role.ring.Shaped() && role.ring.slots == Slots()
    }

    /** Where this front's passes take their motion from. */
    ghost function Motions(): MotionSource
      reads this`run, Source()
    {
      if role.Reader? then Reads(role.ring.tags, role.ring.fields) else Searches(run)
    }

    /** Whether the ring this front writes holds its motion for every frame of a range. */
    ghost predicate HasShared(first: nat, end: nat)
      requires RingFits()
      reads this`run, RingObject()
    {
      role.Writer? ==> Shares(role.ring.tags, role.ring.fields, run, first, end)
    }

    /** Where a call found the motion record, and the first centre it runs. */
    ghost predicate Began(call: CallStart)
      reads this`run, log`passes, Source()
    {
      call.source == Motions() && call.passes == log.passes
    }

    /** Since `call` began, the passes centred on its first centre up to `upTo` have run, each along
    the motion it was due, and a writer's ring still holds all they shared. */
    ghost predicate Ran(call: CallStart, upTo: nat)
      requires RingFits()
      reads this`run, log`passes, RingObject()
    {
      && call.source == Motions() && call.first <= upTo
      && RanAlong(call.source, call.passes, log.passes, call.first, upTo)
      && HasShared(call.first, upTo)
    }

    /** Whether a push of `frame` finds the look-ahead motion it needs. */
    ghost predicate FindsPair(frame: nat)
      requires SourceFits()
      reads Source()
    {
      depth > 0 && frame > 0 && role.Reader? ==> role.ring.lookaheadTag == Some(frame)
    }

    /** Whether the ring this front writes holds the pair of a push of `frame`. */
    ghost predicate PairShared(frame: nat)
      reads this`run, RingObject()
    {
      role.Writer? && depth > 0 && frame > 0 ==>
        role.ring.lookaheadTag == Some(frame) && role.ring.lookahead == Motion(run, frame)
    }

    /** `pairs` with the look-ahead motion a push of `frame` reads its noise along, if any. */
    ghost function PairedWith(pairs: Log, frame: nat): Log
      requires SourceFits()
      reads this`run, Source()
    {
      if depth == 0 || frame == 0 then pairs
      else if role.Reader? then Logged(pairs, role.ring.lookahead)
      else Logged(pairs, Motion(run, frame))
    }

    // The ring view.

    function WindowReady(): bool
      reads this
    {
      framesLoaded >= Slots()
    }

    /** Where ring position `logical` is kept. Position 0 is the oldest. */
    function RingSlot(logical: nat): (slot: nat)
      reads this`ringHead
      ensures slot < Slots()
    {
      SlotFrom(ringHead, logical, Slots())
    }

    /** The slot of every ring position, oldest frame first. */
    function WindowSlots(): (slots: seq<nat>)
      reads this`ringHead
      ensures |slots| == Slots()
      ensures forall l | 0 <= l < Slots() :: slots[l] == RingSlot(l)
    {
      var head := ringHead;
      seq(Slots(), l requires 0 <= l => SlotFrom(head, l, Slots()))
    }

    /** What a pass that runs now reads. */
    function Images(): seq<Image>
      requires Shaped()
      reads this
    {
      Seen(input, WindowSlots())
    }

    /** A full ring's passes read exactly its newest frames, in order. */
    lemma ImagesAreNewest()
      requires Streaming() && WindowReady()
      ensures Images() == Window(Shape(radius, depth), frames, realPushes)
    {
      var window := Window(Shape(radius, depth), frames, realPushes);
      forall l: nat | l < Slots()
        ensures Images()[l] == window[l]
      {
        LogicalFrame(l);
      }
    }

    /** A padded ring's passes read the whole stream, with its last frame repeated. */
    lemma ImagesArePadded()
      requires Padded()
      ensures Images() == Window(Shape(radius, depth), frames, realPushes)
    {
      var window := Window(Shape(radius, depth), frames, realPushes);
      forall l: nat | l < Slots()
        ensures Images()[l] == window[l]
      {
        PaddedFrame(l);
      }
    }

    lemma RingSlotIsSlot(logical: nat)
      requires logical < Slots()
      ensures RingSlot(logical) == Slot(ringHead + logical, Slots())
    {
      SlotOfSmall(logical, Slots());
      SlotAhead(ringHead, logical, Slots());
    }

    /** In a full ring, logical position `logical` holds the frame `logical` after the oldest. */
    lemma LogicalFrame(logical: nat)
      requires Streaming() && WindowReady() && logical < Slots()
      ensures RingSlot(logical) == Slot(realPushes - Slots() + logical, Slots())
      ensures slotFrames[RingSlot(logical)] == realPushes - Slots() + logical
      ensures input[RingSlot(logical)] == frames[realPushes - Slots() + logical]
    {
      RingSlotIsSlot(logical);
      SlotRepeats(realPushes - Slots() + logical, Slots());
    }

    lemma PaddedFrame(logical: nat)
      requires Padded() && logical < Slots()
      ensures RingSlot(logical) == logical
      ensures slotFrames[RingSlot(logical)] == Min(logical, realPushes - 1)
      ensures input[RingSlot(logical)] == frames[Min(logical, realPushes - 1)]
    {
      RingSlotIsSlot(logical);
      SlotRepeats(logical, Slots());
      SlotOfSmall(logical, Slots());
    }

    /** The length of the stream so far, held frames included. */
    function StreamFrames(): nat
      reads this
    {
      realPushes + HeldFrames()
    }

    function HeldFrames(): nat
      reads this
    {
      if depth == 0 || pushed < released then 0 else pushed - released
    }

    // Taking frames in.

    /** Adds `image` to the stream and the ring at once, which needs no look-ahead. */
    method TakeIntoRing(image: Image, healthy: bool) returns (r: Result<()>)
      requires Streaming() && depth == 0
      modifies this`slotFrames, this`input, this`ringHead, this`framesLoaded, this`realPushes,
               this`frames
      ensures healthy ==> r.Ok?
      ensures Shaped()
      ensures r.Ok? ==> Streaming() && frames == old(frames) + [image]
                        && realPushes == old(realPushes) + 1
    {
      var slot := ringHead % Slots();
      input := input[slot := image];
      frames := frames + [image];
      forall f: nat | realPushes - Slots() < f < realPushes
        ensures slotFrames[Slot(f, Slots())] == f && input[Slot(f, Slots())] == frames[f]
      {
        SlotsDiffer(f, realPushes, Slots());
      }
      r := RunPostUploadStages(slot, healthy);
    }

    /** Names the frame just written to `slot`, runs its stages and advances the ring. */
    method RunPostUploadStages(slot: nat, healthy: bool) returns (r: Result<()>)
      requires Shaped() && ringHead == realPushes < |frames|
      requires framesLoaded == Min(realPushes, Slots())
      requires slot == Slot(realPushes, Slots()) && input[slot] == frames[realPushes]
      requires forall f: nat | realPushes - Slots() < f < realPushes ::
                 slotFrames[Slot(f, Slots())] == f && input[Slot(f, Slots())] == frames[f]
      modifies this`slotFrames, this`ringHead, this`framesLoaded, this`realPushes
      ensures healthy ==> r.Ok?
      ensures Shaped()
      ensures r.Ok? ==> realPushes == old(realPushes) + 1 && ringHead == realPushes
                        && framesLoaded == Min(realPushes, Slots()) && RingHoldsFrames()
    {
      slotFrames := slotFrames[slot := realPushes];
      var works := *;
      if !healthy && !works {
        return Err(Gpu);
      }

      ghost var newest := realPushes;
      ringHead := ringHead + 1;
      if framesLoaded < Slots() {
        framesLoaded := framesLoaded + 1;
      }
      realPushes := realPushes + 1;

      forall f: nat | realPushes - Slots() <= f < realPushes
        ensures slotFrames[Slot(f, Slots())] == f && input[Slot(f, Slots())] == frames[f]
      {
        if f < newest { SlotsDiffer(f, newest, Slots()); }
      }
      r := Ok(());
    }

    /** Brings the ring one frame forward if the stream is ahead of it. */
    method ReleaseHeldFrame(healthy: bool) returns (r: Result<bool>)
      requires Streaming()
      modifies this`slotFrames, this`input, this`ringHead, this`framesLoaded, this`realPushes,
               this`released
      ensures healthy ==> r.Ok?
      ensures Shaped()
      ensures r.Ok? ==> Streaming() && r.value == (old(realPushes) < |frames|)
      ensures r.Ok? ==> realPushes == old(realPushes) + if r.value then 1 else 0
    {
      if depth == 0 || pushed == released {
        return Ok(false);
      }

      var source := released % depth;
      var slot := ringHead % Slots();
      input := input[slot := held[source]];
      released := released + 1;
      forall f: nat | realPushes - Slots() < f < realPushes
        ensures slotFrames[Slot(f, Slots())] == f && input[Slot(f, Slots())] == frames[f]
      {
        SlotsDiffer(f, realPushes, Slots());
      }
      var advanced := RunPostUploadStages(slot, healthy);
      if advanced.Err? {
        return Err(Gpu);
      }
      r := Ok(true);
    }

    /** Records the motion that the noise of `frame` is read along: a writer's own, which it shares, or
    the one found in the ring. */
    method SearchLookahead(frame: nat, healthy: bool) returns (r: Result<()>)
      requires RingFits() && depth > 0
      modifies log`pairs, Shared()`lookaheadTag, Shared()`lookahead
      ensures RingFits()
      ensures healthy && old(FindsPair(frame)) ==> r.Ok?
      ensures r.Ok? ==> old(FindsPair(frame)) && log.pairs == old(PairedWith(log.pairs, frame))
      ensures r.Ok? ==> PairShared(frame)
      ensures r.Ok? && frame > 0 && !role.Reader? ==> log.pairs == Logged(old(log.pairs), Motion(run, frame))
      ensures r.Ok? && frame > 0 && role.Reader? ==>
                && old(role.ring.lookaheadTag) == Some(frame)
                && log.pairs == Logged(old(log.pairs), old(role.ring.lookahead))
      ensures r.Ok? && frame > 0 && role.Writer? ==>
                role.ring.lookaheadTag == Some(frame) && role.ring.lookahead == Motion(run, frame)
    {
      var works := *;
      if !healthy && !works {
        return Err(Gpu);
      }
      if frame == 0 {
        return Ok(());
      }

      match role {
        case Reader(ring) =>
          var mapped := ring.ReadLookahead(frame);
          if mapped.None? {
            return Err(Gpu);
          }
          log.pairs := Logged(log.pairs, mapped.value);
        case Writer(ring) =>
          ring.ShareLookahead(frame, Motion(run, frame));
          log.pairs := Logged(log.pairs, Motion(run, frame));
        case NoRing =>
          log.pairs := Logged(log.pairs, Motion(run, frame));
      }
      r := Ok(());
    }

    /** Adds `image` to the stream by way of the look-ahead, which hands the ring a frame if it has no
    room. */
    method PushIntoLookahead(image: Image, healthy: bool) returns (r: Result<()>)
      requires Streaming() && RingFits() && depth > 0
      modifies this`slotFrames, this`input, this`ringHead, this`framesLoaded, this`realPushes,
               this`released, this`held, this`pushed, this`frames, log`pairs, Shared()`lookaheadTag, Shared()`lookahead
      ensures Shaped() && RingFits()
      ensures healthy && old(FindsPair(|frames|)) ==> r.Ok?
      ensures r.Ok? ==> Streaming() && frames == old(frames) + [image]
      ensures r.Ok? ==> realPushes == old(realPushes)
                                    + if old(|frames| - realPushes) == depth then 1 else 0
      ensures r.Ok? ==> old(FindsPair(|frames|))
                        && log.pairs == old(PairedWith(log.pairs, |frames|))
      ensures r.Ok? ==> PairShared(old(|frames|))
      ensures r.Ok? && old(|frames|) > 0 && !role.Reader? ==>
                log.pairs == Logged(old(log.pairs), Motion(run, old(|frames|)))
      ensures r.Ok? && old(|frames|) > 0 && role.Reader? ==>
                && old(role.ring.lookaheadTag) == Some(old(|frames|))
                && log.pairs == Logged(old(log.pairs), old(role.ring.lookahead))
      ensures r.Ok? && old(|frames|) > 0 && role.Writer? ==>
                role.ring.lookaheadTag == Some(old(|frames|)) && role.ring.lookahead == Motion(run, old(|frames|))
    {
      hide RingHoldsFrames;
      if pushed - released == depth {
        var freed := ReleaseHeldFrame(healthy);
        if freed.Err? {
          return Err(Gpu);
        }
      }

      var frame := pushed;
      Hold(frame, image);
      var searched := SearchLookahead(frame, healthy);
      if searched.Err? {
        return Err(Gpu);
      }

      NoteHeld(image);
      r := Ok(());
    }

    /** Writes `image` into the look-ahead slot of the next frame, which no held frame is in. */
    method Hold(frame: nat, image: Image)
      requires Streaming() && frame == |frames| < realPushes + depth
      modifies this`held
      ensures Streaming() && held[Slot(frame, depth)] == image
    {
      held := held[frame % depth := image];
      forall f: nat | realPushes <= f < frame
        ensures Slot(f, depth) != Slot(frame, depth)
      {
        SlotsDiffer(f, frame, depth);
      }
    }

    /** Counts the frame just written into the look-ahead. */
    method NoteHeld(image: Image)
      requires Streaming() && |frames| < realPushes + depth && held[Slot(|frames|, depth)] == image
      modifies this`pushed, this`frames
      ensures Streaming() && frames == old(frames) + [image]
    {
      pushed := pushed + 1;
      frames := frames + [image];
    }

    /** Adds `image` to the stream, through the look-ahead if there is one. */
    method PushPlanes(image: Image, healthy: bool) returns (r: Result<()>)
      requires Streaming() && RingFits()
      modifies this`slotFrames, this`input, this`ringHead, this`framesLoaded, this`realPushes,
               this`released, this`held, this`pushed, this`frames, log`pairs, Shared()`lookaheadTag, Shared()`lookahead
      ensures Shaped() && RingFits()
      ensures healthy && old(FindsPair(|frames|)) ==> r.Ok?
      ensures r.Ok? ==> Streaming() && frames == old(frames) + [image]
      ensures r.Ok? ==> realPushes == old(realPushes)
                                    + if old(|frames| - realPushes) == depth then 1 else 0
      ensures r.Ok? ==> old(FindsPair(|frames|))
                        && log.pairs == old(PairedWith(log.pairs, |frames|))
      ensures r.Ok? ==> PairShared(old(|frames|))
      ensures r.Ok? && depth > 0 && old(|frames|) > 0 && !role.Reader? ==>
                log.pairs == Logged(old(log.pairs), Motion(run, old(|frames|)))
      ensures r.Ok? && depth > 0 && old(|frames|) > 0 && role.Reader? ==>
                && old(role.ring.lookaheadTag) == Some(old(|frames|))
                && log.pairs == Logged(old(log.pairs), old(role.ring.lookahead))
      ensures r.Ok? && depth > 0 && old(|frames|) > 0 && role.Writer? ==>
                role.ring.lookaheadTag == Some(old(|frames|)) && role.ring.lookahead == Motion(run, old(|frames|))
    {
      if depth > 0 {
        r := PushIntoLookahead(image, healthy);
      } else {
        r := TakeIntoRing(image, healthy);
      }
    }

    /** Repeats the newest slot, number included, in the slot after it. */
    method DuplicateLastFrame(healthy: bool) returns (r: Result<()>)
      requires Shaped() && ringHead > 0
      modifies this`slotFrames, this`input, this`ringHead
      ensures healthy ==> r.Ok?
      ensures Shaped()
      ensures r.Ok? ==>
                var last := Slot(old(ringHead) - 1, Slots());
                var next := Slot(old(ringHead), Slots());
                && ringHead == old(ringHead) + 1
                && slotFrames == old(slotFrames)[next := old(slotFrames)[last]]
                && input == old(input)[next := old(input)[last]]
    {
      var lastSlot := (ringHead - 1) % Slots();
      var nextSlot := ringHead % Slots();
      input := input[nextSlot := input[lastSlot]];
      var works := *;
      if !healthy && !works {
        return Err(Gpu);
      }
      slotFrames := slotFrames[nextSlot := slotFrames[lastSlot]];
      ringHead := ringHead + 1;
      r := Ok(());
    }

    /** Turns a stream that does not fill its ring into a padded one. */
    method FillRingWithLastFrame(healthy: bool) returns (r: Result<()>)
      requires Streaming() && 0 < realPushes == |frames| < Slots()
      modifies this`slotFrames, this`input, this`ringHead, this`framesLoaded
      ensures healthy ==> r.Ok?
      ensures Shaped()
      ensures r.Ok? ==> Padded()
    {
      forall s: nat | s < realPushes
        ensures slotFrames[s] == s && input[s] == frames[s]
      {
        SlotOfSmall(s, Slots());
      }
      while !WindowReady()
        invariant Shaped() && realPushes <= ringHead == framesLoaded <= Slots()
        invariant forall s: nat | s < ringHead ::
                    slotFrames[s] == Min(s, realPushes - 1)
                    && input[s] == frames[Min(s, realPushes - 1)]
        decreases Slots() - framesLoaded
      {
        SlotOfSmall(ringHead - 1, Slots());
        SlotOfSmall(ringHead, Slots());
        var copied := DuplicateLastFrame(healthy);
        if copied.Err? {
          return Err(Gpu);
        }
        framesLoaded := framesLoaded + 1;
      }
      r := Ok(());
    }

    /** Runs the motion search of a pass centred on logical ring position `centre`, or reads it from
    the luma pass. `None` while the ring is still filling. */
    method SubmitMachinery(centre: nat, healthy: bool, ghost call: CallStart)
      returns (r: Result<Option<RingView>>)
      requires Shaped() && RingFits() && centre < Slots()
      requires var frame := slotFrames[RingSlot(centre)];
               Ran(call, frame) && frame < call.first + Slots()
      modifies log`passes, Shared()`tags, Shared()`fields
      ensures RingFits()
      ensures !WindowReady() ==> r == Ok(None)
      ensures var frame := slotFrames[RingSlot(centre)];
              WindowReady() ==>
                && (healthy && Finds(call.source, frame, frame + 1) ==> r.Ok?)
                && (r.Ok? ==>
                      && r.value == Some(RingView(RingSlot(centre), WindowSlots()))
                      && Ran(call, frame + 1))
      ensures var frame := slotFrames[RingSlot(centre)];
              r.Ok? && WindowReady() ==>
                && (role.Reader? ==>
                      && role.ring.tags[Slot(frame, Slots())] == Some(frame)
                      && log.passes == Logged(old(log.passes), role.ring.fields[Slot(frame, Slots())]))
                && (!role.Reader? ==> log.passes == Logged(old(log.passes), Motion(run, frame)))
                && (role.Writer? ==>
                      && role.ring.tags[Slot(frame, Slots())] == Some(frame)
                      && role.ring.fields[Slot(frame, Slots())] == Motion(run, frame))
    {
      if !WindowReady() {
        return Ok(None);
      }

      var works := *;
      if !healthy && !works {
        return Err(Gpu);
      }

      var centreSlot := RingSlot(centre);
      var frame := slotFrames[centreSlot];
      match role {
        case Reader(ring) =>
          var mapped := ring.ReadWindow(frame);
          if mapped.None? {
            return Err(Gpu);
          }
          log.passes := Logged(log.passes, mapped.value);
        case Writer(ring) =>
          SharesOneMore(ring.tags, ring.fields, run, call.first, frame);
          ring.ShareWindow(frame, Motion(run, frame));
          log.passes := Logged(log.passes, Motion(run, frame));
        case NoRing =>
          log.passes := Logged(log.passes, Motion(run, frame));
      }
      r := Ok(Some(RingView(centreSlot, WindowSlots())));
    }

    /** Starts a fresh stream, the `number`th of this front, leaving every buffer as it is. */
    method ResetStreamState(number: nat)
      requires Shaped()
      modifies this`ringHead, this`framesLoaded, this`realPushes, this`pushed, this`released,
               this`run, this`frames
      ensures Streaming() && frames == [] && run == number
    {
      ringHead, framesLoaded, realPushes := 0, 0, 0;
      pushed, released := 0, 0;
      run := number;
      frames := [];
    }
  }
}
