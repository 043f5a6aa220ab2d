/** The NL4D denoiser: passes that scatter into every region of an accumulator ring, and regions
read out once no later pass can reach their frame. */
module Denoiser {
  import opened Schedule
  import opened Protocol
  import opened Rings
  import opened LumaMotion
  import opened Wrappers
  import opened Front

  /** What one pass left in one accumulator region: the stream it ran in, its centre, the images it
  read from the ring, oldest first, and the frame the region stood for when it ran. */
  datatype Contribution = Contribution(run: nat, centre: nat, window: seq<Image>, target: nat)

  /** A stream as its passes see it: its number and the frames it has been given. */
  datatype Reel = Reel(run: nat, frames: seq<Image>)
  {
    /** The stream with another frame. */
    function Fed(image: Image): Reel { this.(frames := frames + [image]) }

    /** The stream after an emit or an end: the next one, if that was its last. */
    function After(ends: bool): Reel { if ends then Reel(run + 1, []) else this }
  }

  /** What the pass centred on `centre` is to leave in the region of `target`: it reads the ring as
  the schedule says the ring stands when that pass runs. */
  ghost function PassLeaves(g: Shape, reel: Reel, centre: nat, target: nat): Contribution {
    Contribution(reel.run, centre, WindowOf(g, reel.frames, centre), target)
  }

  /** The images the pass centred on `centre` is to read. */
  ghost function WindowOf(g: Shape, frames: seq<Image>, centre: nat): seq<Image> {
    Window(g, frames, PassTaken(g, |frames|, centre))
  }

  /** The contributions of the passes centred on `first` up to `end` to `target`. */
  ghost function Contributions(g: Shape, reel: Reel, first: nat, end: nat, target: nat):
    (r: seq<Contribution>)
    ensures first <= end ==> |r| == end - first
    decreases end
  {
    if end <= first then []
    else Contributions(g, reel, first, end - 1, target) + [PassLeaves(g, reel, end - 1, target)]
  }

  /** Another frame changes nothing that passes whose look-ahead is complete contribute. */
  lemma {:induction false} ContributionsStay(g: Shape, reel: Reel, image: Image, first: nat, end: nat,
                                             target: nat)
    requires RingSlots(g) <= |reel.frames| && end + g.radius <= |reel.frames|
    ensures Contributions(g, reel, first, end, target)
         == Contributions(g, reel.Fed(image), first, end, target)
    decreases end
  {
    if first < end {
      ContributionsStay(g, reel, image, first, end - 1, target);
      WindowIsStable(g, reel.frames, reel.frames + [image], end - 1);
    }
  }

  /** The regions a pass promises to find empty. */
  datatype AccumClear = WholeRing | NewestRegion | Nothing

  /** Whether `clear` promises an empty region `slot` when `newest` is the newest frame's. */
  predicate Clears(clear: AccumClear, slot: nat, newest: nat) {
    clear.WholeRing? || (clear.NewestRegion? && slot == newest)
  }

  /** The slot of a region that is complete, and the slot of its successor in the stream. */
  datatype CompletedRegion = CompletedRegion(slot: nat, next: Option<nat>)

  /** The region of `frame`, with a frame after it unless it is the stream's last. */
  function RegionOf(g: Shape, frame: nat, last: bool): CompletedRegion {
    CompletedRegion(Slot(frame, RingSlots(g)),
                    if last then None else Some(Slot(frame + 1, RingSlots(g))))
  }

  /** Frames `first` up to `end` have collected every pass up to centre `upTo` that reaches them,
  each once and in order, and nothing else. */
  ghost predicate Collects(g: Shape, reel: Reel, accum: seq<seq<Contribution>>, context: nat,
                           first: int, end: nat, upTo: nat)
    requires |accum| == RingSlots(g)
  {
    && (0 < end && first < end ==> ReachedFrom(g, context, end - 1) <= upTo)
    && forall f: nat {:trigger Slot(f, RingSlots(g))} | first <= f < end ::
         accum[Slot(f, RingSlots(g))] == Contributions(g, reel, ReachedFrom(g, context, f), upTo, f)
  }

  /** What frames have collected stays what they owe as the stream takes another one. */
  lemma CollectsStays(g: Shape, reel: Reel, image: Image, accum: seq<seq<Contribution>>, context: nat,
                      first: int, end: nat, upTo: nat)
    requires |accum| == RingSlots(g) <= |reel.frames| && upTo + g.radius <= |reel.frames|
    requires Collects(g, reel, accum, context, first, end, upTo)
    ensures Collects(g, reel.Fed(image), accum, context, first, end, upTo)
  {
    forall f: nat | first <= f < end
      ensures Contributions(g, reel, ReachedFrom(g, context, f), upTo, f)
           == Contributions(g, reel.Fed(image), ReachedFrom(g, context, f), upTo, f)
    {
      ContributionsStay(g, reel, image, ReachedFrom(g, context, f), upTo, f);
    }
  }

  lemma CollectsFromLater(g: Shape, reel: Reel, accum: seq<seq<Contribution>>, context: nat,
                          first: int, later: int, end: nat, upTo: nat)
    requires |accum| == RingSlots(g) && first <= later
    requires Collects(g, reel, accum, context, first, end, upTo)
    ensures Collects(g, reel, accum, context, later, end, upTo)
  {
  }

  /** Once passes have run, the regions of the ring's frames hold what a ring of `taken` frames owes
  them, the oldest frame's included only with `oldest`. A pass that only guides owes them nothing. */
  ghost predicate HeldIn(g: Shape, guidesOnly: bool, reel: Reel, accum: seq<seq<Contribution>>,
                         context: nat, taken: nat, oldest: bool)
    requires |accum| == RingSlots(g)
  {
    !guidesOnly && taken >= FirstPass(g, context) ==>
      Collects(g, reel, accum, context, taken - RingSlots(g) + (if oldest then 0 else 1), taken,
               taken - g.radius)
  }

  /** What the regions held before the stream took another frame is what they owe after. */
  lemma HeldStays(g: Shape, guidesOnly: bool, reel: Reel, image: Image, accum: seq<seq<Contribution>>,
                  context: nat, taken: nat)
    requires |accum| == RingSlots(g) && taken <= |reel.frames|
    requires HeldIn(g, guidesOnly, reel, accum, context, taken, false)
    ensures HeldIn(g, guidesOnly, reel.Fed(image), accum, context, taken, false)
  {
    if !guidesOnly && taken >= FirstPass(g, context) {
      CollectsStays(g, reel, image, accum, context, taken - RingSlots(g) + 1, taken, taken - g.radius);
    }
  }

  /** The region of a full ring's oldest frame holds what the stream owes that frame, and emptying it
  leaves the others as they are. */
  lemma OldestIsRead(g: Shape, reel: Reel, accum: seq<seq<Contribution>>, context: nat, taken: nat, pushes: nat)
    requires |accum| == RingSlots(g) && FirstPass(g, context) <= taken <= pushes
    requires HeldIn(g, false, reel, accum, context, taken, true)
    ensures var frame := taken - RingSlots(g);
            var output := Expected(g, context, pushes, frame);
            && accum[Slot(frame, RingSlots(g))] == Contributions(g, reel, output.first, output.end, frame)
            && HeldIn(g, false, reel, accum[Slot(frame, RingSlots(g)) := []], context, taken, false)
  {
    var frame := taken - RingSlots(g);
    forall f: nat | frame < f < taken
      ensures Slot(f, RingSlots(g)) != Slot(frame, RingSlots(g))
    {
      SlotsDiffer(frame, f, RingSlots(g));
    }
  }

  /** What a pass centred on `centre` makes of the accumulator ring when it clears all it promises. */
  ghost predicate Passed(accum: seq<seq<Contribution>>, after: seq<seq<Contribution>>, run: nat,
                         centre: nat, window: seq<Image>, targets: seq<nat>, clear: AccumClear,
                         newest: nat)
    requires |accum| == |after| == |targets|
  {
    forall s | 0 <= s < |accum| ::
      after[s] == (if Clears(clear, s, newest) then [] else accum[s])
                  + [Contribution(run, centre, window, targets[s])]
  }

  /** Whether a pass centred on `centre` may use `clear` without losing or keeping what it should
  not: the whole ring for the first pass that reaches every frame, the newest region for the pass
  that reaches the newest frame first, and nothing otherwise. */
  ghost predicate ClearFits(g: Shape, reel: Reel, accum: seq<seq<Contribution>>, context: nat,
                            lo: nat, taken: nat, centre: nat, clear: AccumClear)
    requires |accum| == RingSlots(g) && taken > 0
  {
    match clear
    case WholeRing => forall f: nat | lo <= f < taken :: ReachedFrom(g, context, f) == centre
    case NewestRegion => ReachedFrom(g, context, taken - 1) == centre
                         && Collects(g, reel, accum, context, lo, taken - 1, centre)
    case Nothing => Collects(g, reel, accum, context, lo, taken, centre)
  }

  /** Whether a ring's slots name the frames from `lo` up to `taken`. */
  ghost predicate Names(targets: seq<nat>, lo: nat, taken: nat) {
    forall f: nat | lo <= f < taken && |targets| > 0 :: targets[Slot(f, |targets|)] == f
  }

  /** One pass carries what every frame has collected one centre further. */
  lemma PassCollects(g: Shape, reel: Reel, accum: seq<seq<Contribution>>,
                     after: seq<seq<Contribution>>, targets: seq<nat>, context: nat,
                     lo: nat, taken: nat, centre: nat, clear: AccumClear, newest: nat)
    requires |accum| == |after| == |targets| == RingSlots(g)
    requires taken >= RingSlots(g) && taken - RingSlots(g) <= lo
    requires clear.NewestRegion? ==> newest == Slot(taken - 1, RingSlots(g))
    requires Names(targets, lo, taken)
    requires ClearFits(g, reel, accum, context, lo, taken, centre, clear)
    requires Passed(accum, after, reel.run, centre, WindowOf(g, reel.frames, centre), targets, clear, newest)
    ensures Collects(g, reel, after, context, lo, taken, centre + 1)
  {
    forall f: nat | lo <= f < taken
      ensures after[Slot(f, RingSlots(g))]
              == Contributions(g, reel, ReachedFrom(g, context, f), centre + 1, f)
    {
      if f < taken - 1 { SlotsDiffer(f, taken - 1, RingSlots(g)); }
    }
  }

  /** Each frame of a stream that does not fill its ring holds the contributions of the centres before
  `upTo`, once each, and no others. */
  ghost predicate ShortCollects(g: Shape, reel: Reel, accum: seq<seq<Contribution>>, upTo: nat) {
    forall f: nat | f < |reel.frames| && f < |accum| ::
      accum[f] == Contributions(g, reel, 0, upTo, f)
  }

  /** One pass over a padded ring carries what every real frame has collected one centre further. */
  lemma ShortPassCollects(g: Shape, reel: Reel, accum: seq<seq<Contribution>>,
                          after: seq<seq<Contribution>>, targets: seq<nat>, centre: nat,
                          clear: AccumClear, newest: nat)
    requires |accum| == |after| == |targets| == RingSlots(g) > |reel.frames|
    requires forall f: nat | f < |reel.frames| :: targets[f] == f
    requires if clear.WholeRing? then centre == 0
             else clear.Nothing? && ShortCollects(g, reel, accum, centre)
    requires Passed(accum, after, reel.run, centre, WindowOf(g, reel.frames, centre), targets, clear, newest)
    ensures ShortCollects(g, reel, after, centre + 1)
  {
  }

  /** The passes owed in a stream with `context` context frames by the time its ring has taken
  `taken`: centres `first` up to `end`. */
  datatype Due = Due(context: nat, taken: nat, first: nat, end: nat)

  ghost predicate DueFits(g: Shape, due: Due) {
    && due.taken > Taken(g, due.context)
    && due.first == PassEnd(g, due.context, due.taken - 1)
    && due.end == PassEnd(g, due.context, due.taken)
    && due.first <= due.end
  }

  /** The region the passes of the ring's `taken`th frame complete, if any. */
  function RegionReady(g: Shape, context: nat, taken: nat): Option<CompletedRegion> {
    if taken < FirstReady(g, context) then None
    else Some(RegionOf(g, taken - RingSlots(g), false))
  }

  /** A region is ready exactly when the stream has run more than `radius` passes by then. */
  lemma ReadyAfterRadiusPasses(g: Shape, context: nat, taken: nat)
    requires Taken(g, context) < taken
    ensures RegionReady(g, context, taken).Some? <==>
              PassEnd(g, context, taken) - PassStart(g, context) > g.radius
  {
  }

  /** The ring counts after `released`, up to `taken`, by which the stream has run more than `radius`
  passes: one region each. */
  function SubmitsReady(g: Shape, context: nat, released: nat, taken: nat): nat {
    if taken <= released then 0
    else SubmitsReady(g, context, released, taken - 1)
         + if PassEnd(g, context, taken) - PassStart(g, context) > g.radius then 1 else 0
  }

  /** The schedule's count of completed regions is that of the submits that ran late enough. */
  lemma {:induction false} CompletedAreReady(g: Shape, context: nat, released: nat, taken: nat)
    requires Taken(g, context) <= released <= taken
    ensures SubmitsReady(g, context, released, taken)
         == CompletedBy(g, context, taken) - CompletedBy(g, context, released)
    decreases taken
  {
    if released < taken {
      CompletedAreReady(g, context, released, taken - 1);
      ReadyAfterRadiusPasses(g, context, taken);
    }
  }

  /** The passes a push owes a stream that has taken `pushes` frames. */
  function PushDue(g: Shape, context: nat, pushes: nat): Due {
    Due(context, Taken(g, pushes + 1), PassEnd(g, context, Taken(g, pushes)),
        PassEnd(g, context, Taken(g, pushes + 1)))
  }

  /** The ring count the next drained region waits for. */
  function NextReady(g: Shape, context: nat, taken: nat): nat {
    Max(taken + 1, FirstReady(g, context))
  }

  /** The ring count at which draining a stream of `pushes` frames stops. */
  function DrainStop(g: Shape, context: nat, taken: nat, pushes: nat): nat {
    Min(NextReady(g, context, taken), pushes)
  }

  /** What one step of draining the look-ahead did. */
  datatype Drained = Exhausted | Stepped(region: Option<CompletedRegion>)

  /** Where a drain that began at `start` and has come to `taken` stands: done when nothing is held,
  done after one more frame when that frame readies a region, and short of its stop otherwise. */
  lemma DrainStands(g: Shape, context: nat, start: nat, taken: nat, pushes: nat)
    requires g.radius >= 1 && Taken(g, context) <= start <= taken <= pushes
    requires taken == start || taken < FirstReady(g, context)
    ensures DueFits(g, Due(context, taken + 1, PassEnd(g, context, taken),
                           PassEnd(g, context, taken + 1)))
    ensures PassEnd(g, context, start) <= PassEnd(g, context, taken)
    ensures PassEnd(g, context, taken + 1) <= PassEnd(g, context, start) + RingSlots(g)
    ensures var stop := DrainStop(g, context, start, pushes);
            && (taken == pushes ==> stop == taken < NextReady(g, context, start))
            && (taken < pushes && FirstReady(g, context) <= taken + 1 ==>
                  stop == taken + 1 == NextReady(g, context, start))
            && (taken < pushes ==> taken + 1 <= stop)
  {
  }

  /** The regions a stream of `pushes` frames reads out after its tail passes, in emit order. */
  ghost function TailRegions(g: Shape, pushes: nat): (r: seq<CompletedRegion>)
    ensures |r| == Min(pushes, 2 * g.radius)
  {
    LastRegions(g, pushes, Min(pushes, 2 * g.radius))
  }

  /** The regions of the last `count` of a stream's `pushes` frames, in frame order. */
  ghost function LastRegions(g: Shape, pushes: nat, count: nat): (r: seq<CompletedRegion>)
    requires count <= pushes
    ensures |r| == count
    ensures forall i | 0 <= i < count :: r[i] == RegionOf(g, pushes - count + i, i == count - 1)
  {
    if count == 0 then []
    else [RegionOf(g, pushes - count, count == 1)] + LastRegions(g, pushes, count - 1)
  }

  /** After the first of them, the last regions are one fewer. */
  lemma LastRegionsRest(g: Shape, pushes: nat, count: nat)
    requires 0 < count <= pushes
    ensures LastRegions(g, pushes, count)[1..] == LastRegions(g, pushes, count - 1)
  {
  }

  lemma AreLastRegions(g: Shape, pushes: nat, regions: seq<CompletedRegion>)
    requires |regions| <= pushes
    requires forall i | 0 <= i < |regions| ::
               regions[i] == RegionOf(g, pushes - |regions| + i, i == |regions| - 1)
    ensures regions == LastRegions(g, pushes, |regions|)
  {
  }

  class Nl4dDenoiser {
    const front: NlmFront
    /** Whether the passes only share their motion and scatter nothing. */
    const guidesOnly: bool
    /** A count of this stream's passes. */
    var passesRun: nat
    /** Whether the stream opens a scene rather than picking up mid-clip. */
    var sceneStart: bool
    /** Per region, whether it was emptied by a read-out and no pass has run since. */
    var zeroedRegions: seq<bool>
    /** Per ring slot, what its region has collected since it was last emptied. */
    var accum: seq<seq<Contribution>>

    constructor (radius: nat, depth: nat, role: RingRole, guidesOnly: bool, memory: Image,
                 uninitialised: seq<seq<Contribution>>)
      requires radius >= 1 && |uninitialised| == 2 * radius + 1
      ensures Idle() && front.frames == [] && fresh(front) && fresh(front.log)
      ensures G() == Shape(radius, depth) && front.role == role
      ensures this.guidesOnly == guidesOnly
      ensures front.log.passes == Blank && front.log.pairs == Blank && front.run == 0
    {
      front := new NlmFront(radius, depth, role, memory);
      this.guidesOnly := guidesOnly;
      passesRun, sceneStart := 0, true;
      zeroedRegions := seq(2 * radius + 1, _ => false);
      accum := uninitialised;
    }

    function G(): Shape { Shape(front.radius, front.depth) }

    ghost predicate Shaped()
      reads this`zeroedRegions, this`accum, front
    {
      front.radius >= 1 && front.Shaped() && Sized()
    }

    ghost predicate Sized()
      reads this`zeroedRegions, this`accum
    {
      |zeroedRegions| == |accum| == RingSlots(G())
    }

    /** A region marked zeroed holds nothing. */
    ghost predicate ZeroedIsEmpty()
      requires Sized()
      reads this`zeroedRegions, this`accum
    {
      !guidesOnly ==> forall s | 0 <= s < |accum| :: zeroedRegions[s] ==> accum[s] == []
    }

    /** A stream that has taken no frame, over accumulators that may hold anything. */
    ghost predicate Idle()
      reads this, front
    {
      && Shaped() && front.Streaming() && front.frames == []
      && passesRun == 0 && sceneStart && ZeroedIsEmpty()
    }

    /** The passes run are those owed once the ring had taken `taken` frames. */
    ghost predicate PassesCounted(context: nat, taken: nat)
      reads this`passesRun
    {
      passesRun ==
        if taken < FirstPass(G(), context) then 0
        else taken - FirstPass(G(), context) + 1 + (if context == 0 then front.radius else 0)
    }

    /** The current stream. */
    ghost function Stream(): Reel
      reads front`run, front`frames
    {
      Reel(front.run, front.frames)
    }

    ghost predicate Collected(context: nat, first: int, end: nat, upTo: nat)
      requires Sized()
      reads this`zeroedRegions, this`accum, front`run, front`frames
    {
      !guidesOnly ==> Collects(G(), Stream(), accum, context, first, end, upTo)
    }

    /** Every pass owed once the ring had taken `taken` frames has run. */
    ghost predicate CaughtUp(context: nat, taken: nat)
      requires Sized()
      reads this
    {
      && PassesCounted(context, taken)
      && (sceneStart <==> context == 0)
      && Taken(G(), context) <= taken
      && ZeroedIsEmpty()
    }

    /** Once passes have run, the regions of the ring's frames hold what a ring of `taken` frames
    owes them, the oldest frame's included only with `oldest`. */
    ghost predicate RegionsHeld(context: nat, taken: nat, oldest: bool)
      requires Sized()
      reads this`zeroedRegions, this`accum, front`run, front`frames
    {
      HeldIn(G(), guidesOnly, Stream(), accum, context, taken, oldest)
    }

    /** Before its first pass a stream owes its regions nothing. */
    lemma NothingHeld(context: nat, taken: nat)
      requires Sized() && taken < front.Slots()
      ensures RegionsHeld(context, taken, true)
    {
    }

    lemma OldestSpared(context: nat, taken: nat)
      requires Sized() && RegionsHeld(context, taken, true)
      ensures RegionsHeld(context, taken, false)
    {
      if !guidesOnly && taken >= FirstPass(G(), context) {
        var lo := taken - front.Slots();
        CollectsFromLater(G(), Stream(), accum, context, lo, lo + 1, taken, taken - front.radius);
      }
    }

    /** Runs one pass centred on `view`, zeroing the regions `clear` names first.

    The contract is that of a pass that always clears: skipping a region already marked zeroed is
    not visible from outside. */
    method RunPass(view: RingView, clear: AccumClear, healthy: bool) returns (r: Result<()>)
      requires Shaped() && ZeroedIsEmpty() && view.centreSlot < front.Slots()
      requires forall l | 0 <= l < |view.slots| :: view.slots[l] < front.Slots()
      modifies this`passesRun, this`zeroedRegions, this`accum
      ensures healthy ==> r.Ok?
      ensures Shaped()
      ensures r.Ok? ==> passesRun == old(passesRun) + 1 && ZeroedIsEmpty()
      ensures r.Ok? && !guidesOnly ==>
                Passed(old(accum), accum, front.run, front.slotFrames[view.centreSlot],
                       Seen(front.input, view.slots), front.slotFrames, clear,
                       Slot(view.centreSlot + front.radius, front.Slots()))
    {
      if guidesOnly {
        passesRun := passesRun + 1;
        return Ok(());
      }

      var slots := front.Slots();
      var first, end := 0, 0;
      match clear {
        case WholeRing =>
          end := slots;
        case NewestRegion =>
          var newestSlot := (view.centreSlot + front.radius) % slots;
          first := newestSlot;
          end := if zeroedRegions[newestSlot] then newestSlot else newestSlot + 1;
        case Nothing =>
      }

      zeroedRegions := seq(slots, _ => false);
      passesRun := passesRun + 1;
      ghost var before := accum;
      for slot := first to end
        invariant passesRun == old(passesRun) + 1
        invariant |accum| == |zeroedRegions| == slots
        invariant forall s | 0 <= s < slots :: !zeroedRegions[s]
        invariant forall s | 0 <= s < slots ::
                    accum[s] == if first <= s < slot then [] else before[s]
      {
        accum := accum[slot := []];
      }

      var works := *;
      if !healthy && !works {
        return Err(Gpu);
      }
      Scatter(front.slotFrames[view.centreSlot], Seen(front.input, view.slots));
      r := Ok(());
    }

    /** Adds one pass's contribution to every region of the ring. */
    method Scatter(centre: nat, window: seq<Image>)
      requires Shaped()
      modifies this`accum
      ensures |accum| == front.Slots()
      ensures forall s | 0 <= s < front.Slots() ::
                accum[s] == old(accum[s])
                            + [Contribution(front.run, centre, window, front.slotFrames[s])]
    {
      var run, targets, regions := front.run, front.slotFrames, accum;
      accum := seq(|regions|, s requires 0 <= s < |regions| && |regions| == |targets| =>
                     regions[s] + [Contribution(run, centre, window, targets[s])]);
    }

    /** Runs the front's machinery for a pass and then the pass itself. */
    method PassAt(centre: nat, clear: AccumClear, healthy: bool, ghost call: CallStart)
      returns (r: Result<nat>)
      requires Shaped() && ZeroedIsEmpty() && front.RingFits()
      requires front.WindowReady() && centre < front.Slots()
      requires var frame := front.slotFrames[front.RingSlot(centre)];
               front.Ran(call, frame) && frame < call.first + front.Slots()
      modifies this`passesRun, this`zeroedRegions, this`accum, front.log`passes,
               front.Shared()`tags, front.Shared()`fields
      ensures Shaped() && front.RingFits()
      ensures var frame := front.slotFrames[front.RingSlot(centre)];
              && (healthy && Finds(call.source, frame, frame + 1) ==> r.Ok?)
              && (r.Ok? ==>
                    && r.value == front.RingSlot(centre)
                    && passesRun == old(passesRun) + 1 && ZeroedIsEmpty()
                    && front.Ran(call, frame + 1))
      ensures r.Ok? && !guidesOnly ==>
                var slot := front.RingSlot(centre);
                Passed(old(accum), accum, front.run, front.slotFrames[slot], front.Images(),
                       front.slotFrames, clear, Slot(slot + front.radius, front.Slots()))
    {
      var view := front.SubmitMachinery(centre, healthy, call);
      if view.Err? {
        return Err(Gpu);
      }
      var ran := RunPass(view.value.value, clear, healthy);
      if ran.Err? {
        return Err(Gpu);
      }
      r := Ok(view.value.value.centreSlot);
    }

    lemma RingNames(lo: nat)
      requires Shaped() && front.Streaming() && front.WindowReady() && front.realPushes - front.Slots() <= lo
      ensures Names(front.slotFrames, lo, front.realPushes) && front.Slots() <= front.realPushes
    {
    }

    /** Runs one pass of a full ring and carries what its frames, from `lo` on, have collected one
    centre further. */
    method CollectingPass(centre: nat, clear: AccumClear, healthy: bool,
                          ghost context: nat, ghost c: nat, ghost lo: nat, ghost call: CallStart)
      returns (r: Result<nat>)
      requires Shaped() && front.Streaming() && front.RingFits() && ZeroedIsEmpty()
      requires front.WindowReady() && centre < front.Slots()
      requires front.realPushes - front.Slots() <= lo
      requires c == front.realPushes - front.Slots() + centre
      requires front.Ran(call, c) && c < call.first + front.Slots()
      requires PassTaken(G(), |front.frames|, c) == front.realPushes
      requires !guidesOnly ==>
                 ClearFits(G(), Stream(), accum, context, lo, front.realPushes, c, clear)
      requires clear.NewestRegion? ==> centre == front.radius
      modifies this`passesRun, this`zeroedRegions, this`accum, front.log`passes,
               front.Shared()`tags, front.Shared()`fields
      ensures Shaped() && front.RingFits()
      ensures healthy && Finds(call.source, c, c + 1) ==> r.Ok?
      ensures r.Ok? ==>
                && r.value == Slot(c, front.Slots())
                && passesRun == old(passesRun) + 1 && ZeroedIsEmpty()
                && Collected(context, lo, front.realPushes, c + 1)
                && front.Ran(call, c + 1)
    {
      hide ClearFits, Collects, Finds, Names, NlmFront.Ran, NlmFront.Streaming, Passed;
      RingNames(lo);
      front.LogicalFrame(centre);
      SlotAhead(c, front.radius, front.Slots());
      ghost var before := accum;
      r := PassAt(centre, clear, healthy, call);
      if r.Ok? && !guidesOnly {
        assert Collects(G(), Stream(), accum, context, lo, front.realPushes, c + 1) by {
          front.ImagesAreNewest();
          PassCollects(G(), Stream(), before, accum, front.slotFrames, context, lo,
                       front.realPushes, c, clear, Slot(c + front.radius, front.Slots()));
        }
      }
    }

    /** Runs the head passes of a scene, centred on its first `radius` frames. */
    method HeadPasses(healthy: bool, ghost call: CallStart) returns (r: Result<()>)
      requires Shaped() && front.Streaming() && front.RingFits() && ZeroedIsEmpty()
      requires front.realPushes == front.Slots() && passesRun == 0
      requires front.Ran(call, 0)
      modifies this`passesRun, this`zeroedRegions, this`accum, front.log`passes,
               front.Shared()`tags, front.Shared()`fields
      ensures Shaped() && front.RingFits()
      ensures healthy && Finds(call.source, 0, front.radius) ==> r.Ok?
      ensures r.Ok? ==>
                && passesRun == front.radius && ZeroedIsEmpty()
                && Collected(0, 0, front.realPushes, front.radius)
                && front.Ran(call, front.radius)
    {
      var clear := WholeRing;
      for centre := 0 to front.radius
        invariant Shaped() && ZeroedIsEmpty() && front.RingFits()
        invariant passesRun == centre && clear == if centre == 0 then WholeRing else Nothing
        invariant front.Ran(call, centre)
        invariant centre > 0 ==> Collected(0, 0, front.realPushes, centre)
      {
        var ran := CollectingPass(centre, clear, healthy, 0, centre, 0, call);
        if ran.Err? {
          return Err(Gpu);
        }
        clear := Nothing;
      }
      r := Ok(());
    }

    /** A frame has entered the ring since the passes last caught up. */
    ghost predicate OneBehind(due: Due)
      requires Shaped()
      reads this, front
    {
      && DueFits(G(), due) && due.taken == front.realPushes
      && front.Streaming()
      && CaughtUp(due.context, due.taken - 1)
      && RegionsHeld(due.context, due.taken - 1, false)
    }

    /** A submit is due: the ring is one frame ahead of the passes, or still filling. */
    ghost predicate Owing(due: Due)
      requires Shaped()
      reads this, front
    {
      && front.Streaming() && due.taken == front.realPushes
      && if front.WindowReady() then OneBehind(due)
         else due.first == due.end && CaughtUp(due.context, due.taken)
    }

    /** A real push leaves a submit due. */
    lemma PushLeavesOwing(context: nat, pushes: nat)
      requires Shaped() && front.Streaming() && context <= pushes
      requires front.realPushes == Taken(G(), pushes + 1)
      requires CaughtUp(context, Taken(G(), pushes))
      requires RegionsHeld(context, Taken(G(), pushes), false)
      ensures Owing(PushDue(G(), context, pushes))
    {
      hide Collects;
    }

    /** The passes of a push turn the ring of shared motion at most once. */
    lemma PushDueFits(context: nat, pushes: nat)
      requires Shaped() && context <= pushes
      ensures var due := PushDue(G(), context, pushes);
              due.first <= due.end <= due.first + front.Slots()
    {
    }

    /** Runs the passes of the frame that fills a scene's ring: its head passes and the middle one. */
    method OpeningPasses(healthy: bool, ghost call: CallStart) returns (r: Result<nat>)
      requires Shaped() && front.Streaming() && front.RingFits() && ZeroedIsEmpty()
      requires front.realPushes == front.Slots() && passesRun == 0
      requires front.Ran(call, 0)
      modifies this`passesRun, this`zeroedRegions, this`accum, front.log`passes,
               front.Shared()`tags, front.Shared()`fields
      ensures Shaped() && front.RingFits()
      ensures healthy && Finds(call.source, 0, front.radius + 1) ==> r.Ok?
      ensures r.Ok? ==>
                && r.value == Slot(front.radius, front.Slots())
                && passesRun == front.radius + 1 && ZeroedIsEmpty()
                && Collected(0, 0, front.realPushes, front.radius + 1)
                && front.Ran(call, front.radius + 1)
    {
      var headed := HeadPasses(healthy, call);
      if headed.Err? {
        return Err(Gpu);
      }
      r := CollectingPass(front.radius, Nothing, healthy, 0, front.radius, 0, call);
    }

    /** The clear a middle pass picks fits what the regions hold. */
    lemma MiddleClearFits(due: Due)
      requires Shaped() && OneBehind(due) && front.WindowReady() && !(passesRun == 0 && sceneStart)
      ensures due.first == due.taken - 1 - front.radius
      ensures !guidesOnly ==>
                ClearFits(G(), Stream(), accum, due.context, due.taken - front.Slots(), due.taken,
                          due.first, if passesRun == 0 then WholeRing else NewestRegion)
    {
    }

    /** Runs the middle pass of a full ring. */
    method MiddlePass(healthy: bool, ghost due: Due, ghost call: CallStart) returns (r: Result<nat>)
      requires Shaped() && front.RingFits() && OneBehind(due) && front.WindowReady()
      requires !(passesRun == 0 && sceneStart)
      requires front.Ran(call, due.first) && due.end <= call.first + front.Slots()
      modifies this`passesRun, this`zeroedRegions, this`accum, front.log`passes,
               front.Shared()`tags, front.Shared()`fields
      ensures Shaped() && front.RingFits()
      ensures healthy && Finds(call.source, due.first, due.end) ==> r.Ok?
      ensures r.Ok? ==>
                && r.value == Slot(due.taken - 1 - front.radius, front.Slots())
                && CaughtUp(due.context, due.taken)
                && RegionsHeld(due.context, due.taken, true)
                && front.Ran(call, due.end) == true
    {
      hide ClearFits, Collects, Finds, NlmFront.Ran;
      MiddleClearFits(due);
      var clear := if passesRun == 0 then WholeRing else NewestRegion;
      r := CollectingPass(front.radius, clear, healthy, due.context, due.first,
                          due.taken - front.Slots(), call);
    }

    /** Runs the passes a full ring owes its newest frame and returns the middle frame's slot. */
    method OwedPasses(healthy: bool, ghost due: Due, ghost call: CallStart)
      returns (r: Result<nat>)
      requires Shaped() && front.RingFits() && OneBehind(due) && front.WindowReady()
      requires front.Ran(call, due.first) && due.end <= call.first + front.Slots()
      modifies this`passesRun, this`zeroedRegions, this`accum, front.log`passes,
               front.Shared()`tags, front.Shared()`fields
      ensures Shaped() && front.RingFits()
      ensures healthy && Finds(call.source, due.first, due.end) ==> r.Ok?
      ensures r.Ok? ==>
                && r.value == Slot(due.taken - 1 - front.radius, front.Slots())
                && CaughtUp(due.context, due.taken)
                && RegionsHeld(due.context, due.taken, true)
                && front.Ran(call, due.end) == true
    {
      hide Collects, Finds, NlmFront.Ran;
      if passesRun == 0 && sceneStart {
        assert due.taken == front.Slots() && due.end == front.radius + 1;
        r := OpeningPasses(healthy, call);
      } else {
        r := MiddlePass(healthy, due, call);
      }
    }

    /** Catches the passes up with the ring: whatever `due` names runs, and the oldest frame's region is
    returned once the stream has run more than `radius` passes, which is when the schedule says it is
    ready. */
    method SubmitPasses(healthy: bool, ghost due: Due, ghost call: CallStart)
      returns (r: Result<Option<CompletedRegion>>)
      requires Shaped() && front.RingFits() && Owing(due)
      requires front.Ran(call, due.first) && due.end <= call.first + front.Slots()
      modifies this`passesRun, this`zeroedRegions, this`accum, front.log`passes,
               front.Shared()`tags, front.Shared()`fields
      ensures Shaped() && front.RingFits()
      ensures healthy && Finds(call.source, due.first, due.end) ==> r.Ok?
      ensures r.Ok? ==>
                && CaughtUp(due.context, due.taken)
                && RegionsHeld(due.context, due.taken, true)
                && front.Ran(call, due.end) == true
                && r.value == RegionReady(G(), due.context, due.taken)
                && (r.value.Some? <==> passesRun > front.radius)
                && (r.value.Some? ==> PointsAt(r.value.value, due.taken - front.Slots(), false))
    {
      hide Collects, HeldIn;
      if !front.WindowReady() {
        NothingHeld(due.context, due.taken);
        return Ok(None);
      }

      var passed := OwedPasses(healthy, due, call);
      if passed.Err? {
        return Err(Gpu);
      }

      if passesRun <= front.radius {
        return Ok(None);
      }

      var region := RegionBehind(passed.value);
      r := Ok(Some(region));
    }

    /** Whether `region` is that of `frame`, and its successor that of the frame after, if the ring is
    to have one. */
    ghost predicate PointsAt(region: CompletedRegion, frame: nat, last: bool)
      reads front`slotFrames
    {
      && region.slot < |front.slotFrames| && front.slotFrames[region.slot] == frame
      && (region.next.None? <==> last)
      && (!last ==> region.next.value < |front.slotFrames|
                    && front.slotFrames[region.next.value] == frame + 1)
    }

    /** The region a middle pass centred on `centreSlot` completes, `radius` frames behind it. */
    method RegionBehind(centreSlot: nat) returns (region: CompletedRegion)
      requires Shaped() && front.Streaming() && front.WindowReady()
      requires centreSlot == Slot(front.realPushes - 1 - front.radius, front.Slots())
      ensures region == RegionOf(G(), front.realPushes - front.Slots(), false)
      ensures PointsAt(region, front.realPushes - front.Slots(), false)
    {
      var radius := front.radius;
      var totalFrames := 1 + 2 * radius;
      var slot := (centreSlot + totalFrames - radius) % totalFrames;
      var nextSlot := front.RingSlot(1);
      front.LogicalFrame(1);
      SlotAhead(front.realPushes - 1 - radius, totalFrames - radius, totalFrames);
      SlotRepeats(front.realPushes - totalFrames, totalFrames);
      region := CompletedRegion(slot, Some(nextSlot));
    }

    /** The stream is under way, every pass owed has run, and the regions of all its ring's frames
    but the oldest hold what they owe. */
    ghost predicate Running(context: nat)
      requires Shaped()
      reads this, front
    {
      && front.Streaming()
      && CaughtUp(context, front.realPushes)
      && RegionsHeld(context, front.realPushes, false)
    }

    /** A stream of `pushes` frames is under way and nothing has been drained from its look-ahead. */
    ghost predicate Feeding(context: nat, pushes: nat)
      requires Shaped()
      reads this, front
    {
      && Running(context) && context <= pushes == |front.frames|
      && front.realPushes == Taken(G(), pushes)
    }

    /** Takes a real frame in and runs the passes it owes, returning the region they completed. */
    method TakeFrame(image: Image, healthy: bool, ghost context: nat, ghost pushes: nat,
                     ghost call: CallStart)
      returns (r: Result<Option<CompletedRegion>>)
      requires Shaped() && front.RingFits() && Feeding(context, pushes)
      requires front.Began(call) && call.first == PushDue(G(), context, pushes).first
      modifies this`passesRun, this`zeroedRegions, this`accum, front`slotFrames, front`input,
               front`ringHead, front`framesLoaded, front`realPushes, front`released, front`held,
               front`pushed, front`frames, front.log, front.Shared()
      ensures Shaped() && front.RingFits()
      ensures var due := PushDue(G(), context, pushes);
              r.Ok? ==>
                && Feeding(context, pushes + 1) == true
                && RegionsHeld(context, due.taken, true)
                && front.frames == old(front.frames) + [image]
                && r.value == RegionReady(G(), context, due.taken)
                && front.Ran(call, due.end) == true
      ensures var due := PushDue(G(), context, pushes);
              healthy && old(front.FindsPair(pushes)) && Finds(call.source, due.first, due.end)
              ==> r.Ok?
      ensures r.Ok? ==> old(front.FindsPair(pushes)) && front.PairShared(pushes)
                        && front.log.pairs == old(front.PairedWith(front.log.pairs, pushes))
    {
      hide HeldIn;
      ghost var before := Stream();
      var entered := front.PushPlanes(image, healthy);
      if entered.Err? {
        return Err(Gpu);
      }
      HeldStays(G(), guidesOnly, before, image, accum, context, Taken(G(), pushes));
      PushLeavesOwing(context, pushes);
      PushDueFits(context, pushes);
      r := SubmitPasses(healthy, PushDue(G(), context, pushes), call);
      if r.Ok? {
        OldestSpared(context, Taken(G(), pushes + 1));
      }
    }

    /** Releases one held frame, if any, and runs its passes. */
    method DrainStep(healthy: bool, ghost due: Due, ghost call: CallStart)
      returns (r: Result<Drained>)
      requires Shaped() && front.RingFits() && Running(due.context)
      requires due.taken == front.realPushes + 1 && DueFits(G(), due)
      requires front.Ran(call, due.first) && due.end <= call.first + front.Slots()
      modifies this`passesRun, this`zeroedRegions, this`accum, front`slotFrames, front`input,
               front`ringHead, front`framesLoaded, front`realPushes, front`released,
               front.log`passes, front.Shared()`tags, front.Shared()`fields
      ensures Shaped() && front.RingFits()
      ensures healthy && old(front.realPushes) == |front.frames| ==> r.Ok?
      ensures healthy && Finds(call.source, due.first, due.end) ==> r.Ok?
      ensures r.Ok? ==> Running(due.context) == true
                        && (r.value.Exhausted? <==> old(front.realPushes) == |front.frames|)
      ensures r.Ok? && r.value.Exhausted? ==>
                front.realPushes == old(front.realPushes) && front.Ran(call, due.first)
      ensures r.Ok? && r.value.Stepped? ==>
                && front.realPushes == due.taken
                && RegionsHeld(due.context, due.taken, true)
                && front.Ran(call, due.end) == true
                && r.value.region == RegionReady(G(), due.context, due.taken)
    {
      var released := front.ReleaseHeldFrame(healthy);
      if released.Err? {
        return Err(Gpu);
      }
      if !released.value {
        return Ok(Exhausted);
      }

      assert front.WindowReady() ==> OneBehind(due);
      var region := SubmitPasses(healthy, due, call);
      if region.Err? {
        return Err(Gpu);
      }
      OldestSpared(due.context, due.taken);
      r := Ok(Stepped(region.value));
    }

    /** `due` names the whole drain of a stream of `pushes` frames from ring count `start` on. */
    ghost predicate WholeDrain(due: Due, start: nat, pushes: nat) {
      && Taken(G(), due.context) <= start <= pushes
      && due.taken == DrainStop(G(), due.context, start, pushes)
      && due.first == PassEnd(G(), due.context, start)
      && due.end == PassEnd(G(), due.context, due.taken)
    }

    /** A drain that began when the ring had taken `start` frames stands where the ring does now. */
    ghost predicate Draining(due: Due, start: nat, call: CallStart)
      reads this, front, front.log, front.RingObject()
    {
      && Shaped() && front.RingFits() && Running(due.context)
      && start <= front.realPushes <= due.taken
      && (front.realPushes == start || front.realPushes < FirstReady(G(), due.context))
      && call.first == due.first
      && front.Ran(call, PassEnd(G(), due.context, front.realPushes))
    }

    /** A drain that is done. */
    ghost predicate HasDrained(due: Due, call: CallStart)
      reads this, front, front.log, front.RingObject()
    {
      && Shaped() && front.RingFits() && Running(due.context)
      && front.realPushes == due.taken && front.Ran(call, due.end)
    }

    /** Takes a drain one frame further. */
    method DrainFurther(healthy: bool, ghost due: Due, ghost start: nat, ghost call: CallStart)
      returns (r: Result<Drained>)
      requires Draining(due, start, call) && WholeDrain(due, start, |front.frames|)
      modifies this`passesRun, this`zeroedRegions, this`accum, front`slotFrames, front`input,
               front`ringHead, front`framesLoaded, front`realPushes, front`released,
               front.log`passes, front.Shared()`tags, front.Shared()`fields
      ensures Shaped() && front.RingFits()
      ensures healthy && Finds(call.source, due.first, due.end) ==> r.Ok?
      ensures r.Ok? && r.value.Exhausted? ==>
                due.taken < NextReady(G(), due.context, start) && HasDrained(due, call) == true
      ensures r.Ok? && r.value.Stepped? && r.value.region.None? ==>
                Draining(due, start, call) == true && front.realPushes > old(front.realPushes)
      ensures r.Ok? && r.value.Stepped? && r.value.region.Some? ==>
                && due.taken == NextReady(G(), due.context, start)
                && r.value.region.value == RegionOf(G(), due.taken - front.Slots(), false)
                && HasDrained(due, call) == true
                && RegionsHeld(due.context, due.taken, true)
    {
      hide Collects, HeldIn, NlmFront.Ran, NlmFront.Streaming;
      ghost var taken, pushes := front.realPushes, |front.frames|;
      DrainStands(G(), due.context, start, taken, pushes);
      r := DrainStep(healthy, Due(due.context, taken + 1, PassEnd(G(), due.context, taken),
                                  PassEnd(G(), due.context, taken + 1)), call);
    }

    /** Takes held frames in, with their passes, up to the first that readies a region or the last there
    is. The region is that of the frame then oldest in the ring. */
    method DrainLookahead(healthy: bool, ghost due: Due, ghost call: CallStart)
      returns (r: Result<Option<CompletedRegion>>)
      requires Shaped() && front.RingFits() && Running(due.context)
      requires WholeDrain(due, front.realPushes, |front.frames|)
      requires call.first == due.first && front.Ran(call, due.first)
      modifies this`passesRun, this`zeroedRegions, this`accum, front`slotFrames, front`input,
               front`ringHead, front`framesLoaded, front`realPushes, front`released,
               front.log`passes, front.Shared()`tags, front.Shared()`fields
      ensures Shaped() && front.RingFits()
      ensures healthy && Finds(call.source, due.first, due.end) ==> r.Ok?
      ensures r.Ok? ==>
                && HasDrained(due, call) == true
                && r.value == (if due.taken < NextReady(G(), due.context, old(front.realPushes))
                               then None
                               else Some(RegionOf(G(), due.taken - front.Slots(), false)))
      ensures r.Ok? && r.value.Some? ==>
                RegionsHeld(due.context, due.taken, true)
    {
      ghost var start := front.realPushes;
      while true
        invariant Draining(due, start, call)
        decreases due.taken - front.realPushes
      {
        var step := DrainFurther(healthy, due, start, call);
        if step.Err? {
          return Err(Gpu);
        }
        if step.value.Exhausted? {
          return Ok(None);
        }
        if step.value.region.Some? {
          return Ok(step.value.region);
        }
      }
    }

    /** How many regions only tail passes complete. */
    function TailRegionCount(pushes: nat): nat {
      Min(pushes, 2 * front.radius)
    }

    /** Steps through `held` submits by their pass counts alone, and arrives at the number of them by
    which more than `radius` passes have run, which is that of the regions the schedule says complete
    between ring counts `released` and `released + held`. */
    method DrainedRegionCount(released: nat, held: nat, ghost context: nat) returns (regions: nat)
      requires Shaped() && released == front.realPushes
      requires PassesCounted(context, released) && (sceneStart <==> context == 0)
      requires Taken(G(), context) <= released
      ensures regions == SubmitsReady(G(), context, released, released + held)
      ensures regions == CompletedBy(G(), context, released + held)
                         - CompletedBy(G(), context, released)
    {
      var radius := front.radius;
      var totalFrames := 1 + 2 * radius;
      var passes := passesRun;
      regions := 0;
      for taken := released + 1 to released + held + 1
        invariant passes ==
                    if taken - 1 < FirstPass(G(), context) then 0
                    else taken - 1 - FirstPass(G(), context) + 1
                         + (if context == 0 then radius else 0)
        invariant regions == SubmitsReady(G(), context, released, taken - 1)
      {
        if taken >= totalFrames {
          if passes == 0 && sceneStart {
            passes := passes + radius;
          }
          passes := passes + 1;
          if passes > radius {
            regions := regions + 1;
          }
        }
      }
      CompletedAreReady(G(), context, released, released + held);
    }

    /** The number of frames the stream has still to write out, by drain and tail together. */
    method FinishCount(ghost context: nat) returns (count: nat)
      requires Shaped() && Running(context)
      ensures var pushes := |front.frames|;
              count == OutputCount(G(), context, pushes)
                       - CompletedBy(G(), context, front.realPushes)
    {
      var held := front.HeldFrames();
      var released := front.realPushes;
      var drained := DrainedRegionCount(released, held, context);
      var tail := TailRegionCount(released + held);
      count := drained + tail;
    }

    /** Brings the last `2 * radius` frames of a full ring up to every centre there is. */
    method LongTail(healthy: bool, ghost context: nat, ghost call: CallStart)
      returns (r: Result<()>)
      requires Shaped() && front.RingFits() && Running(context)
      requires front.Slots() <= front.realPushes == |front.frames|
      requires front.Ran(call, |front.frames| - front.radius)
      requires |front.frames| <= call.first + front.Slots()
      modifies this`passesRun, this`zeroedRegions, this`accum, front.log`passes,
               front.Shared()`tags, front.Shared()`fields
      ensures Shaped() && front.RingFits()
      ensures var pushes := |front.frames|;
              && (healthy && Finds(call.source, pushes - front.radius, pushes) ==> r.Ok?)
              && (r.Ok? ==>
                    && ZeroedIsEmpty()
                    && Collected(context, pushes - 2 * front.radius, pushes, pushes)
                    && front.Ran(call, pushes))
    {
      hide Collects;
      var radius := front.radius;
      ghost var pushes := |front.frames|;
      var clear := if passesRun == 0 then WholeRing else Nothing;
      for centre := radius + 1 to 2 * radius + 1
        invariant Shaped() && front.RingFits() && ZeroedIsEmpty()
        invariant clear.Nothing? ==>
                    Collected(context, pushes - 2 * radius, pushes,
                              pushes - front.Slots() + centre)
        invariant clear.WholeRing? ==>
                    centre == radius + 1 && FirstPass(G(), context) == pushes + 1
        invariant !clear.NewestRegion?
        invariant front.Ran(call, pushes - front.Slots() + centre)
      {
        var ran := CollectingPass(centre, clear, healthy, context, pushes - front.Slots() + centre,
                                  pushes - 2 * radius, call);
        if ran.Err? {
          return Err(Gpu);
        }
        clear := Nothing;
      }
      r := Ok(());
    }

    /** Brings every frame of a padded ring up to every centre there is. */
    method ShortTail(healthy: bool, ghost call: CallStart) returns (r: Result<()>)
      requires Shaped() && front.RingFits() && front.Padded() && ZeroedIsEmpty()
      requires front.Ran(call, 0)
      modifies this`passesRun, this`zeroedRegions, this`accum, front.log`passes,
               front.Shared()`tags, front.Shared()`fields
      ensures Shaped() && front.RingFits()
      ensures var pushes := |front.frames|;
              && (healthy && Finds(call.source, 0, pushes) ==> r.Ok?)
              && (r.Ok? ==> ZeroedIsEmpty() && ShortCollected(pushes) && front.Ran(call, pushes))
    {
      var clear := WholeRing;
      var emit := front.realPushes;
      for centre := 0 to emit
        invariant Shaped() && front.RingFits() && ZeroedIsEmpty()
        invariant clear == if centre == 0 then WholeRing else Nothing
        invariant centre > 0 ==> ShortCollected(centre)
        invariant front.Ran(call, centre)
      {
        var ran := ShortPass(centre, clear, healthy, call);
        if ran.Err? {
          return Err(Gpu);
        }
        clear := Nothing;
      }
      r := Ok(());
    }

    /** Runs one pass of a padded ring, centred on one of its real frames. */
    method ShortPass(centre: nat, clear: AccumClear, healthy: bool, ghost call: CallStart)
      returns (r: Result<nat>)
      requires Shaped() && front.RingFits() && front.Padded() && ZeroedIsEmpty()
      requires centre < front.realPushes && front.Ran(call, centre)
      requires centre < call.first + front.Slots()
      requires if clear.WholeRing? then centre == 0 else clear.Nothing? && ShortCollected(centre)
      modifies this`passesRun, this`zeroedRegions, this`accum, front.log`passes,
               front.Shared()`tags, front.Shared()`fields
      ensures Shaped() && front.RingFits()
      ensures healthy && Finds(call.source, centre, centre + 1) ==> r.Ok?
      ensures r.Ok? ==> ZeroedIsEmpty() && ShortCollected(centre + 1) && front.Ran(call, centre + 1)
    {
      ghost var before := accum;
      front.PaddedFrame(centre);
      r := PassAt(centre, clear, healthy, call);
      if r.Ok? && !guidesOnly {
        assert ShortCollects(G(), Stream(), accum, centre + 1) by {
          front.ImagesArePadded();
          ShortPassCollects(G(), Stream(), before, accum, front.slotFrames, centre, clear,
                            Slot(front.RingSlot(centre) + front.radius, front.Slots()));
        }
      }
    }

    /** Every real frame of a padded ring has collected the centres up to `upTo`, and nothing else. */
    ghost predicate ShortCollected(upTo: nat)
      requires Shaped()
      reads this, front
    {
      !guidesOnly ==> ShortCollects(G(), Stream(), accum, upTo)
    }

    /** Every region a stream of `pushes` frames still has to read out holds what its frame owes. */
    ghost predicate TailCollected(context: nat, pushes: nat, first: nat)
      requires Shaped()
      reads this, front
    {
      forall f: nat | first <= f < pushes ::
        var output := Expected(G(), context, pushes, f);
        && front.slotFrames[Slot(f, front.Slots())] == f
        && output.first <= output.end
        && (!guidesOnly ==>
              accum[Slot(f, front.Slots())]
              == Contributions(G(), Stream(), output.first, output.end, f))
    }

    lemma NothingOwed(context: nat, pushes: nat)
      requires Shaped()
      ensures TailCollected(context, pushes, pushes)
    {
    }

    lemma ShortTailIsWhole(context: nat)
      requires Shaped() && front.Padded() && ShortCollected(front.realPushes)
      ensures TailCollected(context, front.realPushes, 0)
    {
      forall f: nat | f < front.realPushes
        ensures front.slotFrames[Slot(f, front.Slots())] == f
        ensures Slot(f, front.Slots()) == f
      {
        SlotOfSmall(f, front.Slots());
      }
    }

    lemma LongTailIsWhole(context: nat)
      requires Shaped() && front.Streaming() && front.realPushes >= front.Slots()
      requires Taken(G(), context) <= front.realPushes
      requires var pushes := front.realPushes;
               Collected(context, pushes - 2 * front.radius, pushes, pushes)
      ensures TailCollected(context, front.realPushes, front.realPushes - 2 * front.radius)
    {
    }

    /** Leaves every region not yet read out holding what its frame owes, and names those regions in frame
    order. */
    method FinishPasses(healthy: bool, ghost context: nat, ghost call: CallStart)
      returns (r: Result<seq<CompletedRegion>>)
      requires Shaped() && front.RingFits() && Running(context)
      requires front.realPushes == |front.frames|
      requires front.Ran(call, TailStart(G(), |front.frames|))
      requires |front.frames| <= call.first + front.Slots()
      modifies this`passesRun, this`zeroedRegions, this`accum, front`slotFrames, front`input,
               front`ringHead, front`framesLoaded, front.log`passes,
               front.Shared()`tags, front.Shared()`fields
      ensures Shaped() && front.RingFits()
      ensures var pushes := |front.frames|;
              var start := TailStart(G(), pushes);
              && (healthy && Finds(call.source, start, pushes) ==> r.Ok?)
              && (r.Ok? ==>
                    && ZeroedIsEmpty()
                    && r.value == TailRegions(G(), pushes)
                    && TailCollected(context, pushes, pushes - Min(pushes, 2 * front.radius))
                    && front.Ran(call, pushes))
    {
      hide Collects, HeldIn, LastRegions, TailCollected;
      var emit := TailRegionCount(front.realPushes);
      if emit == 0 {
        NothingOwed(context, front.realPushes);
        return Ok([]);
      }

      var radius := front.radius;
      var totalFrames := 1 + 2 * radius;
      var shortStream := front.realPushes < totalFrames;
      var ran := TailPasses(shortStream, healthy, context, call);
      if ran.Err? {
        return Err(Gpu);
      }

      var lastReal := if shortStream then emit - 1 else 2 * radius;
      var regions := CollectRegions(emit, lastReal);
      r := Ok(regions);
    }

    /** The passes of an end: of a full ring as it stands, of a shorter one once it is padded. */
    method TailPasses(shortStream: bool, healthy: bool, ghost context: nat, ghost call: CallStart)
      returns (r: Result<()>)
      requires Shaped() && front.RingFits() && Running(context)
      requires 0 < front.realPushes == |front.frames|
      requires shortStream <==> front.realPushes < front.Slots()
      requires front.Ran(call, TailStart(G(), |front.frames|))
      requires |front.frames| <= call.first + front.Slots()
      modifies this`passesRun, this`zeroedRegions, this`accum, front`slotFrames, front`input,
               front`ringHead, front`framesLoaded, front.log`passes,
               front.Shared()`tags, front.Shared()`fields
      ensures Shaped() && front.RingFits()
      ensures var pushes := |front.frames|;
              && (healthy && Finds(call.source, TailStart(G(), pushes), pushes) ==> r.Ok?)
              && (r.Ok? ==>
                    && ZeroedIsEmpty() && (if shortStream then front.Padded() else front.Streaming())
                    && TailCollected(context, pushes, pushes - Min(pushes, 2 * front.radius)) == true
                    && front.Ran(call, pushes) == true)
    {
      hide Collects, HeldIn, ShortCollects;
      if shortStream {
        var filled := front.FillRingWithLastFrame(healthy);
        if filled.Err? {
          return Err(Gpu);
        }
        r := ShortTail(healthy, call);
        if r.Ok? { ShortTailIsWhole(context); }
      } else {
        r := LongTail(healthy, context, call);
        if r.Ok? { LongTailIsWhole(context); }
      }
    }

    /** Names the last `emit` regions up to logical position `lastReal`, oldest first. */
    method CollectRegions(emit: nat, lastReal: nat) returns (regions: seq<CompletedRegion>)
      requires Shaped() && 0 < emit <= lastReal + 1 <= front.Slots()
      requires front.WindowReady()
      requires var pushes := front.realPushes;
               if pushes < front.Slots() then front.Padded() && emit == pushes == lastReal + 1
               else front.Streaming() && emit == lastReal == 2 * front.radius
      ensures regions == TailRegions(G(), front.realPushes)
      ensures forall i | 0 <= i < emit :: PointsAt(regions[i], front.realPushes - emit + i, i == emit - 1)
    {
      hide NlmFront.Padded, NlmFront.RingSlot, NlmFront.Streaming, PointsAt, RegionOf;
      ghost var pushes := front.realPushes;
      ghost var first: nat := pushes - emit;
      regions := [];
      for logical := lastReal + 1 - emit to lastReal + 1
        invariant |regions| == logical - (lastReal + 1 - emit)
        invariant forall i | 0 <= i < |regions| ::
                    regions[i] == RegionOf(G(), first + i, i == emit - 1)
                    && PointsAt(regions[i], first + i, i == emit - 1)
      {
        var region := RegionAtLogical(logical, lastReal);
        regions := regions + [region];
      }
      AreLastRegions(G(), pushes, regions);
    }

    /** The region in ring position `logical`, which has a successor unless it is `lastReal`'s. */
    method RegionAtLogical(logical: nat, lastReal: nat) returns (region: CompletedRegion)
      requires Shaped() && front.WindowReady() && logical <= lastReal < front.Slots()
      requires if front.realPushes < front.Slots() then front.Padded() && lastReal + 1 == front.realPushes
               else front.Streaming()
      ensures var frame := if front.realPushes < front.Slots() then logical
                           else front.realPushes - front.Slots() + logical;
              region == RegionOf(G(), frame, logical == lastReal) && PointsAt(region, frame, logical == lastReal)
    {
      hide NlmFront.Padded, NlmFront.RingSlot, NlmFront.Streaming;
      SlotAtLogical(logical);
      var slot := front.RingSlot(logical);
      var next := None;
      if logical < lastReal {
        SlotAtLogical(logical + 1);
        var nextSlot := front.RingSlot(logical + 1);
        next := Some(nextSlot);
      }
      region := CompletedRegion(slot, next);
    }

    lemma SlotAtLogical(logical: nat)
      requires Shaped() && logical < front.Slots() && front.WindowReady()
      requires if front.realPushes < front.Slots() then front.Padded() else front.Streaming()
      ensures front.RingSlot(logical)
              == Slot(if front.realPushes < front.Slots() then logical
                      else front.realPushes - front.Slots() + logical, front.Slots())
      ensures front.slotFrames[front.RingSlot(logical)]
              == if front.realPushes < front.Slots() then Min(logical, front.realPushes - 1)
                 else front.realPushes - front.Slots() + logical
    {
      if front.realPushes < front.Slots() {
        front.PaddedFrame(logical);
        SlotOfSmall(logical, front.Slots());
      } else {
        front.LogicalFrame(logical);
      }
    }

    /** `frame`'s region is the next to be read out: that of the ring's oldest frame, or of the next
    tail frame once the tail passes have run. */
    ghost predicate ReadyToRead(context: nat, pushes: nat, frame: nat, tail: bool)
      requires Shaped()
      reads this, front
    {
      if tail then
        ZeroedIsEmpty() && frame < pushes < frame + front.Slots()
        && TailCollected(context, pushes, frame)
      else
        && Running(context) && RegionsHeld(context, front.realPushes, true)
        && FirstPass(G(), context) <= front.realPushes <= pushes
        && frame == front.realPushes - front.Slots()
    }

    /** Hands over exactly what the stream owes `frame`, and leaves the region empty and known to be. */
    method ReadRegion(region: CompletedRegion, ghost context: nat, ghost pushes: nat,
                      ghost frame: nat, ghost tail: bool)
      returns (contents: seq<Contribution>)
      requires Shaped() && !guidesOnly && ReadyToRead(context, pushes, frame, tail)
      requires region.slot == Slot(frame, front.Slots())
      modifies this`zeroedRegions, this`accum
      ensures Shaped()
      ensures if tail then ZeroedIsEmpty() && TailCollected(context, pushes, frame + 1)
              else Running(context)
      ensures var output := Expected(G(), context, pushes, frame);
              contents == Contributions(G(), Stream(), output.first, output.end, frame)
    {
      hide Collects, Contributions, Expected, HeldIn, NlmFront.Streaming;
      if !tail { OldestIsRead(G(), Stream(), accum, context, front.realPushes, pushes); }
      contents := accum[region.slot];
      accum := accum[region.slot := []];
      zeroedRegions := zeroedRegions[region.slot := true];
      if tail {
        forall f: nat | frame < f < pushes
          ensures Slot(f, front.Slots()) != region.slot
        {
          SlotsDiffer(frame, f, front.Slots());
        }
      }
    }

    /** Takes a context frame in, marking a stream that starts with one. */
    method TakeContext(image: Image, marks: bool, healthy: bool, ghost context: nat)
      returns (r: Result<()>)
      requires Shaped() && front.RingFits() && Feeding(context, context)
      requires marks <==> context == 0
      modifies this`sceneStart, front`slotFrames, front`input, front`ringHead, front`framesLoaded,
               front`realPushes, front`released, front`held, front`pushed, front`frames,
               front.log`pairs, front.Shared()`lookaheadTag, front.Shared()`lookahead
      ensures Shaped() && front.RingFits()
      ensures r.Ok? ==>
                Feeding(context + 1, context + 1) && front.frames == old(front.frames) + [image]
      ensures healthy && old(front.FindsPair(context)) ==> r.Ok?
      ensures r.Ok? ==> old(front.FindsPair(context)) && front.PairShared(context)
                        && front.log.pairs == old(front.PairedWith(front.log.pairs, context))
    {
      if marks {
        MarkContinuation();
      }
      r := front.PushPlanes(image, healthy);
    }

    /** A stream that has run no pass stops being one that opens a scene. */
    method MarkContinuation()
      modifies this`sceneStart
      ensures sceneStart == (old(sceneStart) && passesRun != 0)
    {
      if passesRun == 0 {
        sceneStart := false;
      }
    }

    /** Drops the current stream for its `number`th, leaving the accumulators as they are. */
    method ResetStream(number: nat)
      requires Shaped()
      modifies this`passesRun, this`sceneStart, this`zeroedRegions, front`ringHead,
               front`framesLoaded, front`realPushes, front`pushed, front`released, front`run,
               front`frames
      ensures Idle() && front.run == number
    {
      front.ResetStreamState(number);
      passesRun := 0;
      sceneStart := true;
      zeroedRegions := seq(front.Slots(), _ => false);
    }
  }
}
