/** What a stream owes, in closed form.

Nothing here knows about rings, look-aheads, passes or clears. A stream is described by how many of
its leading pushes were context and by how many pushes it took in all, and every definition below is
arithmetic over those two numbers. The modules that do keep rings are proved against it.
 */
module Schedule {

  /** The fixed shape of a pass engine: its temporal radius and the depth of its noise look-ahead. */
  datatype Shape = Shape(radius: nat, depth: nat)

  function Max(a: int, b: int): int { if a < b then b else a }

  function Min(a: int, b: int): int { if a < b then a else b }

  /** The slots of the frame ring. */
  function RingSlots(g: Shape): (slots: nat)
    ensures slots > 0
  {
    2 * g.radius + 1
  }

  /** How far a frame's first possible output lags behind its push. */
  function HeldSpan(g: Shape): nat { 2 * g.radius + g.depth }

  /** How many of `pushes` frames have left the look-ahead for the ring. */
  function Taken(g: Shape, pushes: nat): nat {
    if pushes < g.depth then 0 else pushes - g.depth
  }

  /** The ring count of the first middle pass: a full ring, with all `context` leading frames taken in
  and one more besides. */
  function FirstPass(g: Shape, context: nat): nat {
    Max(RingSlots(g), Taken(g, context) + 1)
  }

  /** The ring count at which the first middle pass completes a region. Only a stream that opens a
  scene has run the head passes that let it complete one straight away. */
  function FirstReady(g: Shape, context: nat): nat {
    if context == 0 then RingSlots(g) else FirstPass(g, context) + g.radius
  }

  /** The regions middle passes have completed once the ring has taken `taken` frames. */
  function CompletedBy(g: Shape, context: nat, taken: nat): nat {
    if taken < FirstReady(g, context) then 0 else taken - FirstReady(g, context) + 1
  }

  /** The first frame a stream of `pushes` frames writes out. */
  function FirstOutput(g: Shape, context: nat, pushes: nat): nat {
    if pushes < FirstReady(g, context)
    then pushes - Min(pushes, 2 * g.radius)
    else FirstReady(g, context) - RingSlots(g)
  }

  /** The frames a finished stream of `pushes` frames has written out in all. */
  function OutputCount(g: Shape, context: nat, pushes: nat): (count: nat)
    ensures FirstOutput(g, context, pushes) + count == pushes
  {
    pushes - FirstOutput(g, context, pushes)
  }

  /** The centre of a stream's first pass, in a stream that fills its ring. */
  function PassStart(g: Shape, context: nat): nat {
    if context == 0 then 0 else FirstPass(g, context) - 1 - g.radius
  }

  /** One past the last centre run once the ring has taken `taken` frames, before any tail pass. */
  function PassEnd(g: Shape, context: nat, taken: nat): nat {
    if taken < FirstPass(g, context) then PassStart(g, context) else taken - g.radius
  }

  /** The first tail pass's centre: a stream that never filled its ring runs every frame. */
  function TailStart(g: Shape, pushes: nat): nat {
    if pushes < RingSlots(g) then 0 else pushes - g.radius
  }

  /** The first pass centre that reaches `frame` in a stream that fills its ring. */
  function ReachedFrom(g: Shape, context: nat, frame: nat): nat {
    if context == 0 && frame < RingSlots(g) then 0
    else Max(frame - g.radius, FirstPass(g, context) - 1 - g.radius)
  }

  /** The first pass centre that reaches `frame`. */
  function FirstCentre(g: Shape, context: nat, pushes: nat, frame: nat): nat {
    if pushes < RingSlots(g) then 0 else ReachedFrom(g, context, frame)
  }

  /** One past the last pass centre that reaches `frame`. */
  function EndCentre(g: Shape, pushes: nat, frame: nat): nat {
    if frame + 2 * g.radius < pushes then frame + g.radius + 1 else pushes
  }

  // What a pass reads: the whole ring, as it stands when the pass runs.

  /** The frames the ring has taken when the pass centred on `centre` runs: up to `radius` past that
  centre, at least a full ring, and never more than the stream has. */
  function PassTaken(g: Shape, pushes: nat, centre: nat): nat {
    Min(Max(centre + g.radius + 1, RingSlots(g)), pushes)
  }

  /** The frames the ring has taken when the last pass that reaches `frame` runs. */
  function Newest(g: Shape, pushes: nat, frame: nat): nat {
    if frame + 2 * g.radius < pushes then frame + RingSlots(g) else pushes
  }

  /** The stream frame in ring position `position`, oldest first, once `taken` frames are in. Positions
  past the last frame repeat it. */
  function FrameAt(g: Shape, taken: nat, position: nat): (frame: nat)
    requires taken > 0
    ensures frame < taken
  {
    Min(Max(taken - RingSlots(g), 0) + position, taken - 1)
  }

  /** What the ring holds, oldest first, once it has taken the first `taken` of `frames`. */
  function Window<T>(g: Shape, frames: seq<T>, taken: nat): seq<T> {
    if 0 < taken <= |frames|
    then seq(RingSlots(g), l requires 0 <= l => frames[FrameAt(g, taken, l)])
    else []
  }

  /** A frame written out; the centres of the passes that filtered it, `first` up to `end`; and how
  many frames the ring had taken when the last of them ran, which says what each of them read. */
  datatype Output = Output(frame: nat, first: nat, end: nat, newest: nat)

  /** What a stream of `pushes` frames writes out for `frame`. */
  function Expected(g: Shape, context: nat, pushes: nat, frame: nat): Output {
    Output(frame, FirstCentre(g, context, pushes, frame), EndCentre(g, pushes, frame),
           Newest(g, pushes, frame))
  }

  /** Whether the pass centred on `centre` is among those that filtered an output. */
  predicate Reaches(o: Output, centre: nat) { o.first <= centre < o.end }

  /** Whether the temporal window around `frame` holds `centre`. */
  predicate InWindow(g: Shape, frame: nat, centre: nat) {
    frame - g.radius <= centre <= frame + g.radius
  }

  /** `count` outputs from frame `first` on, in frame order. */
  ghost function Outputs(g: Shape, context: nat, pushes: nat, first: nat, count: nat): (r: seq<Output>)
    ensures |r| == count
  {
    seq(count, i requires 0 <= i < count => Expected(g, context, pushes, first + i))
  }

  // ---------------------------------------------------------------------------------------------
  // What the closed form means
  // ---------------------------------------------------------------------------------------------

  /** An output never waits for pushes to come: what a frame has collected once it is completed is
  what the finished stream, however much longer it runs, says it collects. */
  lemma ExpectedIsStable(g: Shape, context: nat, pushes: nat, later: nat, frame: nat)
    requires frame + RingSlots(g) <= pushes <= later
    ensures Expected(g, context, pushes, frame) == Expected(g, context, later, frame)
  {
  }

  /** A frame outside both edge rings of a scene collects the centres `frame - r ..= frame + r`, which are
  those of its window. */
  lemma SteadyFrame(g: Shape, pushes: nat, frame: nat)
    requires RingSlots(g) <= frame && frame + 2 * g.radius < pushes
    ensures Expected(g, 0, pushes, frame)
         == Output(frame, frame - g.radius, frame + g.radius + 1, frame + 2 * g.radius + 1)
    ensures forall centre: nat :: Reaches(Expected(g, 0, pushes, frame), centre) <==> InWindow(g, frame, centre)
  {
  }

  /** An output alone says how far the ring had come when each of its passes ran, the last included. */
  lemma PassOfOutput(g: Shape, context: nat, pushes: nat, frame: nat, centre: nat)
    requires Reaches(Expected(g, context, pushes, frame), centre)
    ensures var o := Expected(g, context, pushes, frame);
            && PassTaken(g, pushes, centre) == PassTaken(g, o.newest, centre)
            && PassTaken(g, pushes, o.end - 1) == o.newest
  {
  }

  /** What a pass that has its look-ahead reads is the same however the stream goes on. */
  lemma WindowIsStable<T>(g: Shape, frames: seq<T>, later: seq<T>, centre: nat)
    requires frames <= later && centre + g.radius < |frames| && RingSlots(g) <= |frames|
    ensures Window(g, frames, PassTaken(g, |frames|, centre))
         == Window(g, later, PassTaken(g, |later|, centre))
  {
  }

  /** Every frame of a scene is reached by every pass whose window holds it, whatever the stream's
  length: nothing its window could offer is missing. */
  lemma SceneMissesNothing(g: Shape, pushes: nat, frame: nat, centre: nat)
    requires frame < pushes && centre < pushes
    requires InWindow(g, frame, centre)
    ensures Reaches(Expected(g, 0, pushes, frame), centre)
  {
  }

  /** The frames a context-led stream emits that hold their whole window are exactly those from the
  one before its first pass on, and all of them in a stream that never fills its ring. */
  lemma ContextFrameIsWhole(g: Shape, context: nat, pushes: nat, frame: nat)
    requires 0 < context <= pushes
    requires FirstOutput(g, context, pushes) <= frame < pushes
    ensures (forall centre: nat | centre < pushes && InWindow(g, frame, centre) ::
               Reaches(Expected(g, context, pushes, frame), centre))
            <==> (frame + 1 >= FirstPass(g, context) || pushes < RingSlots(g) || g.radius == 0)
  {
    var first := FirstCentre(g, context, pushes, frame);
    if frame + 1 < FirstPass(g, context) && RingSlots(g) <= pushes && g.radius > 0 {
      // The centre just before the first one belongs to the window and was never run.
      var missed: nat := first - 1;
      assert InWindow(g, frame, missed) && missed < pushes;
      assert !Reaches(Expected(g, context, pushes, frame), missed);
    }
  }

  /** Between its clear and its read-out a region collects at most `4r` passes, and no more than
  `2r + 1` away from the stream's first and last ring. */
  lemma AccumulationBound(g: Shape, context: nat, pushes: nat, frame: nat)
    requires g.radius >= 1 && context <= pushes
    requires FirstOutput(g, context, pushes) <= frame < pushes
    ensures var o := Expected(g, context, pushes, frame);
            o.first <= o.end && o.end - o.first <= 4 * g.radius
            && (RingSlots(g) <= frame && frame + 2 * g.radius < pushes ==>
                  o.end - o.first <= 2 * g.radius + 1)
  {
  }

  /** The bound is met: a scene of `4r` frames puts its frame `2r` in both edge rings. */
  lemma AccumulationBoundIsTight(g: Shape)
    requires g.radius >= 1
    ensures var o := Expected(g, 0, 4 * g.radius, 2 * g.radius);
            o.end - o.first == 4 * g.radius
  {
  }

  // ---------------------------------------------------------------------------------------------
  // Rebuilding mid-clip
  // ---------------------------------------------------------------------------------------------

  /** `o` renumbered for a stream that starts `offset` frames earlier. */
  function Shifted(o: Output, offset: nat): Output {
    Output(o.frame + offset, o.first + offset, o.end + offset, o.newest + offset)
  }

  /** Whether each pass of `o` reads, in a stream that starts `offset` frames earlier, the very frames
  it reads in this one, in the same ring positions. */
  ghost predicate ReadsShifted(g: Shape, o: Output, offset: nat) {
    && 0 < o.newest
    && forall centre: nat, position: nat | Reaches(o, centre) && position < RingSlots(g) ::
         FrameAt(g, PassTaken(g, o.newest, centre), position) + offset
         == FrameAt(g, PassTaken(g, o.newest + offset, centre + offset), position)
  }

  /** A stream rebuilt mid-clip behind `HeldSpan` context frames writes out its target and every
  later frame from exactly the passes a stream run from the clip's start does, each reading the very
  same frames, however far either goes on. */
  lemma RebuildMatchesSequential(g: Shape, offset: nat, pushes: nat, frame: nat)
    requires offset > 0
    requires HeldSpan(g) <= frame < pushes
    ensures var o := Expected(g, HeldSpan(g), pushes, frame);
            && Shifted(o, offset) == Expected(g, 0, pushes + offset, frame + offset)
            && ReadsShifted(g, o, offset)
  {
  }
}
