/** The ring through which the luma pass hands its motion fields to the chroma pass. */
module LumaMotion {
  import opened Schedule
  import opened Rings
  import opened Wrappers

  /** The motion field one search produced: which stream it ran in and which frame it was for. */
  datatype Motion = Motion(run: nat, frame: nat)

  /** Where a pass takes its motion from: a search of its own, or what another pass shared. */
  datatype MotionSource =
    | Searches(run: nat)
    | Reads(tags: seq<Option<nat>>, fields: seq<Motion>)

  /** Whether passes centred on `first` up to `end` all find their motion. */
  ghost predicate Finds(source: MotionSource, first: nat, end: nat) {
    source.Reads? ==>
      |source.tags| > 0 && forall frame: nat | first <= frame < end ::
        source.tags[Slot(frame, |source.tags|)] == Some(frame)
  }

  /** The motion a pass centred on `frame` runs along. */
  ghost function MotionFrom(source: MotionSource, frame: nat): Motion {
    match source
    case Searches(run) => Motion(run, frame)
    case Reads(_, fields) =>
      if fields == [] then Motion(0, 0) else fields[Slot(frame, |fields|)]
  }

  /** A record of the motion passes ran along, newest last. */
  datatype Log = Blank | Logged(earlier: Log, motion: Motion)

  /** `log` with the motion of the passes centred on `first` up to `end` added. */
  ghost function Extended(log: Log, source: MotionSource, first: nat, end: nat): Log
    decreases end
  {
    if end <= first then log
    else Logged(Extended(log, source, first, end - 1), MotionFrom(source, end - 1))
  }

  /** What two records say of the calls between them: each pass centred on `first` up to `end` found
  its motion, in turn. */
  ghost predicate RanAlong(source: MotionSource, before: Log, after: Log, first: nat, end: nat) {
    Finds(source, first, end) && after == Extended(before, source, first, end)
  }

  /** Where a call found the motion it may use and the record of the motion used before, and the
  first centre it runs. */
  datatype CallStart = CallStart(source: MotionSource, passes: Log, first: nat)

  /** Whether a ring's slots hold what stream `run` searched for the frames `first` up to `end`. */
  ghost predicate Shares(tags: seq<Option<nat>>, fields: seq<Motion>, run: nat,
                         first: nat, end: nat)
    requires |tags| == |fields| > 0
  {
    forall frame: nat | first <= frame < end ::
      tags[Slot(frame, |tags|)] == Some(frame) && fields[Slot(frame, |tags|)] == Motion(run, frame)
  }

  /** Sharing the next frame keeps every earlier one of the same turn of the ring. */
  lemma SharesOneMore(tags: seq<Option<nat>>, fields: seq<Motion>, run: nat, first: nat, frame: nat)
    requires |tags| == |fields| > 0 && first <= frame < first + |tags|
    requires Shares(tags, fields, run, first, frame)
    ensures Shares(tags[Slot(frame, |tags|) := Some(frame)],
                   fields[Slot(frame, |tags|) := Motion(run, frame)], run, first, frame + 1)
  {
    forall other: nat | first <= other < frame
      ensures Slot(other, |tags|) != Slot(frame, |tags|)
    {
      SlotsDiffer(other, frame, |tags|);
    }
  }

  /** What is shared is found, as the motion the writer searched. */
  lemma {:induction false} SharedIsFound(tags: seq<Option<nat>>, fields: seq<Motion>, run: nat,
                                         log: Log, first: nat, end: nat)
    requires |tags| == |fields| > 0
    requires Shares(tags, fields, run, first, end)
    ensures Finds(Reads(tags, fields), first, end)
    ensures Extended(log, Reads(tags, fields), first, end)
         == Extended(log, Searches(run), first, end)
    decreases end
  {
    if first < end { SharedIsFound(tags, fields, run, log, first, end - 1); }
  }

  /** Motion fields in tagged slots: a turn of window slots, and one slot more for a look-ahead pair. */
  class LumaMotionRing {
    const slots: nat
    var tags: seq<Option<nat>>
    var fields: seq<Motion>
    var lookaheadTag: Option<nat>
    var lookahead: Motion

    ghost predicate Shaped()
      reads this
    {
      slots > 0 && |tags| == slots && |fields| == slots
    }

    constructor (radius: nat, uninitialised: Motion)
      ensures Shaped() && slots == 2 * radius + 1 && Empty()
    {
      slots := 2 * radius + 1;
      tags := seq(2 * radius + 1, _ => None);
      fields := seq(2 * radius + 1, _ => uninitialised);
      lookaheadTag := None;
      lookahead := uninitialised;
    }

    /** No read finds anything. */
    ghost predicate Empty()
      requires Shaped()
      reads this
    {
      lookaheadTag == None && forall s | 0 <= s < slots :: tags[s] == None
    }

    /** Tags the window slot of `frame` and maps `motion` into it. */
    method ShareWindow(frame: nat, motion: Motion)
      requires Shaped()
      modifies this`tags, this`fields
      ensures tags == old(tags)[Slot(frame, slots) := Some(frame)]
      ensures fields == old(fields)[Slot(frame, slots) := motion]
    {
      var index := frame % slots;
      tags := tags[index := Some(frame)];
      fields := fields[index := motion];
    }

    /** The window field of `frame`, or `None` when its slot holds another frame's. */
    method ReadWindow(frame: nat) returns (r: Option<Motion>)
      requires Shaped()
      ensures r.Some? <==> Finds(Reads(tags, fields), frame, frame + 1)
      ensures r.Some? ==> r.value == MotionFrom(Reads(tags, fields), frame)
    {
      var index := frame % slots;
      if tags[index] == Some(frame) {
        r := Some(fields[index]);
      } else {
        r := None;
      }
    }

    method ShareLookahead(frame: nat, motion: Motion)
      requires Shaped()
      modifies this`lookaheadTag, this`lookahead
      ensures lookaheadTag == Some(frame) && lookahead == motion
    {
      lookaheadTag := Some(frame);
      lookahead := motion;
    }

    method ReadLookahead(frame: nat) returns (r: Option<Motion>)
      requires Shaped()
      ensures r == if lookaheadTag == Some(frame) then Some(lookahead) else None
    {
      if lookaheadTag == Some(frame) {
        r := Some(lookahead);
      } else {
        r := None;
      }
    }

    method Clear()
      requires Shaped()
      modifies this`tags, this`lookaheadTag
      ensures Shaped() && Empty()
    {
      tags := seq(slots, _ => None);
      lookaheadTag := None;
    }
  }

  /** Whether a pass writes a motion ring, reads one, or does without. */
  datatype RingRole =
    | NoRing
    | Writer(ring: LumaMotionRing)
    | Reader(ring: LumaMotionRing)
}
