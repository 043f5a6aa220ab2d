/** How a request for any output frame is planned over one sequential stream. */
module Planner {
  import opened Schedule
  import opened Wrappers

  /** What stands in for frames beyond either end of a clip: its end frame again, or none. */
  datatype EdgePadding = Repeat | Shifted

  /** The source frames around an output that go into it. */
  datatype WindowSpan = WindowSpan(behind: nat, ahead: nat, edges: EdgePadding)

  function FrameCount(span: WindowSpan): nat { span.behind + 1 + span.ahead }

  /** What readies an output: a source pushed, or the stream's end. */
  datatype Step = Push(source: nat) | Flush

  /** How an output is come by: it is kept already, or the stream runs on through the steps from `from`
  up to `to`, or a new stream begins at `start` and runs on through those. */
  datatype Plan =
    | Serve
    | Advance(from: nat, to: nat)
    | Reseed(start: nat, from: nat, to: nat)

  function Minus(a: nat, b: nat): nat { if a < b then 0 else a - b }

  /** What planning depends on besides the requests: window, lookback, lead and clip length. */
  datatype StreamGeometry =
    StreamGeometry(span: WindowSpan, lookback: nat, lead: nat, lastFrame: nat)
  {
    /** The lower end of the sources that output `n` may be made from. */
    function RequestFirst(n: nat): nat { Minus(n, span.behind + lookback) }

    /** The upper end of it. */
    function RequestLast(n: nat): nat { Min(n + span.ahead + lead, lastFrame) }

    predicate InRequest(n: nat, source: nat) { RequestFirst(n) <= source <= RequestLast(n) }

    /** The step that readies output `k`. */
    function StepOf(k: nat): Step {
      var source := k + span.ahead;
      match span.edges
      case Repeat => Push(Min(source, lastFrame))
      case Shifted => if source <= lastFrame then Push(source) else Flush
    }

    /** Whether the window around `start` takes in the clip's last frame. */
    predicate ReseedEndsStream(start: nat) {
      span.edges == Shifted && start + span.ahead >= lastFrame
    }

    /** How many outputs may be kept between requests. */
    function BufferCapacity(): nat { lookback + FrameCount(span) + lead }

    /** Where the steps of a plan for output `n` stop. */
    function StepEnd(n: nat): nat {
      var end := Min(n + lead, lastFrame) + 1;
      if span.edges == Repeat then end
      else Min(end, Minus(lastFrame + 1, span.ahead) + 1)
    }

    /** Whether the step that produces `nextStep` pushes nothing older than output `n` asked for. */
    predicate InReach(nextStep: nat, n: nat) {
      match StepOf(nextStep)
      case Push(source) => source >= RequestFirst(n)
      case Flush => true
    }

    /** Where a rebuild for output `n` starts. */
    function ReseedStart(n: nat, outstanding: map<nat, nat>): (start: nat)
      ensures Minus(n, lookback) <= start <= n
      ensures n <= lookback ==> start == 0
      ensures forall k | k in outstanding && Minus(n, lookback) <= k <= n :: start <= k
      ensures n > lookback && start < n ==> start in outstanding
    {
      var floor := Minus(n, lookback);
      if floor == 0 then 0
      else
        match LowestIn(outstanding, floor, n)
        case Some(lowest) => lowest
        case None => n
    }

    /** The plan for output `n` over a stream that stands at `stream`. */
    function PlanFor(stream: StreamState, n: nat, buffered: bool, outstanding: map<nat, nat>): (plan: Plan)
      ensures buffered <==> plan == Serve
      ensures plan.Advance? ==> stream.Live? && plan.from == stream.nextStep <= plan.to
      ensures plan.Reseed? ==> plan.from == plan.start + 1 <= plan.to && plan.start <= n
    {
      if buffered then Serve
      else if stream.Live? && stream.nextOutput <= n && InReach(stream.nextStep, n) then
        Advance(stream.nextStep, Max(StepEnd(n), stream.nextStep))
      else
        var start := ReseedStart(n, outstanding);
        Reseed(start, start + 1,
               if ReseedEndsStream(start) then start + 1 else Max(StepEnd(n), start + 1))
    }

    /** A live stream that has not passed `n` is run on exactly when its next source is no older than the
    request for `n` reaches, or when it has no source left. */
    lemma AdvancesInReach(stream: StreamState, n: nat, buffered: bool, outstanding: map<nat, nat>)
      ensures PlanFor(stream, n, buffered, outstanding).Advance? <==>
                && !buffered && stream.Live? && stream.nextOutput <= n
                && (if stream.nextStep + span.ahead <= lastFrame
                    then n <= stream.nextStep + span.ahead + span.behind + lookback
                    else span.edges == Shifted || n <= lastFrame + span.behind + lookback)
    {
    }

    /** A rebuild starts at 0 if that is within the lookback, and otherwise at the lowest output in it that a
    request is outstanding for, or at the one asked for. */
    lemma RebuildsAtLowest(stream: StreamState, n: nat, buffered: bool, outstanding: map<nat, nat>, k: nat)
      ensures var plan := PlanFor(stream, n, buffered, outstanding);
              plan.Reseed? ==>
                && plan.start <= n <= plan.start + lookback
                && (if n <= lookback then plan.start == 0 else plan.start == n || plan.start in outstanding)
                && (k in outstanding && k <= n <= k + lookback ==> plan.start <= k)
    {
    }

    /** A plan's steps are those of the outputs up to `lead` past `n`, as long as the clip and its sources
    last: none follows the clip's last output, a flush, or a rebuild that took in the clip's end. */
    lemma PlanRunsLead(stream: StreamState, n: nat, buffered: bool, outstanding: map<nat, nat>, k: nat)
      ensures var plan := PlanFor(stream, n, buffered, outstanding);
              !plan.Serve? && plan.from <= k ==>
                (k < plan.to <==>
                  && k <= n + lead && k <= lastFrame
                  && (span.edges == Repeat || k == 0 || k - 1 + span.ahead <= lastFrame)
                  && (span.edges == Repeat || plan.Advance? || plan.start + span.ahead < lastFrame))
    {
    }

    /** The buffer may keep one output for each source that a request away from the clip's ends asks for. */
    lemma CapacityIsRequest(n: nat)
      requires span.behind + lookback <= n && n + span.ahead + lead <= lastFrame
      ensures RequestLast(n) - RequestFirst(n) + 1 == BufferCapacity()
    {
    }

    /** Where a live stream may stand: its next step is no later than the one that ends the clip. */
    predicate StepDue(k: nat) {
      k <= lastFrame + 1 && (span.edges == Shifted ==> k + span.ahead <= lastFrame + 1)
    }
  }

  datatype StreamState = Dead | Live(nextStep: nat, nextOutput: nat)

  /** The lowest key of `requests` from `first` to `last`. */
  function LowestIn(requests: map<nat, nat>, first: nat, last: nat): (r: Option<nat>)
    ensures r.Some? ==> r.value in requests && first <= r.value <= last
    ensures forall n | n in requests && first <= n <= last :: r.Some? && r.value <= n
    decreases last + 1 - first
  {
    if first > last then None
    else if first in requests then Some(first)
    else LowestIn(requests, first + 1, last)
  }

  function CountIn(requests: map<nat, nat>, n: nat): nat { if n in requests then requests[n] else 0 }

  /** A count per output of the requests for it that are still open. */
  class Outstanding {
    var requests: map<nat, nat>

    constructor ()
      ensures requests == map[]
    {
      requests := map[];
    }

    ghost function Count(n: nat): nat
      reads this
    {
      CountIn(requests, n)
    }

    /** No frame is kept with a count of zero. */
    ghost predicate Valid()
      reads this
    {
      forall n | n in requests :: requests[n] > 0
    }

    method Register(n: nat)
      requires Valid()
      modifies this
      ensures Valid() && Count(n) == old(Count(n)) + 1
      ensures forall m: nat | m != n :: Count(m) == old(Count(m))
    {
      requests := requests[n := (if n in requests then requests[n] else 0) + 1];
    }

    method Finish(n: nat)
      requires Valid()
      modifies this
      ensures Valid() && Count(n) == Max(0, old(Count(n)) - 1)
      ensures forall m: nat | m != n :: Count(m) == old(Count(m))
    {
      if n !in requests {
        return;
      }
      if requests[n] == 1 {
        requests := requests - {n};
      } else {
        requests := requests[n := requests[n] - 1];
      }
    }
  }

  /** The planner's own idea of the stream, moved on as the filter reports what it did. */
  class StreamPlanner {
    const geometry: StreamGeometry
    var stream: StreamState

    constructor (geometry: StreamGeometry)
      ensures this.geometry == geometry && stream == Dead
    {
      this.geometry, stream := geometry, Dead;
    }

    /** The plan is the one the geometry gives for where the stream stands. */
    method PlanRequest(n: nat, buffered: bool, outstanding: Outstanding) returns (plan: Plan)
      ensures plan == geometry.PlanFor(stream, n, buffered, outstanding.requests)
    {
      plan := geometry.PlanFor(stream, n, buffered, outstanding.requests);
    }

    /** A rebuild leaves the stream one past `start`, or over if it took in the clip's end. */
    method Reseeded(start: nat)
      modifies this
      ensures stream == if geometry.ReseedEndsStream(start) then Dead else Live(start + 1, start + 1)
    {
      if geometry.ReseedEndsStream(start) {
        stream := Dead;
      } else {
        stream := Live(start + 1, start + 1);
      }
    }

    /** Records one push. */
    method Pushed()
      modifies this
      ensures stream == if old(stream).Live? then old(stream).(nextStep := old(stream).nextStep + 1)
                        else Dead
    {
      if stream.Live? {
        stream := stream.(nextStep := stream.nextStep + 1);
      }
    }

    /** Gives the index of the oldest output in flight, exactly when there is one, and moves past it. */
    method Received() returns (index: Option<nat>)
      modifies this
      ensures index.Some? <==> old(stream).Live? && old(stream).nextOutput < old(stream).nextStep
      ensures index.None? ==> stream == old(stream)
      ensures index.Some? ==> index.value == old(stream).nextOutput
                              && stream == old(stream).(nextOutput := old(stream).nextOutput + 1)
    {
      if stream.Dead? || stream.nextOutput >= stream.nextStep {
        return None;
      }
      index := Some(stream.nextOutput);
      stream := stream.(nextOutput := stream.nextOutput + 1);
    }

    /** Gives the range of every output not yet received, to the clip's end. The stream is over. */
    method Flushed() returns (first: nat, end: nat)
      modifies this
      ensures stream == Dead && end == geometry.lastFrame + 1
      ensures first == if old(stream).Live? then old(stream).nextOutput else end
    {
      end := geometry.lastFrame + 1;
      first := if stream.Live? then stream.nextOutput else end;
      stream := Dead;
    }

    /** From here on there is no stream to advance. */
    method Kill()
      modifies this
      ensures stream == Dead
    {
      stream := Dead;
    }
  }
}
