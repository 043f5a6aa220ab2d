/** What a run of requests does to one stream, when every call it makes succeeds.

The filter is proved to answer each request as `Answer` says. The theorem at the end is about every
sequence of requests that keeps within the lookback.
 */
module Requests {
  import opened Schedule
  import opened Planner
  import opened Buffer

  /** Where a filter stands between requests: its stream, and the outputs it has kept. */
  datatype Standing = Standing(stream: StreamState, kept: set<nat>)

  const COLD := Standing(Dead, {})

  /** Whether steps up to `to` take in the flush that ends the clip. */
  predicate Flushes(g: StreamGeometry, to: nat) {
    g.span.edges == Shifted && to + g.span.ahead > g.lastFrame + 1
  }

  /** Whether a plan runs its stream to the clip's end. */
  predicate EndsStream(g: StreamGeometry, plan: Plan) {
    match plan
    case Serve => false
    case Advance(_, to) => Flushes(g, to)
    case Reseed(start, _, to) => g.ReseedEndsStream(start) || Flushes(g, to)
  }

  /** The outputs a plan leaves received, from `OutputFirst` up to `OutputEnd`. */
  function OutputFirst(plan: Plan): nat {
    match plan
    case Serve => 0
    case Advance(from, _) => from
    case Reseed(start, _, _) => start
  }

  function OutputEnd(g: StreamGeometry, plan: Plan): nat {
    if plan.Serve? then 0 else if EndsStream(g, plan) then g.lastFrame + 1 else plan.to
  }

  /** The indices from `first` up to `end`. */
  function Between(first: nat, end: nat): (indices: set<nat>)
    ensures forall k: nat :: k in indices <==> first <= k < end
    ensures |indices| == Max(0, end - first)
    decreases end
  {
    if end <= first then {} else Between(first, end - 1) + {end - 1}
  }

  ghost function OutputsOf(g: StreamGeometry, plan: Plan): set<nat> {
    Between(OutputFirst(plan), OutputEnd(g, plan))
  }

  function StreamAfter(g: StreamGeometry, stream: StreamState, plan: Plan): StreamState {
    if plan.Serve? then stream else if EndsStream(g, plan) then Dead else Live(plan.to, plan.to)
  }

  ghost function PlanOf(g: StreamGeometry, s: Standing, n: nat, outstanding: map<nat, nat>): Plan {
    g.PlanFor(s.stream, n, n in s.kept, outstanding)
  }

  /** What a request for output `n` leaves behind. */
  ghost function Answer(g: StreamGeometry, s: Standing, n: nat, outstanding: map<nat, nat>): Standing {
    var plan := PlanOf(g, s, n, outstanding);
    Standing(StreamAfter(g, s.stream, plan),
             KeepHighest(s.kept + OutputsOf(g, plan) - {n}, g.BufferCapacity()))
  }

  /** A live stream has handed over everything it produced and has not run past the clip's end. */
  predicate Settled(g: StreamGeometry, stream: StreamState) {
    stream.Live? ==> stream.nextOutput == stream.nextStep && g.StepDue(stream.nextStep)
  }

  /** Whatever plan is picked produces the output that was asked for, and leaves the stream settled. */
  lemma EveryRequestIsServed(g: StreamGeometry, s: Standing, n: nat, outstanding: map<nat, nat>)
    requires n <= g.lastFrame && Settled(g, s.stream)
    ensures var plan := PlanOf(g, s, n, outstanding);
            n in s.kept + OutputsOf(g, plan) && Settled(g, StreamAfter(g, s.stream, plan))
  {
  }

  // ---------------------------------------------------------------------------------------------
  // What a plan touches
  // ---------------------------------------------------------------------------------------------

  /** A flush only ever comes last: no step of a plan follows one. */
  lemma FlushComesLast(g: StreamGeometry, stream: StreamState, n: nat, outstanding: map<nat, nat>,
                       step: nat, later: nat)
    requires n <= g.lastFrame && Settled(g, stream)
    requires var plan := g.PlanFor(stream, n, false, outstanding);
             plan.from <= step < later && step < plan.to && g.StepOf(step) == Flush
    ensures later >= g.PlanFor(stream, n, false, outstanding).to
  {
  }

  /** Every source a plan's steps push, and every source its rebuild pushes, is one the request for
  `n` asked for. */
  lemma PlanStaysInRequest(g: StreamGeometry, stream: StreamState, n: nat, outstanding: map<nat, nat>)
    requires n <= g.lastFrame
    ensures var plan := g.PlanFor(stream, n, false, outstanding);
            && (forall step | plan.from <= step < plan.to && g.StepOf(step).Push? ::
                  g.InRequest(n, g.StepOf(step).source))
            && (plan.Reseed? ==>
                  forall source | Minus(plan.start, g.span.behind) <= source
                                  <= Min(plan.start + g.span.ahead, g.lastFrame) ::
                    g.InRequest(n, source))
  {
  }

  // ---------------------------------------------------------------------------------------------
  // Requests that overlap
  // ---------------------------------------------------------------------------------------------

  /** What happens to a request for output `n`: it is made, an attempt is made to give its output, which
  may fail unless it is healthy, and it is closed and stops counting as outstanding. Between these
  anything may happen to other requests. */
  datatype Event = Ask(n: nat) | Give(n: nat, healthy: bool) | Close(n: nat)

  function Times(events: seq<Event>, event: Event): nat {
    if events == [] then 0
    else Times(events[..|events| - 1], event) + (if events[|events| - 1] == event then 1 else 0)
  }

  /** The requests for output `n` that count as outstanding after `events`. */
  function Open(events: seq<Event>, n: nat): int { Times(events, Ask(n)) - Times(events, Close(n)) }

  /** The attempts made to give output `n`. */
  function Attempts(events: seq<Event>, n: nat): nat {
    Times(events, Give(n, true)) + Times(events, Give(n, false))
  }

  /** Whether `event` may follow `events`: only what was asked for is given, and only what was given is
  closed. */
  predicate MayFollow(g: StreamGeometry, events: seq<Event>, event: Event) {
    && event.n <= g.lastFrame
    && match event
       case Ask(_) => true
       case Give(n, _) => Attempts(events, n) < Times(events, Ask(n))
       case Close(n) => Times(events, Close(n)) < Attempts(events, n)
  }

  /** Any number of requests, in any interleaving. */
  ghost predicate Interleaved(g: StreamGeometry, events: seq<Event>) {
    events == []
    || (Interleaved(g, events[..|events| - 1])
        && MayFollow(g, events[..|events| - 1], events[|events| - 1]))
  }

  lemma {:induction false} LeadingEvents(g: StreamGeometry, events: seq<Event>, count: nat)
    requires Interleaved(g, events) && count <= |events|
    ensures Interleaved(g, events[..count])
    ensures count > 0 ==> MayFollow(g, events[..count - 1], events[count - 1])
  {
    if count == |events| {
      assert events[..count] == events;
    } else {
      var before := events[..|events| - 1];
      LeadingEvents(g, before, count);
      assert before[..count] == events[..count];
      if count > 0 { assert before[..count - 1] == events[..count - 1]; }
    }
  }

  /** Nothing is given that was not asked for, nor closed that was not given. */
  lemma {:induction false} EachInTurn(g: StreamGeometry, events: seq<Event>, n: nat)
    requires Interleaved(g, events)
    ensures Times(events, Close(n)) <= Attempts(events, n) <= Times(events, Ask(n))
  {
    if events != [] { EachInTurn(g, events[..|events| - 1], n); }
  }

  /** Whether nothing was given unasked or closed ungiven at any point of `events`. */
  ghost predicate AlwaysInTurn(events: seq<Event>) {
    forall count: nat, n: nat | count <= |events| :: InTurn(events[..count], n)
  }

  predicate InTurn(events: seq<Event>, n: nat) {
    Times(events, Close(n)) <= Attempts(events, n) <= Times(events, Ask(n))
  }

  /** That is all there is to an interleaving: any order of events of the clip's outputs is one, as long as
  at no point more of an output's requests were given than made, or closed than given. */
  lemma {:induction false} InterleavedIsInTurn(g: StreamGeometry, events: seq<Event>)
    ensures Interleaved(g, events) <==> AlwaysInTurn(events) && forall event | event in events :: event.n <= g.lastFrame
  {
    if events != [] {
      var before, last := events[..|events| - 1], events[|events| - 1];
      InterleavedIsInTurn(g, before);
      assert events == before + [last];
      if Interleaved(g, events) {
        forall count: nat, n: nat | count <= |events|
          ensures InTurn(events[..count], n)
        {
          LeadingEvents(g, events, count);
          EachInTurn(g, events[..count], n);
        }
      }
      if AlwaysInTurn(events) {
        assert AlwaysInTurn(before) by {
          forall count: nat, n: nat | count <= |before|
            ensures InTurn(before[..count], n)
          {
            assert before[..count] == events[..count];
          }
        }
        assert events[..|events|] == events && InTurn(events[..|events|], last.n);
      }
    }
  }

  /** `requests` are those `events` give, in order, each with exactly what was outstanding then. */
  ghost predicate Recorded(events: seq<Event>, requests: seq<Request>) {
    if events == [] then requests == []
    else
      var before := events[..|events| - 1];
      match events[|events| - 1]
      case Give(n, _) =>
        && requests != [] && Recorded(before, requests[..|requests| - 1])
        && requests[|requests| - 1].n == n && CountsOpen(requests[|requests| - 1].outstanding, before)
      case _ => Recorded(before, requests)
  }

  /** `outstanding` counts the requests that are open after `events`. */
  ghost predicate CountsOpen(outstanding: map<nat, nat>, events: seq<Event>) {
    forall n: nat :: CountIn(outstanding, n) == Open(events, n)
  }

  lemma RecordedNext(events: seq<Event>, event: Event, requests: seq<Request>, request: Request)
    requires Recorded(events, requests)
    requires event.Give? ==> request.n == event.n && CountsOpen(request.outstanding, events)
    ensures Recorded(events + [event], if event.Give? then requests + [request] else requests)
  {
    assert (events + [event])[..|events|] == events;
    assert (requests + [request])[..|requests|] == requests;
  }

  /** How an event moves the count of what is outstanding. */
  lemma CountsNext(outstanding: map<nat, nat>, later: map<nat, nat>, events: seq<Event>, event: Event)
    requires CountsOpen(outstanding, events)
    requires forall n: nat :: CountIn(later, n) == CountIn(outstanding, n)
               + (if event == Ask(n) then 1 else if event == Close(n) then -1 else 0)
    ensures CountsOpen(later, events + [event])
  {
    assert (events + [event])[..|events|] == events;
  }

  // ---------------------------------------------------------------------------------------------
  // Bounded reordering
  // ---------------------------------------------------------------------------------------------

  /** A request, and the requests that were outstanding when it was planned. */
  datatype Request = Request(n: nat, outstanding: map<nat, nat>)

  ghost function AnswerAll(g: StreamGeometry, requests: seq<Request>): Standing {
    if requests == [] then COLD
    else
      var last := requests[|requests| - 1];
      Answer(g, AnswerAll(g, requests[..|requests| - 1]), last.n, last.outstanding)
  }

  lemma AnswerNext(g: StreamGeometry, requests: seq<Request>, next: Request)
    ensures AnswerAll(g, requests + [next]) == Answer(g, AnswerAll(g, requests), next.n, next.outstanding)
  {
    assert (requests + [next])[..|requests|] == requests;
  }

  /** The plan of each request of a run. */
  ghost function Plans(g: StreamGeometry, requests: seq<Request>): (plans: seq<Plan>)
    ensures |plans| == |requests|
  {
    if requests == [] then []
    else
      var before := requests[..|requests| - 1];
      var last := requests[|requests| - 1];
      Plans(g, before) + [PlanOf(g, AnswerAll(g, before), last.n, last.outstanding)]
  }

  function Upward(first: nat, end: nat): seq<nat> {
    if end <= first then [] else seq(end - first, i requires 0 <= i => first + i)
  }

  /** The steps a run of plans makes the stream take, in the order it takes them. */
  function StepsRun(plans: seq<Plan>): seq<nat> {
    if plans == [] then []
    else
      var last := plans[|plans| - 1];
      StepsRun(plans[..|plans| - 1]) + (if last.Serve? then [] else Upward(last.from, last.to))
  }

  function Served(requests: seq<Request>): set<nat> {
    if requests == [] then {}
    else Served(requests[..|requests| - 1]) + {requests[|requests| - 1].n}
  }

  /** Each frame is requested at most once, and by then every frame more than `lookback` before it
  has been served. */
  ghost predicate BoundedOrder(g: StreamGeometry, requests: seq<Request>) {
    requests == [] ||
    var before := requests[..|requests| - 1];
    var n := requests[|requests| - 1].n;
    && BoundedOrder(g, before)
    && n <= g.lastFrame && n !in Served(before)
    && Between(0, Minus(n, g.lookback)) <= Served(before)
  }

  /** The outputs the stream has produced: `0` up to here. */
  function ProducedEnd(g: StreamGeometry, stream: StreamState): nat {
    if stream.Live? then stream.nextOutput else g.lastFrame + 1
  }

  /** A run that the stream answered as one sequential render: where it stands after `plans`, with
  the outputs in `served` handed out. */
  ghost predicate InOrder(g: StreamGeometry, s: Standing, plans: seq<Plan>, served: set<nat>) {
    // One rebuild, at the clip's start.
    && (forall i | 0 <= i < |plans| :: plans[i].Reseed? <==> i == 0)
    && (plans != [] ==> plans[0].start == 0)
    // Each step once, in order, and none past the last one taken.
    && StepsRun(plans) == Upward(1, 1 + |StepsRun(plans)|)
    // Nothing the stream produced was lost before it was served.
    && served <= Between(0, ProducedEnd(g, s.stream))
    && s.kept == Between(0, ProducedEnd(g, s.stream)) - served
  }

  /** Where the steps of a whole clip stop. */
  function LastStep(g: StreamGeometry): nat {
    if g.ReseedEndsStream(0) then 1 else g.StepEnd(g.lastFrame)
  }

  /** What the induction carries besides: the stream has not run far past a request `top` whose
  earlier frames were served. */
  ghost predicate Carried(g: StreamGeometry, s: Standing, plans: seq<Plan>, served: set<nat>, top: nat) {
    && Settled(g, s.stream)
    && (if s.stream.Live? then s.stream.nextStep == |StepsRun(plans)| + 1 && !g.ReseedEndsStream(0)
        else |StepsRun(plans)| + 1 == LastStep(g))
    && ProducedEnd(g, s.stream) <= top + g.lead + g.span.ahead + 1
    && Between(0, Minus(top, g.lookback)) <= served
  }

  lemma {:induction false} SubsetSize(part: set<nat>, whole: set<nat>)
    requires part <= whole
    ensures |part| <= |whole|
    decreases |part|
  {
    if part != {} {
      var pick :| pick in part;
      SubsetSize(part - {pick}, whole - {pick});
    }
  }

  /** What is kept after a run in bounded order fits the buffer, so nothing is dropped. */
  lemma KeptFits(g: StreamGeometry, kept: set<nat>, end: nat, served: set<nat>, top: nat)
    requires Between(0, Minus(top, g.lookback)) <= served
    requires kept == Between(0, end) - served
    requires end <= top + g.lead + g.span.ahead + 1
    ensures KeepHighest(kept, g.BufferCapacity()) == kept
  {
    var floor := Minus(top, g.lookback);
    assert kept <= Between(floor, end);
    SubsetSize(kept, Between(floor, end));
  }

  /** A cold stream is rebuilt at the clip's start for any output within the lookback of it. */
  lemma ColdPlan(g: StreamGeometry, n: nat, outstanding: map<nat, nat>)
    requires n <= g.lookback && n <= g.lastFrame
    ensures var plan := PlanOf(g, COLD, n, outstanding);
            var end := ProducedEnd(g, StreamAfter(g, Dead, plan));
            && plan.Reseed? && plan.start == 0 && plan.from == 1
            && n < end == OutputEnd(g, plan) <= n + g.lead + g.span.ahead + 1
            && (if EndsStream(g, plan) then plan.to == LastStep(g)
                else plan.to == end && !g.ReseedEndsStream(0))
  {
  }

  /** A live stream is advanced to any later output whose lookback it has already entered. */
  lemma WarmPlan(g: StreamGeometry, s: Standing, n: nat, outstanding: map<nat, nat>)
    requires Settled(g, s.stream) && n !in s.kept
    requires ProducedEnd(g, s.stream) <= n <= g.lastFrame
    requires Minus(n, g.lookback) <= ProducedEnd(g, s.stream)
    requires s.stream.Live? ==> !g.ReseedEndsStream(0)
    ensures var plan := PlanOf(g, s, n, outstanding);
            var end := ProducedEnd(g, StreamAfter(g, s.stream, plan));
            && s.stream.Live? && plan.Advance? && plan.from == s.stream.nextStep == s.stream.nextOutput
            && n < end == OutputEnd(g, plan) <= n + g.lead + g.span.ahead + 1
            && (if EndsStream(g, plan) then plan.to == LastStep(g)
                else plan.to == end && !g.ReseedEndsStream(0))
  {
  }

  lemma UpwardJoins(first: nat, middle: nat, end: nat)
    requires first <= middle <= end
    ensures Upward(first, middle) + Upward(middle, end) == Upward(first, end)
    ensures |Upward(first, end)| == end - first
  {
  }

  lemma FirstRequest(g: StreamGeometry, n: nat, outstanding: map<nat, nat>)
    requires n <= g.lookback && n <= g.lastFrame
    ensures var plan := PlanOf(g, COLD, n, outstanding);
            && InOrder(g, Answer(g, COLD, n, outstanding), [plan], {n})
            && Carried(g, Answer(g, COLD, n, outstanding), [plan], {n}, n)
  {
    ColdPlan(g, n, outstanding);
    var plan := PlanOf(g, COLD, n, outstanding);
    var end := OutputEnd(g, plan);
    var kept := {} + OutputsOf(g, plan) - {n};
    assert kept == Between(0, end) - {n};
    KeptFits(g, kept, end, {n}, n);
    UpwardJoins(1, 1, plan.to);
    assert [plan][..0] == [];
    assert StepsRun([plan]) == Upward(1, plan.to);
    EveryRequestIsServed(g, COLD, n, outstanding);
  }

  lemma KeptRequest(g: StreamGeometry, s: Standing, plans: seq<Plan>, served: set<nat>, top: nat,
                    n: nat, outstanding: map<nat, nat>)
    requires InOrder(g, s, plans, served) && Carried(g, s, plans, served, top)
    requires plans != [] && n in s.kept
    ensures PlanOf(g, s, n, outstanding) == Serve
    ensures InOrder(g, Answer(g, s, n, outstanding), plans + [Serve], served + {n})
    ensures Carried(g, Answer(g, s, n, outstanding), plans + [Serve], served + {n}, top)
  {
    hide Between, KeepHighest;
    var end := ProducedEnd(g, s.stream);
    var kept := s.kept + OutputsOf(g, Serve) - {n};
    assert kept == Between(0, end) - (served + {n});
    KeptFits(g, kept, end, served + {n}, top);
    assert (plans + [Serve])[..|plans|] == plans;
    assert StepsRun(plans + [Serve]) == StepsRun(plans);
  }

  /** The stream has entered the lookback of the next output it has not produced. */
  lemma StreamIsNear(g: StreamGeometry, s: Standing, served: set<nat>, n: nat)
    requires n !in s.kept && n !in served && Between(0, Minus(n, g.lookback)) <= served
    requires served <= Between(0, ProducedEnd(g, s.stream))
    requires s.kept == Between(0, ProducedEnd(g, s.stream)) - served
    ensures Minus(n, g.lookback) <= ProducedEnd(g, s.stream) <= n
  {
    var floor := Minus(n, g.lookback);
    SubsetSize(Between(0, floor), Between(0, ProducedEnd(g, s.stream)));
    assert n !in Between(0, ProducedEnd(g, s.stream));
  }

  lemma BetweenJoins(middle: nat, end: nat)
    requires middle <= end
    ensures Between(0, middle) + Between(middle, end) == Between(0, end)
  {
  }

  lemma ServeOne(before: set<nat>, after: set<nat>, served: set<nat>, n: nat)
    requires served <= before && before !! after && n in after
    ensures (before - served) + after - {n} == (before + after) - (served + {n})
    ensures served + {n} <= before + after
  {
  }

  lemma Grows(due: set<nat>, served: set<nat>, n: nat)
    requires due <= served
    ensures due <= served + {n}
  {
  }

  /** Where a request for an output still to come leaves the stream. */
  lemma LaterStanding(g: StreamGeometry, s: Standing, served: set<nat>, n: nat, outstanding: map<nat, nat>)
    requires Settled(g, s.stream) && n <= g.lastFrame && n !in s.kept && n !in served
    requires s.stream.Live? ==> !g.ReseedEndsStream(0)
    requires served <= Between(0, ProducedEnd(g, s.stream))
    requires s.kept == Between(0, ProducedEnd(g, s.stream)) - served
    requires Between(0, Minus(n, g.lookback)) <= served
    ensures var plan := PlanOf(g, s, n, outstanding);
            var end := OutputEnd(g, plan);
            && s.stream.Live? && plan.Advance? && plan.from == s.stream.nextStep
            && (if EndsStream(g, plan) then plan.to == LastStep(g)
                else plan.to == end && !g.ReseedEndsStream(0))
            && Answer(g, s, n, outstanding)
               == Standing(StreamAfter(g, s.stream, plan), Between(0, end) - (served + {n}))
            && end == ProducedEnd(g, StreamAfter(g, s.stream, plan)) <= n + g.lead + g.span.ahead + 1
            && served + {n} <= Between(0, end) && Between(0, Minus(n, g.lookback)) <= served + {n}
            && Settled(g, StreamAfter(g, s.stream, plan))
  {
    hide Between, KeepHighest;
    var reached := ProducedEnd(g, s.stream);
    StreamIsNear(g, s, served, n);
    WarmPlan(g, s, n, outstanding);
    var end := OutputEnd(g, PlanOf(g, s, n, outstanding));
    BetweenJoins(reached, end);
    ServeOne(Between(0, reached), Between(reached, end), served, n);
    Grows(Between(0, Minus(n, g.lookback)), served, n);
    KeptFits(g, Between(0, end) - (served + {n}), end, served + {n}, n);
  }

  lemma StepsJoin(plans: seq<Plan>, plan: Plan)
    requires StepsRun(plans) == Upward(1, 1 + |StepsRun(plans)|)
    requires plan.Advance? && 1 + |StepsRun(plans)| == plan.from <= plan.to
    ensures StepsRun(plans + [plan]) == Upward(1, plan.to)
    ensures 1 + |StepsRun(plans + [plan])| == plan.to
  {
    assert (plans + [plan])[..|plans|] == plans;
    UpwardJoins(1, plan.from, plan.to);
  }

  lemma AdvanceGrows(g: StreamGeometry, s: Standing, plans: seq<Plan>, served: set<nat>, top: nat,
                     plan: Plan, next: Standing)
    requires InOrder(g, s, plans, served) && Carried(g, s, plans, served, top)
    requires plans != [] && s.stream.Live? && plan.Advance? && plan.from == s.stream.nextStep <= plan.to
    requires next.stream.Live? ==> next.stream.nextStep == plan.to
    requires next.stream.Dead? ==> plan.to == LastStep(g)
    ensures forall i | 0 <= i < |plans + [plan]| :: (plans + [plan])[i].Reseed? <==> i == 0
    ensures (plans + [plan])[0].start == 0
    ensures StepsRun(plans + [plan]) == Upward(1, 1 + |StepsRun(plans + [plan])|)
    ensures 1 + |StepsRun(plans + [plan])| == plan.to
  {
    StepsJoin(plans, plan);
  }

  lemma LaterRequest(g: StreamGeometry, s: Standing, plans: seq<Plan>, served: set<nat>, top: nat,
                     n: nat, outstanding: map<nat, nat>, plan: Plan, next: Standing)
    requires InOrder(g, s, plans, served) && Carried(g, s, plans, served, top)
    requires plans != [] && n <= g.lastFrame && n !in s.kept && n !in served
    requires Between(0, Minus(n, g.lookback)) <= served
    requires plan == PlanOf(g, s, n, outstanding) && next == Answer(g, s, n, outstanding)
    ensures InOrder(g, next, plans + [plan], served + {n})
    ensures Carried(g, next, plans + [plan], served + {n}, n)
  {
    LaterStanding(g, s, served, n, outstanding);
    AdvanceGrows(g, s, plans, served, top, plan, next);
  }

  lemma NextRequest(g: StreamGeometry, s: Standing, plans: seq<Plan>, served: set<nat>, top: nat,
                    n: nat, outstanding: map<nat, nat>, plan: Plan, next: Standing)
    returns (nextTop: nat)
    requires InOrder(g, s, plans, served) && Carried(g, s, plans, served, top)
    requires plans != [] && n <= g.lastFrame && n !in served
    requires Between(0, Minus(n, g.lookback)) <= served
    requires plan == PlanOf(g, s, n, outstanding) && next == Answer(g, s, n, outstanding)
    ensures InOrder(g, next, plans + [plan], served + {n})
    ensures Carried(g, next, plans + [plan], served + {n}, nextTop)
  {
    if n in s.kept {
      KeptRequest(g, s, plans, served, top, n, outstanding);
      nextTop := top;
    } else {
      LaterRequest(g, s, plans, served, top, n, outstanding, plan, next);
      nextTop := n;
    }
  }

  /** Bounded reordering is a sequential render: as long as each frame is requested once and never
  more than the lookback ahead of one still unserved, the stream is rebuilt once, at the clip's
  start, then takes every step once and in order, and no output is dropped before it is served. */
  lemma {:induction false} BoundedOrderIsSequential(g: StreamGeometry, requests: seq<Request>)
    returns (top: nat)
    requires BoundedOrder(g, requests) && requests != []
    ensures InOrder(g, AnswerAll(g, requests), Plans(g, requests), Served(requests))
    ensures Carried(g, AnswerAll(g, requests), Plans(g, requests), Served(requests), top)
  {
    var before := requests[..|requests| - 1];
    var last := requests[|requests| - 1];
    if before == [] {
      assert Between(0, Minus(last.n, g.lookback)) == {};
      FirstRequest(g, last.n, last.outstanding);
      top := last.n;
    } else {
      top := BoundedOrderIsSequential(g, before);
      var s := AnswerAll(g, before);
      top := NextRequest(g, s, Plans(g, before), Served(before), top, last.n, last.outstanding,
                         PlanOf(g, s, last.n, last.outstanding), AnswerAll(g, requests));
    }
  }

  lemma WholeRun(g: StreamGeometry, s: Standing, plans: seq<Plan>, served: set<nat>, top: nat)
    requires InOrder(g, s, plans, served) && Carried(g, s, plans, served, top)
    requires served == Between(0, g.lastFrame + 1)
    ensures StepsRun(plans) == Upward(1, LastStep(g)) && s.kept == {}
  {
    var end := ProducedEnd(g, s.stream);
    SubsetSize(served, Between(0, end));
    assert end == g.lastFrame + 1;
  }

  /** However its requests were reordered, a render of the whole clip took the same steps as one in
  frame order: all of them, once each, after one rebuild at the start. Nothing is left over. */
  lemma WholeClipIsOneRender(g: StreamGeometry, requests: seq<Request>)
    requires BoundedOrder(g, requests) && Served(requests) == Between(0, g.lastFrame + 1)
    ensures var plans := Plans(g, requests);
            && plans != [] && plans[0].Reseed? && plans[0].start == 0
            && (forall i | 0 < i < |plans| :: !plans[i].Reseed?)
            && StepsRun(plans) == Upward(1, LastStep(g))
            && AnswerAll(g, requests).kept == {}
  {
    assert 0 in Served(requests);
    var top := BoundedOrderIsSequential(g, requests);
    WholeRun(g, AnswerAll(g, requests), Plans(g, requests), Served(requests), top);
  }
}
