/** The filter: out-of-order frame requests answered from one shared stream.

A request may fail anywhere: `healthy` says that none of its fetches and none of the denoiser's calls
does, and a call that is not healthy may fail or not.
 */
module Filter {
  import opened Schedule
  import opened Wrappers
  import opened Planner
  import opened Buffer
  import opened Requests
  import opened Host
  import opened Rendering

  /** `kept` with the indices from `first` up to `end` added. */
  ghost function Gained(kept: set<nat>, first: nat, end: nat): set<nat>
    decreases end
  {
    if end <= first then kept else Gained(kept, first, end - 1) + {end - 1}
  }

  lemma {:induction false} GainedIs(kept: set<nat>, first: nat, end: nat)
    ensures Gained(kept, first, end) == kept + Between(first, end)
    decreases end
  {
    if end <= first {
      assert Between(first, end) == {};
    } else {
      var last: nat := end - 1;
      GainedIs(kept, first, last);
      assert Gained(kept, first, end) == Gained(kept, first, last) + {last};
      assert Between(first, end) == Between(first, last) + {last};
      hide Between, Gained;
      AddLast(kept, Between(first, last), last, Between(first, end));
    }
  }

  lemma AddLast(kept: set<nat>, others: set<nat>, last: nat, all: set<nat>)
    requires all == others + {last}
    ensures kept + others + {last} == kept + all
  {
  }

  lemma {:induction false} GainedJoins(kept: set<nat>, first: nat, middle: nat, end: nat)
    requires first <= middle <= end
    ensures Gained(Gained(kept, first, middle), middle, end) == Gained(kept, first, end)
    decreases end
  {
    if middle < end { GainedJoins(kept, first, middle, end - 1); }
  }

  class Denoise {
    const geometry: StreamGeometry
    const outstanding: Outstanding
    const denoiser: HostDenoiser
    const planner: StreamPlanner
    const buffer: OutputBuffer<Rendered>
    /** What a render of the whole clip in frame order writes out. */
    ghost const reference: seq<Rendered>

    constructor (engine: EngineKind, lookback: nat, lastFrame: nat)
      ensures Valid() && Standing() == COLD
      ensures geometry == StreamGeometry(engine.Span(), lookback, MAX_PENDING, lastFrame)
      ensures outstanding.requests == map[]
      ensures fresh(outstanding) && fresh(denoiser) && fresh(planner) && fresh(buffer)
    {
      geometry := StreamGeometry(engine.Span(), lookback, MAX_PENDING, lastFrame);
      outstanding := new Outstanding();
      denoiser := new HostDenoiser(engine);
      planner := new StreamPlanner(StreamGeometry(engine.Span(), lookback, MAX_PENDING, lastFrame));
      buffer := new OutputBuffer<Rendered>();
      reference := Reference(engine, lastFrame);
    }

    ghost predicate Shaped()
      reads denoiser, buffer
    {
      && geometry.span == denoiser.engine.Span() && planner.geometry == geometry
      && reference == Reference(denoiser.engine, geometry.lastFrame)
      && denoiser.Valid() && Kept(buffer.frames)
    }

    /** Every output kept is the one a sequential render makes. */
    ghost predicate Kept(frames: map<nat, Rendered>) {
      forall n | n in frames :: n < |reference| && frames[n] == reference[n]
    }

    /** The stream the planner tracks is the one the denoiser runs: what is in flight is what was
    pushed and not received, and the next push hands over the next output. */
    ghost predicate InStep(next: nat, received: nat)
      reads denoiser, planner
    {
      && planner.stream == Live(next, received)
      && received <= next && geometry.StepDue(next)
      && !denoiser.poisoned && |reference| == geometry.lastFrame + 1
      && denoiser.pending == reference[received..next]
      && Follows(denoiser.engine, geometry.lastFrame, denoiser.stream.context, denoiser.history, next)
    }

    ghost predicate Valid()
      reads denoiser, planner, buffer, outstanding
    {
      && Shaped() && outstanding.Valid()
      && (planner.stream.Live? ==> InStep(planner.stream.nextStep, planner.stream.nextStep))
    }

    ghost function Standing(): Standing
      reads planner, buffer
    {
      Requests.Standing(planner.stream, buffer.frames.Keys)
    }

    /** Gives the source frame `source`, which request `n` must have asked for. */
    method Fetch(n: nat, source: nat, healthy: bool) returns (fetched: Option<nat>)
      requires geometry.InRequest(n, source)
      ensures healthy ==> fetched.Some?
      ensures fetched.Some? ==> fetched.value == source
    {
      var works := *;
      fetched := if healthy || works then Some(source) else None;
    }

    /** Buffers output `index`. */
    method Keep(index: nat, output: Rendered)
      requires Shaped() && index <= geometry.lastFrame
      requires output == reference[index]
      modifies buffer
      ensures Shaped() && buffer.frames.Keys == old(buffer.frames).Keys + {index}
    {
      buffer.Insert(index, output);
    }

    /** Receives one output under the index the planner gives. */
    method ReceiveOutput(index: nat, ghost next: nat, healthy: bool) returns (ok: bool)
      requires Shaped() && index < next <= geometry.lastFrame + 1
      requires !denoiser.poisoned
      requires denoiser.pending == reference[index..next]
      modifies denoiser`pending, denoiser`poisoned, buffer
      ensures Shaped()
      ensures healthy ==> ok
      ensures ok ==>
                && !denoiser.poisoned
                && denoiser.pending == reference[index + 1..next]
                && buffer.frames.Keys == old(buffer.frames).Keys + {index}
    {
      var received := denoiser.Recv(healthy);
      if received.Failed? {
        return false;
      }
      assert received.value.Some?;
      Keep(index, received.value.value);
      ok := true;
    }

    /** Receives the oldest output in flight into the buffer. */
    method ReceiveOne(ghost next: nat, ghost received: nat, healthy: bool) returns (ok: bool)
      requires Shaped() && InStep(next, received) && received < next
      modifies denoiser`pending, denoiser`poisoned, buffer, planner
      ensures Shaped()
      ensures healthy ==> ok
      ensures ok ==> InStep(next, received + 1) && buffer.frames.Keys == old(buffer.frames).Keys + {received}
    {
      var index := planner.Received();
      assert index == Some(received);
      ok := ReceiveOutput(index.value, next, healthy);
    }

    /** Receives every output in flight into the buffer. */
    method ReceiveAll(healthy: bool) returns (ok: bool)
      requires Shaped() && (planner.stream.Live? ==> InStep(planner.stream.nextStep, planner.stream.nextOutput))
      modifies denoiser`pending, denoiser`poisoned, buffer, planner
      ensures Shaped() == true
      ensures healthy ==> ok
      ensures ok && old(planner.stream).Dead? ==> planner.stream == Dead && buffer.frames == old(buffer.frames)
      ensures ok && old(planner.stream).Live? ==>
                var next := old(planner.stream).nextStep;
                && InStep(next, next)
                && buffer.frames.Keys == Gained(old(buffer.frames).Keys, old(planner.stream).nextOutput, next)
    {
      if planner.stream.Dead? {
        return true;
      }
      var received, next := planner.stream.nextOutput, planner.stream.nextStep;
      ghost var first, kept := received, buffer.frames.Keys;
      while received < next
        invariant Shaped() && InStep(next, received) && first <= received
        invariant buffer.frames.Keys == Gained(kept, first, received)
      {
        ok := ReceiveOne(next, received, healthy);
        if !ok {
          return;
        }
        received := received + 1;
      }
      ok := true;
    }

    /** Pushes one frame that the next step pushes. */
    method PushNext(source: nat, ghost next: nat, ghost received: nat, healthy: bool)
      returns (r: Outcome<()>)
      requires Shaped() && InStep(next, received) && next <= geometry.lastFrame
      requires geometry.StepOf(next) == Push(source)
      modifies denoiser, planner
      ensures Shaped()
      ensures next - received >= MAX_PENDING ==> r == Failed(QueueFull) && InStep(next, received)
      ensures next - received < MAX_PENDING ==> r != Failed(QueueFull)
      ensures next - received < MAX_PENDING && healthy ==> r.Done?
      ensures r.Done? ==> InStep(next + 1, received)
    {
      hide Completed, Follows, Reference;
      r := denoiser.Push(source, healthy);
      if r.Done? {
        PushFollows(geometry, denoiser.engine, denoiser.stream.context, old(denoiser.history), next, source);
        planner.Pushed();
      }
    }

    /** Gets a push through: the denoiser refuses it at most once, and then has an output to give. */
    method PushWithDrain(source: nat, ghost next: nat, ghost received: nat, healthy: bool) returns (ok: bool)
      requires Shaped() && InStep(next, received) && next <= geometry.lastFrame
      requires geometry.StepOf(next) == Push(source)
      modifies denoiser, buffer, planner
      ensures Shaped() == true
      ensures healthy ==> ok
      ensures ok ==>
                && planner.stream.Live? && received <= planner.stream.nextOutput <= received + 1
                && InStep(next + 1, planner.stream.nextOutput)
                && buffer.frames.Keys == Gained(old(buffer.frames).Keys, received, planner.stream.nextOutput)
    {
      var pushed := PushNext(source, next, received, healthy);
      if pushed == Failed(QueueFull) {
        ok := ReceiveOne(next, received, healthy);
        if !ok {
          return;
        }
        pushed := PushNext(source, next, received + 1, healthy);
      }
      ok := pushed.Done?;
    }

    /** Buffers every output from `received` to the clip's last, after which no stream is left. */
    method FlushIntoBuffer(ghost next: nat, ghost received: nat, healthy: bool) returns (ok: bool)
      requires Shaped() && InStep(next, received) && geometry.StepOf(next) == Flush
      modifies denoiser, buffer, planner
      ensures Shaped() == true
      ensures healthy ==> ok
      ensures ok ==>
                && planner.stream == Dead
                && buffer.frames.Keys == Gained(old(buffer.frames).Keys, received, geometry.lastFrame + 1)
    {
      hide Follows, Gained, Reference;
      var flushed := FlushStream(next, received, healthy);
      if flushed.Failed? {
        return false;
      }
      var first, end := planner.Flushed();
      // The flush hands over exactly the outputs the planner was still owed.
      assert |flushed.value| == end - first;
      BufferAll(first, flushed.value);
      ok := true;
    }

    /** Flushes the denoiser, which hands over every output from `received` on. */
    method FlushStream(ghost next: nat, ghost received: nat, healthy: bool) returns (r: Outcome<seq<Rendered>>)
      requires Shaped() && InStep(next, received) && geometry.StepOf(next) == Flush
      modifies denoiser
      ensures Shaped() == true
      ensures healthy ==> r.Done?
      ensures r.Done? ==> r.value == reference[received..geometry.lastFrame + 1]
    {
      hide Follows, Reference;
      FlushFollows(denoiser.engine.shape, denoiser.stream.context, denoiser.history, next, geometry.lastFrame);
      r := denoiser.Flush(healthy);
    }

    /** Buffers a run of outputs under consecutive indices. */
    method BufferAll(first: nat, outputs: seq<Rendered>)
      requires Shaped() && first + |outputs| <= geometry.lastFrame + 1
      requires outputs == reference[first..first + |outputs|]
      modifies buffer
      ensures Shaped() == true && buffer.frames.Keys == Gained(old(buffer.frames).Keys, first, first + |outputs|)
    {
      ghost var kept := buffer.frames.Keys;
      for index := first to first + |outputs|
        invariant Shaped() && buffer.frames.Keys == Gained(kept, first, index)
      {
        Keep(index, outputs[index - first]);
      }
    }

    /** The steps up to `to` have run, and the outputs from `first` on that were received are kept
    beside `kept`. */
    ghost predicate Ran(to: nat, first: nat, kept: set<nat>)
      reads denoiser, planner, buffer
    {
      && Shaped()
      && (if Flushes(geometry, to)
          then planner.stream == Dead && buffer.frames.Keys == Gained(kept, first, geometry.lastFrame + 1)
          else planner.stream.Live? && InStep(to, planner.stream.nextOutput)
               && first <= planner.stream.nextOutput
               && buffer.frames.Keys == Gained(kept, first, planner.stream.nextOutput))
    }

    /** Whether steps up to `to` may be run: none comes after the one that ends the clip. */
    predicate StepsEnd(to: nat) {
      && to <= geometry.lastFrame + 1
      && (geometry.span.edges == EdgePadding.Shifted ==> to + geometry.span.ahead <= geometry.lastFrame + 2)
    }

    /** Whether request `n` asked for every source that steps from `from` up to `to` push. */
    predicate StepsInRequest(n: nat, from: nat, to: nat) {
      forall step | from <= step < to && geometry.StepOf(step).Push? ::
        geometry.InRequest(n, geometry.StepOf(step).source)
    }

    lemma StepIsInRequest(n: nat, from: nat, to: nat, step: nat)
      requires StepsInRequest(n, from, to) && from <= step < to
      ensures StepsInRequest(n, step, step + 1)
    {
    }

    /** Takes a stream that has run the steps before `step` one step further. */
    method RunStep(n: nat, step: nat, ghost first: nat, ghost kept: set<nat>, healthy: bool) returns (ok: bool)
      requires Ran(step, first, kept) && StepsEnd(step + 1)
      requires StepsInRequest(n, step, step + 1)
      modifies denoiser, buffer, planner
      ensures Shaped() == true
      ensures healthy ==> ok
      ensures ok ==> Ran(step + 1, first, kept)
    {
      hide Follows, Reference;
      ghost var received := planner.stream.nextOutput;
      match geometry.StepOf(step) {
        case Push(source) =>
          var fetched := Fetch(n, source, healthy);
          if fetched.None? {
            return false;
          }
          ok := PushWithDrain(fetched.value, step, received, healthy);
          if ok {
            GainedJoins(kept, first, received, planner.stream.nextOutput);
          }
        case Flush =>
          ok := FlushIntoBuffer(step, received, healthy);
          GainedJoins(kept, first, received, geometry.lastFrame + 1);
      }
    }

    /** Takes a stream that has run the steps before `from` to one that has run those before `to`. */
    method RunSteps(n: nat, from: nat, to: nat, ghost first: nat, ghost kept: set<nat>, healthy: bool)
      returns (ok: bool)
      requires Ran(from, first, kept) && from <= to && StepsEnd(to)
      requires StepsInRequest(n, from, to)
      modifies denoiser, buffer, planner
      ensures Shaped() == true
      ensures healthy ==> ok
      ensures ok ==> Ran(to, first, kept) == true
    {
      for step := from to to
        invariant Ran(step, first, kept) == true
      {
        StepIsInRequest(n, from, to, step);
        ok := RunStep(n, step, first, kept, healthy);
        if !ok {
          return;
        }
      }
      ok := true;
    }

    /** The stream has produced output `start`, buffered with any clip-end tail. */
    ghost predicate Rebuilt(start: nat, kept: set<nat>)
      reads denoiser, planner, buffer
    {
      && Shaped()
      && buffer.frames.Keys == Gained(kept, start, RebuildEnd(geometry, start))
      && (if geometry.ReseedEndsStream(start) then planner.stream == Dead else InStep(start + 1, start + 1))
    }

    /** Whether request `n` asked for every source a rebuild at `start` pushes. */
    predicate RebuildInRequest(n: nat, start: nat) {
      forall source | Minus(start, geometry.span.behind) <= source
                      <= Min(start + geometry.span.ahead, geometry.lastFrame) ::
        geometry.InRequest(n, source)
    }

    /** Buffers output `start`, and all later ones if the rebuild ends the clip, from a new stream. */
    method ReseedAt(n: nat, start: nat, healthy: bool) returns (ok: bool)
      requires Shaped() && start <= geometry.lastFrame && RebuildInRequest(n, start)
      modifies denoiser, buffer, planner
      ensures Shaped() == true
      ensures healthy ==> ok
      ensures ok ==> Rebuilt(start, old(buffer.frames).Keys)
    {
      if geometry.span.edges == Repeat {
        ok := ReseedRepeated(n, start, healthy);
      } else {
        ok := ReseedShifted(n, start, healthy);
      }
    }

    method ReseedRepeated(n: nat, start: nat, healthy: bool) returns (ok: bool)
      requires Shaped() && start <= geometry.lastFrame && RebuildInRequest(n, start)
      requires denoiser.engine.Windowed?
      modifies denoiser, buffer, planner
      ensures Shaped()
      ensures healthy ==> ok
      ensures ok ==> Rebuilt(start, old(buffer.frames).Keys)
    {
      var span := geometry.span;
      var indices := WindowIndices(start, span.behind, span.ahead, geometry.lastFrame);
      var window := FetchAll(n, indices, healthy);
      if window.None? {
        return false;
      }
      var rendered := denoiser.Reseed(window.value, healthy);
      if rendered.Failed? {
        return false;
      }
      WindowedReseed(span.behind, span.ahead, geometry.lastFrame, start);
      KeepRebuilt(start, [rendered.value]);
      ok := true;
    }

    method ReseedShifted(n: nat, start: nat, healthy: bool) returns (ok: bool)
      requires Shaped() && start <= geometry.lastFrame && RebuildInRequest(n, start)
      requires denoiser.engine.Scattering?
      modifies denoiser, buffer, planner
      ensures Shaped() == true
      ensures healthy ==> ok
      ensures ok ==> Rebuilt(start, old(buffer.frames).Keys)
    {
      ReseedEndsAtClipEnd(geometry, start);
      var request := WindowAt(geometry, start);
      var window := FetchAll(n, request.frames, healthy);
      if window.None? {
        return false;
      }
      var outputs := RebuildFrom(start, window.value, healthy);
      if outputs.Failed? {
        return false;
      }
      KeepRebuilt(start, outputs.value);
      ok := true;
    }

    /** Buffers what a rebuild handed over, and tells the planner where the stream now stands. */
    method KeepRebuilt(start: nat, outputs: seq<Rendered>)
      requires Shaped() && start <= geometry.lastFrame && RebuildRan(start, outputs)
      modifies buffer, planner
      ensures Rebuilt(start, old(buffer.frames).Keys)
    {
      BufferAll(start, outputs);
      planner.Reseeded(start);
    }

    /** The denoiser handed over `outputs` as it rebuilt its stream at `start`. */
    ghost predicate RebuildRan(start: nat, outputs: seq<Rendered>)
      requires start <= geometry.lastFrame
      reads denoiser
    {
      && |reference| == geometry.lastFrame + 1
      && outputs == reference[start..RebuildEnd(geometry, start)]
      && (!geometry.ReseedEndsStream(start) ==>
            !denoiser.poisoned && denoiser.pending == []
            && Follows(denoiser.engine, geometry.lastFrame, denoiser.stream.context,
                       denoiser.history, start + 1))
    }

    /** Runs the denoiser over a rebuild's window. */
    method RebuildFrom(start: nat, window: seq<nat>, healthy: bool) returns (r: Outcome<seq<Rendered>>)
      requires Shaped() && start <= geometry.lastFrame && denoiser.engine.Scattering?
      requires window == WindowAt(geometry, start).frames
      modifies denoiser
      ensures Shaped()
      ensures healthy ==> r.Done?
      ensures r.Done? ==> RebuildRan(start, r.value)
    {
      ReseedEndsAtClipEnd(geometry, start);
      var request := WindowAt(geometry, start);
      ScatteringRebuild(geometry, denoiser.engine.shape, start);
      r := denoiser.RunReseedWindow(request.(frames := window), healthy);
    }

    method FetchAll(n: nat, indices: seq<nat>, healthy: bool) returns (window: Option<seq<nat>>)
      requires forall source | source in indices :: geometry.InRequest(n, source)
      ensures healthy ==> window.Some?
      ensures window.Some? ==> window.value == indices
    {
      var frames := [];
      for i := 0 to |indices|
        invariant frames == indices[..i]
      {
        var fetched := Fetch(n, indices[i], healthy);
        if fetched.None? {
          return None;
        }
        frames := frames + [fetched.value];
      }
      window := Some(frames);
    }

    /** Runs the plan for output `n`, leaving what it handed over in flight or buffered. */
    method RunPlan(n: nat, plan: Plan, healthy: bool) returns (ok: bool)
      requires Valid() && n <= geometry.lastFrame
      requires plan == geometry.PlanFor(planner.stream, n, n in buffer.frames, outstanding.requests)
      modifies denoiser, planner, buffer
      ensures Shaped() == true
      ensures healthy ==> ok
      ensures ok ==> Handed(plan, old(planner.stream), old(buffer.frames).Keys)
    {
      hide Follows, Reference, StreamGeometry.InRequest;
      match plan {
        case Serve =>
          ok := true;
        case Advance(from, to) =>
          PlanStaysInRequest(geometry, planner.stream, n, outstanding.requests);
          ok := RunSteps(n, from, to, from, buffer.frames.Keys, healthy);
        case Reseed(start, from, to) =>
          ghost var kept := buffer.frames.Keys;
          PlanStaysInRequest(geometry, planner.stream, n, outstanding.requests);
          ok := ReseedAt(n, start, healthy);
          if ok && !geometry.ReseedEndsStream(start) {
            ok := RunSteps(n, from, to, start, kept, healthy);
          }
      }
    }

    /** What a plan handed over is buffered beside `kept`, or in flight. */
    ghost predicate Handed(plan: Plan, stream: StreamState, kept: set<nat>)
      reads denoiser, planner, buffer
    {
      && Shaped()
      && match plan
         case Serve => planner.stream == stream && buffer.frames.Keys == kept
                       && (stream.Live? ==> InStep(stream.nextStep, stream.nextStep))
         case Advance(from, to) => Ran(to, from, kept)
         case Reseed(start, _, to) =>
           if geometry.ReseedEndsStream(start) then Rebuilt(start, kept) else Ran(to, start, kept)
    }

    /** Receives what a plan left in flight. */
    method CollectPlan(ghost plan: Plan, ghost stream: StreamState, ghost kept: set<nat>, healthy: bool)
      returns (ok: bool)
      requires Handed(plan, stream, kept)
      modifies denoiser`pending, denoiser`poisoned, planner, buffer
      ensures Shaped() == true
      ensures healthy ==> ok
      ensures ok ==> Standing() == Requests.Standing(StreamAfter(geometry, stream, plan),
                                                     kept + OutputsOf(geometry, plan))
      ensures ok && planner.stream.Live? ==> InStep(planner.stream.nextStep, planner.stream.nextStep)
    {
      ghost var before := planner.stream;
      GainedIs(kept, OutputFirst(plan), OutputEnd(geometry, plan));
      ok := ReceiveAll(healthy);
      if ok && before.Live? && !plan.Serve? {
        GainedJoins(kept, OutputFirst(plan), before.nextOutput, before.nextStep);
      }
    }

    method RenderLocked(n: nat, healthy: bool) returns (r: Option<Rendered>)
      requires Valid() && n <= geometry.lastFrame
      modifies denoiser, planner, buffer
      ensures Shaped() == true
      ensures healthy ==> r.Some?
      ensures r.Some? ==>
                && Valid() && r.value == reference[n]
                && Standing() == Answer(geometry, old(Standing()), n, outstanding.requests)
                && |buffer.frames| <= geometry.BufferCapacity()
    {
      hide Follows, KeepHighest, OutputsOf, Reference;
      var buffered := buffer.Contains(n);
      var plan := planner.PlanRequest(n, buffered, outstanding);
      EveryRequestIsServed(geometry, Standing(), n, outstanding.requests);
      var ok := RunPlan(n, plan, healthy);
      if !ok {
        return None;
      }
      ok := CollectPlan(plan, old(planner.stream), old(buffer.frames).Keys, healthy);
      if !ok {
        return None;
      }
      r := TakeOutput(n);
    }

    /** Takes output `n` from the buffer and drops what the buffer has no room for. */
    method TakeOutput(n: nat) returns (r: Option<Rendered>)
      requires Shaped() && n in buffer.frames
      modifies buffer
      ensures Shaped()
      ensures r == Some(old(buffer.frames)[n])
      ensures buffer.frames.Keys == KeepHighest(old(buffer.frames).Keys - {n}, geometry.BufferCapacity())
      ensures |buffer.frames| <= geometry.BufferCapacity()
    {
      r := buffer.Take(n);
      ghost var left := old(buffer.frames).Keys - {n};
      assert buffer.frames.Keys == left;
      KeepsHighest(left, geometry.BufferCapacity());
      buffer.EvictTo(geometry.BufferCapacity());
      assert |buffer.frames| == |buffer.frames.Keys|;
    }

    /** Gives output `n` exactly as the reference has it. A failure gives nothing and leaves no stream
    for the planner to count on. */
    method Render(n: nat, healthy: bool) returns (r: Option<Rendered>)
      requires Valid() && n <= geometry.lastFrame
      modifies denoiser, planner, buffer
      ensures Valid()
      ensures healthy ==> r.Some?
      ensures r.None? ==> planner.stream == Dead
      ensures r.Some? ==>
                && r.value == reference[n]
                && Standing() == Answer(geometry, old(Standing()), n, outstanding.requests)
                && |buffer.frames| <= geometry.BufferCapacity()
    {
      r := RenderLocked(n, healthy);
      if r.None? {
        planner.Kill();
      }
    }

    /** Counts one more request for output `n`. The range it gives is of exactly the clip's sources that a
    plan for `n` may fetch. */
    method GetFrameInitial(n: nat) returns (first: nat, last: nat)
      requires Valid()
      modifies outstanding
      ensures Valid() && outstanding.Count(n) == old(outstanding.Count(n)) + 1
      ensures forall m: nat | m != n :: outstanding.Count(m) == old(outstanding.Count(m))
      ensures forall source: nat :: geometry.InRequest(n, source) <==> first <= source <= last
      ensures last <= geometry.lastFrame
      ensures forall source: nat :: geometry.InRequest(n, source) <==>
                && source <= geometry.lastFrame && source <= n + geometry.span.ahead + geometry.lead
                && n <= source + geometry.span.behind + geometry.lookback
    {
      outstanding.Register(n);
      first, last := geometry.RequestFirst(n), geometry.RequestLast(n);
    }

    /** What is outstanding is what `events` left open. */
    ghost predicate Counts(events: seq<Event>)
      reads outstanding
    {
      CountsOpen(outstanding.requests, events)
    }

    /** A request comes in. */
    method AskNext(n: nat, ghost events: seq<Event>)
      requires Valid() && Counts(events)
      modifies outstanding
      ensures Valid() && Counts(events + [Ask(n)])
    {
      ghost var before := outstanding.requests;
      var _, _ := GetFrameInitial(n);
      forall m: nat
        ensures CountIn(outstanding.requests, m) == CountIn(before, m) + if Ask(n) == Ask(m) then 1 else 0
      {
        assert outstanding.Count(m) == old(outstanding.Count(m)) + if m == n then 1 else 0;
      }
      CountsNext(before, outstanding.requests, events, Ask(n));
    }

    /** A served request stops being outstanding. */
    method CloseNext(n: nat, ghost events: seq<Event>)
      requires Valid() && Counts(events) && Open(events, n) > 0
      modifies outstanding
      ensures Valid() && Counts(events + [Close(n)])
    {
      ghost var before := outstanding.requests;
      assert outstanding.Count(n) == Open(events, n);
      outstanding.Finish(n);
      forall m: nat
        ensures CountIn(outstanding.requests, m) == CountIn(before, m) - if Close(n) == Close(m) then 1 else 0
      {
        assert outstanding.Count(m) == old(outstanding.Count(m)) - if m == n then 1 else 0;
      }
      CountsNext(before, outstanding.requests, events, Close(n));
    }

    /** A request is served, whatever others are outstanding by then, or fails. */
    method GiveNext(n: nat, healthy: bool, ghost events: seq<Event>)
      returns (frame: Option<Rendered>, ghost request: Request)
      requires Valid() && Counts(events) && n <= geometry.lastFrame
      modifies denoiser, planner, buffer
      ensures Valid() == true && Counts(events + [Give(n, healthy)])
      ensures request == Request(n, outstanding.requests)
      ensures healthy ==> frame.Some?
      ensures frame.Some? ==>
                && Standing() == Answer(geometry, old(Standing()), request.n, request.outstanding)
                && n < |reference| && frame.value == reference[n]
    {
      request := Request(n, outstanding.requests);
      CountsNext(outstanding.requests, outstanding.requests, events, Give(n, healthy));
      frame := Render(n, healthy);
    }

    /** Each attempt of `events` gave the output a sequential render makes, or failed, which a healthy one
    does not. */
    ghost predicate Gave(events: seq<Event>, frames: seq<Option<Rendered>>) {
      if events == [] then frames == []
      else
        var before := events[..|events| - 1];
        match events[|events| - 1]
        case Give(n, healthy) =>
          && frames != [] && Gave(before, frames[..|frames| - 1])
          && var frame := frames[|frames| - 1];
             && (healthy ==> frame.Some?)
             && (frame.Some? ==> n < |reference| && frame.value == reference[n])
        case _ => Gave(before, frames)
    }

    lemma GaveNext(events: seq<Event>, event: Event, frames: seq<Option<Rendered>>, frame: Option<Rendered>)
      requires Gave(events, frames)
      requires event.Give? ==>
                 && (event.healthy ==> frame.Some?)
                 && (frame.Some? ==> event.n < |reference| && frame.value == reference[event.n])
      ensures Gave(events + [event], if event.Give? then frames + [frame] else frames)
    {
      assert (events + [event])[..|events|] == events;
      assert (frames + [frame])[..|frames|] == frames;
    }

    predicate AllGiven(frames: seq<Option<Rendered>>) { forall i | 0 <= i < |frames| :: frames[i].Some? }

    /** When no attempt may fail, every one gives its output. */
    lemma {:induction false} HealthyIsGiven(events: seq<Event>, frames: seq<Option<Rendered>>)
      requires Gave(events, frames)
      requires forall i | 0 <= i < |events| :: events[i].Give? ==> events[i].healthy
      ensures AllGiven(frames)
    {
      if events != [] {
        var before := events[..|events| - 1];
        if events[|events| - 1].Give? {
          HealthyIsGiven(before, frames[..|frames| - 1]);
        } else {
          HealthyIsGiven(before, frames);
        }
      }
    }

    /** The events so far have run, and `requests` records those served. As long as none failed, the filter
    stands where the requests alone say. */
    ghost predicate Reached(events: seq<Event>, requests: seq<Request>, frames: seq<Option<Rendered>>)
      reads denoiser, planner, buffer, outstanding
    {
      && Valid() && Counts(events) && Recorded(events, requests) && Gave(events, frames)
      && (AllGiven(frames) ==> Standing() == AnswerAll(geometry, requests))
    }

    lemma Begun()
      requires Valid() && Standing() == COLD && outstanding.requests == map[]
      ensures Reached([], [], []) && Interleaved(geometry, [])
    {
    }

    lemma ReachedInOrder(events: seq<Event>, requests: seq<Request>, frames: seq<Option<Rendered>>)
      requires Reached(events, requests, frames) && AllGiven(frames)
      requires requests != [] && BoundedOrder(geometry, requests)
      ensures InOrder(geometry, Standing(), Plans(geometry, requests), Served(requests))
    {
      var _ := BoundedOrderIsSequential(geometry, requests);
    }

    method RunNext(event: Event, ghost events: seq<Event>, frames: seq<Option<Rendered>>,
                   ghost requests: seq<Request>)
      returns (laterFrames: seq<Option<Rendered>>, ghost laterRequests: seq<Request>)
      requires Reached(events, requests, frames)
      requires Interleaved(geometry, events) && MayFollow(geometry, events, event)
      modifies denoiser, planner, buffer, outstanding
      ensures Reached(events + [event], laterRequests, laterFrames) == true
    {
      hide Answer, Interleaved;
      laterFrames, laterRequests := frames, requests;
      match event {
        case Ask(n) =>
          AskNext(n, events);
          RecordedNext(events, event, requests, Request(n, map[]));
          GaveNext(events, event, frames, None);
        case Close(n) =>
          EachInTurn(geometry, events, n);
          CloseNext(n, events);
          RecordedNext(events, event, requests, Request(n, map[]));
          GaveNext(events, event, frames, None);
        case Give(n, healthy) =>
          var frame, request := GiveNext(n, healthy, events);
          AnswerNext(geometry, requests, request);
          GaveNext(events, event, frames, frame);
          RecordedNext(events, event, requests, request);
          AllGivenNext(frames, frame);
          laterFrames, laterRequests := frames + [frame], requests + [request];
      }
    }

    lemma AllGivenNext(frames: seq<Option<Rendered>>, frame: Option<Rendered>)
      ensures AllGiven(frames + [frame]) <==> AllGiven(frames) && frame.Some?
    {
      if AllGiven(frames + [frame]) {
        assert (frames + [frame])[|frames|].Some?;
        assert forall i | 0 <= i < |frames| :: (frames + [frame])[i] == frames[i];
      }
    }

    /** Runs any number of requests in any interleaving, of which any may fail: every frame given is the
    output a sequential render makes. When none fails and they keep within the lookback, the stream is
    rebuilt once, at the clip's start, and takes each step once, in order. */
    method RunEvents(events: seq<Event>) returns (frames: seq<Option<Rendered>>, ghost requests: seq<Request>)
      requires Valid() && Standing() == COLD && outstanding.requests == map[]
      requires Interleaved(geometry, events)
      modifies denoiser, planner, buffer, outstanding
      ensures Reached(events, requests, frames) == true
      ensures (forall i | 0 <= i < |events| :: events[i].Give? ==> events[i].healthy) ==> AllGiven(frames)
      ensures AllGiven(frames) && requests != [] && BoundedOrder(geometry, requests) ==>
                InOrder(geometry, Standing(), Plans(geometry, requests), Served(requests))
    {
      hide AllGiven, BoundedOrder, InOrder, Interleaved, MayFollow, Reached;
      frames, requests := [], [];
      Begun();
      for i := 0 to |events|
        invariant Reached(events[..i], requests, frames) && Interleaved(geometry, events[..i])
      {
        assert events[..i + 1] == events[..i] + [events[i]];
        LeadingEvents(geometry, events, i + 1);
        frames, requests := RunNext(events[i], events[..i], frames, requests);
      }
      assert events[..|events|] == events;
      ReachedGave(events, requests, frames);
      if forall i | 0 <= i < |events| :: events[i].Give? ==> events[i].healthy {
        HealthyIsGiven(events, frames);
      }
      if AllGiven(frames) && requests != [] && BoundedOrder(geometry, requests) {
        ReachedInOrder(events, requests, frames);
      }
    }

    lemma ReachedGave(events: seq<Event>, requests: seq<Request>, frames: seq<Option<Rendered>>)
      requires Reached(events, requests, frames)
      ensures Gave(events, frames)
    {
    }
  }
}
