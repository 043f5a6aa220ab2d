/** A denoiser that takes frames as wire bytes and keeps a few readbacks in flight.

What an output holds is what it was computed from: its own source frame, and for each pass that
filtered it the source frame in the middle and every source frame the pass read.
 */
module Host {
  import opened Schedule
  import opened Wrappers
  import opened Planner
  import Protocol

  /** How many readbacks are kept in flight at once. */
  const MAX_PENDING: nat := 2

  /** How many output frames the readbacks rotate through. */
  const OUTPUT_SETS: nat := 2

  /** The engine behind the denoiser: one that filters each frame from the window around it, or one
  whose passes scatter into every frame they reach. */
  datatype EngineKind = Windowed(behind: nat, ahead: nat) | Scattering(shape: Shape)
  {
    /** The frames needed around a target to denoise it. */
    function Span(): WindowSpan {
      match this
      case Windowed(behind, ahead) => WindowSpan(behind, ahead, Repeat)
      case Scattering(shape) => WindowSpan(HeldSpan(shape), HeldSpan(shape), EdgePadding.Shifted)
    }
  }

  datatype HostError = QueueFull | Poisoned | EngineFailed(error: Protocol.Error) | Other

  datatype Outcome<+T> = Done(value: T) | Failed(error: HostError)

  /** Errors after which only a reset helps. The others refuse a call and change nothing. */
  predicate PoisonsStream(error: HostError) {
    !(error.QueueFull? || error.Poisoned?
      || (error.EngineFailed? && error.error == Protocol.ContextAfterPush))
  }

  /** One pass: the source frame it was centred on, and the source frames it read, oldest first. */
  datatype Pass = Pass(centre: nat, window: seq<nat>)

  /** An output: the source frame it denoises, and the passes it was computed from. */
  datatype Rendered = Rendered(source: nat, passes: seq<Pass>)

  predicate InHistory(o: Output, pushes: nat) {
    o.frame < pushes && o.first <= o.end <= pushes && o.newest <= pushes
  }

  /** The passes a scattering stream that has taken `history` runs on the centres from `first` up to
  `end`, with `newest` frames there to be read. */
  function Passes(g: Shape, history: seq<nat>, newest: nat, first: nat, end: nat): seq<Pass>
    requires end <= |history|
    decreases end
  {
    if end <= first then []
    else Passes(g, history, newest, first, end - 1) + [PassAt(g, history, newest, end - 1)]
  }

  function PassAt(g: Shape, history: seq<nat>, newest: nat, centre: nat): Pass
    requires centre < |history|
  {
    Pass(history[centre], Window(g, history, PassTaken(g, newest, centre)))
  }

  /** What an engine that has taken `history` writes out for `o`. */
  function Render(engine: EngineKind, history: seq<nat>, o: Output): Rendered
    requires InHistory(o, |history|)
  {
    Rendered(history[o.frame],
             match engine
             case Windowed(_, _) => [Pass(history[o.frame], history[o.first..o.end])]
             case Scattering(g) => Passes(g, history, o.newest, o.first, o.end))
  }

  /** Passes read nothing pushed after the newest frame they read. */
  lemma {:induction false} PassesAreFinal(g: Shape, whole: seq<nat>, pushes: nat, newest: nat, first: nat, end: nat)
    requires end <= pushes <= |whole| && newest <= pushes
    ensures Passes(g, whole[..pushes], newest, first, end) == Passes(g, whole, newest, first, end)
    decreases end
  {
    if first < end {
      var taken := PassTaken(g, newest, end - 1);
      assert Window(g, whole[..pushes], taken) == Window(g, whole, taken);
      hide PassTaken, Window;
      PassesAreFinal(g, whole, pushes, newest, first, end - 1);
    }
  }

  /** Whether the push that makes a stream `pushes` long completes a frame. */
  predicate Completes(engine: EngineKind, context: nat, pushes: nat) {
    match engine
    case Windowed(behind, ahead) => behind + 1 + ahead <= pushes
    case Scattering(g) => FirstReady(g, context) <= Taken(g, pushes)
  }

  /** The output of the frame that push completes. */
  function OutputAt(engine: EngineKind, context: nat, pushes: nat): (o: Output)
    requires Completes(engine, context, pushes)
    ensures InHistory(o, pushes)
  {
    match engine
    case Windowed(behind, ahead) =>
      Output(pushes - 1 - ahead, pushes - (behind + 1 + ahead), pushes, pushes)
    case Scattering(g) => Expected(g, context, pushes, pushes - 1 - HeldSpan(g))
  }

  /** The frame, if any, that the push of `history`'s last frame completes. */
  ghost function Completed(engine: EngineKind, context: nat, history: seq<nat>): seq<Rendered> {
    if Completes(engine, context, |history|)
    then [Render(engine, history, OutputAt(engine, context, |history|))] else []
  }

  /** The frames that the pushes after the first `from` complete, in order. */
  ghost function Received(engine: EngineKind, context: nat, history: seq<nat>, from: nat): seq<Rendered> {
    if |history| <= from then []
    else Received(engine, context, history[..|history| - 1], from) + Completed(engine, context, history)
  }

  /** The last output handed over is the one the last push completed. */
  lemma LastReceived(engine: EngineKind, context: nat, history: seq<nat>, from: nat)
    requires from < |history| && Completes(engine, context, |history|)
    ensures var received := Received(engine, context, history, from);
            |received| > 0 && received[|received| - 1..] == Completed(engine, context, history)
  {
  }

  /** The stream an engine is in between calls, with every completed frame written out. */
  function Idle(engine: EngineKind, context: nat, pushes: nat): Protocol.Stream {
    Protocol.Stream(context, pushes,
                    if engine.Windowed? then 0 else CompletedBy(engine.shape, context, Taken(engine.shape, pushes)),
                    false)
  }

  /** Every output a finished stream writes out from frame `first` on. */
  ghost function Tail(g: Shape, context: nat, history: seq<nat>, first: nat): (outputs: seq<Rendered>)
    requires context <= |history| && FirstOutput(g, context, |history|) <= first <= |history|
    ensures |outputs| == |history| - first
  {
    seq(|history| - first,
        i requires 0 <= i < |history| - first =>
          TailIsInHistory(g, context, |history|, first + i);
          Render(Scattering(g), history, Expected(g, context, |history|, first + i)))
  }

  lemma TailIsInHistory(g: Shape, context: nat, pushes: nat, frame: nat)
    requires context <= pushes && FirstOutput(g, context, pushes) <= frame < pushes
    ensures InHistory(Expected(g, context, pushes, frame), pushes)
  {
  }

  /** A push readies a frame exactly when it completes one, and emitting that frame leaves nothing
  waiting. */
  lemma PushThenEmit(g: Shape, context: nat, pushes: nat)
    requires context <= pushes
    ensures var e := Scattering(g);
            var pushed := Protocol.Push(g, Idle(e, context, pushes));
            var next := Idle(e, context, pushes + 1);
            && pushed.Ok?
            && (if Completes(e, context, pushes + 1)
                then pushed.value.1 == 1 && Protocol.Waiting(g, pushed.value.0) == 1
                     && Protocol.Emit(g, pushed.value.0) == Protocol.Ok((next, OutputAt(e, context, pushes + 1)))
                else pushed.value == (next, 0))
  {
  }

  /** The frame the next emit writes out. */
  function NextFrame(g: Shape, context: nat, pushes: nat): (frame: nat)
    requires context <= pushes
    ensures FirstOutput(g, context, pushes) <= frame <= pushes
  {
    Protocol.NextFrame(g, Idle(Scattering(g), context, pushes))
  }

  /** A stream of `pushes` frames that is ending and writes out `frame` next. */
  function Finishing(g: Shape, context: nat, pushes: nat, frame: nat): Protocol.Stream
    requires FirstOutput(g, context, pushes) <= frame
  {
    Protocol.Stream(context, pushes, frame - FirstOutput(g, context, pushes), true)
  }

  lemma FinishOwes(g: Shape, context: nat, pushes: nat)
    requires context <= pushes
    ensures var next := NextFrame(g, context, pushes);
            Protocol.Finish(g, Idle(Scattering(g), context, pushes))
            == Protocol.Ok((if next == pushes then Protocol.FRESH else Finishing(g, context, pushes, next),
                            pushes - next))
  {
  }

  lemma EmitFinishing(g: Shape, context: nat, pushes: nat, frame: nat)
    requires context <= pushes && FirstOutput(g, context, pushes) <= frame < pushes
    ensures Protocol.Emit(g, Finishing(g, context, pushes, frame))
            == Protocol.Ok((if frame + 1 == pushes then Protocol.FRESH
                            else Finishing(g, context, pushes, frame + 1),
                            Expected(g, context, pushes, frame)))
  {
  }

  /** How many frames a stream has completed, one push further on, and which one that was. */
  lemma CompletesOne(g: Shape, context: nat, pushes: nat)
    requires 0 < pushes
    ensures var before := CompletedBy(g, context, Taken(g, pushes - 1));
            if Completes(Scattering(g), context, pushes)
            then CompletedBy(g, context, Taken(g, pushes)) == before + 1
                 && FirstReady(g, context) <= pushes
                 && pushes - 1 - HeldSpan(g) == FirstReady(g, context) - RingSlots(g) + before
            else CompletedBy(g, context, Taken(g, pushes)) == before == 0
  {
  }

  lemma RenderIsFinal(g: Shape, whole: seq<nat>, pushes: nat, o: Output)
    requires pushes <= |whole| && InHistory(o, pushes)
    ensures Render(Scattering(g), whole[..pushes], o) == Render(Scattering(g), whole, o)
  {
    PassesAreFinal(g, whole, pushes, o.newest, o.first, o.end);
  }

  /** A completed frame's output is the same however the stream goes on. */
  lemma CompletedIsFinal(g: Shape, context: nat, whole: seq<nat>, pushes: nat)
    requires context <= pushes <= |whole| && Completes(Scattering(g), context, pushes)
    ensures var o := Expected(g, context, |whole|, pushes - 1 - HeldSpan(g));
            && InHistory(o, |whole|)
            && Completed(Scattering(g), context, whole[..pushes]) == [Render(Scattering(g), whole, o)]
  {
    hide Render;
    var o := OutputAt(Scattering(g), context, pushes);
    ExpectedIsStable(g, context, pushes, |whole|, o.frame);
    RenderIsFinal(g, whole, pushes, o);
  }

  /** What a push hands over is the next part of what the stream writes out in all. */
  lemma CompletedIsNext(g: Shape, context: nat, whole: seq<nat>, pushes: nat, all: seq<Rendered>)
    requires context < pushes <= |whole|
    requires all == Tail(g, context, whole, FirstOutput(g, context, |whole|))
    ensures var before := CompletedBy(g, context, Taken(g, pushes - 1));
            var after := CompletedBy(g, context, Taken(g, pushes));
            && before <= after <= |all|
            && Completed(Scattering(g), context, whole[..pushes]) == all[before..after]
  {
    hide Render;
    CompletesOne(g, context, pushes);
    if Completes(Scattering(g), context, pushes) {
      CompletedIsFinal(g, context, whole, pushes);
    }
  }

  lemma Joins<T>(all: seq<T>, before: nat, after: nat)
    requires before <= after <= |all|
    ensures all[..before] + all[before..after] == all[..after]
  {
  }

  /** What the pushes of a stream hand over as it runs is the leading part of what it writes out in
  all, whatever follows. */
  lemma {:induction false} ReceivedLeads(g: Shape, context: nat, whole: seq<nat>, pushes: nat, from: nat,
                                         all: seq<Rendered>)
    requires context <= from <= pushes <= |whole|
    requires CompletedBy(g, context, Taken(g, from)) == 0
    requires all == Tail(g, context, whole, FirstOutput(g, context, |whole|))
    ensures var n := CompletedBy(g, context, Taken(g, pushes));
            n <= |all| && Received(Scattering(g), context, whole[..pushes], from) == all[..n]
  {
    hide Completed, CompletedBy, Taken, Tail;
    if from < pushes {
      ReceivedLeads(g, context, whole, pushes - 1, from, all);
      assert whole[..pushes][..pushes - 1] == whole[..pushes - 1];
      CompletedIsNext(g, context, whole, pushes, all);
      Joins(all, CompletedBy(g, context, Taken(g, pushes - 1)), CompletedBy(g, context, Taken(g, pushes)));
    }
  }

  /** What a stream's pushes hand over and what its end then owes is everything it writes out. */
  lemma ReceivedThenTail(g: Shape, context: nat, whole: seq<nat>, from: nat, all: seq<Rendered>)
    requires context <= from <= |whole| && CompletedBy(g, context, Taken(g, from)) == 0
    requires all == Tail(g, context, whole, FirstOutput(g, context, |whole|))
    ensures Received(Scattering(g), context, whole, from) + Tail(g, context, whole, NextFrame(g, context, |whole|))
         == all
  {
    var n := CompletedBy(g, context, Taken(g, |whole|));
    assert Received(Scattering(g), context, whole, from) == all[..n] by {
      ReceivedLeads(g, context, whole, |whole|, from, all);
      assert whole[..|whole|] == whole;
    }
    assert Tail(g, context, whole, NextFrame(g, context, |whole|)) == all[n..] by {
      TailFrom(g, context, whole, FirstOutput(g, context, |whole|), NextFrame(g, context, |whole|));
    }
  }

  lemma TailFrom(g: Shape, context: nat, whole: seq<nat>, first: nat, later: nat)
    requires context <= |whole| && FirstOutput(g, context, |whole|) <= first <= later <= |whole|
    ensures Tail(g, context, whole, first)[later - first..] == Tail(g, context, whole, later)
  {
  }

  /** A window of source frames for a rebuild: which of them is the target, and whether the window is
  cut short by either end of the clip. */
  datatype ReseedWindow = ReseedWindow(frames: seq<nat>, target: nat, atClipStart: bool, atClipEnd: bool)
  {
    predicate Matches(span: WindowSpan) {
      && span.edges == EdgePadding.Shifted && target < |frames|
      && target <= span.behind && |frames| - 1 - target <= span.ahead
      && target == (if atClipStart then target else span.behind)
      && |frames| == target + 1 + (if atClipEnd then |frames| - 1 - target else span.ahead)
    }

    function Context(span: WindowSpan): nat { if atClipStart then 0 else span.behind }
  }

  /** Whether a window is what a clip that ends at `lastFrame` has of the frames around `start`. */
  predicate CutFromClip(window: ReseedWindow, span: WindowSpan, start: nat, lastFrame: nat) {
    && start <= lastFrame
    && window.target == start - Minus(start, span.behind)
    && |window.frames| == window.target + 1 + Min(start + span.ahead, lastFrame) - start
    && (window.atClipStart <==> start <= span.behind)
    && (window.atClipEnd <==> lastFrame <= start + span.ahead)
  }

  /** A window is taken exactly when some clip has such a one around some frame of it. */
  lemma MatchesIsCutFromClip(window: ReseedWindow, span: WindowSpan)
    ensures window.Matches(span) <==>
              span.edges == EdgePadding.Shifted
              && exists start, lastFrame :: CutFromClip(window, span, start, lastFrame)
  {
    if window.Matches(span) {
      var start := if window.atClipStart then window.target else span.behind + 1;
      var kept := |window.frames| - 1 - window.target;
      assert CutFromClip(window, span, start, start + kept + if window.atClipEnd then 0 else 1);
    }
  }

  /** The last outputs of a window that ends the clip are its target's and every later frame's. */
  lemma TargetOnwards(g: Shape, window: ReseedWindow, outputs: seq<Rendered>)
    requires window.Matches(Scattering(g).Span()) && window.atClipEnd
    requires var c := window.Context(Scattering(g).Span());
             outputs == Received(Scattering(g), c, window.frames, c)
                        + Tail(g, c, window.frames, NextFrame(g, c, |window.frames|))
    ensures var fromEnd := |window.frames| - window.target;
            && WindowReaches(g, window) && |outputs| >= fromEnd
            && outputs[|outputs| - fromEnd..]
               == Tail(g, window.Context(Scattering(g).Span()), window.frames, window.target)
  {
    var c := window.Context(Scattering(g).Span());
    WindowReachesTarget(g, window);
    ReceivedThenTail(g, c, window.frames, c, Tail(g, c, window.frames, FirstOutput(g, c, |window.frames|)));
    TailFrom(g, c, window.frames, FirstOutput(g, c, |window.frames|), window.target);
  }

  /** The target of a window is among the frames a stream run over it writes out. */
  predicate WindowReaches(g: Shape, window: ReseedWindow)
    requires window.Matches(Scattering(g).Span())
  {
    FirstOutput(g, window.Context(Scattering(g).Span()), |window.frames|) <= window.target
  }

  /** A rebuild's window is long enough for its target to be written out. */
  lemma WindowReachesTarget(g: Shape, window: ReseedWindow)
    requires window.Matches(Scattering(g).Span())
    ensures var c := window.Context(Scattering(g).Span());
            && c <= |window.frames| && CompletedBy(g, c, Taken(g, c)) == 0
            && WindowReaches(g, window)
            && (!window.atClipEnd ==> Completes(Scattering(g), c, |window.frames|)
                                      && window.target == |window.frames| - 1 - HeldSpan(g))
  {
  }

  class HostDenoiser {
    const engine: EngineKind
    var history: seq<nat>
    var stream: Protocol.Stream
    var pending: seq<Rendered>
    var poisoned: bool

    constructor (engine: EngineKind)
      ensures Valid() && this.engine == engine
    {
      this.engine := engine;
      history, stream, pending, poisoned := [], Protocol.FRESH, [], false;
    }

    ghost predicate Valid()
      reads this
    {
      && |pending| <= MAX_PENDING
      && (!poisoned ==> Ready())
    }

    /** The engine has nothing completed left to write out. */
    ghost predicate Ready()
      reads this`history, this`stream
    {
      stream.context <= |history| && stream == Idle(engine, stream.context, |history|)
    }

    /** The stream stands at `history`, led by `context` context frames, with nothing in flight. */
    ghost predicate Stands(context: nat, history: seq<nat>)
      reads this
    {
      !poisoned && pending == [] && this.history == history && stream.context == context
    }

    /** Adds `source` to the stream, and puts in flight exactly the output that completes, if any. */
    method Push(source: nat, healthy: bool) returns (r: Outcome<()>)
      requires Valid()
      modifies this
      ensures Valid()
      ensures old(poisoned) ==> r == Failed(Poisoned)
      ensures r == Failed(QueueFull) <==> !old(poisoned) && |old(pending)| >= MAX_PENDING
      ensures !old(poisoned) && |old(pending)| < MAX_PENDING && healthy ==> r.Done?
      ensures r.Failed? ==> if PoisonsStream(r.error) then poisoned else unchanged(this)
      ensures r.Done? ==>
                && !old(poisoned) && !poisoned && |old(pending)| < MAX_PENDING
                && history == old(history) + [source] && stream.context == old(stream).context
                && pending == old(pending) + Completed(engine, stream.context, history)
    {
      if poisoned {
        return Failed(Poisoned);
      }
      if |pending| >= MAX_PENDING {
        return Failed(QueueFull);
      }
      var works := *;
      if !healthy && !works {
        poisoned := true;
        return Failed(Other);
      }
      var ready := UploadFrame(source);
      // There is always an output set free: what is in flight and what is ready fit together.
      assert |pending| + ready <= OUTPUT_SETS;
      if ready > 0 {
        var output := EmitIntoSlot();
        pending := pending + [output];
      }
      r := Done(());
    }

    /** The engine's answer to a push: how many frames it readied. */
    method UploadFrame(source: nat) returns (ready: nat)
      requires Ready()
      modifies this`history, this`stream
      ensures history == old(history) + [source] && stream.context == old(stream).context
      ensures ready == if Completes(engine, stream.context, |history|) then 1 else 0
      ensures ready == 0 ==> Ready()
      ensures ready == 1 ==> ReadyAfterEmit()
    {
      match engine {
        case Windowed(behind, ahead) =>
          stream := stream.(pushes := stream.pushes + 1);
          history := history + [source];
          ready := if behind + 1 + ahead <= |history| then 1 else 0;
        case Scattering(g) =>
          PushThenEmit(g, stream.context, |history|);
          var answer := Protocol.Push(g, stream);
          stream, ready := answer.value.0, answer.value.1;
          history := history + [source];
      }
    }

    /** One completed frame waits to be written out. */
    ghost predicate ReadyAfterEmit()
      reads this`history, this`stream
    {
      && stream.context <= |history| && Completes(engine, stream.context, |history|)
      && match engine
         case Windowed(_, _) => stream == Idle(engine, stream.context, |history|)
         case Scattering(g) =>
           && Protocol.Waiting(g, stream) != 0
           && Protocol.Emit(g, stream) == Protocol.Ok((Idle(engine, stream.context, |history|),
                                                       OutputAt(engine, stream.context, |history|)))
    }

    /** Gives the output that the last push completed. */
    method EmitIntoSlot() returns (output: Rendered)
      requires ReadyAfterEmit()
      modifies this`stream
      ensures Ready() && stream.context == old(stream).context
      ensures output == Render(engine, history, OutputAt(engine, stream.context, |history|))
    {
      match engine {
        case Windowed(behind, ahead) =>
          var end := |history|;
          output := Render(engine, history, Output(end - 1 - ahead, end - (behind + 1 + ahead), end, end));
        case Scattering(g) =>
          var answer := Protocol.Emit(g, stream);
          stream := answer.value.0;
          output := Render(engine, history, answer.value.1);
      }
    }

    /** Adds `source` to the context of a stream that has had nothing else. */
    method PushPriming(source: nat, healthy: bool) returns (r: Outcome<()>)
      requires Valid()
      modifies this
      ensures Valid()
      ensures old(poisoned) ==> r == Failed(Poisoned) && unchanged(this)
      ensures !old(poisoned) && |old(history)| > old(stream).context && healthy ==>
                r == Failed(EngineFailed(Protocol.ContextAfterPush)) && unchanged(this)
      ensures !old(poisoned) && |old(history)| == old(stream).context && healthy ==> r.Done?
      ensures r.Failed? ==> if PoisonsStream(r.error) then poisoned else unchanged(this)
      ensures r.Done? ==>
                && !old(poisoned) && !poisoned && pending == old(pending)
                && |old(history)| == old(stream).context
                && history == old(history) + [source] && stream.context == |history|
    {
      if poisoned {
        return Failed(Poisoned);
      }
      var works := *;
      if !healthy && !works {
        poisoned := true;
        return Failed(Other);
      }
      if |history| > stream.context {
        return Failed(EngineFailed(Protocol.ContextAfterPush));
      }
      match engine {
        case Windowed(_, _) =>
          stream := stream.(context := stream.context + 1, pushes := stream.pushes + 1);
        case Scattering(g) =>
          var answer := Protocol.PushContext(g, stream);
          assert answer.Ok?;
          stream := answer.value;
      }
      history := history + [source];
      r := Done(());
    }

    /** Takes the first output in flight off the queue. */
    method Recv(healthy: bool) returns (r: Outcome<Option<Rendered>>)
      requires Valid()
      modifies this`pending, this`poisoned
      ensures Valid()
      ensures old(poisoned) ==> r == Failed(Poisoned)
      ensures !old(poisoned) && healthy ==> r.Done?
      ensures r.Failed? ==> if PoisonsStream(r.error) then poisoned else unchanged(this)
      ensures r.Done? ==>
                && !old(poisoned) && !poisoned
                && (if old(pending) == [] then r.value.None? && pending == []
                    else r.value == Some(old(pending)[0]) && pending == old(pending)[1..])
    {
      if poisoned {
        return Failed(Poisoned);
      }
      if pending == [] {
        return Done(None);
      }
      var oldest := pending[0];
      pending := pending[1..];
      var works := *;
      if !healthy && !works {
        poisoned := true;
        return Failed(Other);
      }
      r := Done(Some(oldest));
    }

    /** Gives what is in flight and then all the stream still owes, and begins an empty stream. */
    method Flush(healthy: bool) returns (r: Outcome<seq<Rendered>>)
      requires Valid() && engine.Scattering?
      modifies this
      ensures Valid()
      ensures old(poisoned) ==> r == Failed(Poisoned)
      ensures !old(poisoned) && healthy ==> r.Done?
      ensures r.Failed? ==> if PoisonsStream(r.error) then poisoned else unchanged(this)
      ensures r.Done? ==>
                && !old(poisoned) && Stands(0, [])
                && var next := NextFrame(engine.shape, old(stream).context, |old(history)|);
                   r.value == old(pending) + Tail(engine.shape, old(stream).context, old(history), next)
    {
      if poisoned {
        return Failed(Poisoned);
      }
      var inFlight := pending;
      pending := [];
      var works := *;
      if !healthy && !works {
        poisoned := true;
        return Failed(Other);
      }
      var tail := FinishEngine(engine.shape);
      history := [];
      r := Done(inFlight + tail);
    }

    /** Ends the engine's stream and writes out the frames it still owes. */
    method FinishEngine(g: Shape) returns (tail: seq<Rendered>)
      requires Ready() && engine == Scattering(g)
      modifies this`stream
      ensures stream == Protocol.FRESH
      ensures tail == Tail(g, old(stream).context, history, NextFrame(g, old(stream).context, |history|))
    {
      hide Expected, Finishing, Idle, Protocol.Emit, Protocol.Finish, Render;
      ghost var context, pushes := stream.context, |history|;
      ghost var first := NextFrame(g, context, pushes);
      ghost var whole := Tail(g, context, history, first);
      FinishOwes(g, context, pushes);
      var answer := Protocol.Finish(g, stream);
      stream := answer.value.0;
      tail := [];
      for done := 0 to answer.value.1
        invariant answer.value.1 == |whole| && tail == whole[..done]
        invariant stream == if done < |whole| then Finishing(g, context, pushes, first + done) else Protocol.FRESH
      {
        EmitFinishing(g, context, pushes, first + done);
        TailIsInHistory(g, context, pushes, first + done);
        var emitted := Protocol.Emit(g, stream);
        stream := emitted.value.0;
        tail := tail + [Render(engine, history, emitted.value.1)];
      }
    }

    /** Abandons the current stream and clears any poison. */
    method ResetStream()
      modifies this
      ensures Valid() && Stands(0, [])
    {
      history, stream, pending, poisoned := [], Protocol.FRESH, [], false;
    }

    /** Pushes frames one by one, collecting each output as it is ready. */
    method PushAll(frames: seq<nat>, healthy: bool) returns (r: Outcome<seq<Rendered>>)
      requires Valid() && !poisoned && pending == []
      modifies this
      ensures Valid()
      ensures healthy ==> r.Done?
      ensures r.Done? ==>
                && Stands(old(stream).context, old(history) + frames)
                && r.value == Received(engine, old(stream).context, old(history) + frames, |old(history)|)
    {
      hide Completes, OutputAt, PoisonsStream, Render;
      ghost var context, first, whole := stream.context, |history|, history + frames;
      var outputs := [];
      for i := 0 to |frames|
        invariant Valid() && Stands(context, whole[..first + i])
        invariant outputs == Received(engine, context, whole[..first + i], first)
      {
        assert whole[..first + i + 1] == whole[..first + i] + [frames[i]];
        assert whole[..first + i + 1][..first + i] == whole[..first + i];
        var pushed := Push(frames[i], healthy);
        if pushed.Failed? {
          return Failed(pushed.error);
        }
        var received := Recv(healthy);
        if received.Failed? {
          return Failed(received.error);
        }
        if received.value.Some? {
          outputs := outputs + [received.value.value];
        }
      }
      assert whole[..first + |frames|] == whole;
      r := Done(outputs);
    }

    /** Uploads frames one by one as the context a fresh stream starts from. */
    method PrimeAll(frames: seq<nat>, healthy: bool) returns (r: Outcome<()>)
      requires Valid() && Stands(0, [])
      modifies this
      ensures Valid()
      ensures healthy ==> r.Done?
      ensures r.Done? ==> Stands(|frames|, frames)
    {
      for i := 0 to |frames|
        invariant Valid() && Stands(i, frames[..i])
      {
        r := PushPriming(frames[i], healthy);
        if r.Failed? {
          return;
        }
      }
      assert frames[..|frames|] == frames;
      r := Done(());
    }

    /** Replaces the stream by one over `window`. A window that ends the clip gives the outputs of its
    target and of all after it, and any other gives its target's and leaves the stream running. */
    method RunReseedWindow(window: ReseedWindow, healthy: bool) returns (r: Outcome<seq<Rendered>>)
      requires Valid()
      modifies this
      ensures Valid()
      ensures !window.Matches(engine.Span()) ==> r == Failed(Other) && unchanged(this)
      ensures window.Matches(engine.Span()) && healthy ==> r.Done?
      ensures r.Done? ==>
                && window.Matches(engine.Span())
                && var c := window.Context(engine.Span());
                   if window.atClipEnd
                   then r.value == Tail(engine.shape, c, window.frames, window.target) && Stands(0, [])
                   else r.value == Completed(engine, c, window.frames) && Stands(c, window.frames)
    {
      hide Completed, Received, Tail;
      if !window.Matches(engine.Span()) {
        return Failed(Other);
      }
      WindowReachesTarget(engine.shape, window);
      var context := window.Context(engine.Span());
      var pushed := StartOver(window.frames, context, healthy);
      if pushed.Failed? {
        return pushed;
      }
      if window.atClipEnd {
        r := FlushWindow(window, pushed.value, healthy);
      } else {
        // The target is the frame the last push completed.
        LastReceived(engine, context, window.frames, context);
        r := Done(pushed.value[|pushed.value| - 1..]);
      }
    }

    /** Replaces the stream by one over `frames`, the first `context` of them as context only, and gives
    what their pushes complete. */
    method StartOver(frames: seq<nat>, context: nat, healthy: bool) returns (r: Outcome<seq<Rendered>>)
      requires context <= |frames|
      modifies this
      ensures Valid()
      ensures healthy ==> r.Done?
      ensures r.Done? ==> Stands(context, frames) && r.value == Received(engine, context, frames, context)
    {
      hide Received;
      ResetStream();
      var primed := PrimeAll(frames[..context], healthy);
      if primed.Failed? {
        return Failed(primed.error);
      }
      assert frames[..context] + frames[context..] == frames;
      r := PushAll(frames[context..], healthy);
    }

    /** Ends the stream over a window that ends the clip, and gives the outputs from its target on. */
    method FlushWindow(window: ReseedWindow, outputs: seq<Rendered>, healthy: bool)
      returns (r: Outcome<seq<Rendered>>)
      requires Valid() && engine.Scattering? && window.Matches(engine.Span()) && window.atClipEnd
      requires var c := window.Context(engine.Span());
               && c <= |window.frames| && Stands(c, window.frames)
               && outputs == Received(engine, c, window.frames, c)
      modifies this
      ensures Valid()
      ensures healthy ==> r.Done?
      ensures r.Done? ==>
                && var c := window.Context(engine.Span());
                   && WindowReaches(engine.shape, window) && Stands(0, [])
                   && r.value == Tail(engine.shape, c, window.frames, window.target)
    {
      hide Received, Tail;
      var flushed := Flush(healthy);
      if flushed.Failed? {
        return Failed(flushed.error);
      }
      var all := outputs + flushed.value;
      TargetOnwards(engine.shape, window, all);
      var fromEnd := |window.frames| - window.target;
      r := Done(all[|all| - fromEnd..]);
    }

    /** Denoises the target of a window of exactly the span's frames, and leaves the stream standing
    where it would had they been pushed one by one. */
    method Reseed(window: seq<nat>, healthy: bool) returns (r: Outcome<Rendered>)
      requires Valid()
      modifies this
      ensures Valid()
      ensures |window| != FrameCount(engine.Span()) ==> r == Failed(Other) && unchanged(this)
      ensures |window| == FrameCount(engine.Span()) && healthy ==> r.Done?
      ensures r.Done? ==>
                && |window| == FrameCount(engine.Span())
                && var c := if engine.Windowed? then |window| - 1 else engine.Span().behind;
                   Stands(c, window) && Completed(engine, c, window) == [r.value]
    {
      var span := engine.Span();
      if |window| != FrameCount(span) {
        return Failed(Other);
      }
      if span.edges == EdgePadding.Shifted {
        var outputs := RunReseedWindow(ReseedWindow(window, span.behind, false, false), healthy);
        if outputs.Failed? {
          return Failed(outputs.error);
        }
        return Done(outputs.value[|outputs.value| - 1]);
      }
      ResetStream();
      var primed := span.behind + span.ahead;
      var head := PrimeAll(window[..primed], healthy);
      if head.Failed? {
        return Failed(head.error);
      }
      assert window[..primed] + window[primed..] == window;
      var outputs := PushAll(window[primed..], healthy);
      if outputs.Failed? {
        return Failed(outputs.error);
      }
      r := Done(outputs.value[|outputs.value| - 1]);
    }
  }
}
