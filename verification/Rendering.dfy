/** What a shared stream hands over, compared with a render of the whole clip in frame order. */
module Rendering {
  import opened Schedule
  import opened Planner
  import opened Requests
  import opened Host

  function Capped(index: nat, lastFrame: nat): nat { if index < lastFrame then index else lastFrame }

  /** The source frames around an output, with the clip's ends repeated. */
  function WindowIndices(n: nat, behind: nat, ahead: nat, lastFrame: nat): (indices: seq<nat>)
    ensures |indices| == behind + 1 + ahead
    ensures forall i | 0 <= i < |indices| :: indices[i] == Capped(Minus(n + i, behind), lastFrame)
  {
    seq<nat>(behind + 1 + ahead, (i: nat) => Capped(Minus(n + i, behind), lastFrame))
  }

  /** The first and last source frames around an output, cut short at the clip's ends. */
  function ShiftedWindow(n: nat, behind: nat, ahead: nat, lastFrame: nat): (nat, nat) {
    (Minus(n, behind), Capped(n + ahead, lastFrame))
  }

  /** What a render of the whole clip in frame order makes of output `n`. */
  ghost function Sequential(engine: EngineKind, lastFrame: nat, n: nat): Rendered
    requires n <= lastFrame
  {
    match engine
    case Windowed(behind, ahead) => Rendered(n, [Pass(n, WindowIndices(n, behind, ahead, lastFrame))])
    case Scattering(g) =>
      TailIsInHistory(g, 0, lastFrame + 1, n);
      Render(engine, Upward(0, lastFrame + 1), Expected(g, 0, lastFrame + 1, n))
  }

  /** The first `end` outputs that render writes out, in frame order. */
  ghost function Leading(engine: EngineKind, lastFrame: nat, end: nat): (outputs: seq<Rendered>)
    requires end <= lastFrame + 1
    ensures |outputs| == end
  {
    if end == 0 then [] else Leading(engine, lastFrame, end - 1) + [Sequential(engine, lastFrame, end - 1)]
  }

  /** Everything that render writes out. */
  ghost function Reference(engine: EngineKind, lastFrame: nat): (outputs: seq<Rendered>)
    ensures |outputs| == lastFrame + 1
  {
    Leading(engine, lastFrame, lastFrame + 1)
  }

  lemma {:induction false} LeadingAt(engine: EngineKind, lastFrame: nat, end: nat, n: nat)
    requires n < end <= lastFrame + 1
    ensures Leading(engine, lastFrame, end)[n] == Sequential(engine, lastFrame, n)
  {
    hide Sequential;
    if n < end - 1 { LeadingAt(engine, lastFrame, end - 1, n); }
  }

  lemma ReferenceAt(engine: EngineKind, lastFrame: nat, n: nat)
    requires n <= lastFrame
    ensures Reference(engine, lastFrame)[n] == Sequential(engine, lastFrame, n)
  {
    hide Sequential;
    LeadingAt(engine, lastFrame, lastFrame + 1, n);
  }

  /** A stream that has taken `history` hands over output `next` at its next push. */
  ghost predicate Follows(engine: EngineKind, lastFrame: nat, context: nat, history: seq<nat>, next: nat) {
    match engine
    case Windowed(behind, ahead) =>
      && behind + ahead <= |history|
      && history[|history| - (behind + ahead)..]
         == WindowIndices(next, behind, ahead, lastFrame)[..behind + ahead]
    case Scattering(g) =>
      && |history| <= next + HeldSpan(g)
      && BeganAt(g, next + HeldSpan(g) - |history|, context, history, lastFrame)
      && next + HeldSpan(g) - |history| + context < next
  }

  lemma WindowMoves(n: nat, behind: nat, ahead: nat, lastFrame: nat)
    ensures WindowIndices(n, behind, ahead, lastFrame)[1..]
         == WindowIndices(n + 1, behind, ahead, lastFrame)[..behind + ahead]
  {
  }

  /** Passes over a part of the clip read what they read in the whole clip, when their windows do. */
  lemma {:induction false} PassesShifted(g: Shape, history: seq<nat>, base: nat, o: Output, end: nat, lastFrame: nat)
    requires history == Upward(base, base + |history|) && base + |history| <= lastFrame + 1
    requires InHistory(o, |history|) && ReadsShifted(g, o, base) && end <= o.end
    ensures Passes(g, history, o.newest, o.first, end)
         == Passes(g, Upward(0, lastFrame + 1), o.newest + base, o.first + base, end + base)
    decreases end
  {
    hide PassAt, ReadsShifted, Window;
    if o.first < end {
      PassesShifted(g, history, base, o, end - 1, lastFrame);
      PassShifted(g, history, base, o, end - 1, lastFrame);
    }
  }

  lemma PassShifted(g: Shape, history: seq<nat>, base: nat, o: Output, centre: nat, lastFrame: nat)
    requires history == Upward(base, base + |history|) && base + |history| <= lastFrame + 1
    requires InHistory(o, |history|) && ReadsShifted(g, o, base) && Reaches(o, centre)
    ensures PassAt(g, history, o.newest, centre)
         == PassAt(g, Upward(0, lastFrame + 1), o.newest + base, centre + base)
  {
    var clip := Upward(0, lastFrame + 1);
    assert Window(g, history, PassTaken(g, o.newest, centre))
        == Window(g, clip, PassTaken(g, o.newest + base, centre + base));
  }

  /** A part of the clip gives the same output as the whole clip does. */
  lemma RenderShifted(g: Shape, history: seq<nat>, base: nat, o: Output, lastFrame: nat)
    requires history == Upward(base, base + |history|) && base + |history| <= lastFrame + 1
    requires InHistory(o, |history|) && ReadsShifted(g, o, base)
    ensures Render(Scattering(g), history, o)
         == Render(Scattering(g), Upward(0, lastFrame + 1), Schedule.Shifted(o, base))
  {
    PassesShifted(g, history, base, o, o.end, lastFrame);
  }

  /** Where a stream that began mid-clip may stand, and the clip frame its first push was. */
  ghost predicate BeganAt(g: Shape, base: nat, context: nat, history: seq<nat>, lastFrame: nat) {
    && context == (if base == 0 then 0 else HeldSpan(g)) <= |history|
    && history == Upward(base, base + |history|) && base + |history| <= lastFrame + 1
  }

  lemma OutputsReach(g: Shape, base: nat, context: nat, pushes: nat, n: nat)
    requires context == (if base == 0 then 0 else HeldSpan(g)) <= pushes
    requires base + context <= n <= base + pushes
    ensures FirstOutput(g, context, pushes) <= n - base
  {
  }

  lemma ReadsInPlace(g: Shape, o: Output)
    requires 0 < o.newest
    ensures ReadsShifted(g, o, 0)
  {
  }

  /** The passes that filter a frame are those a stream run from the clip's start gives it, and read
  the same frames there. */
  lemma SamePasses(g: Shape, base: nat, context: nat, pushes: nat, n: nat, lastFrame: nat)
    requires context == (if base == 0 then 0 else HeldSpan(g)) <= pushes && base + pushes <= lastFrame + 1
    requires base + context <= n < base + pushes
    requires n - base + RingSlots(g) <= pushes || base + pushes == lastFrame + 1
    ensures FirstOutput(g, context, pushes) <= n - base
    ensures var o := Expected(g, context, pushes, n - base);
            && Schedule.Shifted(o, base) == Expected(g, 0, lastFrame + 1, n)
            && ReadsShifted(g, o, base)
  {
    hide EndCentre, FirstCentre, FirstOutput, ReadsShifted;
    OutputsReach(g, base, context, pushes, n);
    var o := Expected(g, context, pushes, n - base);
    assert 0 < o.newest;
    hide Expected, Newest;
    if base > 0 {
      RebuildMatchesSequential(g, base, pushes, n - base);
    } else {
      ReadsInPlace(g, o);
    }
    if base + pushes < lastFrame + 1 {
      ExpectedIsStable(g, 0, pushes + base, lastFrame + 1, n);
    }
  }

  /** A frame the stream has completed, or any frame once it has reached the clip's end, is written
  out as a sequential render writes it out. */
  lemma SameOutput(g: Shape, base: nat, context: nat, history: seq<nat>, n: nat, lastFrame: nat)
    requires BeganAt(g, base, context, history, lastFrame)
    requires base + context <= n < base + |history|
    requires n - base + RingSlots(g) <= |history| || base + |history| == lastFrame + 1
    ensures var o := Expected(g, context, |history|, n - base);
            && FirstOutput(g, context, |history|) <= n - base && InHistory(o, |history|)
            && Render(Scattering(g), history, o) == Sequential(Scattering(g), lastFrame, n)
  {
    SamePasses(g, base, context, |history|, n, lastFrame);
    TailIsInHistory(g, context, |history|, n - base);
    RenderShifted(g, history, base, Expected(g, context, |history|, n - base), lastFrame);
  }

  /** A scattering stream's next push hands over the next output of a sequential render. */
  lemma ScatteringFollows(g: Shape, context: nat, history: seq<nat>, next: nat, lastFrame: nat)
    requires Follows(Scattering(g), lastFrame, context, history, next)
    requires next + HeldSpan(g) <= lastFrame
    ensures var pushed := history + [next + HeldSpan(g)];
            && Completed(Scattering(g), context, pushed) == [Sequential(Scattering(g), lastFrame, next)]
            && Follows(Scattering(g), lastFrame, context, pushed, next + 1)
  {
    hide EndCentre, Expected, FirstCentre, FirstOutput, Newest, Render, Sequential;
    var pushed := history + [next + HeldSpan(g)];
    SameOutput(g, next + HeldSpan(g) - |history|, context, pushed, next, lastFrame);
  }

  /** A windowed stream's next push hands over the next output of a sequential render. */
  lemma WindowedFollows(behind: nat, ahead: nat, context: nat, history: seq<nat>, next: nat, lastFrame: nat)
    requires Follows(Windowed(behind, ahead), lastFrame, context, history, next) && next <= lastFrame
    ensures var pushed := history + [Capped(next + ahead, lastFrame)];
            && Completed(Windowed(behind, ahead), context, pushed)
               == [Sequential(Windowed(behind, ahead), lastFrame, next)]
            && Follows(Windowed(behind, ahead), lastFrame, context, pushed, next + 1)
  {
    var source := Capped(next + ahead, lastFrame);
    var pushed := history + [source];
    var window := WindowIndices(next, behind, ahead, lastFrame);
    var oldest := |history| - (behind + ahead);
    assert history[oldest..] == window[..behind + ahead];
    assert pushed[oldest..] == history[oldest..] + [source];
    assert window == window[..behind + ahead] + [source];
    var o := OutputAt(Windowed(behind, ahead), context, |pushed|);
    assert o == Output(oldest + behind, oldest, |pushed|, |pushed|);
    assert pushed[oldest + behind] == pushed[oldest..][behind] == next;
    assert pushed[oldest..|pushed|] == pushed[oldest..];
    assert pushed[oldest + 1..] == window[1..] && oldest + 1 == |pushed| - (behind + ahead);
    WindowMoves(next, behind, ahead, lastFrame);
  }

  /** The push of the next step's source hands over the next output of a sequential render. */
  lemma PushFollows(g: StreamGeometry, engine: EngineKind, context: nat, history: seq<nat>, next: nat, source: nat)
    requires g.span == engine.Span() && next <= g.lastFrame
    requires Follows(engine, g.lastFrame, context, history, next)
    requires g.StepOf(next) == Push(source)
    ensures Completed(engine, context, history + [source]) == [Reference(engine, g.lastFrame)[next]]
    ensures Follows(engine, g.lastFrame, context, history + [source], next + 1)
  {
    hide Completed, Follows, Reference, Sequential;
    ReferenceAt(engine, g.lastFrame, next);
    match engine {
      case Windowed(behind, ahead) => WindowedFollows(behind, ahead, context, history, next, g.lastFrame);
      case Scattering(shape) => ScatteringFollows(shape, context, history, next, g.lastFrame);
    }
  }

  /** The end of a stream that has reached the clip's last frame hands over every output left. */
  lemma FlushFollows(g: Shape, context: nat, history: seq<nat>, next: nat, lastFrame: nat)
    requires Follows(Scattering(g), lastFrame, context, history, next)
    requires next + HeldSpan(g) == lastFrame + 1
    ensures next <= lastFrame + 1 && context <= |history|
    ensures Tail(g, context, history, NextFrame(g, context, |history|))
         == Reference(Scattering(g), lastFrame)[next..lastFrame + 1]
  {
    hide Reference, Tail;
    var base := next + HeldSpan(g) - |history|;
    assert NextFrame(g, context, |history|) == next - base;
    TailFollows(g, base, context, history, next, lastFrame);
  }

  /** The outputs of a stream that has reached the clip's last frame, from one of them on. */
  lemma TailFollows(g: Shape, base: nat, context: nat, history: seq<nat>, next: nat, lastFrame: nat)
    requires BeganAt(g, base, context, history, lastFrame)
    requires base + context <= next <= base + |history| == lastFrame + 1
    ensures FirstOutput(g, context, |history|) <= next - base
    ensures Tail(g, context, history, next - base)
         == Reference(Scattering(g), lastFrame)[next..lastFrame + 1]
  {
    hide Reference, Render, Sequential;
    OutputsReach(g, base, context, |history|, next);
    forall n | next <= n <= lastFrame
      ensures InHistory(Expected(g, context, |history|, n - base), |history|)
      ensures Render(Scattering(g), history, Expected(g, context, |history|, n - base))
           == Reference(Scattering(g), lastFrame)[n]
    {
      SameOutput(g, base, context, history, n, lastFrame);
      ReferenceAt(Scattering(g), lastFrame, n);
    }
  }

  /** The window a rebuild at `start` is given. */
  function WindowAt(g: StreamGeometry, start: nat): ReseedWindow
    requires start <= g.lastFrame
  {
    var (first, last) := ShiftedWindow(start, g.span.behind, g.span.ahead, g.lastFrame);
    ReseedWindow(Upward(first, last + 1), start - first, first == 0, last == g.lastFrame)
  }

  /** A rebuild's window ends the clip exactly when the planner takes the stream to end there. */
  lemma ReseedEndsAtClipEnd(g: StreamGeometry, start: nat)
    requires start <= g.lastFrame && g.span.edges == EdgePadding.Shifted
    ensures WindowAt(g, start).Matches(g.span)
    ensures WindowAt(g, start).atClipEnd <==> g.ReseedEndsStream(start)
    ensures forall source | source in WindowAt(g, start).frames ::
              Minus(start, g.span.behind) <= source <= Min(start + g.span.ahead, g.lastFrame)
  {
  }

  /** A rebuild hands over output `start`, and leaves the stream where the next push hands over the
  one after. */
  lemma ScatteringReseed(g: StreamGeometry, shape: Shape, start: nat)
    requires g.span == Scattering(shape).Span() && start <= g.lastFrame && !g.ReseedEndsStream(start)
    ensures var window := WindowAt(g, start);
            var c := window.Context(g.span);
            && Completed(Scattering(shape), c, window.frames) == [Reference(Scattering(shape), g.lastFrame)[start]]
            && Follows(Scattering(shape), g.lastFrame, c, window.frames, start + 1)
  {
    hide Render, Reference, Sequential;
    var window := WindowAt(g, start);
    SameOutput(shape, Minus(start, g.span.behind), window.Context(g.span), window.frames, start, g.lastFrame);
    ReferenceAt(Scattering(shape), g.lastFrame, start);
  }

  /** A rebuild at the clip's end hands over every output from `start` on. */
  lemma ScatteringReseedEnds(g: StreamGeometry, shape: Shape, start: nat)
    requires g.span == Scattering(shape).Span() && start <= g.lastFrame && g.ReseedEndsStream(start)
    ensures var window := WindowAt(g, start);
            var c := window.Context(g.span);
            && c <= |window.frames| && FirstOutput(shape, c, |window.frames|) <= window.target <= |window.frames|
            && Tail(shape, c, window.frames, window.target)
               == Reference(Scattering(shape), g.lastFrame)[start..g.lastFrame + 1]
  {
    hide Reference, Tail;
    var window := WindowAt(g, start);
    TailFollows(shape, Minus(start, g.span.behind), window.Context(g.span), window.frames, start, g.lastFrame);
  }

  /** One past the last output a rebuild at `start` hands over. */
  function RebuildEnd(g: StreamGeometry, start: nat): nat {
    if g.ReseedEndsStream(start) then g.lastFrame + 1 else start + 1
  }

  /** Either way a rebuild hands over exactly the outputs a sequential render makes. */
  lemma ScatteringRebuild(g: StreamGeometry, shape: Shape, start: nat)
    requires g.span == Scattering(shape).Span() && start <= g.lastFrame
    ensures var window := WindowAt(g, start);
            var c := window.Context(g.span);
            && (g.ReseedEndsStream(start) ==>
                  && c <= |window.frames| && FirstOutput(shape, c, |window.frames|) <= window.target <= |window.frames|
                  && Tail(shape, c, window.frames, window.target)
                     == Reference(Scattering(shape), g.lastFrame)[start..g.lastFrame + 1])
            && (!g.ReseedEndsStream(start) ==>
                  && Completed(Scattering(shape), c, window.frames)
                     == Reference(Scattering(shape), g.lastFrame)[start..start + 1]
                  && Follows(Scattering(shape), g.lastFrame, c, window.frames, start + 1))
  {
    hide Completed, Follows, Reference, Tail;
    if g.ReseedEndsStream(start) {
      ScatteringReseedEnds(g, shape, start);
    } else {
      ScatteringReseed(g, shape, start);
    }
  }

  lemma WindowedReseed(behind: nat, ahead: nat, lastFrame: nat, start: nat)
    requires start <= lastFrame
    ensures var window := WindowIndices(start, behind, ahead, lastFrame);
            && Completed(Windowed(behind, ahead), |window| - 1, window)
               == [Reference(Windowed(behind, ahead), lastFrame)[start]]
            && Follows(Windowed(behind, ahead), lastFrame, |window| - 1, window, start + 1)
  {
    var window := WindowIndices(start, behind, ahead, lastFrame);
    ReferenceAt(Windowed(behind, ahead), lastFrame, start);
    var o := OutputAt(Windowed(behind, ahead), |window| - 1, |window|);
    assert o == Output(behind, 0, |window|, |window|) && window[0..|window|] == window;
    WindowMoves(start, behind, ahead, lastFrame);
    assert window[|window| - (behind + ahead)..] == window[1..];
  }
}
