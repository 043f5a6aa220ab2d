/** The calls a pass engine answers, without the machinery that answers them.

A stream is four numbers. Each call either refuses and changes nothing, or moves the stream on and
says what the caller gets back. `Nl4d` in the engine module is proved to answer every call exactly as
the functions below do, and the run theorem here then speaks about every sequence of calls.
 */
module Protocol {
  import opened Schedule

  datatype Error =
    | NeedsReset
    | OutputsPending
    | ContextAfterPush
    | NothingToEmit
    | PlaneMismatch
    | Gpu

  datatype Result<+T> = Ok(value: T) | Err(error: Error)

  /** A stream that has taken `pushes` frames, the first `context` of them as context only, and
  written out `emitted`. Once `finishing`, it only writes out. */
  datatype Stream = Stream(context: nat, pushes: nat, emitted: nat, finishing: bool)

  const FRESH := Stream(0, 0, 0, false)

  /** The frames the pushes alone have completed. */
  function Completed(g: Shape, s: Stream): nat {
    CompletedBy(g, s.context, Taken(g, s.pushes))
  }

  /** The frames the stream still has to write out before it can take another call. */
  function Waiting(g: Shape, s: Stream): int {
    (if s.finishing then OutputCount(g, s.context, s.pushes) else Completed(g, s)) - s.emitted
  }

  ghost predicate Legal(g: Shape, s: Stream) {
    && s.context <= s.pushes
    && (if s.finishing then Completed(g, s) <= s.emitted && Waiting(g, s) > 0
        else 0 <= Waiting(g, s) <= 1)
  }

  /** The frame the next emit writes out. */
  function NextFrame(g: Shape, s: Stream): nat {
    FirstOutput(g, s.context, s.pushes) + s.emitted
  }

  function Push(g: Shape, s: Stream): Result<(Stream, int)> {
    if Waiting(g, s) != 0 || s.finishing then Err(OutputsPending)
    else
      var next := s.(pushes := s.pushes + 1);
      Ok((next, Waiting(g, next)))
  }

  function PushContext(g: Shape, s: Stream): Result<Stream> {
    if Waiting(g, s) != 0 || s.finishing then Err(OutputsPending)
    else if s.pushes > s.context then Err(ContextAfterPush)
    else Ok(s.(context := s.context + 1, pushes := s.pushes + 1))
  }

  function Emit(g: Shape, s: Stream): Result<(Stream, Output)> {
    if Waiting(g, s) == 0 then Err(NothingToEmit)
    else
      var output := Expected(g, s.context, s.pushes, NextFrame(g, s));
      var next := s.(emitted := s.emitted + 1);
      Ok((if s.finishing && Waiting(g, next) == 0 then FRESH else next, output))
  }

  function Finish(g: Shape, s: Stream): Result<(Stream, int)> {
    if Waiting(g, s) != 0 || s.finishing then Err(OutputsPending)
    else
      var next := s.(finishing := true);
      var owed := Waiting(g, next);
      Ok((if owed == 0 then FRESH else next, owed))
  }

  /** Every call keeps a stream legal, a push readies at most one frame and an end owes at most
  `2r + D`. */
  lemma CallsKeepLegal(g: Shape, s: Stream)
    requires Legal(g, s)
    ensures Push(g, s).Ok? ==> Legal(g, Push(g, s).value.0) && 0 <= Push(g, s).value.1 <= 1
    ensures PushContext(g, s).Ok? ==>
              Legal(g, PushContext(g, s).value) && Waiting(g, PushContext(g, s).value) == 0
    ensures Emit(g, s).Ok? ==> Legal(g, Emit(g, s).value.0) && NextFrame(g, s) < s.pushes
    ensures Finish(g, s).Ok? ==>
              Legal(g, Finish(g, s).value.0) && 0 <= Finish(g, s).value.1 <= HeldSpan(g)
  {
  }

  /** An emit moves on to the next frame, or to a fresh stream after the last. */
  lemma EmitMoves(g: Shape, s: Stream)
    requires Waiting(g, s) > 0
    ensures Emit(g, s).Ok?
    ensures Emit(g, s).value.0 == if s.finishing && Waiting(g, s) == 1 then FRESH
                                  else s.(emitted := s.emitted + 1)
  {
  }

  /** The frame the next emit writes out is among the newest `HeldSpan + 1` frames pushed. */
  lemma NextFrameIsRecent(g: Shape, s: Stream)
    requires Legal(g, s) && Waiting(g, s) > 0
    ensures s.pushes - (HeldSpan(g) + 1) <= NextFrame(g, s) < s.pushes
  {
  }

  // ---------------------------------------------------------------------------------------------
  // Whole runs
  // ---------------------------------------------------------------------------------------------

  datatype Call = CallPush | CallContext | CallEmit | CallFinish | CallReset

  /** A stream that ran to its end, with everything it wrote out. */
  datatype Finished = Finished(context: nat, pushes: nat, outputs: seq<Output>)

  /** Where a run stands: the current stream, what it has written out, and the streams before it
  that were not abandoned. */
  datatype Run = Run(stream: Stream, written: seq<Output>, finished: seq<Finished>)

  const START := Run(FRESH, [], [])

  /** `run` with `next` as its stream, which begins a new one when a stream has just ended. */
  function Continue(run: Run, next: Stream, written: seq<Output>): Run {
    if run.stream.finishing && next == FRESH then
      Run(FRESH, [], run.finished + [Finished(run.stream.context, run.stream.pushes, written)])
    else
      Run(next, written, run.finished)
  }

  function Answer(g: Shape, run: Run, call: Call): Run {
    match call
    case CallPush =>
      var r := Push(g, run.stream);
      if r.Err? then run else run.(stream := r.value.0)
    case CallContext =>
      var r := PushContext(g, run.stream);
      if r.Err? then run else run.(stream := r.value)
    case CallEmit =>
      var r := Emit(g, run.stream);
      if r.Err? then run else Continue(run, r.value.0, run.written + [r.value.1])
    case CallFinish =>
      var r := Finish(g, run.stream);
      if r.Err? then run
      else Continue(run.(stream := run.stream.(finishing := true)), r.value.0, run.written)
    case CallReset => Run(FRESH, [], run.finished)
  }

  function AnswerAll(g: Shape, calls: seq<Call>): Run {
    if calls == [] then START
    else Answer(g, AnswerAll(g, calls[..|calls| - 1]), calls[|calls| - 1])
  }

  lemma AnswerOne(g: Shape, calls: seq<Call>, call: Call)
    ensures AnswerAll(g, calls + [call]) == Answer(g, AnswerAll(g, calls), call)
  {
  }

  /** Whether a push of the stream that `calls` lead up to was taken. */
  function TookPush(g: Shape, calls: seq<Call>): bool {
    if calls == [] then false
    else
      var before := calls[..|calls| - 1];
      var s := AnswerAll(g, calls).stream;
      s != FRESH
      && (TookPush(g, before) || (calls[|calls| - 1].CallPush? && s != AnswerAll(g, before).stream))
  }

  lemma {:induction false} PushesAreCounted(g: Shape, calls: seq<Call>)
    ensures var s := AnswerAll(g, calls).stream;
            s.context <= s.pushes && (TookPush(g, calls) <==> s.pushes > s.context)
  {
    if calls != [] {
      PushesAreCounted(g, calls[..|calls| - 1]);
      AnswerCounts(g, AnswerAll(g, calls[..|calls| - 1]), calls[|calls| - 1]);
      hide Answer;
    }
  }

  lemma AnswerCounts(g: Shape, run: Run, call: Call)
    requires run.stream.context <= run.stream.pushes
    ensures var s := run.stream;
            var next := Answer(g, run, call).stream;
            && next.context <= next.pushes
            && (next != FRESH ==>
                  (next.pushes > next.context <==> s.pushes > s.context || (call.CallPush? && next != s)))
  {
    hide Expected, NextFrame, OutputCount, Waiting;
  }

  /** After any calls, a stream that still takes frames takes one as context exactly when none was pushed
  to it, and says why when it does not. */
  lemma ContextComesFirst(g: Shape, calls: seq<Call>)
    requires var s := AnswerAll(g, calls).stream; Push(g, s).Ok?
    ensures var r := PushContext(g, AnswerAll(g, calls).stream);
            && (r.Ok? <==> !TookPush(g, calls))
            && (r == Err(ContextAfterPush) <==> TookPush(g, calls))
  {
    PushesAreCounted(g, calls);
  }

  /** After any calls, a stream takes no frame exactly while it ends or has a frame to write out. */
  lemma WritesBeforeTaking(g: Shape, calls: seq<Call>)
    ensures var s := AnswerAll(g, calls).stream;
            && (Push(g, s) == Err(OutputsPending) <==> Emit(g, s).Ok?)
            && (Finish(g, s) == Err(OutputsPending) <==> Emit(g, s).Ok?)
            && (Emit(g, s) == Err(NothingToEmit) <==> Push(g, s).Ok?)
            && (Push(g, s).Err? ==> PushContext(g, s) == Err(OutputsPending))
            && (Push(g, s).Ok? <==> Finish(g, s).Ok?)
  {
    EveryRunIsFaithful(g, calls);
  }

  /** Everything a stream of `pushes` frames is meant to write out, in order. */
  ghost function Whole(g: Shape, context: nat, pushes: nat): seq<Output> {
    Outputs(g, context, pushes, FirstOutput(g, context, pushes), OutputCount(g, context, pushes))
  }

  ghost predicate Faithful(g: Shape, run: Run) {
    && Legal(g, run.stream) && AllWhole(g, run.finished)
    && run.written == WrittenSoFar(g, run.stream)
  }

  /** What a stream has written out, read off its four numbers. */
  ghost function WrittenSoFar(g: Shape, s: Stream): seq<Output>
    requires s.context <= s.pushes
  {
    Outputs(g, s.context, s.pushes, FirstOutput(g, s.context, s.pushes), s.emitted)
  }

  /** Every stream that ended wrote out all it was meant to. */
  ghost predicate AllWhole(g: Shape, finished: seq<Finished>) {
    finished == []
    || (var f := finished[|finished| - 1];
        && AllWhole(g, finished[..|finished| - 1])
        && f.context <= f.pushes && f.outputs == Whole(g, f.context, f.pushes))
  }

  /** Taking another frame changes nothing that was already written out. */
  lemma {:induction false} WrittenIsStable(g: Shape, s: Stream, later: Stream)
    requires Legal(g, s) && Waiting(g, s) == 0 && !s.finishing
    requires later.pushes == s.pushes + 1 && later.emitted == s.emitted && !later.finishing
    requires later.context == s.context || (s.context == s.pushes && later.context == s.context + 1)
    ensures later.context <= later.pushes && WrittenSoFar(g, s) == WrittenSoFar(g, later)
  {
    if s.emitted > 0 {
      var first := FirstOutput(g, s.context, s.pushes);
      assert later.context == s.context;
      assert first == FirstOutput(g, later.context, later.pushes);
      var before := Outputs(g, s.context, s.pushes, first, s.emitted);
      var after := Outputs(g, s.context, later.pushes, first, s.emitted);
      forall i | 0 <= i < s.emitted
        ensures before[i] == after[i]
      {
        ExpectedIsStable(g, s.context, s.pushes, later.pushes, first + i);
      }
      assert before == after;
    }
  }

  /** What a stream that still takes frames has written out lies a whole window behind its newest. */
  lemma WrittenIsComplete(g: Shape, s: Stream, i: nat)
    requires Legal(g, s) && !s.finishing && i < s.emitted
    ensures var o := WrittenSoFar(g, s)[i];
            RingSlots(g) <= s.pushes && o.end + g.radius <= s.pushes && o.frame < s.pushes
  {
    assert i < CompletedBy(g, s.context, Taken(g, s.pushes));
    assert FirstReady(g, s.context) + i <= s.pushes;
    assert WrittenSoFar(g, s)[i]
        == Expected(g, s.context, s.pushes, FirstReady(g, s.context) - RingSlots(g) + i);
  }

  lemma TakingKeepsFaithful(g: Shape, run: Run)
    requires Faithful(g, run)
    ensures Faithful(g, Answer(g, run, CallPush)) && Faithful(g, Answer(g, run, CallContext))
  {
    var s := run.stream;
    CallsKeepLegal(g, s);
    if Push(g, s).Ok? { WrittenIsStable(g, s, Push(g, s).value.0); }
    if PushContext(g, s).Ok? { WrittenIsStable(g, s, PushContext(g, s).value); }
  }

  /** An emit adds the next output to what was written, the last one completing the stream. */
  lemma EmitExtends(g: Shape, s: Stream)
    requires Legal(g, s) && Waiting(g, s) > 0
    ensures WrittenSoFar(g, s) + [Emit(g, s).value.1] == WrittenSoFar(g, s.(emitted := s.emitted + 1))
    ensures s.finishing && Waiting(g, s) == 1 ==>
              WrittenSoFar(g, s) + [Emit(g, s).value.1] == Whole(g, s.context, s.pushes)
  {
  }

  lemma EmitKeepsFaithful(g: Shape, run: Run)
    requires Faithful(g, run)
    ensures Faithful(g, Answer(g, run, CallEmit))
  {
    var s := run.stream;
    CallsKeepLegal(g, s);
    if Emit(g, s).Ok? {
      EmitMoves(g, s);
      EmitExtends(g, s);
    }
  }

  lemma FinishKeepsFaithful(g: Shape, run: Run)
    requires Faithful(g, run)
    ensures Faithful(g, Answer(g, run, CallFinish))
  {
    CallsKeepLegal(g, run.stream);
  }

  lemma AnswerKeepsFaithful(g: Shape, run: Run, call: Call)
    requires Faithful(g, run)
    ensures Faithful(g, Answer(g, run, call))
  {
    match call {
      case CallPush => TakingKeepsFaithful(g, run);
      case CallContext => TakingKeepsFaithful(g, run);
      case CallEmit => EmitKeepsFaithful(g, run);
      case CallFinish => FinishKeepsFaithful(g, run);
      case CallReset =>
    }
  }

  /** Exactly once and in order, for every sequence of calls: each stream that ran to its end wrote
  out a contiguous run of frames ending at the last one pushed, each once, in order and with the
  passes the closed form names, and the current stream has written out the leading part of that. */
  lemma {:induction false} EveryRunIsFaithful(g: Shape, calls: seq<Call>)
    ensures Faithful(g, AnswerAll(g, calls))
  {
    if calls != [] {
      EveryRunIsFaithful(g, calls[..|calls| - 1]);
      AnswerKeepsFaithful(g, AnswerAll(g, calls[..|calls| - 1]), calls[|calls| - 1]);
    }
  }

  /** A scene writes out every frame it was pushed, and no other. */
  lemma SceneWritesEveryFrame(g: Shape, pushes: nat)
    ensures FirstOutput(g, 0, pushes) == 0
    ensures |Whole(g, 0, pushes)| == pushes
    ensures forall i | 0 <= i < pushes :: Whole(g, 0, pushes)[i].frame == i
  {
  }
}
