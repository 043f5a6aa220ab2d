/** Whole runs of a planar engine, from the passes it is built of. */
module PlanarRuns {
  import opened Schedule
  import opened Protocol
  import opened LumaMotion
  import opened Wrappers
  import opened Front
  import opened Denoiser
  import opened Engine
  import opened Planar
  import opened Archives

  /** What a planar engine is made of: its shape, whether luma only guides, whether chroma is cleaned,
  and whether a plane group passes through. */
  datatype Build = Build(g: Shape, guidesOnly: bool, chroma: bool, passthrough: bool)

  type PlanarArchive = Archive<Footage, PlanarFrame>

  ghost function BuildOf(engine: PlanarEngine): Build {
    Build(engine.G(), engine.luma.inner.guidesOnly, engine.chroma != null, engine.passthrough != null)
  }

  /** The frame a stream owes for an output: what each pass owes for it, from that pass's own frames and
  along the same centres, and of that very frame the planes that have no pass. */
  ghost function FrameOwed(b: Build, f: Footage, o: Output): PlanarFrame {
    PlanarFrame(Owed(b.g, f.luma, b.guidesOnly, o),
                if b.chroma then Some(Owed(b.g, f.chroma, false, o)) else None,
                if !b.passthrough || |f.frames| <= o.frame then None
                else Some(if b.chroma then f.frames[o.frame].luma else f.frames[o.frame].chroma))
  }

  ghost function Owes(b: Build): (Footage, Output) -> PlanarFrame {
    (f: Footage, o: Output) => FrameOwed(b, f, o)
  }

  /** A stream's footage is as long as the stream. */
  ghost predicate Lasts(b: Build, f: Footage, pushes: nat) {
    |f.luma.frames| == pushes && (b.chroma ==> |f.chroma.frames| == pushes) && |f.frames| == pushes
  }

  /** Each pass has been given its own planes of every frame. */
  ghost predicate Sorted(b: Build, f: Footage) {
    && Lasts(b, f, |f.frames|)
    && forall i | 0 <= i < |f.frames| ::
         f.luma.frames[i] == f.frames[i].luma && (b.chroma ==> f.chroma.frames[i] == f.frames[i].chroma)
  }

  /** An engine at the point a run has reached, with the record of what it wrote out. After a failure
  the engine refuses every call until it is reset. */
  ghost predicate Stands(engine: PlanarEngine, run: Run, archive: PlanarArchive)
    reads engine, engine.luma, engine.luma.inner, engine.luma.inner.front, engine.luma.inner.front.log,
          engine.MotionObjects(), engine.Chromas(), engine.ChromaInners(), engine.ChromaFronts(),
          engine.ChromaLogs(), engine.ChromaRings(), engine.passthrough
  {
    && engine.Valid() && Faithful(engine.G(), run) && Matches(Owes(BuildOf(engine)), archive, run)
    && (!engine.Refusing() ==>
          && engine.luma.stream == run.stream && archive.current.stream == engine.Given()
          && Lasts(BuildOf(engine), archive.current.stream, run.stream.pushes)
          && Sorted(BuildOf(engine), archive.current.stream))
  }

  /** Another frame goes to each pass as its own planes. */
  lemma FedStaysSorted(b: Build, f: Footage, later: Footage, planes: FramePlanes)
    requires Sorted(b, f)
    requires later.luma == f.luma.Fed(planes.luma) && (b.chroma ==> later.chroma == f.chroma.Fed(planes.chroma))
    requires later.frames == f.frames + [planes]
    ensures Sorted(b, later)
  {
  }

  /** Another frame changes nothing that is owed for an output whose window was complete. */
  lemma FrameOwedStays(b: Build, f: Footage, later: Footage, planes: FramePlanes, pushes: nat, o: Output)
    requires Lasts(b, f, pushes) && RingSlots(b.g) <= pushes && o.end + b.g.radius <= pushes && o.frame < pushes
    requires later.luma == f.luma.Fed(planes.luma) && (b.chroma ==> later.chroma == f.chroma.Fed(planes.chroma))
    requires later.frames == f.frames + [planes]
    ensures FrameOwed(b, later, o) == FrameOwed(b, f, o)
  {
    hide Owed;
    OwedStays(b.g, f.luma, planes.luma, b.guidesOnly, o);
    if b.chroma { OwedStays(b.g, f.chroma, planes.chroma, false, o); }
  }

  /** Another frame keeps the record right. */
  lemma FedMatches(b: Build, run: Run, next: Run, archive: PlanarArchive, later: Footage,
                   planes: FramePlanes)
    requires Faithful(b.g, run) && !run.stream.finishing && Lasts(b, archive.current.stream, run.stream.pushes)
    requires Matches(Owes(b), archive, run)
    requires next.written == run.written && next.finished == run.finished
    requires later.luma == archive.current.stream.luma.Fed(planes.luma)
    requires b.chroma ==> later.chroma == archive.current.stream.chroma.Fed(planes.chroma)
    requires later.frames == archive.current.stream.frames + [planes]
    ensures Matches(Owes(b), archive.Grown(later), next)
  {
    hide FrameOwed, Matches;
    forall i | 0 <= i < |run.written|
      ensures FrameOwed(b, later, run.written[i]) == FrameOwed(b, archive.current.stream, run.written[i])
    {
      WrittenIsComplete(b.g, run.stream, i);
      FrameOwedStays(b, archive.current.stream, later, planes, run.stream.pushes, run.written[i]);
    }
    GrownMatches(Owes(b), archive, run, next, later);
  }

  /** Each pass of an engine has been given exactly the stream's frames. */
  lemma GivenLasts(engine: PlanarEngine)
    requires engine.Valid() && !engine.Refusing()
    ensures Legal(engine.G(), engine.luma.stream)
    ensures Lasts(BuildOf(engine), engine.Given(), engine.luma.stream.pushes)
  {
    hide Nl4d.Live;
    engine.luma.StreamIsLegal();
    if engine.chroma != null { engine.chroma.StreamIsLegal(); }
  }

  /** The planes a call brings, and whether a push stages them one group at a time. */
  datatype Brought = Brought(planes: FramePlanes, staged: bool)

  /** What the protocol makes of a stream that is given a frame, if it takes it. */
  function AfterTaking(g: Shape, s: Stream, call: Call): Option<Stream> {
    if call.CallContext? then
      var r := Protocol.PushContext(g, s);
      if r.Ok? then Some(r.value) else None
    else
      var r := Protocol.Push(g, s);
      if r.Ok? then Some(r.value.0) else None
  }

  /** Pushes a frame, at once or staged, or gives it as context. */
  method Take(engine: PlanarEngine, given: Given<Brought>) returns (accepted: bool)
    requires engine.Valid() && (given.call.CallPush? || given.call.CallContext?)
    modifies engine, engine.luma, engine.luma.inner, engine.luma.inner.front, engine.luma.inner.front.log,
             engine.MotionObjects(), engine.Chromas(), engine.ChromaInners(), engine.ChromaFronts(),
             engine.ChromaLogs(), engine.passthrough
    ensures engine.Valid() == true && (old(engine.Refusing()) ==> engine.Refusing())
    ensures var after := AfterTaking(engine.G(), old(engine.luma.stream), given.call);
            && (accepted ==>
                  && !engine.Refusing() && after == Some(engine.luma.stream)
                  && engine.Given() == engine.Fed(old(engine.Given()), given.brings.planes))
            && (!accepted && !engine.Refusing() ==> engine.Unmoved())
            && (given.healthy && !old(engine.Refusing()) && Fits(given.brings.planes) ==>
                  !engine.Refusing() && accepted == after.Some?)
  {
    hide Nl4d.Live, Nl4d.Valid, PlanarEngine.Given, PlanarEngine.InStep, PlanarEngine.PassesValid;
    if given.call.CallContext? {
      var pushed := engine.PushContext(given.brings.planes, given.healthy);
      accepted := pushed.Ok?;
    } else if given.brings.staged {
      var pushed := engine.PushFrom(given.brings.planes, given.healthy);
      accepted := pushed.Ok?;
    } else {
      var pushed := engine.Push(given.brings.planes, given.healthy);
      accepted := pushed.Ok?;
    }
  }

  method DoTake(engine: PlanarEngine, given: Given<Brought>, ghost run: Run, ghost archive: PlanarArchive)
    returns (ghost took: bool, ghost next: Run, ghost later: PlanarArchive)
    requires Stands(engine, run, archive) && (given.call.CallPush? || given.call.CallContext?)
    modifies engine, engine.luma, engine.luma.inner, engine.luma.inner.front, engine.luma.inner.front.log,
             engine.MotionObjects(), engine.Chromas(), engine.ChromaInners(), engine.ChromaFronts(),
             engine.ChromaLogs(), engine.passthrough
    ensures Stands(engine, next, later) == true
    ensures next == if took then Answer(engine.G(), run, given.call) else run
    ensures given.healthy && !old(engine.Refusing()) && Fits(given.brings.planes) ==> took && !engine.Refusing()
  {
    hide FrameOwed, Matches, Nl4d.Live, Nl4d.Valid, PlanarEngine.InStep, PlanarEngine.KeepsUncleaned,
      PlanarEngine.PassesValid, Sorted;
    next, later := run, archive;
    ghost var fed := engine.Fed(engine.Given(), given.brings.planes);
    took := AfterTaking(engine.G(), run.stream, given.call).None?;
    var accepted := Take(engine, given);
    if accepted {
      took, next, later := true, Answer(engine.G(), run, given.call), archive.Grown(fed);
      TakingKeepsFaithful(engine.G(), run);
      FedMatches(BuildOf(engine), run, next, archive, fed, given.brings.planes);
      FedStaysSorted(BuildOf(engine), archive.current.stream, fed, given.brings.planes);
      GivenLasts(engine);
    }
  }

  /** What an emit makes of the record. */
  ghost function Wrote(archive: PlanarArchive, frame: PlanarFrame, ends: bool, next: Footage): PlanarArchive {
    if ends then archive.Added(frame).Filed(next) else archive.Added(frame)
  }

  lemma WroteMatches(b: Build, run: Run, archive: PlanarArchive, next: Footage)
    requires Faithful(b.g, run) && Matches(Owes(b), archive, run) && Emit(b.g, run.stream).Ok?
    ensures var frame := FrameOwed(b, archive.current.stream, Emit(b.g, run.stream).value.1);
            var ends := run.stream.finishing && Waiting(b.g, run.stream) == 1;
            Matches(Owes(b), Wrote(archive, frame, ends, next), Answer(b.g, run, CallEmit))
  {
    hide FrameOwed, Matches;
    CallsKeepLegal(b.g, run.stream);
    EmitMoves(b.g, run.stream);
    var o := Emit(b.g, run.stream).value.1;
    var frame := FrameOwed(b, archive.current.stream, o);
    var written := run.(written := run.written + [o]);
    AddedMatches(Owes(b), archive, run, written, o, frame);
    if run.stream.finishing && Waiting(b.g, run.stream) == 1 {
      FiledMatches(Owes(b), archive.Added(frame), written, Answer(b.g, run, CallEmit),
                   Finished(run.stream.context, run.stream.pushes, written.written), next);
    } else {
      AddedMatches(Owes(b), archive, run, Answer(b.g, run, CallEmit), o, frame);
    }
  }

  /** An emit writes out exactly what the run says: of one stream frame, what each pass made of it and
  the planes that pass through. */
  method DoEmit(engine: PlanarEngine, given: Given<Brought>, ghost run: Run, ghost archive: PlanarArchive)
    returns (frame: Option<PlanarFrame>, ghost took: bool, ghost next: Run, ghost later: PlanarArchive)
    requires Stands(engine, run, archive)
    modifies engine, engine.luma, engine.luma.inner, engine.luma.inner.front, engine.luma.inner.front.log,
             engine.MotionObjects(), engine.Chromas(), engine.ChromaInners(), engine.ChromaFronts(),
             engine.ChromaLogs(), engine.passthrough
    ensures Stands(engine, next, later) == true
    ensures next == if took then Answer(engine.G(), run, CallEmit) else run
    ensures given.healthy && !old(engine.Refusing()) && Fits(given.brings.planes) ==> took && !engine.Refusing()
    ensures frame.Some? ==>
              && took && Emit(engine.G(), run.stream).Ok?
              && frame.value == FrameOwed(BuildOf(engine), archive.current.stream,
                                          Emit(engine.G(), run.stream).value.1)
    ensures took && Emit(engine.G(), run.stream).Ok? ==> frame.Some?
  {
    hide Matches, Nl4d.Live, Nl4d.Valid, Owed, PlanarEngine.InStep, PlanarEngine.PassesValid;
    next, later, frame := run, archive, None;
    ghost var after := engine.After(engine.Given(), engine.luma.Ends(run.stream));
    took := Emit(engine.G(), run.stream).Err?;
    var written := engine.EmitInto(Fits(given.brings.planes), given.healthy);
    if written.Ok? {
      frame := Some(written.value);
      took, next := true, Answer(engine.G(), run, CallEmit);
      later := Wrote(archive, written.value, engine.luma.Ends(run.stream), after);
      WroteMatches(BuildOf(engine), run, archive, after);
      EmitKeepsFaithful(engine.G(), run);
      GivenLasts(engine);
    }
  }

  method DoFinish(engine: PlanarEngine, ghost run: Run, ghost archive: PlanarArchive)
    returns (ghost took: bool, ghost next: Run, ghost later: PlanarArchive)
    requires Stands(engine, run, archive)
    modifies engine, engine.luma, engine.luma.inner, engine.luma.inner.front, engine.luma.inner.front.log,
             engine.MotionObjects(), engine.Chromas(), engine.ChromaInners(), engine.ChromaFronts(),
             engine.ChromaLogs(), engine.passthrough
    ensures Stands(engine, next, later) == true
    ensures next == if took then Answer(engine.G(), run, CallFinish) else run
    ensures !old(engine.Refusing()) ==> took && !engine.Refusing()
  {
    hide Matches, Nl4d.Live, Nl4d.Valid, PlanarEngine.InStep, PlanarEngine.PassesValid;
    next, later := run, archive;
    took := !engine.Refusing();
    var finished := engine.Finish();
    if finished.Ok? {
      next := Answer(engine.G(), run, CallFinish);
      FinishKeepsFaithful(engine.G(), run);
      if finished.value == 0 {
        later := archive.Filed(engine.Given());
        FiledMatches(Owes(BuildOf(engine)), archive, run, next,
                     Finished(run.stream.context, run.stream.pushes, run.written), engine.Given());
      } else {
        StillMatches(Owes(BuildOf(engine)), archive, run, next);
      }
      GivenLasts(engine);
    }
  }

  method DoReset(engine: PlanarEngine, ghost run: Run, ghost archive: PlanarArchive)
    returns (ghost next: Run, ghost later: PlanarArchive)
    requires Stands(engine, run, archive)
    modifies engine, engine.luma, engine.luma.inner, engine.luma.inner.front, engine.luma.inner.front.log,
             engine.MotionObjects(), engine.Chromas(), engine.ChromaInners(), engine.ChromaFronts(),
             engine.ChromaLogs(), engine.passthrough
    ensures Stands(engine, next, later) == true && !engine.Refusing()
    ensures next == Answer(engine.G(), run, CallReset)
  {
    hide Matches, Nl4d.Live, Nl4d.Valid, PlanarEngine.InStep, PlanarEngine.PassesValid;
    engine.Reset();
    next := Answer(engine.G(), run, CallReset);
    later := archive.Dropped(engine.Given());
    DroppedMatches(Owes(BuildOf(engine)), archive, run, next, engine.Given());
    AnswerKeepsFaithful(engine.G(), run, CallReset);
    GivenLasts(engine);
  }

  method DoCall(engine: PlanarEngine, given: Given<Brought>, ghost run: Run, ghost archive: PlanarArchive)
    returns (ghost took: bool, ghost next: Run, ghost later: PlanarArchive)
    requires Stands(engine, run, archive)
    modifies engine, engine.luma, engine.luma.inner, engine.luma.inner.front, engine.luma.inner.front.log,
             engine.MotionObjects(), engine.Chromas(), engine.ChromaInners(), engine.ChromaFronts(),
             engine.ChromaLogs(), engine.passthrough
    ensures Stands(engine, next, later) == true
    ensures next == if took then Answer(engine.G(), run, given.call) else run
    ensures given.healthy && !old(engine.Refusing()) && Fits(given.brings.planes) ==> took && !engine.Refusing()
  {
    match given.call {
      case CallPush => took, next, later := DoTake(engine, given, run, archive);
      case CallContext => took, next, later := DoTake(engine, given, run, archive);
      case CallEmit =>
        var frame;
        frame, took, next, later := DoEmit(engine, given, run, archive);
      case CallFinish => took, next, later := DoFinish(engine, run, archive);
      case CallReset =>
        next, later := DoReset(engine, run, archive);
        took := true;
    }
  }

  /** Any calls at all, in any order, whichever of them fail or bring planes of the wrong size: the
  engine goes through exactly the run the protocol describes for the calls it took, which are all of
  them as long as none fails. Of every frame written out, luma and chroma come from the same stream
  frame, each from its own pass's frames and along the same centres, and the uncleaned planes are those
  of that frame. */
  method RunCalls(engine: PlanarEngine, given: seq<Given<Brought>>)
    returns (ghost took: seq<Call>, ghost run: Run, ghost archive: PlanarArchive)
    requires engine.Valid() && !engine.Refusing() && engine.luma.stream == FRESH
    modifies engine, engine.luma, engine.luma.inner, engine.luma.inner.front, engine.luma.inner.front.log,
             engine.MotionObjects(), engine.Chromas(), engine.ChromaInners(), engine.ChromaFronts(),
             engine.ChromaLogs(), engine.passthrough
    ensures Stands(engine, run, archive) == true && run == AnswerAll(engine.G(), took)
    ensures (forall i | 0 <= i < |given| :: given[i].healthy && Fits(given[i].brings.planes)) ==>
              took == CallsOf(given)
  {
    took, run, archive := [], START, Archive(Tape(engine.Given(), []), []);
    EveryRunIsFaithful(engine.G(), []);
    GivenLasts(engine);
    assert Stands(engine, run, archive);
    hide Matches, Nl4d.Live, Nl4d.Valid, PlanarEngine.InStep, PlanarEngine.PassesValid, PlanarEngine.Valid;
    for i := 0 to |given|
      invariant Stands(engine, run, archive) == true && run == AnswerAll(engine.G(), took)
      invariant (forall j | 0 <= j < |given| :: given[j].healthy && Fits(given[j].brings.planes)) ==>
                  !engine.Refusing() && took == CallsOf(given[..i])
    {
      assert given[..i + 1][..i] == given[..i];
      ghost var taken;
      taken, run, archive := DoCall(engine, given[i], run, archive);
      if taken {
        AnswerOne(engine.G(), took, given[i].call);
        took := took + [given[i].call];
      }
    }
    assert given[..|given|] == given;
  }

  /** Builds an engine from new passes: luma alone, or luma and a chroma pass that reads its motion. Luma
  only guides when it is not cleaned itself. The buffers may hold anything. */
  method Assemble(radius: nat, depth: nat, cleansLuma: bool, cleansChroma: bool, gray: bool, memory: Image,
                  stale: seq<seq<Contribution>>)
    returns (engine: PlanarEngine)
    requires radius >= 1 && (cleansLuma || cleansChroma) && |stale| == 2 * radius + 1
    ensures fresh(engine) && fresh(engine.luma) && fresh(engine.luma.inner)
    ensures fresh(engine.luma.inner.front) && fresh(engine.luma.inner.front.log)
    ensures fresh(engine.MotionObjects()) && fresh(engine.Chromas()) && fresh(engine.ChromaInners())
    ensures fresh(engine.ChromaFronts()) && fresh(engine.ChromaLogs())
    ensures engine.passthrough != null ==> fresh(engine.passthrough)
    ensures engine.Valid() && !engine.Refusing() && engine.luma.stream == FRESH
    ensures BuildOf(engine) == Build(Shape(radius, depth), !cleansLuma, cleansChroma,
                                     !gray && cleansLuma != cleansChroma)
  {
    if cleansChroma {
      var ring := new LumaMotionRing(radius, Motion(0, 0));
      var luma := new Nl4d(radius, depth, Writer(ring), !cleansLuma, memory, stale);
      var chroma := new Nl4d(radius, depth, Reader(ring), false, memory, stale);
      engine := new PlanarEngine(luma, chroma, gray, memory);
    } else {
      var luma := new Nl4d(radius, depth, NoRing, false, memory, stale);
      engine := new PlanarEngine(luma, null, gray, memory);
    }
  }

  /** A new engine through any calls at all. */
  method BuildAndRun(radius: nat, depth: nat, cleansLuma: bool, cleansChroma: bool, gray: bool, memory: Image,
                     stale: seq<seq<Contribution>>, given: seq<Given<Brought>>)
    returns (engine: PlanarEngine, ghost took: seq<Call>, ghost run: Run, ghost archive: PlanarArchive)
    requires radius >= 1 && (cleansLuma || cleansChroma) && |stale| == 2 * radius + 1
    ensures fresh(engine) && Stands(engine, run, archive) == true
    ensures run == AnswerAll(Shape(radius, depth), took)
    ensures (forall i | 0 <= i < |given| :: given[i].healthy && Fits(given[i].brings.planes)) ==>
              took == CallsOf(given)
  {
    engine := Assemble(radius, depth, cleansLuma, cleansChroma, gray, memory, stale);
    took, run, archive := RunCalls(engine, given);
  }
}
