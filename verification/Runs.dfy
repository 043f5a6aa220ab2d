/** Whole runs of an engine that searches its own motion. */
module Runs {
  import opened Schedule
  import opened Protocol
  import opened LumaMotion
  import opened Wrappers
  import opened Front
  import opened Denoiser
  import opened Engine
  import opened Archives

  type EngineArchive = Archive<Reel, Emission>

  /** What a stream owes for an output, by the frames it was given. */
  ghost function Owes(g: Shape, guidesOnly: bool): (Reel, Output) -> Emission {
    (reel: Reel, o: Output) => Owed(g, reel, guidesOnly, o)
  }

  /** An engine at the point a run has reached, with the record of what it wrote out. A failure leaves
  the engine refusing every call until it is reset. */
  ghost predicate Stands(engine: Nl4d, run: Run, archive: EngineArchive)
    reads engine, engine.inner, engine.inner.front, engine.inner.front.RingObject()
  {
    && engine.inner.front.role.NoRing? && engine.Valid()
    && Right(engine.G(), engine.inner.guidesOnly, run, archive)
    && (!engine.poisoned ==> engine.stream == run.stream && archive.current.stream == engine.inner.Stream())
    && archive.current.stream.run <= engine.inner.front.run
  }

  /** The run is faithful, and the record holds exactly what its streams owe. */
  ghost predicate Right(g: Shape, guidesOnly: bool, run: Run, archive: EngineArchive) {
    Faithful(g, run) && Matches(Owes(g, guidesOnly), archive, run) && Numbered(archive)
  }

  /** The stream under way has a number of its own, above that of every stream that ended, so what a
  frame holds came from its own stream. */
  ghost predicate Numbered(archive: EngineArchive) {
    forall i | 0 <= i < |archive.ended| :: archive.ended[i].stream.run < archive.current.stream.run
  }

  /** What a push or a context frame makes of the record. */
  ghost function Taken(archive: EngineArchive, image: Image): EngineArchive {
    archive.Grown(archive.current.stream.Fed(image))
  }

  /** Another frame keeps the record right. */
  lemma TakenRight(g: Shape, guidesOnly: bool, run: Run, call: Call, archive: EngineArchive, image: Image)
    requires Right(g, guidesOnly, run, archive) && (call.CallPush? || call.CallContext?)
    requires !run.stream.finishing && |archive.current.stream.frames| == run.stream.pushes
    ensures Right(g, guidesOnly, Answer(g, run, call), Taken(archive, image))
  {
    hide Owed;
    var reel := archive.current.stream;
    forall i | 0 <= i < |run.written|
      ensures Owed(g, reel.Fed(image), guidesOnly, run.written[i]) == Owed(g, reel, guidesOnly, run.written[i])
    {
      WrittenIsComplete(g, run.stream, i);
      OwedStays(g, reel, image, guidesOnly, run.written[i]);
    }
    GrownMatches(Owes(g, guidesOnly), archive, run, Answer(g, run, call), reel.Fed(image));
    TakingKeepsFaithful(g, run);
  }

  method DoPush(engine: Nl4d, image: Image, healthy: bool, ghost run: Run, ghost archive: EngineArchive)
    returns (ghost took: bool, ghost next: Run, ghost later: EngineArchive)
    requires Stands(engine, run, archive)
    modifies engine, engine.inner, engine.inner.front, engine.inner.front.log
    ensures Stands(engine, next, later)
    ensures next == if took then Answer(engine.G(), run, CallPush) else run
    ensures healthy && !old(engine.poisoned) ==> took && !engine.poisoned
  {
    hide Nl4d.Live, Owed, Right;
    if !engine.poisoned { engine.StreamIsLegal(); }
    var pushed := engine.Push(Planes(image, true), healthy, engine.PushCall());
    took := !engine.poisoned;
    next, later := run, archive;
    if pushed.Ok? {
      next, later := Answer(engine.G(), run, CallPush), Taken(archive, image);
      TakenRight(engine.G(), engine.inner.guidesOnly, run, CallPush, archive, image);
    }
  }

  method DoContext(engine: Nl4d, image: Image, healthy: bool, ghost run: Run, ghost archive: EngineArchive)
    returns (ghost took: bool, ghost next: Run, ghost later: EngineArchive)
    requires Stands(engine, run, archive)
    modifies engine, engine.inner, engine.inner.front, engine.inner.front.log
    ensures Stands(engine, next, later)
    ensures next == if took then Answer(engine.G(), run, CallContext) else run
    ensures healthy && !old(engine.poisoned) ==> took && !engine.poisoned
  {
    hide Nl4d.Live, Owed, Right;
    if !engine.poisoned { engine.StreamIsLegal(); }
    var pushed := engine.PushContext(Planes(image, true), healthy);
    took := !engine.poisoned;
    next, later := run, archive;
    if pushed.Ok? {
      next, later := Answer(engine.G(), run, CallContext), Taken(archive, image);
      TakenRight(engine.G(), engine.inner.guidesOnly, run, CallContext, archive, image);
    }
  }

  /** What an emit makes of the record. */
  ghost function Wrote(archive: EngineArchive, emission: Emission, ends: bool, next: Reel): EngineArchive {
    if ends then archive.Added(emission).Filed(next) else archive.Added(emission)
  }

  lemma WroteRight(g: Shape, guidesOnly: bool, run: Run, archive: EngineArchive, next: Reel)
    requires Right(g, guidesOnly, run, archive) && Emit(g, run.stream).Ok?
    requires var ends := run.stream.finishing && Waiting(g, run.stream) == 1;
             ends ==> next.run > archive.current.stream.run
    ensures var emission := Owed(g, archive.current.stream, guidesOnly, Emit(g, run.stream).value.1);
            var ends := run.stream.finishing && Waiting(g, run.stream) == 1;
            Right(g, guidesOnly, Answer(g, run, CallEmit), Wrote(archive, emission, ends, next))
  {
    hide Owed;
    CallsKeepLegal(g, run.stream);
    EmitMoves(g, run.stream);
    EmitKeepsFaithful(g, run);
    var o := Emit(g, run.stream).value.1;
    var emission := Owed(g, archive.current.stream, guidesOnly, o);
    var written := run.(written := run.written + [o]);
    AddedMatches(Owes(g, guidesOnly), archive, run, written, o, emission);
    if run.stream.finishing && Waiting(g, run.stream) == 1 {
      FiledMatches(Owes(g, guidesOnly), archive.Added(emission), written, Answer(g, run, CallEmit),
                   Finished(run.stream.context, run.stream.pushes, written.written), next);
    } else {
      AddedMatches(Owes(g, guidesOnly), archive, run, Answer(g, run, CallEmit), o, emission);
    }
  }

  /** An emit writes out exactly what the run says, holding exactly the passes of its own stream that
  the closed form names, each over the frames the ring then held. */
  method DoEmit(engine: Nl4d, image: Image, healthy: bool, ghost run: Run, ghost archive: EngineArchive)
    returns (emission: Option<Emission>, ghost took: bool, ghost next: Run, ghost later: EngineArchive)
    requires Stands(engine, run, archive)
    modifies engine, engine.inner, engine.inner.front, engine.inner.front.log
    ensures Stands(engine, next, later)
    ensures next == if took then Answer(engine.G(), run, CallEmit) else run
    ensures healthy && !old(engine.poisoned) ==> took && !engine.poisoned
    ensures emission.Some? <==> took && Emit(engine.G(), run.stream).Ok?
    ensures emission.Some? ==>
              emission.value == Owed(engine.G(), archive.current.stream, engine.inner.guidesOnly,
                                     Emit(engine.G(), run.stream).value.1)
  {
    hide Nl4d.Live, Owed, Right;
    var emitted := engine.EmitInto(Planes(image, true), healthy, engine.EmitCall());
    took := !engine.poisoned;
    next, later := run, archive;
    emission := None;
    if emitted.Ok? {
      emission := Some(emitted.value);
      next := Answer(engine.G(), run, CallEmit);
      later := Wrote(archive, emitted.value, engine.Ends(run.stream), engine.inner.Stream());
      WroteRight(engine.G(), engine.inner.guidesOnly, run, archive, engine.inner.Stream());
    }
  }

  /** What an end makes of the record. */
  ghost function Ended(archive: EngineArchive, owed: int, next: Reel): EngineArchive {
    if owed == 0 then archive.Filed(next) else archive
  }

  lemma EndedRight(g: Shape, guidesOnly: bool, run: Run, archive: EngineArchive, next: Reel)
    requires Right(g, guidesOnly, run, archive) && Finish(g, run.stream).Ok?
    requires Finish(g, run.stream).value.1 == 0 ==> next.run > archive.current.stream.run
    ensures Right(g, guidesOnly, Answer(g, run, CallFinish),
                  Ended(archive, Finish(g, run.stream).value.1, next))
  {
    FinishKeepsFaithful(g, run);
    if Finish(g, run.stream).value.1 == 0 {
      FiledMatches(Owes(g, guidesOnly), archive, run, Answer(g, run, CallFinish),
                   Finished(run.stream.context, run.stream.pushes, run.written), next);
    } else {
      StillMatches(Owes(g, guidesOnly), archive, run, Answer(g, run, CallFinish));
    }
  }

  method DoFinish(engine: Nl4d, ghost run: Run, ghost archive: EngineArchive)
    returns (ghost took: bool, ghost next: Run, ghost later: EngineArchive)
    requires Stands(engine, run, archive)
    modifies engine, engine.inner, engine.inner.front, engine.inner.front.log
    ensures Stands(engine, next, later)
    ensures next == if took then Answer(engine.G(), run, CallFinish) else run
    ensures !old(engine.poisoned) ==> took && !engine.poisoned
  {
    hide Nl4d.Live, Owed, Right;
    if !engine.poisoned { engine.StreamIsLegal(); }
    var finished := engine.Finish();
    took := !engine.poisoned;
    next, later := run, archive;
    if finished.Ok? {
      next := Answer(engine.G(), run, CallFinish);
      later := Ended(archive, finished.value, engine.inner.Stream());
      EndedRight(engine.G(), engine.inner.guidesOnly, run, archive, engine.inner.Stream());
    }
  }

  lemma DroppedRight(g: Shape, guidesOnly: bool, run: Run, archive: EngineArchive, next: Reel)
    requires Right(g, guidesOnly, run, archive) && next.run > archive.current.stream.run
    ensures Right(g, guidesOnly, Answer(g, run, CallReset), archive.Dropped(next))
  {
    DroppedMatches(Owes(g, guidesOnly), archive, run, Answer(g, run, CallReset), next);
    AnswerKeepsFaithful(g, run, CallReset);
  }

  method DoReset(engine: Nl4d, ghost run: Run, ghost archive: EngineArchive)
    returns (ghost next: Run, ghost later: EngineArchive)
    requires Stands(engine, run, archive)
    modifies engine, engine.inner, engine.inner.front, engine.inner.front.log
    ensures Stands(engine, next, later) && !engine.poisoned
    ensures next == Answer(engine.G(), run, CallReset)
  {
    hide Nl4d.Live, Owed, Right;
    engine.Reset(engine.inner.front.run + 1);
    next := Answer(engine.G(), run, CallReset);
    later := archive.Dropped(engine.inner.Stream());
    DroppedRight(engine.G(), engine.inner.guidesOnly, run, archive, engine.inner.Stream());
  }

  method DoCall(engine: Nl4d, given: Given<Image>, ghost run: Run, ghost archive: EngineArchive)
    returns (ghost took: bool, ghost next: Run, ghost later: EngineArchive)
    requires Stands(engine, run, archive)
    modifies engine, engine.inner, engine.inner.front, engine.inner.front.log
    ensures Stands(engine, next, later) == true
    ensures next == if took then Answer(engine.G(), run, given.call) else run
    ensures given.healthy && !old(engine.poisoned) ==> took && !engine.poisoned
  {
    hide Nl4d.Live, Owed, Right;
    match given.call {
      case CallPush => took, next, later := DoPush(engine, given.brings, given.healthy, run, archive);
      case CallContext => took, next, later := DoContext(engine, given.brings, given.healthy, run, archive);
      case CallEmit =>
        var emission;
        emission, took, next, later := DoEmit(engine, given.brings, given.healthy, run, archive);
      case CallFinish => took, next, later := DoFinish(engine, run, archive);
      case CallReset =>
        next, later := DoReset(engine, run, archive);
        took := true;
    }
  }

  /** Any calls at all, in any order, whichever of them fail: the engine goes through exactly the run
  the protocol describes for the calls it took, which are all of them as long as none fails. Each
  stream that ends has written out each of its frames once, in order, and every frame written out
  holds exactly what its own stream owes for it. */
  method RunCalls(engine: Nl4d, given: seq<Given<Image>>)
    returns (ghost took: seq<Call>, ghost run: Run, ghost archive: EngineArchive)
    requires engine.inner.front.role.NoRing? && engine.Valid() && !engine.poisoned && engine.stream == FRESH
    modifies engine, engine.inner, engine.inner.front, engine.inner.front.log
    ensures Stands(engine, run, archive) && run == AnswerAll(engine.G(), took)
    ensures (forall i | 0 <= i < |given| :: given[i].healthy) ==> took == CallsOf(given)
  {
    hide Nl4d.Live;
    took, run, archive := [], START, Archive(Tape(engine.inner.Stream(), []), []);
    EveryRunIsFaithful(engine.G(), []);
    for i := 0 to |given|
      invariant Stands(engine, run, archive) && run == AnswerAll(engine.G(), took)
      invariant (forall j | 0 <= j < |given| :: given[j].healthy) ==>
                  !engine.poisoned && took == CallsOf(given[..i])
    {
      assert given[..i + 1][..i] == given[..i];
      ghost var taken;
      taken, run, archive := DoCall(engine, given[i], run, archive);
      if taken {
        AnswerOne(engine.G(), took, given[i].call);
        took := took + [given[i].call];
      }
    }
    assert given[..|given|] == given;
  }
}
