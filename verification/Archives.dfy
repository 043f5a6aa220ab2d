/** Records of what streams wrote out, beside the runs that say what they are to write out. */
module Archives {
  import opened Schedule
  import opened Protocol

  /** A call, what it brings, and whether it meets no failure of the GPU. */
  datatype Given<P> = Given(call: Call, brings: P, healthy: bool)

  /** The calls alone. */
  function CallsOf<P>(given: seq<Given<P>>): (calls: seq<Call>)
    ensures |calls| == |given|
  {
    if given == [] then [] else CallsOf(given[..|given| - 1]) + [given[|given| - 1].call]
  }

  /** One stream: what it was given, and everything it wrote out. */
  datatype Tape<M, W> = Tape(stream: M, written: seq<W>)

  /** The stream under way, and those that ran to their end. */
  datatype Archive<M, W> = Archive(current: Tape<M, W>, ended: seq<Tape<M, W>>)
  {
    /** The stream was given more. */
    function Grown(stream: M): Archive<M, W> { this.(current := current.(stream := stream)) }

    /** The stream wrote something out. */
    function Added(w: W): Archive<M, W> { this.(current := current.(written := current.written + [w])) }

    /** The stream ended, and a new one begins. */
    function Filed(next: M): Archive<M, W> { Archive(Tape(next, []), ended + [current]) }

    /** The stream was abandoned, and a new one begins. */
    function Dropped(next: M): Archive<M, W> { this.(current := Tape(next, [])) }
  }

  /** A stream wrote out exactly what it owes for `outputs`, in order. */
  ghost predicate Holds<M, W>(owed: (M, Output) -> W, tape: Tape<M, W>, outputs: seq<Output>) {
    && |tape.written| == |outputs|
    && forall i | 0 <= i < |outputs| :: tape.written[i] == owed(tape.stream, outputs[i])
  }

  /** Every stream of a run wrote out exactly what it owes for the run's outputs. */
  ghost predicate Matches<M, W>(owed: (M, Output) -> W, archive: Archive<M, W>, run: Run) {
    && Holds(owed, archive.current, run.written)
    && |archive.ended| == |run.finished|
    && forall i | 0 <= i < |run.finished| :: Holds(owed, archive.ended[i], run.finished[i].outputs)
  }

  lemma StillMatches<M, W>(owed: (M, Output) -> W, archive: Archive<M, W>, run: Run, later: Run)
    requires Matches(owed, archive, run)
    requires later.written == run.written && later.finished == run.finished
    ensures Matches(owed, archive, later)
  {
  }

  lemma GrownMatches<M, W>(owed: (M, Output) -> W, archive: Archive<M, W>, run: Run, later: Run, stream: M)
    requires Matches(owed, archive, run)
    requires later.written == run.written && later.finished == run.finished
    requires forall i | 0 <= i < |run.written| ::
               owed(stream, run.written[i]) == owed(archive.current.stream, run.written[i])
    ensures Matches(owed, archive.Grown(stream), later)
  {
  }

  lemma AddedMatches<M, W>(owed: (M, Output) -> W, archive: Archive<M, W>, run: Run, later: Run, o: Output, w: W)
    requires Matches(owed, archive, run) && w == owed(archive.current.stream, o)
    requires later.written == run.written + [o] && later.finished == run.finished
    ensures Matches(owed, archive.Added(w), later)
  {
  }

  lemma FiledMatches<M, W>(owed: (M, Output) -> W, archive: Archive<M, W>, run: Run, later: Run, last: Finished,
                           next: M)
    requires Matches(owed, archive, run) && last.outputs == run.written
    requires later.written == [] && later.finished == run.finished + [last]
    ensures Matches(owed, archive.Filed(next), later)
  {
  }

  lemma DroppedMatches<M, W>(owed: (M, Output) -> W, archive: Archive<M, W>, run: Run, later: Run, next: M)
    requires Matches(owed, archive, run) && later.written == [] && later.finished == run.finished
    ensures Matches(owed, archive.Dropped(next), later)
  {
  }
}
