/** What the host says an output was computed from, compared with what the pass engine behind it writes out.

The host names frames by their source index, so the images its engine is given are those indices.
 */
module HostEngine {
  import opened Schedule
  import opened Denoiser
  import opened Engine
  import opened Host

  /** The host's passes up to centre `end` are the engine's contributions, in the same order and with the
  same window read. */
  lemma {:induction false} PassesAreContributions(g: Shape, run: nat, context: nat, history: seq<nat>, frame: nat,
                                                  end: nat)
    requires var o := Expected(g, context, |history|, frame);
             InHistory(o, |history|) && o.first <= end <= o.end
    ensures var o := Expected(g, context, |history|, frame);
            var passes := Passes(g, history, o.newest, o.first, end);
            var owed := Contributions(g, Reel(run, history), o.first, end, frame);
            && |passes| == |owed|
            && forall i | 0 <= i < |owed| ::
                 && owed[i].centre < |history|
                 && passes[i] == Pass(history[owed[i].centre], owed[i].window)
    decreases end
  {
    var o := Expected(g, context, |history|, frame);
    if o.first < end {
      PassesAreContributions(g, run, context, history, frame, end - 1);
      PassOfOutput(g, context, |history|, frame, end - 1);
      assert PassAt(g, history, o.newest, end - 1) == Pass(history[end - 1], WindowOf(g, history, end - 1));
      hide Expected, PassAt, PassTaken, WindowOf;
    }
  }

  /** Whatever a stream was given and whenever it writes a frame out: the output the host hands over is of
  that frame's source, and is computed from exactly the passes that the engine writes out for it, each
  centred on the source the engine's was and reading the sources the engine's read from its ring. */
  lemma RenderIsOwed(g: Shape, run: nat, context: nat, history: seq<nat>, frame: nat)
    requires context <= |history| && FirstOutput(g, context, |history|) <= frame < |history|
    ensures var o := Expected(g, context, |history|, frame);
            && InHistory(o, |history|)
            && var rendered := Render(Scattering(g), history, o);
               var owed := Owed(g, Reel(run, history), false, o);
               && owed.frame < |history| && rendered.source == history[owed.frame]
               && |rendered.passes| == |owed.contents| == o.end - o.first
               && forall i | 0 <= i < |owed.contents| ::
                    && owed.contents[i].centre == o.first + i < |history|
                    && rendered.passes[i] == Pass(history[o.first + i], owed.contents[i].window)
  {
    var o := Expected(g, context, |history|, frame);
    TailIsInHistory(g, context, |history|, frame);
    PassesAreContributions(g, run, context, history, frame, o.end);
    forall i | 0 <= i < o.end - o.first
      ensures Contributions(g, Reel(run, history), o.first, o.end, frame)[i].centre == o.first + i
    {
      ContributionAt(g, Reel(run, history), o.first, o.end, frame, i);
    }
  }

  /** Contributions are those of consecutive centres. */
  lemma {:induction false} ContributionAt(g: Shape, reel: Reel, first: nat, end: nat, target: nat, i: nat)
    requires first + i < end
    ensures Contributions(g, reel, first, end, target)[i] == PassLeaves(g, reel, first + i, target)
    decreases end
  {
    if first + i < end - 1 { ContributionAt(g, reel, first, end - 1, target, i); }
  }
}
