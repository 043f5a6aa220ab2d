/** Outputs kept by index, of which only the highest stay when there are too many. */
module Buffer {
  import opened Wrappers

  ghost predicate IsLowest(indices: set<nat>, lowest: nat) {
    lowest in indices && forall other | other in indices :: lowest <= other
  }

  /** The lowest of some indices. */
  ghost function Lowest(indices: set<nat>): (lowest: nat)
    requires indices != {}
    ensures IsLowest(indices, lowest)
    decreases |indices|, 1
  {
    LowestExists(indices);
    var lowest :| IsLowest(indices, lowest);
    lowest
  }

  lemma {:induction false} LowestExists(indices: set<nat>)
    requires indices != {}
    ensures exists lowest :: IsLowest(indices, lowest)
    decreases |indices|, 0
  {
    var pick :| pick in indices;
    if indices == {pick} {
      assert IsLowest(indices, pick);
    } else {
      var rest := Lowest(indices - {pick});
      assert IsLowest(indices, if rest < pick then rest else pick) by {
        forall other | other in indices
          ensures (if rest < pick then rest else pick) <= other
        {
          assert other == pick || other in indices - {pick};
        }
      }
    }
  }

  /** What is left of `indices` once the lowest are dropped until at most `capacity` remain. */
  ghost function KeepHighest(indices: set<nat>, capacity: nat): (kept: set<nat>)
    ensures kept <= indices
    decreases |indices|
  {
    if |indices| <= capacity then indices else KeepHighest(indices - {Lowest(indices)}, capacity)
  }

  /** Dropping frees no more room than it has to, and drops nothing above a frame it keeps. */
  lemma {:induction false} KeepsHighest(indices: set<nat>, capacity: nat)
    ensures var kept := KeepHighest(indices, capacity);
            && |kept| == (if |indices| <= capacity then |indices| else capacity)
            && forall dropped, other | dropped in indices - kept && other in kept :: dropped < other
    decreases |indices|
  {
    if |indices| > capacity {
      var lowest := Lowest(indices);
      var others := indices - {lowest};
      KeepsHighest(others, capacity);
      var kept := KeepHighest(others, capacity);
      forall dropped, other | dropped in indices - kept && other in kept
        ensures dropped < other
      {
        assert dropped == lowest || dropped in others - kept;
        assert other in others;
      }
    }
  }

  class OutputBuffer<T> {
    var frames: map<nat, T>

    constructor ()
      ensures frames == map[]
    {
      frames := map[];
    }

    predicate Contains(index: nat)
      reads this
    {
      index in frames
    }

    method Insert(index: nat, frame: T)
      modifies this
      ensures frames == old(frames)[index := frame]
    {
      frames := frames[index := frame];
    }

    /** Hands out one frame, which the buffer then no longer holds. */
    method Take(index: nat) returns (frame: Option<T>)
      modifies this
      ensures frame == if index in old(frames) then Some(old(frames)[index]) else None
      ensures frames == old(frames) - {index}
    {
      if index !in frames {
        return None;
      }
      frame := Some(frames[index]);
      frames := frames - {index};
    }

    /** Leaves exactly the outputs `KeepHighest` names, each as it was. */
    method EvictTo(capacity: nat)
      modifies this
      ensures frames.Keys == KeepHighest(old(frames).Keys, capacity)
      ensures forall index | index in frames :: index in old(frames) && frames[index] == old(frames)[index]
    {
      while |frames| > capacity
        invariant KeepHighest(frames.Keys, capacity) == KeepHighest(old(frames).Keys, capacity)
        invariant forall index | index in frames ::
            index in old(frames) && frames[index] == old(frames)[index]
        decreases |frames|
      {
        ghost var held := frames;
        PopFirst();
        assert held.Keys == frames.Keys + {Lowest(held.Keys)};
        assert |held| == |held.Keys| && |frames| == |frames.Keys|;
      }
      assert |frames| == |frames.Keys|;
    }

    /** Drops the lowest index. */
    method PopFirst()
      requires frames.Keys != {}
      modifies this
      ensures frames == old(frames) - {Lowest(old(frames).Keys)}
    {
      LowestExists(frames.Keys);
      var lowest :| lowest in frames && forall other | other in frames :: lowest <= other;
      assert lowest == Lowest(frames.Keys);
      frames := frames - {lowest};
    }
  }
}
