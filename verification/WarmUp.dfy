/** A queue for compiling a set of kernels: one filter at a time holds the place, and a stamp says that
nobody needs to any more.

A place is asked for by a filter of some process. A step is what one filter does between two points
where another filter, in this process or another, may come in between.
 */
module WarmUp {
  type Key = nat
  type Pid = nat
  type Filter = nat

  /** How far a filter that claimed its key has come. */
  datatype Stage =
    | Acquiring // about to look for the stamp
    | Waiting   // saw no stamp, waits for the lock
    | Locked    // has the lock, about to look for the stamp again
    | Held      // compiles under the lock
    | Stamped   // finished, about to let go of the lock
    | Leaving   // about to give its key back

  datatype Place = Place(pid: Pid, key: Key, stage: Stage)

  predicate HasLock(place: Place) {
    place.stage.Locked? || place.stage.Held? || place.stage.Stamped?
  }

  /** Every place being asked for or held; the keys each process has claimed; which filter each lock
  file is held for; which stamps are on disk; and how often each stamp was written. */
  datatype Queue = Queue(
    places: map<Filter, Place>,
    claimed: set<(Pid, Key)>,
    locks: map<Key, Filter>,
    stamps: set<Key>,
    written: map<Key, nat>)

  const EMPTY := Queue(map[], {}, map[], {}, map[])

  datatype Step =
    | Begin(filter: Filter, pid: Pid, key: Key)
    | FirstLook(filter: Filter)
    /** The lock file cannot be opened, or the wait took too long. */
    | GiveUp(filter: Filter)
    | Lock(filter: Filter)
    | SecondLook(filter: Filter)
    /** The holder finished compiling and writes its stamp, which may fail. */
    | Finish(filter: Filter, works: bool)
    /** The holder, finished or not, lets go of the lock. */
    | Unlock(filter: Filter)
    | Release(filter: Filter)
    | Crash(pid: Pid)

  function Count(q: Queue, key: Key): nat { if key in q.written then q.written[key] else 0 }

  /** `q` with the filter at `place` moved on to `stage`. */
  function MoveTo(q: Queue, filter: Filter, place: Place, stage: Stage): Queue {
    q.(places := q.places[filter := place.(stage := stage)])
  }

  function Unlocked(q: Queue, filter: Filter, place: Place): Queue {
    MoveTo(q, filter, place, Leaving).(locks := q.locks - {place.key})
  }

  /** What a step of the filter at `place` does, which is nothing at the wrong stage. */
  function Advance(q: Queue, step: Step, f: Filter, place: Place): Queue {
    match place.stage
    case Acquiring =>
      if !step.FirstLook? then q
      else MoveTo(q, f, place, if place.key in q.stamps then Leaving else Waiting)
    case Waiting =>
      if step.GiveUp? then MoveTo(q, f, place, Leaving)
      else if !step.Lock? || place.key in q.locks then q
      else MoveTo(q, f, place, Locked).(locks := q.locks[place.key := f])
    case Locked =>
      if !step.SecondLook? then q
      else if place.key in q.stamps then Unlocked(q, f, place)
      else MoveTo(q, f, place, Held)
    case Held =>
      if step.Unlock? then Unlocked(q, f, place)
      else if !step.Finish? then q
      else if !step.works then MoveTo(q, f, place, Stamped)
      else MoveTo(q, f, place, Stamped)
           .(stamps := q.stamps + {place.key}, written := q.written[place.key := Count(q, place.key) + 1])
    case Stamped =>
      if step.Unlock? then Unlocked(q, f, place) else q
    case Leaving =>
      if !step.Release? then q
      else q.(places := q.places - {f}, claimed := q.claimed - {(place.pid, place.key)})
  }

  function Take(q: Queue, step: Step): Queue {
    match step
    case Begin(filter, pid, key) =>
      if filter in q.places || (pid, key) in q.claimed then q
      else q.(places := q.places[filter := Place(pid, key, Acquiring)], claimed := q.claimed + {(pid, key)})
    case Crash(pid) =>
      var gone := set f | f in q.places && q.places[f].pid == pid;
      q.(places := q.places - gone,
         claimed := (set c | c in q.claimed && c.0 != pid),
         locks := map k | k in q.locks && q.locks[k] !in gone :: q.locks[k])
    case _ =>
      if step.filter in q.places then Advance(q, step, step.filter, q.places[step.filter]) else q
  }

  function TakeAll(steps: seq<Step>): Queue {
    if steps == [] then EMPTY else Take(TakeAll(steps[..|steps| - 1]), steps[|steps| - 1])
  }

  ghost predicate Claims(q: Queue, f: Filter, c: (Pid, Key)) {
    f in q.places && (q.places[f].pid, q.places[f].key) == c
  }

  /** A process has claimed exactly the keys its filters hold or are asking for, one filter each. */
  ghost predicate ClaimsMatch(q: Queue) {
    && (forall f | f in q.places :: (q.places[f].pid, q.places[f].key) in q.claimed)
    && (forall c | c in q.claimed :: exists f :: Claims(q, f, c))
    && (forall f, other | f in q.places && other in q.places
                          && q.places[f].pid == q.places[other].pid && q.places[f].key == q.places[other].key ::
          f == other)
  }

  /** A lock file is held for exactly the filter that got past waiting for it. */
  ghost predicate LocksMatch(q: Queue) {
    && (forall f | f in q.places && HasLock(q.places[f]) ::
          q.places[f].key in q.locks && q.locks[q.places[f].key] == f)
    && (forall k | k in q.locks ::
          q.locks[k] in q.places && q.places[q.locks[k]].key == k && HasLock(q.places[q.locks[k]]))
  }

  /** A stamp is written once, and never while someone compiles its kernels. */
  ghost predicate StampsMatch(q: Queue) {
    && (forall f | f in q.places && q.places[f].stage.Held? :: q.places[f].key !in q.stamps)
    && (forall k: Key :: Count(q, k) == if k in q.stamps then 1 else 0)
  }

  ghost predicate Orderly(q: Queue) { ClaimsMatch(q) && LocksMatch(q) && StampsMatch(q) }

  /** A filter that moves on leaves the others where they are. */
  lemma AdvanceMovesOne(q: Queue, step: Step, f: Filter)
    requires f in q.places
    ensures var later := Advance(q, step, f, q.places[f]);
            && later.places.Keys == (if f in later.places then q.places.Keys else q.places.Keys - {f})
            && (forall other | other in later.places ::
                  && later.places[other].pid == q.places[other].pid
                  && later.places[other].key == q.places[other].key
                  && (other != f ==> later.places[other] == q.places[other]))
            && later.claimed == (if f in later.places then q.claimed
                                 else q.claimed - {(q.places[f].pid, q.places[f].key)})
  {
    match q.places[f].stage {
      case Acquiring =>
      case Waiting =>
      case Locked =>
      case Held =>
      case Stamped =>
      case Leaving =>
    }
  }

  lemma AdvanceKeepsClaims(q: Queue, step: Step, f: Filter)
    requires ClaimsMatch(q) && f in q.places
    ensures ClaimsMatch(Advance(q, step, f, q.places[f]))
  {
    var later := Advance(q, step, f, q.places[f]);
    AdvanceMovesOne(q, step, f);
    forall c | c in later.claimed
      ensures exists owner :: Claims(later, owner, c)
    {
      var owner :| Claims(q, owner, c);
      assert Claims(later, owner, c);
    }
  }

  lemma StepKeepsClaims(q: Queue, step: Step)
    requires ClaimsMatch(q)
    ensures ClaimsMatch(Take(q, step))
  {
    var later := Take(q, step);
    if !step.Begin? && !step.Crash? {
      if step.filter in q.places { AdvanceKeepsClaims(q, step, step.filter); }
    } else {
      forall c | c in later.claimed
        ensures exists f :: Claims(later, f, c)
      {
        if c in q.claimed {
          var f :| Claims(q, f, c);
          assert Claims(later, f, c);
        } else {
          assert Claims(later, step.filter, c);
        }
      }
    }
  }

  lemma AdvanceKeepsLocks(q: Queue, step: Step, f: Filter)
    requires LocksMatch(q) && f in q.places
    ensures LocksMatch(Advance(q, step, f, q.places[f]))
  {
  }

  lemma StepKeepsLocks(q: Queue, step: Step)
    requires LocksMatch(q)
    ensures LocksMatch(Take(q, step))
  {
    if !step.Begin? && !step.Crash? && step.filter in q.places {
      AdvanceKeepsLocks(q, step, step.filter);
    }
  }

  lemma AdvanceKeepsStamps(q: Queue, step: Step, f: Filter)
    requires LocksMatch(q) && StampsMatch(q) && f in q.places
    ensures StampsMatch(Advance(q, step, f, q.places[f]))
  {
  }

  lemma StepKeepsStamps(q: Queue, step: Step)
    requires Orderly(q)
    ensures StampsMatch(Take(q, step))
  {
    hide Advance, ClaimsMatch, LocksMatch;
    if !step.Begin? && !step.Crash? && step.filter in q.places {
      AdvanceKeepsStamps(q, step, step.filter);
    }
  }

  lemma StepIsOrderly(q: Queue, step: Step)
    requires Orderly(q)
    ensures Orderly(Take(q, step))
  {
    StepKeepsClaims(q, step);
    StepKeepsLocks(q, step);
    StepKeepsStamps(q, step);
  }

  /** A filter's place changes only by its own steps, or when its process ends. */
  lemma OthersLeaveAlone(q: Queue, step: Step, f: Filter)
    requires if step.Crash? then f in q.places ==> q.places[f].pid != step.pid else step.filter != f
    ensures f in Take(q, step).places <==> f in q.places
    ensures f in q.places ==> Take(q, step).places[f] == q.places[f]
    ensures q.stamps <= Take(q, step).stamps
  {
  }

  lemma {:induction false} EveryRunIsOrderly(steps: seq<Step>)
    ensures Orderly(TakeAll(steps))
  {
    if steps != [] {
      var before := TakeAll(steps[..|steps| - 1]);
      EveryRunIsOrderly(steps[..|steps| - 1]);
      StepIsOrderly(before, steps[|steps| - 1]);
    }
  }

  /** Across every process and filter, whatever they do and however they end: at most one place per
  key is held, and while it is held its kernels have no stamp. */
  lemma OnePlacePerKey(steps: seq<Step>, first: Filter, second: Filter)
    requires var q := TakeAll(steps);
             && first in q.places && second in q.places && HasLock(q.places[first]) && HasLock(q.places[second])
             && q.places[first].key == q.places[second].key
    ensures first == second
    ensures TakeAll(steps).places[first].stage.Held? ==>
              TakeAll(steps).places[first].key !in TakeAll(steps).stamps
  {
    EveryRunIsOrderly(steps);
  }

  /** Only a holder that finishes leaves a stamp: no step that abandons a place does. */
  lemma OnlyFinishStamps(q: Queue, step: Step, key: Key)
    requires Orderly(q)
    ensures q.stamps <= Take(q, step).stamps
    ensures key in Take(q, step).stamps - q.stamps <==>
              && step.Finish? && step.works && step.filter in q.places
              && q.places[step.filter] == Place(q.places[step.filter].pid, key, Held)
  {
  }

  /** Filter `f` of process `pid` holds the place for `key`, which nobody had. */
  function Holding(q: Queue, f: Filter, pid: Pid, key: Key): Queue {
    q.(places := q.places[f := Place(pid, key, Held)], claimed := q.claimed + {(pid, key)}, locks := q.locks[key := f])
  }

  /** A filter whose process has not claimed its key, left to itself, comes to hold the place exactly when
  there is no stamp and nobody has the lock. */
  lemma AloneIsHeld(q: Queue, f: Filter, pid: Pid, key: Key)
    requires f !in q.places && (pid, key) !in q.claimed
    ensures var looked := Take(Take(Take(Take(q, Begin(f, pid, key)), FirstLook(f)), Lock(f)), SecondLook(f));
            if key in q.stamps || key in q.locks
            then f in looked.places && looked.places[f].stage in {Leaving, Waiting}
            else looked == Holding(q, f, pid, key)
  {
    var asking := q.places[f := Place(pid, key, Acquiring)];
    var begun := q.(places := asking, claimed := q.claimed + {(pid, key)});
    assert Take(q, Begin(f, pid, key)) == begun;
    var next := Take(begun, FirstLook(f));
    if key in q.stamps {
      assert next == begun.(places := asking[f := Place(pid, key, Leaving)]);
    } else {
      var waiting := asking[f := Place(pid, key, Waiting)];
      assert next == begun.(places := waiting);
      if key !in q.locks { LockedThenHeld(begun.(places := waiting), f); }
      assert waiting[f := Place(pid, key, Held)] == q.places[f := Place(pid, key, Held)];
    }
  }

  lemma LockedThenHeld(q: Queue, f: Filter)
    requires f in q.places && q.places[f].stage.Waiting?
    requires q.places[f].key !in q.locks && q.places[f].key !in q.stamps
    ensures Take(Take(q, Lock(f)), SecondLook(f))
         == q.(places := q.places[f := q.places[f].(stage := Held)], locks := q.locks[q.places[f].key := f])
  {
    var locked := q.places[f := q.places[f].(stage := Locked)];
    assert Take(q, Lock(f)) == q.(places := locked, locks := q.locks[q.places[f].key := f]);
    assert locked[f := q.places[f].(stage := Held)] == q.places[f := q.places[f].(stage := Held)];
  }

  /** Letting go of a place gives all of it back. */
  lemma HoldingIsGivenBack(q: Queue, f: Filter, pid: Pid, key: Key)
    requires f !in q.places && (pid, key) !in q.claimed && key !in q.locks
    ensures Take(Take(Holding(q, f, pid, key), Unlock(f)), Release(f)) == q
  {
    var left := q.places[f := Place(pid, key, Leaving)];
    var held := Holding(q, f, pid, key);
    assert held.places[f := Place(pid, key, Leaving)] == left && q.locks[key := f] - {key} == q.locks;
    assert Take(held, Unlock(f)) == held.(places := left, locks := q.locks);
    assert left - {f} == q.places && (q.claimed + {(pid, key)}) - {(pid, key)} == q.claimed;
  }

  // ---------------------------------------------------------------------------------------------
  // One filter's calls, with others coming in between
  // ---------------------------------------------------------------------------------------------

  /** The stages a filter's own step may take it to. */
  function Reached(step: Step, stage: Stage): set<Stage> {
    match stage
    case Acquiring => if step.FirstLook? then {Waiting, Leaving} else {stage}
    case Waiting => if step.GiveUp? then {Leaving} else if step.Lock? then {Waiting, Locked} else {stage}
    case Locked => if step.SecondLook? then {Held, Leaving} else {stage}
    case Held => if step.Unlock? then {Leaving} else if step.Finish? then {Stamped} else {stage}
    case Stamped => if step.Unlock? then {Leaving} else {stage}
    case Leaving => {stage}
  }

  /** Whether a look for the stamp or a try for the lock went as the queue said, and no step but a finish
  leaves a stamp. */
  ghost predicate Looked(q: Queue, step: Step, place: Place, later: Queue, stage: Stage) {
    && (step.FirstLook? && place.stage.Acquiring? ==> (stage.Leaving? <==> place.key in q.stamps))
    && (step.Lock? && place.stage.Waiting? ==> (stage.Locked? <==> place.key !in q.locks))
    && (step.SecondLook? && place.stage.Locked? ==> (stage.Held? <==> place.key !in q.stamps))
    && (!step.Finish? ==> later.stamps == q.stamps)
  }

  lemma OwnStep(q: Queue, step: Step, f: Filter, place: Place)
    requires !step.Crash? && !step.Begin? && step.filter == f && f in q.places && q.places[f] == place
    ensures var later := Take(q, step);
            f in later.places ==> Looked(q, step, place, later, later.places[f].stage)
    ensures var later := Take(q, step);
            && q.stamps <= later.stamps
            && (f in later.places <==> !(step.Release? && place.stage.Leaving?))
            && (step.Finish? && step.works && place.stage.Held? ==> place.key in later.stamps)
            && (f in later.places ==>
                  && later.places[f].pid == place.pid && later.places[f].key == place.key
                  && later.places[f].stage in Reached(step, place.stage))
  {
  }

  /** The cache directory and the processes' registries, as every filter sees them. */
  class Directory {
    var q: Queue

    constructor ()
      ensures q == EMPTY
    {
      q := EMPTY;
    }

    /** Whether a step is one that filter `f` of process `pid` would take, or ends its process. */
    predicate Concerns(step: Step, f: Filter, pid: Pid) {
      if step.Crash? then step.pid == pid else step.filter == f
    }

    /** Other filters and processes take any number of steps. */
    method Others(f: Filter, pid: Pid)
      requires Orderly(q)
      requires f in q.places ==> q.places[f].pid == pid
      modifies this
      ensures Orderly(q)
      ensures (f in q.places <==> f in old(q).places) && (f in q.places ==> q.places[f] == old(q).places[f])
      ensures old(q).stamps <= q.stamps
    {
      var steps := *;
      while steps > 0
        invariant Orderly(q) && old(q).stamps <= q.stamps
        invariant (f in q.places <==> f in old(q).places) && (f in q.places ==> q.places[f] == old(q).places[f])
      {
        steps := steps - 1;
        var step: Step := *;
        if !Concerns(step, f, pid) {
          StepIsOrderly(q, step);
          OthersLeaveAlone(q, step, f);
          q := Take(q, step);
        }
      }
    }

    /** Filter `f` takes one step of its own, from wherever the others left things. */
    method Act(step: Step, f: Filter, place: Place) returns (ghost before: Queue)
      requires Orderly(q) && Concerns(step, f, place.pid) && !step.Crash? && !step.Begin?
      requires f in q.places && q.places[f] == place
      modifies this
      ensures Orderly(q) && old(q).stamps <= q.stamps
      ensures old(q).stamps <= before.stamps <= q.stamps
      ensures f in q.places ==> Looked(before, step, place, q, q.places[f].stage)
      ensures f in q.places <==> !(step.Release? && place.stage.Leaving?)
      ensures step.Finish? && step.works && place.stage.Held? ==> place.key in q.stamps
      ensures f in q.places ==>
                && q.places[f].pid == place.pid && q.places[f].key == place.key
                && q.places[f].stage in Reached(step, place.stage)
    {
      Others(f, place.pid);
      before := q;
      StepIsOrderly(q, step);
      OwnStep(q, step, f, place);
      q := Take(q, step);
    }

    /** Leaves `f` holding the place for `key`, with no stamp there, or with no place and no claim. */
    method BeginIn(f: Filter, pid: Pid, key: Key, patient: bool) returns (held: bool)
      requires Orderly(q) && f !in q.places
      modifies this
      ensures Orderly(q) && old(q).stamps <= q.stamps
      ensures held ==> f in q.places && q.places[f] == Place(pid, key, Held) && key !in q.stamps
      ensures !held ==> f !in q.places
    {
      Others(f, pid);
      StepIsOrderly(q, Begin(f, pid, key));
      q := Take(q, Begin(f, pid, key));
      if f !in q.places {
        return false;
      }
      ghost var tried;
      held, tried := Acquire(f, q.places[f], patient);
      if !held {
        ghost var before := Act(Release(f), f, q.places[f]);
      }
    }

    /** Waits for the lock and looks for the stamp on both sides of the wait: a stamp that was there
    before, or that appears while others act, keeps the place from being held. Otherwise a filter that
    waits long enough to find the lock free, when the queue stood at `tried`, gets the place. */
    method Acquire(f: Filter, place: Place, patient: bool) returns (held: bool, ghost tried: Queue)
      requires Orderly(q) && f in q.places && q.places[f] == place && place.stage.Acquiring?
      modifies this
      ensures Orderly(q) && old(q).stamps <= tried.stamps <= q.stamps
      ensures f in q.places && q.places[f] == place.(stage := if held then Held else Leaving)
      ensures place.key in old(q).stamps ==> !held
      ensures held <==> patient && place.key !in tried.locks && place.key !in q.stamps
    {
      hide Orderly, Take;
      ghost var looked := Act(FirstLook(f), f, place);
      tried := q;
      if q.places[f].stage.Leaving? {
        return false, tried;
      }
      if patient {
        tried := Act(Lock(f), f, q.places[f]);
      }
      if q.places[f].stage.Waiting? {
        looked := Act(GiveUp(f), f, q.places[f]);
        return false, tried;
      }
      looked := Act(SecondLook(f), f, q.places[f]);
      held := q.places[f].stage.Held?;
    }

    /** Gives up a place, finished or not. Only a finish whose write works leaves a stamp. */
    method GiveBack(f: Filter, place: Place, finished: bool, works: bool)
      requires Orderly(q) && f in q.places && q.places[f] == place && place.stage.Held?
      modifies this
      ensures Orderly(q) && f !in q.places && old(q).stamps <= q.stamps
      ensures finished && works ==> place.key in q.stamps
    {
      hide Orderly, Take, Looked;
      ghost var before;
      if finished {
        before := Act(Finish(f, works), f, place);
      }
      before := Act(Unlock(f), f, q.places[f]);
      before := Act(Release(f), f, q.places[f]);
    }
  }
}
