/** The warm-up queue and the kernel cache together: what it takes for a process that waited to find the
kernels it waited for.

A run interleaves the steps of both, of any number of processes. They meet where a holder writes its stamp,
whatever became of the merge before it, and where a process comes or goes.
 */
module WarmCache {
  import opened Wrappers
  import opened KernelCache
  import WarmUp

  type WarmKey = WarmUp.Key

  datatype State = State(cache: World, queue: WarmUp.Queue)

  datatype Turn = OnCache(cache: Step) | OnQueue(queue: WarmUp.Step)

  /** A process that exits is gone from both, and only a running one joins the queue. */
  function TakeTurn(s: State, turn: Turn): State {
    match turn
    case OnCache(step) =>
      State(Take(s.cache, step), if step.StepExit? then WarmUp.Take(s.queue, WarmUp.Crash(step.pid)) else s.queue)
    case OnQueue(step) =>
      if step.Begin? && step.pid !in s.cache.running then s
      else State(if step.Crash? then Take(s.cache, StepExit(step.pid)) else s.cache, WarmUp.Take(s.queue, step))
  }

  function TakeTurns(turns: seq<Turn>): State {
    if turns == [] then State(EMPTY, WarmUp.EMPTY)
    else TakeTurn(TakeTurns(turns[..|turns| - 1]), turns[|turns| - 1])
  }

  // ---------------------------------------------------------------------------------------------
  // Each machine goes through one of its own runs
  // ---------------------------------------------------------------------------------------------

  /** The step a turn takes on the cache, if any, and on the queue. */
  function OfCache(turn: Turn): seq<Step> {
    if turn.OnCache? then [turn.cache]
    else if turn.queue.Crash? then [StepExit(turn.queue.pid)] else []
  }

  function OfQueue(s: State, turn: Turn): seq<WarmUp.Step> {
    if turn.OnCache? then (if turn.cache.StepExit? then [WarmUp.Crash(turn.cache.pid)] else [])
    else if turn.queue.Begin? && turn.queue.pid !in s.cache.running then []
    else [turn.queue]
  }

  function CacheSteps(turns: seq<Turn>): seq<Step> {
    if turns == [] then [] else CacheSteps(turns[..|turns| - 1]) + OfCache(turns[|turns| - 1])
  }

  function QueueSteps(turns: seq<Turn>): seq<WarmUp.Step> {
    if turns == [] then []
    else
      var before := turns[..|turns| - 1];
      QueueSteps(before) + OfQueue(TakeTurns(before), turns[|turns| - 1])
  }

  lemma TakeStep(steps: seq<Step>, more: seq<Step>)
    requires |more| <= 1
    ensures TakeAll(steps + more) == if more == [] then TakeAll(steps) else Take(TakeAll(steps), more[0])
  {
    assert more == [] ==> steps + more == steps;
    assert more != [] ==> (steps + more)[..|steps|] == steps;
  }

  lemma TakeQueueStep(steps: seq<WarmUp.Step>, more: seq<WarmUp.Step>)
    requires |more| <= 1
    ensures WarmUp.TakeAll(steps + more)
         == if more == [] then WarmUp.TakeAll(steps) else WarmUp.Take(WarmUp.TakeAll(steps), more[0])
  {
    assert more == [] ==> steps + more == steps;
    assert more != [] ==> (steps + more)[..|steps|] == steps;
  }

  lemma TurnIsStep(s: State, turn: Turn)
    ensures |OfCache(turn)| <= 1 && |OfQueue(s, turn)| <= 1
    ensures TakeTurn(s, turn).cache
         == if OfCache(turn) == [] then s.cache else Take(s.cache, OfCache(turn)[0])
    ensures TakeTurn(s, turn).queue
         == if OfQueue(s, turn) == [] then s.queue else WarmUp.Take(s.queue, OfQueue(s, turn)[0])
  {
    hide Take, WarmUp.Take;
  }

  lemma {:induction false} RunsOfEach(turns: seq<Turn>)
    ensures TakeTurns(turns).cache == TakeAll(CacheSteps(turns))
    ensures TakeTurns(turns).queue == WarmUp.TakeAll(QueueSteps(turns))
  {
    if turns != [] {
      var before, last := turns[..|turns| - 1], turns[|turns| - 1];
      var s := TakeTurns(before);
      RunsOfEach(before);
      TurnIsStep(s, last);
      TakeStep(CacheSteps(before), OfCache(last));
      TakeQueueStep(QueueSteps(before), OfQueue(s, last));
      hide OfCache, OfQueue, Take, TakeTurn, WarmUp.Take;
    }
  }

  /** Whatever the turns, the cache is safe and the queue in order. */
  lemma EveryRunIsSound(turns: seq<Turn>)
    ensures Safe(TakeTurns(turns).cache) && WarmUp.Orderly(TakeTurns(turns).queue)
  {
    RunsOfEach(turns);
    EveryRunIsSafe(CacheSteps(turns));
    WarmUp.EveryRunIsOrderly(QueueSteps(turns));
  }

  /** Every place in the queue is a running process's. */
  ghost predicate PlacesRun(s: State) {
    forall f | f in s.queue.places :: s.queue.places[f].pid in s.cache.running
  }

  lemma TurnKeepsPlaces(s: State, turn: Turn)
    requires PlacesRun(s)
    ensures PlacesRun(TakeTurn(s, turn))
  {
    if turn.OnQueue? && !turn.queue.Begin? && !turn.queue.Crash? && turn.queue.filter in s.queue.places {
      WarmUp.AdvanceMovesOne(s.queue, turn.queue, turn.queue.filter);
      hide WarmUp.Advance;
    }
  }

  lemma {:induction false} EveryPlaceRuns(turns: seq<Turn>)
    ensures PlacesRun(TakeTurns(turns))
  {
    if turns != [] {
      EveryPlaceRuns(turns[..|turns| - 1]);
      TurnKeepsPlaces(TakeTurns(turns[..|turns| - 1]), turns[|turns| - 1]);
    }
  }

  // ---------------------------------------------------------------------------------------------
  // What a stamp stands for
  // ---------------------------------------------------------------------------------------------

  /** Whether a turn writes the stamp of `key`. */
  predicate Stamps(s: State, turn: Turn, key: WarmKey) {
    && turn.OnQueue? && turn.queue.Finish? && turn.queue.works
    && turn.queue.filter in s.queue.places
    && s.queue.places[turn.queue.filter] == WarmUp.Place(s.queue.places[turn.queue.filter].pid, key, WarmUp.Held)
  }

  /** The kernels the stamp of `key` stands for: all that the holder's process had compiled when it wrote
  it. */
  function Vouched(turns: seq<Turn>, key: WarmKey): set<Key> {
    if turns == [] then {}
    else
      var before := turns[..|turns| - 1];
      var last := turns[|turns| - 1];
      var s := TakeTurns(before);
      if Stamps(s, last, key) then
        var pid := s.queue.places[last.queue.filter].pid;
        if pid in s.cache.running then Compiled(s.cache.running[pid]) else {}
      else Vouched(before, key)
  }

  /** What a process compiled is to be had from the shared file and `others` exactly when that is so of
  what it still has to offer. */
  lemma CompiledIsShared(p: Process, w: World, others: set<Key>)
    requires Accounted(p, w.shared.entries, w.compiled)
    ensures Compiled(p) <= w.shared.entries.Keys + others
            <==> p.Offered().Keys <= w.shared.entries.Keys + others
  {
    if p.Offered().Keys <= w.shared.entries.Keys + others {
      forall k | k in Compiled(p)
        ensures k in w.shared.entries.Keys + others
      {
        assert k in p.Offered() || k in p.merged;
      }
    } else {
      var k :| k in p.Offered() && k !in w.shared.entries.Keys + others;
      assert k in Compiled(p);
    }
  }

  lemma StampIsWritten(s: State, turn: Turn, key: WarmKey)
    requires Stamps(s, turn, key)
    ensures TakeTurn(s, turn).cache == s.cache && key in TakeTurn(s, turn).queue.stamps
  {
  }

  /** Over all runs: when a stamp is written, the kernels it stands for are shared exactly when the holder's
  process has nothing left to offer that is not. */
  lemma StampIsTrue(turns: seq<Turn>, turn: Turn, key: WarmKey)
    requires Stamps(TakeTurns(turns), turn, key)
    ensures var s := TakeTurns(turns);
            var pid := s.queue.places[turn.queue.filter].pid;
            var later := TakeTurns(turns + [turn]);
            && pid in s.cache.running && later.cache == s.cache && key in later.queue.stamps
            && Vouched(turns + [turn], key) == Compiled(s.cache.running[pid])
            && (Vouched(turns + [turn], key) <= later.cache.shared.entries.Keys
                <==> s.cache.running[pid].Offered().Keys <= s.cache.shared.entries.Keys)
  {
    var s := TakeTurns(turns);
    var pid := s.queue.places[turn.queue.filter].pid;
    assert (turns + [turn])[..|turns|] == turns;
    EveryRunIsSound(turns);
    EveryPlaceRuns(turns);
    StampIsWritten(s, turn, key);
    hide Accounted, TakeTurn, WarmUp.Orderly;
    CompiledIsShared(s.cache.running[pid], s.cache, {});
    assert s.cache.shared.entries.Keys + {} == s.cache.shared.entries.Keys;
  }

  lemma StampedIsNotHeld(s: State, turn: Turn, key: WarmKey)
    requires WarmUp.Orderly(s.queue) && key in s.queue.stamps
    ensures !Stamps(s, turn, key)
  {
  }

  /** A stamp stands for the same kernels ever after. */
  lemma {:induction false} VouchedOnce(turns: seq<Turn>, more: seq<Turn>, key: WarmKey)
    requires key in TakeTurns(turns).queue.stamps
    ensures Vouched(turns + more, key) == Vouched(turns, key)
    ensures key in TakeTurns(turns + more).queue.stamps
    ensures Grows(TakeTurns(turns).cache.shared.entries, TakeTurns(turns + more).cache.shared.entries)
  {
    if more == [] {
      assert turns + more == turns;
    } else {
      var before, last := more[..|more| - 1], more[|more| - 1];
      VouchedOnce(turns, before, key);
      assert (turns + more)[..|turns + more| - 1] == turns + before;
      VouchedNext(turns + before, last, key);
      assert (turns + before) + [last] == turns + more;
      hide TakeTurns, Vouched;
    }
  }

  /** One more turn changes nothing about a stamp that is there. */
  lemma VouchedNext(turns: seq<Turn>, turn: Turn, key: WarmKey)
    requires key in TakeTurns(turns).queue.stamps
    ensures Vouched(turns + [turn], key) == Vouched(turns, key)
    ensures key in TakeTurns(turns + [turn]).queue.stamps
    ensures Grows(TakeTurns(turns).cache.shared.entries, TakeTurns(turns + [turn]).cache.shared.entries)
  {
    var s := TakeTurns(turns);
    assert (turns + [turn])[..|turns|] == turns;
    EveryRunIsSound(turns);
    TurnGrows(s, turn);
    StampedIsNotHeld(s, turn, key);
    hide Compiled, Safe, Stamps, TakeTurn, WarmUp.Orderly;
  }

  lemma TurnGrows(s: State, turn: Turn)
    requires WarmUp.Orderly(s.queue)
    ensures Grows(s.cache.shared.entries, TakeTurn(s, turn).cache.shared.entries)
    ensures s.queue.stamps <= TakeTurn(s, turn).queue.stamps
  {
    match turn {
      case OnCache(step) =>
        StepGrows(s.cache, step);
        if step.StepExit? { WarmUp.OnlyFinishStamps(s.queue, WarmUp.Crash(step.pid), 0); }
      case OnQueue(step) =>
        if step.Crash? { StepGrows(s.cache, StepExit(step.pid)); }
        WarmUp.OnlyFinishStamps(s.queue, step, 0);
    }
  }

  /** Kernels that are shared when their stamp is written can be had from then on, whatever follows. */
  lemma VouchedStaysShared(turns: seq<Turn>, more: seq<Turn>, key: WarmKey)
    requires key in TakeTurns(turns).queue.stamps
    requires Vouched(turns, key) <= TakeTurns(turns).cache.shared.entries.Keys
    ensures Vouched(turns + more, key) <= TakeTurns(turns + more).cache.shared.entries.Keys
  {
    VouchedOnce(turns, more, key);
  }

  /** A holder's finish, with nothing in between: its merge, and then its stamp. */
  function FinishTurns(pid: Pid, f: WarmUp.Filter, readable: bool, outcome: Outcome): seq<Turn> {
    [OnCache(StepObserve(pid)), OnCache(StepScan(pid, readable)), OnCache(StepLand(pid, outcome)),
     OnQueue(WarmUp.Finish(f, true))]
  }

  /** The keys that a merge gets into the shared file. */
  function Lands(p: Process, readable: bool, outcome: Outcome): set<Key> {
    if p.writes != p.written && readable && outcome.Landed? then p.Offered().Keys * outcome.keys else {}
  }

  /** Whether a merge gets as far as writing to the shared file. */
  predicate Writes(p: Process, readable: bool, outcome: Outcome) {
    p.writes != p.written && readable && outcome.Landed? && p.Offered() != map[]
  }

  lemma MergeLands(p: Process, s: Shared, readable: bool, outcome: Outcome)
    requires p.phase == Idle
    ensures Merge(p, s, readable, outcome).1.modified == s.modified + if Writes(p, readable, outcome) then 1 else 0
    ensures Merge(p, s, readable, outcome).1.entries.Keys == s.entries.Keys + Lands(p, readable, outcome)
    ensures Merge(p, s, readable, outcome).0.entries == p.entries
  {
    var scanned := p.(phase := Scanned(p.writes, p.Offered()));
    assert p.(phase := Observed(p.writes)).Offered() == p.Offered();
  }

  lemma TurnNext(turns: seq<Turn>, turn: Turn)
    ensures TakeTurns(turns + [turn]) == TakeTurn(TakeTurns(turns), turn)
  {
    assert (turns + [turn])[..|turns|] == turns;
  }

  /** What a merge with nothing in between makes of a running process and the shared file. */
  lemma MergeTurns(turns: seq<Turn>, pid: Pid, readable: bool, outcome: Outcome) returns (merged: seq<Turn>)
    requires pid in TakeTurns(turns).cache.running && TakeTurns(turns).cache.running[pid].phase == Idle
    ensures merged == turns + [OnCache(StepObserve(pid)), OnCache(StepScan(pid, readable)),
                               OnCache(StepLand(pid, outcome))]
    ensures var s := TakeTurns(turns);
            var (p, shared) := Merge(s.cache.running[pid], s.cache.shared, readable, outcome);
            TakeTurns(merged) == State(World(shared, s.cache.running[pid := p], s.cache.compiled), s.queue)
  {
    var s := TakeTurns(turns);
    var observe, scan := OnCache(StepObserve(pid)), OnCache(StepScan(pid, readable));
    var land := OnCache(StepLand(pid, outcome));
    var first, second := turns + [observe], turns + [observe, scan];
    merged := turns + [observe, scan, land];
    TurnNext(turns, observe);
    assert second == first + [scan] && merged == second + [land];
    TurnNext(first, scan);
    TurnNext(second, land);
    hide Land, Observe, Scan;
    var p := s.cache.running[pid];
    var observed: map<Pid, Process> := s.cache.running[pid := Observe(p)];
    var scanned: map<Pid, Process> := observed[pid := Scan(Observe(p), readable)];
    assert TakeTurns(first) == State(s.cache.(running := observed), s.queue);
    assert TakeTurns(second) == State(s.cache.(running := scanned), s.queue);
    var landed: map<Pid, Process> := scanned[pid := Merge(p, s.cache.shared, readable, outcome).0];
    assert landed == s.cache.running[pid := Merge(p, s.cache.shared, readable, outcome).0];
  }

  /** Over all runs that a holder ends with its finish: the stamp is written whatever became of the merge,
  and the kernels it stands for are shared exactly when each one still to be merged landed, or was there. */
  lemma FinishStands(turns: seq<Turn>, f: WarmUp.Filter, key: WarmKey, pid: Pid, readable: bool, outcome: Outcome)
    requires var s := TakeTurns(turns);
             && f in s.queue.places && s.queue.places[f] == WarmUp.Place(pid, key, WarmUp.Held)
             && pid in s.cache.running && s.cache.running[pid].phase == Idle
    ensures var s := TakeTurns(turns);
            var p := s.cache.running[pid];
            var finished := turns + FinishTurns(pid, f, readable, outcome);
            var shared := TakeTurns(finished).cache.shared;
            && key in TakeTurns(finished).queue.stamps
            && Vouched(finished, key) == Compiled(p)
            && shared == Merge(p, s.cache.shared, readable, outcome).1
            && (Vouched(finished, key) <= shared.entries.Keys
                <==> p.Offered().Keys <= s.cache.shared.entries.Keys + Lands(p, readable, outcome))
  {
    var s := TakeTurns(turns);
    var p := s.cache.running[pid];
    var merged := MergeTurns(turns, pid, readable, outcome);
    var stamp := OnQueue(WarmUp.Finish(f, true));
    assert turns + FinishTurns(pid, f, readable, outcome) == merged + [stamp];
    MergeLands(p, s.cache.shared, readable, outcome);
    EveryRunIsSound(turns);
    CompiledIsShared(p, s.cache, Lands(p, readable, outcome));
    StampIsTrue(merged, stamp, key);
  }

  /** A finish whose merge meets no failure is as good as its word exactly when the process had seen a write
  since it last took note, or had nothing to offer that was not shared. */
  lemma SoundFinish(turns: seq<Turn>, f: WarmUp.Filter, key: WarmKey, pid: Pid, keys: set<Key>)
    requires var s := TakeTurns(turns);
             && f in s.queue.places && s.queue.places[f] == WarmUp.Place(pid, key, WarmUp.Held)
             && pid in s.cache.running && s.cache.running[pid].phase == Idle
             && s.cache.running[pid].Offered().Keys <= keys
    ensures var s := TakeTurns(turns);
            var p := s.cache.running[pid];
            var finished := turns + FinishTurns(pid, f, true, Landed(keys));
            Vouched(finished, key) <= TakeTurns(finished).cache.shared.entries.Keys
            <==> (p.writes != p.written || p.Offered().Keys <= s.cache.shared.entries.Keys)
  {
    FinishStands(turns, f, key, pid, true, Landed(keys));
  }

  /** In runs where no refill falls between a compile and the merge after it, a finish whose merge meets no
  failure is always as good as its word. */
  lemma FinishKeepsWord(turns: seq<Turn>, f: WarmUp.Filter, key: WarmKey, pid: Pid, keys: set<Key>)
    requires NothingLost(CacheSteps(turns))
    requires var s := TakeTurns(turns);
             && f in s.queue.places && s.queue.places[f] == WarmUp.Place(pid, key, WarmUp.Held)
             && pid in s.cache.running && s.cache.running[pid].phase == Idle
             && s.cache.running[pid].Offered().Keys <= keys
    ensures var finished := turns + FinishTurns(pid, f, true, Landed(keys));
            Vouched(finished, key) <= TakeTurns(finished).cache.shared.entries.Keys
  {
    RunsOfEach(turns);
    MergesOverlookNothing(CacheSteps(turns));
    SoundFinish(turns, f, key, pid, keys);
  }

  /** In such runs a stamp is as good as its word whenever its process takes its private file for merged. */
  lemma MergedStampIsTrue(turns: seq<Turn>, turn: Turn, key: WarmKey)
    requires NothingLost(CacheSteps(turns)) && Stamps(TakeTurns(turns), turn, key)
    requires var s := TakeTurns(turns);
             var pid := s.queue.places[turn.queue.filter].pid;
             pid in s.cache.running && s.cache.running[pid].written == s.cache.running[pid].writes
    ensures Vouched(turns + [turn], key) <= TakeTurns(turns + [turn]).cache.shared.entries.Keys
  {
    RunsOfEach(turns);
    MergesOverlookNothing(CacheSteps(turns));
    StampIsTrue(turns, turn, key);
  }

  /** Over all runs: whoever sees the stamp and whose refill meets no failure has every kernel the stamp
  stands for exactly when it had them already, or the shared file is not the one it last read or wrote and
  what it did not have itself is there. */
  lemma WaiterHasKernels(turns: seq<Turn>, key: WarmKey, pid: Pid, keys: set<Key>)
    requires key in TakeTurns(turns).queue.stamps
    requires pid in TakeTurns(turns).cache.running && TakeTurns(turns).cache.running[pid].phase == Idle
    requires TakeTurns(turns).cache.shared.entries.Keys <= keys
    ensures var shared := TakeTurns(turns).cache.shared;
            var p := TakeTurns(turns).cache.running[pid];
            Vouched(turns, key) <= CopyIn(p, shared, Landed(keys)).entries.Keys
            <==> (Vouched(turns, key) <= p.entries.Keys
                  || (p.seen != ModifiedAt(shared)
                      && Vouched(turns, key) <= shared.entries.Keys + p.entries.Keys))
  {
    EveryRunIsSound(turns);
    RefillAdds(TakeTurns(turns).cache.running[pid], TakeTurns(turns).cache.shared, keys);
  }

  lemma RefillAdds(p: Process, s: Shared, keys: set<Key>)
    requires p.phase == Idle && s.entries.Keys <= keys && (s.modified == 0 ==> s.entries == map[])
    ensures CopyIn(p, s, Landed(keys)).entries.Keys
         == p.entries.Keys + (if p.seen != ModifiedAt(s) then s.entries.Keys else {})
  {
  }

  /** A holder's finish and then another process's refill, over all runs before: the other has every kernel
  the holder compiled exactly when it had them, or the shared file was not the one it last read or wrote or
  is written to by the finish, and each kernel the holder still had to merge lands, was shared, or was the
  other's already. */
  lemma PromiseIsKept(turns: seq<Turn>, f: WarmUp.Filter, key: WarmKey, pid: Pid, readable: bool, outcome: Outcome,
                      waiter: Pid, keys: set<Key>)
    requires var s := TakeTurns(turns);
             && f in s.queue.places && s.queue.places[f] == WarmUp.Place(pid, key, WarmUp.Held)
             && pid in s.cache.running && s.cache.running[pid].phase == Idle
             && waiter in s.cache.running && s.cache.running[waiter].phase == Idle && waiter != pid
             && s.cache.shared.entries.Keys + Lands(s.cache.running[pid], readable, outcome) <= keys
    ensures var s := TakeTurns(turns);
            var p, q := s.cache.running[pid], s.cache.running[waiter];
            var finished := TakeTurns(turns + FinishTurns(pid, f, readable, outcome));
            && waiter in finished.cache.running && finished.cache.running[waiter] == q
            && (Compiled(p) <= CopyIn(q, finished.cache.shared, Landed(keys)).entries.Keys
                <==> (Compiled(p) <= q.entries.Keys
                      || ((Writes(p, readable, outcome) || q.seen != ModifiedAt(s.cache.shared))
                          && p.Offered().Keys <= s.cache.shared.entries.Keys + Lands(p, readable, outcome)
                                                 + q.entries.Keys)))
  {
    hide Accounted, Compiled, CopyIn, Merge, TakeTurns, Vouched, WarmUp.Orderly;
    var s := TakeTurns(turns);
    var p, q := s.cache.running[pid], s.cache.running[waiter];
    var merged := MergeTurns(turns, pid, readable, outcome);
    var stamp := OnQueue(WarmUp.Finish(f, true));
    assert turns + FinishTurns(pid, f, readable, outcome) == merged + [stamp];
    FinishStands(turns, f, key, pid, readable, outcome);
    TurnNext(merged, stamp);
    MergeLands(p, s.cache.shared, readable, outcome);
    WaiterHasKernels(merged + [stamp], key, waiter, keys);
    RunsOfEach(turns);
    EveryRunSeesThePast(CacheSteps(turns));
    EveryRunIsSound(turns);
    CompiledIsShared(p, s.cache, Lands(p, readable, outcome) + q.entries.Keys);
    assert s.cache.shared.entries.Keys + (Lands(p, readable, outcome) + q.entries.Keys)
        == s.cache.shared.entries.Keys + Lands(p, readable, outcome) + q.entries.Keys;
  }

  // ---------------------------------------------------------------------------------------------
  // Where the promise fails
  // ---------------------------------------------------------------------------------------------

  /** Kernel 7 is one that the stamp of key 5 stands for, and that process 1 goes without: a refill changes
  nothing about that, however many entries it may write. */
  ghost predicate WaiterLacks(turns: seq<Turn>) {
    var s := TakeTurns(turns);
    && 5 in s.queue.stamps && 7 in Vouched(turns, 5)
    && 1 in s.cache.running && s.cache.running[1].phase == Idle
    && forall keys :: 7 !in CopyIn(s.cache.running[1], s.cache.shared, Landed(keys)).entries
  }

  const COLD_PROCESS := Process(map[], 0, 0, {}, None, Idle)

  /** The queue when filter 0 of process 0 is the only one, for key 5. */
  function Asking(stage: WarmUp.Stage, locks: map<WarmKey, WarmUp.Filter>): WarmUp.Queue {
    WarmUp.Queue(map[0 := WarmUp.Place(0, 5, stage)], {(0, 5)}, locks, {}, map[])
  }

  const HELD := Asking(WarmUp.Held, map[5 := 0])

  lemma RunOnTo(turns: seq<Turn>, turn: Turn, after: State) returns (more: seq<Turn>)
    requires TakeTurn(TakeTurns(turns), turn) == after
    ensures more == turns + [turn] && TakeTurns(more) == after
  {
    more := turns + [turn];
    TurnNext(turns, turn);
  }

  /** Two processes start cold, and the first gets the place. */
  lemma Opening() returns (turns: seq<Turn>)
    ensures TakeTurns(turns)
         == State(World(Shared(map[], 0), map[0 := COLD_PROCESS, 1 := COLD_PROCESS], {}), HELD)
  {
    var empty := Shared(map[], 0);
    var first := World(empty, map[0 := COLD_PROCESS], {});
    var both := World(empty, map[0 := COLD_PROCESS, 1 := COLD_PROCESS], {});
    turns := RunOnTo([], OnCache(StepStart(0, true)), State(first, WarmUp.EMPTY));
    turns := RunOnTo(turns, OnCache(StepStart(1, true)), State(both, WarmUp.EMPTY));
    turns := RunOnTo(turns, OnQueue(WarmUp.Begin(0, 0, 5)),
                     State(both, Asking(WarmUp.Acquiring, map[])));
    turns := RunOnTo(turns, OnQueue(WarmUp.FirstLook(0)),
                     State(both, Asking(WarmUp.Waiting, map[])));
    turns := RunOnTo(turns, OnQueue(WarmUp.Lock(0)),
                     State(both, Asking(WarmUp.Locked, map[5 := 0])));
    turns := RunOnTo(turns, OnQueue(WarmUp.SecondLook(0)), State(both, HELD));
  }

  /** Process 0 has compiled kernel 7 and process 1 kernel 8. */
  lemma BothCompiled(p0: Process, p1: Process) returns (turns: seq<Turn>)
    requires p0 == Process(map[7 := Entry(70, Local)], 1, 0, {}, None, Idle)
    requires p1 == Process(map[8 := Entry(80, Local)], 1, 0, {}, None, Idle)
    ensures TakeTurns(turns)
         == State(World(Shared(map[], 0), map[0 := p0, 1 := p1], {(7, 70), (8, 80)}), HELD)
  {
    var empty := Shared(map[], 0);
    turns := Opening();
    turns := RunOnTo(turns, OnCache(StepCompile(0, 7, 70)),
                     State(World(empty, map[0 := p0, 1 := COLD_PROCESS], {(7, 70)}), HELD));
    turns := RunOnTo(turns, OnCache(StepCompile(1, 8, 80)),
                     State(World(empty, map[0 := p0, 1 := p1], {(7, 70), (8, 80)}), HELD));
  }

  /** The merge before the stamp fails, and the stamp is written all the same. */
  lemma FailedMergeStamps() returns (turns: seq<Turn>)
    ensures WaiterLacks(turns)
    ensures 7 !in TakeTurns(turns).cache.shared.entries
  {
    var p0 := Process(map[7 := Entry(70, Local)], 1, 0, {}, None, Idle);
    var p1 := Process(map[8 := Entry(80, Local)], 1, 0, {}, None, Idle);
    var before := BothCompiled(p0, p1);
    turns := before + FinishTurns(0, 0, true, Unavailable);
    PromiseIsKept(before, 0, 5, 0, true, Unavailable, 1, {});
    FinishStands(before, 0, 5, 0, true, Unavailable);
    MergeLands(p0, Shared(map[], 0), true, Unavailable);
    assert 7 in Compiled(p0);
  }

  /** What a process that compiled one kernel makes of the shared file when it merges. */
  lemma OneMerged(p: Process, key: Key, value: Value, s: Shared) returns (merged: Process)
    requires p == Process(map[key := Entry(value, Local)], 1, 0, {}, None, Idle) && key !in s.entries
    ensures Merge(p, s, true, Landed({key})) == (merged, Shared(s.entries[key := value], s.modified + 1))
    ensures merged == Process(p.entries, 1, 1, {key}, Some(s.modified + 1), Idle)
  {
    var offer: map<Key, Value> := map[key := value];
    var observed := p.(phase := Observed(1));
    assert observed.Offered() == offer;
    assert key in offer;
    assert Inserted(s.entries, offer, {key}) == s.entries[key := value];
    merged := Merge(p, s, true, Landed({key})).0;
  }

  /** The waiter merged a kernel of its own between the holder's merge and the stamp, and so takes the shared
  file for one it knows. */
  lemma OwnMergeHidesStamp() returns (turns: seq<Turn>)
    ensures WaiterLacks(turns)
    ensures 7 in TakeTurns(turns).cache.shared.entries
  {
    var p0 := Process(map[7 := Entry(70, Local)], 1, 0, {}, None, Idle);
    var p1 := Process(map[8 := Entry(80, Local)], 1, 0, {}, None, Idle);
    turns := BothCompiled(p0, p1);
    var m0, m1;
    turns, m0 := HolderMerges(turns, p0, p1);
    turns, m1 := WaiterMerges(turns, p1, m0, map[7 := 70], 1);
    turns := StampedUnseen(turns, m0, m1);
  }

  /** Process 0 merges kernel 7 into an empty shared file. */
  lemma HolderMerges(before: seq<Turn>, p0: Process, p1: Process) returns (turns: seq<Turn>, m0: Process)
    requires p0 == Process(map[7 := Entry(70, Local)], 1, 0, {}, None, Idle)
    requires TakeTurns(before)
          == State(World(Shared(map[], 0), map[0 := p0, 1 := p1], {(7, 70), (8, 80)}), HELD)
    ensures m0.entries == map[7 := Entry(70, Local)]
    ensures TakeTurns(turns)
         == State(World(Shared(map[7 := 70], 1), map[0 := m0, 1 := p1], {(7, 70), (8, 80)}), HELD)
  {
    hide Merge;
    m0 := OneMerged(p0, 7, 70, Shared(map[], 0));
    turns := MergeTurns(before, 0, true, Landed({7}));
  }

  /** Process 1 merges kernel 8 beside what is in the shared file. */
  lemma WaiterMerges(before: seq<Turn>, p1: Process, other: Process, entries: map<Key, Value>, modified: nat)
    returns (turns: seq<Turn>, m1: Process)
    requires p1 == Process(map[8 := Entry(80, Local)], 1, 0, {}, None, Idle) && 8 !in entries
    requires TakeTurns(before)
          == State(World(Shared(entries, modified), map[0 := other, 1 := p1], {(7, 70), (8, 80)}), HELD)
    ensures m1 == Process(map[8 := Entry(80, Local)], 1, 1, {8}, Some(modified + 1), Idle)
    ensures TakeTurns(turns)
         == State(World(Shared(entries[8 := 80], modified + 1), map[0 := other, 1 := m1], {(7, 70), (8, 80)}), HELD)
  {
    hide Merge;
    m1 := OneMerged(p1, 8, 80, Shared(entries, modified));
    turns := MergeTurns(before, 1, true, Landed({8}));
  }

  /** The stamp of process 0, when process 1 was the last to change the shared file. */
  lemma StampedUnseen(before: seq<Turn>, m0: Process, m1: Process) returns (turns: seq<Turn>)
    requires m0.entries == map[7 := Entry(70, Local)]
    requires m1 == Process(map[8 := Entry(80, Local)], 1, 1, {8}, Some(2), Idle)
    requires TakeTurns(before)
          == State(World(Shared(map[7 := 70, 8 := 80], 2), map[0 := m0, 1 := m1], {(7, 70), (8, 80)}), HELD)
    ensures WaiterLacks(turns) && 7 in TakeTurns(turns).cache.shared.entries
  {
    var stamp := OnQueue(WarmUp.Finish(0, true));
    StampIsTrue(before, stamp, 5);
    turns := before + [stamp];
    assert 7 in Compiled(m0);
  }

  /** The holder refilled between its compile and its merge, as it does when it comes upon the stamp of
  another key, and its merge then does nothing. */
  lemma RefillEmptiesFinish() returns (turns: seq<Turn>)
    ensures WaiterLacks(turns)
    ensures 7 !in TakeTurns(turns).cache.shared.entries
  {
    var p0 := Process(map[7 := Entry(70, Local)], 1, 0, {}, None, Idle);
    var p1 := Process(map[8 := Entry(80, Local)], 1, 0, {}, None, Idle);
    turns := BothCompiled(p0, p1);
    var m1, noted;
    turns, m1 := WaiterMerges(turns, p1, p0, map[], 0);
    turns, noted := HolderRefills(turns, p0, m1);
    turns := FinishedInVain(turns, noted, m1);
  }

  lemma HolderRefills(before: seq<Turn>, p0: Process, m1: Process) returns (turns: seq<Turn>, noted: Process)
    requires p0 == Process(map[7 := Entry(70, Local)], 1, 0, {}, None, Idle)
    requires TakeTurns(before)
          == State(World(Shared(map[8 := 80], 1), map[0 := p0, 1 := m1], {(7, 70), (8, 80)}), HELD)
    ensures noted == Process(map[7 := Entry(70, Local), 8 := Entry(80, Imported)], 2, 2, {}, Some(1), Idle)
    ensures TakeTurns(turns)
         == State(World(Shared(map[8 := 80], 1), map[0 := noted, 1 := m1], {(7, 70), (8, 80)}), HELD)
  {
    var shared := Shared(map[8 := 80], 1);
    var copied;
    copied, noted := Refilled(p0);
    hide CopyIn, Record;
    turns := RunOnTo(before, OnCache(StepCopyIn(0, Landed({8}))),
                     State(World(shared, map[0 := copied, 1 := m1], {(7, 70), (8, 80)}), HELD));
    turns := RunOnTo(turns, OnCache(StepRecord(0)),
                     State(World(shared, map[0 := noted, 1 := m1], {(7, 70), (8, 80)}), HELD));
  }

  /** Process 0, with kernel 7 still to merge, refills from a shared file that holds kernel 8. */
  lemma Refilled(p0: Process) returns (copied: Process, noted: Process)
    requires p0 == Process(map[7 := Entry(70, Local)], 1, 0, {}, None, Idle)
    ensures CopyIn(p0, Shared(map[8 := 80], 1), Landed({8})) == copied && Record(copied) == noted
    ensures noted == Process(map[7 := Entry(70, Local), 8 := Entry(80, Imported)], 2, 2, {}, Some(1), Idle)
  {
    var shared := Shared(map[8 := 80], 1);
    var filled: map<Key, Entry> := map[7 := Entry(70, Local), 8 := Entry(80, Imported)];
    assert 8 in AsImported(shared.entries);
    assert Inserted(p0.entries, AsImported(shared.entries), {8}) == filled;
    assert filled != p0.entries by { assert 8 !in p0.entries; }
    copied, noted := CopyIn(p0, shared, Landed({8})), Record(CopyIn(p0, shared, Landed({8})));
  }

  /** A finish of process 0 when its refill has hidden kernel 7 from its merge. */
  lemma FinishedInVain(before: seq<Turn>, noted: Process, m1: Process) returns (turns: seq<Turn>)
    requires noted == Process(map[7 := Entry(70, Local), 8 := Entry(80, Imported)], 2, 2, {}, Some(1), Idle)
    requires m1 == Process(map[8 := Entry(80, Local)], 1, 1, {8}, Some(1), Idle)
    requires TakeTurns(before)
          == State(World(Shared(map[8 := 80], 1), map[0 := noted, 1 := m1], {(7, 70), (8, 80)}), HELD)
    ensures WaiterLacks(turns) && 7 !in TakeTurns(turns).cache.shared.entries
  {
    var keys := {7, 8};
    turns := before + FinishTurns(0, 0, true, Landed(keys));
    FinishStands(before, 0, 5, 0, true, Landed(keys));
    PromiseIsKept(before, 0, 5, 0, true, Landed(keys), 1, keys);
    MergeLands(noted, Shared(map[8 := 80], 1), true, Landed(keys));
    assert 7 in Compiled(noted);
  }
}
