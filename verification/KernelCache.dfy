/** A cache of kernels that several processes fill and read.

Every process has a file of its own. It offers the kernels it compiled to the file all of them share,
and takes over what others put there. A step below is what one process does between two points where
another process, or a compile of its own, may act. The shared file's lock makes each step that touches
it one step.
 */
module KernelCache {
  import opened Wrappers

  type Key = nat
  type Value = nat
  type Pid = nat

  /** Whether a private entry was compiled here or copied from the shared file. */
  datatype Origin = Local | Imported

  datatype Entry = Entry(value: Value, origin: Origin)

  /** The shared file: its entries, and its modification time, 0 before it exists. */
  datatype Shared = Shared(entries: map<Key, Value>, modified: nat)

  /** How far a process is through a merge or a refill. */
  datatype Phase =
    | Idle
    | Observed(writes: nat)
    | Scanned(writes: nat, offer: map<Key, Value>)
    | Copied

  /** One process: its private file, a count of the writes to that file, which stands for the file's
  observable write state, and what it knows of what it has merged and read. */
  datatype Process = Process(
    entries: map<Key, Entry>,
    writes: nat,
    written: nat,
    merged: set<Key>,
    seen: Option<nat>,
    phase: Phase)
  {
    /** The entries compiled here that have not been merged. */
    function Offered(): map<Key, Value> {
      map k | k in entries && entries[k].origin == Local && k !in merged :: entries[k].value
    }
  }

  /** How a step on a database file went: its lock or file could not be had, or it wrote `keys`. */
  datatype Outcome = Unavailable | Landed(keys: set<Key>)

  /** `entries` with the entries of `batch` named by `keys` added, none overwritten. */
  function Inserted<T>(entries: map<Key, T>, batch: map<Key, T>, keys: set<Key>): map<Key, T> {
    (map k | k in batch && k in keys :: batch[k]) + entries
  }

  function AsImported(entries: map<Key, Value>): map<Key, Entry> {
    map k | k in entries :: Entry(entries[k], Imported)
  }

  /** The shared file's modification time, if it exists. */
  function ModifiedAt(s: Shared): Option<nat> { if s.modified == 0 then None else Some(s.modified) }

  // ---------------------------------------------------------------------------------------------
  // What one process does
  // ---------------------------------------------------------------------------------------------

  /** A process that has just filled its private file from the shared one. */
  function Start(s: Shared, copied: bool): Process {
    if copied && s.modified > 0
    then Process(AsImported(s.entries), 0, 0, {}, ModifiedAt(s), Idle)
    else Process(map[], 0, 0, {}, None, Idle)
  }

  /** A kernel the process misses is compiled and written to its private file. */
  function Compile(p: Process, key: Key, value: Value): Process {
    if key in p.entries then p
    else p.(entries := p.entries[key := Entry(value, Local)], writes := p.writes + 1)
  }

  /** A merge begins by noting the write state. It ends there when nothing was written. */
  function Observe(p: Process): Process {
    if p.phase != Idle || p.writes == p.written then p else p.(phase := Observed(p.writes))
  }

  /** It then reads what the private file has to offer. */
  function Scan(p: Process, readable: bool): Process {
    if !p.phase.Observed? then p
    else if !readable then p.(phase := Idle)
    else p.(phase := Scanned(p.phase.writes, p.Offered()))
  }

  /** It then writes that to the shared file under its lock, and takes note when all of it landed. */
  function Land(p: Process, s: Shared, outcome: Outcome): (Process, Shared) {
    if !p.phase.Scanned? then (p, s)
    else
      var offer := p.phase.offer;
      var noted := p.(phase := Idle, written := p.phase.writes);
      if offer == map[] then (noted, s)
      else if outcome.Unavailable? then (p.(phase := Idle), s)
      else
        var after := Shared(Inserted(s.entries, offer, outcome.keys), s.modified + 1);
        if offer.Keys <= outcome.keys
        then (noted.(merged := p.merged + offer.Keys, seen := ModifiedAt(after)), after)
        else (p.(phase := Idle, seen := ModifiedAt(after)), after)
  }

  /** A refill copies what the shared file has beyond the private one, if the shared file changed. */
  function CopyIn(p: Process, s: Shared, outcome: Outcome): Process {
    if p.phase != Idle || s.modified == 0 || p.seen == ModifiedAt(s) || outcome.Unavailable? then p
    else
      var entries := Inserted(p.entries, AsImported(s.entries), outcome.keys);
      p.(entries := entries,
         writes := if entries == p.entries then p.writes else p.writes + 1,
         seen := ModifiedAt(s),
         phase := Copied)
  }

  /** It then takes the private file as it stands for one that has nothing new. */
  function Record(p: Process): Process {
    if p.phase != Copied then p else p.(written := p.writes, phase := Idle)
  }

  // ---------------------------------------------------------------------------------------------
  // All processes
  // ---------------------------------------------------------------------------------------------

  /** Every process that is running, the shared file, and every kernel any process ever compiled. */
  datatype World = World(shared: Shared, running: map<Pid, Process>, compiled: set<(Key, Value)>)

  const EMPTY := World(Shared(map[], 0), map[], {})

  datatype Step =
    | StepStart(pid: Pid, copied: bool)
    | StepCompile(pid: Pid, key: Key, value: Value)
    | StepObserve(pid: Pid)
    | StepScan(pid: Pid, opens: bool)
    | StepLand(pid: Pid, outcome: Outcome)
    | StepCopyIn(pid: Pid, outcome: Outcome)
    | StepRecord(pid: Pid)
    /** The process exits, having deleted its private file or having crashed. */
    | StepExit(pid: Pid)

  /** What a step makes of the process that takes it. */
  function Moved(w: World, step: Step, p: Process): Process {
    match step
    case StepCompile(_, key, value) => Compile(p, key, value)
    case StepObserve(_) => Observe(p)
    case StepScan(_, opens) => Scan(p, opens)
    case StepLand(_, outcome) => Land(p, w.shared, outcome).0
    case StepCopyIn(_, outcome) => CopyIn(p, w.shared, outcome)
    case StepRecord(_) => Record(p)
    case _ => p
  }

  function Take(w: World, step: Step): World {
    match step
    case StepStart(pid, copied) =>
      if pid in w.running then w else w.(running := w.running[pid := Start(w.shared, copied)])
    case StepExit(pid) => w.(running := w.running - {pid})
    case _ =>
      if step.pid !in w.running then w
      else
        var p := w.running[step.pid];
        World(if step.StepLand? then Land(p, w.shared, step.outcome).1 else w.shared,
              w.running[step.pid := Moved(w, step, p)],
              if step.StepCompile? && step.key !in p.entries then w.compiled + {(step.key, step.value)}
              else w.compiled)
  }

  function TakeAll(steps: seq<Step>): World {
    if steps == [] then EMPTY else Take(TakeAll(steps[..|steps| - 1]), steps[|steps| - 1])
  }

  // ---------------------------------------------------------------------------------------------
  // Safety
  // ---------------------------------------------------------------------------------------------

  /** Every entry of `later` that `before` had is unchanged, and none is gone. */
  ghost predicate Grows(before: map<Key, Value>, later: map<Key, Value>) {
    forall k | k in before :: k in later && later[k] == before[k]
  }

  /** What a process holds is accounted for: what it compiled is on record, what it imported came
  from the shared file, what it counts as merged is there, and what it is about to offer is its own. */
  ghost predicate Accounted(p: Process, shared: map<Key, Value>, compiled: set<(Key, Value)>) {
    && (forall k | k in p.entries :: (k, p.entries[k].value) in compiled)
    && (forall k | k in p.entries && p.entries[k].origin == Imported ::
          k in shared && shared[k] == p.entries[k].value && k !in p.merged)
    && (forall k | k in p.merged :: k in shared && k in p.entries)
    && p.written <= p.writes
    && (p.phase.Observed? || p.phase.Scanned? ==> p.phase.writes <= p.writes)
    && (p.phase.Scanned? ==>
          forall k | k in p.phase.offer ::
            && k in p.entries && k !in p.merged
            && p.entries[k] == Entry(p.phase.offer[k], Local))
  }

  ghost predicate Safe(w: World) {
    && (forall k | k in w.shared.entries :: (k, w.shared.entries[k]) in w.compiled)
    && (w.shared.modified == 0 ==> w.shared.entries == map[])
    && (forall pid | pid in w.running :: Accounted(w.running[pid], w.shared.entries, w.compiled))
  }

  /** The shared file and the record of compiles only ever grow. */
  lemma StepGrows(w: World, step: Step)
    ensures Grows(w.shared.entries, Take(w, step).shared.entries)
    ensures w.compiled <= Take(w, step).compiled
  {
  }

  /** A process stays accounted for as others merge and compile. */
  lemma AccountedGrows(p: Process, w: World, later: World)
    requires Accounted(p, w.shared.entries, w.compiled)
    requires Grows(w.shared.entries, later.shared.entries) && w.compiled <= later.compiled
    ensures Accounted(p, later.shared.entries, later.compiled)
  {
  }

  lemma MovedIsAccounted(w: World, step: Step)
    requires Safe(w) && step.pid in w.running && !step.StepStart? && !step.StepExit?
    ensures var later := Take(w, step);
            Accounted(later.running[step.pid], later.shared.entries, later.compiled)
  {
    if step.StepLand? {
      LandIsAccounted(w.running[step.pid], w, step.outcome);
    }
  }

  lemma LandIsAccounted(p: Process, w: World, outcome: Outcome)
    requires Accounted(p, w.shared.entries, w.compiled)
    ensures var (landed, shared) := Land(p, w.shared, outcome);
            Accounted(landed, shared.entries, w.compiled)
  {
  }

  lemma SharedIsCompiled(w: World, step: Step)
    requires Safe(w)
    ensures var later := Take(w, step);
            && (forall k | k in later.shared.entries :: (k, later.shared.entries[k]) in later.compiled)
            && (later.shared.modified == 0 ==> later.shared.entries == map[])
  {
  }

  lemma StepKeepsSafe(w: World, step: Step)
    requires Safe(w)
    ensures Safe(Take(w, step))
  {
    var later := Take(w, step);
    StepGrows(w, step);
    SharedIsCompiled(w, step);
    hide Compile, CopyIn, Land, Observe, Record, Scan;
    if step.pid in w.running && !step.StepStart? && !step.StepExit? {
      MovedIsAccounted(w, step);
    }
    forall pid | pid in later.running && pid in w.running && pid != step.pid
      ensures Accounted(later.running[pid], later.shared.entries, later.compiled)
    {
      AccountedGrows(w.running[pid], w, later);
    }
  }

  /** However processes start, compile, merge, refill and exit or crash, in any order: every shared
  entry was compiled by some process, nothing counts as merged that is not shared, and nothing
  imported is ever offered again. */
  lemma {:induction false} EveryRunIsSafe(steps: seq<Step>)
    ensures Safe(TakeAll(steps))
  {
    if steps != [] {
      EveryRunIsSafe(steps[..|steps| - 1]);
      StepKeepsSafe(TakeAll(steps[..|steps| - 1]), steps[|steps| - 1]);
    }
  }

  /** The shared file that a process last read or wrote is no later than the one there is. */
  ghost predicate SeenIsPast(w: World) {
    forall pid | pid in w.running && w.running[pid].seen.Some? :: w.running[pid].seen.value <= w.shared.modified
  }

  lemma StepKeepsSeen(w: World, step: Step)
    requires SeenIsPast(w)
    ensures SeenIsPast(Take(w, step))
  {
  }

  lemma {:induction false} EveryRunSeesThePast(steps: seq<Step>)
    ensures SeenIsPast(TakeAll(steps))
  {
    if steps != [] {
      EveryRunSeesThePast(steps[..|steps| - 1]);
      StepKeepsSeen(TakeAll(steps[..|steps| - 1]), steps[|steps| - 1]);
    }
  }

  /** No later step takes a shared entry away or changes it. */
  lemma {:induction false} SharedOnlyGrows(steps: seq<Step>, more: seq<Step>)
    ensures Grows(TakeAll(steps).shared.entries, TakeAll(steps + more).shared.entries)
  {
    if more == [] {
      assert steps + more == steps;
    } else {
      var before := more[..|more| - 1];
      SharedOnlyGrows(steps, before);
      assert (steps + more)[..|steps + more| - 1] == steps + before;
      StepGrows(TakeAll(steps + before), more[|more| - 1]);
    }
  }

  // ---------------------------------------------------------------------------------------------
  // What a merge leaves out
  // ---------------------------------------------------------------------------------------------

  /** A process that takes its private file for one with nothing new has nothing new in it. */
  ghost predicate Caught(p: Process) {
    && (p.written == p.writes ==> p.Offered() == map[])
    && (p.phase.Scanned? && p.phase.writes == p.writes ==> p.Offered().Keys <= p.phase.offer.Keys)
  }

  ghost predicate AllCaught(w: World) {
    forall pid | pid in w.running :: Caught(w.running[pid])
  }

  /** A refill that takes note of the private file while kernels compiled since the last merge are
  still in it. */
  predicate Loses(w: World, step: Step) {
    && step.StepRecord? && step.pid in w.running
    && w.running[step.pid].phase.Copied? && w.running[step.pid].Offered() != map[]
  }

  lemma MovedIsCaught(w: World, step: Step, p: Process)
    requires Accounted(p, w.shared.entries, w.compiled) && Caught(p)
    requires step.StepRecord? ==> p.phase != Copied || p.Offered() == map[]
    ensures Caught(Moved(w, step, p))
  {
    match step {
      case StepCopyIn(_, outcome) => CopiedIsCaught(p, w.shared, outcome);
      case StepLand(_, outcome) => LandedIsCaught(p, w.shared, outcome);
      case _ =>
    }
  }

  lemma CopiedIsCaught(p: Process, s: Shared, outcome: Outcome)
    requires Caught(p) && p.written <= p.writes
    ensures Caught(CopyIn(p, s, outcome))
  {
    assert CopyIn(p, s, outcome).Offered() == p.Offered();
  }

  lemma LandedIsCaught(p: Process, s: Shared, outcome: Outcome)
    requires Caught(p)
    ensures Caught(Land(p, s, outcome).0)
  {
    var landed := Land(p, s, outcome).0;
    assert landed.Offered() == p.Offered() - (if landed.merged == p.merged then {} else p.phase.offer.Keys);
  }

  /** Only such a refill can make a process overlook what it compiled. */
  lemma StepKeepsCaught(w: World, step: Step)
    requires Safe(w) && AllCaught(w)
    ensures AllCaught(Take(w, step)) <==> !Loses(w, step)
  {
    var later := Take(w, step);
    if Loses(w, step) {
      var p := later.running[step.pid];
      assert p.Offered() == w.running[step.pid].Offered();
      assert !Caught(p);
    } else {
      forall pid | pid in later.running
        ensures Caught(later.running[pid])
      {
        if pid in w.running && later.running[pid] != w.running[pid] {
          MovedIsCaught(w, step, w.running[pid]);
        }
      }
    }
  }

  predicate NothingLost(steps: seq<Step>) {
    steps == []
    || (NothingLost(steps[..|steps| - 1])
        && !Loses(TakeAll(steps[..|steps| - 1]), steps[|steps| - 1]))
  }

  /** As long as no refill falls between a compile and the merge after it, every process knows of
  every kernel it still has to merge, however its merges are cut into by compiles of its own. */
  lemma {:induction false} MergesOverlookNothing(steps: seq<Step>)
    requires NothingLost(steps)
    ensures AllCaught(TakeAll(steps))
  {
    if steps != [] {
      var before := steps[..|steps| - 1];
      MergesOverlookNothing(before);
      EveryRunIsSafe(before);
      StepKeepsCaught(TakeAll(before), steps[|steps| - 1]);
    }
  }

  /** A process that starts from the shared file has all of it, none of it to offer, and nothing to
  refill until the file changes. */
  lemma StartIsFull(s: Shared, outcome: Outcome)
    requires s.modified > 0
    ensures var p := Start(s, true);
            && p.entries.Keys == s.entries.Keys
            && (forall k | k in s.entries :: p.entries[k] == Entry(s.entries[k], Imported))
            && p.Offered() == map[] && CopyIn(p, s, outcome) == p
  {
  }

  /** A whole merge, with nothing in between. */
  function Merge(p: Process, s: Shared, readable: bool, outcome: Outcome): (Process, Shared) {
    Land(Scan(Observe(p), readable), s, outcome)
  }

  /** A process that starts cold holds nothing at first and takes nothing for read: a refill that meets no
  failure brings in all of the shared file, as it is. */
  lemma ColdStartIsRefilled(s: Shared, keys: set<Key>)
    requires s.modified > 0 && s.entries.Keys <= keys
    ensures var p := Start(s, false);
            var refilled := CopyIn(p, s, Landed(keys));
            && p.entries == map[] && p.Offered() == map[]
            && refilled.entries.Keys == s.entries.Keys
            && (forall k | k in s.entries :: refilled.entries[k] == Entry(s.entries[k], Imported))
  {
  }

  /** However it started, a process has nothing to merge, and its first own kernel is merged. */
  lemma StartThenCompile(s: Shared, later: Shared, copied: bool, key: Key, value: Value, readable: bool,
                         outcome: Outcome)
    requires copied && s.modified > 0 ==> key !in s.entries
    ensures var p := Start(s, copied);
            && Merge(p, later, readable, outcome) == (p, later)
            && key in Merge(Compile(p, key, value), later, true, Landed({key})).1.entries
  {
    var p := Start(s, copied);
    var compiled := Compile(p, key, value);
    assert p.Offered() == map[];
    assert compiled.(phase := Observed(compiled.writes)).Offered() == map[key := value];
    assert key in map[key := value];
  }

  /** The keys of the kernels a process compiled itself. */
  function Compiled(p: Process): set<Key> {
    set k | k in p.entries && p.entries[k].origin == Local
  }

  /** A merge that meets no failure shares everything its process compiled exactly when the process
  had seen a write since it last took note, or had nothing left that was not already shared. */
  lemma MergeSharesAll(p: Process, w: World, keys: set<Key>)
    requires Accounted(p, w.shared.entries, w.compiled) && p.phase == Idle && p.Offered().Keys <= keys
    ensures Compiled(p) <= Merge(p, w.shared, true, Landed(keys)).1.entries.Keys
            <==> (p.writes != p.written || p.Offered().Keys <= w.shared.entries.Keys)
  {
    forall k | k in Compiled(p)
      ensures k in p.Offered() || k in w.shared.entries
    {
    }
  }

  /** A merge that fails keeps what it knows, so that the next one offers the same entries again. If it got
  as far as writing to the shared file, it takes the file for read as it left it. */
  lemma FailedMergeIsRetried(p: Process, s: Shared, readable: bool, outcome: Outcome, refill: Outcome)
    requires p.phase == Idle
    requires !readable || outcome.Unavailable? || !(p.Offered().Keys <= outcome.keys)
    ensures var (after, shared) := Merge(p, s, readable, outcome);
            p.Offered() != map[] ==>
              && after == p.(seen := after.seen)
              && (if p.writes == p.written || !readable || outcome.Unavailable?
                  then after == p && shared == s
                  else shared.modified > s.modified && CopyIn(after, shared, refill) == after)
  {
  }

  /** A refill that meets no failure brings in everything shared exactly when the shared file is not
  the one the process last read or wrote, or there was nothing to bring in. */
  lemma RefillBringsAll(p: Process, s: Shared, keys: set<Key>)
    requires p.phase == Idle && s.modified > 0 && s.entries.Keys <= keys
    ensures s.entries.Keys <= CopyIn(p, s, Landed(keys)).entries.Keys
            <==> (p.seen != ModifiedAt(s) || s.entries.Keys <= p.entries.Keys)
  {
  }

  /** A refill that cannot be had changes nothing. One that can is not made again until the shared file
  changes, even if entries it was to bring in failed. */
  lemma RefillIsNotRepeated(p: Process, s: Shared, keys: set<Key>, outcome: Outcome)
    requires p.phase == Idle
    ensures Record(CopyIn(p, s, Unavailable)) == p
    ensures var refilled := Record(CopyIn(p, s, Landed(keys)));
            refilled.phase == Idle && (s.modified > 0 ==> CopyIn(refilled, s, outcome) == refilled)
  {
  }

  /** A merge that meets no failure leaves nothing to offer of what the process had seen written, and none is
  made again until the process writes. */
  lemma MergeIsNotRepeated(p: Process, s: Shared, keys: set<Key>, later: Shared, readable: bool, outcome: Outcome)
    requires p.phase == Idle && p.Offered().Keys <= keys
    ensures var after := Merge(p, s, true, Landed(keys)).0;
            && (p.writes != p.written ==> after.Offered() == map[])
            && Merge(after, later, readable, outcome) == (after, later)
  {
    var offer := p.(phase := Observed(p.writes)).Offered();
    assert offer == p.Offered();
    var after := Merge(p, s, true, Landed(keys)).0;
    if p.writes != p.written {
      assert after.Offered() == p.Offered() - (if after.merged == p.merged then {} else offer.Keys);
    }
  }

  /** A process that exits is gone, its private file with it, and starts again from the shared file. */
  lemma ExitThenStart(w: World, pid: Pid, copied: bool)
    ensures var again := Take(Take(w, StepExit(pid)), StepStart(pid, copied));
            && pid !in Take(w, StepExit(pid)).running
            && again == w.(running := w.running[pid := Start(w.shared, copied)])
  {
    assert (w.running - {pid})[pid := Start(w.shared, copied)] == w.running[pid := Start(w.shared, copied)];
  }

  lemma TakeNext(steps: seq<Step>, step: Step)
    ensures TakeAll(steps + [step]) == Take(TakeAll(steps), step)
  {
    assert (steps + [step])[..|steps|] == steps;
  }

  lemma RunOn(steps: seq<Step>, step: Step, after: World) returns (more: seq<Step>)
    requires Take(TakeAll(steps), step) == after
    ensures TakeAll(more) == after
  {
    TakeNext(steps, step);
    more := steps + [step];
  }

  /** Any refill that brings something in while kernels of the process's own wait to be merged hides
  them: a merge right after it does nothing, though nothing failed. */
  lemma RefillHidesKernels(p: Process, s: Shared, keys: set<Key>, outcome: Outcome)
    requires p.phase == Idle && s.modified > 0 && p.seen != ModifiedAt(s) && p.Offered() != map[]
    ensures var refilled := Record(CopyIn(p, s, Landed(keys)));
            && refilled.Offered() == p.Offered()
            && Merge(refilled, s, true, outcome) == (refilled, s)
  {
    assert Record(CopyIn(p, s, Landed(keys))).Offered() == p.Offered();
  }

  /** Any merge of the process's own hides from its next refill what others had merged before it. */
  lemma MergeHidesOthers(p: Process, s: Shared, keys: set<Key>, outcome: Outcome)
    requires p.phase == Idle && p.writes != p.written && p.Offered() != map[] && p.Offered().Keys <= keys
    requires !(s.entries.Keys <= p.entries.Keys)
    ensures var (after, shared) := Merge(p, s, true, Landed(keys));
            CopyIn(after, shared, outcome) == after && !(shared.entries.Keys <= after.entries.Keys)
  {
    var k :| k in s.entries && k !in p.entries;
    assert k in Merge(p, s, true, Landed(keys)).1.entries;
  }

  /** Processes 0 and 1 each start cold and compile a kernel. */
  lemma TwoCompile(p0: Process, p1: Process) returns (steps: seq<Step>)
    requires p0 == Process(map[7 := Entry(70, Local)], 1, 0, {}, None, Idle)
    requires p1 == Process(map[8 := Entry(80, Local)], 1, 0, {}, None, Idle)
    ensures TakeAll(steps) == World(Shared(map[], 0), map[0 := p0, 1 := p1], {(7, 70), (8, 80)})
  {
    var cold := Process(map[], 0, 0, {}, None, Idle);
    var empty := Shared(map[], 0);
    steps := RunOn([], StepStart(0, true), World(empty, map[0 := cold], {}));
    steps := RunOn(steps, StepStart(1, true), World(empty, map[0 := cold, 1 := cold], {}));
    steps := RunOn(steps, StepCompile(0, 7, 70), World(empty, map[0 := p0, 1 := cold], {(7, 70)}));
    steps := RunOn(steps, StepCompile(1, 8, 80), World(empty, map[0 := p0, 1 := p1], {(7, 70), (8, 80)}));
  }

  /** Both can come about: process 1 merges kernel 8 while process 0 holds kernel 7. */
  lemma KernelsCanBeHidden() returns (steps: seq<Step>)
    ensures var w := TakeAll(steps);
            && 0 in w.running && w.running[0].phase == Idle && w.running[0].Offered() == map[7 := 70]
            && w.running[0].writes != w.running[0].written
            && w.shared.modified > 0 && w.running[0].seen != ModifiedAt(w.shared)
            && 7 !in w.shared.entries && !(w.shared.entries.Keys <= w.running[0].entries.Keys)
  {
    var p0 := Process(map[7 := Entry(70, Local)], 1, 0, {}, None, Idle);
    var p1 := Process(map[8 := Entry(80, Local)], 1, 0, {}, None, Idle);
    steps := TwoCompile(p0, p1);
    var merged := MergedAlone(p1);
    steps := RunMerge(steps, p0, p1, merged);
    assert p0.Offered() == map[7 := 70];
    assert 8 in map[8 := 80] && 8 !in p0.entries;
  }

  /** What process 1 becomes once it has merged kernel 8 into an empty shared file. */
  lemma MergedAlone(p1: Process) returns (merged: Process)
    requires p1 == Process(map[8 := Entry(80, Local)], 1, 0, {}, None, Idle)
    ensures Land(p1.(phase := Scanned(1, map[8 := 80])), Shared(map[], 0), Landed({8}))
         == (merged, Shared(map[8 := 80], 1))
    ensures Scan(p1.(phase := Observed(1)), true) == p1.(phase := Scanned(1, map[8 := 80]))
  {
    assert p1.(phase := Observed(1)).Offered() == map[8 := 80];
    var offer: map<Key, Value> := map[8 := 80];
    var none: map<Key, Value> := map[];
    assert 8 in offer;
    var outcome := Landed({8});
    var landed := Land(p1.(phase := Scanned(1, offer)), Shared(none, 0), outcome);
    assert landed.1.entries == Inserted(none, offer, outcome.keys) == offer == map[8 := 80];
    assert landed.1 == Shared(offer, 1);
    merged := landed.0;
  }

  /** Process 1 merges, with process 0 running beside it. */
  lemma RunMerge(before: seq<Step>, p0: Process, p1: Process, merged: Process) returns (steps: seq<Step>)
    requires p1 == Process(map[8 := Entry(80, Local)], 1, 0, {}, None, Idle)
    requires TakeAll(before) == World(Shared(map[], 0), map[0 := p0, 1 := p1], {(7, 70), (8, 80)})
    requires Scan(p1.(phase := Observed(1)), true) == p1.(phase := Scanned(1, map[8 := 80]))
    requires Land(p1.(phase := Scanned(1, map[8 := 80])), Shared(map[], 0), Landed({8}))
          == (merged, Shared(map[8 := 80], 1))
    ensures TakeAll(steps) == World(Shared(map[8 := 80], 1), map[0 := p0, 1 := merged], {(7, 70), (8, 80)})
  {
    var compiled := {(7, 70), (8, 80)};
    var empty := Shared(map[], 0);
    steps := RunOn(before, StepObserve(1), World(empty, map[0 := p0, 1 := p1.(phase := Observed(1))], compiled));
    steps := RunOn(steps, StepScan(1, true),
                   World(empty, map[0 := p0, 1 := p1.(phase := Scanned(1, map[8 := 80]))], compiled));
    steps := RunOn(steps, StepLand(1, Landed({8})),
                   World(Shared(map[8 := 80], 1), map[0 := p0, 1 := merged], compiled));
  }
}
