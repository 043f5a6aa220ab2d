/** The private kernel cache of one process, as its calls update it in place.

Each method is proved to take exactly the steps that the kernel cache module describes, one after the
other. `healthy` says that every lock and file a call needs can be had and written.
 */
module ActiveCache {
  import opened Wrappers
  import opened KernelCache

  lemma InsertedOne<T>(entries: map<Key, T>, batch: map<Key, T>, keys: set<Key>, key: Key)
    requires key in batch
    ensures var before := Inserted(entries, batch, keys);
            Inserted(entries, batch, keys + {key}) == if key in before then before else before[key := batch[key]]
  {
  }

  lemma InsertedNone<T>(entries: map<Key, T>, batch: map<Key, T>)
    ensures Inserted(entries, batch, {}) == entries
  {
  }

  class SharedFile {
    var state: Shared

    constructor ()
      ensures state == Shared(map[], 0)
    {
      state := Shared(map[], 0);
    }

    /** Adds the entries the file lacks, one by one, and counts those that failed. */
    method InsertMany(batch: map<Key, Value>, healthy: bool) returns (failed: nat, ghost landed: set<Key>)
      modifies this
      ensures state == Shared(Inserted(old(state).entries, batch, landed), old(state).modified)
      ensures landed <= batch.Keys && (failed == 0 <==> landed == batch.Keys)
      ensures healthy ==> failed == 0
    {
      var rest := batch.Keys;
      failed, landed := 0, {};
      InsertedNone(state.entries, batch);
      while rest != {}
        invariant rest <= batch.Keys && landed <= batch.Keys - rest
        invariant failed == 0 <==> landed == batch.Keys - rest
        invariant healthy ==> failed == 0
        invariant state == Shared(Inserted(old(state).entries, batch, landed), old(state).modified)
        decreases |rest|
      {
        var key :| key in rest;
        rest := rest - {key};
        var works := *;
        if healthy || works {
          InsertedOne(old(state).entries, batch, landed, key);
          if key !in state.entries {
            state := state.(entries := state.entries[key := batch[key]]);
          }
          landed := landed + {key};
        } else {
          failed := failed + 1;
        }
      }
    }
  }

  class ActiveCache {
    const shared: SharedFile
    var entries: map<Key, Entry>
    var writes: nat
    var written: nat
    var merged: set<Key>
    var seen: Option<nat>

    function State(): Process
      reads this
    {
      Process(entries, writes, written, merged, seen, Idle)
    }

    /** The process starts with every shared entry marked imported, or cold, with everything there still to
    be refilled. */
    constructor (shared: SharedFile, healthy: bool)
      ensures this.shared == shared
      ensures exists copied :: State() == Start(shared.state, copied) && (healthy ==> copied)
      ensures State().Offered() == map[] && writes == written
      ensures if seen.None? then entries == map[]
              else entries.Keys == shared.state.entries.Keys
                   && forall k | k in entries :: entries[k] == Entry(shared.state.entries[k], Imported)
      ensures healthy && shared.state.modified > 0 ==>
                entries.Keys == shared.state.entries.Keys && seen == Some(shared.state.modified)
    {
      this.shared := shared;
      var works := *;
      var copied := healthy || works;
      var p := Start(shared.state, copied);
      entries, writes, written, merged, seen := p.entries, p.writes, p.written, p.merged, p.seen;
      new;
      assert State() == Start(shared.state, copied);
    }

    /** A kernel this process misses is compiled and written to its private file. */
    method CompileKernel(key: Key, value: Value)
      modifies this
      ensures State() == Compile(old(State()), key, value)
    {
      if key !in entries {
        entries := entries[key := Entry(value, Local)];
        writes := writes + 1;
      }
    }

    /** Leaves this process and the shared file as an uninterrupted `Merge` does. */
    method MergeKernels(healthy: bool) returns (ghost readable: bool, ghost outcome: Outcome)
      modifies this, shared
      ensures (State(), shared.state) == Merge(old(State()), old(shared.state), readable, outcome)
      ensures healthy ==> readable && outcome.Landed? && old(State()).Offered().Keys <= outcome.keys
    {
      readable, outcome := true, Landed(State().Offered().Keys);
      var observed := writes;
      if observed == written {
        return;
      }
      var opens := *;
      if !healthy && !opens {
        readable := false;
        return;
      }
      var offer := State().Offered();
      if offer != map[] {
        var locks := *;
        if !healthy && !locks {
          outcome := Unavailable;
          return;
        }
        var failed, landed := shared.InsertMany(offer, healthy);
        shared.state := shared.state.(modified := shared.state.modified + 1);
        outcome := Landed(landed);
        seen := ModifiedAt(shared.state);
        if failed > 0 {
          return;
        }
        merged := merged + offer.Keys;
      }
      written := observed;
    }

    /** Adds the entries the private file lacks, one by one. */
    method InsertMany(batch: map<Key, Entry>, healthy: bool) returns (ghost landed: set<Key>)
      modifies this`entries
      ensures entries == Inserted(old(entries), batch, landed)
      ensures healthy ==> landed == batch.Keys
    {
      var rest := batch.Keys;
      landed := {};
      InsertedNone(entries, batch);
      while rest != {}
        invariant rest <= batch.Keys
        invariant healthy ==> landed == batch.Keys - rest
        invariant entries == Inserted(old(entries), batch, landed)
        decreases |rest|
      {
        var key :| key in rest;
        rest := rest - {key};
        var works := *;
        if healthy || works {
          InsertedOne(old(entries), batch, landed, key);
          if key !in entries {
            entries := entries[key := batch[key]];
          }
          landed := landed + {key};
        }
      }
    }

    /** Adds the shared entries the private file lacks. */
    method CopySharedEntries(healthy: bool) returns (ghost landed: set<Key>)
      modifies this`entries, this`writes
      ensures entries == Inserted(old(entries), AsImported(shared.state.entries), landed)
      ensures writes == if entries == old(entries) then old(writes) else old(writes) + 1
      ensures healthy ==> shared.state.entries.Keys <= landed
    {
      var before := entries;
      landed := InsertMany(AsImported(shared.state.entries), healthy);
      if entries != before {
        writes := writes + 1;
      }
    }

    /** Leaves this process as an uninterrupted copy and note do, and the shared file alone. */
    method RefillIfChanged(healthy: bool) returns (ghost outcome: Outcome)
      modifies this
      ensures State() == Record(CopyIn(old(State()), shared.state, outcome))
      ensures healthy ==> outcome.Landed? && shared.state.entries.Keys <= outcome.keys
    {
      outcome := Landed(shared.state.entries.Keys);
      var current := ModifiedAt(shared.state);
      if current.None? || current == seen {
        return;
      }
      var locks := *;
      if !healthy && !locks {
        outcome := Unavailable;
        return;
      }
      ghost var landed := CopySharedEntries(healthy);
      outcome := Landed(landed);
      seen := current;
      written := writes;
    }
  }
}
