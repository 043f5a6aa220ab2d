/** The threads of one launch, moving in any order.

A thread strides over the indices of one or two channels and stores one value at a time: both channels
of its first index, then both of the index a stride on, until it is past the last one. A run names the
thread that makes each store, so every interleaving of the threads' stores is one run.
 */
module Launches {
  import opened Numbers

  /** Whether thread `start` of `total` covers index `i`. */
  predicate Covers(start: nat, total: nat, i: nat)
    requires total > 0
  {
    i % total == start
  }

  /** Each index is covered by exactly one thread, at exactly one round of its loop. */
  lemma EachIndexOnce(total: nat, i: nat, start: nat, round: nat)
    requires total > 0 && start < total
    ensures i == start + round * total <==> Covers(start, total, i) && round == i / total
  {
    assert i == total * (i / total) + i % total;
    if i == start + round * total {
      var apart := i / total - round;
      assert total * apart == total * (i / total) - round * total;
      WholeSteps(total, apart);
    }
  }

  /** How often a thread has stored something in a run. */
  function Turns(run: seq<nat>, thread: nat): nat {
    if run == [] then 0
    else Turns(run[..|run| - 1], thread) + (if run[|run| - 1] == thread then 1 else 0)
  }

  /** The round of its loop in which a thread makes its store number `turn`, and the channel it goes
  to. */
  function Round(channels: nat, turn: nat): nat { if channels == 1 then turn else turn / 2 }

  function Channel(channels: nat, turn: nat): nat { if channels == 1 then 0 else turn % 2 }

  /** The store number that a channel of an index is. */
  function TurnOf(channels: nat, round: nat, channel: nat): nat {
    if channels == 1 then round else 2 * round + channel
  }

  /** Whether a launch over `words` indices fits its buffers, one row per channel, and what each index
  is due. */
  ghost predicate Fits<T>(rows: seq<seq<T>>, due: seq<seq<T>>, words: nat) {
    && |rows| == |due| && (|rows| == 1 || |rows| == 2)
    && forall c | 0 <= c < |rows| :: words <= |rows[c]| && words <= |due[c]|
  }

  /** `rows` after a thread's store number `turn`, which does nothing once the thread is past the last
  index. */
  ghost function Stored<T>(rows: seq<seq<T>>, due: seq<seq<T>>, words: nat, total: nat, thread: nat, turn: nat):
    (after: seq<seq<T>>)
    requires Fits(rows, due, words)
    ensures |after| == |rows| && forall c | 0 <= c < |rows| :: |after[c]| == |rows[c]|
  {
    var channel := Channel(|rows|, turn);
    var index := thread + Round(|rows|, turn) * total;
    if index < words then rows[channel := rows[channel][index := due[channel][index]]] else rows
  }

  /** `rows` after the threads of a launch have made their stores in the order of `run`. */
  ghost function Interleaved<T>(rows: seq<seq<T>>, due: seq<seq<T>>, words: nat, total: nat, run: seq<nat>):
    (after: seq<seq<T>>)
    requires Fits(rows, due, words)
    ensures |after| == |rows| && forall c | 0 <= c < |rows| :: |after[c]| == |rows[c]|
  {
    if run == [] then rows
    else
      var before := run[..|run| - 1];
      var thread := run[|run| - 1];
      Stored(Interleaved(rows, due, words, total, before), due, words, total, thread, Turns(before, thread))
  }

  /** Every move is one of the launch's threads. */
  predicate Names(run: seq<nat>, total: nat) { forall s | 0 <= s < |run| :: run[s] < total }

  /** Whether a run has stored a channel of index `i`: the thread that covers it has come that far. */
  predicate HasStored(run: seq<nat>, channels: nat, words: nat, total: nat, channel: nat, i: nat)
    requires total > 0
  {
    i < words && TurnOf(channels, i / total, channel) < Turns(run, i % total)
  }

  /** A thread's store goes to one channel of one index, and no other store does. */
  lemma StoreGoesTo(channels: nat, words: nat, total: nat, thread: nat, turn: nat, channel: nat, i: nat)
    requires (channels == 1 || channels == 2) && channel < channels && thread < total
    ensures (Channel(channels, turn) == channel && thread + Round(channels, turn) * total == i)
            <==> (thread == i % total && turn == TurnOf(channels, i / total, channel))
  {
    EachIndexOnce(total, i, thread, Round(channels, turn));
  }

  /** In any interleaving each index holds what it is due as soon as its own thread has come to it,
  and what it held before until then. */
  lemma {:induction false} InterleavedAt<T>(rows: seq<seq<T>>, due: seq<seq<T>>, words: nat, total: nat,
                                            run: seq<nat>, channel: nat, i: nat)
    requires Fits(rows, due, words) && total > 0 && Names(run, total)
    requires channel < |rows| && i < |rows[channel]|
    ensures Interleaved(rows, due, words, total, run)[channel][i]
         == if HasStored(run, |rows|, words, total, channel, i) then due[channel][i] else rows[channel][i]
  {
    if run != [] {
      var before := run[..|run| - 1];
      var thread := run[|run| - 1];
      InterleavedAt(rows, due, words, total, before, channel, i);
      StoreGoesTo(|rows|, words, total, thread, Turns(before, thread), channel, i);
    }
  }

  /** How often a run stores a channel of index `i`. */
  function Stores(run: seq<nat>, channels: nat, words: nat, total: nat, channel: nat, i: nat): nat {
    if run == [] then 0
    else
      var before := run[..|run| - 1];
      var thread := run[|run| - 1];
      var turn := Turns(before, thread);
      Stores(before, channels, words, total, channel, i)
      + (if i < words && Channel(channels, turn) == channel && thread + Round(channels, turn) * total == i
         then 1 else 0)
  }

  /** No channel of an index is ever stored twice, whichever way the threads move. */
  lemma {:induction false} StoredAtMostOnce(run: seq<nat>, channels: nat, words: nat, total: nat, channel: nat, i: nat)
    requires (channels == 1 || channels == 2) && channel < channels && total > 0 && Names(run, total)
    ensures Stores(run, channels, words, total, channel, i)
         == if HasStored(run, channels, words, total, channel, i) then 1 else 0
  {
    if run != [] {
      var before := run[..|run| - 1];
      var thread := run[|run| - 1];
      StoredAtMostOnce(before, channels, words, total, channel, i);
      StoreGoesTo(channels, words, total, thread, Turns(before, thread), channel, i);
    }
  }

  /** Every thread of the launch has come past the last index. */
  predicate Finishes(run: seq<nat>, channels: nat, words: nat, total: nat) {
    && total > 0 && Names(run, total)
    && forall thread: nat | thread < total ::
         words <= thread + Round(channels, Turns(run, thread)) * total
  }

  lemma ComesPast(total: nat, i: nat, thread: nat, reached: nat)
    requires total > 0 && i % total == thread && i < thread + reached * total
    ensures i / total < reached
  {
    var ahead := reached - i / total;
    assert i == thread + total * (i / total);
    assert total * ahead == reached * total - total * (i / total);
    WholeSteps(total, ahead);
  }

  /** A launch whose threads all finish has come to every index. */
  lemma FinishedStores(run: seq<nat>, channels: nat, words: nat, total: nat, channel: nat, i: nat)
    requires (channels == 1 || channels == 2) && channel < channels
    requires Finishes(run, channels, words, total) && i < words
    ensures HasStored(run, channels, words, total, channel, i)
  {
    var thread := i % total;
    var reached := Round(channels, Turns(run, thread));
    assert words <= thread + reached * total;
    ComesPast(total, i, thread, reached);
  }

  /** Whichever way the threads of a launch move, once all have finished every index holds what it is
  due in every channel, stored exactly once, and nothing past the last index has changed. */
  lemma LaunchStoresAll<T>(rows: seq<seq<T>>, due: seq<seq<T>>, words: nat, total: nat, run: seq<nat>,
                           channel: nat, i: nat)
    requires Fits(rows, due, words) && Finishes(run, |rows|, words, total)
    requires channel < |rows| && i < |rows[channel]|
    ensures Interleaved(rows, due, words, total, run)[channel][i]
         == if i < words then due[channel][i] else rows[channel][i]
    ensures Stores(run, |rows|, words, total, channel, i) == if i < words then 1 else 0
  {
    InterleavedAt(rows, due, words, total, run, channel, i);
    StoredAtMostOnce(run, |rows|, words, total, channel, i);
    if i < words { FinishedStores(run, |rows|, words, total, channel, i); }
  }

  /** One thread moving alone. */
  function Alone(thread: nat, turns: nat): (run: seq<nat>)
    ensures |run| == turns
  {
    if turns == 0 then [] else Alone(thread, turns - 1) + [thread]
  }

  lemma {:induction false} AloneTurns(thread: nat, turns: nat, other: nat)
    ensures Turns(Alone(thread, turns), other) == if other == thread then turns else 0
  {
    if turns > 0 {
      assert Alone(thread, turns)[..turns - 1] == Alone(thread, turns - 1);
      AloneTurns(thread, turns - 1, other);
    }
  }

  lemma {:induction false} AloneNames(thread: nat, turns: nat, total: nat)
    requires thread < total
    ensures Names(Alone(thread, turns), total)
  {
    if turns > 0 { AloneNames(thread, turns - 1, total); }
  }

  /** A thread's next store on its own. */
  lemma AloneNext<T>(rows: seq<seq<T>>, due: seq<seq<T>>, words: nat, total: nat, thread: nat, turns: nat)
    requires Fits(rows, due, words)
    ensures Interleaved(rows, due, words, total, Alone(thread, turns + 1))
         == Stored(Interleaved(rows, due, words, total, Alone(thread, turns)), due, words, total, thread, turns)
  {
    assert Alone(thread, turns + 1)[..turns] == Alone(thread, turns);
    AloneTurns(thread, turns, thread);
  }

  /** A thread that runs to its end stores exactly the indices it covers. */
  lemma AloneStoresShare<T>(rows: seq<seq<T>>, due: seq<seq<T>>, words: nat, total: nat, thread: nat, turns: nat,
                            channel: nat, i: nat)
    requires Fits(rows, due, words) && thread < total
    requires words <= thread + Round(|rows|, turns) * total
    requires channel < |rows| && i < |rows[channel]|
    ensures Interleaved(rows, due, words, total, Alone(thread, turns))[channel][i]
         == if i < words && Covers(thread, total, i) then due[channel][i] else rows[channel][i]
  {
    AloneNames(thread, turns, total);
    AloneTurns(thread, turns, i % total);
    InterleavedAt(rows, due, words, total, Alone(thread, turns), channel, i);
    if i < words && Covers(thread, total, i) {
      ComesPast(total, i, thread, Round(|rows|, turns));
    }
  }
}
