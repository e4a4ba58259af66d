/** The first kernel's scheduler: every job is granted its locks in submission
    order, by waiting only for the jobs on its tracks' tails
    (_legacy/kernel/scheduler.go). Each method holds the mutex throughout; what
    must hold between two of them is LegacyState's. */
module LegacyScheduler {
  import opened LegacyState
  import opened LegacySteps
  import opened LegacyEnding
  import opened LegacySubmitting
  import opened LegacyFinishing

  class Scheduler {
    /** Every field of the scheduler, in one record. */
    var s: State

    ghost predicate Valid()
      reads this
    {
      s.Valid()
    }

    constructor ()
      ensures Valid() && s.slots == [] && s.tracks == [] && s.count == 0
    {
      s := State([], [], [], [], 0, 0, {}, {});
    }

    /** Gives a new job a slot. */
    method AllocateLocked(owned: bool) returns (id: JobId)
      requires Valid()
      modifies this
      ensures s.Coherent() && Arriving(s, id.slot) && s.open == {id.slot}
      ensures s.slots[id.slot] == NewSlot(id.slot, id.generation, owned, old(s.count)) && s.count == old(s.count) + 1
      ensures id.generation > 0 && id.slot == NextSlot(old(s)) && !old(s).Taken(id.slot)
      ensures id.slot < |old(s).slots| ==> id.generation == old(s).slots[id.slot].generation + 1
      ensures OthersStay(old(s), s, id.slot) && EdgesGrow(old(s), s, id.slot, {}) && s.tracks == old(s.tracks)
      ensures OneSlotMore(old(s), s, id.slot) && SameQueue(old(s), s)
    {
      AllocatedKeepsLinked(s, owned);
      AllocatedKeepsOrdered(s, owned);
      if s.free != [] {
        var index := s.free[|s.free| - 1];
        var generation := s.slots[index].generation + 1;
        s := s.(free := s.free[..|s.free| - 1], slots := s.slots[index := NewSlot(index, generation, owned, s.count)],
                count := s.count + 1, open := s.open + {index});
        id := JobId(index, generation);
      } else {
        id := JobId(|s.slots|, 1);
        s := s.(slots := s.slots + [NewSlot(|s.slots|, 1, owned, s.count)], count := s.count + 1,
            open := s.open + {|s.slots|});
      }
    }

    /** Makes job n wait for predecessor, unless it has already finished. */
    method WaitOnLocked(n: nat, predecessor: JobId, ordered: bool)
      requires s.Coherent() && Arriving(s, n) && (s.Live(predecessor) ==> predecessor.slot != n)
      modifies this
      ensures s.Coherent() && Arriving(s, n) && OnlyWaits(old(s), s, n)
      ensures s == if old(s).Live(predecessor) then Behind(old(s), n, predecessor.slot, ordered) else old(s)
      ensures s.slots[n].preds ==
              old(s).slots[n].preds + (if s.Live(predecessor) then multiset{predecessor.slot} else multiset{})
      ensures s.Live(predecessor) ==>
                s.slots[predecessor.slot].successors ==
                old(s).slots[predecessor.slot].successors + [Successor(s.slots[n].id, ordered)]
      ensures EdgesGrow(old(s), s, n, if ordered && s.Live(predecessor) then {predecessor.slot} else {})
    {
      if !s.Live(predecessor) {
        return;
      }
      ghost var before := s;
      var p := predecessor.slot;
      BehindKeepsCoherent(s, n, p, ordered);
      BehindGrows(s, n, p, ordered);
      s := s.(slots :=
          s.slots[p := s.slots[p].(successors := s.slots[p].successors + [Successor(s.slots[n].id, ordered)])]);
      s := s.(slots :=
          s.slots[n := s.slots[n].(blockers := s.slots[n].blockers + 1, preds := s.slots[n].preds + multiset{p})]);
      assert s == Behind(before, n, p, ordered);
    }

    /** The readers that have not finished, in order. */
    method PruneLocked(readers: seq<JobId>) returns (kept: seq<JobId>)
      ensures kept == LiveOnes(s, readers) && Pruned(s, readers, kept)
    {
      kept := [];
      for i := 0 to |readers|
        invariant kept == LiveOnes(s, readers[..i])
        invariant forall id {:trigger id in kept} :: id in kept <==> id in readers[..i] && s.Live(id)
      {
        assert readers[..i + 1] == readers[..i] + [readers[i]] && readers[..i + 1][..i] == readers[..i];
        if s.Live(readers[i]) {
          kept := kept + [readers[i]];
        }
      }
      assert readers[..|readers|] == readers;
    }

    /** Puts job n on the tail of track a, to read it. */
    method LockRead(n: nat, a: nat, ghost ordered: set<nat>)
      requires s.Coherent() && Arriving(s, n) && a < |s.tracks| && Caused(s, n, ordered)
      requires a !in s.slots[n].read && a !in s.slots[n].write
      modifies this
      ensures s.Coherent() && Arriving(s, n) && Caused(s, n, ordered)
      ensures Locked(old(s), s, n) && s.slots[n].read == old(s).slots[n].read + {a}
              && s.slots[n].write == old(s).slots[n].write
      ensures EdgesGrow(old(s), s, n, {})
    {
      assert s.TrackOk(a);
      ghost var before := s;
      WaitOnLocked(n, s.tracks[a].writer, false);
      ghost var waiting := s;
      var kept := PruneLocked(s.tracks[a].readers);
      ReadLockedKeepsCoherent(s, n, a, kept);
      s := s.(tracks := s.tracks[a := s.tracks[a].(readers := kept + [s.slots[n].id])],
              slots := s.slots[n := s.slots[n].(read := s.slots[n].read + {a})]);
      forall p: nat | s.Waits(n, p) ensures p < |s.slots| && (s.Conflict(p, n) || p in ordered) {
        if before.Waits(n, p) {
          if p !in ordered { ConflictStays(before, s, p, n); }
        } else {
          assert a in s.slots[p].write * s.slots[n].read;
          assert a in s.slots[p].write * (s.slots[n].read + s.slots[n].write);
        }
      }
    }

    /** Makes job n wait for every reader of track a, one by one. */
    method WaitOnAll(n: nat, a: nat, readers: seq<JobId>)
      requires s.Coherent() && Arriving(s, n) && a < |s.tracks| && Pruned(s, s.tracks[a].readers, readers)
      requires a !in s.slots[n].read
      modifies this
      ensures s.Coherent() && Arriving(s, n) && OnlyWaits(old(s), s, n)
      ensures s.slots[n].preds == old(s).slots[n].preds + SlotsOf(readers)
      ensures EdgesGrow(old(s), s, n, {})
    {
      ghost var before := s;
      for k := 0 to |readers|
        invariant s.Coherent() && Arriving(s, n) && OnlyWaits(before, s, n) && EdgesGrow(before, s, n, {})
        invariant s.slots[n].preds == before.slots[n].preds + SlotsOf(readers[..k])
      {
        ghost var u := s;
        assert readers[k] in readers && s.Live(readers[k]) && s.ReaderOk(a, readers[k].slot);
        assert readers[..k + 1][..k] == readers[..k];
        WaitOnLocked(n, readers[k], false);
        OnlyWaitsOn(before, u, s, n);
        EdgesGrowOn(before, u, s, n, {}, {});
      }
      assert readers[..|readers|] == readers;
    }

    /** Makes job n wait for the readers of track a left, or for its writer if
        there is none. */
    method WaitBehindTail(n: nat, a: nat) returns (readers: seq<JobId>)
      requires s.Coherent() && Arriving(s, n) && a < |s.tracks| && a !in s.slots[n].read && a !in s.slots[n].write
      modifies this
      ensures s.Coherent() && Arriving(s, n) && OnlyWaits(old(s), s, n) && EdgesGrow(old(s), s, n, {})
      ensures Pruned(old(s), old(s).tracks[a].readers, readers) && BehindTail(s, n, a)
      ensures forall p: nat {:trigger s.Waits(n, p)} | s.Waits(n, p) ::
                || old(s).Waits(n, p) || p in SlotsOf(readers)
                || (old(s).Live(old(s).tracks[a].writer) && p == old(s).tracks[a].writer.slot)
    {
      assert s.TrackOk(a);
      ghost var before := s;
      readers := PruneLocked(s.tracks[a].readers);
      if readers == [] {
        WaitOnLocked(n, s.tracks[a].writer, false);
      }
      ghost var writerOnly := s;
      WaitOnAll(n, a, readers);
      EdgesGrowOn(before, writerOnly, s, n, {}, {});
      WaitsBehindTail(before, writerOnly, s, n, a, readers);
      forall p: nat | s.Waits(n, p)
        ensures before.Waits(n, p) || p in SlotsOf(readers)
                || (before.Live(before.tracks[a].writer) && p == before.tracks[a].writer.slot)
      {
        assert p in s.slots[n].preds;
      }
    }

    /** Puts job n on the tail of track a, to write it: behind its readers, or
        behind its writer if nobody has read it since. */
    method LockWrite(n: nat, a: nat, ghost ordered: set<nat>)
      requires s.Coherent() && Arriving(s, n) && a < |s.tracks| && Caused(s, n, ordered)
      requires a !in s.slots[n].read && a !in s.slots[n].write
      modifies this
      ensures s.Coherent() && Arriving(s, n) && Caused(s, n, ordered)
      ensures Locked(old(s), s, n) && EdgesGrow(old(s), s, n, {})
      ensures s.slots[n].write == old(s).slots[n].write + {a} && s.slots[n].read == old(s).slots[n].read
    {
      ghost var before := s;
      var readers := WaitBehindTail(n, a);
      WriteLockedKeepsCoherent(s, n, a);
      ghost var waiting := s;
      s := s.(tracks := s.tracks[a := Track(s.slots[n].id, [])],
              slots := s.slots[n := s.slots[n].(write := s.slots[n].write + {a})]);
      forall p: nat | s.Waits(n, p) ensures p < |s.slots| && (s.Conflict(p, n) || p in ordered) {
        assert waiting.Waits(n, p);
        WriteCause(before, s, n, a, p, ordered, readers);
      }
    }

    /** Puts job n on the tail of every track it locks, reads first. */
    method LockAll(n: nat, locks: LockSet, ghost ordered: set<nat>)
      requires s.Coherent() && Arriving(s, n) && locks.Valid() && locks.span <= |s.tracks|
      requires s.slots[n].read == {} && s.slots[n].write == {} && Caused(s, n, ordered)
      modifies this
      ensures s.Coherent() && Arriving(s, n) && Caused(s, n, ordered) && Locked(old(s), s, n)
      ensures s.slots[n].read == ToSet(locks.read) && s.slots[n].write == ToSet(locks.write)
      ensures EdgesGrow(old(s), s, n, {})
    {
      ghost var before := s;
      for k := 0 to |locks.read|
        invariant s.Coherent() && Arriving(s, n) && Caused(s, n, ordered) && Locked(before, s, n)
                  && EdgesGrow(before, s, n, {})
        invariant s.slots[n].read == ToSet(locks.read[..k]) && s.slots[n].write == {}
      {
        assert locks.read[k] < locks.span;
        assert locks.read[..k + 1] == locks.read[..k] + [locks.read[k]];
        ghost var u := s;
        LockRead(n, locks.read[k], ordered);
        EdgesGrowOn(before, u, s, n, {}, {});
      }
      assert locks.read[..|locks.read|] == locks.read;
      for k := 0 to |locks.write|
        invariant s.Coherent() && Arriving(s, n) && Caused(s, n, ordered) && Locked(before, s, n)
                  && EdgesGrow(before, s, n, {})
        invariant s.slots[n].read == ToSet(locks.read) && s.slots[n].write == ToSet(locks.write[..k])
      {
        assert locks.write[k] < locks.span && locks.write[k] in locks.write;
        assert locks.write[..k + 1] == locks.write[..k] + [locks.write[k]];
        ghost var u := s;
        LockWrite(n, locks.write[k], ordered);
        EdgesGrowOn(before, u, s, n, {}, {});
      }
      assert locks.write[..|locks.write|] == locks.write;
    }

    /** Puts job n behind the batch positions it is ordered after. */
    method WaitAfter(n: nat, batch: seq<JobId>, after: seq<nat>, ghost ordered: set<nat>)
      requires s.Coherent() && Arriving(s, n) && Caused(s, n, ordered)
      requires forall k | 0 <= k < |after| :: after[k] < |batch| &&
                 (s.Live(batch[after[k]]) ==> batch[after[k]].slot != n && batch[after[k]].slot in ordered)
      modifies this
      ensures s.Coherent() && Arriving(s, n) && Caused(s, n, ordered) && OnlyWaits(old(s), s, n)
      ensures EdgesGrow(old(s), s, n, ordered)
      ensures forall k | 0 <= k < |after| :: s.Live(batch[after[k]]) ==>
                s.Waits(n, batch[after[k]].slot) && OrderedBefore(s, batch[after[k]].slot, s.slots[n].id)
    {
      ghost var before := s;
      for k := 0 to |after|
        invariant s.Coherent() && Arriving(s, n) && Caused(s, n, ordered) && OnlyWaits(before, s, n)
        invariant EdgesGrow(before, s, n, ordered)
        invariant forall m | 0 <= m < k :: s.Live(batch[after[m]]) ==>
          s.Waits(n, batch[after[m]].slot) && OrderedBefore(s, batch[after[m]].slot, s.slots[n].id)
      {
        ghost var u := s;
        WaitOnLocked(n, batch[after[k]], true);
        ghost var added := if s.Live(batch[after[k]]) then {batch[after[k]].slot} else {};
        EdgesGrowOn(before, u, s, n, ordered, added);
        assert ordered + added == ordered;
        if u.Live(batch[after[k]]) {
          CausedBehind(u, n, batch[after[k]].slot, ordered);
        }
        forall m | 0 <= m < k && s.Live(batch[after[m]])
          ensures s.Waits(n, batch[after[m]].slot) && OrderedBefore(s, batch[after[m]].slot, s.slots[n].id)
        {
          StillBehind(u, s, n, batch[after[m]].slot, added);
        }
      }
    }

    /** Grants job n if it waits for no one. */
    method Grant(n: nat) returns (granted: bool)
      requires s.Coherent() && Arriving(s, n) && s.open == {n}
      modifies this
      ensures Valid() && |s.slots| == |old(s).slots| && OthersStay(old(s), s, n)
      ensures granted == (s.slots[n].blockers == 0) && Stands(old(s).slots[n], s.slots[n])
      ensures s.slots == old(s).slots[n := s.slots[n]]
      ensures s.slots[n].state == if !granted then Blocked else if s.slots[n].owned then Queued else Running
      ensures s.count == old(s).count && s.tracks == old(s).tracks && s.head == old(s).head
      ensures s.queue == old(s).queue + if s.slots[n].state == Queued then [s.slots[n].id] else []
    {
      granted := s.slots[n].blockers == 0;
      if !granted {
        ClosedKeepsCoherent(s, n, Blocked);
        s := s.(open := s.open - {n}, slots := s.slots[n := s.slots[n].(state := Blocked)]);
      } else if s.slots[n].owned {
        EnqueuedKeepsCoherent(s, n);
        s := s.(slots := s.slots[n := s.slots[n].(state := Queued, place := |s.queue|)], open := s.open - {n},
                queue := s.queue + [s.slots[n].id]);
      } else {
        ClosedKeepsCoherent(s, n, Running);
        s := s.(open := s.open - {n}, slots := s.slots[n := s.slots[n].(state := Running)]);
      }
    }

    /** Gives a job a slot, and puts it on the tail of every track it locks. */
    method Arrive(locks: LockSet, owned: bool, ghost ordered: set<nat>) returns (id: JobId)
      requires Valid() && locks.Valid()
      modifies this
      ensures s.Coherent() && Arriving(s, id.slot) && s.open == {id.slot} && Caused(s, id.slot, ordered)
      ensures EdgesGrow(old(s), s, id.slot, {}) && SameQueue(old(s), s)
      ensures NewJob(old(s), s, id, owned) && s.slots[id.slot].read == ToSet(locks.read)
              && s.slots[id.slot].write == ToSet(locks.write)
    {
      GrownKeepsCoherent(s, locks.span);
      s := s.(tracks := Grown(s.tracks, locks.span));
      ghost var before := s;
      id := AllocateLocked(owned);
      ghost var given := s;
      LockAll(id.slot, locks, ordered);
      EdgesGrowOn(before, given, s, id.slot, {}, {});
    }

    /** Gives a job a slot, puts it on the tail of every track it locks and behind
        the batch positions it is ordered after, and grants it if nothing live is
        in its way. */
    method SubmitLocked(locks: LockSet, owned: bool, batch: seq<JobId>, after: seq<nat>)
      returns (id: JobId, granted: bool)
      requires Valid() && locks.Valid()
      requires forall k | 0 <= k < |batch| :: s.Known(batch[k])
      requires forall k | 0 <= k < |after| :: after[k] < |batch|
      modifies this
      ensures Valid() && s.Live(id) && !old(s).Taken(id.slot) && s.count == old(s).count + 1
      ensures id.slot < |old(s).slots| ==> id.generation == old(s).slots[id.slot].generation + 1
      ensures var job := s.slots[id.slot];
              job.number == old(s).count
              && job.state == if !granted then Blocked else if owned then Queued else Running
      ensures Declares(s, id, locks, owned, LiveAfter(old(s), batch, after))
      ensures OthersStay(old(s), s, id.slot) && EdgesGrow(old(s), s, id.slot, LiveAfter(old(s), batch, after))
      ensures s.slots[id.slot].successors == [] && !s.slots[id.slot].skip
      ensures OneSlotMore(old(s), s, id.slot)
      ensures s.head == old(s).head
      ensures s.queue == old(s).queue + if s.slots[id.slot].state == Queued then [id] else []
      ensures forall k | 0 <= k < |after| :: old(s).Live(batch[after[k]]) ==>
                s.Waits(id.slot, batch[after[k]].slot) && OrderedBefore(s, batch[after[k]].slot, id)
      ensures granted <==>
                && (forall x: nat {:trigger s.Taken(x)} | s.Taken(x) && x != id.slot :: !s.Conflict(x, id.slot))
                && (forall k | 0 <= k < |after| :: !old(s).Live(batch[after[k]]))
    {
      ghost var before := s;
      ghost var ordered := LiveAfter(s, batch, after);
      id := Arrive(locks, owned, ordered);
      var n := id.slot;
      LiveBefore(before, s, n, batch);
      ghost var arrived := s;
      WaitAfter(n, batch, after, ordered);
      EdgesGrowOn(before, arrived, s, n, {}, ordered);
      assert {} + ordered == ordered;
      GrantDecision(s, n, ordered);
      ghost var decided := s;
      granted := Grant(n);
      NewcomerIsGranted(before, decided, s, n, batch, after, ordered, granted);
    }

    /** Hands every job of jobs to the pool, with no other submitted between. Each
        is ordered after earlier positions only. */
    method SubmitBatch(jobs: seq<BatchJob>) returns (batch: seq<JobId>)
      requires Valid()
      requires forall k | 0 <= k < |jobs| :: jobs[k].locks.Valid()
      requires Earlier(jobs)
      modifies this
      ensures Valid() && |batch| == |jobs| && s.count == old(s).count + |jobs| && BatchOf(old(s), s, jobs, batch, true)
      ensures QueuesBatch(old(s), s, batch)
    {
      batch := [];
      for k := 0 to |jobs|
        invariant Valid() && |batch| == k && s.count == old(s).count + k && BatchOf(old(s), s, jobs, batch, true)
        invariant QueuesBatch(old(s), s, batch)
      {
        ghost var before := s;
        forall m: nat | m < k ensures s.Known(batch[m]) && s.Live(batch[m]) {
          assert JobOfBatch(old(s), s, jobs, batch, true, m) && s.SlotOk(batch[m].slot);
        }
        var id, granted := SubmitLocked(jobs[k].locks, true, batch, jobs[k].after);
        OneJobMore(before, s, id, LiveAfter(before, batch, jobs[k].after));
        BatchGoesOn(old(s), before, s, jobs, batch, true, id);
        QueuesOneMore(old(s), before, s, id.slot, batch, id);
        batch := batch + [id];
      }
    }

    /** Takes the next queued job to run it. */
    method Take() returns (id: JobId)
      requires Valid()
      modifies this
      ensures Valid() && (id == NO_JOB <==> old(s).head == |old(s).queue|) && s.count == old(s).count
      ensures id == NO_JOB ==> s == old(s)
      ensures id != NO_JOB ==>
                && id == old(s).queue[old(s).head] && old(s).Live(id) && s.Live(id) && s.slots[id.slot].state == Running
                && old(s).slots[id.slot].state == Queued && |s.slots| == |old(s).slots|
                      && OthersStay(old(s), s, id.slot)
                && Stands(old(s).slots[id.slot], s.slots[id.slot])
                && s.slots == old(s).slots[id.slot := s.slots[id.slot]]
                && s.head <= |s.queue| && s.queue[s.head..] == old(s).queue[old(s).head + 1..]
    {
      if s.head == |s.queue| {
        return NO_JOB;
      }
      DequeuedKeepsCoherent(s);
      id := s.queue[s.head];
      s := s.(head := s.head + 1);
      if s.head == |s.queue| {
        s := s.(queue := [], head := 0);
      }
      s := s.(slots := s.slots[id.slot := s.slots[id.slot].(state := Running)]);
    }

    /** Releases the first of ending job d's edges. The list is taken apart as it
        is walked, where the source clears it once walked. */
    method DropEdge(d: nat, failed: bool) returns (after: JobId)
      requires MayRelease(s, d)
      modifies this
      ensures s.Coherent() && OpenAreDone(s) && Dropped(old(s), s, d, failed, after)
    {
      FirstSuccessor(s, d);
      EdgeReleasedKeepsCoherent(s, d, failed);
      EdgeReleasedIsDropped(s, d, failed);
      var edge := s.slots[d].successors[0];
      after := edge.id;
      var j := after.slot;
      s := s.(slots := s.slots[d := s.slots[d].(successors := s.slots[d].successors[1..])]
                              [j := s.slots[j].(blockers := s.slots[j].blockers - 1,
                                  preds := s.slots[j].preds - multiset{d},
                                                skip := s.slots[j].skip || (edge.ordered && failed))],
              open := if s.slots[j].blockers == 1 then s.open + {j} else s.open);
    }

    /** Grants job j, or leaves it to be skipped, if it waits for no one now. */
    method GrantNext(j: nat, continuing: bool) returns (outcome: Outcome)
      requires s.Coherent() && s.Taken(j) && s.slots[j].state == Blocked && (s.slots[j].blockers == 0 <==> j in s.open)
      modifies this
      ensures s.Coherent() && GrantedNext(old(s), s, j, continuing, outcome)
    {
      assert s.SlotOk(j);
      if s.slots[j].blockers > 0 {
        outcome := Waits;
      } else if s.slots[j].skip {
        outcome := Skips;
      } else if !s.slots[j].owned {
        outcome := Wakes;
        ClosedKeepsCoherent(s, j, Running);
        s := s.(slots := s.slots[j := s.slots[j].(state := Running)], open := s.open - {j});
      } else if continuing {
        outcome := Continues;
        ClosedKeepsCoherent(s, j, Running);
        s := s.(slots := s.slots[j := s.slots[j].(state := Running)], open := s.open - {j});
      } else {
        outcome := Queues;
        EnqueuedKeepsCoherent(s, j);
        s := s.(slots := s.slots[j := s.slots[j].(state := Queued, place := |s.queue|)], open := s.open - {j},
                queue := s.queue + [s.slots[j].id]);
      }
    }

    /** Releases the first edge left of job done, granting the job it led to if
        that waited for done alone, or leaving it to be skipped. */
    method ReleaseFirst(done: Finished, continuing: bool, p: Progress, ghost before: State, ghost released: nat)
      returns (q: Progress)
      requires s.Coherent() && s.ending == {done.id.slot} && OpenAreDone(s) && done.id.slot in s.open
               && s.Taken(done.id.slot)
      requires s.slots[done.id.slot].successors != []
      requires Advances(before, s) && Releasing(before, s, done, released)
      requires p.Ok(s, {done.id.slot}, continuing) && p.Covers(before, s, continuing)
      modifies this
      ensures s.Coherent() && s.ending == {done.id.slot} && OpenAreDone(s) && done.id.slot in s.open
              && s.Taken(done.id.slot)
      ensures |s.slots[done.id.slot].successors| == |old(s).slots[done.id.slot].successors| - 1
      ensures Advances(before, s) && Releasing(before, s, done, released + 1)
      ensures q.Ok(s, {done.id.slot}, continuing) && q.Covers(before, s, continuing) && q.After(p)
    {
      ghost var u := s;
      var after := DropEdge(done.id.slot, done.failed);
      ghost var v := s;
      var outcome := GrantNext(after.slot, continuing && p.onward == NO_JOB);
      EdgeIsReleased(before, u, v, s, done, released, p, continuing, after, outcome);
      q := p.With(after, outcome);
    }

    /** Releases every edge of job done, granting the jobs that waited for it
        alone, or leaving them to be skipped. */
    method ReleaseEdges(done: Finished, continuing: bool, p: Progress) returns (q: Progress)
      requires s.Coherent() && s.ending == {done.id.slot} && s.Taken(done.id.slot) && done.id.slot in s.open
               && OpenAreDone(s)
      requires p.Ok(s, {done.id.slot}, continuing)
      modifies this
      ensures MayFree(s, done.id.slot) && OpenAreDone(s) && Advances(old(s), s) && done.id.slot in s.open
      ensures q.Ok(s, {done.id.slot}, continuing) && q.After(p) && q.Covers(old(s), s, continuing)
      ensures Releasing(old(s), s, done, |old(s).slots[done.id.slot].successors|)
    {
      var d := done.id.slot;
      ghost var before := s;
      assert s.SlotOk(d);
      q := p;
      ghost var released: nat := 0;
      while s.slots[d].successors != []
        invariant s.Coherent() && s.ending == {d} && OpenAreDone(s) && d in s.open && s.Taken(d)
        invariant Advances(before, s) && Releasing(before, s, done, released)
        invariant q.Ok(s, {d}, continuing) && q.After(p) && q.Covers(before, s, continuing)
        decreases |s.slots[d].successors|
      {
        q := ReleaseFirst(done, continuing, q, before, released);
        released := released + 1;
      }
    }

    /** Ends job done, and frees its slot. p says what finish has come to so
        far. */
    method EndJob(done: Finished, continuing: bool, p: Progress) returns (q: Progress)
      requires s.Coherent() && s.ending == {} && MayEnd(s, done.id.slot) && OpenAreDone(s)
      requires p.Ok(s, {done.id.slot}, continuing)
      modifies this
      ensures s.Coherent() && s.ending == {} && OpenAreDone(s) && Advances(old(s), s)
      ensures q.Ok(s, {}, continuing) && q.After(p) && q.Covers(old(s), s, continuing)
      ensures EndedOnly(old(s), s, done.id.slot)
      ensures Marks(old(s).slots, s.slots, done.id.slot, done.failed, |old(s).slots[done.id.slot].successors|)
    {
      var d := done.id.slot;
      EndBegunKeepsCoherent(s, d);
      s := s.(ending := {d});
      q := ReleaseEdges(done, continuing, p);
      ghost var w := s;
      FreedKeepsCoherent(s, d);
      FreedKeepsProgress(s, d, q, continuing);
      s := s.(slots := s.slots[d := s.slots[d].(id := NO_JOB, successors := [], place := |s.free|)],
          free := s.free + [d],
              ending := {}, open := s.open - {d});
      ghost var were, count := old(s).slots, |old(s).slots[d].successors|;
      forall x: nat ensures MarkedBy(were, s.slots, d, done.failed, count, x) {
        assert MarkedBy(were, w.slots, d, done.failed, count, x);
      }
    }

    /** Ends running job id, and every job that is skipped because of it. p ends
        with the job the worker goes on with and the jobs whose submitters are
        woken; p.skips is the stack of the jobs still to end, the last on top. */
    method Finish(id: JobId, failed: bool, continuing: bool) returns (p: Progress, skipped: seq<JobId>)
      requires Valid() && s.Live(id) && s.slots[id.slot].state == Running
      modifies this
      ensures Valid() && Advances(old(s), s) && !s.Taken(id.slot) && p.Ok(s, {}, continuing)
              && p.Covers(old(s), s, continuing)
      ensures forall i: nat {:trigger s.Taken(i)} | old(s).Taken(i) && !s.Taken(i) :: i == id.slot || Names(skipped, i)
      ensures forall k {:trigger skipped[k]} | 0 <= k < |skipped| ::
                old(s).Live(skipped[k]) && !s.Taken(skipped[k].slot) && old(s).slots[skipped[k].slot].state == Blocked
      ensures forall i: nat {:trigger s.Taken(i)} | old(s).Taken(i) && !s.Taken(i) && i != id.slot :: s.slots[i].skip
      ensures forall x: nat {:trigger MarkedOk(old(s), s, id, failed, x)} :: MarkedOk(old(s), s, id, failed, x)
      ensures EdgesStay(old(s), s)
      ensures !failed && (forall i: nat | old(s).Taken(i) :: !old(s).slots[i].skip) ==> skipped == []
    {
      ghost var before := s;
      p := EndFirst(id, failed, continuing);
      p, skipped := EndSkipped(before, id, failed, continuing, p);
      StackIsEmpty(before, s, id, failed, p, skipped);
    }

    /** Ends the skipped jobs on the stack, until there are none. */
    method EndSkipped(ghost before: State, ghost id: JobId, ghost failed: bool, continuing: bool, first: Progress)
      returns (p: Progress, skipped: seq<JobId>)
      requires s.Coherent() && s.ending == {} && OpenAreDone(s) && first.Ok(s, {}, continuing)
               && first.Covers(before, s, continuing)
      requires Ending(before, s, id, failed, first.skips, first.skips)
      modifies this
      ensures s.Coherent() && s.ending == {} && p.Ok(s, {}, continuing) && p.Covers(before, s, continuing)
      ensures p.skips == [] && Ending(before, s, id, failed, [], skipped)
    {
      p, skipped := first, first.skips;
      ghost var left: set<nat> := set i: nat | i < |s.slots| && s.Taken(i);
      while p.skips != []
        invariant s.Coherent() && s.ending == {} && OpenAreDone(s) && p.Ok(s, {}, continuing)
                  && p.Covers(before, s, continuing)
        invariant Ending(before, s, id, failed, p.skips, skipped)
        invariant forall i: nat {:trigger s.Taken(i)} :: s.Taken(i) ==> i in left
        decreases left
      {
        ghost var top := p.skips[|p.skips| - 1];
        assert s.Taken(top.slot);
        p, skipped := EndTop(before, id, failed, continuing, p, skipped);
        left := left - {top.slot};
      }
    }

    /** Ends running job id itself. */
    method EndFirst(id: JobId, failed: bool, continuing: bool) returns (p: Progress)
      requires Valid() && s.Live(id) && s.slots[id.slot].state == Running
      modifies this
      ensures s.Coherent() && s.ending == {} && OpenAreDone(s) && p.Ok(s, {}, continuing)
              && p.Covers(old(s), s, continuing)
      ensures Ending(old(s), s, id, failed, p.skips, p.skips)
    {
      ghost var before := s;
      assert s.SlotOk(id.slot);
      OpenedKeepsCoherent(s, id.slot);
      s := s.(open := s.open + {id.slot});
      p := EndJob(Finished(id, failed), continuing, Progress([], [], NO_JOB));
      EndedStarts(before, s, id, failed, p);
    }

    /** Ends the skipped job on top of the stack. */
    method EndTop(ghost before: State, ghost id: JobId, ghost failed: bool, continuing: bool, p: Progress,
                  skipped: seq<JobId>)
      returns (q: Progress, all: seq<JobId>)
      requires s.Coherent() && s.ending == {} && OpenAreDone(s) && p.Ok(s, {}, continuing) && p.skips != []
      requires Ending(before, s, id, failed, p.skips, skipped) && p.Covers(before, s, continuing)
      modifies this
      ensures s.Coherent() && s.ending == {} && OpenAreDone(s) && q.Ok(s, {}, continuing)
      ensures Ending(before, s, id, failed, q.skips, all) && q.Covers(before, s, continuing)
      ensures forall i: nat {:trigger s.Taken(i)} :: s.Taken(i) ==> old(s).Taken(i) && i != p.skips[|p.skips| - 1].slot
    {
      ghost var u := s;
      var top := p.skips[|p.skips| - 1];
      var rest := p.skips[..|p.skips| - 1];
      RestIsOk(s, p, continuing);
      q := EndJob(Finished(top, true), continuing, p.(skips := rest));
      var added := q.skips[|rest|..];
      all := skipped + added;
      assert rest + [top] == p.skips && rest + added == q.skips;
      EndingStep(before, u, s, id, failed, rest, top, skipped, added);
      CoversOn(before, u, s, p.(skips := rest), q, continuing);
      forall i: nat | s.Taken(i) ensures u.Taken(i) && i != top.slot {
        assert i != top.slot ==> s.slots[i].id == u.slots[i].id;
      }
    }
  }

  lemma StackIsEmpty(before: State, s: State, id: JobId, failed: bool, p: Progress, skipped: seq<JobId>)
    requires p.skips == [] && p.SkipsOk(s, {}) && Ending(before, s, id, failed, [], skipped)
    ensures s.open == {}
    ensures forall i: nat {:trigger s.Taken(i)} | before.Taken(i) && !s.Taken(i) :: i == id.slot || Names(skipped, i)
    ensures forall k | 0 <= k < |skipped| :: !s.Taken(skipped[k].slot)
    ensures forall i: nat {:trigger s.Taken(i)} | before.Taken(i) && !s.Taken(i) && i != id.slot :: s.slots[i].skip
  {
    forall i: nat ensures i !in s.open { assert !Names(p.skips, i); }
    forall i: nat | before.Taken(i) && !s.Taken(i) ensures i == id.slot || (Names(skipped, i) && s.slots[i].skip) {
      assert EndedOk(before, s, id, skipped, i);
      if i != id.slot {
        var k :| 0 <= k < |skipped| && skipped[k].slot == i;
        assert SkippedOk(before, s, [], skipped[k]);
      }
    }
  }
}
