/** The steps that grant, queue and end a job, and that each keeps the
    scheduler's state coherent (_legacy/kernel/scheduler.go). A job that ends
    loses its edges one at a time, so midway the paths through it no longer
    count: those between the others must stay. */
module LegacyEnding {
  import opened LegacyState
  import opened LegacySteps

  /** One job's state, place or skip mark changed, and where it is waited for,
      but no edge, lock or number. */
  ghost predicate OnlyMoved(s: State, t: State, n: nat) {
    && n < |s.slots| && |t.slots| == |s.slots|
    && t == s.(slots := t.slots, queue := t.queue, head := t.head, open := t.open)
    && t.slots == s.slots[n := s.slots[n].(state := t.slots[n].state, place := t.slots[n].place)]
  }

  lemma MovedKeepsCoherent(s: State, t: State, n: nat)
    requires s.Coherent() && OnlyMoved(s, t, n) && s.Taken(n) && t.head <= |t.queue|
    requires forall i: nat {:trigger t.SlotOk(i)} :: t.SlotOk(i)
    requires forall p: nat {:trigger t.QueueOk(p)} :: t.QueueOk(p)
    ensures t.Coherent()
  {
    forall i: nat, j: nat ensures t.Waits(i, j) == s.Waits(i, j) { }
    forall i: nat, j: nat ensures t.EdgeOk(i, j) { assert s.EdgeOk(i, j); }
    forall i: nat, k: nat ensures t.SuccessorOk(i, k) { assert s.SuccessorOk(i, k); }
    forall i: nat, j: nat ensures t.NumberOk(i, j) { assert s.NumberOk(i, j); }
    forall p: nat ensures t.FreeOk(p) { assert s.FreeOk(p); }
    forall i: nat, j: nat | s.Taken(j) && s.Reaches(i, j) ensures t.Reaches(i, j) { PathsStay(s, t, {}, i, j); }
    SameLocksKeepOrdered(s, t);
  }

  /** An open job granted to the goroutine that runs it, or left to wait. */
  ghost function Closed(s: State, n: nat, state: JobState): State
    requires n < |s.slots|
  {
    s.(slots := s.slots[n := s.slots[n].(state := state)], open := s.open - {n})
  }

  lemma ClosedKeepsCoherent(s: State, n: nat, state: JobState)
    requires s.Coherent() && s.Taken(n) && n in s.open
    requires if s.slots[n].blockers == 0 then state == Running && !s.slots[n].skip else state == Blocked
    ensures Closed(s, n, state).Coherent()
  {
    var t := Closed(s, n, state);
    assert s.SlotOk(n);
    forall i: nat ensures t.SlotOk(i) {
      assert s.SlotOk(i);
      forall q: nat | t.Waits(i, q) ensures q < |t.slots| { assert s.Waits(i, q); }
    }
    forall p: nat ensures t.QueueOk(p) { assert s.QueueOk(p); }
    MovedKeepsCoherent(s, t, n);
  }

  /** An open job queued for the pool. */
  ghost function Enqueued(s: State, n: nat): State
    requires n < |s.slots|
  {
    s.(slots := s.slots[n := s.slots[n].(state := Queued, place := |s.queue|)], open := s.open - {n},
       queue := s.queue + [s.slots[n].id])
  }

  lemma EnqueuedKeepsCoherent(s: State, n: nat)
    requires s.Coherent() && s.Taken(n) && n in s.open && s.slots[n].blockers == 0 && !s.slots[n].skip
    ensures Enqueued(s, n).Coherent()
  {
    var t := Enqueued(s, n);
    assert s.SlotOk(n);
    forall i: nat ensures t.SlotOk(i) {
      assert s.SlotOk(i);
      forall q: nat | t.Waits(i, q) ensures q < |t.slots| { assert s.Waits(i, q); }
    }
    forall p: nat ensures t.QueueOk(p) { assert s.QueueOk(p); }
    MovedKeepsCoherent(s, t, n);
  }

  /** The first job of the queue running. */
  ghost function Dequeued(s: State): State
    requires s.head < |s.queue| && s.queue[s.head].slot < |s.slots|
  {
    var n := s.queue[s.head].slot;
    var emptied := s.head + 1 == |s.queue|;
    s.(slots := s.slots[n := s.slots[n].(state := Running)],
       queue := if emptied then [] else s.queue, head := if emptied then 0 else s.head + 1)
  }

  lemma DequeuedKeepsCoherent(s: State)
    requires s.Coherent() && s.head < |s.queue|
    ensures s.Live(s.queue[s.head]) && s.slots[s.queue[s.head].slot].state == Queued && Dequeued(s).Coherent()
  {
    assert s.QueueOk(s.head);
    var t, n := Dequeued(s), s.queue[s.head].slot;
    forall i: nat ensures t.SlotOk(i) {
      assert s.SlotOk(i);
      forall q: nat | t.Waits(i, q) ensures q < |t.slots| { assert s.Waits(i, q); }
    }
    forall p: nat ensures t.QueueOk(p) { assert s.QueueOk(p); }
    MovedKeepsCoherent(s, t, n);
  }

  /** Job d, which runs, handed to finish. */
  ghost function Opened(s: State, d: nat): State {
    s.(open := s.open + {d})
  }

  lemma OpenedKeepsCoherent(s: State, d: nat)
    requires s.Coherent() && s.Taken(d) && s.slots[d].state == Running
    ensures Opened(s, d).Coherent()
  {
    var t := Opened(s, d);
    forall i: nat, j: nat ensures t.Waits(i, j) == s.Waits(i, j) { }
    forall i: nat ensures t.SlotOk(i) { assert s.SlotOk(i); }
    forall i: nat, j: nat ensures t.EdgeOk(i, j) { assert s.EdgeOk(i, j); }
    forall i: nat, k: nat ensures t.SuccessorOk(i, k) { assert s.SuccessorOk(i, k); }
    forall i: nat, j: nat ensures t.NumberOk(i, j) { assert s.NumberOk(i, j); }
    forall p: nat ensures t.FreeOk(p) && t.QueueOk(p) { assert s.FreeOk(p) && s.QueueOk(p); }
    forall i: nat, j: nat | s.Taken(j) && s.Reaches(i, j) ensures t.Reaches(i, j) { PathsStay(s, t, {}, i, j); }
    SameLocksKeepOrdered(s, t);
  }

  /** Job d about to release its edges. */
  ghost function EndBegun(s: State, d: nat): State {
    s.(ending := {d})
  }

  /** Whether d may end: it runs, or was skipped, and waits for no one. */
  ghost predicate MayEnd(s: State, d: nat) {
    s.Taken(d) && d in s.open && s.slots[d].blockers == 0
  }

  lemma EndBegunKeepsCoherent(s: State, d: nat)
    requires s.Coherent() && s.ending == {} && MayEnd(s, d)
    ensures EndBegun(s, d).Coherent()
  {
    var t := EndBegun(s, d);
    assert s.SlotOk(d);
    forall i: nat, j: nat ensures t.Waits(i, j) == s.Waits(i, j) { }
    forall i: nat ensures t.SlotOk(i) { assert s.SlotOk(i); }
    forall i: nat, j: nat ensures t.EdgeOk(i, j) { assert s.EdgeOk(i, j); }
    forall i: nat, k: nat ensures t.SuccessorOk(i, k) { assert s.SuccessorOk(i, k); }
    forall i: nat, j: nat ensures t.NumberOk(i, j) { assert s.NumberOk(i, j); }
    forall p: nat ensures t.FreeOk(p) && t.QueueOk(p) { assert s.FreeOk(p) && s.QueueOk(p); }
    forall i: nat, j: nat | s.Taken(j) && s.Reaches(i, j) ensures t.Reaches(i, j) { PathsStay(s, t, {}, i, j); }
    forall a: nat ensures t.TrackOk(a) { assert s.TrackOk(a); }
    forall a: nat, x: nat ensures t.WriteOk(a, x) { assert s.WriteOk(a, x); }
    forall a: nat, x: nat ensures t.ReadOk(a, x) { assert s.ReadOk(a, x); }
    forall a: nat, x: nat ensures t.ReaderOk(a, x) { assert s.ReaderOk(a, x); }
    forall x: nat, y: nat ensures t.PathOk(x, y) { assert s.PathOk(x, y); }
  }

  /** The first of d's edges released: its successor waits for one less, and is
      marked to be skipped if the edge was ordered and d failed. */
  ghost function EdgeReleased(s: State, d: nat, failed: bool): State
    requires d < |s.slots| && s.slots[d].successors != [] && s.slots[d].successors[0].id.slot < |s.slots|
    requires s.slots[d].successors[0].id.slot != d
  {
    var after := s.slots[d].successors[0];
    var j := after.id.slot;
    s.(slots := s.slots[d := s.slots[d].(successors := s.slots[d].successors[1..])]
                       [j := s.slots[j].(blockers := s.slots[j].blockers - 1, preds := s.slots[j].preds - multiset{d},
                                         skip := s.slots[j].skip || (after.ordered && failed))],
       open := if s.slots[j].blockers == 1 then s.open + {j} else s.open)
  }

  /** The successor that d's first edge leads to. */
  lemma FirstSuccessor(s: State, d: nat)
    requires s.Linked() && s.Taken(d) && s.slots[d].successors != []
    ensures var after := s.slots[d].successors[0].id;
            && s.Live(after) && after.slot != d && s.slots[after.slot].state == Blocked
            && s.slots[after.slot].blockers > 0 && d in s.slots[after.slot].preds && after.slot !in s.ending
  {
    var j := s.slots[d].successors[0].id.slot;
    assert s.SuccessorOk(d, 0) && s.EdgeOk(d, j) && s.SlotOk(j);
    assert j in Targets(s.slots[d].successors);
    assert s.Waits(j, d);
  }

  ghost predicate MayRelease(s: State, d: nat) {
    && s.Coherent() && s.ending == {d} && s.Taken(d) && s.slots[d].successors != []
    && (forall i: nat {:trigger i in s.open} :: i in s.open ==> i < |s.slots| && s.slots[i].blockers == 0)
  }

  lemma EdgeReleasedKeepsSlot(s: State, d: nat, failed: bool, i: nat)
    requires MayRelease(s, d)
    ensures s.slots[d].successors[0].id.slot < |s.slots| && s.slots[d].successors[0].id.slot != d
    ensures EdgeReleased(s, d, failed).SlotOk(i)
  {
    FirstSuccessor(s, d);
    var t := EdgeReleased(s, d, failed);
    assert s.SlotOk(i) && s.SlotOk(d);
    forall q: nat | t.Waits(i, q) ensures q < |t.slots| { assert s.Waits(i, q); }
  }

  lemma EdgeReleasedKeepsEdge(s: State, d: nat, failed: bool, i: nat, j: nat)
    requires MayRelease(s, d)
    ensures s.slots[d].successors[0].id.slot < |s.slots| && s.slots[d].successors[0].id.slot != d
    ensures EdgeReleased(s, d, failed).EdgeOk(i, j)
  {
    FirstSuccessor(s, d);
    var t := EdgeReleased(s, d, failed);
    assert s.EdgeOk(i, j);
    assert t.Waits(j, i) ==> s.Waits(j, i);
  }

  lemma EdgeReleasedKeepsLinked(s: State, d: nat, failed: bool)
    requires MayRelease(s, d)
    ensures s.slots[d].successors[0].id.slot < |s.slots| && s.slots[d].successors[0].id.slot != d
    ensures EdgeReleased(s, d, failed).Linked()
  {
    FirstSuccessor(s, d);
    var t := EdgeReleased(s, d, failed);
    forall i: nat ensures t.SlotOk(i) { EdgeReleasedKeepsSlot(s, d, failed, i); }
    forall i: nat, j: nat ensures t.EdgeOk(i, j) { EdgeReleasedKeepsEdge(s, d, failed, i, j); }
    forall i: nat, k: nat ensures t.SuccessorOk(i, k) { assert s.SuccessorOk(i, k) && s.SuccessorOk(i, k + 1); }
    forall i: nat, j: nat ensures t.NumberOk(i, j) { assert s.NumberOk(i, j); }
    forall p: nat ensures t.FreeOk(p) && t.QueueOk(p) { assert s.FreeOk(p) && s.QueueOk(p); }
  }

  lemma EdgeReleasedKeepsCoherent(s: State, d: nat, failed: bool)
    requires MayRelease(s, d)
    ensures s.slots[d].successors[0].id.slot < |s.slots| && s.slots[d].successors[0].id.slot != d
    ensures EdgeReleased(s, d, failed).Coherent()
  {
    EdgeReleasedKeepsLinked(s, d, failed);
    var t := EdgeReleased(s, d, failed);
    assert s.SlotOk(d);
    forall j: nat, p: nat | s.Waits(j, p) && p != d ensures t.Waits(j, p) { assert p in s.slots[j].preds; }
    forall i: nat, j: nat | s.Taken(j) && s.Reaches(i, j) && i !in s.ending ensures t.Reaches(i, j) {
      PathsStay(s, t, {d}, i, j);
    }
    SameLocksKeepOrdered(s, t);
  }

  /** d ended, and its slot free. */
  ghost function Freed(s: State, d: nat): State
    requires d < |s.slots|
  {
    s.(slots := s.slots[d := s.slots[d].(id := NO_JOB, successors := [], place := |s.free|)], free := s.free + [d],
       ending := {}, open := s.open - {d})
  }

  ghost predicate MayFree(s: State, d: nat) {
    && s.Coherent() && s.ending == {d} && s.Taken(d) && s.slots[d].successors == []
    && s.slots[d].state != Queued
  }

  lemma FreedKeepsLinked(s: State, d: nat)
    requires MayFree(s, d)
    ensures Freed(s, d).Linked()
  {
    var t := Freed(s, d);
    assert s.SlotOk(d);
    forall i: nat, j: nat ensures t.Waits(i, j) == s.Waits(i, j) { }
    forall i: nat ensures t.SlotOk(i) { assert s.SlotOk(i); }
    forall i: nat, j: nat ensures t.EdgeOk(i, j) { assert s.EdgeOk(i, j); }
    forall i: nat, k: nat ensures t.SuccessorOk(i, k) { FreedKeepsSuccessor(s, d, i, k); }
    forall i: nat, j: nat ensures t.NumberOk(i, j) { assert s.NumberOk(i, j); }
    forall p: nat ensures t.FreeOk(p) && t.QueueOk(p) { assert s.FreeOk(p) && s.QueueOk(p); }
  }

  /** No one waits to be told of d's end: d waits for no one. */
  lemma FreedKeepsSuccessor(s: State, d: nat, i: nat, k: nat)
    requires MayFree(s, d)
    ensures Freed(s, d).SuccessorOk(i, k)
  {
    assert s.SlotOk(d) && s.SuccessorOk(i, k) && s.EdgeOk(i, d);
    if i < |s.slots| && i != d && k < |s.slots[i].successors| && s.slots[i].successors[k].id.slot == d {
      TargetAt(s.slots[i].successors, k);
    }
  }

  lemma TargetAt(successors: seq<Successor>, k: nat)
    requires k < |successors|
    ensures successors[k].id.slot in Targets(successors)
  {
    if k > 0 {
      TargetAt(successors[1..], k - 1);
    }
  }

  lemma FreedKeepsTrack(s: State, d: nat, a: nat, x: nat)
    requires MayFree(s, d)
    requires forall i: nat, j: nat {:trigger Freed(s, d).Reaches(i, j)} | s.Taken(j) && s.Reaches(i, j) && i != d ::
             Freed(s, d).Reaches(i, j)
    ensures var t := Freed(s, d); t.WriteOk(a, x) && t.ReadOk(a, x) && t.ReaderOk(a, x)
  {
    assert s.SlotOk(d) && s.WriteOk(a, x) && s.ReadOk(a, x) && s.ReaderOk(a, x);
    if a < |s.tracks| && x != d && s.ReachesJob(x, s.tracks[a].writer) {
      PathsAscend(s, x, s.tracks[a].writer.slot);
    }
  }

  lemma FreedKeepsCoherent(s: State, d: nat)
    requires MayFree(s, d)
    ensures Freed(s, d).Coherent()
  {
    var t := Freed(s, d);
    FreedKeepsLinked(s, d);
    assert s.SlotOk(d);
    forall i: nat, j: nat ensures t.Waits(i, j) == s.Waits(i, j) { }
    forall i: nat, j: nat | s.Taken(j) && s.Reaches(i, j) && i != d ensures t.Reaches(i, j) {
      PathsStay(s, t, {d}, i, j);
    }
    forall a: nat ensures t.TrackOk(a) { assert s.TrackOk(a); }
    forall a: nat, x: nat ensures t.WriteOk(a, x) && t.ReadOk(a, x) && t.ReaderOk(a, x) { FreedKeepsTrack(s, d, a, x); }
    forall x: nat, y: nat ensures t.PathOk(x, y) { assert s.PathOk(x, y); }
  }
}
