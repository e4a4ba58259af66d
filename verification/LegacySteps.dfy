/** The steps of the first kernel's scheduler that submit a job, and that each
    keeps its state coherent (_legacy/kernel/scheduler.go). The hard part of
    each is that no waits-for path is lost, and that a job put on a track's
    tail is behind everyone it conflicts with there. */
module LegacySteps {
  import opened LegacyState

  /** A slot given to a new job: one past the last, or the last of free. */
  ghost function Allocated(s: State, owned: bool): State
    requires s.free != [] ==> s.free[|s.free| - 1] < |s.slots|
  {
    if s.free == [] then
      s.(slots := s.slots + [NewSlot(|s.slots|, 1, owned, s.count)], count := s.count + 1, open := s.open + {|s.slots|})
    else
      var i := s.free[|s.free| - 1];
      s.(slots := s.slots[i := NewSlot(i, s.slots[i].generation + 1, owned, s.count)], free := s.free[..|s.free| - 1],
         count := s.count + 1, open := s.open + {i})
  }

  function NewSlot(i: nat, generation: nat, owned: bool, ghost number: nat): Slot {
    Slot(JobId(i, generation), generation, Blocked, false, 0, [], owned, number, {}, {}, multiset{}, 0)
  }

  /** The slot that Allocated gives out. */
  function NextSlot(s: State): nat {
    if s.free == [] then |s.slots| else s.free[|s.free| - 1]
  }

  lemma AllocatedKeepsLinked(s: State, owned: bool)
    requires s.Linked()
    ensures s.free != [] ==> s.free[|s.free| - 1] < |s.slots|
    ensures !s.Taken(NextSlot(s)) && NextSlot(s) <= |s.slots| && Allocated(s, owned).Linked()
  {
    if s.free != [] {
      assert s.FreeOk(|s.free| - 1);
    }
    var n := NextSlot(s);
    var t := Allocated(s, owned);
    assert s.SlotOk(n);
    forall i: nat ensures t.SlotOk(i) {
      assert s.SlotOk(i);
      forall p: nat | t.Waits(i, p) ensures p < |t.slots| { assert s.Waits(i, p); }
    }
    forall i: nat, j: nat ensures t.EdgeOk(i, j) { AllocatedKeepsEdge(s, owned, i, j); }
    forall i: nat, k: nat ensures t.SuccessorOk(i, k) { assert s.SuccessorOk(i, k); }
    forall i: nat, j: nat ensures t.NumberOk(i, j) { assert s.NumberOk(i, j) && s.SlotOk(i) && s.SlotOk(j); }
    forall p: nat ensures t.FreeOk(p) { assert s.FreeOk(p); }
    forall p: nat ensures t.QueueOk(p) { assert s.QueueOk(p); }
  }

  lemma AllocatedKeepsEdge(s: State, owned: bool, i: nat, j: nat)
    requires s.Linked() && !s.Taken(NextSlot(s)) && NextSlot(s) <= |s.slots|
    requires s.free != [] ==> s.free[|s.free| - 1] < |s.slots|
    ensures Allocated(s, owned).EdgeOk(i, j)
  {
    var n, t := NextSlot(s), Allocated(s, owned);
    assert s.EdgeOk(i, j) && s.SlotOk(n) && s.SlotOk(i) && s.SlotOk(j);
    if i < |t.slots| && j < |t.slots| {
      assert t.Waits(j, i) ==> s.Waits(j, i);
      if i < |s.slots| && j == n && Targets(s.slots[i].successors)[n] > 0 {
        TargetIsTaken(s, i, n);
      }
    }
  }

  /** A target of a job's successors is the slot of a live job. */
  lemma TargetIsTaken(s: State, i: nat, j: nat)
    requires s.Linked() && i < |s.slots| && j in Targets(s.slots[i].successors)
    ensures s.Taken(j)
  {
    var k := TargetPosition(s.slots[i].successors, j);
    assert s.SuccessorOk(i, k);
  }

  lemma TargetPosition(successors: seq<Successor>, j: nat) returns (k: nat)
    requires j in Targets(successors)
    ensures k < |successors| && successors[k].id.slot == j
  {
    if successors[0].id.slot == j {
      k := 0;
    } else {
      k := TargetPosition(successors[1..], j);
      k := k + 1;
    }
  }

  lemma AllocatedKeepsOrdered(s: State, owned: bool)
    requires s.Coherent() && !s.Taken(NextSlot(s)) && NextSlot(s) <= |s.slots|
    requires s.free != [] ==> s.free[|s.free| - 1] < |s.slots|
    ensures Allocated(s, owned).Ordered()
  {
    var n, t := NextSlot(s), Allocated(s, owned);
    AllocatedKeepsPaths(s, owned);
    forall a: nat ensures t.TrackOk(a) { assert s.TrackOk(a); }
    forall a: nat, x: nat ensures t.WriteOk(a, x) && t.ReadOk(a, x) && t.ReaderOk(a, x) {
      AllocatedKeepsTrack(s, owned, a, x);
    }
    forall x: nat, y: nat ensures t.PathOk(x, y) { assert s.PathOk(x, y); }
  }

  lemma AllocatedKeepsTrack(s: State, owned: bool, a: nat, x: nat)
    requires s.Coherent() && !s.Taken(NextSlot(s)) && NextSlot(s) <= |s.slots|
    requires s.free != [] ==> s.free[|s.free| - 1] < |s.slots|
    requires forall i: nat, j: nat {:trigger Allocated(s, owned).Reaches(i, j)} | s.Taken(j) && s.Reaches(i, j) ::
             Allocated(s, owned).Reaches(i, j)
    ensures var t := Allocated(s, owned); t.WriteOk(a, x) && t.ReadOk(a, x) && t.ReaderOk(a, x)
  {
    assert s.TrackOk(a) && s.WriteOk(a, x) && s.ReadOk(a, x) && s.ReaderOk(a, x);
  }

  lemma AllocatedKeepsPaths(s: State, owned: bool)
    requires s.Linked() && !s.Taken(NextSlot(s)) && NextSlot(s) <= |s.slots|
    requires s.free != [] ==> s.free[|s.free| - 1] < |s.slots|
    ensures forall i: nat, j: nat {:trigger Allocated(s, owned).Reaches(i, j)} | s.Taken(j) && s.Reaches(i, j) ::
            Allocated(s, owned).Reaches(i, j)
  {
    var t := Allocated(s, owned);
    assert KeepsEdges(s, t, {});
    forall i: nat, j: nat | s.Taken(j) && s.Reaches(i, j) ensures t.Reaches(i, j) { PathsStay(s, t, {}, i, j); }
  }

  /** Job n put behind job p. */
  ghost function Behind(s: State, n: nat, p: nat, ordered: bool): State
    requires n < |s.slots| && p < |s.slots| && n != p
  {
    s.(slots := s.slots[p := s.slots[p].(successors := s.slots[p].successors + [Successor(s.slots[n].id, ordered)])]
                       [n := s.slots[n].(blockers := s.slots[n].blockers + 1, preds := s.slots[n].preds + multiset{p})])
  }

  /** Whether n is the job being submitted. */
  ghost predicate Arriving(s: State, n: nat) {
    && s.Linked() && s.ending == {} && s.Taken(n) && n in s.open && s.slots[n].number + 1 == s.count
    && s.slots[n].successors == [] && s.slots[n].state == Blocked && !s.slots[n].skip
  }

  lemma BehindKeepsLinked(s: State, n: nat, p: nat, ordered: bool)
    requires Arriving(s, n) && s.Taken(p) && n != p
    ensures Behind(s, n, p, ordered).Linked() && Arriving(Behind(s, n, p, ordered), n)
  {
    var t := Behind(s, n, p, ordered);
    assert s.SlotOk(n) && s.SlotOk(p);
    forall i: nat ensures t.SlotOk(i) { BehindKeepsSlot(s, n, p, ordered, i); }
    forall i: nat, j: nat ensures t.EdgeOk(i, j) { BehindKeepsEdge(s, n, p, ordered, i, j); }
    forall i: nat, k: nat ensures t.SuccessorOk(i, k) { assert s.SuccessorOk(i, k); }
    forall i: nat, j: nat ensures t.NumberOk(i, j) { assert s.NumberOk(i, j); }
    forall q: nat ensures t.FreeOk(q) { assert s.FreeOk(q); }
    forall q: nat ensures t.QueueOk(q) { assert s.QueueOk(q); }
  }

  lemma BehindKeepsSlot(s: State, n: nat, p: nat, ordered: bool, i: nat)
    requires Arriving(s, n) && s.Taken(p) && n != p
    ensures Behind(s, n, p, ordered).SlotOk(i)
  {
    var t := Behind(s, n, p, ordered);
    assert s.SlotOk(i) && s.SlotOk(n);
    forall q: nat | t.Waits(i, q) ensures q < |t.slots| { assert s.Waits(i, q) || q == p; }
  }

  lemma BehindKeepsEdge(s: State, n: nat, p: nat, ordered: bool, i: nat, j: nat)
    requires Arriving(s, n) && s.Taken(p) && n != p
    ensures Behind(s, n, p, ordered).EdgeOk(i, j)
  {
    var t := Behind(s, n, p, ordered);
    assert s.SlotOk(n) && s.SlotOk(p) && s.NumberOk(n, p) && s.EdgeOk(i, j);
    TargetsAppend(s.slots[p].successors, Successor(s.slots[n].id, ordered));
    assert t.Waits(j, i) ==> s.Waits(j, i) || (j == n && i == p);
  }

  /** t has s's jobs, locks and tracks, and s's paths: so s's order. */
  lemma SameLocksKeepOrdered(s: State, t: State)
    requires s.Ordered() && t.tracks == s.tracks && t.ending == s.ending && |t.slots| == |s.slots|
    requires forall i: nat {:trigger t.slots[i]} | i < |s.slots| ::
               && t.slots[i].id == s.slots[i].id && t.slots[i].generation == s.slots[i].generation
                     && t.slots[i].number == s.slots[i].number
               && t.slots[i].read == s.slots[i].read && t.slots[i].write == s.slots[i].write
    requires forall i: nat, j: nat {:trigger t.Reaches(i, j)} | s.Taken(j) && s.Reaches(i, j) && i !in s.ending ::
             t.Reaches(i, j)
    ensures t.Ordered()
  {
    forall a: nat ensures t.TrackOk(a) { assert s.TrackOk(a); }
    forall a: nat, x: nat ensures t.WriteOk(a, x) { assert s.WriteOk(a, x); }
    forall a: nat, x: nat ensures t.ReadOk(a, x) { assert s.ReadOk(a, x); }
    forall a: nat, x: nat ensures t.ReaderOk(a, x) { assert s.ReaderOk(a, x); }
    forall x: nat, y: nat ensures t.PathOk(x, y) { assert s.PathOk(x, y); }
  }

  lemma BehindKeepsCoherent(s: State, n: nat, p: nat, ordered: bool)
    requires s.Coherent() && Arriving(s, n) && s.Taken(p) && n != p
    ensures Behind(s, n, p, ordered).Coherent() && Arriving(Behind(s, n, p, ordered), n)
  {
    var t := Behind(s, n, p, ordered);
    BehindKeepsLinked(s, n, p, ordered);
    forall j: nat, q: nat | s.Waits(j, q) ensures t.Waits(j, q) { assert q in s.slots[j].preds; }
    forall i: nat, j: nat | s.Taken(j) && s.Reaches(i, j) ensures t.Reaches(i, j) { PathsStay(s, t, {}, i, j); }
    SameLocksKeepOrdered(s, t);
  }

  /** Job n listed as a reader of track a, after those of its readers kept. */
  ghost function ReadLocked(s: State, n: nat, a: nat, kept: seq<JobId>): State
    requires n < |s.slots| && a < |s.tracks|
  {
    s.(tracks := s.tracks[a := s.tracks[a].(readers := kept + [s.slots[n].id])],
       slots := s.slots[n := s.slots[n].(read := s.slots[n].read + {a})])
  }

  /** Job n the writer of track a, which has no readers since. */
  ghost function WriteLocked(s: State, n: nat, a: nat): State
    requires n < |s.slots| && a < |s.tracks|
  {
    s.(tracks := s.tracks[a := Track(s.slots[n].id, [])],
       slots := s.slots[n := s.slots[n].(write := s.slots[n].write + {a})])
  }

  /** Locks and tracks say nothing of edges, slots or queues. */
  lemma LocksKeepLinked(s: State, t: State, n: nat)
    requires Arriving(s, n)
    requires t == s.(tracks := t.tracks, slots := t.slots) && |t.slots| == |s.slots|
    requires t.slots == s.slots[n := s.slots[n].(read := t.slots[n].read, write := t.slots[n].write)]
    ensures Arriving(t, n)
    ensures forall i: nat, j: nat {:trigger t.Reaches(i, j)} | s.Taken(j) && s.Reaches(i, j) :: t.Reaches(i, j)
  {
    forall i: nat, j: nat ensures t.Waits(i, j) == s.Waits(i, j) { }
    forall i: nat ensures t.SlotOk(i) { assert s.SlotOk(i); }
    forall i: nat, j: nat ensures t.EdgeOk(i, j) { assert s.EdgeOk(i, j); }
    forall i: nat, k: nat ensures t.SuccessorOk(i, k) { assert s.SuccessorOk(i, k); }
    forall i: nat, j: nat ensures t.NumberOk(i, j) { assert s.NumberOk(i, j); }
    forall q: nat ensures t.FreeOk(q) { assert s.FreeOk(q); }
    forall q: nat ensures t.QueueOk(q) { assert s.QueueOk(q); }
    forall i: nat, j: nat | s.Taken(j) && s.Reaches(i, j) ensures t.Reaches(i, j) { PathsStay(s, t, {}, i, j); }
  }

  /** readers without those that have finished. */
  ghost predicate Pruned(s: State, readers: seq<JobId>, kept: seq<JobId>) {
    forall id {:trigger id in kept} :: id in kept <==> id in readers && s.Live(id)
  }

  /** An edge, or a path and then an edge, is a path. */
  lemma EdgeExtendsPath(s: State, i: nat, p: nat, n: nat)
    requires s.Linked() && s.Reaches(i, p) && s.Waits(n, p) && n < |s.slots|
    ensures s.Reaches(i, n)
  {
    assert s.EdgeOk(p, n) && s.SlotOk(n);
  }

  /** What the jobs on track a's tail say of a job x that locked it: a new
      writer behind the tail is behind x. */
  ghost predicate BehindTail(s: State, n: nat, a: nat)
    requires a < |s.tracks|
  {
    && (s.Live(s.tracks[a].writer) ==>
          (s.Waits(n, s.tracks[a].writer.slot) || exists id :: id in s.tracks[a].readers && s.Live(id)))
    && (forall id {:trigger s.Live(id)} :: id in s.tracks[a].readers && s.Live(id) ==> s.Waits(n, id.slot))
  }

  lemma TailLeadsToWriter(s: State, n: nat, a: nat, i: nat)
    requires s.Coherent() && Arriving(s, n) && a < |s.tracks| && BehindTail(s, n, a)
    requires s.ReachesJob(i, s.tracks[a].writer)
    ensures s.Reaches(i, n)
  {
    var w := s.tracks[a].writer.slot;
    if s.Waits(n, w) {
      EdgeExtendsPath(s, i, w, n);
    } else {
      var id :| id in s.tracks[a].readers && s.Live(id);
      assert s.ReaderOk(a, id.slot);
      PathsCompose(s, i, w, id.slot);
      EdgeExtendsPath(s, i, id.slot, n);
    }
  }

  /** Everyone who locked a track leads to a new writer behind its tail. */
  lemma TailLeadsToAll(s: State, n: nat, a: nat, x: nat)
    requires s.Coherent() && Arriving(s, n) && a < |s.tracks| && BehindTail(s, n, a)
    requires s.Taken(x) && x != n && a in s.slots[x].read + s.slots[x].write
    ensures s.Reaches(x, n)
  {
    if a in s.slots[x].write {
      assert s.WriteOk(a, x);
      TailLeadsToWriter(s, n, a, x);
    } else {
      assert s.ReadOk(a, x) && s.SlotOk(x) && s.Live(s.slots[x].id);
      if s.slots[x].id in s.tracks[a].readers {
        EdgeExtendsPath(s, x, x, n);
      } else {
        TailLeadsToWriter(s, n, a, x);
      }
    }
  }

  lemma WriteLockedKeepsCoherent(s: State, n: nat, a: nat)
    requires s.Coherent() && Arriving(s, n) && a < |s.tracks| && BehindTail(s, n, a)
    requires a !in s.slots[n].read && a !in s.slots[n].write
    ensures WriteLocked(s, n, a).Coherent() && Arriving(WriteLocked(s, n, a), n)
  {
    var t := WriteLocked(s, n, a);
    LocksKeepLinked(s, t, n);
    assert s.SlotOk(n);
    forall b: nat ensures t.TrackOk(b) { assert s.TrackOk(b); }
    forall b: nat, x: nat ensures t.WriteOk(b, x) && t.ReadOk(b, x) && t.ReaderOk(b, x) {
      WriteLockedKeepsTrack(s, n, a, b, x);
    }
    forall x: nat, y: nat ensures t.PathOk(x, y) {
      WriteLockedKeepsPath(s, n, a, x, y);
    }
  }

  lemma WriteLockedKeepsTrack(s: State, n: nat, a: nat, b: nat, x: nat)
    requires s.Coherent() && Arriving(s, n) && a < |s.tracks| && BehindTail(s, n, a)
    requires a !in s.slots[n].read && a !in s.slots[n].write
    requires forall i: nat, j: nat {:trigger WriteLocked(s, n, a).Reaches(i, j)} | s.Taken(j) && s.Reaches(i, j) ::
             WriteLocked(s, n, a).Reaches(i, j)
    ensures var t := WriteLocked(s, n, a); t.WriteOk(b, x) && t.ReadOk(b, x) && t.ReaderOk(b, x)
  {
    var t := WriteLocked(s, n, a);
    assert s.WriteOk(b, x) && s.ReadOk(b, x) && s.ReaderOk(b, x) && s.SlotOk(n) && s.SlotOk(x);
    if b == a && s.Taken(x) && x != n && a in s.slots[x].read + s.slots[x].write {
      TailLeadsToAll(s, n, a, x);
      assert t.Reaches(x, n);
    }
  }

  lemma WriteLockedKeepsPath(s: State, n: nat, a: nat, x: nat, y: nat)
    requires s.Coherent() && Arriving(s, n) && a < |s.tracks| && BehindTail(s, n, a)
    requires forall i: nat, j: nat {:trigger WriteLocked(s, n, a).Reaches(i, j)} | s.Taken(j) && s.Reaches(i, j) ::
             WriteLocked(s, n, a).Reaches(i, j)
    ensures WriteLocked(s, n, a).PathOk(x, y)
  {
    var t := WriteLocked(s, n, a);
    assert s.PathOk(x, y) && s.SlotOk(x) && s.SlotOk(y);
    if t.Taken(x) && y == n && x != n && a in s.slots[x].read + s.slots[x].write {
      TailLeadsToAll(s, n, a, x);
    }
    if t.Taken(x) && t.Taken(y) && t.Conflict(x, y) && x != n && y != n {
      assert s.Conflict(x, y);
    }
    if t.Taken(x) && y == n && x != n && t.Conflict(x, y) && a !in s.slots[x].read + s.slots[x].write {
      NewLockOnly(s, t, n, a, x);
    }
  }

  /** A lock on a track that x did not lock makes no conflict with x. */
  lemma NewLockOnly(s: State, t: State, n: nat, a: nat, x: nat)
    requires n < |s.slots| == |t.slots| && x < |s.slots| && x != n && t.slots[x] == s.slots[x]
    requires a !in s.slots[x].write
    requires t.slots[n].read <= s.slots[n].read + {a}
    requires t.slots[n].write == s.slots[n].write
             || (t.slots[n].write == s.slots[n].write + {a} && a !in s.slots[x].read)
    requires t.Conflict(x, n)
    ensures s.Conflict(x, n)
  {
    if t.slots[x].write * (t.slots[n].read + t.slots[n].write) != {} {
      var b :| b in t.slots[x].write && b in t.slots[n].read + t.slots[n].write;
      assert b in s.slots[x].write * (s.slots[n].read + s.slots[n].write);
    } else {
      var b :| b in t.slots[x].read * t.slots[n].write;
      assert b in s.slots[x].read * s.slots[n].write;
    }
  }

  lemma ReadLockedKeepsCoherent(s: State, n: nat, a: nat, kept: seq<JobId>)
    requires s.Coherent() && Arriving(s, n) && a < |s.tracks| && Pruned(s, s.tracks[a].readers, kept)
    requires a !in s.slots[n].read && a !in s.slots[n].write
    requires s.Live(s.tracks[a].writer) ==> s.Waits(n, s.tracks[a].writer.slot)
    ensures ReadLocked(s, n, a, kept).Coherent() && Arriving(ReadLocked(s, n, a, kept), n)
  {
    var t := ReadLocked(s, n, a, kept);
    LocksKeepLinked(s, t, n);
    assert s.SlotOk(n);
    forall b: nat ensures t.TrackOk(b) {
      assert s.TrackOk(b);
      if b == a {
        forall id | id in t.tracks[a].readers ensures t.Known(id) && id != NO_JOB {
          assert id in kept || id == s.slots[n].id;
        }
      }
    }
    forall b: nat, x: nat ensures t.WriteOk(b, x) && t.ReadOk(b, x) && t.ReaderOk(b, x) {
      ReadLockedKeepsTrack(s, n, a, kept, b, x);
    }
    forall x: nat, y: nat ensures t.PathOk(x, y) {
      ReadLockedKeepsPath(s, n, a, kept, x, y);
    }
  }

  lemma ReadLockedKeepsTrack(s: State, n: nat, a: nat, kept: seq<JobId>, b: nat, x: nat)
    requires s.Coherent() && Arriving(s, n) && a < |s.tracks| && Pruned(s, s.tracks[a].readers, kept)
    requires a !in s.slots[n].read && a !in s.slots[n].write
    requires s.Live(s.tracks[a].writer) ==> s.Waits(n, s.tracks[a].writer.slot)
    requires forall i: nat, j: nat {:trigger ReadLocked(s, n, a, kept).Reaches(i, j)} | s.Taken(j)
             && s.Reaches(i, j) :: ReadLocked(s, n, a, kept).Reaches(i, j)
    ensures var t := ReadLocked(s, n, a, kept); t.WriteOk(b, x) && t.ReadOk(b, x) && t.ReaderOk(b, x)
  {
    var t := ReadLocked(s, n, a, kept);
    assert s.WriteOk(b, x) && s.ReadOk(b, x) && s.ReaderOk(b, x) && s.SlotOk(n) && s.SlotOk(x);
    if b == a && s.Taken(x) {
      assert s.Live(s.slots[x].id);
      assert s.slots[x].id in t.tracks[a].readers <==> s.slots[x].id in kept || x == n;
      if x == n && s.Live(s.tracks[a].writer) {
        EdgeExtendsPath(s, s.tracks[a].writer.slot, s.tracks[a].writer.slot, n);
        assert t.Reaches(s.tracks[a].writer.slot, n);
      }
    }
  }

  lemma ReadLockedKeepsPath(s: State, n: nat, a: nat, kept: seq<JobId>, x: nat, y: nat)
    requires s.Coherent() && Arriving(s, n) && a < |s.tracks|
    requires s.Live(s.tracks[a].writer) ==> s.Waits(n, s.tracks[a].writer.slot)
    requires forall i: nat, j: nat {:trigger ReadLocked(s, n, a, kept).Reaches(i, j)} | s.Taken(j)
             && s.Reaches(i, j) :: ReadLocked(s, n, a, kept).Reaches(i, j)
    ensures ReadLocked(s, n, a, kept).PathOk(x, y)
  {
    var t := ReadLocked(s, n, a, kept);
    assert s.PathOk(x, y) && s.SlotOk(x) && s.SlotOk(y);
    if t.Taken(x) && y == n && x != n && a in s.slots[x].write {
      assert s.WriteOk(a, x);
      EdgeExtendsPath(s, x, s.tracks[a].writer.slot, n);
    }
    if t.Taken(x) && t.Taken(y) && t.Conflict(x, y) && x != n && y != n {
      assert s.Conflict(x, y);
    }
    if t.Taken(x) && y == n && x != n && t.Conflict(x, y) && a !in s.slots[x].write {
      NewLockOnly(s, t, n, a, x);
    }
  }

  /** Tracks no job has locked yet. */
  function Grown(tracks: seq<Track>, span: nat): (grown: seq<Track>)
    ensures |grown| == if span > |tracks| then span else |tracks|
  {
    if span > |tracks| then tracks + seq(span - |tracks|, _ => Track(NO_JOB, [])) else tracks
  }

  lemma GrownKeepsCoherent(s: State, span: nat)
    requires s.Coherent()
    ensures s.(tracks := Grown(s.tracks, span)).Coherent()
  {
    var t := s.(tracks := Grown(s.tracks, span));
    forall i: nat, j: nat ensures t.Waits(i, j) == s.Waits(i, j) { }
    forall i: nat ensures t.SlotOk(i) { assert s.SlotOk(i); }
    forall i: nat, j: nat ensures t.EdgeOk(i, j) { assert s.EdgeOk(i, j); }
    forall i: nat, k: nat ensures t.SuccessorOk(i, k) { assert s.SuccessorOk(i, k); }
    forall i: nat, j: nat ensures t.NumberOk(i, j) { assert s.NumberOk(i, j); }
    forall p: nat ensures t.FreeOk(p) && t.QueueOk(p) { assert s.FreeOk(p) && s.QueueOk(p); }
    forall i: nat, j: nat | s.Taken(j) && s.Reaches(i, j) ensures t.Reaches(i, j) { PathsStay(s, t, {}, i, j); }
    forall a: nat ensures t.TrackOk(a) { assert s.TrackOk(a); }
    forall a: nat, x: nat ensures t.WriteOk(a, x) { assert s.WriteOk(a, x); }
    forall a: nat, x: nat ensures t.ReadOk(a, x) { assert s.ReadOk(a, x); }
    forall a: nat, x: nat ensures t.ReaderOk(a, x) { assert s.ReaderOk(a, x); }
    forall x: nat, y: nat ensures t.PathOk(x, y) { assert s.PathOk(x, y); }
  }
}
