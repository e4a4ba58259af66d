/** What a submission does to the first kernel's scheduler, and why a new job is
    granted just when it is (_legacy/kernel/scheduler.go). Every step adds edges
    to the new job alone, so what other jobs wait for never changes under them. */
module LegacySubmitting {
  import opened LegacyState
  import opened LegacySteps

  ghost function ToSet(s: seq<nat>): (members: set<nat>)
    ensures forall a :: a in members <==> a in s
  {
    set a | a in s
  }

  /** The jobs of s are still there in t, as they were. */
  ghost predicate OthersStay(s: State, t: State, n: nat) {
    |s.slots| <= |t.slots| &&
    forall i: nat {:trigger t.slots[i]} | i < |s.slots| && i != n ::
      && t.slots[i].id == s.slots[i].id && t.slots[i].state == s.slots[i].state
            && t.slots[i].number == s.slots[i].number
      && t.slots[i].read == s.slots[i].read && t.slots[i].write == s.slots[i].write
      && t.slots[i].generation == s.slots[i].generation && t.slots[i].owned == s.slots[i].owned
      && t.slots[i].preds == s.slots[i].preds
  }

  /** A job's edges, and then edges to n, ordered ones only if it is to be ordered
      before n. */
  ghost predicate EdgesGrowAt(before: Slot, after: Slot, n: JobId, ordered: bool) {
    && before.successors <= after.successors && after.skip == before.skip
    && forall k {:trigger after.successors[k]} | |before.successors| <= k < |after.successors| ::
         after.successors[k].id == n && (after.successors[k].ordered ==> ordered)
  }

  /** The other jobs' edges stay, and only edges to n are added. */
  ghost predicate EdgesGrow(s: State, t: State, n: nat, ordered: set<nat>) {
    |s.slots| <= |t.slots| && n < |t.slots| &&
    forall i: nat {:trigger t.slots[i]} | i < |s.slots| && i != n ::
      EdgesGrowAt(s.slots[i], t.slots[i], t.slots[n].id, i in ordered)
  }

  lemma EdgesGrowOn(s: State, t: State, u: State, n: nat, a: set<nat>, b: set<nat>)
    requires EdgesGrow(s, t, n, a) && EdgesGrow(t, u, n, b) && t.slots[n].id == u.slots[n].id
    ensures EdgesGrow(s, u, n, a + b)
  {
    forall i: nat | i < |s.slots| && i != n ensures EdgesGrowAt(s.slots[i], u.slots[i], u.slots[n].id, i in a + b) {
      var x, y, z := s.slots[i], t.slots[i], u.slots[i];
      assert EdgesGrowAt(x, y, t.slots[n].id, i in a) && EdgesGrowAt(y, z, u.slots[n].id, i in b);
      forall k | |x.successors| <= k < |z.successors|
        ensures z.successors[k].id == u.slots[n].id && (z.successors[k].ordered ==> i in a + b)
      {
        if k < |y.successors| {
          assert z.successors[k] == y.successors[k];
        }
      }
    }
  }

  lemma StillBehind(s: State, t: State, n: nat, i: nat, ordered: set<nat>)
    requires EdgesGrow(s, t, n, ordered) && |s.slots| == |t.slots| && i != n && t.slots[n].id == s.slots[n].id
    requires s.Waits(n, i) && OrderedBefore(s, i, s.slots[n].id) && s.slots[n].preds <= t.slots[n].preds
    ensures t.Waits(n, i) && OrderedBefore(t, i, t.slots[n].id)
  {
    assert EdgesGrowAt(s.slots[i], t.slots[i], t.slots[n].id, i in ordered);
  }

  lemma CausedBehind(s: State, n: nat, p: nat, ordered: set<nat>)
    requires Caused(s, n, ordered) && n < |s.slots| && p < |s.slots| && n != p && p in ordered
    ensures Caused(Behind(s, n, p, true), n, ordered)
  {
    var t := Behind(s, n, p, true);
    forall q: nat | t.Waits(n, q) ensures q < |t.slots| && (t.Conflict(q, n) || q in ordered) {
      assert s.Waits(n, q) || q == p;
    }
  }

  lemma BehindGrows(s: State, n: nat, p: nat, ordered: bool)
    requires n < |s.slots| && p < |s.slots| && n != p
    ensures EdgesGrow(s, Behind(s, n, p, ordered), n, if ordered then {p} else {})
  {
  }

  /** Whether the job in slot i has an ordered edge to job id. */
  ghost predicate OrderedBefore(s: State, i: nat, id: JobId) {
    i < |s.slots| && Successor(id, true) in s.slots[i].successors
  }

  /** The slots of the positions of a batch that are live. */
  ghost function LiveAfter(s: State, batch: seq<JobId>, after: seq<nat>): set<nat>
    requires forall k | 0 <= k < |after| :: after[k] < |batch|
  {
    set k | 0 <= k < |after| && s.Live(batch[after[k]]) :: batch[after[k]].slot
  }

  /** Whatever n waits for locks a track against it, or is in ordered. */
  ghost predicate Caused(s: State, n: nat, ordered: set<nat>) {
    forall p: nat {:trigger s.Waits(n, p)} :: s.Waits(n, p) ==>
      p < |s.slots| && n < |s.slots| && (s.Conflict(p, n) || p in ordered)
  }

  /** Lock sets only grow, so conflicts stay. */
  lemma ConflictStays(s: State, t: State, x: nat, n: nat)
    requires x < |s.slots| && n < |s.slots| && |s.slots| <= |t.slots| && s.Conflict(x, n)
    requires s.slots[n].read <= t.slots[n].read && s.slots[n].write <= t.slots[n].write
    requires s.slots[x].read <= t.slots[x].read && s.slots[x].write <= t.slots[x].write
    ensures t.Conflict(x, n)
  {
    if s.slots[x].write * (s.slots[n].read + s.slots[n].write) != {} {
      var a :| a in s.slots[x].write && a in s.slots[n].read + s.slots[n].write;
      assert a in t.slots[x].write * (t.slots[n].read + t.slots[n].write);
    } else {
      var a :| a in s.slots[x].read * s.slots[n].write;
      assert a in t.slots[x].read * t.slots[n].write;
    }
  }

  ghost predicate SameQueue(s: State, t: State) {
    t.queue == s.queue && t.head == s.head
  }

  /** t is s with n further on its way: locks and edges added to it alone. */
  ghost predicate Locked(s: State, t: State, n: nat) {
    && OthersStay(s, t, n) && |t.slots| == |s.slots| && n < |s.slots| && t.open == s.open && t.count == s.count
    && |t.tracks| == |s.tracks| && SameQueue(s, t)
    && t.slots[n].id == s.slots[n].id && t.slots[n].number == s.slots[n].number && t.slots[n].owned == s.slots[n].owned
  }

  /** t is s with n waiting for more. */
  ghost predicate OnlyWaits(s: State, t: State, n: nat) {
    && Locked(s, t, n) && t.tracks == s.tracks
    && t.slots[n].read == s.slots[n].read && t.slots[n].write == s.slots[n].write
    && forall id {:trigger t.Live(id)} :: t.Live(id) <==> s.Live(id)
  }

  lemma OnlyWaitsOn(s: State, t: State, u: State, n: nat)
    requires OnlyWaits(s, t, n) && OnlyWaits(t, u, n)
    ensures OnlyWaits(s, u, n)
  {
    forall i: nat | i < |s.slots| && i != n
      ensures u.slots[i].id == s.slots[i].id && u.slots[i].state == s.slots[i].state
              && u.slots[i].number == s.slots[i].number
      ensures u.slots[i].read == s.slots[i].read && u.slots[i].write == s.slots[i].write
      ensures u.slots[i].generation == s.slots[i].generation && u.slots[i].owned == s.slots[i].owned
      ensures u.slots[i].preds == s.slots[i].preds
    {
      assert t.slots[i].id == s.slots[i].id;
    }
    forall id ensures u.Live(id) <==> s.Live(id) { assert t.Live(id) <==> s.Live(id); }
  }

  /** The jobs of ids that are live, in order. */
  ghost function LiveOnes(s: State, ids: seq<JobId>): seq<JobId> {
    if ids == [] then []
    else
      var last := ids[|ids| - 1];
      LiveOnes(s, ids[..|ids| - 1]) + if s.Live(last) then [last] else []
  }

  ghost function SlotsOf(ids: seq<JobId>): multiset<nat> {
    if ids == [] then multiset{} else SlotsOf(ids[..|ids| - 1]) + multiset{ids[|ids| - 1].slot}
  }

  lemma SlotsOfMembers(ids: seq<JobId>, slot: nat)
    ensures slot in SlotsOf(ids) <==> exists k :: 0 <= k < |ids| && ids[k].slot == slot
  {
    if ids != [] {
      SlotsOfMembers(ids[..|ids| - 1], slot);
      assert forall k :: 0 <= k < |ids| - 1 ==> ids[..|ids| - 1][k] == ids[k];
    }
  }

  /** A new writer that waits for the readers left, or for the writer if there
      is none, is behind the track's tail. */
  lemma WaitsBehindTail(before: State, w: State, t: State, n: nat, a: nat, readers: seq<JobId>)
    requires a < |before.tracks| && t.tracks == before.tracks && n < |t.slots| && n < |w.slots|
    requires Pruned(before, before.tracks[a].readers, readers)
    requires forall id :: t.Live(id) <==> before.Live(id)
    requires readers == [] && before.Live(before.tracks[a].writer) ==> before.tracks[a].writer.slot in w.slots[n].preds
    requires t.slots[n].preds == w.slots[n].preds + SlotsOf(readers)
    ensures BehindTail(t, n, a)
  {
    forall id | id in t.tracks[a].readers && t.Live(id) ensures t.Waits(n, id.slot) {
      assert id in readers;
      SlotsOfMembers(readers, id.slot);
    }
    if readers != [] {
      assert readers[0] in readers;
    }
  }

  /** What a new writer waits for is a reader of the track, or its writer. */
  lemma WriteCause(before: State, t: State, n: nat, a: nat, p: nat, ordered: set<nat>, readers: seq<JobId>)
    requires before.Coherent() && Arriving(before, n) && Caused(before, n, ordered) && a < |before.tracks|
    requires Pruned(before, before.tracks[a].readers, readers)
    requires |t.slots| == |before.slots| && OthersStay(before, t, n) && a in t.slots[n].write
    requires before.slots[n].read <= t.slots[n].read && before.slots[n].write <= t.slots[n].write
    requires before.Waits(n, p) || p in SlotsOf(readers)
             || (before.Live(before.tracks[a].writer) && p == before.tracks[a].writer.slot)
    requires a !in before.slots[n].read + before.slots[n].write
    ensures p < |t.slots| && (t.Conflict(p, n) || p in ordered)
  {
    if before.Waits(n, p) {
      assert before.EdgeOk(p, n) && before.SlotOk(n);
      if p !in ordered { ConflictStays(before, t, p, n); }
    } else if p in SlotsOf(readers) {
      SlotsOfMembers(readers, p);
      var k :| 0 <= k < |readers| && readers[k].slot == p;
      assert readers[k] in readers && before.ReaderOk(a, p);
      assert a in t.slots[p].read * t.slots[n].write;
    } else {
      assert before.TrackOk(a);
      assert a in t.slots[p].write * (t.slots[n].read + t.slots[n].write);
    }
  }

  /** A job's locks, compiled: the tracks it reads and those it writes, each
      sorted, none in both, and how many tracks there must be. */
  datatype LockSet = LockSet(read: seq<nat>, write: seq<nat>, span: nat) {
    ghost predicate Valid() {
      && (forall i, j | 0 <= i < j < |read| :: read[i] < read[j])
      && (forall i, j | 0 <= i < j < |write| :: write[i] < write[j])
      && (forall i | 0 <= i < |read| :: read[i] < span)
      && (forall i | 0 <= i < |write| :: write[i] < span && write[i] !in read)
    }
  }

  /** One job of a batch, and the earlier positions it is ordered after. */
  datatype BatchJob = BatchJob(locks: LockSet, after: seq<nat>)

  /** A job of s has its name, locks, state and mark in t, waits for what it did,
      and has its edges, and maybe more; a slot that was free names no job that it
      named before. */
  ghost predicate JobStays(before: Slot, after: Slot) {
    if before.id != NO_JOB then
      && after.id == before.id && after.state == before.state && after.number == before.number
      && after.read == before.read && after.write == before.write && after.owned == before.owned
      && after.preds == before.preds
      && after.skip == before.skip && after.generation == before.generation && before.successors <= after.successors
    else
      && after.generation >= before.generation
      && (after.id != NO_JOB ==> after.id.generation == after.generation > before.generation)
  }

  ghost predicate JobsStay(s: State, t: State) {
    |s.slots| <= |t.slots| && forall i: nat {:trigger t.slots[i]} | i < |s.slots| :: JobStays(s.slots[i], t.slots[i])
  }

  lemma JobsStayOn(s: State, t: State, u: State)
    requires JobsStay(s, t) && JobsStay(t, u)
    ensures JobsStay(s, u)
  {
    forall i: nat | i < |s.slots| ensures JobStays(s.slots[i], u.slots[i]) {
      assert JobStays(s.slots[i], t.slots[i]) && JobStays(t.slots[i], u.slots[i]);
    }
  }

  /** Job id is owned by the pool or not, as given, holds the locks declared and no
      others, and waits only for jobs that conflict with it or are in ordered. */
  ghost predicate Declares(s: State, id: JobId, locks: LockSet, owned: bool, ordered: set<nat>) {
    && s.Live(id) && s.slots[id.slot].owned == owned
    && s.slots[id.slot].read == ToSet(locks.read) && s.slots[id.slot].write == ToSet(locks.write)
    && Caused(s, id.slot, ordered)
  }

  /** The slots of the positions that one of a batch is ordered after. */
  ghost function AfterSlots(batch: seq<JobId>, after: seq<nat>): set<nat>
    requires forall m | 0 <= m < |after| :: after[m] < |batch|
  {
    set m | 0 <= m < |after| :: batch[after[m]].slot
  }

  /** The job at position k of a batch: live, new, numbered in order, with the
      locks it declares, and behind all it is ordered after, by ordered edges, and
      besides only behind jobs it conflicts with. */
  ghost predicate JobOfBatch(first: State, s: State, jobs: seq<BatchJob>, batch: seq<JobId>, owned: bool, k: nat)
    requires k < |batch| <= |jobs| && forall m | 0 <= m < |jobs[k].after| :: jobs[k].after[m] < k
  {
    && !first.Known(batch[k]) && Declares(s, batch[k], jobs[k].locks, owned, AfterSlots(batch, jobs[k].after))
    && s.slots[batch[k].slot].number == first.count + k && (owned ==> s.slots[batch[k].slot].state != Running)
    && forall m | 0 <= m < |jobs[k].after| :: OrderedBefore(s, batch[jobs[k].after[m]].slot, batch[k])
  }

  ghost predicate Earlier(jobs: seq<BatchJob>) {
    forall k, m | 0 <= k < |jobs| && 0 <= m < |jobs[k].after| :: jobs[k].after[m] < k
  }

  /** Those of a batch that are queued, in its order. */
  ghost function QueuedOf(s: State, batch: seq<JobId>): seq<JobId> {
    if batch == [] then []
    else
      var id := batch[|batch| - 1];
      QueuedOf(s, batch[..|batch| - 1]) + if s.Live(id) && s.slots[id.slot].state == Queued then [id] else []
  }

  /** They go behind what was queued, and nothing else does. */
  ghost predicate QueuesBatch(s: State, t: State, batch: seq<JobId>) {
    t.head == s.head && t.queue == s.queue + QueuedOf(t, batch)
  }

  lemma {:induction false} QueuedOfStays(s: State, t: State, n: nat, batch: seq<JobId>)
    requires OthersStay(s, t, n) && forall k | 0 <= k < |batch| :: s.Live(batch[k]) && batch[k].slot != n
    ensures QueuedOf(t, batch) == QueuedOf(s, batch)
  {
    if batch != [] {
      QueuedOfStays(s, t, n, batch[..|batch| - 1]);
    }
  }

  lemma QueuesOneMore(first: State, before: State, s: State, n: nat, batch: seq<JobId>, id: JobId)
    requires QueuesBatch(first, before, batch) && OthersStay(before, s, n) && n == id.slot && s.Live(id)
    requires forall k | 0 <= k < |batch| :: before.Live(batch[k]) && batch[k].slot != n
    requires s.head == before.head
    requires s.queue == before.queue + if s.slots[n].state == Queued then [id] else []
    ensures QueuesBatch(first, s, batch + [id])
  {
    QueuedOfStays(before, s, n, batch);
    assert (batch + [id])[..|batch|] == batch;
  }

  /** The jobs of a batch submitted so far, and no others, are new. */
  ghost predicate BatchOf(first: State, s: State, jobs: seq<BatchJob>, batch: seq<JobId>, owned: bool)
    requires |batch| <= |jobs| && Earlier(jobs)
  {
    && JobsStay(first, s)
    && (forall k: nat {:trigger JobOfBatch(first, s, jobs, batch, owned, k)} | k < |batch| ::
          JobOfBatch(first, s, jobs, batch, owned, k))
    && (forall i: nat {:trigger s.Taken(i)} | s.Taken(i) :: first.Taken(i) || s.slots[i].id in batch)
  }

  lemma BatchGoesOn(first: State, before: State, s: State, jobs: seq<BatchJob>, batch: seq<JobId>, owned: bool,
                    id: JobId)
    requires |batch| < |jobs| && Earlier(jobs)
    requires before.Linked() && BatchOf(first, before, jobs, batch, owned) && JobsStay(before, s)
    requires Declares(s, id, jobs[|batch|].locks, owned, LiveAfter(before, batch, jobs[|batch|].after))
    requires s.slots[id.slot].number == first.count + |batch| && (owned ==> s.slots[id.slot].state != Running)
    requires id.slot < |before.slots| ==> !before.Taken(id.slot) && id.generation > before.slots[id.slot].generation
    requires forall i: nat {:trigger s.Taken(i)} | s.Taken(i) :: i == id.slot || before.Taken(i)
    requires var after := jobs[|batch|].after;
             forall m | 0 <= m < |after| :: before.Live(batch[after[m]]) ==> OrderedBefore(s, batch[after[m]].slot, id)
    ensures BatchOf(first, s, jobs, batch + [id], owned)
  {
    JobsStayOn(first, before, s);
    var all, n := batch + [id], |batch|;
    forall m: nat | m < n ensures before.Live(batch[m]) {
      assert JobOfBatch(first, before, jobs, batch, owned, m);
    }
    forall k: nat | k < |all| ensures JobOfBatch(first, s, jobs, all, owned, k) {
      if k < n {
        assert JobOfBatch(first, before, jobs, batch, owned, k);
        JobOfBatchStays(first, before, s, jobs, batch, owned, id, k);
      } else {
        LastOfBatch(first, before, s, jobs, batch, owned, id);
      }
    }
    forall i: nat | s.Taken(i) ensures first.Taken(i) || s.slots[i].id in all {
      OnlyBatchIsNew(first, before, s, batch, id, i);
    }
  }

  lemma SameAfterSlots(batch: seq<JobId>, id: JobId, after: seq<nat>)
    requires forall m | 0 <= m < |after| :: after[m] < |batch|
    ensures AfterSlots(batch + [id], after) == AfterSlots(batch, after)
  {
    assert forall m | 0 <= m < |after| :: (batch + [id])[after[m]] == batch[after[m]];
  }

  lemma JobOfBatchStays(first: State, before: State, s: State, jobs: seq<BatchJob>, batch: seq<JobId>, owned: bool,
                        id: JobId, k: nat)
    requires before.Linked() && JobsStay(before, s) && k < |batch| < |jobs| && Earlier(jobs)
    requires JobOfBatch(first, before, jobs, batch, owned, k)
    requires forall m: nat {:trigger batch[m]} | m < |batch| :: before.Live(batch[m])
    ensures JobOfBatch(first, s, jobs, batch + [id], owned, k)
  {
    StaysLive(before, s, batch[k]);
    SameAfterSlots(batch, id, jobs[k].after);
    DeclarationStays(before, s, batch[k], jobs[k].locks, owned, AfterSlots(batch, jobs[k].after));
    forall m | 0 <= m < |jobs[k].after|
      ensures OrderedBefore(s, (batch + [id])[jobs[k].after[m]].slot, batch[k])
    {
      StaysOrdered(before, s, batch[jobs[k].after[m]], batch[k]);
    }
  }

  lemma LastOfBatch(first: State, before: State, s: State, jobs: seq<BatchJob>, batch: seq<JobId>, owned: bool,
                    id: JobId)
    requires |batch| < |jobs| && Earlier(jobs) && JobsStay(first, before)
    requires forall m: nat {:trigger batch[m]} | m < |batch| :: before.Live(batch[m])
    requires Declares(s, id, jobs[|batch|].locks, owned, LiveAfter(before, batch, jobs[|batch|].after))
    requires s.slots[id.slot].number == first.count + |batch| && (owned ==> s.slots[id.slot].state != Running)
    requires id.slot < |before.slots| ==> !before.Taken(id.slot) && id.generation > before.slots[id.slot].generation
    requires var after := jobs[|batch|].after;
             forall m | 0 <= m < |after| :: before.Live(batch[after[m]]) ==> OrderedBefore(s, batch[after[m]].slot, id)
    ensures JobOfBatch(first, s, jobs, batch + [id], owned, |batch|)
  {
    var n := |batch|;
    assert id.slot < |first.slots| ==> JobStays(first.slots[id.slot], before.slots[id.slot]);
    SameAfterSlots(batch, id, jobs[n].after);
    assert AfterSlots(batch, jobs[n].after) == LiveAfter(before, batch, jobs[n].after);
  }

  lemma OnlyBatchIsNew(first: State, before: State, s: State, batch: seq<JobId>, id: JobId, i: nat)
    requires JobsStay(before, s) && s.Live(id) && s.Taken(i) && (i == id.slot || before.Taken(i))
    requires before.Taken(i) ==> first.Taken(i) || before.slots[i].id in batch
    ensures first.Taken(i) || s.slots[i].id in batch + [id]
  {
    if i == id.slot {
      assert (batch + [id])[|batch|] == id;
    } else {
      assert JobStays(before.slots[i], s.slots[i]);
    }
  }

  lemma DeclarationStays(s: State, t: State, id: JobId, locks: LockSet, owned: bool, ordered: set<nat>)
    requires s.Linked() && JobsStay(s, t) && Declares(s, id, locks, owned, ordered)
    ensures Declares(t, id, locks, owned, ordered)
  {
    var n := id.slot;
    assert JobStays(s.slots[n], t.slots[n]);
    forall p: nat | t.Waits(n, p) ensures p < |t.slots| && (t.Conflict(p, n) || p in ordered) {
      assert s.Waits(n, p) && s.EdgeOk(p, n) && s.SlotOk(n) && JobStays(s.slots[p], t.slots[p]);
    }
  }

  lemma StaysLive(s: State, t: State, id: JobId)
    requires JobsStay(s, t) && s.Live(id)
    ensures t.Live(id) && t.slots[id.slot].number == s.slots[id.slot].number
    ensures t.slots[id.slot].state == s.slots[id.slot].state
  {
    assert JobStays(s.slots[id.slot], t.slots[id.slot]);
  }

  lemma StaysOrdered(s: State, t: State, first: JobId, id: JobId)
    requires JobsStay(s, t) && s.Live(first) && OrderedBefore(s, first.slot, id)
    ensures OrderedBefore(t, first.slot, id)
  {
    assert JobStays(s.slots[first.slot], t.slots[first.slot]);
  }

  lemma OneJobMore(s: State, t: State, id: JobId, ordered: set<nat>)
    requires OthersStay(s, t, id.slot) && EdgesGrow(s, t, id.slot, ordered) && t.Linked() && t.Live(id)
    requires id.slot < |s.slots| ==> !s.Taken(id.slot) && id.generation == s.slots[id.slot].generation + 1
    requires OneSlotMore(s, t, id.slot)
    ensures JobsStay(s, t)
    ensures forall i: nat {:trigger t.Taken(i)} | t.Taken(i) :: i == id.slot || s.Taken(i)
  {
    assert t.SlotOk(id.slot);
    forall i: nat | i < |s.slots| ensures JobStays(s.slots[i], t.slots[i]) {
      assert i != id.slot ==> EdgesGrowAt(s.slots[i], t.slots[i], t.slots[id.slot].id, i in ordered);
    }
  }

  /** A job as it was, but for its state. */
  ghost predicate Stands(before: Slot, after: Slot) {
    after == before.(state := after.state, place := after.place)
  }

  /** id names a job with a slot of its own, the last submitted. */
  ghost predicate NewJob(s: State, t: State, id: JobId, owned: bool) {
    && OthersStay(s, t, id.slot) && !s.Taken(id.slot) && t.Live(id) && t.count == s.count + 1
    && t.slots[id.slot].number == s.count && t.slots[id.slot].owned == owned
    && (id.slot < |s.slots| ==> id.generation == s.slots[id.slot].generation + 1)
    && OneSlotMore(s, t, id.slot)
  }

  /** No slot is made but slot n, and that only at the end. */
  ghost predicate OneSlotMore(s: State, t: State, n: nat) {
    n <= |s.slots| && |t.slots| == if n < |s.slots| then |s.slots| else n + 1
  }

  /** An id that a batch has is live after a slot is given out if it was before. */
  lemma LiveBefore(before: State, t: State, n: nat, batch: seq<JobId>)
    requires OthersStay(before, t, n) && n < |t.slots| && t.slots[n].id.slot == n
    requires n < |before.slots| ==> t.slots[n].id.generation > before.slots[n].generation
    requires forall k | 0 <= k < |batch| :: before.Known(batch[k])
    requires !before.Taken(n)
    ensures forall k | 0 <= k < |batch| :: t.Live(batch[k]) <==> before.Live(batch[k])
    ensures forall k | 0 <= k < |batch| && t.Live(batch[k]) :: batch[k].slot != n
  {
    forall k | 0 <= k < |batch|
      ensures (t.Live(batch[k]) <==> before.Live(batch[k])) && (t.Live(batch[k]) ==> batch[k].slot != n)
    {
      assert before.Known(batch[k]);
      if batch[k] != NO_JOB && batch[k].slot != n {
        assert t.slots[batch[k].slot].id == before.slots[batch[k].slot].id;
      }
    }
  }

  lemma NewcomerIsGranted(before: State, decided: State, t: State, n: nat, batch: seq<JobId>, after: seq<nat>,
                          ordered: set<nat>, granted: bool)
    requires forall k | 0 <= k < |after| :: after[k] < |batch|
    requires ordered == LiveAfter(before, batch, after)
    requires n < |decided.slots| == |t.slots| && OthersStay(decided, t, n) && Stands(decided.slots[n], t.slots[n])
    requires Caused(decided, n, ordered)
    requires granted <==>
             ordered == {}
                 && forall x: nat {:trigger decided.Taken(x)} | decided.Taken(x) && x != n :: !decided.Conflict(x, n)
    ensures granted <==>
              && (forall x: nat {:trigger t.Taken(x)} | t.Taken(x) && x != n :: !t.Conflict(x, n))
              && (forall k | 0 <= k < |after| :: !before.Live(batch[after[k]]))
    ensures Caused(t, n, ordered)
  {
    forall p: nat | t.Waits(n, p) ensures p < |t.slots| && (t.Conflict(p, n) || p in ordered) {
      assert decided.Waits(n, p);
      assert p != n ==> t.slots[p].read == decided.slots[p].read;
    }
    forall x: nat | x < |t.slots| && x != n
      ensures (t.Taken(x) <==> decided.Taken(x)) && (t.Conflict(x, n) <==> decided.Conflict(x, n))
    {
      assert t.slots[x].id == decided.slots[x].id;
    }
    assert ordered == {} <==> forall k | 0 <= k < |after| :: !before.Live(batch[after[k]]) by {
      forall k | 0 <= k < |after| && before.Live(batch[after[k]]) ensures batch[after[k]].slot in ordered { }
    }
  }

  /** A new job has no blockers exactly when no live job conflicts with it and it
      is ordered after none. */
  lemma GrantDecision(s: State, n: nat, ordered: set<nat>)
    requires s.Coherent() && Arriving(s, n) && Caused(s, n, ordered)
    requires forall p: nat | p in ordered :: s.Waits(n, p)
    ensures s.slots[n].blockers == 0 <==>
              ordered == {} && forall x: nat {:trigger s.Taken(x)} | s.Taken(x) && x != n :: !s.Conflict(x, n)
  {
    assert s.SlotOk(n);
    if s.slots[n].blockers == 0 {
      forall x: nat | s.Taken(x) && x != n ensures !s.Conflict(x, n) {
        assert s.SlotOk(x) && s.NumberOk(x, n) && s.PathOk(x, n);
        if s.Conflict(x, n) {
          PathsAscend(s, x, n);
        }
      }
    } else {
      var p: nat :| p in s.slots[n].preds;
      assert s.Waits(n, p) && s.EdgeOk(p, n);
    }
  }
}
