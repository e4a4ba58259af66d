/** The state of the first kernel's scheduler, what holds of it between any two
    of its steps, and why each step keeps it (_legacy/kernel/scheduler.go). */
module LegacyState {

  /** A job's name for its whole life: its slot, and the slot's generation when
      the job took it. Generations are unbounded here. */
  datatype JobId = JobId(slot: nat, generation: nat)

  const NO_JOB := JobId(0, 0)

  datatype JobState = Blocked | Queued | Running

  /** Only an ordered edge skips its successor when the job before it failed. */
  datatype Successor = Successor(id: JobId, ordered: bool)

  /** A slot, taken by a job while id names one. The ghost fields:
        number  the job's place in the submission order,
        read    and write, the tracks it has locked so far,
        preds   the slots of the jobs it waits for, once per edge,
        place   where the queue has the job, or where free has the slot. */
  datatype Slot = Slot(
    id: JobId, generation: nat, state: JobState, skip: bool, blockers: int, successors: seq<Successor>, owned: bool,
    ghost number: nat, ghost read: set<nat>, ghost write: set<nat>, ghost preds: multiset<nat>, ghost place: nat)

  /** What a new job may have to wait for at one resource: writer, which locked it
      to write most recently, and readers, who locked it to read after. */
  datatype Track = Track(writer: JobId, readers: seq<JobId>)

  /** The slots that successors lead to, once per edge. */
  ghost function Targets(successors: seq<Successor>): multiset<nat> {
    if successors == [] then multiset{} else multiset{successors[0].id.slot} + Targets(successors[1..])
  }

  lemma TargetsAppend(successors: seq<Successor>, s: Successor)
    ensures Targets(successors + [s]) == Targets(successors) + multiset{s.id.slot}
  {
    if successors != [] {
      assert (successors + [s])[1..] == successors[1..] + [s];
      TargetsAppend(successors[1..], s);
    }
  }

  /** The scheduler's fields. queue is emptied up to head. The ghost ones:
        count   how many jobs have been submitted,
        ending  the job whose edges finish is releasing,
        open    the jobs submit or finish has yet to grant, queue or end. */
  datatype State = State(
    tracks: seq<Track>, slots: seq<Slot>, free: seq<nat>, queue: seq<JobId>, head: nat,
    ghost count: nat, ghost ending: set<nat>, ghost open: set<nat>)
  {
    predicate Live(id: JobId) {
      id != NO_JOB && id.slot < |slots| && slots[id.slot].id == id
    }

    predicate Taken(i: nat) {
      i < |slots| && slots[i].id != NO_JOB
    }

    /** Whether job j waits for job i. */
    ghost predicate Waits(j: nat, i: nat) {
      j < |slots| && i in slots[j].preds
    }

    ghost predicate SlotOk(i: nat) {
      i < |slots| ==>
        var slot := slots[i];
        && (slot.id != NO_JOB ==>
              && slot.id == JobId(i, slot.generation) && slot.generation > 0 && slot.number < count
              && slot.blockers == |slot.preds|
              && (slot.state != Blocked ==> slot.blockers == 0 && !slot.skip)
              && (slot.state == Queued ==> head <= slot.place < |queue| && queue[slot.place] == slot.id)
              && (slot.state == Blocked && slot.blockers == 0 ==> i in open))
        && (slot.id == NO_JOB ==>
              && slot.successors == [] && slot.preds == multiset{} && i !in open && i !in ending
              && slot.place < |free| && free[slot.place] == i)
        && (i in open ==> slot.state != Queued)
        && (i in ending ==> slot.preds == multiset{})
        && (forall p: nat {:trigger Waits(i, p)} :: Waits(i, p) ==> p < |slots|)
    }

    /** Job i lists job j as a successor as often as j waits for i. */
    ghost predicate EdgeOk(i: nat, j: nat) {
      i < |slots| && j < |slots| ==>
        && slots[j].preds[i] == Targets(slots[i].successors)[j]
        && (Waits(j, i) ==> Taken(i) && Taken(j) && slots[i].number < slots[j].number)
    }

    ghost predicate SuccessorOk(i: nat, k: nat) {
      i < |slots| && k < |slots[i].successors| ==> Live(slots[i].successors[k].id)
    }

    ghost predicate NumberOk(i: nat, j: nat) {
      Taken(i) && Taken(j) && i != j ==> slots[i].number != slots[j].number
    }

    ghost predicate FreeOk(p: nat) {
      p < |free| ==> free[p] < |slots| && slots[free[p]].id == NO_JOB && slots[free[p]].place == p
    }

    ghost predicate QueueOk(p: nat) {
      head <= p < |queue| ==> Live(queue[p]) && slots[queue[p].slot].state == Queued && slots[queue[p].slot].place == p
    }

    ghost predicate Linked() {
      && head <= |queue|
      && (forall i: nat {:trigger SlotOk(i)} :: SlotOk(i))
      && (forall i: nat, j: nat {:trigger EdgeOk(i, j)} :: EdgeOk(i, j))
      && (forall i: nat, k: nat {:trigger SuccessorOk(i, k)} :: SuccessorOk(i, k))
      && (forall i: nat, j: nat {:trigger NumberOk(i, j)} :: NumberOk(i, j))
      && (forall p: nat {:trigger FreeOk(p)} :: FreeOk(p))
      && (forall p: nat {:trigger QueueOk(p)} :: QueueOk(p))
    }

    /** Whether a waits-for path leads from job i to job j, from older to newer. */
    ghost predicate Reaches(i: nat, j: nat)
      decreases if j < |slots| then slots[j].number else 0
    {
      && i < |slots| && j < |slots|
      && (i == j ||
          exists p: nat | p < |slots| && Waits(j, p) :: slots[p].number < slots[j].number && Reaches(i, p))
    }

    ghost predicate ReachesJob(i: nat, id: JobId) {
      Live(id) && Reaches(i, id.slot)
    }

    /** A job that locked track a to write is behind no one but its writer. */
    ghost predicate WriteOk(a: nat, x: nat) {
      Taken(x) && x !in ending && a in slots[x].write ==> a < |tracks| && ReachesJob(x, tracks[a].writer)
    }

    /** One that locked it to read is listed, or the writer waits for it. */
    ghost predicate ReadOk(a: nat, x: nat) {
      Taken(x) && x !in ending && a in slots[x].read ==>
        a < |tracks| && (slots[x].id in tracks[a].readers || ReachesJob(x, tracks[a].writer))
    }

    /** Every reader listed waits for the writer, and is a reader. */
    ghost predicate ReaderOk(a: nat, x: nat) {
      a < |tracks| && Taken(x) && slots[x].id in tracks[a].readers ==>
        && a in slots[x].read
        && (Live(tracks[a].writer) && tracks[a].writer.slot !in ending ==> Reaches(tracks[a].writer.slot, x))
    }

    /** A job a track names was given its slot before, so no later job there is
        mistaken for it. */
    ghost predicate Known(id: JobId) {
      id == NO_JOB || (id.slot < |slots| && id.generation <= slots[id.slot].generation)
    }

    ghost predicate TrackOk(a: nat) {
      a < |tracks| ==>
        && Known(tracks[a].writer)
        && (Live(tracks[a].writer) ==> a in slots[tracks[a].writer.slot].write)
        && (forall id {:trigger id in tracks[a].readers} | id in tracks[a].readers :: Known(id) && id != NO_JOB)
    }

    /** Whether jobs x and y lock one track that either writes. */
    ghost predicate Conflict(x: nat, y: nat)
      requires x < |slots| && y < |slots|
    {
      slots[x].write * (slots[y].read + slots[y].write) != {} || slots[x].read * slots[y].write != {}
    }

    ghost predicate PathOk(x: nat, y: nat) {
      Taken(x) && Taken(y) && x !in ending && y !in ending && Conflict(x, y) && slots[x].number < slots[y].number ==>
        Reaches(x, y)
    }

    ghost predicate Ordered() {
      && (forall a: nat, x: nat {:trigger WriteOk(a, x)} :: WriteOk(a, x))
      && (forall a: nat, x: nat {:trigger ReadOk(a, x)} :: ReadOk(a, x))
      && (forall a: nat, x: nat {:trigger ReaderOk(a, x)} :: ReaderOk(a, x))
      && (forall a: nat {:trigger TrackOk(a)} :: TrackOk(a))
      && (forall x: nat, y: nat {:trigger PathOk(x, y)} :: PathOk(x, y))
    }

    ghost predicate Coherent() {
      Linked() && Ordered()
    }

    /** What holds whenever no submit or finish is under way. */
    ghost predicate Valid() {
      Coherent() && ending == {} && open == {}
    }
  }

  /** Between steps, a job is granted exactly once it waits for no one; one that
      is marked to be skipped never is. */
  lemma GrantedOnceAlone(s: State, x: nat)
    requires s.Valid() && s.Taken(x)
    ensures s.slots[x].state != Blocked <==> s.slots[x].preds == multiset{}
    ensures s.slots[x].skip ==> s.slots[x].state == Blocked
  {
    assert s.SlotOk(x);
  }

  /** A path leads to nothing older. */
  lemma PathsAscend(s: State, i: nat, j: nat)
    requires s.Reaches(i, j)
    ensures i == j || (s.slots[i].number < s.slots[j].number && s.slots[j].preds != multiset{})
    decreases if j < |s.slots| then s.slots[j].number else 0
  {
    if i != j {
      var p: nat :| s.Waits(j, p) && p < |s.slots| && s.slots[p].number < s.slots[j].number && s.Reaches(i, p);
      PathsAscend(s, i, p);
    }
  }

  lemma PathsCompose(s: State, i: nat, j: nat, k: nat)
    requires s.Reaches(i, j) && s.Reaches(j, k)
    ensures s.Reaches(i, k)
    decreases if k < |s.slots| then s.slots[k].number else 0
  {
    if j != k && i != k {
      var p: nat :| s.Waits(k, p) && p < |s.slots| && s.slots[p].number < s.slots[k].number && s.Reaches(j, p);
      PathsCompose(s, i, j, p);
    }
  }

  /** Whether t has every edge between s's jobs, but those from gone, which
      waits for no one. */
  ghost predicate KeepsEdges(s: State, t: State, gone: set<nat>) {
    && |s.slots| <= |t.slots|
    && (forall j: nat {:trigger t.slots[j]} | s.Taken(j) ::
          && t.slots[j].number == s.slots[j].number
          && forall p: nat {:trigger s.Waits(j, p)} :: s.Waits(j, p) && p !in gone ==> t.Waits(j, p))
    && (forall g: nat {:trigger g in gone} :: g in gone && g < |s.slots| ==> s.slots[g].preds == multiset{})
  }

  lemma PathsStay(s: State, t: State, gone: set<nat>, i: nat, j: nat)
    requires s.Linked() && KeepsEdges(s, t, gone) && s.Taken(j) && s.Reaches(i, j) && i !in gone
    ensures t.Reaches(i, j)
    decreases if j < |s.slots| then s.slots[j].number else 0
  {
    if i != j {
      var p: nat :| s.Waits(j, p) && p < |s.slots| && s.slots[p].number < s.slots[j].number && s.Reaches(i, p);
      assert s.EdgeOk(p, j);
      PathsStay(s, t, gone, i, p);
      assert t.slots[j].number == s.slots[j].number && t.slots[p].number == s.slots[p].number;
      if p in gone {
        PathsAscend(s, i, p);
      }
    }
  }

  /** Any two live jobs whose lock sets conflict are joined by a waits-for path
      from the older to the newer, though each waits only for the jobs it met on
      a track's tail. */
  lemma ConflictsAreJoined(s: State, x: nat, y: nat)
    requires s.Valid() && s.Taken(x) && s.Taken(y) && s.Conflict(x, y) && s.slots[x].number < s.slots[y].number
    ensures s.Reaches(x, y)
  {
    assert s.PathOk(x, y);
  }

  /** A job granted waits for no job it conflicts with: all those are newer. */
  lemma GrantedInSubmissionOrder(s: State, x: nat, y: nat)
    requires s.Valid() && s.Taken(x) && s.Taken(y) && x != y && s.Conflict(x, y) && s.slots[y].state != Blocked
    ensures s.slots[y].number < s.slots[x].number
  {
    assert s.SlotOk(y) && s.PathOk(x, y) && s.NumberOk(x, y);
    if s.slots[x].number < s.slots[y].number {
      PathsAscend(s, x, y);
    }
  }

  lemma ConflictIsMutual(s: State, x: nat, y: nat)
    requires x < |s.slots| && y < |s.slots| && s.Conflict(x, y)
    ensures s.Conflict(y, x)
  {
    if s.slots[x].write * (s.slots[y].read + s.slots[y].write) != {} {
      var a :| a in s.slots[x].write && a in s.slots[y].read + s.slots[y].write;
      if a in s.slots[y].write {
        assert a in s.slots[y].write * (s.slots[x].read + s.slots[x].write);
      } else {
        assert a in s.slots[y].read * s.slots[x].write;
      }
    } else {
      var a :| a in s.slots[x].read * s.slots[y].write;
      assert a in s.slots[y].write * (s.slots[x].read + s.slots[x].write);
    }
  }

  /** No two jobs running, or queued to run, conflict. */
  lemma RunningNeverConflict(s: State, x: nat, y: nat)
    requires s.Valid() && s.Taken(x) && s.Taken(y) && x != y
    requires s.slots[x].state != Blocked && s.slots[y].state != Blocked
    ensures !s.Conflict(x, y)
  {
    if s.Conflict(x, y) {
      ConflictIsMutual(s, x, y);
      GrantedInSubmissionOrder(s, x, y);
      GrantedInSubmissionOrder(s, y, x);
    }
  }

  /** The oldest of the jobs in slots below n. */
  lemma OldestBelow(s: State, n: nat) returns (oldest: nat)
    requires n <= |s.slots| && exists i: nat | i < n :: s.Taken(i)
    ensures oldest < n && s.Taken(oldest)
    ensures forall i: nat | i < n && s.Taken(i) :: s.slots[oldest].number <= s.slots[i].number
  {
    if exists i: nat | i < n - 1 :: s.Taken(i) {
      oldest := OldestBelow(s, n - 1);
      if s.Taken(n - 1) && s.slots[n - 1].number < s.slots[oldest].number {
        oldest := n - 1;
      }
    } else {
      oldest := n - 1;
    }
  }

  /** While any job is unfinished, one has no blockers, and is running or queued
      to run: the oldest. */
  lemma SomeJobIsGranted(s: State) returns (oldest: nat)
    requires s.Valid() && exists i: nat :: s.Taken(i)
    ensures s.Taken(oldest) && s.slots[oldest].blockers == 0 && s.slots[oldest].state != Blocked
    ensures forall i: nat | s.Taken(i) :: s.slots[oldest].number <= s.slots[i].number
  {
    oldest := OldestBelow(s, |s.slots|);
    assert s.SlotOk(oldest);
    if s.slots[oldest].preds != multiset{} {
      var p: nat :| p in s.slots[oldest].preds;
      assert s.Waits(oldest, p) && s.EdgeOk(p, oldest);
    }
  }
}
