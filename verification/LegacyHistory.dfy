/** Whole runs of the first kernel's scheduler, beside what its callers declared:
    the locks of each job and the jobs it is ordered after
    (_legacy/kernel/scheduler.go). */
module LegacyHistory {
  import opened Basics
  import opened LegacyState
  import opened LegacyEnding
  import opened LegacySubmitting
  import opened LegacyFinishing
  import opened LegacyScheduler

  /** What was declared of a job: its locks, whether the pool runs it, the jobs it
      is ordered after, and its place in the submission order. */
  datatype Declaration = Declaration(locks: LockSet, owned: bool, after: set<JobId>, number: nat)

  /** Whether two declared lock sets share a track that either writes. */
  ghost predicate Clash(a: LockSet, b: LockSet) {
    ToSet(a.write) * (ToSet(b.read) + ToSet(b.write)) != {} || ToSet(a.read) * ToSet(b.write) != {}
  }

  ghost predicate Granted(s: State, id: JobId) {
    s.Live(id) && s.slots[id.slot].state != Blocked
  }

  /** Every job submitted, and how those that ended did; a job skipped failed. */
  datatype History = History(declared: map<JobId, Declaration>, succeeded: set<JobId>, failed: set<JobId>) {
    ghost function After(id: JobId): set<JobId> {
      if id in declared then declared[id].after else {}
    }

    ghost predicate Ended(id: JobId) {
      id in succeeded || id in failed
    }

    /** A job submitted is live, with the locks it declared and no others, or has
        ended, and is never live again. */
    ghost predicate JobOk(s: State, id: JobId) {
      && (id in declared <==> s.Live(id) || Ended(id))
      && (Ended(id) ==> id != NO_JOB && s.Known(id) && !s.Live(id))
      && (id in declared ==> declared[id].number < s.count)
      && (s.Live(id) ==>
            var job, d := s.slots[id.slot], declared[id];
            && job.read == ToSet(d.locks.read) && job.write == ToSet(d.locks.write)
            && job.owned == d.owned && job.number == d.number)
    }

    ghost predicate NumberOk(x: JobId, y: JobId) {
      x in declared && y in declared && x != y ==> declared[x].number != declared[y].number
    }

    /** A job waits only for jobs it conflicts with or is ordered after. */
    ghost predicate CauseOk(s: State, id: JobId, p: nat) {
      s.Live(id) && s.Waits(id.slot, p) ==> s.Taken(p) && (s.Conflict(p, id.slot) || s.slots[p].id in After(id))
    }

    /** Each job that id is ordered after is still to end, with an edge to it, or
        ended well, or failed, and id is marked to be skipped. */
    ghost predicate OrderOk(s: State, id: JobId, d: JobId) {
      s.Live(id) && d in After(id) ==>
        || (s.Live(d) && OrderedBefore(s, d.slot, id))
        || d in succeeded
        || (d in failed && s.slots[id.slot].skip)
    }

    /** What succeeded ran only after all it was ordered after had. */
    ghost predicate SuccessOk(id: JobId, d: JobId) {
      id in succeeded && d in After(id) ==> d in succeeded
    }

    /** Whether x and y, whose locks clash, were submitted in that order. */
    ghost predicate Before(x: JobId, y: JobId) {
      && x in declared && y in declared && declared[x].number < declared[y].number
      && Clash(declared[x].locks, declared[y].locks)
    }

    /** Of two jobs whose locks clash, the earlier ends first. */
    ghost predicate EndedInOrder(x: JobId, y: JobId) {
      Before(x, y) && Ended(y) ==> Ended(x)
    }

    ghost predicate Ok(s: State) {
      && succeeded !! failed
      && (forall id {:trigger JobOk(s, id)} :: JobOk(s, id))
      && (forall x, y {:trigger NumberOk(x, y)} :: NumberOk(x, y))
      && (forall id, p: nat {:trigger CauseOk(s, id, p)} :: CauseOk(s, id, p))
      && (forall id, d {:trigger OrderOk(s, id, d)} :: OrderOk(s, id, d))
      && (forall id, d {:trigger SuccessOk(id, d)} :: SuccessOk(id, d))
      && (forall x, y {:trigger EndedInOrder(x, y)} :: EndedInOrder(x, y))
    }
  }

  /** A new scheduler, to which nothing was submitted. */
  ghost function NewHistory(): History {
    History(map[], {}, {})
  }

  method NewScheduler() returns (scheduler: Scheduler)
    ensures scheduler.Valid() && fresh(scheduler) && NewHistory().Ok(scheduler.s)
  {
    scheduler := new Scheduler();
  }

  /** A job queued or running, which finish or take may run: all it was ordered
      after have ended, and well. */
  lemma RunsAfterSuccess(s: State, h: History, id: JobId, d: JobId)
    requires s.Valid() && h.Ok(s) && Granted(s, id) && d in h.After(id)
    ensures d in h.succeeded && !s.Live(d)
  {
    assert h.OrderOk(s, id, d) && h.JobOk(s, d);
    GrantedOnceAlone(s, id.slot);
    if s.Live(d) && OrderedBefore(s, d.slot, id) {
      OrderedWaits(s, d, id);
    }
  }

  lemma OrderedWaits(s: State, d: JobId, id: JobId)
    requires s.Linked() && s.Live(id) && OrderedBefore(s, d.slot, id)
    ensures s.slots[id.slot].preds != multiset{}
  {
    var k :| 0 <= k < |s.slots[d.slot].successors| && s.slots[d.slot].successors[k] == Successor(id, true);
    TargetAt(s.slots[d.slot].successors, k);
    assert s.EdgeOk(d.slot, id.slot);
    assert s.slots[id.slot].preds[d.slot] > 0;
  }

  /** A chain of jobs, each ordered after the next. */
  ghost predicate Chain(h: History, path: seq<JobId>) {
    forall k {:trigger path[k]} | 0 < k < |path| :: path[k] in h.After(path[k - 1])
  }

  /** So no job runs if one it is ordered after, however far back, failed or was
      skipped, or has yet to end. */
  lemma {:induction false} ChainSucceeded(s: State, h: History, path: seq<JobId>, k: nat)
    requires s.Valid() && h.Ok(s) && Chain(h, path) && 0 < k < |path| && Granted(s, path[0])
    ensures path[k] in h.succeeded && path[k] !in h.failed && !s.Live(path[k])
  {
    if k == 1 {
      RunsAfterSuccess(s, h, path[0], path[1]);
    } else {
      ChainSucceeded(s, h, path, k - 1);
      assert h.SuccessOk(path[k - 1], path[k]) && h.JobOk(s, path[k]) && path[k] in h.After(path[k - 1]);
    }
  }

  /** Live jobs conflict exactly if their declared locks clash. */
  lemma ConflictIsDeclared(s: State, h: History, x: JobId, y: JobId)
    requires h.Ok(s) && s.Live(x) && s.Live(y)
    ensures x in h.declared && y in h.declared
    ensures s.Conflict(x.slot, y.slot) <==> Clash(h.declared[x].locks, h.declared[y].locks)
    ensures s.slots[x.slot].number == h.declared[x].number && s.slots[y.slot].number == h.declared[y].number
  {
    assert h.JobOk(s, x) && h.JobOk(s, y);
  }

  /** No two granted jobs declared locks that clash. */
  lemma GrantedNeverClash(s: State, h: History, x: JobId, y: JobId)
    requires s.Valid() && h.Ok(s) && x != y && Granted(s, x) && Granted(s, y)
    ensures x in h.declared && y in h.declared && !Clash(h.declared[x].locks, h.declared[y].locks)
  {
    ConflictIsDeclared(s, h, x, y);
    assert s.SlotOk(x.slot) && s.SlotOk(y.slot);
    RunningNeverConflict(s, x.slot, y.slot);
  }

  /** Of two jobs whose declared locks clash, the one submitted first has ended
      before the other is granted. */
  lemma EarlierHasEnded(s: State, h: History, x: JobId, y: JobId)
    requires s.Valid() && h.Ok(s) && h.Before(x, y) && (Granted(s, y) || h.Ended(y))
    ensures h.Ended(x)
  {
    assert h.EndedInOrder(x, y) && h.JobOk(s, x);
    if s.Live(x) && Granted(s, y) {
      ConflictIsDeclared(s, h, x, y);
      GrantedInSubmissionOrder(s, x.slot, y.slot);
    }
  }

  ghost predicate NoneClash(s: State, h: History) {
    forall x, y {:trigger Granted(s, x), Granted(s, y)} | x != y && Granted(s, x) && Granted(s, y) ::
      x in h.declared && y in h.declared && !Clash(h.declared[x].locks, h.declared[y].locks)
  }

  ghost predicate ClashesEndInOrder(s: State, h: History) {
    forall x, y {:trigger h.Before(x, y)} | h.Before(x, y) && (Granted(s, y) || h.Ended(y)) :: h.Ended(x)
  }

  /** Whether y's turn has come: nothing it must wait for is live. */
  ghost predicate MayRun(h: History, y: JobId) {
    && (forall x {:trigger h.Before(x, y)} | h.Before(x, y) :: h.Ended(x))
    && (forall d {:trigger d in h.After(y)} | d in h.After(y) :: h.Ended(d))
  }

  /** A live job is granted exactly if every earlier one whose locks clash with its
      own, and every one it is ordered after, has ended. */
  lemma GrantedIff(s: State, h: History, y: JobId)
    requires s.Valid() && h.Ok(s) && s.Live(y)
    ensures Granted(s, y) <==> MayRun(h, y)
  {
    GrantedOnceAlone(s, y.slot);
    if Granted(s, y) {
      forall x | h.Before(x, y) ensures h.Ended(x) { EarlierHasEnded(s, h, x, y); }
      forall d | d in h.After(y) ensures h.Ended(d) { RunsAfterSuccess(s, h, y, d); }
    } else {
      var p: nat :| p in s.slots[y.slot].preds;
      assert s.Waits(y.slot, p) && s.EdgeOk(p, y.slot) && h.CauseOk(s, y, p) && s.SlotOk(p);
      var x := s.slots[p].id;
      ConflictIsDeclared(s, h, x, y);
      assert h.JobOk(s, x) && !h.Ended(x) && (s.Conflict(p, y.slot) ==> h.Before(x, y));
    }
  }

  ghost predicate GrantedExactly(s: State, h: History) {
    forall y {:trigger Granted(s, y)} | s.Live(y) :: Granted(s, y) <==> MayRun(h, y)
  }

  ghost predicate RunOnSuccess(s: State, h: History) {
    forall path: seq<JobId>, k {:trigger Chain(h, path), path[k]} |
      Chain(h, path) && 0 < k < |path| && Granted(s, path[0]) :: path[k] in h.succeeded && path[k] !in h.failed
  }

  ghost predicate SomeGranted(s: State) {
    (exists id :: s.Live(id)) ==> exists id :: Granted(s, id)
  }

  /** All that holds of any state of a run, over what was declared. */
  ghost predicate Safe(s: State, h: History) {
    NoneClash(s, h) && ClashesEndInOrder(s, h) && GrantedExactly(s, h) && RunOnSuccess(s, h) && SomeGranted(s)
  }

  lemma SomeIsGranted(s: State)
    requires s.Valid()
    ensures SomeGranted(s)
  {
    if id :| s.Live(id) {
      assert s.Taken(id.slot);
      var oldest := SomeJobIsGranted(s);
      assert s.SlotOk(oldest) && Granted(s, s.slots[oldest].id);
    }
  }

  lemma OkIsSafe(s: State, h: History)
    requires s.Valid() && h.Ok(s)
    ensures Safe(s, h)
  {
    assert NoneClash(s, h) by {
      forall x, y | x != y && Granted(s, x) && Granted(s, y)
        ensures x in h.declared && y in h.declared && !Clash(h.declared[x].locks, h.declared[y].locks)
      {
        GrantedNeverClash(s, h, x, y);
      }
    }
    assert ClashesEndInOrder(s, h) by {
      forall x, y | h.Before(x, y) && (Granted(s, y) || h.Ended(y)) ensures h.Ended(x) {
        EarlierHasEnded(s, h, x, y);
      }
    }
    assert GrantedExactly(s, h) by {
      forall y | s.Live(y) ensures Granted(s, y) <==> MayRun(h, y) { GrantedIff(s, h, y); }
    }
    assert RunOnSuccess(s, h) by {
      forall path: seq<JobId>, k | Chain(h, path) && 0 < k < |path| && Granted(s, path[0])
        ensures path[k] in h.succeeded && path[k] !in h.failed
      {
        ChainSucceeded(s, h, path, k);
      }
    }
    SomeIsGranted(s);
  }

  /** Where a batch has id. */
  ghost function Position(batch: seq<JobId>, id: JobId): (k: nat)
    requires id in batch
    ensures k < |batch| && batch[k] == id
  {
    var k: nat :| k < |batch| && batch[k] == id;
    k
  }

  ghost function AfterIds(batch: seq<JobId>, after: seq<nat>): set<JobId>
    requires forall m | 0 <= m < |after| :: after[m] < |batch|
  {
    set m | 0 <= m < |after| :: batch[after[m]]
  }

  /** What is declared of the job a batch has at position k, the first having the
      number count. */
  ghost function DeclarationOf(batch: seq<JobId>, jobs: seq<BatchJob>, owned: bool, count: nat, k: nat): Declaration
    requires k < |batch| == |jobs| && Earlier(jobs)
  {
    Declaration(jobs[k].locks, owned, AfterIds(batch, jobs[k].after), count + k)
  }

  /** The history with a batch submitted. */
  ghost function Submitted(h: History, batch: seq<JobId>, jobs: seq<BatchJob>, owned: bool, count: nat): History
    requires |batch| == |jobs| && Earlier(jobs)
  {
    h.(declared := map id | id in h.declared.Keys + (set x | x in batch) ::
                     if id in batch then DeclarationOf(batch, jobs, owned, count, Position(batch, id))
                     else h.declared[id])
  }

  /** What a submission does, as its contract says. */
  ghost predicate Submits(s: State, t: State, batch: seq<JobId>, jobs: seq<BatchJob>, owned: bool) {
    && s.Valid() && t.Valid() && |batch| == |jobs| && Earlier(jobs) && t.count == s.count + |jobs|
    && BatchOf(s, t, jobs, batch, owned) && QueuesBatch(s, t, batch)
  }

  /** A live job that is not of the batch was there, as it is. */
  lemma WasLive(s: State, t: State, batch: seq<JobId>, jobs: seq<BatchJob>, owned: bool, id: JobId)
    requires Submits(s, t, batch, jobs, owned) && id !in batch
    ensures t.Live(id) <==> s.Live(id)
    ensures s.Live(id) ==> JobStays(s.slots[id.slot], t.slots[id.slot])
  {
    assert t.Live(id) ==> t.Taken(id.slot);
    if id.slot < |s.slots| {
      assert JobStays(s.slots[id.slot], t.slots[id.slot]);
    }
  }

  /** One of the batch is new, and as it was declared. */
  lemma IsNew(h: History, s: State, t: State, batch: seq<JobId>, jobs: seq<BatchJob>, owned: bool, id: JobId)
    requires Submits(s, t, batch, jobs, owned) && h.Ok(s) && id in batch
    ensures var k := Position(batch, id);
            JobOfBatch(s, t, jobs, batch, owned, k) && t.Live(id) && t.slots[id.slot].number == s.count + k
    ensures id !in h.declared && !h.Ended(id)
  {
    assert JobOfBatch(s, t, jobs, batch, owned, Position(batch, id)) && h.JobOk(s, id);
    assert s.Live(id) ==> s.SlotOk(id.slot);
  }

  lemma SubmittedKeepsJob(h: History, s: State, t: State, batch: seq<JobId>, jobs: seq<BatchJob>, owned: bool,
                          id: JobId)
    requires Submits(s, t, batch, jobs, owned) && h.Ok(s)
    ensures Submitted(h, batch, jobs, owned, s.count).JobOk(t, id)
  {
    assert h.JobOk(s, id);
    if id in batch {
      IsNew(h, s, t, batch, jobs, owned, id);
    } else {
      WasLive(s, t, batch, jobs, owned, id);
      assert id.slot < |s.slots| ==> JobStays(s.slots[id.slot], t.slots[id.slot]);
    }
  }

  lemma SubmittedKeepsCause(h: History, s: State, t: State, batch: seq<JobId>, jobs: seq<BatchJob>, owned: bool,
                            id: JobId, p: nat)
    requires Submits(s, t, batch, jobs, owned) && h.Ok(s)
    ensures Submitted(h, batch, jobs, owned, s.count).CauseOk(t, id, p)
  {
    if t.Live(id) && t.Waits(id.slot, p) {
      assert t.EdgeOk(p, id.slot) && t.SlotOk(id.slot);
      if id in batch {
        IsNew(h, s, t, batch, jobs, owned, id);
        var k := Position(batch, id);
        if !t.Conflict(p, id.slot) {
          var m :| 0 <= m < |jobs[k].after| && batch[jobs[k].after[m]].slot == p;
          assert JobOfBatch(s, t, jobs, batch, owned, jobs[k].after[m]);
        }
      } else {
        WasLive(s, t, batch, jobs, owned, id);
        assert h.CauseOk(s, id, p) && JobStays(s.slots[p], t.slots[p]);
      }
    }
  }

  lemma SubmittedKeepsOrder(h: History, s: State, t: State, batch: seq<JobId>, jobs: seq<BatchJob>, owned: bool,
                            id: JobId, d: JobId)
    requires Submits(s, t, batch, jobs, owned) && h.Ok(s)
    ensures Submitted(h, batch, jobs, owned, s.count).OrderOk(t, id, d)
  {
    var g := Submitted(h, batch, jobs, owned, s.count);
    if t.Live(id) && d in g.After(id) {
      if id in batch {
        IsNew(h, s, t, batch, jobs, owned, id);
        var k := Position(batch, id);
        var m :| 0 <= m < |jobs[k].after| && batch[jobs[k].after[m]] == d;
        IsNew(h, s, t, batch, jobs, owned, d);
      } else {
        WasLive(s, t, batch, jobs, owned, id);
        assert h.OrderOk(s, id, d);
        if s.Live(d) && OrderedBefore(s, d.slot, id) {
          StaysLive(s, t, d);
          StaysOrdered(s, t, d, id);
        }
      }
    }
  }

  lemma SubmittedKeepsNumbers(h: History, s: State, t: State, batch: seq<JobId>, jobs: seq<BatchJob>, owned: bool,
                              x: JobId, y: JobId)
    requires Submits(s, t, batch, jobs, owned) && h.Ok(s)
    ensures Submitted(h, batch, jobs, owned, s.count).NumberOk(x, y)
    ensures Submitted(h, batch, jobs, owned, s.count).EndedInOrder(x, y)
    ensures Submitted(h, batch, jobs, owned, s.count).SuccessOk(x, y)
  {
    assert h.NumberOk(x, y) && h.EndedInOrder(x, y) && h.SuccessOk(x, y) && h.JobOk(s, x) && h.JobOk(s, y);
    if x in batch { IsNew(h, s, t, batch, jobs, owned, x); }
    if y in batch { IsNew(h, s, t, batch, jobs, owned, y); }
  }

  /** A submission keeps the history: its jobs hold the locks they declare, and
      have an edge from every one they are ordered after. */
  lemma SubmittedKeepsHistory(h: History, s: State, t: State, batch: seq<JobId>, jobs: seq<BatchJob>, owned: bool)
    requires Submits(s, t, batch, jobs, owned) && h.Ok(s)
    ensures Submitted(h, batch, jobs, owned, s.count).Ok(t)
  {
    var g := Submitted(h, batch, jobs, owned, s.count);
    forall id ensures g.JobOk(t, id) { SubmittedKeepsJob(h, s, t, batch, jobs, owned, id); }
    forall x, y ensures g.NumberOk(x, y) && g.EndedInOrder(x, y) && g.SuccessOk(x, y) {
      SubmittedKeepsNumbers(h, s, t, batch, jobs, owned, x, y);
    }
    forall id, p: nat ensures g.CauseOk(t, id, p) { SubmittedKeepsCause(h, s, t, batch, jobs, owned, id, p); }
    forall id, d ensures g.OrderOk(t, id, d) { SubmittedKeepsOrder(h, s, t, batch, jobs, owned, id, d); }
  }

  /** The history once job id ended, and those skipped because of it. */
  ghost function Told(h: History, id: JobId, failed: bool, skipped: seq<JobId>): History {
    var ended := set x | x in skipped;
    if failed then h.(failed := h.failed + {id} + ended)
    else h.(succeeded := h.succeeded + {id}, failed := h.failed + ended)
  }

  /** What finish does, as its contract says. */
  ghost predicate Ends(s: State, t: State, id: JobId, failed: bool, skipped: seq<JobId>) {
    && s.Valid() && t.Valid() && Advances(s, t) && s.Live(id) && s.slots[id.slot].state == Running && !t.Taken(id.slot)
    && (forall i: nat {:trigger t.Taken(i)} | s.Taken(i) && !t.Taken(i) :: i == id.slot || Names(skipped, i))
    && (forall k {:trigger skipped[k]} | 0 <= k < |skipped| ::
          s.Live(skipped[k]) && !t.Taken(skipped[k].slot) && s.slots[skipped[k].slot].state == Blocked)
    && (forall x: nat {:trigger MarkedOk(s, t, id, failed, x)} :: MarkedOk(s, t, id, failed, x))
    && EdgesStay(s, t)
  }

  /** A job that ended meanwhile is id, or is one of those skipped, and no other
      did. */
  lemma EndedIsTold(s: State, t: State, id: JobId, failed: bool, skipped: seq<JobId>, d: JobId)
    requires Ends(s, t, id, failed, skipped)
    ensures s.Live(d) && !t.Live(d) <==> d == id || d in skipped
    ensures t.Live(d) ==> s.Live(d)
    ensures s.Live(d) && !t.Live(d) ==> !t.Taken(d.slot)
  {
    if d.slot < |s.slots| {
      assert t.slots[d.slot].id == s.slots[d.slot].id || t.slots[d.slot].id == NO_JOB;
      if s.Live(d) && !t.Live(d) && d.slot != id.slot {
        assert s.Taken(d.slot) && !t.Taken(d.slot);
        var k :| 0 <= k < |skipped| && skipped[k].slot == d.slot;
        assert skipped[k] == d;
      }
    }
    if d in skipped {
      var k :| 0 <= k < |skipped| && skipped[k] == d;
    }
  }

  lemma EndingKeepsOrderAt(h: History, s: State, t: State, id: JobId, failed: bool, skipped: seq<JobId>, x: JobId,
                           d: JobId)
    requires h.Ok(s) && Ends(s, t, id, failed, skipped)
    ensures Told(h, id, failed, skipped).OrderOk(t, x, d)
  {
    assert h.OrderOk(s, x, d);
    if t.Live(x) && d in h.After(x) {
      assert t.slots[x.slot].id == s.slots[x.slot].id;
      if s.Live(d) && OrderedBefore(s, d.slot, x) {
        EndedIsTold(s, t, id, failed, skipped, d);
        if t.Live(d) {
          assert EdgesStayAt(s, t, d.slot);
        } else {
          var k :| 0 <= k < |s.slots[d.slot].successors| && s.slots[d.slot].successors[k] == Successor(x, true);
          if d != id || failed {
            assert Fails(s, t, id, failed, d.slot, x.slot) && MarkedOk(s, t, id, failed, x.slot);
          }
        }
      }
    }
  }

  lemma EndingKeepsJob(h: History, s: State, t: State, id: JobId, failed: bool, skipped: seq<JobId>, d: JobId)
    requires h.Ok(s) && Ends(s, t, id, failed, skipped)
    ensures Told(h, id, failed, skipped).JobOk(t, d)
  {
    assert h.JobOk(s, d);
    EndedIsTold(s, t, id, failed, skipped, d);
    if d.slot < |s.slots| {
      assert t.slots[d.slot].id == s.slots[d.slot].id || t.slots[d.slot].id == NO_JOB;
      assert s.SlotOk(d.slot) && t.slots[d.slot].generation == s.slots[d.slot].generation;
    }
  }

  lemma EndingKeepsCause(h: History, s: State, t: State, id: JobId, failed: bool, skipped: seq<JobId>, x: JobId, p: nat)
    requires h.Ok(s) && Ends(s, t, id, failed, skipped)
    ensures Told(h, id, failed, skipped).CauseOk(t, x, p)
  {
    if t.Live(x) && t.Waits(x.slot, p) {
      assert t.EdgeOk(p, x.slot) && t.SlotOk(x.slot) && t.slots[x.slot].id == s.slots[x.slot].id;
      WaitsForTheRest(s, t, x.slot, p);
      assert s.Waits(x.slot, p) && h.CauseOk(s, x, p) && t.slots[p].id == s.slots[p].id;
    }
  }

  /** Whoever is behind a job that has not ended has not ended either. */
  lemma LiveBehindLive(s: State, t: State, id: JobId, failed: bool, skipped: seq<JobId>, i: nat, j: nat)
    requires Ends(s, t, id, failed, skipped) && t.Taken(i) && s.Taken(j) && s.Reaches(i, j)
    ensures t.Taken(j)
    decreases if j < |s.slots| then s.slots[j].number else 0
  {
    if i != j {
      var p: nat :| s.Waits(j, p) && p < |s.slots| && s.slots[p].number < s.slots[j].number && s.Reaches(i, p);
      assert s.EdgeOk(p, j);
      LiveBehindLive(s, t, id, failed, skipped, i, p);
      assert EdgesStayAt(s, t, p) && t.EdgeOk(p, j) && t.slots[j].preds[p] > 0;
      assert t.Waits(j, p);
    }
  }

  /** A job ends only once every earlier one whose locks clash with its own has,
      be it skipped. */
  lemma EndingKeepsClashes(h: History, s: State, t: State, id: JobId, failed: bool, skipped: seq<JobId>, x: JobId,
                           y: JobId)
    requires h.Ok(s) && Ends(s, t, id, failed, skipped)
    ensures Told(h, id, failed, skipped).EndedInOrder(x, y)
  {
    var g := Told(h, id, failed, skipped);
    if g.Before(x, y) && g.Ended(y) {
      assert h.Before(x, y) && h.EndedInOrder(x, y) && h.JobOk(s, x) && h.JobOk(s, y);
      EndedIsTold(s, t, id, failed, skipped, x);
      EndedIsTold(s, t, id, failed, skipped, y);
      if s.Live(x) && s.Live(y) {
        ConflictIsDeclared(s, h, x, y);
        ConflictsAreJoined(s, x.slot, y.slot);
        if t.Live(x) {
          LiveBehindLive(s, t, id, failed, skipped, x.slot, y.slot);
        }
      }
    }
  }

  lemma EndingKeepsSuccess(h: History, s: State, t: State, id: JobId, failed: bool, skipped: seq<JobId>, x: JobId,
                           d: JobId)
    requires h.Ok(s) && Ends(s, t, id, failed, skipped)
    ensures Told(h, id, failed, skipped).SuccessOk(x, d) && Told(h, id, failed, skipped).NumberOk(x, d)
  {
    assert h.SuccessOk(x, d) && h.NumberOk(x, d);
    if x == id && !failed && d in h.After(id) {
      RunsAfterSuccess(s, h, id, d);
    }
  }

  /** What ends keeps the history: whoever was ordered after a job that failed, or
      was skipped, is marked, and so on from it. */
  lemma EndingKeepsHistory(h: History, s: State, t: State, id: JobId, failed: bool, skipped: seq<JobId>)
    requires h.Ok(s) && Ends(s, t, id, failed, skipped)
    ensures Told(h, id, failed, skipped).Ok(t)
  {
    var g := Told(h, id, failed, skipped);
    assert h.JobOk(s, id);
    forall x | x in skipped ensures !h.Ended(x) && x != id {
      var k :| 0 <= k < |skipped| && skipped[k] == x;
      assert h.JobOk(s, x);
    }
    forall d ensures g.JobOk(t, d) { EndingKeepsJob(h, s, t, id, failed, skipped, d); }
    forall x, p: nat ensures g.CauseOk(t, x, p) { EndingKeepsCause(h, s, t, id, failed, skipped, x, p); }
    forall x, d ensures g.OrderOk(t, x, d) { EndingKeepsOrderAt(h, s, t, id, failed, skipped, x, d); }
    forall x, d ensures g.SuccessOk(x, d) && g.NumberOk(x, d) {
      EndingKeepsSuccess(h, s, t, id, failed, skipped, x, d);
    }
    forall x, y ensures g.EndedInOrder(x, y) { EndingKeepsClashes(h, s, t, id, failed, skipped, x, y); }
  }

  /** What take does, as its contract says: the first job queued runs. */
  ghost predicate Takes(s: State, t: State, id: JobId) {
    && t.Valid() && (id == NO_JOB <==> s.head == |s.queue|) && t.count == s.count
    && if id == NO_JOB then t == s
       else
         && s.head < |s.queue| && id == s.queue[s.head] && s.Live(id) && s.slots[id.slot].state == Queued
         && |t.slots| == |s.slots| && t.slots == s.slots[id.slot := t.slots[id.slot]]
         && Stands(s.slots[id.slot], t.slots[id.slot]) && t.slots[id.slot].state == Running
         && t.head <= |t.queue| && t.queue[t.head..] == s.queue[s.head + 1..]
  }

  /** One job's state changed, and no edge, name, lock or mark. */
  lemma TakingKeepsHistory(h: History, s: State, t: State, id: JobId)
    requires h.Ok(s) && Takes(s, t, id)
    ensures h.Ok(t)
  {
    if id != NO_JOB {
      forall i: nat | i < |s.slots|
        ensures t.slots[i] == s.slots[i].(state := t.slots[i].state, place := t.slots[i].place)
      {
      }
      forall d ensures h.JobOk(t, d) { assert h.JobOk(s, d); }
      forall x, p: nat ensures h.CauseOk(t, x, p) {
        assert h.CauseOk(s, x, p) && (t.Waits(x.slot, p) ==> s.Waits(x.slot, p));
      }
      forall x, d ensures h.OrderOk(t, x, d) { assert h.OrderOk(s, x, d); }
    }
  }

  /** An operation on the scheduler. A job that its submitter runs is submitted by
      itself. */
  datatype Op =
    | OpSubmit(locks: LockSet) | OpBatch(jobs: seq<BatchJob>) | OpTake
    | OpFinish(id: JobId, failed: bool, continuing: bool)
  {
    ghost predicate Valid() {
      match this
      case OpSubmit(locks) => locks.Valid()
      case OpBatch(jobs) => (forall k | 0 <= k < |jobs| :: jobs[k].locks.Valid()) && Earlier(jobs)
      case _ => true
    }
  }

  /** What it answers: only a job that runs is finished. */
  datatype Answer =
    | OneJob(id: JobId, granted: bool) | Batch(batch: seq<JobId>) | Taken(id: JobId)
    | Finish(progress: Progress, skipped: seq<JobId>) | NotRunning

  /** What an operation answered, and made of the scheduler and of what is known of
      its jobs. */
  ghost predicate Did(op: Op, answer: Answer, s: State, h: History, t: State, g: History)
    requires op.Valid()
  {
    match op
    case OpSubmit(locks) =>
      && answer.OneJob? && Submits(s, t, [answer.id], [BatchJob(locks, [])], false)
      && g == Submitted(h, [answer.id], [BatchJob(locks, [])], false, s.count) && answer.id !in h.declared
      && t.Live(answer.id) && t.slots[answer.id.slot].state == (if answer.granted then Running else Blocked)
      && (answer.granted <==> forall x | x in h.declared && s.Live(x) :: !Clash(h.declared[x].locks, locks))
    case OpBatch(jobs) =>
      && answer.Batch? && Submits(s, t, answer.batch, jobs, true)
      && g == Submitted(h, answer.batch, jobs, true, s.count)
      && forall id | id in answer.batch :: id !in h.declared && t.Live(id) && t.slots[id.slot].state != Running
    case OpTake => answer.Taken? && Takes(s, t, answer.id) && g == h
    case OpFinish(id, failed, continuing) =>
      if s.Live(id) && s.slots[id.slot].state == Running then
        && answer.Finish? && Ends(s, t, id, failed, answer.skipped) && g == Told(h, id, failed, answer.skipped)
        && answer.progress.RunsOk(t, continuing) && answer.progress.Covers(s, t, continuing)
      else answer == NotRunning && t == s && g == h
  }

  /** One operation. */
  method Step(scheduler: Scheduler, op: Op, ghost h: History) returns (answer: Answer, ghost g: History)
    requires scheduler.Valid() && h.Ok(scheduler.s) && op.Valid()
    modifies scheduler
    ensures scheduler.Valid() && g.Ok(scheduler.s)
    ensures Did(op, answer, old(scheduler.s), h, scheduler.s, g)
  {
    ghost var s := scheduler.s;
    match op {
      case OpSubmit(locks) =>
        answer := StepSubmit(scheduler, locks, h);
        g := Submitted(h, [answer.id], [BatchJob(locks, [])], false, s.count);
      case OpBatch(jobs) =>
        answer := StepBatch(scheduler, jobs, h);
        g := Submitted(h, answer.batch, jobs, true, s.count);
      case OpTake =>
        var id := scheduler.Take();
        answer, g := Answer.Taken(id), h;
        TakingKeepsHistory(h, s, scheduler.s, id);
      case OpFinish(id, failed, continuing) =>
        answer, g := NotRunning, h;
        if scheduler.s.Live(id) && scheduler.s.slots[id.slot].state == Running {
          var p, skipped := scheduler.Finish(id, failed, continuing);
          answer, g := Answer.Finish(p, skipped), Told(h, id, failed, skipped);
          EndingKeepsHistory(h, s, scheduler.s, id, failed, skipped);
        }
    }
  }

  /** A job submitted by itself is granted exactly if it clashes with none live. */
  method StepSubmit(scheduler: Scheduler, locks: LockSet, ghost h: History) returns (answer: Answer)
    requires scheduler.Valid() && h.Ok(scheduler.s) && locks.Valid()
    modifies scheduler
    ensures answer.OneJob? && Did(OpSubmit(locks), answer, old(scheduler.s), h, scheduler.s,
                                  Submitted(h, [answer.id], [BatchJob(locks, [])], false, old(scheduler.s).count))
    ensures scheduler.Valid()
    ensures Submitted(h, [answer.id], [BatchJob(locks, [])], false, old(scheduler.s).count).Ok(scheduler.s)
  {
    ghost var s := scheduler.s;
    var id, granted := scheduler.SubmitLocked(locks, false, [], []);
    answer := OneJob(id, granted);
    OneJobIsBatch(s, scheduler.s, id, locks);
    assert [id][..0] == [] && QueuedOf(scheduler.s, [id]) == [];
    SubmittedKeepsHistory(h, s, scheduler.s, [id], [BatchJob(locks, [])], false);
    OneJobIsApart(h, s, scheduler.s, id, locks);
  }

  lemma OneJobIsBatch(s: State, t: State, id: JobId, locks: LockSet)
    requires s.Valid() && t.Valid() && !s.Taken(id.slot) && OneSlotMore(s, t, id.slot)
    requires id.slot < |s.slots| ==> id.generation == s.slots[id.slot].generation + 1
    requires OthersStay(s, t, id.slot) && EdgesGrow(s, t, id.slot, LiveAfter(s, [], []))
    requires Declares(t, id, locks, false, LiveAfter(s, [], [])) && t.slots[id.slot].number == s.count
    ensures BatchOf(s, t, [BatchJob(locks, [])], [id], false)
  {
    OneJobMore(s, t, id, LiveAfter(s, [], []));
    assert JobsStay(s, s) by {
      forall i: nat | i < |s.slots| ensures JobStays(s.slots[i], s.slots[i]) { assert s.SlotOk(i); }
    }
    BatchGoesOn(s, s, t, [BatchJob(locks, [])], [], false, id);
    assert [] + [id] == [id];
  }

  /** The tracks a new job shares with those live are what the declared locks say. */
  lemma OneJobIsApart(h: History, s: State, t: State, id: JobId, locks: LockSet)
    requires h.Ok(s) && Submits(s, t, [id], [BatchJob(locks, [])], false) && t.Live(id)
    requires Submitted(h, [id], [BatchJob(locks, [])], false, s.count).Ok(t)
    ensures id !in h.declared
    ensures (forall x: nat {:trigger t.Taken(x)} | t.Taken(x) && x != id.slot :: !t.Conflict(x, id.slot)) <==>
            (forall x | x in h.declared && s.Live(x) :: !Clash(h.declared[x].locks, locks))
  {
    var jobs := [BatchJob(locks, [])];
    var g := Submitted(h, [id], jobs, false, s.count);
    IsNew(h, s, t, [id], jobs, false, id);
    assert g.declared[id].locks == locks;
    forall x | x in h.declared && s.Live(x)
      ensures t.Taken(x.slot) && x.slot != id.slot
      ensures t.Conflict(x.slot, id.slot) <==> Clash(h.declared[x].locks, locks)
    {
      WasLive(s, t, [id], jobs, false, x);
      ConflictIsDeclared(t, g, x, id);
      assert t.SlotOk(x.slot);
    }
    forall i: nat | t.Taken(i) && i != id.slot
      ensures s.Live(t.slots[i].id) && t.slots[i].id in h.declared && t.slots[i].id.slot == i
    {
      assert t.SlotOk(i);
      WasLive(s, t, [id], jobs, false, t.slots[i].id);
      assert h.JobOk(s, t.slots[i].id);
    }
  }

  /** A batch submitted: its jobs are queued or wait, each as it declares. */
  method StepBatch(scheduler: Scheduler, jobs: seq<BatchJob>, ghost h: History) returns (answer: Answer)
    requires scheduler.Valid() && h.Ok(scheduler.s) && OpBatch(jobs).Valid()
    modifies scheduler
    ensures answer.Batch? && |answer.batch| == |jobs| && scheduler.Valid()
    ensures Did(OpBatch(jobs), answer, old(scheduler.s), h, scheduler.s,
                Submitted(h, answer.batch, jobs, true, old(scheduler.s).count))
    ensures Submitted(h, answer.batch, jobs, true, old(scheduler.s).count).Ok(scheduler.s)
  {
    ghost var s := scheduler.s;
    var batch := scheduler.SubmitBatch(jobs);
    answer := Batch(batch);
    SubmittedKeepsHistory(h, s, scheduler.s, batch, jobs, true);
    forall id | id in batch
      ensures id !in h.declared && scheduler.s.Live(id) && scheduler.s.slots[id.slot].state != Running
    {
      IsNew(h, s, scheduler.s, batch, jobs, true, id);
    }
  }

  /** What a run did: its operations and what each answered, and the scheduler and
      the history before and after each. */
  datatype Course = Course(ops: seq<Op>, answers: seq<Answer>, states: seq<State>, histories: seq<History>) {
    ghost predicate Shape() {
      && |answers| == |ops| && |states| == |histories| == |ops| + 1
      && forall k {:trigger ops[k]} | 0 <= k < |ops| :: ops[k].Valid()
    }

    ghost predicate Reached(k: nat)
      requires Shape()
    {
      k <= |ops| ==> states[k].Valid() && histories[k].Ok(states[k]) && Safe(states[k], histories[k])
    }

    /** Operation k did just what it should. */
    ghost predicate DidAt(k: nat)
      requires Shape()
    {
      k < |ops| ==> Did(ops[k], answers[k], states[k], histories[k], states[k + 1], histories[k + 1])
    }

    ghost predicate Went() {
      && Shape()
      && (forall k: nat {:trigger Reached(k)} :: Reached(k))
      && (forall k: nat {:trigger DidAt(k)} :: DidAt(k))
    }

    ghost function Then(op: Op, answer: Answer, t: State, g: History): Course {
      Course(ops + [op], answers + [answer], states + [t], histories + [g])
    }

    lemma ThenWent(op: Op, answer: Answer, t: State, g: History)
      requires Went() && op.Valid() && t.Valid() && g.Ok(t)
      requires Did(op, answer, states[|ops|], histories[|ops|], t, g)
      ensures Then(op, answer, t, g).Went()
    {
      var c := Then(op, answer, t, g);
      OkIsSafe(t, g);
      forall k: nat ensures c.Reached(k) {
        if k <= |ops| { assert Reached(k); }
      }
      forall k: nat ensures c.DidAt(k) {
        if k < |ops| { assert DidAt(k); }
      }
    }
  }

  /** The jobs queued, the next to be taken first. */
  ghost function InQueue(s: State): seq<JobId> {
    if s.head <= |s.queue| then s.queue[s.head..] else []
  }

  /** What an operation queued: the new end of the queue. */
  ghost function QueuedAt(answer: Answer, s: State, t: State): seq<JobId> {
    if !answer.Taken? && |s.queue| <= |t.queue| then t.queue[|s.queue|..] else []
  }

  ghost function TakenAt(answer: Answer): seq<JobId> {
    if answer.Taken? && answer.id != NO_JOB then [answer.id] else []
  }

  ghost function QueuedBy(c: Course, k: nat): seq<JobId>
    requires c.Shape() && k <= |c.ops|
  {
    if k == 0 then InQueue(c.states[0])
    else QueuedBy(c, k - 1) + QueuedAt(c.answers[k - 1], c.states[k - 1], c.states[k])
  }

  ghost function TakenBy(c: Course, k: nat): seq<JobId>
    requires c.Shape() && k <= |c.ops|
  {
    if k == 0 then [] else TakenBy(c, k - 1) + TakenAt(c.answers[k - 1])
  }

  lemma TakingMovesQueue(s: State, t: State, id: JobId)
    requires s.head <= |s.queue| && t.head <= |t.queue| && Takes(s, t, id)
    ensures InQueue(s) == (if id != NO_JOB then [id] else []) + InQueue(t)
  {
    if id != NO_JOB {
      assert s.queue[s.head..] == [s.queue[s.head]] + s.queue[s.head + 1..];
    }
  }

  lemma QueueingMovesQueue(s: State, t: State)
    requires s.head <= |s.queue| && t.head == s.head && s.queue <= t.queue
    ensures InQueue(s) + t.queue[|s.queue|..] == InQueue(t)
  {
    assert t.queue[s.head..] == s.queue[s.head..] + t.queue[|s.queue|..];
  }

  lemma StepMovesQueue(op: Op, answer: Answer, s: State, h: History, t: State, g: History)
    requires op.Valid() && s.Valid() && t.Valid() && Did(op, answer, s, h, t, g)
    ensures InQueue(s) + QueuedAt(answer, s, t) == TakenAt(answer) + InQueue(t)
  {
    if op.OpTake? {
      TakingMovesQueue(s, t, answer.id);
    } else {
      QueueingMovesQueue(s, t);
    }
  }

  /** Over a run the jobs taken are those queued, in the same order, and then come
      those still queued. */
  lemma {:induction false} TakenInOrder(c: Course, k: nat)
    requires c.Went() && k <= |c.ops|
    ensures QueuedBy(c, k) == TakenBy(c, k) + InQueue(c.states[k])
  {
    if k > 0 {
      TakenInOrder(c, k - 1);
      assert c.Reached(k - 1) && c.Reached(k) && c.DidAt(k - 1);
      StepMovesQueue(c.ops[k - 1], c.answers[k - 1], c.states[k - 1], c.histories[k - 1], c.states[k], c.histories[k]);
      QueueMovesOn(QueuedBy(c, k - 1), TakenBy(c, k - 1), InQueue(c.states[k - 1]),
                   QueuedAt(c.answers[k - 1], c.states[k - 1], c.states[k]), TakenAt(c.answers[k - 1]),
                   InQueue(c.states[k]));
    }
  }

  /** Over any run of batches, submissions, takes and finishes each operation does
      just what it should with the locks and the order declared. Before and after
      each, no two granted jobs declared locks that clash; of two whose locks clash
      the one submitted first has ended before the other is granted; a job is
      granted exactly if all such, and all it is ordered after, have ended; all it
      is ordered after, however far back, succeeded; and some job is granted while
      any is live. */
  method Run(scheduler: Scheduler, ops: seq<Op>, ghost first: History)
    returns (answers: seq<Answer>, ghost course: Course)
    requires scheduler.Valid() && first.Ok(scheduler.s) && forall k {:trigger ops[k]} | 0 <= k < |ops| :: ops[k].Valid()
    modifies scheduler
    ensures scheduler.Valid() && course.Went() && course.ops == ops && course.answers == answers
    ensures course.states[0] == old(scheduler.s) && course.histories[0] == first
    ensures course.states[|ops|] == scheduler.s
  {
    answers, course := [], Course([], [], [scheduler.s], [first]);
    OkIsSafe(scheduler.s, first);
    for i := 0 to |ops|
      invariant scheduler.Valid() && course.Went() && course.ops == ops[..i] && course.answers == answers
      invariant course.states[0] == old(scheduler.s) && course.histories[0] == first
      invariant course.states[i] == scheduler.s
    {
      assert course.Reached(i);
      ghost var g;
      var answer;
      answer, g := Step(scheduler, ops[i], course.histories[i]);
      course.ThenWent(ops[i], answer, scheduler.s, g);
      answers, course := answers + [answer], course.Then(ops[i], answer, scheduler.s, g);
      assert ops[..i] + [ops[i]] == ops[..i + 1];
    }
    assert ops[..|ops|] == ops;
  }
}
