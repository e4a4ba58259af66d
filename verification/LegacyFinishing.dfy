/** What a finish does to the first kernel's scheduler: the jobs it grants, and
    those it skips because of one that failed, however far behind it they are
    (_legacy/kernel/scheduler.go). Each edge released is one step, and so is each
    job ended; what finish has come to so far is carried from step to step. */
module LegacyFinishing {
  import opened LegacyState
  import opened LegacyEnding

  /** A job finish is releasing. */
  datatype Finished = Finished(id: JobId, failed: bool)

  /** What became of a job when an edge to it was released. */
  datatype Outcome = Waits | Skips | Wakes | Continues | Queues

  /** t is s once jobs have ended: of the others, some were granted, those queued
      behind what was, and some marked to be skipped. */
  ghost predicate Advances(s: State, t: State) {
    && |t.slots| == |s.slots| && t.tracks == s.tracks && t.count == s.count
    && t.head == s.head && s.queue <= t.queue
    && forall i: nat {:trigger t.slots[i]} | i < |s.slots| ::
         && t.slots[i].number == s.slots[i].number && t.slots[i].owned == s.slots[i].owned
         && t.slots[i].read == s.slots[i].read && t.slots[i].write == s.slots[i].write
         && t.slots[i].generation == s.slots[i].generation
         && (t.slots[i].id == s.slots[i].id || t.slots[i].id == NO_JOB)
         && (s.slots[i].skip ==> t.slots[i].skip)
         && (s.slots[i].state != Blocked ==> t.slots[i].state == s.slots[i].state)
  }

  /** id names a running job, which the pool owns or its submitter runs. */
  ghost predicate IsRunning(s: State, id: JobId, owned: bool) {
    s.Live(id) && s.slots[id.slot].state == Running && s.slots[id.slot].owned == owned
  }

  /** id names a job that is to end without having run. */
  ghost predicate IsSkipped(s: State, id: JobId) {
    s.Live(id) && s.slots[id.slot].skip && s.slots[id.slot].state == Blocked
  }

  /** What DropEdge does: d's first edge is gone, and its successor is skipped
      later if the edge was ordered and d failed. */
  ghost predicate Dropped(s: State, t: State, d: nat, failed: bool, after: JobId) {
    && d < |s.slots| && s.slots[d].successors != [] && Advances(s, t) && t.ending == s.ending && KeepsIds(s, t)
    && after == s.slots[d].successors[0].id && t.Live(after) && after.slot !in s.open && after.slot != d
    && t.slots[after.slot].state == Blocked
    && t.open == (if t.slots[after.slot].blockers == 0 then s.open + {after.slot} else s.open)
    && t.slots[d].successors == s.slots[d].successors[1..] && t.slots[d].state == s.slots[d].state
    && t.slots[after.slot].skip == (s.slots[after.slot].skip || (s.slots[d].successors[0].ordered && failed))
    && OthersStand(s, t, after.slot) && SameEdges(s, t, d)
  }

  lemma EdgeReleasedIsDropped(s: State, d: nat, failed: bool)
    requires MayRelease(s, d)
    ensures s.slots[d].successors[0].id.slot < |s.slots| && s.slots[d].successors[0].id.slot != d
    ensures Dropped(s, EdgeReleased(s, d, failed), d, failed, s.slots[d].successors[0].id)
    ensures OpenAreDone(EdgeReleased(s, d, failed))
  {
    FirstSuccessor(s, d);
    assert s.SlotOk(s.slots[d].successors[0].id.slot);
  }

  ghost predicate KeepsIds(s: State, t: State) {
    |t.slots| == |s.slots| && forall i: nat {:trigger t.slots[i]} | i < |s.slots| :: t.slots[i].id == s.slots[i].id
  }

  ghost predicate OthersStand(s: State, t: State, j: nat) {
    |t.slots| == |s.slots| && forall i: nat {:trigger t.slots[i]} | i < |s.slots| && i != j ::
      t.slots[i].id == s.slots[i].id && t.slots[i].state == s.slots[i].state && t.slots[i].owned == s.slots[i].owned
      && t.slots[i].skip == s.slots[i].skip
  }

  /** Every job but d has the edges it had. */
  ghost predicate SameEdges(s: State, t: State, d: nat) {
    |t.slots| == |s.slots| && forall i: nat {:trigger t.slots[i]} | i < |s.slots| && i != d ::
      t.slots[i].successors == s.slots[i].successors
  }

  /** Whether one of the first count edges is ordered, and leads to job x. */
  ghost predicate Orders(successors: seq<Successor>, count: nat, x: nat) {
    exists k {:trigger successors[k]} | 0 <= k < count && k < |successors| ::
      successors[k].ordered && successors[k].id.slot == x
  }

  /** x is marked to be skipped if it was, or if d failed and x was ordered after
      it, by one of the first count of its edges. */
  ghost predicate MarkedBy(were: seq<Slot>, slots: seq<Slot>, d: nat, failed: bool, count: nat, x: nat)
    requires d < |were|
  {
    x < |were| && x < |slots| ==>
      (slots[x].skip <==> were[x].skip || (failed && Orders(were[d].successors, count, x)))
  }

  ghost predicate Marks(were: seq<Slot>, slots: seq<Slot>, d: nat, failed: bool, count: nat)
    requires d < |were|
  {
    forall x: nat {:trigger MarkedBy(were, slots, d, failed, count, x)} :: MarkedBy(were, slots, d, failed, count, x)
  }

  /** What GrantNext does: j is granted as it is owned, or left to be skipped. */
  ghost predicate GrantedNext(s: State, t: State, j: nat, continuing: bool, outcome: Outcome) {
    && OnlyMoved(s, t, j)
    && t.open == (if outcome == Skips then s.open else s.open - {j})
    && t.head == s.head && t.queue == s.queue + (if outcome == Queues then [s.slots[j].id] else [])
    && (outcome == Waits <==> s.slots[j].blockers > 0)
    && (outcome == Skips <==> s.slots[j].blockers == 0 && s.slots[j].skip)
    && (outcome == Continues <==> s.slots[j].blockers == 0 && !s.slots[j].skip && s.slots[j].owned && continuing)
    && (outcome == Wakes <==> s.slots[j].blockers == 0 && !s.slots[j].skip && !s.slots[j].owned)
    && (outcome == Queues <==> s.slots[j].blockers == 0 && !s.slots[j].skip && s.slots[j].owned && !continuing)
    && t.slots[j].state == match outcome
                           case Waits => Blocked
                           case Skips => Blocked
                           case Queues => Queued
                           case _ => Running
  }

  /** d ended, and no other job. */
  ghost predicate EndedOnly(s: State, t: State, d: nat) {
    && |t.slots| == |s.slots| && d < |s.slots| && t.slots[d].id == NO_JOB
    && forall i: nat {:trigger t.slots[i]} | i < |s.slots| && i != d ::
         t.slots[i].id == s.slots[i].id && t.slots[i].successors == s.slots[i].successors
  }

  /** Job done midway through releasing its edges, with the first released. */
  ghost predicate Releasing(before: State, s: State, done: Finished, released: nat) {
    var d := done.id.slot;
    && d < |before.slots| && before.Taken(d) && KeepsIds(before, s)
    && released <= |before.slots[d].successors| && s.slots[d].successors == before.slots[d].successors[released..]
    && s.slots[d].state == before.slots[d].state && s.slots[d].state != Queued
    && Marks(before.slots, s.slots, d, done.failed, released) && SameEdges(before, s, d)
  }

  /** What finish has come to: the jobs it skips, those whose submitters it
      wakes, and the one its worker goes on with. */
  datatype Progress = Progress(skips: seq<JobId>, wakes: seq<JobId>, onward: JobId) {
    function With(after: JobId, outcome: Outcome): Progress {
      match outcome
      case Skips => this.(skips := skips + [after])
      case Wakes => this.(wakes := wakes + [after])
      case Continues => this.(onward := after)
      case _ => this
    }

    /** The jobs to skip are those open, but for the one closing. */
    ghost predicate SkipsOk(s: State, closing: set<nat>) {
      && NoneTwice(skips)
      && (forall i: nat {:trigger Names(skips, i)} :: i in s.open && i !in closing ==> Names(skips, i))
      && (forall k {:trigger skips[k]} | 0 <= k < |skips| ::
            IsSkipped(s, skips[k]) && skips[k].slot in s.open && skips[k].slot !in closing)
    }

    ghost predicate RunsOk(s: State, continuing: bool) {
      && NoneTwice(wakes)
      && (forall k {:trigger wakes[k]} | 0 <= k < |wakes| :: IsRunning(s, wakes[k], false) && wakes[k].slot !in s.open)
      && (onward == NO_JOB || (continuing && IsRunning(s, onward, true) && onward.slot !in s.open))
    }

    ghost predicate Ok(s: State, closing: set<nat>, continuing: bool) {
      SkipsOk(s, closing) && RunsOk(s, continuing)
    }

    /** Every job that runs since, and did not, is one to wake or to go on with, and
        a worker that may go on does, rather than have one queued. */
    ghost predicate Covers(before: State, s: State, continuing: bool) {
      |before.slots| == |s.slots| && forall i: nat {:trigger s.slots[i]} |
        s.Taken(i) && before.slots[i].state == Blocked && s.slots[i].state != Blocked ::
        if !s.slots[i].owned then s.slots[i].state == Running && s.slots[i].id in wakes
        else if s.slots[i].state == Running then onward == s.slots[i].id
        else continuing ==> onward != NO_JOB
    }

    ghost predicate After(p: Progress) {
      p.skips <= skips && p.wakes <= wakes && (p.onward != NO_JOB ==> onward == p.onward)
    }
  }

  lemma ReleasingStep(before: State, u: State, v: State, t: State, done: Finished, released: nat, after: JobId,
                      continuing: bool, outcome: Outcome)
    requires Advances(before, u) && Releasing(before, u, done, released) && u.slots[done.id.slot].successors != []
    requires Dropped(u, v, done.id.slot, done.failed, after) && GrantedNext(v, t, after.slot, continuing, outcome)
    ensures Advances(before, t) && Releasing(before, t, done, released + 1)
  {
    var d := done.id.slot;
    assert before.slots[d].successors[released] == u.slots[d].successors[0];
    forall i: nat | i < |before.slots|
      ensures t.slots[i].id == before.slots[i].id && (before.slots[i].skip ==> t.slots[i].skip)
      ensures before.slots[i].state != Blocked ==> t.slots[i].state == before.slots[i].state
      ensures t.slots[i].number == before.slots[i].number && t.slots[i].owned == before.slots[i].owned
      ensures t.slots[i].read == before.slots[i].read && t.slots[i].write == before.slots[i].write
      ensures t.slots[i].generation == before.slots[i].generation
      ensures i != d ==> t.slots[i].successors == before.slots[i].successors
    {
      assert u.slots[i].id == before.slots[i].id && v.slots[i].id == u.slots[i].id;
    }
    var count := released + 1;
    forall x: nat ensures MarkedBy(before.slots, t.slots, d, done.failed, count, x) {
      MarksStep(before, u, v, t, done, released, after, x);
    }
  }

  lemma MarksStep(before: State, u: State, v: State, t: State, done: Finished, released: nat, after: JobId, x: nat)
    requires done.id.slot < |before.slots| == |u.slots| == |v.slots| == |t.slots|
    requires MarkedBy(before.slots, u.slots, done.id.slot, done.failed, released, x)
    requires released < |before.slots[done.id.slot].successors| && after.slot < |u.slots|
    requires before.slots[done.id.slot].successors[released].id == after
    requires v.slots[after.slot].skip ==
             (u.slots[after.slot].skip || (before.slots[done.id.slot].successors[released].ordered && done.failed))
    requires x < |u.slots| && x != after.slot ==> v.slots[x].skip == u.slots[x].skip
    requires x < |u.slots| ==> t.slots[x].skip == v.slots[x].skip
    ensures MarkedBy(before.slots, t.slots, done.id.slot, done.failed, released + 1, x)
  {
    var successors := before.slots[done.id.slot].successors;
    assert Orders(successors, released + 1, x) <==>
           Orders(successors, released, x) || (successors[released].ordered && after.slot == x) by {
      if successors[released].ordered && after.slot == x {
        assert successors[released].id.slot == x;
      }
    }
  }

  /** A job other than the one an edge led to is as it was. */
  lemma OthersAsBefore(u: State, v: State, t: State, d: nat, failed: bool, after: JobId, continuing: bool,
                       outcome: Outcome, id: JobId)
    requires Dropped(u, v, d, failed, after) && GrantedNext(v, t, after.slot, continuing, outcome)
    requires u.Live(id) && id.slot != after.slot
    ensures t.Live(id) && t.slots[id.slot].state == u.slots[id.slot].state
    ensures t.slots[id.slot].owned == u.slots[id.slot].owned && t.slots[id.slot].skip == u.slots[id.slot].skip
    ensures id.slot in t.open <==> id.slot in u.open
  {
    assert v.slots[id.slot].id == u.slots[id.slot].id;
  }

  lemma SkipsStep(u: State, v: State, t: State, done: Finished, p: Progress, continuing: bool, after: JobId,
                  outcome: Outcome)
    requires done.id.slot in u.open && p.SkipsOk(u, {done.id.slot})
    requires Dropped(u, v, done.id.slot, done.failed, after) && GrantedNext(v, t, after.slot, continuing, outcome)
    ensures p.With(after, outcome).SkipsOk(t, {done.id.slot})
  {
    var d := done.id.slot;
    var q := p.With(after, outcome);
    forall k | 0 <= k < |p.skips|
      ensures p.skips[k].slot != after.slot && IsSkipped(t, p.skips[k]) && p.skips[k].slot in t.open
    {
      OthersAsBefore(u, v, t, d, done.failed, after, continuing, outcome, p.skips[k]);
    }
    forall i: nat | i in t.open && i != d ensures Names(q.skips, i) {
      if i == after.slot {
        assert q.skips[|p.skips|] == after;
      } else {
        assert Names(p.skips, i);
        var k :| 0 <= k < |p.skips| && p.skips[k].slot == i;
        assert q.skips[k] == p.skips[k];
      }
    }
  }

  lemma RunsStep(u: State, v: State, t: State, done: Finished, p: Progress, continuing: bool, after: JobId,
                 outcome: Outcome)
    requires u.Coherent() && p.RunsOk(u, continuing)
    requires Dropped(u, v, done.id.slot, done.failed, after)
    requires GrantedNext(v, t, after.slot, continuing && p.onward == NO_JOB, outcome)
    ensures p.With(after, outcome).RunsOk(t, continuing) && p.With(after, outcome).After(p)
  {
    var d, going := done.id.slot, continuing && p.onward == NO_JOB;
    forall id | id in p.wakes || (id == p.onward && id != NO_JOB)
      ensures t.Live(id) && t.slots[id.slot].state == Running
              && t.slots[id.slot].owned == u.slots[id.slot].owned && id.slot !in t.open
    {
      assert u.Live(id) && u.slots[id.slot].state == Running;
      assert v.slots[id.slot].id == u.slots[id.slot].id;
      OthersAsBefore(u, v, t, d, done.failed, after, going, outcome, id);
    }
    forall k | 0 <= k < |p.wakes| ensures IsRunning(t, p.wakes[k], false) && p.wakes[k].slot !in t.open {
      assert p.wakes[k] in p.wakes;
    }
  }

  lemma CoversStep(before: State, u: State, v: State, t: State, done: Finished, p: Progress, continuing: bool,
                   after: JobId, outcome: Outcome)
    requires p.Covers(before, u, continuing) && Dropped(u, v, done.id.slot, done.failed, after)
    requires GrantedNext(v, t, after.slot, continuing && p.onward == NO_JOB, outcome)
    ensures p.With(after, outcome).Covers(before, t, continuing)
  {
    var q := p.With(after, outcome);
    forall i: nat | t.Taken(i) && before.slots[i].state == Blocked && t.slots[i].state != Blocked
      ensures if !t.slots[i].owned then t.slots[i].state == Running && t.slots[i].id in q.wakes
              else if t.slots[i].state == Running then q.onward == t.slots[i].id
              else continuing ==> q.onward != NO_JOB
    {
      if i == after.slot {
        assert after in p.wakes + [after];
      } else {
        assert v.slots[i].id == u.slots[i].id && u.Taken(i);
      }
    }
  }

  lemma CoversOn(before: State, u: State, t: State, p: Progress, q: Progress, continuing: bool)
    requires p.Covers(before, u, continuing) && q.Covers(u, t, continuing) && q.After(p) && Advances(before, u)
             && Advances(u, t)
    ensures q.Covers(before, t, continuing)
  {
    forall i: nat | t.Taken(i) && before.slots[i].state == Blocked && t.slots[i].state != Blocked
      ensures if !t.slots[i].owned then t.slots[i].state == Running && t.slots[i].id in q.wakes
              else if t.slots[i].state == Running then q.onward == t.slots[i].id
              else continuing ==> q.onward != NO_JOB
    {
      assert t.slots[i].id == u.slots[i].id;
    }
  }

  /** One more edge released, and what became of the job it led to. */
  lemma EdgeIsReleased(before: State, u: State, v: State, t: State, done: Finished, released: nat, p: Progress,
                       continuing: bool, after: JobId, outcome: Outcome)
    requires Advances(before, u) && Releasing(before, u, done, released) && u.slots[done.id.slot].successors != []
    requires u.Coherent() && done.id.slot in u.open && p.Ok(u, {done.id.slot}, continuing)
    requires Dropped(u, v, done.id.slot, done.failed, after) && p.Covers(before, u, continuing)
    requires GrantedNext(v, t, after.slot, continuing && p.onward == NO_JOB, outcome)
    ensures Advances(before, t) && Releasing(before, t, done, released + 1)
    ensures p.With(after, outcome).Ok(t, {done.id.slot}, continuing) && p.With(after, outcome).After(p)
    ensures p.With(after, outcome).Covers(before, t, continuing)
  {
    CoversStep(before, u, v, t, done, p, continuing, after, outcome);
    var going := continuing && p.onward == NO_JOB;
    ReleasingStep(before, u, v, t, done, released, after, going, outcome);
    SkipsStep(u, v, t, done, p, going, after, outcome);
    RunsStep(u, v, t, done, p, continuing, after, outcome);
  }

  lemma FreedKeepsProgress(s: State, d: nat, p: Progress, continuing: bool)
    requires d < |s.slots| && d in s.open && p.Ok(s, {d}, continuing)
    ensures p.Ok(Freed(s, d), {}, continuing)
  {
    var t := Freed(s, d);
    forall i: nat | i in t.open ensures Names(p.skips, i) { assert i in s.open; }
  }

  ghost predicate Names(ids: seq<JobId>, slot: nat) {
    exists k :: 0 <= k < |ids| && ids[k].slot == slot
  }

  ghost predicate NoneTwice(ids: seq<JobId>) {
    forall i, j | 0 <= i < j < |ids| :: ids[i].slot != ids[j].slot
  }

  ghost predicate OpenAreDone(s: State) {
    forall i: nat {:trigger i in s.open} :: i in s.open ==> i < |s.slots| && s.slots[i].blockers == 0
  }

  lemma AdvancesOn(s: State, t: State, u: State)
    requires Advances(s, t) && Advances(t, u)
    ensures Advances(s, u)
  {
    forall i: nat | i < |s.slots|
      ensures u.slots[i].number == s.slots[i].number && u.slots[i].owned == s.slots[i].owned
      ensures u.slots[i].read == s.slots[i].read && u.slots[i].write == s.slots[i].write
      ensures u.slots[i].generation == s.slots[i].generation
      ensures u.slots[i].id == s.slots[i].id || u.slots[i].id == NO_JOB
      ensures s.slots[i].skip ==> u.slots[i].skip
      ensures s.slots[i].state != Blocked ==> u.slots[i].state == s.slots[i].state
    {
      assert t.slots[i].number == s.slots[i].number;
    }
  }

  /** finish midway: a job that ended is id, or one of those skipped. */
  ghost predicate EndedOk(before: State, s: State, id: JobId, skipped: seq<JobId>, i: nat) {
    i < |s.slots| && before.Taken(i) && !s.Taken(i) ==> i == id.slot || Names(skipped, i)
  }

  /** A skipped job had not run, is marked, and has ended or is still on the
      stack. */
  ghost predicate SkippedOk(before: State, s: State, stack: seq<JobId>, skipped: JobId) {
    && before.Live(skipped) && before.slots[skipped.slot].state == Blocked
    && skipped.slot < |s.slots| && s.slots[skipped.slot].skip
    && (s.Taken(skipped.slot) ==> Names(stack, skipped.slot))
  }

  /** Job y ended without success, and x was ordered after it. */
  ghost predicate Fails(before: State, s: State, id: JobId, failed: bool, y: nat, x: nat) {
    && before.Taken(y) && !s.Taken(y) && (y == id.slot ==> failed)
    && Orders(before.slots[y].successors, |before.slots[y].successors|, x)
  }

  /** x is marked to be skipped exactly if it was, or was ordered after a job that
      has ended without success since, be it skipped. */
  ghost predicate MarkedOk(before: State, s: State, id: JobId, failed: bool, x: nat) {
    x < |before.slots| && x < |s.slots| ==>
      (s.slots[x].skip <==> before.slots[x].skip || exists y: nat :: Fails(before, s, id, failed, y, x))
  }

  /** Job i, if it has not ended, has the edges it had. */
  ghost predicate EdgesStayAt(before: State, s: State, i: nat) {
    i < |before.slots| && s.Taken(i) ==> s.slots[i].successors == before.slots[i].successors
  }

  ghost predicate EdgesStay(before: State, s: State) {
    forall i: nat {:trigger EdgesStayAt(before, s, i)} :: EdgesStayAt(before, s, i)
  }

  /** Every job is marked as it should be, jobs not ended keep their edges, and
      the jobs skipped are those listed. */
  ghost predicate Ending(before: State, s: State, id: JobId, failed: bool, stack: seq<JobId>, skipped: seq<JobId>) {
    && Advances(before, s) && id.slot < |s.slots| && s.slots[id.slot].id == NO_JOB
    && (forall i: nat {:trigger EndedOk(before, s, id, skipped, i)} :: EndedOk(before, s, id, skipped, i))
    && (forall k {:trigger skipped[k]} | 0 <= k < |skipped| :: SkippedOk(before, s, stack, skipped[k]))
    && (forall k {:trigger stack[k]} | 0 <= k < |stack| :: Names(skipped, stack[k].slot))
    && (forall x: nat {:trigger MarkedOk(before, s, id, failed, x)} :: MarkedOk(before, s, id, failed, x))
    && EdgesStay(before, s)
    && (!failed && (forall i: nat | before.Taken(i) :: !before.slots[i].skip) ==> skipped == [])
  }

  lemma SkippedWasBlocked(before: State, s: State, id: JobId)
    requires Advances(before, s) && IsSkipped(s, id)
    ensures before.Live(id) && before.slots[id.slot].state == Blocked
  {
    assert s.slots[id.slot].id == before.slots[id.slot].id;
  }

  lemma EndedStarts(before: State, s: State, id: JobId, failed: bool, p: Progress)
    requires before.Live(id) && Advances(before, s) && EndedOnly(before, s, id.slot) && p.SkipsOk(s, {})
    requires Marks(before.slots, s.slots, id.slot, failed, |before.slots[id.slot].successors|)
    ensures Ending(before, s, id, failed, p.skips, p.skips)
  {
    forall i: nat ensures EndedOk(before, s, id, p.skips, i) && EdgesStayAt(before, s, i) {
      assert i < |s.slots| && i != id.slot ==> s.slots[i].id == before.slots[i].id;
    }
    forall k | 0 <= k < |p.skips| ensures SkippedOk(before, s, p.skips, p.skips[k]) {
      SkippedWasBlocked(before, s, p.skips[k]);
    }
    forall x: nat ensures MarkedOk(before, s, id, failed, x) {
      assert MarkedBy(before.slots, s.slots, id.slot, failed, |before.slots[id.slot].successors|, x);
      OnlyEndedFails(before, s, id, failed, x);
    }
    if !failed && p.skips != [] {
      assert MarkedBy(before.slots, s.slots, id.slot, failed, |before.slots[id.slot].successors|, p.skips[0].slot);
      SkippedWasBlocked(before, s, p.skips[0]);
    }
  }

  /** The first to end is alone in failing others. */
  lemma OnlyEndedFails(before: State, s: State, id: JobId, failed: bool, x: nat)
    requires before.Live(id) && EndedOnly(before, s, id.slot)
    ensures (exists y: nat :: Fails(before, s, id, failed, y, x)) <==>
            failed && Orders(before.slots[id.slot].successors, |before.slots[id.slot].successors|, x)
  {
    forall y: nat | y < |s.slots| && y != id.slot ensures s.Taken(y) <==> before.Taken(y) {
      assert s.slots[y].id == before.slots[y].id;
    }
    if failed && Orders(before.slots[id.slot].successors, |before.slots[id.slot].successors|, x) {
      assert Fails(before, s, id, failed, id.slot, x);
    }
  }

  /** Another that ends, on top of the stack, fails those ordered after it too. */
  lemma OneMoreFails(before: State, u: State, s: State, id: JobId, failed: bool, top: nat, x: nat)
    requires Advances(before, u) && EdgesStayAt(before, u, top) && u.Taken(top) && EndedOnly(u, s, top)
             && top != id.slot
    ensures (exists y: nat :: Fails(before, s, id, failed, y, x)) <==>
            || (exists y: nat :: Fails(before, u, id, failed, y, x))
            || Orders(u.slots[top].successors, |u.slots[top].successors|, x)
  {
    assert before.slots[top].successors == u.slots[top].successors && u.slots[top].id == before.slots[top].id;
    forall y: nat ensures Fails(before, s, id, failed, y, x) <==>
                          Fails(before, u, id, failed, y, x)
                          || (y == top && Orders(u.slots[top].successors, |u.slots[top].successors|, x))
    {
      assert y < |u.slots| && y != top ==> s.slots[y].id == u.slots[y].id;
    }
    if Orders(u.slots[top].successors, |u.slots[top].successors|, x) {
      assert Fails(before, s, id, failed, top, x);
    }
    if y: nat :| Fails(before, u, id, failed, y, x) {
      assert Fails(before, s, id, failed, y, x);
    }
    if y: nat :| Fails(before, s, id, failed, y, x) {
      assert Fails(before, u, id, failed, y, x) || y == top;
    }
  }

  /** Whether failure reaches x: x was ordered after a job that ended, and that is
      the one that failed, or was marked before, or failure reaches it. */
  ghost predicate FailureReaches(before: State, s: State, id: JobId, failed: bool, x: nat)
    decreases if x < |before.slots| then before.slots[x].number else 0
  {
    exists y: nat | y < |before.slots| && Fails(before, s, id, failed, y, x) ::
      && x < |before.slots| && before.slots[y].number < before.slots[x].number
      && (y == id.slot || before.slots[y].skip || FailureReaches(before, s, id, failed, y))
  }

  /** A finish marks exactly the jobs that failure reaches: skipped jobs pass it
      on, and so on. */
  lemma {:induction false} FailureSpreads(before: State, s: State, id: JobId, failed: bool, x: nat)
    requires before.Linked() && |s.slots| == |before.slots| && before.Taken(x)
    requires forall i: nat {:trigger MarkedOk(before, s, id, failed, i)} :: MarkedOk(before, s, id, failed, i)
    requires forall i: nat {:trigger s.Taken(i)} | before.Taken(i) && !s.Taken(i) && i != id.slot :: s.slots[i].skip
    ensures s.slots[x].skip <==> before.slots[x].skip || FailureReaches(before, s, id, failed, x)
    decreases before.slots[x].number
  {
    assert MarkedOk(before, s, id, failed, x);
    forall y: nat | Fails(before, s, id, failed, y, x)
      ensures before.slots[y].number < before.slots[x].number
      ensures y == id.slot || before.slots[y].skip || FailureReaches(before, s, id, failed, y)
    {
      FailsOlder(before, s, id, failed, y, x);
      assert !s.Taken(y);
      if y != id.slot {
        FailureSpreads(before, s, id, failed, y);
      }
    }
  }

  lemma FailsOlder(before: State, s: State, id: JobId, failed: bool, y: nat, x: nat)
    requires before.Linked() && Fails(before, s, id, failed, y, x)
    ensures y < |before.slots| && x < |before.slots| && before.slots[y].number < before.slots[x].number
  {
    var k :| 0 <= k < |before.slots[y].successors| && before.slots[y].successors[k].id.slot == x;
    assert before.SuccessorOk(y, k) && before.EdgeOk(y, x);
    TargetAt(before.slots[y].successors, k);
    assert before.Waits(x, y);
  }

  /** A job that has not ended waits for just what it did that has not either. */
  lemma WaitsForTheRest(before: State, s: State, x: nat, y: nat)
    requires before.Linked() && s.Linked() && Advances(before, s) && EdgesStay(before, s) && before.Taken(x)
             && s.Taken(x)
    ensures s.slots[x].preds[y] == if s.Taken(y) then before.slots[x].preds[y] else 0
  {
    assert before.EdgeOk(y, x) && s.EdgeOk(y, x) && EdgesStayAt(before, s, y);
    assert before.SlotOk(x) && s.SlotOk(x) && s.SlotOk(y);
    assert s.slots[x].preds[y] > 0 ==> s.Waits(x, y);
    assert before.slots[x].preds[y] > 0 ==> before.Waits(x, y);
  }

  lemma RestIsOk(s: State, p: Progress, continuing: bool)
    requires p.skips != [] && p.Ok(s, {}, continuing)
    ensures var top := p.skips[|p.skips| - 1]; p.(skips := p.skips[..|p.skips| - 1]).Ok(s, {top.slot}, continuing)
  {
    var top := p.skips[|p.skips| - 1];
    var rest := p.skips[..|p.skips| - 1];
    forall i: nat | i in s.open && i != top.slot ensures Names(rest, i) {
      assert Names(p.skips, i);
      var k :| 0 <= k < |p.skips| && p.skips[k].slot == i;
      assert rest[k] == p.skips[k];
    }
  }

  lemma NamesMore(a: seq<JobId>, b: seq<JobId>, slot: nat)
    ensures Names(a + b, slot) <==> Names(a, slot) || Names(b, slot)
  {
    if Names(a, slot) {
      var k :| 0 <= k < |a| && a[k].slot == slot;
      assert (a + b)[k].slot == slot;
    }
    if Names(b, slot) {
      var k :| 0 <= k < |b| && b[k].slot == slot;
      assert (a + b)[|a| + k].slot == slot;
    }
  }

  lemma NamesItself(ids: seq<JobId>, k: nat)
    requires k < |ids|
    ensures Names(ids, ids[k].slot)
  {
  }

  /** The stack's top ended, leaving added on the stack in its place. */
  lemma EndingStep(before: State, u: State, s: State, id: JobId, failed: bool, rest: seq<JobId>, top: JobId,
                   skipped: seq<JobId>, added: seq<JobId>)
    requires Ending(before, u, id, failed, rest + [top], skipped)
    requires Advances(u, s) && EndedOnly(u, s, top.slot) && u.Taken(top.slot)
    requires Marks(u.slots, s.slots, top.slot, true, |u.slots[top.slot].successors|)
    requires forall k | 0 <= k < |added| :: IsSkipped(s, added[k])
    ensures Ending(before, s, id, failed, rest + added, skipped + added)
  {
    AdvancesOn(before, u, s);
    assert (rest + [top])[|rest|] == top;
    forall i: nat ensures EndedOk(before, s, id, skipped + added, i) {
      assert EndedOk(before, u, id, skipped, i);
      assert i < |s.slots| && i != top.slot ==> s.slots[i].id == u.slots[i].id;
      NamesMore(skipped, added, i);
    }
    forall k | 0 <= k < |skipped + added| ensures SkippedOk(before, s, rest + added, (skipped + added)[k]) {
      if k < |skipped| {
        SkippedStays(before, u, s, rest, top, added, skipped[k]);
      } else {
        var o := added[k - |skipped|];
        SkippedWasBlocked(before, s, o);
        NamesItself(added, k - |skipped|);
        NamesMore(rest, added, o.slot);
      }
    }
    forall k | 0 <= k < |rest + added| ensures Names(skipped + added, (rest + added)[k].slot) {
      NamesMore(skipped, added, (rest + added)[k].slot);
      if k < |rest| {
        assert (rest + [top])[k] == rest[k];
      } else {
        NamesItself(added, k - |rest|);
      }
    }
    forall x: nat ensures MarkedOk(before, s, id, failed, x) {
      assert MarkedOk(before, u, id, failed, x) && EdgesStayAt(before, u, top.slot);
      assert MarkedBy(u.slots, s.slots, top.slot, true, |u.slots[top.slot].successors|, x);
      OneMoreFails(before, u, s, id, failed, top.slot, x);
    }
    forall i: nat ensures EdgesStayAt(before, s, i) {
      assert EdgesStayAt(before, u, i);
      assert i < |u.slots| && i != top.slot ==> s.slots[i].id == u.slots[i].id;
    }
  }

  lemma SkippedStays(before: State, u: State, s: State, rest: seq<JobId>, top: JobId, added: seq<JobId>, o: JobId)
    requires SkippedOk(before, u, rest + [top], o) && EndedOnly(u, s, top.slot) && Advances(u, s)
    ensures SkippedOk(before, s, rest + added, o)
  {
    NamesMore(rest, [top], o.slot);
    NamesMore(rest, added, o.slot);
    if o.slot < |s.slots| && o.slot != top.slot {
      assert s.slots[o.slot].id == u.slots[o.slot].id;
    }
  }
}
