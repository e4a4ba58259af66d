/** The lock combiner as interleaved atomic steps (kernel/combiner.go): whichever
    goroutine gets the mutex drains the queues and grants, and looks again once
    it gave it up. */
module KernelCombining {
  import opened Basics
  import opened KernelLocks
  import opened KernelGranting

  /** Where a goroutine is in combine. The four from AtReleases to AtUnlock hold
      the mutex. */
  datatype Spot = Out | Trying | AtReleases | AtArrivals | AtPass | AtUnlock | CheckingReleases | CheckingArrivals {
    predicate Combines() {
      AtReleases? || AtArrivals? || AtPass? || AtUnlock?
    }

    /** Whether a goroutine there will still find a release just pushed. */
    predicate WillSeeReleases() {
      Trying? || Combines() || CheckingReleases?
    }

    predicate WillSeeArrivals() {
      WillSeeReleases() || CheckingArrivals?
    }
  }

  /** Where a job is with the combiner. */
  datatype Stage = Arrived | Waiting | Holding | Releasing

  /** kept and rest are the list of waiting jobs: a pass has offered those kept
      their locks, and has yet to come to rest. from and done say what the pass
      began with, and which requests it has come to. */
  datatype Combiner = Combiner(
    table: Table, arrivals: seq<Request>, releases: seq<nat>, held: map<nat, TaskLocks>, kept: seq<Request>,
        rest: seq<Request>,
    holder: Option<nat>, spots: map<nat, Spot>, stages: map<nat, Stage>, tickets: nat,
    from: map<nat, TaskLocks>, done: seq<Request>)
  {
    ghost function At(g: nat): Spot {
      if g in spots then spots[g] else Out
    }

    ghost predicate Is(job: nat, stage: Stage) {
      job in stages && stages[job] == stage
    }

    /** The queues and lists hold each job just as its stage says. */
    ghost predicate StageOk(job: nat) {
      && (job in Jobs(arrivals) <==> Is(job, Arrived))
      && (job in Jobs(kept) || job in Jobs(rest) <==> Is(job, Waiting))
      && (job in held <==> Is(job, Holding) || Is(job, Releasing))
      && (job in releases <==> Is(job, Releasing))
    }

    /** Every job asked for and not granted, in the order they arrived. */
    ghost function List(): seq<Request> {
      kept + rest + arrivals
    }

    ghost predicate TicketOk(k: nat) {
      k < |List()| ==> List()[k].ticket < tickets
    }

    ghost predicate ListsOk() {
      && Known(table, arrivals) && Known(table, kept) && Known(table, rest)
      && NoneTwice(arrivals) && NoneTwice(kept) && NoneTwice(rest) && Jobs(kept) !! Jobs(rest)
      && Aged(List()) && (forall k: nat {:trigger TicketOk(k)} :: TicketOk(k))
    }

    /** Only one goroutine holds the mutex. */
    ghost predicate MutexOk(g: nat) {
      At(g).Combines() <==> holder == Some(g)
    }

    ghost predicate Passing() {
      holder.Some? && At(holder.value) == AtPass
    }

    /** Midway through a pass the held locks and the jobs kept are what granting
        the requests so far comes to. */
    ghost predicate PassOk() {
      if Passing() then
        && Known(table, done) && Unasked(from, done)
        && held == Granting(table, from, done).held && kept == Granting(table, from, done).waiting
      else rest == []
    }

    /** Between passes none of the jobs waiting could be granted. */
    ghost predicate Settled()
      requires Known(table, kept)
    {
      forall k: nat {:trigger kept[..k]} | k < |kept| :: !MayGrant(table, held, kept[..k], kept[k])
    }

    ghost predicate SettledOk()
      requires Known(table, kept)
    {
      holder == None || At(holder.value) == AtUnlock ==> Settled()
    }

    /** A request queued is seen by someone. */
    ghost predicate SeenOk() {
      && (releases != [] ==> exists g: nat :: At(g).WillSeeReleases())
      && (arrivals != [] ==> exists g: nat :: At(g).WillSeeArrivals())
    }

    ghost predicate SpotsOk() {
      SeenOk() && forall g: nat {:trigger MutexOk(g)} :: MutexOk(g)
    }

    ghost predicate StagesOk() {
      ListsOk() && forall job: nat {:trigger StageOk(job)} :: StageOk(job)
    }

    ghost predicate GrantsOk()
      requires Known(table, kept)
    {
      PassOk() && SettledOk() && Exclusive(held)
    }

    ghost predicate Valid() {
      SpotsOk() && StagesOk() && GrantsOk()
    }
  }

  /** No request is lost: while one is queued, some goroutine is yet to try the
      mutex, holds it, or is yet to look again. */
  lemma NoRequestIsLost(s: Combiner) returns (g: nat)
    requires s.Valid() && (s.arrivals != [] || s.releases != [])
    ensures s.At(g) != Out
  {
    if s.releases != [] {
      g :| s.At(g).WillSeeReleases();
    } else {
      g :| s.At(g).WillSeeArrivals();
    }
  }

  /** Once every goroutine has left combine, both queues are empty, no job
      waiting could be granted, and the oldest waits for one that holds locks. */
  lemma QuietMeansSettled(s: Combiner)
    requires s.Valid() && forall g: nat :: s.At(g) == Out
    ensures s.arrivals == [] && s.releases == [] && s.rest == [] && s.Settled()
    ensures forall k: nat | k < |s.kept| :: HasReason(s.table, s.held, s.kept, k)
    ensures s.kept != [] ==>
            exists job :: job in s.held && s.Is(job, Holding) && Conflict(s.held[job], s.table[s.kept[0].task])
  {
    var g := if s.holder.Some? then s.holder.value else 0;
    assert s.MutexOk(g) && s.holder == None;
    forall k: nat | k < |s.kept| ensures HasReason(s.table, s.held, s.kept, k) {
      assert !MayGrant(s.table, s.held, s.kept[..k], s.kept[k]);
      BlockedHasReason(s.table, s.held, s.kept, k);
    }
    if s.kept != [] {
      assert s.kept[..0] == [];
      assert !MayGrant(s.table, s.held, [], s.kept[0]);
      var job :| job in s.held && Conflict(s.held[job], s.table[s.kept[0].task]);
      assert s.StageOk(job);
    }
  }

  /** No two jobs that hold locks, running or finished and not unlocked yet,
      hold conflicting ones. */
  lemma HoldersNeverConflict(s: Combiner, a: nat, b: nat)
    requires s.Valid() && a != b && (s.Is(a, Holding) || s.Is(a, Releasing)) && (s.Is(b, Holding) || s.Is(b, Releasing))
    ensures a in s.held && b in s.held && !Conflict(s.held[a], s.held[b])
  {
    assert s.StageOk(a) && s.StageOk(b);
  }

  lemma {:induction false} JobsConcat(a: seq<Request>, b: seq<Request>)
    ensures Jobs(a + b) == Jobs(a) + Jobs(b)
    ensures NoneTwice(a + b) <==> NoneTwice(a) && NoneTwice(b) && Jobs(a) !! Jobs(b)
  {
    if b == [] {
      assert a + b == a;
    } else {
      var front, last := b[..|b| - 1], b[|b| - 1];
      JobsConcat(a, front);
      assert a + b == (a + front) + [last] && front + [last] == b;
      OneMore(a + front, last);
      OneMore(front, last);
    }
  }

  lemma JobsFirst(a: seq<Request>)
    requires a != []
    ensures Jobs(a) == {a[0].job} + Jobs(a[1..])
    ensures NoneTwice(a) <==> NoneTwice(a[1..]) && a[0].job !in Jobs(a[1..])
  {
    assert a == [a[0]] + a[1..] && [a[0]][..0] == [];
    JobsConcat([a[0]], a[1..]);
    assert Jobs([a[0]]) == {a[0].job};
  }
}
