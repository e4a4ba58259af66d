/** The atomic steps of the lock combiner, and that each keeps its state valid
    (kernel/combiner.go). A step is checked for where goroutines are and who
    holds the mutex, for which queue or list has each job, and for what the pass
    under way has granted. */
module KernelCombiningSteps {
  import opened Basics
  import opened KernelLocks
  import opened KernelGranting
  import opened KernelCombining

  ghost function Moved(s: Combiner, g: nat, spot: Spot): Combiner {
    s.(spots := s.spots[g := spot])
  }

  /** What a goroutine that goes from one spot to another must still see. */
  ghost predicate StillSeen(s: Combiner, t: Combiner, g: nat) {
    && t.spots == s.spots[g := t.At(g)]
    && (t.releases != [] ==>
          t.At(g).WillSeeReleases()
              || (s.releases != []
                    && (!s.At(g).WillSeeReleases() || exists o: nat :: o != g && s.At(o).WillSeeReleases())))
    && (t.arrivals != [] ==>
          t.At(g).WillSeeArrivals()
              || (s.arrivals != []
                    && (!s.At(g).WillSeeArrivals() || exists o: nat :: o != g && s.At(o).WillSeeArrivals())))
  }

  /** Who holds the mutex after g goes from one spot to another. */
  ghost predicate MutexPassed(s: Combiner, t: Combiner, g: nat) {
    t.holder == if t.At(g).Combines() then Some(g) else if s.At(g).Combines() then None else s.holder
  }

  lemma SpotsStayOk(s: Combiner, t: Combiner, g: nat)
    requires s.SpotsOk() && StillSeen(s, t, g) && MutexPassed(s, t, g)
    requires t.At(g).Combines() ==> s.At(g).Combines() || s.holder == None
    ensures t.SpotsOk()
  {
    assert s.MutexOk(g);
    forall u: nat ensures t.MutexOk(u) { assert s.MutexOk(u); }
    if t.releases != [] && !t.At(g).WillSeeReleases() {
      var o: nat :| o != g && s.At(o).WillSeeReleases();
      assert t.At(o).WillSeeReleases();
    }
    if t.arrivals != [] && !t.At(g).WillSeeArrivals() {
      var o: nat :| o != g && s.At(o).WillSeeArrivals();
      assert t.At(o).WillSeeArrivals();
    }
  }

  /** A step that changes only where goroutines are, and the mutex. */
  ghost predicate OnlySpots(s: Combiner, t: Combiner) {
    t == s.(spots := t.spots, holder := t.holder)
  }

  lemma SameTickets(s: Combiner, t: Combiner)
    requires s.ListsOk() && t.List() == s.List() && t.tickets == s.tickets
    ensures forall k: nat {:trigger t.TicketOk(k)} :: t.TicketOk(k)
  {
    forall k: nat ensures t.TicketOk(k) { assert s.TicketOk(k); }
  }

  lemma OnlySpotsKeepsStages(s: Combiner, t: Combiner)
    requires s.StagesOk() && OnlySpots(s, t)
    ensures t.StagesOk()
  {
    SameTickets(s, t);
    forall j: nat ensures t.StageOk(j) { assert s.StageOk(j); }
  }

  /** A step of a goroutine that does not hold the mutex leaves the grants as they
      are; so does one that takes or gives up the mutex between passes. */
  lemma OnlySpotsKeepsGrants(s: Combiner, t: Combiner, g: nat)
    requires s.Valid() && Known(t.table, t.kept) && t.spots == s.spots[g := t.At(g)]
             && t.holder == (if t.At(g).Combines() then Some(g) else if s.At(g).Combines() then None else s.holder)
    requires t.table == s.table && t.held == s.held && t.kept == s.kept && t.rest == s.rest && t.from == s.from
             && t.done == s.done
    requires s.At(g) != AtPass && t.At(g) != AtPass && s.At(g) != AtReleases && s.At(g) != AtArrivals
    requires t.At(g).Combines() ==> s.holder == None
    ensures t.GrantsOk()
  {
    assert s.MutexOk(g);
    if s.holder.Some? {
      assert s.MutexOk(s.holder.value);
    }
  }

  /** A job asks for its locks: its request is queued, and g goes on to combine. */
  ghost predicate CanPushArrival(s: Combiner, g: nat, r: Request) {
    s.At(g) == Out && r.job !in s.stages && r.task < |s.table| && r.ticket == s.tickets
  }

  ghost function PushArrival(s: Combiner, g: nat, r: Request): Combiner {
    Moved(s, g, Trying).(arrivals := s.arrivals + [r], stages := s.stages[r.job := Arrived], tickets := s.tickets + 1)
  }

  lemma PushArrivalKeepsStages(s: Combiner, g: nat, r: Request)
    requires s.StagesOk() && CanPushArrival(s, g, r)
    ensures PushArrival(s, g, r).StagesOk()
  {
    var t := PushArrival(s, g, r);
    OneMore(s.arrivals, r);
    assert s.StageOk(r.job);
    forall job: nat ensures t.StageOk(job) { assert s.StageOk(job); }
    assert t.List() == s.List() + [r];
    forall k: nat ensures t.TicketOk(k) { assert s.TicketOk(k); }
    forall k: nat | k < |s.List()| ensures s.List()[k].ticket < r.ticket { assert s.TicketOk(k); }
    AgedOneMore(s.List(), r);
  }

  lemma PushArrivalKeepsValid(s: Combiner, g: nat, r: Request)
    requires s.Valid() && CanPushArrival(s, g, r)
    ensures PushArrival(s, g, r).Valid()
  {
    var t := PushArrival(s, g, r);
    PushArrivalKeepsStages(s, g, r);
    assert s.MutexOk(g);
    SpotsStayOk(s, t, g);
    OnlySpotsKeepsGrants(s, t, g);
  }

  /** A finished job's release is queued, and g goes on to combine. */
  ghost predicate CanPushRelease(s: Combiner, g: nat, job: nat) {
    s.At(g) == Out && s.Is(job, Holding)
  }

  ghost function PushRelease(s: Combiner, g: nat, job: nat): Combiner {
    Moved(s, g, Trying).(releases := s.releases + [job], stages := s.stages[job := Releasing])
  }

  lemma PushReleaseKeepsValid(s: Combiner, g: nat, job: nat)
    requires s.Valid() && CanPushRelease(s, g, job)
    ensures PushRelease(s, g, job).Valid()
  {
    var t := PushRelease(s, g, job);
    assert s.MutexOk(g) && s.StageOk(job);
    SameTickets(s, t);
    forall j: nat ensures t.StageOk(j) { assert s.StageOk(j); }
    SpotsStayOk(s, t, g);
    OnlySpotsKeepsGrants(s, t, g);
  }

  /** Takes the mutex, or leaves the work to the goroutine that has it. */
  ghost function TryLock(s: Combiner, g: nat): Combiner {
    if s.holder == None then Moved(s, g, AtReleases).(holder := Some(g)) else Moved(s, g, Out)
  }

  lemma TryLockKeepsValid(s: Combiner, g: nat)
    requires s.Valid() && s.At(g) == Trying
    ensures TryLock(s, g).Valid()
  {
    var t := TryLock(s, g);
    if s.holder.Some? {
      assert s.MutexOk(s.holder.value);
      assert s.At(s.holder.value).WillSeeReleases() && s.At(s.holder.value).WillSeeArrivals();
    }
    SpotsStayOk(s, t, g);
    OnlySpotsKeepsStages(s, t);
    OnlySpotsKeepsGrants(s, t, g);
  }

  /** Drains the releases, and unlocks what those jobs held. */
  ghost function DrainReleases(s: Combiner, g: nat): Combiner {
    var released := set job | job in s.releases;
    Moved(s, g, AtArrivals).(releases := [], held := s.held - released, stages := s.stages - released)
  }

  lemma DrainReleasesKeepsValid(s: Combiner, g: nat)
    requires s.Valid() && s.At(g) == AtReleases
    ensures DrainReleases(s, g).Valid()
  {
    var t := DrainReleases(s, g);
    assert s.MutexOk(g);
    SameTickets(s, t);
    forall j: nat ensures t.StageOk(j) { assert s.StageOk(j); }
    SpotsStayOk(s, t, g);
  }

  /** Drains the arrivals to the end of the waiting jobs, and begins a pass. */
  ghost function DrainArrivals(s: Combiner, g: nat): Combiner {
    Moved(s, g, AtPass).(arrivals := [], rest := s.kept + s.arrivals, kept := [], from := s.held, done := [],
                         stages := map j | j in s.stages :: if s.stages[j] == Arrived then Waiting else s.stages[j])
  }

  lemma DrainArrivalsKeepsLists(s: Combiner, g: nat)
    requires s.StagesOk() && s.rest == []
    ensures DrainArrivals(s, g).ListsOk() && Jobs(s.kept + s.arrivals) == Jobs(s.kept) + Jobs(s.arrivals)
  {
    var t := DrainArrivals(s, g);
    forall j: nat ensures j !in Jobs(s.kept) || j !in Jobs(s.arrivals) { assert s.StageOk(j); }
    JobsConcat(s.kept, s.arrivals);
    assert t.List() == s.List();
    SameTickets(s, t);
  }

  lemma DrainArrivalsKeepsStages(s: Combiner, g: nat)
    requires s.StagesOk() && s.rest == []
    ensures DrainArrivals(s, g).StagesOk()
  {
    var t := DrainArrivals(s, g);
    DrainArrivalsKeepsLists(s, g);
    forall j: nat ensures t.StageOk(j) { assert s.StageOk(j); }
  }

  lemma DrainArrivalsKeepsValid(s: Combiner, g: nat)
    requires s.Valid() && s.At(g) == AtArrivals
    ensures DrainArrivals(s, g).Valid()
  {
    var t := DrainArrivals(s, g);
    assert s.MutexOk(g);
    DrainArrivalsKeepsStages(s, g);
    SpotsStayOk(s, t, g);
  }

  /** Whether g, in a pass, has another job to offer its locks. */
  ghost predicate CanOffer(s: Combiner, g: nat) {
    s.At(g) == AtPass && s.rest != [] && Known(s.table, s.kept) && s.rest[0].task < |s.table|
  }

  ghost predicate CanGrant(s: Combiner, g: nat) {
    CanOffer(s, g) && MayGrant(s.table, s.held, s.kept, s.rest[0])
  }

  ghost predicate CanKeep(s: Combiner, g: nat) {
    CanOffer(s, g) && !MayGrant(s.table, s.held, s.kept, s.rest[0])
  }

  /** Locks the locks of the next job, which are free, and hands it to the
      runner. */
  ghost function Grant(s: Combiner, g: nat): Combiner
    requires CanGrant(s, g)
  {
    var r := s.rest[0];
    s.(rest := s.rest[1..], done := s.done + [r], held := s.held[r.job := s.table[r.task]],
        stages := s.stages[r.job := Holding])
  }

  /** Keeps the next job waiting, what it writes reserved. */
  ghost function Keep(s: Combiner, g: nat): Combiner
    requires CanKeep(s, g)
  {
    var r := s.rest[0];
    s.(rest := s.rest[1..], done := s.done + [r], kept := s.kept + [r])
  }

  /** The next job has not been come to in this pass, and holds no locks. */
  lemma NextIsUnasked(s: Combiner, g: nat)
    requires s.StagesOk() && CanOffer(s, g) && Known(s.table, s.done) && Unasked(s.from, s.done)
    requires s.held == Granting(s.table, s.from, s.done).held && s.kept == Granting(s.table, s.from, s.done).waiting
    ensures Unasked(s.from, s.done + [s.rest[0]])
  {
    var r := s.rest[0];
    assert s.StageOk(r.job);
    JobsFirst(s.rest);
    PassDivides(s.table, s.from, s.done);
    OneMore(s.done, r);
  }

  lemma PassStep(table: Table, from: map<nat, TaskLocks>, done: seq<Request>, r: Request, o: Outcome)
    requires Known(table, done) && r.task < |table| && o == Granting(table, from, done)
    ensures Known(table, done + [r])
    ensures MayGrant(table, o.held, o.waiting, r) ==>
              Granting(table, from, done + [r]) == Outcome(o.held[r.job := table[r.task]], o.granted + [r], o.waiting)
    ensures !MayGrant(table, o.held, o.waiting, r) ==>
              Granting(table, from, done + [r]) == Outcome(o.held, o.granted, o.waiting + [r])
  {
    assert (done + [r])[..|done|] == done;
  }

  lemma GrantKeepsGrants(s: Combiner, g: nat)
    requires s.StagesOk() && s.GrantsOk() && s.holder == Some(g) && CanGrant(s, g)
    ensures Grant(s, g).GrantsOk()
  {
    NextIsUnasked(s, g);
    PassStep(s.table, s.from, s.done, s.rest[0], Granting(s.table, s.from, s.done));
    GrantKeepsExclusive(s.table, s.held, s.rest[0], s.kept);
  }

  lemma KeepKeepsGrants(s: Combiner, g: nat)
    requires s.StagesOk() && s.GrantsOk() && s.holder == Some(g) && CanKeep(s, g)
    ensures Known(s.table, Keep(s, g).kept) && Keep(s, g).GrantsOk()
  {
    NextIsUnasked(s, g);
    PassStep(s.table, s.from, s.done, s.rest[0], Granting(s.table, s.from, s.done));
  }

  lemma GrantKeepsExclusive(table: Table, held: map<nat, TaskLocks>, r: Request, kept: seq<Request>)
    requires Exclusive(held) && Known(table, kept) && r.task < |table| && MayGrant(table, held, kept, r)
    ensures Exclusive(held[r.job := table[r.task]])
  {
    var after := held[r.job := table[r.task]];
    forall a, b | a in after && b in after && a != b ensures !Conflict(after[a], after[b]) {
      ConflictIsMutual(after[a], after[b]);
    }
  }

  lemma GrantKeepsStages(s: Combiner, g: nat)
    requires s.StagesOk() && CanGrant(s, g)
    ensures Grant(s, g).StagesOk()
  {
    var t, r, n := Grant(s, g), s.rest[0], |s.kept|;
    JobsFirst(s.rest);
    forall k: nat ensures n <= k < |t.List()| ==> t.List()[k] == s.List()[k + 1] { }
    forall i: nat, j: nat ensures InOrder(t.List(), i, j) {
      assert InOrder(s.List(), if i < n then i else i + 1, if j < n then j else j + 1);
    }
    forall k: nat ensures t.TicketOk(k) { assert s.TicketOk(if k < n then k else k + 1); }
    forall j: nat ensures t.StageOk(j) { assert s.StageOk(j); }
  }

  lemma KeepKeepsStages(s: Combiner, g: nat)
    requires s.StagesOk() && CanKeep(s, g)
    ensures Keep(s, g).StagesOk()
  {
    var t, r := Keep(s, g), s.rest[0];
    JobsFirst(s.rest);
    OneMore(s.kept, r);
    assert t.List() == s.List();
    SameTickets(s, t);
    forall j: nat ensures t.StageOk(j) { assert s.StageOk(j); }
  }

  lemma GrantKeepsValid(s: Combiner, g: nat)
    requires s.Valid() && CanGrant(s, g)
    ensures Grant(s, g).Valid()
  {
    assert s.MutexOk(g);
    GrantKeepsGrants(s, g);
    GrantKeepsStages(s, g);
    SameSpots(s, Grant(s, g));
  }

  lemma KeepKeepsValid(s: Combiner, g: nat)
    requires s.Valid() && CanKeep(s, g)
    ensures Keep(s, g).Valid()
  {
    assert s.MutexOk(g);
    KeepKeepsGrants(s, g);
    KeepKeepsStages(s, g);
    SameSpots(s, Keep(s, g));
  }

  lemma SameSpots(s: Combiner, t: Combiner)
    requires s.SpotsOk() && t.spots == s.spots && t.holder == s.holder && t.releases == s.releases
             && t.arrivals == s.arrivals
    ensures t.SpotsOk()
  {
    forall u: nat ensures t.MutexOk(u) { assert s.MutexOk(u); }
    if t.releases != [] {
      var o: nat :| s.At(o).WillSeeReleases();
      assert t.At(o).WillSeeReleases();
    }
    if t.arrivals != [] {
      var o: nat :| s.At(o).WillSeeArrivals();
      assert t.At(o).WillSeeArrivals();
    }
  }

  /** While a job waits, no job that arrived after it is granted a resource it
      writes. */
  lemma GrantsInOrder(s: Combiner, g: nat, a: Request)
    requires s.Valid() && CanGrant(s, g)
    requires a in s.kept || a in s.rest || a in s.arrivals
    requires a.ticket < s.rest[0].ticket
    ensures a.task < |s.table| && !Bars(s.table[a.task], s.table[s.rest[0].task])
  {
    if a in s.rest || a in s.arrivals {
      NextIsOldestOfTheRest(s, a);
    }
    var k :| 0 <= k < |s.kept| && s.kept[k] == a;
  }

  lemma NextIsOldestOfTheRest(s: Combiner, a: Request)
    requires s.ListsOk() && s.rest != [] && (a in s.rest || a in s.arrivals)
    ensures s.rest[0].ticket <= a.ticket
  {
    var list := s.List();
    assert list[|s.kept|] == s.rest[0];
    if a in s.rest {
      var k :| 0 <= k < |s.rest| && s.rest[k] == a;
      assert list[|s.kept| + k] == a && InOrder(list, |s.kept|, |s.kept| + k);
    } else {
      var k :| 0 <= k < |s.arrivals| && s.arrivals[k] == a;
      assert list[|s.kept| + |s.rest| + k] == a && InOrder(list, |s.kept|, |s.kept| + |s.rest| + k);
    }
  }

  /** Ends the pass. */
  ghost function EndPass(s: Combiner, g: nat): Combiner {
    Moved(s, g, AtUnlock)
  }

  lemma EndPassKeepsValid(s: Combiner, g: nat)
    requires s.Valid() && s.At(g) == AtPass && s.rest == []
    ensures EndPass(s, g).Valid()
  {
    var t := EndPass(s, g);
    assert s.MutexOk(g);
    PassSettles(s);
    SpotsStayOk(s, t, g);
    OnlySpotsKeepsStages(s, t);
  }

  lemma PassSettles(s: Combiner)
    requires s.StagesOk() && s.GrantsOk() && s.Passing()
    ensures s.Settled()
  {
    forall k: nat | k < |s.kept| ensures !MayGrant(s.table, s.held, s.kept[..k], s.kept[k]) {
      NoneLeftToGrant(s.table, s.from, s.done, k);
    }
  }

  /** Gives the mutex up. */
  ghost function Unlock(s: Combiner, g: nat): Combiner {
    Moved(s, g, CheckingReleases).(holder := None)
  }

  lemma UnlockKeepsValid(s: Combiner, g: nat)
    requires s.Valid() && s.At(g) == AtUnlock
    ensures Unlock(s, g).Valid()
  {
    var t := Unlock(s, g);
    assert s.MutexOk(g);
    SpotsStayOk(s, t, g);
    OnlySpotsKeepsStages(s, t);
    OnlySpotsKeepsGrants(s, t, g);
  }

  /** Looks again for releases. */
  ghost function CheckReleases(s: Combiner, g: nat): Combiner {
    Moved(s, g, if s.releases == [] then CheckingArrivals else Trying)
  }

  lemma CheckReleasesKeepsValid(s: Combiner, g: nat)
    requires s.Valid() && s.At(g) == CheckingReleases
    ensures CheckReleases(s, g).Valid()
  {
    var t := CheckReleases(s, g);
    SpotsStayOk(s, t, g);
    OnlySpotsKeepsStages(s, t);
    OnlySpotsKeepsGrants(s, t, g);
  }

  /** Looks again for arrivals, and leaves if there are none. */
  ghost function CheckArrivals(s: Combiner, g: nat): Combiner {
    Moved(s, g, if s.arrivals == [] then Out else Trying)
  }

  lemma CheckArrivalsKeepsValid(s: Combiner, g: nat)
    requires s.Valid() && s.At(g) == CheckingArrivals
    ensures CheckArrivals(s, g).Valid()
  {
    var t := CheckArrivals(s, g);
    SpotsStayOk(s, t, g);
    OnlySpotsKeepsStages(s, t);
    OnlySpotsKeepsGrants(s, t, g);
  }
}
