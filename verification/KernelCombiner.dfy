/** The lock combiner's pass over the waiting jobs, on its real masks and list
    (kernel/combiner.go). */
module KernelCombiner {
  import opened KernelLocks
  import opened KernelGranting

  class LockCombiner {
    const table: Table
    const locks: LockState
    /** Every arrived job whose locks are not free yet, oldest first. */
    var waiting: seq<Request>

    ghost predicate Valid()
      reads this, locks
    {
      && locks.Valid() && TableOk(table, |locks.s.readers|)
      && Known(table, waiting) && Unasked(locks.held, waiting) && Aged(waiting)
    }

    constructor (table: Table, resources: nat)
      requires TableOk(table, resources)
      ensures Valid() && fresh(locks) && locks.held == map[] && waiting == [] && this.table == table
    {
      this.table := table;
      locks := new LockState(resources);
      waiting := [];
    }

    /** Unlocks the locks of every release drained: released is their tasks, and
        jobs whose they were. */
    method UnlockAll(released: seq<nat>, ghost jobs: seq<nat>)
      requires locks.Valid() && TableOk(table, |locks.s.readers|) && |jobs| == |released|
      requires forall k | 0 <= k < |jobs| ::
               jobs[k] in locks.held && released[k] < |table| && locks.held[jobs[k]] == table[released[k]]
      requires forall j, k | 0 <= j < k < |jobs| :: jobs[j] != jobs[k]
      modifies locks
      ensures locks.Valid() && |locks.s.readers| == |old(locks.s).readers|
      ensures locks.held == old(locks.held) - set k | 0 <= k < |jobs| :: jobs[k]
    {
      for i := 0 to |released|
        invariant locks.Valid() && |locks.s.readers| == |old(locks.s).readers|
        invariant locks.held == old(locks.held) - set k | 0 <= k < i :: jobs[k]
      {
        locks.Unlock(table[released[i]], jobs[i]);
      }
    }

    /** Locks request's locks if they are free, and otherwise reserves what it
        writes. ahead is the jobs kept waiting before it. */
    method Offer(request: Request, ghost ahead: seq<Request>) returns (free: bool)
      requires locks.Valid() && TableOk(table, |locks.s.readers|) && ReservedFor(table, locks.s, ahead)
      requires request.task < |table| && request.job !in locks.held
      modifies locks
      ensures locks.Valid() && |locks.s.readers| == |old(locks.s).readers|
      ensures free == MayGrant(table, old(locks.held), ahead, request)
      ensures locks.held == if free then old(locks.held)[request.job := table[request.task]] else old(locks.held)
      ensures ReservedFor(table, locks.s, if free then ahead else ahead + [request])
    {
      free := locks.CanLock(table[request.task]);
      CanLockIsMayGrant(table, locks.s, locks.held, ahead, request);
      ghost var before := locks.s;
      if free {
        locks.Lock(table[request.task], request.job);
      } else {
        locks.Reserve(table[request.task]);
        ReservedForOneMore(table, before, locks.s, ahead, request);
      }
    }

    /** Offers the i-th waiting job its locks, and keeps it in the list, after
        the kept ones, if they are not free. */
    method OfferNext(i: nat, kept: nat, ghost ahead: seq<Request>) returns (free: bool, after: nat)
      requires locks.Valid() && TableOk(table, |locks.s.readers|) && ReservedFor(table, locks.s, ahead)
      requires kept <= i < |waiting| && waiting[..kept] == ahead
      requires waiting[i].task < |table| && waiting[i].job !in locks.held
      modifies this, locks
      ensures locks.Valid() && |locks.s.readers| == |old(locks.s).readers| && |waiting| == |old(waiting)|
      ensures free == MayGrant(table, old(locks.held), ahead, old(waiting)[i]) && kept <= after <= i + 1
      ensures locks.held == if free then old(locks.held)[old(waiting)[i].job := table[old(waiting)[i].task]]
              else old(locks.held)
      ensures waiting[..after] == if free then ahead else ahead + [old(waiting)[i]]
      ensures free ==> waiting == old(waiting)
      ensures forall k | i < k < |waiting| :: waiting[k] == old(waiting)[k]
      ensures ReservedFor(table, locks.s, waiting[..after])
    {
      var request := waiting[i];
      free := Offer(request, ahead);
      after := kept;
      if !free {
        waiting := waiting[kept := request];
        after := kept + 1;
        assert waiting[..after] == ahead + [request];
      }
    }

    /** Grants the waiting jobs, oldest first, filtering the list in place. */
    method GrantWaiting() returns (granted: seq<Request>)
      requires locks.Valid() && TableOk(table, |locks.s.readers|) && ReservedFor(table, locks.s, [])
      requires Known(table, waiting) && Unasked(locks.held, waiting)
      modifies this, locks
      ensures locks.Valid() && |locks.s.readers| == |old(locks.s).readers|
      ensures Outcome(locks.held, granted, waiting) == Granting(table, old(locks.held), old(waiting))
    {
      ghost var held, requests := locks.held, waiting;
      granted := [];
      var kept, n := 0, |waiting|;
      ghost var o: Outcome := Outcome(held, [], []);
      for i := 0 to n
        invariant locks.Valid() && |locks.s.readers| == |old(locks.s).readers|
        invariant 0 <= kept <= i && |waiting| == n && (forall k | i <= k < n :: waiting[k] == requests[k])
        invariant o == Granting(table, held, requests[..i])
        invariant locks.held == o.held && granted == o.granted && waiting[..kept] == o.waiting
        invariant ReservedFor(table, locks.s, o.waiting)
      {
        ghost var next := GrantStep(table, held, requests, i, o);
        var free;
        free, kept := OfferNext(i, kept, o.waiting);
        if free {
          granted := granted + [waiting[i]];
        }
        o := next;
      }
      assert requests[..n] == requests;
      waiting := waiting[..kept];
    }

    /** One pass of the combiner, once it has drained its queues: unlocks what
        finished jobs held, and grants the waiting jobs and the new ones. granted
        is handed to the runner. */
    method Pass(released: seq<nat>, ghost jobs: seq<nat>, arrived: seq<Request>) returns (granted: seq<Request>)
      requires Valid() && |jobs| == |released|
      requires forall k | 0 <= k < |jobs| ::
               jobs[k] in locks.held && released[k] < |table| && locks.held[jobs[k]] == table[released[k]]
      requires forall j, k | 0 <= j < k < |jobs| :: jobs[j] != jobs[k]
      requires TurnOk(table, locks.held, waiting, Turn(set k | 0 <= k < |jobs| :: jobs[k], arrived))
      modifies this, locks
      ensures Valid()
      ensures Outcome(locks.held, granted, waiting) ==
                Granting(table, old(locks.held) - (set k | 0 <= k < |jobs| :: jobs[k]), old(waiting) + arrived)
      ensures Aged(granted) && forall k: nat | k < |waiting| :: HasReason(table, locks.held, waiting, k)
      ensures forall k: nat | k < |granted| ::
                granted[k].task < |table| && granted[k].job in locks.held
                && locks.held[granted[k].job] == table[granted[k].task]
    {
      UnlockAll(released, jobs);
      waiting := waiting + arrived;
      locks.ClearReservations();
      ghost var held, requests := locks.held, waiting;
      granted := GrantWaiting();
      PassDivides(table, held, requests);
      PassKeepsOrder(table, held, requests);
      PassGivesLocks(table, held, requests);
      forall k: nat | k < |waiting| ensures HasReason(table, locks.held, waiting, k) {
        NoneLeftToGrant(table, held, requests, k);
      }
    }
  }

  /** What the pass comes to at the next request, which is of a job that holds no
      locks yet. */
  lemma GrantStep(table: Table, held: map<nat, TaskLocks>, requests: seq<Request>, i: nat, o: Outcome)
    returns (next: Outcome)
    requires Known(table, requests) && Unasked(held, requests) && i < |requests|
    requires o == Granting(table, held, requests[..i])
    ensures requests[i].job !in o.held && next == Granting(table, held, requests[..i + 1])
    ensures next == if MayGrant(table, o.held, o.waiting, requests[i])
            then Outcome(o.held[requests[i].job := table[requests[i].task]], o.granted + [requests[i]], o.waiting)
                    else Outcome(o.held, o.granted, o.waiting + [requests[i]])
  {
    NextIsUnasked(table, held, requests, i, requests[..i], o);
    assert requests[..i + 1][..i] == requests[..i];
    next := Granting(table, held, requests[..i + 1]);
  }

  lemma ReservedForOneMore(table: Table, s: LockWords, t: LockWords, ahead: seq<Request>, request: Request)
    requires ReservedFor(table, s, ahead) && request.task < |table|
    requires forall r: nat {:trigger Has(t.reserved, r)} ::
             Has(t.reserved, r) <==> Has(s.reserved, r) || Has(table[request.task].writeMask, r)
    ensures ReservedFor(table, t, ahead + [request])
  {
    var after := ahead + [request];
    forall r: nat
      ensures Has(t.reserved, r) <==> exists k :: 0 <= k < |after| && Has(table[after[k].task].writeMask, r)
    {
      if Has(s.reserved, r) {
        var k :| 0 <= k < |ahead| && Has(table[ahead[k].task].writeMask, r);
        assert Has(table[after[k].task].writeMask, r);
      }
      assert after[|ahead|] == request;
    }
  }

  /** The reserved resources are those a job kept waiting writes. */
  ghost predicate ReservedFor(table: Table, s: LockWords, ahead: seq<Request>) {
    Known(table, ahead) &&
    forall r: nat {:trigger Has(s.reserved, r)} ::
      Has(s.reserved, r) <==> exists k :: 0 <= k < |ahead| && Has(table[ahead[k].task].writeMask, r)
  }

  lemma CanLockIsMayGrant(table: Table, s: LockWords, held: map<nat, TaskLocks>, ahead: seq<Request>, request: Request)
    requires ReservedFor(table, s, ahead) && request.task < |table|
    ensures MayGrant(table, held, ahead, request) <==>
              && (forall t | t in held :: !Conflict(held[t], table[request.task]))
              && (forall r: nat :: !(Has(s.reserved, r) && table[request.task].Touches(r)))
  {
    var locks := table[request.task];
    if forall r: nat :: !(Has(s.reserved, r) && locks.Touches(r)) {
      forall k | 0 <= k < |ahead| ensures !Bars(table[ahead[k].task], locks) {
        assert forall r: nat | Has(table[ahead[k].task].writeMask, r) :: Has(s.reserved, r);
      }
    }
    if forall k | 0 <= k < |ahead| :: !Bars(table[ahead[k].task], locks) {
      forall r: nat ensures !(Has(s.reserved, r) && locks.Touches(r)) {
        if Has(s.reserved, r) {
          var k :| 0 <= k < |ahead| && Has(table[ahead[k].task].writeMask, r);
          assert !Bars(table[ahead[k].task], locks);
        }
      }
    }
  }

  /** The next request is of a job that holds no locks yet. */
  lemma NextIsUnasked(table: Table, held: map<nat, TaskLocks>, requests: seq<Request>, i: nat, done: seq<Request>,
                      o: Outcome)
    requires Known(table, requests) && Unasked(held, requests) && i < |requests|
    requires done == requests[..i] && o == Granting(table, held, done)
    ensures requests[i].job !in o.held
  {
    UnaskedPrefix(held, requests, i + 1);
    assert requests[..i + 1][..i] == done;
    PassDivides(table, held, done);
  }

  lemma UnaskedPrefix(held: map<nat, TaskLocks>, requests: seq<Request>, i: nat)
    requires Unasked(held, requests) && i <= |requests|
    ensures Unasked(held, requests[..i])
    decreases |requests| - i
  {
    if i < |requests| {
      UnaskedPrefix(held, requests, i + 1);
      assert requests[..i + 1][..i] == requests[..i];
    } else {
      assert requests[..i] == requests;
    }
  }
}
