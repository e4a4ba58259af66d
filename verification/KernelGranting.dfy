/** What one pass of the lock combiner grants, and what that keeps from pass to
    pass (kernel/combiner.go). */
module KernelGranting {
  import opened KernelLocks

  /** A job asking for its task's locks. job names it for ever, as its slot does
      not, which another job may take before this one's locks are unlocked;
      ticket is its place in the order of arrival. */
  datatype Request = Request(slot: nat, task: nat, ghost job: nat, ghost ticket: nat)

  /** The locks of each task. Every request names a task of the table. */
  type Table = seq<TaskLocks>

  ghost predicate TableOk(table: Table, resources: nat) {
    forall k | 0 <= k < |table| :: table[k].Valid(resources)
  }

  ghost predicate Known(table: Table, requests: seq<Request>) {
    forall k {:trigger requests[k]} | 0 <= k < |requests| :: requests[k].task < |table|
  }

  /** Whether a waiting job keeps what it writes from one behind it. */
  ghost predicate Bars(ahead: TaskLocks, locks: TaskLocks) {
    exists r: nat :: Has(ahead.writeMask, r) && locks.Touches(r)
  }

  /** Whether a job's locks are free: no job holding locks conflicts with it, and
      none of the jobs waiting ahead of it bars it. */
  ghost predicate MayGrant(table: Table, held: map<nat, TaskLocks>, ahead: seq<Request>, request: Request)
    requires Known(table, ahead) && request.task < |table|
  {
    && (forall t {:trigger held[t]} | t in held :: !Conflict(held[t], table[request.task]))
    && (forall k {:trigger ahead[k]} | 0 <= k < |ahead| :: !Bars(table[ahead[k].task], table[request.task]))
  }

  /** What a pass comes to: the jobs that hold locks after it, those it granted,
      and those still waiting, oldest first. */
  datatype Outcome = Outcome(held: map<nat, TaskLocks>, granted: seq<Request>, waiting: seq<Request>)

  /** Grants requests their locks in order, each whose locks are free. */
  ghost function Granting(table: Table, held: map<nat, TaskLocks>, requests: seq<Request>): (o: Outcome)
    requires Known(table, requests)
    ensures Known(table, o.waiting)
  {
    if requests == [] then Outcome(held, [], [])
    else
      var before := Granting(table, held, requests[..|requests| - 1]);
      var request := requests[|requests| - 1];
      if MayGrant(table, before.held, before.waiting, request)
      then Outcome(before.held[request.job := table[request.task]], before.granted + [request], before.waiting)
      else Outcome(before.held, before.granted, before.waiting + [request])
  }

  /** The jobs requests are of. */
  ghost function Jobs(requests: seq<Request>): set<nat> {
    if requests == [] then {} else Jobs(requests[..|requests| - 1]) + {requests[|requests| - 1].job}
  }

  ghost predicate NoneTwice(requests: seq<Request>) {
    requests != [] ==>
      && NoneTwice(requests[..|requests| - 1])
      && requests[|requests| - 1].job !in Jobs(requests[..|requests| - 1])
  }

  /** No two requests of one job, and none of a job that holds locks. */
  ghost predicate Unasked(held: map<nat, TaskLocks>, requests: seq<Request>) {
    NoneTwice(requests) && Jobs(requests) !! held.Keys
  }

  lemma {:induction false} JobAt(requests: seq<Request>, k: nat)
    requires k < |requests|
    ensures requests[k].job in Jobs(requests)
  {
    if k < |requests| - 1 {
      JobAt(requests[..|requests| - 1], k);
    }
  }

  lemma OneMore(requests: seq<Request>, r: Request)
    ensures Jobs(requests + [r]) == Jobs(requests) + {r.job}
    ensures NoneTwice(requests + [r]) <==> NoneTwice(requests) && r.job !in Jobs(requests)
  {
    assert (requests + [r])[..|requests|] == requests;
  }

  ghost predicate Divided(held: map<nat, TaskLocks>, requests: set<nat>, o: Outcome) {
    && Jobs(o.granted) + Jobs(o.waiting) == requests && Jobs(o.granted) !! Jobs(o.waiting)
    && NoneTwice(o.granted) && NoneTwice(o.waiting)
    && o.held.Keys == held.Keys + Jobs(o.granted)
    && (forall t {:trigger o.held[t]} | t in held :: o.held[t] == held[t])
  }

  lemma OneMoreGranted(held: map<nat, TaskLocks>, requests: set<nat>, o: Outcome, r: Request, locks: TaskLocks)
    requires Divided(held, requests, o) && r.job !in requests && r.job !in held
    ensures Divided(held, requests + {r.job}, Outcome(o.held[r.job := locks], o.granted + [r], o.waiting))
  {
    OneMore(o.granted, r);
  }

  lemma OneMoreWaiting(held: map<nat, TaskLocks>, requests: set<nat>, o: Outcome, r: Request)
    requires Divided(held, requests, o) && r.job !in requests && r.job !in held
    ensures Divided(held, requests + {r.job}, Outcome(o.held, o.granted, o.waiting + [r]))
  {
    OneMore(o.waiting, r);
  }

  /** A pass grants some of the requests and leaves the others waiting; jobs only
      gain locks. */
  lemma {:induction false} PassDivides(table: Table, held: map<nat, TaskLocks>, requests: seq<Request>)
    requires Known(table, requests) && Unasked(held, requests)
    ensures Divided(held, Jobs(requests), Granting(table, held, requests))
  {
    if requests != [] {
      var n := |requests| - 1;
      PassDivides(table, held, requests[..n]);
      var before := Granting(table, held, requests[..n]);
      if MayGrant(table, before.held, before.waiting, requests[n]) {
        OneMoreGranted(held, Jobs(requests[..n]), before, requests[n], table[requests[n].task]);
      } else {
        OneMoreWaiting(held, Jobs(requests[..n]), before, requests[n]);
      }
    }
  }

  /** The jobs that hold locks never conflict with one another. */
  ghost predicate Exclusive(held: map<nat, TaskLocks>) {
    forall t, u {:trigger held[t], held[u]} | t in held && u in held && t != u :: !Conflict(held[t], held[u])
  }

  lemma {:induction false} PassKeepsExclusive(table: Table, held: map<nat, TaskLocks>, requests: seq<Request>)
    requires Known(table, requests) && Exclusive(held)
    ensures Exclusive(Granting(table, held, requests).held)
  {
    if requests != [] {
      PassKeepsExclusive(table, held, requests[..|requests| - 1]);
      var before := Granting(table, held, requests[..|requests| - 1]);
      var r := requests[|requests| - 1];
      var after := Granting(table, held, requests).held;
      forall t, u | t in after && u in after && t != u ensures !Conflict(after[t], after[u]) {
        if MayGrant(table, before.held, before.waiting, r) {
          ConflictIsMutual(after[t], after[u]);
        }
      }
    }
  }

  /** Those granted hold their tasks' locks, and nothing else. */
  lemma {:induction false} PassGivesLocks(table: Table, held: map<nat, TaskLocks>, requests: seq<Request>)
    requires Known(table, requests) && Unasked(held, requests)
    ensures var o := Granting(table, held, requests);
            Known(table, o.granted)
            && forall k {:trigger o.granted[k]} | 0 <= k < |o.granted| ::
                 o.granted[k].job in o.held && o.held[o.granted[k].job] == table[o.granted[k].task]
  {
    if requests != [] {
      var n := |requests| - 1;
      var before, o := Granting(table, held, requests[..n]), Granting(table, held, requests);
      PassGivesLocks(table, held, requests[..n]);
      PassDivides(table, held, requests[..n]);
      forall k | 0 <= k < |o.granted|
        ensures o.granted[k].task < |table| && o.granted[k].job in o.held
        ensures o.held[o.granted[k].job] == table[o.granted[k].task]
      {
        if k < |before.granted| {
          JobAt(before.granted, k);
          assert o.granted[k] == before.granted[k];
        }
      }
    }
  }

  /** Why waiting[k] waits: it conflicts with a job that holds locks, or an older one
      that waits writes what it touches. */
  ghost predicate HasReason(table: Table, held: map<nat, TaskLocks>, waiting: seq<Request>, k: nat)
    requires Known(table, waiting) && k < |waiting|
  {
    var locks := table[waiting[k].task];
    || (exists t {:trigger held[t]} :: t in held && Conflict(held[t], locks))
    || (exists j: nat, r: nat {:trigger Has(table[waiting[j].task].writeMask, r)} ::
          j < k && Has(table[waiting[j].task].writeMask, r) && locks.Touches(r))
  }

  lemma BlockedHasReason(table: Table, held: map<nat, TaskLocks>, waiting: seq<Request>, k: nat)
    requires Known(table, waiting) && k < |waiting| && !MayGrant(table, held, waiting[..k], waiting[k])
    ensures HasReason(table, held, waiting, k)
  {
    var locks := table[waiting[k].task];
    if forall t {:trigger held[t]} | t in held :: !Conflict(held[t], locks) {
      var j: nat :| j < k && Bars(table[waiting[..k][j].task], locks);
      var r: nat :| Has(table[waiting[j].task].writeMask, r) && locks.Touches(r);
    }
  }

  /** After a pass none of the jobs waiting could be granted: each is in conflict
      with a job that holds locks, or barred by one ahead of it. */
  lemma NoneLeftToGrant(table: Table, held: map<nat, TaskLocks>, requests: seq<Request>, k: nat)
    requires Known(table, requests) && Unasked(held, requests)
    requires k < |Granting(table, held, requests).waiting|
    ensures var o := Granting(table, held, requests);
            !MayGrant(table, o.held, o.waiting[..k], o.waiting[k]) && HasReason(table, o.held, o.waiting, k)
  {
    BlockedStays(table, held, requests, k);
    var o := Granting(table, held, requests);
    BlockedHasReason(table, o.held, o.waiting, k);
  }

  lemma {:induction false} BlockedStays(table: Table, held: map<nat, TaskLocks>, requests: seq<Request>, k: nat)
    requires Known(table, requests) && Unasked(held, requests)
    requires k < |Granting(table, held, requests).waiting|
    ensures var o := Granting(table, held, requests); !MayGrant(table, o.held, o.waiting[..k], o.waiting[k])
  {
    var n := |requests| - 1;
    var before, o, r := Granting(table, held, requests[..n]), Granting(table, held, requests), requests[n];
    PassDivides(table, held, requests[..n]);
    if k < |before.waiting| {
      BlockedStays(table, held, requests[..n], k);
      assert o.waiting[..k] == before.waiting[..k] && o.waiting[k] == before.waiting[k];
      assert forall t | t in before.held :: t != r.job && o.held[t] == before.held[t];
    } else {
      assert o.waiting[..k] == before.waiting && o.held == before.held;
    }
  }

  /** After a pass the oldest job waiting conflicts with one that holds locks. */
  lemma OldestIsBlockedByAHolder(table: Table, held: map<nat, TaskLocks>, requests: seq<Request>) returns (t: nat)
    requires Known(table, requests) && Unasked(held, requests) && Granting(table, held, requests).waiting != []
    ensures var o := Granting(table, held, requests); t in o.held && Conflict(o.held[t], table[o.waiting[0].task])
  {
    var o := Granting(table, held, requests);
    NoneLeftToGrant(table, held, requests, 0);
    assert o.waiting[..0] == [];
    t :| t in o.held && Conflict(o.held[t], table[o.waiting[0].task]);
  }

  /** So nothing waits when nothing is held. */
  lemma NothingWaitsForNothing(table: Table, held: map<nat, TaskLocks>, requests: seq<Request>)
    requires Known(table, requests) && Unasked(held, requests) && Granting(table, held, requests).held == map[]
    ensures Granting(table, held, requests).waiting == []
  {
    if Granting(table, held, requests).waiting != [] {
      var t := OldestIsBlockedByAHolder(table, held, requests);
    }
  }

  /** Requests in the order they arrived. */
  ghost predicate Aged(requests: seq<Request>) {
    forall i: nat, j: nat {:trigger InOrder(requests, i, j)} :: InOrder(requests, i, j)
  }

  ghost predicate InOrder(requests: seq<Request>, i: nat, j: nat) {
    i < j < |requests| ==> requests[i].ticket < requests[j].ticket
  }

  lemma AgedOneMore(requests: seq<Request>, r: Request)
    requires Aged(requests) && forall k {:trigger requests[k]} | 0 <= k < |requests| :: requests[k].ticket < r.ticket
    ensures Aged(requests + [r])
  {
    forall i: nat, j: nat ensures InOrder(requests + [r], i, j) { assert InOrder(requests, i, j); }
  }

  lemma AgedPrefix(requests: seq<Request>, n: nat)
    requires Aged(requests) && n <= |requests|
    ensures Aged(requests[..n])
  {
    forall i: nat, j: nat ensures InOrder(requests[..n], i, j) { assert InOrder(requests, i, j); }
  }

  lemma LastIsYoungest(requests: seq<Request>, q: Request)
    requires Aged(requests) && requests != [] && q in requests[..|requests| - 1]
    ensures q in requests && q.ticket < requests[|requests| - 1].ticket
  {
    var k: nat :| k < |requests| - 1 && requests[k] == q;
    assert InOrder(requests, k, |requests| - 1);
  }

  /** A pass leaves the jobs waiting in the order they arrived. */
  lemma {:induction false} PassKeepsOrder(table: Table, held: map<nat, TaskLocks>, requests: seq<Request>)
    requires Known(table, requests) && Aged(requests)
    ensures var o := Granting(table, held, requests);
            && Aged(o.waiting) && Aged(o.granted)
            && (forall r {:trigger r in o.waiting} | r in o.waiting :: r in requests)
            && (forall r {:trigger r in o.granted} | r in o.granted :: r in requests)
  {
    if requests != [] {
      var n := |requests| - 1;
      var earlier, r := requests[..n], requests[n];
      AgedPrefix(requests, n);
      PassKeepsOrder(table, held, earlier);
      var before := Granting(table, held, earlier);
      forall q | q in earlier ensures q in requests && q.ticket < r.ticket { LastIsYoungest(requests, q); }
      forall k | 0 <= k < |before.waiting| ensures before.waiting[k].ticket < r.ticket {
        assert before.waiting[k] in before.waiting;
      }
      AgedOneMore(before.waiting, r);
      forall k | 0 <= k < |before.granted| ensures before.granted[k].ticket < r.ticket {
        assert before.granted[k] in before.granted;
      }
      AgedOneMore(before.granted, r);
    }
  }

  /** While a job waits, no job that arrived after it is granted a resource it
      writes. */
  lemma {:induction false} NoneOvertakes(table: Table, held: map<nat, TaskLocks>, requests: seq<Request>, a: Request,
                                         b: Request)
    requires Known(table, requests) && Aged(requests)
    requires a in Granting(table, held, requests).waiting && b in Granting(table, held, requests).granted
             && a.ticket < b.ticket
    requires a.task < |table| && b.task < |table|
    ensures !Bars(table[a.task], table[b.task])
  {
    var n := |requests| - 1;
    var earlier, r := requests[..n], requests[n];
    var before := Granting(table, held, earlier);
    AgedPrefix(requests, n);
    PassKeepsOrder(table, held, earlier);
    forall q | q in earlier ensures q.ticket < r.ticket { LastIsYoungest(requests, q); }
    if b in before.granted {
      assert a != r;
      NoneOvertakes(table, held, earlier, a, b);
    } else {
      var k :| 0 <= k < |before.waiting| && before.waiting[k] == a;
    }
  }

  /** Between two passes some jobs finish, and some arrive. */
  datatype Turn = Turn(released: set<nat>, arrived: seq<Request>)

  ghost predicate TurnOk(table: Table, held: map<nat, TaskLocks>, waiting: seq<Request>, turn: Turn) {
    && Known(table, waiting + turn.arrived) && Aged(waiting + turn.arrived)
          && Unasked(held - turn.released, waiting + turn.arrived)
  }

  /** Whether turns can follow one another from a state of the combiner: every
      arrival is of a job that neither waits nor holds locks, and is the latest. */
  ghost predicate RunOk(table: Table, held: map<nat, TaskLocks>, waiting: seq<Request>, turns: seq<Turn>)
    decreases |turns|
  {
    turns != [] ==>
      && TurnOk(table, held, waiting, turns[0])
      && var o := Granting(table, held - turns[0].released, waiting + turns[0].arrived);
         RunOk(table, o.held, o.waiting, turns[1..])
  }

  /** The state after turns, and what their last pass granted. */
  ghost function AfterTurns(table: Table, held: map<nat, TaskLocks>, waiting: seq<Request>, turns: seq<Turn>): Outcome
    requires RunOk(table, held, waiting, turns)
    decreases |turns|
  {
    if turns == [] then Outcome(held, [], waiting)
    else
      var o := Granting(table, held - turns[0].released, waiting + turns[0].arrived);
      if |turns| == 1 then o else AfterTurns(table, o.held, o.waiting, turns[1..])
  }

  /** Over any run: while a job waits, no job that arrived after it, then or
      before, is granted a resource it writes. */
  lemma {:induction false} NoneOvertakesInAnyTurn(table: Table, held: map<nat, TaskLocks>, waiting: seq<Request>,
                                                  turns: seq<Turn>, a: Request, b: Request)
    requires turns != [] && RunOk(table, held, waiting, turns)
    requires var o := AfterTurns(table, held, waiting, turns); a in o.waiting && b in o.granted && a.ticket < b.ticket
    requires a.task < |table| && b.task < |table|
    ensures !Bars(table[a.task], table[b.task])
    decreases |turns|
  {
    var o := Granting(table, held - turns[0].released, waiting + turns[0].arrived);
    if |turns| == 1 {
      NoneOvertakes(table, held - turns[0].released, waiting + turns[0].arrived, a, b);
    } else {
      NoneOvertakesInAnyTurn(table, o.held, o.waiting, turns[1..], a, b);
    }
  }

  /** Over any run no two jobs that hold locks conflict; after it no job waiting
      could be granted, and none waits when none holds locks. */
  lemma {:induction false} EveryTurnIsSafe(table: Table, held: map<nat, TaskLocks>, waiting: seq<Request>,
                                           turns: seq<Turn>)
    requires turns != [] && RunOk(table, held, waiting, turns) && Exclusive(held)
    ensures var o := AfterTurns(table, held, waiting, turns);
            && Exclusive(o.held) && Known(table, o.waiting)
            && (o.held == map[] ==> o.waiting == [])
            && forall k: nat | k < |o.waiting| ::
                 !MayGrant(table, o.held, o.waiting[..k], o.waiting[k]) && HasReason(table, o.held, o.waiting, k)
    decreases |turns|
  {
    var from, requests := held - turns[0].released, waiting + turns[0].arrived;
    var o := Granting(table, from, requests);
    assert Exclusive(from);
    PassKeepsExclusive(table, from, requests);
    if |turns| == 1 {
      forall k: nat | k < |o.waiting|
        ensures !MayGrant(table, o.held, o.waiting[..k], o.waiting[k]) && HasReason(table, o.held, o.waiting, k)
      {
        NoneLeftToGrant(table, from, requests, k);
      }
      if o.held == map[] {
        NothingWaitsForNothing(table, from, requests);
      }
    } else {
      EveryTurnIsSafe(table, o.held, o.waiting, turns[1..]);
    }
  }
}
