/** How an event's handlers are ordered: to satisfy every declared order, keeping
    subscription order wherever none decides (kernel/dispatcher.go). */
module KernelDispatcher {

  /** before runs before after; both are indices in subscription order. */
  datatype Order = Order(before: nat, after: nat)

  ghost predicate Within(orders: seq<Order>, count: nat) {
    forall k {:trigger orders[k]} | 0 <= k < |orders| :: orders[k].before < count && orders[k].after < count
  }

  /** p has some of the indices below count, each once. */
  ghost predicate Distinct(p: seq<nat>, count: nat) {
    && (forall k {:trigger p[k]} | 0 <= k < |p| :: p[k] < count)
    && (forall j, k {:trigger p[j], p[k]} | 0 <= j < k < |p| :: p[j] != p[k])
  }

  ghost predicate Permutation(p: seq<nat>, count: nat) {
    |p| == count && Distinct(p, count)
  }

  /** Every declared order holds in p. */
  ghost predicate Respects(p: seq<nat>, orders: seq<Order>) {
    forall i, j {:trigger p[i], p[j]} | 0 <= i < |p| && 0 <= j < |p| && Order(p[i], p[j]) in orders :: i < j
  }

  ghost predicate Solves(p: seq<nat>, orders: seq<Order>, count: nat) {
    Permutation(p, count) && Respects(p, orders)
  }

  /** p is q, or has the lower index where they first differ. */
  ghost predicate NoLater(p: seq<nat>, q: seq<nat>) {
    p == q || exists k :: 0 <= k < |p| && k < |q| && p[..k] == q[..k] && p[k] < q[k]
  }

  /** Whether i may run next, with those of p run: it has not, and all declared
      to run before it have. */
  ghost predicate Available(orders: seq<Order>, p: seq<nat>, i: nat) {
    i !in p && forall o {:trigger o in orders} | o in orders && o.after == i :: o.before in p
  }

  /** Each of p was, when it was placed, the first in subscription order of those
      that might run next. */
  ghost predicate Greedy(orders: seq<Order>, p: seq<nat>, count: nat) {
    forall k {:trigger p[..k]} | 0 <= k < |p| ::
      Available(orders, p[..k], p[k]) && forall i: nat | i < p[k] :: !Available(orders, p[..k], i)
  }

  /** In an order that respects the declarations, each may run when it does. */
  lemma SolutionIsAvailable(q: seq<nat>, orders: seq<Order>, count: nat, k: nat)
    requires Solves(q, orders, count) && Within(orders, count) && k < |q|
    ensures Available(orders, q[..k], q[k])
  {
    forall o | o in orders && o.after == q[k] ensures o.before in q[..k] {
      var j :| 0 <= j < |orders| && orders[j] == o;
      EveryIndexIsIn(q, count, o.before);
      var i :| 0 <= i < |q| && q[i] == o.before;
      assert Order(q[i], q[k]) in orders;
      assert q[..k][i] == o.before;
    }
  }

  /** Greedy placing gives the first solution in lexicographic order. */
  lemma GreedyIsLeast(p: seq<nat>, q: seq<nat>, orders: seq<Order>, count: nat)
    requires Greedy(orders, p, count) && |p| == count && Solves(q, orders, count) && Within(orders, count)
    ensures NoLater(p, q)
  {
    var k := 0;
    while k < count && p[k] == q[k]
      invariant 0 <= k <= count && p[..k] == q[..k]
    {
      assert p[..k + 1] == p[..k] + [p[k]] && q[..k + 1] == q[..k] + [q[k]];
      k := k + 1;
    }
    if k < count {
      SolutionIsAvailable(q, orders, count, k);
      assert p[..k] == q[..k];
      assert Available(orders, p[..k], q[k]);
    } else {
      assert p == p[..k] && q == q[..k];
    }
  }

  lemma GreedyRespects(p: seq<nat>, orders: seq<Order>, count: nat)
    requires Greedy(orders, p, count) && Distinct(p, count)
    ensures Respects(p, orders)
  {
    forall i, j | 0 <= i < |p| && 0 <= j < |p| && Order(p[i], p[j]) in orders ensures i < j {
      assert Available(orders, p[..j], p[j]);
      assert p[i] in p[..j];
      var h :| 0 <= h < j && p[..j][h] == p[i];
      assert p[h] == p[i];
    }
  }

  /** A round of declared orders: each runs before the next, and the last before
      the first. One order of a handler before itself is one. */
  ghost predicate Cycle(c: seq<nat>, orders: seq<Order>) {
    && c != []
    && (forall k {:trigger c[k]} | 0 <= k < |c| - 1 :: Order(c[k], c[k + 1]) in orders)
    && Order(c[|c| - 1], c[0]) in orders
  }

  ghost predicate HasCycle(orders: seq<Order>) {
    exists c :: Cycle(c, orders)
  }

  ghost function Position(p: seq<nat>, i: nat): (k: nat)
    requires i in p
    ensures k < |p| && p[k] == i
  {
    var k :| 0 <= k < |p| && p[k] == i;
    k
  }

  /** Nothing satisfies a cycle. */
  lemma CyclesHaveNoSolution(p: seq<nat>, orders: seq<Order>, count: nat, c: seq<nat>)
    requires Within(orders, count) && Cycle(c, orders)
    ensures !Solves(p, orders, count)
  {
    if Solves(p, orders, count) {
      CycleAscends(p, orders, count, c, |c| - 1);
    }
  }

  lemma CycleAscends(p: seq<nat>, orders: seq<Order>, count: nat, c: seq<nat>, k: nat)
    requires Solves(p, orders, count) && Within(orders, count) && Cycle(c, orders) && k < |c|
    ensures c[0] in p && c[k] in p && Position(p, c[0]) <= Position(p, c[k])
  {
    if k == 0 {
      var j :| 0 <= j < |orders| && orders[j] == Order(c[|c| - 1], c[0]);
      EveryIndexIsIn(p, count, c[0]);
    } else {
      CycleAscends(p, orders, count, c, k - 1);
      var o := Order(c[k - 1], c[k]);
      assert o in orders;
      var j :| 0 <= j < |orders| && orders[j] == o;
      EveryIndexIsIn(p, count, c[k]);
      assert Order(p[Position(p, c[k - 1])], p[Position(p, c[k])]) in orders;
    }
  }

  /** A permutation misses no index: otherwise it would have one twice. */
  lemma EveryIndexIsIn(p: seq<nat>, count: nat, i: nat)
    requires Permutation(p, count) && i < count
    ensures i in p
  {
    if i !in p {
      var twice := Repeats(p + [i], count);
    }
  }

  /** More indices below count than count has one twice. */
  lemma Repeats(p: seq<nat>, count: nat) returns (at: (nat, nat))
    requires |p| > count && forall k | 0 <= k < |p| :: p[k] < count
    ensures at.0 < at.1 < |p| && p[at.0] == p[at.1]
    decreases count
  {
    assert count > 0 by { assert p[0] < count; }
    if i, j :| 0 <= i < j < |p| && p[i] == p[j] {
      return (i, j);
    }
    if k :| 0 <= k < |p| && p[k] == count - 1 {
      var rest := p[..k] + p[k + 1..];
      at := Repeats(rest, count - 1);
      at := (if at.0 < k then at.0 else at.0 + 1, if at.1 < k then at.1 else at.1 + 1);
    } else {
      at := Repeats(p, count - 1);
    }
  }

  /** A handler not placed that must wait for another. */
  ghost predicate Blocked(orders: seq<Order>, p: seq<nat>, count: nat) {
    forall i: nat {:trigger Available(orders, p, i)} | i < count :: !Available(orders, p, i)
  }

  /** A walk from each handler not placed to one it must wait for. */
  ghost predicate Walk(w: seq<nat>, orders: seq<Order>, p: seq<nat>, count: nat) {
    && (forall k {:trigger w[k]} | 0 <= k < |w| :: w[k] < count && w[k] !in p)
    && (forall k {:trigger w[k]} | 0 <= k < |w| - 1 :: Order(w[k + 1], w[k]) in orders)
  }

  lemma WalkOn(orders: seq<Order>, p: seq<nat>, count: nat, i: nat, length: nat) returns (w: seq<nat>)
    requires Within(orders, count) && Blocked(orders, p, count) && i < count && i !in p && length > 0
    ensures |w| == length && Walk(w, orders, p, count)
  {
    if length == 1 {
      w := [i];
    } else {
      w := WalkOn(orders, p, count, i, length - 1);
      var last := w[|w| - 1];
      assert !Available(orders, p, last);
      var o :| o in orders && o.after == last && o.before !in p;
      var k :| 0 <= k < |orders| && orders[k] == o;
      w := w + [o.before];
    }
  }

  /** If some handlers are left and none may run next, there is a cycle. */
  lemma StuckMeansCycle(orders: seq<Order>, p: seq<nat>, count: nat)
    requires Within(orders, count) && Distinct(p, count) && |p| < count && Blocked(orders, p, count)
    ensures HasCycle(orders)
  {
    var i := SomeLeft(p, count);
    var w := WalkOn(orders, p, count, i, count + 1);
    var at := Repeats(w, count);
    var c := seq(at.1 - at.0, k requires 0 <= k < at.1 - at.0 => w[at.1 - 1 - k]);
    forall k | 0 <= k < |c| - 1 ensures Order(c[k], c[k + 1]) in orders {
      assert Order(w[at.1 - 1 - k], w[at.1 - 2 - k]) in orders by { assert w[at.1 - 2 - k] in w; }
    }
    assert Order(w[at.0 + 1], w[at.0]) in orders || at.1 == at.0 + 1;
    assert c[0] == w[at.1 - 1] && Order(w[at.1], w[at.1 - 1]) in orders;
    assert Cycle(c, orders);
  }

  lemma SomeLeft(p: seq<nat>, count: nat) returns (i: nat)
    requires |p| < count
    ensures i < count && i !in p
    decreases count
  {
    if count - 1 !in p {
      i := count - 1;
    } else {
      var k :| 0 <= k < |p| && p[k] == count - 1;
      var rest := p[..k] + p[k + 1..];
      i := SomeLeft(rest, count - 1);
      forall j | 0 <= j < |p| ensures p[j] != i {
        assert p[j] == if j < k then rest[j] else if j == k then count - 1 else rest[j - 1];
      }
    }
  }

  /** How many declared orders put a handler not placed before i. */
  ghost function Left(orders: seq<Order>, placed: seq<bool>, i: nat): nat
    requires Within(orders, |placed|)
  {
    if orders == [] then 0
    else
      var o := orders[|orders| - 1];
      Left(orders[..|orders| - 1], placed, i) + Counts(o, placed, i)
  }

  /** How many of followers are i. */
  ghost function Times(followers: seq<nat>, i: nat): nat {
    if followers == [] then 0 else Times(followers[..|followers| - 1], i) + if followers[|followers| - 1] == i then 1
        else 0
  }

  /** The handlers declared to run after a, once per declaration. */
  ghost function Followers(orders: seq<Order>, a: nat): seq<nat> {
    if orders == [] then []
    else
      var o := orders[|orders| - 1];
      Followers(orders[..|orders| - 1], a) + if o.before == a then [o.after] else []
  }

  lemma TimesOneMore(f: seq<nat>, x: nat, i: nat)
    ensures Times(f + [x], i) == Times(f, i) + if x == i then 1 else 0
  {
    assert (f + [x])[..|f|] == f;
  }

  /** Whether an order puts a handler not placed before i. */
  ghost function Counts(o: Order, placed: seq<bool>, i: nat): nat
    requires o.before < |placed|
  {
    if o.after == i && !placed[o.before] then 1 else 0
  }

  lemma {:induction false} PlacingLowersLeft(orders: seq<Order>, placed: seq<bool>, a: nat, i: nat)
    requires Within(orders, |placed|) && a < |placed| && !placed[a]
    ensures Left(orders, placed[a := true], i) == Left(orders, placed, i) - Times(Followers(orders, a), i)
  {
    if orders != [] {
      var earlier, o := orders[..|orders| - 1], orders[|orders| - 1];
      PlacingLowersLeft(earlier, placed, a, i);
      var f := Followers(earlier, a);
      if o.before == a {
        TimesOneMore(f, o.after, i);
        assert Followers(orders, a) == f + [o.after];
      } else {
        assert Followers(orders, a) == f;
      }
      assert Counts(o, placed[a := true], i) == if o.before == a then 0 else Counts(o, placed, i);
    }
  }

  lemma {:induction false} NoneLeft(orders: seq<Order>, placed: seq<bool>, i: nat)
    requires Within(orders, |placed|)
    ensures Left(orders, placed, i) == 0 <==>
            forall k {:trigger orders[k]} | 0 <= k < |orders| :: Counts(orders[k], placed, i) == 0
  {
    if orders != [] {
      var earlier, n := orders[..|orders| - 1], |orders| - 1;
      NoneLeft(earlier, placed, i);
      assert forall k | 0 <= k < n :: earlier[k] == orders[k];
      assert Left(orders, placed, i) == Left(earlier, placed, i) + Counts(orders[n], placed, i);
    }
  }

  ghost predicate PlacedIs(placed: seq<bool>, order: seq<nat>) {
    forall i: nat {:trigger i in order} | i < |placed| :: placed[i] <==> i in order
  }

  ghost predicate WaitingIs(waiting: seq<int>, orders: seq<Order>, placed: seq<bool>) {
    && |waiting| == |placed| && Within(orders, |placed|)
    && forall i: nat {:trigger Left(orders, placed, i)} | i < |waiting| :: waiting[i] == Left(orders, placed, i)
  }

  /** A handler not placed that waits for none may run next. */
  lemma FreeIsAvailable(orders: seq<Order>, placed: seq<bool>, waiting: seq<int>, order: seq<nat>, i: nat)
    requires PlacedIs(placed, order) && WaitingIs(waiting, orders, placed) && i < |placed|
    ensures !placed[i] && waiting[i] == 0 <==> Available(orders, order, i)
  {
    NoneLeft(orders, placed, i);
    assert Left(orders, placed, i) == waiting[i];
    if !placed[i] && waiting[i] == 0 {
      forall o | o in orders && o.after == i ensures o.before in order {
        var k :| 0 <= k < |orders| && orders[k] == o;
        assert Counts(orders[k], placed, i) == 0;
      }
    }
    if Available(orders, order, i) {
      forall k | 0 <= k < |orders| ensures Counts(orders[k], placed, i) == 0 { assert orders[k] in orders; }
    }
  }

  lemma GreedyOneMore(orders: seq<Order>, order: seq<nat>, count: nat, next: nat)
    requires Greedy(orders, order, count) && Distinct(order, count) && next < count && Available(orders, order, next)
    requires forall i: nat | i < next :: !Available(orders, order, i)
    ensures Greedy(orders, order + [next], count) && Distinct(order + [next], count)
  {
    var after := order + [next];
    forall k | 0 <= k < |after|
      ensures Available(orders, after[..k], after[k])
              && forall i: nat | i < after[k] :: !Available(orders, after[..k], i)
    {
      if k < |order| {
        assert after[..k] == order[..k];
      } else {
        assert after[..k] == order;
      }
    }
  }

  /** A greedy order of all the handlers is the first solution, and rules out any
      cycle. */
  lemma GreedySolves(order: seq<nat>, orders: seq<Order>, count: nat)
    requires Greedy(orders, order, count) && Permutation(order, count) && Within(orders, count)
    ensures Solves(order, orders, count) && !HasCycle(orders)
    ensures forall q {:trigger Solves(q, orders, count)} | Solves(q, orders, count) :: NoLater(order, q)
  {
    GreedyRespects(order, orders, count);
    forall q | Solves(q, orders, count) ensures NoLater(order, q) { GreedyIsLeast(order, q, orders, count); }
    forall c ensures !Cycle(c, orders) {
      if Cycle(c, orders) {
        CyclesHaveNoSolution(order, orders, count, c);
      }
    }
  }

  class Dispatcher<H> {
    /** The handlers, in subscription order until they are sorted. */
    var handlers: seq<H>
    var orders: seq<Order>

    constructor (handlers: seq<H>, orders: seq<Order>)
      ensures this.handlers == handlers && this.orders == orders
    {
      this.handlers, this.orders := handlers, orders;
    }

    /** Counts, per handler, those declared to run before it, and lists those
        declared to run after it. */
    method CountOrders() returns (waiting: array<int>, followers: seq<seq<nat>>)
      requires Within(orders, |handlers|)
      ensures fresh(waiting) && waiting.Length == |followers| == |handlers|
      ensures WaitingIs(waiting[..], orders, seq(|handlers|, _ => false))
      ensures forall a: nat | a < |handlers| :: followers[a] == Followers(orders, a)
    {
      var count := |handlers|;
      waiting := new int[count](_ => 0);
      followers := seq(count, _ => []);
      ghost var none := seq(count, _ => false);
      for k := 0 to |orders|
        invariant |followers| == count && Within(orders[..k], count)
        invariant forall i: nat | i < count :: waiting[i] == Left(orders[..k], none, i)
        invariant forall a: nat | a < count :: followers[a] == Followers(orders[..k], a)
      {
        var o := orders[k];
        assert orders[..k + 1][..k] == orders[..k];
        followers := followers[o.before := followers[o.before] + [o.after]];
        waiting[o.after] := waiting[o.after] + 1;
      }
      assert orders[..|orders|] == orders;
    }

    /** The first handler, in subscription order, that may run next, or how many
        there are if none may. */
    method FirstFree(placed: array<bool>, waiting: array<int>, ghost order: seq<nat>) returns (next: nat)
      requires PlacedIs(placed[..], order) && WaitingIs(waiting[..], orders, placed[..])
      ensures next <= placed.Length
      ensures next < placed.Length ==> Available(orders, order, next) && !placed[next]
      ensures forall i: nat {:trigger Available(orders, order, i)} | i < next :: !Available(orders, order, i)
    {
      next := placed.Length;
      for i := 0 to placed.Length
        invariant forall k: nat {:trigger Available(orders, order, k)} | k < i :: !Available(orders, order, k)
      {
        FreeIsAvailable(orders, placed[..], waiting[..], order, i);
        if !placed[i] && waiting[i] == 0 {
          return i;
        }
      }
    }

    /** Counts handler next, just placed, off for those that run after it. */
    method LowerFollowers(waiting: array<int>, followers: seq<nat>, ghost placed: seq<bool>, ghost next: nat)
      requires WaitingIs(waiting[..], orders, placed) && next < |placed| && !placed[next]
               && followers == Followers(orders, next)
      modifies waiting
      ensures WaitingIs(waiting[..], orders, placed[next := true])
    {
      FollowersWithin(orders, waiting.Length, next);
      for k := 0 to |followers|
        invariant forall i: nat | i < waiting.Length :: waiting[i] == old(waiting[i]) - Times(followers[..k], i)
      {
        assert followers[..k + 1][..k] == followers[..k];
        waiting[followers[k]] := waiting[followers[k]] - 1;
      }
      assert followers[..|followers|] == followers;
      forall i: nat | i < waiting.Length ensures waiting[i] == Left(orders, placed[next := true], i) {
        PlacingLowersLeft(orders, placed, next, i);
        assert old(waiting[..])[i] == Left(orders, placed, i);
      }
    }

    /** Sorts the handlers to satisfy every declared order, or finds them ordered
        in a cycle, where the source panics. order is the permutation applied. */
    method SortHandlers() returns (sorted: bool, order: seq<nat>)
      requires Within(orders, |handlers|)
      modifies this
      ensures sorted <==> !HasCycle(old(orders))
      ensures sorted ==>
                && Solves(order, old(orders), |old(handlers)|)
                && (forall q {:trigger Solves(q, old(orders), |old(handlers)|)}
                      | Solves(q, old(orders), |old(handlers)|) :: NoLater(order, q))
                && |handlers| == |old(handlers)|
                      && (forall k | 0 <= k < |handlers| :: handlers[k] == old(handlers)[order[k]]) && orders == []
      ensures !sorted ==> handlers == old(handlers) && orders == old(orders)
    {
      var count := |handlers|;
      var waiting, followers := CountOrders();
      var placed := new bool[count](_ => false);
      assert placed[..] == seq(count, _ => false);
      order := [];
      var result := [];
      while |order| < count
        modifies waiting, placed
        invariant fresh(waiting) && fresh(placed) && placed.Length == waiting.Length == |followers| == count
        invariant forall a: nat | a < count :: followers[a] == Followers(orders, a)
        invariant PlacedIs(placed[..], order) && WaitingIs(waiting[..], orders, placed[..])
        invariant Distinct(order, count) && Greedy(orders, order, count) && |order| <= count
        invariant |result| == |order|
                  && forall k | 0 <= k < |order| :: order[k] < |handlers| && result[k] == handlers[order[k]]
        decreases count - |order|
      {
        var next := FirstFree(placed, waiting, order);
        if next == count {
          StuckMeansCycle(orders, order, count);
          return false, order;
        }
        ghost var was := placed[..];
        placed[next] := true;
        assert placed[..] == was[next := true];
        LowerFollowers(waiting, followers[next], was, next);
        GreedyOneMore(orders, order, count, next);
        order, result := order + [next], result + [handlers[next]];
      }
      GreedySolves(order, orders, count);
      handlers, orders := result, [];
      return true, order;
    }
  }

  lemma FollowersWithin(orders: seq<Order>, count: nat, a: nat)
    requires Within(orders, count)
    ensures forall k | 0 <= k < |Followers(orders, a)| :: Followers(orders, a)[k] < count
  {
    if orders != [] {
      FollowersWithin(orders[..|orders| - 1], count, a);
    }
  }
}
