/** A kernel drains: once nothing more is published every job finishes, whatever
    order its goroutines go in (kernel/runner.go). */
module KernelDraining {
  import opened Basics
  import opened KernelJobGraph
  import opened KernelSystem
  import opened KernelSystemSteps
  import opened KernelRuns
  import opened KernelProgress
  import G = KernelJobSteps
  import GR = KernelJobRuns
  import C = KernelCombining
  import CR = KernelCombiningRuns

  ghost function RankOf<K>(ranks: map<K, nat>, k: K): nat {
    if k in ranks then ranks[k] else 0
  }

  /** What is left to do, a unit for each step of each rank. */
  ghost function Units<K>(ranks: map<K, nat>): set<(K, nat)> {
    set k, i | k in ranks && 0 <= i < ranks[k] :: (k, i)
  }

  lemma UnitsSame<K(!new)>(a: map<K, nat>, b: map<K, nat>)
    requires forall j {:trigger RankOf(b, j)} :: RankOf(b, j) == RankOf(a, j)
    ensures Units(b) == Units(a)
  {
    forall u ensures u in Units(a) <==> u in Units(b) { assert RankOf(b, u.0) == RankOf(a, u.0); }
  }

  lemma UnitsLess<K(!new)>(a: map<K, nat>, b: map<K, nat>, k: K)
    requires forall j {:trigger RankOf(b, j)} :: RankOf(b, j) <= RankOf(a, j)
    requires RankOf(b, k) < RankOf(a, k)
    ensures Units(b) < Units(a)
  {
    forall u | u in Units(b) ensures u in Units(a) { assert RankOf(b, u.0) <= RankOf(a, u.0); }
    assert (k, RankOf(b, k)) in Units(a) && (k, RankOf(b, k)) !in Units(b);
  }

  /** How far a job is from being taken up. */
  ghost function WhereRank(w: Where): nat {
    match w
    case Pending => 6
    case Handed(_) => 5
    case Asking => 4
    case Ready => 3
    case Running(_) => 2
    case Ending(_) => 1
    case TakenUp => 0
  }

  ghost function LinkRank(step: LinkStep): nat {
    match step
    case Start => 5
    case Raised => 4
    case Made(_) => 3
    case Read(_, _) => 3
    case Refused(_) => 2
    case Dropped => 1
  }

  /** How far a goroutine is from having submitted what it publishes. */
  ghost function PublishRank(pc: Pc): nat {
    match pc
    case Publishing(batch) => if batch == [] then 0 else |batch| + 2
    case Opening(batch, _, deps) => |batch| + 6 * |deps| + 9
    case Linking(batch, _, deps, step) => |batch| + 6 * |deps| + LinkRank(step) + 3
    case Submitting(batch, _) => |batch| + 1
    case _ => 0
  }

  /** How far a goroutine is from having finished a job, or from the next edge. */
  ghost function FinishRank(pc: Pc): nat {
    match pc
    case Closing(_) => 5
    case Swapping(_) => 4
    case Walking(_, _, lowered, _) => if lowered then 2 else 3
    case Freeing(_) => 1
    case _ => 0
  }

  /** How far a goroutine is from a link that succeeds if no list changes. */
  ghost function StaleRank(jobs: map<nat, Job>, pc: Pc): nat {
    if !pc.Linking? || pc.deps == [] then 0
    else
      match pc.step
      case Made(_) => 1
      case Read(_, seen) =>
        var slot := pc.deps[0].slot;
        var word := if slot in jobs then jobs[slot].word else ListWord(0, false, NONE);
        if word == seen then 0 else 2
      case _ => 0
  }

  /** How far a goroutine in combine is from the next drain, or from leaving. */
  ghost function SpotRank(releases: bool, arrivals: bool, spot: C.Spot): nat {
    match spot
    case Out => 0
    case Trying => if releases then 2 else if arrivals then 3 else 7
    case AtReleases => if releases then 1 else if arrivals then 2 else 6
    case AtArrivals => if releases then 7 else if arrivals then 1 else 5
    case AtPass => if releases then 6 else if arrivals then 7 else 4
    case AtUnlock => if releases then 5 else if arrivals then 6 else 3
    case CheckingReleases => if releases then 4 else if arrivals then 5 else 2
    case CheckingArrivals => if releases then 3 else if arrivals then 4 else 1
  }

  ghost function Publish(graph: Graph): map<nat, nat> {
    map g | g in graph.threads :: PublishRank(graph.threads[g])
  }

  ghost function Finish(graph: Graph): map<nat, nat> {
    map g | g in graph.threads :: FinishRank(graph.threads[g])
  }

  ghost function Stale(graph: Graph): map<nat, nat> {
    map g | g in graph.threads :: StaleRank(graph.jobs, graph.threads[g])
  }

  /** The edges still to walk. */
  ghost function Listed(graph: Graph): set<nat> {
    set e | e in graph.places && graph.places[e].InList?
  }

  ghost function Jobs(s: System): map<Handle, nat> {
    map h | h in s.wheres :: WhereRank(s.wheres[h])
  }

  ghost function Spots(c: C.Combiner): map<nat, nat> {
    map g | g in c.spots :: SpotRank(c.releases != [], c.arrivals != [], c.spots[g])
  }

  ghost function Queued(c: C.Combiner): nat {
    |c.releases| + |c.arrivals|
  }

  /** All that is left to do: of publishing first, of jobs on their way to be
      taken up, of edges to walk and jobs to finish, of links to try again, and of
      the combiner last. */
  datatype Left = Left(publish: set<(nat, nat)>, jobs: set<(Handle, nat)>, listed: set<nat>, finish: set<(nat, nat)>,
                       stale: set<(nat, nat)>, queued: nat, spots: set<(nat, nat)>, rest: nat)

  ghost function LeftOf(s: System): Left {
    Left(Units(Publish(s.graph)), Units(Jobs(s)), Listed(s.graph), Units(Finish(s.graph)), Units(Stale(s.graph)),
         Queued(s.comb), Units(Spots(s.comb)), |s.comb.rest|)
  }

  /** Less of the first to change, in that order. */
  ghost predicate Less(a: Left, b: Left) {
    || b.publish < a.publish
    || (b.publish == a.publish
        && (b.jobs < a.jobs || (b.jobs == a.jobs && (GraphLess(a, b) || (SameGraph(a, b) && CombineLess(a, b))))))
  }

  ghost predicate SameGraph(a: Left, b: Left) {
    b.listed == a.listed && b.finish == a.finish && b.stale == a.stale
  }

  ghost predicate GraphLess(a: Left, b: Left) {
    || b.listed < a.listed
    || (b.listed == a.listed && (b.finish < a.finish || (b.finish == a.finish && b.stale < a.stale)))
  }

  ghost predicate CombineLess(a: Left, b: Left) {
    || b.queued < a.queued
    || (b.queued == a.queued && (b.spots < a.spots || (b.spots == a.spots && b.rest < a.rest)))
  }

  /** A goroutine at another place, whose rank there is what it was. */
  lemma PublishAt(s: Graph, t: Graph, g: nat)
    requires t.threads == s.threads[g := t.At(g)]
    ensures PublishRank(t.At(g)) == PublishRank(s.At(g)) ==> Units(Publish(t)) == Units(Publish(s))
    ensures PublishRank(t.At(g)) < PublishRank(s.At(g)) ==> Units(Publish(t)) < Units(Publish(s))
  {
    var a, b := Publish(s), Publish(t);
    assert forall u: nat | u != g :: RankOf(b, u) == RankOf(a, u);
    assert RankOf(a, g) == PublishRank(s.At(g)) && RankOf(b, g) == PublishRank(t.At(g));
    if PublishRank(t.At(g)) == PublishRank(s.At(g)) {
      UnitsSame(a, b);
    } else if PublishRank(t.At(g)) < PublishRank(s.At(g)) {
      UnitsLess(a, b, g);
    }
  }

  lemma FinishAt(s: Graph, t: Graph, g: nat)
    requires t.threads == s.threads[g := t.At(g)]
    ensures FinishRank(t.At(g)) == FinishRank(s.At(g)) ==> Units(Finish(t)) == Units(Finish(s))
    ensures FinishRank(t.At(g)) < FinishRank(s.At(g)) ==> Units(Finish(t)) < Units(Finish(s))
  {
    var a, b := Finish(s), Finish(t);
    assert forall u: nat | u != g :: RankOf(b, u) == RankOf(a, u);
    assert RankOf(a, g) == FinishRank(s.At(g)) && RankOf(b, g) == FinishRank(t.At(g));
    if FinishRank(t.At(g)) == FinishRank(s.At(g)) {
      UnitsSame(a, b);
    } else if FinishRank(t.At(g)) < FinishRank(s.At(g)) {
      UnitsLess(a, b, g);
    }
  }

  lemma StaleAt(s: Graph, t: Graph, g: nat)
    requires t.threads == s.threads[g := t.At(g)] && t.jobs == s.jobs
    requires StaleRank(t.jobs, t.At(g)) < StaleRank(s.jobs, s.At(g))
    ensures Units(Stale(t)) < Units(Stale(s))
  {
    var a, b := Stale(s), Stale(t);
    assert forall u: nat | u != g :: RankOf(b, u) == RankOf(a, u);
    assert RankOf(a, g) == StaleRank(s.jobs, s.At(g)) && RankOf(b, g) == StaleRank(t.jobs, t.At(g));
    UnitsLess(a, b, g);
  }

  ghost predicate Publishes(e: GR.Event) {
    e.EvOpen? || e.EvSkipNone? || e.EvRaise? || e.EvMake? || e.EvLoadRefused? || e.EvLink? || e.EvDropEdge?
        || e.EvLower?
    || e.EvDone? || e.EvSubmit? || e.EvUnhold? || e.EvEndSubmit?
  }

  lemma PublishGetsLess(s: Graph, g: nat, e: GR.Event, t: Graph)
    requires GR.Takes(s, g, e, t) && Publishes(e) && (e.EvSubmit? ==> s.At(g) != Publishing([]))
    ensures Units(Publish(t)) < Units(Publish(s))
  {
    if s.At(g).Linking? {
      LinkingGetsLess(s, g, e, t);
    }
    PublishAt(s, t, g);
  }

  lemma LinkingGetsLess(s: Graph, g: nat, e: GR.Event, t: Graph)
    requires GR.Takes(s, g, e, t) && Publishes(e) && s.At(g).Linking?
    ensures t.threads == s.threads[g := t.At(g)] && PublishRank(t.At(g)) < PublishRank(s.At(g))
  {
  }

  lemma FinishGetsLess(s: Graph, g: nat, e: GR.Event, t: Graph)
    requires GR.Takes(s, g, e, t) && !e.EvAcquire? && !Publishes(e) && !e.EvLoad? && !e.EvLinkFailed? && !e.EvNext?
    requires s.ThreadOk(g)
    ensures Units(Publish(t)) == Units(Publish(s)) && Listed(t) == Listed(s) && Units(Finish(t)) < Units(Finish(s))
  {
    PublishAt(s, t, g);
    FinishAt(s, t, g);
  }

  lemma StaleGetsLess(s: Graph, g: nat, e: GR.Event, t: Graph)
    requires GR.Takes(s, g, e, t) && (e.EvLoad? || e.EvLinkFailed?)
    ensures Units(Publish(t)) == Units(Publish(s)) && Listed(t) == Listed(s)
    ensures Units(Finish(t)) == Units(Finish(s)) && Units(Stale(t)) < Units(Stale(s))
  {
    PublishAt(s, t, g);
    FinishAt(s, t, g);
    StaleAt(s, t, g);
  }

  lemma NextGetsLess(s: Graph, g: nat, t: Graph)
    requires s.Valid() && GR.Takes(s, g, GR.EvNext, t)
    ensures Units(Publish(t)) == Units(Publish(s)) && Listed(t) < Listed(s)
  {
    var pc := s.At(g);
    PublishAt(s, t, g);
    assert s.ThreadOk(g) && s.ListsOk(pc.job.slot, |s.List(pc.job.slot)| - 1, pc.edge);
    assert pc.edge in Listed(s) && Listed(t) == Listed(s) - {pc.edge};
  }

  /** A step of the graph leaves less to do in it, a failed link included: it
      only fails where another's step left less. */
  lemma GraphGetsLess(s: System, g: nat, e: GR.Event, t: System)
    requires s.graph.Valid() && GR.Takes(s.graph, g, e, t.graph)
    requires !e.EvAcquire? && (e.EvSubmit? ==> s.graph.At(g) != Publishing([]))
    ensures Publishes(e) ==> LeftOf(t).publish < LeftOf(s).publish
    ensures !Publishes(e) ==> LeftOf(t).publish == LeftOf(s).publish && GraphLess(LeftOf(s), LeftOf(t))
  {
    if Publishes(e) {
      PublishGetsLess(s.graph, g, e, t.graph);
    } else if e.EvNext? {
      NextGetsLess(s.graph, g, t.graph);
    } else if e.EvLoad? || e.EvLinkFailed? {
      StaleGetsLess(s.graph, g, e, t.graph);
    } else {
      assert s.graph.ThreadOk(g);
      FinishGetsLess(s.graph, g, e, t.graph);
    }
  }

  lemma SpotAt(s: C.Combiner, t: C.Combiner, g: nat)
    requires t.spots == s.spots[g := t.At(g)] && t.releases == s.releases && t.arrivals == s.arrivals
    requires var r, a := s.releases != [], s.arrivals != []; SpotRank(r, a, t.At(g)) < SpotRank(r, a, s.At(g))
    ensures Units(Spots(t)) < Units(Spots(s))
  {
    var a, b := Spots(s), Spots(t);
    assert forall u: nat | u != g :: RankOf(b, u) == RankOf(a, u);
    assert RankOf(a, g) == SpotRank(s.releases != [], s.arrivals != [], s.At(g));
    assert RankOf(b, g) == SpotRank(s.releases != [], s.arrivals != [], t.At(g));
    UnitsLess(a, b, g);
  }

  lemma CombineGetsLess(s: System, g: nat, e: CR.Event, t: System)
    requires CR.Takes(s.comb, g, e, t.comb)
    ensures CombineLess(LeftOf(s), LeftOf(t))
  {
    var c := s.comb;
    if e.EvKeep? {
      assert Spots(t.comb) == Spots(c);
    } else if (e.EvDrainReleases? && c.releases != []) || (e.EvDrainArrivals? && c.arrivals != []) {
    } else {
      SpotAt(c, t.comb, g);
    }
  }

  /** A job that comes nearer to being taken up, and no other moved. */
  lemma JobMoved(s: System, t: System, h: Handle)
    requires h in s.wheres && h in t.wheres && t.wheres == s.wheres[h := t.wheres[h]]
    requires WhereRank(t.wheres[h]) < WhereRank(s.wheres[h])
    ensures Units(Jobs(t)) < Units(Jobs(s))
  {
    var a, b := Jobs(s), Jobs(t);
    assert forall d | d != h :: RankOf(b, d) == RankOf(a, d);
    UnitsLess(a, b, h);
  }

  lemma GraphStepGetsLess(s: System, g: nat, e: GR.Event, graph: Graph, task: nat, t: System)
    requires s.Valid() && Takes(s, InGraph(g, e, graph, task), t) && Serves(s, InGraph(g, e, graph, task))
    ensures Less(LeftOf(s), LeftOf(t))
  {
    GraphGetsLess(s, g, e, t);
    if !Publishes(e) && GR.Brings(s.graph, g, e, graph).Some? {
      BroughtIsNearer(s, g, e, graph, task, t);
    }
  }

  lemma BroughtIsNearer(s: System, g: nat, e: GR.Event, graph: Graph, task: nat, t: System)
    requires s.Valid() && Takes(s, InGraph(g, e, graph, task), t) && !Publishes(e)
    requires GR.Brings(s.graph, g, e, graph).Some?
    ensures Units(Jobs(t)) < Units(Jobs(s))
  {
    var h := GR.Brings(s.graph, g, e, graph).value;
    GR.BroughtIsKnown(s.graph, g, e, graph);
    GR.EventEffect(s.graph, g, e, graph, h);
    assert s.JobOk(h);
    JobMoved(s, t, h);
  }

  lemma HandOnGetsLess(s: System, g: nat, t: System)
    requires s.ThreadOk(g) && Takes(s, HandOn(g), t)
    ensures Less(LeftOf(s), LeftOf(t))
  {
    ArrivedPublishes(s.graph, g);
    JobMoved(s, t, ArrivingJob(s, g));
  }

  lemma ArrivedPublishes(s: Graph, g: nat)
    requires GR.Arriving(s.At(g)).Some?
    ensures Units(Publish(G.Moved(s, g, s.At(g).(arriving := None)))) == Units(Publish(s))
  {
    PublishAt(s, G.Moved(s, g, s.At(g).(arriving := None)), g);
  }

  lemma TakeUpGetsLess(s: System, g: nat)
    requires s.Valid() && CanTakeUp(s, g)
    ensures Less(LeftOf(s), LeftOf(TakeUp(s, g)))
  {
    assert s.ThreadOk(g);
    PublishAt(s.graph, TakeUp(s, g).graph, g);
    JobMoved(s, TakeUp(s, g), s.WorkOf(g).job);
  }

  lemma GrantGetsLess(s: System, g: nat)
    requires s.Valid() && CanGrant(s, g)
    ensures Less(LeftOf(s), LeftOf(Grant(s, g)))
  {
    var r := s.comb.rest[0];
    C.JobsFirst(s.comb.rest);
    assert s.comb.StageOk(r.job) && s.NumberOk(r.job) && s.JobOk(s.names[r.job]);
    JobMoved(s, Grant(s, g), s.names[r.job]);
  }

  lemma CompleteGetsLess(s: System, g: nat)
    requires s.Valid() && CanComplete(s, g)
    ensures Less(LeftOf(s), LeftOf(Complete(s, g)))
  {
    assert s.ThreadOk(g);
    JobMoved(s, Complete(s, g), s.WorkOf(g).job);
  }

  lemma PopGetsLess(s: System, g: nat)
    requires s.Valid() && CanPop(s, g)
    ensures Less(LeftOf(s), LeftOf(Pop(s, g)))
  {
    assert s.ReadyOk(0);
    JobMoved(s, Pop(s, g), s.ready[0]);
  }

  /** Any step leaves less to do, but one that begins a job. */
  lemma StepGetsLess(s: System, event: Event, t: System)
    requires s.Valid() && Takes(s, event, t) && Serves(s, event)
    ensures Less(LeftOf(s), LeftOf(t))
  {
    match event
    case InGraph(g, e, graph, task) => GraphStepGetsLess(s, g, e, graph, task, t);
    case InCombine(g, e, comb) => CombineGetsLess(s, g, e, t);
    case HandOn(g) =>
      assert s.ThreadOk(g);
      HandOnGetsLess(s, g, t);
    case Grants(g) => GrantGetsLess(s, g);
    case Pops(g) => PopGetsLess(s, g);
    case Completes(g) => CompleteGetsLess(s, g);
    case TakesUp(g) => TakeUpGetsLess(s, g);
  }

  lemma JobsStay(s: System, event: Event, t: System)
    requires s.Valid() && Takes(s, event, t)
    ensures s.graph.infos.Keys <= t.graph.infos.Keys
  {
    if event.InGraph? {
      GR.EventHasEffect(s.graph, event.g, event.event, event.graph);
    }
  }

  /** One moment and the next while nothing more is published: some goroutine
      takes a step, any one there is, or there is none to take. */
  ghost predicate Goes(s: System, t: System) {
    if CanServe(s) then exists event :: Takes(s, event, t) && Serves(s, event) else t == s
  }

  ghost predicate GoesAt(run: nat -> System, k: nat) {
    Goes(run(k), run(k + 1))
  }

  /** A run for ever from some state on, in which nothing more is published. */
  ghost predicate IsService(run: nat -> System) {
    forall k: nat {:trigger GoesAt(run, k)} :: GoesAt(run, k)
  }

  ghost function NextOf(s: System): (t: System)
    ensures Goes(s, t)
  {
    if CanServe(s) then var event, t :| Takes(s, event, t) && Serves(s, event); t else s
  }

  ghost function Service(s: System, k: nat): System {
    if k == 0 then s else NextOf(Service(s, k - 1))
  }

  /** There is such a run from any state. */
  lemma ServiceGoesOn(s: System) returns (run: nat -> System)
    ensures IsService(run) && run(0) == s
  {
    run := (k: nat) => Service(s, k);
    forall k: nat ensures GoesAt(run, k) { assert run(k + 1) == NextOf(run(k)); }
  }

  lemma ServiceGetsLess(s: System, t: System)
    requires s.Valid() && CanServe(s) && Goes(s, t)
    ensures t.Valid() && Less(LeftOf(s), LeftOf(t)) && s.graph.infos.Keys <= t.graph.infos.Keys
  {
    var event :| Takes(s, event, t) && Serves(s, event);
    StepKeepsValid(s, event, t);
    StepGetsLess(s, event, t);
    JobsStay(s, event, t);
  }

  lemma {:induction false} ServiceEnds(run: nat -> System, k: nat, left: Left) returns (n: nat)
    requires run(k).Valid() && left == LeftOf(run(k))
    requires IsService(run)
    ensures k <= n && run(n).Valid() && !CanServe(run(n))
    ensures run(k).graph.infos.Keys <= run(n).graph.infos.Keys
    decreases left.publish, left.jobs, left.listed, left.finish, left.stale, left.queued, left.spots, left.rest
  {
    n := k;
    assert GoesAt(run, k);
    if CanServe(run(k)) {
      ServiceGetsLess(run(k), run(k + 1));
      n := ServiceEnds(run, k + 1, LeftOf(run(k + 1)));
    }
  }

  /** Nothing is left: every job has been handed on once and has finished, and
      every lock is free. */
  ghost predicate Drained(s: System) {
    && (forall h | h in s.graph.infos :: s.graph.infos[h].finished && s.graph.infos[h].handed == 1)
    && s.ready == [] && s.comb.held == map[] && s.comb.List() == [] && s.comb.releases == []
  }

  lemma NoneToServeIsDrained(s: System)
    requires s.Valid() && !CanServe(s)
    ensures Drained(s)
  {
    forall h | h in s.graph.infos ensures s.graph.infos[h].finished && s.graph.infos[h].handed == 1 {
      if !s.graph.infos[h].finished { UnfinishedMovesOn(s, h); }
      HandedOnceAfterDependencies(s.graph, h);
    }
    if s.ready != [] { ReadyMovesOn(s); }
    forall g: nat ensures s.comb.At(g) == C.Out {
      if s.comb.At(g) != C.Out { CombineMovesOn(s, g); }
    }
    C.QuietMeansSettled(s.comb);
    forall n ensures n !in s.comb.held {
      if n in s.comb.held { HolderMovesOn(s, n); }
    }
  }

  /** A job that holds locks is ready, or runs, or has its release queued. */
  lemma HolderMovesOn(s: System, n: nat)
    requires s.Valid() && n in s.comb.held
    ensures s.ready != [] || s.comb.releases != [] || CanServe(s)
  {
    assert s.comb.StageOk(n) && s.NumberOk(n);
    var h := s.names[n];
    assert s.JobOk(h);
    if s.comb.releases == [] && s.wheres[h].Running? {
      NoneIsStuck(s, s.wheres[h].thread);
    }
  }

  /** Every job finishes: from any state a kernel reaches, whatever step is taken
      whenever there is one, nothing is left after finitely many, but that no
      more jobs are begun. */
  lemma EveryJobFinishes(states: seq<System>, events: seq<KernelRuns.Event>, run: nat -> System) returns (n: nat)
    requires IsRun(states, events) && run(0) == states[|events|]
    requires IsService(run)
    ensures Drained(run(n)) && run(0).graph.infos.Keys <= run(n).graph.infos.Keys
  {
    EveryReachableStateIsValid(states, events, |events|);
    n := ServiceEnds(run, 0, LeftOf(run(0)));
    NoneToServeIsDrained(run(n));
  }
}
