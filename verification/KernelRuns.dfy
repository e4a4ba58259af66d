/** Every interleaving of a kernel's goroutines (kernel/job.go,
    kernel/combiner.go, kernel/runner.go, kernel/kernel.go). */
module KernelRuns {
  import opened Basics
  import opened KernelLocks
  import opened KernelGranting
  import opened KernelJobGraph
  import opened KernelSystem
  import opened KernelSystemSteps
  import G = KernelJobSteps
  import GR = KernelJobRuns
  import C = KernelCombining
  import S = KernelCombiningSteps
  import CR = KernelCombiningRuns

  /** One atomic step of goroutine g. A job that a step in the graph makes is of
      task. */
  datatype Event =
    | InGraph(g: nat, event: GR.Event, graph: Graph, task: nat)
    | InCombine(g: nat, combine: CR.Event, comb: C.Combiner)
    | HandOn(g: nat)
    | Grants(g: nat)
    | Pops(g: nat)
    | Completes(g: nat)
    | TakesUp(g: nat)

  ghost predicate Takes(s: System, event: Event, t: System) {
    match event
    case InGraph(g, e, graph, task) =>
      && s.comb.At(g) == C.Out && !s.WorkOf(g).Ends? && task < |s.comb.table| && GR.Takes(s.graph, g, e, graph)
      && t == GraphStep(s, g, graph, GR.Makes(s.graph, g, e), GR.Brings(s.graph, g, e, graph), task)
    case InCombine(g, e, comb) => CR.Takes(s.comb, g, e, comb) && t == CombineStep(s, comb)
    case HandOn(g) =>
      CanArrive(s, g) && t == if NeedsNoLocks(s, ArrivingJob(s, g)) then ArriveReady(s, g) else ArriveAsking(s, g)
    case Grants(g) => CanGrant(s, g) && t == Grant(s, g)
    case Pops(g) => CanPop(s, g) && t == Pop(s, g)
    case Completes(g) => CanComplete(s, g) && t == Complete(s, g)
    case TakesUp(g) => CanTakeUp(s, g) && t == TakeUp(s, g)
  }

  lemma GraphStepKeepsValid(s: System, g: nat, e: GR.Event, graph: Graph, task: nat)
    requires s.Valid()
             && Takes(s, InGraph(g, e, graph, task),
                   GraphStep(s, g, graph, GR.Makes(s.graph, g, e), GR.Brings(s.graph, g, e, graph), task))
    ensures GraphStep(s, g, graph, GR.Makes(s.graph, g, e), GR.Brings(s.graph, g, e, graph), task).Valid()
  {
    GR.EventKeepsValid(s.graph, g, e, graph);
    GR.EventHasEffect(s.graph, g, e, graph);
    NumbersAreBelow(s);
    GraphStepKeepsLinks(s, g, graph, GR.Makes(s.graph, g, e), GR.Brings(s.graph, g, e, graph), task);
  }

  lemma CombineStepKeepsValid(s: System, g: nat, e: CR.Event, comb: C.Combiner)
    requires s.Valid() && CR.Takes(s.comb, g, e, comb)
    ensures CombineStep(s, comb).Valid()
  {
    CR.EventKeepsValid(s.comb, g, e, comb);
    CR.SameRequests(s.comb, g, e, comb);
    CR.EventEffect(s.comb, g, e, comb, 0);
    forall n: nat ensures CR.OnlyLetsGo(s.comb, comb, n) { CR.EventEffect(s.comb, g, e, comb, n); }
    CombineStepKeepsLinks(s, comb);
  }

  lemma HandOnKeepsValid(s: System, g: nat, t: System)
    requires s.Valid() && Takes(s, HandOn(g), t)
    ensures t.Valid()
  {
    var h := ArrivingJob(s, g);
    ArrivedStays(s.graph, g);
    assert s.JobOk(h) && s.ThreadOk(g);
    if NeedsNoLocks(s, h) {
      ArriveReadyKeepsLinks(s, g);
    } else {
      ArriveAskingKeepsLinks(s, g);
      S.PushArrivalKeepsValid(s.comb, g, RequestOf(s, h));
    }
  }

  lemma ArrivedStays(s: Graph, g: nat)
    requires s.Valid() && GR.Arriving(s.At(g)).Some?
    ensures G.Moved(s, g, s.At(g).(arriving := None)).Valid()
  {
    G.ArriveKeepsValid(s, g);
  }

  lemma GrantKeepsValid(s: System, g: nat)
    requires s.Valid() && CanGrant(s, g)
    ensures Grant(s, g).Valid()
  {
    S.GrantKeepsValid(s.comb, g);
    C.JobsFirst(s.comb.rest);
    assert s.comb.StageOk(s.comb.rest[0].job);
    GrantKeepsLinks(s, g);
  }

  lemma CompleteKeepsValid(s: System, g: nat)
    requires s.Valid() && CanComplete(s, g)
    ensures Complete(s, g).Valid()
  {
    var h := s.WorkOf(g).job;
    assert s.JobOk(h) && s.ThreadOk(g);
    CompleteKeepsLinks(s, g);
    if !NeedsNoLocks(s, h) {
      S.PushReleaseKeepsValid(s.comb, g, s.Number(h));
    }
  }

  lemma StepKeepsValid(s: System, event: Event, t: System)
    requires s.Valid() && Takes(s, event, t)
    ensures t.Valid()
  {
    match event
    case InGraph(g, e, graph, task) => GraphStepKeepsValid(s, g, e, graph, task);
    case InCombine(g, e, comb) => CombineStepKeepsValid(s, g, e, comb);
    case HandOn(g) => HandOnKeepsValid(s, g, t);
    case Grants(g) => GrantKeepsValid(s, g);
    case Pops(g) => PopKeepsLinks(s, g);
    case Completes(g) => CompleteKeepsValid(s, g);
    case TakesUp(g) =>
      TakeUpKeepsLinks(s, g);
      G.ClaimKeepsValid(s.graph, g, s.WorkOf(g).job);
  }

  /** A kernel of tasks, before any publication. */
  ghost function Initial(table: Table): System {
    System(Graph(map[], map[], map[], map[], map[], map[], map[], 0),
           C.Combiner(table, [], [], map[], [], [], None, map[], map[], 0, map[], []),
           map[], map[], [], map[], map[])
  }

  lemma InitialIsValid(table: Table)
    ensures Initial(table).Valid()
  {
    var s := Initial(table);
    forall slot: nat, position: nat, e: nat ensures s.graph.ListsOk(slot, position, e) { }
    forall h, token, d ensures s.graph.JobsOk(h, token, d) { }
    forall g: nat ensures s.graph.ThreadOk(g) && s.comb.MutexOk(g) && s.ThreadOk(g) { }
    forall job: nat ensures s.comb.StageOk(job) { }
    forall h ensures s.JobOk(h) { }
  }

  /** A run: states, and the event between each and the next. */
  ghost predicate IsRun(states: seq<System>, events: seq<Event>) {
    && |states| == |events| + 1 && states[0] == Initial(states[0].comb.table)
    && forall k | 0 <= k < |events| :: Takes(states[k], events[k], states[k + 1])
  }

  lemma {:induction false} EveryReachableStateIsValid(states: seq<System>, events: seq<Event>, k: nat)
    requires IsRun(states, events) && k < |states|
    ensures states[k].Valid()
  {
    if k == 0 {
      InitialIsValid(states[0].comb.table);
    } else {
      EveryReachableStateIsValid(states, events, k - 1);
      StepKeepsValid(states[k - 1], events[k - 1], states[k]);
    }
  }

  /** In every interleaving a job is handed to the combiner exactly once, when it
      comes to wait for nothing, and only once its hold is released and all it was
      declared to wait for has finished; and its handle reads as finished exactly
      once it has. */
  lemma JobsAreHandedOnceInOrder(states: seq<System>, events: seq<Event>, k: nat, h: Handle)
    requires IsRun(states, events) && k < |states| && h in states[k].graph.infos
    ensures var graph := states[k].graph;
            && graph.infos[h].handed == (if graph.infos[h].tokens == {} then 1 else 0)
            && (graph.infos[h].finished ==> graph.infos[h].handed == 1)
            && (graph.infos[h].handed == 1 ==>
                  Hold !in graph.infos[h].tokens
                      && forall d | d in graph.infos[h].declared && d.slot != NONE :: graph.Finished(d))
            && (ReadsFinished(graph.JobAt(h.slot).word, h) <==> graph.infos[h].finished)
  {
    EveryReachableStateIsValid(states, events, k);
    HandedOnceAfterDependencies(states[k].graph, h);
    StaleHandlesReadFinished(states[k].graph, h);
  }

  /** In every interleaving no two jobs that run, or are ready to, conflict. */
  lemma RunningJobsNeverConflict(states: seq<System>, events: seq<Event>, k: nat, resources: nat, a: Handle, b: Handle)
    requires IsRun(states, events) && k < |states| && TableOk(states[k].comb.table, resources) && a != b
    requires a in states[k].wheres && (states[k].wheres[a].Running? || states[k].wheres[a] == Ready)
    requires b in states[k].wheres && (states[k].wheres[b].Running? || states[k].wheres[b] == Ready)
    ensures var s := states[k];
            s.HasTask(a) && s.HasTask(b) && !Conflict(s.comb.table[s.tasks[a]], s.comb.table[s.tasks[b]])
  {
    EveryReachableStateIsValid(states, events, k);
    RunningNeverConflict(states[k], resources, a, b);
  }
}
