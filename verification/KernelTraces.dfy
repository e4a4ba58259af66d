/** What every run of a kernel does, told by its events (kernel/job.go,
    kernel/combiner.go, kernel/runner.go). */
module KernelTraces {
  import opened Basics
  import opened KernelLocks
  import opened KernelGranting
  import opened KernelJobGraph
  import opened KernelSystem
  import opened KernelSystemSteps
  import opened KernelRuns
  import G = KernelJobSteps
  import GR = KernelJobRuns
  import C = KernelCombining
  import S = KernelCombiningSteps
  import CR = KernelCombiningRuns

  ghost predicate Acquires(event: Event, g: nat) {
    event.InGraph? && event.g == g && event.event.EvAcquire?
  }

  ghost predicate Opens(event: Event, g: nat) {
    event.InGraph? && event.g == g && event.event.EvOpen?
  }

  /** Event a is an acquire, and o the same goroutine's next open, which names h. */
  ghost predicate Makes(states: seq<System>, events: seq<Event>, a: nat, o: nat, h: Handle) {
    && a < o < |events| < |states| && Acquires(events[a], events[a].g) && Opens(events[o], events[a].g)
    && (forall m | a < m < o :: !Opens(events[m], events[a].g))
    && h !in states[o].graph.infos && h in states[o + 1].graph.infos
  }

  lemma {:induction false} Above(slots: set<nat>) returns (n: nat)
    ensures n > 0 && forall slot | slot in slots :: slot < n
    decreases |slots|
  {
    if slots == {} {
      n := 1;
    } else {
      var one :| one in slots;
      var m := Above(slots - {one});
      n := if one < m then m else one + 1;
      assert forall slot | slot in slots :: slot == one || slot in slots - {one};
    }
  }

  /** A goroutine that publishes may acquire a job at any time, to wait for any jobs
      made before. */
  lemma MayAcquire(s: System, g: nat, deps: seq<Handle>) returns (event: Event, t: System)
    requires s.Valid() && s.graph.At(g).Publishing? && s.comb.At(g) == C.Out && !s.WorkOf(g).Ends?
    requires s.comb.table != [] && forall i | 0 <= i < |deps| :: deps[i].slot == NONE || deps[i] in s.graph.infos
    ensures Acquires(event, g) && event.event.deps == deps && Takes(s, event, t)
  {
    var free := Above(s.graph.phases.Keys);
    forall i | 0 <= i < |deps| && deps[i].slot != NONE ensures s.graph.infos[deps[i]].number < s.graph.count {
      Facts(s.graph, 0, 0, deps[i]);
    }
    var graph := G.Acquire(s.graph, g, free, deps);
    event := InGraph(g, GR.EvAcquire(free, deps), graph, 0);
    t := GraphStep(s, g, graph, None, None, 0);
  }

  /** By event k a worker gets h, and runs it from there. */
  ghost predicate Begins(states: seq<System>, events: seq<Event>, k: nat, h: Handle) {
    k < |events| < |states| && events[k].Pops? && states[k + 1].WorkOf(events[k].g) == Runs(h)
  }

  /** By event k a worker is done with h, which it ran. */
  ghost predicate Ends(states: seq<System>, events: seq<Event>, k: nat, h: Handle) {
    k < |events| < |states| && events[k].Completes? && states[k].WorkOf(events[k].g) == Runs(h)
  }

  /** A goroutine that has a slot does nothing in the graph but open it. */
  lemma OpeningOnlyOpens(s: Graph, g: nat, event: GR.Event, t: Graph)
    requires GR.Takes(s, g, event, t) && s.At(g).Opening?
    ensures event.EvOpen?
  {
  }

  lemma OpeningStays(s: System, event: Event, t: System, g: nat)
    requires Takes(s, event, t) && s.graph.At(g).Opening? && !Opens(event, g)
    ensures t.graph.At(g) == s.graph.At(g)
  {
    if event.InGraph? {
      if event.g == g {
        OpeningOnlyOpens(s.graph, g, event.event, event.graph);
      } else {
        GR.OthersUntouched(s.graph, event.g, event.event, event.graph, g);
      }
    }
  }

  /** The goroutine stays where it is until it opens. */
  ghost predicate StaysPut(states: seq<System>, events: seq<Event>, g: nat) {
    |states| == |events| + 1 &&
    forall k: nat {:trigger events[k]} | k < |events| && states[k].graph.At(g).Opening? && !Opens(events[k], g) ::
      states[k + 1].graph.At(g) == states[k].graph.At(g)
  }

  lemma GoroutineStaysPut(states: seq<System>, events: seq<Event>, g: nat)
    requires IsRun(states, events)
    ensures StaysPut(states, events, g)
  {
    forall k: nat | k < |events| && states[k].graph.At(g).Opening? && !Opens(events[k], g)
      ensures states[k + 1].graph.At(g) == states[k].graph.At(g)
    {
      OpeningStays(states[k], events[k], states[k + 1], g);
    }
  }

  lemma {:induction false} OpensWhatItAcquired(states: seq<System>, events: seq<Event>, a: nat, k: nat, pc: Pc)
    requires a < k <= |events| && StaysPut(states, events, events[a].g)
    requires pc.Opening? && states[a + 1].graph.At(events[a].g) == pc
    requires forall m | a < m < k :: !Opens(events[m], events[a].g)
    ensures states[k].graph.At(events[a].g) == pc
  {
    if k > a + 1 {
      OpensWhatItAcquired(states, events, a, k - 1, pc);
      assert !Opens(events[k - 1], events[a].g);
    }
  }

  /** What was declared of a job stays. */
  lemma DeclaredStays(s: Graph, g: nat, event: GR.Event, t: Graph, h: Handle)
    requires s.Valid() && GR.Takes(s, g, event, t) && h in s.infos
    ensures h in t.infos && t.infos[h].declared == s.infos[h].declared
  {
    if event.EvOpen? {
      GR.OpenedIsNew(s, g);
    }
  }

  lemma GraphJobStays(s: System, event: Event, t: System, h: Handle)
    requires s.Valid() && Takes(s, event, t) && event.InGraph? && h in s.graph.infos && h in s.tasks
    ensures h in t.graph.infos && h in t.tasks && t.tasks[h] == s.tasks[h]
    ensures t.graph.infos[h].declared == s.graph.infos[h].declared
    ensures t.graph.infos[h].number == s.graph.infos[h].number
  {
    DeclaredStays(s.graph, event.g, event.event, event.graph, h);
    GR.EventHasEffect(s.graph, event.g, event.event, event.graph);
    assert GR.SameJob(s.graph, event.graph, h, GR.Brings(s.graph, event.g, event.event, event.graph));
  }

  /** So does its task. */
  ghost predicate JobStays(s: System, t: System, h: Handle) {
    h in s.graph.infos && h in s.tasks ==>
      && h in t.graph.infos && h in t.tasks && t.tasks[h] == s.tasks[h]
      && t.graph.infos[h].declared == s.graph.infos[h].declared
      && t.graph.infos[h].number == s.graph.infos[h].number
  }

  lemma TakeUpKeepsJob(s: System, g: nat, h: Handle)
    requires CanTakeUp(s, g)
    ensures JobStays(s, TakeUp(s, g), h)
  {
  }

  lemma NoJobChanges(s: System, event: Event, t: System)
    requires Takes(s, event, t) && !event.InGraph? && !event.TakesUp?
    ensures t.tasks == s.tasks && t.graph.infos == s.graph.infos
  {
  }

  lemma StepKeepsJob(s: System, event: Event, t: System, h: Handle)
    requires s.Valid() && Takes(s, event, t)
    ensures JobStays(s, t, h)
  {
    if h in s.graph.infos && h in s.tasks {
      if event.InGraph? {
        GraphJobStays(s, event, t, h);
      } else if event.TakesUp? {
        TakeUpKeepsJob(s, event.g, h);
      } else {
        NoJobChanges(s, event, t);
      }
    }
  }

  ghost predicate AlwaysStays(states: seq<System>, events: seq<Event>, h: Handle) {
    && |states| == |events| + 1
    && forall k: nat {:trigger events[k]} | k < |events| :: JobStays(states[k], states[k + 1], h)
  }

  lemma RunKeepsJob(states: seq<System>, events: seq<Event>, h: Handle)
    requires IsRun(states, events)
    ensures AlwaysStays(states, events, h)
  {
    forall k: nat | k < |events| ensures JobStays(states[k], states[k + 1], h) {
      EveryReachableStateIsValid(states, events, k);
      StepKeepsJob(states[k], events[k], states[k + 1], h);
    }
  }

  /** What an open makes of the slot and the dependencies the goroutine has. */
  lemma OpenDeclares(s: System, event: Event, t: System, h: Handle)
    requires s.Valid() && Takes(s, event, t) && Opens(event, event.g)
    requires h !in s.graph.infos && h in t.graph.infos
    ensures var pc := s.graph.At(event.g);
            pc.Opening? && h.slot == pc.slot && t.graph.infos[h].declared == DepsOf(pc.deps)
    ensures h in t.tasks && t.tasks[h] == event.task
  {
    GR.MadeBy(s.graph, event.g, event.event, event.graph);
  }

  ghost function DepsOf(deps: seq<Handle>): set<Handle> {
    set d | d in deps
  }

  /** Job h is of the slot, the dependencies and the task given. */
  ghost predicate IsMade(s: System, h: Handle, slot: nat, deps: seq<Handle>, task: nat) {
    && h in s.graph.infos && h in s.tasks && h.slot == slot && s.tasks[h] == task
    && s.graph.infos[h].declared == DepsOf(deps)
  }

  lemma {:induction false} MadeStays(states: seq<System>, events: seq<Event>, j: nat, k: nat, h: Handle, slot: nat,
                                     deps: seq<Handle>, task: nat)
    requires AlwaysStays(states, events, h) && j <= k < |states| && IsMade(states[j], h, slot, deps, task)
    ensures IsMade(states[k], h, slot, deps, task)
  {
    if j < k {
      MadeStays(states, events, j, k - 1, h, slot, deps, task);
      assert events[k - 1] == events[k - 1] && JobStays(states[k - 1], states[k], h);
    }
  }

  lemma MadeAsAcquired(states: seq<System>, events: seq<Event>, a: nat, o: nat, h: Handle)
    requires IsRun(states, events) && Makes(states, events, a, o, h)
    ensures IsMade(states[o + 1], h, events[a].event.free, events[a].event.deps, events[o].task)
  {
    GoroutineStaysPut(states, events, events[a].g);
    OpensWhatItAcquired(states, events, a, o, states[a + 1].graph.At(events[a].g));
    EveryReachableStateIsValid(states, events, o);
    OpenDeclares(states[o], events[o], states[o + 1], h);
  }

  /** The job opened after an acquire is one of the slot acquired, declared to wait
      for the dependencies the acquire was given and no others, and of the task
      given, for ever after. */
  lemma AcquiredJobDeclares(states: seq<System>, events: seq<Event>, a: nat, o: nat, h: Handle, k: nat)
    requires IsRun(states, events) && Makes(states, events, a, o, h) && o < k < |states|
    ensures h in states[k].graph.infos && h in states[k].tasks && h.slot == events[a].event.free
    ensures states[k].graph.infos[h].declared == DepsOf(events[a].event.deps)
    ensures states[k].tasks[h] == events[o].task
  {
    MadeAsAcquired(states, events, a, o, h);
    RunKeepsJob(states, events, h);
    MadeStays(states, events, o + 1, k, h, events[a].event.free, events[a].event.deps, events[o].task);
  }

  ghost predicate AllFinished(s: System, deps: seq<Handle>) {
    forall i | 0 <= i < |deps| && deps[i].slot != NONE :: s.graph.Finished(deps[i])
  }

  lemma ArrivingIsFree(s: System, g: nat, h: Handle)
    requires s.Valid() && GR.Arriving(s.graph.At(g)) == Some(h)
    ensures h in s.graph.infos && s.graph.infos[h].tokens == {}
  {
    assert s.graph.ThreadOk(g);
  }

  /** It is handed on only where every dependency given to the acquire has
      finished. */
  lemma HandedOnAfterDependencies(states: seq<System>, events: seq<Event>, a: nat, o: nat, h: Handle, k: nat)
    requires IsRun(states, events) && Makes(states, events, a, o, h) && o < k < |events|
    requires events[k].HandOn? && GR.Arriving(states[k].graph.At(events[k].g)) == Some(h)
    ensures AllFinished(states[k], events[a].event.deps)
  {
    EveryReachableStateIsValid(states, events, k);
    AcquiredJobDeclares(states, events, a, o, h, k);
    ArrivingIsFree(states[k], events[k].g, h);
    HandedOnceAfterDependencies(states[k].graph, h);
    assert forall d | d in events[a].event.deps :: d in states[k].graph.infos[h].declared;
  }

  ghost predicate HasBegun(states: seq<System>, events: seq<Event>, k: nat, h: Handle) {
    exists p: nat :: p < k && Begins(states, events, p, h)
  }

  /** Before event k a worker got h, and later was done with it. */
  ghost predicate HasRun(states: seq<System>, events: seq<Event>, k: nat, h: Handle) {
    exists p: nat, e: nat :: p < e < k && Begins(states, events, p, h) && Ends(states, events, e, h)
  }

  /** Where a job is says what was done with it, before event k. */
  ghost predicate Told(states: seq<System>, events: seq<Event>, k: nat, h: Handle)
    requires k < |states|
  {
    h in states[k].wheres ==>
      && (states[k].wheres[h].Running? ==> HasBegun(states, events, k, h))
      && (states[k].wheres[h].Ending? || states[k].wheres[h] == TakenUp ==> HasRun(states, events, k, h))
  }

  /** How far a job is on its way. */
  ghost function Stage(where: Where): nat {
    match where
    case Pending => 0
    case Handed(_) => 1
    case Asking => 2
    case Ready => 3
    case Running(_) => 4
    case Ending(_) => 5
    case TakenUp => 6
  }

  /** A job never goes back, and from where it waits for a worker each step on its
      way is an event of its own. */
  ghost predicate MovesOn(s: System, event: Event, t: System, h: Handle) {
    if h !in s.wheres then h in t.wheres ==> t.wheres[h] == Pending
    else
      && h in t.wheres && Stage(t.wheres[h]) >= Stage(s.wheres[h])
      && (t.wheres[h] != s.wheres[h] ==>
            match t.wheres[h]
            case Running(g) => event == Pops(g) && t.WorkOf(g) == Runs(h) && s.wheres[h] == Ready
            case Ending(g) => event == Completes(g) && s.WorkOf(g) == Runs(h) && s.wheres[h] == Running(g)
            case TakenUp => event.TakesUp? && s.wheres[h].Ending?
            case _ => true)
  }

  lemma JobMovesOn(s: System, event: Event, t: System, h: Handle)
    requires s.Valid() && Takes(s, event, t)
    ensures MovesOn(s, event, t, h)
  {
    match event
    case InGraph(g, e, graph, task) => GraphMovesOn(s, event, t, h);
    case InCombine(g, e, comb) =>
    case HandOn(g) => HandOnMovesOn(s, event, t, h);
    case Grants(g) => GrantMovesOn(s, g, h);
    case _ => WorkMovesOn(s, event, t, h);
  }

  lemma HandOnMovesOn(s: System, event: Event, t: System, h: Handle)
    requires s.Valid() && Takes(s, event, t) && event.HandOn?
    ensures MovesOn(s, event, t, h)
  {
    assert s.ThreadOk(event.g);
  }

  lemma WorkMovesOn(s: System, event: Event, t: System, h: Handle)
    requires s.Valid() && Takes(s, event, t) && (event.Pops? || event.Completes? || event.TakesUp?)
    ensures MovesOn(s, event, t, h)
  {
    assert s.ThreadOk(event.g);
    if event.Pops? {
      assert s.ReadyOk(0);
    }
  }

  lemma GraphMovesOn(s: System, event: Event, t: System, h: Handle)
    requires s.Valid() && Takes(s, event, t) && event.InGraph?
    ensures MovesOn(s, event, t, h)
  {
    GR.EventHasEffect(s.graph, event.g, event.event, event.graph);
    assert s.JobOk(h);
    if h in s.graph.infos {
      assert GR.SameJob(s.graph, event.graph, h, GR.Brings(s.graph, event.g, event.event, event.graph));
    }
  }

  lemma GrantMovesOn(s: System, g: nat, h: Handle)
    requires s.Valid() && CanGrant(s, g)
    ensures MovesOn(s, Grants(g), Grant(s, g), h)
  {
    var job := s.comb.rest[0].job;
    C.JobsFirst(s.comb.rest);
    assert s.comb.StageOk(job) && s.NumberOk(job) && s.JobOk(s.names[job]);
  }

  /** h moves on with every event of a run, from before it was named. */
  ghost predicate Journey(states: seq<System>, events: seq<Event>, h: Handle) {
    && |states| == |events| + 1 && h !in states[0].wheres
    && forall k: nat {:trigger events[k]} | k < |events| :: MovesOn(states[k], events[k], states[k + 1], h)
  }

  lemma EveryJobHasJourney(states: seq<System>, events: seq<Event>, h: Handle)
    requires IsRun(states, events)
    ensures Journey(states, events, h)
  {
    forall k: nat | k < |events| ensures MovesOn(states[k], events[k], states[k + 1], h) {
      EveryReachableStateIsValid(states, events, k);
      JobMovesOn(states[k], events[k], states[k + 1], h);
    }
  }

  lemma {:induction false} JobsAreTold(states: seq<System>, events: seq<Event>, k: nat, h: Handle)
    requires Journey(states, events, h) && k < |states|
    ensures Told(states, events, k, h)
  {
    if k > 0 {
      JobsAreTold(states, events, k - 1, h);
      assert MovesOn(states[k - 1], events[k - 1], states[k], h);
      if h in states[k - 1].wheres && states[k].wheres[h] != states[k - 1].wheres[h] {
        if states[k].wheres[h].Running? {
          assert Begins(states, events, k - 1, h);
        } else if states[k].wheres[h].Ending? {
          assert Ends(states, events, k - 1, h);
        }
      }
    }
  }

  /** A job that has finished was begun once before, and ended later. */
  lemma FinishedHasRun(states: seq<System>, events: seq<Event>, k: nat, h: Handle)
    requires IsRun(states, events) && k < |states| && states[k].graph.Finished(h)
    ensures HasRun(states, events, k, h)
  {
    EveryReachableStateIsValid(states, events, k);
    EveryJobHasJourney(states, events, h);
    JobsAreTold(states, events, k, h);
    Facts(states[k].graph, h.slot, 0, h);
    assert states[k].JobOk(h);
  }

  /** What a worker begins was ready before and runs after. */
  lemma BeginsAtReady(states: seq<System>, events: seq<Event>, k: nat, h: Handle)
    requires IsRun(states, events) && Begins(states, events, k, h)
    ensures h in states[k].wheres && states[k].wheres[h] == Ready && h in states[k].graph.infos
    ensures h in states[k + 1].wheres && states[k + 1].wheres[h] == Running(events[k].g)
    ensures states[k].graph.infos[h].tokens == {}
  {
    EveryReachableStateIsValid(states, events, k);
    assert states[k].ReadyOk(0) && states[k].JobOk(h);
  }

  lemma {:induction false} StageGrows(states: seq<System>, events: seq<Event>, j: nat, k: nat, h: Handle)
    requires Journey(states, events, h) && j <= k < |states| && h in states[j].wheres
    ensures h in states[k].wheres && Stage(states[k].wheres[h]) >= Stage(states[j].wheres[h])
  {
    if j < k {
      StageGrows(states, events, j, k - 1, h);
      assert MovesOn(states[k - 1], events[k - 1], states[k], h);
    }
  }

  /** No job is begun twice. */
  lemma BegunOnce(states: seq<System>, events: seq<Event>, p: nat, q: nat, h: Handle)
    requires IsRun(states, events) && Begins(states, events, p, h) && Begins(states, events, q, h)
    ensures p == q
  {
    BeginsAtReady(states, events, p, h);
    BeginsAtReady(states, events, q, h);
    EveryJobHasJourney(states, events, h);
    if p < q {
      StageGrows(states, events, p + 1, q, h);
    } else if q < p {
      StageGrows(states, events, q + 1, p, h);
    }
  }

  lemma BeginsAfterOpen(states: seq<System>, events: seq<Event>, a: nat, o: nat, h: Handle, k: nat)
    requires IsRun(states, events) && Makes(states, events, a, o, h) && Begins(states, events, k, h)
    ensures o < k
  {
    BeginsAtReady(states, events, k, h);
    EveryReachableStateIsValid(states, events, o);
    assert states[o].JobOk(h);
    EveryJobHasJourney(states, events, h);
    if k <= o {
      StageGrows(states, events, k, o, h);
    }
  }

  /** A job is begun after its open, and after each dependency given to its acquire
      was begun and ended. */
  lemma BeginsAfterDependencies(states: seq<System>, events: seq<Event>, a: nat, o: nat, h: Handle, k: nat)
    requires IsRun(states, events) && Makes(states, events, a, o, h) && Begins(states, events, k, h)
    ensures o < k
    ensures var deps := events[a].event.deps;
            forall i | 0 <= i < |deps| && deps[i].slot != NONE :: HasRun(states, events, k, deps[i])
  {
    BeginsAfterOpen(states, events, a, o, h, k);
    BeginsAtReady(states, events, k, h);
    AcquiredJobDeclares(states, events, a, o, h, k);
    EveryReachableStateIsValid(states, events, k);
    HandedOnceAfterDependencies(states[k].graph, h);
    var deps := events[a].event.deps;
    forall i | 0 <= i < |deps| && deps[i].slot != NONE ensures HasRun(states, events, k, deps[i]) {
      assert deps[i] in states[k].graph.infos[h].declared;
      FinishedHasRun(states, events, k, deps[i]);
    }
  }

  /** A job begun runs until an event ends it. */
  lemma {:induction false} RunsUntilItEnds(states: seq<System>, events: seq<Event>, p: nat, k: nat, h: Handle)
    requires Journey(states, events, h) && p < k < |states|
    requires h in states[p + 1].wheres && states[p + 1].wheres[h].Running?
    requires forall e: nat | p < e < k :: !Ends(states, events, e, h)
    ensures h in states[k].wheres && states[k].wheres[h].Running?
  {
    if k > p + 1 {
      RunsUntilItEnds(states, events, p, k - 1, h);
      assert MovesOn(states[k - 1], events[k - 1], states[k], h) && !Ends(states, events, k - 1, h);
    }
  }

  lemma StepKeepsTable(s: System, event: Event, t: System)
    requires s.Valid() && Takes(s, event, t)
    ensures t.comb.table == s.comb.table
  {
    if event.InCombine? {
      CR.EventEffect(s.comb, event.g, event.combine, event.comb, 0);
    }
  }

  lemma {:induction false} TableStays(states: seq<System>, events: seq<Event>, k: nat)
    requires IsRun(states, events) && k < |states|
    ensures states[k].comb.table == states[0].comb.table
  {
    if k > 0 {
      TableStays(states, events, k - 1);
      EveryReachableStateIsValid(states, events, k - 1);
      StepKeepsTable(states[k - 1], events[k - 1], states[k]);
    }
  }

  /** Two jobs whose tasks' locks conflict never overlap: the one begun first has
      ended before the other is begun. The tasks are those their events give. */
  lemma ConflictingJobsNeverOverlap(states: seq<System>, events: seq<Event>, resources: nat, x: (nat, nat, Handle),
                                    y: (nat, nat, Handle), p: nat, q: nat)
    requires IsRun(states, events) && TableOk(states[0].comb.table, resources) && x.2 != y.2
    requires Makes(states, events, x.0, x.1, x.2) && Makes(states, events, y.0, y.1, y.2)
    requires Begins(states, events, p, x.2) && Begins(states, events, q, y.2) && p < q
    ensures var table, a, b := states[0].comb.table, events[x.1].task, events[y.1].task;
            && a < |table| && b < |table|
            && (Conflict(table[a], table[b]) ==> exists e: nat :: p < e < q && Ends(states, events, e, x.2))
  {
    BeginsAfterDependencies(states, events, x.0, x.1, x.2, p);
    BeginsAfterDependencies(states, events, y.0, y.1, y.2, q);
    AcquiredJobDeclares(states, events, x.0, x.1, x.2, q);
    AcquiredJobDeclares(states, events, y.0, y.1, y.2, q);
    TableStays(states, events, q);
    EveryReachableStateIsValid(states, events, q);
    BeginsAtReady(states, events, q, y.2);
    BeginsAtReady(states, events, p, x.2);
    EveryJobHasJourney(states, events, x.2);
    StageGrows(states, events, p, q, x.2);
    assert states[q].JobOk(x.2) && states[q].JobOk(y.2);
    if forall e: nat | p < e < q :: !Ends(states, events, e, x.2) {
      RunsUntilItEnds(states, events, p, q, x.2);
      RunningNeverConflict(states[q], resources, x.2, y.2);
    }
  }

  /** The job an event makes ready: one handed on that locks nothing, or one
      granted its locks. */
  ghost function ReadiedAt(s: System, event: Event): seq<Handle> {
    if event.HandOn? && CanArrive(s, event.g) && NeedsNoLocks(s, ArrivingJob(s, event.g))
    then [ArrivingJob(s, event.g)]
    else if event.Grants? && CanGrant(s, event.g) then [s.names[s.comb.rest[0].job]]
    else []
  }

  /** The job a worker gets by an event. */
  ghost function BegunAt(event: Event, t: System): seq<Handle> {
    if event.Pops? && t.WorkOf(event.g).Runs? then [t.WorkOf(event.g).job] else []
  }

  ghost function ReadiedBy(states: seq<System>, events: seq<Event>, k: nat): seq<Handle>
    requires k <= |events| < |states|
  {
    if k == 0 then [] else ReadiedBy(states, events, k - 1) + ReadiedAt(states[k - 1], events[k - 1])
  }

  ghost function BegunBy(states: seq<System>, events: seq<Event>, k: nat): seq<Handle>
    requires k <= |events| < |states|
  {
    if k == 0 then [] else BegunBy(states, events, k - 1) + BegunAt(events[k - 1], states[k])
  }

  /** What an event does to the ready jobs. */
  ghost predicate MovesReady(s: System, event: Event, t: System) {
    s.ready + ReadiedAt(s, event) == BegunAt(event, t) + t.ready
  }

  lemma StepMovesReady(s: System, event: Event, t: System)
    requires Takes(s, event, t)
    ensures MovesReady(s, event, t)
  {
    if event.Pops? {
      assert s.ready == [s.ready[0]] + s.ready[1..];
    }
  }

  lemma {:induction false} ReadyIsQueue(states: seq<System>, events: seq<Event>, k: nat)
    requires |states| == |events| + 1 && states[0].ready == [] && k < |states|
    requires forall j: nat {:trigger events[j]} | j < |events| :: MovesReady(states[j], events[j], states[j + 1])
    ensures ReadiedBy(states, events, k) == BegunBy(states, events, k) + states[k].ready
  {
    if k > 0 {
      ReadyIsQueue(states, events, k - 1);
      assert MovesReady(states[k - 1], events[k - 1], states[k]);
      QueueMovesOn(ReadiedBy(states, events, k - 1), BegunBy(states, events, k - 1), states[k - 1].ready,
                   ReadiedAt(states[k - 1], events[k - 1]), BegunAt(events[k - 1], states[k]), states[k].ready);
    }
  }

  /** The jobs made ready are those begun, in the same order, and then those still
      to begin. */
  lemma BegunInOrder(states: seq<System>, events: seq<Event>, k: nat)
    requires IsRun(states, events) && k < |states|
    ensures ReadiedBy(states, events, k) == BegunBy(states, events, k) + states[k].ready
  {
    forall j: nat | j < |events| ensures MovesReady(states[j], events[j], states[j + 1]) {
      StepMovesReady(states[j], events[j], states[j + 1]);
    }
    ReadyIsQueue(states, events, k);
  }

  /** By event i job h asks for its locks, with request r. */
  ghost predicate Asks(states: seq<System>, events: seq<Event>, i: nat, h: Handle, r: Request) {
    && i < |events| < |states| && events[i].HandOn? && CanArrive(states[i], events[i].g)
    && ArrivingJob(states[i], events[i].g) == h && !NeedsNoLocks(states[i], h) && r == RequestOf(states[i], h)
  }

  /** By event i the combiner grants the request of job n. */
  ghost predicate GrantsRequest(states: seq<System>, events: seq<Event>, i: nat, n: nat) {
    i < |events| < |states| && events[i].Grants? && states[i].comb.rest != [] && states[i].comb.rest[0].job == n
  }

  /** A request stays until it is granted, and those that come later are younger. */
  ghost predicate StaysAsked(s: System, event: Event, t: System, r: Request) {
    && t.comb.tickets >= s.comb.tickets
    && (r in s.comb.List() ==>
          r in t.comb.List() || (event.Grants? && s.comb.rest != [] && s.comb.rest[0].job == r.job))
  }

  lemma GrantTakesFirst(s: System, g: nat, r: Request)
    requires S.CanGrant(s.comb, g) && r in s.comb.List()
    ensures r in S.Grant(s.comb, g).List() || s.comb.rest[0] == r
  {
    assert s.comb.rest == [s.comb.rest[0]] + s.comb.rest[1..];
  }

  lemma RequestStays(s: System, event: Event, t: System, r: Request)
    requires s.Valid() && Takes(s, event, t)
    ensures StaysAsked(s, event, t, r)
  {
    if event.InCombine? {
      CR.SameRequests(s.comb, event.g, event.combine, event.comb);
      CR.EventEffect(s.comb, event.g, event.combine, event.comb, 0);
    } else if event.Grants? {
      if r in s.comb.List() {
        GrantTakesFirst(s, event.g, r);
      }
    } else {
      OnlyAsksMore(s, event, t);
    }
  }

  lemma OnlyAsksMore(s: System, event: Event, t: System)
    requires Takes(s, event, t) && !event.InCombine? && !event.Grants?
    ensures t.comb.tickets >= s.comb.tickets && s.comb.List() <= t.comb.List()
  {
    assert s.comb.kept + s.comb.rest == t.comb.kept + t.comb.rest;
  }

  ghost predicate AlwaysAsked(states: seq<System>, events: seq<Event>, r: Request) {
    && |states| == |events| + 1
    && forall k: nat {:trigger events[k]} | k < |events| :: StaysAsked(states[k], events[k], states[k + 1], r)
  }

  lemma RunKeepsRequest(states: seq<System>, events: seq<Event>, r: Request)
    requires IsRun(states, events)
    ensures AlwaysAsked(states, events, r)
  {
    forall k: nat | k < |events| ensures StaysAsked(states[k], events[k], states[k + 1], r) {
      EveryReachableStateIsValid(states, events, k);
      RequestStays(states[k], events[k], states[k + 1], r);
    }
  }

  lemma {:induction false} AskedUntilGranted(states: seq<System>, events: seq<Event>, j: nat, k: nat, r: Request)
    requires AlwaysAsked(states, events, r) && j <= k < |states| && r in states[j].comb.List()
    requires forall e: nat | j <= e < k :: !GrantsRequest(states, events, e, r.job)
    ensures r in states[k].comb.List() && states[k].comb.tickets >= states[j].comb.tickets
  {
    if j < k {
      AskedUntilGranted(states, events, j, k - 1, r);
      assert StaysAsked(states[k - 1], events[k - 1], states[k], r) && !GrantsRequest(states, events, k - 1, r.job);
    }
  }

  lemma {:induction false} TicketsGrow(states: seq<System>, events: seq<Event>, j: nat, k: nat, r: Request)
    requires AlwaysAsked(states, events, r) && j <= k < |states|
    ensures states[k].comb.tickets >= states[j].comb.tickets
  {
    if j < k {
      TicketsGrow(states, events, j, k - 1, r);
      assert StaysAsked(states[k - 1], events[k - 1], states[k], r);
    }
  }

  lemma AskingIsListed(states: seq<System>, events: seq<Event>, i: nat, h: Handle, r: Request)
    requires IsRun(states, events) && Asks(states, events, i, h, r)
    ensures r in states[i + 1].comb.List() && states[i + 1].comb.tickets == r.ticket + 1
    ensures h in states[i].graph.infos && r.job == states[i].Number(h) && h in states[i].tasks
    ensures r.task == states[i].tasks[h]
  {
    assert states[i + 1] == ArriveAsking(states[i], events[i].g);
    assert states[i + 1].comb.arrivals[|states[i].comb.arrivals|] == r;
  }

  lemma {:induction false} NumberStays(states: seq<System>, events: seq<Event>, j: nat, k: nat, h: Handle)
    requires AlwaysStays(states, events, h) && j <= k < |states|
    requires h in states[j].graph.infos && h in states[j].tasks
    ensures h in states[k].graph.infos && h in states[k].tasks
    ensures states[k].Number(h) == states[j].Number(h)
  {
    if j < k {
      NumberStays(states, events, j, k - 1, h);
      assert events[k - 1] == events[k - 1] && JobStays(states[k - 1], states[k], h);
    }
  }

  /** The combiner grants a job that asks, which is ready from there. */
  lemma GrantsOneThatAsks(states: seq<System>, events: seq<Event>, e: nat, n: nat)
    requires IsRun(states, events) && GrantsRequest(states, events, e, n)
    ensures n in states[e].names
    ensures var h := states[e].names[n];
            && h in states[e].graph.infos && h in states[e].tasks && states[e].Number(h) == n
            && h in states[e].wheres && states[e].wheres[h] == Asking
            && h in states[e + 1].wheres && states[e + 1].wheres[h] == Ready
  {
    EveryReachableStateIsValid(states, events, e);
    var s := states[e];
    C.JobsFirst(s.comb.rest);
    assert s.comb.StageOk(n) && s.NumberOk(n) && s.JobOk(s.names[n]);
  }

  /** A number goes on naming the job it does. */
  lemma NameStays(states: seq<System>, events: seq<Event>, e: nat, q: nat, h: Handle)
    requires IsRun(states, events) && e <= q < |states| && h in states[e].graph.infos && h in states[e].tasks
    ensures states[e].Number(h) in states[q].names && states[q].names[states[e].Number(h)] == h
  {
    RunKeepsJob(states, events, h);
    NumberStays(states, events, e, q, h);
    EveryReachableStateIsValid(states, events, q);
    assert states[q].JobOk(h);
  }

  lemma GrantedOnce(states: seq<System>, events: seq<Event>, e: nat, q: nat, n: nat)
    requires IsRun(states, events) && GrantsRequest(states, events, e, n) && GrantsRequest(states, events, q, n)
    ensures e >= q
  {
    GrantsOneThatAsks(states, events, e, n);
    GrantsOneThatAsks(states, events, q, n);
    if e < q {
      var h := states[e].names[n];
      NameStays(states, events, e, q, h);
      EveryJobHasJourney(states, events, h);
      StageGrows(states, events, e + 1, q, h);
    }
  }

  lemma {:induction false} JobsDiffer(requests: seq<Request>, i: nat, j: nat)
    requires NoneTwice(requests) && i < j < |requests|
    ensures requests[i].job != requests[j].job
  {
    var front := requests[..|requests| - 1];
    if j == |front| {
      JobAt(front, i);
    } else {
      JobsDiffer(front, i, j);
    }
  }

  /** A job has one request at most. */
  lemma OneRequestOfJob(s: C.Combiner, a: Request, b: Request)
    requires s.Valid() && a in s.List() && b in s.List() && a.job == b.job
    ensures a == b
  {
    C.JobsConcat(s.kept, s.rest);
    C.JobsConcat(s.kept + s.rest, s.arrivals);
    forall job | job in Jobs(s.arrivals) ensures job !in Jobs(s.kept) && job !in Jobs(s.rest) {
      assert s.StageOk(job);
    }
    var list := s.List();
    var i: nat :| i < |list| && list[i] == a;
    var j: nat :| j < |list| && list[j] == b;
    if i < j {
      JobsDiffer(list, i, j);
    } else if j < i {
      JobsDiffer(list, j, i);
    }
  }

  /** No job overtakes one that asked before and writes what it touches: that one is
      granted its locks first. */
  lemma GrantedInTheOrderAsked(states: seq<System>, events: seq<Event>, i: nat, x: Handle, rx: Request, j: nat,
                               y: Handle, ry: Request, q: nat)
    requires IsRun(states, events) && i < j < q && GrantsRequest(states, events, q, ry.job)
    requires Asks(states, events, i, x, rx) && Asks(states, events, j, y, ry)
    ensures x in states[i].tasks && rx.task == states[i].tasks[x]
    ensures y in states[j].tasks && ry.task == states[j].tasks[y]
    ensures var table := states[0].comb.table;
            && rx.task < |table| && ry.task < |table|
            && (Bars(table[rx.task], table[ry.task]) ==>
                  exists e: nat :: i < e < q && GrantsRequest(states, events, e, rx.job))
  {
    AskingIsListed(states, events, i, x, rx);
    AskingIsListed(states, events, j, y, ry);
    TableStays(states, events, i);
    TableStays(states, events, j);
    if forall e: nat | i < e < q :: !GrantsRequest(states, events, e, rx.job) {
      NotOvertaken(states, events, i, rx, j, ry, q);
    }
  }

  /** What is granted is the request made. */
  lemma GrantsWhatWasAsked(states: seq<System>, events: seq<Event>, j: nat, ry: Request, q: nat)
    requires IsRun(states, events) && j < q < |events| && GrantsRequest(states, events, q, ry.job)
    requires ry in states[j + 1].comb.List()
    ensures states[q].comb.rest[0] == ry
  {
    RunKeepsRequest(states, events, ry);
    forall e: nat | j + 1 <= e < q ensures !GrantsRequest(states, events, e, ry.job) {
      if GrantsRequest(states, events, e, ry.job) {
        GrantedOnce(states, events, e, q, ry.job);
      }
    }
    AskedUntilGranted(states, events, j + 1, q, ry);
    EveryReachableStateIsValid(states, events, q);
    OneRequestOfJob(states[q].comb, ry, states[q].comb.rest[0]);
  }

  lemma NotOvertaken(states: seq<System>, events: seq<Event>, i: nat, rx: Request, j: nat, ry: Request, q: nat)
    requires IsRun(states, events) && i < j < q < |events| && GrantsRequest(states, events, q, ry.job)
    requires rx in states[i + 1].comb.List() && states[i + 1].comb.tickets == rx.ticket + 1
    requires ry in states[j + 1].comb.List() && states[j].comb.tickets == ry.ticket
    requires forall e: nat | i < e < q :: !GrantsRequest(states, events, e, rx.job)
    requires rx.task < |states[0].comb.table| && ry.task < |states[0].comb.table|
    ensures !Bars(states[0].comb.table[rx.task], states[0].comb.table[ry.task])
  {
    GrantsWhatWasAsked(states, events, j, ry, q);
    RunKeepsRequest(states, events, rx);
    AskedUntilGranted(states, events, i + 1, q, rx);
    TicketsGrow(states, events, i + 1, j, rx);
    EveryReachableStateIsValid(states, events, q);
    TableStays(states, events, q);
    S.GrantsInOrder(states[q].comb, events[q].g, rx);
  }
}
