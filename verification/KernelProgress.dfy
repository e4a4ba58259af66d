/** A kernel with an unfinished job always has a step to take that serves one. */
module KernelProgress {
  import opened Basics
  import opened KernelJobGraph
  import opened KernelSystem
  import opened KernelSystemSteps
  import opened KernelRuns
  import G = KernelJobSteps
  import GR = KernelJobRuns
  import C = KernelCombining
  import S = KernelCombiningSteps
  import CR = KernelCombiningRuns

  /** Whether goroutine g has something in hand: a job it runs or completes, jobs
      it publishes or finishes, or the combiner's work. */
  ghost predicate HasInHand(s: System, g: nat) {
    s.WorkOf(g) != Idle || s.graph.At(g) != Publishing([]) || s.comb.At(g) != C.Out
  }

  /** Whether a step is of work that is there already: not the start of another
      job, nor the submission of none. */
  ghost predicate Serves(s: System, event: Event) {
    event.InGraph? ==> !event.event.EvAcquire? && (event.event.EvSubmit? ==> s.graph.At(event.g) != Publishing([]))
  }

  ghost predicate CanServe(s: System) {
    exists event, t :: Takes(s, event, t) && Serves(s, event)
  }

  /** Some number is not in a finite set. */
  lemma Unused(used: set<nat>) returns (n: nat)
    ensures n !in used
  {
    n := 0;
    var left := used;
    while n in used
      invariant left == set k | k in used && k >= n
      decreases left
    {
      left := left - {n};
      n := n + 1;
    }
  }

  /** A step in the graph is one of the system. */
  lemma GraphStepServes(s: System, g: nat, e: GR.Event, graph: Graph)
    requires s.comb.At(g) == C.Out && !s.WorkOf(g).Ends? && 0 < |s.comb.table|
    requires GR.Takes(s.graph, g, e, graph) && Serves(s, InGraph(g, e, graph, 0))
    ensures CanServe(s)
  {
    var event := InGraph(g, e, graph, 0);
    var t := GraphStep(s, g, graph, GR.Makes(s.graph, g, e), GR.Brings(s.graph, g, e, graph), 0);
    assert Takes(s, event, t);
  }

  lemma CombineMovesOn(s: System, g: nat)
    requires s.Valid() && s.comb.At(g) != C.Out
    ensures CanServe(s)
  {
    var c := s.comb;
    match c.At(g)
    case Trying => CombineServes(s, g, CR.EvTryLock, S.TryLock(c, g));
    case AtReleases => CombineServes(s, g, CR.EvDrainReleases, S.DrainReleases(c, g));
    case AtArrivals => CombineServes(s, g, CR.EvDrainArrivals, S.DrainArrivals(c, g));
    case AtPass => PassMovesOn(s, g);
    case AtUnlock => CombineServes(s, g, CR.EvUnlock, S.Unlock(c, g));
    case CheckingReleases => CombineServes(s, g, CR.EvCheckReleases, S.CheckReleases(c, g));
    case CheckingArrivals => CombineServes(s, g, CR.EvCheckArrivals, S.CheckArrivals(c, g));
  }

  lemma CombineServes(s: System, g: nat, e: CR.Event, comb: C.Combiner)
    requires CR.Takes(s.comb, g, e, comb)
    ensures CanServe(s)
  {
    assert Takes(s, InCombine(g, e, comb), CombineStep(s, comb));
  }

  /** A pass grants or keeps the next request, or ends. */
  lemma PassMovesOn(s: System, g: nat)
    requires s.Valid() && s.comb.At(g) == C.AtPass
    ensures CanServe(s)
  {
    var c := s.comb;
    if c.rest == [] {
      CombineServes(s, g, CR.EvEndPass, S.EndPass(c, g));
    } else if S.CanKeep(c, g) {
      CombineServes(s, g, CR.EvKeep, S.Keep(c, g));
    } else {
      assert s.RequestOk(|c.kept|) && c.List()[|c.kept|] == c.rest[0];
      assert Takes(s, Grants(g), Grant(s, g));
    }
  }

  /** A goroutine with a job to hand on. */
  lemma HandOnMovesOn(s: System, g: nat)
    requires s.Valid() && s.comb.At(g) == C.Out && GR.Arriving(s.graph.At(g)).Some?
    ensures CanServe(s)
  {
    var h := GR.Arriving(s.graph.At(g)).value;
    assert s.ThreadOk(g) && s.JobOk(h);
    if NeedsNoLocks(s, h) {
      assert Takes(s, HandOn(g), ArriveReady(s, g));
    } else {
      assert Takes(s, HandOn(g), ArriveAsking(s, g));
    }
  }

  /** A goroutine that walks the list of a job it finishes. */
  lemma WalkMovesOn(s: System, g: nat)
    requires s.Valid() && s.comb.At(g) == C.Out && !s.WorkOf(g).Ends? && 0 < |s.comb.table|
    requires s.graph.At(g).Walking? && s.graph.At(g).arriving == None
    ensures CanServe(s)
  {
    var graph := s.graph;
    var pc := graph.At(g);
    assert graph.ThreadOk(g);
    if pc.edge == NONE {
      GraphStepServes(s, g, GR.EvStore, G.Store(graph, g));
    } else {
      assert graph.ListsOk(pc.job.slot, |graph.List(pc.job.slot)| - 1, pc.edge);
      if pc.lowered {
        GraphStepServes(s, g, GR.EvNext, G.Next(graph, g));
      } else {
        GraphStepServes(s, g, GR.EvLowerSuccessor, G.LowerSuccessor(graph, g));
      }
    }
  }

  /** A goroutine in finishJob. */
  lemma FinishMovesOn(s: System, g: nat)
    requires s.Valid() && s.comb.At(g) == C.Out && !s.WorkOf(g).Ends? && 0 < |s.comb.table|
    requires Finishing(s.graph.At(g)) && GR.Arriving(s.graph.At(g)) == None
    ensures CanServe(s)
  {
    var graph := s.graph;
    assert graph.ThreadOk(g);
    match graph.At(g)
    case Closing(_) => GraphStepServes(s, g, GR.EvLoadGeneration, G.LoadGeneration(graph, g));
    case Swapping(_) => GraphStepServes(s, g, GR.EvSwap, G.Swap(graph, g));
    case Freeing(_) => GraphStepServes(s, g, GR.EvRelease, G.Release(graph, g));
    case Walking(_, _, _, _) => WalkMovesOn(s, g);
  }

  /** A goroutine midway through linking a job, whatever others do to the list it
      links to. */
  lemma LinkMovesOn(s: System, g: nat)
    requires s.Valid() && s.comb.At(g) == C.Out && !s.WorkOf(g).Ends? && 0 < |s.comb.table|
    requires s.graph.At(g).Linking?
    ensures CanServe(s)
  {
    var graph := s.graph;
    var pc := graph.At(g);
    assert graph.ThreadOk(g);
    match pc.step
    case Start =>
      if pc.deps == [] {
        GraphStepServes(s, g, GR.EvDone, G.Done(graph, g));
      } else if pc.deps[0].slot == NONE {
        GraphStepServes(s, g, GR.EvSkipNone, G.SkipNone(graph, g));
      } else {
        GraphStepServes(s, g, GR.EvRaise, G.Raise(graph, g));
      }
    case Raised =>
      var edge := Unused(graph.places.Keys + {NONE});
      GraphStepServes(s, g, GR.EvMake(edge), G.Make(graph, g, edge));
    case Made(_) =>
      if G.CanLoadRefused(graph, g) {
        GraphStepServes(s, g, GR.EvLoadRefused, G.LoadRefused(graph, g));
      } else {
        GraphStepServes(s, g, GR.EvLoad, G.Load(graph, g));
      }
    case Read(_, _) =>
      if G.CanLink(graph, g) {
        GraphStepServes(s, g, GR.EvLink, G.Link(graph, g));
      } else {
        GraphStepServes(s, g, GR.EvLinkFailed, G.LinkFailed(graph, g));
      }
    case Refused(_) => GraphStepServes(s, g, GR.EvDropEdge, G.DropEdge(graph, g));
    case Dropped => GraphStepServes(s, g, GR.EvLower, G.Lower(graph, g));
  }

  /** A goroutine that publishes, or submits what it published. */
  lemma PublishMovesOn(s: System, g: nat)
    requires s.Valid() && s.comb.At(g) == C.Out && !s.WorkOf(g).Ends? && 0 < |s.comb.table|
    requires !Finishing(s.graph.At(g)) && s.graph.At(g) != Publishing([]) && GR.Arriving(s.graph.At(g)) == None
    ensures CanServe(s)
  {
    var graph := s.graph;
    assert graph.ThreadOk(g);
    match graph.At(g)
    case Publishing(_) => GraphStepServes(s, g, GR.EvSubmit, G.Submit(graph, g));
    case Opening(_, _, _) => GraphStepServes(s, g, GR.EvOpen, G.Open(graph, g));
    case Linking(_, _, _, _) => LinkMovesOn(s, g);
    case Submitting(batch, _) =>
      if batch == [] {
        GraphStepServes(s, g, GR.EvEndSubmit, G.EndSubmit(graph, g));
      } else {
        GraphStepServes(s, g, GR.EvUnhold, G.Unhold(graph, g));
      }
  }

  /** A goroutine outside the graph and the combiner, with a job to complete. */
  lemma WorkMovesOn(s: System, g: nat)
    requires s.Valid() && s.comb.At(g) == C.Out && s.graph.At(g) == Publishing([]) && s.WorkOf(g) != Idle
    ensures CanServe(s)
  {
    assert s.ThreadOk(g) && s.JobOk(s.WorkOf(g).job);
    match s.WorkOf(g)
    case Runs(_) => assert Takes(s, Completes(g), Complete(s, g));
    case Ends(_) => assert Takes(s, TakesUp(g), TakeUp(s, g));
  }

  /** No goroutine is ever stuck: one with something in hand has a step to take. */
  lemma NoneIsStuck(s: System, g: nat)
    requires s.Valid() && HasInHand(s, g) && 0 < |s.comb.table|
    ensures CanServe(s)
  {
    assert s.ThreadOk(g);
    if s.comb.At(g) != C.Out {
      CombineMovesOn(s, g);
    } else if GR.Arriving(s.graph.At(g)).Some? {
      HandOnMovesOn(s, g);
    } else if s.graph.At(g) == Publishing([]) {
      WorkMovesOn(s, g);
    } else if Finishing(s.graph.At(g)) {
      FinishMovesOn(s, g);
    } else {
      PublishMovesOn(s, g);
    }
  }

  /** A ready job is popped by any goroutine with nothing in hand. */
  lemma ReadyMovesOn(s: System)
    requires s.Valid() && s.ready != []
    ensures CanServe(s)
  {
    var g := Unused(s.works.Keys + s.graph.threads.Keys + s.comb.spots.Keys);
    assert Takes(s, Pops(g), Pop(s, g));
  }

  /** While a job is unfinished there is a step to take that serves it or another. */
  lemma UnfinishedMovesOn(s: System, h: Handle)
    requires s.Valid() && h in s.graph.infos && !s.graph.infos[h].finished
    ensures CanServe(s)
  {
    assert s.JobOk(h);
    if g: nat :| HasInHand(s, g) {
      NoneIsStuck(s, g);
    } else {
      forall g: nat ensures s.graph.At(g) == Publishing([]) && !Busy(s, g) { assert !HasInHand(s, g); }
      NoDeadlock(s, h);
      ReadyMovesOn(s);
    }
  }

  /** In every interleaving, an unfinished job means that some goroutine has a
      step to take, whoever else is midway through anything. */
  lemma KernelNeverDeadlocks(states: seq<System>, events: seq<Event>, k: nat, h: Handle)
    requires IsRun(states, events) && k < |states|
    requires h in states[k].graph.infos && !states[k].graph.infos[h].finished
    ensures CanServe(states[k])
  {
    EveryReachableStateIsValid(states, events, k);
    UnfinishedMovesOn(states[k], h);
  }
}
