/** The steps of a kernel's parts together, and that each keeps them in step
    (kernel/job.go, kernel/combiner.go, kernel/runner.go, kernel/kernel.go). A
    step of one part keeps what links the parts if it does no more to the others
    than its effect says; the part itself stays valid by its own lemmas, so
    these are only about the links (KeepsLinks). */
module KernelSystemSteps {
  import opened Basics
  import opened KernelGranting
  import opened KernelJobGraph
  import opened KernelSystem
  import G = KernelJobSteps
  import GR = KernelJobRuns
  import C = KernelCombining
  import S = KernelCombiningSteps
  import CR = KernelCombiningRuns

  /** A step of goroutine g in the job graph: made is the job it gives a name, of
      task, and brought one it brings to wait for nothing. */
  ghost function GraphStep(s: System, g: nat, graph: Graph, made: Option<Handle>, brought: Option<Handle>,
                           task: nat): System
  {
    if made.Some? then
      s.(graph := graph, tasks := s.tasks[made.value := task], names := s.names[s.graph.count := made.value],
         wheres := s.wheres[made.value := Pending])
    else if brought.Some? then s.(graph := graph, wheres := s.wheres[brought.value := Handed(g)])
    else s.(graph := graph)
  }

  /** A goroutine outside combine, which does not complete a job, may take one. */
  ghost predicate CanGraphStep(s: System, g: nat, graph: Graph, made: Option<Handle>, brought: Option<Handle>,
                               task: nat)
  {
    && s.LinksOk() && !s.WorkOf(g).Ends? && GR.Effect(s.graph, g, graph, made, brought) && task < |s.comb.table|
    && s.graph.count !in s.names && s.graph.count !in s.comb.stages
  }

  /** No job has the number that the next will. */
  lemma NumbersAreBelow(s: System)
    requires s.graph.Valid() && s.LinksOk()
    ensures s.graph.count !in s.names && s.graph.count !in s.comb.stages
  {
    assert s.NumberOk(s.graph.count);
    if s.graph.count in s.names {
      Facts(s.graph, 0, 0, s.names[s.graph.count]);
    }
  }

  /** A job that a step neither names nor brings to wait for nothing. */
  lemma GraphStepKeepsOtherJob(s: System, g: nat, graph: Graph, made: Option<Handle>, brought: Option<Handle>,
                               task: nat, h: Handle)
    requires CanGraphStep(s, g, graph, made, brought, task) && made != Some(h) && brought != Some(h)
    ensures GraphStep(s, g, graph, made, brought, task).JobOk(h)
  {
    assert s.JobOk(h);
    if h in s.graph.infos {
      assert graph.infos[h].number == s.graph.infos[h].number;
      if s.wheres[h].Handed? && s.wheres[h].thread != g {
        assert graph.At(s.wheres[h].thread) == s.graph.At(s.wheres[h].thread);
      }
    }
  }

  lemma GraphStepKeepsJob(s: System, g: nat, graph: Graph, made: Option<Handle>, brought: Option<Handle>, task: nat,
                          h: Handle)
    requires CanGraphStep(s, g, graph, made, brought, task)
    ensures GraphStep(s, g, graph, made, brought, task).JobOk(h)
  {
    if made != Some(h) && brought != Some(h) {
      GraphStepKeepsOtherJob(s, g, graph, made, brought, task, h);
    } else {
      assert s.JobOk(h);
      if brought == Some(h) {
        assert graph.infos[h].number == s.graph.infos[h].number;
      }
    }
  }

  lemma GraphStepKeepsThread(s: System, g: nat, graph: Graph, made: Option<Handle>, brought: Option<Handle>, task: nat,
                             u: nat)
    requires CanGraphStep(s, g, graph, made, brought, task)
    ensures GraphStep(s, g, graph, made, brought, task).ThreadOk(u)
  {
    assert s.ThreadOk(u);
    assert u != g ==> graph.At(u) == s.graph.At(u);
    if made.Some? {
      assert s.JobOk(made.value);
    }
    if brought.Some? {
      assert s.JobOk(brought.value);
      assert graph.infos[brought.value].number == s.graph.infos[brought.value].number;
    }
  }

  lemma GraphStepKeepsOthers(s: System, g: nat, graph: Graph, made: Option<Handle>, brought: Option<Handle>, task: nat,
                             n: nat)
    requires CanGraphStep(s, g, graph, made, brought, task)
    ensures var t := GraphStep(s, g, graph, made, brought, task);
            t.NumberOk(n) && t.RequestOk(n) && t.HeldOk(n)
  {
    assert s.NumberOk(n) && s.RequestOk(n) && s.HeldOk(n);
    if n in s.names {
      assert graph.infos[s.names[n]].number == s.graph.infos[s.names[n]].number;
    }
    if made.Some? {
      assert s.JobOk(made.value);
    }
    if n < |s.comb.List()| {
      assert s.NumberOk(s.comb.List()[n].job) && s.JobOk(s.names[s.comb.List()[n].job]);
    }
    if brought.Some? {
      assert s.JobOk(brought.value);
      assert graph.infos[brought.value].number == s.graph.infos[brought.value].number;
    }
  }

  lemma GraphStepKeepsReady(s: System, g: nat, graph: Graph, made: Option<Handle>, brought: Option<Handle>, task: nat,
                            n: nat, m: nat)
    requires CanGraphStep(s, g, graph, made, brought, task)
    ensures GraphStep(s, g, graph, made, brought, task).ReadyOk(n)
    ensures GraphStep(s, g, graph, made, brought, task).ReadyOnce(n, m)
  {
    assert s.ReadyOk(n) && s.ReadyOnce(n, m);
    if made.Some? {
      assert s.JobOk(made.value);
    }
    if n < |s.ready| {
      assert s.JobOk(s.ready[n]);
    }
    if brought.Some? {
      assert s.JobOk(brought.value);
    }
  }

  lemma GraphStepKeepsLinks(s: System, g: nat, graph: Graph, made: Option<Handle>, brought: Option<Handle>, task: nat)
    requires CanGraphStep(s, g, graph, made, brought, task)
    ensures GraphStep(s, g, graph, made, brought, task).LinksOk()
  {
    var t := GraphStep(s, g, graph, made, brought, task);
    forall h ensures t.JobOk(h) { GraphStepKeepsJob(s, g, graph, made, brought, task, h); }
    forall n: nat ensures t.NumberOk(n) && t.RequestOk(n) && t.HeldOk(n) {
      GraphStepKeepsOthers(s, g, graph, made, brought, task, n);
    }
    forall n: nat ensures t.ReadyOk(n) { GraphStepKeepsReady(s, g, graph, made, brought, task, n, n); }
    forall n: nat, m: nat ensures t.ReadyOnce(n, m) { GraphStepKeepsReady(s, g, graph, made, brought, task, n, m); }
    forall u: nat ensures t.ThreadOk(u) { GraphStepKeepsThread(s, g, graph, made, brought, task, u); }
  }

  /** The job that goroutine g is about to hand on. */
  ghost predicate CanArrive(s: System, g: nat) {
    && s.comb.At(g) == C.Out && GR.Arriving(s.graph.At(g)).Some?
    && var h := GR.Arriving(s.graph.At(g)).value; h in s.graph.infos && s.HasTask(h)
  }

  ghost function ArrivingJob(s: System, g: nat): Handle
    requires CanArrive(s, g)
  {
    GR.Arriving(s.graph.At(g)).value
  }

  ghost predicate NeedsNoLocks(s: System, h: Handle)
    requires s.HasTask(h)
  {
    s.comb.table[s.tasks[h]].LocksNothing()
  }

  ghost function RequestOf(s: System, h: Handle): Request
    requires h in s.graph.infos && s.HasTask(h)
  {
    Request(h.slot, s.tasks[h], s.Number(h), s.comb.tickets)
  }

  /** Hands on a job that locks nothing: it is ready at once. */
  ghost function ArriveReady(s: System, g: nat): System
    requires CanArrive(s, g)
  {
    var h := ArrivingJob(s, g);
    s.(graph := G.Moved(s.graph, g, s.graph.At(g).(arriving := None)), ready := s.ready + [h],
        wheres := s.wheres[h := Ready])
  }

  /** Hands on a job that asks for its locks: its request is queued, and g goes
      on to combine. */
  ghost function ArriveAsking(s: System, g: nat): System
    requires CanArrive(s, g)
  {
    var h := ArrivingJob(s, g);
    s.(graph := G.Moved(s.graph, g, s.graph.At(g).(arriving := None)),
        comb := S.PushArrival(s.comb, g, RequestOf(s, h)),
       wheres := s.wheres[h := Asking])
  }

  lemma ArriveReadyKeepsLinks(s: System, g: nat)
    requires s.LinksOk() && CanArrive(s, g) && NeedsNoLocks(s, ArrivingJob(s, g))
    ensures ArriveReady(s, g).LinksOk()
  {
    var t, job := ArriveReady(s, g), ArrivingJob(s, g);
    assert s.ThreadOk(g) && s.JobOk(job);
    forall h ensures t.JobOk(h) { assert s.JobOk(h); }
    forall n: nat ensures t.NumberOk(n) && t.RequestOk(n) && t.HeldOk(n) {
      assert s.NumberOk(n) && s.RequestOk(n) && s.HeldOk(n);
    }
    forall k: nat ensures t.ReadyOk(k) { assert s.ReadyOk(k); }
    forall j: nat, k: nat ensures t.ReadyOnce(j, k) { assert s.ReadyOnce(j, k) && s.ReadyOk(j); }
    forall u: nat ensures t.ThreadOk(u) { assert s.ThreadOk(u); }
  }

  lemma ArriveAskingKeepsLinks(s: System, g: nat)
    requires s.LinksOk() && CanArrive(s, g) && !NeedsNoLocks(s, ArrivingJob(s, g))
    ensures ArriveAsking(s, g).LinksOk()
  {
    var t, job := ArriveAsking(s, g), ArrivingJob(s, g);
    assert s.ThreadOk(g) && s.JobOk(job);
    forall h ensures t.JobOk(h) { assert s.JobOk(h); }
    forall n: nat ensures t.NumberOk(n) && t.HeldOk(n) { assert s.NumberOk(n) && s.HeldOk(n); }
    assert t.comb.List() == s.comb.List() + [RequestOf(s, job)];
    forall k: nat ensures t.RequestOk(k) && t.ReadyOk(k) { assert s.RequestOk(k) && s.ReadyOk(k); }
    forall j: nat, k: nat ensures t.ReadyOnce(j, k) { assert s.ReadyOnce(j, k); }
    forall u: nat ensures t.ThreadOk(u) { assert s.ThreadOk(u); }
  }

  /** A step of combine that grants nothing. */
  ghost function CombineStep(s: System, comb: C.Combiner): System {
    s.(comb := comb)
  }

  lemma CombineStepKeepsLinks(s: System, comb: C.Combiner)
    requires s.LinksOk() && comb.table == s.comb.table && comb.List() == s.comb.List()
    requires forall n: nat {:trigger CR.OnlyLetsGo(s.comb, comb, n)} :: CR.OnlyLetsGo(s.comb, comb, n)
    ensures CombineStep(s, comb).LinksOk()
  {
    var t := CombineStep(s, comb);
    forall h ensures t.JobOk(h) {
      assert s.JobOk(h);
      if h in s.graph.infos { assert CR.OnlyLetsGo(s.comb, comb, s.Number(h)); }
    }
    forall n: nat ensures t.NumberOk(n) && t.HeldOk(n) {
      assert s.NumberOk(n) && s.HeldOk(n) && CR.OnlyLetsGo(s.comb, comb, n);
    }
    forall k: nat ensures t.RequestOk(k) && t.ReadyOk(k) { assert s.RequestOk(k) && s.ReadyOk(k); }
    forall j: nat, k: nat ensures t.ReadyOnce(j, k) { assert s.ReadyOnce(j, k); }
    forall u: nat ensures t.ThreadOk(u) { assert s.ThreadOk(u); }
  }

  /** The combiner locks a job's locks, and hands it to the runner. */
  ghost predicate CanGrant(s: System, g: nat) {
    S.CanGrant(s.comb, g) && s.comb.rest[0].job in s.names
  }

  ghost function Grant(s: System, g: nat): System
    requires CanGrant(s, g)
  {
    var h := s.names[s.comb.rest[0].job];
    s.(comb := S.Grant(s.comb, g), ready := s.ready + [h], wheres := s.wheres[h := Ready])
  }

  lemma GrantKeepsLinks(s: System, g: nat)
    requires s.LinksOk() && CanGrant(s, g) && s.comb.Is(s.comb.rest[0].job, C.Waiting)
    ensures Grant(s, g).LinksOk()
  {
    var t, r, m := Grant(s, g), s.comb.rest[0], |s.comb.kept|;
    var job := s.names[r.job];
    assert s.comb.List()[m] == r && s.RequestOk(m) && s.NumberOk(r.job) && s.JobOk(job);
    forall h ensures t.JobOk(h) { assert s.JobOk(h); }
    forall n: nat ensures t.NumberOk(n) && t.HeldOk(n) { assert s.NumberOk(n) && s.HeldOk(n); }
    forall k: nat ensures t.RequestOk(k) {
      assert s.RequestOk(k) && s.RequestOk(k + 1);
      assert k < |t.comb.List()| ==> t.comb.List()[k] == s.comb.List()[if k < m then k else k + 1];
    }
    forall k: nat ensures t.ReadyOk(k) { assert s.ReadyOk(k); }
    forall j: nat, k: nat ensures t.ReadyOnce(j, k) { assert s.ReadyOnce(j, k) && s.ReadyOk(j); }
    forall u: nat ensures t.ThreadOk(u) { assert s.ThreadOk(u); }
  }

  /** A worker pops a ready job and runs it. */
  ghost predicate CanPop(s: System, g: nat) {
    s.ready != [] && s.WorkOf(g) == Idle && s.graph.At(g) == Publishing([]) && s.comb.At(g) == C.Out
  }

  ghost function Pop(s: System, g: nat): System
    requires CanPop(s, g)
  {
    s.(ready := s.ready[1..], works := s.works[g := Runs(s.ready[0])], wheres := s.wheres[s.ready[0] := Running(g)])
  }

  lemma PopKeepsLinks(s: System, g: nat)
    requires s.LinksOk() && CanPop(s, g)
    ensures Pop(s, g).LinksOk()
  {
    var t, job := Pop(s, g), s.ready[0];
    assert s.ReadyOk(0) && s.ThreadOk(g) && s.JobOk(job);
    forall h ensures t.JobOk(h) {
      assert s.JobOk(h);
      if h in s.ready && h != job { assert h in s.ready[1..]; }
    }
    forall n: nat ensures t.NumberOk(n) && t.RequestOk(n) && t.HeldOk(n) {
      assert s.NumberOk(n) && s.RequestOk(n) && s.HeldOk(n);
    }
    forall k: nat ensures t.ReadyOk(k) { assert s.ReadyOk(k + 1) && s.ReadyOnce(0, k + 1); }
    forall j: nat, k: nat ensures t.ReadyOnce(j, k) { assert s.ReadyOnce(j + 1, k + 1); }
    forall u: nat ensures t.ThreadOk(u) { assert s.ThreadOk(u); }
  }

  /** A job has run: its locks are released, before it finishes in the graph. */
  ghost predicate CanComplete(s: System, g: nat) {
    && s.WorkOf(g).Runs? && s.graph.At(g) == Publishing([]) && s.comb.At(g) == C.Out
    && s.WorkOf(g).job in s.graph.infos && s.HasTask(s.WorkOf(g).job)
  }

  ghost function Complete(s: System, g: nat): System
    requires CanComplete(s, g)
  {
    var h := s.WorkOf(g).job;
    s.(comb := if NeedsNoLocks(s, h) then s.comb else S.PushRelease(s.comb, g, s.Number(h)),
       works := s.works[g := Ends(h)], wheres := s.wheres[h := Ending(g)])
  }

  lemma CompleteKeepsLinks(s: System, g: nat)
    requires s.LinksOk() && CanComplete(s, g)
    ensures Complete(s, g).LinksOk()
  {
    var t, job := Complete(s, g), s.WorkOf(g).job;
    assert s.ThreadOk(g) && s.JobOk(job);
    forall h ensures t.JobOk(h) { assert s.JobOk(h); }
    forall n: nat ensures t.NumberOk(n) && t.HeldOk(n) { assert s.NumberOk(n) && s.HeldOk(n); }
    assert t.comb.List() == s.comb.List();
    forall k: nat ensures t.RequestOk(k) && t.ReadyOk(k) { assert s.RequestOk(k) && s.ReadyOk(k); }
    forall j: nat, k: nat ensures t.ReadyOnce(j, k) { assert s.ReadyOnce(j, k); }
    forall u: nat ensures t.ThreadOk(u) { assert s.ThreadOk(u); }
  }

  /** Having released its locks, goroutine g finishes the job in the graph. */
  ghost predicate CanTakeUp(s: System, g: nat) {
    s.WorkOf(g).Ends? && s.comb.At(g) == C.Out && G.CanClaim(s.graph, g, s.WorkOf(g).job)
  }

  ghost function TakeUp(s: System, g: nat): System
    requires CanTakeUp(s, g)
  {
    var h := s.WorkOf(g).job;
    s.(graph := G.Claim(s.graph, g, h), works := s.works[g := Idle], wheres := s.wheres[h := TakenUp])
  }

  lemma TakeUpKeepsLinks(s: System, g: nat)
    requires s.LinksOk() && CanTakeUp(s, g)
    ensures TakeUp(s, g).LinksOk()
  {
    var t, job := TakeUp(s, g), s.WorkOf(g).job;
    assert s.ThreadOk(g) && s.JobOk(job);
    forall h ensures t.JobOk(h) { assert s.JobOk(h); }
    forall n: nat ensures t.NumberOk(n) && t.RequestOk(n) && t.HeldOk(n) {
      assert s.NumberOk(n) && s.RequestOk(n) && s.HeldOk(n);
    }
    forall k: nat ensures t.ReadyOk(k) { assert s.ReadyOk(k); }
    forall j: nat, k: nat ensures t.ReadyOnce(j, k) { assert s.ReadyOnce(j, k); }
    forall u: nat ensures t.ThreadOk(u) { assert s.ThreadOk(u); }
  }
}
