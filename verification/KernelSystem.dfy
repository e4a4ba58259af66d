/** A kernel's job graph, lock combiner and runner together, as interleaved
    atomic steps (kernel/job.go, kernel/combiner.go, kernel/kernel.go). */
module KernelSystem {
  import opened Basics
  import opened KernelLocks
  import opened KernelGranting
  import opened KernelJobGraph
  import opened KernelJobRuns
  import C = KernelCombining

  /** Where a job is on its way: it waits for others, is about to be handed to the
      combiner, asks for its locks, is ready, runs, has run, or was taken up to be
      finished. */
  datatype Where = Pending | Handed(thread: nat) | Asking | Ready | Running(thread: nat) | Ending(thread: nat) | TakenUp

  /** What a goroutine runs: a job, or one that has run and whose release it has
      queued. */
  datatype Work = Idle | Runs(job: Handle) | Ends(job: Handle)

  /** names says which job has each number, the combiner's name for it. */
  datatype System = System(
    graph: Graph, comb: C.Combiner, tasks: map<Handle, nat>, names: map<nat, Handle>, ready: seq<Handle>,
    works: map<nat, Work>, wheres: map<Handle, Where>)
  {
    ghost function WorkOf(g: nat): Work {
      if g in works then works[g] else Idle
    }

    ghost function Number(h: Handle): nat
      requires h in graph.infos
    {
      graph.infos[h].number
    }

    ghost predicate Free(h: Handle)
      requires h in graph.infos
    {
      graph.infos[h].tokens == {} && !graph.infos[h].claimed
    }

    ghost predicate HasTask(h: Handle) {
      h in tasks && tasks[h] < |comb.table|
    }

    /** h holds its locks, or needs none. */
    ghost predicate HasLocks(h: Handle)
      requires h in graph.infos && HasTask(h)
    {
      if comb.table[tasks[h]].LocksNothing() then Number(h) !in comb.stages else comb.Is(Number(h), C.Holding)
    }

    /** The combiner has no more of h than a release. */
    ghost predicate LetGo(h: Handle)
      requires h in graph.infos
    {
      Number(h) in comb.stages ==> comb.Is(Number(h), C.Releasing)
    }

    ghost predicate JobOk(h: Handle) {
      && (h in graph.infos <==> h in wheres)
      && (h in wheres ==>
            && HasTask(h) && Number(h) in names && names[Number(h)] == h
            && match wheres[h]
               case Pending => graph.infos[h].tokens != {} && !graph.infos[h].claimed && Number(h) !in comb.stages
               case Handed(g) => Free(h) && Arriving(graph.At(g)) == Some(h) && Number(h) !in comb.stages
               case Asking =>
                 Free(h) && !comb.table[tasks[h]].LocksNothing()
                     && (comb.Is(Number(h), C.Arrived) || comb.Is(Number(h), C.Waiting))
               case Ready => Free(h) && h in ready && HasLocks(h)
               case Running(g) => Free(h) && WorkOf(g) == Runs(h) && HasLocks(h)
               case Ending(g) => Free(h) && WorkOf(g) == Ends(h) && LetGo(h)
               case TakenUp => graph.infos[h].claimed && graph.infos[h].tokens == {} && LetGo(h))
    }

    ghost predicate NumberOk(n: nat) {
      n in comb.stages || n in names ==> n in names && names[n] in graph.infos && Number(names[n]) == n
    }

    ghost predicate RequestOk(k: nat) {
      k < |comb.List()| ==>
        var r := comb.List()[k];
        r.job in names && names[r.job] in tasks && tasks[names[r.job]] == r.task
    }

    /** What a job holds is what its task locks. */
    ghost predicate HeldOk(n: nat) {
      n in comb.held ==> n in names && HasTask(names[n]) && comb.held[n] == comb.table[tasks[names[n]]]
    }

    ghost predicate ReadyOk(k: nat) {
      k < |ready| ==> ready[k] in wheres && wheres[ready[k]] == Ready
    }

    ghost predicate ReadyOnce(j: nat, k: nat) {
      j < k < |ready| ==> ready[j] != ready[k]
    }

    ghost predicate ThreadOk(g: nat) {
      && (match WorkOf(g)
          case Idle => true
          case Runs(h) => h in wheres && wheres[h] == Running(g)
          case Ends(h) => h in wheres && wheres[h] == Ending(g) && graph.At(g) == Publishing([]))
      && (Arriving(graph.At(g)).Some? ==>
            var h := Arriving(graph.At(g)).value;
            h in wheres && wheres[h] == Handed(g))
    }

    ghost predicate LinksOk() {
      && (forall h {:trigger JobOk(h)} :: JobOk(h))
      && (forall n: nat {:trigger NumberOk(n)} :: NumberOk(n))
      && (forall k: nat {:trigger RequestOk(k)} :: RequestOk(k))
      && (forall n: nat {:trigger HeldOk(n)} :: HeldOk(n))
      && (forall k: nat {:trigger ReadyOk(k)} :: ReadyOk(k))
      && (forall j: nat, k: nat {:trigger ReadyOnce(j, k)} :: ReadyOnce(j, k))
      && (forall g: nat {:trigger ThreadOk(g)} :: ThreadOk(g))
    }

    ghost predicate Valid() {
      graph.Valid() && comb.Valid() && LinksOk()
    }
  }

  /** No two running jobs, nor two ready ones, have tasks whose locks conflict. */
  lemma RunningNeverConflict(s: System, resources: nat, a: Handle, b: Handle)
    requires s.Valid() && TableOk(s.comb.table, resources) && a != b
    requires a in s.wheres && (s.wheres[a].Running? || s.wheres[a] == Ready)
    requires b in s.wheres && (s.wheres[b].Running? || s.wheres[b] == Ready)
    ensures s.HasTask(a) && s.HasTask(b) && !Conflict(s.comb.table[s.tasks[a]], s.comb.table[s.tasks[b]])
  {
    assert s.JobOk(a) && s.JobOk(b);
    var la, lb := s.comb.table[s.tasks[a]], s.comb.table[s.tasks[b]];
    if la.LocksNothing() || lb.LocksNothing() {
      forall r: nat ensures !ConflictAt(la, lb, r) {
        assert la.ResourceOk(resources, r) && lb.ResourceOk(resources, r);
      }
    } else {
      C.HoldersNeverConflict(s.comb, s.Number(a), s.Number(b));
      assert s.HeldOk(s.Number(a)) && s.HeldOk(s.Number(b));
    }
  }

  /** Whether every batch is submitted: no goroutine has jobs of a publication in
      hand. */
  ghost predicate AllSubmitted(s: System) {
    forall g: nat {:trigger s.graph.At(g)} :: s.graph.At(g) == Publishing([]) || Finishing(s.graph.At(g))
  }

  /** Whether a goroutine is in finishJob. */
  ghost predicate Finishing(pc: Pc) {
    pc.Closing? || pc.Swapping? || pc.Walking? || pc.Freeing?
  }

  /** Whether a goroutine runs a job, completes one, or is in combine. */
  ghost predicate Busy(s: System, g: nat) {
    s.WorkOf(g) != Idle || Finishing(s.graph.At(g)) || s.comb.At(g) != C.Out
  }

  /** The oldest unfinished job. */
  lemma OldestUnfinished(s: System, h: Handle) returns (oldest: Handle)
    requires s.Valid() && h in s.graph.infos && !s.graph.infos[h].finished
    ensures oldest in s.graph.infos && !s.graph.infos[oldest].finished
    ensures forall d | d in s.graph.infos && !s.graph.infos[d].finished :: s.Number(oldest) <= s.Number(d)
    decreases s.Number(h)
  {
    if d :| d in s.graph.infos && !s.graph.infos[d].finished && s.Number(d) < s.Number(h) {
      oldest := OldestUnfinished(s, d);
    } else {
      oldest := h;
    }
  }

  /** No deadlock: with every batch submitted, while a job is unfinished some job
      is ready, or some goroutine runs or completes one, or is in combine. */
  lemma NoDeadlock(s: System, h: Handle)
    requires s.Valid() && AllSubmitted(s) && h in s.graph.infos && !s.graph.infos[h].finished
    ensures s.ready != [] || exists g: nat :: Busy(s, g)
  {
    var oldest := OldestUnfinished(s, h);
    assert s.JobOk(oldest);
    match s.wheres[oldest]
    case Pending => PendingMovesOn(s, oldest);
    case Handed(g) => assert Busy(s, g);
    case Asking => AskingMovesOn(s, oldest);
    case Ready =>
    case Running(g) => assert Busy(s, g);
    case Ending(g) => assert Busy(s, g);
    case TakenUp =>
      Facts(s.graph, oldest.slot, 0, oldest);
      TakenUpMovesOn(s, oldest);
  }

  /** The oldest unfinished job waits at most for one whose finish is under way. */
  lemma PendingMovesOn(s: System, h: Handle)
    requires s.Valid() && AllSubmitted(s) && h in s.graph.infos && s.graph.infos[h].tokens != {}
    requires forall d | d in s.graph.infos && !s.graph.infos[d].finished :: s.Number(h) <= s.Number(d)
    ensures exists g: nat :: Busy(s, g)
  {
    var token :| token in s.graph.infos[h].tokens;
    assert s.graph.JobsOk(h, token, h);
    var e := token.edge;
    WaitsForOlder(s.graph, h, e);
    assert Busy(s, s.graph.phases[s.graph.edges[e].source.slot].thread);
  }

  /** A job taken up has a goroutine that finishes it. */
  lemma TakenUpMovesOn(s: System, h: Handle)
    requires s.Valid() && h in s.graph.infos && s.graph.infos[h].claimed && !s.graph.infos[h].finished
    ensures exists g: nat :: Busy(s, g)
  {
    assert s.graph.JobsOk(h, Hold, h);
    assert Busy(s, s.graph.infos[h].holder);
  }

  /** A job that asks for its locks is seen to, or waits for one that holds locks
      and is on its way. */
  lemma AskingMovesOn(s: System, h: Handle)
    requires s.Valid() && h in s.wheres && s.wheres[h] == Asking
    ensures s.ready != [] || exists g: nat :: Busy(s, g)
  {
    if forall g: nat :: s.comb.At(g) == C.Out {
      C.QuietMeansSettled(s.comb);
      assert s.JobOk(h) && s.comb.StageOk(s.Number(h));
      var job :| job in s.comb.held && s.comb.Is(job, C.Holding);
      assert s.NumberOk(job) && s.JobOk(s.names[job]);
      if s.wheres[s.names[job]].Running? {
        assert Busy(s, s.wheres[s.names[job]].thread);
      }
    } else {
      var g: nat :| s.comb.At(g) != C.Out;
      assert Busy(s, g);
    }
  }
}
