/** Every interleaving of the job graph's steps (kernel/job.go), and all that
    any one of them does that the rest of the kernel can see: the job it names,
    the job it brings to wait for nothing, and where the goroutine that takes it
    is then. */
module KernelJobRuns {
  import opened Basics
  import opened KernelJobGraph
  import opened KernelJobSteps

  /** One atomic step of a goroutine, but for those that hand a job to the lock
      combiner and take one up to finish it. */
  datatype Event =
    | EvAcquire(free: nat, deps: seq<Handle>) | EvOpen | EvSkipNone | EvRaise | EvMake(edge: nat) | EvLoad
    | EvLoadRefused | EvLink | EvLinkFailed | EvDropEdge | EvLower | EvDone | EvSubmit | EvUnhold | EvEndSubmit
    | EvLoadGeneration | EvSwap | EvLowerSuccessor | EvNext | EvStore | EvRelease

  ghost predicate Takes(s: Graph, g: nat, event: Event, t: Graph) {
    match event
    case EvAcquire(free, deps) => CanAcquire(s, g, free, deps) && t == Acquire(s, g, free, deps)
    case EvOpen => CanOpen(s, g) && t == Open(s, g)
    case EvSkipNone => CanSkipNone(s, g) && t == SkipNone(s, g)
    case EvRaise => CanRaise(s, g) && t == Raise(s, g)
    case EvMake(edge) => CanMake(s, g, edge) && t == Make(s, g, edge)
    case EvLoad => CanLoad(s, g) && t == Load(s, g)
    case EvLoadRefused => CanLoadRefused(s, g) && t == LoadRefused(s, g)
    case EvLink => CanLink(s, g) && t == KernelJobSteps.Link(s, g)
    case EvLinkFailed => CanLinkFailed(s, g) && t == LinkFailed(s, g)
    case EvDropEdge => CanDropEdge(s, g) && t == DropEdge(s, g)
    case EvLower => CanLower(s, g) && t == Lower(s, g)
    case EvDone => CanDone(s, g) && t == Done(s, g)
    case EvSubmit => CanSubmit(s, g) && t == Submit(s, g)
    case EvUnhold => CanUnhold(s, g) && t == Unhold(s, g)
    case EvEndSubmit => CanEndSubmit(s, g) && t == EndSubmit(s, g)
    case EvLoadGeneration => CanLoadGeneration(s, g) && t == LoadGeneration(s, g)
    case EvSwap => CanSwap(s, g) && t == Swap(s, g)
    case EvLowerSuccessor => CanLowerSuccessor(s, g) && t == LowerSuccessor(s, g)
    case EvNext => CanNext(s, g) && t == KernelJobSteps.Next(s, g)
    case EvStore => CanStore(s, g) && t == Store(s, g)
    case EvRelease => CanRelease(s, g) && t == Release(s, g)
  }

  lemma EventKeepsValid(s: Graph, g: nat, event: Event, t: Graph)
    requires s.Valid() && Takes(s, g, event, t)
    ensures t.Valid()
  {
    match event
    case EvAcquire(free, deps) => AcquireKeepsValid(s, g, free, deps);
    case EvOpen => OpenKeepsValid(s, g);
    case EvSkipNone => SkipNoneKeepsValid(s, g);
    case EvRaise => RaiseKeepsValid(s, g);
    case EvMake(edge) => MakeKeepsValid(s, g, edge);
    case EvLoad => LoadKeepsValid(s, g);
    case EvLoadRefused => LoadRefusedKeepsValid(s, g);
    case EvLink => LinkKeepsValid(s, g);
    case EvLinkFailed => LinkFailedKeepsValid(s, g);
    case EvDropEdge => DropEdgeKeepsValid(s, g);
    case EvLower => LowerKeepsValid(s, g);
    case EvDone => DoneKeepsValid(s, g);
    case EvSubmit => SubmitKeepsValid(s, g);
    case EvUnhold => UnholdKeepsValid(s, g);
    case EvEndSubmit => EndSubmitKeepsValid(s, g);
    case EvLoadGeneration => LoadGenerationKeepsValid(s, g);
    case EvSwap => SwapKeepsValid(s, g);
    case EvLowerSuccessor => LowerSuccessorKeepsValid(s, g);
    case EvNext => NextKeepsValid(s, g);
    case EvStore => StoreKeepsValid(s, g);
    case EvRelease => ReleaseKeepsValid(s, g);
  }

  ghost function Arriving(pc: Pc): Option<Handle> {
    if pc.Submitting? || pc.Walking? then pc.arriving else None
  }

  /** The job an event brings to wait for nothing any more. */
  ghost function Brings(s: Graph, g: nat, event: Event, t: Graph): Option<Handle> {
    if event.EvUnhold? || event.EvLowerSuccessor? then Arriving(t.At(g)) else None
  }

  /** What of a job's record a step may change: its tokens, the finish of a job
      taken up, and, for the job brought to wait for nothing, that it does. */
  ghost predicate SameJob(s: Graph, t: Graph, h: Handle, brought: Option<Handle>)
    requires h in s.infos
  {
    && h in t.infos && t.infos[h].number == s.infos[h].number && t.infos[h].claimed == s.infos[h].claimed
    && (t.infos[h].tokens == {} <==> s.infos[h].tokens == {} || Some(h) == brought)
    && (Some(h) == brought ==> s.infos[h].tokens != {})
  }

  lemma UnholdEffect(s: Graph, g: nat, h: Handle)
    requires s.Valid() && CanUnhold(s, g) && h in s.infos
    ensures SameJob(s, Unhold(s, g), h, Arriving(Unhold(s, g).At(g)))
  {
    var job := s.At(g).batch[0];
    assert s.ThreadOk(g);
    Facts(s, job.slot, 0, job);
    assert |s.infos[job].tokens - {Hold}| == |s.infos[job].tokens| - 1;
  }

  lemma LowerSuccessorEffect(s: Graph, g: nat, h: Handle)
    requires s.Valid() && CanLowerSuccessor(s, g) && h in s.infos
    ensures SameJob(s, LowerSuccessor(s, g), h, Arriving(LowerSuccessor(s, g).At(g)))
  {
    var pc := s.At(g);
    var target := s.edges[pc.edge].target;
    assert s.ThreadOk(g);
    LastIsHead(s, pc.job.slot);
    Facts(s, target.slot, pc.edge, target);
    assert |s.infos[target].tokens - {Linked(pc.edge)}| == |s.infos[target].tokens| - 1;
  }

  /** While a job is linked its hold keeps it waiting. */
  lemma LinkingEffect(s: Graph, g: nat, event: Event, t: Graph, h: Handle)
    requires s.Valid() && Takes(s, g, event, t) && h in s.infos && (event.EvRaise? || event.EvLink? || event.EvLower?)
    ensures SameJob(s, t, h, None)
  {
    assert s.ThreadOk(g);
    var job := s.At(g).job;
    assert Hold in s.infos[job].tokens && Hold in t.infos[job].tokens;
    assert h != job ==> t.infos[h] == s.infos[h];
  }

  /** What an event does to a job. */
  lemma EventEffect(s: Graph, g: nat, event: Event, t: Graph, h: Handle)
    requires s.Valid() && Takes(s, g, event, t) && h in s.infos
    ensures SameJob(s, t, h, Brings(s, g, event, t))
  {
    if event.EvUnhold? {
      UnholdEffect(s, g, h);
    } else if event.EvLowerSuccessor? {
      LowerSuccessorEffect(s, g, h);
    } else if event.EvRaise? || event.EvLink? || event.EvLower? {
      LinkingEffect(s, g, event, t, h);
    } else if event.EvOpen? {
      OpenedIsNew(s, g);
    } else {
      assert t.infos.Keys == s.infos.Keys && t.infos[h].tokens == s.infos[h].tokens;
    }
  }

  lemma OpenedIsNew(s: Graph, g: nat)
    requires s.Valid() && CanOpen(s, g)
    ensures Opened(s, g) !in s.infos
  {
    assert s.ThreadOk(g);
    Facts(s, s.At(g).slot, 0, Opened(s, g));
  }

  lemma OthersUntouched(s: Graph, g: nat, event: Event, t: Graph, u: nat)
    requires Takes(s, g, event, t) && u != g
    ensures t.At(u) == s.At(u)
  {
  }

  lemma NoneArrivesYet(s: Graph, g: nat)
    requires s.Valid() && (CanLowerSuccessor(s, g) || CanStore(s, g))
    ensures Arriving(s.At(g)) == None
  {
    assert s.ThreadOk(g);
  }

  lemma ArrivingMoves(s: Graph, g: nat, event: Event, t: Graph)
    requires Takes(s, g, event, t) && (event.EvLowerSuccessor? || event.EvStore? ==> Arriving(s.At(g)) == None)
    ensures Brings(s, g, event, t).Some? ==> Arriving(s.At(g)) == None
    ensures Arriving(t.At(g)) == if Brings(s, g, event, t).Some? then Brings(s, g, event, t) else Arriving(s.At(g))
  {
  }

  lemma MadeBy(s: Graph, g: nat, event: Event, t: Graph)
    requires s.Valid() && Takes(s, g, event, t)
    ensures t.infos.Keys == s.infos.Keys + (if event.EvOpen? then {Opened(s, g)} else {})
    ensures event.EvOpen? ==>
              Opened(s, g) !in s.infos && t.infos[Opened(s, g)].number == s.count
                  && t.infos[Opened(s, g)].tokens == {Hold} && !t.infos[Opened(s, g)].claimed
    ensures t.count == s.count + (if event.EvOpen? then 1 else 0)
  {
    assert s.ThreadOk(g);
    if event.EvOpen? {
      Facts(s, s.At(g).slot, 0, Opened(s, g));
    }
  }

  /** The job an event gives a name. */
  ghost function Makes(s: Graph, g: nat, event: Event): Option<Handle> {
    if event.EvOpen? && s.At(g).Opening? then Some(Opened(s, g)) else None
  }

  /** All an event does that other parts of the kernel see: the job it names, the
      one it brings to wait for nothing, and where goroutines are. */
  ghost predicate Effect(s: Graph, g: nat, t: Graph, made: Option<Handle>, brought: Option<Handle>) {
    && t.infos.Keys == s.infos.Keys + (if made.Some? then {made.value} else {})
    && t.count == s.count + (if made.Some? then 1 else 0)
    && (made.Some? ==>
          && made.value !in s.infos && t.infos[made.value].number == s.count
          && t.infos[made.value].tokens == {Hold} && !t.infos[made.value].claimed && brought == None)
    && (brought.Some? ==> brought.value in s.infos && Arriving(s.At(g)) == None)
    && (forall h {:trigger t.infos[h]} | h in s.infos :: SameJob(s, t, h, brought))
    && (forall u: nat {:trigger t.At(u)} :: u != g ==> t.At(u) == s.At(u))
    && Arriving(t.At(g)) == (if brought.Some? then brought else Arriving(s.At(g)))
  }

  lemma EventHasEffect(s: Graph, g: nat, event: Event, t: Graph)
    requires s.Valid() && Takes(s, g, event, t)
    ensures Effect(s, g, t, Makes(s, g, event), Brings(s, g, event, t))
  {
    MadeBy(s, g, event, t);
    BroughtIsKnown(s, g, event, t);
    if event.EvLowerSuccessor? || event.EvStore? {
      NoneArrivesYet(s, g);
    }
    ArrivingMoves(s, g, event, t);
    forall h | h in s.infos ensures SameJob(s, t, h, Brings(s, g, event, t)) { EventEffect(s, g, event, t, h); }
    forall u: nat | u != g ensures t.At(u) == s.At(u) { OthersUntouched(s, g, event, t, u); }
  }

  lemma BroughtIsKnown(s: Graph, g: nat, event: Event, t: Graph)
    requires s.Valid() && Takes(s, g, event, t)
    ensures Brings(s, g, event, t).Some? ==> Brings(s, g, event, t).value in s.infos
  {
    assert s.ThreadOk(g);
  }
}
