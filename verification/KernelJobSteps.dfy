/** The atomic steps of the job graph, and that each keeps it valid
    (kernel/job.go). Every step comes with the same proofs: that it keeps what
    holds of any slot, list and edge (KeepsLists), of any job, what it waits for
    and what it depends on (KeepsJobs), and of any goroutine (KeepsThreads, the
    one that takes the step apart from the others where that is shorter). They
    are put together in KeepsValid. */
module KernelJobSteps {
  import opened Basics
  import opened KernelJobGraph

  /** One goroutine at another place, and nothing else. */
  ghost function Moved(s: Graph, g: nat, pc: Pc): Graph {
    s.(threads := s.threads[g := pc])
  }

  ghost function WithInfo(s: Graph, h: Handle, info: Info): Graph {
    s.(infos := s.infos[h := info])
  }

  ghost function WithJob(s: Graph, slot: nat, job: Job): Graph {
    s.(jobs := s.jobs[slot := job])
  }

  ghost predicate CanAcquire(s: Graph, g: nat, free: nat, deps: seq<Handle>) {
    s.At(g).Publishing? && free != NONE && free !in s.phases && s.DepsOk(deps, s.count)
  }

  /** Takes a free slot, to make a job that waits for deps. */
  ghost function Acquire(s: Graph, g: nat, free: nat, deps: seq<Handle>): Graph
    requires CanAcquire(s, g, free, deps)
  {
    Moved(s, g, Opening(s.At(g).batch, free, deps)).(phases := s.phases[free := Held(g)])
  }

  lemma AcquireKeepsLists(s: Graph, g: nat, free: nat, deps: seq<Handle>, slot: nat, position: nat, e: nat)
    requires s.Valid() && CanAcquire(s, g, free, deps)
    ensures Acquire(s, g, free, deps).ListsOk(slot, position, e)
  {
    assert s.ThreadOk(g) && s.ListsOk(slot, position, e);
    Facts(s, free, 0, Handle(free, s.Generation(free)));
  }

  lemma AcquireKeepsJobs(s: Graph, g: nat, free: nat, deps: seq<Handle>, h: Handle, token: Token, d: Handle)
    requires s.Valid() && CanAcquire(s, g, free, deps)
    ensures Acquire(s, g, free, deps).JobsOk(h, token, d)
  {
    assert s.ThreadOk(g) && s.JobsOk(h, token, d);
    Facts(s, free, 0, Handle(free, s.Generation(free)));
    Facts(s, free, 0, h);
  }

  lemma AcquireKeepsThreads(s: Graph, g: nat, free: nat, deps: seq<Handle>, u: nat)
    requires s.Valid() && CanAcquire(s, g, free, deps)
    ensures Acquire(s, g, free, deps).ThreadOk(u)
  {
    assert s.ThreadOk(g) && s.ThreadOk(u);
    Facts(s, free, 0, Handle(free, s.Generation(free)));
  }

  lemma AcquireKeepsValid(s: Graph, g: nat, free: nat, deps: seq<Handle>)
    requires s.Valid() && CanAcquire(s, g, free, deps)
    ensures Acquire(s, g, free, deps).Valid()
  {
    var t := Acquire(s, g, free, deps);
    forall slot: nat, position: nat, e: nat ensures t.ListsOk(slot, position, e) {
      AcquireKeepsLists(s, g, free, deps, slot, position, e);
    }
    forall h, token, d ensures t.JobsOk(h, token, d) { AcquireKeepsJobs(s, g, free, deps, h, token, d); }
    forall u: nat ensures t.ThreadOk(u) { AcquireKeepsThreads(s, g, free, deps, u); }
  }

  ghost function Opened(s: Graph, g: nat): Handle
    requires s.At(g).Opening?
  {
    Handle(s.At(g).slot, s.Generation(s.At(g).slot))
  }

  ghost predicate CanOpen(s: Graph, g: nat) {
    s.At(g).Opening?
  }

  /** Opens the slot's list under its generation: from here the job has a name. */
  ghost function Open(s: Graph, g: nat): Graph
    requires CanOpen(s, g)
  {
    var pc := s.At(g);
    var h := Opened(s, g);
    WithJob(WithInfo(Moved(s, g, Linking(pc.batch, h, pc.deps, Start)), h,
                     Info(s.count, {Hold}, set d | d in pc.deps, map[], 0, false, false, g)),
            pc.slot, Job(ListWord(h.generation, false, NONE), 1))
      .(phases := s.phases[pc.slot := Living], count := s.count + 1)
  }

  lemma OpenKeepsLists(s: Graph, g: nat, slot: nat, position: nat, e: nat)
    requires s.Valid() && CanOpen(s, g)
    ensures Open(s, g).ListsOk(slot, position, e)
  {
    assert s.ThreadOk(g) && s.ListsOk(slot, position, e);
    Facts(s, s.At(g).slot, 0, Opened(s, g));
  }

  lemma OpenKeepsJobs(s: Graph, g: nat, h: Handle, token: Token, d: Handle)
    requires s.Valid() && CanOpen(s, g)
    ensures Open(s, g).JobsOk(h, token, d)
  {
    assert s.ThreadOk(g) && s.JobsOk(h, token, d);
    Facts(s, s.At(g).slot, 0, Opened(s, g));
  }

  lemma OpenKeepsThreads(s: Graph, g: nat, u: nat)
    requires s.Valid() && CanOpen(s, g)
    ensures Open(s, g).ThreadOk(u)
  {
    assert s.ThreadOk(g) && s.ThreadOk(u);
    Facts(s, s.At(g).slot, 0, Opened(s, g));
  }

  lemma OpenKeepsValid(s: Graph, g: nat)
    requires s.Valid() && CanOpen(s, g)
    ensures Open(s, g).Valid()
  {
    var t := Open(s, g);
    forall slot: nat, position: nat, e: nat ensures t.ListsOk(slot, position, e) {
      OpenKeepsLists(s, g, slot, position, e);
    }
    forall h, token, d ensures t.JobsOk(h, token, d) { OpenKeepsJobs(s, g, h, token, d); }
    forall u: nat ensures t.ThreadOk(u) { OpenKeepsThreads(s, g, u); }
  }

  ghost predicate CanRaise(s: Graph, g: nat) {
    s.At(g).Linking? && s.At(g).step == Start && s.At(g).deps != [] && s.At(g).deps[0].slot != NONE
        && s.At(g).job in s.infos
  }

  /** Counts one more job to wait for, before the edge is linked. */
  ghost function Raise(s: Graph, g: nat): Graph
    requires CanRaise(s, g)
  {
    var pc := s.At(g);
    var info := s.infos[pc.job];
    WithJob(WithInfo(Moved(s, g, pc.(step := Raised)), pc.job, info.(tokens := info.tokens + {Token.Link})),
            pc.job.slot, s.JobAt(pc.job.slot).(waiting := s.JobAt(pc.job.slot).waiting + 1))
  }

  lemma RaiseKeepsLists(s: Graph, g: nat, slot: nat, position: nat, e: nat)
    requires s.Valid() && CanRaise(s, g)
    ensures Raise(s, g).ListsOk(slot, position, e)
  {
    assert s.ThreadOk(g) && s.ListsOk(slot, position, e);
    Facts(s, s.At(g).job.slot, 0, s.At(g).job);
  }

  lemma RaiseKeepsJobs(s: Graph, g: nat, h: Handle, token: Token, d: Handle)
    requires s.Valid() && CanRaise(s, g)
    ensures Raise(s, g).JobsOk(h, token, d)
  {
    assert s.ThreadOk(g) && s.JobsOk(h, token, d);
    Facts(s, s.At(g).job.slot, 0, s.At(g).job);
    assert |s.infos[s.At(g).job].tokens + {Token.Link}| == |s.infos[s.At(g).job].tokens| + 1;
  }

  lemma RaiseKeepsSelf(s: Graph, g: nat)
    requires s.Valid() && CanRaise(s, g)
    ensures Raise(s, g).ThreadOk(g)
  {
    assert s.ThreadOk(g);
    Facts(s, s.At(g).job.slot, 0, s.At(g).job);
  }

  lemma RaiseKeepsOthers(s: Graph, g: nat, u: nat)
    requires s.Valid() && CanRaise(s, g) && u != g
    ensures Raise(s, g).ThreadOk(u)
  {
    assert s.ThreadOk(g) && s.ThreadOk(u);
    Facts(s, s.At(g).job.slot, 0, s.At(g).job);
  }

  lemma RaiseKeepsThreads(s: Graph, g: nat, u: nat)
    requires s.Valid() && CanRaise(s, g)
    ensures Raise(s, g).ThreadOk(u)
  {
    if u == g {
      RaiseKeepsSelf(s, g);
    } else {
      RaiseKeepsOthers(s, g, u);
    }
  }

  lemma RaiseKeepsValid(s: Graph, g: nat)
    requires s.Valid() && CanRaise(s, g)
    ensures Raise(s, g).Valid()
  {
    var t := Raise(s, g);
    forall slot: nat, position: nat, e: nat ensures t.ListsOk(slot, position, e) {
      RaiseKeepsLists(s, g, slot, position, e);
    }
    forall h, token, d ensures t.JobsOk(h, token, d) { RaiseKeepsJobs(s, g, h, token, d); }
    forall u: nat ensures t.ThreadOk(u) { RaiseKeepsThreads(s, g, u); }
  }

  ghost predicate CanMake(s: Graph, g: nat, edge: nat) {
    s.At(g).Linking? && s.At(g).step == Raised && s.At(g).deps != [] && edge != NONE && edge !in s.places
  }

  /** Takes an edge from the pool, to the job being made. */
  ghost function Make(s: Graph, g: nat, edge: nat): Graph
    requires CanMake(s, g, edge)
  {
    var pc := s.At(g);
    Moved(s, g, pc.(step := Made(edge)))
      .(places := s.places[edge := Own(g)], edges := s.edges[edge := Edge(NONE, pc.job.slot, pc.deps[0], pc.job)])
  }

  lemma MakeKeepsLists(s: Graph, g: nat, edge: nat, slot: nat, position: nat, e: nat)
    requires s.Valid() && CanMake(s, g, edge)
    ensures Make(s, g, edge).ListsOk(slot, position, e)
  {
    assert s.ThreadOk(g) && s.ListsOk(slot, position, e);
    Facts(s, s.At(g).job.slot, edge, s.At(g).job);
  }

  lemma MakeKeepsTokens(s: Graph, g: nat, edge: nat, h: Handle, token: Token)
    requires s.Valid() && CanMake(s, g, edge)
    ensures Make(s, g, edge).HandleOk(h) && Make(s, g, edge).TokenOk(h, token)
  {
    assert s.ThreadOk(g) && s.JobsOk(h, token, h);
    Facts(s, s.At(g).job.slot, edge, s.At(g).job);
  }

  lemma MakeKeepsDeps(s: Graph, g: nat, edge: nat, h: Handle, d: Handle)
    requires s.Valid() && CanMake(s, g, edge)
    ensures Make(s, g, edge).DepOk(h, d) && Make(s, g, edge).DeclaredOk(h, d)
  {
    assert s.ThreadOk(g) && s.JobsOk(h, Hold, d);
    Facts(s, s.At(g).job.slot, edge, s.At(g).job);
    if h in s.infos && d in s.infos[h].deps && s.infos[h].deps[d] == edge {
      assert s.JobsOk(h, Linked(edge), d);
    }
  }

  lemma MakeKeepsJobs(s: Graph, g: nat, edge: nat, h: Handle, token: Token, d: Handle)
    requires s.Valid() && CanMake(s, g, edge)
    ensures Make(s, g, edge).JobsOk(h, token, d)
  {
    MakeKeepsTokens(s, g, edge, h, token);
    MakeKeepsDeps(s, g, edge, h, d);
  }

  lemma MakeKeepsThreads(s: Graph, g: nat, edge: nat, u: nat)
    requires s.Valid() && CanMake(s, g, edge)
    ensures Make(s, g, edge).ThreadOk(u)
  {
    assert s.ThreadOk(g) && s.ThreadOk(u);
    Facts(s, s.At(g).job.slot, edge, s.At(g).job);
  }

  lemma MakeKeepsValid(s: Graph, g: nat, edge: nat)
    requires s.Valid() && CanMake(s, g, edge)
    ensures Make(s, g, edge).Valid()
  {
    var t := Make(s, g, edge);
    forall slot: nat, position: nat, e: nat ensures t.ListsOk(slot, position, e) {
      MakeKeepsLists(s, g, edge, slot, position, e);
    }
    forall h, token, d ensures t.JobsOk(h, token, d) { MakeKeepsJobs(s, g, edge, h, token, d); }
    forall u: nat ensures t.ThreadOk(u) { MakeKeepsThreads(s, g, edge, u); }
  }

  /** Whether the word of the job to wait for refuses a link: the job has
      finished, or the slot was released since. */
  ghost predicate Refuses(s: Graph, d: Handle) {
    ReadsFinished(s.JobAt(d.slot).word, d)
  }

  /** What a step that changes nothing but one goroutine's place must keep. */
  ghost predicate CanMove(s: Graph, g: nat, pc: Pc) {
    var was := s.At(g);
    && Moved(s, g, pc).ThreadOk(g)
    && !was.Opening? && !was.Freeing?
    && (forall h {:trigger InHold(was, h)} :: InHold(was, h) ==> InHold(pc, h))
    && (was.Linking? && was.step != Start ==> pc.Linking? && pc.job == was.job && pc.step != Start)
    && (was.Linking? && LinkEdge(was.step) != None ==> pc.Linking? && LinkEdge(pc.step) == LinkEdge(was.step))
    && (was.Linking? ==>
          forall d {:trigger d in was.deps} ::
              d in was.deps && d.slot != NONE ==> pc.Linking? && pc.job == was.job && d in pc.deps)
    && (was.Walking? ==> pc.Walking? && pc.job == was.job && pc.lowered == was.lowered)
    && (was.Closing? || was.Swapping? ==> (pc.Closing? || pc.Swapping?) && pc.job == was.job)
  }

  /** Whether a goroutine there keeps job h from being handed on. */
  ghost predicate InHold(pc: Pc, h: Handle) {
    || ((pc.Publishing? || pc.Opening? || pc.Linking? || pc.Submitting?) && h in pc.batch)
    || (pc.Linking? && pc.job == h)
  }

  /** The slot whose list has edge e. */
  lemma WalkerOf(s: Graph, e: nat)
    requires s.Valid()
    ensures e in s.places && s.places[e].InList? ==> s.SlotOk(s.places[e].slot)
  {
    if e in s.places && s.places[e].InList? {
      Facts(s, s.places[e].slot, e, Handle(0, 0));
    }
  }

  lemma MovedKeepsLists(s: Graph, g: nat, pc: Pc, slot: nat, position: nat, e: nat)
    requires s.Valid() && CanMove(s, g, pc)
    ensures Moved(s, g, pc).ListsOk(slot, position, e)
  {
    assert s.ListsOk(slot, position, e);
    WalkerOf(s, e);
  }

  lemma MovedKeepsJobs(s: Graph, g: nat, pc: Pc, h: Handle, token: Token, d: Handle)
    requires s.Valid() && CanMove(s, g, pc)
    ensures Moved(s, g, pc).JobsOk(h, token, d)
  {
    assert s.JobsOk(h, token, d);
    assert InHold(s.At(g), h) ==> InHold(pc, h);
  }

  lemma MovedKeepsValid(s: Graph, g: nat, pc: Pc)
    requires s.Valid() && CanMove(s, g, pc)
    ensures Moved(s, g, pc).Valid()
  {
    var t := Moved(s, g, pc);
    forall slot: nat, position: nat, e: nat ensures t.ListsOk(slot, position, e) {
      MovedKeepsLists(s, g, pc, slot, position, e);
    }
    forall h, token, d ensures t.JobsOk(h, token, d) { MovedKeepsJobs(s, g, pc, h, token, d); }
    forall u: nat ensures t.ThreadOk(u) { assert s.ThreadOk(u); }
  }

  ghost predicate CanSkipNone(s: Graph, g: nat) {
    s.At(g).Linking? && s.At(g).step == Start && s.At(g).deps != [] && s.At(g).deps[0].slot == NONE
  }

  /** Passes over the zero handle, which names no job. */
  ghost function SkipNone(s: Graph, g: nat): Graph
    requires CanSkipNone(s, g)
  {
    Moved(s, g, Linking(s.At(g).batch, s.At(g).job, s.At(g).deps[1..], Start))
  }

  lemma SkipNoneKeepsValid(s: Graph, g: nat)
    requires s.Valid() && CanSkipNone(s, g)
    ensures SkipNone(s, g).Valid()
  {
    assert s.ThreadOk(g);
    MovedKeepsValid(s, g, Linking(s.At(g).batch, s.At(g).job, s.At(g).deps[1..], Start));
  }

  ghost predicate CanDone(s: Graph, g: nat) {
    s.At(g).Linking? && s.At(g).step == Start && s.At(g).deps == []
  }

  /** The job waits for all it was declared to: it joins the batch. */
  ghost function Done(s: Graph, g: nat): Graph
    requires CanDone(s, g)
  {
    Moved(s, g, Publishing(s.At(g).batch + [s.At(g).job]))
  }

  lemma DoneKeepsValid(s: Graph, g: nat)
    requires s.Valid() && CanDone(s, g)
    ensures Done(s, g).Valid()
  {
    assert s.ThreadOk(g);
    MovedKeepsValid(s, g, Publishing(s.At(g).batch + [s.At(g).job]));
  }

  ghost predicate CanSubmit(s: Graph, g: nat) {
    s.At(g).Publishing?
  }

  /** Starts to submit the batch. */
  ghost function Submit(s: Graph, g: nat): Graph
    requires CanSubmit(s, g)
  {
    Moved(s, g, Submitting(s.At(g).batch, None))
  }

  lemma SubmitKeepsValid(s: Graph, g: nat)
    requires s.Valid() && CanSubmit(s, g)
    ensures Submit(s, g).Valid()
  {
    assert s.ThreadOk(g);
    MovedKeepsValid(s, g, Submitting(s.At(g).batch, None));
  }

  ghost predicate CanEndSubmit(s: Graph, g: nat) {
    s.At(g) == Submitting([], None)
  }

  /** The batch is submitted. */
  ghost function EndSubmit(s: Graph, g: nat): Graph
    requires CanEndSubmit(s, g)
  {
    Moved(s, g, Publishing([]))
  }

  lemma EndSubmitKeepsValid(s: Graph, g: nat)
    requires s.Valid() && CanEndSubmit(s, g)
    ensures EndSubmit(s, g).Valid()
  {
    assert s.ThreadOk(g);
    MovedKeepsValid(s, g, Publishing([]));
  }

  ghost predicate CanArrive(s: Graph, g: nat) {
    (s.At(g).Submitting? || s.At(g).Walking?) && s.At(g).arriving != None
  }

  /** Hands the job that waits for nothing any more to the lock combiner. */
  ghost function Arrive(s: Graph, g: nat): Graph
    requires CanArrive(s, g)
  {
    Moved(s, g, s.At(g).(arriving := None))
  }

  lemma ArriveKeepsValid(s: Graph, g: nat)
    requires s.Valid() && CanArrive(s, g)
    ensures Arrive(s, g).Valid()
  {
    assert s.ThreadOk(g);
    MovedKeepsValid(s, g, s.At(g).(arriving := None));
  }

  ghost predicate CanLoadGeneration(s: Graph, g: nat) {
    s.At(g).Closing?
  }

  /** Reads the generation of the slot: only this finish changes it. */
  ghost function LoadGeneration(s: Graph, g: nat): Graph
    requires CanLoadGeneration(s, g)
  {
    Moved(s, g, Swapping(Handle(s.At(g).job.slot, s.Generation(s.At(g).job.slot))))
  }

  lemma LoadGenerationKeepsValid(s: Graph, g: nat)
    requires s.Valid() && CanLoadGeneration(s, g)
    ensures LoadGeneration(s, g).Valid()
  {
    assert s.ThreadOk(g);
    Facts(s, s.At(g).job.slot, 0, s.At(g).job);
    MovedKeepsValid(s, g, Swapping(Handle(s.At(g).job.slot, s.Generation(s.At(g).job.slot))));
  }

  ghost predicate CanLoadRefused(s: Graph, g: nat) {
    s.At(g).Linking? && s.At(g).step.Made? && s.At(g).deps != [] && Refuses(s, s.At(g).deps[0])
  }

  /** Reads the word of the job to wait for, which refuses the link. */
  ghost function LoadRefused(s: Graph, g: nat): Graph
    requires CanLoadRefused(s, g)
  {
    Moved(s, g, s.At(g).(step := Refused(s.At(g).step.edge)))
  }

  lemma LoadRefusedKeepsValid(s: Graph, g: nat)
    requires s.Valid() && CanLoadRefused(s, g)
    ensures LoadRefused(s, g).Valid()
  {
    assert s.ThreadOk(g);
    StaleHandlesReadFinished(s, s.At(g).deps[0]);
    MovedKeepsValid(s, g, s.At(g).(step := Refused(s.At(g).step.edge)));
  }

  ghost predicate CanLinkFailed(s: Graph, g: nat) {
    s.At(g).Linking? && s.At(g).step.Read? && s.At(g).deps != []
        && s.JobAt(s.At(g).deps[0].slot).word != s.At(g).step.seen
  }

  /** Finds the word changed since it was read, and starts over. */
  ghost function LinkFailed(s: Graph, g: nat): Graph
    requires CanLinkFailed(s, g)
  {
    Moved(s, g, s.At(g).(step := Made(s.At(g).step.edge)))
  }

  lemma LinkFailedKeepsValid(s: Graph, g: nat)
    requires s.Valid() && CanLinkFailed(s, g)
    ensures LinkFailed(s, g).Valid()
  {
    assert s.ThreadOk(g);
    MovedKeepsValid(s, g, s.At(g).(step := Made(s.At(g).step.edge)));
  }

  ghost predicate CanLoad(s: Graph, g: nat) {
    s.At(g).Linking? && s.At(g).step.Made? && s.At(g).deps != [] && s.At(g).step.edge in s.edges
        && !Refuses(s, s.At(g).deps[0])
  }

  /** Reads the word of the job to wait for, and sets the edge's next to its head. */
  ghost function Load(s: Graph, g: nat): Graph
    requires CanLoad(s, g)
  {
    var pc := s.At(g);
    var e, word := pc.step.edge, s.JobAt(pc.deps[0].slot).word;
    Moved(s, g, pc.(step := Read(e, word))).(edges := s.edges[e := s.edges[e].(next := word.head)])
  }

  lemma LoadKeepsLists(s: Graph, g: nat, slot: nat, position: nat, e: nat)
    requires s.Valid() && CanLoad(s, g)
    ensures Load(s, g).ListsOk(slot, position, e)
  {
    assert s.ThreadOk(g) && s.ListsOk(slot, position, e);
  }

  lemma LoadKeepsJobs(s: Graph, g: nat, h: Handle, token: Token, d: Handle)
    requires s.Valid() && CanLoad(s, g)
    ensures Load(s, g).JobsOk(h, token, d)
  {
    assert s.ThreadOk(g) && s.JobsOk(h, token, d);
    if h in s.infos && d in s.infos[h].deps && s.infos[h].deps[d] == s.At(g).step.edge {
      assert s.JobsOk(h, Linked(s.At(g).step.edge), d);
    }
  }

  lemma LoadKeepsThreads(s: Graph, g: nat, u: nat)
    requires s.Valid() && CanLoad(s, g)
    ensures Load(s, g).ThreadOk(u)
  {
    assert s.ThreadOk(g) && s.ThreadOk(u);
  }

  lemma LoadKeepsValid(s: Graph, g: nat)
    requires s.Valid() && CanLoad(s, g)
    ensures Load(s, g).Valid()
  {
    var t := Load(s, g);
    forall slot: nat, position: nat, e: nat ensures t.ListsOk(slot, position, e) {
      LoadKeepsLists(s, g, slot, position, e);
    }
    forall h, token, d ensures t.JobsOk(h, token, d) { LoadKeepsJobs(s, g, h, token, d); }
    forall u: nat ensures t.ThreadOk(u) { LoadKeepsThreads(s, g, u); }
  }

  /** The edge a goroutine is about to link counts for no job yet. */
  lemma NotYetLinked(s: Graph, g: nat)
    requires s.Valid() && s.At(g).Linking? && s.At(g).step.Read? && s.At(g).job in s.infos
    ensures Linked(s.At(g).step.edge) !in s.infos[s.At(g).job].tokens
  {
    assert s.ThreadOk(g) && s.JobsOk(s.At(g).job, Linked(s.At(g).step.edge), s.At(g).job);
  }

  ghost predicate CanLink(s: Graph, g: nat) {
    s.At(g).Linking? && s.At(g).step.Read? && s.At(g).deps != [] && s.At(g).job in s.infos
    && s.JobAt(s.At(g).deps[0].slot).word == s.At(g).step.seen
  }

  /** Swaps the word, still the one read, for one headed by the edge. */
  ghost function Link(s: Graph, g: nat): Graph
    requires CanLink(s, g)
  {
    var pc := s.At(g);
    var d, e := pc.deps[0], pc.step.edge;
    var info := s.infos[pc.job];
    WithJob(WithInfo(Moved(s, g, pc.(deps := pc.deps[1..], step := Start)), pc.job,
                     info.(tokens := info.tokens - {Token.Link} + {Linked(e)}, deps := info.deps[d := e])),
            d.slot, s.JobAt(d.slot).(word := ListWord(d.generation, false, e)))
      .(lists := s.lists[d.slot := s.List(d.slot) + [e]], places := s.places[e := InList(d.slot, |s.List(d.slot)|)])
  }

  lemma LinkKeepsSlots(s: Graph, g: nat, slot: nat, position: nat)
    requires s.Valid() && CanLink(s, g)
    ensures Link(s, g).SlotOk(slot) && Link(s, g).ListOk(slot, position)
  {
    assert s.ThreadOk(g) && s.ListsOk(slot, position, 0);
    var pc := s.At(g);
    Facts(s, pc.deps[0].slot, pc.step.edge, pc.deps[0]);
  }

  lemma LinkKeepsEdges(s: Graph, g: nat, e: nat)
    requires s.Valid() && CanLink(s, g)
    ensures Link(s, g).EdgeOk(e)
  {
    assert s.ThreadOk(g) && s.ListsOk(0, 0, e);
    var pc := s.At(g);
    Facts(s, pc.deps[0].slot, pc.step.edge, pc.deps[0]);
    NotYetLinked(s, g);
  }

  lemma LinkKeepsLists(s: Graph, g: nat, slot: nat, position: nat, e: nat)
    requires s.Valid() && CanLink(s, g)
    ensures Link(s, g).ListsOk(slot, position, e)
  {
    LinkKeepsSlots(s, g, slot, position);
    LinkKeepsEdges(s, g, e);
  }

  lemma LinkKeepsTokens(s: Graph, g: nat, h: Handle, token: Token)
    requires s.Valid() && CanLink(s, g)
    ensures Link(s, g).HandleOk(h) && Link(s, g).TokenOk(h, token)
  {
    assert s.ThreadOk(g) && s.JobsOk(h, token, h);
    var pc := s.At(g);
    Facts(s, pc.deps[0].slot, pc.step.edge, pc.deps[0]);
    NotYetLinked(s, g);
    assert |s.infos[pc.job].tokens - {Token.Link} + {Linked(pc.step.edge)}| == |s.infos[pc.job].tokens|;
  }

  lemma LinkKeepsDeps(s: Graph, g: nat, h: Handle, d: Handle)
    requires s.Valid() && CanLink(s, g)
    ensures Link(s, g).DepOk(h, d) && Link(s, g).DeclaredOk(h, d)
  {
    assert s.ThreadOk(g) && s.JobsOk(h, Hold, d);
    var pc := s.At(g);
    Facts(s, pc.deps[0].slot, pc.step.edge, pc.deps[0]);
    NotYetLinked(s, g);
  }

  lemma LinkKeepsJobs(s: Graph, g: nat, h: Handle, token: Token, d: Handle)
    requires s.Valid() && CanLink(s, g)
    ensures Link(s, g).JobsOk(h, token, d)
  {
    LinkKeepsTokens(s, g, h, token);
    LinkKeepsDeps(s, g, h, d);
  }

  lemma LinkKeepsSelf(s: Graph, g: nat)
    requires s.Valid() && CanLink(s, g)
    ensures Link(s, g).ThreadOk(g)
  {
    assert s.ThreadOk(g);
    var pc := s.At(g);
    Facts(s, pc.deps[0].slot, pc.step.edge, pc.deps[0]);
  }

  lemma LinkKeepsOthers(s: Graph, g: nat, u: nat)
    requires s.Valid() && CanLink(s, g) && u != g
    ensures Link(s, g).ThreadOk(u)
  {
    assert s.ThreadOk(g) && s.ThreadOk(u);
    var pc := s.At(g);
    Facts(s, pc.deps[0].slot, pc.step.edge, pc.deps[0]);
  }

  lemma LinkKeepsThreads(s: Graph, g: nat, u: nat)
    requires s.Valid() && CanLink(s, g)
    ensures Link(s, g).ThreadOk(u)
  {
    if u == g {
      LinkKeepsSelf(s, g);
    } else {
      LinkKeepsOthers(s, g, u);
    }
  }

  lemma LinkKeepsValid(s: Graph, g: nat)
    requires s.Valid() && CanLink(s, g)
    ensures Link(s, g).Valid()
  {
    var t := Link(s, g);
    forall slot: nat, position: nat, e: nat ensures t.ListsOk(slot, position, e) {
      LinkKeepsLists(s, g, slot, position, e);
    }
    forall h, token, d ensures t.JobsOk(h, token, d) { LinkKeepsJobs(s, g, h, token, d); }
    forall u: nat ensures t.ThreadOk(u) { LinkKeepsThreads(s, g, u); }
  }

  ghost predicate CanDropEdge(s: Graph, g: nat) {
    s.At(g).Linking? && s.At(g).step.Refused?
  }

  /** Gives back the edge of a link that was refused. */
  ghost function DropEdge(s: Graph, g: nat): Graph
    requires CanDropEdge(s, g)
  {
    var pc := s.At(g);
    Moved(s, g, pc.(step := Dropped)).(places := s.places - {pc.step.edge})
  }

  lemma DropEdgeKeepsLists(s: Graph, g: nat, slot: nat, position: nat, e: nat)
    requires s.Valid() && CanDropEdge(s, g)
    ensures DropEdge(s, g).ListsOk(slot, position, e)
  {
    assert s.ThreadOk(g) && s.ListsOk(slot, position, e);
    Facts(s, s.At(g).job.slot, s.At(g).step.edge, s.At(g).job);
  }

  lemma DropEdgeKeepsJobs(s: Graph, g: nat, h: Handle, token: Token, d: Handle)
    requires s.Valid() && CanDropEdge(s, g)
    ensures DropEdge(s, g).JobsOk(h, token, d)
  {
    assert s.ThreadOk(g) && s.JobsOk(h, token, d);
    Facts(s, s.At(g).job.slot, s.At(g).step.edge, s.At(g).job);
  }

  lemma DropEdgeKeepsThreads(s: Graph, g: nat, u: nat)
    requires s.Valid() && CanDropEdge(s, g)
    ensures DropEdge(s, g).ThreadOk(u)
  {
    assert s.ThreadOk(g) && s.ThreadOk(u);
    Facts(s, s.At(g).job.slot, s.At(g).step.edge, s.At(g).job);
  }

  lemma DropEdgeKeepsValid(s: Graph, g: nat)
    requires s.Valid() && CanDropEdge(s, g)
    ensures DropEdge(s, g).Valid()
  {
    var t := DropEdge(s, g);
    forall slot: nat, position: nat, e: nat ensures t.ListsOk(slot, position, e) {
      DropEdgeKeepsLists(s, g, slot, position, e);
    }
    forall h, token, d ensures t.JobsOk(h, token, d) { DropEdgeKeepsJobs(s, g, h, token, d); }
    forall u: nat ensures t.ThreadOk(u) { DropEdgeKeepsThreads(s, g, u); }
  }

  ghost predicate CanLower(s: Graph, g: nat) {
    s.At(g).Linking? && s.At(g).step == Dropped && s.At(g).deps != [] && s.At(g).job in s.infos
  }

  /** Takes back the count of a link that was refused. */
  ghost function Lower(s: Graph, g: nat): Graph
    requires CanLower(s, g)
  {
    var pc := s.At(g);
    var info := s.infos[pc.job];
    WithJob(WithInfo(Moved(s, g, pc.(deps := pc.deps[1..], step := Start)), pc.job,
                     info.(tokens := info.tokens - {Token.Link}, deps := info.deps[pc.deps[0] := NONE])),
            pc.job.slot, s.JobAt(pc.job.slot).(waiting := s.JobAt(pc.job.slot).waiting - 1))
  }

  lemma LowerKeepsLists(s: Graph, g: nat, slot: nat, position: nat, e: nat)
    requires s.Valid() && CanLower(s, g)
    ensures Lower(s, g).ListsOk(slot, position, e)
  {
    assert s.ThreadOk(g) && s.ListsOk(slot, position, e);
    Facts(s, s.At(g).job.slot, 0, s.At(g).job);
  }

  lemma LowerKeepsJobs(s: Graph, g: nat, h: Handle, token: Token, d: Handle)
    requires s.Valid() && CanLower(s, g)
    ensures Lower(s, g).JobsOk(h, token, d)
  {
    assert s.ThreadOk(g) && s.JobsOk(h, token, d);
    Facts(s, s.At(g).job.slot, 0, s.At(g).job);
    assert |s.infos[s.At(g).job].tokens - {Token.Link}| == |s.infos[s.At(g).job].tokens| - 1;
  }

  lemma LowerKeepsSelf(s: Graph, g: nat)
    requires s.Valid() && CanLower(s, g)
    ensures Lower(s, g).ThreadOk(g)
  {
    assert s.ThreadOk(g);
    Facts(s, s.At(g).job.slot, 0, s.At(g).job);
  }

  lemma LowerKeepsOthers(s: Graph, g: nat, u: nat)
    requires s.Valid() && CanLower(s, g) && u != g
    ensures Lower(s, g).ThreadOk(u)
  {
    assert s.ThreadOk(g) && s.ThreadOk(u);
    Facts(s, s.At(g).job.slot, 0, s.At(g).job);
  }

  lemma LowerKeepsThreads(s: Graph, g: nat, u: nat)
    requires s.Valid() && CanLower(s, g)
    ensures Lower(s, g).ThreadOk(u)
  {
    if u == g {
      LowerKeepsSelf(s, g);
    } else {
      LowerKeepsOthers(s, g, u);
    }
  }

  lemma LowerKeepsValid(s: Graph, g: nat)
    requires s.Valid() && CanLower(s, g)
    ensures Lower(s, g).Valid()
  {
    var t := Lower(s, g);
    forall slot: nat, position: nat, e: nat ensures t.ListsOk(slot, position, e) {
      LowerKeepsLists(s, g, slot, position, e);
    }
    forall h, token, d ensures t.JobsOk(h, token, d) { LowerKeepsJobs(s, g, h, token, d); }
    forall u: nat ensures t.ThreadOk(u) { LowerKeepsThreads(s, g, u); }
  }

  ghost predicate CanUnhold(s: Graph, g: nat) {
    s.At(g).Submitting? && s.At(g).batch != [] && s.At(g).arriving == None && s.At(g).batch[0] in s.infos
  }

  /** Releases the hold of the next job of the batch, which is handed on if it waits for nothing else. */
  ghost function Unhold(s: Graph, g: nat): Graph
    requires CanUnhold(s, g)
  {
    var pc := s.At(g);
    var h := pc.batch[0];
    var left := s.JobAt(h.slot).waiting - 1;
    var info := s.infos[h];
    WithJob(WithInfo(Moved(s, g, Submitting(pc.batch[1..], if left == 0 then Some(h) else None)), h,
                     info.(tokens := info.tokens - {Hold}, handed := if left == 0 then info.handed + 1
                         else info.handed)),
            h.slot, s.JobAt(h.slot).(waiting := left))
  }

  lemma UnholdKeepsLists(s: Graph, g: nat, slot: nat, position: nat, e: nat)
    requires s.Valid() && CanUnhold(s, g)
    ensures Unhold(s, g).ListsOk(slot, position, e)
  {
    assert s.ThreadOk(g) && s.ListsOk(slot, position, e);
    var job := s.At(g).batch[0];
    Facts(s, job.slot, 0, job);
    assert |s.infos[job].tokens - {Hold}| == |s.infos[job].tokens| - 1;
  }

  lemma UnholdKeepsJobs(s: Graph, g: nat, h: Handle, token: Token, d: Handle)
    requires s.Valid() && CanUnhold(s, g)
    ensures Unhold(s, g).JobsOk(h, token, d)
  {
    assert s.ThreadOk(g) && s.JobsOk(h, token, d);
    var job := s.At(g).batch[0];
    Facts(s, job.slot, 0, job);
    assert |s.infos[job].tokens - {Hold}| == |s.infos[job].tokens| - 1;
  }

  lemma UnholdKeepsSelf(s: Graph, g: nat)
    requires s.Valid() && CanUnhold(s, g)
    ensures Unhold(s, g).ThreadOk(g)
  {
    assert s.ThreadOk(g);
    var job := s.At(g).batch[0];
    Facts(s, job.slot, 0, job);
    assert |s.infos[job].tokens - {Hold}| == |s.infos[job].tokens| - 1;
  }

  lemma UnholdKeepsOthers(s: Graph, g: nat, u: nat)
    requires s.Valid() && CanUnhold(s, g) && u != g
    ensures Unhold(s, g).ThreadOk(u)
  {
    assert s.ThreadOk(g) && s.ThreadOk(u);
    var job := s.At(g).batch[0];
    Facts(s, job.slot, 0, job);
    assert |s.infos[job].tokens - {Hold}| == |s.infos[job].tokens| - 1;
  }

  lemma UnholdKeepsThreads(s: Graph, g: nat, u: nat)
    requires s.Valid() && CanUnhold(s, g)
    ensures Unhold(s, g).ThreadOk(u)
  {
    if u == g {
      UnholdKeepsSelf(s, g);
    } else {
      UnholdKeepsOthers(s, g, u);
    }
  }

  lemma UnholdKeepsValid(s: Graph, g: nat)
    requires s.Valid() && CanUnhold(s, g)
    ensures Unhold(s, g).Valid()
  {
    var t := Unhold(s, g);
    forall slot: nat, position: nat, e: nat ensures t.ListsOk(slot, position, e) {
      UnholdKeepsLists(s, g, slot, position, e);
    }
    forall h, token, d ensures t.JobsOk(h, token, d) { UnholdKeepsJobs(s, g, h, token, d); }
    forall u: nat ensures t.ThreadOk(u) { UnholdKeepsThreads(s, g, u); }
  }

  ghost predicate CanClaim(s: Graph, g: nat, job: Handle) {
    s.At(g) == Publishing([]) && job in s.infos && s.infos[job].tokens == {} && !s.infos[job].claimed
  }

  /** Takes up a job that was handed on, once it has run, to finish it. */
  ghost function Claim(s: Graph, g: nat, job: Handle): Graph
    requires CanClaim(s, g, job)
  {
    WithInfo(Moved(s, g, Closing(job)), job, s.infos[job].(claimed := true, holder := g))
  }

  lemma ClaimKeepsLists(s: Graph, g: nat, job: Handle, slot: nat, position: nat, e: nat)
    requires s.Valid() && CanClaim(s, g, job)
    ensures Claim(s, g, job).ListsOk(slot, position, e)
  {
    assert s.ThreadOk(g) && s.ListsOk(slot, position, e);
    Facts(s, job.slot, 0, job);
  }

  lemma ClaimKeepsJobs(s: Graph, g: nat, job: Handle, h: Handle, token: Token, d: Handle)
    requires s.Valid() && CanClaim(s, g, job)
    ensures Claim(s, g, job).JobsOk(h, token, d)
  {
    assert s.ThreadOk(g) && s.JobsOk(h, token, d);
    Facts(s, job.slot, 0, job);
  }

  lemma ClaimKeepsThreads(s: Graph, g: nat, job: Handle, u: nat)
    requires s.Valid() && CanClaim(s, g, job)
    ensures Claim(s, g, job).ThreadOk(u)
  {
    assert s.ThreadOk(g) && s.ThreadOk(u);
    Facts(s, job.slot, 0, job);
  }

  lemma ClaimKeepsValid(s: Graph, g: nat, job: Handle)
    requires s.Valid() && CanClaim(s, g, job)
    ensures Claim(s, g, job).Valid()
  {
    var t := Claim(s, g, job);
    forall slot: nat, position: nat, e: nat ensures t.ListsOk(slot, position, e) {
      ClaimKeepsLists(s, g, job, slot, position, e);
    }
    forall h, token, d ensures t.JobsOk(h, token, d) { ClaimKeepsJobs(s, g, job, h, token, d); }
    forall u: nat ensures t.ThreadOk(u) { ClaimKeepsThreads(s, g, job, u); }
  }

  ghost predicate CanSwap(s: Graph, g: nat) {
    s.At(g).Swapping? && s.At(g).job in s.infos
  }

  /** Closes the job's list, and takes what it holds: the job has finished. */
  ghost function Swap(s: Graph, g: nat): Graph
    requires CanSwap(s, g)
  {
    var h := s.At(g).job;
    var word := s.JobAt(h.slot).word;
    WithJob(WithInfo(Moved(s, g, Walking(h, word.head, false, None)), h, s.infos[h].(finished := true)),
            h.slot, s.JobAt(h.slot).(word := ListWord(h.generation, true, NONE)))
      .(phases := s.phases[h.slot := Walked(g)])
  }

  lemma SwapKeepsLists(s: Graph, g: nat, slot: nat, position: nat, e: nat)
    requires s.Valid() && CanSwap(s, g)
    ensures Swap(s, g).ListsOk(slot, position, e)
  {
    assert s.ThreadOk(g) && s.ListsOk(slot, position, e);
    Facts(s, s.At(g).job.slot, 0, s.At(g).job);
  }

  lemma SwapKeepsJobs(s: Graph, g: nat, h: Handle, token: Token, d: Handle)
    requires s.Valid() && CanSwap(s, g)
    ensures Swap(s, g).JobsOk(h, token, d)
  {
    assert s.ThreadOk(g) && s.JobsOk(h, token, d);
    Facts(s, s.At(g).job.slot, 0, s.At(g).job);
  }

  lemma SwapKeepsSelf(s: Graph, g: nat)
    requires s.Valid() && CanSwap(s, g)
    ensures Swap(s, g).ThreadOk(g)
  {
    assert s.ThreadOk(g);
    Facts(s, s.At(g).job.slot, 0, s.At(g).job);
  }

  lemma SwapKeepsOthers(s: Graph, g: nat, u: nat)
    requires s.Valid() && CanSwap(s, g) && u != g
    ensures Swap(s, g).ThreadOk(u)
  {
    assert s.ThreadOk(g) && s.ThreadOk(u);
    Facts(s, s.At(g).job.slot, 0, s.At(g).job);
  }

  lemma SwapKeepsThreads(s: Graph, g: nat, u: nat)
    requires s.Valid() && CanSwap(s, g)
    ensures Swap(s, g).ThreadOk(u)
  {
    if u == g {
      SwapKeepsSelf(s, g);
    } else {
      SwapKeepsOthers(s, g, u);
    }
  }

  lemma SwapKeepsValid(s: Graph, g: nat)
    requires s.Valid() && CanSwap(s, g)
    ensures Swap(s, g).Valid()
  {
    var t := Swap(s, g);
    forall slot: nat, position: nat, e: nat ensures t.ListsOk(slot, position, e) {
      SwapKeepsLists(s, g, slot, position, e);
    }
    forall h, token, d ensures t.JobsOk(h, token, d) { SwapKeepsJobs(s, g, h, token, d); }
    forall u: nat ensures t.ThreadOk(u) { SwapKeepsThreads(s, g, u); }
  }

  /** A list that is not empty has its newest edge at its head. */
  lemma LastIsHead(s: Graph, slot: nat)
    requires s.Valid()
    ensures s.List(slot) != [] ==>
            s.Head(slot) != NONE && s.Head(slot) in s.places
                && s.places[s.Head(slot)] == InList(slot, |s.List(slot)| - 1)
  {
    if s.List(slot) != [] {
      assert s.ListsOk(slot, |s.List(slot)| - 1, s.Head(slot));
      Facts(s, slot, s.Head(slot), Handle(slot, 0));
    }
  }

  ghost predicate CanLowerSuccessor(s: Graph, g: nat) {
    s.At(g).Walking? && s.At(g).edge != NONE && !s.At(g).lowered && s.At(g).edge in s.edges
        && s.edges[s.At(g).edge].target in s.infos
  }

  /** Counts one job less for the successor the edge leads to, which is handed on if it waits for nothing else. */
  ghost function LowerSuccessor(s: Graph, g: nat): Graph
    requires CanLowerSuccessor(s, g)
  {
    var pc := s.At(g);
    var target := s.edges[pc.edge].target;
    var slot := s.edges[pc.edge].successor;
    var left := s.JobAt(slot).waiting - 1;
    var info := s.infos[target];
    WithJob(WithInfo(Moved(s, g, pc.(lowered := true, arriving := if left == 0 then Some(target) else None)), target,
                     info.(tokens := info.tokens - {Linked(pc.edge)}, handed := if left == 0 then info.handed + 1
                         else info.handed)),
            slot, s.JobAt(slot).(waiting := left))
  }

  lemma LowerSuccessorKeepsSlots(s: Graph, g: nat, slot: nat, position: nat)
    requires s.Valid() && CanLowerSuccessor(s, g)
    ensures LowerSuccessor(s, g).SlotOk(slot) && LowerSuccessor(s, g).ListOk(slot, position)
  {
    assert s.ThreadOk(g) && s.ListsOk(slot, position, 0);
    var pc := s.At(g);
    LastIsHead(s, pc.job.slot);
    var target := s.edges[pc.edge].target;
    Facts(s, target.slot, pc.edge, target);
    assert |s.infos[target].tokens - {Linked(pc.edge)}| == |s.infos[target].tokens| - 1;
  }

  lemma LowerSuccessorKeepsEdges(s: Graph, g: nat, e: nat)
    requires s.Valid() && CanLowerSuccessor(s, g)
    ensures LowerSuccessor(s, g).EdgeOk(e)
  {
    assert s.ThreadOk(g) && s.ListsOk(0, 0, e);
    var pc := s.At(g);
    LastIsHead(s, pc.job.slot);
    var target := s.edges[pc.edge].target;
    Facts(s, target.slot, pc.edge, target);
    assert |s.infos[target].tokens - {Linked(pc.edge)}| == |s.infos[target].tokens| - 1;
    WalkerOf(s, e);
  }

  lemma LowerSuccessorKeepsLists(s: Graph, g: nat, slot: nat, position: nat, e: nat)
    requires s.Valid() && CanLowerSuccessor(s, g)
    ensures LowerSuccessor(s, g).ListsOk(slot, position, e)
  {
    LowerSuccessorKeepsSlots(s, g, slot, position);
    LowerSuccessorKeepsEdges(s, g, e);
  }

  lemma LowerSuccessorKeepsTokens(s: Graph, g: nat, h: Handle, token: Token)
    requires s.Valid() && CanLowerSuccessor(s, g)
    ensures LowerSuccessor(s, g).HandleOk(h) && LowerSuccessor(s, g).TokenOk(h, token)
  {
    assert s.ThreadOk(g) && s.JobsOk(h, token, h);
    var pc := s.At(g);
    LastIsHead(s, pc.job.slot);
    var target := s.edges[pc.edge].target;
    Facts(s, target.slot, pc.edge, target);
    assert |s.infos[target].tokens - {Linked(pc.edge)}| == |s.infos[target].tokens| - 1;
  }

  lemma LowerSuccessorKeepsDeps(s: Graph, g: nat, h: Handle, d: Handle)
    requires s.Valid() && CanLowerSuccessor(s, g)
    ensures LowerSuccessor(s, g).DepOk(h, d) && LowerSuccessor(s, g).DeclaredOk(h, d)
  {
    assert s.ThreadOk(g) && s.JobsOk(h, Hold, d);
    var pc := s.At(g);
    LastIsHead(s, pc.job.slot);
    var target := s.edges[pc.edge].target;
    Facts(s, target.slot, pc.edge, target);
    assert |s.infos[target].tokens - {Linked(pc.edge)}| == |s.infos[target].tokens| - 1;
    Facts(s, pc.job.slot, pc.edge, pc.job);
  }

  lemma LowerSuccessorKeepsJobs(s: Graph, g: nat, h: Handle, token: Token, d: Handle)
    requires s.Valid() && CanLowerSuccessor(s, g)
    ensures LowerSuccessor(s, g).JobsOk(h, token, d)
  {
    LowerSuccessorKeepsTokens(s, g, h, token);
    LowerSuccessorKeepsDeps(s, g, h, d);
  }

  lemma LowerSuccessorKeepsSelf(s: Graph, g: nat)
    requires s.Valid() && CanLowerSuccessor(s, g)
    ensures LowerSuccessor(s, g).ThreadOk(g)
  {
    assert s.ThreadOk(g);
    var pc := s.At(g);
    LastIsHead(s, pc.job.slot);
    var target := s.edges[pc.edge].target;
    Facts(s, target.slot, pc.edge, target);
    assert |s.infos[target].tokens - {Linked(pc.edge)}| == |s.infos[target].tokens| - 1;
  }

  lemma LowerSuccessorKeepsOthers(s: Graph, g: nat, u: nat)
    requires s.Valid() && CanLowerSuccessor(s, g) && u != g
    ensures LowerSuccessor(s, g).ThreadOk(u)
  {
    assert s.ThreadOk(g) && s.ThreadOk(u);
    var pc := s.At(g);
    LastIsHead(s, pc.job.slot);
    var target := s.edges[pc.edge].target;
    Facts(s, target.slot, pc.edge, target);
    assert |s.infos[target].tokens - {Linked(pc.edge)}| == |s.infos[target].tokens| - 1;
  }

  lemma LowerSuccessorKeepsThreads(s: Graph, g: nat, u: nat)
    requires s.Valid() && CanLowerSuccessor(s, g)
    ensures LowerSuccessor(s, g).ThreadOk(u)
  {
    if u == g {
      LowerSuccessorKeepsSelf(s, g);
    } else {
      LowerSuccessorKeepsOthers(s, g, u);
    }
  }

  lemma LowerSuccessorKeepsValid(s: Graph, g: nat)
    requires s.Valid() && CanLowerSuccessor(s, g)
    ensures LowerSuccessor(s, g).Valid()
  {
    var t := LowerSuccessor(s, g);
    forall slot: nat, position: nat, e: nat ensures t.ListsOk(slot, position, e) {
      LowerSuccessorKeepsLists(s, g, slot, position, e);
    }
    forall h, token, d ensures t.JobsOk(h, token, d) { LowerSuccessorKeepsJobs(s, g, h, token, d); }
    forall u: nat ensures t.ThreadOk(u) { LowerSuccessorKeepsThreads(s, g, u); }
  }

  ghost predicate CanNext(s: Graph, g: nat) {
    s.At(g).Walking? && s.At(g).lowered && s.At(g).arriving == None && s.At(g).edge in s.edges
        && s.List(s.At(g).job.slot) != []
  }

  /** Gives back the edge, and goes on to the next. */
  ghost function Next(s: Graph, g: nat): Graph
    requires CanNext(s, g)
  {
    var pc := s.At(g);
    var list := s.List(pc.job.slot);
    Moved(s, g, Walking(pc.job, s.edges[pc.edge].next, false, None))
      .(places := s.places - {pc.edge}, lists := s.lists[pc.job.slot := list[..|list| - 1]])
  }

  lemma NextKeepsLists(s: Graph, g: nat, slot: nat, position: nat, e: nat)
    requires s.Valid() && CanNext(s, g)
    ensures Next(s, g).ListsOk(slot, position, e)
  {
    assert s.ThreadOk(g) && s.ListsOk(slot, position, e);
    var pc := s.At(g);
    LastIsHead(s, pc.job.slot);
    Facts(s, pc.job.slot, pc.edge, pc.job);
    WalkerOf(s, e);
  }

  lemma NextKeepsJobs(s: Graph, g: nat, h: Handle, token: Token, d: Handle)
    requires s.Valid() && CanNext(s, g)
    ensures Next(s, g).JobsOk(h, token, d)
  {
    assert s.ThreadOk(g) && s.JobsOk(h, token, d);
    var pc := s.At(g);
    LastIsHead(s, pc.job.slot);
    Facts(s, pc.job.slot, pc.edge, pc.job);
  }

  lemma NextKeepsThreads(s: Graph, g: nat, u: nat)
    requires s.Valid() && CanNext(s, g)
    ensures Next(s, g).ThreadOk(u)
  {
    assert s.ThreadOk(g) && s.ThreadOk(u);
    var pc := s.At(g);
    LastIsHead(s, pc.job.slot);
    Facts(s, pc.job.slot, pc.edge, pc.job);
  }

  lemma NextKeepsValid(s: Graph, g: nat)
    requires s.Valid() && CanNext(s, g)
    ensures Next(s, g).Valid()
  {
    var t := Next(s, g);
    forall slot: nat, position: nat, e: nat ensures t.ListsOk(slot, position, e) {
      NextKeepsLists(s, g, slot, position, e);
    }
    forall h, token, d ensures t.JobsOk(h, token, d) { NextKeepsJobs(s, g, h, token, d); }
    forall u: nat ensures t.ThreadOk(u) { NextKeepsThreads(s, g, u); }
  }

  ghost predicate CanStore(s: Graph, g: nat) {
    s.At(g).Walking? && s.At(g).edge == NONE
  }

  /** Closes the lists under the generation after, which no handle names yet. */
  ghost function Store(s: Graph, g: nat): Graph
    requires CanStore(s, g)
  {
    var h := s.At(g).job;
    WithJob(Moved(s, g, Freeing(h.slot)), h.slot, s.JobAt(h.slot).(word := ListWord(h.generation + 1, true, NONE)))
      .(phases := s.phases[h.slot := Held(g)])
  }

  lemma StoreKeepsLists(s: Graph, g: nat, slot: nat, position: nat, e: nat)
    requires s.Valid() && CanStore(s, g)
    ensures Store(s, g).ListsOk(slot, position, e)
  {
    assert s.ThreadOk(g) && s.ListsOk(slot, position, e);
    var job := s.At(g).job;
    Facts(s, job.slot, 0, job);
    Facts(s, job.slot, 0, Handle(job.slot, job.generation + 1));
    LastIsHead(s, job.slot);
  }

  lemma StoreKeepsJobs(s: Graph, g: nat, h: Handle, token: Token, d: Handle)
    requires s.Valid() && CanStore(s, g)
    ensures Store(s, g).JobsOk(h, token, d)
  {
    assert s.ThreadOk(g) && s.JobsOk(h, token, d);
    var job := s.At(g).job;
    Facts(s, job.slot, 0, job);
    Facts(s, job.slot, 0, Handle(job.slot, job.generation + 1));
    LastIsHead(s, job.slot);
  }

  lemma StoreKeepsThreads(s: Graph, g: nat, u: nat)
    requires s.Valid() && CanStore(s, g)
    ensures Store(s, g).ThreadOk(u)
  {
    assert s.ThreadOk(g) && s.ThreadOk(u);
    var job := s.At(g).job;
    Facts(s, job.slot, 0, job);
    Facts(s, job.slot, 0, Handle(job.slot, job.generation + 1));
    LastIsHead(s, job.slot);
  }

  lemma StoreKeepsValid(s: Graph, g: nat)
    requires s.Valid() && CanStore(s, g)
    ensures Store(s, g).Valid()
  {
    var t := Store(s, g);
    forall slot: nat, position: nat, e: nat ensures t.ListsOk(slot, position, e) {
      StoreKeepsLists(s, g, slot, position, e);
    }
    forall h, token, d ensures t.JobsOk(h, token, d) { StoreKeepsJobs(s, g, h, token, d); }
    forall u: nat ensures t.ThreadOk(u) { StoreKeepsThreads(s, g, u); }
  }

  ghost predicate CanRelease(s: Graph, g: nat) {
    s.At(g).Freeing?
  }

  /** Gives the slot back to the pool. */
  ghost function Release(s: Graph, g: nat): Graph
    requires CanRelease(s, g)
  {
    Moved(s, g, Publishing([])).(phases := s.phases - {s.At(g).slot})
  }

  lemma ReleaseKeepsLists(s: Graph, g: nat, slot: nat, position: nat, e: nat)
    requires s.Valid() && CanRelease(s, g)
    ensures Release(s, g).ListsOk(slot, position, e)
  {
    assert s.ThreadOk(g) && s.ListsOk(slot, position, e);
    Facts(s, s.At(g).slot, 0, Handle(s.At(g).slot, s.Generation(s.At(g).slot)));
  }

  lemma ReleaseKeepsJobs(s: Graph, g: nat, h: Handle, token: Token, d: Handle)
    requires s.Valid() && CanRelease(s, g)
    ensures Release(s, g).JobsOk(h, token, d)
  {
    assert s.ThreadOk(g) && s.JobsOk(h, token, d);
    Facts(s, s.At(g).slot, 0, Handle(s.At(g).slot, s.Generation(s.At(g).slot)));
  }

  lemma ReleaseKeepsThreads(s: Graph, g: nat, u: nat)
    requires s.Valid() && CanRelease(s, g)
    ensures Release(s, g).ThreadOk(u)
  {
    assert s.ThreadOk(g) && s.ThreadOk(u);
    Facts(s, s.At(g).slot, 0, Handle(s.At(g).slot, s.Generation(s.At(g).slot)));
  }

  lemma ReleaseKeepsValid(s: Graph, g: nat)
    requires s.Valid() && CanRelease(s, g)
    ensures Release(s, g).Valid()
  {
    var t := Release(s, g);
    forall slot: nat, position: nat, e: nat ensures t.ListsOk(slot, position, e) {
      ReleaseKeepsLists(s, g, slot, position, e);
    }
    forall h, token, d ensures t.JobsOk(h, token, d) { ReleaseKeepsJobs(s, g, h, token, d); }
    forall u: nat ensures t.ThreadOk(u) { ReleaseKeepsThreads(s, g, u); }
  }
}
