/** The job graph as interleaved atomic steps (kernel/job.go): any number of
    goroutines acquire jobs, link them behind others, submit them and finish
    them, one atomic operation at a time. */
module KernelJobGraph {
  import opened Basics

  /** No slot and no edge has index NONE. */
  const NONE: nat := 0

  /** A job's name; a slot's generation advances each time it is released.
      Generations are unbounded here. */
  datatype Handle = Handle(slot: nat, generation: nat)

  /** A list word: the slot's generation with its list's head, or closed. */
  datatype ListWord = ListWord(generation: nat, closed: bool, head: nat)

  datatype Job = Job(word: ListWord, waiting: int)

  /** source and target say which jobs the edge is between. */
  datatype Edge = Edge(next: nat, successor: nat, source: Handle, target: Handle)

  /** What a job's waiting counts: the hold of its batch, a link being made, and
      each edge to it. */
  datatype Token = Hold | Link | Linked(edge: nat)

  /** Where an edge taken from the pool is: with a goroutine, or in a list,
      counted from the list's oldest. */
  datatype Place = Own(thread: nat) | InList(slot: nat, position: nat)

  /** A taken slot is held by a goroutine while no handle names it, names a living
      job, or is of one that has finished and whose list a goroutine walks. */
  datatype Phase = Held(thread: nat) | Living | Walked(thread: nat)

  /** What is known of a job for ever: its place in the order they were made,
      what it waits for, the jobs it was declared to wait for, those already
      linked, each by which edge, or refused; how often it was handed to the
      combiner; whether it was taken up to be finished, and has finished; and
      the goroutine that holds it back, or finishes it. */
  datatype Info = Info(number: nat, tokens: set<Token>, declared: set<Handle>, deps: map<Handle, nat>, handed: nat,
                       claimed: bool, finished: bool, holder: nat)

  /** How far a goroutine is with linking one dependency. */
  datatype LinkStep = Start | Raised | Made(edge: nat) | Read(edge: nat, seen: ListWord) | Refused(edge: nat) | Dropped

  /** Where a goroutine is. batch is the jobs it has made and not submitted yet.
      arriving is a job it is about to hand to the lock combiner. */
  datatype Pc =
    | Publishing(batch: seq<Handle>)
    | Opening(batch: seq<Handle>, slot: nat, deps: seq<Handle>)
    | Linking(batch: seq<Handle>, job: Handle, deps: seq<Handle>, step: LinkStep)
    | Submitting(batch: seq<Handle>, arriving: Option<Handle>)
    | Closing(job: Handle)
    | Swapping(job: Handle)
    | Walking(job: Handle, edge: nat, lowered: bool, arriving: Option<Handle>)
    | Freeing(slot: nat)

  ghost predicate HasNone(batch: seq<Handle>, h: Handle) {
    forall k {:trigger batch[k]} | 0 <= k < |batch| :: batch[k] != h
  }

  datatype Graph = Graph(
    jobs: map<nat, Job>, edges: map<nat, Edge>, threads: map<nat, Pc>, phases: map<nat, Phase>,
        lists: map<nat, seq<nat>>,
    places: map<nat, Place>, infos: map<Handle, Info>, count: nat)
  {
    ghost function At(t: nat): Pc {
      if t in threads then threads[t] else Publishing([])
    }

    /** A new slot's word is of generation 0, with an empty list. */
    ghost function JobAt(slot: nat): Job {
      if slot in jobs then jobs[slot] else Job(ListWord(0, false, NONE), 0)
    }

    ghost function Generation(slot: nat): nat {
      JobAt(slot).word.generation
    }

    /** A slot's list, oldest edge first. */
    ghost function List(slot: nat): seq<nat> {
      if slot in lists then lists[slot] else []
    }

    ghost function Head(slot: nat): nat {
      if List(slot) == [] then NONE else List(slot)[|List(slot)| - 1]
    }

    ghost predicate SlotOk(slot: nat) {
      var h := Handle(slot, Generation(slot));
      var word := JobAt(slot).word;
      if slot !in phases then List(slot) == [] && h !in infos
      else
        slot != NONE &&
        match phases[slot]
        case Held(t) =>
          List(slot) == [] && h !in infos
          && ((At(t).Opening? && At(t).slot == slot) || (At(t).Freeing? && At(t).slot == slot))
        case Living => h in infos && !word.closed && word.head == Head(slot)
        case Walked(t) => h in infos && word.closed && At(t).Walking? && At(t).job == h
    }

    ghost predicate IsLiving(h: Handle) {
      h.slot in phases && phases[h.slot] == Living && Generation(h.slot) == h.generation
    }

    ghost predicate HandleOk(h: Handle) {
      h in infos ==>
        var info := infos[h];
        && h.slot != NONE && info.number < count
        && h.generation <= Generation(h.slot)
        && (h.generation == Generation(h.slot) ==> h.slot in phases && !phases[h.slot].Held?)
        && (info.finished <==> !IsLiving(h))
        && info.handed == (if info.tokens == {} then 1 else 0)
        && (info.finished ==> info.claimed)
        && (info.claimed ==> info.tokens == {})
        && (info.claimed && !info.finished ==>
              (At(info.holder).Closing? || At(info.holder).Swapping?) && At(info.holder).job == h)
        && (!info.finished ==> JobAt(h.slot).waiting == |info.tokens|)
    }

    ghost predicate HoldsBack(t: nat, h: Handle) {
      h in infos && Hold in infos[h].tokens && infos[h].holder == t
    }

    ghost predicate TokenOk(h: Handle, token: Token) {
      h in infos && token in infos[h].tokens ==>
        var pc := At(infos[h].holder);
        match token
        case Hold =>
          || ((pc.Publishing? || pc.Opening? || pc.Linking? || pc.Submitting?) && h in pc.batch)
          || (pc.Linking? && pc.job == h)
        case Link => pc.Linking? && pc.job == h && pc.step != Start
        case Linked(e) => e in edges && edges[e].target == h && e in places && places[e].InList?
    }

    /** Whether the goroutine that walks the list has counted e off already. */
    ghost predicate Lowered(slot: nat, position: nat) {
      && slot in phases && phases[slot].Walked? && position + 1 == |List(slot)|
      && At(phases[slot].thread).Walking? && At(phases[slot].thread).lowered
    }

    ghost predicate EdgeOk(e: nat) {
      e in places ==>
        && e != NONE && e in edges
        && match places[e]
           case Own(t) => At(t).Linking? && LinkEdge(At(t).step) == Some(e)
           case InList(slot, position) =>
             var edge := edges[e];
             && position < |List(slot)| && List(slot)[position] == e
             && edge.next == (if position == 0 then NONE else List(slot)[position - 1])
             && edge.source == Handle(slot, Generation(slot)) && edge.source in infos && edge.target in infos
             && infos[edge.source].number < infos[edge.target].number
             && edge.successor == edge.target.slot
             && (Linked(e) in infos[edge.target].tokens <==> !Lowered(slot, position))
    }

    ghost predicate ListOk(slot: nat, position: nat) {
      position < |List(slot)| ==>
          List(slot)[position] in places && places[List(slot)[position]] == InList(slot, position)
    }

    /** A job waits for each of its dependencies until that has finished. */
    ghost predicate DepOk(h: Handle, d: Handle) {
      h in infos && d in infos[h].deps ==>
        && d in infos && infos[d].number < infos[h].number
        && (infos[d].finished ||
              (infos[h].deps[d] in edges && edges[infos[h].deps[d]].source == d
                  && Linked(infos[h].deps[d]) in infos[h].tokens))
    }

    /** Every dependency declared is linked, refused, or still to be linked. */
    ghost predicate DeclaredOk(h: Handle, d: Handle) {
      h in infos && d in infos[h].declared && d.slot != NONE && d !in infos[h].deps ==>
        Hold in infos[h].tokens && At(infos[h].holder).Linking? && At(infos[h].holder).job == h
            && d in At(infos[h].holder).deps
    }

    ghost predicate BatchOk(t: nat, batch: seq<Handle>) {
      && (forall k {:trigger batch[k]} | 0 <= k < |batch| :: HoldsBack(t, batch[k]))
      && (forall j, k {:trigger batch[j], batch[k]} | 0 <= j < k < |batch| :: batch[j] != batch[k])
    }

    ghost predicate DepsOk(deps: seq<Handle>, number: nat) {
      forall k {:trigger deps[k]} | 0 <= k < |deps| ::
          deps[k].slot == NONE || (deps[k] in infos && infos[deps[k]].number < number)
    }

    ghost predicate Finished(h: Handle) {
      h in infos && infos[h].finished
    }

    ghost predicate OwnsEdge(t: nat, e: nat, source: Handle, target: Handle) {
      e in places && places[e] == Own(t) && e in edges
      && edges[e].source == source && edges[e].target == target && edges[e].successor == target.slot
    }

    ghost predicate LinkOk(t: nat, job: Handle, deps: seq<Handle>, step: LinkStep) {
      && job in infos && (Link in infos[job].tokens <==> step != Start)
      && (step != Start ==> deps != [] && deps[0].slot != NONE)
      && match step
         case Made(e) => OwnsEdge(t, e, deps[0], job)
         case Read(e, seen) =>
           OwnsEdge(t, e, deps[0], job) && seen.generation == deps[0].generation && !seen.closed
               && edges[e].next == seen.head
         case Refused(e) => OwnsEdge(t, e, deps[0], job) && Finished(deps[0])
         case Dropped => Finished(deps[0])
         case _ => true
    }

    ghost predicate ArrivingOk(arriving: Option<Handle>) {
      arriving.Some? ==> arriving.value in infos && infos[arriving.value].tokens == {}
    }

    ghost predicate ThreadOk(t: nat) {
      match At(t)
      case Publishing(batch) => BatchOk(t, batch)
      case Opening(batch, slot, deps) =>
        BatchOk(t, batch) && DepsOk(deps, count) && slot in phases && phases[slot] == Held(t)
      case Linking(batch, job, deps, step) =>
        && BatchOk(t, batch) && HoldsBack(t, job) && HasNone(batch, job)
        && DepsOk(deps, infos[job].number) && LinkOk(t, job, deps, step)
      case Submitting(batch, arriving) => BatchOk(t, batch) && ArrivingOk(arriving)
      case Closing(job) => job in infos && infos[job].claimed && !infos[job].finished && infos[job].holder == t
      case Swapping(job) => job in infos && infos[job].claimed && !infos[job].finished && infos[job].holder == t
      case Walking(job, edge, lowered, arriving) =>
        && job.slot in phases && phases[job.slot] == Walked(t) && Generation(job.slot) == job.generation
        && edge == Head(job.slot) && (if lowered then edge != NONE else arriving == None) && ArrivingOk(arriving)
      case Freeing(slot) => slot in phases && phases[slot] == Held(t)
    }

    /** What holds of any slot, place in a list, and edge. */
    ghost predicate ListsOk(slot: nat, position: nat, e: nat) {
      SlotOk(slot) && ListOk(slot, position) && EdgeOk(e)
    }

    /** What holds of any job, what it waits for, and a job it depends on. */
    ghost predicate JobsOk(h: Handle, token: Token, d: Handle) {
      HandleOk(h) && TokenOk(h, token) && DepOk(h, d) && DeclaredOk(h, d)
    }

    ghost predicate Valid() {
      && (forall slot: nat, position: nat, e: nat {:trigger ListsOk(slot, position, e)} :: ListsOk(slot, position, e))
      && (forall h, token, d {:trigger JobsOk(h, token, d)} :: JobsOk(h, token, d))
      && (forall t: nat {:trigger ThreadOk(t)} :: ThreadOk(t))
    }
  }

  /** Every fact of slot, of edge e, and of job h, apart from its tokens. */
  lemma Facts(s: Graph, slot: nat, e: nat, h: Handle)
    requires s.Valid()
    ensures s.SlotOk(slot) && s.EdgeOk(e) && s.HandleOk(h)
  {
    assert s.ListsOk(slot, 0, e) && s.JobsOk(h, Hold, h);
  }

  /** The edge a goroutine holds while it links. */
  ghost function LinkEdge(step: LinkStep): Option<nat> {
    match step
    case Made(e) => Some(e)
    case Read(e, _) => Some(e)
    case Refused(e) => Some(e)
    case _ => None
  }

  /** What link finds of h in a word: that it has finished. */
  ghost predicate ReadsFinished(word: ListWord, h: Handle) {
    word.generation != h.generation || word.closed
  }

  /** A handle reads as finished exactly once its job has finished, however often
      its slot was taken since. */
  lemma StaleHandlesReadFinished(s: Graph, h: Handle)
    requires s.Valid() && h in s.infos
    ensures ReadsFinished(s.JobAt(h.slot).word, h) <==> s.infos[h].finished
  {
    Facts(s, h.slot, 0, h);
  }

  /** A job is handed to the combiner exactly once, as soon as it waits for nothing,
      and that is not before its hold is released and every job it was declared to
      wait for has finished. */
  lemma HandedOnceAfterDependencies(s: Graph, h: Handle)
    requires s.Valid() && h in s.infos
    ensures s.infos[h].handed == if s.infos[h].tokens == {} then 1 else 0
    ensures s.infos[h].finished ==> s.infos[h].handed == 1
    ensures s.infos[h].handed == 1 ==>
              && Hold !in s.infos[h].tokens
              && forall d | d in s.infos[h].declared && d.slot != NONE :: d in s.infos && s.infos[d].finished
  {
    Facts(s, h.slot, 0, h);
    if s.infos[h].tokens == {} {
      forall d | d in s.infos[h].declared && d.slot != NONE ensures d in s.infos && s.infos[d].finished {
        assert s.JobsOk(h, Hold, d);
      }
    }
  }

  /** What a job waits for besides its hold and a link being made is an older job
      that has not finished, or a goroutine midway through that one's list. */
  lemma WaitsForOlder(s: Graph, h: Handle, e: nat)
    requires s.Valid() && h in s.infos && Linked(e) in s.infos[h].tokens
    ensures e in s.edges && s.edges[e].source in s.infos
    ensures var d := s.edges[e].source;
            && s.infos[d].number < s.infos[h].number
            && (s.infos[d].finished ==>
                  d.slot in s.phases && s.phases[d.slot].Walked? && s.At(s.phases[d.slot].thread).Walking?)
  {
    assert s.JobsOk(h, Linked(e), h);
    Facts(s, h.slot, e, h);
    var d := s.edges[e].source;
    Facts(s, d.slot, e, d);
  }
}
