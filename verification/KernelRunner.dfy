/** How a runner's workers park and wake, as interleaved atomic steps
    (kernel/runner.go). Pinned jobs, which go to the main thread, and the end of
    the workers are not part of this model. */
module KernelRunner {
  import opened Basics

  /** Where a worker is in its loop: about to pop a job, running one, about to
      count itself idle, about to look again, parked, or about to leave idle. */
  datatype Spot = Popping | Running(job: nat) | Counting | Looking | Parked | Leaving {
    predicate CountsIdle() {
      Looking? || Parked? || Leaving?
    }
  }

  /** Where a goroutine is in makeReady: outside, having pushed a job, or about to
      put a token. */
  datatype Push = Outside | Pushed | Waking

  /** ready is the jobs waiting for a worker, oldest first, and tokens how many
      the wake channel holds, which has a slot per worker. */
  datatype Runner = Runner(
    workers: set<nat>, ready: seq<nat>, idle: int, tokens: nat, spots: map<nat, Spot>, pushes: map<nat, Push>)
  {
    ghost function At(w: nat): Spot {
      if w in spots then spots[w] else Popping
    }

    ghost function PushOf(g: nat): Push {
      if g in pushes then pushes[g] else Outside
    }

    ghost function IdleWorkers(): set<nat> {
      set w | w in workers && At(w).CountsIdle()
    }

    /** Some pusher is between its push and its token. */
    ghost predicate Midway() {
      exists g: nat :: PushOf(g) != Outside
    }

    ghost predicate SomeAwake() {
      exists w: nat :: w in workers && At(w) != Parked
    }

    ghost predicate Valid() {
      && workers != {} && tokens <= |workers| && idle == |IdleWorkers()|
      && (ready != [] ==> tokens > 0 || Midway() || SomeAwake())
    }
  }

  /** No wake-up is lost: while a job is ready and no pusher is midway, a token is
      pending or some worker is not parked. */
  lemma NoWakeUpIsLost(s: Runner)
    requires s.Valid() && s.ready != [] && forall g: nat :: s.PushOf(g) == Outside
    ensures s.tokens > 0 || exists w: nat :: w in s.workers && s.At(w) != Parked
  {
  }

  datatype Event =
    | PushJob(g: nat, job: nat)
    | ReadIdle(g: nat)
    | PutToken(g: nat)
    | Pop(w: nat)
    | EndJob(w: nat)
    | CountIdle(w: nat)
    | LookAgain(w: nat)
    | TakeToken(w: nat)
    | LeaveIdle(w: nat)

  ghost function Moved(s: Runner, w: nat, spot: Spot): Runner {
    s.(spots := s.spots[w := spot])
  }

  ghost function Pushing(s: Runner, g: nat, push: Push): Runner {
    s.(pushes := s.pushes[g := push])
  }

  /** One atomic step. A full channel already holds a token for every worker, so
      one more is dropped. */
  ghost predicate Takes(s: Runner, event: Event, t: Runner) {
    match event
    case PushJob(g, job) => s.PushOf(g) == Outside && t == Pushing(s, g, Pushed).(ready := s.ready + [job])
    case ReadIdle(g) => s.PushOf(g) == Pushed && t == Pushing(s, g, if s.idle > 0 then Waking else Outside)
    case PutToken(g) =>
      s.PushOf(g) == Waking
          && t == Pushing(s, g, Outside).(tokens := if s.tokens < |s.workers| then s.tokens + 1 else s.tokens)
    case Pop(w) =>
      && w in s.workers && s.At(w) == Popping
      && t == if s.ready != [] then Moved(s, w, Running(s.ready[0])).(ready := s.ready[1..]) else Moved(s, w, Counting)
    case EndJob(w) => w in s.workers && s.At(w).Running? && t == Moved(s, w, Popping)
    case CountIdle(w) => w in s.workers && s.At(w) == Counting && t == Moved(s, w, Looking).(idle := s.idle + 1)
    case LookAgain(w) =>
      w in s.workers && s.At(w) == Looking && t == Moved(s, w, if s.ready == [] then Parked else Leaving)
    case TakeToken(w) =>
      w in s.workers && s.At(w) == Parked && s.tokens > 0 && t == Moved(s, w, Leaving).(tokens := s.tokens - 1)
    case LeaveIdle(w) => w in s.workers && s.At(w) == Leaving && t == Moved(s, w, Popping).(idle := s.idle - 1)
  }

  lemma IdleAfterMove(s: Runner, t: Runner, w: nat, spot: Spot)
    requires w in s.workers && t.workers == s.workers && t.spots == s.spots[w := spot]
    ensures t.IdleWorkers() == if spot.CountsIdle() then s.IdleWorkers() + {w} else s.IdleWorkers() - {w}
  {
    forall u: nat ensures u in t.IdleWorkers() <==> if u == w then spot.CountsIdle() else u in s.IdleWorkers() {
      assert t.At(u) == if u == w then spot else s.At(u);
    }
  }

  /** A worker that moves, counted again if it comes to count as idle or no longer
      does. */
  lemma WorkerIsCounted(s: Runner, t: Runner, w: nat, spot: Spot)
    requires s.idle == |s.IdleWorkers()| && w in s.workers && t.workers == s.workers && t.spots == s.spots[w := spot]
    requires var was := s.At(w).CountsIdle();
             t.idle == if spot.CountsIdle() == was then s.idle else if was then s.idle - 1 else s.idle + 1
    ensures t.idle == |t.IdleWorkers()|
  {
    IdleAfterMove(s, t, w, spot);
    assert w in s.IdleWorkers() <==> s.At(w).CountsIdle();
  }

  /** idle counts the workers it is meant to. */
  lemma IdleIsCounted(s: Runner, event: Event, t: Runner)
    requires s.Valid() && Takes(s, event, t)
    ensures t.idle == |t.IdleWorkers()| && t.workers == s.workers
  {
    match event
    case PushJob(_, _) => assert t.IdleWorkers() == s.IdleWorkers();
    case ReadIdle(_) => assert t.IdleWorkers() == s.IdleWorkers();
    case PutToken(_) => assert t.IdleWorkers() == s.IdleWorkers();
    case _ => WorkerIsCounted(s, t, event.w, t.At(event.w));
  }

  /** With idle at 0, no worker is parked. */
  lemma NoneIdleMeansAwake(s: Runner)
    requires s.Valid() && s.idle == 0
    ensures s.SomeAwake()
  {
    var w :| w in s.workers;
    assert w !in s.IdleWorkers();
  }

  lemma StepKeepsValid(s: Runner, event: Event, t: Runner)
    requires s.Valid() && Takes(s, event, t)
    ensures t.Valid()
  {
    IdleIsCounted(s, event, t);
    match event
    case PushJob(g, job) => assert t.PushOf(g) != Outside;
    case ReadIdle(g) => ReadIdleKeepsWatch(s, g, t);
    case PutToken(g) =>
    case _ => WorkerKeepsWatch(s, event, t);
  }

  lemma ReadIdleKeepsWatch(s: Runner, g: nat, t: Runner)
    requires s.Valid() && Takes(s, ReadIdle(g), t)
    ensures t.tokens > 0 || t.Midway() || t.SomeAwake()
  {
    if s.idle > 0 {
      assert t.PushOf(g) != Outside;
    } else {
      NoneIdleMeansAwake(s);
      var w: nat :| w in s.workers && s.At(w) != Parked;
      assert t.At(w) != Parked;
    }
  }

  lemma WorkerKeepsWatch(s: Runner, event: Event, t: Runner)
    requires s.Valid() && Takes(s, event, t) && !event.PushJob? && !event.ReadIdle? && !event.PutToken?
    ensures t.ready != [] ==> t.tokens > 0 || t.Midway() || t.SomeAwake()
  {
    if t.ready != [] {
      assert t.At(event.w) != Parked;
    }
  }

  /** A runner just started: no job is ready, and every worker is about to look. */
  ghost function Started(workers: set<nat>): Runner {
    Runner(workers, [], 0, 0, map[], map[])
  }

  ghost predicate IsRun(states: seq<Runner>, events: seq<Event>) {
    && |states| == |events| + 1 && states[0] == Started(states[0].workers) && states[0].workers != {}
    && forall k | 0 <= k < |events| :: Takes(states[k], events[k], states[k + 1])
  }

  /** Whether goroutine g, midway through a push, has its next step to take. */
  ghost predicate PusherMovesOn(s: Runner, g: nat) {
    exists event, t :: (event == ReadIdle(g) || event == PutToken(g)) && Takes(s, event, t)
  }

  /** The channel never blocks a pusher, full or not. */
  lemma NoPusherBlocks(s: Runner, g: nat)
    requires s.Valid() && s.PushOf(g) != Outside
    ensures PusherMovesOn(s, g)
  {
    if s.PushOf(g) == Pushed {
      assert Takes(s, ReadIdle(g), Pushing(s, g, if s.idle > 0 then Waking else Outside));
    } else {
      var tokens := if s.tokens < |s.workers| then s.tokens + 1 else s.tokens;
      assert Takes(s, PutToken(g), Pushing(s, g, Outside).(tokens := tokens));
    }
  }

  ghost predicate OfWorker(event: Event, w: nat) {
    !event.PushJob? && !event.ReadIdle? && !event.PutToken? && event.w == w
  }

  /** Whether worker w has its next step to take. */
  ghost predicate WorkerMovesOn(s: Runner, w: nat) {
    exists event, t :: OfWorker(event, w) && Takes(s, event, t)
  }

  /** Only a worker that is parked, with no token pending, has none. */
  lemma WorkerHasNext(s: Runner, w: nat)
    requires w in s.workers && (s.At(w) != Parked || s.tokens > 0)
    ensures WorkerMovesOn(s, w)
  {
    match s.At(w)
    case Popping =>
      assert Takes(s, Pop(w), if s.ready != [] then Moved(s, w, Running(s.ready[0])).(ready := s.ready[1..])
                              else Moved(s, w, Counting));
    case Running(_) => assert Takes(s, EndJob(w), Moved(s, w, Popping));
    case Counting => assert Takes(s, CountIdle(w), Moved(s, w, Looking).(idle := s.idle + 1));
    case Looking => assert Takes(s, LookAgain(w), Moved(s, w, if s.ready == [] then Parked else Leaving));
    case Parked => assert Takes(s, TakeToken(w), Moved(s, w, Leaving).(tokens := s.tokens - 1));
    case Leaving => assert Takes(s, LeaveIdle(w), Moved(s, w, Popping).(idle := s.idle - 1));
  }

  lemma SomeWorkerHasNext(s: Runner)
    requires s.workers != {} && (s.tokens > 0 || s.SomeAwake())
    ensures exists w: nat :: w in s.workers && WorkerMovesOn(s, w)
  {
    if s.tokens > 0 {
      var w :| w in s.workers;
      WorkerHasNext(s, w);
    } else {
      var w: nat :| w in s.workers && s.At(w) != Parked;
      WorkerHasNext(s, w);
    }
  }

  /** The job an event pushes, if it does. */
  ghost function PushedAt(event: Event): seq<nat> {
    if event.PushJob? then [event.job] else []
  }

  /** The job a worker gets by an event, if it does: what it runs from there, in t. */
  ghost function PoppedAt(event: Event, t: Runner): seq<nat> {
    if event.Pop? && t.At(event.w).Running? then [t.At(event.w).job] else []
  }

  ghost function PushedBy(events: seq<Event>, k: nat): seq<nat>
    requires k <= |events|
  {
    if k == 0 then [] else PushedBy(events, k - 1) + PushedAt(events[k - 1])
  }

  ghost function PoppedBy(states: seq<Runner>, events: seq<Event>, k: nat): seq<nat>
    requires k <= |events| < |states|
  {
    if k == 0 then [] else PoppedBy(states, events, k - 1) + PoppedAt(events[k - 1], states[k])
  }

  lemma StepMovesJobs(s: Runner, event: Event, t: Runner)
    requires Takes(s, event, t)
    ensures s.ready + PushedAt(event) == PoppedAt(event, t) + t.ready
  {
    if event.Pop? && s.ready != [] {
      assert s.ready == [s.ready[0]] + s.ready[1..];
    }
  }

  /** In every interleaving the jobs pushed are those workers got, in the same
      order, and then those still ready: none is lost, made up or passed over. */
  lemma {:induction false} JobsArePoppedInOrder(states: seq<Runner>, events: seq<Event>, k: nat)
    requires IsRun(states, events) && k < |states|
    ensures PushedBy(events, k) == PoppedBy(states, events, k) + states[k].ready
  {
    if k > 0 {
      JobsArePoppedInOrder(states, events, k - 1);
      StepMovesJobs(states[k - 1], events[k - 1], states[k]);
      QueueMovesOn(PushedBy(events, k - 1), PoppedBy(states, events, k - 1), states[k - 1].ready,
                   PushedAt(events[k - 1]), PoppedAt(events[k - 1], states[k]), states[k].ready);
    }
  }

  /** So a worker that pops while a job pushed was not popped yet gets the oldest
      such job, and one that pops when there is none gets none. */
  lemma PopsTheOldest(states: seq<Runner>, events: seq<Event>, k: nat)
    requires IsRun(states, events) && k < |events| && events[k].Pop?
    ensures var pushed, popped := PushedBy(events, k), PoppedBy(states, events, k);
            states[k + 1].At(events[k].w) == if |popped| < |pushed| then Running(pushed[|popped|]) else Counting
  {
    JobsArePoppedInOrder(states, events, k);
  }

  /** In every interleaving no wake-up is lost: while a job pushed was not popped
      yet, and no pusher is midway, a token is pending or some worker is not parked,
      so some worker has its next step to take. The channel holds no more than a
      token per worker, and never blocks a pusher. */
  lemma {:induction false} EveryRunWakes(states: seq<Runner>, events: seq<Event>, k: nat)
    requires IsRun(states, events) && k < |states|
    ensures states[k].Valid()
    ensures |PoppedBy(states, events, k)| < |PushedBy(events, k)|
            && (forall g: nat :: states[k].PushOf(g) == Outside) ==>
              && (states[k].tokens > 0 || exists w: nat :: w in states[k].workers && states[k].At(w) != Parked)
              && exists w: nat :: w in states[k].workers && WorkerMovesOn(states[k], w)
    ensures states[k].tokens <= |states[0].workers| == |states[k].workers|
    ensures forall g: nat | states[k].PushOf(g) != Outside :: PusherMovesOn(states[k], g)
  {
    JobsArePoppedInOrder(states, events, k);
    if k == 0 {
      assert states[0].IdleWorkers() == {};
    } else {
      EveryRunWakes(states, events, k - 1);
      StepKeepsValid(states[k - 1], events[k - 1], states[k]);
      IdleIsCounted(states[k - 1], events[k - 1], states[k]);
    }
    if states[k].tokens > 0 || states[k].SomeAwake() {
      SomeWorkerHasNext(states[k]);
    }
    forall g: nat | states[k].PushOf(g) != Outside ensures PusherMovesOn(states[k], g) {
      NoPusherBlocks(states[k], g);
    }
  }
}
