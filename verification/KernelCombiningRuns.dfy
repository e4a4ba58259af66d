/** Every interleaving of the lock combiner's own steps (kernel/combiner.go). */
module KernelCombiningRuns {
  import opened KernelCombining
  import opened KernelCombiningSteps

  /** One atomic step of a goroutine in combine, but for granting. */
  datatype Event =
    | EvTryLock | EvDrainReleases | EvDrainArrivals | EvKeep | EvEndPass | EvUnlock | EvCheckReleases | EvCheckArrivals

  ghost predicate Takes(s: Combiner, g: nat, event: Event, t: Combiner) {
    match event
    case EvTryLock => s.At(g) == Trying && t == TryLock(s, g)
    case EvDrainReleases => s.At(g) == AtReleases && t == DrainReleases(s, g)
    case EvDrainArrivals => s.At(g) == AtArrivals && t == DrainArrivals(s, g)
    case EvKeep => CanKeep(s, g) && t == Keep(s, g)
    case EvEndPass => s.At(g) == AtPass && s.rest == [] && t == EndPass(s, g)
    case EvUnlock => s.At(g) == AtUnlock && t == Unlock(s, g)
    case EvCheckReleases => s.At(g) == CheckingReleases && t == CheckReleases(s, g)
    case EvCheckArrivals => s.At(g) == CheckingArrivals && t == CheckArrivals(s, g)
  }

  lemma EventKeepsValid(s: Combiner, g: nat, event: Event, t: Combiner)
    requires s.Valid() && Takes(s, g, event, t)
    ensures t.Valid()
  {
    match event
    case EvTryLock => TryLockKeepsValid(s, g);
    case EvDrainReleases => DrainReleasesKeepsValid(s, g);
    case EvDrainArrivals => DrainArrivalsKeepsValid(s, g);
    case EvKeep => KeepKeepsValid(s, g);
    case EvEndPass => EndPassKeepsValid(s, g);
    case EvUnlock => UnlockKeepsValid(s, g);
    case EvCheckReleases => CheckReleasesKeepsValid(s, g);
    case EvCheckArrivals => CheckArrivalsKeepsValid(s, g);
  }

  /** Whether a job has asked for locks it was not granted yet. */
  ghost predicate Asks(s: Combiner, job: nat) {
    s.Is(job, Arrived) || s.Is(job, Waiting)
  }

  /** Such a step grants nothing, and at most unlocks what finished jobs held. */
  ghost predicate OnlyLetsGo(s: Combiner, t: Combiner, job: nat) {
    && (Asks(t, job) <==> Asks(s, job)) && (t.Is(job, Holding) <==> s.Is(job, Holding))
    && (t.Is(job, Releasing) ==> s.Is(job, Releasing))
    && (job in t.held ==> job in s.held && t.held[job] == s.held[job])
  }

  lemma EventEffect(s: Combiner, g: nat, event: Event, t: Combiner, job: nat)
    requires s.Valid() && Takes(s, g, event, t)
    ensures t.table == s.table && t.tickets == s.tickets && OnlyLetsGo(s, t, job)
  {
    assert s.StageOk(job);
  }

  lemma KeepMovesNone(s: Combiner, g: nat)
    requires CanKeep(s, g)
    ensures Keep(s, g).List() == s.List()
  {
    var r := s.rest[0];
    assert (s.kept + [r]) + s.rest[1..] == s.kept + s.rest;
  }

  lemma DrainMovesNone(s: Combiner, g: nat)
    requires s.Valid() && s.At(g) == AtArrivals
    ensures DrainArrivals(s, g).List() == s.List()
  {
    assert s.MutexOk(g);
    assert [] + (s.kept + s.arrivals) + [] == s.kept + [] + s.arrivals;
  }

  /** The jobs asked for and not granted stay, in the order they arrived. */
  lemma SameRequests(s: Combiner, g: nat, event: Event, t: Combiner)
    requires s.Valid() && Takes(s, g, event, t)
    ensures t.List() == s.List()
  {
    if event.EvKeep? {
      KeepMovesNone(s, g);
    } else if event.EvDrainArrivals? {
      DrainMovesNone(s, g);
    } else {
      assert t.kept == s.kept && t.rest == s.rest && t.arrivals == s.arrivals;
    }
  }
}
