/** A fixed-step track's last published tick, shared through a seqlock: one
    writer's four atomic steps, interleaved with any number of readers'
    (metronome/track.go). */
module MetronomePublishedTick {

  datatype Pair = Pair(tick: nat, deadline: int)

  /** Where the one writer is in store. */
  datatype Write = Idle | Started(pair: Pair) | TickStored(pair: Pair) | DeadlineStored(pair: Pair)

  /** Where a reader is in load, and what it has read. */
  datatype Reading = Out | GotVersion(version: nat) | GotTick(version: nat, tick: nat)
      | GotBoth(version: nat, tick: nat, deadline: int)

  /** stored is every pair ever stored, after the first: zero and the epoch. */
  datatype Published = Published(version: nat, tick: nat, deadline: int, write: Write, readings: map<nat, Reading>,
      stored: seq<Pair>) {
    ghost function ReadingOf(r: nat): Reading {
      if r in readings then readings[r] else Out
    }

    /** What the version says was stored last, while no store is under way. */
    ghost predicate VersionOk() {
      && stored != []
      && version == 2 * (|stored| - 1) + (if write.Idle? then 0 else 1)
      && (write.Idle? ==> Pair(tick, deadline) == stored[|stored| - 1])
      && (write.TickStored? || write.DeadlineStored? ==> tick == write.pair.tick)
      && (write.DeadlineStored? ==> deadline == write.pair.deadline)
    }

    /** While the version a reader read still stands and is even, what it has
        read since is of the pair stored then. */
    ghost predicate ReaderOk(r: nat) {
      match ReadingOf(r)
      case Out => true
      case GotVersion(v) => v <= version
      case GotTick(v, t) => v <= version && (v % 2 == 0 && v == version ==> v / 2 < |stored| && t == stored[v / 2].tick)
      case GotBoth(v, t, d) =>
        v <= version && (v % 2 == 0 && v == version ==> v / 2 < |stored| && Pair(t, d) == stored[v / 2])
    }

    ghost predicate Valid() {
      VersionOk() && forall r: nat {:trigger ReaderOk(r)} :: ReaderOk(r)
    }
  }

  datatype Event =
    | StartStore(pair: Pair) | StoreTick | StoreDeadline | EndStore
    | LoadVersion(r: nat) | LoadTick(r: nat) | LoadDeadline(r: nat) | Recheck(r: nat)

  ghost function Reads(s: Published, r: nat, reading: Reading): Published {
    s.(readings := s.readings[r := reading])
  }

  /** Whether the version, loaded again, lets a reader answer what it read. */
  ghost predicate Answers(s: Published, r: nat) {
    s.ReadingOf(r).GotBoth? && s.ReadingOf(r).version % 2 == 0 && s.version == s.ReadingOf(r).version
  }

  /** One atomic step; a reader whose recheck fails starts over. */
  ghost predicate Takes(s: Published, event: Event, t: Published) {
    match event
    case StartStore(pair) => s.write == Idle && t == s.(version := s.version + 1, write := Started(pair))
    case StoreTick => s.write.Started? && t == s.(tick := s.write.pair.tick, write := TickStored(s.write.pair))
    case StoreDeadline =>
      s.write.TickStored? && t == s.(deadline := s.write.pair.deadline, write := DeadlineStored(s.write.pair))
    case EndStore =>
      s.write.DeadlineStored? && t == s.(version := s.version + 1, write := Idle, stored := s.stored + [s.write.pair])
    case LoadVersion(r) => s.ReadingOf(r) == Out && t == Reads(s, r, GotVersion(s.version))
    case LoadTick(r) => s.ReadingOf(r).GotVersion? && t == Reads(s, r, GotTick(s.ReadingOf(r).version, s.tick))
    case LoadDeadline(r) =>
      s.ReadingOf(r).GotTick? && t == Reads(s, r, GotBoth(s.ReadingOf(r).version, s.ReadingOf(r).tick, s.deadline))
    case Recheck(r) => s.ReadingOf(r).GotBoth? && t == Reads(s, r, Out)
  }

  lemma StepKeepsValid(s: Published, event: Event, t: Published)
    requires s.Valid() && Takes(s, event, t)
    ensures t.Valid()
  {
    forall r: nat ensures t.ReaderOk(r) { assert s.ReaderOk(r); }
  }

  /** A load answers a tick and a deadline stored together: the pair last stored
      when it first read the version. */
  lemma LoadsNeverTear(s: Published, r: nat)
    requires s.Valid() && Answers(s, r)
    ensures var v := s.ReadingOf(r).version;
            v / 2 < |s.stored|
                && Pair(s.ReadingOf(r).tick, s.ReadingOf(r).deadline) == s.stored[v / 2] == s.stored[|s.stored| - 1]
  {
    assert s.ReaderOk(r);
  }

  /** A load with no store under way answers, once it has taken its steps. */
  lemma QuietLoadAnswers(s: Published, r: nat)
    requires s.Valid() && s.write == Idle && s.ReadingOf(r) == Out
    ensures exists t, u, v :: Takes(s, LoadVersion(r), t) && Takes(t, LoadTick(r), u) && Takes(u, LoadDeadline(r), v)
                              && Answers(v, r)
  {
    var t := Reads(s, r, GotVersion(s.version));
    var u := Reads(t, r, GotTick(s.version, s.tick));
    var v := Reads(u, r, GotBoth(s.version, s.tick, s.deadline));
    assert Takes(s, LoadVersion(r), t) && Takes(t, LoadTick(r), u) && Takes(u, LoadDeadline(r), v) && Answers(v, r);
  }

  /** Before the first store, zero and the epoch. */
  const FIRST := Published(0, 0, 0, Idle, map[], [Pair(0, 0)])

  ghost predicate IsRun(states: seq<Published>, events: seq<Event>) {
    && |states| == |events| + 1 && states[0] == FIRST
    && forall k | 0 <= k < |events| :: Takes(states[k], events[k], states[k + 1])
  }

  lemma {:induction false} EveryRunIsValid(states: seq<Published>, events: seq<Event>, k: nat)
    requires IsRun(states, events) && k < |states|
    ensures states[k].Valid()
  {
    if k == 0 {
      forall r: nat ensures states[0].ReaderOk(r) { }
    } else {
      EveryRunIsValid(states, events, k - 1);
      StepKeepsValid(states[k - 1], events[k - 1], states[k]);
    }
  }

  /** The pair of the last store begun by the first k events, or the first. */
  ghost function Begun(events: seq<Event>, k: nat): Pair
    requires k <= |events|
  {
    if k == 0 then Pair(0, 0)
    else if events[k - 1].StartStore? then events[k - 1].pair
    else Begun(events, k - 1)
  }

  /** The first pair, and then those of the stores that ended, in order. */
  ghost function Ended(events: seq<Event>, k: nat): (ended: seq<Pair>)
    requires k <= |events|
    ensures ended != []
  {
    if k == 0 then [Pair(0, 0)]
    else Ended(events, k - 1) + if events[k - 1].EndStore? then [Begun(events, k - 1)] else []
  }

  /** What is stored is the pairs of the stores that ended, in the order they did. */
  lemma {:induction false} StoresAreEvents(states: seq<Published>, events: seq<Event>, k: nat)
    requires IsRun(states, events) && k < |states|
    ensures states[k].stored == Ended(events, k)
    ensures states[k].write != Idle ==> states[k].write.pair == Begun(events, k)
  {
    if k > 0 {
      StoresAreEvents(states, events, k - 1);
    }
  }

  /** In every interleaving, each load that returns answers the pair of the last
      store that ended, or the first if none has. */
  lemma NoLoadEverTears(states: seq<Published>, events: seq<Event>, k: nat, r: nat)
    requires IsRun(states, events) && k < |events| && events[k] == Recheck(r) && Answers(states[k], r)
    ensures var ended := Ended(events, k);
            Pair(states[k].ReadingOf(r).tick, states[k].ReadingOf(r).deadline) == ended[|ended| - 1]
  {
    EveryRunIsValid(states, events, k);
    LoadsNeverTear(states[k], r);
    StoresAreEvents(states, events, k);
  }
}
