/** One track's goroutine: its beats, and its beats in flight
    (metronome/track.go). */
module MetronomeTrack {
  import opened MetronomePacing

  /** The time beats stand for or lost. */
  ghost function Elapsed(beats: seq<Beat>): int {
    if beats == [] then 0
    else Elapsed(beats[..|beats| - 1]) + beats[|beats| - 1].delta + beats[|beats| - 1].lost
  }

  /** a % n, for a less than twice n. */
  lemma WrapsOnce(a: nat, n: nat)
    requires 0 < n && a < 2 * n
    ensures a % n == if a < n then a else a - n
  {
    if a < n {
    } else {
      assert a == (a - n) + n;
      ModWrap(a - n, n);
    }
  }

  lemma ModWrap(b: nat, n: nat)
    requires b < n
    ensures (b + n) % n == b
  {
    var q := (b + n) / n;
    assert b + n == q * n + (b + n) % n;
    if q <= 0 {
      TimesOrder(q, 0, n);
    } else if q >= 2 {
      TimesOrder(2, q, n);
    }
  }

  /** A ring of reused signals, one armed for each beat in flight, oldest first. */
  class SignalRing {
    var signals: array<nat>
    var oldest: nat
    var count: nat
    /** How many signals were made so far: each is named by its number. */
    var made: nat
    /** The signals of the beats in flight, oldest first. */
    ghost var inFlight: seq<nat>

    ghost predicate Valid()
      reads this, signals
    {
      && signals.Length > 0 && oldest < signals.Length && count <= signals.Length && |inFlight| == count
      && (forall i {:trigger inFlight[i]} | 0 <= i < count ::
            inFlight[i] == signals[if oldest + i < signals.Length then oldest + i else oldest + i - signals.Length])
      && (forall i {:trigger signals[i]} | 0 <= i < signals.Length :: signals[i] < made)
      && (forall i, j {:trigger signals[i], signals[j]} | 0 <= i < j < signals.Length :: signals[i] != signals[j])
    }

    constructor (size: nat)
      requires size > 0
      ensures Valid() && fresh(signals) && signals.Length == size && inFlight == []
    {
      signals := new nat[size](i => i);
      oldest, count, made, inFlight := 0, 0, size, [];
    }

    /** Doubles the ring, keeping the beats in flight oldest first. */
    method Grow()
      requires Valid() && count == signals.Length
      modifies this
      ensures Valid() && fresh(signals) && signals.Length == 2 * old(signals.Length) && inFlight == old(inFlight)
    {
      var n, split, first := signals.Length, oldest, made;
      var kept := signals[split..] + signals[..split];
      var grown := new nat[2 * n](i requires 0 <= i < 2 * n => if i < n then kept[i] else first + i);
      signals, oldest, made := grown, 0, first + 2 * n;
    }

    /** The ring's index steps after the oldest. */
    method Index(steps: nat) returns (index: nat)
      requires oldest < signals.Length && steps <= signals.Length
      ensures index == if oldest + steps < signals.Length then oldest + steps else oldest + steps - signals.Length
    {
      WrapsOnce(oldest + steps, signals.Length);
      index := (oldest + steps) % signals.Length;
    }

    /** Takes the next free signal for a beat. */
    method Take() returns (signal: nat)
      requires Valid() && count < signals.Length
      modifies `inFlight, `count
      ensures Valid() && inFlight == old(inFlight) + [signal] && signal !in old(inFlight)
    {
      var index := Index(count);
      signal := signals[index];
      forall i | 0 <= i < count ensures inFlight[i] != signal {
        assert inFlight[i] == signals[if oldest + i < signals.Length then oldest + i else oldest + i - signals.Length];
      }
      inFlight := inFlight + [signal];
      count := count + 1;
    }

    /** Arms a signal for a beat, growing the ring if every signal is armed. */
    method Arm() returns (signal: nat)
      requires Valid()
      modifies this
      ensures Valid() && (signals == old(signals) || fresh(signals))
      ensures inFlight == old(inFlight) + [signal] && signal !in old(inFlight)
      ensures signals.Length ==
              if |old(inFlight)| == old(signals.Length) then 2 * old(signals.Length) else old(signals.Length)
    {
      if count == signals.Length {
        Grow();
      }
      signal := Take();
    }

    /** The oldest beat in flight has finished. */
    method DropOldest()
      requires Valid() && count > 0
      modifies this
      ensures Valid() && inFlight == old(inFlight)[1..] && signals == old(signals)
    {
      ghost var was := inFlight;
      var index := Index(1);
      oldest := index;
      count := count - 1;
      inFlight := inFlight[1..];
      forall i | 0 <= i < count
        ensures inFlight[i] == signals[if oldest + i < signals.Length then oldest + i else oldest + i - signals.Length]
      {
        assert inFlight[i] == was[i + 1];
      }
    }
  }

  /** What a track's goroutine waits for: its timer, and its oldest beat in
      flight. */
  datatype Event = Fired | Finished

  /** What a track has come to: its pacing, whether its deadline is reached, how
      many beats are in flight, and every beat published, and when. */
  datatype Flow = Flow(pace: Pace, reached: bool, flying: nat, beats: seq<Beat>, times: seq<nat>) {
    ghost predicate HasRoom() {
      pace.settings.maxInFlight == 0 || flying < pace.settings.maxInFlight
    }

    /** A beat due never waits while there is room for it. */
    ghost predicate AtRest() {
      reached ==> !HasRoom()
    }

    ghost function Heard(event: Event): Flow {
      this.(reached := reached || event == Fired,
            flying := if event == Finished && flying > 0 then flying - 1 else flying)
    }

    /** A beat is published exactly if the deadline is reached and there is room. */
    ghost function Published(now: nat): Flow {
      if reached && HasRoom() then Flow(pace.Next(now), false, flying + 1, beats + [pace.BeatAt(now)], times + [now])
      else this
    }

    ghost function Turned(event: Event, now: nat): Flow {
      Heard(event).Published(now)
    }
  }

  /** The signals of the beats in flight that event leaves there. */
  ghost function StillInFlight(inFlight: seq<nat>, event: Event): seq<nat> {
    if event == Finished && inFlight != [] then inFlight[1..] else inFlight
  }

  ghost function TurnedAll(flow: Flow, events: seq<Event>, nows: seq<nat>): Flow
    requires |nows| == |events|
  {
    if events == [] then flow
    else
      var n := |events| - 1;
      TurnedAll(flow, events[..n], nows[..n]).Turned(events[n], nows[n])
  }

  /** How often the timer fired. */
  ghost function Firings(events: seq<Event>): nat {
    if events == [] then 0
    else Firings(events[..|events| - 1]) + if events[|events| - 1] == Fired then 1 else 0
  }

  /** Each firing of the timer is good for at most one beat, and for exactly one, at
      once, on a track with no limit of beats in flight. */
  lemma {:induction false} OneBeatPerFiring(flow: Flow, events: seq<Event>, nows: seq<nat>)
    requires |nows| == |events|
    ensures var t := TurnedAll(flow, events, nows);
            && flow.beats <= t.beats && t.pace.settings == flow.pace.settings
            && |t.beats| + (if t.reached then 1 else 0) <=
               |flow.beats| + (if flow.reached then 1 else 0) + Firings(events)
            && (flow.pace.settings.maxInFlight == 0 && !flow.reached ==>
                  !t.reached && |t.beats| == |flow.beats| + Firings(events))
  {
    if events != [] {
      var n := |events| - 1;
      OneBeatPerFiring(flow, events[..n], nows[..n]);
    }
  }

  /** The beats of a track of settings, published at times: each numbered, and what
      the clock and the beats before it make it. */
  ghost predicate Kept(settings: Settings, beats: seq<Beat>, times: seq<nat>)
    decreases |beats|
  {
    && |times| == |beats|
    && (beats != [] ==>
          var n := |beats| - 1;
          && Kept(settings, beats[..n], times[..n]) && beats[n].tick == n + 1
          && Paced(settings, Elapsed(beats[..n]), beats[n], times[n]))
  }

  lemma KeptOneMore(settings: Settings, beats: seq<Beat>, times: seq<nat>, beat: Beat, now: nat)
    requires Kept(settings, beats, times)
    requires beat.tick == |beats| + 1 && Paced(settings, Elapsed(beats), beat, now)
    ensures Kept(settings, beats + [beat], times + [now])
    ensures Elapsed(beats + [beat]) == beat.timeFromStart
  {
    assert (beats + [beat])[..|beats|] == beats && (times + [now])[..|beats|] == times;
  }

  /** So the time of each beat is what those up to it stood for or lost. */
  lemma {:induction false} KeptAt(settings: Settings, beats: seq<Beat>, times: seq<nat>, k: nat)
    requires Kept(settings, beats, times) && k < |beats|
    ensures beats[k].tick == k + 1 && |times| == |beats|
    ensures Paced(settings, Elapsed(beats[..k]), beats[k], times[k])
    ensures beats[k].timeFromStart == Elapsed(beats[..k + 1])
  {
    var n := |beats| - 1;
    if k < n {
      KeptAt(settings, beats[..n], times[..n], k);
      assert beats[..n][..k] == beats[..k] && beats[..n][..k + 1] == beats[..k + 1];
    } else {
      assert beats[..k + 1] == beats;
    }
  }

  /** The track is next due as its last beat has it, or its settings, before any. */
  ghost predicate DueOk(pace: Pace, beats: seq<Beat>, times: seq<nat>) {
    && |times| == |beats|
    && if beats == [] then pace.nextDeadline == pace.settings.step + pace.settings.minInterval
       else DueAfter(pace.settings, beats[|beats| - 1], times[|beats| - 1], pace.nextDeadline)
  }

  class Track {
    const settings: Settings
    const ring: SignalRing
    var tick: nat
    var stepCount: nat
    var nextDeadline: nat
    var lastBeat: nat
    var deadlineReached: bool
    /** Every beat published, and when. */
    ghost var beats: seq<Beat>
    ghost var times: seq<nat>

    ghost function Pacing(): Pace
      reads `tick, `stepCount, `nextDeadline, `lastBeat
    {
      Pace(settings, tick, stepCount, nextDeadline, lastBeat)
    }

    ghost function State(): Flow
      reads this, ring
    {
      Flow(Pacing(), deadlineReached, |ring.inFlight|, beats, times)
    }

    /** What holds of a track midway through a turn, too. */
    ghost predicate Steady()
      reads `tick, `stepCount, `nextDeadline, `lastBeat, `beats, `times, ring, ring.signals
    {
      && settings.Valid() && ring.Valid() && Kept(settings, beats, times)
      && tick == |beats| && Elapsed(beats) == Pacing().Behind() && DueOk(Pacing(), beats, times)
      && (settings.maxInFlight > 0 ==> |ring.inFlight| <= settings.maxInFlight == ring.signals.Length)
    }

    ghost predicate Valid()
      reads this, ring, ring.signals
    {
      Steady() && State().AtRest()
    }

    constructor (settings: Settings)
      requires settings.Valid()
      ensures Valid() && fresh(ring) && fresh(ring.signals) && ring.inFlight == []
      ensures State() == Flow(FreshPace(settings), false, 0, [], [])
    {
      this.settings := settings;
      ring := new SignalRing(if settings.maxInFlight > 1 then settings.maxInFlight else 1);
      tick, stepCount, lastBeat := 0, 0, 0;
      nextDeadline := settings.step + settings.minInterval;
      deadlineReached := false;
      beats, times := [], [];
    }

    /** Whether a beat due may start: fewer are in flight than the limit. */
    method HasRoom() returns (room: bool)
      requires ring.Valid()
      ensures room == State().HasRoom()
    {
      room := settings.maxInFlight == 0 || ring.count < settings.maxInFlight;
    }

    /** Stamps a fixed-step track's beat, after dropping the steps owed past the
        debt cap. */
    method StampStep(now: nat) returns (beat: Beat)
      requires settings.step > 0
      modifies `tick, `stepCount, `nextDeadline
      ensures var steps := now / settings.step;
              if steps - old(stepCount) <= settings.maxDebt then beat.lost == 0 && stepCount == old(stepCount) + 1
              else steps - stepCount == settings.maxDebt - 1
                     && beat.lost == (stepCount - 1 - old(stepCount)) * settings.step
      ensures beat == old(Pacing()).BeatAt(now) && Pacing() == old(Pacing()).Next(now)
    {
      var step, lost := settings.step, 0;
      var owed: int := now / step - stepCount;
      if owed > settings.maxDebt {
        var dropped := owed - settings.maxDebt;
        stepCount := stepCount + dropped;
        lost := dropped * step;
      }
      stepCount := stepCount + 1;
      tick := tick + 1;
      nextDeadline := (stepCount + 1) * step;
      beat := Beat(tick, step, lost, stepCount * step);
    }

    /** Stamps a variable track's beat, its delta clamped. */
    method StampInterval(now: nat) returns (beat: Beat)
      requires settings.step == 0
      modifies `tick, `lastBeat, `nextDeadline
      ensures beat.timeFromStart == now && beat.delta + beat.lost == now - old(lastBeat)
      ensures if settings.maxDelta == 0 || now - old(lastBeat) <= settings.maxDelta then beat.lost == 0
              else beat.delta == settings.maxDelta
      ensures beat == old(Pacing()).BeatAt(now) && Pacing() == old(Pacing()).Next(now)
    {
      var delta: int, lost := now - lastBeat, 0;
      if settings.maxDelta > 0 && delta > settings.maxDelta {
        lost := delta - settings.maxDelta;
        delta := settings.maxDelta;
      }
      tick := tick + 1;
      beat := Beat(tick, delta, lost, now);
      lastBeat := now;
      nextDeadline := now + settings.minInterval;
    }

    /** Publishes the beat due, and arms a signal for it. */
    method PublishDue(now: nat) returns (beat: Beat, signal: nat)
      requires Steady() && State().HasRoom()
      modifies this`tick, this`stepCount, this`nextDeadline, this`lastBeat, this`beats, this`times, ring
      ensures Steady() && (ring.signals == old(ring.signals) || fresh(ring.signals))
      ensures beat == old(Pacing()).BeatAt(now) && Pacing() == old(Pacing()).Next(now)
      ensures Paced(settings, Elapsed(old(beats)), beat, now) && DueAfter(settings, beat, now, nextDeadline)
      ensures settings.step > 0 ==>
                if now / settings.step - old(stepCount) <= settings.maxDebt
                then beat.lost == 0 && stepCount == old(stepCount) + 1
                else now / settings.step - stepCount == settings.maxDebt - 1
      ensures beats == old(beats) + [beat] && times == old(times) + [now] && beat.timeFromStart == Elapsed(beats)
      ensures ring.inFlight == old(ring.inFlight) + [signal] && signal !in old(ring.inFlight)
    {
      ghost var p := Pacing();
      if settings.step > 0 {
        beat := StampStep(now);
      } else {
        beat := StampInterval(now);
      }
      BeatIsPaced(p, now);
      KeptOneMore(settings, beats, times, beat, now);
      beats, times := beats + [beat], times + [now];
      signal := ring.Arm();
    }

    /** Notes that the timer fired, or that the oldest beat in flight finished. */
    method Hear(event: Event)
      requires Steady()
      modifies `deadlineReached, ring
      ensures Steady() && ring.signals == old(ring.signals) && State() == old(State()).Heard(event)
      ensures ring.inFlight == StillInFlight(old(ring.inFlight), event)
    {
      if event == Fired {
        deadlineReached := true;
      } else if ring.count > 0 {
        ring.DropOldest();
      }
    }

    /** Publishes if the deadline is reached and there is room. */
    method PublishIfDue(now: nat) returns (published: bool, signal: nat)
      requires Steady()
      modifies this, ring
      ensures Valid() && (ring.signals == old(ring.signals) || fresh(ring.signals))
      ensures State() == old(State()).Published(now) && published == (old(deadlineReached) && old(State()).HasRoom())
      ensures ring.inFlight == (if published then old(ring.inFlight) + [signal] else old(ring.inFlight))
      ensures published ==> signal !in old(ring.inFlight)
    {
      published, signal := false, 0;
      var room := HasRoom();
      if deadlineReached && room {
        var beat;
        beat, signal := PublishDue(now);
        deadlineReached, published := false, true;
      }
    }

    /** One turn of the track's goroutine: its timer fires, or its oldest beat in
        flight finishes; once the deadline is reached and there is room, it
        publishes. The beats still in flight keep their order, and a new one comes
        after them. */
    method Turn(event: Event, now: nat) returns (published: bool, signal: nat)
      requires Valid()
      modifies this, ring
      ensures Valid() && (ring.signals == old(ring.signals) || fresh(ring.signals))
      ensures State() == old(State()).Turned(event, now)
      ensures published <==> |beats| > |old(beats)|
      ensures var kept := StillInFlight(old(ring.inFlight), event);
              ring.inFlight == (if published then kept + [signal] else kept) && (published ==> signal !in kept)
    {
      Hear(event);
      published, signal := PublishIfDue(now);
    }
  }

  /** However the timer fires and beats finish, and whatever the clock reads: the
      track publishes exactly when a deadline is reached and there is room. Every
      beat's time is what the beats up to it stood for or lost, each leaves the
      debt under its cap, and those in flight never pass the limit. */
  method Run(track: Track, events: seq<Event>, nows: seq<nat>)
    requires track.Valid() && |nows| == |events|
    modifies track, track.ring
    ensures track.Valid() && track.State() == TurnedAll(old(track.State()), events, nows)
    ensures |track.times| == |track.beats| && forall k | 0 <= k < |track.beats| ::
              && track.beats[k].tick == k + 1 && track.beats[k].timeFromStart == Elapsed(track.beats[..k + 1])
              && Paced(track.settings, Elapsed(track.beats[..k]), track.beats[k], track.times[k])
    ensures DueOk(track.Pacing(), track.beats, track.times)
    ensures track.settings.maxInFlight > 0 ==> |track.ring.inFlight| <= track.settings.maxInFlight
    ensures track.deadlineReached ==> |track.ring.inFlight| == track.settings.maxInFlight > 0
  {
    ghost var first := track.State();
    assert events[..0] == [] && nows[..0] == [];
    for i := 0 to |events|
      invariant track.Valid() && (track.ring.signals == old(track.ring.signals) || fresh(track.ring.signals))
      invariant track.State() == TurnedAll(first, events[..i], nows[..i])
    {
      assert events[..i + 1][..i] == events[..i] && nows[..i + 1][..i] == nows[..i];
      var _, _ := track.Turn(events[i], nows[i]);
    }
    assert events[..|events|] == events && nows[..|nows|] == nows;
    forall k | 0 <= k < |track.beats|
      ensures track.beats[k].tick == k + 1 && track.beats[k].timeFromStart == Elapsed(track.beats[..k + 1])
      ensures Paced(track.settings, Elapsed(track.beats[..k]), track.beats[k], track.times[k])
    {
      KeptAt(track.settings, track.beats, track.times, k);
    }
  }
}
