/** A clock driven by hand, and the tracks reading it (metronome/manualclock.go,
    metronome/plugin.go, metronome/track.go). Beats in flight finish before a
    wait ends, so they are not part of this model; nor are stopwatches. */
module MetronomeManualClock {
  import opened MetronomePacing

  /** fired is a fire not answered yet by a reset. */
  datatype Timer = Timer(deadline: nat, armed: bool, fired: bool)

  function Armed(deadline: nat): Timer {
    Timer(deadline, true, false)
  }

  /** A track and its timer. */
  datatype Paced = Paced(pace: Pace, timer: Timer) {
    predicate Fixed() {
      pace.Fixed()
    }

    /** A fixed-step track's next step, and for the first the least interval that
        the plugin adds. */
    ghost function Due(): nat {
      (pace.stepCount + 1) * pace.settings.step + if pace.stepCount == 0 then pace.settings.minInterval else 0
    }

    /** A timer fires no later than its deadline is reached, and a fixed-step
        track is never ahead of the clock. */
    ghost predicate Ok(now: nat) {
      && pace.settings.Valid() && timer.armed != timer.fired
      && (Fixed() ==>
            && pace.nextDeadline == Due() && pace.stepCount * pace.settings.step <= now
            && (timer.armed ==> timer.deadline == pace.nextDeadline > now)
            && (timer.fired ==> pace.nextDeadline <= now))
      && (!Fixed() ==> pace.lastBeat <= now && timer.deadline == pace.nextDeadline)
    }

    /** Whether the track has reached a beat it has not published. */
    predicate Owes(now: nat) {
      if Fixed() then now >= pace.nextDeadline else timer.fired
    }

    /** How many more beats it can owe at now. */
    ghost function Pending(now: nat): nat {
      if Fixed() then
        if now / pace.settings.step > pace.stepCount then now / pace.settings.step - pace.stepCount else 0
      else if timer.fired then 1
      else 0
    }

    ghost predicate Settled(now: nat) {
      Ok(now) && !Owes(now)
    }

    /** Whether its next deadline is a step's: no least interval delays it. */
    predicate Prompt() {
      Fixed() ==> pace.settings.minInterval == 0 || pace.stepCount > 0
    }
  }

  /** The track as the plugin makes it, its timer reset to its first deadline. */
  function FreshTrack(settings: Settings): Paced {
    Paced(FreshPace(settings), Armed(settings.step + settings.minInterval))
  }

  /** A beat published, and by which track. */
  datatype Published = Published(track: nat, beat: Beat)

  ghost function Total(tracks: seq<Paced>, now: nat): nat {
    if tracks == [] then 0 else tracks[0].Pending(now) + Total(tracks[1..], now)
  }

  lemma TotalUpdate(tracks: seq<Paced>, now: nat, i: nat, p: Paced)
    requires i < |tracks|
    ensures Total(tracks[i := p], now) == Total(tracks, now) - tracks[i].Pending(now) + p.Pending(now)
  {
    if i > 0 {
      assert tracks[i := p][1..] == tracks[1..][i - 1 := p];
      TotalUpdate(tracks[1..], now, i - 1, p);
    }
  }

  /** The track once it has published the beat due at now, and reset its timer,
      which fires a fixed-step track's at once if the deadline is past. */
  function Beaten(p: Paced, now: nat): Paced {
    var next := p.pace.Next(now);
    Paced(next, if p.Fixed() && next.nextDeadline <= now then Timer(next.nextDeadline, false, true)
                else Armed(next.nextDeadline))
  }

  lemma BeatenIsOk(p: Paced, now: nat)
    requires p.Ok(now) && p.Owes(now)
    ensures Beaten(p, now).Ok(now) && Beaten(p, now).Pending(now) < p.Pending(now)
  {
    if p.Fixed() {
      StepsBy(now, p.pace.settings.step, p.pace.stepCount + 1);
      StepsBy(now, p.pace.settings.step, p.pace.stepCount + p.pace.Dropped(now) + 1);
    }
  }

  /** A variable track that published at now is next due once its least interval has
      passed: an advance to target has it publish again exactly if it has. */
  lemma VariableIsDueAfter(p: Paced, now: nat, target: nat)
    requires p.Ok(now) && !p.Fixed()
    ensures Beaten(p, now).timer.deadline <= target <==> target - now >= p.pace.settings.minInterval
  {
    BeatIsPaced(p.pace, now);
  }

  /** The ticks of fixed-step track i from its next, due at due, up to upto: steps
      owed past the cap at due are dropped, and lost, before the first; none is
      after. */
  ghost function Ticks(pace: Pace, i: nat, due: nat, upto: nat): seq<Published>
    requires pace.Fixed()
  {
    var step, from := pace.settings.step, pace.stepCount + pace.Dropped(due);
    if upto / step <= from then []
    else
      seq(upto / step - from, k requires 0 <= k < upto / step - from =>
        Published(i,
            Beat(pace.tick + 1 + k, step, if k == 0 then pace.Dropped(due) * step else 0, (from + 1 + k) * step)))
  }

  /** The pacing after those ticks. */
  ghost function Ticked(pace: Pace, due: nat, upto: nat): Pace
    requires pace.Fixed()
  {
    var step, from := pace.settings.step, pace.stepCount + pace.Dropped(due);
    if upto / step <= from then pace
    else Pace(pace.settings, pace.tick + (upto / step - from), upto / step, (upto / step + 1) * step, pace.lastBeat)
  }

  /** What track i owes at now, all of it. */
  ghost function Owed(p: Paced, i: nat, now: nat): seq<Published> {
    if !p.Owes(now) then [] else if p.Fixed() then Ticks(p.pace, i, now, now) else [Published(i, p.pace.BeatAt(now))]
  }

  /** The track once it has published that. */
  ghost function CaughtUp(p: Paced, now: nat): Paced {
    if !p.Owes(now) then p
    else if p.Fixed() then
      var pace := Ticked(p.pace, now, now);
      Paced(pace, Armed(pace.nextDeadline))
    else Beaten(p, now)
  }

  /** A track that owes publishes the first beat of what it owes, and owes the
      rest. */
  lemma PublishesFirst(p: Paced, i: nat, now: nat)
    requires p.Ok(now) && p.Owes(now)
    ensures Owed(p, i, now) == [Published(i, p.pace.BeatAt(now))] + Owed(Beaten(p, now), i, now)
    ensures CaughtUp(p, now) == CaughtUp(Beaten(p, now), now)
  {
    if p.Fixed() {
      var step := p.pace.settings.step;
      StepsBy(now, step, p.pace.stepCount + 1);
      StepsBy(now, step, p.pace.stepCount + p.pace.Dropped(now) + 2);
      assert Beaten(p, now).pace.Dropped(now) == 0;
    }
  }

  /** What fixed-step track i, alone with a clock, publishes after it settled, up
      to target. */
  ghost function Alone(p: Paced, i: nat, target: nat): seq<Published>
    requires p.Fixed()
  {
    if p.pace.nextDeadline > target then [] else Ticks(p.pace, i, p.pace.nextDeadline, target)
  }

  /** The track then. */
  ghost function AfterAlone(p: Paced, target: nat): Paced
    requires p.Fixed()
  {
    if p.pace.nextDeadline > target then p
    else
      var pace := Ticked(p.pace, p.pace.nextDeadline, target);
      Paced(pace, Armed(pace.nextDeadline))
  }

  /** The ticks of the steps past start and up to target, none of them late. */
  ghost function OnDeadlines(pace: Pace, i: nat, start: nat, target: nat): seq<Published>
    requires pace.Fixed() && start <= target
  {
    var step := pace.settings.step;
    if target / step <= start / step then []
    else
      seq(target / step - start / step, k requires 0 <= k < target / step - start / step =>
        Published(i, Beat(pace.tick + 1 + k, step, 0, (start / step + 1 + k) * step)))
  }

  lemma StepsOrder(a: nat, b: nat, step: nat)
    requires step > 0 && a <= b
    ensures a / step <= b / step
  {
    StepsBy(a, step, a / step);
    StepsBy(b, step, a / step);
  }

  /** Alone, a settled track publishes exactly its deadlines, whatever the target,
      exactly if no least interval delays its next. */
  lemma OnDeadlinesIffPrompt(p: Paced, i: nat, now: nat)
    requires p.Fixed() && p.Settled(now)
    ensures (forall target: nat | target >= now :: Alone(p, i, target) == OnDeadlines(p.pace, i, now, target)) <==>
            p.Prompt()
  {
    if p.Prompt() {
      forall target: nat | target >= now ensures Alone(p, i, target) == OnDeadlines(p.pace, i, now, target) {
        PromptMeetsDeadlines(p, i, now, target);
      }
    } else {
      var target := if now < p.pace.settings.step then p.pace.settings.step else p.pace.nextDeadline;
      DelayedMisses(p, i, now, target);
    }
  }

  lemma PromptMeetsDeadlines(p: Paced, i: nat, now: nat, target: nat)
    requires p.Fixed() && p.Settled(now) && p.Prompt() && target >= now
    ensures Alone(p, i, target) == OnDeadlines(p.pace, i, now, target)
  {
    var step, count := p.pace.settings.step, p.pace.stepCount;
    StepsBy(now, step, count);
    StepsBy(now, step, count + 1);
    WholeSteps(count + 1, step);
    StepsBy(target, step, count + 1);
  }

  lemma DelayedMisses(p: Paced, i: nat, now: nat, target: nat)
    requires p.Fixed() && p.Settled(now) && !p.Prompt()
    requires target == if now < p.pace.settings.step then p.pace.settings.step else p.pace.nextDeadline
    ensures target >= now && Alone(p, i, target) != OnDeadlines(p.pace, i, now, target)
  {
    var step, due := p.pace.settings.step, p.pace.nextDeadline;
    WholeSteps(1, step);
    StepsBy(due, step, 1);
    StepsBy(now, step, 1);
    if now >= step {
      var dropped, late := p.pace.Dropped(due), now / step;
      assert Alone(p, i, due) == Ticks(p.pace, i, due, due) && |Alone(p, i, due)| == due / step - dropped;
      assert Alone(p, i, due)[0].beat.lost == dropped * step;
      if dropped == late {
        TimesOrder(1, dropped, step);
        StepsOrder(now, due, step);
        if due / step > now / step {
          assert OnDeadlines(p.pace, i, now, due)[0].beat.lost == 0;
        }
      }
    }
  }

  /** The first tick of a track is due after one step exactly if it sets no least
      interval, though the documentation has that mean nothing here. */
  lemma FirstTickIsOnTimeIff(settings: Settings)
    requires settings.step > 0
    ensures (forall now: nat :: FreshTrack(settings).Owes(now) <==> now >= settings.step) <==> settings.minInterval == 0
  {
    if settings.minInterval > 0 {
      assert !FreshTrack(settings).Owes(settings.step);
    }
  }

  /** A fixed-step track with a least interval is late for its first tick. */
  lemma FirstTickCanBeLate()
    ensures var p := FreshTrack(Settings(10, 5, 0, 0, 4));
            && Alone(p, 0, 10) == [] && OnDeadlines(p.pace, 0, 0, 10) != []
            && Alone(p, 0, 15) == [Published(0, Beat(1, 10, 0, 10))]
  {
  }

  /** What track i published. */
  ghost function BeatsOf(log: seq<Published>, i: nat): seq<Published> {
    if log == [] then []
    else BeatsOf(log[..|log| - 1], i) + if log[|log| - 1].track == i then [log[|log| - 1]] else []
  }

  lemma OneMoreBeat(log: seq<Published>, e: Published, i: nat)
    ensures BeatsOf(log + [e], i) == BeatsOf(log, i) + if e.track == i then [e] else []
  {
    assert (log + [e])[..|log|] == log;
  }

  lemma {:induction false} BeatsConcat(a: seq<Published>, b: seq<Published>, i: nat)
    ensures BeatsOf(a + b, i) == BeatsOf(a, i) + BeatsOf(b, i)
  {
    if b == [] {
      assert a + b == a;
    } else {
      var n := |b| - 1;
      BeatsConcat(a, b[..n], i);
      assert a + b == (a + b[..n]) + [b[n]] && b == b[..n] + [b[n]];
      OneMoreBeat(a + b[..n], b[n], i);
      OneMoreBeat(b[..n], b[n], i);
    }
  }

  lemma {:induction false} BeatIsOfItsTrack(log: seq<Published>, k: nat)
    requires k < |log|
    ensures log[k] in BeatsOf(log, log[k].track)
  {
    var n := |log| - 1;
    if k < n {
      BeatIsOfItsTrack(log[..n], k);
    }
  }

  ghost predicate AllOk(tracks: seq<Paced>, now: nat) {
    forall i {:trigger tracks[i]} | 0 <= i < |tracks| :: tracks[i].Ok(now)
  }

  ghost predicate AllSettled(tracks: seq<Paced>, now: nat) {
    forall i {:trigger tracks[i]} | 0 <= i < |tracks| :: tracks[i].Settled(now)
  }

  ghost predicate NoneOther(beats: seq<Published>, count: nat) {
    forall k {:trigger beats[k]} | 0 <= k < |beats| :: beats[k].track < count
  }

  /** Midway through a wait: what each track published, and what it still owes. */
  ghost predicate WaitingAt(were: seq<Paced>, tracks: seq<Paced>, now: nat, beats: seq<Published>, i: nat)
    requires |were| == |tracks|
  {
    i < |tracks| ==>
      && CaughtUp(tracks[i], now) == CaughtUp(were[i], now)
      && BeatsOf(beats, i) + Owed(tracks[i], i, now) == Owed(were[i], i, now)
  }

  ghost predicate Waiting(were: seq<Paced>, tracks: seq<Paced>, now: nat, beats: seq<Published>) {
    && |tracks| == |were| && NoneOther(beats, |were|)
    && forall i: nat {:trigger WaitingAt(were, tracks, now, beats, i)} :: WaitingAt(were, tracks, now, beats, i)
  }

  /** Every track published all it owed, and nothing else. */
  ghost predicate WaitedAt(were: seq<Paced>, tracks: seq<Paced>, now: nat, beats: seq<Published>, i: nat)
    requires |were| == |tracks|
  {
    i < |tracks| ==> tracks[i] == CaughtUp(were[i], now) && BeatsOf(beats, i) == Owed(were[i], i, now)
  }

  ghost predicate Waited(were: seq<Paced>, tracks: seq<Paced>, now: nat, beats: seq<Published>) {
    && |tracks| == |were| && NoneOther(beats, |were|)
    && forall i: nat {:trigger WaitedAt(were, tracks, now, beats, i)} :: WaitedAt(were, tracks, now, beats, i)
  }

  lemma WaitStarts(tracks: seq<Paced>, now: nat)
    ensures Waiting(tracks, tracks, now, [])
  {
    forall i: nat ensures WaitingAt(tracks, tracks, now, [], i) {
      if i < |tracks| {
        assert [] + Owed(tracks[i], i, now) == Owed(tracks[i], i, now);
      }
    }
  }

  lemma FirstIsDone(done: seq<Published>, w: Paced, p: Paced, i: nat, now: nat)
    requires p.Ok(now) && p.Owes(now) && done + Owed(p, i, now) == Owed(w, i, now)
    ensures (done + [Published(i, p.pace.BeatAt(now))]) + Owed(Beaten(p, now), i, now) == Owed(w, i, now)
  {
    PublishesFirst(p, i, now);
    Regroup(done, Published(i, p.pace.BeatAt(now)), Owed(Beaten(p, now), i, now));
  }

  lemma Regroup(done: seq<Published>, e: Published, left: seq<Published>)
    ensures done + ([e] + left) == (done + [e]) + left
  {
  }

  lemma WaitGoesOnAt(were: seq<Paced>, tracks: seq<Paced>, now: nat, beats: seq<Published>, i: nat, e: Published,
                     j: nat)
    requires |were| == |tracks| && WaitingAt(were, tracks, now, beats, j) && i < |tracks|
    requires tracks[i].Ok(now) && tracks[i].Owes(now) && e == Published(i, tracks[i].pace.BeatAt(now))
    ensures WaitingAt(were, tracks[i := Beaten(tracks[i], now)], now, beats + [e], j)
  {
    OneMoreBeat(beats, e, j);
    if j == i {
      PublishesFirst(tracks[i], i, now);
      FirstIsDone(BeatsOf(beats, i), were[i], tracks[i], i, now);
    }
  }

  lemma WaitGoesOn(were: seq<Paced>, tracks: seq<Paced>, now: nat, beats: seq<Published>, i: nat, e: Published)
    requires Waiting(were, tracks, now, beats) && AllOk(tracks, now) && i < |tracks| && tracks[i].Owes(now)
    requires e == Published(i, tracks[i].pace.BeatAt(now))
    ensures Waiting(were, tracks[i := Beaten(tracks[i], now)], now, beats + [e])
  {
    var after := tracks[i := Beaten(tracks[i], now)];
    forall j: nat ensures WaitingAt(were, after, now, beats + [e], j) {
      assert WaitingAt(were, tracks, now, beats, j);
      WaitGoesOnAt(were, tracks, now, beats, i, e, j);
    }
  }

  lemma WaitEnds(were: seq<Paced>, tracks: seq<Paced>, now: nat, beats: seq<Published>)
    requires Waiting(were, tracks, now, beats) && AllSettled(tracks, now)
    ensures Waited(were, tracks, now, beats)
  {
    forall i: nat ensures WaitedAt(were, tracks, now, beats, i) {
      assert WaitingAt(were, tracks, now, beats, i);
    }
  }

  /** A wait that starts settled publishes nothing. */
  lemma NothingOwed(were: seq<Paced>, tracks: seq<Paced>, now: nat, beats: seq<Published>)
    requires AllSettled(were, now) && Waited(were, tracks, now, beats)
    ensures beats == [] && tracks == were
  {
    forall i | 0 <= i < |tracks| ensures tracks[i] == were[i] && BeatsOf(beats, i) == [] {
      assert WaitedAt(were, tracks, now, beats, i);
    }
    if beats != [] {
      BeatIsOfItsTrack(beats, 0);
    }
  }

  class ManualClock {
    var now: nat
    var tracks: seq<Paced>
    /** Every beat published. */
    ghost var log: seq<Published>

    ghost predicate Valid()
      reads this
    {
      AllOk(tracks, now)
    }

    /** A clock at zero, its tracks as the plugin makes them. */
    constructor (settings: seq<Settings>)
      requires forall i {:trigger settings[i]} | 0 <= i < |settings| :: settings[i].Valid()
      ensures Valid() && now == 0 && log == [] && |tracks| == |settings|
      ensures forall i | 0 <= i < |settings| :: tracks[i] == FreshTrack(settings[i])
    {
      now, log := 0, [];
      tracks := seq(|settings|, i requires 0 <= i < |settings| => FreshTrack(settings[i]));
    }

    /** Track i, which owes a beat, publishes one, and resets its timer. */
    method Publish(i: nat)
      requires Valid() && i < |tracks| && tracks[i].Owes(now)
      modifies `tracks, `log
      ensures Valid() && tracks == old(tracks)[i := Beaten(old(tracks)[i], now)]
      ensures log == old(log) + [Published(i, old(tracks)[i].pace.BeatAt(now))]
    {
      var p := tracks[i];
      BeatenIsOk(p, now);
      var pace, beat := p.pace.Next(now), p.pace.BeatAt(now);
      var timer := Armed(pace.nextDeadline);
      // A reset fires a fixed-step track's timer at once if its time has come.
      if p.Fixed() && timer.deadline <= now {
        timer := Timer(timer.deadline, false, true);
      }
      tracks := tracks[i := Paced(pace, timer)];
      log := log + [Published(i, beat)];
    }

    /** Finds a track that owes a beat. */
    method SomeOwing() returns (i: nat)
      requires Valid()
      ensures i <= |tracks| && (i < |tracks| ==> tracks[i].Owes(now)) && (i == |tracks| ==> AllSettled(tracks, now))
    {
      var owing: set<nat> := set k: nat | k < |tracks| && tracks[k].Owes(now);
      if owing == {} {
        forall k | 0 <= k < |tracks| ensures !tracks[k].Owes(now) { assert k !in owing; }
        return |tracks|;
      }
      i :| i in owing;
    }

    /** Lets every track that owes beats publish them, in any order. */
    method Wait() returns (ghost beats: seq<Published>)
      requires Valid()
      modifies `tracks, `log
      ensures AllSettled(tracks, now) && log == old(log) + beats && Waited(old(tracks), tracks, now, beats)
    {
      beats := [];
      ghost var before := tracks;
      WaitStarts(before, now);
      var i: nat := SomeOwing();
      while i < |tracks|
        invariant Valid() && log == old(log) + beats && Waiting(before, tracks, now, beats)
        invariant i <= |tracks| && (i < |tracks| ==> tracks[i].Owes(now)) && (i == |tracks| ==> AllSettled(tracks, now))
        decreases Total(tracks, now)
      {
        BeatenIsOk(tracks[i], now);
        TotalUpdate(tracks, now, i, Beaten(tracks[i], now));
        ghost var e := Published(i, tracks[i].pace.BeatAt(now));
        WaitGoesOn(before, tracks, now, beats, i, e);
        Publish(i);
        beats := beats + [e];
        i := SomeOwing();
      }
      WaitEnds(before, tracks, now, beats);
    }

    /** The earliest deadline of an armed fixed-step timer no later than target. */
    method NextDeadline(target: nat) returns (next: nat, found: bool)
      ensures if found then next <= target && IsEarliest(tracks, next) else next == target && NoneUpTo(tracks, target)
    {
      next, found := target, false;
      for i := 0 to |tracks|
        invariant next <= target && (!found ==> next == target)
        invariant found ==>
          exists k :: 0 <= k < i && tracks[k].Fixed() && tracks[k].timer.armed && tracks[k].timer.deadline == next
        invariant forall k {:trigger tracks[k]} | 0 <= k < i && tracks[k].Fixed() && tracks[k].timer.armed ::
          if found then tracks[k].timer.deadline >= next else tracks[k].timer.deadline > target
      {
        if tracks[i].Fixed() && tracks[i].timer.armed && tracks[i].timer.deadline <= next {
          next, found := tracks[i].timer.deadline, true;
        }
      }
    }

    /** Moves to next, and fires every armed timer of the kind whose deadline the
        clock has reached. */
    method MoveAndFire(next: nat, kind: bool)
      modifies `now, `tracks
      ensures now == next && FiredKind(old(tracks), tracks, next, kind)
    {
      now := next;
      for i := 0 to |tracks|
        invariant now == next && |tracks| == |old(tracks)|
        invariant forall k {:trigger tracks[k]} | 0 <= k < |tracks| ::
          tracks[k] == if k < i && old(tracks)[k].Fixed() == kind then Fired(old(tracks)[k], next) else old(tracks)[k]
      {
        var p := tracks[i];
        if p.Fixed() == kind && p.timer.armed && p.timer.deadline <= now {
          tracks := tracks[i := p.(timer := Timer(p.timer.deadline, false, true))];
        }
      }
    }

    /** Moves to the earliest deadline ahead and fires the fixed-step timers due,
        or, with none up to next, moves there and fires the variable timers due;
        then waits until every track has settled. */
    method MoveAndWait(next: nat, kind: bool) returns (ghost fired: seq<Paced>, ghost beats: seq<Published>)
      requires AllSettled(tracks, now) && now <= next
      requires if kind then IsEarliest(tracks, next) else NoneUpTo(tracks, next)
      modifies `now, `tracks, `log
      ensures AllSettled(tracks, now) && now == next && log == old(log) + beats && (kind ==> old(now) < next)
      ensures FiredKind(old(tracks), fired, next, kind) && Waited(fired, tracks, next, beats)
    {
      ghost var were, was := tracks, now;
      MoveAndFire(next, kind);
      fired := tracks;
      FiringKeepsOk(were, fired, was, next, kind);
      beats := Wait();
    }

    /** Moves the clock forward by d, deadline by deadline across the fixed-step
        tracks, waiting at each until every track has settled; at the target it
        fires the variable tracks due. caught is the beats owed before, none if the
        tracks had settled, and from the tracks once they are published. */
    method Advance(d: nat) returns (ghost caught: seq<Published>, ghost from: seq<Paced>, ghost beats: seq<Published>)
      requires Valid()
      modifies `now, `tracks, `log
      ensures AllSettled(tracks, now) && now == old(now) + d && log == old(log) + caught + beats
      ensures AllSettled(from, old(now)) && Waited(old(tracks), from, old(now), caught)
      ensures AllSettled(old(tracks), old(now)) ==> caught == [] && from == old(tracks)
      ensures Advanced(from, tracks, now, beats) && Ascending(from, beats, old(now), now)
    {
      var target := now + d;
      ghost var start := now;
      ghost var before := tracks;
      caught := Wait();
      from := tracks;
      if AllSettled(before, start) {
        NothingOwed(before, from, start, caught);
      }
      ghost var told := log;
      beats := [];
      WalkStarts(from, start, target);
      while true
        invariant AllSettled(tracks, now) && start <= now <= target
        invariant log == told + beats && Walked(from, tracks, start, now, target, beats)
        decreases target - now
      {
        var next, found := NextDeadline(target);
        ghost var were, was := tracks, now;
        ghost var fired, more := MoveAndWait(next, found);
        if !found {
          WalkEnds(from, were, fired, tracks, start, was, target, beats, more);
          beats := beats + more;
          return;
        }
        WalkGoesOn(from, were, fired, tracks, start, was, next, target, beats, more);
        beats := beats + more;
      }
    }
  }

  /** next is the earliest deadline of an armed fixed-step timer. */
  ghost predicate IsEarliest(tracks: seq<Paced>, next: nat) {
    && (exists i :: 0 <= i < |tracks| && tracks[i].Fixed() && tracks[i].timer.armed && tracks[i].timer.deadline == next)
    && (forall i {:trigger tracks[i]} | 0 <= i < |tracks| && tracks[i].Fixed() && tracks[i].timer.armed ::
          tracks[i].timer.deadline >= next)
  }

  /** No armed fixed-step timer's deadline lies at target or before it. */
  ghost predicate NoneUpTo(tracks: seq<Paced>, target: nat) {
    forall i {:trigger tracks[i]} | 0 <= i < |tracks| && tracks[i].Fixed() && tracks[i].timer.armed ::
      tracks[i].timer.deadline > target
  }

  /** Every timer due of the fixed-step tracks, or else of the variable ones, has
      fired, and nothing else has changed. */
  ghost predicate FiredKind(were: seq<Paced>, tracks: seq<Paced>, now: nat, kind: bool) {
    && |tracks| == |were|
    && forall i {:trigger tracks[i]} {:trigger were[i]} | 0 <= i < |tracks| ::
         tracks[i] == if were[i].Fixed() == kind then Fired(were[i], now) else were[i]
  }

  function Fired(p: Paced, now: nat): Paced {
    if p.timer.armed && p.timer.deadline <= now then p.(timer := Timer(p.timer.deadline, false, true)) else p
  }

  lemma FiringKeepsOk(were: seq<Paced>, tracks: seq<Paced>, was: nat, next: nat, kind: bool)
    requires AllSettled(were, was) && was <= next && FiredKind(were, tracks, next, kind)
    requires if kind then IsEarliest(were, next) else NoneUpTo(were, next)
    ensures AllOk(tracks, next) && (kind ==> was < next)
  {
    if kind {
      var first :| 0 <= first < |were| && were[first].Fixed() && were[first].timer.armed
        && were[first].timer.deadline == next;
      assert were[first].Settled(was);
    }
    forall i | 0 <= i < |tracks| ensures tracks[i].Ok(next) {
      assert were[i].Settled(was);
    }
  }

  /** In time order, after start and no later than upto: what the tracks publish
      that no least interval delays. */
  ghost predicate Ascending(from: seq<Paced>, beats: seq<Published>, start: nat, upto: nat) {
    && NoneOther(beats, |from|)
    && (forall k {:trigger beats[k]} | 0 <= k < |beats| && from[beats[k].track].Prompt() ::
          start <= beats[k].beat.timeFromStart <= upto)
    && (forall j, k {:trigger beats[j], beats[k]} |
          0 <= j < k < |beats| && from[beats[j].track].Prompt() && from[beats[k].track].Prompt() ::
          beats[j].beat.timeFromStart <= beats[k].beat.timeFromStart)
  }

  /** Midway through an advance: a fixed-step track has published what it would
      have alone, but for what it still will; a variable track waits. */
  ghost predicate WalkedAt(from: seq<Paced>, tracks: seq<Paced>, target: nat, beats: seq<Published>, i: nat)
    requires |tracks| == |from|
  {
    i < |tracks| ==>
      if from[i].Fixed() then
        && tracks[i].pace.settings == from[i].pace.settings && tracks[i].pace.stepCount >= from[i].pace.stepCount
        && BeatsOf(beats, i) + Alone(tracks[i], i, target) == Alone(from[i], i, target)
        && AfterAlone(tracks[i], target) == AfterAlone(from[i], target)
      else tracks[i] == from[i] && BeatsOf(beats, i) == []
  }

  ghost predicate Walked(from: seq<Paced>, tracks: seq<Paced>, start: nat, now: nat, target: nat,
                         beats: seq<Published>)
  {
    && |tracks| == |from| && Ascending(from, beats, start, now)
    && forall i: nat {:trigger WalkedAt(from, tracks, target, beats, i)} :: WalkedAt(from, tracks, target, beats, i)
  }

  /** Each track has done what it would have done alone: a fixed-step track its
      ticks, and a variable track one beat at the target if its timer was due. */
  ghost predicate AdvancedAt(from: seq<Paced>, tracks: seq<Paced>, target: nat, beats: seq<Published>, i: nat)
    requires |tracks| == |from|
  {
    i < |tracks| ==>
      if from[i].Fixed() then
        tracks[i] == AfterAlone(from[i], target) && BeatsOf(beats, i) == Alone(from[i], i, target)
      else if from[i].timer.deadline <= target then
        tracks[i] == Beaten(from[i], target) && BeatsOf(beats, i) == [Published(i, from[i].pace.BeatAt(target))]
      else tracks[i] == from[i] && BeatsOf(beats, i) == []
  }

  ghost predicate Advanced(from: seq<Paced>, tracks: seq<Paced>, target: nat, beats: seq<Published>) {
    && |tracks| == |from|
    && forall i: nat {:trigger AdvancedAt(from, tracks, target, beats, i)} :: AdvancedAt(from, tracks, target, beats, i)
  }

  lemma WalkStarts(tracks: seq<Paced>, now: nat, target: nat)
    requires AllSettled(tracks, now) && now <= target
    ensures Walked(tracks, tracks, now, now, target, [])
  {
    forall i: nat ensures WalkedAt(tracks, tracks, target, [], i) {
      if i < |tracks| && tracks[i].Fixed() {
        assert [] + Alone(tracks[i], i, target) == Alone(tracks[i], i, target);
      }
    }
  }

  /** A fixed-step track whose deadline comes publishes what it owes there, and
      then what it would alone. */
  lemma AloneGoesOn(p: Paced, i: nat, was: nat, next: nat, target: nat)
    requires p.Fixed() && p.Settled(was) && was < next <= target && p.pace.nextDeadline == next
    ensures var q := CaughtUp(Fired(p, next), next);
            && q.Fixed() && q.pace.settings == p.pace.settings && q.pace.stepCount >= p.pace.stepCount
            && Alone(p, i, target) == Owed(Fired(p, next), i, next) + Alone(q, i, target)
            && AfterAlone(p, target) == AfterAlone(q, target)
  {
    var step := p.pace.settings.step;
    StepsBy(next, step, p.pace.stepCount + 1);
    StepsOrder(next, target, step);
    WholeSteps(next / step + 1, step);
    StepsBy(target, step, next / step + 1);
    assert CaughtUp(Fired(p, next), next).pace.Dropped((next / step + 1) * step) == 0;
  }

  /** A fixed-step track ahead of the moment publishes nothing. */
  lemma AheadWaits(p: Paced, i: nat, was: nat, next: nat)
    requires p.Fixed() && p.Settled(was) && p.pace.nextDeadline > next
    ensures Fired(p, next) == p && Owed(p, i, next) == [] && CaughtUp(p, next) == p
  {
  }

  /** What it publishes now and then alone is what it would have alone. */
  lemma AloneFromHere(p: Paced, i: nat, was: nat, next: nat, target: nat)
    requires p.Fixed() && p.Settled(was) && was < next <= target && p.pace.nextDeadline >= next
    ensures var q := CaughtUp(Fired(p, next), next);
            && q.Fixed() && q.pace.settings == p.pace.settings && q.pace.stepCount >= p.pace.stepCount
            && Alone(p, i, target) == Owed(Fired(p, next), i, next) + Alone(q, i, target)
            && AfterAlone(p, target) == AfterAlone(q, target)
  {
    if p.pace.nextDeadline == next {
      AloneGoesOn(p, i, was, next, target);
    } else {
      AheadWaits(p, i, was, next);
      assert Alone(p, i, target) == [] + Alone(p, i, target);
    }
  }

  lemma WalkGoesOnAt(from: seq<Paced>, were: seq<Paced>, fired: seq<Paced>, tracks: seq<Paced>, was: nat, next: nat,
                     target: nat, beats: seq<Published>, more: seq<Published>, i: nat)
    requires |from| == |were| == |fired| == |tracks| && WalkedAt(from, were, target, beats, i)
    requires i < |were| ==>
               && were[i].Settled(was) && (were[i].Fixed() ==> were[i].pace.nextDeadline >= next)
               && fired[i] == if were[i].Fixed() then Fired(were[i], next) else were[i]
    requires was < next <= target && WaitedAt(fired, tracks, next, more, i)
    ensures WalkedAt(from, tracks, target, beats + more, i)
  {
    if i < |tracks| {
      BeatsConcat(beats, more, i);
      if were[i].Fixed() {
        AloneFromHere(were[i], i, was, next, target);
        assert BeatsOf(beats, i) + (BeatsOf(more, i) + Alone(tracks[i], i, target)) ==
               (BeatsOf(beats, i) + BeatsOf(more, i)) + Alone(tracks[i], i, target);
      }
    }
  }

  /** A track that no least interval delays publishes one beat, of this moment. */
  lemma PromptBeatsNow(p: Paced, fired: Paced, i: nat, was: nat, next: nat, e: Published)
    requires p.Settled(was) && p.Prompt() && was <= next && (p.Fixed() ==> p.pace.nextDeadline >= next)
    requires (fired == Fired(p, next) || fired == p) && e in Owed(fired, i, next)
    ensures e.beat.timeFromStart == next
  {
    if p.Fixed() {
      WholeSteps(p.pace.stepCount + 1, p.pace.settings.step);
    }
  }

  lemma MoreAreNow(from: seq<Paced>, were: seq<Paced>, fired: seq<Paced>, tracks: seq<Paced>, was: nat, next: nat,
                   kind: bool, target: nat, beats: seq<Published>, more: seq<Published>, k: nat)
    requires |from| == |were| && WalkedAt(from, were, target, beats, if k < |more| then more[k].track else 0)
    requires AllSettled(were, was) && was <= next && FiredKind(were, fired, next, kind)
    requires if kind then IsEarliest(were, next) else NoneUpTo(were, next)
    requires Waited(fired, tracks, next, more) && k < |more| && from[more[k].track].Prompt()
    ensures more[k].beat.timeFromStart == next
  {
    var i := more[k].track;
    BeatIsOfItsTrack(more, k);
    assert WaitedAt(fired, tracks, next, more, i) && were[i].Settled(was);
    PromptBeatsNow(were[i], fired[i], i, was, next, more[k]);
  }

  lemma JoinAscending(from: seq<Paced>, beats: seq<Published>, more: seq<Published>, start: nat, was: nat, next: nat)
    requires Ascending(from, beats, start, was) && start <= was <= next && NoneOther(more, |from|)
    requires forall k {:trigger more[k]} | 0 <= k < |more| && from[more[k].track].Prompt() ::
             more[k].beat.timeFromStart == next
    ensures Ascending(from, beats + more, start, next)
  {
  }

  lemma WalkGoesOn(from: seq<Paced>, were: seq<Paced>, fired: seq<Paced>, tracks: seq<Paced>, start: nat, was: nat,
                   next: nat, target: nat, beats: seq<Published>, more: seq<Published>)
    requires Walked(from, were, start, was, target, beats) && AllSettled(were, was) && start <= was < next <= target
    requires IsEarliest(were, next) && FiredKind(were, fired, next, true) && Waited(fired, tracks, next, more)
    ensures Walked(from, tracks, start, next, target, beats + more)
  {
    forall k | 0 <= k < |more| && from[more[k].track].Prompt() ensures more[k].beat.timeFromStart == next {
      assert WalkedAt(from, were, target, beats, more[k].track);
      MoreAreNow(from, were, fired, tracks, was, next, true, target, beats, more, k);
    }
    JoinAscending(from, beats, more, start, was, next);
    forall i: nat ensures WalkedAt(from, tracks, target, beats + more, i) {
      assert WalkedAt(from, were, target, beats, i) && WaitedAt(fired, tracks, next, more, i);
      if i < |were| {
        assert were[i].Settled(was);
      }
      WalkGoesOnAt(from, were, fired, tracks, was, next, target, beats, more, i);
    }
  }

  lemma WalkEndsAt(from: seq<Paced>, were: seq<Paced>, fired: seq<Paced>, tracks: seq<Paced>, was: nat, target: nat,
                   beats: seq<Published>, more: seq<Published>, i: nat)
    requires |from| == |were| == |fired| == |tracks| && WalkedAt(from, were, target, beats, i)
    requires AllSettled(were, was) && was <= target && NoneUpTo(were, target) && FiredKind(were, fired, target, false)
    requires WaitedAt(fired, tracks, target, more, i)
    ensures AdvancedAt(from, tracks, target, beats + more, i)
  {
    if i < |tracks| {
      BeatsConcat(beats, more, i);
      assert were[i].Settled(was);
      if were[i].Fixed() {
        assert BeatsOf(beats, i) + [] == BeatsOf(beats, i);
      }
    }
  }

  lemma WalkEnds(from: seq<Paced>, were: seq<Paced>, fired: seq<Paced>, tracks: seq<Paced>, start: nat, was: nat,
                 target: nat, beats: seq<Published>, more: seq<Published>)
    requires Walked(from, were, start, was, target, beats) && AllSettled(were, was) && start <= was <= target
    requires NoneUpTo(were, target) && FiredKind(were, fired, target, false) && Waited(fired, tracks, target, more)
    ensures Advanced(from, tracks, target, beats + more) && Ascending(from, beats + more, start, target)
  {
    forall k | 0 <= k < |more| && from[more[k].track].Prompt() ensures more[k].beat.timeFromStart == target {
      assert WalkedAt(from, were, target, beats, more[k].track);
      MoreAreNow(from, were, fired, tracks, was, target, false, target, beats, more, k);
    }
    JoinAscending(from, beats, more, start, was, target);
    forall i: nat ensures AdvancedAt(from, tracks, target, beats + more, i) {
      assert WalkedAt(from, were, target, beats, i) && WaitedAt(fired, tracks, target, more, i);
      WalkEndsAt(from, were, fired, tracks, was, target, beats, more, i);
    }
  }

  /** So in an advance each fixed-step track that no least interval delays
      publishes exactly its deadlines, whatever the others do. */
  lemma AdvanceMeetsDeadlines(from: seq<Paced>, tracks: seq<Paced>, start: nat, target: nat, beats: seq<Published>,
                              i: nat)
    requires AllSettled(from, start) && start <= target && Advanced(from, tracks, target, beats)
    requires i < |from| && from[i].Fixed() && from[i].Prompt()
    ensures BeatsOf(beats, i) == OnDeadlines(from[i].pace, i, start, target)
    ensures tracks[i].pace.stepCount == target / from[i].pace.settings.step
  {
    assert AdvancedAt(from, tracks, target, beats, i) && from[i].Settled(start);
    PromptMeetsDeadlines(from[i], i, start, target);
    PromptKeepsCount(from[i], start, target);
  }

  lemma PromptKeepsCount(p: Paced, start: nat, target: nat)
    requires p.Fixed() && p.Settled(start) && p.Prompt() && start <= target
    ensures AfterAlone(p, target).pace.stepCount == target / p.pace.settings.step
  {
    var step, count := p.pace.settings.step, p.pace.stepCount;
    StepsBy(start, step, count);
    StepsBy(target, step, count);
    StepsBy(target, step, count + 1);
    WholeSteps(count + 1, step);
  }

  /** Deadlines met are exactly those past the old time and up to the new. */
  lemma DeadlinesAreThosePassed(pace: Pace, i: nat, start: nat, target: nat, t: int)
    requires pace.Fixed() && start <= target
    ensures IsTick(OnDeadlines(pace, i, start, target), t) <==>
            start < t <= target && IsStep(t, pace.settings.step)
  {
    if IsTick(OnDeadlines(pace, i, start, target), t) {
      var k: nat :| k < |OnDeadlines(pace, i, start, target)|
        && OnDeadlines(pace, i, start, target)[k].beat.timeFromStart == t;
      TickIsPassed(pace, i, start, target, k);
    } else if start < t <= target && IsStep(t, pace.settings.step) {
      var k: nat :| t == StepAt(k, pace.settings.step);
      PassedIsTick(pace, i, start, target, k);
    }
  }

  function StepAt(k: nat, step: nat): nat {
    k * step
  }

  ghost predicate IsStep(t: int, step: nat) {
    exists k: nat :: t == StepAt(k, step)
  }

  lemma PassedIsTick(pace: Pace, i: nat, start: nat, target: nat, k: nat)
    requires pace.Fixed() && start < StepAt(k, pace.settings.step) <= target
    ensures start / pace.settings.step < k <= target / pace.settings.step
    ensures var at: nat := k - start / pace.settings.step - 1;
            && at < |OnDeadlines(pace, i, start, target)|
            && OnDeadlines(pace, i, start, target)[at].beat.timeFromStart == StepAt(k, pace.settings.step)
  {
    StepsBy(start, pace.settings.step, k);
    StepsBy(target, pace.settings.step, k);
  }

  ghost predicate IsTick(ticks: seq<Published>, t: int) {
    exists k :: 0 <= k < |ticks| && ticks[k].beat.timeFromStart == t
  }

  lemma TickIsPassed(pace: Pace, i: nat, start: nat, target: nat, k: nat)
    requires pace.Fixed() && start <= target && k < |OnDeadlines(pace, i, start, target)|
    ensures var n: nat := start / pace.settings.step + 1 + k;
            && start < StepAt(n, pace.settings.step) <= target
            && OnDeadlines(pace, i, start, target)[k].beat.timeFromStart == StepAt(n, pace.settings.step)
  {
    StepsBy(start, pace.settings.step, start / pace.settings.step + 1 + k);
    StepsBy(target, pace.settings.step, start / pace.settings.step + 1 + k);
  }
}
