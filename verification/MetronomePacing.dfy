/** A track's pacing: when it is due, what a beat does to it, and what the beat
    says (metronome/track.go). Durations and counts are unbounded. */
module MetronomePacing {

  /** A track is fixed-step exactly if its step is not 0. Settings given with no
      debt cap have got the default one by the time a track has them. */
  datatype Settings = Settings(step: nat, minInterval: nat, maxDelta: nat, maxInFlight: nat, maxDebt: nat) {
    predicate Valid() {
      maxDebt > 0
    }
  }

  datatype Beat = Beat(tick: nat, delta: int, lost: int, timeFromStart: int)

  /** stepCount counts the steps behind a fixed-step track, published or dropped;
      lastBeat is when a variable track published its last beat. */
  datatype Pace = Pace(settings: Settings, tick: nat, stepCount: nat, nextDeadline: nat, lastBeat: nat) {
    predicate Fixed() {
      settings.step > 0
    }

    /** The steps a fixed-step track drops before a beat at now: those it owes
        past its debt cap. */
    function Dropped(now: nat): nat {
      if Fixed() && now / settings.step > stepCount + settings.maxDebt
      then now / settings.step - stepCount - settings.maxDebt
      else 0
    }

    /** The time since a variable track's last beat that its clamp cuts off. */
    function Clamped(now: nat): int {
      if settings.maxDelta > 0 && now - lastBeat > settings.maxDelta then now - lastBeat - settings.maxDelta else 0
    }

    /** The beat published at now. */
    function BeatAt(now: nat): Beat {
      if Fixed() then
        Beat(tick + 1, settings.step, Dropped(now) * settings.step, (stepCount + Dropped(now) + 1) * settings.step)
      else Beat(tick + 1, now - lastBeat - Clamped(now), Clamped(now), now)
    }

    /** The pacing after that beat. */
    function Next(now: nat): Pace {
      if Fixed() then
        var count := stepCount + Dropped(now) + 1;
        Pace(settings, tick + 1, count, (count + 1) * settings.step, lastBeat)
      else Pace(settings, tick + 1, stepCount, now + settings.minInterval, now)
    }

    /** The time behind the track. */
    function Behind(): nat {
      if Fixed() then stepCount * settings.step else lastBeat
    }
  }

  /** A track as the plugin makes it. */
  function FreshPace(settings: Settings): Pace {
    Pace(settings, 0, 0, settings.step + settings.minInterval, 0)
  }

  /** A beat says what it moves the track on by; a variable track's loses time
      only past its clamp. */
  lemma BeatMovesOn(p: Pace, now: nat)
    ensures var beat := p.BeatAt(now);
            && beat.timeFromStart == p.Next(now).Behind() == p.Behind() + beat.delta + beat.lost
            && (p.Fixed() ==> beat.delta == p.settings.step)
            && (!p.Fixed() && p.settings.maxDelta > 0 ==> beat.delta <= p.settings.maxDelta)
            && (!p.Fixed() && beat.lost > 0 ==> 0 < p.settings.maxDelta == beat.delta)
  {
    if p.Fixed() {
      TimesDistributes(p.stepCount, p.Dropped(now), p.settings.step);
      TimesDistributes(p.stepCount + p.Dropped(now), 1, p.settings.step);
    }
  }

  /** Whether beat is what a track of settings publishes at now, with the time behind
      behind it. A fixed-step one's loses nothing unless more steps are owed than the
      debt cap, and then leaves just one less than the cap; a variable one's loses
      just what is past its clamp. */
  ghost predicate Paced(settings: Settings, behind: int, beat: Beat, now: nat) {
    if settings.step > 0 then
      && beat.delta == settings.step && beat.timeFromStart == behind + beat.delta + beat.lost
      && now / settings.step - beat.timeFromStart / settings.step <= settings.maxDebt - 1
      && if now / settings.step - behind / settings.step <= settings.maxDebt then beat.lost == 0
         else now / settings.step - beat.timeFromStart / settings.step == settings.maxDebt - 1
    else
      && beat.timeFromStart == now && beat.delta + beat.lost == now - behind
      && if settings.maxDelta == 0 || now - behind <= settings.maxDelta then beat.lost == 0
         else beat.delta == settings.maxDelta
  }

  /** When a track is next due, once beat was published at now. */
  ghost predicate DueAfter(settings: Settings, beat: Beat, now: nat, deadline: nat) {
    deadline == if settings.step > 0 then beat.timeFromStart + settings.step else now + settings.minInterval
  }

  /** What the clock and the counts make of the beat published at now. */
  lemma BeatIsPaced(p: Pace, now: nat)
    requires p.settings.Valid()
    ensures Paced(p.settings, p.Behind(), p.BeatAt(now), now)
    ensures DueAfter(p.settings, p.BeatAt(now), now, p.Next(now).nextDeadline)
    ensures p.Fixed() ==>
              var owed := now / p.settings.step - p.stepCount;
              if owed <= p.settings.maxDebt then p.Next(now).stepCount == p.stepCount + 1
              else now / p.settings.step - p.Next(now).stepCount == p.settings.maxDebt - 1
  {
    BeatMovesOn(p, now);
    if p.Fixed() {
      WholeSteps(p.stepCount, p.settings.step);
      WholeSteps(p.Next(now).stepCount, p.settings.step);
      TimesDistributes(p.Next(now).stepCount, 1, p.settings.step);
    }
  }

  lemma TimesDistributes(a: int, b: int, step: int)
    ensures (a + b) * step == a * step + b * step
  {
  }

  lemma TimesOrder(a: int, b: int, n: nat)
    requires a <= b
    ensures a * n <= b * n
  {
  }

  lemma StepsBy(now: nat, step: nat, count: nat)
    requires step > 0
    ensures now / step >= count <==> now >= count * step
  {
    var q := now / step;
    assert now == q * step + now % step;
    if q >= count {
      TimesOrder(count, q, step);
    } else {
      TimesOrder(q + 1, count, step);
      TimesDistributes(q, 1, step);
    }
  }

  lemma WholeSteps(count: nat, step: nat)
    requires step > 0
    ensures count * step / step == count
  {
    StepsBy(count * step, step, count);
    StepsBy(count * step, step, count + 1);
    TimesDistributes(count, 1, step);
  }
}
