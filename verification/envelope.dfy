/**
 * The attack-hold-decay-sustain-release envelope generator of the synthesizer
 * voices. It drives one scheduled parameter: `Start` pins it to a small floor,
 * rises exponentially to the peak, holds there, decays exponentially to the
 * sustain level; `Stop` re-anchors at the value the host reports now and
 * decays exponentially to the floor. The floor stands in for zero, which an
 * exponential ramp cannot reach.
 */
module Envelope {
  import opened Wrappers
  import opened WebAudio

  /** The value standing in for silence, and the peak level. */
  const Floor: real := 0.001
  const Peak: real := 1.0

  /** The options a caller may pass; an absent field takes its default. */
  datatype EnvelopeOptions = EnvelopeOptions(
    attack: Option<real>, hold: Option<real>, decay: Option<real>,
    sustain: Option<real>, release: Option<real>)

  /** Durations in seconds, except `sustain`, a level relative to the peak. */
  datatype EnvelopeParams = EnvelopeParams(
    attack: real, hold: real, decay: real, sustain: real, release: real)

  const Defaults: EnvelopeParams := EnvelopeParams(0.03, 0.01, 0.1, 0.3, 0.4)
  const NoOptions: EnvelopeOptions := EnvelopeOptions(None, None, None, None, None)

  /** `{ ...defaults, ...options }`: each supplied field overrides its default. */
  function WithDefaults(options: EnvelopeOptions): EnvelopeParams {
    EnvelopeParams(
      options.attack.GetOr(Defaults.attack),
      options.hold.GetOr(Defaults.hold),
      options.decay.GetOr(Defaults.decay),
      options.sustain.GetOr(Defaults.sustain),
      options.release.GetOr(Defaults.release))
  }

  /** An options object that supplies every field. */
  function Full(p: EnvelopeParams): EnvelopeOptions {
    EnvelopeOptions(Some(p.attack), Some(p.hold), Some(p.decay), Some(p.sustain), Some(p.release))
  }

  /** Durations are not negative and the sustain level is not zero. */
  predicate WellFormed(p: EnvelopeParams) {
    p.attack >= 0.0 && p.hold >= 0.0 && p.decay >= 0.0 && p.release >= 0.0 && p.sustain > 0.0
  }

  /** The events scheduled by `Start(t)`. */
  function StartSchedule(p: EnvelopeParams, t: real): seq<Event> {
    [ Cancel(t),
      SetValue(Floor, t),
      ExpRamp(Peak, t + p.attack),
      ExpRamp(Peak, t + p.attack + p.hold),
      ExpRamp(p.sustain, t + p.attack + p.hold + p.decay) ]
  }

  /**
   * The events scheduled by `Stop(stopTime)` when the host's clock reads `now`
   * and the parameter's current value is `current`.
   */
  function StopSchedule(p: EnvelopeParams, current: real, stopTime: real, now: real): seq<Event> {
    [ Cancel(now),
      SetValue(current, now),
      ExpRamp(Floor, stopTime + p.release) ]
  }

  /** The breakpoints of a schedule never go back in time. */
  predicate TimesNondecreasing(s: seq<Event>) {
    forall i, j :: 0 <= i < j < |s| ==> s[i].time <= s[j].time
  }

  /** No event of a schedule drives the parameter to zero. */
  predicate NoZeroTarget(s: seq<Event>) {
    forall i :: 0 <= i < |s| ==> Target(s[i]) != Some(0.0)
  }

  /** A generator bound to at most one scheduled parameter. */
  class Envelope {
    var param: Param?
    const attack: real
    const hold: real
    const decay: real
    const sustain: real
    const release: real

    function Params(): EnvelopeParams {
      EnvelopeParams(attack, hold, decay, sustain, release)
    }

    constructor (options: EnvelopeOptions)
      ensures param == null
      ensures Params() == WithDefaults(options)
    {
      var p := WithDefaults(options);
      param := null;
      attack, hold, decay, sustain, release := p.attack, p.hold, p.decay, p.sustain, p.release;
    }

    /** Binds the parameter to drive, replacing any earlier one. */
    method Connect(p: Param)
      modifies this
      ensures param == p
    {
      param := p;
    }

    /** Schedules the attack, hold and decay from `startTime`; without a parameter it does nothing. */
    method Start(startTime: real)
      modifies param
      ensures param != null ==> param.events == old(param.events) + StartSchedule(Params(), startTime)
      ensures param != null ==> param.value == old(param.value)
    {
      if param != null {
        param.CancelScheduledValues(startTime);
        param.SetValueAtTime(Floor, startTime);
        param.ExponentialRampToValueAtTime(Peak, startTime + attack);
        param.ExponentialRampToValueAtTime(Peak, startTime + attack + hold);
        param.ExponentialRampToValueAtTime(sustain, startTime + attack + hold + decay);
      }
    }

    /**
     * Schedules the release: cancels from the clock's `now`, re-anchors at the
     * parameter's current value there and ramps to the floor at
     * `stopTime + release`. Without a parameter it does nothing.
     */
    method Stop(stopTime: real, now: real)
      modifies param
      ensures param != null ==>
        param.events == old(param.events) + StopSchedule(Params(), old(param.value), stopTime, now)
      ensures param != null ==> param.value == old(param.value)
    {
      if param != null {
        var currValue := param.value;
        param.CancelScheduledValues(now);
        param.SetValueAtTime(currValue, now);
        param.ExponentialRampToValueAtTime(Floor, stopTime + release);
      }
    }
  }

  // ---------------------------------------------------------------------------
  // Properties

  /** Without options the generator takes the defaults; with every field given, exactly those. */
  lemma DefaultsAndOverrides(p: EnvelopeParams)
    ensures WithDefaults(NoOptions) == EnvelopeParams(0.03, 0.01, 0.1, 0.3, 0.4)
    ensures WithDefaults(Full(p)) == p
  {
  }

  /** A supplied field wins over its default and leaves the other fields at theirs. */
  lemma SuppliedFieldWins(options: EnvelopeOptions, v: real)
    ensures WithDefaults(options.(attack := Some(v))).attack == v
    ensures WithDefaults(options.(attack := Some(v))).(attack := 0.0)
         == WithDefaults(options).(attack := 0.0)
    ensures WithDefaults(options.(hold := Some(v))).hold == v
    ensures WithDefaults(options.(hold := Some(v))).(hold := 0.0)
         == WithDefaults(options).(hold := 0.0)
    ensures WithDefaults(options.(decay := Some(v))).decay == v
    ensures WithDefaults(options.(decay := Some(v))).(decay := 0.0)
         == WithDefaults(options).(decay := 0.0)
    ensures WithDefaults(options.(sustain := Some(v))).sustain == v
    ensures WithDefaults(options.(sustain := Some(v))).(sustain := 0.0)
         == WithDefaults(options).(sustain := 0.0)
    ensures WithDefaults(options.(release := Some(v))).release == v
    ensures WithDefaults(options.(release := Some(v))).(release := 0.0)
         == WithDefaults(options).(release := 0.0)
  {
  }

  /** The breakpoints of `Start` are exactly t, t+a, t+a+h, t+a+h+d. */
  lemma StartBreakpoints(p: EnvelopeParams, t: real)
    ensures (set i | 0 <= i < |StartSchedule(p, t)| :: StartSchedule(p, t)[i].time)
         == {t, t + p.attack, t + p.attack + p.hold, t + p.attack + p.hold + p.decay}
  {
    var s := StartSchedule(p, t);
    var times := set i | 0 <= i < |s| :: s[i].time;
    assert s[0].time == t && s[2].time == t + p.attack;
    assert s[3].time == t + p.attack + p.hold && s[4].time == t + p.attack + p.hold + p.decay;
    assert times == {t, t + p.attack, t + p.attack + p.hold, t + p.attack + p.hold + p.decay};
  }

  /** With non-negative durations the breakpoints of `Start` are in time order. */
  lemma StartInOrder(p: EnvelopeParams, t: real)
    requires p.attack >= 0.0 && p.hold >= 0.0 && p.decay >= 0.0
    ensures TimesNondecreasing(StartSchedule(p, t))
  {
  }

  /** `Start` never targets zero unless the sustain level itself is zero. */
  lemma StartNeverZero(p: EnvelopeParams, t: real)
    ensures NoZeroTarget(StartSchedule(p, t)) <==> p.sustain != 0.0
  {
    var s := StartSchedule(p, t);
    if p.sustain == 0.0 {
      assert Target(s[4]) == Some(0.0);
    }
  }

  /**
   * `Stop` starts from the value in effect now (no jump), whatever the sustain
   * level, and ends at the floor `release` seconds after the stop time.
   */
  lemma StopShape(p: EnvelopeParams, current: real, stopTime: real, now: real, otherSustain: real)
    ensures var s := StopSchedule(p, current, stopTime, now);
      && |s| == 3
      && s[0] == Cancel(now)
      && Target(s[1]) == Some(current) && s[1].time == now
      && s[2] == ExpRamp(Floor, stopTime + p.release)
      && s == StopSchedule(p.(sustain := otherSustain), current, stopTime, now)
  {
  }

  /** `Stop` never targets zero when the current value is not zero. */
  lemma StopNeverZero(p: EnvelopeParams, current: real, stopTime: real, now: real)
    ensures NoZeroTarget(StopSchedule(p, current, stopTime, now)) <==> current != 0.0
  {
    var s := StopSchedule(p, current, stopTime, now);
    if current == 0.0 {
      assert Target(s[1]) == Some(0.0);
    }
  }

  /**
   * What is in force after `Start(t)`: whatever was in force before `t`, then
   * the floor at `t` and the three ramps; anything pending at or after `t`
   * is dropped.
   */
  lemma StartEffect(log: seq<Event>, p: EnvelopeParams, t: real)
    ensures Effective(log + StartSchedule(p, t)) == Before(Effective(log), t) + StartSchedule(p, t)[1..]
  {
    CancelFirst(log, StartSchedule(p, t));
  }

  /**
   * What is in force after `Stop(stopTime)` at clock `now`: whatever was in
   * force before `now`, then the current value at `now` and the ramp to the
   * floor; the rest of the attack, hold and decay still pending is dropped.
   */
  lemma StopEffect(log: seq<Event>, p: EnvelopeParams, current: real, stopTime: real, now: real)
    ensures Effective(log + StopSchedule(p, current, stopTime, now))
         == Before(Effective(log), now) + [SetValue(current, now), ExpRamp(Floor, stopTime + p.release)]
  {
    CancelFirst(log, StopSchedule(p, current, stopTime, now));
  }
}
