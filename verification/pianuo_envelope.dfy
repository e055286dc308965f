/**
 * The envelope generator of the networked piano. It takes the same options and
 * defaults as the synthesizer's generator, but holds the peak with a linear
 * ramp, and its release jumps to the sustain level at the stop time instead of
 * cancelling and re-anchoring at the current value.
 */
module PianuoEnvelope {
  import opened Wrappers
  import opened WebAudio
  import E = Envelope

  /** The events scheduled by `Start(t)`: the hold segment is a linear ramp. */
  function StartSchedule(p: E.EnvelopeParams, t: real): seq<Event> {
    [ Cancel(t),
      SetValue(E.Floor, t),
      ExpRamp(E.Peak, t + p.attack),
      LinRamp(E.Peak, t + p.attack + p.hold),
      ExpRamp(p.sustain, t + p.attack + p.hold + p.decay) ]
  }

  /** The events scheduled by `Stop(stopTime)`. */
  function StopSchedule(p: E.EnvelopeParams, stopTime: real): seq<Event> {
    [ SetValue(p.sustain, stopTime),
      ExpRamp(E.Floor, stopTime + p.release) ]
  }

  class Envelope {
    var param: Param?
    const attack: real
    const hold: real
    const decay: real
    const sustain: real
    const release: real

    function Params(): E.EnvelopeParams {
      E.EnvelopeParams(attack, hold, decay, sustain, release)
    }

    constructor (options: E.EnvelopeOptions)
      ensures param == null
      ensures Params() == E.WithDefaults(options)
    {
      var p := E.WithDefaults(options);
      param := null;
      attack, hold, decay, sustain, release := p.attack, p.hold, p.decay, p.sustain, p.release;
    }

    /** Binds the parameter to drive, replacing any earlier one. */
    method Connect(p: Param)
      modifies this
      ensures param == p
    {
      param := p;
    }

    /** Schedules attack, hold and decay from `startTime`; without a parameter it does nothing. */
    method Start(startTime: real)
      modifies param
      ensures param != null ==> param.events == old(param.events) + StartSchedule(Params(), startTime)
      ensures param != null ==> param.value == old(param.value)
    {
      if param != null {
        param.CancelScheduledValues(startTime);
        param.SetValueAtTime(E.Floor, startTime);
        param.ExponentialRampToValueAtTime(E.Peak, startTime + attack);
        param.LinearRampToValueAtTime(E.Peak, startTime + attack + hold);
        param.ExponentialRampToValueAtTime(sustain, startTime + attack + hold + decay);
      }
    }

    /**
     * Schedules the release from the sustain level at `stopTime`, without
     * cancelling and without reading the current value. Without a parameter
     * it does nothing.
     */
    method Stop(stopTime: real)
      modifies param
      ensures param != null ==> param.events == old(param.events) + StopSchedule(Params(), stopTime)
      ensures param != null ==> param.value == old(param.value)
    {
      if param != null {
        param.SetValueAtTime(sustain, stopTime);
        param.ExponentialRampToValueAtTime(E.Floor, stopTime + release);
      }
    }
  }

  // ---------------------------------------------------------------------------
  // Properties

  /**
   * The two generators schedule the same start breakpoints; they differ only
   * in the law of the hold segment, which is linear here and exponential in
   * the synthesizer's generator.
   */
  lemma StartDiffersOnlyInHold(p: E.EnvelopeParams, t: real)
    ensures |StartSchedule(p, t)| == |E.StartSchedule(p, t)| == 5
    ensures forall i :: 0 <= i < 5 && i != 3 ==> StartSchedule(p, t)[i] == E.StartSchedule(p, t)[i]
    ensures StartSchedule(p, t)[3] == LinRamp(E.Peak, t + p.attack + p.hold)
    ensures E.StartSchedule(p, t)[3] == ExpRamp(E.Peak, t + p.attack + p.hold)
  {
  }

  /** Only the hold segment is linear: attack and decay are exponential. */
  lemma OnlyHoldIsLinear(p: E.EnvelopeParams, t: real)
    ensures forall i :: 0 <= i < |StartSchedule(p, t)| ==>
      (StartSchedule(p, t)[i].LinRamp? <==> i == 3)
    ensures StartSchedule(p, t)[2].ExpRamp? && StartSchedule(p, t)[4].ExpRamp?
  {
  }

  /** With non-negative durations the breakpoints of `Start` are in time order. */
  lemma StartInOrder(p: E.EnvelopeParams, t: real)
    requires p.attack >= 0.0 && p.hold >= 0.0 && p.decay >= 0.0
    ensures E.TimesNondecreasing(StartSchedule(p, t))
  {
  }

  /**
   * Unlike the synthesizer's generator, the release in force after `Stop`
   * starts from the sustain level whatever the parameter's value was; the
   * other generator's release starts from that value.
   */
  lemma StopAnchorsAtSustain(log: seq<Event>, p: E.EnvelopeParams, current: real, stopTime: real, now: real)
    ensures var r := Effective(log + StopSchedule(p, stopTime));
      |r| >= 2 && r[|r| - 2] == SetValue(p.sustain, stopTime)
      && r[|r| - 1] == ExpRamp(E.Floor, stopTime + p.release)
    ensures var r := Effective(log + E.StopSchedule(p, current, stopTime, now));
      |r| >= 2 && r[|r| - 2] == SetValue(current, now)
      && r[|r| - 1] == ExpRamp(E.Floor, stopTime + p.release)
  {
    StopKeepsPending(log, p, stopTime);
    E.StopEffect(log, p, current, stopTime, now);
  }

  /** `Stop` drops nothing: everything in force before it stays in force, followed by its two events. */
  lemma StopKeepsPending(log: seq<Event>, p: E.EnvelopeParams, stopTime: real)
    ensures Effective(log + StopSchedule(p, stopTime)) == Effective(log) + StopSchedule(p, stopTime)
  {
    EffectiveAppend(log, StopSchedule(p, stopTime));
  }

  /**
   * A key released while its decay is still pending: this generator leaves
   * the ramp to the sustain level in force after the release starts, while
   * the other generator's release drops it.
   */
  lemma PendingDecayAfterStop(p: E.EnvelopeParams, t: real, stopTime: real, now: real, current: real)
    requires p.attack >= 0.0 && p.hold >= 0.0 && p.decay >= 0.0
    requires now <= t + p.attack + p.hold + p.decay
    ensures ExpRamp(p.sustain, t + p.attack + p.hold + p.decay)
            in Effective(StartSchedule(p, t) + StopSchedule(p, stopTime))
    ensures p.sustain != E.Floor || stopTime + p.release != t + p.attack + p.hold + p.decay ==>
            ExpRamp(p.sustain, t + p.attack + p.hold + p.decay)
            !in Effective(E.StartSchedule(p, t) + E.StopSchedule(p, current, stopTime, now))
  {
    var decay := ExpRamp(p.sustain, t + p.attack + p.hold + p.decay);
    var s := StartSchedule(p, t);
    CancelFirst([], s);
    assert [] + s == s;
    StopKeepsPending(s, p, stopTime);
    assert Effective(s) == Before([], t) + s[1..];
    assert s[1..][3] == decay;
    var es := E.StartSchedule(p, t);
    E.StartEffect([], p, t);
    assert [] + es == es;
    E.StopEffect(es, p, current, stopTime, now);
    var kept := Before(Effective(es), now);
    assert decay !in kept;
  }
}
