/**
 * The parts of the host's audio graph that the control logic drives, reduced
 * to what it schedules on them. A scheduled parameter is the ordered log of
 * the automation calls made on it; an oscillator records its waveform, its
 * pitch, its start time and the stop time scheduled for it. Rendering, and
 * the values the ramps take between breakpoints, belong to the host.
 */
module WebAudio {
  import opened Wrappers
  import Keys

  /** One automation call on a scheduled parameter. */
  datatype Event =
    | SetValue(value: real, time: real)   // setValueAtTime
    | ExpRamp(value: real, time: real)    // exponentialRampToValueAtTime
    | LinRamp(value: real, time: real)    // linearRampToValueAtTime
    | Cancel(time: real)                  // cancelScheduledValues

  /** The value an event drives the parameter to, if any. */
  function Target(e: Event): Option<real> {
    if e.Cancel? then None else Some(e.value)
  }

  /** The events of `s` scheduled strictly before `t`, in order: what a cancellation from `t` leaves. */
  function Before(s: seq<Event>, t: real): (r: seq<Event>)
    ensures |r| <= |s|
    ensures forall i :: 0 <= i < |r| ==> r[i].time < t && r[i] in s
    ensures forall i :: 0 <= i < |s| && s[i].time < t ==> s[i] in r
  {
    if |s| == 0 then []
    else (if s[0].time < t then [s[0]] else []) + Before(s[1..], t)
  }

  /**
   * The events in force after a log of automation calls: each `Cancel(t)`
   * drops the events called before it that are scheduled at or after `t`,
   * and is not itself kept.
   */
  function Effective(log: seq<Event>): seq<Event> {
    if |log| == 0 then []
    else
      var last := log[|log| - 1];
      var prefix := Effective(log[..|log| - 1]);
      if last.Cancel? then Before(prefix, last.time) else prefix + [last]
  }

  predicate NoCancel(s: seq<Event>) {
    forall i :: 0 <= i < |s| ==> !s[i].Cancel?
  }

  /** Nothing in force is a cancellation, and everything in force was called. */
  lemma {:induction false} EffectiveKeepsCalls(log: seq<Event>)
    ensures NoCancel(Effective(log))
    ensures forall e :: e in Effective(log) ==> e in log
  {
    if |log| > 0 {
      var front := log[..|log| - 1];
      EffectiveKeepsCalls(front);
      forall e | e in Effective(log) ensures e in log {
        if e in Effective(front) {
          assert e in front;
        }
      }
    }
  }

  /** One more call: a cancellation trims what is in force, any other call is appended to it. */
  lemma EffectiveSnoc(log: seq<Event>, e: Event)
    ensures Effective(log + [e])
         == if e.Cancel? then Before(Effective(log), e.time) else Effective(log) + [e]
  {
    assert (log + [e])[..|log|] == log;
  }

  /** Calls that cancel nothing stay in force, after whatever was in force before them. */
  lemma {:induction false} EffectiveAppend(a: seq<Event>, b: seq<Event>)
    requires NoCancel(b)
    ensures Effective(a + b) == Effective(a) + b
    decreases |b|
  {
    if |b| == 0 {
      assert a + b == a;
    } else {
      var front, last := b[..|b| - 1], b[|b| - 1];
      assert b == front + [last];
      assert a + b == (a + front) + [last];
      EffectiveAppend(a, front);
      EffectiveSnoc(a + front, last);
    }
  }

  /**
   * A schedule that opens with a cancellation from `t` and cancels nothing
   * after it: what was in force before `t` stays, then the rest of the
   * schedule.
   */
  lemma CancelFirst(a: seq<Event>, s: seq<Event>)
    requires |s| > 0 && s[0].Cancel? && NoCancel(s[1..])
    ensures Effective(a + s) == Before(Effective(a), s[0].time) + s[1..]
  {
    var head := a + [s[0]];
    EffectiveSnoc(a, s[0]);
    EffectiveAppend(head, s[1..]);
    assert a + s == head + s[1..];
  }

  /** A scheduled numeric parameter (an `AudioParam`). */
  class Param {
    /** The automation calls made so far, oldest first. */
    var events: seq<Event>
    /**
     * The value the host last rendered for this parameter (`.value`). The
     * model does not compute it: it is whatever the host reports.
     */
    var value: real

    constructor (initial: real)
      ensures events == [] && value == initial
    {
      events := [];
      value := initial;
    }

    method CancelScheduledValues(time: real)
      modifies this
      ensures events == old(events) + [Cancel(time)] && value == old(value)
    {
      events := events + [Cancel(time)];
    }

    method SetValueAtTime(v: real, time: real)
      modifies this
      ensures events == old(events) + [SetValue(v, time)] && value == old(value)
    {
      events := events + [SetValue(v, time)];
    }

    method ExponentialRampToValueAtTime(v: real, time: real)
      modifies this
      ensures events == old(events) + [ExpRamp(v, time)] && value == old(value)
    {
      events := events + [ExpRamp(v, time)];
    }

    method LinearRampToValueAtTime(v: real, time: real)
      modifies this
      ensures events == old(events) + [LinRamp(v, time)] && value == old(value)
    {
      events := events + [LinRamp(v, time)];
    }
  }

  datatype Waveform = Sine | Square | Sawtooth | Triangle

  /**
   * A frequency kept symbolic: A4Pitch * 2^(semitones / 12) * scale Hz. The
   * pitch table gives `Hz(FrequencyExponent(key), 1.0)`; voices scale or
   * shift it.
   */
  datatype Hz = Hz(semitones: int, scale: real)

  /** The pitch-table frequency of a key (`KEY_TO_FREQUENCY[key]`). */
  function KeyFrequency(key: Keys.Key): (f: Hz)
    ensures f.scale == 1.0
    ensures f.semitones == Keys.Position(key) - Keys.A4Position
  {
    Hz(Keys.FrequencyExponent(key), 1.0)
  }

  /**
   * The table is anchored at A-4 = 440 Hz, two keys sound the same exactly
   * when they sit at the same position, and a higher position sounds higher.
   */
  lemma SamePitchIffSamePosition(k1: Keys.Key, k2: Keys.Key)
    ensures KeyFrequency("A-4") == Hz(0, 1.0)
    ensures KeyFrequency(k1) == KeyFrequency(k2) <==> Keys.Position(k1) == Keys.Position(k2)
    ensures Keys.Position(k1) < Keys.Position(k2) <==> KeyFrequency(k1).semitones < KeyFrequency(k2).semitones
  {
    Keys.ReferencePositions();
  }

  /** Enharmonic spellings get the same table frequency. */
  lemma EnharmonicsSoundAlike(o: nat)
    requires o < 8
    ensures KeyFrequency(Keys.MakeKey('B', '#', Keys.Octaves[o])) == KeyFrequency(Keys.MakeKey('C', '-', Keys.Octaves[o + 1]))
    ensures KeyFrequency(Keys.MakeKey('C', 'b', Keys.Octaves[o + 1])) == KeyFrequency(Keys.MakeKey('B', '-', Keys.Octaves[o]))
    ensures KeyFrequency(Keys.MakeKey('E', '#', Keys.Octaves[o])) == KeyFrequency(Keys.MakeKey('F', '-', Keys.Octaves[o]))
    ensures KeyFrequency(Keys.MakeKey('F', 'b', Keys.Octaves[o])) == KeyFrequency(Keys.MakeKey('E', '-', Keys.Octaves[o]))
  {
    Keys.BSharpIsC(o);
    Keys.CFlatIsB(o);
    Keys.ESharpIsF(o);
    Keys.FFlatIsE(o);
  }

  /** A started oscillator (`createOscillator`, type, frequency, detune, `start`). */
  class Oscillator {
    var waveform: Waveform
    var frequency: Hz
    /** Detune in cents. */
    var detune: real
    var startTime: real
    /** The time passed to `stop`, once it has been called. */
    var stopTime: Option<real>

    constructor (waveform: Waveform, frequency: Hz, detune: real, startTime: real)
      ensures this.waveform == waveform && this.frequency == frequency
      ensures this.detune == detune && this.startTime == startTime
      ensures stopTime == None
    {
      this.waveform := waveform;
      this.frequency := frequency;
      this.detune := detune;
      this.startTime := startTime;
      stopTime := None;
    }

    method Stop(time: real)
      modifies this
      ensures stopTime == Some(time)
      ensures waveform == old(waveform) && frequency == old(frequency)
      ensures detune == old(detune) && startTime == old(startTime)
    {
      stopTime := Some(time);
    }
  }
}
