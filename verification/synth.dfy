/**
 * The subtractive synthesizer: every pressed key gets a "top" oscillator at
 * the key's pitch and a "sub" oscillator at the pitch of a lower key, mixed
 * into an output gain shaped by the amplifier envelope (VCA) and sent through
 * a low-pass filter whose cutoff is shaped by the filter envelope (VCF). The
 * knob settings are read at press time, so a sounding voice keeps the
 * settings it was pressed with.
 */
module Synth {
  import opened Wrappers
  import opened Keys
  import opened WebAudio
  import opened Observers
  import E = Envelope

  /** Waveform and level of one oscillator. */
  datatype OscillatorKnobs = OscillatorKnobs(waveform: Waveform, gain: real)

  /** The low-pass filter's settings: base cutoff, resonance and how far the cutoff follows the pitch. */
  datatype Lpf = Lpf(cutoff: real, resonance: real, keytrack: real)

  datatype Knobs = Knobs(
    topOscillator: OscillatorKnobs,
    subOscillator: OscillatorKnobs,
    lpf: Lpf,
    vcaEg: E.EnvelopeParams,
    vcfEg: E.EnvelopeParams)

  /** The settings a new synthesizer starts with. */
  const InitState: Knobs := Knobs(
    OscillatorKnobs(Sawtooth, 0.5),
    OscillatorKnobs(Square, 0.5),
    Lpf(20000.0, 1.0, 0.0),
    E.EnvelopeParams(0.0, 0.0, 3.0, 0.001, 0.5),
    E.EnvelopeParams(0.25, 0.0, 1.0, 0.001, 0.5))

  /**
   * A copy of the initial settings. Settings are values here, so changing
   * the copy a synthesizer holds can never change `InitState`. Both envelope
   * settings it hands out are well formed: no negative duration and a
   * non-zero sustain level, so no exponential ramp targets zero.
   */
  function GetInitState(): (k: Knobs)
    ensures k == InitState
    ensures E.WellFormed(k.vcaEg) && E.WellFormed(k.vcfEg)
  {
    InitState
  }

  /**
   * The filter envelope's amount, `cutoff + keytrack * frequency`, kept
   * symbolic like the frequency it depends on. The envelope generator does
   * not use it.
   */
  datatype KeytrackedCutoff = KeytrackedCutoff(cutoff: real, keytrack: real, frequency: Hz)

  /** One sounding key. */
  datatype Voice = Voice(
    top: Oscillator, sub: Oscillator,
    topGain: real, subGain: real,
    output: Param, vcaEg: E.Envelope,
    filterFrequency: Param, resonance: real, vcfEg: E.Envelope,
    vcfAmount: KeytrackedCutoff)
  {
    ghost predicate Valid()
      reads vcaEg`param, vcfEg`param
    {
      && top != sub && output != filterFrequency && vcaEg != vcfEg
      && vcaEg.param == output && vcfEg.param == filterFrequency
    }
  }

  /** A voice for `key` as `Press` starts it at `time` with settings `k` and sub key `subKey`. */
  ghost predicate StartedVoice(v: Voice, key: Key, subKey: Key, time: real, k: Knobs)
    reads v.top, v.sub, v.output, v.filterFrequency, v.vcaEg, v.vcfEg
  {
    && v.top.waveform == k.topOscillator.waveform && v.sub.waveform == k.subOscillator.waveform
    && v.top.frequency == KeyFrequency(key) && v.sub.frequency == KeyFrequency(subKey)
    && v.top.startTime == time && v.sub.startTime == time
    && v.top.stopTime == None && v.sub.stopTime == None
    && v.topGain == k.topOscillator.gain && v.subGain == k.subOscillator.gain
    && v.resonance == k.lpf.resonance
    && v.vcaEg.Params() == k.vcaEg && v.vcfEg.Params() == k.vcfEg
    && v.output.events == [SetValue(0.0, time)] + E.StartSchedule(k.vcaEg, time)
    && v.filterFrequency.events == [SetValue(0.0, time)] + E.StartSchedule(k.vcfEg, time)
    && v.vcfAmount == KeytrackedCutoff(k.lpf.cutoff, k.lpf.keytrack, KeyFrequency(key))
  }

  /**
   * What releasing `v` at `time` (clock `now`) schedules: the amplifier
   * envelope releases and both oscillators stop when it is over. The filter
   * envelope is not released.
   */
  twostate predicate StoppedVoice(v: Voice, time: real, now: real)
    reads v.top, v.sub, v.output, v.filterFrequency, v.vcaEg
  {
    && v.output.events
       == old(v.output.events) + E.StopSchedule(v.vcaEg.Params(), old(v.output.value), time, now)
    && v.filterFrequency.events == old(v.filterFrequency.events)
    && v.top.stopTime == Some(time + v.vcaEg.release)
    && v.sub.stopTime == Some(time + v.vcaEg.release)
  }

  /** Builds and starts a voice: oscillators, the two gains, the amplifier and the filter with their envelopes. */
  method StartVoice(key: Key, subKey: Key, time: real, k: Knobs) returns (v: Voice)
    ensures fresh(v.top) && fresh(v.sub) && fresh(v.output) && fresh(v.filterFrequency)
    ensures fresh(v.vcaEg) && fresh(v.vcfEg)
    ensures v.Valid() && StartedVoice(v, key, subKey, time, k)
  {
    var frequency := KeyFrequency(key);
    var subFrequency := KeyFrequency(subKey);
    var top := new Oscillator(k.topOscillator.waveform, frequency, 0.0, time);
    var sub := new Oscillator(k.subOscillator.waveform, subFrequency, 0.0, time);
    var output := new Param(1.0);
    output.SetValueAtTime(0.0, time);
    var vcaEg := new E.Envelope(E.Full(k.vcaEg));
    vcaEg.Connect(output);
    vcaEg.Start(time);
    var filterFrequency := new Param(350.0);
    filterFrequency.SetValueAtTime(0.0, time);
    var amount := KeytrackedCutoff(k.lpf.cutoff, k.lpf.keytrack, frequency);
    var vcfEg := new E.Envelope(E.Full(k.vcfEg));
    vcfEg.Connect(filterFrequency);
    vcfEg.Start(time);
    v := Voice(top, sub, k.topOscillator.gain, k.subOscillator.gain,
               output, vcaEg, filterFrequency, k.lpf.resonance, vcfEg, amount);
  }

  method StopVoice(v: Voice, time: real, now: real)
    requires v.Valid()
    modifies v.top, v.sub, v.output
    ensures StoppedVoice(v, time, now)
  {
    v.vcaEg.Stop(time, now);
    v.top.Stop(time + v.vcaEg.release);
    v.sub.Stop(time + v.vcaEg.release);
  }

  class Synth {
    var voices: map<Key, Voice>
    var subscribers: Registry
    var notified: seq<Call>
    /** The current settings; the instrument's controls assign them. */
    var knobs: Knobs
    /** The key whose pitch the sub oscillator plays, `octaves` octaves below `key`. */
    const subOctave: (Key, nat) -> Key

    ghost function Envelopes(): set<object>
      reads this`voices
    {
      (set k | k in voices :: voices[k].vcaEg as object) + (set k | k in voices :: voices[k].vcfEg as object)
    }

    ghost predicate Valid()
      reads this`voices, this`subscribers, Envelopes()
    {
      && Observers.Valid(subscribers)
      && forall k :: k in voices ==> voices[k].Valid()
    }

    ghost function VoiceObjects(key: Key): set<object>
      reads this`voices
    {
      if key in voices then {voices[key].top, voices[key].sub, voices[key].output} else {}
    }

    constructor (subOctave: (Key, nat) -> Key)
      ensures Valid()
      ensures voices == map[] && subscribers == [] && notified == []
      ensures knobs == InitState && this.subOctave == subOctave
    {
      voices := map[];
      subscribers := [];
      notified := [];
      knobs := GetInitState();
      this.subOctave := subOctave;
    }

    /**
     * Starts a voice for `key` at `startTime`, or now when it is absent,
     * with the current settings, after telling every observer; a key that
     * already sounds is left alone.
     */
    method Press(key: Key, startTime: Option<real>, now: real)
      requires Valid()
      modifies this
      ensures Valid()
      ensures subscribers == old(subscribers) && knobs == old(knobs)
      ensures key in old(voices) ==> voices == old(voices) && notified == old(notified)
      ensures key !in old(voices) ==>
        && notified == old(notified) + Broadcast(subscribers, Pressed(key))
        && key in voices && voices == old(voices)[key := voices[key]]
        && fresh(voices[key].top) && fresh(voices[key].sub) && fresh(voices[key].output)
        && StartedVoice(voices[key], key, subOctave(key, 1), startTime.GetOr(now), knobs)
    {
      if key !in voices {
        var calls := NotifyAll(subscribers, Pressed(key));
        notified := notified + calls;
        var voice := StartVoice(key, subOctave(key, 1), startTime.GetOr(now), knobs);
        voices := voices[key := voice];
      }
    }

    /**
     * Releases the voice of `key` at `stopTime`, or now when it is absent,
     * after telling every observer, and forgets it at once; a key without a
     * voice is left alone.
     */
    method Release(key: Key, stopTime: Option<real>, now: real)
      requires Valid()
      modifies this, VoiceObjects(key)
      ensures Valid()
      ensures subscribers == old(subscribers) && knobs == old(knobs)
      ensures key !in old(voices) ==> voices == old(voices) && notified == old(notified)
      ensures key in old(voices) ==>
        && voices == old(voices) - {key}
        && notified == old(notified) + Broadcast(subscribers, Released(key))
        && StoppedVoice(old(voices)[key], stopTime.GetOr(now), now)
    {
      if key in voices {
        var calls := NotifyAll(subscribers, Released(key));
        notified := notified + calls;
        Forget(key, stopTime.GetOr(now), now);
      }
    }

    /** Releases the voice of `key` at `time` and drops it from the sounding voices. */
    method Forget(key: Key, time: real, now: real)
      requires Valid() && key in voices
      modifies this, VoiceObjects(key)
      ensures Valid()
      ensures voices == old(voices) - {key}
      ensures subscribers == old(subscribers) && notified == old(notified) && knobs == old(knobs)
      ensures StoppedVoice(old(voices)[key], time, now)
    {
      var voice := voices[key];
      var others := voices - {key};
      label Stopping:
      StopVoice(voice, time, now);
      voices := others;
      forall k | k in voices
        ensures voices[k].Valid()
      {
        var e1, e2 := voices[k].vcaEg, voices[k].vcfEg;
        assert old@Stopping(e1.param) == e1.param && old@Stopping(e2.param) == e2.param;
      }
    }

    /** A key-down: presses now unless the key already sounds. */
    method Play(key: Key, now: real)
      requires Valid()
      modifies this
      ensures Valid()
      ensures subscribers == old(subscribers) && knobs == old(knobs)
      ensures key in old(voices) ==> voices == old(voices) && notified == old(notified)
      ensures key !in old(voices) ==>
        && notified == old(notified) + Broadcast(subscribers, Pressed(key))
        && key in voices && voices == old(voices)[key := voices[key]]
        && fresh(voices[key].top) && fresh(voices[key].sub) && fresh(voices[key].output)
        && StartedVoice(voices[key], key, subOctave(key, 1), now, knobs)
    {
      if key !in voices {
        Press(key, None, now);
      }
    }

    /** A key-up: releases now. */
    method Stop(key: Key, now: real)
      requires Valid()
      modifies this, VoiceObjects(key)
      ensures Valid()
      ensures subscribers == old(subscribers) && knobs == old(knobs)
      ensures key !in old(voices) ==> voices == old(voices) && notified == old(notified)
      ensures key in old(voices) ==>
        && voices == old(voices) - {key}
        && notified == old(notified) + Broadcast(subscribers, Released(key))
        && StoppedVoice(old(voices)[key], now, now)
    {
      Release(key, None, now);
    }

    /** The controls assign new settings; sounding voices keep the ones they were pressed with. */
    method SetKnobs(k: Knobs)
      requires Valid()
      modifies this`knobs
      ensures Valid()
      ensures knobs == k && voices == old(voices)
    {
      knobs := k;
    }

    /** Registers `observer` under `id`; an id registered before is overwritten. */
    method Subscribe(observer: Observer, id: string)
      requires Valid()
      modifies this
      ensures Valid()
      ensures subscribers == Put(old(subscribers), id, observer)
      ensures voices == old(voices) && notified == old(notified) && knobs == old(knobs)
    {
      PutValid(subscribers, id, observer);
      subscribers := Put(subscribers, id, observer);
    }

    /** Removes the observer registered under `id`, and only it. */
    method Unsubscribe(id: string)
      requires Valid()
      modifies this
      ensures Valid()
      ensures subscribers == Delete(old(subscribers), id)
      ensures voices == old(voices) && notified == old(notified) && knobs == old(knobs)
    {
      DeleteValid(subscribers, id);
      subscribers := Delete(subscribers, id);
    }
  }

  // ---------------------------------------------------------------------------
  // Properties

  /**
   * The output gain and the filter cutoff are first set to 0 at the press
   * time, but the envelope started right after cancels from that same time,
   * so the 0 never takes effect: what is in force is the envelope's floor
   * and ramps alone.
   */
  lemma InitialZeroIsCancelled(p: E.EnvelopeParams, t: real)
    ensures Effective([SetValue(0.0, t)] + E.StartSchedule(p, t)) == E.StartSchedule(p, t)[1..]
  {
    E.StartEffect([SetValue(0.0, t)], p, t);
    assert [SetValue(0.0, t)][..0] == [];
    assert Effective([SetValue(0.0, t)]) == [SetValue(0.0, t)];
    assert Before([SetValue(0.0, t)], t) == [];
  }

  /**
   * With the initial settings the amplifier reaches full level at the press
   * time itself (no attack) and never schedules a zero target, so every
   * exponential ramp is well defined; the filter envelope likewise.
   */
  lemma InitialEnvelopes(t: real)
    ensures var s := E.StartSchedule(InitState.vcaEg, t);
      s[2] == ExpRamp(E.Peak, t) && E.TimesNondecreasing(s) && E.NoZeroTarget(s)
    ensures var s := E.StartSchedule(InitState.vcfEg, t);
      E.TimesNondecreasing(s) && E.NoZeroTarget(s)
  {
    E.StartInOrder(InitState.vcaEg, t);
    E.StartNeverZero(InitState.vcaEg, t);
    E.StartInOrder(InitState.vcfEg, t);
    E.StartNeverZero(InitState.vcfEg, t);
  }
}
