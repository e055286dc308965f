/**
 * The synthesized piano instrument: every pressed key gets a voice made of
 * an "impact" layer (two detuned square oscillators with a short envelope)
 * and a "tricord" layer (three detuned triangle oscillators with a long
 * decay), tuned slightly sharp. Releasing a key stops both envelopes,
 * schedules every oscillator to stop once its envelope's release is over,
 * and forgets the voice at once. Observers are told of every press and
 * release; the peer is sent a message for every local play and stop, and
 * the peer's messages are played at the local clock.
 */
module Piano {
  import opened Wrappers
  import opened Keys
  import opened WebAudio
  import opened Observers
  import E = Envelope

  /** The tuning factor applied to every key's frequency. */
  const NearUnit: real := 1.005
  /** The tricord's decay, in seconds. */
  const FullDecay: real := 9.0

  const TricordSpec: E.EnvelopeParams := E.EnvelopeParams(0.05, 0.0, FullDecay, 0.05, 0.25)
  const ImpactSpec: E.EnvelopeParams := E.EnvelopeParams(0.01, 0.1, 0.4, 0.001, 0.05)

  /** The sustained layer: three triangle oscillators detuned by 6, -2 and -4 cents. */
  datatype Tricord = Tricord(left: Oscillator, middle: Oscillator, right: Oscillator,
                             gain: Param, envelope: E.Envelope)
  {
    /** The oscillators are distinct and the envelope drives the layer's gain with the tricord settings. */
    ghost predicate Valid()
      reads envelope`param
    {
      && left != middle && left != right && middle != right
      && envelope.param == gain
      && envelope.Params() == TricordSpec
    }

    /** The layer as `GetTricord` builds it at `time` for `frequency`. */
    ghost predicate StartedAt(frequency: Hz, time: real)
      reads left, middle, right, gain
    {
      && left.waveform == Triangle && middle.waveform == Triangle && right.waveform == Triangle
      && left.frequency == frequency && middle.frequency == frequency && right.frequency == frequency
      && left.detune == 6.0 && middle.detune == -2.0 && right.detune == -4.0
      && left.startTime == time && middle.startTime == time && right.startTime == time
      && left.stopTime == None && middle.stopTime == None && right.stopTime == None
      && gain.events == E.StartSchedule(TricordSpec, time)
    }
  }

  /** The transient layer: two square oscillators detuned by 9 and 12 cents. */
  datatype Impact = Impact(left: Oscillator, right: Oscillator, gain: Param, envelope: E.Envelope)
  {
    ghost predicate Valid()
      reads envelope`param
    {
      && left != right
      && envelope.param == gain
      && envelope.Params() == ImpactSpec
    }

    ghost predicate StartedAt(frequency: Hz, time: real)
      reads left, right, gain
    {
      && left.waveform == Square && right.waveform == Square
      && left.frequency == frequency && right.frequency == frequency
      && left.detune == 9.0 && right.detune == 12.0
      && left.startTime == time && right.startTime == time
      && left.stopTime == None && right.stopTime == None
      && gain.events == E.StartSchedule(ImpactSpec, time)
    }
  }

  /** One sounding key: its two layers, the frequency they play and the start time. */
  datatype Voice = Voice(impact: Impact, tricord: Tricord, frequency: Hz, time: real)
  {
    ghost predicate Valid()
      reads tricord.envelope`param, impact.envelope`param
    {
      && tricord.Valid() && impact.Valid()
      && tricord.gain != impact.gain
      && tricord.left != impact.left && tricord.left != impact.right
      && tricord.middle != impact.left && tricord.middle != impact.right
      && tricord.right != impact.left && tricord.right != impact.right
    }

    /** The objects a release schedules on. */
    ghost function Objects(): set<object> {
      {tricord.left, tricord.middle, tricord.right, tricord.gain, impact.left, impact.right, impact.gain}
    }
  }

  /** The frequency a key is played at: the pitch table's, times the tuning factor. */
  function VoiceFrequency(key: Key): (f: Hz)
    ensures f.semitones == Position(key) - A4Position && f.scale == NearUnit
  {
    Hz(KeyFrequency(key).semitones, KeyFrequency(key).scale * NearUnit)
  }

  /** A voice for `key` as `Press` starts it at `time`. */
  ghost predicate StartedVoice(v: Voice, key: Key, time: real)
    reads v.tricord.left, v.tricord.middle, v.tricord.right, v.tricord.gain
    reads v.impact.left, v.impact.right, v.impact.gain
  {
    && v.frequency == VoiceFrequency(key) && v.time == time
    && v.tricord.StartedAt(VoiceFrequency(key), time)
    && v.impact.StartedAt(VoiceFrequency(key), time)
  }

  /** What releasing voice `v` at `time` (host clock `now`) schedules, relative to the state `before`. */
  twostate predicate StoppedVoice(v: Voice, time: real, now: real)
    reads v.tricord.left, v.tricord.middle, v.tricord.right, v.tricord.gain
    reads v.impact.left, v.impact.right, v.impact.gain
  {
    && v.tricord.gain.events
       == old(v.tricord.gain.events) + E.StopSchedule(TricordSpec, old(v.tricord.gain.value), time, now)
    && v.impact.gain.events
       == old(v.impact.gain.events) + E.StopSchedule(ImpactSpec, old(v.impact.gain.value), time, now)
    && v.tricord.left.stopTime == Some(time + 0.25)
    && v.tricord.middle.stopTime == Some(time + 0.25)
    && v.tricord.right.stopTime == Some(time + 0.25)
    && v.impact.left.stopTime == Some(time + 0.05)
    && v.impact.right.stopTime == Some(time + 0.05)
  }

  method GetTricord(frequency: Hz, time: real) returns (t: Tricord)
    ensures fresh(t.left) && fresh(t.middle) && fresh(t.right) && fresh(t.gain) && fresh(t.envelope)
    ensures t.Valid() && t.StartedAt(frequency, time)
  {
    var left := new Oscillator(Triangle, frequency, 6.0, time);
    var middle := new Oscillator(Triangle, frequency, -2.0, time);
    var right := new Oscillator(Triangle, frequency, -4.0, time);
    var gain := new Param(1.0);
    var envelope := new E.Envelope(E.Full(TricordSpec));
    envelope.Connect(gain);
    envelope.Start(time);
    t := Tricord(left, middle, right, gain, envelope);
  }

  method GetImpact(frequency: Hz, time: real) returns (i: Impact)
    ensures fresh(i.left) && fresh(i.right) && fresh(i.gain) && fresh(i.envelope)
    ensures i.Valid() && i.StartedAt(frequency, time)
  {
    var left := new Oscillator(Square, frequency, 9.0, time);
    var right := new Oscillator(Square, frequency, 12.0, time);
    var gain := new Param(1.0);
    var envelope := new E.Envelope(E.Full(ImpactSpec));
    envelope.Connect(gain);
    envelope.Start(time);
    i := Impact(left, right, gain, envelope);
  }

  /** Builds and starts the two layers of a voice for `key` at `time`. */
  method StartVoice(key: Key, time: real) returns (v: Voice)
    ensures fresh(v.Objects()) && fresh(v.tricord.envelope) && fresh(v.impact.envelope)
    ensures v.Valid() && StartedVoice(v, key, time)
  {
    var frequency := VoiceFrequency(key);
    var impact := GetImpact(frequency, time);
    var tricord := GetTricord(frequency, time);
    v := Voice(impact, tricord, frequency, time);
  }

  /** Releases both layers of `v`: each envelope releases and each oscillator stops once it is over. */
  method StopVoice(v: Voice, time: real, now: real)
    requires v.Valid()
    modifies v.tricord.left, v.tricord.middle, v.tricord.right, v.tricord.gain
    modifies v.impact.left, v.impact.right, v.impact.gain
    ensures StoppedVoice(v, time, now)
  {
    v.tricord.envelope.Stop(time, now);
    v.impact.envelope.Stop(time, now);
    v.tricord.left.Stop(time + v.tricord.envelope.release);
    v.tricord.middle.Stop(time + v.tricord.envelope.release);
    v.tricord.right.Stop(time + v.tricord.envelope.release);
    v.impact.left.Stop(time + v.impact.envelope.release);
    v.impact.right.Stop(time + v.impact.envelope.release);
  }

  class Piano {
    var voices: map<Key, Voice>
    var subscribers: Registry
    /** The observer calls made so far, oldest first. */
    var notified: seq<Call>
    /** The messages sent to the peer so far, oldest first. */
    var sent: seq<Message>

    ghost function Envelopes(): set<object>
      reads this`voices
    {
      (set k | k in voices :: voices[k].tricord.envelope as object)
      + (set k | k in voices :: voices[k].impact.envelope as object)
    }

    ghost predicate Valid()
      reads this`voices, this`subscribers, Envelopes()
    {
      && Observers.Valid(subscribers)
      && forall k :: k in voices ==> voices[k].Valid()
    }

    /** What `Release(key)` may schedule on. */
    ghost function VoiceObjects(key: Key): set<object>
      reads this
    {
      if key in voices then voices[key].Objects() else {}
    }

    constructor ()
      ensures Valid()
      ensures voices == map[] && subscribers == [] && notified == [] && sent == []
    {
      voices := map[];
      subscribers := [];
      notified := [];
      sent := [];
    }

    /**
     * Starts a voice for `key` at `startTime`, or now when it is absent,
     * after telling every observer; a key that already sounds is left alone.
     */
    method Press(key: Key, startTime: Option<real>, now: real)
      requires Valid()
      modifies this
      ensures Valid()
      ensures subscribers == old(subscribers) && sent == old(sent)
      ensures key in old(voices) ==> voices == old(voices) && notified == old(notified)
      ensures key !in old(voices) ==>
        && notified == old(notified) + Broadcast(subscribers, Pressed(key))
        && key in voices && voices == old(voices)[key := voices[key]]
        && fresh(voices[key].Objects())
        && StartedVoice(voices[key], key, startTime.GetOr(now))
    {
      if key !in voices {
        var calls := NotifyAll(subscribers, Pressed(key));
        notified := notified + calls;
        var voice := StartVoice(key, startTime.GetOr(now));
        voices := voices[key := voice];
      }
    }

    /**
     * Releases the voice of `key` at `stopTime`, or now when it is absent,
     * after telling every observer: both envelopes release, each oscillator
     * stops when its envelope's release is over, and the voice is forgotten
     * at once. A key without a voice is left alone.
     */
    method Release(key: Key, stopTime: Option<real>, now: real)
      requires Valid()
      modifies this, VoiceObjects(key)
      ensures Valid()
      ensures subscribers == old(subscribers) && sent == old(sent)
      ensures key !in old(voices) ==> voices == old(voices) && notified == old(notified)
      ensures key in old(voices) ==>
        && voices == old(voices) - {key}
        && notified == old(notified) + Broadcast(subscribers, Released(key))
        && StoppedVoice(old(voices)[key], stopTime.GetOr(now), now)
    {
      if key in voices {
        var calls := NotifyAll(subscribers, Released(key));
        notified := notified + calls;
        Forget(key, stopTime.GetOr(now), now);
      }
    }

    /** Releases the voice of `key` at `time` and drops it from the sounding voices. */
    method Forget(key: Key, time: real, now: real)
      requires Valid() && key in voices
      modifies this, VoiceObjects(key)
      ensures Valid()
      ensures voices == old(voices) - {key}
      ensures subscribers == old(subscribers) && sent == old(sent) && notified == old(notified)
      ensures StoppedVoice(old(voices)[key], time, now)
    {
      var voice := voices[key];
      var others := voices - {key};
      label Stopping:
      StopVoice(voice, time, now);
      voices := others;
      forall k | k in voices
        ensures voices[k].Valid()
      {
        var e1, e2 := voices[k].tricord.envelope, voices[k].impact.envelope;
        assert old@Stopping(e1.param) == e1.param;
        assert old@Stopping(e2.param) == e2.param;
      }
    }

    /** A local key-down: tells the peer and presses now, unless the key already sounds. */
    method Play(key: Key, now: real)
      requires Valid()
      modifies this
      ensures Valid()
      ensures subscribers == old(subscribers)
      ensures key in old(voices) ==> voices == old(voices) && notified == old(notified) && sent == old(sent)
      ensures key !in old(voices) ==>
        && sent == old(sent) + [Message(PressAction, key, now)]
        && notified == old(notified) + Broadcast(subscribers, Pressed(key))
        && key in voices && voices == old(voices)[key := voices[key]]
        && fresh(voices[key].Objects())
        && StartedVoice(voices[key], key, now)
    {
      if key !in voices {
        sent := sent + [Message(PressAction, key, now)];
        Press(key, None, now);
      }
    }

    /** A local key-up: always tells the peer, then releases now. */
    method Stop(key: Key, now: real)
      requires Valid()
      modifies this, VoiceObjects(key)
      ensures Valid()
      ensures subscribers == old(subscribers)
      ensures sent == old(sent) + [Message(ReleaseAction, key, now)]
      ensures key !in old(voices) ==> voices == old(voices) && notified == old(notified)
      ensures key in old(voices) ==>
        var v := old(voices)[key];
        && voices == old(voices) - {key}
        && notified == old(notified) + Broadcast(subscribers, Released(key))
        && StoppedVoice(v, now, now)
    {
      sent := sent + [Message(ReleaseAction, key, now)];
      Release(key, None, now);
    }

    /**
     * A message from the peer: a press or release of `key` played at the local
     * clock's `now` (the peer's time is not used); any other action is ignored.
     */
    method HandleMessage(action: string, key: Key, now: real)
      requires Valid()
      modifies this, VoiceObjects(key)
      ensures Valid()
      ensures subscribers == old(subscribers) && sent == old(sent)
      ensures action != PressAction && action != ReleaseAction ==>
        voices == old(voices) && notified == old(notified)
      ensures action == PressAction && key !in old(voices) ==>
        && notified == old(notified) + Broadcast(subscribers, Pressed(key))
        && key in voices && voices == old(voices)[key := voices[key]]
        && fresh(voices[key].Objects())
        && StartedVoice(voices[key], key, now)
      ensures action == ReleaseAction && key in old(voices) ==>
        && notified == old(notified) + Broadcast(subscribers, Released(key))
        && voices == old(voices) - {key}
        && StoppedVoice(old(voices)[key], now, now)
      ensures (action == PressAction && key in old(voices)) || (action == ReleaseAction && key !in old(voices)) ==>
        voices == old(voices) && notified == old(notified)
    {
      if action == PressAction {
        Press(key, Some(now), now);
      } else if action == ReleaseAction {
        Release(key, Some(now), now);
      }
    }

    /** Registers `observer` under `id`; an id registered before is overwritten. */
    method Subscribe(observer: Observer, id: string)
      requires Valid()
      modifies this
      ensures Valid()
      ensures subscribers == Put(old(subscribers), id, observer)
      ensures voices == old(voices) && notified == old(notified) && sent == old(sent)
    {
      PutValid(subscribers, id, observer);
      subscribers := Put(subscribers, id, observer);
    }

    /** Removes the observer registered under `id`, and only it. */
    method Unsubscribe(id: string)
      requires Valid()
      modifies this
      ensures Valid()
      ensures subscribers == Delete(old(subscribers), id)
      ensures voices == old(voices) && notified == old(notified) && sent == old(sent)
    {
      DeleteValid(subscribers, id);
      subscribers := Delete(subscribers, id);
    }
  }

  // ---------------------------------------------------------------------------
  // Properties

  /**
   * Every key is played slightly sharp of the pitch table, by the same factor
   * for all keys, so the interval between any two keys is the table's.
   */
  lemma TuningKeepsIntervals(k1: Key, k2: Key)
    ensures VoiceFrequency(k1).semitones == KeyFrequency(k1).semitones
    ensures VoiceFrequency(k1).scale > KeyFrequency(k1).scale
    ensures VoiceFrequency(k1).scale == VoiceFrequency(k2).scale
    ensures VoiceFrequency(k1).semitones - VoiceFrequency(k2).semitones == Position(k1) - Position(k2)
  {
  }

  /**
   * Both layers' envelopes are well formed: their breakpoints are in time
   * order and no exponential ramp targets zero. On release each layer's ramp
   * reaches the floor exactly when its oscillators are scheduled to stop.
   */
  lemma LayerEnvelopes(t: real, current: real, time: real, now: real)
    ensures E.TimesNondecreasing(E.StartSchedule(TricordSpec, t)) && E.NoZeroTarget(E.StartSchedule(TricordSpec, t))
    ensures E.TimesNondecreasing(E.StartSchedule(ImpactSpec, t)) && E.NoZeroTarget(E.StartSchedule(ImpactSpec, t))
    ensures E.StopSchedule(TricordSpec, current, time, now)[2] == ExpRamp(E.Floor, time + 0.25)
    ensures E.StopSchedule(ImpactSpec, current, time, now)[2] == ExpRamp(E.Floor, time + 0.05)
  {
    E.StartInOrder(TricordSpec, t);
    E.StartNeverZero(TricordSpec, t);
    E.StartInOrder(ImpactSpec, t);
    E.StartNeverZero(ImpactSpec, t);
  }
}
