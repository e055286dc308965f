/**
 * The networked piano: every pressed key gets a sine oscillator at the key's
 * pitch and a second sine an octave above, under one gain shaped by the
 * linear-hold envelope. Releasing a key releases the envelope, stops the base
 * oscillator once the release is over and forgets the voice at once.
 *
 * Presses and releases received from the peer are re-timed on the local
 * clock: a press keeps the peer's spacing from the previous press, waiting at
 * most the fractional part of a second, and a release keeps the duration for
 * which the peer held the key.
 */
module PianuoPiano {
  import opened Wrappers
  import opened Keys
  import opened WebAudio
  import opened Observers
  import E = Envelope
  import P = PianuoEnvelope

  /** The envelope every voice is built with. */
  const VoiceSpec: E.EnvelopeParams := E.EnvelopeParams(0.03, 0.05, 0.3, 0.05, 0.4)

  /** The same frequency twelve semitones higher (`f * SEMITONE_WIDTH ** 12`). */
  function OctaveAbove(f: Hz): (g: Hz)
    ensures g.semitones == f.semitones + 12 && g.scale == f.scale
  {
    Hz(f.semitones + 12, f.scale)
  }

  /** One sounding key. */
  datatype Voice = Voice(oscillator: Oscillator, interval: Oscillator, gain: Param, envelope: P.Envelope)
  {
    ghost predicate Valid()
      reads envelope`param
    {
      && oscillator != interval
      && envelope.param == gain
      && envelope.Params() == VoiceSpec
    }
  }

  /** A voice for `key` as `Press` starts it at `time`. */
  ghost predicate StartedVoice(v: Voice, key: Key, time: real)
    reads v.oscillator, v.interval, v.gain
  {
    && v.oscillator.waveform == Sine && v.interval.waveform == Sine
    && v.oscillator.frequency == KeyFrequency(key)
    && v.interval.frequency == OctaveAbove(KeyFrequency(key))
    && v.oscillator.detune == 0.0 && v.interval.detune == 0.0
    && v.oscillator.startTime == time && v.interval.startTime == time
    && v.oscillator.stopTime == None && v.interval.stopTime == None
    && v.gain.events == P.StartSchedule(VoiceSpec, time)
  }

  /**
   * What releasing `v` at `time` schedules: the envelope's release, and the
   * base oscillator's stop when it is over. The interval oscillator is not
   * stopped.
   */
  twostate predicate StoppedVoice(v: Voice, time: real)
    reads v.oscillator, v.interval, v.gain
  {
    && v.gain.events == old(v.gain.events) + P.StopSchedule(VoiceSpec, time)
    && v.oscillator.stopTime == Some(time + 0.4)
    && v.oscillator.frequency == old(v.oscillator.frequency)
    && v.oscillator.startTime == old(v.oscillator.startTime)
    && v.interval.stopTime == old(v.interval.stopTime)
  }

  method StartVoice(key: Key, time: real) returns (v: Voice)
    ensures fresh(v.oscillator) && fresh(v.interval) && fresh(v.gain) && fresh(v.envelope)
    ensures v.Valid() && StartedVoice(v, key, time)
  {
    var baseFrequency := KeyFrequency(key);
    var oscillator := new Oscillator(Sine, baseFrequency, 0.0, time);
    var interval := new Oscillator(Sine, OctaveAbove(baseFrequency), 0.0, time);
    var gain := new Param(1.0);
    var envelope := new P.Envelope(E.Full(VoiceSpec));
    envelope.Connect(gain);
    envelope.Start(time);
    v := Voice(oscillator, interval, gain, envelope);
  }

  method StopVoice(v: Voice, time: real)
    requires v.Valid()
    modifies v.oscillator, v.gain
    ensures StoppedVoice(v, time)
  {
    v.envelope.Stop(time);
    v.oscillator.Stop(time + v.envelope.release);
  }

  /**
   * JavaScript's `x % 1`: what is left of `x` after removing its integer part,
   * truncating toward zero, so it has the sign of `x`.
   */
  function Mod1(x: real): (r: real)
    ensures x >= 0.0 ==> 0.0 <= r < 1.0
    ensures x < 0.0 ==> -1.0 < r <= 0.0
    ensures (x - r).Floor as real == x - r
  {
    if x >= 0.0 then
      var n := x.Floor;
      assert (n as real).Floor == n;
      x - n as real
    else
      var n := (-x).Floor;
      assert (-n as real).Floor == -n;
      x + n as real
  }

  /**
   * When a press should sound locally to keep the peer's spacing: the time of
   * the previous local start plus the time between the peer's previous press
   * and this one.
   */
  function IntendedStart(prevStart: real, peerPrevStart: real, peerTime: real): real {
    prevStart + (peerTime - peerPrevStart)
  }

  /**
   * The local start of a press received at `now`: at once when the intended
   * start has passed, otherwise after the fractional part of the wait.
   */
  function PeerStart(prevStart: real, peerPrevStart: real, peerTime: real, now: real): (start: real)
    ensures now <= start < now + 1.0
  {
    var intended := IntendedStart(prevStart, peerPrevStart, peerTime);
    if now < intended then now + Mod1(intended - now) else now
  }

  /** Whether a recorded start time counts as recorded: present and not 0, which JavaScript treats as false. */
  predicate Recorded(times: map<Key, real>, key: Key) {
    key in times && times[key] != 0.0
  }

  class Piano {
    var voices: map<Key, Voice>
    var subscribers: Registry
    var notified: seq<Call>
    var sent: seq<Message>
    /** The local start of the last press received from the peer. */
    var prevStartTime: real
    var keyToStartTime: map<Key, real>
    /** The peer's time of the last press received from it. */
    var peerPrevStartTime: real
    var peerKeyToStartTime: map<Key, real>

    ghost function Envelopes(): set<object>
      reads this`voices
    {
      set k | k in voices :: voices[k].envelope as object
    }

    ghost predicate Valid()
      reads this`voices, this`subscribers, Envelopes()
    {
      && Observers.Valid(subscribers)
      && forall k :: k in voices ==> voices[k].Valid()
    }

    ghost function VoiceObjects(key: Key): set<object>
      reads this
    {
      if key in voices then {voices[key].oscillator, voices[key].gain} else {}
    }

    constructor ()
      ensures Valid()
      ensures voices == map[] && subscribers == [] && notified == [] && sent == []
      ensures prevStartTime == 0.0 && peerPrevStartTime == 0.0
      ensures keyToStartTime == map[] && peerKeyToStartTime == map[]
    {
      voices := map[];
      subscribers := [];
      notified := [];
      sent := [];
      prevStartTime := 0.0;
      keyToStartTime := map[];
      peerPrevStartTime := 0.0;
      peerKeyToStartTime := map[];
    }

    /** Every field but the voices and the notification log. */
    twostate predicate TimingUnchanged()
      reads this
    {
      && subscribers == old(subscribers) && sent == old(sent)
      && prevStartTime == old(prevStartTime) && keyToStartTime == old(keyToStartTime)
      && peerPrevStartTime == old(peerPrevStartTime) && peerKeyToStartTime == old(peerKeyToStartTime)
    }

    /**
     * Starts a voice for `key` at `startTime`, or now when it is absent,
     * after telling every observer; a key that already sounds is left alone.
     */
    method Press(key: Key, startTime: Option<real>, now: real)
      requires Valid()
      modifies this
      ensures Valid() && TimingUnchanged()
      ensures key in old(voices) ==> voices == old(voices) && notified == old(notified)
      ensures key !in old(voices) ==>
        && notified == old(notified) + Broadcast(subscribers, Pressed(key))
        && key in voices && voices == old(voices)[key := voices[key]]
        && fresh(voices[key].oscillator) && fresh(voices[key].interval) && fresh(voices[key].gain)
        && StartedVoice(voices[key], key, startTime.GetOr(now))
    {
      if key !in voices {
        var calls := NotifyAll(subscribers, Pressed(key));
        notified := notified + calls;
        var voice := StartVoice(key, startTime.GetOr(now));
        voices := voices[key := voice];
      }
    }

    /**
     * Releases the voice of `key` at `stopTime`, or now when it is absent,
     * after telling every observer, and forgets it at once; a key without a
     * voice is left alone.
     */
    method Release(key: Key, stopTime: Option<real>, now: real)
      requires Valid()
      modifies this, VoiceObjects(key)
      ensures Valid() && TimingUnchanged()
      ensures key !in old(voices) ==> voices == old(voices) && notified == old(notified)
      ensures key in old(voices) ==>
        && voices == old(voices) - {key}
        && notified == old(notified) + Broadcast(subscribers, Released(key))
        && StoppedVoice(old(voices)[key], stopTime.GetOr(now))
    {
      if key in voices {
        var calls := NotifyAll(subscribers, Released(key));
        notified := notified + calls;
        Forget(key, stopTime.GetOr(now));
      }
    }

    /** Releases the voice of `key` at `time` and drops it from the sounding voices. */
    method Forget(key: Key, time: real)
      requires Valid() && key in voices
      modifies this, VoiceObjects(key)
      ensures Valid() && TimingUnchanged()
      ensures voices == old(voices) - {key} && notified == old(notified)
      ensures StoppedVoice(old(voices)[key], time)
    {
      var voice := voices[key];
      var others := voices - {key};
      label Stopping:
      StopVoice(voice, time);
      voices := others;
      forall k | k in voices
        ensures voices[k].Valid()
      {
        var e := voices[k].envelope;
        assert old@Stopping(e.param) == e.param;
      }
    }

    /** A local key-down: tells the peer and presses now, unless the key already sounds. */
    method Play(key: Key, now: real)
      requires Valid()
      modifies this
      ensures Valid()
      ensures key in old(voices) ==> voices == old(voices) && notified == old(notified) && sent == old(sent)
      ensures key !in old(voices) ==>
        && sent == old(sent) + [Message(PressAction, key, now)]
        && notified == old(notified) + Broadcast(subscribers, Pressed(key))
        && key in voices && voices == old(voices)[key := voices[key]]
        && fresh(voices[key].oscillator) && fresh(voices[key].interval) && fresh(voices[key].gain)
        && StartedVoice(voices[key], key, now)
      ensures subscribers == old(subscribers) && prevStartTime == old(prevStartTime)
      ensures keyToStartTime == old(keyToStartTime)
      ensures peerPrevStartTime == old(peerPrevStartTime) && peerKeyToStartTime == old(peerKeyToStartTime)
    {
      if key !in voices {
        sent := sent + [Message(PressAction, key, now)];
        Press(key, None, now);
      }
    }

    /** A local key-up: always tells the peer, then releases now. */
    method Stop(key: Key, now: real)
      requires Valid()
      modifies this, VoiceObjects(key)
      ensures Valid()
      ensures sent == old(sent) + [Message(ReleaseAction, key, now)]
      ensures key !in old(voices) ==> voices == old(voices) && notified == old(notified)
      ensures key in old(voices) ==>
        && voices == old(voices) - {key}
        && notified == old(notified) + Broadcast(subscribers, Released(key))
        && StoppedVoice(old(voices)[key], now)
      ensures subscribers == old(subscribers) && prevStartTime == old(prevStartTime)
      ensures keyToStartTime == old(keyToStartTime)
      ensures peerPrevStartTime == old(peerPrevStartTime) && peerKeyToStartTime == old(peerKeyToStartTime)
    {
      sent := sent + [Message(ReleaseAction, key, now)];
      Release(key, None, now);
    }

    /**
     * A press received from the peer at local time `now`, stamped `peerTime`
     * on the peer's clock: records the peer's time, chooses the local start
     * and presses there. The timing state changes even when the key already
     * sounds.
     */
    method ReceivePress(key: Key, peerTime: real, now: real)
      requires Valid()
      modifies this
      ensures Valid()
      ensures peerPrevStartTime == peerTime
      ensures peerKeyToStartTime == old(peerKeyToStartTime)[key := peerTime]
      ensures prevStartTime == PeerStart(old(prevStartTime), old(peerPrevStartTime), peerTime, now)
      ensures keyToStartTime == old(keyToStartTime)[key := prevStartTime]
      ensures key in old(voices) ==> voices == old(voices) && notified == old(notified)
      ensures key !in old(voices) ==>
        && notified == old(notified) + Broadcast(subscribers, Pressed(key))
        && key in voices && voices == old(voices)[key := voices[key]]
        && fresh(voices[key].oscillator) && fresh(voices[key].gain)
        && StartedVoice(voices[key], key, prevStartTime)
      ensures subscribers == old(subscribers) && sent == old(sent)
    {
      var start := RecordPeerPress(key, peerTime, now);
      Press(key, Some(start), now);
      RecordStart(key, start);
    }

    /** Records the local start of a received press. */
    method RecordStart(key: Key, start: real)
      modifies this`keyToStartTime, this`prevStartTime
      ensures keyToStartTime == old(keyToStartTime)[key := start]
      ensures prevStartTime == start
    {
      keyToStartTime := keyToStartTime[key := start];
      prevStartTime := start;
    }

    /**
     * The timing half of a received press: records the peer's time and
     * returns the local start, leaving the previous local start unchanged.
     */
    method RecordPeerPress(key: Key, peerTime: real, now: real) returns (start: real)
      modifies this`peerPrevStartTime, this`peerKeyToStartTime
      ensures start == PeerStart(prevStartTime, old(peerPrevStartTime), peerTime, now)
      ensures peerPrevStartTime == peerTime
      ensures peerKeyToStartTime == old(peerKeyToStartTime)[key := peerTime]
    {
      var peerDifferential := peerTime - peerPrevStartTime;
      peerPrevStartTime := peerTime;
      peerKeyToStartTime := peerKeyToStartTime[key := peerTime];
      var intendedStartTime := prevStartTime + peerDifferential;
      if now < intendedStartTime {
        // wait for what is left of the gap after whole seconds
        var timeRemaining := intendedStartTime - now;
        start := now + Mod1(timeRemaining);
      } else {
        start := now;
      }
    }

    /**
     * A release received from the peer, stamped `peerTime` on the peer's
     * clock. With both start times recorded, the key is released as long
     * after its local start as the peer held it, and both records are
     * dropped; otherwise it is released now and the records are kept.
     */
    method ReceiveRelease(key: Key, peerTime: real, now: real)
      requires Valid()
      modifies this, VoiceObjects(key)
      ensures Valid()
      ensures subscribers == old(subscribers) && sent == old(sent)
      ensures prevStartTime == old(prevStartTime) && peerPrevStartTime == old(peerPrevStartTime)
      ensures key !in old(voices) ==> voices == old(voices) && notified == old(notified)
      ensures key in old(voices) ==>
        voices == old(voices) - {key} && notified == old(notified) + Broadcast(subscribers, Released(key))
      ensures !(Recorded(old(peerKeyToStartTime), key) && Recorded(old(keyToStartTime), key)) ==>
        && keyToStartTime == old(keyToStartTime) && peerKeyToStartTime == old(peerKeyToStartTime)
        && (key in old(voices) ==> StoppedVoice(old(voices)[key], now))
      ensures Recorded(old(peerKeyToStartTime), key) && Recorded(old(keyToStartTime), key) ==>
        && keyToStartTime == old(keyToStartTime) - {key}
        && peerKeyToStartTime == old(peerKeyToStartTime) - {key}
        && (key in old(voices) ==>
            StoppedVoice(old(voices)[key], old(keyToStartTime)[key] + (peerTime - old(peerKeyToStartTime)[key])))
    {
      if !Recorded(peerKeyToStartTime, key) || !Recorded(keyToStartTime, key) {
        Release(key, None, now);
      } else {
        ReleaseAsPeerHeld(key, peerTime, now);
      }
    }

    /** The release of a key whose local and peer start times are both recorded. */
    method ReleaseAsPeerHeld(key: Key, peerTime: real, now: real)
      requires Valid() && Recorded(peerKeyToStartTime, key) && Recorded(keyToStartTime, key)
      modifies this, VoiceObjects(key)
      ensures Valid()
      ensures subscribers == old(subscribers) && sent == old(sent)
      ensures prevStartTime == old(prevStartTime) && peerPrevStartTime == old(peerPrevStartTime)
      ensures key !in old(voices) ==> voices == old(voices) && notified == old(notified)
      ensures key in old(voices) ==>
        voices == old(voices) - {key} && notified == old(notified) + Broadcast(subscribers, Released(key))
      ensures keyToStartTime == old(keyToStartTime) - {key}
      ensures peerKeyToStartTime == old(peerKeyToStartTime) - {key}
      ensures key in old(voices) ==>
        StoppedVoice(old(voices)[key], old(keyToStartTime)[key] + (peerTime - old(peerKeyToStartTime)[key]))
    {
      var localTimes, peerTimes := keyToStartTime, peerKeyToStartTime;
      var peerDifferential := peerTime - peerKeyToStartTime[key];
      Release(key, Some(keyToStartTime[key] + peerDifferential), now);
      keyToStartTime := localTimes - {key};
      peerKeyToStartTime := peerTimes - {key};
    }

    /** A message from the peer; any action but press and release is ignored. */
    method HandleMessage(action: string, key: Key, peerTime: real, now: real)
      requires Valid()
      modifies this, VoiceObjects(key)
      ensures Valid()
      ensures subscribers == old(subscribers) && sent == old(sent)
      ensures action != PressAction && action != ReleaseAction ==>
        && voices == old(voices) && notified == old(notified)
        && prevStartTime == old(prevStartTime) && keyToStartTime == old(keyToStartTime)
        && peerPrevStartTime == old(peerPrevStartTime) && peerKeyToStartTime == old(peerKeyToStartTime)
      ensures action == PressAction ==>
        && peerPrevStartTime == peerTime
        && peerKeyToStartTime == old(peerKeyToStartTime)[key := peerTime]
        && prevStartTime == PeerStart(old(prevStartTime), old(peerPrevStartTime), peerTime, now)
        && keyToStartTime == old(keyToStartTime)[key := prevStartTime]
        && (key in old(voices) ==> voices == old(voices) && notified == old(notified))
        && (key !in old(voices) ==>
            && notified == old(notified) + Broadcast(subscribers, Pressed(key))
            && key in voices && voices == old(voices)[key := voices[key]]
            && fresh(voices[key].oscillator) && fresh(voices[key].gain)
            && StartedVoice(voices[key], key, prevStartTime))
      ensures action == ReleaseAction ==>
        && voices == old(voices) - {key}
        && prevStartTime == old(prevStartTime) && peerPrevStartTime == old(peerPrevStartTime)
        && (key !in old(voices) ==> notified == old(notified))
        && (key in old(voices) ==> notified == old(notified) + Broadcast(subscribers, Released(key)))
      ensures action == ReleaseAction && !(Recorded(old(peerKeyToStartTime), key) && Recorded(old(keyToStartTime), key)) ==>
        && keyToStartTime == old(keyToStartTime) && peerKeyToStartTime == old(peerKeyToStartTime)
        && (key in old(voices) ==> StoppedVoice(old(voices)[key], now))
      ensures action == ReleaseAction && Recorded(old(peerKeyToStartTime), key) && Recorded(old(keyToStartTime), key) ==>
        && keyToStartTime == old(keyToStartTime) - {key}
        && peerKeyToStartTime == old(peerKeyToStartTime) - {key}
        && (key in old(voices) ==>
            StoppedVoice(old(voices)[key], old(keyToStartTime)[key] + (peerTime - old(peerKeyToStartTime)[key])))
    {
      if action == PressAction {
        ReceivePress(key, peerTime, now);
      } else if action == ReleaseAction {
        ReceiveRelease(key, peerTime, now);
      }
    }

    /** Registers `observer` under `id`; an id registered before is overwritten. */
    method Subscribe(observer: Observer, id: string)
      requires Valid()
      modifies this
      ensures Valid() && voices == old(voices) && notified == old(notified)
      ensures subscribers == Put(old(subscribers), id, observer)
      ensures sent == old(sent) && prevStartTime == old(prevStartTime) && keyToStartTime == old(keyToStartTime)
      ensures peerPrevStartTime == old(peerPrevStartTime) && peerKeyToStartTime == old(peerKeyToStartTime)
    {
      PutValid(subscribers, id, observer);
      subscribers := Put(subscribers, id, observer);
    }

    /** Removes the observer registered under `id`, and only it. */
    method Unsubscribe(id: string)
      requires Valid()
      modifies this
      ensures Valid() && voices == old(voices) && notified == old(notified)
      ensures subscribers == Delete(old(subscribers), id)
      ensures sent == old(sent) && prevStartTime == old(prevStartTime) && keyToStartTime == old(keyToStartTime)
      ensures peerPrevStartTime == old(peerPrevStartTime) && peerKeyToStartTime == old(peerKeyToStartTime)
    {
      DeleteValid(subscribers, id);
      subscribers := Delete(subscribers, id);
    }
  }

  // ---------------------------------------------------------------------------
  // Properties

  /** The interval oscillator plays the pitch of the same key one octave up. */
  lemma IntervalIsNextOctave(note: char, accidental: char, o: nat)
    requires note in Notes && accidental in Accidentals && o < 8
    ensures IsKey(MakeKey(note, accidental, Octaves[o])) && IsKey(MakeKey(note, accidental, Octaves[o + 1]))
    ensures OctaveAbove(KeyFrequency(MakeKey(note, accidental, Octaves[o])))
         == KeyFrequency(MakeKey(note, accidental, Octaves[o + 1]))
  {
    MakeKeyRoundTrip(note, accidental, Octaves[o]);
    MakeKeyRoundTrip(note, accidental, Octaves[o + 1]);
    OctaveUp(note, accidental, o);
  }

  /**
   * A received press keeps the peer's spacing up to whole seconds: when its
   * intended start has passed it plays now; otherwise it plays a whole number
   * of seconds before the intended start, and exactly at it when that is
   * less than a second away.
   */
  lemma PeerStartSpacing(prevStart: real, peerPrevStart: real, peerTime: real, now: real)
    ensures var intended := IntendedStart(prevStart, peerPrevStart, peerTime);
      var start := PeerStart(prevStart, peerPrevStart, peerTime, now);
      && (intended <= now ==> start == now)
      && (now < intended ==> start <= intended && (intended - start).Floor as real == intended - start)
      && (now < intended < now + 1.0 ==> start == intended)
  {
    var intended := IntendedStart(prevStart, peerPrevStart, peerTime);
    if now < intended {
      var r := Mod1(intended - now);
      assert intended - PeerStart(prevStart, peerPrevStart, peerTime, now) == intended - now - r;
      if intended < now + 1.0 {
        var k := (intended - now - r).Floor;
        assert -1 < k < 1;
      }
    }
  }

  /**
   * A received press plays at once exactly when its intended start has
   * passed or lies a whole number of seconds ahead.
   */
  lemma PeerStartIsNowIff(prevStart: real, peerPrevStart: real, peerTime: real, now: real)
    ensures var intended := IntendedStart(prevStart, peerPrevStart, peerTime);
      PeerStart(prevStart, peerPrevStart, peerTime, now) == now
      <==> intended <= now || (intended - now).Floor as real == intended - now
  {
    var intended := IntendedStart(prevStart, peerPrevStart, peerTime);
    if now < intended {
      var x := intended - now;
      var r := Mod1(x);
      if x.Floor as real == x {
        assert (x - 0.0).Floor as real == x - 0.0;
        assert r == 0.0;
      }
    }
  }

  /**
   * A duet: the peer presses D-4 at 5.0 on its clock and it arrives at 5.2
   * locally, so it plays at once at 5.2; the peer releases it at 6.5, so it is
   * released at 6.7 locally, held 1.5 seconds on both sides, and neither
   * timing map keeps the key.
   */
  method DuetScenario() returns (p: Piano, v: Voice)
    ensures "D-4" !in p.voices && "D-4" !in p.keyToStartTime && "D-4" !in p.peerKeyToStartTime
    ensures p.prevStartTime == 5.2 && p.peerPrevStartTime == 5.0
    ensures v.oscillator.startTime == 5.2
    ensures v.gain.events == P.StartSchedule(VoiceSpec, 5.2) + P.StopSchedule(VoiceSpec, 6.7)
    ensures v.oscillator.stopTime == Some(6.7 + 0.4)
  {
    p := new Piano();
    p.HandleMessage(PressAction, "D-4", 5.0, 5.2);
    v := p.voices["D-4"];
    p.HandleMessage(ReleaseAction, "D-4", 6.5, 6.6);
  }
}
