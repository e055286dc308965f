# pianuo control logic in Dafny

This project models the control logic of the pianuo browser instruments. That logic decides what is scheduled on the audio graph and when. The project covers:

- the **key table**: three-character keys such as `C#4`, their semitone positions with A-4 at 49, the pitch-table exponent, the enumeration of all keys and the black-key test;
- the two **envelope generators**. The synthesizer's generator has an exponential hold and re-anchors at the current value on release. The networked piano's generator has a linear hold and releases from the sustain level;
- the **subscriber registry** shared by the instruments: an insertion-ordered record of observers, and a notification loop over it;
- the three **polyphonic instruments**: the synthesized piano, the networked piano with its re-timing of the peer's presses and releases, and the subtractive synthesizer with its knob snapshot;
- the **range and mix helpers** behind the knobs.

The host's audio objects appear only as what the control logic does to them.

- A scheduled parameter (`WebAudio.Param`) is the ordered log of automation calls made on it: set, exponential ramp, linear ramp, cancel.
- Its current `.value` is an input reported by the host.
- An oscillator (`WebAudio.Oscillator`) records its waveform, frequency, detune, start time and scheduled stop time.
- `WebAudio.Effective` gives the events a log leaves in force. A cancellation drops the events scheduled at or after its time, as the host's `cancelScheduledValues` does.

The audio clock's `currentTime` is passed to every operation as `now`. Frequencies stay symbolic as `Hz(semitones, scale)`, meaning 440 · 2^(semitones/12) · scale. Observer notifications are appended to a log of calls (`notified`), and messages to the peer to a log (`sent`).

The networked piano re-times a press received from the peer. It computes the intended start: the previous local start plus the peer's spacing since its previous press. If that moment has not yet come, the press waits only the fractional part of the remaining time: `(intended - now) % 1` with JavaScript's truncating remainder (pages/components/Pianuo/piano.ts:188-210). Two earlier versions survive as commented-out lines and are not modelled: pressing at once on receipt (pages/components/Pianuo/piano.ts:175-176) and waiting for the full intended start (pages/components/Pianuo/piano.ts:192-196). `PianuoPiano.PeerStartSpacing` states what the code in force does.

## Model

| member | source | states |
|---|---|---|
| Keys.GetNote | pages/components/Pianuo/helpers.ts:20 | the first character of a key is one of the seven note letters |
| Keys.GetAccidental | pages/components/Pianuo/helpers.ts:21 | the second character is one of `#`, `b`, `-` |
| Keys.GetOctave | pages/components/Pianuo/helpers.ts:22 | the third character is one of the octave digits |
| Keys.OctaveNumber | pages/components/Pianuo/helpers.ts:35 | `Number(octave)` is at most 8 and is the index of the digit in the octave list |
| Keys.Position | pages/components/Pianuo/helpers.ts:34-46 | every key's position lies in -9..100 |
| Keys.PositionAt | pages/components/Pianuo/helpers.ts:34-46 | the same rule, stated by index into the note, accidental and octave lists |
| Keys.ReferencePositions | pages/components/Pianuo/helpers.ts:34-46 | A-4 is at 49 (exponent 0), C-4 at 40 (exponent -9), A-3 at 37 (exponent -12) |
| Keys.OctaveUp | pages/components/Pianuo/helpers.ts:37 | the same note and accidental one octave up is exactly 12 positions higher |
| Keys.AccidentalOrder | pages/components/Pianuo/helpers.ts:39-43 | flat, natural and sharp of one note are consecutive positions |
| Keys.BSharpIsC | pages/components/Pianuo/helpers.ts:24-46 | B# of octave n has the position of C of octave n+1 |
| Keys.ESharpIsF | pages/components/Pianuo/helpers.ts:24-46 | E# and F of the same octave share a position |
| Keys.CFlatIsB | pages/components/Pianuo/helpers.ts:24-46 | Cb of octave n+1 has the position of B of octave n |
| Keys.FFlatIsE | pages/components/Pianuo/helpers.ts:24-46 | Fb and E of the same octave share a position |
| Keys.MakeKeyRoundTrip | pages/components/Pianuo/helpers.ts:15-22 | building a key from valid components gives a key whose readers return those components |
| Keys.KeyFromComponents | pages/components/Pianuo/helpers.ts:20-22 | every key is rebuilt from its three components |
| Keys.BlackKeyIffAccidental | pages/components/Pianuo/helpers.ts:63 | a key is black exactly when its accidental is `#` or `b`, and white exactly when it is `-` |
| Keys.AllKeysAt | pages/components/Pianuo/helpers.ts:48-54 | the enumeration has 189 entries; entry 21·o + 3·n + a is octave o, note n, accidental a |
| Keys.EnumerateKeys | pages/components/Pianuo/helpers.ts:48-54 | the nested flatMap over valid component lists yields 21 entries per octave, each a valid key |
| Keys.AllKeysAreKeys | pages/components/Pianuo/helpers.ts:48-54 | every entry of `getAllKeys()` is a key |
| Keys.EnumerateDistinct | pages/components/Pianuo/helpers.ts:48-54 | component lists without repeats enumerate keys without repeats |
| Keys.AllKeysDistinct | pages/components/Pianuo/helpers.ts:48-54 | no key is listed twice |
| Keys.AllKeysComplete | pages/components/Pianuo/helpers.ts:48-54 | every key is listed |
| WebAudio.SamePitchIffSamePosition | pages/components/Pianuo/helpers.ts:56-61 | the table gives A-4 exponent 0 (440 Hz); two keys get the same frequency exactly when they share a position, and a lower position gets a lower frequency, in both directions |
| WebAudio.EnharmonicsSoundAlike | pages/components/Pianuo/helpers.ts:56-61 | B# and C of the next octave, Cb and B of the octave below, E# and F, Fb and E get the same table frequency |
| AudioUtils.Clamp | audio/utils/audio.ts:4-8 | the imported clamp caps at the upper bound and then raises to the lower bound: it stays within ordered bounds, fixes values already inside, and returns the lower bound when the bounds are crossed |
| AudioUtils.Lerp | audio/utils/audio.ts:4-5 | `c·(max-min) + min` for c in [0,1] lies in [min, max], is min at 0 and max at 1 |
| AudioUtils.NormalizeToRange | audio/utils/audio.ts:4-5 | the result lies in [min, max] when min ≤ max; x ≤ 0 gives min, x ≥ 1 gives max, and x in [0,1] gives min + x·(max-min) |
| AudioUtils.NormalizeFromRange | audio/utils/audio.ts:7-8 | a zero-width range gives no number (0/0), and only then; for min < max the result lies in [0,1], is 0 at or below min and 1 at or above max; a reversed range gives 0 |
| AudioUtils.MixToDryWet | audio/utils/audio.ts:14 | the wet part is the mix and dry plus wet is 1 |
| AudioUtils.FromRangeAfterToRange | audio/utils/audio.ts:4-8 | for min < max, mapping x in [0,1] to the range and back gives x |
| AudioUtils.ToRangeAfterFromRange | audio/utils/audio.ts:4-8 | for min < max, mapping y back to [0,1] and out again gives y clamped to the range |
| Envelope.Envelope.constructor | audio/nodes/Envelope.ts:20-32 | the generator is unconnected and takes the options merged over the defaults |
| Envelope.Envelope.Connect | audio/nodes/Envelope.ts:34-36 | the bound parameter becomes the given one; the durations are constants |
| Envelope.Envelope.Start | audio/nodes/Envelope.ts:38-49 | with a parameter, exactly cancel(t), set(0.001, t), exp(1, t+a), exp(1, t+a+h), exp(sustain, t+a+h+d) are appended; without one nothing changes |
| Envelope.Envelope.Stop | audio/nodes/Envelope.ts:51-63 | with a parameter, cancel(now), set(current value, now), exp(0.001, stopTime + release) are appended; without one nothing changes |
| Envelope.DefaultsAndOverrides | audio/nodes/Envelope.ts:23-25 | no options give 0.03/0.01/0.1/0.3/0.4; a full options object gives exactly its fields |
| Envelope.SuppliedFieldWins | audio/nodes/Envelope.ts:23-25 | a supplied field overrides its default and leaves the other fields as they were |
| Envelope.StartBreakpoints | audio/nodes/Envelope.ts:40-47 | the breakpoint times of the start schedule are exactly {t, t+a, t+a+h, t+a+h+d} |
| Envelope.StartInOrder | audio/nodes/Envelope.ts:41-47 | with non-negative durations the start breakpoints never go back in time |
| Envelope.StartNeverZero | audio/nodes/Envelope.ts:41-47 | the start schedule targets zero nowhere, exactly when the sustain level is not zero |
| Envelope.StopShape | audio/nodes/Envelope.ts:53-61 | the release cancels from the clock's now (not the stop time), re-anchors at the current value there, ends at the floor at stopTime + release, and does not depend on the sustain level |
| Envelope.StopNeverZero | audio/nodes/Envelope.ts:58-61 | the release targets zero nowhere, exactly when the current value is not zero |
| Envelope.StartEffect | audio/nodes/Envelope.ts:40-47 | after `start(t)` what is in force is what was in force before t, then the floor and three ramps |
| Envelope.StopEffect | audio/nodes/Envelope.ts:58-61 | after `stop` what is in force is what was in force before now, then the anchor and the ramp to the floor; pending attack, hold and decay events are dropped |
| PianuoEnvelope.Envelope.constructor | components/Pianuo/envelope.ts:19-31 | unconnected, with the same defaults and override rule as the other generator |
| PianuoEnvelope.Envelope.Connect | components/Pianuo/envelope.ts:33-35 | the bound parameter becomes the given one |
| PianuoEnvelope.Envelope.Start | components/Pianuo/envelope.ts:37-49 | with a parameter, cancel(t), set(0.001, t), exp(1, t+a), linear(1, t+a+h), exp(sustain, t+a+h+d) are appended; without one nothing changes |
| PianuoEnvelope.Envelope.Stop | components/Pianuo/envelope.ts:51-56 | with a parameter, only set(sustain, stopTime) and exp(0.001, stopTime + release) are appended; the current value is not read; without one nothing changes |
| PianuoEnvelope.StartDiffersOnlyInHold | components/Pianuo/envelope.ts:39-47 | the two generators' start schedules agree on every event except the hold, which is linear here and exponential in the other |
| PianuoEnvelope.OnlyHoldIsLinear | components/Pianuo/envelope.ts:41-47 | the hold is the only linear event; attack and decay are exponential |
| PianuoEnvelope.StartInOrder | components/Pianuo/envelope.ts:39-47 | with non-negative durations the start breakpoints never go back in time |
| PianuoEnvelope.StopAnchorsAtSustain | components/Pianuo/envelope.ts:53 | after any earlier schedule, the last two events in force are a set to the sustain level at the stop time and the ramp to the floor; the other generator's release instead sets the current value at `now` |
| PianuoEnvelope.StopKeepsPending | components/Pianuo/envelope.ts:53-54 | `stop` drops nothing that was in force |
| PianuoEnvelope.PendingDecayAfterStop | components/Pianuo/envelope.ts:51-56 | a key released during its decay keeps the decay ramp in force under this generator, while the other generator's release drops it |
| Observers.Ids | audio/piano.ts:170 | the ids in registry order, one per entry |
| Observers.Lookup | audio/piano.ts:268-271 | absent exactly when no entry carries the id; a found observer is registered under that id |
| Observers.Put | audio/piano.ts:268-271 | the id now looks up the new observer and every other id looks up what it did before |
| Observers.Delete | audio/piano.ts:273-275 | the id no longer looks up anything, every other id is unchanged, and deleting an absent id changes nothing |
| Observers.NotifyAll | audio/piano.ts:170 | the forEach loop makes exactly the broadcast's calls, in registry order |
| Observers.BroadcastOrder | audio/piano.ts:170 | one call per registered observer; call i goes to entry i with the event |
| Observers.BroadcastCalls | audio/piano.ts:170 | every call carries the event and the observer registered under its id |
| Observers.BroadcastExactlyOnce | audio/piano.ts:170 | each registered id is called exactly once and an unregistered id never |
| Observers.PutOrder | audio/piano.ts:268-271 | an overwritten id keeps its place in key order; a new id goes last |
| Observers.PutValid | audio/piano.ts:268-271 | registering keeps ids unique |
| Observers.OverwriteKeepsOrder | audio/piano.ts:268-271 | subscribing the same id twice keeps its order and the last observer wins |
| Observers.DeleteSubset | audio/piano.ts:273-275 | unregistering only removes that id's entries |
| Observers.DeleteValid | audio/piano.ts:273-275 | unregistering keeps ids unique |
| Observers.DeleteUndoesPut | audio/piano.ts:268-275 | unsubscribing a freshly subscribed id restores the registry |
| Piano.TuningKeepsIntervals | audio/piano.ts:172 | every key is played sharp of its table frequency by one common factor, so the interval between two voices is the distance between their positions |
| Piano.GetTricord | audio/piano.ts:67-121 | three fresh triangle oscillators at the frequency, detuned 6, -2 and -4 cents and started at the time; the gain's envelope (0.05, 0, 9, 0.05, 0.25) is connected and started |
| Piano.GetImpact | audio/piano.ts:123-166 | two fresh square oscillators detuned 9 and 12 cents and started at the time; the gain's envelope (0.01, 0.1, 0.4, 0.001, 0.05) is connected and started |
| Piano.StartVoice | audio/piano.ts:171-177 | both layers are built for the key's tuned frequency at the start time |
| Piano.StopVoice | audio/piano.ts:224-232 | both envelopes release; the tricord oscillators stop at time + 0.25 and the impact oscillators at time + 0.05 |
| Piano.Piano.constructor | audio/piano.ts:33-39 | no voices and no subscribers |
| Piano.Piano.Press | audio/piano.ts:168-212 | a sounding key changes nothing and notifies no one; otherwise every subscriber is told once in order, and only this key gains a voice started at `startTime ?? now` |
| Piano.Piano.Release | audio/piano.ts:214-240 | a silent key changes nothing; otherwise every subscriber is told once, the voice is released at `stopTime ?? now`, and only this key is removed at once |
| Piano.Piano.Forget | audio/piano.ts:224-238 | schedules the voice's release and removes only its key |
| Piano.Piano.Play | audio/piano.ts:242-249 | only a silent key sends a press message stamped now and presses now |
| Piano.Piano.Stop | audio/piano.ts:251-256 | always sends a release message stamped now; a sounding key is then released now: subscribers told once, both envelopes released, all five oscillators stopped when their envelope's release is over, the key removed |
| Piano.Piano.HandleMessage | audio/piano.ts:258-266 | a peer press of a silent key notifies once and starts a fresh voice at the local now, whatever the peer's time; a peer release of a sounding key notifies once, releases the whole voice at now and removes the key; a press of a sounding key, a release of a silent one or any other action changes nothing |
| Piano.Piano.Subscribe | audio/piano.ts:268-271 | the registry becomes `Put(id, observer)` (last write wins) and nothing else changes |
| Piano.Piano.Unsubscribe | audio/piano.ts:273-275 | the registry becomes `Delete(id)` and nothing else changes |
| Piano.LayerEnvelopes | audio/piano.ts:77-137 | both layer envelopes have ordered breakpoints and no zero target; each release reaches the floor exactly when that layer's oscillators stop |
| PianuoPiano.IntervalIsNextOctave | pages/components/Pianuo/piano.ts:98 | the interval oscillator plays the table frequency of the same key one octave up |
| PianuoPiano.StartVoice | pages/components/Pianuo/piano.ts:73-129 | two fresh sine oscillators, at the key's frequency and an octave above, start at the time; the gain's envelope (0.03, 0.05, 0.3, 0.05, 0.4) is connected and started |
| PianuoPiano.StopVoice | pages/components/Pianuo/piano.ts:143-145 | the envelope releases and the base oscillator stops at time + 0.4; the interval oscillator is not stopped |
| PianuoPiano.Mod1 | pages/components/Pianuo/piano.ts:199 | JavaScript's `x % 1` lies in [0, 1) for x ≥ 0 and in (-1, 0] otherwise, and differs from x by a whole number |
| PianuoPiano.PeerStart | pages/components/Pianuo/piano.ts:188-210 | a received press starts in [now, now + 1) |
| PianuoPiano.PeerStartSpacing | pages/components/Pianuo/piano.ts:188-210 | a press whose intended start has passed plays now; otherwise it plays a whole number of seconds before the intended start, and exactly at it when that is less than a second away |
| PianuoPiano.PeerStartIsNowIff | pages/components/Pianuo/piano.ts:188-210 | a received press plays now exactly when its intended start has passed or lies a whole number of seconds ahead |
| PianuoPiano.Piano.constructor | pages/components/Pianuo/piano.ts:27-36 | no voices or subscribers, both previous start times 0, both timing maps empty |
| PianuoPiano.Piano.Press | pages/components/Pianuo/piano.ts:70-131 | the same guard and notify-once rule as the other piano; the timing state is untouched |
| PianuoPiano.Piano.Release | pages/components/Pianuo/piano.ts:133-149 | the same guard and notify-once rule; the key is removed at once and the timing state is untouched |
| PianuoPiano.Piano.Forget | pages/components/Pianuo/piano.ts:143-147 | schedules the voice's release and removes only its key |
| PianuoPiano.Piano.Play | pages/components/Pianuo/piano.ts:151-158 | only a silent key sends a press message stamped now and presses now, with a fresh voice; all four timing fields keep their values |
| PianuoPiano.Piano.Stop | pages/components/Pianuo/piano.ts:160-165 | always sends a release message, then releases now; all four timing fields keep their values |
| PianuoPiano.Piano.RecordPeerPress | pages/components/Pianuo/piano.ts:180-199 | records the peer's time as its previous start and as the key's peer start, and returns the re-timed local start |
| PianuoPiano.Piano.RecordStart | pages/components/Pianuo/piano.ts:200-209 | records the chosen start as the key's local start and as the previous local start |
| PianuoPiano.Piano.ReceivePress | pages/components/Pianuo/piano.ts:178-210 | the four timing fields are updated as the re-timing rule says, even when the key already sounds; a silent key is pressed at the chosen start |
| PianuoPiano.Piano.ReceiveRelease | pages/components/Pianuo/piano.ts:211-223 | with both starts recorded (present and non-zero), the key is released at local start + the peer's held time and both records are dropped; otherwise it is released now and the records are kept |
| PianuoPiano.Piano.ReleaseAsPeerHeld | pages/components/Pianuo/piano.ts:213-222 | releases at the local start plus the peer's held time and drops both records for the key |
| PianuoPiano.Piano.HandleMessage | pages/components/Pianuo/piano.ts:167-224 | a press updates the four timing fields by the re-timing rule and, for a silent key, notifies once and starts a fresh voice at the chosen start; a release notifies once for a sounding key and removes it; with both starts recorded it releases at local start + the peer's held time and drops both records, otherwise it releases now and keeps the records; any other action changes nothing |
| PianuoPiano.Piano.Subscribe | pages/components/Pianuo/piano.ts:226-229 | the registry becomes `Put(id, observer)` and nothing else changes |
| PianuoPiano.Piano.Unsubscribe | pages/components/Pianuo/piano.ts:231-233 | the registry becomes `Delete(id)` and nothing else changes |
| PianuoPiano.DuetScenario | pages/components/Pianuo/piano.ts:167-224 | a D-4 pressed by the peer at 5.0 and received at 5.2 starts at 5.2; its release at peer time 6.5 is scheduled at 6.7; neither timing map keeps D-4 |
| Synth.GetInitState | audio/synth.ts:236-239 | a copy equal to the initial settings whose two envelope settings are well formed: no negative duration and a non-zero sustain, so no ramp targets zero |
| Synth.StartVoice | audio/synth.ts:139-191 | the voice copies the oscillator types, gains, resonance and envelope settings of the knobs; the output gain and the filter cutoff are set to 0 at the time, then their envelopes start; the filter envelope's amount is cutoff + keytrack · frequency |
| Synth.StopVoice | audio/synth.ts:203-206 | only the amplifier envelope releases; both oscillators stop at time + its release; the filter envelope is untouched |
| Synth.Synth.constructor | audio/synth.ts:83-91 | no voices or subscribers; the knobs equal the initial settings |
| Synth.Synth.Press | audio/synth.ts:133-193 | a sounding key changes nothing; otherwise every subscriber is told once and only this key gains a voice built from the current knobs, its sub oscillator playing the key `subOctave(key, 1)` |
| Synth.Synth.Release | audio/synth.ts:195-217 | a silent key changes nothing; otherwise every subscriber is told once, the voice is released and the key removed at once |
| Synth.Synth.Forget | audio/synth.ts:203-215 | schedules the voice's release and removes only its key |
| Synth.Synth.Play | audio/synth.ts:219-221 | presses now only when the key is silent |
| Synth.Synth.Stop | audio/synth.ts:223-225 | releases now |
| Synth.Synth.SetKnobs | audio/synth.ts:91 | new settings replace the knobs and leave every sounding voice as it was |
| Synth.Synth.Subscribe | audio/synth.ts:227-230 | the registry becomes `Put(id, observer)` and nothing else changes |
| Synth.Synth.Unsubscribe | audio/synth.ts:232-234 | the registry becomes `Delete(id)` and nothing else changes |
| Synth.InitialZeroIsCancelled | audio/synth.ts:153-159 | the 0 set on the output gain at the press time is cancelled by the envelope's start at that same time |
| Synth.InitialEnvelopes | audio/synth.ts:63-76 | with the initial settings the amplifier reaches the peak at the press time itself, and both envelopes have ordered breakpoints and no zero target |

## Left out

- Building and wiring the audio graph is not modelled: gain, filter, convolver and comb nodes, `connect`/`disconnect`, and the `onended` callbacks that disconnect a finished voice. Neither is rendering. Only what is scheduled on parameters and oscillators is kept.
- The values of ramps between breakpoints, and floating-point effects, are not modelled. Times and levels are exact reals.
- The host throws when an exponential ramp targets 0. That error is not modelled; `NoZeroTarget` states when it cannot arise.
- Frequencies are symbolic: the Hz values of the pitch table (powers of 2^(1/12)) are not computed.
- The fixed-level gains are not modelled: the per-oscillator mix levels of the piano's layers, the piano's comb and bandpass stage, and the networked piano's 0.7/0.3 levels. Neither is the networked piano's vibrato oscillator.
- Formatting and parsing of the text messages exchanged over the WebSocket is not modelled, and neither is sending them. A sent message is recorded as (action, key, time). A received message arrives already parsed, with a key that is a valid key and a finite peer time, so the NaN of an unparseable time is not modelled.
- Logging to the console is not modelled.
- The reverb file fetch and decode (asynchronous I/O) are not modelled.
- `isIO` is not modelled: it is a runtime class test on a foreign class.
- `Synth.Synth.Press`: `subOctave` comes from components/Pianuo/helpers, which is not part of this model. It is a function supplied to the constructor, and only its use with 1 octave is stated. Its type assumes that one octave below every key is again a key. For octave-0 keys that is not so, and the JavaScript table lookup would give `undefined`. The synthesizer's on-screen keybed offers only B-3 to C-5 (components/Pianuo/PianoKeyboard.tsx:60-75), so this case is not reached there.
- The synthesizer piano and synthesizer import `KEY_TO_FREQUENCY` from components/Pianuo/helpers, which is not part of this model. They are taken to use the same table as pages/components/Pianuo/helpers.ts.
- `AudioUtils.Clamp`: the lodash `clamp` the range maps import is not part of this model. It is modelled by lodash's documented behaviour: cap at the upper bound, then raise to the lower one.
- `PianuoPiano.StartVoice`: pages/components/Pianuo/piano.ts imports `Envelope` from pages/components/Pianuo/envelope.ts, which is not part of this model. It is taken to be the generator of components/Pianuo/envelope.ts, with the linear hold and the release from the sustain level.
- `Synth.GetInitState`: the JSON deep copy gives a synthesizer settings that share nothing with `INIT_STATE`. Settings are immutable values here, so that independence holds by construction and is not stated as a separate property.
- `Synth.StartVoice`: the `amount` passed to the filter envelope is recorded on the voice as `KeytrackedCutoff`, kept symbolic like the frequency. The envelope generator ignores it, so the schedule does not depend on it.
- `Synth.Synth.SetKnobs`: the instrument's controls write single leaves of `synth.knobs`: the top oscillator's type (components/Pianuo/Instrument.tsx:136), the two oscillator gains (components/Pianuo/Instrument.tsx:152-153) and the sub oscillator's type (components/Pianuo/Instrument.tsx:162). `SetKnobs` replaces the whole settings value, which covers each such leaf write. The controls themselves are not modelled.
- `Envelope.Envelope.constructor`: the durations of a generator are never reassigned after construction, so they are constants of the class.
- `PianuoPiano.StartVoice`: the `this.voices[key]?.gain.disconnect()` before a new voice is stored runs only when the key has no voice, so it never does anything. It is not modelled.
- The unused `bank` field of the synthesized piano (audio/piano.ts:36) and its `FULL_BANK` constant (audio/piano.ts:23) are not modelled. Neither are the voice-count and output-gain constants, which only set graph gains.
- Notifications are recorded as the calls made. What an observer does when called (re-entrant presses or subscriptions) is not modelled.
- `Observers.PutOrder`, `Observers.NotifyAll`: the registry keeps ids in insertion order, and a new id goes last. Every id the program registers comes from lodash `uniqueId()` without a prefix (components/Pianuo/PianoKeyboard.tsx:85, components/Pianuo/index.tsx:75, pages/components/Pianuo/index.tsx:68), so every id is integer-like. JavaScript lists integer-like property names in ascending numeric order, so `Object.values(this.subscribers)` calls observers in ascending id order. The model's order matches that only while ids are first registered in ascending order. A keyboard that unsubscribes and re-subscribes its id (components/Pianuo/PianoKeyboard.tsx:105-118) while a higher id is registered goes last here, but keeps its numeric place in the program. Which observers are called, each exactly once (`Observers.BroadcastExactlyOnce`), does not depend on the order.
- Concurrency is out of scope: every operation runs to completion, as on the browser's event loop.
