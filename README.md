# Subsynth voice core in Dafny

Subsynth is a polyphonic synthesizer plugin built on the JUCE framework.
This project models the part of it that is the plugin's own code:

- the square, saw and triangle oscillator shapes of a voice (module `Waveforms`);
- the `CustomVoice` class (module `Voice`). It holds the selected waveform and
  oscillator, the filter configuration, the stored sample rate, the gain, the
  ADSR envelope and the note assignment. It has the setters that the user
  interface drives, note start and stop, preparation for playback, and block
  rendering into the shared output buffer, which adds in place. The module
  also holds the voice's self-test;
- the plugin processor (module `Processor`). It owns a fixed pool of three
  voices and one sound. Its setters broadcast each parameter change to every
  voice. Its block callback skips empty blocks, zeroes the output channels that
  have no input channel, and has every voice render into the buffer;
- the framework's ADSR envelope, only as far as the voice relies on it
  (module `Adsr`): the stored parameters and sample rate, and a coarse stage
  (Idle, Sounding, Releasing) that decides whether it is active.

`CustomVoice` and the processor are classes whose methods change their fields.
A ghost function `CustomVoice.State()` gives a voice's fields as one
`VoiceState` value. Each voice method ensures that the new state is a pure
transition function of the old one (`WaveSet`, `FilterSet`, `GainSet`,
`AdsrSet`, `Started`, `Stopped`, `Prepared`, `Rendered`). What the source
promises is then stated on those functions. The processor's loops are proved
to apply the same transition to every voice in the pool.

The signal path is JUCE framework code, outside this project: oscillator phase
advance, filter processing, dB-to-linear gain, and per-sample envelope
segments. A render therefore takes the finished scratch block (oscillator,
filter, gain, envelope) and the envelope stage reached at the block's end as
inputs. The model proves what the plugin's own code does with them. It adds
the block into the output with gain 1 over exactly
`[startSample, startSample + numSamples)`. It releases the note when the
envelope is no longer active.

Samples and parameters are reals, and Pi is a real constant. The model relies on
these facts about the JUCE framework, which is outside this project:

- jmap is an unclamped linear re-mapping.
- A gain stage reports at least -100 dB, because JUCE's decibel conversion
  treats everything at or below -100 dB as silence.
- ADSR note-on always leaves Idle. Note-off releases an active envelope, or
  resets it when the release time is not positive. Reset makes it Idle.
- ADSR defaults are attack 0.1, decay 0.1, sustain 1.0, release 0.1, at
  44100 Hz.
- The synthesiser assigns the note just before it calls `startNote`.
- The synthesiser's block render calls `renderNextBlock` on every voice in
  the pool, idle or not.
- The synthesiser's `setCurrentPlaybackSampleRate` does nothing when the rate
  is the one it already holds. Otherwise it first turns all notes off, which
  calls `stopNote(1.0, false)` on every voice, and then stores the new rate.
  A new synthesiser holds the rate 0.
- A default-constructed gain stage holds linear gain 0, which reads back as
  -100 dB.

A pool voice is created by `new CustomVoice()`. C++ value-initialises it, so
its waveform code is 0, its stored sample rate is 0, its gain reads back as
-100 dB and no oscillator is selected until `prepareToPlay`.

## Behaviour worth noting

- The saw is `x / (2 * Pi)`, so over one period it spans [-1/2, 1/2]
  (`Waveforms.SawExtremes`).
- The triangle is the three-segment shape 0 → -1 → 1 → 0. It is not phase
  symmetric.
- A stop without tail-off only clears the note. It does not force the envelope
  to Idle. With a positive release time the envelope keeps releasing
  (`Voice.HardStopKeepsReleaseTail`).
- The setters do not clamp cutoff, resonance or envelope times. They store
  what they are given.
- The comment on `canPlaySound` says it accepts any non-null sound. The code
  accepts only a `CustomSound` (`Voice.CustomVoice.CanPlaySound`).
- Preparing the processor at a sample rate different from the stored one
  stops every voice without tail-off before the voices are prepared, because
  the synthesiser's sample-rate setter turns all notes off first.

## Model

| member | source | states |
|---|---|---|
| `Waveforms.Square` | Source/CustomVoice.h:28 | the square shape is -1 exactly when x < 0 and 1 otherwise, so its output is always -1 or 1 |
| `Waveforms.Saw` | Source/CustomVoice.h:30 | the saw times 2·Pi gives back the phase; on [-Pi, Pi] its output lies in [-1/2, 1/2] |
| `Waveforms.SawMonotone` | Source/CustomVoice.h:30 | the saw is monotone increasing in the phase |
| `Waveforms.SawExtremes` | Source/CustomVoice.h:30 | the saw reaches exactly -1/2 at -Pi and 1/2 at Pi, half of a [-1, 1] range |
| `Waveforms.Jmap` | Source/CustomVoice.h:34-40 | jmap sends the source range's ends to the target range's ends |
| `Waveforms.JmapAffine` | Source/CustomVoice.h:34-40 | jmap is affine: a difference of inputs scales by the ratio of the ranges |
| `Waveforms.JmapWithin` | Source/CustomVoice.h:34-40 | a value inside the source range maps inside the target range |
| `Waveforms.Triangle` | Source/CustomVoice.h:32-42 | on [-Pi, Pi] the triangle's output lies in [-1, 1] |
| `Waveforms.TriangleBranchesPartition` | Source/CustomVoice.h:33-39 | exactly one of the three branch conditions holds for every x, and the else branch is taken exactly when x > Pi/2 |
| `Waveforms.TriangleFirstSegment` | Source/CustomVoice.h:33-34 | for x ≤ -Pi/2 the triangle is the line through (-Pi, 0) and (-Pi/2, -1) |
| `Waveforms.TriangleMiddleSegment` | Source/CustomVoice.h:36-37 | for -Pi/2 < x ≤ Pi/2 the triangle is the line through (-Pi/2, -1) and (Pi/2, 1) |
| `Waveforms.TriangleLastSegment` | Source/CustomVoice.h:39-40 | for x > Pi/2 the triangle is the line through (Pi/2, 1) and (Pi, 0) |
| `Waveforms.TriangleJoins` | Source/CustomVoice.h:32-42 | neighbouring segments meet at -Pi/2 (value -1) and at Pi/2 (value 1) |
| `Waveforms.TriangleClosedForm` | Source/CustomVoice.h:32-42 | on every x the triangle equals the three-line formula: -(2/Pi)(x + Pi) up to -Pi/2, (2/Pi)x up to Pi/2, (2/Pi)(Pi - x) beyond |
| `Waveforms.TriangleLipschitz` | Source/CustomVoice.h:32-42 | the triangle never changes faster than 2/Pi per radian, across segment boundaries too |
| `Waveforms.TriangleContinuous` | Source/CustomVoice.h:32-42 | the triangle is continuous at every phase, the breakpoints included (an explicit delta for every eps) |
| `Voice.ShapeOf` | Source/CustomVoice.cpp:128-148 | waveform code 1 selects sine, 2 square, 3 saw, and every other integer triangle, each in both directions |
| `Voice.WaveCode` | Source/VoiceTesting.cpp:12-17 | the user-interface codes of the four waveforms lie in 1..4 |
| `Voice.ShapeOfWaveCode` | Source/VoiceTesting.cpp:12-17 | decoding a waveform's code gives back that waveform |
| `Voice.FilterTypeOf` | Source/CustomVoice.cpp:157-179 | filter codes 1, 2, 3 name low-pass, band-pass and high-pass; no other code names a type |
| `Voice.FilterCode` | Source/CustomVoice.cpp:157-179 | each filter type's code lies in 1..3 |
| `Voice.FilterTypeOfCode` | Source/CustomVoice.cpp:157-179 | decoding a filter type's code gives back that type |
| `Voice.GainDecibelsReadBack` | Source/CustomVoice.cpp:184-187 | a gain set above -100 dB reads back exactly; one at or below reads back as -100 dB |
| `Voice.GainReadBackIdempotent` | Source/CustomVoice.cpp:184-187 | setting the gain to the level it reports changes nothing |
| `Voice.WaveSet` | Source/CustomVoice.cpp:128-148 | setWave(n) stores n and selects ShapeOf(n); nothing else changes |
| `Voice.FilterSet` | Source/CustomVoice.cpp:157-179 | codes 1/2/3 set low/band/high-pass with the given cutoff and resonance at the stored sample rate; any other code leaves the whole state as it was; only the filter changes |
| `Voice.GainSet` | Source/CustomVoice.cpp:184-187 | setGain(g) with g above -100 dB makes the gain read back exactly g; only the gain changes |
| `Voice.AdsrSet` | Source/CustomVoice.cpp:117-121 | setADSR(p) leaves the envelope idle with parameters p and its sample rate kept; only the envelope changes |
| `Voice.Started` | Source/CustomVoice.cpp:28-33 | starting note n assigns n, tunes only the selected oscillator to n, and makes the envelope active |
| `Voice.Stopped` | Source/CustomVoice.cpp:39-47 | stopping always gives the envelope note-off; the note is cleared if and only if tail-off is not allowed |
| `Voice.Prepared` | Source/CustomVoice.cpp:66-111 | prepareToPlay stores the spec and sample rate, sets a 20 kHz low-pass with resonance 2, gives the envelope the sample rate and parameters 0.1/0.1/0.1/0.1, selects the oscillator of the stored code and sets -25 dB; waveform code, tuning and note are kept |
| `Voice.Rendered` | Source/CustomVoice.cpp:213-222 | after a render into at least one channel with the envelope no longer active, the note is cleared and the envelope reset; otherwise the note assignment is untouched |
| `Voice.HardStopKeepsReleaseTail` | Source/CustomVoice.cpp:39-47 | a stop without tail-off clears the note, yet an active envelope with a positive release keeps releasing |
| `Voice.TailOffEndsAtIdleRender` | Source/CustomVoice.cpp:213-222 | a note stopped with tail-off stays assigned through every render into at least one channel that ends with the envelope active, and is cleared by one that ends with it idle |
| `Voice.CustomVoice.constructor` | Source/PluginProcessor.cpp:45-48 | a newly allocated voice has waveform code 0, stored sample rate 0, no oscillator, a silent gain reading -100 dB, library envelope defaults and no note |
| `Voice.CustomVoice.CanPlaySound` | Source/CustomVoice.cpp:17-20 | a voice accepts a sound exactly when it is a CustomSound: never a null sound, never another class |
| `Voice.CustomVoice.StartNote` | Source/CustomVoice.cpp:28-33 | the voice's new state is `Started` of its old state |
| `Voice.CustomVoice.StopNote` | Source/CustomVoice.cpp:39-47 | the voice's new state is `Stopped` of its old state |
| `Voice.CustomVoice.PrepareToPlay` | Source/CustomVoice.cpp:66-111 | the voice's new state is `Prepared` of its old state |
| `Voice.CustomVoice.SetADSR` | Source/CustomVoice.cpp:117-121 | the voice's new state is `AdsrSet` of its old state |
| `Voice.CustomVoice.SetWave` | Source/CustomVoice.cpp:128-148 | the voice's new state is `WaveSet` of its old state |
| `Voice.CustomVoice.SetFilter` | Source/CustomVoice.cpp:157-179 | the voice's new state is `FilterSet` of its old state |
| `Voice.CustomVoice.SetGain` | Source/CustomVoice.cpp:184-187 | the voice's new state is `GainSet` of its old state |
| `Voice.CustomVoice.RenderNextBlock` | Source/CustomVoice.cpp:195-224 | every output sample in [startSample, startSample + numSamples) of every channel gains its scratch sample, added and not overwritten; every other sample is unchanged; the new state is `Rendered` of the old |
| `Voice.CustomVoice.VoiceTests` | Source/CustomVoice.cpp:228-266 | each of the self-test's checks holds after its setter: filter types 1/2/3, oscillators 2/3/4, the ADSR read-back and a -10 dB gain |
| `Adsr.NoteOn` | Source/CustomVoice.cpp:32 | note-on makes the envelope active from any stage, keeping its settings |
| `Adsr.NoteOff` | Source/CustomVoice.cpp:41 | after note-off the envelope is active exactly when it was active and its release time is positive |
| `Adsr.Reset` | Source/CustomVoice.cpp:119 | reset makes the envelope inactive, keeping its settings |
| `Adsr.SetParameters` | Source/CustomVoice.cpp:120 | new parameters replace the old and leave the stage alone |
| `Adsr.SetSampleRate` | Source/CustomVoice.cpp:84 | the sample rate is replaced; stage and parameters are kept |
| `Adsr.AfterBlock` | Source/CustomVoice.cpp:210 | after a block the envelope is active exactly when the stage it reached is not Idle |
| `Adsr.NoteOffAfterNoteOn` | Source/CustomVoice.cpp:39-47 | a started note's note-off releases when the release time is positive and goes idle otherwise |
| `Adsr.ResetIdempotent` | Source/CustomVoice.cpp:217-221 | resetting once per channel is the same as resetting once, and a reset envelope ignores note-off |
| `Processor.SubsynthProcessor.constructor` | Source/PluginProcessor.cpp:43-48 | exactly one CustomSound and exactly three distinct, newly allocated voices are registered |
| `Processor.SubsynthProcessor.SetCurrentPlaybackSampleRate` | Source/PluginProcessor.cpp:120 | a new sample rate stops every voice without tail-off (`Stopped(_, false)`) and is stored; the rate already held leaves every voice unchanged |
| `Processor.SubsynthProcessor.PrepareToPlay` | Source/PluginProcessor.cpp:118-126 | the rate is set first, stopping every voice without tail-off when it changes; then every voice is prepared with the same sample rate, block size and output-channel count, and has an oscillator selected afterwards; the pool stays valid |
| `Processor.SubsynthProcessor.ChangeADSREnv` | Source/PluginProcessor.cpp:212-218 | every voice gets `AdsrSet` with the same parameters and nothing else; all voices end with those parameters |
| `Processor.SubsynthProcessor.ChangeWaveform` | Source/PluginProcessor.cpp:225-231 | every voice gets `WaveSet` with the same code; the pool is unchanged; all voices end with the same oscillator |
| `Processor.SubsynthProcessor.ChangeVolume` | Source/PluginProcessor.cpp:237-243 | every voice gets `GainSet` with the same value and nothing else; all voices read back the same gain |
| `Processor.SubsynthProcessor.ChangeFilter` | Source/PluginProcessor.cpp:252-258 | every voice gets `FilterSet` with the same code, cutoff and resonance |
| `Processor.SubsynthProcessor.ProcessBlock` | Source/PluginProcessor.cpp:168-189 | an empty block leaves the buffer and every voice unchanged; otherwise channels from the input count up to the output count are zeroed over the whole block, the others are kept, every voice's scratch block is added on top, and each voice's new state is `Rendered` of its old |

`Processor.SubsynthProcessor.RunTests` (Source/PluginProcessor.cpp:262-266)
runs the voice self-test on a voice of its own and touches nothing of the
processor.

## Left out

- The sine shape and the MIDI-note-to-frequency conversion: both are
  transcendental floating-point library calls. A voice records the MIDI note
  each oscillator was tuned to instead of a frequency in Hz.
- Oscillator phase accumulation, state-variable filter coefficients and
  processing, dB-to-linear conversion and the envelope's per-sample segment
  logic are JUCE framework code, outside this project. The scratch block a voice
  renders and the envelope stage it reaches are inputs to `RenderNextBlock`.
  The model does not constrain which stage can follow which.
- Filter reset at preparation and the preparation of oscillators, filter and
  gain are library calls. The model only records the spec they were given.
- Floating-point precision: samples and parameters are reals, and Pi is a
  real constant. Single-precision rounding is not modelled, including near
  the triangle's breakpoints and in the double-to-float conversion of the
  filter setter's arguments.
- `pitchWheelMoved` and `controllerMoved` have empty bodies and are not modelled.
- `CustomSound` is modelled only as the sound kind a voice accepts. Its
  `appliesToNote` and `appliesToChannel` always return true, and nothing in
  the model calls them.
- The synthesiser's MIDI handling, voice allocation and stealing, the
  keyboard-state event injection and splitting a block at event timestamps
  are framework code. `ProcessBlock` renders every voice once over the whole
  block, as the synthesiser does for a block without events.
- The voice base class's own copy of the sample rate, which the
  synthesiser's sample-rate setter also updates, is not read by the voice's
  code and is not modelled.
- The waveform visualiser, denormal flushing, `releaseResources`, the GUI
  files and the host metadata and program/state stubs are not modelled.
- Threading between the user-interface setters and the audio callback is not modelled.
