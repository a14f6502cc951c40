/** One voice of the synthesiser: its parameter state, its note assignment and
    the way it renders a block into the shared output buffer.

    The voice owns four oscillators (sine, square, saw, triangle), a
    state-variable filter, a decibel gain stage and an ADSR envelope. The
    signal those produce is not modelled: a render receives the finished
    scratch block (oscillator, then filter, then gain, then envelope) as an
    input, together with the envelope stage reached at its end. */
module Voice {
  import Adsr

  datatype Option<T> = None | Some(value: T)

  /** The four oscillators of a voice. */
  datatype Shape = Sine | Square | Saw | Triangle

  datatype FilterType = LowPass | BandPass | HighPass

  /** What the filter was last configured with: its type, and the sample rate,
      cutoff (Hz) and resonance its coefficients were computed from. */
  datatype FilterParams = FilterParams(kind: FilterType, sampleRate: real, cutoff: real, resonance: real)

  /** The preparation data handed to the oscillators, filter and gain. */
  datatype ProcessSpec = ProcessSpec(sampleRate: real, maximumBlockSize: int, numChannels: int)

  /** A sound a voice may be asked to play: no sound at all (a null pointer),
      the synthesiser's own marker sound, or a sound of some other class. */
  datatype SoundRef = NoSound | CustomSound | OtherSound

  /** The waveform code the user interface sends, decoded to an oscillator:
      1 sine, 2 square, 3 saw, and every other integer triangle. */
  function ShapeOf(waveformNum: int): (s: Shape)
    ensures s == Sine <==> waveformNum == 1
    ensures s == Square <==> waveformNum == 2
    ensures s == Saw <==> waveformNum == 3
    ensures s == Triangle <==> waveformNum != 1 && waveformNum != 2 && waveformNum != 3
  {
    if waveformNum == 1 then Sine
    else if waveformNum == 2 then Square
    else if waveformNum == 3 then Saw
    else Triangle
  }

  /** The code the user interface uses for each oscillator (triangle is 4). */
  function WaveCode(s: Shape): (n: int)
    ensures 1 <= n <= 4
  {
    match s
    case Sine => 1
    case Square => 2
    case Saw => 3
    case Triangle => 4
  }

  lemma ShapeOfWaveCode(s: Shape)
    ensures ShapeOf(WaveCode(s)) == s
  {
  }

  /** The filter code the user interface sends: 1 low-pass, 2 band-pass,
      3 high-pass; no other code names a filter type. */
  function FilterTypeOf(filterNum: int): (t: Option<FilterType>)
    ensures t == Some(LowPass) <==> filterNum == 1
    ensures t == Some(BandPass) <==> filterNum == 2
    ensures t == Some(HighPass) <==> filterNum == 3
    ensures t.None? <==> filterNum != 1 && filterNum != 2 && filterNum != 3
  {
    if filterNum == 1 then Some(LowPass)
    else if filterNum == 2 then Some(BandPass)
    else if filterNum == 3 then Some(HighPass)
    else None
  }

  function FilterCode(t: FilterType): (n: int)
    ensures 1 <= n <= 3
  {
    match t
    case LowPass => 1
    case BandPass => 2
    case HighPass => 3
  }

  lemma FilterTypeOfCode(t: FilterType)
    ensures FilterTypeOf(FilterCode(t)) == Some(t)
  {
  }

  /** The gain stage stores a linear factor: a level at or below this many
      decibels is stored as silence and reads back as this level. */
  const MinusInfinityDb := -100.0

  /** The decibel value the gain stage reports after being set to db. */
  function GainDecibelsReadBack(db: real): (r: real)
    ensures r >= MinusInfinityDb
    ensures db > MinusInfinityDb ==> r == db
    ensures db <= MinusInfinityDb ==> r == MinusInfinityDb
  {
    if db > MinusInfinityDb then db else MinusInfinityDb
  }

  /** Setting the gain to the level it reports changes nothing. */
  lemma GainReadBackIdempotent(db: real)
    ensures GainDecibelsReadBack(GainDecibelsReadBack(db)) == GainDecibelsReadBack(db)
  {
  }

  /** The envelope parameters a voice gets when it is prepared. */
  const InitialAdsr := Adsr.Parameters(0.1, 0.1, 0.1, 0.1)

  /** The whole state of a voice: the waveform code, the selected oscillator
      (None before the voice is prepared), the note each oscillator was last
      tuned to, the filter configuration (None while the filter still has its
      library defaults), the stored sample rate, the preparation data, the gain
      as it reads back in decibels, the envelope, and the note assigned. */
  datatype VoiceState = VoiceState(
    wave: int,
    osc: Option<Shape>,
    tuning: map<Shape, int>,
    filter: Option<FilterParams>,
    sampleRate: real,
    spec: Option<ProcessSpec>,
    gainDb: real,
    envelope: Adsr.Envelope,
    note: Option<int>)

  /** A newly allocated voice: zero-initialised fields, no oscillator
      selected, a gain stage holding linear gain 0 (which reads back as the
      silence level), library defaults everywhere else, no note. */
  const Initial := VoiceState(0, None, map[], None, 0.0, None, MinusInfinityDb, Adsr.Fresh, None)

  function WaveSet(s: VoiceState, waveformNum: int): (t: VoiceState)
    ensures t.wave == waveformNum && t.osc == Some(ShapeOf(waveformNum))
    ensures t.(wave := s.wave, osc := s.osc) == s
  {
    s.(wave := waveformNum, osc := Some(ShapeOf(waveformNum)))
  }

  function FilterSet(s: VoiceState, filterNum: int, cutoff: real, resonance: real): (t: VoiceState)
    ensures filterNum == 1 ==> t.filter == Some(FilterParams(LowPass, s.sampleRate, cutoff, resonance))
    ensures filterNum == 2 ==> t.filter == Some(FilterParams(BandPass, s.sampleRate, cutoff, resonance))
    ensures filterNum == 3 ==> t.filter == Some(FilterParams(HighPass, s.sampleRate, cutoff, resonance))
    ensures filterNum != 1 && filterNum != 2 && filterNum != 3 ==> t == s
    ensures t.(filter := s.filter) == s
  {
    match FilterTypeOf(filterNum)
    case None => s
    case Some(kind) => s.(filter := Some(FilterParams(kind, s.sampleRate, cutoff, resonance)))
  }

  function GainSet(s: VoiceState, gainVal: real): (t: VoiceState)
    ensures gainVal > MinusInfinityDb ==> t.gainDb == gainVal
    ensures t.(gainDb := s.gainDb) == s
  {
    s.(gainDb := GainDecibelsReadBack(gainVal))
  }

  function AdsrSet(s: VoiceState, p: Adsr.Parameters): (t: VoiceState)
    ensures t.envelope.parameters == p && !t.envelope.IsActive()
    ensures t.envelope.sampleRate == s.envelope.sampleRate
    ensures t.(envelope := s.envelope) == s
  {
    s.(envelope := Adsr.SetParameters(Adsr.Reset(s.envelope), p))
  }

  /** Starting a note: the note is assigned, the selected oscillator is tuned
      to it and the envelope starts. */
  function Started(s: VoiceState, midiNoteNumber: int): (t: VoiceState)
    requires s.osc.Some?
    ensures t.note == Some(midiNoteNumber) && t.envelope.IsActive()
    ensures t.tuning == s.tuning[s.osc.value := midiNoteNumber]
    ensures t.(note := s.note, tuning := s.tuning, envelope := s.envelope) == s
  {
    s.(note := Some(midiNoteNumber),
       tuning := s.tuning[s.osc.value := midiNoteNumber],
       envelope := Adsr.NoteOn(s.envelope))
  }

  /** Stopping a note: the envelope always gets note-off; the note is
      released only when no tail-off is allowed. */
  function Stopped(s: VoiceState, allowTailOff: bool): (t: VoiceState)
    ensures t.envelope == Adsr.NoteOff(s.envelope)
    ensures allowTailOff ==> t.note == s.note
    ensures !allowTailOff ==> t.note == None
    ensures t.(envelope := s.envelope, note := s.note) == s
  {
    var u := s.(envelope := Adsr.NoteOff(s.envelope));
    if allowTailOff then u else u.(note := None)
  }

  /** Preparing for playback: the sample rate is stored, the filter becomes a
      low-pass at 20 kHz with resonance 2, the envelope gets the sample rate
      and the initial parameters, the oscillator named by the stored waveform
      code is selected and the gain is -25 dB. */
  function Prepared(s: VoiceState, sampleRate: real, samplesPerBlock: int, numOutputChannels: int): (t: VoiceState)
    ensures t.spec == Some(ProcessSpec(sampleRate, samplesPerBlock, numOutputChannels))
    ensures t.sampleRate == sampleRate
    ensures t.filter == Some(FilterParams(LowPass, sampleRate, 20000.0, 2.0))
    ensures t.envelope == Adsr.Envelope(InitialAdsr, sampleRate, s.envelope.stage)
    ensures t.osc == Some(ShapeOf(s.wave))
    ensures t.gainDb == -25.0
    ensures t.wave == s.wave && t.tuning == s.tuning && t.note == s.note
  {
    var withSpec := s.(spec := Some(ProcessSpec(sampleRate, samplesPerBlock, numOutputChannels)), sampleRate := sampleRate);
    var withFilter := FilterSet(withSpec, 1, 20000.0, 2.0);
    var withEnvelope := withFilter.(envelope := Adsr.SetParameters(Adsr.SetSampleRate(withFilter.envelope, sampleRate), InitialAdsr));
    GainSet(withEnvelope.(osc := Some(ShapeOf(withEnvelope.wave))), -25.0)
  }

  /** After a block has been rendered into a buffer with numChannels channels:
      the envelope has reached the given stage; if it is no longer active and
      there is at least one channel, the note is released and the envelope
      reset. Otherwise the note assignment is left as it was. */
  function Rendered(s: VoiceState, reached: Adsr.Stage, numChannels: int): (t: VoiceState)
    ensures numChannels > 0 && reached == Adsr.Idle ==> t.note == None && !t.envelope.IsActive()
    ensures !(numChannels > 0 && reached == Adsr.Idle) ==> t.note == s.note
    ensures t.envelope.IsActive() <==> reached != Adsr.Idle
    ensures t.envelope.parameters == s.envelope.parameters && t.envelope.sampleRate == s.envelope.sampleRate
    ensures t.(envelope := s.envelope, note := s.note) == s
  {
    var e := Adsr.AfterBlock(s.envelope, reached);
    if numChannels > 0 && !e.IsActive() then s.(envelope := Adsr.Reset(e), note := None)
    else s.(envelope := e)
  }

  /** A stop without tail-off releases the note but does not silence the
      envelope: with a positive release time it is still active, so the voice
      keeps sounding its release while it holds no note. */
  lemma HardStopKeepsReleaseTail(s: VoiceState)
    requires s.envelope.IsActive() && s.envelope.parameters.release > 0.0
    ensures Stopped(s, false).note == None
    ensures Stopped(s, false).envelope.IsActive()
    ensures Stopped(s, false).envelope.stage == Adsr.Releasing
  {
  }

  /** A note stopped with tail-off stays assigned through every render into
      at least one channel that ends with the envelope still active, and is
      released by the first one that ends with it idle. */
  lemma TailOffEndsAtIdleRender(s: VoiceState, reached: Adsr.Stage, numChannels: int)
    requires numChannels > 0
    ensures Stopped(s, true).note == s.note
    ensures Rendered(Stopped(s, true), reached, numChannels).note == (if reached == Adsr.Idle then None else s.note)
  {
  }

  /** The sample of a scratch channel that lands on output index j when the
      channel is added in at startSample; zero outside the rendered range. */
  function ScratchAt(channel: seq<real>, startSample: int, j: int): real {
    if startSample <= j < startSample + |channel| then channel[j - startSample] else 0.0
  }

  class CustomVoice {
    var wave: int
    var osc: Option<Shape>
    var tuning: map<Shape, int>
    var filter: Option<FilterParams>
    var sampleRateHolder: real
    var spec: Option<ProcessSpec>
    var gainDb: real
    var envelope: Adsr.Envelope
    var currentNote: Option<int>

    ghost function State(): VoiceState
      reads this
    {
      VoiceState(wave, osc, tuning, filter, sampleRateHolder, spec, gainDb, envelope, currentNote)
    }

    constructor ()
      ensures State() == Initial
    {
      wave := 0;
      osc := None;
      tuning := map[];
      filter := None;
      sampleRateHolder := 0.0;
      spec := None;
      gainDb := MinusInfinityDb;
      envelope := Adsr.Fresh;
      currentNote := None;
    }

    /** A voice plays exactly the synthesiser's own marker sound: not a null
        sound, and not a sound of any other class. */
    predicate CanPlaySound(sound: SoundRef): (r: bool)
      ensures r <==> sound == CustomSound
      ensures r ==> sound != NoSound && sound != OtherSound
    {
      sound.CustomSound?
    }

    method StartNote(midiNoteNumber: int, velocity: real, sound: SoundRef, currentPitchWheelPosition: int)
      requires osc.Some?
      modifies this
      ensures State() == Started(old(State()), midiNoteNumber)
    {
      currentNote := Some(midiNoteNumber);
      tuning := tuning[osc.value := midiNoteNumber];
      envelope := Adsr.NoteOn(envelope);
    }

    method StopNote(velocity: real, allowTailOff: bool)
      modifies this
      ensures State() == Stopped(old(State()), allowTailOff)
    {
      envelope := Adsr.NoteOff(envelope);
      if !allowTailOff {
        currentNote := None;
      }
    }

    method PrepareToPlay(sampleRate: real, samplesPerBlock: int, numOutputChannels: int)
      modifies this
      ensures State() == Prepared(old(State()), sampleRate, samplesPerBlock, numOutputChannels)
    {
      spec := Some(ProcessSpec(sampleRate, samplesPerBlock, numOutputChannels));
      sampleRateHolder := sampleRate;
      SetFilter(1, 20000.0, 2.0);
      envelope := Adsr.SetSampleRate(envelope, sampleRate);
      envelope := Adsr.SetParameters(envelope, InitialAdsr);
      if wave == 1 {
        osc := Some(Sine);
      } else if wave == 2 {
        osc := Some(Square);
      } else if wave == 3 {
        osc := Some(Saw);
      } else {
        osc := Some(Triangle);
      }
      SetGain(-25.0);
    }

    method SetADSR(parameters: Adsr.Parameters)
      modifies this
      ensures State() == AdsrSet(old(State()), parameters)
    {
      envelope := Adsr.Reset(envelope);
      envelope := Adsr.SetParameters(envelope, parameters);
    }

    method SetWave(waveformNum: int)
      modifies this
      ensures State() == WaveSet(old(State()), waveformNum)
    {
      wave := waveformNum;
      if wave == 1 {
        osc := Some(Sine);
      } else if wave == 2 {
        osc := Some(Square);
      } else if wave == 3 {
        osc := Some(Saw);
      } else {
        osc := Some(Triangle);
      }
    }

    method SetFilter(filterNum: int, cutoff: real, resonance: real)
      modifies this
      ensures State() == FilterSet(old(State()), filterNum, cutoff, resonance)
    {
      if filterNum == 1 {
        filter := Some(FilterParams(LowPass, sampleRateHolder, cutoff, resonance));
      } else if filterNum == 2 {
        filter := Some(FilterParams(BandPass, sampleRateHolder, cutoff, resonance));
      } else if filterNum == 3 {
        filter := Some(FilterParams(HighPass, sampleRateHolder, cutoff, resonance));
      }
    }

    method SetGain(gainVal: real)
      modifies this
      ensures State() == GainSet(old(State()), gainVal)
    {
      gainDb := GainDecibelsReadBack(gainVal);
    }

    /** Adds the voice's scratch block (one row of numSamples samples per
        output channel) into output at startSample, unscaled, channel by
        channel; after each channel, an envelope that is no longer active
        releases the note and is reset. */
    method RenderNextBlock(output: array2<real>, startSample: int, numSamples: int,
                           scratch: seq<seq<real>>, reached: Adsr.Stage)
      requires osc.Some?
      requires 0 <= startSample && 0 <= numSamples && startSample + numSamples <= output.Length1
      requires |scratch| == output.Length0
      requires forall ch :: 0 <= ch < |scratch| ==> |scratch[ch]| == numSamples
      modifies this, output
      ensures forall ch, j :: 0 <= ch < output.Length0 && 0 <= j < output.Length1 ==>
                output[ch, j] == old(output[ch, j]) + ScratchAt(scratch[ch], startSample, j)
      ensures State() == Rendered(old(State()), reached, output.Length0)
    {
      envelope := Adsr.AfterBlock(envelope, reached);
      var channel := 0;
      while channel < output.Length0
        invariant 0 <= channel <= output.Length0
        invariant forall ch, j :: 0 <= ch < channel && 0 <= j < output.Length1 ==>
                    output[ch, j] == old(output[ch, j]) + ScratchAt(scratch[ch], startSample, j)
        invariant forall ch, j :: channel <= ch < output.Length0 && 0 <= j < output.Length1 ==>
                    output[ch, j] == old(output[ch, j])
        invariant State() == Rendered(old(State()), reached, channel)
      {
        forall j | 0 <= j < numSamples {
          output[channel, startSample + j] := output[channel, startSample + j] + scratch[channel][j];
        }
        if !envelope.IsActive() {
          currentNote := None;
          envelope := Adsr.Reset(envelope);
        }
        channel := channel + 1;
      }
    }

    /** The voice's self-test: sets each filter type, three waveforms, the
        initial envelope parameters and a gain of -10 dB, and checks after each
        setter that the setting reads back. */
    method VoiceTests()
      modifies this
      ensures sampleRateHolder == 48000.0
      ensures filter == Some(FilterParams(HighPass, 48000.0, 20.0, 1.0))
      ensures wave == 4 && osc == Some(Triangle)
      ensures envelope.parameters == InitialAdsr && !envelope.IsActive()
      ensures gainDb == -10.0
    {
      var cutoff, resonance := 20.0, 1.0;
      sampleRateHolder := 48000.0;

      SetFilter(1, cutoff, resonance);
      assert filter.Some? && filter.value.kind == LowPass;
      SetFilter(2, cutoff, resonance);
      assert filter.Some? && filter.value.kind == BandPass;
      SetFilter(3, cutoff, resonance);
      assert filter.Some? && filter.value.kind == HighPass;

      SetWave(2);
      assert osc == Some(Square);
      SetWave(3);
      assert osc == Some(Saw);
      SetWave(4);
      assert osc == Some(Triangle);

      SetADSR(InitialAdsr);
      assert envelope.parameters.attack == InitialAdsr.attack;
      assert envelope.parameters.decay == InitialAdsr.decay;
      assert envelope.parameters.sustain == InitialAdsr.sustain;
      assert envelope.parameters.release == InitialAdsr.release;

      var initGainDb := -10.0;
      SetGain(initGainDb);
      assert gainDb == initGainDb;
    }
  }
}
