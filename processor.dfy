/** The plugin processor: a fixed pool of voices that share one sound, the
    user-interface setters that broadcast a parameter to every voice, and the
    per-block entry point that prepares the output buffer and has every voice
    render into it. */
module Processor {
  import Adsr
  import Voice

  /** scratches[v][ch][j] is sample j of channel ch of voice v's scratch block:
      one block per voice, numChannels channels of numSamples samples each. */
  ghost predicate WellShaped(scratches: seq<seq<seq<real>>>, numChannels: int, numSamples: int) {
    forall v :: 0 <= v < |scratches| ==>
      |scratches[v]| == numChannels &&
      forall ch :: 0 <= ch < numChannels ==> |scratches[v][ch]| == numSamples
  }

  /** The sum, at channel ch and sample j, of the scratch blocks of the first k voices. */
  function Mix(scratches: seq<seq<seq<real>>>, k: nat, ch: nat, j: nat): real
    requires k <= |scratches|
    requires forall v :: 0 <= v < k ==> ch < |scratches[v]| && j < |scratches[v][ch]|
    decreases k
  {
    if k == 0 then 0.0 else Mix(scratches, k - 1, ch, j) + scratches[k - 1][ch][j]
  }

  class SubsynthProcessor {
    /** The size of the voice pool. */
    const numVoices: int := 3

    var sounds: seq<Voice.SoundRef>
    var voices: seq<Voice.CustomVoice>
    var playbackSampleRate: real

    /** The pool has its fixed size and holds distinct voice objects. */
    ghost predicate Valid()
      reads this
    {
      |voices| == numVoices &&
      forall a, b :: 0 <= a < b < |voices| ==> voices[a] != voices[b]
    }

    /** Registers one marker sound and numVoices newly allocated voices. */
    constructor ()
      ensures Valid()
      ensures sounds == [Voice.CustomSound] && |voices| == 3
      ensures forall k :: 0 <= k < |voices| ==> fresh(voices[k])
      ensures forall k :: 0 <= k < |voices| ==> voices[k].State() == Voice.Initial
    {
      sounds := [];
      voices := [];
      playbackSampleRate := 0.0;
      new;
      sounds := sounds + [Voice.CustomSound];
      var i := 0;
      while i < numVoices
        invariant 0 <= i <= numVoices
        invariant |voices| == i
        invariant sounds == [Voice.CustomSound]
        invariant forall a, b :: 0 <= a < b < |voices| ==> voices[a] != voices[b]
        invariant forall k :: 0 <= k < |voices| ==> fresh(voices[k])
        invariant forall k :: 0 <= k < |voices| ==> voices[k].State() == Voice.Initial
      {
        var v := new Voice.CustomVoice();
        voices := voices + [v];
        i := i + 1;
      }
    }

    /** The synthesiser's sample-rate setter: a new rate first turns all
        notes off, stopping every voice without tail-off, and is then stored;
        the rate already held changes nothing. */
    method SetCurrentPlaybackSampleRate(newRate: real)
      requires Valid()
      modifies this`playbackSampleRate, voices
      ensures Valid()
      ensures playbackSampleRate == newRate
      ensures forall k :: 0 <= k < |voices| ==>
                voices[k].State() == if old(playbackSampleRate) == newRate then old(voices[k].State())
                                     else Voice.Stopped(old(voices[k].State()), false)
    {
      if playbackSampleRate != newRate {
        for i := 0 to |voices|
          invariant forall k :: 0 <= k < i ==> voices[k].State() == Voice.Stopped(old(voices[k].State()), false)
          invariant forall k :: i <= k < |voices| ==> voices[k].State() == old(voices[k].State())
        {
          voices[i].StopNote(1.0, false);
        }
        playbackSampleRate := newRate;
      }
    }

    /** Sets the synthesiser's sample rate (stopping every voice when it
        changes), then prepares every voice with the same sample rate, block
        size and number of output channels, then runs the voice self-test on a
        scratch voice. */
    method PrepareToPlay(sampleRate: real, samplesPerBlock: int, totalNumOutputChannels: int)
      requires Valid()
      modifies this`playbackSampleRate, voices
      ensures Valid()
      ensures playbackSampleRate == sampleRate
      ensures forall k :: 0 <= k < |voices| ==>
                voices[k].State() == Voice.Prepared(
                  if old(playbackSampleRate) == sampleRate then old(voices[k].State())
                  else Voice.Stopped(old(voices[k].State()), false),
                  sampleRate, samplesPerBlock, totalNumOutputChannels)
      ensures forall k :: 0 <= k < |voices| ==> voices[k].osc.Some?
    {
      SetCurrentPlaybackSampleRate(sampleRate);
      label RateSet:
      for i := 0 to |voices|
        invariant playbackSampleRate == sampleRate
        invariant forall k :: 0 <= k < i ==>
                    voices[k].State() == Voice.Prepared(old@RateSet(voices[k].State()), sampleRate, samplesPerBlock, totalNumOutputChannels)
        invariant forall k :: i <= k < |voices| ==> voices[k].State() == old@RateSet(voices[k].State())
      {
        voices[i].PrepareToPlay(sampleRate, samplesPerBlock, totalNumOutputChannels);
      }
      RunTests();
    }

    /** The self-test runs on a voice of its own; the pool is not touched. */
    method RunTests()
    {
      var testVoice := new Voice.CustomVoice();
      testVoice.VoiceTests();
    }

    method ChangeADSREnv(params: Adsr.Parameters)
      requires Valid()
      modifies voices
      ensures Valid()
      ensures forall k :: 0 <= k < |voices| ==> voices[k].State() == Voice.AdsrSet(old(voices[k].State()), params)
      ensures forall k :: 0 <= k < |voices| ==> voices[k].envelope.parameters == params
    {
      for i := 0 to |voices|
        invariant forall k :: 0 <= k < i ==> voices[k].State() == Voice.AdsrSet(old(voices[k].State()), params)
        invariant forall k :: i <= k < |voices| ==> voices[k].State() == old(voices[k].State())
      {
        voices[i].SetADSR(params);
      }
    }

    method ChangeWaveform(waveformNum: int)
      requires Valid()
      modifies voices
      ensures Valid()
      ensures forall k :: 0 <= k < |voices| ==> voices[k].State() == Voice.WaveSet(old(voices[k].State()), waveformNum)
      ensures forall k :: 0 <= k < |voices| ==> voices[k].osc == Voice.Some(Voice.ShapeOf(waveformNum))
    {
      for i := 0 to |voices|
        invariant forall k :: 0 <= k < i ==> voices[k].State() == Voice.WaveSet(old(voices[k].State()), waveformNum)
        invariant forall k :: i <= k < |voices| ==> voices[k].State() == old(voices[k].State())
      {
        voices[i].SetWave(waveformNum);
      }
    }

    method ChangeVolume(gain: real)
      requires Valid()
      modifies voices
      ensures Valid()
      ensures forall k :: 0 <= k < |voices| ==> voices[k].State() == Voice.GainSet(old(voices[k].State()), gain)
      ensures forall k :: 0 <= k < |voices| ==> voices[k].gainDb == Voice.GainDecibelsReadBack(gain)
    {
      for i := 0 to |voices|
        invariant forall k :: 0 <= k < i ==> voices[k].State() == Voice.GainSet(old(voices[k].State()), gain)
        invariant forall k :: i <= k < |voices| ==> voices[k].State() == old(voices[k].State())
      {
        voices[i].SetGain(gain);
      }
    }

    method ChangeFilter(filterNum: int, cutoff: real, resonance: real)
      requires Valid()
      modifies voices
      ensures Valid()
      ensures forall k :: 0 <= k < |voices| ==>
                voices[k].State() == Voice.FilterSet(old(voices[k].State()), filterNum, cutoff, resonance)
    {
      for i := 0 to |voices|
        invariant forall k :: 0 <= k < i ==>
                    voices[k].State() == Voice.FilterSet(old(voices[k].State()), filterNum, cutoff, resonance)
        invariant forall k :: i <= k < |voices| ==> voices[k].State() == old(voices[k].State())
      {
        voices[i].SetFilter(filterNum, cutoff, resonance);
      }
    }

    /** Renders one block. An empty block is left alone and no voice renders.
        Otherwise the output channels that have no input channel are zeroed
        over the whole block, and then every voice adds its scratch block over
        the whole block. MIDI handling is not part of this model. */
    method ProcessBlock(buffer: array2<real>, totalNumInputChannels: nat, totalNumOutputChannels: nat,
                        scratches: seq<seq<seq<real>>>, reached: seq<Adsr.Stage>) returns (rendered: bool)
      requires Valid()
      requires totalNumOutputChannels <= buffer.Length0
      requires |scratches| == |voices| && |reached| == |voices|
      requires WellShaped(scratches, buffer.Length0, buffer.Length1)
      requires forall k :: 0 <= k < |voices| ==> voices[k].osc.Some?
      modifies buffer, voices
      ensures Valid()
      ensures rendered <==> buffer.Length1 != 0
      ensures !rendered ==> unchanged(buffer)
      ensures !rendered ==> forall k :: 0 <= k < |voices| ==> voices[k].State() == old(voices[k].State())
      ensures rendered ==> forall ch, j :: 0 <= ch < buffer.Length0 && 0 <= j < buffer.Length1 ==>
                buffer[ch, j] == (if totalNumInputChannels <= ch < totalNumOutputChannels then 0.0 else old(buffer[ch, j]))
                                 + Mix(scratches, |voices|, ch, j)
      ensures rendered ==> forall k :: 0 <= k < |voices| ==>
                voices[k].State() == Voice.Rendered(old(voices[k].State()), reached[k], buffer.Length0)
    {
      if buffer.Length1 == 0 {
        return false;
      }

      var i := totalNumInputChannels;
      while i < totalNumOutputChannels
        modifies buffer
        invariant totalNumInputChannels <= i
        invariant i <= totalNumOutputChannels || i == totalNumInputChannels
        invariant forall ch, j :: 0 <= ch < buffer.Length0 && 0 <= j < buffer.Length1 ==>
                    buffer[ch, j] == if totalNumInputChannels <= ch < i then 0.0 else old(buffer[ch, j])
      {
        forall j | 0 <= j < buffer.Length1 {
          buffer[i, j] := 0.0;
        }
        i := i + 1;
      }

      label Cleared:
      var k := 0;
      while k < |voices|
        invariant 0 <= k <= |voices|
        invariant forall ch, j :: 0 <= ch < buffer.Length0 && 0 <= j < buffer.Length1 ==>
                    buffer[ch, j] == old@Cleared(buffer[ch, j]) + Mix(scratches, k, ch, j)
        invariant forall m :: 0 <= m < k ==>
                    voices[m].State() == Voice.Rendered(old(voices[m].State()), reached[m], buffer.Length0)
        invariant forall m :: k <= m < |voices| ==> voices[m].State() == old(voices[m].State())
      {
        voices[k].RenderNextBlock(buffer, 0, buffer.Length1, scratches[k], reached[k]);
        k := k + 1;
      }
      rendered := true;
    }
  }
}
