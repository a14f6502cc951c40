/** The volume envelope of a voice, as far as the voice's code depends on it.

    The envelope is the framework's ADSR object; its per-sample segment logic
    is not part of this model. What the voice relies on is kept: the stored
    parameters and sample rate, and whether the envelope is active. Attack,
    decay and sustain are folded into one stage, Sounding. */
module Adsr {

  datatype Parameters = Parameters(attack: real, decay: real, sustain: real, release: real)

  /** The parameters an envelope has before anyone sets them. */
  const DefaultParameters := Parameters(0.1, 0.1, 1.0, 0.1)

  /** The sample rate an envelope has before anyone sets it. */
  const DefaultSampleRate := 44100.0

  datatype Stage = Idle | Sounding | Releasing

  datatype Envelope = Envelope(parameters: Parameters, sampleRate: real, stage: Stage) {
    /** An envelope is active in every stage except Idle. */
    predicate IsActive() {
      stage != Idle
    }
  }

  const Fresh := Envelope(DefaultParameters, DefaultSampleRate, Idle)

  /** Note-on always starts the envelope, from any stage. */
  function NoteOn(e: Envelope): (r: Envelope)
    ensures r.IsActive() && r.stage == Sounding
    ensures r.parameters == e.parameters && r.sampleRate == e.sampleRate
  {
    e.(stage := Sounding)
  }

  /** Note-off moves an active envelope into its release, or straight to Idle
      when the release time is not positive; an idle envelope stays idle. */
  function NoteOff(e: Envelope): (r: Envelope)
    ensures r.stage != Sounding
    ensures r.IsActive() <==> e.IsActive() && e.parameters.release > 0.0
    ensures r.parameters == e.parameters && r.sampleRate == e.sampleRate
  {
    if e.stage == Idle then e
    else if e.parameters.release > 0.0 then e.(stage := Releasing)
    else Reset(e)
  }

  /** Reset silences the envelope and keeps its settings. */
  function Reset(e: Envelope): (r: Envelope)
    ensures !r.IsActive()
    ensures r.parameters == e.parameters && r.sampleRate == e.sampleRate
  {
    e.(stage := Idle)
  }

  /** New parameters replace the old ones and leave the stage alone. */
  function SetParameters(e: Envelope, p: Parameters): (r: Envelope)
    ensures r.parameters == p
    ensures r.stage == e.stage && r.sampleRate == e.sampleRate
  {
    e.(parameters := p)
  }

  function SetSampleRate(e: Envelope, sampleRate: real): (r: Envelope)
    ensures r.sampleRate == sampleRate
    ensures r.stage == e.stage && r.parameters == e.parameters
  {
    e.(sampleRate := sampleRate)
  }

  /** The envelope after it has been applied to one block of samples: it has
      advanced to the stage reached, which the segment logic decides. */
  function AfterBlock(e: Envelope, reached: Stage): (r: Envelope)
    ensures r.IsActive() <==> reached != Idle
    ensures r.parameters == e.parameters && r.sampleRate == e.sampleRate
  {
    e.(stage := reached)
  }

  /** Note-off after note-on ends the sounding stage: the envelope releases
      exactly when its release time is positive. */
  lemma NoteOffAfterNoteOn(e: Envelope)
    ensures NoteOff(NoteOn(e)).stage == (if e.parameters.release > 0.0 then Releasing else Idle)
  {
  }

  /** Resetting twice is resetting once, and a reset envelope ignores note-off. */
  lemma ResetIdempotent(e: Envelope)
    ensures Reset(Reset(e)) == Reset(e)
    ensures NoteOff(Reset(e)) == Reset(e)
  {
  }
}
