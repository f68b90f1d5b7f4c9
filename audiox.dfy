/** The older segment buffer of bot/audiox.py. It shares the state, the gates
    and the silence rule of `AudioProcessing`; it differs in three ways: it
    guards the type of its input, it truncates the minimum buffer length to
    an integer, and it clears its processing flag before returning, so it
    hands out resampled audio and never blocks a call. */
module AudioX {
  import opened Common
  import opened AudioProcessing

  /** `process_audio_chunk` accepts any Python value; only bytes and
      bytearrays pass its guard. */
  datatype AudioInput = RawBytes(data: Bytes) | NotBytes

  /** `int(target_sample_rate * min_buffer_duration_s * bytes_per_sample)`.
      For whole byte counts the truncation makes no difference: the gate is
      the main processor's. */
  function MinBufferLen(cfg: Config): (n: nat)
    ensures forall len: nat {:trigger LongEnough(cfg, len)} :: len > n <==> LongEnough(cfg, len)
  {
    (cfg.targetSampleRate * cfg.minBufferDurationMs * BytesPerSample) / 1000
  }

  /** One call of this variant's `process_audio_chunk` on a byte input. */
  function StepX(cfg: Config, s: CallState, chunk: Bytes): (t: Transition)
    // the variant decides exactly as the main processor does ...
    ensures t.outcome == Step(cfg, s, chunk).outcome
    // ... and ends in the same state, except that after a segment the flag is clear again
    ensures t.state == if t.outcome.Ready? then Idle else Step(cfg, s, chunk).state
    // so a call this variant manages is never blocked
    ensures !s.isProcessing ==> !t.state.isProcessing
  {
    if s.isProcessing then Transition(s, Skipped)
    else
      var buffer := s.audioBuffer + chunk;
      if !Decodes(chunk) then Transition(CallState(buffer, s.silentSamples, false), Buffered)
      else
        var silent := SilenceAfter(cfg, s.silentSamples, chunk);
        if !(SilenceReached(cfg, silent) && |buffer| > MinBufferLen(cfg)) || !Decodes(buffer) then
          Transition(CallState(buffer, silent, false), Buffered)
        else if cfg.peakBelow(buffer) then
          Transition(Idle, Discarded(buffer))
        else
          Transition(Idle, Ready(buffer))
  }

  /** `AudioProcessor` of bot/audiox.py. */
  class AudioProcessor {
    const cfg: Config
    /** `(resampled * 32768.0).astype(np.int16).tobytes()` of a whole buffer. */
    const encodeResampled: Bytes -> Bytes
    var callStates: map<CallId, CallState>

    /** No call this class manages is ever left with its flag set. */
    ghost predicate Valid()
      reads this
    {
      forall c :: c in callStates ==> !callStates[c].isProcessing
    }

    constructor (cfg: Config, encodeResampled: Bytes -> Bytes)
      requires ValidConfig(cfg)
      ensures Valid() && this.cfg == cfg && this.encodeResampled == encodeResampled
      ensures callStates == map[]
    {
      this.cfg := cfg;
      this.encodeResampled := encodeResampled;
      callStates := map[];
    }

    method InitializeCallState(callId: CallId)
      requires Valid()
      modifies this
      ensures Valid()
      ensures callStates == old(callStates)[callId := Idle]
    {
      callStates := callStates[callId := Idle];
    }

    method CleanupCallState(callId: CallId)
      requires Valid()
      modifies this
      ensures Valid()
      ensures callStates == old(callStates) - {callId}
    {
      if callId in callStates {
        callStates := callStates - {callId};
      }
    }

    method GetCallState(callId: CallId) returns (state: CallState)
      requires Valid()
      modifies this
      ensures Valid()
      ensures state == StateOf(old(callStates), callId) && !state.isProcessing
      ensures callStates == old(callStates)[callId := state]
    {
      if callId !in callStates {
        InitializeCallState(callId);
      }
      state := callStates[callId];
    }

    /** Feeds one input; on a segment returns its resampled encoding. Input
        that is not bytes is refused after the call's state has been created. */
    method ProcessAudioChunk(callId: CallId, audioData: AudioInput) returns (shouldReturnAudio: bool, processed: Option<Bytes>)
      requires Valid()
      modifies this
      ensures Valid()
      ensures audioData.NotBytes? ==>
        && callStates == old(callStates)[callId := StateOf(old(callStates), callId)]
        && !shouldReturnAudio && processed == None
      ensures audioData.RawBytes? ==>
        var t := StepX(cfg, StateOf(old(callStates), callId), audioData.data);
        && callStates == old(callStates)[callId := t.state]
        && shouldReturnAudio == t.outcome.Ready?
        && processed == if t.outcome.Ready? then Some(encodeResampled(t.outcome.segment)) else None
    {
      var state := GetCallState(callId);
      shouldReturnAudio, processed := false, None;
      if audioData.RawBytes? && !state.isProcessing {
        var chunk := audioData.data;
        var buffer := state.audioBuffer + chunk;
        state := state.(audioBuffer := buffer);
        if Decodes(chunk) {
          var silent := if cfg.quiet(chunk) then state.silentSamples + ChunkSamples(chunk) else 0;
          state := state.(silentSamples := silent);
          var minBufferLen := MinBufferLen(cfg);
          if SilenceReached(cfg, silent) && |buffer| > minBufferLen && Decodes(buffer) {
            if cfg.peakBelow(buffer) {
              state := Idle;
            } else {
              state := state.(isProcessing := true);
              processed := Some(encodeResampled(buffer));
              state := Idle;
              shouldReturnAudio := true;
            }
          }
        }
        callStates := callStates[callId := state];
      }
      // a state with its flag set never occurs here: the `is_processing`
      // branch is not taken
    }

    /** Always false for the calls this class manages. */
    method IsProcessing(callId: CallId) returns (processing: bool)
      requires Valid()
      modifies this
      ensures Valid()
      ensures !processing
      ensures callStates == old(callStates)[callId := StateOf(old(callStates), callId)]
    {
      var state := GetCallState(callId);
      processing := state.isProcessing;
    }
  }
}
