/** The per-call segment buffer of the bot (`AudioProcessor` in
    bot/audio/audio_processor.py): raw PCM chunks are accumulated until enough
    trailing silence follows enough audio, and then the whole buffer is either
    dropped as noise or handed out as one utterance.

    The floating-point parts of the source (polyphase resampling, RMS energy
    of a chunk, peak amplitude of a buffer) are not modelled; the
    configuration carries their verdicts as two predicates over the raw
    bytes. Durations are counted in samples at the input rate. */
module AudioProcessing {
  import opened Common

  /** 16-bit mono PCM: two bytes per sample, one channel. */
  const BytesPerSample: nat := 2

  /** The constructor arguments of the processor, plus the two numeric
      verdicts it computes with numpy and scipy. */
  datatype Config = Config(
    originalSampleRate: nat,
    targetSampleRate: nat,
    silenceDurationMs: nat,
    minBufferDurationMs: nat,
    /** RMS energy of the resampled chunk is below the silence threshold. */
    quiet: Bytes -> bool,
    /** Peak amplitude of the resampled buffer is below the silence threshold. */
    peakBelow: Bytes -> bool)

  /** A zero input rate would make the chunk duration a division by zero. */
  predicate ValidConfig(cfg: Config) {
    cfg.originalSampleRate > 0
  }

  /** The constructor defaults: 48 kHz in, 16 kHz out, 1500 ms of silence,
      2.0 s minimum buffer. The length gate then asks for more than 64000
      bytes and the silence gate for 72000 samples (1.5 s at 48 kHz). */
  function DefaultConfig(quiet: Bytes -> bool, peakBelow: Bytes -> bool): (cfg: Config)
    ensures ValidConfig(cfg)
    ensures forall n: nat {:trigger LongEnough(cfg, n)} :: LongEnough(cfg, n) <==> n > 64000
    ensures forall n: nat {:trigger SilenceReached(cfg, n)} :: SilenceReached(cfg, n) <==> n >= 72000
  {
    Config(48000, 16000, 1500, 2000, quiet, peakBelow)
  }

  /** The state kept per call: the byte accumulator, the trailing silence
      (in input-rate samples) and the flag that a segment is being handled. */
  datatype CallState = CallState(audioBuffer: Bytes, silentSamples: nat, isProcessing: bool)

  /** What `initialize_call_state` installs. */
  const Idle := CallState([], 0, false)

  /** How one chunk was dealt with: dropped because a segment is in flight,
      kept in the buffer, or ending the buffer (as noise, or as a segment). */
  datatype Outcome = Skipped | Buffered | Discarded(segment: Bytes) | Ready(segment: Bytes)

  datatype Transition = Transition(state: CallState, outcome: Outcome)

  /** `np.frombuffer(..., dtype=np.int16)` accepts exactly the whole numbers
      of samples. */
  predicate Decodes(bytes: Bytes) {
    |bytes| % BytesPerSample == 0
  }

  function ChunkSamples(chunk: Bytes): nat {
    |chunk| / BytesPerSample
  }

  /** A quiet chunk extends the trailing silence by its duration; any other
      chunk resets it. */
  function SilenceAfter(cfg: Config, silentSamples: nat, chunk: Bytes): nat {
    if cfg.quiet(chunk) then silentSamples + ChunkSamples(chunk) else 0
  }

  /** `silent_duration >= silence_duration_ms / 1000`, with the duration
      `samples / original_sample_rate` cleared of its denominators. */
  predicate SilenceReached(cfg: Config, silentSamples: nat) {
    silentSamples * 1000 >= cfg.silenceDurationMs * cfg.originalSampleRate
  }

  /** `len(buffer) > target_sample_rate * min_buffer_duration_s * 2`. The
      byte count of the input-rate buffer is compared with a figure computed
      from the target rate, as the source does. */
  predicate LongEnough(cfg: Config, length: nat) {
    length * 1000 > cfg.targetSampleRate * cfg.minBufferDurationMs * BytesPerSample
  }

  function StateOf(states: map<CallId, CallState>, callId: CallId): CallState {
    if callId in states then states[callId] else Idle
  }

  /** One call of `process_audio_chunk` on the state of one call. */
  function Step(cfg: Config, s: CallState, chunk: Bytes): (t: Transition)
    // while a segment is in flight the chunk is dropped and nothing changes
    ensures s.isProcessing ==> t == Transition(s, Skipped)
    ensures !s.isProcessing ==> !t.outcome.Skipped?
    // a kept chunk is appended to the buffer
    ensures t.outcome == Buffered ==>
      && t.state.audioBuffer == s.audioBuffer + chunk
      && !t.state.isProcessing
    // a ragged chunk leaves the silence untouched; a decoded one is judged
    ensures t.outcome == Buffered ==>
      t.state.silentSamples == if Decodes(chunk) then SilenceAfter(cfg, s.silentSamples, chunk) else s.silentSamples
    // the buffer ends exactly when both gates pass and the whole buffer decodes
    ensures (t.outcome.Discarded? || t.outcome.Ready?) <==>
      && !s.isProcessing
      && Decodes(chunk)
      && SilenceReached(cfg, SilenceAfter(cfg, s.silentSamples, chunk))
      && LongEnough(cfg, |s.audioBuffer + chunk|)
      && Decodes(s.audioBuffer + chunk)
    // the ended buffer includes the chunk that ended it
    ensures (t.outcome.Discarded? || t.outcome.Ready?) ==> t.outcome.segment == s.audioBuffer + chunk
    // noise is thrown away and the call is idle again
    ensures t.outcome.Discarded? ==> cfg.peakBelow(t.outcome.segment) && t.state == Idle
    // an utterance is handed out whole and the call waits for it
    ensures t.outcome.Ready? ==>
      && !cfg.peakBelow(t.outcome.segment)
      && |t.outcome.segment| > 0
      && t.state == CallState([], 0, true)
  {
    if s.isProcessing then Transition(s, Skipped)
    else
      var buffer := s.audioBuffer + chunk;
      if !Decodes(chunk) then Transition(CallState(buffer, s.silentSamples, false), Buffered)
      else
        var silent := SilenceAfter(cfg, s.silentSamples, chunk);
        if !(SilenceReached(cfg, silent) && LongEnough(cfg, |buffer|)) || !Decodes(buffer) then
          Transition(CallState(buffer, silent, false), Buffered)
        else if cfg.peakBelow(buffer) then
          Transition(Idle, Discarded(buffer))
        else
          Transition(CallState([], 0, true), Ready(buffer))
  }

  /** An input of one call: an audio chunk, or the end of the utterance task
      (`finish_processing`). */
  datatype Event = Chunk(data: Bytes) | Finish

  /** A run over several events: the final state, every buffer that was ended
      (discarded or handed out), the segments handed out, and the bytes that
      were accepted into the buffer. */
  datatype Trace = Trace(state: CallState, flushed: seq<Bytes>, segments: seq<Bytes>, accepted: Bytes)

  function Flushed(o: Outcome): seq<Bytes> {
    if o.Discarded? || o.Ready? then [o.segment] else []
  }

  function Emitted(o: Outcome): seq<Bytes> {
    if o.Ready? then [o.segment] else []
  }

  function Run(cfg: Config, s: CallState, events: seq<Event>): Trace
    decreases |events|
  {
    if events == [] then Trace(s, [], [], [])
    else match events[0]
      case Finish => Run(cfg, s.(isProcessing := false), events[1..])
      case Chunk(data) =>
        var t := Step(cfg, s, data);
        var rest := Run(cfg, t.state, events[1..]);
        Trace(rest.state, Flushed(t.outcome) + rest.flushed, Emitted(t.outcome) + rest.segments,
              (if t.outcome.Skipped? then [] else data) + rest.accepted)
  }

  /** `Run` on a chunk followed by more events. */
  lemma RunChunk(cfg: Config, s: CallState, events: seq<Event>)
    requires events != [] && events[0].Chunk?
    ensures var t := Step(cfg, s, events[0].data);
      var rest := Run(cfg, t.state, events[1..]);
      Run(cfg, s, events) == Trace(rest.state, Flushed(t.outcome) + rest.flushed, Emitted(t.outcome) + rest.segments,
                                   (if t.outcome.Skipped? then [] else events[0].data) + rest.accepted)
  {
  }

  /** The bytes of all chunks among `events`. */
  function ChunkBytes(events: seq<Event>): Bytes {
    if events == [] then []
    else (if events[0].Chunk? then events[0].data else []) + ChunkBytes(events[1..])
  }

  function Finishes(events: seq<Event>): nat {
    if events == [] then 0 else (if events[0].Finish? then 1 else 0) + Finishes(events[1..])
  }

  /** No byte is lost or duplicated: the buffers that were ended, followed by
      the current buffer, are exactly the initial buffer followed by every
      accepted chunk, in arrival order. */
  lemma {:induction false} Conservation(cfg: Config, s: CallState, events: seq<Event>)
    ensures var r := Run(cfg, s, events);
      Concat(r.flushed) + r.state.audioBuffer == s.audioBuffer + r.accepted
    decreases |events|
  {
    if events != [] {
      match events[0]
      case Finish =>
        Conservation(cfg, s.(isProcessing := false), events[1..]);
      case Chunk(data) =>
        var t := Step(cfg, s, data);
        var rest := Run(cfg, t.state, events[1..]);
        var accepted := if t.outcome.Skipped? then [] else data;
        assert Run(cfg, s, events) == Trace(rest.state, Flushed(t.outcome) + rest.flushed,
          Emitted(t.outcome) + rest.segments, accepted + rest.accepted);
        Conservation(cfg, t.state, events[1..]);
        StepConserves(cfg, s, data);
        ConcatAppend(Flushed(t.outcome), rest.flushed);
        Regroup(Concat(Flushed(t.outcome)), Concat(rest.flushed), rest.state.audioBuffer,
                t.state.audioBuffer, rest.accepted, s.audioBuffer, accepted);
    }
  }

  /** One step of `Conservation`. */
  lemma StepConserves(cfg: Config, s: CallState, data: Bytes)
    ensures var t := Step(cfg, s, data);
      Concat(Flushed(t.outcome)) + t.state.audioBuffer
        == s.audioBuffer + (if t.outcome.Skipped? then [] else data)
  {
    var t := Step(cfg, s, data);
    if t.outcome.Discarded? || t.outcome.Ready? {
      assert Concat([t.outcome.segment]) == t.outcome.segment + Concat([]);
    }
  }

  lemma Regroup(flushed: Bytes, later: Bytes, final: Bytes, middle: Bytes, laterAccepted: Bytes,
                initial: Bytes, accepted: Bytes)
    requires later + final == middle + laterAccepted
    requires flushed + middle == initial + accepted
    ensures (flushed + later) + final == initial + (accepted + laterAccepted)
  {
    calc {
      (flushed + later) + final;
      flushed + (later + final);
      (flushed + middle) + laterAccepted;
    }
  }

  lemma {:induction false} ConcatAppend(a: seq<Bytes>, b: seq<Bytes>)
    ensures Concat(a + b) == Concat(a) + Concat(b)
    decreases |a|
  {
    if a == [] {
      assert a + b == b;
    } else {
      assert (a + b)[0] == a[0];
      assert (a + b)[1..] == a[1..] + b;
      ConcatAppend(a[1..], b);
    }
  }

  /** At most one segment is handed out per `finish_processing`: after a
      segment every chunk is dropped until the task releases the call. */
  lemma {:induction false} OneSegmentInFlight(cfg: Config, s: CallState, events: seq<Event>)
    ensures |Run(cfg, s, events).segments| <= Finishes(events) + (if s.isProcessing then 0 else 1)
    decreases |events|
  {
    if events != [] {
      match events[0]
      case Finish =>
        OneSegmentInFlight(cfg, s.(isProcessing := false), events[1..]);
      case Chunk(data) =>
        OneSegmentInFlight(cfg, Step(cfg, s, data).state, events[1..]);
    }
  }

  /** While a segment is in flight and the task has not finished, the call
      ignores its input entirely. */
  lemma {:induction false} DroppedWhileProcessing(cfg: Config, s: CallState, events: seq<Event>)
    requires s.isProcessing
    requires Finishes(events) == 0
    ensures Run(cfg, s, events) == Trace(s, [], [], [])
    decreases |events|
  {
    if events != [] {
      DroppedWhileProcessing(cfg, s, events[1..]);
    }
  }

  /** Audio that never reaches the minimum length is never ended, however
      much silence it holds: everything is kept, in order. */
  lemma {:induction false} ShortAudioIsKept(cfg: Config, s: CallState, events: seq<Event>)
    requires !s.isProcessing
    requires !LongEnough(cfg, |s.audioBuffer + ChunkBytes(events)|)
    ensures var r := Run(cfg, s, events);
      && r.flushed == [] && r.segments == []
      && r.state.audioBuffer == s.audioBuffer + ChunkBytes(events)
      && !r.state.isProcessing
    decreases |events|
  {
    if events != [] {
      var rest := events[1..];
      match events[0]
      case Finish =>
        assert s.(isProcessing := false) == s;
        ShortAudioIsKept(cfg, s, rest);
      case Chunk(data) =>
        assert ChunkBytes(events) == data + ChunkBytes(rest);
        assert s.audioBuffer + ChunkBytes(events) == (s.audioBuffer + data) + ChunkBytes(rest);
        var t := Step(cfg, s, data);
        assert !LongEnough(cfg, |s.audioBuffer + data|);
        ShortAudioIsKept(cfg, t.state, rest);
    }
  }

  /** Every chunk among `events` holds a whole number of samples. */
  predicate WholeSamples(events: seq<Event>)
    decreases |events|
  {
    events == [] || ((events[0].Chunk? ==> Decodes(events[0].data)) && WholeSamples(events[1..]))
  }

  /** A well-formed chunk on a misaligned buffer is kept and the buffer stays
      misaligned. */
  lemma MisalignedStep(cfg: Config, s: CallState, data: Bytes) returns (next: CallState)
    requires !s.isProcessing && !Decodes(s.audioBuffer) && Decodes(data)
    ensures Step(cfg, s, data) == Transition(next, Buffered)
    ensures next.audioBuffer == s.audioBuffer + data && !next.isProcessing && !Decodes(next.audioBuffer)
  {
    next := CallState(s.audioBuffer + data, SilenceAfter(cfg, s.silentSamples, data), false);
  }

  /** The source appends a chunk before decoding it, so a chunk of odd length
      is kept. From then on the whole buffer never decodes, and with
      well-formed chunks nothing is ever discarded or handed out again: the
      buffer only grows. */
  lemma {:induction false} MisalignedBufferIsStuck(cfg: Config, s: CallState, events: seq<Event>)
    requires !s.isProcessing
    requires !Decodes(s.audioBuffer)
    requires WholeSamples(events)
    ensures var r := Run(cfg, s, events);
      && r.flushed == [] && r.segments == []
      && r.state.audioBuffer == s.audioBuffer + ChunkBytes(events)
    decreases |events|
  {
    if events != [] {
      var rest := events[1..];
      match events[0]
      case Finish =>
        assert s.(isProcessing := false) == s;
        MisalignedBufferIsStuck(cfg, s, rest);
      case Chunk(data) =>
        assert ChunkBytes(events) == data + ChunkBytes(rest);
        assert s.audioBuffer + ChunkBytes(events) == (s.audioBuffer + data) + ChunkBytes(rest);
        var next := MisalignedStep(cfg, s, data);
        RunChunk(cfg, s, events);
        MisalignedBufferIsStuck(cfg, next, rest);
    }
  }

  /** `AudioProcessor`: the per-call states of all calls. */
  class AudioProcessor {
    const cfg: Config
    var callStates: map<CallId, CallState>

    constructor (cfg: Config)
      requires ValidConfig(cfg)
      ensures this.cfg == cfg && callStates == map[]
    {
      this.cfg := cfg;
      callStates := map[];
    }

    /** Installs a fresh state, replacing any state the call had. */
    method InitializeCallState(callId: CallId)
      modifies this
      ensures callStates == old(callStates)[callId := Idle]
    {
      callStates := callStates[callId := Idle];
    }

    /** Forgets the call; a call without state is left alone. */
    method CleanupCallState(callId: CallId)
      modifies this
      ensures callStates == old(callStates) - {callId}
    {
      if callId in callStates {
        callStates := callStates - {callId};
      }
    }

    /** The state of the call, created on first use. */
    method GetCallState(callId: CallId) returns (state: CallState)
      modifies this
      ensures state == StateOf(old(callStates), callId)
      ensures callStates == old(callStates)[callId := state]
    {
      if callId !in callStates {
        InitializeCallState(callId);
      }
      state := callStates[callId];
    }

    /** Feeds one chunk; answers whether a segment is ready, and the segment. */
    method ProcessAudioChunk(callId: CallId, audioData: Bytes) returns (shouldTranscribe: bool, bufferCopy: Option<Bytes>)
      modifies this
      ensures var t := Step(cfg, StateOf(old(callStates), callId), audioData);
        && callStates == old(callStates)[callId := t.state]
        && shouldTranscribe == t.outcome.Ready?
        && bufferCopy == if t.outcome.Ready? then Some(t.outcome.segment) else None
    {
      var state := GetCallState(callId);
      shouldTranscribe, bufferCopy := false, None;
      if !state.isProcessing {
        var buffer := state.audioBuffer + audioData;
        state := state.(audioBuffer := buffer);
        if Decodes(audioData) {
          var silent := if cfg.quiet(audioData) then state.silentSamples + ChunkSamples(audioData) else 0;
          state := state.(silentSamples := silent);
          if SilenceReached(cfg, silent) && LongEnough(cfg, |buffer|) && Decodes(buffer) {
            if cfg.peakBelow(buffer) {
              state := Idle;
            } else {
              state := state.(isProcessing := true);
              bufferCopy := Some(buffer);
              shouldTranscribe := true;
              state := CallState([], 0, true);
            }
          }
          // otherwise the chunk stays buffered; a buffer that does not decode
          // raises, is logged, and nothing is reset
        }
        // a chunk that does not decode raises after it was appended: the
        // error is logged and the chunk stays buffered
        callStates := callStates[callId := state];
      }
    }

    /** Releases the call for the next segment; only the flag changes. */
    method FinishProcessing(callId: CallId)
      modifies this
      ensures callStates == old(callStates)[callId := StateOf(old(callStates), callId).(isProcessing := false)]
    {
      var state := GetCallState(callId);
      callStates := callStates[callId := state.(isProcessing := false)];
    }

    /** Whether a segment of the call is in flight (creating its state). */
    method IsProcessing(callId: CallId) returns (processing: bool)
      modifies this
      ensures processing == StateOf(old(callStates), callId).isProcessing
      ensures callStates == old(callStates)[callId := StateOf(old(callStates), callId)]
    {
      var state := GetCallState(callId);
      processing := state.isProcessing;
    }
  }
}
