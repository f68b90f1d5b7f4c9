/** The bot's per-call orchestration of bot/task_manager/audio_task_manager.py:
    incoming frames go to the segment buffer, a ready segment becomes an
    "audio_process" task, and that task transcribes, answers and speaks.

    An asyncio task is modelled by what it does from start to end, run at
    once; where it can be interrupted is a parameter of the run, a `Stop`. */
module AudioTaskHandling {
  import opened Common
  import opened AudioProcessing
  import opened Tasks
  import opened Transcription
  import opened EdgeTts

  /** The points of `_transcribe_and_respond_task` at which it can end
      early, in program order. `Start` is before its first step (a task
      cancelled before it ever ran); `Numeric` covers resampling and the
      peak computation of the silence check; the `Send*` stages are
      `send_message` or `websocket.send` calls; `WaitSpeech` and
      `ResponseSpeech` are the two speech syntheses; `Query` is the query
      engine. */
  newtype Stage = i: int | 0 <= i <= 10

  const Start: Stage := 0
  const Numeric: Stage := 1
  const SendCancelAudio: Stage := 2
  const SendTranscription: Stage := 3
  const WaitSpeech: Stage := 4
  const SendWaitText: Stage := 5
  const SendWaitAudio: Stage := 6
  const Query: Stage := 7
  const SendResponse: Stage := 8
  const ResponseSpeech: Stage := 9
  const SendResponseAudio: Stage := 10

  /** How a run ends: it completes, an exception reaches its `except
      Exception` branch at a stage (whose apology may or may not get through
      the socket), or it is cancelled while suspended at a stage. */
  datatype Stop = Completes | Fails(at: Stage, apologyDelivered: bool) | Cancelled(at: Stage)

  /** Exceptions are raised by the numeric code, by the socket and by the
      query engine; transcription and synthesis catch their own. */
  predicate CanFailAt(st: Stage) {
    st in {Numeric, SendCancelAudio, SendTranscription, SendWaitText, SendWaitAudio, Query, SendResponse, SendResponseAudio}
  }

  /** Cancellation arrives only where the task suspends; resampling,
      transcription and the query engine are synchronous. */
  predicate CanBeCancelledAt(st: Stage) {
    st !in {Numeric, Query}
  }

  predicate ValidStop(stop: Stop) {
    match stop
    case Completes => true
    case Fails(at, _) => CanFailAt(at)
    case Cancelled(at) => CanBeCancelledAt(at)
  }

  /** A run with this stop gets past stage `st`. */
  predicate Passes(stop: Stop, st: Stage) {
    stop.Completes? || st < stop.at
  }

  /** The run ends at exactly this stage. */
  predicate StopsAt(stop: Stop, st: Stage) {
    !stop.Completes? && stop.at == st
  }

  /** A frame the bot writes to a call's socket: a `send_message` envelope
      (its `"to"` list is always empty here and its timestamp is left out),
      or raw audio. */
  datatype Outbound = Message(msgType: string, data: map<string, string>) | Audio(bytes: Bytes)

  function BotText(text: string): Outbound {
    Message("bot_message", map["text" := text])
  }

  const CancelAudio: Outbound := Message("cancel_audio", map[])
  const GreetingText: string := "Hello! I see you've joined the call. How can I assist you today?"
  const ApologyText: string := "Sorry, I encountered an error processing your request."

  /** One frame of the reply, with the stage that sends it. */
  datatype Line = Line(stage: Stage, msg: Outbound)

  function TranscriptMessage(text: string): Outbound {
    Message("transcription", map["text" := text])
  }

  /** Everything a reply to `text` sends when nothing interrupts it:
      stop playback, the transcript, a wait message and its audio (when
      there is any), the answer and its audio (when there is any). */
  function Script(text: string, waitText: string, waitAudio: Bytes, response: string, replyAudio: Bytes): seq<Line> {
    [Line(SendCancelAudio, CancelAudio)]
    + [Line(SendTranscription, TranscriptMessage(text))]
    + [Line(SendWaitText, BotText(waitText))]
    + (if waitAudio != [] then [Line(SendWaitAudio, Audio(waitAudio))] else [])
    + [Line(SendResponse, BotText(response))]
    + (if replyAudio != [] then [Line(SendResponseAudio, Audio(replyAudio))] else [])
  }

  /** The frames of the lines a run with this stop gets past. */
  function Before(lines: seq<Line>, stop: Stop): (r: seq<Outbound>)
    ensures |r| <= |lines|
    ensures stop.Completes? ==> |r| == |lines|
  {
    if lines == [] then []
    else (if Passes(stop, lines[0].stage) then [lines[0].msg] else []) + Before(lines[1..], stop)
  }

  /** The stages of `lines` strictly increase. */
  predicate InOrder(lines: seq<Line>) {
    forall i, j :: 0 <= i < j < |lines| ==> lines[i].stage < lines[j].stage
  }

  /** The `except Exception` branch's message, when it gets through. */
  function Apology(stop: Stop): seq<Outbound> {
    if stop.Fails? && stop.apologyDelivered then [BotText(ApologyText)] else []
  }

  /** A stop at an audio send that `if wait_audio:` or `if tts_audio:` skips
      never happens: the run goes on. */
  function Effective(stop: Stop, waitAudio: Bytes, replyAudio: Bytes): Stop {
    if StopsAt(stop, SendWaitAudio) && waitAudio == [] then Completes
    else if StopsAt(stop, SendResponseAudio) && replyAudio == [] then Completes
    else stop
  }

  /** The collaborators the handler cannot see: resampling plus Whisper, the
      peak comparison of the resampled audio, and `str(query_engine.query(q))`. */
  datatype Services = Services(whisper: Bytes -> WhisperOutcome, audioIsSilent: Bytes -> bool, respond: string -> string)

  /** What one run sends and the speech cache it leaves. */
  datatype UtteranceRun = UtteranceRun(sent: seq<Outbound>, cache: Cache)

  /** `random.choice(self.wait_messages)` for a draw `pick`. */
  function WaitText(pick: nat): (r: string)
    ensures r in WaitMessages
  {
    WaitMessages[pick % |WaitMessages|]
  }

  /** The branch `if transcribed_text:` of the task, with its interruption,
      given what the two speech calls return: the frames of the script the
      run gets past, the apology if it failed, and the cache as the speech
      calls it completed left it. */
  function ReplyOf(text: string, waitText: string, response: string, cache: Cache, wait: TtsResult, reply: TtsResult,
                   stop: Stop): UtteranceRun
  {
    var eff := Effective(stop, wait.audio, reply.audio);
    var cache' := if Passes(eff, ResponseSpeech) then reply.cache else if Passes(eff, WaitSpeech) then wait.cache else cache;
    UtteranceRun(Before(Script(text, waitText, wait.audio, response, reply.audio), eff) + Apology(eff), cache')
  }

  /** The same branch with the speech calls made: the wait message against
      the cache the run starts with, the answer against the cache the wait
      message left. */
  function Reply(text: string, cache: Cache, settings: Settings, synthesize: Synthesizer, respond: string -> string,
                 pick: nat, stop: Stop): UtteranceRun
  {
    var wait := Speak(cache, settings, WaitText(pick), true, synthesize);
    ReplyOf(text, WaitText(pick), respond(text), cache, wait, Speak(wait.cache, settings, respond(text), true, synthesize), stop)
  }

  /** The decision whether to answer at all: the recogniser heard something
      and the segment is not silence. */
  predicate Answers(segment: Bytes, sv: Services) {
    var text := Transcript(sv.whisper(segment));
    !IsSilenceDetected(text, sv.audioIsSilent(segment)) && text != ""
  }

  /** One run of `_transcribe_and_respond_task` on a segment. */
  function Utterance(segment: Bytes, cache: Cache, settings: Settings, synthesize: Synthesizer, sv: Services,
                     pick: nat, stop: Stop): (r: UtteranceRun)
    // a task cancelled before it starts does nothing
    ensures stop == Cancelled(Start) ==> r == UtteranceRun([], cache)
    // a failure in the numeric conversion sends at most the apology and speaks nothing
    ensures StopsAt(stop, Numeric) ==> r == UtteranceRun(Apology(stop), cache)
  {
    if stop == Cancelled(Start) then UtteranceRun([], cache)
    else if StopsAt(stop, Numeric) then UtteranceRun(Apology(stop), cache)
    else if !Answers(segment, sv) then UtteranceRun([], cache)
    else Reply(Transcript(sv.whisper(segment)), cache, settings, synthesize, sv.respond, pick, stop)
  }

  /** Whether the task's `finally` (releasing the call) runs: always, except
      for a task cancelled before it started. */
  predicate FinallyRuns(stop: Stop) {
    stop != Cancelled(Start)
  }

  // ---------------------------------------------------------------------
  // Properties of a run

  lemma {:induction false} BeforeAppend(a: seq<Line>, b: seq<Line>, stop: Stop)
    ensures Before(a + b, stop) == Before(a, stop) + Before(b, stop)
    decreases |a|
  {
    if a == [] {
      assert a + b == b;
    } else {
      var head := if Passes(stop, a[0].stage) then [a[0].msg] else [];
      assert (a + b)[0] == a[0];
      calc {
        Before(a + b, stop);
        head + Before((a + b)[1..], stop);
        { assert (a + b)[1..] == a[1..] + b; }
        head + Before(a[1..] + b, stop);
        { BeforeAppend(a[1..], b, stop); }
        head + (Before(a[1..], stop) + Before(b, stop));
        (head + Before(a[1..], stop)) + Before(b, stop);
      }
    }
  }

  lemma BeforeOne(l: Line, stop: Stop)
    ensures Before([l], stop) == if Passes(stop, l.stage) then [l.msg] else []
  {
    assert [l][1..] == [];
  }

  /** The script's frames one by one, each present when the run gets past
      its stage. */
  lemma ScriptBefore(text: string, waitText: string, waitAudio: Bytes, response: string, replyAudio: Bytes, stop: Stop)
    ensures Before(Script(text, waitText, waitAudio, response, replyAudio), stop) ==
      (if Passes(stop, SendCancelAudio) then [CancelAudio] else [])
      + (if Passes(stop, SendTranscription) then [TranscriptMessage(text)] else [])
      + (if Passes(stop, SendWaitText) then [BotText(waitText)] else [])
      + (if waitAudio != [] && Passes(stop, SendWaitAudio) then [Audio(waitAudio)] else [])
      + (if Passes(stop, SendResponse) then [BotText(response)] else [])
      + (if replyAudio != [] && Passes(stop, SendResponseAudio) then [Audio(replyAudio)] else [])
  {
    var l1 := [Line(SendCancelAudio, CancelAudio)];
    var l2 := [Line(SendTranscription, TranscriptMessage(text))];
    var l3 := [Line(SendWaitText, BotText(waitText))];
    var l4: seq<Line> := if waitAudio != [] then [Line(SendWaitAudio, Audio(waitAudio))] else [];
    var l5 := [Line(SendResponse, BotText(response))];
    var l6: seq<Line> := if replyAudio != [] then [Line(SendResponseAudio, Audio(replyAudio))] else [];
    var p1: seq<Outbound> := if Passes(stop, SendCancelAudio) then [CancelAudio] else [];
    var p2: seq<Outbound> := if Passes(stop, SendTranscription) then [TranscriptMessage(text)] else [];
    var p3: seq<Outbound> := if Passes(stop, SendWaitText) then [BotText(waitText)] else [];
    var p4: seq<Outbound> := if waitAudio != [] && Passes(stop, SendWaitAudio) then [Audio(waitAudio)] else [];
    var p5: seq<Outbound> := if Passes(stop, SendResponse) then [BotText(response)] else [];
    var p6: seq<Outbound> := if replyAudio != [] && Passes(stop, SendResponseAudio) then [Audio(replyAudio)] else [];
    BeforeOne(l1[0], stop);
    BeforeOne(l2[0], stop);
    BeforeOne(l3[0], stop);
    BeforeOne(l5[0], stop);
    assert Before(l4, stop) == p4 by {
      if waitAudio != [] {
        BeforeOne(l4[0], stop);
      }
    }
    assert Before(l6, stop) == p6 by {
      if replyAudio != [] {
        BeforeOne(l6[0], stop);
      }
    }
    BeforeAppend(l1, l2, stop);
    BeforeAppend(l1 + l2, l3, stop);
    BeforeAppend(l1 + l2 + l3, l4, stop);
    BeforeAppend(l1 + l2 + l3 + l4, l5, stop);
    BeforeAppend(l1 + l2 + l3 + l4 + l5, l6, stop);
    assert Script(text, waitText, waitAudio, response, replyAudio) == l1 + l2 + l3 + l4 + l5 + l6;
  }

  /** `ReplyOf`, stage by stage. */
  lemma ReplyOfPieces(text: string, waitText: string, response: string, cache: Cache, wait: TtsResult, reply: TtsResult,
                      stop: Stop)
    ensures var eff := Effective(stop, wait.audio, reply.audio);
      && ReplyOf(text, waitText, response, cache, wait, reply, stop).sent ==
        (if Passes(eff, SendCancelAudio) then [CancelAudio] else [])
        + (if Passes(eff, SendTranscription) then [TranscriptMessage(text)] else [])
        + (if Passes(eff, SendWaitText) then [BotText(waitText)] else [])
        + (if wait.audio != [] && Passes(eff, SendWaitAudio) then [Audio(wait.audio)] else [])
        + (if Passes(eff, SendResponse) then [BotText(response)] else [])
        + (if reply.audio != [] && Passes(eff, SendResponseAudio) then [Audio(reply.audio)] else [])
        + Apology(eff)
      && ReplyOf(text, waitText, response, cache, wait, reply, stop).cache ==
        (if Passes(eff, ResponseSpeech) then reply.cache else if Passes(eff, WaitSpeech) then wait.cache else cache)
  {
    ScriptBefore(text, waitText, wait.audio, response, reply.audio, Effective(stop, wait.audio, reply.audio));
  }
  /** Where the run stops decides what it has sent and which cache it
      leaves: the frames of every stage before the stop, then the apology,
      against the cache of the last speech call that completed. One lemma
      per point where the `try` block can be left. */
  lemma HaltAtCancelAudio(text: string, waitText: string, response: string, cache: Cache, wait: TtsResult, reply: TtsResult, stop: Stop)
    requires StopsAt(stop, SendCancelAudio)
    ensures ReplyOf(text, waitText, response, cache, wait, reply, stop) == UtteranceRun(Apology(stop), cache)
  {
    assert Effective(stop, wait.audio, reply.audio) == stop;
    ScriptBefore(text, waitText, wait.audio, response, reply.audio, stop);
  }

  lemma HaltAtTranscription(text: string, waitText: string, response: string, cache: Cache, wait: TtsResult, reply: TtsResult, stop: Stop)
    requires StopsAt(stop, SendTranscription)
    ensures ReplyOf(text, waitText, response, cache, wait, reply, stop) == UtteranceRun([CancelAudio] + Apology(stop), cache)
  {
    assert Effective(stop, wait.audio, reply.audio) == stop;
    ScriptBefore(text, waitText, wait.audio, response, reply.audio, stop);
  }

  lemma HaltAtWaitSpeech(text: string, waitText: string, response: string, cache: Cache, wait: TtsResult, reply: TtsResult, stop: Stop)
    requires StopsAt(stop, WaitSpeech)
    ensures ReplyOf(text, waitText, response, cache, wait, reply, stop) == UtteranceRun([CancelAudio] + [TranscriptMessage(text)] + Apology(stop), cache)
  {
    assert Effective(stop, wait.audio, reply.audio) == stop;
    ScriptBefore(text, waitText, wait.audio, response, reply.audio, stop);
  }

  lemma HaltAtWaitText(text: string, waitText: string, response: string, cache: Cache, wait: TtsResult, reply: TtsResult, stop: Stop)
    requires StopsAt(stop, SendWaitText)
    ensures ReplyOf(text, waitText, response, cache, wait, reply, stop) == UtteranceRun([CancelAudio] + [TranscriptMessage(text)] + Apology(stop), wait.cache)
  {
    assert Effective(stop, wait.audio, reply.audio) == stop;
    ScriptBefore(text, waitText, wait.audio, response, reply.audio, stop);
  }

  lemma HaltAtWaitAudio(text: string, waitText: string, response: string, cache: Cache, wait: TtsResult, reply: TtsResult, stop: Stop)
    requires StopsAt(stop, SendWaitAudio) && wait.audio != []
    ensures ReplyOf(text, waitText, response, cache, wait, reply, stop) == UtteranceRun([CancelAudio] + [TranscriptMessage(text)] + [BotText(waitText)] + Apology(stop), wait.cache)
  {
    assert Effective(stop, wait.audio, reply.audio) == stop;
    ScriptBefore(text, waitText, wait.audio, response, reply.audio, stop);
  }

  lemma HaltAtQuery(text: string, waitText: string, response: string, cache: Cache, wait: TtsResult, reply: TtsResult, stop: Stop)
    requires StopsAt(stop, Query) || StopsAt(stop, SendResponse)
    ensures ReplyOf(text, waitText, response, cache, wait, reply, stop) == UtteranceRun([CancelAudio] + [TranscriptMessage(text)] + [BotText(waitText)] + (if wait.audio != [] then [Audio(wait.audio)] else []) + Apology(stop), wait.cache)
  {
    assert Effective(stop, wait.audio, reply.audio) == stop;
    ScriptBefore(text, waitText, wait.audio, response, reply.audio, stop);
  }

  lemma HaltAtResponseSpeech(text: string, waitText: string, response: string, cache: Cache, wait: TtsResult, reply: TtsResult, stop: Stop)
    requires StopsAt(stop, ResponseSpeech)
    ensures ReplyOf(text, waitText, response, cache, wait, reply, stop) == UtteranceRun([CancelAudio] + [TranscriptMessage(text)] + [BotText(waitText)] + (if wait.audio != [] then [Audio(wait.audio)] else []) + [BotText(response)] + Apology(stop), wait.cache)
  {
    assert Effective(stop, wait.audio, reply.audio) == stop;
    ScriptBefore(text, waitText, wait.audio, response, reply.audio, stop);
  }

  lemma HaltAtResponseAudio(text: string, waitText: string, response: string, cache: Cache, wait: TtsResult, reply: TtsResult, stop: Stop)
    requires StopsAt(stop, SendResponseAudio) && reply.audio != []
    ensures ReplyOf(text, waitText, response, cache, wait, reply, stop) == UtteranceRun([CancelAudio] + [TranscriptMessage(text)] + [BotText(waitText)] + (if wait.audio != [] then [Audio(wait.audio)] else []) + [BotText(response)] + Apology(stop), reply.cache)
  {
    assert Effective(stop, wait.audio, reply.audio) == stop;
    assert Passes(stop, SendCancelAudio) && Passes(stop, SendTranscription) && Passes(stop, WaitSpeech) && Passes(stop, SendWaitText) && Passes(stop, SendWaitAudio) && Passes(stop, Query) && Passes(stop, SendResponse) && Passes(stop, ResponseSpeech);
    assert !Passes(stop, SendResponseAudio);
    ScriptBefore(text, waitText, wait.audio, response, reply.audio, stop);
  }

  /** A run to the end, which a stop at a skipped audio send also is. */
  lemma RunsToTheEnd(text: string, waitText: string, response: string, cache: Cache, wait: TtsResult, reply: TtsResult, stop: Stop)
    requires || stop.Completes?
             || (StopsAt(stop, SendWaitAudio) && wait.audio == [])
             || (StopsAt(stop, SendResponseAudio) && reply.audio == [])
    ensures ReplyOf(text, waitText, response, cache, wait, reply, stop) == UtteranceRun([CancelAudio] + [TranscriptMessage(text)] + [BotText(waitText)] + (if wait.audio != [] then [Audio(wait.audio)] else []) + [BotText(response)]
      + (if reply.audio != [] then [Audio(reply.audio)] else []), reply.cache)
  {
    ScriptBefore(text, waitText, wait.audio, response, reply.audio, Effective(stop, wait.audio, reply.audio));
  }

  /** The script's stages increase; its first frame stops playback, its
      audio frames are non-empty and its one transcript carries `text`. */
  lemma ScriptFacts(text: string, waitText: string, waitAudio: Bytes, response: string, replyAudio: Bytes)
    ensures var s := Script(text, waitText, waitAudio, response, replyAudio);
      && InOrder(s)
      && s[0] == Line(SendCancelAudio, CancelAudio)
      && (forall i :: 0 <= i < |s| && s[i].msg.Audio? ==> s[i].msg.bytes != [])
      && (forall i :: 0 <= i < |s| && s[i].msg.Message? && s[i].msg.msgType == "transcription" ==> s[i].msg == TranscriptMessage(text))
  {
  }

  lemma {:induction false} NothingBeforeLate(lines: seq<Line>, stop: Stop)
    requires InOrder(lines)
    requires lines != [] && !Passes(stop, lines[0].stage)
    ensures Before(lines, stop) == []
    decreases |lines|
  {
    if |lines| > 1 {
      assert lines[0].stage < lines[1].stage;
      NothingBeforeLate(lines[1..], stop);
    }
  }

  /** On lines in stage order, what a run gets through is a prefix of
      everything, and each frame it sends is a frame of a line. */
  lemma {:induction false} BeforeIsPrefix(lines: seq<Line>, stop: Stop)
    requires InOrder(lines)
    ensures Before(lines, stop) == Before(lines, Completes)[..|Before(lines, stop)|]
    ensures forall i :: 0 <= i < |Before(lines, stop)| ==> Before(lines, stop)[i] == lines[i].msg
    decreases |lines|
  {
    if lines != [] {
      if Passes(stop, lines[0].stage) {
        var tail := lines[1..];
        BeforeIsPrefix(tail, stop);
        BeforeIsPrefix(tail, Completes);
        var r := Before(lines, stop);
        assert r == [lines[0].msg] + Before(tail, stop);
        assert Before(lines, Completes) == [lines[0].msg] + Before(tail, Completes);
        forall i | 0 < i < |r|
          ensures r[i] == lines[i].msg
        {
          assert r[i] == Before(tail, stop)[i - 1];
        }
      } else if |lines| > 1 {
        NothingBeforeLate(lines, stop);
      }
    }
  }

  /** A segment transcribed as silence or as nothing sends nothing; only a
      failure in the numeric steps may send the apology. The cache is left
      alone. */
  lemma QuietSegmentSendsNothing(segment: Bytes, cache: Cache, settings: Settings, synthesize: Synthesizer, sv: Services,
                                 pick: nat, stop: Stop)
    requires !Answers(segment, sv)
    ensures var run := Utterance(segment, cache, settings, synthesize, sv, pick, stop);
      && run.cache == cache
      && run.sent == (if StopsAt(stop, Numeric) then Apology(stop) else [])
  {
  }

  /** The reply part of a run that answers: its frames are those of the
      script up to the stop, then the apology. */
  lemma ReplyShape(segment: Bytes, cache: Cache, settings: Settings, synthesize: Synthesizer, sv: Services,
                   pick: nat, stop: Stop)
    requires Answers(segment, sv) && stop != Cancelled(Start) && !StopsAt(stop, Numeric)
    ensures var text := Transcript(sv.whisper(segment));
      var wait := Speak(cache, settings, WaitText(pick), true, synthesize);
      var reply := Speak(wait.cache, settings, sv.respond(text), true, synthesize);
      var script := Script(text, WaitText(pick), wait.audio, sv.respond(text), reply.audio);
      var eff := Effective(stop, wait.audio, reply.audio);
      && Utterance(segment, cache, settings, synthesize, sv, pick, stop).sent == Before(script, eff) + Apology(eff)
      && Utterance(segment, cache, settings, synthesize, sv, pick, Completes).sent == Before(script, Completes)
      && (eff.Cancelled? ==> Apology(eff) == [])
  {
    var text := Transcript(sv.whisper(segment));
    assert Utterance(segment, cache, settings, synthesize, sv, pick, stop) == Reply(text, cache, settings, synthesize, sv.respond, pick, stop);
    assert Utterance(segment, cache, settings, synthesize, sv, pick, Completes) == Reply(text, cache, settings, synthesize, sv.respond, pick, Completes);
  }

  /** An interrupted run sends a prefix of what the uninterrupted run sends;
      a failed run may add the apology after it, a cancelled one never
      does. */
  lemma InterruptedRunIsPrefix(segment: Bytes, cache: Cache, settings: Settings, synthesize: Synthesizer, sv: Services,
                               pick: nat, stop: Stop)
    ensures var full := Utterance(segment, cache, settings, synthesize, sv, pick, Completes).sent;
      var run := Utterance(segment, cache, settings, synthesize, sv, pick, stop).sent;
      exists k :: 0 <= k <= |full| && (run == full[..k] || (stop.Fails? && run == full[..k] + [BotText(ApologyText)]))
    ensures stop.Cancelled? ==>
      var full := Utterance(segment, cache, settings, synthesize, sv, pick, Completes).sent;
      var run := Utterance(segment, cache, settings, synthesize, sv, pick, stop).sent;
      run == full[..|run|]
  {
    var full := Utterance(segment, cache, settings, synthesize, sv, pick, Completes).sent;
    var run := Utterance(segment, cache, settings, synthesize, sv, pick, stop).sent;
    if stop == Cancelled(Start) || StopsAt(stop, Numeric) || !Answers(segment, sv) {
      assert full[..0] == [];
      assert run == [] || run == [BotText(ApologyText)];
      assert run == full[..0] || run == full[..0] + [BotText(ApologyText)];
    } else {
      var text := Transcript(sv.whisper(segment));
      var wait := Speak(cache, settings, WaitText(pick), true, synthesize);
      var reply := Speak(wait.cache, settings, sv.respond(text), true, synthesize);
      var script := Script(text, WaitText(pick), wait.audio, sv.respond(text), reply.audio);
      var eff := Effective(stop, wait.audio, reply.audio);
      ReplyShape(segment, cache, settings, synthesize, sv, pick, stop);
      ScriptFacts(text, WaitText(pick), wait.audio, sv.respond(text), reply.audio);
      BeforeIsPrefix(script, eff);
      var k := |Before(script, eff)|;
      assert run == full[..k] + Apology(eff);
      if stop.Cancelled? {
        assert run == full[..k];
      }
    }
  }

  /** The frames of lines in stage order up to a stop, then the apology: a
      first frame that is not the apology is the first line's, and every
      frame is a line's or the apology. */
  lemma LinesRunFrames(lines: seq<Line>, stop: Stop)
    requires InOrder(lines) && lines != []
    ensures var run := Before(lines, stop) + Apology(stop);
      && (run != [] && run != [BotText(ApologyText)] ==> run[0] == lines[0].msg)
      && (forall i :: 0 <= i < |run| ==> (i < |lines| && run[i] == lines[i].msg) || run[i] == BotText(ApologyText))
  {
    BeforeIsPrefix(lines, stop);
    var sentLines := Before(lines, stop);
    var run := sentLines + Apology(stop);
    if sentLines == [] {
      assert run == Apology(stop);
    }
    forall i | 0 <= i < |run|
      ensures (i < |lines| && run[i] == lines[i].msg) || run[i] == BotText(ApologyText)
    {
      if i < |sentLines| {
        assert run[i] == sentLines[i];
      } else {
        assert run[i] == Apology(stop)[i - |sentLines|];
      }
    }
  }

  /** The frames of a script up to a stop, then the apology: a first frame
      that is not the apology stops playback, audio frames are non-empty,
      and the one transcript carries `text`. */
  lemma ScriptRunFrames(text: string, waitText: string, waitAudio: Bytes, response: string, replyAudio: Bytes, stop: Stop)
    ensures var run := Before(Script(text, waitText, waitAudio, response, replyAudio), stop) + Apology(stop);
      && (run != [] && run != [BotText(ApologyText)] ==> run[0] == CancelAudio)
      && (forall i :: 0 <= i < |run| && run[i].Audio? ==> run[i].bytes != [])
      && (forall i :: 0 <= i < |run| && run[i].Message? && run[i].msgType == "transcription" ==> run[i] == TranscriptMessage(text))
  {
    ScriptFacts(text, waitText, waitAudio, response, replyAudio);
    LinesRunFrames(Script(text, waitText, waitAudio, response, replyAudio), stop);
  }

  /** Whenever a run sends anything but the apology, its first frame tells
      the clients to stop playback; every audio frame it sends is non-empty,
      and every transcript it sends is the recogniser's text, non-empty and
      trimmed. */
  lemma RunFrames(segment: Bytes, cache: Cache, settings: Settings, synthesize: Synthesizer, sv: Services,
                  pick: nat, stop: Stop)
    ensures var run := Utterance(segment, cache, settings, synthesize, sv, pick, stop).sent;
      run != [] && run != [BotText(ApologyText)] ==> run[0] == CancelAudio
    ensures var run := Utterance(segment, cache, settings, synthesize, sv, pick, stop).sent;
      forall i :: 0 <= i < |run| && run[i].Audio? ==> run[i].bytes != []
    ensures var run := Utterance(segment, cache, settings, synthesize, sv, pick, stop).sent;
      var text := Transcript(sv.whisper(segment));
      forall i :: 0 <= i < |run| && run[i].Message? && run[i].msgType == "transcription" ==>
        run[i] == TranscriptMessage(text) && text != "" && Trimmed(text)
  {
    var run := Utterance(segment, cache, settings, synthesize, sv, pick, stop).sent;
    var text := Transcript(sv.whisper(segment));
    if stop == Cancelled(Start) || StopsAt(stop, Numeric) || !Answers(segment, sv) {
      assert run == [] || run == [BotText(ApologyText)];
    } else {
      var wait := Speak(cache, settings, WaitText(pick), true, synthesize);
      var reply := Speak(wait.cache, settings, sv.respond(text), true, synthesize);
      var eff := Effective(stop, wait.audio, reply.audio);
      ReplyShape(segment, cache, settings, synthesize, sv, pick, stop);
      ScriptRunFrames(text, WaitText(pick), wait.audio, sv.respond(text), reply.audio, eff);
    }
  }

  /** A run keeps the speech cache's invariant. */
  lemma UtteranceKeepsGoodCache(segment: Bytes, cache: Cache, settings: Settings, synthesize: Synthesizer, sv: Services,
                                pick: nat, stop: Stop)
    requires GoodCache(cache)
    ensures GoodCache(Utterance(segment, cache, settings, synthesize, sv, pick, stop).cache)
  {
    if !(stop == Cancelled(Start) || StopsAt(stop, Numeric) || !Answers(segment, sv)) {
      var text := Transcript(sv.whisper(segment));
      var wait := Speak(cache, settings, WaitText(pick), true, synthesize);
      var reply := Speak(wait.cache, settings, sv.respond(text), true, synthesize);
      SpeakKeepsGoodCache(cache, settings, WaitText(pick), true, synthesize);
      SpeakKeepsGoodCache(wait.cache, settings, sv.respond(text), true, synthesize);
      ReplyOfCache(text, WaitText(pick), sv.respond(text), cache, wait, reply, stop);
    }
  }

  /** A reply leaves the cache it started with, or the one a speech call
      left. */
  lemma ReplyOfCache(text: string, waitText: string, response: string, cache: Cache, wait: TtsResult, reply: TtsResult,
                     stop: Stop)
    ensures var c := ReplyOf(text, waitText, response, cache, wait, reply, stop).cache;
      c == cache || c == wait.cache || c == reply.cache
  {
  }

  // ---------------------------------------------------------------------
  // The handler

  /** What a frame on the bot's socket decodes to: a bytes frame, or a text
      frame that `json.loads` accepts or that stays a raw string. */
  datatype Payload = Binary(bytes: Bytes) | Decoded(json: Json) | RawText(text: string)

  /** `_handle_json_message` greets exactly when a dictionary says
      `"type": "client_joined"` and its `"data"` dictionary says
      `"clientType": "user"`. A `"data"` that is present but not a dictionary
      raises, which `on_receive` swallows. */
  function Greets(payload: Payload): (r: bool)
    ensures r <==> (
      && payload.Decoded? && payload.json.JObject?
      && "type" in payload.json.fields && payload.json.fields["type"] == JString("client_joined")
      && "data" in payload.json.fields && payload.json.fields["data"].JObject?
      && "clientType" in payload.json.fields["data"].fields
      && payload.json.fields["data"].fields["clientType"] == JString("user"))
  {
    match payload
    case Decoded(JObject(fields)) =>
      if "type" in fields && fields["type"] == JString("client_joined") then
        var clientInfo := if "data" in fields then fields["data"] else JObject(map[]);
        match clientInfo
        case JObject(info) => "clientType" in info && info["clientType"] == JString("user")
        case _ => false
      else false
    case _ => false
  }

  /** The coroutine a task was created with: the call and the segment. */
  datatype Job = Job(callId: CallId, segment: Bytes)

  /** Each frame of `msgs`, addressed to the socket of call `c`. */
  function Tagged(c: CallId, msgs: seq<Outbound>): (r: seq<(CallId, Outbound)>)
    ensures |r| == |msgs|
    ensures forall i :: 0 <= i < |msgs| ==> r[i] == (c, msgs[i])
  {
    seq(|msgs|, i requires 0 <= i < |msgs| => (c, msgs[i]))
  }

  /** `is_task_running(c, "audio_process")` on the registry's values. */
  predicate Running(tasks: Registry, done: set<TaskId>, c: CallId) {
    Lookup(tasks, c, AudioProcess).Some? && Lookup(tasks, c, AudioProcess).value !in done
  }

  /** How the handler's parts agree: every registered task is one of its jobs,
      in the "audio_process" slot of the job's call; a job that has not
      finished is its call's occupant; and a running job holds its call's
      processing flag, so no chunk reaches the buffer while it runs. */
  ghost predicate Coherent(tasks: Registry, done: set<TaskId>, nextTask: nat, pending: map<TaskId, Job>,
                           states: map<CallId, CallState>)
  {
    && (forall t :: t in pending ==> t < nextTask)
    && (forall c, n {:trigger Lookup(tasks, c, n)} :: Lookup(tasks, c, n).Some? ==>
          && n == AudioProcess
          && Lookup(tasks, c, n).value in pending
          && pending[Lookup(tasks, c, n).value].callId == c)
    && (forall t :: t in pending && t !in done ==> Lookup(tasks, pending[t].callId, AudioProcess) == Some(t))
    && (forall c :: Running(tasks, done, c) ==> StateOf(states, c).isProcessing)
  }

  /** A chunk that yields no segment keeps the parts in agreement: a call
      whose flag it clears had no running job. */
  lemma CoherentAfterChunk(tasks: Registry, done: set<TaskId>, nextTask: nat, pending: map<TaskId, Job>,
                           states: map<CallId, CallState>, c: CallId, s: CallState)
    requires Coherent(tasks, done, nextTask, pending, states)
    requires s.isProcessing || !StateOf(states, c).isProcessing
    ensures Coherent(tasks, done, nextTask, pending, states[c := s])
  {
    var states' := states[c := s];
    forall d | Running(tasks, done, d)
      ensures StateOf(states', d).isProcessing
    {
      if d == c {
        assert StateOf(states, c).isProcessing;
      } else {
        assert StateOf(states', d) == StateOf(states, d);
      }
    }
  }

  /** A segment of a call whose flag was clear becomes a new job in its
      slot; whatever the slot held before had finished. */
  lemma CoherentAfterCreate(tasks: Registry, done: set<TaskId>, nextTask: nat, pending: map<TaskId, Job>,
                            states: map<CallId, CallState>, c: CallId, s: CallState, job: Job)
    requires Coherent(tasks, done, nextTask, pending, states)
    requires !StateOf(states, c).isProcessing && s.isProcessing && job.callId == c
    ensures Occupant(tasks, c, AudioProcess) <= done
    ensures Coherent(Install(tasks, c, AudioProcess, nextTask), done, nextTask + 1, pending[nextTask := job], states[c := s])
  {
    var tasks' := Install(tasks, c, AudioProcess, nextTask);
    var pending' := pending[nextTask := job];
    var states' := states[c := s];
    assert !Running(tasks, done, c);
    forall d, n | Lookup(tasks', d, n).Some?
      ensures n == AudioProcess && Lookup(tasks', d, n).value in pending' && pending'[Lookup(tasks', d, n).value].callId == d
    {
      if d != c || n != AudioProcess {
        assert Lookup(tasks', d, n) == Lookup(tasks, d, n);
      }
    }
    forall t | t in pending' && t !in done
      ensures Lookup(tasks', pending'[t].callId, AudioProcess) == Some(t)
    {
      if t != nextTask {
        assert Lookup(tasks, pending[t].callId, AudioProcess) == Some(t);
        assert pending[t].callId != c;
      }
    }
    forall d | Running(tasks', done, d)
      ensures StateOf(states', d).isProcessing
    {
      if d != c {
        assert Lookup(tasks', d, AudioProcess) == Lookup(tasks, d, AudioProcess);
        assert Running(tasks, done, d);
      }
    }
  }

  /** A job that finishes keeps the parts in agreement, whether or not its
      `finally` cleared its call's flag. */
  lemma CoherentAfterFinish(tasks: Registry, done: set<TaskId>, nextTask: nat, pending: map<TaskId, Job>,
                            states: map<CallId, CallState>, t: TaskId, states': map<CallId, CallState>)
    requires Coherent(tasks, done, nextTask, pending, states)
    requires t in pending && t !in done
    requires states' == states || states' == states[pending[t].callId := StateOf(states, pending[t].callId).(isProcessing := false)]
    ensures Coherent(tasks, done + {t}, nextTask, pending, states')
  {
    var c := pending[t].callId;
    forall d | Running(tasks, done + {t}, d)
      ensures StateOf(states', d).isProcessing
    {
      assert Running(tasks, done, d);
      if d == c {
        assert Lookup(tasks, c, AudioProcess) == Some(t);
      } else {
        assert StateOf(states', d) == StateOf(states, d);
      }
    }
  }

  /** Dropping a call whose tasks are all done keeps the parts in agreement. */
  lemma CoherentAfterCleanup(tasks: Registry, done: set<TaskId>, nextTask: nat, pending: map<TaskId, Job>,
                             states: map<CallId, CallState>, c: CallId)
    requires Coherent(tasks, done, nextTask, pending, states)
    ensures Coherent(tasks - {c}, done + SlotsOf(tasks, c).Values, nextTask, pending, states - {c})
  {
    var tasks' := tasks - {c};
    var done' := done + SlotsOf(tasks, c).Values;
    forall d, n | Lookup(tasks', d, n).Some?
      ensures n == AudioProcess && Lookup(tasks', d, n).value in pending && pending[Lookup(tasks', d, n).value].callId == d
    {
      assert Lookup(tasks', d, n) == Lookup(tasks, d, n);
    }
    forall t | t in pending && t !in done'
      ensures Lookup(tasks', pending[t].callId, AudioProcess) == Some(t)
    {
      var d := pending[t].callId;
      assert Lookup(tasks, d, AudioProcess) == Some(t);
      assert d == c ==> t in SlotsOf(tasks, c).Values;
    }
    forall d | Running(tasks', done', d)
      ensures StateOf(states - {c}, d).isProcessing
    {
      assert Lookup(tasks', d, AudioProcess) == Lookup(tasks, d, AudioProcess);
      assert Running(tasks, done, d);
    }
  }

  /** `AudioTaskHandler`. `sent` is every frame the bot has written, with its
      call; `pending` holds the coroutine of every task it created. */
  class AudioTaskHandler {
    const taskManager: TaskManager
    const audioProcessor: AudioProcessor
    const tts: EdgeTtsService
    const services: Services
    var sent: seq<(CallId, Outbound)>
    var pending: map<TaskId, Job>

    ghost predicate Valid()
      reads this, taskManager, audioProcessor, tts
    {
      && taskManager.Valid() && tts.Valid()
      && Coherent(taskManager.activeTasks, taskManager.done, taskManager.nextTask, pending, audioProcessor.callStates)
    }

    constructor (quiet: Bytes -> bool, peakBelow: Bytes -> bool, synthesize: Synthesizer, services: Services)
      ensures Valid()
      ensures fresh(taskManager) && fresh(audioProcessor) && fresh(tts)
      ensures audioProcessor.cfg == DefaultConfig(quiet, peakBelow) && audioProcessor.callStates == map[]
      ensures tts.CurrentSettings() == DefaultSettings && tts.audioCache == [] && tts.synthesize == synthesize
      ensures taskManager.activeTasks == map[] && this.services == services
      ensures sent == [] && pending == map[]
    {
      taskManager := new TaskManager();
      audioProcessor := new AudioProcessor(DefaultConfig(quiet, peakBelow));
      tts := new EdgeTtsService(DefaultSettings, synthesize);
      this.services := services;
      sent := [];
      pending := map[];
    }

    /** `on_receive`: JSON frames to the greeting logic, audio frames to the
        segment buffer; any other message type is ignored. */
    method OnReceive(callId: CallId, messageType: string, data: Payload)
      requires Valid()
      modifies this, taskManager, audioProcessor
      ensures Valid()
      ensures messageType == "json" ==>
        && sent == old(sent) + (if Greets(data) then [(callId, BotText(GreetingText))] else [])
        && unchanged(audioProcessor) && unchanged(taskManager) && pending == old(pending)
      ensures messageType != "json" && messageType != "audio" ==>
        unchanged(this) && unchanged(audioProcessor) && unchanged(taskManager)
      ensures messageType == "audio" ==> sent == old(sent) && taskManager.done == old(taskManager.done)
      ensures messageType == "audio" && !data.Binary? ==>
        && audioProcessor.callStates == old(audioProcessor.callStates)[callId := StateOf(old(audioProcessor.callStates), callId)]
        && unchanged(taskManager) && pending == old(pending)
      ensures messageType == "audio" && data.Binary? ==>
        var t := Step(audioProcessor.cfg, StateOf(old(audioProcessor.callStates), callId), data.bytes);
        && audioProcessor.callStates == old(audioProcessor.callStates)[callId := t.state]
        && (t.outcome.Ready? ==>
              && pending == old(pending)[old(taskManager.nextTask) := Job(callId, t.outcome.segment)]
              && taskManager.activeTasks == Install(old(taskManager.activeTasks), callId, AudioProcess, old(taskManager.nextTask))
              && taskManager.IsTaskRunning(callId, AudioProcess))
        && (!t.outcome.Ready? ==> pending == old(pending) && unchanged(taskManager))
    {
      if messageType == "json" {
        HandleJsonMessage(callId, data);
      } else if messageType == "audio" {
        if data.Binary? {
          HandleAudioMessage(callId, data.bytes);
        } else {
          // `get_call_state` creates the call's state; then either the flag
          // is set and the chunk is dropped, or the flag is clear and
          // `state['audio_buffer'].extend(audio_data)` raises on a string or a
          // dictionary, an error that is swallowed. The state is unchanged
          // either way.
          ghost var states := audioProcessor.callStates;
          var state := audioProcessor.GetCallState(callId);
          CoherentAfterChunk(taskManager.activeTasks, taskManager.done, taskManager.nextTask, pending, states, callId, state);
        }
      }
    }

    /** `_handle_json_message`. */
    method HandleJsonMessage(callId: CallId, data: Payload)
      requires Valid()
      modifies this
      ensures Valid()
      ensures sent == old(sent) + (if Greets(data) then [(callId, BotText(GreetingText))] else [])
      ensures pending == old(pending)
    {
      if Greets(data) {
        sent := sent + [(callId, BotText(GreetingText))];
      }
    }

    /** `_handle_audio_message`: the chunk goes through the segment buffer;
        a ready segment becomes a new "audio_process" task. Creating it never
        cancels a running reply: the call's flag was clear, so its previous
        task, if any, had finished. */
    method HandleAudioMessage(callId: CallId, audioData: Bytes)
      requires Valid()
      modifies this, taskManager, audioProcessor
      ensures Valid()
      ensures var t := Step(audioProcessor.cfg, StateOf(old(audioProcessor.callStates), callId), audioData);
        && audioProcessor.callStates == old(audioProcessor.callStates)[callId := t.state]
        && (t.outcome.Ready? ==>
              && pending == old(pending)[old(taskManager.nextTask) := Job(callId, t.outcome.segment)]
              && taskManager.activeTasks == Install(old(taskManager.activeTasks), callId, AudioProcess, old(taskManager.nextTask))
              && taskManager.IsTaskRunning(callId, AudioProcess))
        && (!t.outcome.Ready? ==> pending == old(pending) && unchanged(taskManager))
      ensures sent == old(sent)
      ensures taskManager.done == old(taskManager.done)
    {
      ghost var states := audioProcessor.callStates;
      ghost var step := Step(audioProcessor.cfg, StateOf(states, callId), audioData);
      var shouldTranscribe, bufferCopy := audioProcessor.ProcessAudioChunk(callId, audioData);
      if shouldTranscribe && bufferCopy.Some? && bufferCopy.value != [] {
        CoherentAfterCreate(taskManager.activeTasks, taskManager.done, taskManager.nextTask, pending, states, callId,
                            step.state, Job(callId, bufferCopy.value));
        var task := taskManager.CreateTask(callId, AudioProcess);
        pending := pending[task := Job(callId, bufferCopy.value)];
      } else {
        CoherentAfterChunk(taskManager.activeTasks, taskManager.done, taskManager.nextTask, pending, states, callId, step.state);
      }
    }

    /** The `if transcribed_text:` branch of the task, with the speech calls
        made through the service; the run has got past the numeric steps.
        Each halt is the point where the exception or the cancellation
        leaves the `try` block. */
    method Respond(text: string, pick: nat, stop: Stop) returns (out: seq<Outbound>)
      requires tts.Valid() && Passes(stop, Numeric)
      modifies tts`audioCache
      ensures tts.Valid()
      ensures UtteranceRun(out, tts.audioCache) == Reply(text, old(tts.audioCache), tts.CurrentSettings(), tts.synthesize, services.respond, pick, stop)
    {
      ghost var cache0 := tts.audioCache;
      ghost var settings := tts.CurrentSettings();
      ghost var wait := Speak(cache0, settings, WaitText(pick), true, tts.synthesize);
      ghost var reply := Speak(wait.cache, settings, services.respond(text), true, tts.synthesize);
      assert Reply(text, cache0, settings, tts.synthesize, services.respond, pick, stop)
          == ReplyOf(text, WaitText(pick), services.respond(text), cache0, wait, reply, stop);
      if StopsAt(stop, SendCancelAudio) {
        HaltAtCancelAudio(text, WaitText(pick), services.respond(text), cache0, wait, reply, stop);
        return Apology(stop);
      }
      out := [CancelAudio];
      if StopsAt(stop, SendTranscription) {
        HaltAtTranscription(text, WaitText(pick), services.respond(text), cache0, wait, reply, stop);
        return out + Apology(stop);
      }
      out := out + [TranscriptMessage(text)];
      if StopsAt(stop, WaitSpeech) {
        HaltAtWaitSpeech(text, WaitText(pick), services.respond(text), cache0, wait, reply, stop);
        return out + Apology(stop);
      }
      var waitText, waitAudio := tts.GetWaitMessageAudio(pick);
      assert TtsResult(waitAudio, tts.audioCache) == wait;
      if StopsAt(stop, SendWaitText) {
        HaltAtWaitText(text, WaitText(pick), services.respond(text), cache0, wait, reply, stop);
        return out + Apology(stop);
      }
      out := out + [BotText(waitText)];
      if waitAudio != [] {
        if StopsAt(stop, SendWaitAudio) {
          HaltAtWaitAudio(text, WaitText(pick), services.respond(text), cache0, wait, reply, stop);
          return out + Apology(stop);
        }
        out := out + [Audio(waitAudio)];
      }
      out := Answer(text, pick, stop, out, cache0, wait);
    }

    /** The rest of the `try` block once the wait message is out: the query,
        the response text, its speech and its audio. */
    method Answer(text: string, pick: nat, stop: Stop, acknowledged: seq<Outbound>, ghost cache0: Cache, ghost wait: TtsResult)
      returns (out: seq<Outbound>)
      requires tts.Valid() && tts.audioCache == wait.cache
      requires acknowledged == [CancelAudio] + [TranscriptMessage(text)] + [BotText(WaitText(pick))]
        + (if wait.audio != [] then [Audio(wait.audio)] else [])
      requires Passes(stop, SendWaitAudio) || (StopsAt(stop, SendWaitAudio) && wait.audio == [])
      modifies tts`audioCache
      ensures tts.Valid()
      ensures UtteranceRun(out, tts.audioCache)
        == ReplyOf(text, WaitText(pick), services.respond(text), cache0, wait,
                   Speak(wait.cache, tts.CurrentSettings(), services.respond(text), true, tts.synthesize), stop)
    {
      ghost var reply := Speak(wait.cache, tts.CurrentSettings(), services.respond(text), true, tts.synthesize);
      out := acknowledged;
      if StopsAt(stop, Query) {
        HaltAtQuery(text, WaitText(pick), services.respond(text), cache0, wait, reply, stop);
        return out + Apology(stop);
      }
      var response := services.respond(text);
      if StopsAt(stop, SendResponse) {
        HaltAtQuery(text, WaitText(pick), services.respond(text), cache0, wait, reply, stop);
        return out + Apology(stop);
      }
      out := out + [BotText(response)];
      if StopsAt(stop, ResponseSpeech) {
        HaltAtResponseSpeech(text, WaitText(pick), services.respond(text), cache0, wait, reply, stop);
        return out + Apology(stop);
      }
      var replyAudio := tts.TextToAudioBytes(response, true);
      assert TtsResult(replyAudio, tts.audioCache) == reply;
      if replyAudio != [] {
        if StopsAt(stop, SendResponseAudio) {
          HaltAtResponseAudio(text, WaitText(pick), services.respond(text), cache0, wait, reply, stop);
          return out + Apology(stop);
        }
        out := out + [Audio(replyAudio)];
      }
      RunsToTheEnd(text, WaitText(pick), services.respond(text), cache0, wait, reply, stop);
    }

    /** The `try` block of the task on `segment`, from its start to `stop`:
        what it sends and how it leaves the speech cache. */
    method Utter(segment: Bytes, pick: nat, stop: Stop) returns (out: seq<Outbound>)
      requires tts.Valid() && ValidStop(stop)
      modifies tts`audioCache
      ensures tts.Valid()
      ensures UtteranceRun(out, tts.audioCache)
        == Utterance(segment, old(tts.audioCache), tts.CurrentSettings(), tts.synthesize, services, pick, stop)
    {
      out := [];
      if stop == Cancelled(Start) {
        // the coroutine never ran: no message and no `finally`
      } else if StopsAt(stop, Numeric) {
        out := Apology(stop);
      } else {
        var transcribedText, isEmpty := TranscribeAudio(services.whisper(segment));
        var isSilence := IsSilenceDetected(transcribedText, services.audioIsSilent(segment));
        if !isSilence && transcribedText != "" {
          out := Respond(transcribedText, pick, stop);
        }
      }
    }

    /** The task of `pending[t]` running from its start to `stop`; the
        `finally` releases the call, and the task is done. */
    method Execute(t: TaskId, pick: nat, stop: Stop)
      requires Valid() && ValidStop(stop)
      requires t in pending && t !in taskManager.done
      modifies this, taskManager`done, audioProcessor, tts`audioCache
      ensures Valid()
      ensures var job := old(pending[t]);
        var run := Utterance(job.segment, old(tts.audioCache), tts.CurrentSettings(), tts.synthesize, services, pick, stop);
        && sent == old(sent) + Tagged(job.callId, run.sent)
        && tts.audioCache == run.cache
        && audioProcessor.callStates == (if FinallyRuns(stop)
             then old(audioProcessor.callStates)[job.callId := StateOf(old(audioProcessor.callStates), job.callId).(isProcessing := false)]
             else old(audioProcessor.callStates))
      ensures taskManager.done == old(taskManager.done) + {t}
      ensures pending == old(pending)
    {
      var job := pending[t];
      ghost var states := audioProcessor.callStates;
      var out := Utter(job.segment, pick, stop);
      if FinallyRuns(stop) {
        audioProcessor.FinishProcessing(job.callId);
      }
      CoherentAfterFinish(taskManager.activeTasks, taskManager.done, taskManager.nextTask, pending, states, t, audioProcessor.callStates);
      taskManager.TaskFinished(t);
      sent := sent + Tagged(job.callId, out);
    }

    /** The event loop runs task `t` of this handler; `pick` is the wait
        message `random.choice` draws. A task that is unknown or already
        done is left alone. */
    method RunUtterance(t: TaskId, pick: nat, stop: Stop)
      requires Valid() && ValidStop(stop) && !stop.Cancelled?
      modifies this, taskManager`done, audioProcessor, tts`audioCache
      ensures Valid()
      ensures t !in old(pending) || t in old(taskManager.done) ==>
        unchanged(this) && unchanged(taskManager) && unchanged(audioProcessor) && unchanged(tts)
      ensures t in old(pending) && t !in old(taskManager.done) ==>
        var job := old(pending[t]);
        var run := Utterance(job.segment, old(tts.audioCache), tts.CurrentSettings(), tts.synthesize, services, pick, stop);
        && sent == old(sent) + Tagged(job.callId, run.sent)
        && tts.audioCache == run.cache
        && audioProcessor.callStates ==
             old(audioProcessor.callStates)[job.callId := StateOf(old(audioProcessor.callStates), job.callId).(isProcessing := false)]
        && taskManager.done == old(taskManager.done) + {t}
        // the call accepts the next segment again
        && !taskManager.IsTaskRunning(job.callId, AudioProcess)
        && !StateOf(audioProcessor.callStates, job.callId).isProcessing
    {
      if t in pending && t !in taskManager.done {
        Execute(t, pick, stop);
      }
    }

    /** The cancellation of `cleanup_call` reaching the call's running task,
        if any, which has run up to stage `at`: only that call's frames are
        sent and only its flag is released. */
    method CancelRunningTask(callId: CallId, pick: nat, at: Stage)
      requires Valid() && CanBeCancelledAt(at)
      modifies this, taskManager`done, audioProcessor, tts`audioCache
      ensures Valid()
      ensures taskManager.activeTasks == old(taskManager.activeTasks)
      ensures forall c :: c != callId ==> StateOf(audioProcessor.callStates, c) == StateOf(old(audioProcessor.callStates), c)
      ensures old(sent) <= sent
      ensures forall i :: |old(sent)| <= i < |sent| ==> sent[i].0 == callId
      ensures pending == old(pending)
    {
      if taskManager.IsTaskRunning(callId, AudioProcess) {
        var t := taskManager.activeTasks[callId][AudioProcess];
        assert Lookup(taskManager.activeTasks, callId, AudioProcess) == Some(t);
        assert pending[t].callId == callId;
        Execute(t, pick, Cancelled(at));
      }
    }

    /** `cleanup_call`: the call's running task, if any, is cancelled at
        stage `at` (what it sent by then stays sent), every task of the call
        is cancelled and awaited, and the call's buffer is dropped. */
    method CleanupCall(callId: CallId, pick: nat, at: Stage)
      requires Valid() && CanBeCancelledAt(at)
      modifies this, taskManager, audioProcessor, tts`audioCache
      ensures Valid()
      ensures callId !in taskManager.activeTasks && callId !in audioProcessor.callStates
      ensures forall c :: c != callId ==> StateOf(audioProcessor.callStates, c) == StateOf(old(audioProcessor.callStates), c)
      ensures forall c, n :: c != callId ==> Lookup(taskManager.activeTasks, c, n) == Lookup(old(taskManager.activeTasks), c, n)
      ensures old(sent) <= sent
      ensures forall i :: |old(sent)| <= i < |sent| ==> sent[i].0 == callId
      ensures pending == old(pending)
    {
      CancelRunningTask(callId, pick, at);
      CoherentAfterCleanup(taskManager.activeTasks, taskManager.done, taskManager.nextTask, pending, audioProcessor.callStates, callId);
      taskManager.CleanupCall(callId);
      audioProcessor.CleanupCallState(callId);
    }

    /** `preload_tts_cache`. */
    method PreloadTtsCache()
      requires Valid()
      modifies tts`audioCache
      ensures Valid()
      ensures tts.audioCache == Preloaded(old(tts.audioCache), tts.CurrentSettings(), WaitMessages, tts.synthesize)
    {
      tts.PreloadWaitMessages();
    }
  }
}
