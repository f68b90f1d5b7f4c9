/** The transcript assembly of bot/transcription/transcriber.py. The speech
    recogniser itself is a parameter: what it yields for a segment is only
    the text of each recognised piece, or a failure. */
module Transcription {
  import opened Common

  /** What `sf.write` followed by `model.transcribe` and the iteration over
      its lazy segment generator yield: the texts of the segments, or an
      exception raised anywhere along the way. */
  datatype WhisperOutcome = Segments(texts: seq<string>) | WhisperFailed

  /** The stripped texts of the non-blank segments, in order. */
  function Parts(texts: seq<string>): (r: seq<string>)
    ensures |r| <= |texts|
    ensures forall i :: 0 <= i < |r| ==> r[i] != "" && Trimmed(r[i])
    ensures r == [] <==> forall i :: 0 <= i < |texts| ==> Blank(texts[i])
  {
    if texts == [] then []
    else
      var init := texts[..|texts| - 1];
      var p := Parts(init);
      var t := Strip(texts[|texts| - 1]);
      assert forall i :: 0 <= i < |init| ==> init[i] == texts[i];
      if t != "" then p + [t] else p
  }

  /** `" ".join(parts)`; for pieces that are non-empty and trimmed the
      result is trimmed, and empty only when there are no pieces. */
  function Join(parts: seq<string>): (r: string)
    ensures |parts| == 1 ==> r == parts[0]
    ensures (forall i :: 0 <= i < |parts| ==> parts[i] != "" && Trimmed(parts[i])) ==>
      Trimmed(r) && (r == "" <==> parts == [])
  {
    if parts == [] then ""
    else if |parts| == 1 then parts[0]
    else
      var init := parts[..|parts| - 1];
      assert forall i :: 0 <= i < |init| ==> init[i] == parts[i];
      Join(init) + " " + parts[|parts| - 1]
  }

  /** The text `transcribe_audio` returns for an outcome: empty on failure,
      otherwise the non-blank pieces joined by single spaces. It never starts
      or ends with whitespace, and it is empty exactly when nothing but
      whitespace was recognised. */
  function Transcript(outcome: WhisperOutcome): (r: string)
    ensures Trimmed(r)
    ensures r == "" <==> outcome.WhisperFailed? || forall i :: 0 <= i < |outcome.texts| ==> Blank(outcome.texts[i])
  {
    match outcome
    case WhisperFailed => ""
    case Segments(texts) => Join(Parts(texts))
  }

  /** `transcribe_audio`: the transcript and whether it is empty. */
  method TranscribeAudio(outcome: WhisperOutcome) returns (transcribedText: string, isEmpty: bool)
    ensures transcribedText == Transcript(outcome)
    ensures isEmpty <==> transcribedText == ""
    ensures outcome.WhisperFailed? ==> transcribedText == "" && isEmpty
  {
    if outcome.WhisperFailed? {
      return "", true;
    }
    var segments := outcome.texts;
    var textParts: seq<string> := [];
    var i := 0;
    while i < |segments|
      invariant 0 <= i <= |segments|
      invariant textParts == Parts(segments[..i])
    {
      assert segments[..i + 1][..i] == segments[..i];
      var stripped := Strip(segments[i]);
      if stripped != "" {
        textParts := textParts + [stripped];
      }
      i := i + 1;
    }
    assert segments[..i] == segments;
    transcribedText := Join(textParts);
    isEmpty := |Strip(transcribedText)| == 0;
    if transcribedText != "" {
      assert !IsSpace(transcribedText[0]);
    }
  }

  /** `is_silence_detected`: the text is blank and the audio's peak is
      under the threshold (`audioIsSilent`, the numeric comparison). */
  function IsSilenceDetected(transcribedText: string, audioIsSilent: bool): (r: bool)
    ensures r <==> Blank(transcribedText) && audioIsSilent
  {
    |Strip(transcribedText)| == 0 && audioIsSilent
  }

  /** On a transcript, silence means an empty text and quiet audio. */
  lemma SilenceOfTranscript(outcome: WhisperOutcome, audioIsSilent: bool)
    ensures IsSilenceDetected(Transcript(outcome), audioIsSilent) <==> Transcript(outcome) == "" && audioIsSilent
  {
    var text := Transcript(outcome);
    if text != "" {
      assert !IsSpace(text[0]);
    }
  }
}
