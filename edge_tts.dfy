/** The speech synthesis front end of bot/text_to_audio/edge_tts.py: a
    cache of synthesised audio keyed by stripped text, in insertion order,
    in front of the Edge TTS streaming service, which is a parameter. */
module EdgeTts {
  import opened Common

  /** The voice settings sent with every request. */
  datatype Settings = Settings(voice: string, rate: string, pitch: string)

  const DefaultSettings: Settings := Settings("en-US-AriaNeural", "+0%", "+0Hz")

  /** The six wait messages, in the order the service lists them. */
  const WaitMessages: seq<string> := [
    "Just a sec.",
    "Uhmm give me a sec",
    "Please be on line",
    "Let me think about that",
    "One moment please",
    "Processing your request"
  ]

  /** One item of `communicate.stream()`: its `"type"` and its `"data"`. */
  datatype StreamChunk = StreamChunk(kind: string, data: Bytes)

  /** The stream the service delivers for a request, or an exception raised
      while opening or reading it. */
  datatype SynthOutcome = Streamed(chunks: seq<StreamChunk>) | SynthFailed

  datatype SynthRequest = SynthRequest(text: string, settings: Settings)

  /** The Edge TTS service. */
  type Synthesizer = SynthRequest -> SynthOutcome

  /** One entry of `audio_cache`. */
  datatype Entry = Entry(text: string, audio: Bytes)

  /** `audio_cache`, as the dictionary's entries in insertion order. */
  type Cache = seq<Entry>

  /** The cache's keys, in insertion order. */
  function Keys(cache: Cache): (r: seq<string>)
    ensures |r| == |cache|
    ensures forall i :: 0 <= i < |cache| ==> r[i] == cache[i].text
  {
    if cache == [] then [] else Keys(cache[..|cache| - 1]) + [cache[|cache| - 1].text]
  }

  /** A dictionary holds each key once. */
  predicate DistinctKeys(cache: Cache) {
    forall i, j :: 0 <= i < j < |cache| ==> cache[i].text != cache[j].text
  }

  /** `cache[text]`, when present. */
  function Find(cache: Cache, text: string): (r: Option<Bytes>)
    ensures r.None? <==> forall i :: 0 <= i < |cache| ==> cache[i].text != text
    ensures r.Some? ==> exists i :: 0 <= i < |cache| && cache[i] == Entry(text, r.value)
  {
    if cache == [] then None
    else if cache[|cache| - 1].text == text then Some(cache[|cache| - 1].audio)
    else
      var init := cache[..|cache| - 1];
      var r := Find(init, text);
      assert forall i :: 0 <= i < |init| ==> init[i] == cache[i];
      r
  }

  /** `sum(len(audio) for audio in cache.values())`. */
  function TotalBytes(cache: Cache): (r: nat)
    ensures (forall i :: 0 <= i < |cache| ==> cache[i].audio != []) ==> r >= |cache|
    // adding an entry adds its audio
    ensures cache != [] ==> r == TotalBytes(cache[..|cache| - 1]) + |cache[|cache| - 1].audio|
  {
    if cache == [] then 0
    else
      var init := cache[..|cache| - 1];
      assert forall i :: 0 <= i < |init| ==> init[i] == cache[i];
      TotalBytes(init) + |cache[|cache| - 1].audio|
  }

  /** The concatenation of the data of the stream's `"audio"` chunks; the
      other kinds (word boundaries) contribute nothing. */
  function AudioOf(chunks: seq<StreamChunk>): (r: Bytes)
    ensures r == [] <==> forall i :: 0 <= i < |chunks| ==> chunks[i].kind != "audio" || chunks[i].data == []
  {
    if chunks == [] then []
    else
      var init := chunks[..|chunks| - 1];
      var last := chunks[|chunks| - 1];
      assert forall i :: 0 <= i < |init| ==> init[i] == chunks[i];
      AudioOf(init) + (if last.kind == "audio" then last.data else [])
  }

  /** The audio one synthesis of `text` yields; empty when the service
      fails or streams no audio. */
  function Synthesized(synthesize: Synthesizer, text: string, settings: Settings): Bytes {
    match synthesize(SynthRequest(text, settings))
    case SynthFailed => []
    case Streamed(chunks) => AudioOf(chunks)
  }

  /** What the cache stores: stripped, non-blank keys, each once, with
      non-empty audio. */
  predicate GoodCache(cache: Cache) {
    && DistinctKeys(cache)
    && forall i :: 0 <= i < |cache| ==> cache[i].text != "" && Trimmed(cache[i].text) && cache[i].audio != []
  }

  datatype TtsResult = TtsResult(audio: Bytes, cache: Cache)

  /** `text_to_audio_bytes` once the text is known to be stripped and not
      blank: the cache, then the service. */
  function SpeakStripped(cache: Cache, settings: Settings, key: string, useCache: bool, synthesize: Synthesizer): (r: TtsResult)
    // a hit answers from the cache, whatever the settings
    ensures useCache && Find(cache, key).Some? ==> r == TtsResult(Find(cache, key).value, cache)
    // otherwise the text is synthesised with the current settings
    ensures !(useCache && Find(cache, key).Some?) ==> r.audio == Synthesized(synthesize, key, settings)
    // the cache is only ever extended, by the new text, when audio came back and caching was asked for
    ensures r.cache == cache || (useCache && r.audio != [] && Find(cache, key).None? && r.cache == cache + [Entry(key, r.audio)])
  {
    if useCache && Find(cache, key).Some? then TtsResult(Find(cache, key).value, cache)
    else
      var audio := Synthesized(synthesize, key, settings);
      if audio == [] then TtsResult([], cache)
      else if useCache then TtsResult(audio, cache + [Entry(key, audio)])
      else TtsResult(audio, cache)
  }

  /** One call of `text_to_audio_bytes` against a cache and settings: the
      text is stripped, and what is left is looked up and synthesised. */
  function Speak(cache: Cache, settings: Settings, text: string, useCache: bool, synthesize: Synthesizer): (r: TtsResult)
    // blank text is not spoken
    ensures Strip(text) == "" ==> r == TtsResult([], cache)
    // the stripped text is the key: a hit answers from the cache, a miss asks the service
    ensures Strip(text) != "" && useCache && Find(cache, Strip(text)).Some? ==>
      r == TtsResult(Find(cache, Strip(text)).value, cache)
    ensures Strip(text) != "" && !(useCache && Find(cache, Strip(text)).Some?) ==>
      r.audio == Synthesized(synthesize, Strip(text), settings)
    // the cache grows by at most the stripped text with the audio returned for it
    ensures r.cache == cache || r.cache == cache + [Entry(Strip(text), r.audio)]
  {
    var key := Strip(text);
    if key == "" then TtsResult([], cache)
    else SpeakStripped(cache, settings, key, useCache, synthesize)
  }

  /** Blank text yields no audio and leaves the cache alone, whatever the
      settings, the service or the caching flag. */
  lemma BlankTextIsSilent(cache: Cache, settings: Settings, text: string, useCache: bool, synthesize: Synthesizer)
    ensures Blank(text) <==> Strip(text) == ""
    ensures Blank(text) ==> Speak(cache, settings, text, useCache, synthesize) == TtsResult([], cache)
  {
  }

  /** A call keeps the cache's invariant. */
  lemma SpeakKeepsGoodCache(cache: Cache, settings: Settings, text: string, useCache: bool, synthesize: Synthesizer)
    requires GoodCache(cache)
    ensures GoodCache(Speak(cache, settings, text, useCache, synthesize).cache)
  {
    var r := Speak(cache, settings, text, useCache, synthesize);
    if r.cache != cache {
      var key := Strip(text);
      assert forall i :: 0 <= i < |cache| ==> r.cache[i] == cache[i];
      assert r.cache[|cache|] == Entry(key, r.audio);
    }
  }

  /** Text that differs only in surrounding whitespace shares one entry. */
  lemma SpeakIgnoresSurroundingSpace(cache: Cache, settings: Settings, text: string, useCache: bool, synthesize: Synthesizer)
    ensures Speak(cache, settings, text, useCache, synthesize) == Speak(cache, settings, Strip(text), useCache, synthesize)
  {
    StripTrimmed(Strip(text));
  }

  lemma FindLast(cache: Cache, text: string, audio: Bytes)
    requires Find(cache, text).None?
    ensures Find(cache + [Entry(text, audio)], text) == Some(audio)
  {
    var c := cache + [Entry(text, audio)];
    assert c[|c| - 1] == Entry(text, audio);
  }

  /** Once a text is answered with audio and cached, asking again returns the
      same audio from the cache, whatever the settings or the service do by
      then. */
  lemma RepeatIsCacheHit(cache: Cache, settings: Settings, settings': Settings, text: string,
                         synthesize: Synthesizer, synthesize': Synthesizer)
    requires Speak(cache, settings, text, true, synthesize).audio != []
    ensures var first := Speak(cache, settings, text, true, synthesize);
      Speak(first.cache, settings', text, true, synthesize') == first
  {
    var first := Speak(cache, settings, text, true, synthesize);
    var key := Strip(text);
    if Find(cache, key).None? {
      FindLast(cache, key, first.audio);
    }
  }

  /** The cache after `preload_wait_messages` has spoken each of `texts`. */
  function Preloaded(cache: Cache, settings: Settings, texts: seq<string>, synthesize: Synthesizer): Cache
    decreases |texts|
  {
    if texts == [] then cache
    else Preloaded(Speak(cache, settings, texts[0], true, synthesize).cache, settings, texts[1..], synthesize)
  }

  /** Preloading from the `i`-th text on speaks that text first. */
  lemma PreloadedStep(cache: Cache, settings: Settings, texts: seq<string>, i: nat, synthesize: Synthesizer)
    requires i < |texts|
    ensures forall c: Cache {:trigger Preloaded(c, settings, texts[i..], synthesize)} ::
      Preloaded(c, settings, texts[i..], synthesize)
      == Preloaded(Speak(c, settings, texts[i], true, synthesize).cache, settings, texts[i + 1..], synthesize)
  {
    assert texts[i..][1..] == texts[i + 1..];
  }

  lemma SpeakKeepsEntries(cache: Cache, settings: Settings, text: string, useCache: bool, synthesize: Synthesizer, key: string)
    requires Find(cache, key).Some?
    ensures Find(Speak(cache, settings, text, useCache, synthesize).cache, key) == Find(cache, key)
  {
    var r := Speak(cache, settings, text, useCache, synthesize);
    if r.cache != cache {
      assert Strip(text) != key;
      assert r.cache[..|cache|] == cache;
    }
  }

  lemma {:induction false} PreloadKeeps(cache: Cache, settings: Settings, texts: seq<string>, synthesize: Synthesizer, key: string)
    requires Find(cache, key).Some?
    ensures Find(Preloaded(cache, settings, texts, synthesize), key) == Find(cache, key)
    decreases |texts|
  {
    if texts != [] {
      var next := Speak(cache, settings, texts[0], true, synthesize).cache;
      SpeakKeepsEntries(cache, settings, texts[0], true, synthesize, key);
      PreloadKeeps(next, settings, texts[1..], synthesize, key);
    }
  }

  /** After preloading, every non-blank text is served from the cache unless
      its synthesis produced no audio. */
  lemma {:induction false} PreloadedAreCached(cache: Cache, settings: Settings, texts: seq<string>, synthesize: Synthesizer, i: nat)
    requires i < |texts| && !Blank(texts[i])
    ensures Find(Preloaded(cache, settings, texts, synthesize), Strip(texts[i])).Some? ||
            (Find(cache, Strip(texts[i])).None? && Synthesized(synthesize, Strip(texts[i]), settings) == [])
    decreases |texts|
  {
    var first := Speak(cache, settings, texts[0], true, synthesize);
    if i == 0 {
      var key := Strip(texts[0]);
      if first.cache != cache {
        FindLast(cache, key, first.audio);
      }
      if Find(first.cache, key).Some? {
        PreloadKeeps(first.cache, settings, texts[1..], synthesize, key);
      }
    } else {
      PreloadedAreCached(first.cache, settings, texts[1..], synthesize, i - 1);
      var key := Strip(texts[i]);
      if Find(cache, key).Some? {
        SpeakKeepsEntries(cache, settings, texts[0], true, synthesize, key);
        PreloadKeeps(first.cache, settings, texts[1..], synthesize, key);
      } else if first.cache != cache && Find(first.cache, key).Some? {
        PreloadKeeps(first.cache, settings, texts[1..], synthesize, key);
      }
    }
  }

  /** The `async for` over the stream in `text_to_audio_bytes`: the data of
      the `"audio"` chunks, appended in order. */
  method CollectAudio(chunks: seq<StreamChunk>) returns (audioBytes: Bytes)
    ensures audioBytes == AudioOf(chunks)
  {
    audioBytes := [];
    var i := 0;
    while i < |chunks|
      invariant 0 <= i <= |chunks|
      invariant audioBytes == AudioOf(chunks[..i])
    {
      assert chunks[..i + 1][..i] == chunks[..i];
      if chunks[i].kind == "audio" {
        audioBytes := audioBytes + chunks[i].data;
      }
      i := i + 1;
    }
    assert chunks[..i] == chunks;
  }

  /** `get_cache_info()`. */
  datatype CacheInfo = CacheInfo(cacheSize: nat, cachedTexts: seq<string>, totalBytes: nat)

  /** `EdgeTTSService`. */
  class EdgeTtsService {
    var voice: string
    var rate: string
    var pitch: string
    var audioCache: Cache
    /** The Edge TTS service behind `edge_tts.Communicate(...).stream()`. */
    const synthesize: Synthesizer

    ghost predicate Valid()
      reads this`audioCache
    {
      GoodCache(audioCache)
    }

    function CurrentSettings(): Settings
      reads this`voice, this`rate, this`pitch
    {
      Settings(voice, rate, pitch)
    }

    constructor (settings: Settings, synthesize: Synthesizer)
      ensures Valid()
      ensures CurrentSettings() == settings && audioCache == [] && this.synthesize == synthesize
    {
      voice := settings.voice;
      rate := settings.rate;
      pitch := settings.pitch;
      audioCache := [];
      this.synthesize := synthesize;
    }

    /** `text_to_audio_bytes`. */
    method TextToAudioBytes(text: string, useCache: bool) returns (audio: Bytes)
      requires Valid()
      modifies this`audioCache
      ensures Valid()
      ensures TtsResult(audio, audioCache) == Speak(old(audioCache), CurrentSettings(), text, useCache, synthesize)
    {
      SpeakKeepsGoodCache(audioCache, CurrentSettings(), text, useCache, synthesize);
      if text == "" || Strip(text) == "" {
        return [];
      }
      var key := Strip(text);
      var cached := Find(audioCache, key);
      if useCache && cached.Some? {
        return cached.value;
      }
      var outcome := synthesize(SynthRequest(key, CurrentSettings()));
      if outcome.SynthFailed? {
        return [];
      }
      var audioBytes := CollectAudio(outcome.chunks);
      assert audioBytes == Synthesized(synthesize, key, CurrentSettings());
      if audioBytes == [] {
        return [];
      }
      if useCache {
        audioCache := audioCache + [Entry(key, audioBytes)];
      }
      return audioBytes;
    }

    /** `get_wait_message_audio`; `pick` is the outcome of `random.choice`. */
    method GetWaitMessageAudio(pick: nat) returns (waitText: string, audio: Bytes)
      requires Valid()
      modifies this`audioCache
      ensures Valid()
      ensures waitText == WaitMessages[pick % |WaitMessages|]
      ensures TtsResult(audio, audioCache) == Speak(old(audioCache), CurrentSettings(), waitText, true, synthesize)
    {
      waitText := WaitMessages[pick % |WaitMessages|];
      audio := TextToAudioBytes(waitText, true);
    }

    /** `preload_wait_messages`. */
    method PreloadWaitMessages()
      requires Valid()
      modifies this`audioCache
      ensures Valid()
      ensures audioCache == Preloaded(old(audioCache), CurrentSettings(), WaitMessages, synthesize)
    {
      var i := 0;
      while i < |WaitMessages|
        invariant 0 <= i <= |WaitMessages| && Valid()
        invariant Preloaded(old(audioCache), CurrentSettings(), WaitMessages, synthesize)
               == Preloaded(audioCache, CurrentSettings(), WaitMessages[i..], synthesize)
      {
        SpeakKeepsGoodCache(audioCache, CurrentSettings(), WaitMessages[i], true, synthesize);
        var _ := TextToAudioBytes(WaitMessages[i], true);
        PreloadedStep(old(audioCache), CurrentSettings(), WaitMessages, i, synthesize);
        i := i + 1;
      }
    }

    /** `clear_cache`. */
    method ClearCache()
      requires Valid()
      modifies this`audioCache
      ensures Valid()
      ensures audioCache == []
    {
      audioCache := [];
    }

    /** `get_cache_info`: as many texts as entries, each once and in insertion
        order, and the sum of the lengths of the cached audio, at least one
        byte per entry. */
    function GetCacheInfo(): (info: CacheInfo)
      reads this
      ensures info.cacheSize == |info.cachedTexts| == |audioCache|
      ensures forall i :: 0 <= i < |audioCache| ==> info.cachedTexts[i] == audioCache[i].text
      ensures info.totalBytes == TotalBytes(audioCache)
      ensures Valid() ==> info.totalBytes >= info.cacheSize
      ensures Valid() ==> forall i, j :: 0 <= i < j < |info.cachedTexts| ==> info.cachedTexts[i] != info.cachedTexts[j]
    {
      CacheInfo(|audioCache|, Keys(audioCache), TotalBytes(audioCache))
    }

    /** `set_voice_settings`: an argument that is missing or empty leaves its
        setting as it was. */
    method SetVoiceSettings(voice: Option<string>, rate: Option<string>, pitch: Option<string>)
      requires Valid()
      modifies this`voice, this`rate, this`pitch
      ensures Valid()
      ensures this.voice == if voice.Some? && voice.value != "" then voice.value else old(this.voice)
      ensures this.rate == if rate.Some? && rate.value != "" then rate.value else old(this.rate)
      ensures this.pitch == if pitch.Some? && pitch.value != "" then pitch.value else old(this.pitch)
    {
      if voice.Some? && voice.value != "" {
        this.voice := voice.value;
      }
      if rate.Some? && rate.value != "" {
        this.rate := rate.value;
      }
      if pitch.Some? && pitch.value != "" {
        this.pitch := pitch.value;
      }
    }
  }
}
