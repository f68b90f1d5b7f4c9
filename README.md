# IVA voice bot and room relay, modelled in Dafny

The system is a voice assistant that sits in a call. It has two parts.

- **The bot (Python).** Clients stream 16-bit PCM audio to it. `AudioProcessor` buffers the audio of each call until it has seen enough trailing silence after enough audio. The buffer is then either thrown away as noise or handed out as one utterance. The bot runs each utterance as an asyncio task named "audio_process", registered in a per-call `TaskManager`. The task:
  1. transcribes the utterance (Whisper);
  2. tells the clients to stop playback and sends the transcript;
  3. speaks a wait message;
  4. asks the query engine for an answer and sends its text and its speech (Edge TTS, with a cache of synthesised audio).
- **The relay (Go, `server/main.go`).** It keeps rooms of users and agents. It routes text messages by type: broadcast, selective, agent-only, user-only or metadata. Binary audio crosses from users to agents and back. A small registry of relay servers hands one of them out at random.

## How the model is built

- Each Python or Go class whose fields change becomes a Dafny `class` with those fields. Its methods carry `modifies` clauses, and each is proved against a specification function of the old state.
- `AudioProcessor.process_audio_chunk` is `Step` on one call's state. A sequence of chunks and task ends is `Run`.
- The task's whole run is `Utterance`. Where the run ends is a parameter, a `Stop`: it completes, it fails at a stage (its apology may or may not get through), or it is cancelled at a stage. The handler class `AudioTaskHandler` runs a task to a chosen `Stop`. Its invariant `Coherent` ties the three parts together:
  - every registered task is a job of the handler, in its call's slot;
  - a job that has not finished is its call's occupant;
  - a running job holds its call's processing flag.
- The relay's room table is a `map` of `Room` values inside a `Hub`. A client is a Dafny object, because the relay compares `*Client` pointers.
  - A routing decision is a sequence of *waves*, each a set of recipients. Go ranges over maps in no fixed order, so only the order between waves is fixed.
  - `Joined` and `Left` are the room table after `addClientToRoom` and `removeClientFromRoom`.

### Behaviour of the code that is easy to miss

- **A new segment never pre-empts a reply in progress.** One might expect `create_task` to cancel the running reply when a new utterance is ready. The code cannot: the processing flag of the call is set for as long as the reply runs, so `process_audio_chunk` drops every chunk until the task's `finally` clears it. `CoherentAfterCreate` proves that whatever the "audio_process" slot holds when a new task is created has already finished.
- **A ragged chunk blocks the call.** A chunk of odd length is appended to the buffer before it is decoded. From then on the whole buffer never decodes as int16, so no segment is ever handed out again while chunks are well-formed (`MisalignedBufferIsStuck`).
- **Removal goes by id.** The relay removes a client by its id, not by pointer. When an older connection with the same id and type disconnects after a newer one replaced it, the newer client drops out of the room although it is still connected (`LeaveEvictsNamesake`).
- **Selective sends.** A selective send reaches the listed ids, the sender included, once per listing (`TargetedReachesListed`, `TargetedAppend`). An empty list is a broadcast.

## Model

| member | source | states |
|---|---|---|
| AudioProcessing.DefaultConfig | bot/audio/audio_processor.py:9-14 | With the constructor defaults the length gate passes exactly above 64000 bytes and the silence gate exactly from 72000 input samples (1.5 s at 48 kHz); the input rate is non-zero |
| AudioProcessing.Step | bot/audio/audio_processor.py:54-122 | While a segment is in flight the chunk is dropped and nothing changes. Otherwise the chunk is appended. The buffer ends exactly when the silence and length gates pass and chunk and buffer both decode. An ended buffer includes the chunk that ended it. Noise resets the call to idle. A segment is non-empty, handed out whole, and leaves an empty buffer with the processing flag set |
| AudioProcessing.Conservation | bot/audio/audio_processor.py:62-116 | Over any sequence of chunks and task ends, the ended buffers followed by the current buffer are exactly the initial buffer followed by every accepted chunk, in arrival order: no byte is lost or duplicated |
| AudioProcessing.StepConserves | bot/audio/audio_processor.py:66-116 | One call keeps that balance: the buffer it ends, plus the new buffer, is the old buffer plus the accepted chunk |
| AudioProcessing.OneSegmentInFlight | bot/audio/audio_processor.py:62-128 | At most one segment is handed out per `finish_processing`, plus one if the call starts idle |
| AudioProcessing.DroppedWhileProcessing | bot/audio/audio_processor.py:62-66 | While a segment is in flight and its task has not finished, the call ignores all input: same state, nothing ended |
| AudioProcessing.ShortAudioIsKept | bot/audio/audio_processor.py:91-95 | Audio that never reaches the minimum length is never ended, however much silence it holds; all of it stays buffered, in order |
| AudioProcessing.MisalignedStep | bot/audio/audio_processor.py:66-98 | A whole-sample chunk on a buffer of odd length is kept, and the buffer stays of odd length |
| AudioProcessing.MisalignedBufferIsStuck | bot/audio/audio_processor.py:66-122 | Once the buffer has odd length, well-formed chunks are only ever appended: nothing is discarded or handed out again |
| AudioProcessing.AudioProcessor.constructor | bot/audio/audio_processor.py:9-31 | Starts with the given configuration and no call state |
| AudioProcessing.AudioProcessor.InitializeCallState | bot/audio/audio_processor.py:33-40 | Installs an empty, idle state for the call, replacing any state it had |
| AudioProcessing.AudioProcessor.CleanupCallState | bot/audio/audio_processor.py:42-46 | Forgets the call and nothing else |
| AudioProcessing.AudioProcessor.GetCallState | bot/audio/audio_processor.py:48-52 | Returns the call's state, created idle on first use; the state of every other call is unchanged |
| AudioProcessing.AudioProcessor.ProcessAudioChunk | bot/audio/audio_processor.py:54-122 | The call's new state and the returned pair are those of `Step`, so the contract of `Step` and the run lemmas hold of the method |
| AudioProcessing.AudioProcessor.FinishProcessing | bot/audio/audio_processor.py:124-128 | Only the call's processing flag changes, to false; the call's state is created if missing |
| AudioProcessing.AudioProcessor.IsProcessing | bot/audio/audio_processor.py:146-149 | Answers the call's processing flag; creates the state if missing |
| AudioX.MinBufferLen | bot/audiox.py:83 | For whole byte counts the truncated minimum length gives the same gate as the main processor |
| AudioX.StepX | bot/audiox.py:48-118 | This variant decides exactly as `Step` does and ends in the same state, except that after a segment the call is idle again; it never leaves the processing flag set |
| AudioX.AudioProcessor.constructor | bot/audiox.py:9-28 | Starts with no call state; the "no flag set" invariant holds |
| AudioX.AudioProcessor.InitializeCallState | bot/audiox.py:30-36 | Installs an idle state and keeps the invariant |
| AudioX.AudioProcessor.CleanupCallState | bot/audiox.py:38-41 | Forgets the call and keeps the invariant |
| AudioX.AudioProcessor.GetCallState | bot/audiox.py:43-46 | Returns the call's state, created on first use, with its flag clear |
| AudioX.AudioProcessor.ProcessAudioChunk | bot/audiox.py:48-118 | Input that is not bytes is refused after the call's state was created; bytes follow `StepX`, and a segment is returned resampled and encoded |
| AudioX.AudioProcessor.IsProcessing | bot/audiox.py:136-139 | Always false for the calls this processor manages |
| Common.Strip | bot/text_to_audio/edge_tts.py:46-50 | Python's `str.strip()`: the result is a piece of the input with only whitespace before and after it, neither starts nor ends with whitespace, and is empty exactly when the input is all whitespace |
| Common.StripTrimmed | bot/text_to_audio/edge_tts.py:50 | Stripping a trimmed text changes nothing, so stripping is idempotent |
| Tasks.Vacate | bot/task_manager/task_manager.py:33-35 | After deleting a slot it is empty, every other slot is unchanged, no call is left with an empty dictionary, and no call is added |
| Tasks.Install | bot/task_manager/task_manager.py:55-59 | After installing a task, its slot holds it, every other slot is unchanged, no call has an empty dictionary, and the calls grow by this one |
| Tasks.TaskManager.constructor | bot/task_manager/task_manager.py:8-11 | No tasks, no locks, nothing done |
| Tasks.TaskManager.IsTaskRunning | bot/task_manager/task_manager.py:84-88 | True exactly when the call has a task under the name and that task is not done; in a valid manager a running task's call holds its lock and the handle was issued |
| Tasks.TaskManager.GetActiveTasks | bot/task_manager/task_manager.py:80-82 | The call's dictionary holds exactly its registered slots, each with the task registered there, and is empty exactly when the call has no entry |
| Tasks.TaskManager.GetLock | bot/task_manager/task_manager.py:13-17 | The same lock for the same call; the first time, a fresh lock no other call holds |
| Tasks.TaskManager.CancelAndAwait | bot/task_manager/task_manager.py:24-31 | Afterwards the task is done; a task already done is left alone |
| Tasks.TaskManager.CancelTask | bot/task_manager/task_manager.py:19-37 | Returns true exactly when a task was registered under the name; the slot is vacated; that task and only it becomes done; nothing runs there afterwards |
| Tasks.TaskManager.CreateTask | bot/task_manager/task_manager.py:39-61 | The slot's previous task is cancelled and done. A new task, distinct from every registered one, takes the slot. Every other slot is untouched, and the new task is running |
| Tasks.TaskManager.CleanupCall | bot/task_manager/task_manager.py:63-78 | Every task of the call is done and the call's entry is removed; no task of the call is running; other calls keep their tasks |
| Transcription.Parts | bot/transcription/transcriber.py:47-50 | The pieces are non-empty and trimmed, at most one per segment, and there are none exactly when every segment is blank |
| Transcription.Join | bot/transcription/transcriber.py:52 | Joining non-empty trimmed pieces with single spaces gives a trimmed text, empty exactly when there are no pieces; one piece is returned as is |
| Transcription.Transcript | bot/transcription/transcriber.py:30-64 | The transcript is trimmed; it is empty exactly when recognition failed or every segment was blank |
| Transcription.TranscribeAudio | bot/transcription/transcriber.py:30-64 | The loop builds `Transcript`; `is_empty` holds exactly when the text is empty; a failure yields `("", True)` |
| Transcription.IsSilenceDetected | bot/transcription/transcriber.py:66-86 | Silence exactly when the text is blank and the audio's peak is under the threshold |
| Transcription.SilenceOfTranscript | bot/transcription/transcriber.py:66-86 | On a transcript, silence means an empty text and quiet audio |
| EdgeTts.Keys | bot/text_to_audio/edge_tts.py:118 | The cached texts, one per entry, in insertion order |
| EdgeTts.Find | bot/text_to_audio/edge_tts.py:53-55 | A lookup misses exactly when no entry has the text, and a hit is the audio of such an entry |
| EdgeTts.TotalBytes | bot/text_to_audio/edge_tts.py:119 | When each entry holds audio, the total is at least the number of entries; the last entry adds the length of its audio to the total of the others |
| EdgeTts.AudioOf | bot/text_to_audio/edge_tts.py:66-70 | The collected audio is empty exactly when no "audio" chunk carries data |
| EdgeTts.SpeakStripped | bot/text_to_audio/edge_tts.py:52-86 | A cache hit answers from the cache whatever the settings; otherwise the text is synthesised with the current settings. The cache only grows, by this text, when audio came back, caching was asked for and the text was new |
| EdgeTts.BlankTextIsSilent | bot/text_to_audio/edge_tts.py:46-48 | Blank text yields no audio and leaves the cache alone |
| EdgeTts.SpeakKeepsGoodCache | bot/text_to_audio/edge_tts.py:46-86 | The cache keeps only stripped, non-blank texts, each once, with non-empty audio |
| EdgeTts.SpeakIgnoresSurroundingSpace | bot/text_to_audio/edge_tts.py:46-50 | Texts that differ only in surrounding whitespace give the same result and share one entry |
| EdgeTts.RepeatIsCacheHit | bot/text_to_audio/edge_tts.py:52-82 | Once a text has been answered with audio, asking again returns the same audio from the cache, whatever the settings or the service do by then |
| EdgeTts.SpeakKeepsEntries | bot/text_to_audio/edge_tts.py:76-78 | A call never changes an entry that is already cached |
| EdgeTts.PreloadKeeps | bot/text_to_audio/edge_tts.py:99-106 | Preloading never changes an entry that is already cached |
| EdgeTts.PreloadedAreCached | bot/text_to_audio/edge_tts.py:99-106 | After preloading, every non-blank text of the list is cached, unless it was new and its synthesis produced no audio |
| EdgeTts.CollectAudio | bot/text_to_audio/edge_tts.py:66-70 | The loop collects exactly the data of the "audio" chunks, in order |
| EdgeTts.EdgeTtsService.constructor | bot/text_to_audio/edge_tts.py:11-33 | The given settings and an empty cache |
| EdgeTts.Speak | bot/text_to_audio/edge_tts.py:35-86 | Blank text yields no audio and leaves the cache. Otherwise the stripped text is the key: with caching on, a hit answers from the cache unchanged; any other call returns what the service synthesised for the stripped text with the current settings. The cache only ever grows by one entry, the stripped text with the audio just returned |
| EdgeTts.EdgeTtsService.TextToAudioBytes | bot/text_to_audio/edge_tts.py:35-86 | The audio and the new cache are those of `Speak`; the cache invariant holds |
| EdgeTts.EdgeTtsService.GetWaitMessageAudio | bot/text_to_audio/edge_tts.py:88-97 | The drawn wait message, and its speech through the cache |
| EdgeTts.EdgeTtsService.PreloadWaitMessages | bot/text_to_audio/edge_tts.py:99-106 | The cache after speaking the six wait messages in order |
| EdgeTts.EdgeTtsService.ClearCache | bot/text_to_audio/edge_tts.py:108-112 | The cache is empty |
| EdgeTts.EdgeTtsService.GetCacheInfo | bot/text_to_audio/edge_tts.py:114-120 | As many texts as entries, in insertion order, each once; the total is `TotalBytes` of the cache, the sum of the audio lengths, at least one byte per entry |
| EdgeTts.EdgeTtsService.SetVoiceSettings | bot/text_to_audio/edge_tts.py:122-133 | A setting that is missing or empty is left as it was; the others are replaced |
| AudioTaskHandling.WaitText | bot/text_to_audio/edge_tts.py:95 | The drawn message is one of the six wait messages |
| AudioTaskHandling.ScriptBefore | bot/task_manager/audio_task_manager.py:102-137 | Each frame of the reply is sent exactly when the run gets past its stage, in program order; an audio frame only when there is audio |
| AudioTaskHandling.ReplyOfPieces | bot/task_manager/audio_task_manager.py:102-148 | What the reply branch sends and the cache it leaves, stage by stage, with the apology after a failure |
| AudioTaskHandling.HaltAtCancelAudio | bot/task_manager/audio_task_manager.py:104-106 | Stopping at the "cancel_audio" send sends at most the apology and leaves the cache |
| AudioTaskHandling.HaltAtTranscription | bot/task_manager/audio_task_manager.py:108-111 | Stopping at the transcript send leaves "cancel_audio" sent, then at most the apology |
| AudioTaskHandling.HaltAtWaitSpeech | bot/task_manager/audio_task_manager.py:114 | Stopping in the wait message's speech leaves the initial cache |
| AudioTaskHandling.HaltAtWaitText | bot/task_manager/audio_task_manager.py:115-118 | Stopping at the wait text keeps the cache the wait speech left |
| AudioTaskHandling.HaltAtWaitAudio | bot/task_manager/audio_task_manager.py:121-122 | Stopping at the wait audio leaves the wait text as the last frame before the apology |
| AudioTaskHandling.HaltAtQuery | bot/task_manager/audio_task_manager.py:125-132 | Stopping in the query or at the answer's send leaves the acknowledgement frames sent |
| AudioTaskHandling.HaltAtResponseSpeech | bot/task_manager/audio_task_manager.py:135 | Stopping in the answer's speech leaves the answer text sent and the wait cache |
| AudioTaskHandling.HaltAtResponseAudio | bot/task_manager/audio_task_manager.py:136-137 | Stopping at the answer audio leaves every frame but it sent, with the reply cache |
| AudioTaskHandling.RunsToTheEnd | bot/task_manager/audio_task_manager.py:102-137 | A run to the end sends all six frames, each audio frame only when there is audio; a stop at a skipped audio send is such a run |
| AudioTaskHandling.ScriptFacts | bot/task_manager/audio_task_manager.py:102-137 | The reply's stages increase, its first frame stops playback, its audio frames are non-empty and its one transcript carries the text |
| AudioTaskHandling.BeforeIsPrefix | bot/task_manager/audio_task_manager.py:102-137 | On frames in stage order, what an interrupted run sends is a prefix of what the full run sends, frame for frame |
| AudioTaskHandling.Utterance | bot/task_manager/audio_task_manager.py:80-151 | A task cancelled before it started sends nothing and keeps the cache; a failure in the numeric steps sends at most the apology and keeps the cache. The lemmas below state the other branches |
| AudioTaskHandling.QuietSegmentSendsNothing | bot/task_manager/audio_task_manager.py:93-102 | A segment recognised as silence or as nothing sends nothing and leaves the cache; only a failure in the numeric steps can send the apology |
| AudioTaskHandling.ReplyShape | bot/task_manager/audio_task_manager.py:102-148 | A run that answers sends the reply's frames up to its stop, then the apology; a cancelled run sends no apology |
| AudioTaskHandling.InterruptedRunIsPrefix | bot/task_manager/audio_task_manager.py:80-151 | Any run sends a prefix of what the uninterrupted run sends, followed by the apology only when it failed; a cancelled run sends exactly a prefix |
| AudioTaskHandling.LinesRunFrames | bot/task_manager/audio_task_manager.py:102-148 | Every frame of an interrupted run is the frame of the line at its position or the apology |
| AudioTaskHandling.ScriptRunFrames | bot/task_manager/audio_task_manager.py:102-148 | An interrupted reply starts with "cancel_audio" unless it sent only the apology; its audio frames are non-empty and its transcript carries the text |
| AudioTaskHandling.RunFrames | bot/task_manager/audio_task_manager.py:80-151 | A run that sends anything but the apology first tells the clients to stop playback. Every audio frame it sends is non-empty. Every transcript is the recogniser's text, non-empty and trimmed |
| AudioTaskHandling.UtteranceKeepsGoodCache | bot/task_manager/audio_task_manager.py:80-151 | A run keeps the speech cache's invariant |
| AudioTaskHandling.Greets | bot/task_manager/audio_task_manager.py:44-59 | The bot greets exactly when a dictionary says `"type": "client_joined"` and its `"data"` dictionary says `"clientType": "user"` |
| AudioTaskHandling.CoherentAfterChunk | bot/task_manager/audio_task_manager.py:61-78 | A chunk that yields no segment keeps the handler's invariant |
| AudioTaskHandling.CoherentAfterCreate | bot/task_manager/audio_task_manager.py:61-78 | A segment of an idle call becomes a job in its slot and keeps the invariant; whatever the slot held had already finished |
| AudioTaskHandling.CoherentAfterFinish | bot/task_manager/audio_task_manager.py:149-151 | A finishing job keeps the invariant, whether or not its `finally` ran |
| AudioTaskHandling.CoherentAfterCleanup | bot/task_manager/audio_task_manager.py:153-165 | Dropping a call whose tasks are all done keeps the invariant |
| AudioTaskHandling.AudioTaskHandler.constructor | bot/task_manager/audio_task_manager.py:18-27 | Fresh parts with the default configuration and voice, nothing sent, no job |
| AudioTaskHandling.AudioTaskHandler.OnReceive | bot/task_manager/audio_task_manager.py:29-78 | JSON frames go to the greeting logic and other types change nothing. Bytes audio moves the call's state by `Step`; a handed-out segment becomes a pending job under a fresh handle installed as the call's running `audio_process` task, and otherwise no job or task changes. Audio that is not bytes only creates the call's state. No audio frame sends anything or finishes any task |
| AudioTaskHandling.AudioTaskHandler.HandleJsonMessage | bot/task_manager/audio_task_manager.py:44-59 | Sends the greeting exactly when `Greets` holds |
| AudioTaskHandling.AudioTaskHandler.HandleAudioMessage | bot/task_manager/audio_task_manager.py:61-78 | The buffer follows `Step`. A ready segment becomes a new running "audio_process" job of the call; otherwise no task changes. Nothing is sent and no task is cancelled |
| AudioTaskHandling.AudioTaskHandler.Respond | bot/task_manager/audio_task_manager.py:102-137 | The reply branch, run through the speech service, sends what `Reply` says and leaves its cache |
| AudioTaskHandling.AudioTaskHandler.Answer | bot/task_manager/audio_task_manager.py:124-137 | The query, the answer and its speech, after the wait message, as `ReplyOf` says |
| AudioTaskHandling.AudioTaskHandler.Utter | bot/task_manager/audio_task_manager.py:82-148 | The task's `try` block sends what `Utterance` says and leaves its cache |
| AudioTaskHandling.AudioTaskHandler.Execute | bot/task_manager/audio_task_manager.py:80-151 | The job's frames go to its call. Its `finally` clears only that call's flag, unless it was cancelled before it started, and the task is done |
| AudioTaskHandling.AudioTaskHandler.RunUtterance | bot/task_manager/audio_task_manager.py:80-151 | Running a pending task sends its utterance to its call and leaves the call ready for the next segment; an unknown or finished task changes nothing |
| AudioTaskHandling.AudioTaskHandler.CancelRunningTask | bot/task_manager/task_manager.py:63-75 | Cancelling the call's running task sends only frames of that call and changes no other call's state |
| AudioTaskHandling.AudioTaskHandler.CleanupCall | bot/task_manager/audio_task_manager.py:153-165 | The call has no tasks and no buffer afterwards; every other call's tasks and state are unchanged; only frames of this call are sent |
| AudioTaskHandling.AudioTaskHandler.PreloadTtsCache | bot/task_manager/audio_task_manager.py:167-170 | The speech cache after preloading the wait messages |
| RoomServer.ParseClientType | server/main.go:79-81 | A client is an agent exactly when the type parameter is "agent"; anything else joins as a user |
| RoomServer.ValidateQuery | server/main.go:64-81 | Admitted exactly when room and client id are non-empty. A rejection is 400 with the source's message, the room checked first. An admission carries the query's values |
| RoomServer.Merged | server/main.go:407-413 | An object payload adds its keys, its values winning; any other payload changes nothing |
| RoomServer.Client.constructor | server/main.go:89-95 | The client's room, id and type, and empty metadata |
| RoomServer.Client.UpdateMetadata | server/main.go:407-413 | The key-by-key loop yields `Merged` of the old metadata |
| RoomServer.Joined | server/main.go:194-212 | Joining adds the room to the table if absent and leaves every other room as it was |
| RoomServer.JoinedAdmits | server/main.go:194-212 | Joining files the client in its room |
| RoomServer.JoinedKeepsWellFormed | server/main.go:194-212 | Joining keeps every room non-empty and every client filed under its own id and type |
| RoomServer.Left | server/main.go:214-233 | Leaving never adds a room and leaves every other room as it was |
| RoomServer.LeftUnfiles | server/main.go:214-233 | A kept room loses only the entry under the client's id and still has a member; a deleted room was left empty |
| RoomServer.LeftKeepsWellFormed | server/main.go:214-233 | Leaving keeps every room non-empty and filed |
| RoomServer.Others | server/main.go:263-274 | Exactly the map's clients other than the sender |
| RoomServer.AudioRecipients | server/main.go:154-192 | A user's audio goes to the room's agents and an agent's to its users, skipping any client with the sender's id; an unknown room gets nothing |
| RoomServer.Stamped | server/main.go:126-127 | The routed message carries the sender's id and the relay's clock, and the client's fields otherwise |
| RoomServer.Broadcast | server/main.go:253-275 | Nothing for an unknown room; otherwise two waves, the room's users other than the sender, then its agents other than the sender |
| RoomServer.ToAgents | server/main.go:304-318 | Nothing for an unknown room; otherwise one wave, the room's agents other than the sender |
| RoomServer.ToUsers | server/main.go:320-334 | Nothing for an unknown room; otherwise one wave, the room's users other than the sender |
| RoomServer.Selective | server/main.go:277-302 | An empty `to` list is a broadcast. Otherwise each wave is a single client, at most two per listed id, and an unknown room gets nothing |
| RoomServer.Dispatch | server/main.go:235-251 | `broadcast`, `selective`, `agent_only` and `user_only` go to their handlers, a metadata message reaches no one, an unknown type is broadcast, and no type but `selective` can reach the sender |
| RoomServer.BroadcastReachesOthers | server/main.go:253-334 | A broadcast reaches exactly the room's clients other than the sender: the union of `sendToUsers` and `sendToAgents` |
| RoomServer.TargetedAppend | server/main.go:292-301 | Listing ids one after another sends their waves one after another, so a repeated id is sent to again |
| RoomServer.HitsReach | server/main.go:293-300 | One listed id reaches the user and the agent filed under it |
| RoomServer.HitsReachNamed | server/main.go:292-301 | In a filed room, one id reaches exactly the members with that id |
| RoomServer.TargetedReachesListed | server/main.go:277-302 | A selective send reaches exactly the members whose id is listed, users and agents alike, the sender included |
| RoomServer.AudioCrossesOver | server/main.go:131-192 | Audio never reaches a client of the sender's type, nor one with the sender's id, and only members of the room |
| RoomServer.JoinThenLeave | server/main.go:194-233 | A client that joins where its id was free and then leaves restores the rooms exactly; a room it created disappears |
| RoomServer.LeaveEvictsNamesake | server/main.go:214-233 | Removal by id also drops a newer client with the same id and type from the room |
| RoomServer.Hub.constructor | server/main.go:50-51 | No rooms |
| RoomServer.Hub.AddClientToRoom | server/main.go:194-212 | The rooms become `Joined` of the old rooms, and stay well formed |
| RoomServer.Hub.RemoveClientFromRoom | server/main.go:214-233 | The rooms become `Left` of the old rooms, and stay well formed |
| RoomServer.Hub.HandleMessage | server/main.go:235-251 | The sends of a message are `Dispatch` of its type; a "metadata" message sends nothing and merges the sender's metadata |
| RoomServer.Hub.Connect | server/main.go:64-106 | A rejected query changes nothing. An admitted one creates a new client, files it in its room and announces it to the room's other clients |
| RoomServer.Hub.OnTextFrame | server/main.go:116-129 | A frame that is not JSON is skipped; otherwise `From` and the timestamp are overwritten and the message is handled |
| RoomServer.Hub.OnBinaryFrame | server/main.go:131-139 | The recipients of a binary frame are `AudioRecipients`, never a client with the sender's id |
| RoomServer.Hub.Disconnect | server/main.go:146-148 | The client is removed and the room's remaining clients are told |
| ServerRegistry.Draw | server/main.go:453 | The allocated server is a registered one |
| ServerRegistry.EveryServerCanBeDrawn | server/main.go:453 | Every registered server can be the one allocated |
| ServerRegistry.Registry.constructor | server/main.go:53 | No servers |
| ServerRegistry.Registry.HandleRegister | server/main.go:417-442 | 405 for a method other than POST and 400 for a body that does not decode. 409 for a server already registered. Otherwise 201, with the server appended. Servers stay distinct |
| ServerRegistry.Registry.HandleAllocate | server/main.go:444-455 | 503 when no server is registered, otherwise 200 and one of the registered servers |

## Left out

- Resampling, RMS energy and peak amplitude are floating-point numerics (numpy and scipy). The configuration carries their verdicts as two predicates over the raw bytes, and the encoding of resampled audio in bot/audiox.py is a parameter.
- `resample_audio` (bot/audio/audio_processor.py:130-144, bot/audiox.py:120-134): floating-point only; a failure there is the `Numeric` stage of a run.
- AudioProcessing.AudioProcessor.constructor, AudioX.AudioProcessor.constructor: require a valid configuration, which excludes an input sample rate of 0. Python accepts that rate at construction, but the first chunk then raises `ZeroDivisionError` outside any `try`, at bot/audio/audio_processor.py:73 and at bot/audiox.py:69. Every construction in the repository uses the default rate of 48000.
- Durations are counted in samples, and `min_buffer_duration_s` is whole milliseconds. A fractional part below a millisecond is not modelled.
- Whisper, Edge TTS and the query engine are foreign services. They are parameters: what they return for an input.
- `Transcriber.__init__` and `get_model_info` load and describe the Whisper model; no state of the model depends on them.
- `get_available_voices` calls the Edge TTS service and touches no state.
- The clock (`time.Now`) is a parameter `now`, and the draws of `random.choice` and `rnd.Intn` are a parameter `pick`.
- Asyncio interleaving is not modelled. A task's run is modelled whole, and where it ends is the parameter `Stop`. Every await point can be a cancellation point, and every raising step a failure point.
- AudioTaskHandling.AudioTaskHandler.RunUtterance: only runs that are not cancelled are run this way. A cancellation comes from `cleanup_call`, through `CancelRunningTask`.
- AudioTaskHandling.AudioTaskHandler.CancelRunningTask: its contract states which call gets the frames and which states stay unchanged. It does not state what is sent; `Execute` states that.
- Which frames a socket write error loses, and a greeting whose send fails: every send is assumed to reach the socket. A failure inside the task is the `Fails` stop, with or without its apology.
- The socket layer (bot/sockets/socket_manager.py): it is not part of this model. The bot's outgoing frames are collected in `sent`, tagged with their call.
- AudioTaskHandling.AudioTaskHandler.OnReceive: audio that `process_audio_chunk` of bot/audio/audio_processor.py receives as something other than bytes. The call's state is created first. When the call's processing flag is set, lines 64-66 return `(False, None)` without touching the data. When it is clear, `state['audio_buffer'].extend(audio_data)` at line 69 raises, and `on_receive` swallows the error. The model treats every non-bytes payload this way. A JSON list of integers from 0 to 255 would in fact pass `extend`; the model does not follow that path, and the socket manager only ever passes bytes as audio.
- The websocket upgrade, connection objects, `conn.Close` and write errors in server/main.go: a send is modelled as the client it goes to.
- Go's map iteration order: a routing decision is a sequence of waves, each a set.
- `sendWelcomeMessage`, `handleList`, `handleRoomInfo`, `handleRoomList` and `RoomInfo.CreatedAt`: read-only reports of the same tables.
- The relay's mutexes: each handler is one atomic step on the tables.
- `RoomInfo` is a pointer in Go. It is modelled as a value, and the table is updated as a whole.
