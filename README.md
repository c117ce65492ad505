# LLM communications gateway: a verified model of the call core

The gateway connects phone calls from a telephony carrier (Telnyx) to a speech-to-text
server, a chat-completion model and a text-to-speech server. This project models, in
Dafny, the deterministic part of that gateway. Sockets, HTTP, the database and the
`audioop`, `base64`, `json` and `re` libraries become parameters or fields of small
datatypes of functions.

The model covers:

- **Wav.** The 44-byte RIFF/WAVE header wrapped around every utterance sent for
  transcription, and what it reads back as.
- **TtsFramer.** The speech-stream framer. It reads the WAV header of the speech
  server's stream, cuts the audio into 960-byte blocks, resamples and encodes each
  block, and flushes an even-length remainder at the end. It is a class whose `Feed`
  and `Finish` methods are proved against a function of everything received.
- **Silence.** Silence chunks for each codec, and how many the sender plays before the
  greeting.
- **TurnSegmenter.** The inbound energy detector that turns caller audio into
  utterances: the buffer, the quiet counter, the speech flag, and the assistant-speaking
  gate. It is a class (`Listener`) with the receive loop as a method (`Listen`), both
  proved against functions of the events.
- **Conversation.** What one turn sends to the model and does with the answer:
  - the system prompt and the message list;
  - the accumulation of the streamed reply (a loop proved against a function);
  - the audio frames of the spoken reply and the wait before a hangup;
  - the history and transcript of the call, as a class.
- **Directive.** The tool directive at the end of a reply: the two regular expressions,
  modelled as explicit leftmost searches, and the stripping of the matched block from
  the spoken text.
- **Handshake.** The event loop that opens a media stream.
- **Registry.** The process-wide tables: stream map, call contexts and preloaded
  greeting queues, as a class. It also covers the queue drain (a loop proved against a
  function) and the sender's wait for an inbound greeting.
- **Calls.** The stream URL handed to the carrier, the webhook URL, and the outbound
  dial request.
- **Teardown.** Which call record is closed, what it is closed with, and how the
  inbound-call alert channel is chosen.
- **Startup.** The reconciliation of the stored voice configuration with the
  environment at start-up. It is a pure function with the properties it promises, and
  a class whose method applies it step by step.
- **ApiRules.** The REST rules:
  - look-ups with ownership checks;
  - provider choice and the SMS result and log;
  - the partial provider update (an object table, updated in place);
  - the Open WebUI user list.
- **OpenWebUI.** The channel client: the channel search, the create request and the
  alert post.
- **Common.** The Python string operations the source relies on (`strip`, `split`,
  `replace`, `rstrip`, `find`, `lower`, `isdigit`, `int`, `str`, `join`), defined once
  with their own contracts.

Integers are unbounded. Durations on the inbound side are byte counts of 8 kHz 16-bit
PCM, at 16000 bytes per second. Wall-clock arithmetic (the hangup wait) is `real`.

Three behaviours of the code worth knowing:

- A stream registration is never consumed or checked for collisions. `Tables` overwrites
  entries and keeps them after use.
- An odd-length remainder of the speech stream is dropped (`Framer.Finish`), not
  converted.
- The framer emits payloads without a stream id. Callers add it.

## Model

| member | source | states |
|---|---|---|
| Wav.LE16 | backend/routers/voice_api.py:276-281 | a 16-bit field packs into two bytes |
| Wav.LE32 | backend/routers/voice_api.py:273-283 | a 32-bit field packs into four bytes |
| Wav.ReadLE16OfLE16 | backend/routers/voice_api.py:276-281 | reading back a packed little-endian 16-bit field gives the value |
| Wav.ReadLE32OfLE32 | backend/routers/voice_api.py:273-283 | reading back a packed little-endian 32-bit field gives the value |
| Wav.CreateWavHeader | backend/routers/voice_api.py:271-284 | a header exists iff every field fits its `struct` width (otherwise `struct.pack` raises); it is 44 bytes plus the PCM, with the PCM unchanged at the end |
| Wav.WavHeaderReadsBack | backend/routers/voice_api.py:271-284 | the header reads back as "RIFF", 36+n, "WAVEfmt ", 16, 1, channels, rate, byte rate, block align, bits, "data", n, in that order and at those offsets |
| Wav.CallHeaderFits | backend/routers/voice_api.py:988 | the 8 kHz mono 16-bit header of an utterance always packs (below 4 GiB of audio) |
| TtsFramer.Encode | backend/routers/voice_api.py:131-137 | L16 passes the PCM through, PCMA is A-law, any other codec is μ-law |
| TtsFramer.ProcessBlock | backend/routers/voice_api.py:121-147 | a block is resampled only when the input is not 8 kHz; a resampler error drops the block and keeps the state; an encoder error drops it after the state has advanced |
| TtsFramer.TranscodeAll | backend/routers/voice_api.py:113-147 | converting a run of blocks never yields more payloads than blocks |
| TtsFramer.TranscodeAppend | backend/routers/voice_api.py:113-147 | converting two runs in turn, threading the resampler state, equals converting them joined |
| TtsFramer.PassThroughL16 | backend/routers/voice_api.py:123-133 | at 8 kHz with L16 every block is emitted unchanged and the state is untouched |
| TtsFramer.NoFailureNoLoss | backend/routers/voice_api.py:113-147 | when no primitive raises, there is one payload per block |
| TtsFramer.Blocks | backend/routers/voice_api.py:113-116 | the buffer yields floor(n / 960) blocks of exactly 960 bytes |
| TtsFramer.BlocksOfConcat | backend/routers/voice_api.py:113-116 | cutting whole blocks followed by a short tail gives back those blocks |
| TtsFramer.CutBlocks | backend/routers/voice_api.py:113-145 | the block loop cuts exactly `Blocks(buf)`, leaves fewer than 960 bytes, loses or reorders nothing, and emits what `TranscodeAll` does |
| TtsFramer.HeaderRate | backend/routers/voice_api.py:90-95 | the rate is the little-endian u32 at offset 24 of a complete header, else 24000 |
| TtsFramer.Framer.constructor | backend/routers/voice_api.py:77-85 | a framer starts with no header, nothing received or emitted, and rate 24000 |
| TtsFramer.Framer.Feed | backend/routers/voice_api.py:87-145 | no chunk emits before the header is complete, nor does the chunk that completes it; every later chunk emits the transcoded new whole blocks; received and emitted grow by exactly the chunk and the payloads |
| TtsFramer.Framer.FeedHeader | backend/routers/voice_api.py:88-106 | header bytes accumulate until 44 have arrived; then the rate is read and the rest becomes audio |
| TtsFramer.Framer.FeedAudio | backend/routers/voice_api.py:108-145 | the old buffer plus the chunk equals the cut blocks plus the new buffer, the new buffer is under 960 bytes, and the payloads are those blocks transcoded from the old resampler state |
| TtsFramer.Framer.Finish | backend/routers/voice_api.py:149-167 | only a non-empty leftover of even length is converted, as a block is, into a final payload; any other leftover is dropped |
| TtsFramer.Framer.RateFromStream | backend/routers/voice_api.py:94-95 | once the header is parsed, the rate is the u32 at offset 24 of the bytes received |
| TtsFramer.Framer.ChunkingInvariant | backend/routers/voice_api.py:87-116 | the blocks cut so far are the blocks of all audio after the header, and the payloads are exactly their transcoding from a fresh state |
| TtsFramer.Framer.WavRoundTrip | backend/routers/voice_api.py:87-116 | a framer fed, in any chunking, a stream written by `create_wav_header` reads the header's sample rate and holds exactly the PCM after it; once less than a block remains, its payloads are the conversion of the PCM's blocks from that rate |
| TtsFramer.WavStreamRate | backend/routers/voice_api.py:94-95 | a stream that starts with a header written by `create_wav_header` is read at that header's sample rate |
| Silence.BytesPerSample | backend/routers/voice_api.py:1515-1521 | two bytes per sample for L16, one otherwise |
| Silence.FillByte | backend/routers/voice_api.py:1515-1522 | 0x00 for L16, 0xFF for PCMU, 0xD5 for anything else |
| Silence.ChunkSize | backend/routers/voice_api.py:1527 | a 20 ms chunk is 320 bytes for L16 and 160 otherwise |
| Silence.SilenceChunk | backend/routers/voice_api.py:1530 | the chunk is its size in fill bytes |
| Silence.ChunkCount | backend/routers/voice_api.py:1529-1532 | the count is the largest number of whole chunks that fit the duration's bytes |
| Silence.GenerateSilence | backend/routers/voice_api.py:1513-1534 | the generator yields that many identical silence chunks |
| Silence.ChunkCountMs | backend/routers/voice_api.py:1529-1532 | for every codec the count is the duration in milliseconds divided by 20 |
| Silence.SenderSilenceCount | backend/routers/voice_api.py:529-552 | the sender plays 500 ms of silence, plus the delay rounded down to whole 20 ms chunks when the delay is positive |
| Silence.SenderSilence | backend/routers/voice_api.py:527-552 | the opening frames are that many silence frames tagged with the stream id |
| TurnSegmenter.ToPcm | backend/routers/voice_api.py:929-939 | L16 is used as it is, PCMA is A-law decoded, anything else μ-law decoded |
| TurnSegmenter.Boundary | backend/routers/voice_api.py:968-978 | a boundary is max-duration iff the buffer exceeds 15 s; it is silence iff it does not, more than 1.2 s was quiet and more than 0.5 s is buffered |
| TurnSegmenter.StepBounded | backend/routers/voice_api.py:968-1009 | after any step that does not fail, at most 15 s of audio stays buffered |
| TurnSegmenter.BoundaryResets | backend/routers/voice_api.py:980-1009 | after a discard or an utterance the detector is reset; a chunk is only buffered iff no boundary was reached |
| TurnSegmenter.UtteranceContents | backend/routers/voice_api.py:986-988 | an utterance is exactly the buffered audio since the last reset, behind an 8 kHz mono 16-bit header; a silence cut holds speech and more than 0.5 s |
| TurnSegmenter.DiscardExactly | backend/routers/voice_api.py:980-985 | a buffer is discarded iff a silence boundary is reached and no chunk since the reset was loud |
| TurnSegmenter.RunVad | backend/routers/voice_api.py:920-1009 | a run of chunks has one outcome per chunk |
| TurnSegmenter.QuietNeverTranscribed | backend/routers/voice_api.py:954-985 | from a reset detector, quiet chunks are only ever buffered or discarded, never transcribed |
| TurnSegmenter.Listener.constructor | backend/routers/voice_api.py:504-522 | a session starts with an empty detector and the gate held |
| TurnSegmenter.Listener.OnMedia | backend/routers/voice_api.py:920-945 | one media event changes the state as `OnMediaSpec` says; while the gate is held it is ignored and nothing changes |
| TurnSegmenter.Listener.Detect | backend/routers/voice_api.py:941-1009 | the chunk is buffered, the quiet counter and speech flag move with its energy, and a boundary is acted on |
| TurnSegmenter.Listener.BeginTurn | backend/routers/voice_api.py:689 | a turn sets the gate and leaves the detector as it was |
| TurnSegmenter.Listener.EndSpeaking | backend/routers/voice_api.py:889-892 | every exit of a turn or of the sender releases the gate and empties the buffer, keeping the quiet counter and the speech flag |
| TurnSegmenter.ListenSpec | backend/routers/voice_api.py:914-1015 | the receive loop consumes at most the events it is given, all of them when it runs out |
| TurnSegmenter.StopEndsListening | backend/routers/voice_api.py:1010-1012 | nothing after the first `stop` is looked at |
| TurnSegmenter.GatedListensToNothing | backend/routers/voice_api.py:921-923 | while the gate is held no utterance is produced, the detector does not change, and only an unreadable event ends the loop in failure |
| TurnSegmenter.Listen | backend/routers/voice_api.py:914-1015 | the loop's utterances, final state, ending and event count are those of `ListenSpec` |
| Conversation.BasePrompt | backend/routers/voice_api.py:653-659 | the prompt ends with the call goal when there is one, starts with a usable configured prompt, and is the default otherwise |
| Conversation.ContextNote | backend/routers/voice_api.py:662-666 | the context note is empty iff neither a user nor a chat is known |
| Conversation.SystemPromptShape | backend/routers/voice_api.py:653-685 | every turn's prompt starts with the base prompt and ends with the tool instructions, with the context note between them exactly when it is there |
| Conversation.GreetingSystemMessage | backend/routers/voice_api.py:187-193 | the greeting's system message ends with the goal, and is the goal alone without a configured prompt |
| Conversation.GreetingAgreesWithTurns | backend/routers/voice_api.py:187-193 | the greeting and the turns build the same goal text, except for a configured prompt that is only whitespace, which the greeting keeps and the turns drop |
| Conversation.GreetingMessages | backend/routers/voice_api.py:195-200 | the greeting request is the system message followed by "Introduce yourself." |
| Conversation.TurnMessages | backend/routers/voice_api.py:699-707 | a turn sends the system prompt, then the whole history with context, or only the caller's words without it |
| Conversation.TurnMessagesAgree | backend/routers/voice_api.py:699-707 | with or without context the request has one system message, first, and ends with the caller's words |
| Conversation.ReadLine | backend/routers/voice_api.py:731-742 | a line is the end marker iff it is `data: [DONE]`; a line that is not `data:` is ignored; a text piece is never empty |
| Conversation.ReplyAppend | backend/routers/voice_api.py:731-742 | lines before any end marker add their text in order |
| Conversation.ReplyStopsAtDone | backend/routers/voice_api.py:736 | nothing after the first end marker reaches the reply |
| Conversation.NoDataNoReply | backend/routers/voice_api.py:734 | a stream without `data:` lines gives an empty reply |
| Conversation.AccumulateReply | backend/routers/voice_api.py:728-742 | the accumulation loop computes exactly `ReplyText` |
| Conversation.SpokenFrames | backend/routers/voice_api.py:774-813 | blank text sends nothing; otherwise five padding frames, then one frame per speech payload in order |
| Conversation.PaddingFrames | backend/routers/voice_api.py:780-788 | the padding is 100 ms: five silence frames tagged with the stream id |
| Conversation.SpeechFrames | backend/routers/voice_api.py:791-808 | one frame per payload, in order, tagged with the stream id when there is one |
| Conversation.SentBytesIsAudio | backend/routers/voice_api.py:798-804 | the byte count is the length of all the speech audio |
| Conversation.PlaybackSeconds | backend/routers/voice_api.py:829-834 | playback time is never negative, and positive when audio was sent |
| Conversation.HangupWait | backend/routers/voice_api.py:829-852 | the wait is at least 0.1 s; exactly 0.1 s without audio; playback time plus 0.1 s without a start time; once speech has started it lasts until at least 0.1 s past the end of playback |
| Conversation.HangupWaitIsLeast | backend/routers/voice_api.py:836-848 | once speech has started the wait is the larger of 0.1 s and the remaining playback plus 0.1 s |
| Conversation.TurnPause | backend/routers/voice_api.py:825-856 | the pause after a turn is at least 0.1 s, and the 1 s echo tail when no hangup was asked for |
| Conversation.TranscriptOf | backend/routers/voice_api.py:693-823 | the transcript has one line per history message |
| Conversation.GreetingBindsOnce | backend/routers/voice_api.py:577-583 | binding a greeting a second time changes nothing, and a bound greeting is an assistant message |
| Conversation.Dialogue.constructor | backend/routers/voice_api.py:511-516 | a session starts with the stored greeting as its only message, if there is one |
| Conversation.Dialogue.LateBindGreeting | backend/routers/voice_api.py:577-583 | the late greeting is added only when no assistant message is there yet |
| Conversation.Dialogue.RecordUser | backend/routers/voice_api.py:693-696 | the caller's words are appended to the history and the transcript |
| Conversation.Dialogue.RecordAssistant | backend/routers/voice_api.py:819-823 | the spoken reply is appended to both unless it is blank, when nothing changes |
| Directive.SkipSpaceBlank | backend/routers/voice_api.py:751 | the greedy `\s*` skips only whitespace and stops at non-whitespace |
| Directive.FirstCloseSpec | backend/routers/voice_api.py:751 | the lazy `.*?\}\s*` followed by a fence closes at the first position that can close, and misses none |
| Directive.FencedSpanAt | backend/routers/voice_api.py:751 | a fenced match starting at a position lies within the reply, with the object's braces after the start |
| Directive.FencedSearchLeftmost | backend/routers/voice_api.py:751 | the fenced search returns the match at the leftmost start that matches, and finds none iff no start matches |
| Directive.NoBacktickNoFence | backend/routers/voice_api.py:751 | text without backticks has no fenced match |
| Directive.FencedAtBlock | backend/routers/voice_api.py:751 | the fenced pattern matches the block the instructions request, with its object as group 1 |
| Directive.FencedReplyFinds | backend/routers/voice_api.py:751 | after plain text the search finds exactly the requested block |
| Directive.TrailingSearch | backend/routers/voice_api.py:754 | a fallback match captures text from a `{` through a `}` |
| Directive.TrailingAtObject | backend/routers/voice_api.py:754 | after brace-free text the fallback finds the trailing object and the whitespace after it |
| Directive.ExtractDirective | backend/routers/voice_api.py:747-769 | without a match, or with an object that does not parse, the whole reply is spoken and the call goes on; with a parsed directive the spoken text is stripped at both ends and no longer than the reply; the call hangs up iff the parsed action is "hangup" |
| Directive.ExtractDirectiveCuts | backend/routers/voice_api.py:758-767 | for any reply whose matched block occurs in it only once, and whose object does not occur in the text around the block, the spoken text is that text with the block cut out, stripped, whatever the action |
| Directive.NoBraceNoDirective | backend/routers/voice_api.py:751-769 | a reply without `{` is spoken as it is and never hangs up |
| Directive.FencedReply | backend/routers/voice_api.py:747-769 | spoken text followed by the requested fenced block is spoken as the text, stripped, whatever the action |
| Directive.TrailingReply | backend/routers/voice_api.py:752-767 | spoken text followed by a bare object is spoken as the text, stripped, whatever the action |
| Handshake.RunHandshake | backend/routers/voice_api.py:308-354 | the handshake ends at the first `start`, media naming a stream, `stop` or unreadable event, with the outcome that event decides; otherwise it keeps waiting and reads every event |
| Handshake.WakesPerConnected | backend/routers/voice_api.py:314-330 | fifty wake frames go out for every `connected` event read |
| Handshake.HandshakeIgnoresLater | backend/routers/voice_api.py:331-354 | events after the handshake ends are left for the main loop |
| Handshake.MediaHandshakeKnowsStream | backend/routers/voice_api.py:335-351 | a handshake ended by media knows its stream id |
| Handshake.WakeFrame | backend/routers/voice_api.py:317 | a wake frame is 160 zero bytes |
| Registry.Resolve | backend/routers/voice_api.py:290-298 | an unknown or falsy entry closes the socket; a legacy entry is a bare call id with 600 s and the standard limit message; a record gives its call id, database id and prompt, and its maximum duration and limit message or, where absent, 600 s and the standard limit message |
| Registry.Annotate | backend/routers/voice_api.py:593-598 | a parsed frame gets the stream id only when it has none and one is known; the payload is untouched and unparsable text passes through |
| Registry.AnnotateIdempotent | backend/routers/voice_api.py:595-597 | annotating twice is annotating once |
| Registry.AnnotateAll | backend/routers/voice_api.py:586-605 | each frame is annotated in place, in order |
| Registry.Fill | backend/routers/voice_api.py:1287-1292 | a filled queue is every frame in order, then the end marker |
| Registry.DrainShape | backend/routers/voice_api.py:613-628 | the drain sends the items before the first end marker, annotated and in order; it takes that marker and leaves the rest queued |
| Registry.DrainFill | backend/routers/voice_api.py:1287-1292 | a queue filled with a greeting is drained into exactly that greeting, in order, with the end marker taken once |
| Registry.DrainSentLength | backend/routers/voice_api.py:586-591 | with the first end marker at k, the drain finishes after sending k frames |
| Registry.DrainQueue | backend/routers/voice_api.py:613-628 | the drain loop computes exactly `Drain` |
| Registry.GreetingAudio | backend/routers/voice_api.py:220-250 | a model reply gives its frames and text; no reply gives no frames and empty text |
| Registry.PollIterations | backend/routers/voice_api.py:561-562 | the inbound sender polls at least 20 times for non-negative timeouts, and 200 times when both are unset |
| Registry.QueueToDrain | backend/routers/voice_api.py:558-611 | a call with a goal drains its queue iff it arrives within the polls; one without drains a queue that is already registered |
| Registry.Tables.constructor | backend/routers/voice_api.py:53-55 | the three tables start empty |
| Registry.Tables.RegisterOutbound | backend/routers/voice_api.py:1261-1292 | a placed call with a call id registers its stream entry with the defaults, merges its context, and queues its greeting; one without a call id changes nothing |
| Registry.Tables.RegisterInbound | backend/routers/voice_api.py:1411-1424 | an answered call registers its stream entry, and a context holding only the assigned user when there is one |
| Registry.Tables.PreloadInbound | backend/routers/voice_api.py:252-267 | the inbound greeting's queue is registered and filled, and its text stored in the context when the model replied |
| Registry.Tables.DrainFor | backend/routers/voice_api.py:609-628 | the sender drains the call's queue as `Drain` says, and what remains stays registered |
| Registry.MergeContext | backend/routers/voice_api.py:1274-1280 | each known member of the context is written, the others kept |
| Registry.ResolveRegistered | backend/routers/voice_api.py:1263-1269 | the socket of a registered outbound call resolves to exactly what was registered |
| Calls.OutboundOrigin | backend/routers/voice_api.py:1177-1189 | with a configured base URL the scheme is "http" and the base is that URL, or the tunnel when it is local; with neither a configured base nor a `Host` header there is no base; the base handed on is never a local address |
| Calls.InboundOrigin | backend/routers/voice_api.py:1329-1338 | with a configured base URL the scheme is "http" and the base is that URL, or the tunnel when it is local; the base handed on is never a local address |
| Calls.TunnelNotLocal | backend/routers/voice_api.py:1187-1189 | the tunnel address that replaces a local one is not itself local |
| Calls.ForceTunnelNotLocal | backend/routers/voice_api.py:1187-1189 | after the local-address fallback no base is local |
| Calls.InboundWithoutHostTunnels | backend/routers/voice_api.py:1332-1338 | an inbound call without a configured base or a `Host` header always goes through the tunnel |
| Calls.StreamUrlShape | backend/routers/voice_api.py:1198-1207 | the stream URL starts `wss://` iff the origin is secure, and `ws://` otherwise, and ends with the socket route, the short id and the token |
| Calls.OutboundStreamUrl | backend/routers/voice_api.py:1195-1209 | a stream URL is built iff there is a base URL and a webhook secret |
| Calls.DelayReadsBack | backend/routers/voice_api.py:1208-1209 | a positive delay is appended as text that parses back to the same number |
| Calls.WebhookUrlSlashes | backend/routers/voice_api.py:1460-1461 | trailing slashes on the base make no difference to the webhook URL |
| Calls.FromNumber | backend/routers/voice_api.py:1238 | the caller id is the request's, else the provider's, else the placeholder, and never empty |
| Calls.DialCodecAsWritten | backend/routers/voice_api.py:1211-1241 | as written, a call without a prompt has no codec, because the voice configuration is never read |
| Calls.DialCodec | backend/routers/voice_api.py:1241 | the codec is the configured one, else PCMU |
| Calls.DialCodecDiscrepancy | backend/routers/voice_api.py:1211-1241 | the as-written and intended codecs agree iff the call has a prompt |
| Calls.Dial | backend/routers/voice_api.py:1237-1242 | the dial request keeps the number and the connection, always has a caller id and a codec, and has a stream URL iff there is a base and a secret |
| Teardown.RecordLookup | backend/routers/voice_api.py:1061-1067 | the record is looked up by a non-zero internal id, else by the control id, else not at all |
| Teardown.Close | backend/routers/voice_api.py:1069-1073 | the record is completed with the whole seconds elapsed, the transcript lines joined by newlines, and a cost of 0.005 per minute |
| Teardown.CostMonotone | backend/routers/voice_api.py:1073 | the cost is never negative and grows with the call's length |
| Teardown.AlertBaseUrl | backend/routers/voice_api.py:1101-1104 | without a model URL containing `/v1` the default base is used; with one, the base is the URL up to the first `/v1` or `/api`, whichever comes first, or the default when that leaves nothing |
| Teardown.AlertChannelName | backend/routers/voice_api.py:1107 | the channel name is the stored `alert_channel_name` when the configuration has one, else "LLM-Communications-Gateway Alerts", the same string the start-up migration (backend/main.py:215-224) gives the column as its default |
| Teardown.ChooseChannel | backend/routers/voice_api.py:1110-1134 | a cached channel is used without a search; otherwise one found is used, else one is created, and only an existing channel is cached |
| Teardown.CacheThenReuse | backend/routers/voice_api.py:1110-1134 | once a channel is cached, the next alert uses it without searching or creating |
| Startup.WithSuffix | backend/main.py:363-364 | a normalised URL always ends with its suffix |
| Startup.ResolveLlmUrl | backend/main.py:359-383 | a resolved model URL is never empty |
| Startup.ResolveLlmUrlCases | backend/main.py:359-383 | ollama with `OLLAMA_URL` takes that URL with `/v1`; openwebui with `OPEN_WEBUI_URL` takes that URL with `/api/v1`; every other case takes `LLM_URL`, if set |
| Startup.TrailingSlashDoublesSuffix | backend/main.py:363-364 | a URL ending `/v1/` becomes `/v1/v1` |
| Startup.WithSuffixIdempotent | backend/main.py:363-371 | normalising twice is normalising once |
| Startup.Override | backend/main.py:391-401 | a field changes iff the variable applies and differs, and then takes its value |
| Startup.OverrideTimeout | backend/main.py:414-422 | a timeout that is unset or does not parse leaves the field and the flag alone |
| Startup.TelnyxAfter | backend/main.py:307-330 | the telnyx record exists afterwards iff it existed before |
| Startup.SecretStep | backend/main.py:318-333 | only the webhook secret changes, and the flag is set iff it does (for a non-empty fresh secret) |
| Startup.UrlsStep | backend/main.py:336-343 | only the speech URLs change, and the flag is set iff one does |
| Startup.LlmStep | backend/main.py:346-388 | only the provider and the model URL change, and the flag is set iff one does |
| Startup.ModelStep | backend/main.py:391-411 | only the model, the voice and the key change, and the flag is set iff one does (for a non-empty encryption) |
| Startup.TimeoutStep | backend/main.py:414-442 | only the three timeouts change, and the flag is set iff one does |
| Startup.BehaviourStep | backend/main.py:444-463 | only the prompt, the context flag and the codec change, and the flag is set iff one does |
| Startup.ApiKeyOnlyFills | backend/main.py:403-411 | a stored API key is never replaced; an empty one is filled with the variable, encrypted |
| Startup.TimeoutsParse | backend/main.py:414-422 | a timeout that does not parse leaves the stored one; one that parses replaces it |
| Startup.SendContextFlag | backend/main.py:450-457 | a set `SEND_CONVERSATION_CONTEXT` decides the flag, on iff it is "true" in any case; an unset one leaves it |
| Startup.WebhookSecretRule | backend/main.py:318-333 | a set `WEBHOOK_SECRET` becomes the secret of both records; otherwise only an empty secret is replaced, by a fresh one |
| Startup.LlmUrlRule | backend/main.py:346-388 | the provider is overridden first, and the model URL is the one it resolves, if any, else kept |
| Startup.UpdatedIffChanged | backend/main.py:306-465 | the configuration is saved iff it changed |
| Startup.ReconcileIdempotent | backend/main.py:306-463 | a second start-up with the same environment changes nothing and saves nothing |
| Startup.Settings.constructor | backend/main.py:281-283 | the settings hold the loaded records |
| Startup.Settings.ApplyEnvironment | backend/main.py:306-463 | the step-by-step updates produce exactly `Reconcile` |
| Startup.ApplyTelnyx | backend/main.py:307-330 | the telnyx record is updated as `TelnyxAfter` says |
| Startup.ApplySecret | backend/main.py:318-333 | the secret update is `SecretStep` |
| Startup.ApplyUrls | backend/main.py:336-343 | the URL updates are `UrlsStep` |
| Startup.ApplyLlm | backend/main.py:346-388 | the provider and URL updates are `LlmStep` |
| Startup.ApplyModel | backend/main.py:391-411 | the model, voice and key updates are `ModelStep` |
| Startup.ApplyTimeout | backend/main.py:414-422 | one timeout update, including the parse that can fail, is `OverrideTimeout` |
| Startup.ApplyTimeouts | backend/main.py:414-442 | the timeout updates are `TimeoutStep` |
| Startup.ApplyBehaviour | backend/main.py:444-463 | the prompt, context and codec updates are `BehaviourStep` |
| ApiRules.LookupOwned | backend/routers/api.py:246-263 | a record is returned only when the user owns it, and only when it carries the key as provider id or, for a digit key, as internal id |
| ApiRules.ExternalIdFirst | backend/routers/api.py:250-253 | when a record carries the key as provider id, the first such record decides, and the fallback is not tried |
| ApiRules.NoDigitsNoFallback | backend/routers/api.py:253-259 | without a provider-id match, a key that is not all digits finds nothing |
| ApiRules.DigitFallback | backend/routers/api.py:253-256 | without a provider-id match, a digit key finds the record with that internal id |
| ApiRules.ForeignRecordLooksMissing | backend/routers/api.py:223-231 | a record of another user gives the same not-found as no record at all |
| ApiRules.BestEnabled | backend/routers/api.py:150 | the choice is an enabled provider of least priority, and there is none iff no provider is enabled |
| ApiRules.ChooseProvider | backend/routers/api.py:146-153 | a named provider is the one with that name, enabled or not; without a name it is the best enabled one |
| ApiRules.ClientFor | backend/routers/api.py:135-141 | "telnyx" gets the real client with the decrypted key; every other name gets the mock |
| ApiRules.Settle | backend/routers/api.py:161-176 | a raised send is a failure costing 0.0 with no message id and the error text; a returned result is kept |
| ApiRules.MediaContent | backend/routers/api.py:179-181 | media are logged, as the dump of the URLs, iff the request carries a non-empty URL list |
| ApiRules.SendSms | backend/routers/api.py:143-203 | no provider gives the 400; otherwise the log holds the provider's name, the destination, message, user and chat of the request, "sent" iff the send succeeded, the result's error, cost and id, and the dumped media URLs iff the request has any |
| ApiRules.RaisedIsFailed | backend/routers/api.py:169-191 | a send that raises is logged as failed |
| ApiRules.Stored | backend/routers/api.py:310-311 | a non-empty API key is stored encrypted; anything else is stored as given |
| ApiRules.UpdateKeepsOthers | backend/routers/api.py:308-312 | a field that is not supplied keeps its value |
| ApiRules.UpdateSetsSupplied | backend/routers/api.py:308-312 | a supplied field holds its last supplied value, encrypted if it is the key |
| ApiRules.ProviderTable.constructor | backend/routers/api.py:303-305 | the table holds the given rows |
| ApiRules.ProviderTable.UpdateProvider | backend/routers/api.py:303-316 | an unknown id changes nothing (the 404); a known one gets each supplied field in turn |
| Common.SplitTwiceCut | backend/routers/api.py:70 | `s.split(p)[0].split(q)[0]` is `s` up to the first occurrence of `p` or `q`, when `q` holds the first character of `p` only at its start |
| ApiRules.UsersBase | backend/routers/api.py:67-70 | with a model URL, the base is the URL up to the first `/api/v1` or `/v1`, whichever comes first, with trailing slashes stripped (so it has no `/v1` and no trailing slash); without one, the default |
| ApiRules.RawList | backend/routers/api.py:86-93 | a list answer is taken as it is; the entries of an object answer are its non-empty `users`, else its `data`, else none |
| ApiRules.Summaries | backend/routers/api.py:95-101 | one summary of id, name, email and role per entry, in order |
| ApiRules.OpenWebUiUsers | backend/routers/api.py:55-105 | no token or a failed request gives no users; otherwise the summaries of the listed entries |
| OpenWebUI.Endpoint | backend/utils/openwebui.py:18 | every endpoint is the base without trailing slashes followed by its path |
| OpenWebUI.EndpointIgnoresSlashes | backend/utils/openwebui.py:83 | trailing slashes on the base do not change any endpoint |
| OpenWebUI.FindChannel | backend/utils/openwebui.py:11-42 | the channels endpoint is asked; an exception or a status other than 200 finds nothing, and a channel found is one of the listing that matches on name and membership |
| OpenWebUI.ScanFindsFirst | backend/utils/openwebui.py:25-34 | the first channel matching on name (any case) and membership wins |
| OpenWebUI.ScanOnlyMatches | backend/utils/openwebui.py:25-34 | a channel comes back only if it matches both on name and on membership |
| OpenWebUI.ScanNoMatch | backend/utils/openwebui.py:25-42 | with no matching channel the search finds nothing |
| OpenWebUI.CreateRequest | backend/utils/openwebui.py:50-61 | the create request is private, names the channel, and has the user as its only member |
| OpenWebUI.CreatedId | backend/utils/openwebui.py:64-75 | the created id is the body's on 200, and none otherwise |
| OpenWebUI.AlertRequest | backend/utils/openwebui.py:83-86 | the alert posts the message as content to the channel's endpoint |
| OpenWebUI.AlertSent | backend/utils/openwebui.py:89-99 | an alert counts as sent iff the post answered 200 |

## Left out

- WebSocket, asyncio and timing. The model does not cover accept, receive and send, task creation, sleeps, cancellation, the duration monitor and its limit message (voice_api.py:374-463), or the order of the `finally` clean-up. The gate is a sequential flag.
- The interleaving of the inbound greeting with the sender. Filling the queue (`Tables.PreloadInbound`) and draining it (`Tables.DrainFor`) are separate steps. A drain that finds no end marker returns with `finished` false instead of blocking.
- Floating-point time. The quiet timer adds `len/16000` floats, so the integer byte thresholds can differ from the source exactly at the 1.2 s boundary. The hangup wait and the cost use `real`, not IEEE doubles.
- Foreign code becomes parameters: `audioop` (G.711 companding, `ratecv`, `rms`), `base64`, `json.loads`, the `json.dumps` text of frames and of SMS media URLs, Fernet encryption and `uuid`. Only their success or failure and their results are modelled.
- The speech-to-text call, and the start of a turn for a non-blank transcript (voice_api.py:988-1004). These are I/O and task creation. The model stops at the utterance handed over.
- The HTTP calls to the model, the speech servers, Open WebUI and the carrier. Their answers are inputs. The hangup REST call (voice_api.py:858-877) is left out.
- The mismatched signatures of the carrier client (`make_call` without `codec`, no `answer_call`, `send_sms` without the media arguments). The carrier client is not part of this model.
- Persistence. The model does not cover SQL sessions, migrations, the creation of a default voice configuration (main.py:289-302), or the loading of the voice configuration at the start of a session (voice_api.py:465-498).
- The 400 answers of `initiate_call` for a missing provider, connection id or from-number (voice_api.py:1163-1173). `Calls.Dial` starts after those checks.
- The webhook's token check and its rejection when inbound calls are disabled (voice_api.py:1304-1324), and the `sync`/`create-app` endpoints beyond their webhook URL.
- The sender is started only when the handshake produced a stream id (voice_api.py:895-897). The model's sender functions take the stream id as it is. Without a sender, nothing releases the gate: the session starts with it set (voice_api.py:522), only the sender (643) or a finished turn (890-891) clears it, and a turn needs a transcript. Such a session never transcribes anything, as `TurnSegmenter.GatedListensToNothing` shows for a gate that stays set.
- The text of the inbound-call alert message (voice_api.py:1138-1143). `OpenWebUI.AlertRequest` posts any message text.
- Python's Unicode `lower()`, `isdigit()` and `int()`. They are modelled on ASCII letters and digits.
- Common.ParseInt: does not accept the `_` digit separators Python's `int()` allows ("1_000"), so `Startup.OverrideTimeout` keeps the stored timeout where the source would set 1000.
- Open WebUI answers whose entries are not objects, or whose `users` is not a list. These raise in the source and are not modelled.
- The `except` branch of the framer's header parse (voice_api.py:102-105). Slicing four bytes out of 44 cannot fail, so the branch cannot run.
- A stream-map entry whose `max_duration` member is null. `Registry.Resolve` reads a present member as it is.
- Registry.Tables.RegisterOutbound: it does not check short ids for collisions, and neither does the source.

## Findings

| source | as written | input that shows it | evidently intended | confidence | as-written member | corrected member |
|---|---|---|---|---|---|---|
| backend/routers/voice_api.py:1211-1241 | `voice_config` is assigned only inside `if request.prompt:`, yet line 1241 reads it for every call | an outbound call request with no `prompt` (or an empty one): line 1241 raises `UnboundLocalError` and the call is never dialled | the configured codec, else PCMU, for every call | high; not executed | Calls.DialCodecAsWritten | Calls.DialCodec |

`Calls.DialCodecDiscrepancy` proves that the two agree exactly when the call has a prompt. `Calls.Dial` uses the corrected codec.

`Startup.TrailingSlashDoublesSuffix` proves that an `OLLAMA_URL` ending in `/v1/` is stored as `.../v1/v1`. The `endswith("/v1")` test (backend/main.py:363) looks at the URL before `rstrip('/')` removes the slash. Whether that is intended is not clear from the code, so the model keeps it as written.
