/** The caller-side half of a media session: inbound audio frames are decoded to
    16-bit PCM, buffered, and cut into utterances by an energy detector. An utterance
    ends after 1.2 s of quiet once at least 0.5 s is buffered, or unconditionally
    past 15 s; a buffer that never held a loud chunk is discarded instead. While the
    assistant is speaking, inbound audio is ignored entirely.

    Durations are kept as byte counts of 8 kHz 16-bit mono PCM (16000 bytes per
    second), so the 15 s, 1.2 s and 0.5 s thresholds are 240000, 19200 and 8000 bytes. */
module TurnSegmenter {
  import opened Common
  import opened Wav

  const BytesPerSecond: nat := 16000
  const EnergyThreshold: int := 500
  const MaxBufferBytes: nat := 240000
  const SilenceBytes: nat := 19200
  const MinSpeechBytes: nat := 8000

  /** The decoders the receive loop calls; `None` where the call raises
      (malformed base64, or `audioop.rms` on an odd number of bytes). */
  datatype Decoders = Decoders(
    b64decode: string -> Option<seq<byte>>,
    ulaw2lin: seq<byte> -> seq<byte>,
    alaw2lin: seq<byte> -> seq<byte>,
    rms: seq<byte> -> Option<int>)

  /** The codec's inbound conversion: L16 is already PCM, PCMA is A-law, all else μ-law. */
  function ToPcm(dec: Decoders, codec: string, audio: seq<byte>): (pcm: seq<byte>)
    ensures codec == "L16" ==> pcm == audio
    ensures codec != "L16" && codec == "PCMA" ==> pcm == dec.alaw2lin(audio)
    ensures codec != "L16" && codec != "PCMA" ==> pcm == dec.ulaw2lin(audio)
  {
    if codec == "L16" then audio else if codec == "PCMA" then dec.alaw2lin(audio) else dec.ulaw2lin(audio)
  }

  datatype Reason = MaxDuration | SilenceDetected

  /** The detector's state: buffered PCM, quiet bytes since the last loud chunk, and
      whether any chunk since the last reset was loud. */
  datatype Vad = Vad(buffer: seq<byte>, silence: nat, speech: bool)

  const Reset: Vad := Vad([], 0, false)

  /** What one inbound media event did. */
  datatype Outcome =
    | Ignored
    | Buffered
    | Discarded
    | Utterance(reason: Reason, wav: seq<byte>)
    | Fault

  /** The end-of-utterance test, in the order the loop applies it. */
  function Boundary(bufferLen: nat, silence: nat): (r: Option<Reason>)
    ensures r == Some(MaxDuration) <==> bufferLen > MaxBufferBytes
    ensures r == Some(SilenceDetected) <==>
      bufferLen <= MaxBufferBytes && silence > SilenceBytes && bufferLen > MinSpeechBytes
  {
    if bufferLen > MaxBufferBytes then Some(MaxDuration)
    else if silence > SilenceBytes && bufferLen > MinSpeechBytes then Some(SilenceDetected)
    else None
  }

  datatype StepResult = StepResult(vad: Vad, outcome: Outcome)

  /** One decoded chunk of PCM with energy `energy`: buffer it, update the quiet counter
      and the speech flag, and act on a boundary. A speech-less buffer at a silence
      boundary is dropped; any other boundary is wrapped in an 8 kHz mono 16-bit WAV
      header for transcription. The detector is reset after either. */
  function VadStep(v: Vad, pcm: seq<byte>, energy: int): StepResult
  {
    Cut(Accumulate(v, pcm, energy))
  }

  /** The chunk buffered, the quiet counter and the speech flag moved with its energy. */
  function Accumulate(v: Vad, pcm: seq<byte>, energy: int): Vad {
    Vad(v.buffer + pcm,
        if energy < EnergyThreshold then v.silence + |pcm| else 0,
        v.speech || energy >= EnergyThreshold)
  }

  /** The detector acting on a boundary, if the updated state has reached one. */
  function Cut(w: Vad): StepResult {
    match Boundary(|w.buffer|, w.silence)
    case None => StepResult(w, Buffered)
    case Some(reason) =>
      if !w.speech && reason == SilenceDetected then StepResult(Reset, Discarded)
      else match CreateWavHeader(w.buffer, 8000, 1, 16)
        case None => StepResult(w, Fault)
        case Some(wav) => StepResult(Reset, Utterance(reason, wav))
  }

  /** One `"media"` event as the receive loop handles it. */
  function OnMediaSpec(dec: Decoders, codec: string, botSpeaking: bool, v: Vad, payload: Option<string>): StepResult
  {
    if botSpeaking || !Truthy(payload) then StepResult(v, Ignored)
    else match dec.b64decode(payload.value)
      case None => StepResult(v, Fault)
      case Some(audio) =>
        var pcm := ToPcm(dec, codec, audio);
        match dec.rms(pcm)
        case None => StepResult(Vad(v.buffer + pcm, v.silence, v.speech), Fault)
        case Some(energy) => VadStep(v, pcm, energy)
  }

  /** After every event that does not end the loop, the buffer stays within 15 s. */
  lemma StepBounded(v: Vad, pcm: seq<byte>, energy: int)
    ensures var r := VadStep(v, pcm, energy);
      r.outcome != Fault ==> |r.vad.buffer| <= MaxBufferBytes
  {
  }

  /** A boundary always resets the detector, whether the audio is discarded or sent on. */
  lemma BoundaryResets(v: Vad, pcm: seq<byte>, energy: int)
    ensures var r := VadStep(v, pcm, energy);
      (r.outcome.Discarded? || r.outcome.Utterance?) ==> r.vad == Reset
    ensures var s := if energy < EnergyThreshold then v.silence + |pcm| else 0;
      VadStep(v, pcm, energy).outcome.Buffered? <==> Boundary(|v.buffer| + |pcm|, s).None?
  {
  }

  /** An utterance is exactly the audio buffered since the last reset, behind a header
      that declares 8 kHz, mono, 16-bit; one cut on silence holds speech and more than
      half a second of audio. */
  lemma UtteranceContents(v: Vad, pcm: seq<byte>, energy: int)
    requires VadStep(v, pcm, energy).outcome.Utterance?
    ensures var o := VadStep(v, pcm, energy).outcome;
      && |o.wav| == HeaderSize + |v.buffer| + |pcm| && o.wav[HeaderSize..] == v.buffer + pcm
      && ReadLE32(o.wav, SampleRateOffset) == 8000 && ReadLE16(o.wav, 22) == 1 && ReadLE16(o.wav, 34) == 16
    ensures var o := VadStep(v, pcm, energy).outcome;
      o.reason == SilenceDetected ==> (v.speech || energy >= EnergyThreshold) && |v.buffer| + |pcm| > MinSpeechBytes
    ensures var o := VadStep(v, pcm, energy).outcome;
      o.reason == MaxDuration <==> |v.buffer| + |pcm| > MaxBufferBytes
  {
    WavHeaderReadsBack(v.buffer + pcm, 8000, 1, 16);
  }

  /** A buffer is discarded exactly when a silence boundary is reached and no chunk
      since the last reset was loud. */
  lemma DiscardExactly(v: Vad, pcm: seq<byte>, energy: int)
    ensures var s := if energy < EnergyThreshold then v.silence + |pcm| else 0;
      VadStep(v, pcm, energy).outcome == Discarded <==>
        (Boundary(|v.buffer| + |pcm|, s) == Some(SilenceDetected) && !v.speech && energy < EnergyThreshold)
  {
  }

  /** One chunk of the inbound stream, already decoded, with its energy. */
  datatype Chunk = Chunk(pcm: seq<byte>, energy: int)

  /** The outcomes of a run of chunks, and the detector state after it. */
  datatype RunResult = RunResult(vad: Vad, outcomes: seq<Outcome>)

  function RunVad(v: Vad, chunks: seq<Chunk>): (r: RunResult)
    ensures |r.outcomes| == |chunks|
  {
    if chunks == [] then RunResult(v, [])
    else
      var prev := RunVad(v, chunks[..|chunks| - 1]);
      var last := chunks[|chunks| - 1];
      var step := VadStep(prev.vad, last.pcm, last.energy);
      RunResult(step.vad, prev.outcomes + [step.outcome])
  }

  predicate Quiet(chunks: seq<Chunk>) {
    forall i :: 0 <= i < |chunks| ==> chunks[i].energy < EnergyThreshold && |chunks[i].pcm| <= MaxBufferBytes - SilenceBytes
  }

  /** Line noise is never transcribed: from a reset detector, a run of quiet chunks
      (none longer than 13.8 s) only ever buffers or discards, because the quiet
      counter tracks the whole buffer and the silence boundary fires first. */
  lemma {:induction false} QuietNeverTranscribed(chunks: seq<Chunk>)
    requires Quiet(chunks)
    ensures var r := RunVad(Reset, chunks);
      && !r.vad.speech && r.vad.silence == |r.vad.buffer| <= SilenceBytes
      && forall i :: 0 <= i < |chunks| ==> r.outcomes[i] == Buffered || r.outcomes[i] == Discarded
  {
    if chunks != [] {
      var init := chunks[..|chunks| - 1];
      assert forall i :: 0 <= i < |init| ==> init[i] == chunks[i];
      QuietNeverTranscribed(init);
      var prev := RunVad(Reset, init);
      var last := chunks[|chunks| - 1];
      assert last.energy < EnergyThreshold && |last.pcm| <= MaxBufferBytes - SilenceBytes;
      var r := RunVad(Reset, chunks);
      assert r.outcomes == prev.outcomes + [VadStep(prev.vad, last.pcm, last.energy).outcome];
    }
  }

  /** The mutable VAD state of one media session: the inbound buffer, the quiet
      counter, the speech flag, and the `is_bot_speaking` gate shared with the sender
      and the turn tasks. */
  class Listener {
    var buffer: seq<byte>
    var silence: nat
    var speech: bool
    var botSpeaking: bool

    function State(): Vad
      reads this
    {
      Vad(buffer, silence, speech)
    }

    /** A session starts deaf: the gate is held until the greeting has been played. */
    constructor ()
      ensures State() == Reset && botSpeaking
    {
      buffer := [];
      silence := 0;
      speech := false;
      botSpeaking := true;
    }

    /** One `"media"` event of the receive loop. */
    method OnMedia(dec: Decoders, codec: string, payload: Option<string>) returns (out: Outcome)
      modifies this
      ensures StepResult(State(), out) == OnMediaSpec(dec, codec, old(botSpeaking), old(State()), payload)
      ensures botSpeaking == old(botSpeaking)
      ensures old(botSpeaking) ==> out == Ignored && State() == old(State())
    {
      if botSpeaking || !Truthy(payload) {
        return Ignored;
      }
      var decoded := dec.b64decode(payload.value);
      if decoded.None? {
        return Fault;
      }
      var pcm := ToPcm(dec, codec, decoded.value);
      var energy := dec.rms(pcm);
      if energy.None? {
        buffer := buffer + pcm;
        return Fault;
      }
      out := Detect(pcm, energy.value);
    }

    /** The detector's part of a media event: the chunk is buffered, the quiet counter
        and the speech flag move with its energy, and a boundary is acted on. */
    method Detect(pcm: seq<byte>, energy: int) returns (out: Outcome)
      modifies this
      ensures StepResult(State(), out) == VadStep(old(State()), pcm, energy)
      ensures botSpeaking == old(botSpeaking)
    {
      buffer := buffer + pcm;
      if energy < EnergyThreshold {
        silence := silence + |pcm|;
      } else {
        silence := 0;
        speech := true;
      }
      assert State() == Accumulate(old(State()), pcm, energy);
      var boundary := Boundary(|buffer|, silence);
      if boundary.None? {
        return Buffered;
      }
      if !speech && boundary.value == SilenceDetected {
        buffer, silence, speech := [], 0, false;
        return Discarded;
      }
      var wav := CreateWavHeader(buffer, 8000, 1, 16);
      if wav.None? {
        return Fault;
      }
      out := Utterance(boundary.value, wav.value);
      buffer, silence, speech := [], 0, false;
    }

    /** A conversation turn starts: inbound audio is ignored until it ends. */
    method BeginTurn()
      modifies this
      ensures botSpeaking && State() == old(State())
    {
      botSpeaking := true;
    }

    /** The `finally` of the sender and of every turn: the gate is released and the
        buffer cleared; the quiet counter and speech flag are left as they were. */
    method EndSpeaking()
      modifies this
      ensures !botSpeaking && buffer == [] && silence == old(silence) && speech == old(speech)
    {
      botSpeaking := false;
      buffer := [];
    }
  }

  /** An event of the receive loop. `Malformed` is a frame `json.loads` rejects. */
  datatype InboundEvent = Media(payload: Option<string>) | Stop | OtherEvent | Malformed

  /** How the receive loop ended. */
  datatype Ending = Stopped | Failed | Exhausted

  /** The utterances a run of events produces while the gate stays as it is, and how
      the run ended: at the first `stop`, at the first event that raises, or when the
      events run out. */
  datatype ListenResult = ListenResult(utterances: seq<seq<byte>>, vad: Vad, ending: Ending, consumed: nat)

  function ListenSpec(dec: Decoders, codec: string, gate: bool, v: Vad, events: seq<InboundEvent>): (r: ListenResult)
    ensures r.consumed <= |events|
    ensures r.ending == Exhausted ==> r.consumed == |events|
    decreases |events|
  {
    if events == [] then ListenResult([], v, Exhausted, 0)
    else match events[0]
      case Stop => ListenResult([], v, Stopped, 1)
      case Malformed => ListenResult([], v, Failed, 1)
      case OtherEvent =>
        var rest := ListenSpec(dec, codec, gate, v, events[1..]);
        rest.(consumed := rest.consumed + 1)
      case Media(p) =>
        var step := OnMediaSpec(dec, codec, gate, v, p);
        if step.outcome == Fault then ListenResult([], step.vad, Failed, 1)
        else
          var rest := ListenSpec(dec, codec, gate, step.vad, events[1..]);
          var mine := if step.outcome.Utterance? then [step.outcome.wav] else [];
          rest.(utterances := mine + rest.utterances, consumed := rest.consumed + 1)
  }

  /** Nothing after the first `stop` is looked at. */
  lemma StopEndsListening(dec: Decoders, codec: string, gate: bool, v: Vad,
                          events: seq<InboundEvent>, more: seq<InboundEvent>)
    requires Stop in events
    ensures ListenSpec(dec, codec, gate, v, events + more) == ListenSpec(dec, codec, gate, v, events)
    decreases |events|
  {
    assert (events + more)[0] == events[0];
    if events[0] != Stop {
      assert (events + more)[1..] == events[1..] + more;
      if events[0].Media? {
        var step := OnMediaSpec(dec, codec, gate, v, events[0].payload);
        if step.outcome != Fault {
          StopEndsListening(dec, codec, gate, step.vad, events[1..], more);
        }
      } else if events[0] == OtherEvent {
        StopEndsListening(dec, codec, gate, v, events[1..], more);
      }
    }
  }

  /** `r` with utterances `u` put in front and `k` more events counted. */
  function Prepend(u: seq<seq<byte>>, k: nat, r: ListenResult): ListenResult {
    r.(utterances := u + r.utterances, consumed := r.consumed + k)
  }

  lemma PrependTwice(a: seq<seq<byte>>, i: nat, b: seq<seq<byte>>, j: nat, r: ListenResult)
    ensures Prepend(a, i, Prepend(b, j, r)) == Prepend(a + b, i + j, r)
  {
    assert a + (b + r.utterances) == (a + b) + r.utterances;
  }

  lemma ListenMedia(dec: Decoders, codec: string, gate: bool, v: Vad, p: Option<string>, rest: seq<InboundEvent>)
    requires OnMediaSpec(dec, codec, gate, v, p).outcome != Fault
    ensures var step := OnMediaSpec(dec, codec, gate, v, p);
      var mine := if step.outcome.Utterance? then [step.outcome.wav] else [];
      ListenSpec(dec, codec, gate, v, [Media(p)] + rest) == Prepend(mine, 1, ListenSpec(dec, codec, gate, step.vad, rest))
  {
    assert ([Media(p)] + rest)[1..] == rest;
  }

  lemma ListenOther(dec: Decoders, codec: string, gate: bool, v: Vad, rest: seq<InboundEvent>)
    ensures ListenSpec(dec, codec, gate, v, [OtherEvent] + rest) == Prepend([], 1, ListenSpec(dec, codec, gate, v, rest))
  {
    assert ([OtherEvent] + rest)[1..] == rest;
  }

  lemma ListenEnds(dec: Decoders, codec: string, gate: bool, v: Vad, e: InboundEvent, rest: seq<InboundEvent>)
    requires e.Stop? || e.Malformed?
    ensures ListenSpec(dec, codec, gate, v, [e] + rest)
      == ListenResult([], v, if e.Stop? then Stopped else Failed, 1)
  {
  }

  lemma ListenFault(dec: Decoders, codec: string, gate: bool, v: Vad, p: Option<string>, rest: seq<InboundEvent>)
    requires OnMediaSpec(dec, codec, gate, v, p).outcome == Fault
    ensures ListenSpec(dec, codec, gate, v, [Media(p)] + rest)
      == ListenResult([], OnMediaSpec(dec, codec, gate, v, p).vad, Failed, 1)
  {
  }

  /** The receive loop's invariant survives a media event that does not raise. */
  lemma ListenMediaStep(dec: Decoders, codec: string, gate: bool, v: Vad, events: seq<InboundEvent>, i: nat,
                        u: seq<seq<byte>>, whole: ListenResult)
    requires i < |events| && events[i].Media?
    requires OnMediaSpec(dec, codec, gate, v, events[i].payload).outcome != Fault
    requires whole == Prepend(u, i, ListenSpec(dec, codec, gate, v, events[i..]))
    ensures var step := OnMediaSpec(dec, codec, gate, v, events[i].payload);
      var mine := if step.outcome.Utterance? then [step.outcome.wav] else [];
      whole == Prepend(u + mine, i + 1, ListenSpec(dec, codec, gate, step.vad, events[i + 1..]))
  {
    var step := OnMediaSpec(dec, codec, gate, v, events[i].payload);
    var mine := if step.outcome.Utterance? then [step.outcome.wav] else [];
    assert events[i..] == [events[i]] + events[i + 1..];
    ListenMedia(dec, codec, gate, v, events[i].payload, events[i + 1..]);
    PrependTwice(u, i, mine, 1, ListenSpec(dec, codec, gate, step.vad, events[i + 1..]));
  }

  /** The receive loop's invariant survives an event it does not act on. */
  lemma ListenOtherStep(dec: Decoders, codec: string, gate: bool, v: Vad, events: seq<InboundEvent>, i: nat,
                        u: seq<seq<byte>>, whole: ListenResult)
    requires i < |events| && events[i] == OtherEvent
    requires whole == Prepend(u, i, ListenSpec(dec, codec, gate, v, events[i..]))
    ensures whole == Prepend(u, i + 1, ListenSpec(dec, codec, gate, v, events[i + 1..]))
  {
    assert events[i..] == [events[i]] + events[i + 1..];
    ListenOther(dec, codec, gate, v, events[i + 1..]);
    PrependTwice(u, i, [], 1, ListenSpec(dec, codec, gate, v, events[i + 1..]));
    assert u + [] == u;
  }

  /** While the assistant speaks, no inbound audio reaches the detector. */
  lemma {:induction false} GatedListensToNothing(dec: Decoders, codec: string, v: Vad, events: seq<InboundEvent>)
    ensures ListenSpec(dec, codec, true, v, events).utterances == []
    ensures ListenSpec(dec, codec, true, v, events).vad == v
    ensures var r := ListenSpec(dec, codec, true, v, events);
      r.ending == Failed ==> 1 <= r.consumed && events[r.consumed - 1] == Malformed
    decreases |events|
  {
    if events != [] && !events[0].Stop? && !events[0].Malformed? {
      GatedListensToNothing(dec, codec, v, events[1..]);
    }
  }

  /** The receive loop of the media session, with the gate as it stands. */
  method Listen(l: Listener, dec: Decoders, codec: string, events: seq<InboundEvent>)
    returns (utterances: seq<seq<byte>>, ending: Ending, consumed: nat)
    modifies l
    ensures ListenSpec(dec, codec, old(l.botSpeaking), old(l.State()), events)
      == ListenResult(utterances, l.State(), ending, consumed)
  {
    utterances := [];
    ending := Exhausted;
    var i := 0;
    ghost var gate := l.botSpeaking;
    ghost var whole := ListenSpec(dec, codec, gate, l.State(), events);
    assert events[0..] == events;
    while i < |events|
      invariant 0 <= i <= |events|
      invariant l.botSpeaking == gate
      invariant whole == Prepend(utterances, i, ListenSpec(dec, codec, gate, l.State(), events[i..]))
      decreases |events| - i
    {
      assert events[i..] == [events[i]] + events[i + 1..];
      match events[i] {
        case Stop =>
          ListenEnds(dec, codec, gate, l.State(), events[i], events[i + 1..]);
          ending := Stopped;
          consumed := i + 1;
          assert utterances + [] == utterances;
          return;
        case Malformed =>
          ListenEnds(dec, codec, gate, l.State(), events[i], events[i + 1..]);
          ending := Failed;
          consumed := i + 1;
          assert utterances + [] == utterances;
          return;
        case OtherEvent =>
          ListenOtherStep(dec, codec, gate, l.State(), events, i, utterances, whole);
        case Media(p) =>
          ghost var v := l.State();
          var out := l.OnMedia(dec, codec, p);
          if out == Fault {
            ListenFault(dec, codec, gate, v, p, events[i + 1..]);
            assert utterances + [] == utterances;
            ending := Failed;
            consumed := i + 1;
            return;
          }
          var mine := if out.Utterance? then [out.wav] else [];
          ListenMediaStep(dec, codec, gate, v, events, i, utterances, whole);
          utterances := utterances + mine;
      }
      i := i + 1;
    }
    consumed := i;
  }
}
