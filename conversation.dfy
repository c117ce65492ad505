/** The per-turn text logic of a voice call: the system prompt the model is given, the
    message list sent with each turn, the streamed reply, the audio a reply becomes, the
    wait before a requested hangup, and the history and transcript a call keeps. */
module Conversation {
  import opened Common
  import Silence

  // ---------------------------------------------------------------------
  // The system prompt

  const DefaultSystemPrompt: string := "\nYou are a helpful AI assistant.\n"
  const GoalSeparator: string := "\n\nCurrent Call Goal: "
  const ToolInstructions: string := "\nYou can control the call by outputting a JSON block at the very end of your response.\nAvailable Tools:\n- hangup: Ends the call. Use this when the user says goodbye or wants to stop.\n\nIf you decide to hangup, you MUST generate a polite sign-off message (e.g., \"Goodbye!\", \"Have a nice day!\") before the JSON block in the \"[Your spoken response here]\" section.\n\nFormat:\n[Your spoken response here]\n```json\n{\n  \"action\": \"hangup\",\n  \"reason\": \"user said goodbye\"\n}\n```\nIMPORTANT: Do NOT output any text after the JSON block. Do NOT read the JSON block aloud.\n"

  /** A configured prompt that is set and not only whitespace. */
  predicate Usable(p: Option<string>) {
    Truthy(p) && Strip(p.value) != ""
  }

  /** The configured prompt and the call's own goal, in that order. */
  function WithGoal(system: string, goal: string): string {
    system + GoalSeparator + goal
  }

  /** The prompt before context and tools: the configured prompt with the call goal
      when both are usable, either one alone, or the built-in default. */
  function BasePrompt(goal: Option<string>, configured: Option<string>): (r: string)
    ensures r != ""
    ensures Truthy(goal) ==> EndsWith(r, goal.value)
    ensures Usable(configured) ==> StartsWith(r, configured.value)
    ensures !Truthy(goal) && !Usable(configured) ==> r == DefaultSystemPrompt
  {
    if Truthy(goal) then
      if Usable(configured) then WithGoal(configured.value, goal.value) else goal.value
    else if Usable(configured) then configured.value
    else DefaultSystemPrompt
  }

  /** The note that tells the model which Open WebUI user and chat the call belongs to;
      nothing when neither is known. */
  function ContextNote(userId: Option<string>, chatId: Option<string>): (r: string)
    ensures r == "" <==> !Truthy(userId) && !Truthy(chatId)
  {
    if Truthy(userId) || Truthy(chatId) then
      "\n\n[Context: user_id=" + Render(userId) + ", chat_id=" + Render(chatId) + "]"
    else ""
  }

  /** The system prompt of every turn. */
  function SystemPrompt(goal: Option<string>, configured: Option<string>, userId: Option<string>,
                        chatId: Option<string>): string
  {
    BasePrompt(goal, configured) + ContextNote(userId, chatId) + ("\n" + ToolInstructions)
  }

  /** Every turn's prompt ends with the tool instructions and starts with the base prompt,
      and carries the context note exactly when a user or chat is known. */
  lemma SystemPromptShape(goal: Option<string>, configured: Option<string>, userId: Option<string>,
                          chatId: Option<string>)
    ensures var p := SystemPrompt(goal, configured, userId, chatId);
      EndsWith(p, "\n" + ToolInstructions) && StartsWith(p, BasePrompt(goal, configured)) &&
      (!Truthy(userId) && !Truthy(chatId) <==> p == BasePrompt(goal, configured) + ("\n" + ToolInstructions))
  {
    PromptParts(BasePrompt(goal, configured), ContextNote(userId, chatId), "\n" + ToolInstructions);
  }

  lemma PromptParts(b: string, c: string, t: string)
    ensures EndsWith(b + c + t, t) && StartsWith(b + c + t, b)
    ensures c == "" <==> b + c + t == b + t
  {
    var p := b + c + t;
    assert p[|p| - |t|..] == t;
    assert p[..|b|] == b;
    if c != "" {
      assert |p| > |b + t|;
    }
  }

  /** The system message of the greeting generated before the call connects. Unlike the
      turn prompt, the configured prompt only needs to be non-empty, not non-blank. */
  function GreetingSystemMessage(configured: Option<string>, goal: string): (r: string)
    ensures EndsWith(r, goal)
    ensures !Truthy(configured) ==> r == goal
  {
    if Truthy(configured) then WithGoal(configured.value, goal) else goal
  }

  /** The greeting and the turns agree on the call goal whenever the configured prompt
      has visible text, and part ways on one that is whitespace only. */
  lemma GreetingAgreesWithTurns(configured: Option<string>, goal: string)
    requires goal != ""
    ensures Usable(configured) || !Truthy(configured) ==>
      GreetingSystemMessage(configured, goal) == BasePrompt(Some(goal), configured)
    ensures Truthy(configured) && !Usable(configured) ==>
      GreetingSystemMessage(configured, goal) != BasePrompt(Some(goal), configured)
  {
    if Truthy(configured) && !Usable(configured) {
      assert |WithGoal(configured.value, goal)| > |goal|;
    }
  }

  // ---------------------------------------------------------------------
  // Messages

  datatype Role = System | User | Assistant

  datatype Message = Message(role: Role, content: string)

  /** The messages of the greeting request: the system message, then a fixed request. */
  function GreetingMessages(configured: Option<string>, goal: string): (r: seq<Message>)
    ensures |r| == 2 && r[0].role == System && r[1] == Message(User, "Introduce yourself.")
    ensures EndsWith(r[0].content, goal)
  {
    [Message(System, GreetingSystemMessage(configured, goal)), Message(User, "Introduce yourself.")]
  }

  /** The messages of one turn: the system prompt, then the whole history (which already
      ends with this turn's words) or, without context, only this turn's words. */
  function TurnMessages(sendContext: bool, system: string, history: seq<Message>, words: string): (r: seq<Message>)
    ensures |r| >= 1 && r[0] == Message(System, system)
    ensures sendContext ==> r[1..] == history
    ensures !sendContext ==> r[1..] == [Message(User, words)]
  {
    if sendContext then [Message(System, system)] + history
    else [Message(System, system), Message(User, words)]
  }

  predicate NoSystem(h: seq<Message>) {
    forall i :: 0 <= i < |h| ==> h[i].role != System
  }

  /** With or without context a turn ends with the caller's words and has exactly one
      system message, at the front. */
  lemma TurnMessagesAgree(sendContext: bool, system: string, history: seq<Message>, words: string)
    requires NoSystem(history)
    ensures var r := TurnMessages(sendContext, system, history + [Message(User, words)], words);
      r[|r| - 1] == Message(User, words) &&
      forall i :: 0 < i < |r| ==> r[i].role != System
  {
    var h := history + [Message(User, words)];
    var r := TurnMessages(sendContext, system, h, words);
    if sendContext {
      forall i | 0 < i < |r| ensures r[i].role != System {
        assert r[i] == h[i - 1];
      }
    }
  }

  // ---------------------------------------------------------------------
  // The streamed reply

  const DataPrefix: string := "data: "
  const DoneMarker: string := "[DONE]"

  /** What one line of the event stream contributes. `delta` stands for parsing the JSON
      after the prefix and reading `choices[0].delta.content`: `None` when that raises. */
  datatype SseLine = Ignore | Text(piece: string) | Done

  function ReadLine(line: string, delta: string -> Option<string>): (r: SseLine)
    ensures r == Done <==> StartsWith(line, DataPrefix) && line[|DataPrefix|..] == DoneMarker
    ensures !StartsWith(line, DataPrefix) ==> r == Ignore
    ensures r.Text? ==> r.piece != ""
  {
    if line == "" || !StartsWith(line, DataPrefix) then Ignore
    else
      var content := line[|DataPrefix|..];
      if content == DoneMarker then Done
      else
        var d := delta(content);
        if Truthy(d) then Text(d.value) else Ignore
  }

  /** The reply the stream carries: every delta in order, up to the first `[DONE]`. */
  function ReplyText(lines: seq<string>, delta: string -> Option<string>): string
  {
    if lines == [] then ""
    else match ReadLine(lines[0], delta)
      case Done => ""
      case Ignore => ReplyText(lines[1..], delta)
      case Text(p) => p + ReplyText(lines[1..], delta)
  }

  predicate NoDone(lines: seq<string>, delta: string -> Option<string>) {
    forall i :: 0 <= i < |lines| ==> ReadLine(lines[i], delta) != Done
  }

  /** Lines before any `[DONE]` add their text in order. */
  lemma {:induction false} ReplyAppend(a: seq<string>, b: seq<string>, delta: string -> Option<string>)
    requires NoDone(a, delta)
    ensures ReplyText(a + b, delta) == ReplyText(a, delta) + ReplyText(b, delta)
  {
    if a != [] {
      assert ReadLine(a[0], delta) != Done;
      assert NoDone(a[1..], delta) by {
        forall i | 0 <= i < |a| - 1 ensures ReadLine(a[1..][i], delta) != Done {
          assert a[1..][i] == a[i + 1];
        }
      }
      ReplyAppend(a[1..], b, delta);
      var s := a + b;
      assert s[0] == a[0];
      assert s[1..] == a[1..] + b;
      match ReadLine(a[0], delta)
      case Ignore =>
        assert ReplyText(s, delta) == ReplyText(a[1..] + b, delta);
      case Text(p) =>
        assert ReplyText(s, delta) == p + ReplyText(a[1..] + b, delta);
    } else {
      assert a + b == b;
    }
  }

  /** Nothing after the first `[DONE]` reaches the reply. */
  lemma ReplyStopsAtDone(a: seq<string>, done: string, b: seq<string>, delta: string -> Option<string>)
    requires NoDone(a, delta) && ReadLine(done, delta) == Done
    ensures ReplyText(a + [done] + b, delta) == ReplyText(a, delta)
  {
    assert a + [done] + b == a + ([done] + b);
    ReplyAppend(a, [done] + b, delta);
    assert ([done] + b)[0] == done;
  }

  /** A stream with no `data:` line yields the empty reply. */
  lemma {:induction false} NoDataNoReply(lines: seq<string>, delta: string -> Option<string>)
    requires forall i :: 0 <= i < |lines| ==> !StartsWith(lines[i], DataPrefix)
    ensures ReplyText(lines, delta) == ""
  {
    if lines != [] {
      NoDataNoReply(lines[1..], delta);
    }
  }

  /** The accumulation loop over the stream's lines. */
  method AccumulateReply(lines: seq<string>, delta: string -> Option<string>) returns (buffer: string)
    ensures buffer == ReplyText(lines, delta)
  {
    buffer := "";
    var i := 0;
    while i < |lines|
      invariant 0 <= i <= |lines|
      invariant buffer + ReplyText(lines[i..], delta) == ReplyText(lines, delta)
      decreases |lines| - i
    {
      assert lines[i..][1..] == lines[i + 1..];
      var step := ReadLine(lines[i], delta);
      if step == Done {
        assert ReplyText(lines[i..], delta) == "";
        assert buffer == ReplyText(lines, delta);
        return;
      }
      if step.Text? {
        buffer := buffer + step.piece;
      }
      i := i + 1;
    }
    assert lines[i..] == [];
  }

  // ---------------------------------------------------------------------
  // The audio of a reply

  /** The warm-up silence before spoken audio, in milliseconds. */
  const PaddingMs: nat := 100

  /** The frames played for a reply's spoken text: nothing for blank text, otherwise
      100 ms of silence frames carrying the `stream_id` member, then the speech frames,
      whose `stream_id` is set only when one is known. */
  function SpokenFrames(spoken: string, codec: string, streamId: Option<string>,
                        speech: seq<seq<byte>>): (r: seq<MediaFrame>)
    ensures Strip(spoken) == "" ==> r == []
    ensures Strip(spoken) != "" ==> |r| == 5 + |speech|
    ensures Strip(spoken) != "" ==>
      forall i :: 0 <= i < 5 ==> r[i] == MediaFrame(Silence.SilenceChunk(codec), FieldOf(streamId))
    ensures Strip(spoken) != "" ==> forall i :: 0 <= i < |speech| ==> r[5 + i].payload == speech[i]
  {
    if Strip(spoken) == "" then []
    else
      var pad := PaddingFrames(codec, streamId);
      var talk := SpeechFrames(speech, streamId);
      assert forall i :: 0 <= i < |talk| ==> (pad + talk)[5 + i] == talk[i];
      pad + talk
  }

  /** `generate_silence(0.1, codec)`: five 20 ms chunks. */
  function PaddingFrames(codec: string, streamId: Option<string>): (r: seq<MediaFrame>)
    ensures |r| == 5
    ensures forall i :: 0 <= i < 5 ==> r[i] == MediaFrame(Silence.SilenceChunk(codec), FieldOf(streamId))
  {
    Silence.ChunkCountMs(PaddingMs, codec);
    Repeat(MediaFrame(Silence.SilenceChunk(codec), FieldOf(streamId)), Silence.ChunkCount(PaddingMs, codec))
  }

  function SpeechFrames(speech: seq<seq<byte>>, streamId: Option<string>): (r: seq<MediaFrame>)
    ensures |r| == |speech|
    ensures forall i :: 0 <= i < |r| ==> r[i].payload == speech[i]
    ensures forall i :: 0 <= i < |r| ==> r[i].streamId == if Truthy(streamId) then Str(streamId.value) else Absent
  {
    if speech == [] then []
    else
      var id := if Truthy(streamId) then Str(streamId.value) else Absent;
      SpeechFrames(speech[..|speech| - 1], streamId) + [MediaFrame(speech[|speech| - 1], id)]
  }

  /** The speech bytes counted for the hangup wait: every payload, decoded. */
  function SentBytes(speech: seq<seq<byte>>): (n: nat)
  {
    if speech == [] then 0 else SentBytes(speech[..|speech| - 1]) + |speech[|speech| - 1]|
  }

  /** The count is the length of all the speech audio in order. */
  lemma {:induction false} SentBytesIsAudio(speech: seq<seq<byte>>)
    ensures SentBytes(speech) == |Concat(speech)|
  {
    if speech != [] {
      SentBytesIsAudio(speech[..|speech| - 1]);
    }
  }

  // ---------------------------------------------------------------------
  // Waiting before a hangup

  const BufferSeconds: real := 0.1
  const EchoTailSeconds: real := 1.0

  function BytesPerSecond(codec: string): (r: real)
    ensures r > 0.0
  {
    if codec == "L16" then 16000.0 else 8000.0
  }

  function PlaybackSeconds(codec: string, sentBytes: nat): (r: real)
    ensures r >= 0.0
    ensures sentBytes > 0 ==> r > 0.0
  {
    sentBytes as real / BytesPerSecond(codec)
  }

  /** A loop-clock reading taken when speech started; `0.0` is falsy like a missing one. */
  predicate Started(speechStart: Option<real>) {
    speechStart.Some? && speechStart.value != 0.0
  }

  /** The wait before hanging up, at clock reading `now`. */
  function HangupWait(codec: string, sentBytes: nat, speechStart: Option<real>, now: real): (w: real)
    ensures w >= BufferSeconds
    ensures sentBytes == 0 ==> w == BufferSeconds
    ensures sentBytes > 0 && !Started(speechStart) ==> w == PlaybackSeconds(codec, sentBytes) + BufferSeconds
    ensures sentBytes > 0 && Started(speechStart) ==>
      now + w >= speechStart.value + PlaybackSeconds(codec, sentBytes) + BufferSeconds
  {
    if sentBytes > 0 then
      var duration := PlaybackSeconds(codec, sentBytes);
      if Started(speechStart) then
        var remaining := duration - (now - speechStart.value);
        if remaining > 0.0 then remaining + BufferSeconds else BufferSeconds
      else duration + BufferSeconds
    else BufferSeconds
  }

  function Max(a: real, b: real): real {
    if a >= b then a else b
  }

  /** Once speech has started the wait is the least that is at least the buffer and
      reaches the buffer past the end of playback. */
  lemma HangupWaitIsLeast(codec: string, sentBytes: nat, speechStart: Option<real>, now: real)
    requires sentBytes > 0 && Started(speechStart)
    ensures HangupWait(codec, sentBytes, speechStart, now) ==
      Max(BufferSeconds, speechStart.value + PlaybackSeconds(codec, sentBytes) + BufferSeconds - now)
    ensures now - speechStart.value >= PlaybackSeconds(codec, sentBytes) ==>
      HangupWait(codec, sentBytes, speechStart, now) == BufferSeconds
  {
  }

  /** The pause after a turn: the hangup wait, or the echo tail. */
  function TurnPause(hangup: bool, codec: string, sentBytes: nat, speechStart: Option<real>, now: real): (w: real)
    ensures w >= BufferSeconds
    ensures !hangup ==> w == EchoTailSeconds
  {
    if hangup then HangupWait(codec, sentBytes, speechStart, now) else EchoTailSeconds
  }

  // ---------------------------------------------------------------------
  // History and transcript

  function Label(m: Message): string {
    (if m.role == User then "User: " else "Assistant: ") + m.content
  }

  /** The transcript lines of a history, one per message. */
  function TranscriptOf(h: seq<Message>): (r: seq<string>)
    ensures |r| == |h|
  {
    if h == [] then [] else TranscriptOf(h[..|h| - 1]) + [Label(h[|h| - 1])]
  }

  predicate HasAssistant(h: seq<Message>) {
    exists i :: 0 <= i < |h| && h[i].role == Assistant
  }

  /** The stored greeting joins the history unless an assistant message is already there. */
  function BindGreeting(h: seq<Message>, greeting: Option<string>): (r: seq<Message>)
  {
    if Truthy(greeting) && !HasAssistant(h) then h + [Message(Assistant, greeting.value)] else h
  }

  /** Binding a greeting a second time, the same or another, changes nothing. */
  lemma GreetingBindsOnce(h: seq<Message>, g1: Option<string>, g2: Option<string>)
    requires Truthy(g1)
    ensures BindGreeting(BindGreeting(h, g1), g2) == BindGreeting(h, g1)
    ensures HasAssistant(BindGreeting(h, g1))
  {
    var r := BindGreeting(h, g1);
    if !HasAssistant(h) {
      assert r[|r| - 1].role == Assistant;
    }
  }

  /** The history of a call (the messages sent as context) and its transcript (the lines
      stored in the call log); each message has its transcript line. */
  class Dialogue {
    var history: seq<Message>
    var transcript: seq<string>

    ghost predicate Valid()
      reads this
    {
      NoSystem(history) && transcript == TranscriptOf(history)
    }

    /** A session starts with the greeting stored for it, if any. */
    constructor (greeting: Option<string>)
      ensures Valid()
      ensures history == BindGreeting([], greeting)
    {
      if Truthy(greeting) {
        history := [Message(Assistant, greeting.value)];
        transcript := ["Assistant: " + greeting.value];
      } else {
        history := [];
        transcript := [];
      }
    }

    /** The greeting that arrived while the preloaded audio was awaited. */
    method LateBindGreeting(greeting: Option<string>)
      requires Valid()
      modifies this
      ensures Valid()
      ensures history == BindGreeting(old(history), greeting)
    {
      if Truthy(greeting) && !HasAssistant(history) {
        AppendKeeps(history, Message(Assistant, greeting.value));
        history := history + [Message(Assistant, greeting.value)];
        transcript := transcript + ["Assistant: " + greeting.value];
      }
    }

    /** The caller's words open a turn. */
    method RecordUser(words: string)
      requires Valid()
      modifies this
      ensures Valid()
      ensures history == old(history) + [Message(User, words)]
      ensures transcript == old(transcript) + ["User: " + words]
    {
      AppendKeeps(history, Message(User, words));
      history := history + [Message(User, words)];
      transcript := transcript + ["User: " + words];
    }

    /** The spoken reply closes it, unless there is nothing to say. */
    method RecordAssistant(spoken: string)
      requires Valid()
      modifies this
      ensures Valid()
      ensures Strip(spoken) != "" ==> history == old(history) + [Message(Assistant, spoken)]
      ensures Strip(spoken) != "" ==> transcript == old(transcript) + ["Assistant: " + spoken]
      ensures Strip(spoken) == "" ==> history == old(history) && transcript == old(transcript)
    {
      if Strip(spoken) != "" {
        AppendKeeps(history, Message(Assistant, spoken));
        history := history + [Message(Assistant, spoken)];
        transcript := transcript + ["Assistant: " + spoken];
      }
    }
  }

  lemma AppendKeeps(h: seq<Message>, m: Message)
    requires NoSystem(h) && m.role != System
    ensures NoSystem(h + [m])
    ensures TranscriptOf(h + [m]) == TranscriptOf(h) + [Label(m)]
  {
    assert (h + [m])[..|h|] == h;
  }
}
