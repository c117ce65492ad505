/** The process-wide tables a call goes through: the stream map (the short id in a
    stream URL to the call it belongs to), the call context (user, chat and greeting per
    call id) and the preloaded greeting audio queues, with the sender's queue drain. */
module Registry {
  import opened Common

  const DefaultMaxDuration: int := 600
  const DefaultLimitMessage: string := "This call has reached its time limit. Goodbye."

  /** A stream-map entry: a bare call id, as older entries were, or a record whose
      members are `None` when the key is absent. */
  datatype Entry =
    | Legacy(id: string)
    | Record(callId: Option<string>, dbId: Option<int>, prompt: Option<string>,
             maxDuration: Option<int>, limitMessage: Option<string>)

  /** What a socket learns from its short id. */
  datatype Session = Session(callId: Option<string>, dbId: Option<int>, goal: Option<string>,
                             maxDuration: int, limitMessage: string)

  /** A record with no member is an empty dict, which is falsy. */
  predicate EmptyRecord(e: Entry) {
    e.Record? && e.callId.None? && e.dbId.None? && e.prompt.None? && e.maxDuration.None? && e.limitMessage.None?
  }

  function MemberOr<T>(v: Option<T>, default: T): T {
    if v.Some? then v.value else default
  }

  /** The session a stream short id resolves to; none for an unknown id or a falsy entry. */
  function Resolve(streams: map<string, Entry>, shortId: string): (r: Option<Session>)
    ensures shortId !in streams ==> r.None?
    ensures r.Some? && streams[shortId].Legacy? ==>
      r.value == Session(Some(streams[shortId].id), None, None, DefaultMaxDuration, DefaultLimitMessage)
    ensures r.Some? && streams[shortId].Record? ==>
      r.value.callId == streams[shortId].callId && r.value.dbId == streams[shortId].dbId &&
      r.value.goal == streams[shortId].prompt &&
      r.value.maxDuration == MemberOr(streams[shortId].maxDuration, DefaultMaxDuration) &&
      r.value.limitMessage == MemberOr(streams[shortId].limitMessage, DefaultLimitMessage)
    ensures shortId in streams ==> (r.None? <==> streams[shortId] == Legacy("") || EmptyRecord(streams[shortId]))
  {
    if shortId !in streams then None
    else match streams[shortId]
      case Legacy(id) =>
        if id == "" then None else Some(Session(Some(id), None, None, DefaultMaxDuration, DefaultLimitMessage))
      case Record(callId, dbId, prompt, maxDuration, limitMessage) =>
        if EmptyRecord(streams[shortId]) then None
        else Some(Session(callId, dbId, prompt, MemberOr(maxDuration, DefaultMaxDuration),
                          MemberOr(limitMessage, DefaultLimitMessage)))
  }

  /** The members of a call's context dict; `None` for an absent key. */
  datatype CallContext = CallContext(userId: Option<string>, chatId: Option<string>, greeting: Option<string>)

  const NoContext := CallContext(None, None, None)

  function ContextOf(contexts: map<Option<string>, CallContext>, callId: Option<string>): CallContext {
    if callId in contexts then contexts[callId] else NoContext
  }

  // ---------------------------------------------------------------------
  // Preloaded audio

  /** A queued frame: JSON text the sender parses, or text it cannot parse. */
  datatype QueueFrame = Frame(frame: MediaFrame) | Raw(text: string)

  /** A queue item; `Eof` is the `None` that ends the greeting. */
  datatype Item = Chunk(f: QueueFrame) | Eof

  /** A parsed frame gets the stream id when it has none and one is known. */
  function Annotate(f: QueueFrame, streamId: Option<string>): (r: QueueFrame)
    ensures f.Raw? ==> r == f
    ensures f.Frame? ==> r.Frame? && r.frame.payload == f.frame.payload
    ensures f.Frame? && f.frame.streamId != Absent ==> r == f
    ensures f.Frame? && f.frame.streamId == Absent ==>
      r.frame.streamId == if Truthy(streamId) then Str(streamId.value) else Absent
  {
    match f
    case Raw(_) => f
    case Frame(m) =>
      if Truthy(streamId) && m.streamId == Absent then Frame(m.(streamId := Str(streamId.value))) else f
  }

  lemma AnnotateIdempotent(f: QueueFrame, streamId: Option<string>)
    ensures Annotate(Annotate(f, streamId), streamId) == Annotate(f, streamId)
  {
  }

  function AnnotateAll(fs: seq<QueueFrame>, streamId: Option<string>): (r: seq<QueueFrame>)
    ensures |r| == |fs|
    ensures forall i :: 0 <= i < |fs| ==> r[i] == Annotate(fs[i], streamId)
  {
    if fs == [] then [] else AnnotateAll(fs[..|fs| - 1], streamId) + [Annotate(fs[|fs| - 1], streamId)]
  }

  /** A generated greeting queued at once: every frame, then the end marker. */
  function Fill(frames: seq<QueueFrame>): (q: seq<Item>)
    ensures |q| == |frames| + 1 && q[|frames|] == Eof
    ensures forall i :: 0 <= i < |frames| ==> q[i] == Chunk(frames[i])
  {
    if frames == [] then [Eof] else [Chunk(frames[0])] + Fill(frames[1..])
  }

  /** What draining a queue sends, whether the end marker was reached, and what stays queued. */
  datatype Drained = Drained(sent: seq<QueueFrame>, finished: bool, rest: seq<Item>)

  /** The drain: items in order up to the first end marker, which is taken and not sent. */
  function Drain(q: seq<Item>, streamId: Option<string>): (d: Drained)
    ensures |d.sent| <= |q|
  {
    if q == [] then Drained([], false, [])
    else match q[0]
      case Eof => Drained([], true, q[1..])
      case Chunk(f) =>
        var d := Drain(q[1..], streamId);
        Drained([Annotate(f, streamId)] + d.sent, d.finished, d.rest)
  }

  /** Items go out in order, annotated, up to the first end marker; that marker is taken
      and what follows it stays queued; without one the whole queue goes out. */
  lemma {:induction false} DrainShape(q: seq<Item>, streamId: Option<string>)
    ensures var d := Drain(q, streamId);
      (forall i :: 0 <= i < |d.sent| ==> q[i].Chunk? && d.sent[i] == Annotate(q[i].f, streamId)) &&
      (d.finished ==> |d.sent| < |q| && q[|d.sent|] == Eof && d.rest == q[|d.sent| + 1..]) &&
      (!d.finished ==> |d.sent| == |q| && d.rest == [])
  {
    if q != [] && q[0].Chunk? {
      DrainShape(q[1..], streamId);
      var d := Drain(q, streamId);
      var e := Drain(q[1..], streamId);
      assert forall i :: 1 <= i < |q| ==> q[i] == q[1..][i - 1];
      assert forall i :: 1 <= i < |d.sent| ==> d.sent[i] == e.sent[i - 1];
    }
  }

  /** A queue filled with a greeting is drained into exactly that greeting, in order,
      the end marker taken once, and whatever was queued after it left in place. */
  lemma {:induction false} DrainFill(frames: seq<QueueFrame>, later: seq<Item>, streamId: Option<string>)
    ensures Drain(Fill(frames) + later, streamId) == Drained(AnnotateAll(frames, streamId), true, later)
  {
    var q := Fill(frames) + later;
    var d := Drain(q, streamId);
    assert q[|frames|] == Eof;
    forall i | 0 <= i < |frames| ensures q[i] == Chunk(frames[i]) {
    }
    DrainSentLength(q, streamId, |frames|);
    DrainShape(q, streamId);
    assert d.sent == AnnotateAll(frames, streamId);
    assert q[|frames| + 1..] == later;
  }

  /** The drain stops at the first end marker. */
  lemma {:induction false} DrainSentLength(q: seq<Item>, streamId: Option<string>, k: nat)
    requires k < |q| && q[k] == Eof && forall i :: 0 <= i < k ==> q[i].Chunk?
    ensures Drain(q, streamId).finished && |Drain(q, streamId).sent| == k
  {
    if k > 0 {
      assert forall i :: 0 <= i < k - 1 ==> q[1..][i] == q[i + 1];
      DrainSentLength(q[1..], streamId, k - 1);
    }
  }

  /** The sender's drain loop over a queue. */
  method DrainQueue(q: seq<Item>, streamId: Option<string>) returns (sent: seq<QueueFrame>, finished: bool, rest: seq<Item>)
    ensures Drained(sent, finished, rest) == Drain(q, streamId)
  {
    sent := [];
    var i := 0;
    while i < |q| && q[i] != Eof
      invariant 0 <= i <= |q|
      invariant Drain(q, streamId) == After(sent, Drain(q[i..], streamId))
      decreases |q| - i
    {
      DrainMore(q, i, streamId, sent);
      sent := sent + [Annotate(q[i].f, streamId)];
      i := i + 1;
    }
    finished := i < |q|;
    rest := if finished then q[i + 1..] else [];
    DrainEnd(q, i, streamId);
    assert sent + [] == sent;
  }

  /** The drain of `q` once `sent` has gone out. */
  function After(sent: seq<QueueFrame>, d: Drained): Drained {
    Drained(sent + d.sent, d.finished, d.rest)
  }

  /** The drain loop's invariant survives one chunk. */
  lemma DrainMore(q: seq<Item>, i: nat, streamId: Option<string>, sent: seq<QueueFrame>)
    requires i < |q| && q[i].Chunk?
    requires Drain(q, streamId) == After(sent, Drain(q[i..], streamId))
    ensures Drain(q, streamId) == After(sent + [Annotate(q[i].f, streamId)], Drain(q[i + 1..], streamId))
  {
    DrainChunk(q, i, streamId);
    var d := Drain(q[i + 1..], streamId);
    assert sent + ([Annotate(q[i].f, streamId)] + d.sent) == (sent + [Annotate(q[i].f, streamId)]) + d.sent;
  }

  lemma DrainChunk(q: seq<Item>, i: nat, streamId: Option<string>)
    requires i < |q| && q[i].Chunk?
    ensures Drain(q[i..], streamId) == After([Annotate(q[i].f, streamId)], Drain(q[i + 1..], streamId))
  {
    assert q[i..][0] == q[i] && q[i..][1..] == q[i + 1..];
  }

  lemma DrainEnd(q: seq<Item>, i: nat, streamId: Option<string>)
    requires i <= |q| && (i == |q| || q[i] == Eof)
    ensures Drain(q[i..], streamId) == Drained([], i < |q|, if i < |q| then q[i + 1..] else [])
  {
    if i < |q| {
      assert q[i..][0] == Eof && q[i..][1..] == q[i + 1..];
    } else {
      assert q[i..] == [];
    }
  }

  /** The greeting a generation produces: its frames and text when the model replied,
      nothing otherwise. */
  function GreetingAudio(reply: Option<string>, frames: seq<QueueFrame>): (r: (seq<QueueFrame>, string))
    ensures Truthy(reply) ==> r == (frames, reply.value)
    ensures !Truthy(reply) ==> r == ([], "")
  {
    if Truthy(reply) then (frames, reply.value) else ([], "")
  }

  /** How many 100 ms polls the inbound sender waits for the greeting queue; a zero
      timeout counts as the 10 s default. */
  function PollIterations(llmTimeout: int, ttsTimeout: int): (n: int)
    ensures llmTimeout >= 0 && ttsTimeout >= 0 ==> n >= 20
    ensures llmTimeout == 0 && ttsTimeout == 0 ==> n == 200
  {
    ((if llmTimeout != 0 then llmTimeout else 10) + (if ttsTimeout != 0 then ttsTimeout else 10)) * 10
  }

  /** The queue the sender drains: for a call with a goal, the one registered within the
      polls (`arrival` is the poll at which it appeared, if ever); otherwise the one
      already registered, if any. */
  function QueueToDrain(goal: Option<string>, registered: bool, arrival: Option<nat>, polls: int): (r: bool)
    ensures Truthy(goal) ==> (r <==> arrival.Some? && arrival.value < polls)
    ensures !Truthy(goal) ==> r == registered
  {
    if Truthy(goal) then arrival.Some? && arrival.value < polls else registered
  }

  // ---------------------------------------------------------------------
  // The tables

  class Tables {
    var streams: map<string, Entry>
    var contexts: map<Option<string>, CallContext>
    var preloaded: map<Option<string>, seq<Item>>

    constructor ()
      ensures streams == map[] && contexts == map[] && preloaded == map[]
    {
      streams := map[];
      contexts := map[];
      preloaded := map[];
    }

    /** An outbound call that was placed: the stream entry and the context when a stream
        was requested, and the pre-generated greeting queue. */
    method RegisterOutbound(shortId: Option<string>, callId: Option<string>, dbId: int, prompt: Option<string>,
                            maxCallDuration: Option<int>, limitMessage: Option<string>,
                            userId: Option<string>, chatId: Option<string>, greeting: string,
                            audio: seq<QueueFrame>)
      modifies this
      ensures !Truthy(callId) ==> streams == old(streams) && contexts == old(contexts) && preloaded == old(preloaded)
      ensures Truthy(callId) && shortId.Some? ==>
        streams == old(streams)[shortId.value := Record(callId, Some(dbId), prompt,
          Some(if maxCallDuration.Some? && maxCallDuration.value != 0 then maxCallDuration.value else DefaultMaxDuration),
          Some(OrDefault(limitMessage, DefaultLimitMessage)))]
      ensures Truthy(callId) && shortId.None? ==> streams == old(streams) && contexts == old(contexts)
      ensures Truthy(callId) && shortId.Some? ==>
        contexts == if Truthy(userId) || Truthy(chatId) || greeting != "" then
          old(contexts)[callId := MergeContext(ContextOf(old(contexts), callId), userId, chatId, greeting)]
        else old(contexts)
      ensures Truthy(callId) ==> preloaded == if audio != [] then old(preloaded)[callId := Fill(audio)] else old(preloaded)
    {
      if Truthy(callId) {
        if shortId.Some? {
          var maxDuration := if maxCallDuration.Some? && maxCallDuration.value != 0 then maxCallDuration.value else DefaultMaxDuration;
          streams := streams[shortId.value := Record(callId, Some(dbId), prompt, Some(maxDuration),
                                                     Some(OrDefault(limitMessage, DefaultLimitMessage)))];
          if Truthy(userId) || Truthy(chatId) || greeting != "" {
            contexts := contexts[callId := MergeContext(ContextOf(contexts, callId), userId, chatId, greeting)];
          }
        }
        if audio != [] {
          preloaded := preloaded[callId := Fill(audio)];
        }
      }
    }

    /** An inbound call that was answered: the stream entry, and a context holding only
        the provider's assigned user, replacing any earlier one. */
    method RegisterInbound(shortId: string, callId: Option<string>, dbId: int, inboundPrompt: Option<string>,
                           maxCallDuration: Option<int>, limitMessage: Option<string>, assignedUser: Option<string>)
      modifies this
      ensures streams == old(streams)[shortId := Record(callId, Some(dbId), inboundPrompt,
          Some(if maxCallDuration.Some? && maxCallDuration.value != 0 then maxCallDuration.value else DefaultMaxDuration),
          Some(OrDefault(limitMessage, DefaultLimitMessage)))]
      ensures contexts == if Truthy(assignedUser) then old(contexts)[callId := CallContext(assignedUser, None, None)] else old(contexts)
      ensures preloaded == old(preloaded)
    {
      var maxDuration := if maxCallDuration.Some? && maxCallDuration.value != 0 then maxCallDuration.value else DefaultMaxDuration;
      streams := streams[shortId := Record(callId, Some(dbId), inboundPrompt, Some(maxDuration),
                                           Some(OrDefault(limitMessage, DefaultLimitMessage)))];
      if Truthy(assignedUser) {
        contexts := contexts[callId := CallContext(assignedUser, None, None)];
      }
    }

    /** The inbound greeting generation: its queue registered, filled with the frames
        and the end marker, and the greeting text stored for the call. */
    method PreloadInbound(callId: Option<string>, reply: Option<string>, frames: seq<QueueFrame>)
      modifies this
      ensures preloaded == old(preloaded)[callId := Fill(GreetingAudio(reply, frames).0)]
      ensures streams == old(streams)
      ensures contexts == if Truthy(reply) then
          old(contexts)[callId := ContextOf(old(contexts), callId).(greeting := reply)]
        else old(contexts)
    {
      var (audio, text) := GreetingAudio(reply, frames);
      preloaded := preloaded[callId := Fill(audio)];
      if text != "" {
        contexts := contexts[callId := ContextOf(contexts, callId).(greeting := Some(text))];
      }
    }

    /** The sender drains the call's queue; the queue stays registered with what is left. */
    method DrainFor(callId: Option<string>, streamId: Option<string>) returns (sent: seq<QueueFrame>, finished: bool)
      requires callId in preloaded
      modifies this
      ensures callId in preloaded
      ensures Drain(old(preloaded[callId]), streamId) == Drained(sent, finished, preloaded[callId])
      ensures preloaded == old(preloaded)[callId := preloaded[callId]]
      ensures streams == old(streams) && contexts == old(contexts)
    {
      var rest;
      sent, finished, rest := DrainQueue(preloaded[callId], streamId);
      preloaded := preloaded[callId := rest];
    }
  }

  /** The context after an outbound registration: each known member written. */
  function MergeContext(c: CallContext, userId: Option<string>, chatId: Option<string>, greeting: string): (r: CallContext)
    ensures r.userId == (if Truthy(userId) then userId else c.userId)
    ensures r.chatId == (if Truthy(chatId) then chatId else c.chatId)
    ensures r.greeting == (if greeting != "" then Some(greeting) else c.greeting)
  {
    CallContext(if Truthy(userId) then userId else c.userId,
                if Truthy(chatId) then chatId else c.chatId,
                if greeting != "" then Some(greeting) else c.greeting)
  }

  /** The socket of a registered outbound call resolves to exactly what was registered,
      with the provider's defaults filled in. */
  lemma ResolveRegistered(streams: map<string, Entry>, shortId: string, callId: string, dbId: int,
                          prompt: Option<string>, maxDuration: int, limitMessage: string)
    ensures Resolve(streams[shortId := Record(Some(callId), Some(dbId), prompt, Some(maxDuration), Some(limitMessage))], shortId)
      == Some(Session(Some(callId), Some(dbId), prompt, maxDuration, limitMessage))
  {
  }
}
