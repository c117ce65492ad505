/** The carrier's opening of a media stream: the events read before the session starts.
    `connected` is answered with a second of silence, `start` (or media that names its
    stream) completes the handshake, and `stop` or an unreadable event ends the socket. */
module Handshake {
  import opened Common

  /** The silence frames sent for each `connected` event. */
  const WakeFrames: nat := 50
  /** Each wake frame is 20 ms of zero bytes. */
  const WakeFrameBytes: nat := 160

  /** One event as `json.loads` and `msg.get("event")` classify it; `Unreadable` is a
      text that does not parse as a JSON object, which raises. */
  datatype Event = Connected | Start(streamId: Option<string>) | Media(streamId: Option<string>) | Stop | Other | Unreadable

  datatype Outcome =
    | Ready(streamId: Option<string>)  // the session goes on
    | Stopped                          // `stop` before the stream started
    | Failed                           // the exception handler closes the socket
    | Waiting                          // every event so far was ignored

  /** The outcome after the events, and how many events were consumed and wake frames sent. */
  datatype Run = Run(outcome: Outcome, consumed: nat, wakes: nat)

  /** The events that end the handshake. */
  predicate Decisive(e: Event) {
    e.Start? || (e.Media? && Truthy(e.streamId)) || e.Stop? || e.Unreadable?
  }

  function Conclude(e: Event): (o: Outcome)
    requires Decisive(e)
  {
    match e
    case Start(id) => Ready(id)
    case Media(id) => Ready(id)
    case Stop => Stopped
    case Unreadable => Failed
  }

  function RunHandshake(events: seq<Event>): (r: Run)
    ensures r.consumed <= |events|
    ensures r.outcome == Waiting <==> r.consumed == |events| && forall i :: 0 <= i < |events| ==> !Decisive(events[i])
    ensures r.outcome != Waiting ==> 0 < r.consumed && Decisive(events[r.consumed - 1])
    ensures r.outcome != Waiting ==> r.outcome == Conclude(events[r.consumed - 1])
    ensures forall i :: 0 <= i < r.consumed - 1 ==> !Decisive(events[i])
  {
    if events == [] then Run(Waiting, 0, 0)
    else if Decisive(events[0]) then Run(Conclude(events[0]), 1, 0)
    else
      var r := RunHandshake(events[1..]);
      assert forall i :: 1 <= i < |events| ==> events[i] == events[1..][i - 1];
      Run(r.outcome, r.consumed + 1, r.wakes + (if events[0] == Connected then WakeFrames else 0))
  }

  function CountConnected(events: seq<Event>): nat {
    if events == [] then 0 else (if events[0] == Connected then 1 else 0) + CountConnected(events[1..])
  }

  /** Fifty wake frames for every `connected` event read. */
  lemma {:induction false} WakesPerConnected(events: seq<Event>)
    ensures var r := RunHandshake(events);
      r.wakes == WakeFrames * CountConnected(events[..r.consumed])
  {
    if events != [] && !Decisive(events[0]) {
      WakesPerConnected(events[1..]);
      var r := RunHandshake(events);
      assert events[..r.consumed] == [events[0]] + events[1..][..r.consumed - 1];
    } else if events != [] {
      assert events[..1] == [events[0]];
      assert events[..1][1..] == [];
    }
  }

  /** Events after the handshake ends are not read by it: the main loop sees them. */
  lemma {:induction false} HandshakeIgnoresLater(events: seq<Event>, later: seq<Event>)
    requires RunHandshake(events).outcome != Waiting
    ensures RunHandshake(events + later) == RunHandshake(events)
  {
    assert events != [];
    assert (events + later)[0] == events[0];
    if !Decisive(events[0]) {
      assert (events + later)[1..] == events[1..] + later;
      HandshakeIgnoresLater(events[1..], later);
    }
  }

  /** A handshake that ends on media always knows its stream; one that ends on `start`
      takes whatever id it carries, possibly none. */
  lemma MediaHandshakeKnowsStream(events: seq<Event>)
    requires var r := RunHandshake(events); r.outcome.Ready? && events[r.consumed - 1].Media?
    ensures Truthy(RunHandshake(events).outcome.streamId)
  {
    var r := RunHandshake(events);
    assert Decisive(events[r.consumed - 1]);
  }

  /** The silence frame sent while waiting for `start`. */
  function WakeFrame(): (f: seq<byte>)
    ensures |f| == WakeFrameBytes && forall i :: 0 <= i < |f| ==> f[i] == 0
  {
    Repeat(0 as byte, WakeFrameBytes)
  }
}
