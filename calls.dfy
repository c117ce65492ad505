/** The addresses a call is set up with: the media-stream URL handed to the carrier for
    outbound and inbound calls, the webhook URL registered with the carrier, and the
    dial request of an outbound call. */
module Calls {
  import opened Common

  /** The public tunnel used instead of an address the carrier cannot reach. */
  const TunnelBase: string := "https://telnyx-webhooks.sandoval.io"
  const StreamPath: string := "/api/voice/stream/"
  const TokenQuery: string := "?token="
  const DelayQuery: string := "&delay_ms="
  const WebhookPath: string := "/api/voice/webhook"
  const DefaultFromNumber: string := "+15555555555"
  const DefaultCodec: string := "PCMU"

  /** A private-network or loopback address. */
  predicate IsLocal(base: string) {
    Contains(base, "192.168") || Contains(base, "localhost") || Contains(base, "127.0.0.1")
  }

  function ForceTunnel(base: string): string {
    if base != "" && IsLocal(base) then TunnelBase else base
  }

  /** A string missing one of the characters of `p` does not contain `p`. */
  lemma MissingCharNoOccurrence(s: string, p: string, k: nat)
    requires k < |p| && p[k] !in s
    ensures !Contains(s, p)
  {
    if Contains(s, p) {
      ContainsMeans(s, p);
      var i :| OccursAt(s, p, i);
      OccursAtChar(s, p, i, k);
      assert false;
    }
  }

  lemma OccursAtChar(s: string, p: string, i: int, k: nat)
    requires OccursAt(s, p, i) && k < |p|
    ensures i + k < |s| && s[i + k] == p[k]
  {
    assert s[i..i + |p|][k] == p[k];
  }

  /** A base holding neither a '1' nor a 'c' is not local. */
  lemma NotLocalWithout(base: string)
    requires '1' !in base && 'c' !in base
    ensures !IsLocal(base)
  {
    MissingCharNoOccurrence(base, "192.168", 0);
    MissingCharNoOccurrence(base, "127.0.0.1", 0);
    MissingCharNoOccurrence(base, "localhost", 2);
  }

  /** The tunnel itself is not a local address. */
  lemma TunnelNotLocal()
    ensures !IsLocal(TunnelBase)
  {
    NotLocalWithout(TunnelBase);
  }

  /** No base the tunnel rule lets through is local. */
  lemma ForceTunnelNotLocal(base: string)
    ensures !IsLocal(ForceTunnel(base))
  {
    TunnelNotLocal();
    if base == "" {
      forall p | p != "" ensures !Contains("", p) { ContainsMeans("", p); }
      assert !Contains("", "192.168") && !Contains("", "localhost") && !Contains("", "127.0.0.1");
    }
  }

  /** The base URL of this service as the carrier is to reach it, and the request scheme. */
  datatype Origin = Origin(base: string, scheme: string)

  /** The scheme from `X-Forwarded-Proto`, else the request's own. */
  function SchemeOf(forwardedProto: Option<string>, urlScheme: string): string {
    if forwardedProto.Some? then forwardedProto.value else urlScheme
  }

  /** Outbound: the provider's configured base URL, else one built from the `Host` header
      when there is one (otherwise none), with local addresses replaced by the tunnel. */
  function OutboundOrigin(configured: Option<string>, host: Option<string>, forwardedProto: Option<string>,
                          urlScheme: string): (o: Origin)
    ensures Truthy(configured) ==> o.scheme == "http"
    ensures Truthy(configured) ==> o.base == (if IsLocal(configured.value) then TunnelBase else configured.value)
    ensures !Truthy(configured) && !Truthy(host) ==> o.base == ""
    ensures !IsLocal(o.base)
  {
    ForceTunnelNotLocal(if Truthy(configured) then configured.value
                        else if Truthy(host) then SchemeOf(forwardedProto, urlScheme) + "://" + host.value else "");
    if Truthy(configured) then Origin(ForceTunnel(configured.value), "http")
    else
      var scheme := SchemeOf(forwardedProto, urlScheme);
      Origin(ForceTunnel(if Truthy(host) then scheme + "://" + host.value else ""), scheme)
  }

  /** Inbound: as outbound, except that a missing `Host` header reads as `localhost`. */
  function InboundOrigin(configured: Option<string>, host: Option<string>, forwardedProto: Option<string>,
                         urlScheme: string): (o: Origin)
    ensures Truthy(configured) ==> o.scheme == "http"
    ensures Truthy(configured) ==> o.base == (if IsLocal(configured.value) then TunnelBase else configured.value)
    ensures !IsLocal(o.base)
  {
    ForceTunnelNotLocal(if Truthy(configured) then configured.value
                        else SchemeOf(forwardedProto, urlScheme) + "://" + OrDefault(host, "localhost"));
    if Truthy(configured) then Origin(ForceTunnel(configured.value), "http")
    else
      var scheme := SchemeOf(forwardedProto, urlScheme);
      Origin(ForceTunnel(scheme + "://" + OrDefault(host, "localhost")), scheme)
  }

  /** An inbound call with neither a configured base URL nor a `Host` header is always
      sent through the tunnel. */
  lemma InboundWithoutHostTunnels(forwardedProto: Option<string>, urlScheme: string)
    ensures InboundOrigin(None, None, forwardedProto, urlScheme).base == TunnelBase
  {
    var scheme := SchemeOf(forwardedProto, urlScheme);
    var b := scheme + "://" + "localhost";
    assert b[|scheme| + 3..|scheme| + 3 + |"localhost"|] == "localhost";
    assert OccursAt(b, "localhost", |scheme| + 3);
    ContainsMeans(b, "localhost");
  }

  /** The host part: the base URL without its `http://` and `https://`. */
  function Clean(base: string): string {
    Remove(Remove(base, "http://"), "https://")
  }

  /** `wss` when the base or the scheme says https, or the host is a known tunnel. */
  predicate IsSecure(o: Origin) {
    Contains(o.base, "https") || (o.scheme != "" && Contains(Lower(o.scheme), "https")) ||
    Contains(Clean(o.base), "ngrok") || Contains(Clean(o.base), "sandoval.io") || Contains(Clean(o.base), "loca.lt")
  }

  function Protocol(o: Origin): string {
    if IsSecure(o) then "wss" else "ws"
  }

  /** The socket route with the short id, and the token. */
  function Route(shortId: string, token: string): string {
    StreamPath + (shortId + (TokenQuery + token))
  }

  function StreamUrl(o: Origin, shortId: string, token: string): string {
    Protocol(o) + ("://" + (Clean(o.base) + Route(shortId, token)))
  }

  lemma Ends(a: string, b: string)
    ensures EndsWith(a + b, b) && StartsWith(a + b, a)
  {
    assert (a + b)[|a + b| - |b|..] == b;
    assert (a + b)[..|a|] == a;
  }

  /** The stream URL is a WebSocket URL, secure exactly when the origin is, addressing
      the socket route with the short id and the token. */
  lemma StreamUrlShape(o: Origin, shortId: string, token: string)
    ensures var u := StreamUrl(o, shortId, token);
      (StartsWith(u, "wss://") <==> IsSecure(o)) && (StartsWith(u, "ws://") <==> !IsSecure(o)) &&
      EndsWith(u, Route(shortId, token))
  {
    var u := StreamUrl(o, shortId, token);
    var r := Route(shortId, token);
    var head := Protocol(o) + ("://" + Clean(o.base));
    assert u == head + r;
    Ends(head, r);
    SchemePrefix(Protocol(o), Clean(o.base) + r);
  }

  /** A URL that starts `wss://` or `ws://` starts with the one and not the other. */
  lemma SchemePrefix(p: string, rest: string)
    requires p == "wss" || p == "ws"
    ensures var u := p + ("://" + rest);
      (StartsWith(u, "wss://") <==> p == "wss") && (StartsWith(u, "ws://") <==> p == "ws")
  {
    var u := p + ("://" + rest);
    if p == "wss" {
      assert u[..6] == "wss://";
      assert u[2] == 's';
    } else {
      assert u[..5] == "ws://";
      assert u[2] == ':';
    }
  }

  /** The `&delay_ms=` parameter, present only for a positive delay. */
  function DelaySuffix(delayMs: Option<int>): string {
    if delayMs.Some? && delayMs.value > 0 then DelayQuery + IntToString(delayMs.value) else ""
  }

  /** The outbound stream URL, requested only with a base URL and a webhook secret. */
  function OutboundStreamUrl(o: Origin, secret: Option<string>, shortId: string, delayMs: Option<int>): (r: Option<string>)
    ensures r.Some? <==> o.base != "" && Truthy(secret)
  {
    if o.base != "" && Truthy(secret) then Some(StreamUrl(o, shortId, secret.value) + DelaySuffix(delayMs)) else None
  }

  /** A positive delay is carried to the socket as text that reads back as the same number. */
  lemma DelayReadsBack(o: Origin, secret: string, shortId: string, delayMs: int)
    requires o.base != "" && secret != "" && delayMs > 0
    ensures var u := OutboundStreamUrl(o, Some(secret), shortId, Some(delayMs)).value;
      var digits := IntToString(delayMs);
      EndsWith(u, DelayQuery + digits) && ParseInt(digits) == Some(delayMs)
  {
    var u := OutboundStreamUrl(o, Some(secret), shortId, Some(delayMs)).value;
    var t := DelayQuery + IntToString(delayMs);
    assert u == StreamUrl(o, shortId, secret) + t;
    assert u[|u| - |t|..] == t;
    ParseIntOfIntToString(delayMs);
  }

  /** The call-control webhook: the base without trailing slashes, the route and the secret. */
  function WebhookUrl(base: string, secret: string): string {
    RStripChar(base, '/') + WebhookPath + TokenQuery + secret
  }

  /** Trailing slashes on the base make no difference. */
  lemma {:induction false} WebhookUrlSlashes(base: string, secret: string, n: nat)
    ensures WebhookUrl(base + Repeat('/', n), secret) == WebhookUrl(base, secret)
  {
    if n > 0 {
      assert base + Repeat('/', n) == (base + Repeat('/', n - 1)) + ['/'];
      RStripCharSuffix(base + Repeat('/', n - 1), '/');
      WebhookUrlSlashes(base, secret, n - 1);
    } else {
      assert base + Repeat('/', 0) == base;
    }
  }

  // ---------------------------------------------------------------------
  // The outbound dial request

  datatype DialRequest = DialRequest(to: string, from: string, connection: string, streamUrl: Option<string>, codec: string)

  /** The caller id: the request's, else the provider's, else a placeholder. */
  function FromNumber(requested: Option<string>, configured: Option<string>): (r: string)
    ensures r != ""
    ensures Truthy(requested) ==> r == requested.value
    ensures !Truthy(requested) && Truthy(configured) ==> r == configured.value
  {
    OrDefault(requested, OrDefault(configured, DefaultFromNumber))
  }

  /** The codec of the dial request as written: the voice configuration is only read in
      the branch that pre-generates a greeting, so a call without a prompt fails where
      the codec is read (`None`) instead of being dialled. */
  function DialCodecAsWritten(prompt: Option<string>, configured: Option<string>): (r: Option<string>)
    ensures !Truthy(prompt) ==> r.None?
  {
    if Truthy(prompt) then Some(OrDefault(configured, DefaultCodec)) else None
  }

  /** The codec as intended: the configured one, else PCMU, with or without a prompt. */
  function DialCodec(configured: Option<string>): (r: string)
    ensures r != ""
    ensures Truthy(configured) ==> r == configured.value
    ensures !Truthy(configured) ==> r == DefaultCodec
  {
    OrDefault(configured, DefaultCodec)
  }

  /** The two agree whenever there is a prompt; without one only the intended codec
      lets the call be placed. */
  lemma DialCodecDiscrepancy(prompt: Option<string>, configured: Option<string>)
    ensures Truthy(prompt) ==> DialCodecAsWritten(prompt, configured) == Some(DialCodec(configured))
    ensures !Truthy(prompt) ==> DialCodecAsWritten(prompt, configured) != Some(DialCodec(configured))
  {
  }

  /** What an outbound call dials. */
  function Dial(to: string, requestedFrom: Option<string>, configuredFrom: Option<string>, connection: string,
                o: Origin, secret: Option<string>, shortId: string, delayMs: Option<int>,
                configuredCodec: Option<string>): (d: DialRequest)
    ensures d.to == to && d.connection == connection && d.from != "" && d.codec != ""
    ensures d.streamUrl.Some? <==> o.base != "" && Truthy(secret)
  {
    DialRequest(to, FromNumber(requestedFrom, configuredFrom), connection,
                OutboundStreamUrl(o, secret, shortId, delayMs), DialCodec(configuredCodec))
  }
}
