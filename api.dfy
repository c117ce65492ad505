/** The rules of the REST API: message and call look-ups with their ownership check,
    the choice of SMS provider and the log entry of a send, the provider client a
    configuration selects, partial provider updates, and the Open WebUI user list. */
module ApiRules {
  import opened Common
  import Teardown

  /** The index of the first element satisfying `p`. */
  function FirstIndex<T>(xs: seq<T>, p: T -> bool): (r: Option<nat>)
    ensures r.Some? ==> r.value < |xs| && p(xs[r.value])
    ensures r.Some? ==> forall j :: 0 <= j < r.value ==> !p(xs[j])
    ensures r.None? ==> forall j :: 0 <= j < |xs| ==> !p(xs[j])
  {
    if xs == [] then None
    else if p(xs[0]) then Some(0)
    else
      match FirstIndex(xs[1..], p)
      case None => None
      case Some(i) => Some(i + 1)
  }

  // ---------------------------------------------------------------------
  // Look-ups by external or internal id

  /** A stored message or call: its internal id, the provider's id for it
      (`message_id` or `call_control_id`) and the user who owns it. */
  datatype LogRecord = LogRecord(id: nat, externalId: Option<string>, userId: Option<string>)

  datatype Lookup = NotFound | Found(record: LogRecord)

  /** The record a key names: the first with that provider id, else, for a key made of
      digits only, the one with that internal id. */
  function Named(logs: seq<LogRecord>, key: string): Option<LogRecord> {
    match FirstIndex(logs, (l: LogRecord) => l.externalId == Some(key))
    case Some(i) => Some(logs[i])
    case None =>
      if IsDigits(key) then
        match FirstIndex(logs, (l: LogRecord) => l.id == DigitsValue(key))
        case Some(j) => Some(logs[j])
        case None => None
      else None
  }

  /** `get_message_status` / `get_call_status`: the named record if `user` owns it;
      a record owned by someone else answers exactly like a missing one. */
  function LookupOwned(logs: seq<LogRecord>, key: string, user: string): (r: Lookup)
    ensures r.Found? ==> r.record in logs && r.record.userId == Some(user)
    ensures r.Found? ==> r.record.externalId == Some(key) || (IsDigits(key) && r.record.id == DigitsValue(key))
  {
    match Named(logs, key)
    case None => NotFound
    case Some(l) => if l.userId != Some(user) then NotFound else Found(l)
  }

  /** The provider id is tried first: when some record carries it, the internal-id
      fallback is never consulted, even if that record belongs to another user. */
  lemma ExternalIdFirst(logs: seq<LogRecord>, key: string, user: string, i: nat)
    requires i < |logs| && logs[i].externalId == Some(key)
    requires forall j :: 0 <= j < i ==> logs[j].externalId != Some(key)
    ensures LookupOwned(logs, key, user) == if logs[i].userId == Some(user) then Found(logs[i]) else NotFound
  {
    var p := (l: LogRecord) => l.externalId == Some(key);
    var k := FirstIndex(logs, p);
    assert p(logs[i]);
    assert k.Some? && k.value == i;
  }

  /** Without a provider-id match, a key that is not all digits finds nothing. */
  lemma NoDigitsNoFallback(logs: seq<LogRecord>, key: string, user: string)
    requires forall j :: 0 <= j < |logs| ==> logs[j].externalId != Some(key)
    requires !IsDigits(key)
    ensures LookupOwned(logs, key, user) == NotFound
  {
    var p := (l: LogRecord) => l.externalId == Some(key);
  }

  /** Without a provider-id match, a digit key finds the record with that internal id. */
  lemma DigitFallback(logs: seq<LogRecord>, key: string, user: string, i: nat)
    requires forall j :: 0 <= j < |logs| ==> logs[j].externalId != Some(key)
    requires IsDigits(key) && i < |logs| && logs[i].id == DigitsValue(key)
    requires forall j :: 0 <= j < i ==> logs[j].id != DigitsValue(key)
    ensures LookupOwned(logs, key, user) == if logs[i].userId == Some(user) then Found(logs[i]) else NotFound
  {
    var p := (l: LogRecord) => l.externalId == Some(key);
    var q := (l: LogRecord) => l.id == DigitsValue(key);
    var k := FirstIndex(logs, q);
    assert q(logs[i]);
    assert k.Some? && k.value == i;
  }

  /** Ownership hides existence: whatever the records, a look-up finds a record of its
      own user or answers as if nothing were stored. */
  lemma ForeignRecordLooksMissing(logs: seq<LogRecord>, key: string, user: string)
    ensures LookupOwned(logs, key, user).NotFound? <==>
      (Named(logs, key).None? || Named(logs, key).value.userId != Some(user))
    ensures LookupOwned(logs, key, user).NotFound? ==> LookupOwned(logs, key, user) == LookupOwned([], key, user)
  {
  }

  // ---------------------------------------------------------------------
  // Sending an SMS

  datatype Provider = Provider(name: string, enabled: bool, priority: int,
                               apiKey: Option<string>, fromNumber: Option<string>)

  /** The enabled provider with the smallest priority (the first of equals). */
  function BestEnabled(ps: seq<Provider>): (r: Option<Provider>)
    ensures r.Some? ==> r.value in ps && r.value.enabled
    ensures r.Some? ==> forall p :: p in ps && p.enabled ==> r.value.priority <= p.priority
    ensures r.None? <==> forall p :: p in ps ==> !p.enabled
  {
    if ps == [] then None
    else
      var rest := BestEnabled(ps[1..]);
      assert forall p :: p in ps ==> p == ps[0] || p in ps[1..];
      if !ps[0].enabled then rest
      else if rest.None? || ps[0].priority <= rest.value.priority then Some(ps[0])
      else rest
  }

  /** The provider `send_sms` uses: the one named in the request, if a name is given,
      else the best enabled one. */
  function ChooseProvider(ps: seq<Provider>, requested: Option<string>): (r: Option<Provider>)
    ensures Truthy(requested) && r.Some? ==> r.value in ps && r.value.name == requested.value
    ensures Truthy(requested) ==> (r.None? <==> forall p :: p in ps ==> p.name != requested.value)
    ensures !Truthy(requested) ==> r == BestEnabled(ps)
  {
    if Truthy(requested) then
      match FirstIndex(ps, (p: Provider) => p.name == requested.value)
      case Some(i) => Some(ps[i])
      case None =>
        assert forall p :: p in ps ==> p.name != requested.value by {
          forall p | p in ps ensures p.name != requested.value {
            var j :| 0 <= j < |ps| && ps[j] == p;
          }
        }
        None
    else BestEnabled(ps)
  }

  /** The clients `get_provider_instance` builds. */
  datatype Client = TelnyxClient(apiKey: string) | MockClient(apiKey: string, apiUrl: string)

  /** `telnyx` gets the real client with the decrypted key; every other name a mock. */
  function ClientFor(name: string, config: Provider, decrypt: Option<string> -> string): (r: Client)
    ensures r.TelnyxClient? <==> name == "telnyx"
    ensures r.TelnyxClient? ==> r.apiKey == decrypt(config.apiKey)
    ensures r.MockClient? ==> r == MockClient("mock", "mock")
  {
    if name == "telnyx" then TelnyxClient(decrypt(config.apiKey))
    else if name == "mock" then MockClient("mock", "mock")
    else MockClient("mock", "mock")
  }

  datatype SendResult = SendResult(success: bool, error: Option<string>, cost: real, messageId: Option<string>)

  /** What the client's `send_sms` did: returned a result or raised. */
  datatype Attempt = Returned(result: SendResult) | Raised(message: string)

  /** The result `send_sms` reports: a raised error becomes a failed send that cost
      nothing and has no message id. */
  function Settle(a: Attempt): (r: SendResult)
    ensures a.Raised? ==> !r.success && r.cost == 0.0 && r.messageId.None? && r.error == Some(a.message)
    ensures a.Returned? ==> r == a.result
  {
    match a
    case Returned(res) => res
    case Raised(msg) => SendResult(false, Some(msg), 0.0, None)
  }

  datatype MessageLog = MessageLog(providerUsed: string, destination: string, content: string,
                                   status: string, error: Option<string>, cost: real,
                                   messageId: Option<string>, userId: Option<string>, chatId: Option<string>,
                                   mediaUrl: Option<string>)

  /** `mediaUrls` is the request's optional list of media URLs; the base64 media are
      handed to the carrier and never logged, so they are not part of this record. */
  datatype SmsRequest = SmsRequest(to: string, message: string, provider: Option<string>,
                                   userId: Option<string>, chatId: Option<string>,
                                   mediaUrls: Option<seq<string>>)

  /** The logged media: the JSON dump of the URLs when the list is present and non-empty,
      else none. `dump` stands for `json.dumps` of the URLs as strings. */
  function MediaContent(mediaUrls: Option<seq<string>>, dump: seq<string> -> string): (r: Option<string>)
    ensures r.Some? <==> mediaUrls.Some? && mediaUrls.value != []
    ensures r.Some? ==> r.value == dump(mediaUrls.value)
  {
    if mediaUrls.Some? && mediaUrls.value != [] then Some(dump(mediaUrls.value)) else None
  }

  /** A 400 when no provider applies; otherwise the settled result and its log entry. */
  datatype SmsReply = NoProvider | Sent(result: SendResult, log: MessageLog)

  function SendSms(ps: seq<Provider>, req: SmsRequest, decrypt: Option<string> -> string,
                   send: Client -> Attempt, dump: seq<string> -> string): (r: SmsReply)
    ensures r.NoProvider? <==> ChooseProvider(ps, req.provider).None?
    ensures r.Sent? ==> var p := ChooseProvider(ps, req.provider).value;
      r.result == Settle(send(ClientFor(p.name, p, decrypt))) && r.log.providerUsed == p.name
    ensures r.Sent? ==> (r.log.status == "sent" <==> r.result.success)
    ensures r.Sent? ==> r.log.cost == r.result.cost && r.log.messageId == r.result.messageId
    ensures r.Sent? ==> r.log.error == r.result.error
    ensures r.Sent? ==> r.log.destination == req.to && r.log.content == req.message
    ensures r.Sent? ==> r.log.userId == req.userId && r.log.chatId == req.chatId
    ensures r.Sent? ==> (r.log.mediaUrl.Some? <==> req.mediaUrls.Some? && req.mediaUrls.value != [])
    ensures r.Sent? && r.log.mediaUrl.Some? ==> r.log.mediaUrl.value == dump(req.mediaUrls.value)
  {
    match ChooseProvider(ps, req.provider)
    case None => NoProvider
    case Some(p) =>
      var result := Settle(send(ClientFor(p.name, p, decrypt)));
      Sent(result, MessageLog(p.name, req.to, req.message, if result.success then "sent" else "failed",
                              result.error, result.cost, result.messageId, req.userId, req.chatId,
                              MediaContent(req.mediaUrls, dump)))
  }

  /** A send that raises is logged as failed. */
  lemma RaisedIsFailed(ps: seq<Provider>, req: SmsRequest, decrypt: Option<string> -> string,
                       send: Client -> Attempt, dump: seq<string> -> string)
    requires ChooseProvider(ps, req.provider).Some?
    requires var p := ChooseProvider(ps, req.provider).value; send(ClientFor(p.name, p, decrypt)).Raised?
    ensures var r := SendSms(ps, req, decrypt, send, dump);
      r.Sent? && r.log.status == "failed" && r.result.cost == 0.0 && r.result.messageId.None?
  {
  }

  // ---------------------------------------------------------------------
  // Partial provider updates

  /** A stored attribute value. */
  datatype Value = Null | Text(s: string) | Flag(b: bool) | Number(n: int)

  /** The value stored for a supplied field: a non-empty API key is encrypted, anything
      else is stored as given. */
  function Stored(key: string, v: Value, encrypt: string -> string): (r: Value)
    ensures key == "api_key" && v.Text? && v.s != "" ==> r == Text(encrypt(v.s))
    ensures !(key == "api_key" && v.Text? && v.s != "") ==> r == v
  {
    if key == "api_key" && v.Text? && v.s != "" then Text(encrypt(v.s)) else v
  }

  /** The attributes after setting each supplied field in turn. */
  function Updated(attrs: map<string, Value>, items: seq<(string, Value)>, encrypt: string -> string): map<string, Value>
  {
    if items == [] then attrs
    else
      var last := items[|items| - 1];
      Updated(attrs, items[..|items| - 1], encrypt)[last.0 := Stored(last.0, last.1, encrypt)]
  }

  /** A field that is not supplied keeps its value. */
  lemma {:induction false} UpdateKeepsOthers(attrs: map<string, Value>, items: seq<(string, Value)>,
                                            encrypt: string -> string, k: string)
    requires forall i :: 0 <= i < |items| ==> items[i].0 != k
    ensures k in Updated(attrs, items, encrypt) <==> k in attrs
    ensures k in attrs ==> Updated(attrs, items, encrypt)[k] == attrs[k]
  {
    if items != [] {
      UpdateKeepsOthers(attrs, items[..|items| - 1], encrypt, k);
    }
  }

  /** A supplied field holds its (last) supplied value, encrypted if it is the key. */
  lemma {:induction false} UpdateSetsSupplied(attrs: map<string, Value>, items: seq<(string, Value)>,
                                             encrypt: string -> string, i: nat)
    requires i < |items|
    requires forall j :: i < j < |items| ==> items[j].0 != items[i].0
    ensures items[i].0 in Updated(attrs, items, encrypt)
    ensures Updated(attrs, items, encrypt)[items[i].0] == Stored(items[i].0, items[i].1, encrypt)
  {
    if i < |items| - 1 {
      UpdateSetsSupplied(attrs, items[..|items| - 1], encrypt, i);
    }
  }

  /** The provider table, keyed by provider id. */
  class ProviderTable {
    var rows: map<int, map<string, Value>>

    constructor (rows0: map<int, map<string, Value>>)
      ensures rows == rows0
    {
      rows := rows0;
    }

    /** `update_provider`: 404 for an unknown id, else each supplied field set in turn. */
    method UpdateProvider(id: int, items: seq<(string, Value)>, encrypt: string -> string) returns (found: bool)
      modifies this
      ensures found <==> id in old(rows)
      ensures found ==> rows == old(rows)[id := Updated(old(rows)[id], items, encrypt)]
      ensures !found ==> rows == old(rows)
    {
      if id !in rows {
        return false;
      }
      var row := rows[id];
      for i := 0 to |items|
        invariant row == Updated(rows[id], items[..i], encrypt)
      {
        var (key, value) := items[i];
        if key == "api_key" && value.Text? && value.s != "" {
          value := Text(encrypt(value.s));
        }
        assert items[..i + 1][..i] == items[..i];
        row := row[key := value];
      }
      assert items[..|items|] == items;
      rows := rows[id := row];
      found := true;
    }
  }

  // ---------------------------------------------------------------------
  // Open WebUI users

  const UsersPath := "/api/v1/users/all"

  /** The Open WebUI address: the model URL up to `/api/v1`, then up to `/v1`, without
      trailing slashes; the default host when no model URL is stored. */
  function UsersBase(llmUrl: Option<string>): (r: string)
    ensures Truthy(llmUrl) ==>
      r == RStripChar(llmUrl.value[..FirstOfEither(llmUrl.value, "/api/v1", "/v1")], '/')
    ensures Truthy(llmUrl) ==> r <= llmUrl.value && !Contains(r, "/v1")
    ensures Truthy(llmUrl) ==> r == [] || r[|r| - 1] != '/'
    ensures !Truthy(llmUrl) ==> r == Teardown.DefaultWebUiBase
  {
    if Truthy(llmUrl) then
      var cut := SplitFirst(SplitFirst(llmUrl.value, "/api/v1"), "/v1");
      SplitTwiceCut(llmUrl.value, "/api/v1", "/v1");
      var r := RStripChar(cut, '/');
      PrefixKeepsAbsence(cut, r, "/v1");
      r
    else Teardown.DefaultWebUiBase
  }

  lemma PrefixKeepsAbsence(s: string, t: string, p: string)
    requires t <= s && !Contains(s, p)
    ensures !Contains(t, p)
  {
    forall j | 0 <= j <= |t| ensures !OccursAt(t, p, j) {
      if OccursAt(t, p, j) {
        assert s[j..j + |p|] == t[j..j + |p|];
        assert OccursAt(s, p, j);
      }
    }
  }

  /** The decoded body: a bare list, or an object that may carry `users` or `data`. */
  datatype Body = ListBody(items: seq<map<string, Value>>)
                | ObjectBody(users: Option<seq<map<string, Value>>>, data: Option<seq<map<string, Value>>>)

  function RawList(b: Body): (r: seq<map<string, Value>>)
    ensures b.ListBody? ==> r == b.items
    ensures b.ObjectBody? && b.users.Some? && b.users.value != [] ==> r == b.users.value
    ensures b.ObjectBody? && (b.users.None? || b.users.value == []) && b.data.Some? ==> r == b.data.value
    ensures b.ObjectBody? && (b.users.None? || b.users.value == []) && b.data.None? ==> r == []
  {
    match b
    case ListBody(xs) => xs
    case ObjectBody(users, data) =>
      if users.Some? && users.value != [] then users.value
      else if data.Some? && data.value != [] then data.value
      else []
  }

  datatype UserSummary = UserSummary(id: Value, name: Value, email: Value, role: Value)

  /** `u.get(k)`: missing members read as null. */
  function Member(u: map<string, Value>, k: string): Value {
    if k in u then u[k] else Value.Null
  }

  function Summary(u: map<string, Value>): UserSummary {
    UserSummary(Member(u, "id"), Member(u, "name"), Member(u, "email"), Member(u, "role"))
  }

  /** The append loop: one summary per entry, in order. */
  method Summaries(raw: seq<map<string, Value>>) returns (users: seq<UserSummary>)
    ensures |users| == |raw|
    ensures forall i :: 0 <= i < |raw| ==> users[i] == Summary(raw[i])
  {
    users := [];
    for i := 0 to |raw|
      invariant |users| == i
      invariant forall j :: 0 <= j < i ==> users[j] == Summary(raw[j])
    {
      users := users + [Summary(raw[i])];
    }
  }

  /** `get_open_webui_users`: nothing without an admin token or when the request fails
      (`fetch` answers None); otherwise one summary per listed user. */
  method OpenWebUiUsers(token: Option<string>, llmUrl: Option<string>, fetch: string -> Option<Body>)
    returns (users: seq<UserSummary>)
    ensures !Truthy(token) ==> users == []
    ensures Truthy(token) && fetch(UsersBase(llmUrl) + UsersPath).None? ==> users == []
    ensures Truthy(token) && fetch(UsersBase(llmUrl) + UsersPath).Some? ==>
      var raw := RawList(fetch(UsersBase(llmUrl) + UsersPath).value);
      |users| == |raw| && forall i :: 0 <= i < |raw| ==> users[i] == Summary(raw[i])
  {
    if !Truthy(token) {
      return [];
    }
    var body := fetch(UsersBase(llmUrl) + UsersPath);
    if body.None? {
      return [];
    }
    users := Summaries(RawList(body.value));
  }
}
