/** The Open WebUI channel client: finding a user's alert channel, creating one, and
    posting an alert. The HTTP exchange is passed in as its outcome. */
module OpenWebUI {
  import opened Common

  /** An HTTP exchange: a status with a decoded body, or an exception. */
  datatype Reply<T> = Answered(status: int, body: T) | Raised

  /** `base_url.rstrip('/')` followed by a fixed path. */
  function Endpoint(base: string, path: string): (r: string)
    ensures RStripChar(base, '/') <= r
    ensures r[|RStripChar(base, '/')|..] == path
  {
    RStripChar(base, '/') + path
  }

  /** Trailing slashes on the base URL do not change any endpoint. */
  lemma {:induction false} EndpointIgnoresSlashes(base: string, path: string, n: nat)
    ensures Endpoint(base + Repeat('/', n), path) == Endpoint(base, path)
  {
    if n > 0 {
      assert base + Repeat('/', n) == (base + Repeat('/', n - 1)) + ['/'];
      RStripCharSuffix(base + Repeat('/', n - 1), '/');
      EndpointIgnoresSlashes(base, path, n - 1);
    } else {
      assert base + Repeat('/', 0) == base;
    }
  }

  const ChannelsPath := "/api/v1/channels/"
  const CreatePath := "/api/v1/channels/create"

  function PostPath(channelId: string): string {
    "/api/v1/channels/" + channelId + "/messages/post"
  }

  // ---------------------------------------------------------------------
  // Finding a channel

  /** A listed channel. A `name` member that is null makes `.lower()` raise. */
  datatype Channel = Channel(id: Option<string>, name: Field, userIds: Option<seq<string>>, userId: Option<string>)

  /** The name compared, `ch.get("name", "")`; None where it is null. */
  function NameOf(ch: Channel): Option<string> {
    match ch.name
    case Absent => Some("")
    case Null => None
    case Str(s) => Some(s)
  }

  /** The user is a member (`user_ids`) or the owner (`user_id`). */
  predicate Belongs(ch: Channel, user: string) {
    (ch.userIds.Some? && user in ch.userIds.value) || ch.userId == Some(user)
  }

  predicate Matches(ch: Channel, user: string, channelName: string) {
    NameOf(ch).Some? && Lower(NameOf(ch).value) == Lower(channelName) && Belongs(ch, user)
  }

  /** The loop over the listed channels; None when it reaches the end, or when a null
      name raises first. */
  function Scan(chs: seq<Channel>, user: string, channelName: string): Option<string> {
    if chs == [] then None
    else if NameOf(chs[0]).None? then None
    else if Matches(chs[0], user, channelName) then chs[0].id
    else Scan(chs[1..], user, channelName)
  }

  /** `find_channel_by_user`: the id of the first matching channel of a 200 listing of
      the channels endpoint; `get` is the exchange with the server. */
  function FindChannel(base: string, get: string -> Reply<seq<Channel>>, user: string, channelName: string):
    (r: Option<string>)
    ensures var reply := get(Endpoint(base, ChannelsPath));
      reply.Raised? || reply.status != 200 ==> r.None?
    ensures r.Some? ==> var reply := get(Endpoint(base, ChannelsPath));
      exists i :: 0 <= i < |reply.body| && Matches(reply.body[i], user, channelName) && reply.body[i].id == r
  {
    var reply := get(Endpoint(base, ChannelsPath));
    if reply.Answered? && reply.status == 200 then
      ScanOnlyMatches(reply.body, user, channelName);
      Scan(reply.body, user, channelName)
    else None
  }

  /** The first match wins, provided no earlier channel has a null name. */
  lemma {:induction false} ScanFindsFirst(chs: seq<Channel>, user: string, channelName: string, i: nat)
    requires i < |chs| && Matches(chs[i], user, channelName)
    requires forall j :: 0 <= j < i ==> NameOf(chs[j]).Some? && !Matches(chs[j], user, channelName)
    ensures Scan(chs, user, channelName) == chs[i].id
  {
    if i > 0 {
      ScanFindsFirst(chs[1..], user, channelName, i - 1);
    }
  }

  /** A channel comes back only if it matches both on name and on membership. */
  lemma {:induction false} ScanOnlyMatches(chs: seq<Channel>, user: string, channelName: string)
    ensures Scan(chs, user, channelName).Some? ==>
      exists i :: 0 <= i < |chs| && Matches(chs[i], user, channelName) && chs[i].id == Scan(chs, user, channelName)
  {
    if chs != [] && NameOf(chs[0]).Some? && !Matches(chs[0], user, channelName) {
      ScanOnlyMatches(chs[1..], user, channelName);
      if Scan(chs[1..], user, channelName).Some? {
        var i :| 0 <= i < |chs[1..]| && Matches(chs[1..][i], user, channelName) && chs[1..][i].id == Scan(chs[1..], user, channelName);
        assert chs[i + 1] == chs[1..][i];
      }
    }
  }

  /** With no matching channel the search finds nothing. */
  lemma {:induction false} ScanNoMatch(chs: seq<Channel>, user: string, channelName: string)
    requires forall j :: 0 <= j < |chs| ==> !Matches(chs[j], user, channelName)
    ensures Scan(chs, user, channelName).None?
  {
    if chs != [] && NameOf(chs[0]).Some? {
      ScanNoMatch(chs[1..], user, channelName);
    }
  }

  // ---------------------------------------------------------------------
  // Creating a channel and posting an alert

  datatype ChannelPayload = ChannelPayload(name: string, description: string, isPrivate: bool, userIds: seq<string>)

  datatype Request<P> = Request(url: string, payload: P)

  const ChannelDescription := "Communications Alerts from LLM Communications Gateway"

  /** The request `create_alert_channel` posts: a private channel whose only member is
      the user. */
  function CreateRequest(base: string, user: string, channelName: string): (r: Request<ChannelPayload>)
    ensures r.url == Endpoint(base, CreatePath)
    ensures r.payload.isPrivate && r.payload.userIds == [user] && r.payload.name == channelName
  {
    Request(Endpoint(base, CreatePath), ChannelPayload(channelName, ChannelDescription, true, [user]))
  }

  /** The created channel's id on 200, else None. */
  function CreatedId(reply: Reply<Option<string>>): (r: Option<string>)
    ensures reply.Answered? && reply.status == 200 ==> r == reply.body
    ensures reply.Raised? || reply.status != 200 ==> r.None?
  {
    if reply.Answered? && reply.status == 200 then reply.body else None
  }

  /** The request `send_alert` posts: the message as `content`, to the channel's
      message endpoint. */
  function AlertRequest(base: string, channelId: string, message: string): (r: Request<string>)
    ensures r.payload == message
    ensures r.url == Endpoint(base, PostPath(channelId))
  {
    Request(Endpoint(base, PostPath(channelId)), message)
  }

  /** The alert counts as delivered iff the post answered 200. */
  function AlertSent<T>(reply: Reply<T>): (r: bool)
    ensures r <==> reply.Answered? && reply.status == 200
  {
    reply.Answered? && reply.status == 200
  }
}
