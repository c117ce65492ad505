/** The end of a call: which call record is closed, what it is closed with, and the
    Open WebUI alert an inbound call raises (where, and whether). */
module Teardown {
  import opened Common

  const Completed: string := "completed"
  const DefaultWebUiBase: string := "http://open-webui:8080"
  const DefaultAlertChannel: string := "LLM-Communications-Gateway Alerts"
  /** The cost per minute, in dollars. */
  const RatePerMinute: real := 0.005

  /** Where the closing record is looked up: by internal id, else the newest record of
      the call-control id, else nowhere (and nothing is updated). */
  datatype Lookup = ById(id: int) | LatestByControlId(callId: string) | NoLookup

  /** `if db_id:` then `elif call_id:`; a zero id is falsy. */
  function RecordLookup(dbId: Option<int>, callId: Option<string>): (l: Lookup)
    ensures dbId.Some? && dbId.value != 0 ==> l == ById(dbId.value)
    ensures !(dbId.Some? && dbId.value != 0) && Truthy(callId) ==> l == LatestByControlId(callId.value)
    ensures l == NoLookup <==> !(dbId.Some? && dbId.value != 0) && !Truthy(callId)
  {
    if dbId.Some? && dbId.value != 0 then ById(dbId.value)
    else if Truthy(callId) then LatestByControlId(callId.value)
    else NoLookup
  }

  /** The members of a call record the teardown and the alert read or write. */
  datatype CallRecord = CallRecord(status: string, durationSeconds: int, transcription: string, cost: real,
                                   direction: string, userId: Option<string>)

  /** The record closed after `elapsed` seconds (a non-negative clock difference, cut
      to whole seconds), with the transcript lines joined by newlines. */
  function Close(r: CallRecord, elapsed: real, transcript: seq<string>): (c: CallRecord)
    requires elapsed >= 0.0
    ensures c.status == Completed && c.durationSeconds >= 0
    ensures c.durationSeconds as real <= elapsed < c.durationSeconds as real + 1.0
    ensures c.transcription == Join(transcript, "\n")
    ensures c.cost == c.durationSeconds as real / 60.0 * RatePerMinute
    ensures c.direction == r.direction && c.userId == r.userId
  {
    var duration := elapsed.Floor;
    r.(status := Completed, durationSeconds := duration, transcription := Join(transcript, "\n"),
       cost := duration as real / 60.0 * RatePerMinute)
  }

  /** The cost grows with the call and is never negative. */
  lemma CostMonotone(r: CallRecord, a: real, b: real, transcript: seq<string>)
    requires 0.0 <= a <= b
    ensures 0.0 <= Close(r, a, transcript).cost <= Close(r, b, transcript).cost
  {
    assert a.Floor <= b.Floor;
  }

  /** An alert is raised for a closed inbound call that belongs to a user, when an
      admin token is configured. */
  predicate ShouldAlert(record: Option<CallRecord>, adminToken: Option<string>) {
    record.Some? && record.value.direction == "inbound" && Truthy(record.value.userId) && Truthy(adminToken)
  }

  /** The Open WebUI base: the model URL up to its `/v1`, then up to any `/api`, when
      that leaves something; otherwise the in-cluster default. */
  function AlertBaseUrl(llmUrl: Option<string>): (r: string)
    ensures r != ""
    ensures !Truthy(llmUrl) || !Contains(llmUrl.value, "/v1") ==> r == DefaultWebUiBase
    ensures r != DefaultWebUiBase ==> Contains(llmUrl.value, "/v1") && StartsWith(llmUrl.value, r)
    ensures Truthy(llmUrl) && Contains(llmUrl.value, "/v1") ==>
      var k := FirstOfEither(llmUrl.value, "/v1", "/api");
      r == if k > 0 then llmUrl.value[..k] else DefaultWebUiBase
  {
    if Truthy(llmUrl) && Contains(llmUrl.value, "/v1") then
      var p := SplitFirst(SplitFirst(llmUrl.value, "/v1"), "/api");
      SplitTwiceCut(llmUrl.value, "/v1", "/api");
      if p != "" then p else DefaultWebUiBase
    else DefaultWebUiBase
  }

  /** The alert channel's name: `getattr(voice_conf, "alert_channel_name", default)`,
      where `attribute` is the stored `alert_channel_name` column when the configuration
      has one. The start-up migration adds that column with the same default name, so a
      migrated configuration that never set it also gives `DefaultAlertChannel`. */
  function AlertChannelName(attribute: Option<string>): (r: string)
    ensures attribute.None? ==> r == DefaultAlertChannel
    ensures attribute.Some? ==> r == attribute.value
  {
    if attribute.Some? then attribute.value else DefaultAlertChannel
  }

  /** The alert channel: the cached one, or the first found, or one created; a channel
      not taken from the cache is cached. `found` and `created` are the results of the
      search and of the creation; the creation is only attempted when the search found
      nothing. */
  datatype ChannelChoice = ChannelChoice(target: Option<string>, searched: bool, created: bool, cache: bool)

  function ChooseChannel(cached: Option<string>, found: Option<string>, created: Option<string>): (c: ChannelChoice)
    ensures cached.Some? ==> c == ChannelChoice(cached, false, false, false)
    ensures cached.None? ==> c.searched && (c.created <==> !Truthy(found))
    ensures cached.None? ==> (c.cache <==> Truthy(c.target))
    ensures cached.None? && Truthy(found) ==> c.target == found
    ensures cached.None? && !Truthy(found) ==> c.target == (if Truthy(created) then created else None)
  {
    if cached.Some? then ChannelChoice(cached, false, false, false)
    else if Truthy(found) then ChannelChoice(found, true, false, true)
    else
      var target := if Truthy(created) then created else None;
      ChannelChoice(target, true, true, Truthy(target))
  }

  /** A cached channel is used as it is; once cached, the next call of the same user and
      channel name finds it without searching or creating. */
  lemma CacheThenReuse(found: Option<string>, created: Option<string>, f2: Option<string>, c2: Option<string>)
    requires ChooseChannel(None, found, created).cache
    ensures var first := ChooseChannel(None, found, created);
      var second := ChooseChannel(first.target, f2, c2);
      second.target == first.target && !second.searched && !second.created
  {
  }

  /** The alert goes out only to a channel that was found, created or cached. */
  predicate SendsAlert(record: Option<CallRecord>, adminToken: Option<string>, choice: ChannelChoice) {
    ShouldAlert(record, adminToken) && Truthy(choice.target)
  }
}
