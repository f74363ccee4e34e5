/** `get_last_msg_in_channel`: the channel metadata request that yields the id of the newest message and
    the channel's name, or says which of the two is missing. */
module LastMessage {
  import opened Basics
  import opened Json
  import Text
  import DiscordApi

  /** `channels/{channel_id}`. */
  function ChannelRelativeUrl(channelId: nat): string
  {
    "channels/" + Text.ToDecimal(channelId)
  }

  /** The URL is the fixed prefix, then the channel id in decimal and nothing after it. */
  lemma {:induction false} ChannelRelativeUrlReadsBack(channelId: nat)
    ensures |ChannelRelativeUrl(channelId)| > 9 && ChannelRelativeUrl(channelId)[..9] == "channels/"
    ensures Text.ReadNat(ChannelRelativeUrl(channelId)[9..]) == Some((channelId, []))
  {
    assert ChannelRelativeUrl(channelId)[9..] == Text.ToDecimal(channelId) + [];
    Text.ReadNatToDecimal(channelId, []);
  }

  /** Different channels are requested at different URLs. */
  lemma {:induction false} ChannelRelativeUrlInjective(a: nat, b: nat)
    requires ChannelRelativeUrl(a) == ChannelRelativeUrl(b)
    ensures a == b
  {
    ChannelRelativeUrlReadsBack(a);
    ChannelRelativeUrlReadsBack(b);
  }

  /** The object's `last_message_id` is a string holding a `u64`. */
  predicate HasLastMessageId(body: Json)
    requires body.JObject?
  {
    "last_message_id" in body.fields && body.fields["last_message_id"].JString?
    && Text.ParseUnsigned(body.fields["last_message_id"].s, U64Max).Some?
  }

  /** The object's `name` is a string. */
  predicate HasName(body: Json)
    requires body.JObject?
  {
    "name" in body.fields && body.fields["name"].JString?
  }

  /** The decision tree over the decoded body. Exactly one of five outcomes: the id and the name; the
      name missing; the id missing or unreadable (whatever the name holds); the body not an object
      (the error then carries the requested channel id). */
  function ResolveBody(channelId: nat, body: Json): (r: Result<(nat, string), DiscordApi.DiscordApiError>)
    ensures r.Ok? <==> body.JObject? && HasLastMessageId(body) && HasName(body)
    ensures r.Ok? ==> r.value == (Text.ParseUnsigned(body.fields["last_message_id"].s, U64Max).value, body.fields["name"].s)
    ensures r == Err(DiscordApi.NotFound(DiscordApi.ChannelName)) <==> body.JObject? && HasLastMessageId(body) && !HasName(body)
    ensures r == Err(DiscordApi.NotFound(DiscordApi.Message(None))) <==> body.JObject? && !HasLastMessageId(body)
    ensures r == Err(DiscordApi.NotFound(DiscordApi.Channel(Some(channelId)))) <==> !body.JObject?
    ensures r.Err? ==> r.error.NotFound?
  {
    if body.JObject? then
      var lastMessageId := IdField(body, "last_message_id");
      var channelName := StrField(body, "name");
      if lastMessageId.Some? then
        if channelName.Some? then Ok((lastMessageId.value, channelName.value))
        else Err(DiscordApi.NotFound(DiscordApi.ChannelName))
      else Err(DiscordApi.NotFound(DiscordApi.Message(None)))
    else Err(DiscordApi.NotFound(DiscordApi.Channel(Some(channelId))))
  }

  /** What the metadata request returns for the delivery it got. */
  function ChannelOutcome(channelId: nat, d: DiscordApi.Delivery): (r: Result<(nat, string), DiscordApi.DiscordApiError>)
    ensures d.SendFailed? ==> r == Err(DiscordApi.SendingRequest)
    ensures d.Delivered? && d.response.status != 200 ==>
      r == Err(DiscordApi.UnexpectedResponseStatusCode(d.response.status, Some(d.response)))
    ensures d.Delivered? && d.response.status == 200 && d.response.body.None? ==>
      r == Err(DiscordApi.ParseResponse(DiscordApi.DeserializeBodyIntoJson))
    ensures d.Delivered? && d.response.status == 200 && d.response.body.Some? ==>
      r == ResolveBody(channelId, d.response.body.value)
    ensures r.Ok? ==> d.Delivered? && d.response.status == 200 && d.response.body.Some? && r.value.0 <= U64Max
  {
    match d
    case SendFailed => Err(DiscordApi.SendingRequest)
    case Delivered(response) =>
      if response.status != 200 then Err(DiscordApi.UnexpectedResponseStatusCode(response.status, Some(response)))
      else if response.body.None? then Err(DiscordApi.ParseResponse(DiscordApi.DeserializeBodyIntoJson))
      else ResolveBody(channelId, response.body.value)
  }

  /** The metadata request, then the rate-limit pause that follows a successful response. */
  function ChannelEvents(auth: DiscordApi.DiscordAuth, channelId: nat, waitForRatelimit: bool,
                         d: DiscordApi.Delivery): seq<DiscordApi.Event>
  {
    [DiscordApi.Sent(DiscordApi.Request(DiscordApi.Get, DiscordApi.RequestUrl(ChannelRelativeUrl(channelId)),
                                        DiscordApi.AuthorizationValue(auth)))]
    + (if waitForRatelimit && d.Delivered? && d.response.status == 200 then DiscordApi.WaitEvents(d.response.headers) else [])
  }

  /** `get_last_msg_in_channel`: one request, status dispatch, the rate-limit pause after a 200 when asked
      to (before the body is read), then the decision tree over the body. */
  method GetLastMsgInChannel(api: DiscordApi.DiscordApi, channelId: nat, waitForRatelimit: bool)
    returns (r: Result<(nat, string), DiscordApi.DiscordApiError>)
    requires api.client.responses != []
    modifies api.client
    ensures api.client.responses == old(api.client.responses[1..])
    ensures api.client.trace == old(api.client.trace) + ChannelEvents(api.auth, channelId, waitForRatelimit, old(api.client.responses[0]))
    ensures r == ChannelOutcome(channelId, old(api.client.responses[0]))
  {
    var response := api.RequestWithRelativeUrlAndAuthHeader(ChannelRelativeUrl(channelId));
    if response.Err? {
      return Err(response.error);
    }
    var status := response.value.status;
    if status != 200 {
      return Err(DiscordApi.UnexpectedResponseStatusCode(status, Some(response.value)));
    }
    if waitForRatelimit {
      api.HandleRateLimitWait(response.value.headers);
    }
    if response.value.body.None? {
      return Err(DiscordApi.ParseResponse(DiscordApi.DeserializeBodyIntoJson));
    }
    r := ResolveBody(channelId, response.value.body.value);
  }
}
