/** `get_channel_msgs_before_msg`: one page of up to 100 messages older than a given message, decoded
    from the JSON array the API returns. Records that lack a decodable id, author id or content are
    dropped; every other record is kept, in order. */
module ChannelMessages {
  import opened Basics
  import opened Json
  import Text
  import Seqs
  import DiscordApi

  /** A message as fetched and saved. Besides the author id, message id and text that the decoder reads,
      it carries the channel it was fetched from and whether it has attachments, which the SQL sink
      stores. */
  datatype Message = Message(channelId: nat, authorId: nat, messageId: nat, message: string, hasMedia: bool)

  /** Reads the channel id and cursor back out of a page URL. */
  function ParseMessagesRelativeUrl(url: string): Option<(nat, nat)>
  {
    var afterChannels := Text.StripPrefix("channels/", url);
    if afterChannels.None? then None
    else
      var channel := Text.ReadNat(afterChannels.value);
      if channel.None? then None
      else
        var afterBefore := Text.StripPrefix("/messages?before=", channel.value.1);
        if afterBefore.None? then None
        else
          var cursor := Text.ReadNat(afterBefore.value);
          if cursor.Some? && cursor.value.1 == "&limit=100" then Some((channel.value.0, cursor.value.0)) else None
  }

  /** `channels/{channel_id}/messages?before={message_id}&limit=100`. */
  function MessagesRelativeUrl(channelId: nat, messageId: nat): string
  {
    "channels/" + (Text.ToDecimal(channelId) + ("/messages?before=" + (Text.ToDecimal(messageId) + "&limit=100")))
  }

  /** The URL names the channel and the cursor, and both read back out of it. */
  lemma {:induction false} ParseMessagesRelativeUrlInverse(channelId: nat, messageId: nat)
    ensures ParseMessagesRelativeUrl(MessagesRelativeUrl(channelId, messageId)) == Some((channelId, messageId))
  {
    var limit := "&limit=100";
    var tail := "/messages?before=" + (Text.ToDecimal(messageId) + limit);
    Text.StripPrefixOf("channels/", Text.ToDecimal(channelId) + tail);
    Text.ReadNatToDecimal(channelId, tail);
    Text.StripPrefixOf("/messages?before=", Text.ToDecimal(messageId) + limit);
    Text.ReadNatToDecimal(messageId, limit);
  }

  /** The URL names its channel and cursor unambiguously: two requests for different channels or
      different cursors never share a URL. */
  lemma {:induction false} MessagesRelativeUrlInjective(c1: nat, m1: nat, c2: nat, m2: nat)
    requires MessagesRelativeUrl(c1, m1) == MessagesRelativeUrl(c2, m2)
    ensures c1 == c2 && m1 == m2
  {
    ParseMessagesRelativeUrlInverse(c1, m1);
    ParseMessagesRelativeUrlInverse(c2, m2);
  }

  /** The condition under which a record of the array becomes a message: `id` is a string holding a
      `u64`, `author` is an object whose `id` is a string holding a `u64`, and `content` is a string. */
  predicate Decodable(record: Json)
  {
    && record.JObject?
    && "id" in record.fields && record.fields["id"].JString?
    && Text.ParseUnsigned(record.fields["id"].s, U64Max).Some?
    && "author" in record.fields && record.fields["author"].JObject?
    && "id" in record.fields["author"].fields && record.fields["author"].fields["id"].JString?
    && Text.ParseUnsigned(record.fields["author"].fields["id"].s, U64Max).Some?
    && "content" in record.fields && record.fields["content"].JString?
  }

  /** Whether the record has attachments: an `attachments` array with at least one entry. The program
      computes no media flag; this rule is the model's choice for the `has_media` column. */
  function HasMedia(record: Json): (b: bool)
    ensures b <==> && record.JObject? && "attachments" in record.fields
                   && record.fields["attachments"].JArray? && |record.fields["attachments"].items| > 0
  {
    var a := Get(record, "attachments");
    a.Some? && a.value.JArray? && a.value.items != []
  }

  /** The body of the `for_each` closure: the message a record decodes to, if any. */
  function DecodeRecord(channelId: nat, record: Json): (m: Option<Message>)
    ensures m.Some? <==> Decodable(record)
    ensures m.Some? ==>
      && m.value.messageId == Text.ParseUnsigned(record.fields["id"].s, U64Max).value
      && m.value.authorId == Text.ParseUnsigned(record.fields["author"].fields["id"].s, U64Max).value
      && m.value.message == record.fields["content"].s
      && m.value.channelId == channelId
      && m.value.messageId <= U64Max && m.value.authorId <= U64Max
    ensures m.Some? ==>
      (m.value.hasMedia <==> "attachments" in record.fields && record.fields["attachments"].JArray?
                             && |record.fields["attachments"].items| > 0)
  {
    var messageId := IdField(record, "id");
    var author := Get(record, "author");
    var authorId := if author.Some? && author.value.JObject? then IdField(author.value, "id") else None;
    var content := StrField(record, "content");
    if messageId.Some? && authorId.Some? && content.Some? then
      Some(Message(channelId, authorId.value, messageId.value, content.value, HasMedia(record)))
    else None
  }

  function Decoder(channelId: nat): Json -> Option<Message>
  {
    record => DecodeRecord(channelId, record)
  }

  /** The messages of a page, in the order of the JSON array: at most one per record, each of the
      requested channel and with ids that fit a `u64`. */
  function DecodeAll(channelId: nat, records: seq<Json>): (page: seq<Message>)
    ensures |page| <= |records|
    ensures forall j :: 0 <= j < |page| ==>
      page[j].channelId == channelId && page[j].messageId <= U64Max && page[j].authorId <= U64Max
  {
    var page := Seqs.FilterMap(records, Decoder(channelId));
    DecodedMessagesOfChannel(channelId, records, page);
    page
  }

  lemma {:induction false} DecodedMessagesOfChannel(channelId: nat, records: seq<Json>, page: seq<Message>)
    requires page == Seqs.FilterMap(records, Decoder(channelId))
    ensures forall j :: 0 <= j < |page| ==>
      page[j].channelId == channelId && page[j].messageId <= U64Max && page[j].authorId <= U64Max
  {
    forall j | 0 <= j < |page|
      ensures page[j].channelId == channelId && page[j].messageId <= U64Max && page[j].authorId <= U64Max
    {
      Seqs.FilterMapFromInput(records, Decoder(channelId), j);
      var i :| 0 <= i < |records| && Decoder(channelId)(records[i]) == Some(page[j]);
      assert DecodeRecord(channelId, records[i]) == Some(page[j]);
    }
  }

  /** Filter soundness for pages: the page holds one message per decodable record, in array order, with
      the decoded field values; no decodable record is dropped, no other record is kept. */
  lemma {:induction false} DecodeAllExact(channelId: nat, records: seq<Json>)
    ensures |DecodeAll(channelId, records)| <= |records|
    ensures var kept := Seqs.KeptIndices(records, Decoder(channelId));
      && |DecodeAll(channelId, records)| == |kept|
      && (forall j :: 0 <= j < |kept| ==> Some(DecodeAll(channelId, records)[j]) == DecodeRecord(channelId, records[kept[j]]))
      && (forall j, k :: 0 <= j < k < |kept| ==> kept[j] < kept[k])
      && (forall i :: 0 <= i < |records| ==> (i in kept <==> Decodable(records[i])))
  {
    Seqs.FilterMapExact(records, Decoder(channelId));
  }

  /** Pages that decode to nothing: an array none of whose records decode, for instance. */
  lemma {:induction false} UndecodableRecordsDropped(channelId: nat, records: seq<Json>)
    requires forall i :: 0 <= i < |records| ==> !Decodable(records[i])
    ensures DecodeAll(channelId, records) == []
  {
    if records != [] {
      var init := records[..|records| - 1];
      assert forall i :: 0 <= i < |init| ==> init[i] == records[i];
      UndecodableRecordsDropped(channelId, init);
      assert !Decodable(records[|records| - 1]);
    }
  }

  /** What one fetch returns for the delivery it got. */
  function PageOutcome(channelId: nat, d: DiscordApi.Delivery): (r: Result<seq<Message>, DiscordApi.DiscordApiError>)
    ensures r.Ok? <==> d.Delivered? && d.response.status == 200 && d.response.body.Some?
    ensures r.Err? && r.error.UnexpectedResponseStatusCode? ==>
      d.Delivered? && r.error.status == d.response.status != 200 && r.error.response == Some(d.response)
    ensures d.Delivered? && d.response.status != 200 ==> r.Err? && r.error.UnexpectedResponseStatusCode?
    ensures d.SendFailed? ==> r == Err(DiscordApi.SendingRequest)
    ensures d.Delivered? && d.response.status == 200 && d.response.body.None? ==>
      r == Err(DiscordApi.ParseResponse(DiscordApi.DeserializeBodyIntoJson))
    ensures r.Ok? && !d.response.body.value.JArray? ==> r.value == []
    ensures r.Ok? && d.response.body.value.JArray? ==> r.value == DecodeAll(channelId, d.response.body.value.items)
  {
    match d
    case SendFailed => Err(DiscordApi.SendingRequest)
    case Delivered(response) =>
      if response.status != 200 then Err(DiscordApi.UnexpectedResponseStatusCode(response.status, Some(response)))
      else if response.body.None? then Err(DiscordApi.ParseResponse(DiscordApi.DeserializeBodyIntoJson))
      else if response.body.value.JArray? then Ok(DecodeAll(channelId, response.body.value.items))
      else Ok([])
  }

  /** The request of a fetch, then the rate-limit pause that follows a successful response. */
  function PageEvents(auth: DiscordApi.DiscordAuth, channelId: nat, messageId: nat, waitForRatelimit: bool,
                      d: DiscordApi.Delivery): seq<DiscordApi.Event>
  {
    [DiscordApi.Sent(DiscordApi.Request(DiscordApi.Get, DiscordApi.RequestUrl(MessagesRelativeUrl(channelId, messageId)),
                                        DiscordApi.AuthorizationValue(auth)))]
    + (if waitForRatelimit && d.Delivered? && d.response.status == 200 then DiscordApi.WaitEvents(d.response.headers) else [])
  }

  /** The `for_each` over the JSON array: pushes the message of every decodable record, in order. */
  method CollectMessages(channelId: nat, records: seq<Json>) returns (messagesVec: seq<Message>)
    ensures messagesVec == DecodeAll(channelId, records)
  {
    messagesVec := [];
    for i := 0 to |records|
      invariant messagesVec == DecodeAll(channelId, records[..i])
    {
      assert records[..i + 1] == records[..i] + [records[i]];
      Seqs.FilterMapSnoc(records[..i], records[i], Decoder(channelId));
      var decoded := DecodeRecord(channelId, records[i]);
      if decoded.Some? {
        messagesVec := messagesVec + [decoded.value];
      }
    }
    assert records[..|records|] == records;
  }

  /** `get_channel_msgs_before_msg`: sends one request, dispatches on the status, pauses for the rate
      limit after a 200 when asked to (before reading the body), and collects the decodable records. */
  method GetChannelMsgsBeforeMsg(api: DiscordApi.DiscordApi, channelId: nat, messageId: nat, waitForRatelimit: bool)
    returns (r: Result<seq<Message>, DiscordApi.DiscordApiError>)
    requires api.client.responses != []
    modifies api.client
    ensures api.client.responses == old(api.client.responses[1..])
    ensures api.client.trace == old(api.client.trace) + PageEvents(api.auth, channelId, messageId, waitForRatelimit, old(api.client.responses[0]))
    ensures r == PageOutcome(channelId, old(api.client.responses[0]))
  {
    var response := api.RequestWithRelativeUrlAndAuthHeader(MessagesRelativeUrl(channelId, messageId));
    if response.Err? {
      return Err(response.error);
    }
    var status := response.value.status;
    if status != 200 {
      return Err(DiscordApi.UnexpectedResponseStatusCode(status, Some(response.value)));
    }
    if waitForRatelimit {
      api.HandleRateLimitWait(response.value.headers);
    }
    if response.value.body.None? {
      return Err(DiscordApi.ParseResponse(DiscordApi.DeserializeBodyIntoJson));
    }
    var jsonData := response.value.body.value;
    var messagesVec: seq<Message> := [];
    if jsonData.JArray? {
      messagesVec := CollectMessages(channelId, jsonData.items);
    }
    r := Ok(messagesVec);
  }
}
