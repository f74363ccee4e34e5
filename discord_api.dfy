/** The HTTP client side of the crawler: the authorization header, the request URL, the network as an
    oracle that answers each request from a script, and the rate-limit governor that reads the
    `X-RateLimit-Remaining` and `X-RateLimit-Reset-After` headers of a successful response. */
module DiscordApi {
  import opened Basics
  import opened Json
  import Text

  const DiscordApiBaseUrl: string := "https://discord.com/api/v9"

  datatype DiscordAuth = DiscordAuth(token: string)

  /** `DiscordAuth`'s `Display`, the value of the Authorization header: `Bot ` and the token. */
  function AuthorizationValue(auth: DiscordAuth): (v: string)
    ensures |v| == |auth.token| + 4 && v[..4] == "Bot " && v[4..] == auth.token
  {
    "Bot " + auth.token
  }

  /** The header identifies the token: two different tokens never produce the same header. */
  lemma {:induction false} AuthorizationValueInjective(a: DiscordAuth, b: DiscordAuth)
    requires AuthorizationValue(a) == AuthorizationValue(b)
    ensures a == b
  {
    assert a.token == AuthorizationValue(a)[4..];
  }

  /** The absolute URL of a request: the base URL, a slash, and the relative URL. */
  function RequestUrl(relativeUrl: string): (url: string)
    ensures |url| == |DiscordApiBaseUrl| + 1 + |relativeUrl|
    ensures url[..|DiscordApiBaseUrl|] == DiscordApiBaseUrl && url[|DiscordApiBaseUrl|] == '/'
    ensures url[|DiscordApiBaseUrl| + 1..] == relativeUrl
  {
    DiscordApiBaseUrl + "/" + relativeUrl
  }

  /** Different relative URLs address different absolute URLs. */
  lemma {:induction false} RequestUrlInjective(a: string, b: string)
    requires RequestUrl(a) == RequestUrl(b)
    ensures a == b
  {
    assert a == RequestUrl(a)[|DiscordApiBaseUrl| + 1..];
  }

  datatype HttpMethod = Get

  datatype Request = Request(verb: HttpMethod, url: string, authorization: string)

  /** A response as the crawler sees it: the status code, the headers (names in lower case, as
      `HeaderMap` stores them; lookups ignore case) and the body, `None` when it is not valid JSON. */
  datatype Response = Response(status: nat, headers: map<string, string>, body: Option<Json>)

  /** What one send gives back: a response, or a transport failure. */
  datatype Delivery = Delivered(response: Response) | SendFailed

  /** An observable effect: a request sent, or a pause of the given number of milliseconds. */
  datatype Event = Sent(request: Request) | Slept(millis: nat)

  datatype FoundableStuff = Channel(channelId: Option<nat>) | Message(messageId: Option<nat>) | ChannelName

  datatype ParseError = DeserializeBodyIntoJson

  datatype DiscordApiError =
    | NotFound(what: FoundableStuff)
    | SendingRequest
    | ParseResponse(parseError: ParseError)
    | UnexpectedResponseStatusCode(status: nat, response: Option<Response>)

  datatype RateLimitInfo = RateLimitInfo(remainingLimit: nat, millisecondsUntilRatelimitReset: nat)

  const RateLimitRemainingHeader: string := "x-ratelimit-remaining"
  const RateLimitResetAfterHeader: string := "x-ratelimit-reset-after"

  /** The bytes `HeaderValue::to_str` accepts: visible ASCII and the tab. */
  predicate VisibleAscii(c: char)
  {
    c == '\t' || (' ' <= c && c <= '~')
  }

  /** `header_map.get(name).and_then(|v| v.to_str().ok())`. */
  function HeaderStr(headers: map<string, string>, name: string): Option<string>
  {
    if name in headers && forall i :: 0 <= i < |headers[name]| ==> VisibleAscii(headers[name][i])
    then Some(headers[name])
    else None
  }

  /** `get_ratelimit_info_from_response_header_map`: pacing information exists exactly when both headers
      are present, the remaining count parses as a `u8` and the reset delay parses as a number. */
  function GetRatelimitInfo(headers: map<string, string>): (r: Option<RateLimitInfo>)
    ensures r.Some? <==>
      && RateLimitRemainingHeader in headers && Text.ParseUnsigned(headers[RateLimitRemainingHeader], U8Max).Some?
      && RateLimitResetAfterHeader in headers && Text.ParseDecimal(headers[RateLimitResetAfterHeader]).Some?
    ensures r.Some? ==> r.value.remainingLimit <= U8Max && r.value.millisecondsUntilRatelimitReset <= U16Max
    ensures r.Some? ==> r.value.remainingLimit == Text.ParseUnsigned(headers[RateLimitRemainingHeader], U8Max).value
  {
    var remainingText := HeaderStr(headers, RateLimitRemainingHeader);
    var remaining := if remainingText.Some? then Text.ParseUnsigned(remainingText.value, U8Max) else None;
    var resetText := HeaderStr(headers, RateLimitResetAfterHeader);
    var resetAfter := if resetText.Some? then Text.ParseDecimal(resetText.value) else None;
    if remaining.Some? && resetAfter.Some? then
      Some(RateLimitInfo(remaining.value, Text.MillisUntilReset(resetAfter.value)))
    else None
  }

  /** The decision of `handle_rate_limit_wait`: wait only when pacing information exists and no request
      is left in the window, and then for exactly the announced number of milliseconds. */
  function RateLimitWait(headers: map<string, string>): (w: Option<nat>)
    ensures w.Some? <==>
      && RateLimitRemainingHeader in headers && Text.ParseUnsigned(headers[RateLimitRemainingHeader], U8Max) == Some(0)
      && RateLimitResetAfterHeader in headers && Text.ParseDecimal(headers[RateLimitResetAfterHeader]).Some?
    ensures w.Some? ==> w.value == Text.MillisUntilReset(Text.ParseDecimal(headers[RateLimitResetAfterHeader]).value)
  {
    var info := GetRatelimitInfo(headers);
    if info.Some? && info.value.remainingLimit == 0 then Some(info.value.millisecondsUntilRatelimitReset) else None
  }

  /** The pause, if any, that `handle_rate_limit_wait` performs. */
  function WaitEvents(headers: map<string, string>): seq<Event>
  {
    var w := RateLimitWait(headers);
    if w.Some? then [Slept(w.value)] else []
  }

  /** Concrete cases: `0` remaining with `1.5` seconds waits 1500 ms; `5` remaining never waits,
      whatever the delay says. */
  lemma {:induction false} RateLimitExamples(resetAfter: string)
    ensures RateLimitWait(map[RateLimitRemainingHeader := "0", RateLimitResetAfterHeader := "1.5"]) == Some(1500)
    ensures RateLimitWait(map[RateLimitRemainingHeader := "5", RateLimitResetAfterHeader := resetAfter]) == None
  {
    Text.MillisOneAndAHalf();
    assert Text.ParseUnsigned("0", U8Max) == Some(0) by { Text.ParseToDecimal(0, U8Max); }
    assert Text.ParseUnsigned("5", U8Max) == Some(5) by { Text.ParseToDecimal(5, U8Max); }
  }

  /** A remaining count that is not a `u8`, or a missing delay, gives no pacing information at all. */
  lemma {:induction false} NoPacingExamples()
    ensures GetRatelimitInfo(map[RateLimitRemainingHeader := "256", RateLimitResetAfterHeader := "1.5"]) == None
    ensures GetRatelimitInfo(map[RateLimitRemainingHeader := "-1", RateLimitResetAfterHeader := "1.5"]) == None
    ensures GetRatelimitInfo(map[RateLimitRemainingHeader := "0"]) == None
  {
    Text.ParseUnsignedRejects();
  }

  /** With no request left, a reset delay written as a plain non-negative decimal makes the governor
      wait the milliseconds that decimal denotes. */
  lemma {:induction false} WaitForWrittenDelay(whole: string, frac: string)
    requires Text.AllDigits(whole) && Text.AllDigits(frac) && whole + frac != []
    ensures Text.AllDigits(whole + frac)
    ensures RateLimitWait(map[RateLimitRemainingHeader := "0", RateLimitResetAfterHeader := Text.DecimalText(false, whole, frac)])
         == Some(Text.MillisUntilReset(Text.Decimal(false, Text.DigitsValue(whole + frac), |frac|)))
  {
    Text.ParseDecimalText(false, whole, frac);
    assert Text.ParseUnsigned("0", U8Max) == Some(0) by { Text.ParseToDecimal(0, U8Max); }
  }

  /** The network: answers each request with the next scripted delivery and records every request and
      every pause, in order. */
  class Network {
    var responses: seq<Delivery>
    var trace: seq<Event>

    constructor (responses: seq<Delivery>)
      ensures this.responses == responses && trace == []
    {
      this.responses := responses;
      trace := [];
    }

    method Send(request: Request) returns (d: Delivery)
      requires responses != []
      modifies this
      ensures d == old(responses[0]) && responses == old(responses[1..])
      ensures trace == old(trace) + [Sent(request)]
    {
      d := responses[0];
      responses := responses[1..];
      trace := trace + [Sent(request)];
    }

    method Sleep(millis: nat)
      modifies this
      ensures responses == old(responses) && trace == old(trace) + [Slept(millis)]
    {
      trace := trace + [Slept(millis)];
    }
  }

  /** `DiscordApi`: an HTTP client and the bot credential, neither of which changes. */
  class DiscordApi {
    const client: Network
    const auth: DiscordAuth

    constructor (token: string, client: Network)
      ensures this.client == client && auth == DiscordAuth(token)
    {
      this.client := client;
      auth := DiscordAuth(token);
    }

    /** `request_with_relative_url_and_auth_header`: one authenticated request to the joined URL; a
        transport failure becomes `SendingRequest`. */
    method RequestWithRelativeUrlAndAuthHeader(relativeUrl: string) returns (r: Result<Response, DiscordApiError>)
      requires client.responses != []
      modifies client
      ensures client.responses == old(client.responses[1..])
      ensures client.trace == old(client.trace) + [Sent(Request(Get, RequestUrl(relativeUrl), AuthorizationValue(auth)))]
      ensures old(client.responses[0]).SendFailed? ==> r == Err(SendingRequest)
      ensures old(client.responses[0]).Delivered? ==> r == Ok(old(client.responses[0]).response)
    {
      var delivery := client.Send(Request(Get, RequestUrl(relativeUrl), AuthorizationValue(auth)));
      if delivery.SendFailed? {
        return Err(SendingRequest);
      }
      r := Ok(delivery.response);
    }

    /** `handle_rate_limit_wait`: pauses exactly as `RateLimitWait` decides, and does nothing else. */
    method HandleRateLimitWait(headers: map<string, string>)
      modifies client
      ensures client.responses == old(client.responses)
      ensures client.trace == old(client.trace) + WaitEvents(headers)
    {
      var info := GetRatelimitInfo(headers);
      if info.Some? {
        if info.value.remainingLimit == 0 {
          client.Sleep(info.value.millisecondsUntilRatelimitReset);
        }
      }
    }
  }
}
