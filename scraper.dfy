/** The crawl engine: the fetch that retries on HTTP 503, the per-channel crawl that walks backwards
    through the history one page at a time and appends every non-empty page to a line-delimited file,
    and the conversion of that file into a JSON array. */
module Scraper {
  import opened Basics
  import opened Json
  import Seqs
  import Paths
  import DiscordApi
  import ChannelMessages
  import LastMessage
  import MessageSaver
  import Conversion

  type Message = ChannelMessages.Message

  /** How long the crawl pauses after an HTTP 503 before asking again (a `u8` in the program). */
  const SecondsToWaitInCaseOfHttp503: nat := 20

  const UnavailableStatus: nat := 503

  datatype ScraperError = DiscordApiError(error: DiscordApi.DiscordApiError)

  type Page = Result<seq<Message>, ScraperError>

  /** The request every fetch of the page before `messageId` sends. */
  function PageRequest(auth: DiscordApi.DiscordAuth, channelId: nat, messageId: nat): DiscordApi.Request
  {
    DiscordApi.Request(DiscordApi.Get, DiscordApi.RequestUrl(ChannelMessages.MessagesRelativeUrl(channelId, messageId)),
                       DiscordApi.AuthorizationValue(auth))
  }

  predicate Unavailable(outcome: Result<seq<Message>, DiscordApi.DiscordApiError>)
  {
    outcome.Err? && outcome.error.UnexpectedResponseStatusCode? && outcome.error.status == UnavailableStatus
  }

  /** A fetch result as the crawl sees it: API errors wrapped, pages unchanged. */
  function Lift(outcome: Result<seq<Message>, DiscordApi.DiscordApiError>): (p: Page)
    ensures p.Ok? <==> outcome.Ok?
    ensures p.Ok? ==> p.value == outcome.value
    ensures p.Err? ==> p.error == DiscordApiError(outcome.error)
  {
    match outcome
    case Ok(messages) => Ok(messages)
    case Err(e) => Err(DiscordApiError(e))
  }

  /** The attempts of one retrying fetch over a script of deliveries: the result (None when the script
      ran out while the service was still unavailable), how many deliveries it used and what it did. */
  datatype Attempts = Attempts(result: Option<Page>, consumed: nat, events: seq<DiscordApi.Event>)

  /** The specification of `scrape_msgs_before_msg`: fetch; on a 503 pause and fetch the same page
      again; anything else is the answer. The answer comes from the first delivery that is not a 503
      and every delivery before it was a 503. */
  function Retry(auth: DiscordApi.DiscordAuth, channelId: nat, messageId: nat, responses: seq<DiscordApi.Delivery>)
    : (run: Attempts)
    ensures run.consumed <= |responses|
    ensures run.result.None? ==> run.consumed == |responses|
    ensures run.result.Some? ==> 1 <= run.consumed
    decreases |responses|
  {
    if responses == [] then Attempts(None, 0, [])
    else
      var outcome := ChannelMessages.PageOutcome(channelId, responses[0]);
      var events := ChannelMessages.PageEvents(auth, channelId, messageId, true, responses[0]);
      if Unavailable(outcome) then
        var rest := Retry(auth, channelId, messageId, responses[1..]);
        Attempts(rest.result, rest.consumed + 1,
                 events + [DiscordApi.Slept(SecondsToWaitInCaseOfHttp503 * 1000)] + rest.events)
      else
        Attempts(Some(Lift(outcome)), 1, events)
  }

  /** Which delivery answers a retrying fetch: there is no answer exactly when every delivery of the
      script was a 503; otherwise the answer is the first delivery that is not a 503, and every
      delivery before it was a 503. */
  lemma {:induction false} RetryAnswer(auth: DiscordApi.DiscordAuth, channelId: nat, messageId: nat,
                                       responses: seq<DiscordApi.Delivery>)
    ensures var run := Retry(auth, channelId, messageId, responses);
      && (run.result.None? <==> forall k :: 0 <= k < |responses| ==> Unavailable(ChannelMessages.PageOutcome(channelId, responses[k])))
      && (run.result.Some? ==>
            && run.result.value == Lift(ChannelMessages.PageOutcome(channelId, responses[run.consumed - 1]))
            && !Unavailable(ChannelMessages.PageOutcome(channelId, responses[run.consumed - 1]))
            && forall k :: 0 <= k < run.consumed - 1 ==> Unavailable(ChannelMessages.PageOutcome(channelId, responses[k])))
    decreases |responses|
  {
    if responses != [] && Unavailable(ChannelMessages.PageOutcome(channelId, responses[0])) {
      var tail := responses[1..];
      RetryAnswer(auth, channelId, messageId, tail);
      forall k | 1 <= k < |responses|
        ensures responses[k] == tail[k - 1]
      {
      }
    }
  }

  function SentRequest(e: DiscordApi.Event): Option<DiscordApi.Request>
  {
    if e.Sent? then Some(e.request) else None
  }

  /** The requests among some events, in order. */
  function SentRequests(events: seq<DiscordApi.Event>): seq<DiscordApi.Request>
  {
    Seqs.FilterMap(events, SentRequest)
  }

  lemma {:induction false} PageEventsSendOnce(auth: DiscordApi.DiscordAuth, channelId: nat, messageId: nat, d: DiscordApi.Delivery)
    ensures SentRequests(ChannelMessages.PageEvents(auth, channelId, messageId, true, d)) == [PageRequest(auth, channelId, messageId)]
  {
    var first := [DiscordApi.Sent(PageRequest(auth, channelId, messageId))];
    var waits := if d.Delivered? && d.response.status == 200 then DiscordApi.WaitEvents(d.response.headers) else [];
    assert ChannelMessages.PageEvents(auth, channelId, messageId, true, d) == first + waits;
    Seqs.FilterMapAppend(first, waits, SentRequest);
    assert SentRequests(first) == [PageRequest(auth, channelId, messageId)] by {
      assert first == [] + [first[0]];
    }
    if waits != [] {
      assert waits == [] + [waits[0]];
    }
  }

  /** A 503 is retried with an identical request: every attempt sends the same request, exactly once
      per delivery used, so the cursor never moves while the service is unavailable. */
  lemma {:induction false} RetrySendsIdenticalRequests(auth: DiscordApi.DiscordAuth, channelId: nat, messageId: nat,
                                                       responses: seq<DiscordApi.Delivery>)
    ensures var run := Retry(auth, channelId, messageId, responses);
      SentRequests(run.events) == seq(run.consumed, _ => PageRequest(auth, channelId, messageId))
    decreases |responses|
  {
    if responses != [] {
      var request := PageRequest(auth, channelId, messageId);
      var attempt := AttemptEvents(auth, channelId, messageId, responses[0]);
      RetryStep(auth, channelId, messageId, responses);
      AttemptSendsOnce(auth, channelId, messageId, responses[0]);
      if Unavailable(ChannelMessages.PageOutcome(channelId, responses[0])) {
        var rest := Retry(auth, channelId, messageId, responses[1..]);
        RetrySendsIdenticalRequests(auth, channelId, messageId, responses[1..]);
        SentRequestsRepeat(request, attempt, rest.events, rest.consumed);
      } else {
        assert seq(1, _ => request) == [request];
      }
    }
  }

  /** One more event sequence sending `request` once, in front of `n` sends of it, sends it `n + 1` times. */
  lemma {:induction false} SentRequestsRepeat(request: DiscordApi.Request, first: seq<DiscordApi.Event>,
                                              rest: seq<DiscordApi.Event>, n: nat)
    requires SentRequests(first) == [request]
    requires SentRequests(rest) == seq(n, _ => request)
    ensures SentRequests(first + rest) == seq(n + 1, _ => request)
  {
    Seqs.FilterMapAppend(first, rest, SentRequest);
    assert [request] + seq(n, _ => request) == seq(n + 1, _ => request);
  }

  /** The events of one attempt: the fetch, then the 20-second pause when the answer was a 503. */
  function AttemptEvents(auth: DiscordApi.DiscordAuth, channelId: nat, messageId: nat, d: DiscordApi.Delivery)
    : seq<DiscordApi.Event>
  {
    ChannelMessages.PageEvents(auth, channelId, messageId, true, d)
    + (if Unavailable(ChannelMessages.PageOutcome(channelId, d)) then [DiscordApi.Slept(SecondsToWaitInCaseOfHttp503 * 1000)] else [])
  }

  /** The events of attempts answered by the given deliveries, one after the other. */
  function AttemptsEvents(auth: DiscordApi.DiscordAuth, channelId: nat, messageId: nat,
                          deliveries: seq<DiscordApi.Delivery>): seq<DiscordApi.Event>
  {
    if deliveries == [] then []
    else AttemptEvents(auth, channelId, messageId, deliveries[0]) + AttemptsEvents(auth, channelId, messageId, deliveries[1..])
  }

  /** What a retrying fetch leaves on the trace is its attempts' events, in order: for every delivery
      it used, the request, the rate-limit pause of a successful response, and the 20-second pause
      when the answer was a 503. */
  lemma {:induction false} RetryEventsPerAttempt(auth: DiscordApi.DiscordAuth, channelId: nat, messageId: nat,
                                                 responses: seq<DiscordApi.Delivery>)
    ensures var run := Retry(auth, channelId, messageId, responses);
      run.events == AttemptsEvents(auth, channelId, messageId, responses[..run.consumed])
    decreases |responses|
  {
    if responses != [] {
      var run := Retry(auth, channelId, messageId, responses);
      var used := responses[..run.consumed];
      RetryStep(auth, channelId, messageId, responses);
      assert used[0] == responses[0];
      if Unavailable(ChannelMessages.PageOutcome(channelId, responses[0])) {
        var rest := Retry(auth, channelId, messageId, responses[1..]);
        RetryEventsPerAttempt(auth, channelId, messageId, responses[1..]);
        assert used[1..] == responses[1..][..rest.consumed];
      } else {
        assert used[1..] == [];
      }
    }
  }

  /** One attempt sends the page request once. */
  lemma {:induction false} AttemptSendsOnce(auth: DiscordApi.DiscordAuth, channelId: nat, messageId: nat, d: DiscordApi.Delivery)
    ensures SentRequests(AttemptEvents(auth, channelId, messageId, d)) == [PageRequest(auth, channelId, messageId)]
  {
    var fetch := ChannelMessages.PageEvents(auth, channelId, messageId, true, d);
    var pause := if Unavailable(ChannelMessages.PageOutcome(channelId, d)) then [DiscordApi.Slept(SecondsToWaitInCaseOfHttp503 * 1000)] else [];
    PageEventsSendOnce(auth, channelId, messageId, d);
    Seqs.FilterMapAppend(fetch, pause, SentRequest);
    if pause != [] {
      assert pause == [] + [pause[0]];
    }
  }

  /** One attempt: fetch the page, and pause when the service answered 503. */
  method Attempt(api: DiscordApi.DiscordApi, channelId: nat, messageId: nat)
    returns (page: Result<seq<Message>, DiscordApi.DiscordApiError>)
    requires api.client.responses != []
    modifies api.client
    ensures api.client.responses == old(api.client.responses[1..])
    ensures api.client.trace == old(api.client.trace) + AttemptEvents(api.auth, channelId, messageId, old(api.client.responses[0]))
    ensures page == ChannelMessages.PageOutcome(channelId, old(api.client.responses[0]))
  {
    page := ChannelMessages.GetChannelMsgsBeforeMsg(api, channelId, messageId, true);
    if Unavailable(page) {
      api.client.Sleep(SecondsToWaitInCaseOfHttp503 * 1000);
    }
  }

  /** One attempt of `Retry`, unfolded: a 503 costs one delivery and the attempt's events. */
  lemma {:induction false} RetryStep(auth: DiscordApi.DiscordAuth, channelId: nat, messageId: nat, responses: seq<DiscordApi.Delivery>)
    requires responses != []
    ensures var outcome := ChannelMessages.PageOutcome(channelId, responses[0]);
      var rest := Retry(auth, channelId, messageId, responses[1..]);
      Retry(auth, channelId, messageId, responses) ==
        if Unavailable(outcome) then
          Attempts(rest.result, rest.consumed + 1, AttemptEvents(auth, channelId, messageId, responses[0]) + rest.events)
        else Attempts(Some(Lift(outcome)), 1, AttemptEvents(auth, channelId, messageId, responses[0]))
  {
  }

  /** The retry loop's bookkeeping. The fetch started over the deliveries `start` with the trace
      `trace0`; `tried` attempts, all answered 503, used the deliveries before `responses` and left
      `events` on the trace, and the rest of the fetch is the retrying fetch over `responses`. */
  predicate RetryDone(auth: DiscordApi.DiscordAuth, channelId: nat, messageId: nat, start: seq<DiscordApi.Delivery>,
                      trace0: seq<DiscordApi.Event>, tried: nat, events: seq<DiscordApi.Event>,
                      responses: seq<DiscordApi.Delivery>, trace: seq<DiscordApi.Event>)
  {
    && tried <= |start| && responses == start[tried..]
    && trace == trace0 + events
    && (var rest := Retry(auth, channelId, messageId, responses);
        Retry(auth, channelId, messageId, start) == Attempts(rest.result, tried + rest.consumed, events + rest.events))
  }

  /** An attempt answered 503: the bookkeeping moves one attempt on. */
  lemma {:induction false} RetryContinues(auth: DiscordApi.DiscordAuth, channelId: nat, messageId: nat,
                                          start: seq<DiscordApi.Delivery>, trace0: seq<DiscordApi.Event>, tried: nat,
                                          events: seq<DiscordApi.Event>, remaining: seq<DiscordApi.Delivery>,
                                          trace1: seq<DiscordApi.Event>, responses: seq<DiscordApi.Delivery>,
                                          trace: seq<DiscordApi.Event>)
    returns (tried': nat, events': seq<DiscordApi.Event>)
    requires RetryDone(auth, channelId, messageId, start, trace0, tried, events, remaining, trace1)
    requires remaining != [] && Unavailable(ChannelMessages.PageOutcome(channelId, remaining[0]))
    requires responses == remaining[1..] && trace == trace1 + AttemptEvents(auth, channelId, messageId, remaining[0])
    ensures RetryDone(auth, channelId, messageId, start, trace0, tried', events', responses, trace)
  {
    var attempt := AttemptEvents(auth, channelId, messageId, remaining[0]);
    tried', events' := tried + 1, events + attempt;
    RetryStep(auth, channelId, messageId, remaining);
    Seqs.DropDrop(start, tried, 1);
    Seqs.AppendAssoc(trace0, events, attempt);
    Seqs.AppendAssoc(events, attempt, Retry(auth, channelId, messageId, responses).events);
  }

  /** An attempt answered something other than a 503: that answer is the fetch's. */
  lemma {:induction false} RetryFinishes(auth: DiscordApi.DiscordAuth, channelId: nat, messageId: nat,
                                         start: seq<DiscordApi.Delivery>, trace0: seq<DiscordApi.Event>, tried: nat,
                                         events: seq<DiscordApi.Event>, remaining: seq<DiscordApi.Delivery>,
                                         trace1: seq<DiscordApi.Event>, responses: seq<DiscordApi.Delivery>,
                                         trace: seq<DiscordApi.Event>)
    requires RetryDone(auth, channelId, messageId, start, trace0, tried, events, remaining, trace1)
    requires remaining != [] && !Unavailable(ChannelMessages.PageOutcome(channelId, remaining[0]))
    requires responses == remaining[1..] && trace == trace1 + AttemptEvents(auth, channelId, messageId, remaining[0])
    ensures var run := Retry(auth, channelId, messageId, start);
      && run.result == Some(Lift(ChannelMessages.PageOutcome(channelId, remaining[0])))
      && responses == start[run.consumed..] && trace == trace0 + run.events
  {
    RetryStep(auth, channelId, messageId, remaining);
    Seqs.DropDrop(start, tried, 1);
    Seqs.AppendAssoc(trace0, events, AttemptEvents(auth, channelId, messageId, remaining[0]));
  }

  /** The script ran out while the service was unavailable: no answer. */
  lemma {:induction false} RetryExhausted(auth: DiscordApi.DiscordAuth, channelId: nat, messageId: nat,
                                          start: seq<DiscordApi.Delivery>, trace0: seq<DiscordApi.Event>, tried: nat,
                                          events: seq<DiscordApi.Event>, trace: seq<DiscordApi.Event>)
    requires RetryDone(auth, channelId, messageId, start, trace0, tried, events, [], trace)
    ensures var run := Retry(auth, channelId, messageId, start);
      && run.result.None? && [] == start[run.consumed..] && trace == trace0 + run.events
  {
    assert events + [] == events;
  }

  /** `scrape_msgs_before_msg`: fetches the page before `messageId`; after an HTTP 503 it pauses 20
      seconds and fetches the same page again (the program recurses with the same arguments); any
      other error, and any page, is the result. None when the delivery script runs out first. */
  method ScrapeMsgsBeforeMsg(api: DiscordApi.DiscordApi, channelId: nat, messageId: nat) returns (r: Option<Page>)
    modifies api.client
    ensures var run := Retry(api.auth, channelId, messageId, old(api.client.responses));
      r == run.result
      && api.client.responses == old(api.client.responses)[run.consumed..]
      && api.client.trace == old(api.client.trace) + run.events
  {
    ghost var start, trace0 := api.client.responses, api.client.trace;
    ghost var tried: nat, events: seq<DiscordApi.Event> := 0, [];
    assert start[0..] == start && trace0 + [] == trace0;
    while api.client.responses != []
      invariant RetryDone(api.auth, channelId, messageId, start, trace0, tried, events, api.client.responses,
                          api.client.trace)
      decreases |api.client.responses|
    {
      ghost var remaining, trace1 := api.client.responses, api.client.trace;
      var page := Attempt(api, channelId, messageId);
      if !Unavailable(page) {
        RetryFinishes(api.auth, channelId, messageId, start, trace0, tried, events, remaining, trace1,
                      api.client.responses, api.client.trace);
        return Some(Lift(page));
      }
      tried, events := RetryContinues(api.auth, channelId, messageId, start, trace0, tried, events, remaining, trace1,
                                      api.client.responses, api.client.trace);
    }
    RetryExhausted(api.auth, channelId, messageId, start, trace0, tried, events, api.client.trace);
    return None;
  }

  // ---------------------------------------------------------------------------------------------
  // The crawl of one channel

  /** One fetch of the crawl: the cursor it asked before, and what came back. */
  datatype Fetch = Fetch(cursor: nat, page: Page)

  /** A crawl over a script of deliveries: its fetches in order, whether it reached the empty page
      that ends it (false when the script ran out first), the deliveries used and the events. */
  datatype CrawlRun = CrawlRun(fetches: seq<Fetch>, finished: bool, consumed: nat, events: seq<DiscordApi.Event>)

  /** The cursor after a fetch: the id of the last (oldest) message of a non-empty page; after an error
      the cursor stays. */
  function NextCursor(f: Fetch): nat
  {
    if f.page.Ok? && f.page.value != [] then f.page.value[|f.page.value| - 1].messageId else f.cursor
  }

  /** Unless `a` got the empty page, the fetches that may follow `a` are exactly those asking before
      `NextCursor(a)`. */
  lemma {:induction false} FollowsNextCursor(a: Fetch, b: Fetch)
    requires a.page.Err? || a.page.value != []
    ensures Follows(a, b) <==> b.cursor == NextCursor(a)
  {
  }

  /** The specification of the `loop` of `scrape_channel`: fetch the page before the cursor; an error
      is retried with the same cursor, an empty page ends the crawl, any other page moves the cursor
      to its last message. */
  function Crawl(auth: DiscordApi.DiscordAuth, channelId: nat, cursor: nat, responses: seq<DiscordApi.Delivery>)
    : (run: CrawlRun)
    ensures run.consumed <= |responses|
    ensures run.finished ==> |run.fetches| > 0
    decreases |responses|
  {
    var attempt := Retry(auth, channelId, cursor, responses);
    if attempt.result.None? then CrawlRun([], false, attempt.consumed, attempt.events)
    else
      var fetch := Fetch(cursor, attempt.result.value);
      if fetch.page == Ok([]) then CrawlRun([fetch], true, attempt.consumed, attempt.events)
      else
        var rest := Crawl(auth, channelId, NextCursor(fetch), responses[attempt.consumed..]);
        CrawlRun([fetch] + rest.fetches, rest.finished, attempt.consumed + rest.consumed, attempt.events + rest.events)
  }

  /** The page a fetch hands to the saver: every page except an empty one (which ends the crawl);
      errors hand nothing. */
  function SavedPage(f: Fetch): (p: Option<seq<Message>>)
    ensures p.Some? ==> p.value != [] && f.page == Ok(p.value)
    ensures p.None? <==> f.page.Err? || f.page == Ok([])
  {
    if f.page.Ok? && f.page.value != [] then Some(f.page.value) else None
  }

  /** The batches saved during a crawl, in order. */
  function Batches(fetches: seq<Fetch>): (batches: seq<seq<Message>>)
    ensures |batches| <= |fetches|
  {
    Seqs.FilterMap(fetches, SavedPage)
  }

  /** Fetch `b` follows fetch `a`: after a page `b` asks before that page's last message, after an
      error `b` asks again with the same cursor, and `a` did not get the empty page. */
  predicate Follows(a: Fetch, b: Fetch)
  {
    && (a.page.Ok? ==> a.page.value != [] && b.cursor == a.page.value[|a.page.value| - 1].messageId)
    && (a.page.Err? ==> b.cursor == a.cursor)
  }

  /** Fetches that start at `cursor` and follow one another. */
  predicate CursorChain(cursor: nat, f: seq<Fetch>)
  {
    && (|f| > 0 ==> f[0].cursor == cursor)
    && forall i :: 0 <= i < |f| - 1 ==> Follows(f[i], f[i + 1])
  }

  lemma {:induction false} CursorChainCons(fetch: Fetch, rest: seq<Fetch>)
    requires fetch.page != Ok([])
    requires CursorChain(NextCursor(fetch), rest)
    ensures CursorChain(fetch.cursor, [fetch] + rest)
  {
    var f := [fetch] + rest;
    forall i | 0 <= i < |f| - 1
      ensures Follows(f[i], f[i + 1])
    {
      if i == 0 {
        assert f[0] == fetch && f[1] == rest[0];
        assert rest[0].cursor == NextCursor(fetch);
      } else {
        assert f[i] == rest[i - 1] && f[i + 1] == rest[i];
      }
    }
  }

  /** The cursor chain of every crawl: the first fetch asks before the starting cursor; after a page
      the next fetch asks before that page's last message; after an error the same fetch is issued
      again. */
  lemma {:induction false} CrawlCursorChain(auth: DiscordApi.DiscordAuth, channelId: nat, cursor: nat,
                                            responses: seq<DiscordApi.Delivery>)
    ensures CursorChain(cursor, Crawl(auth, channelId, cursor, responses).fetches)
    decreases |responses|
  {
    var attempt := Retry(auth, channelId, cursor, responses);
    if attempt.result.Some? && attempt.result.value != Ok([]) {
      var fetch := Fetch(cursor, attempt.result.value);
      CrawlCursorChain(auth, channelId, NextCursor(fetch), responses[attempt.consumed..]);
      CursorChainCons(fetch, Crawl(auth, channelId, NextCursor(fetch), responses[attempt.consumed..]).fetches);
    }
  }

  /** Fetches that end at the first empty page: `finished` exactly when the last fetch got an empty
      page, and no earlier fetch got one. */
  predicate EndsAtFirstEmptyPage(finished: bool, f: seq<Fetch>)
  {
    (finished <==> |f| > 0 && f[|f| - 1].page == Ok([]))
    && forall i :: 0 <= i < |f| - 1 ==> f[i].page != Ok([])
  }

  lemma {:induction false} EndsAtFirstEmptyPageCons(fetch: Fetch, finished: bool, rest: seq<Fetch>)
    requires fetch.page != Ok([])
    requires EndsAtFirstEmptyPage(finished, rest)
    ensures EndsAtFirstEmptyPage(finished, [fetch] + rest)
  {
    var f := [fetch] + rest;
    if rest != [] {
      assert f[|f| - 1] == rest[|rest| - 1];
    }
    forall i | 0 <= i < |f| - 1
      ensures f[i].page != Ok([])
    {
      if i > 0 {
        assert f[i] == rest[i - 1];
      }
    }
  }

  /** The crawl ends exactly at the first empty page: it finished if and only if its last fetch got an
      empty page, and no earlier fetch got one. */
  lemma {:induction false} CrawlStopsAtEmptyPage(auth: DiscordApi.DiscordAuth, channelId: nat, cursor: nat,
                                                 responses: seq<DiscordApi.Delivery>)
    ensures var run := Crawl(auth, channelId, cursor, responses);
      EndsAtFirstEmptyPage(run.finished, run.fetches)
    decreases |responses|
  {
    var attempt := Retry(auth, channelId, cursor, responses);
    if attempt.result.Some? && attempt.result.value != Ok([]) {
      var fetch := Fetch(cursor, attempt.result.value);
      var rest := Crawl(auth, channelId, NextCursor(fetch), responses[attempt.consumed..]);
      CrawlStep(auth, channelId, cursor, responses);
      CrawlStopsAtEmptyPage(auth, channelId, NextCursor(fetch), responses[attempt.consumed..]);
      EndsAtFirstEmptyPageCons(fetch, rest.finished, rest.fetches);
    }
  }

  /** The empty page that ends a crawl is not handed to the saver. */
  lemma {:induction false} FinalEmptyPageNotSaved(auth: DiscordApi.DiscordAuth, channelId: nat, cursor: nat,
                                                  responses: seq<DiscordApi.Delivery>)
    ensures var run := Crawl(auth, channelId, cursor, responses);
      run.finished ==> Batches(run.fetches) == Batches(run.fetches[..|run.fetches| - 1])
  {
    var run := Crawl(auth, channelId, cursor, responses);
    CrawlStopsAtEmptyPage(auth, channelId, cursor, responses);
    EmptyLastPageNotSaved(run.finished, run.fetches);
  }

  lemma {:induction false} EmptyLastPageNotSaved(finished: bool, fetches: seq<Fetch>)
    requires EndsAtFirstEmptyPage(finished, fetches)
    ensures finished ==> |fetches| > 0 && Batches(fetches) == Batches(fetches[..|fetches| - 1])
  {
    if finished {
      var init := fetches[..|fetches| - 1];
      assert fetches == init + [fetches[|fetches| - 1]];
      Seqs.FilterMapSnoc(init, fetches[|fetches| - 1], SavedPage);
    }
  }

  /** No saved batch is empty: the saver is only ever handed a non-empty page. */
  lemma {:induction false} SavedBatchesNonEmpty(fetches: seq<Fetch>)
    ensures forall j :: 0 <= j < |Batches(fetches)| ==> Batches(fetches)[j] != []
  {
    forall j | 0 <= j < |Batches(fetches)|
      ensures Batches(fetches)[j] != []
    {
      Seqs.FilterMapFromInput(fetches, SavedPage, j);
    }
  }

  /** A successful page of the given records, without rate-limit headers. */
  function PageDelivery(records: seq<Json>): DiscordApi.Delivery
  {
    DiscordApi.Delivered(DiscordApi.Response(200, map[], Some(JArray(records))))
  }

  /** A script of pages followed by the empty page. */
  function PagesScript(pages: seq<seq<Json>>): seq<DiscordApi.Delivery>
  {
    if pages == [] then [PageDelivery([])] else [PageDelivery(pages[0])] + PagesScript(pages[1..])
  }

  /** Given N non-empty pages and then an empty one, the crawl finishes after N + 1 fetches and saves
      exactly the N decoded pages, in page order. */
  lemma {:induction false} CrawlOfPages(auth: DiscordApi.DiscordAuth, channelId: nat, cursor: nat, pages: seq<seq<Json>>)
    requires forall i :: 0 <= i < |pages| ==> ChannelMessages.DecodeAll(channelId, pages[i]) != []
    ensures var run := Crawl(auth, channelId, cursor, PagesScript(pages));
      run.finished && |run.fetches| == |pages| + 1 && run.consumed == |pages| + 1
      && Batches(run.fetches) == seq(|pages|, i requires 0 <= i < |pages| => ChannelMessages.DecodeAll(channelId, pages[i]))
    decreases |pages|
  {
    var script := PagesScript(pages);
    var head := if pages == [] then [] else pages[0];
    var tail := if pages == [] then [] else PagesScript(pages[1..]);
    assert script == [PageDelivery(head)] + tail;
    PageDeliveryAnswers(auth, channelId, cursor, head, tail);
    var fetch := Fetch(cursor, Ok(ChannelMessages.DecodeAll(channelId, head)));
    var run := Crawl(auth, channelId, cursor, script);
    if pages == [] {
      assert ChannelMessages.DecodeAll(channelId, []) == [];
      assert run.fetches == [fetch];
      Seqs.FilterMapSnoc([], fetch, SavedPage);
      assert [] + [fetch] == [fetch];
    } else {
      CrawlStep(auth, channelId, cursor, script);
      assert script[1..] == tail;
      CrawlOfPages(auth, channelId, NextCursor(fetch), pages[1..]);
      var rest := Crawl(auth, channelId, NextCursor(fetch), tail);
      Seqs.FilterMapAppend([fetch], rest.fetches, SavedPage);
      Seqs.FilterMapSnoc([], fetch, SavedPage);
      assert [] + [fetch] == [fetch];
      assert Batches([fetch]) == [ChannelMessages.DecodeAll(channelId, pages[0])];
      DecodedPagesCons(channelId, pages);
    }
  }

  lemma {:induction false} DecodedPagesCons(channelId: nat, pages: seq<seq<Json>>)
    requires pages != []
    ensures seq(|pages|, i requires 0 <= i < |pages| => ChannelMessages.DecodeAll(channelId, pages[i]))
         == [ChannelMessages.DecodeAll(channelId, pages[0])]
            + seq(|pages| - 1, i requires 0 <= i < |pages| - 1 => ChannelMessages.DecodeAll(channelId, pages[1..][i]))
  {
  }

  /** A delivered page answers the retrying fetch at once. */
  lemma {:induction false} PageDeliveryAnswers(auth: DiscordApi.DiscordAuth, channelId: nat, cursor: nat, records: seq<Json>,
                                               tail: seq<DiscordApi.Delivery>)
    ensures var attempt := Retry(auth, channelId, cursor, [PageDelivery(records)] + tail);
      attempt.result == Some(Ok(ChannelMessages.DecodeAll(channelId, records))) && attempt.consumed == 1
  {
    RetryStep(auth, channelId, cursor, [PageDelivery(records)] + tail);
  }

  /** The write fault the file system presents to the `i`-th save of a crawl (none beyond the list). */
  function FaultAt(faults: seq<MessageSaver.WriteFault>, i: nat): MessageSaver.WriteFault
  {
    if i < |faults| then faults[i] else MessageSaver.NoFault
  }

  /** What the saves of a crawl add to the output file: for every batch the lines that were written
      before its fault struck (all of them when none did). */
  function SavedText(batches: seq<seq<Message>>, faults: seq<MessageSaver.WriteFault>): string
  {
    if batches == [] then []
    else
      var last := batches[|batches| - 1];
      SavedText(batches[..|batches| - 1], faults) + BatchText(last, FaultAt(faults, |batches| - 1))
  }

  /** What one save adds to the file: the lines written before the fault struck. */
  function BatchText(batch: seq<Message>, fault: MessageSaver.WriteFault): string
  {
    MessageSaver.JsonlText(batch[..MessageSaver.LinesWritten(|batch|, fault)])
  }

  /** What the save after fetch `f` adds to the file (nothing for an error or the empty page). */
  function SavedBy(f: Fetch, fault: MessageSaver.WriteFault): string
  {
    if SavedPage(f).Some? then BatchText(SavedPage(f).value, fault) else []
  }

  /** The saved text after one more fetch, with `saves` the number of saves before it. */
  lemma {:induction false} SavedTextAfter(fetches: seq<Fetch>, f: Fetch, faults: seq<MessageSaver.WriteFault>)
    ensures SavedText(Batches(fetches + [f]), faults)
         == SavedText(Batches(fetches), faults) + SavedBy(f, FaultAt(faults, |Batches(fetches)|))
    ensures |Batches(fetches + [f])| == |Batches(fetches)| + (if SavedPage(f).Some? then 1 else 0)
  {
    var batches := Batches(fetches);
    Seqs.FilterMapSnoc(fetches, f, SavedPage);
    if SavedPage(f).Some? {
      var batch := SavedPage(f).value;
      assert (batches + [batch])[..|batches|] == batches;
    } else {
      assert batches + [] == batches;
    }
  }

  /** One step of `Crawl`, unfolded. */
  lemma {:induction false} CrawlStep(auth: DiscordApi.DiscordAuth, channelId: nat, cursor: nat, responses: seq<DiscordApi.Delivery>)
    ensures var attempt := Retry(auth, channelId, cursor, responses);
      var run := Crawl(auth, channelId, cursor, responses);
      attempt.result.Some? && attempt.result.value != Ok([]) ==>
        var fetch := Fetch(cursor, attempt.result.value);
        var rest := Crawl(auth, channelId, NextCursor(fetch), responses[attempt.consumed..]);
        run == CrawlRun([fetch] + rest.fetches, rest.finished, attempt.consumed + rest.consumed, attempt.events + rest.events)
  {
  }

  /** With no faults the output file reads back as every saved message, batch after batch. */
  lemma {:induction false} SavedTextReadsBack(batches: seq<seq<Message>>, faults: seq<MessageSaver.WriteFault>)
    requires forall i :: 0 <= i < |batches| ==> FaultAt(faults, i).NoFault?
    ensures MessageSaver.ReadBack(SavedText(batches, faults)) == Some(Flatten(batches))
  {
    if batches == [] {
      MessageSaver.ReadBackJsonlText([]);
    } else {
      var init, last := batches[..|batches| - 1], batches[|batches| - 1];
      SavedTextReadsBack(init, faults);
      FlattenedPrefix(batches);
      assert last[..|last|] == last;
      assert SavedText(batches, faults) == SavedText(init, faults) + MessageSaver.JsonlText(last);
      SavedTextIsJsonl(init, faults);
      MessageSaver.ReadBackAfterAppend(Flatten(init), last);
    }
  }

  /** All messages of the batches, in order. */
  function Flatten(batches: seq<seq<Message>>): seq<Message>
  {
    if batches == [] then [] else Flatten(batches[..|batches| - 1]) + batches[|batches| - 1]
  }

  lemma {:induction false} FlattenedPrefix(batches: seq<seq<Message>>)
    requires batches != []
    ensures Flatten(batches) == Flatten(batches[..|batches| - 1]) + batches[|batches| - 1]
  {
  }

  lemma {:induction false} SavedTextIsJsonl(batches: seq<seq<Message>>, faults: seq<MessageSaver.WriteFault>)
    requires forall i :: 0 <= i < |batches| ==> FaultAt(faults, i).NoFault?
    ensures SavedText(batches, faults) == MessageSaver.JsonlText(Flatten(batches))
  {
    if batches != [] {
      var init, last := batches[..|batches| - 1], batches[|batches| - 1];
      SavedTextIsJsonl(init, faults);
      assert last[..|last|] == last;
      MessageSaver.JsonlTextAppend(Flatten(init), last);
    } else {
      assert MessageSaver.JsonLines([]) == [];
    }
  }

  /** The crawl loop's bookkeeping after a fetch that does not end the crawl: the whole run is the
      fetches so far, this fetch, and the crawl from the next cursor. */
  lemma {:induction false} CrawlAdvance(auth: DiscordApi.DiscordAuth, channelId: nat, cursor: nat, remaining: seq<DiscordApi.Delivery>,
                                        fetches: seq<Fetch>, consumed: nat, events: seq<DiscordApi.Event>, whole: CrawlRun)
    requires var rest := Crawl(auth, channelId, cursor, remaining);
      whole == CrawlRun(fetches + rest.fetches, rest.finished, consumed + rest.consumed, events + rest.events)
    requires var attempt := Retry(auth, channelId, cursor, remaining);
      attempt.result.Some? && attempt.result.value != Ok([])
    ensures var attempt := Retry(auth, channelId, cursor, remaining);
      var fetch := Fetch(cursor, attempt.result.value);
      var rest := Crawl(auth, channelId, NextCursor(fetch), remaining[attempt.consumed..]);
      whole == CrawlRun((fetches + [fetch]) + rest.fetches, rest.finished, (consumed + attempt.consumed) + rest.consumed,
                        (events + attempt.events) + rest.events)
  {
    var attempt := Retry(auth, channelId, cursor, remaining);
    var fetch := Fetch(cursor, attempt.result.value);
    var rest := Crawl(auth, channelId, NextCursor(fetch), remaining[attempt.consumed..]);
    CrawlStep(auth, channelId, cursor, remaining);
    Seqs.AppendAssoc(fetches, [fetch], rest.fetches);
    Seqs.AppendAssoc(events, attempt.events, rest.events);
  }

  /** The crawl loop's bookkeeping when the fetch ends the crawl: the delivery script ran out, or the
      page was empty. */
  lemma {:induction false} CrawlEnds(auth: DiscordApi.DiscordAuth, channelId: nat, cursor: nat, remaining: seq<DiscordApi.Delivery>,
                                     fetches: seq<Fetch>, consumed: nat, events: seq<DiscordApi.Event>, whole: CrawlRun)
    requires var rest := Crawl(auth, channelId, cursor, remaining);
      whole == CrawlRun(fetches + rest.fetches, rest.finished, consumed + rest.consumed, events + rest.events)
    requires var attempt := Retry(auth, channelId, cursor, remaining);
      attempt.result.None? || attempt.result.value == Ok([])
    ensures var attempt := Retry(auth, channelId, cursor, remaining);
      && whole.consumed == consumed + attempt.consumed
      && whole.events == events + attempt.events
      && whole.finished == attempt.result.Some?
      && whole.fetches == (if attempt.result.Some? then fetches + [Fetch(cursor, attempt.result.value)] else fetches)
      && Batches(whole.fetches) == Batches(fetches)
  {
    var attempt := Retry(auth, channelId, cursor, remaining);
    assert fetches + [] == fetches && events + [] == events;
    if attempt.result.Some? {
      Seqs.FilterMapSnoc(fetches, Fetch(cursor, attempt.result.value), SavedPage);
    }
  }

  /** One pass of the crawl `loop`: the retrying fetch, then, for a non-empty page, the save (whose
      failure is only logged). */
  method FetchAndSave(api: DiscordApi.DiscordApi, channelId: nat, cursor: nat, output: MessageSaver.JsonlSaver,
                      fault: MessageSaver.WriteFault) returns (page: Option<Page>)
    modifies api.client, output
    ensures var attempt := Retry(api.auth, channelId, cursor, old(api.client.responses));
      page == attempt.result
      && api.client.responses == old(api.client.responses)[attempt.consumed..]
      && api.client.trace == old(api.client.trace) + attempt.events
    ensures page.Some? ==> output.text == old(output.text) + SavedBy(Fetch(cursor, page.value), fault)
    ensures page.None? || page.value == Ok([]) ==> output.text == old(output.text)
    ensures PassEffect(api.auth, channelId, cursor, fault, old(api.client.responses), old(api.client.trace),
                       old(output.text), page, api.client.responses, api.client.trace, output.text)
  {
    page := ScrapeMsgsBeforeMsg(api, channelId, cursor);
    if page.Some? && page.value.Ok? && page.value.value != [] {
      var saved := output.SaveMessages(page.value.value, fault);
    }
  }

  /** What one pass did, from the deliveries `remaining`, the trace `trace0` and the file text `text0`:
      the retrying fetch answered `page` and used its deliveries and events, and the save of a
      non-empty page added its lines. */
  predicate PassEffect(auth: DiscordApi.DiscordAuth, channelId: nat, cursor: nat, fault: MessageSaver.WriteFault,
                       remaining: seq<DiscordApi.Delivery>, trace0: seq<DiscordApi.Event>, text0: string,
                       page: Option<Page>, responses: seq<DiscordApi.Delivery>, trace: seq<DiscordApi.Event>,
                       text: string)
  {
    var attempt := Retry(auth, channelId, cursor, remaining);
    && page == attempt.result
    && responses == remaining[attempt.consumed..]
    && trace == trace0 + attempt.events
    && text == text0 + (if page.Some? then SavedBy(Fetch(cursor, page.value), fault) else [])
  }

  /** The crawl loop's bookkeeping between passes. The loop started over the deliveries `start` with
      the trace `startTrace` and the file text `startText`, and `whole` is the crawl it performs from
      there; `fetches`, `consumed` and `events` are the part of it done, so the rest is the crawl from
      `cursor` over the remaining `responses`; `saves` batches went to the file, whose text is
      `text`. */
  predicate Bookkeeping(auth: DiscordApi.DiscordAuth, channelId: nat, saveFaults: seq<MessageSaver.WriteFault>,
                        whole: CrawlRun, start: seq<DiscordApi.Delivery>, startTrace: seq<DiscordApi.Event>,
                        startText: string, cursor: nat, saves: nat, fetches: seq<Fetch>, consumed: nat,
                        events: seq<DiscordApi.Event>, responses: seq<DiscordApi.Delivery>,
                        trace: seq<DiscordApi.Event>, text: string)
  {
    && CrawlDone(auth, channelId, whole, start, startTrace, cursor, fetches, consumed, events, responses, trace)
    && SavesDone(saveFaults, startText, saves, fetches, text)
  }

  /** The network side of the bookkeeping. */
  predicate CrawlDone(auth: DiscordApi.DiscordAuth, channelId: nat, whole: CrawlRun, start: seq<DiscordApi.Delivery>,
                      startTrace: seq<DiscordApi.Event>, cursor: nat, fetches: seq<Fetch>, consumed: nat,
                      events: seq<DiscordApi.Event>, responses: seq<DiscordApi.Delivery>, trace: seq<DiscordApi.Event>)
  {
    && consumed <= |start| && responses == start[consumed..]
    && trace == startTrace + events
    && (var rest := Crawl(auth, channelId, cursor, responses);
        whole == CrawlRun(fetches + rest.fetches, rest.finished, consumed + rest.consumed, events + rest.events))
  }

  /** The file side of the bookkeeping. */
  predicate SavesDone(saveFaults: seq<MessageSaver.WriteFault>, startText: string, saves: nat, fetches: seq<Fetch>,
                      text: string)
  {
    && saves == |Batches(fetches)|
    && text == startText + SavedText(Batches(fetches), saveFaults)
  }

  /** The state after the whole crawl: every delivery it used is gone, its events are on the trace and
      its saves are in the file. */
  predicate Completed(saveFaults: seq<MessageSaver.WriteFault>, whole: CrawlRun, start: seq<DiscordApi.Delivery>,
                      startTrace: seq<DiscordApi.Event>, startText: string, responses: seq<DiscordApi.Delivery>,
                      trace: seq<DiscordApi.Event>, text: string)
  {
    && whole.consumed <= |start| && responses == start[whole.consumed..]
    && trace == startTrace + whole.events
    && text == startText + SavedText(Batches(whole.fetches), saveFaults)
  }

  /** A pass whose fetch ends the crawl leaves the state the whole crawl promises. */
  lemma {:induction false} PassEnds(auth: DiscordApi.DiscordAuth, channelId: nat,
                                    saveFaults: seq<MessageSaver.WriteFault>, whole: CrawlRun,
                                    start: seq<DiscordApi.Delivery>, startTrace: seq<DiscordApi.Event>,
                                    startText: string, cursor: nat, saves: nat, fetches: seq<Fetch>, consumed: nat,
                                    events: seq<DiscordApi.Event>, remaining: seq<DiscordApi.Delivery>,
                                    trace0: seq<DiscordApi.Event>, text0: string, page: Option<Page>,
                                    responses: seq<DiscordApi.Delivery>, trace: seq<DiscordApi.Event>, text: string)
    requires Bookkeeping(auth, channelId, saveFaults, whole, start, startTrace, startText, cursor, saves, fetches,
                         consumed, events, remaining, trace0, text0)
    requires PassEffect(auth, channelId, cursor, FaultAt(saveFaults, saves), remaining, trace0, text0, page,
                        responses, trace, text)
    requires page.None? || page.value == Ok([])
    ensures whole.finished == page.Some?
    ensures Completed(saveFaults, whole, start, startTrace, startText, responses, trace, text)
  {
    var attempt := Retry(auth, channelId, cursor, remaining);
    assert text == text0 by {
      if page.Some? {
        assert SavedPage(Fetch(cursor, page.value)).None?;
      }
      assert text0 + [] == text0;
    }
    CrawlEnds(auth, channelId, cursor, remaining, fetches, consumed, events, whole);
    Seqs.DropDrop(start, consumed, attempt.consumed);
    Seqs.AppendAssoc(startTrace, events, attempt.events);
  }

  /** A pass whose fetch does not end the crawl leaves the bookkeeping one fetch further on, with
      fewer deliveries left. */
  lemma {:induction false} PassAdvances(auth: DiscordApi.DiscordAuth, channelId: nat,
                                        saveFaults: seq<MessageSaver.WriteFault>, whole: CrawlRun,
                                        start: seq<DiscordApi.Delivery>, startTrace: seq<DiscordApi.Event>,
                                        startText: string, cursor: nat, saves: nat, fetches: seq<Fetch>, consumed: nat,
                                        events: seq<DiscordApi.Event>, remaining: seq<DiscordApi.Delivery>,
                                        trace0: seq<DiscordApi.Event>, text0: string, page: Option<Page>,
                                        responses: seq<DiscordApi.Delivery>, trace: seq<DiscordApi.Event>, text: string)
    returns (consumed': nat, events': seq<DiscordApi.Event>)
    requires Bookkeeping(auth, channelId, saveFaults, whole, start, startTrace, startText, cursor, saves, fetches,
                         consumed, events, remaining, trace0, text0)
    requires PassEffect(auth, channelId, cursor, FaultAt(saveFaults, saves), remaining, trace0, text0, page,
                        responses, trace, text)
    requires page.Some? && page.value != Ok([])
    ensures |responses| < |remaining|
    ensures var fetch := Fetch(cursor, page.value);
      Bookkeeping(auth, channelId, saveFaults, whole, start, startTrace, startText, NextCursor(fetch),
                  saves + if SavedPage(fetch).Some? then 1 else 0, fetches + [fetch], consumed', events',
                  responses, trace, text)
  {
    consumed', events' := CrawlAdvances(auth, channelId, whole, start, startTrace, cursor, fetches, consumed, events,
                                        remaining, trace0, page, responses, trace);
    SaveAdvances(saveFaults, startText, saves, fetches, Fetch(cursor, page.value), text0, text);
  }

  /** The network side of a pass that does not end the crawl. */
  lemma {:induction false} CrawlAdvances(auth: DiscordApi.DiscordAuth, channelId: nat, whole: CrawlRun,
                                         start: seq<DiscordApi.Delivery>, startTrace: seq<DiscordApi.Event>,
                                         cursor: nat, fetches: seq<Fetch>, consumed: nat, events: seq<DiscordApi.Event>,
                                         remaining: seq<DiscordApi.Delivery>, trace0: seq<DiscordApi.Event>,
                                         page: Option<Page>, responses: seq<DiscordApi.Delivery>,
                                         trace: seq<DiscordApi.Event>)
    returns (consumed': nat, events': seq<DiscordApi.Event>)
    requires CrawlDone(auth, channelId, whole, start, startTrace, cursor, fetches, consumed, events, remaining, trace0)
    requires var attempt := Retry(auth, channelId, cursor, remaining);
      && page == attempt.result && responses == remaining[attempt.consumed..] && trace == trace0 + attempt.events
    requires page.Some? && page.value != Ok([])
    ensures |responses| < |remaining|
    ensures var fetch := Fetch(cursor, page.value);
      CrawlDone(auth, channelId, whole, start, startTrace, NextCursor(fetch), fetches + [fetch], consumed', events',
                responses, trace)
  {
    var attempt := Retry(auth, channelId, cursor, remaining);
    var fetch := Fetch(cursor, attempt.result.value);
    consumed', events' := consumed + attempt.consumed, events + attempt.events;
    CrawlAdvance(auth, channelId, cursor, remaining, fetches, consumed, events, whole);
    Seqs.DropDrop(start, consumed, attempt.consumed);
    Seqs.AppendAssoc(startTrace, events, attempt.events);
    var rest := Crawl(auth, channelId, NextCursor(fetch), responses);
    assert whole == CrawlRun((fetches + [fetch]) + rest.fetches, rest.finished, consumed' + rest.consumed,
                             events' + rest.events);
  }

  /** The file side of a pass: the text and the number of saves follow the fetch. */
  lemma {:induction false} SaveAdvances(saveFaults: seq<MessageSaver.WriteFault>, startText: string, saves: nat,
                                        fetches: seq<Fetch>, fetch: Fetch, text0: string, text: string)
    requires SavesDone(saveFaults, startText, saves, fetches, text0)
    requires text == text0 + SavedBy(fetch, FaultAt(saveFaults, saves))
    ensures SavesDone(saveFaults, startText, saves + (if SavedPage(fetch).Some? then 1 else 0), fetches + [fetch], text)
  {
    SavedTextAfter(fetches, fetch, saveFaults);
    Seqs.AppendAssoc(startText, SavedText(Batches(fetches), saveFaults), SavedBy(fetch, FaultAt(saveFaults, saves)));
  }

  /** One pass of the crawl `loop`: the retrying fetch, the save of a non-empty page, and the
      bookkeeping. The pass either ends the crawl (`Some(finished)`) or leaves the bookkeeping one
      fetch further on. */
  method CrawlPass(api: DiscordApi.DiscordApi, channelId: nat, cursor: nat, output: MessageSaver.JsonlSaver,
                   saveFaults: seq<MessageSaver.WriteFault>, saves: nat, ghost whole: CrawlRun,
                   ghost start: seq<DiscordApi.Delivery>, ghost startTrace: seq<DiscordApi.Event>, ghost startText: string,
                   ghost fetches: seq<Fetch>, ghost consumed: nat, ghost events: seq<DiscordApi.Event>)
    returns (ended: Option<bool>, nextCursor: nat, nextSaves: nat,
             ghost fetches': seq<Fetch>, ghost consumed': nat, ghost events': seq<DiscordApi.Event>)
    requires Bookkeeping(api.auth, channelId, saveFaults, whole, start, startTrace, startText, cursor, saves, fetches,
                         consumed, events, api.client.responses, api.client.trace, output.text)
    modifies api.client, output
    ensures ended.Some? ==> (
      && ended.value == whole.finished
      && Completed(saveFaults, whole, start, startTrace, startText, api.client.responses, api.client.trace, output.text))
    ensures ended.None? ==> (
      && |api.client.responses| < old(|api.client.responses|)
      && Bookkeeping(api.auth, channelId, saveFaults, whole, start, startTrace, startText, nextCursor, nextSaves,
                     fetches', consumed', events', api.client.responses, api.client.trace, output.text))
  {
    ghost var remaining, trace0, text0 := api.client.responses, api.client.trace, output.text;
    var page := FetchAndSave(api, channelId, cursor, output, FaultAt(saveFaults, saves));
    if page.None? || page.value == Ok([]) {
      PassEnds(api.auth, channelId, saveFaults, whole, start, startTrace, startText, cursor, saves, fetches, consumed,
               events, remaining, trace0, text0, page, api.client.responses, api.client.trace, output.text);
      return Some(page.Some?), cursor, saves, fetches, consumed, events;
    }
    var fetch := Fetch(cursor, page.value);
    consumed', events' :=
      PassAdvances(api.auth, channelId, saveFaults, whole, start, startTrace, startText, cursor, saves, fetches,
                   consumed, events, remaining, trace0, text0, page, api.client.responses, api.client.trace,
                   output.text);
    ended := None;
    nextCursor := NextCursor(fetch);
    nextSaves := saves + if SavedPage(fetch).Some? then 1 else 0;
    fetches' := fetches + [fetch];
  }

  /** The crawl `loop` of `scrape_channel`: fetches pages backwards from `cursor`, retrying errors with
      the same cursor, saving every non-empty page (a failed save is only logged: the crawl moves on),
      and stopping at the first empty page. False when the delivery script runs out first. */
  method CrawlChannel(api: DiscordApi.DiscordApi, channelId: nat, cursor: nat, output: MessageSaver.JsonlSaver,
                      saveFaults: seq<MessageSaver.WriteFault>) returns (finished: bool)
    modifies api.client, output
    ensures var run := Crawl(api.auth, channelId, cursor, old(api.client.responses));
      finished == run.finished
      && api.client.responses == old(api.client.responses)[run.consumed..]
      && api.client.trace == old(api.client.trace) + run.events
      && output.text == old(output.text) + SavedText(Batches(run.fetches), saveFaults)
  {
    ghost var whole := Crawl(api.auth, channelId, cursor, api.client.responses);
    ghost var fetches: seq<Fetch> := [];
    ghost var consumed: nat := 0;
    ghost var events: seq<DiscordApi.Event> := [];
    var lastMessageId := cursor;
    var saves := 0;
    assert old(api.client.responses)[0..] == old(api.client.responses);
    while true
      invariant Bookkeeping(api.auth, channelId, saveFaults, whole, old(api.client.responses), old(api.client.trace),
                            old(output.text), lastMessageId, saves, fetches, consumed, events,
                            api.client.responses, api.client.trace, output.text)
      decreases |api.client.responses|
    {
      var ended;
      ended, lastMessageId, saves, fetches, consumed, events :=
        CrawlPass(api, channelId, lastMessageId, output, saveFaults, saves, whole, old(api.client.responses),
                  old(api.client.trace), old(output.text), fetches, consumed, events);
      if ended.Some? {
        return ended.value;
      }
    }
  }

  // ---------------------------------------------------------------------------------------------
  // The whole channel

  /** `((now - start) / 60) as u64` for a clock difference of `elapsedSeconds` (an `i64`): the division
      truncates toward zero, and the cast keeps the bits, so a negative quotient wraps to a huge count.
      The program names the value `time_it_took_in_secs`, but it counts whole minutes. */
  function ElapsedMinutes(elapsedSeconds: int): (minutes: nat)
    requires I64Min <= elapsedSeconds <= I64Max
    ensures minutes <= U64Max
    ensures elapsedSeconds >= 0 ==> minutes * 60 <= elapsedSeconds < (minutes + 1) * 60
    ensures -60 < elapsedSeconds < 0 ==> minutes == 0
    ensures elapsedSeconds <= -60 ==> (
      && var back := U64Max + 1 - minutes;
      && back * 60 <= -elapsedSeconds < (back + 1) * 60
      && minutes > I64Max)
  {
    var quotient := if elapsedSeconds >= 0 then elapsedSeconds / 60 else -((-elapsedSeconds) / 60);
    if quotient >= 0 then quotient else quotient + U64Max + 1
  }

  /** `scrape_channel`: resolves the channel's newest message and name (waiting for the rate limit),
      crawls backwards from that message into `<name>.jsonl` (whose text is `output`), then converts
      that file into JSON. A failed conversion is only logged: the result then names the
      line-delimited file instead of the JSON file. `elapsedSeconds` is the clock difference across
      the crawl. The result is None when the delivery script runs out before the crawl ends, and
      `written` is what the conversion wrote into the JSON file. */
  method ScrapeChannel(api: DiscordApi.DiscordApi, channelId: nat, output: MessageSaver.JsonlSaver,
                       saveFaults: seq<MessageSaver.WriteFault>, elapsedSeconds: int,
                       conversionFaults: Conversion.ConversionFaults, parse: string -> Option<Json>)
    returns (r: Option<Result<(Paths.Path, nat), ScraperError>>, written: Option<seq<Json>>)
    requires I64Min <= elapsedSeconds <= I64Max
    modifies api.client, output
    ensures old(api.client.responses) == [] ==>
      r.None? && written.None? && unchanged(api.client) && output.text == old(output.text)
    ensures old(api.client.responses) != [] ==> (
      && var resolved := LastMessage.ChannelOutcome(channelId, old(api.client.responses[0]));
      && var afterResolve := old(api.client.trace) + LastMessage.ChannelEvents(api.auth, channelId, true, old(api.client.responses[0]));
      && (resolved.Err? ==> (
            && r == Some(Err(DiscordApiError(resolved.error))) && written.None?
            && api.client.responses == old(api.client.responses[1..])
            && api.client.trace == afterResolve && output.text == old(output.text)))
      && (resolved.Ok? ==> (
            && var run := Crawl(api.auth, channelId, resolved.value.0, old(api.client.responses[1..]));
            && api.client.responses == old(api.client.responses[1..])[run.consumed..]
            && api.client.trace == afterResolve + run.events
            && output.text == old(output.text) + SavedText(Batches(run.fetches), saveFaults)
            && (!run.finished ==> r.None? && written.None?)
            && (run.finished ==> (
                  && var jsonlPath := Paths.FromString(resolved.value.1 + ".jsonl");
                  && var converted := Conversion.Conversion(jsonlPath, output.text, conversionFaults, parse);
                  && r == Some(Ok((if converted.Ok? then converted.value.0 else jsonlPath, ElapsedMinutes(elapsedSeconds))))
                  && written == (if converted.Ok? then Some(converted.value.1) else None))))))
  {
    if api.client.responses == [] {
      return None, None;
    }
    var resolved := LastMessage.GetLastMsgInChannel(api, channelId, true);
    if resolved.Err? {
      return Some(Err(DiscordApiError(resolved.error))), None;
    }
    var channelLastMsgId := resolved.value.0;
    var outputFileName := resolved.value.1 + ".jsonl";
    var finished := CrawlChannel(api, channelId, channelLastMsgId, output, saveFaults);
    if !finished {
      return None, None;
    }
    var timeItTook := ElapsedMinutes(elapsedSeconds);
    var jsonlFilePath := Paths.FromString(outputFileName);
    var converted := Conversion.ConvertJsonlFileIntoJson(jsonlFilePath, output.text, conversionFaults, parse);
    if converted.Ok? {
      return Some(Ok((converted.value.0, timeItTook))), Some(converted.value.1);
    }
    return Some(Ok((jsonlFilePath, timeItTook))), None;
  }

  /** The end-to-end promise of a crawl: with no save failing and nothing failing on the file side,
      converting `<name>.jsonl` after the crawl writes into `<name>.json`, next to it, every message
      the file already held followed by every message the crawl fetched, page after page, in order. */
  lemma {:induction false} CrawledMessagesReachJson(auth: DiscordApi.DiscordAuth, channelId: nat, cursor: nat,
                                                    responses: seq<DiscordApi.Delivery>, previous: seq<Message>, name: string,
                                                    parse: string -> Option<Json>)
    requires name != [] && forall k :: 0 <= k < |name| ==> name[k] != '/'
    requires Conversion.ReadsMessages(parse)
    ensures var run := Crawl(auth, channelId, cursor, responses);
      Conversion.Conversion(Paths.FromString(name + ".jsonl"),
                            MessageSaver.JsonlText(previous) + SavedText(Batches(run.fetches), []),
                            Conversion.NoConversionFaults, parse)
      == Ok((Paths.Path(false, [name + ".json"]), Conversion.JsonValues(previous + Flatten(Batches(run.fetches)))))
  {
    var batches := Batches(Crawl(auth, channelId, cursor, responses).fetches);
    var path := Paths.FromString(name + ".jsonl");
    SavedTextIsJsonl(batches, []);
    MessageSaver.JsonlTextAppend(previous, Flatten(batches));
    Conversion.JsonPathForChannelFile(name);
    Conversion.ConvertingSavedMessages(path, previous + Flatten(batches), parse);
  }
}
