# Discord channel crawler: a Dafny model of the crawl engine

DiscordRustScraper downloads the complete history of a Discord text channel.
- It asks the Discord REST API (v9, bot authentication) for the channel's newest message id and name.
- It then walks backwards through the history, at most 100 messages per request.
- The first request asks for the messages older than the channel's newest message, so that newest message itself is never fetched or saved.
- Every later request asks for the messages older than the oldest one it already holds.
- It appends every page to `<channel name>.jsonl` and stops at the first empty page.
- Finally it converts the line-delimited file into one JSON array in `<channel name>.json`.

The program respects the API's rate limit: after a successful response whose `X-RateLimit-Remaining` is 0, it sleeps for `X-RateLimit-Reset-After`. An HTTP 503 makes it pause 20 seconds and ask for the same page again. Any other failed fetch is logged and the same page is asked for again.

The model has one module per concern, one file each:

| file | module | models |
|---|---|---|
| `basics.dfy` | `Basics` | `Option`, `Result`, the bounds of the Rust integer types |
| `seqs.dfy` | `Seqs` | filter-map over sequences (the shape of every "keep what decodes" loop) and its exactness lemma |
| `text.dfy` | `Text` | `{}` formatting and `str::parse` of unsigned integers, the decimal `X-RateLimit-Reset-After` value, the millisecond conversion |
| `json.dfy` | `Json` | the part of `serde_json::Value` the crawler reads |
| `paths.dfy` | `Paths` | the part of `std::path` the conversion uses: `PathBuf::from`, `file_stem`, `parent`, `push` |
| `discord_api.dfy` | `DiscordApi` | the authorization header, request URLs, the network as a scripted oracle, the rate-limit governor |
| `channel_messages.dfy` | `ChannelMessages` | `get_channel_msgs_before_msg` and the decoding of a page |
| `last_message.dfy` | `LastMessage` | `get_last_msg_in_channel` |
| `message_saver.dfy` | `MessageSaver` | the serialised line of a message, the line-delimited sink `JsonlSaver`, the SQL sink `SqlSaver` |
| `conversion.dfy` | `Conversion` | `convert_jsonl_file_into_json` |
| `scraper.dfy` | `Scraper` | `scrape_msgs_before_msg` (503 retry), the crawl loop of `scrape_channel`, `scrape_channel` itself |

The network is a `Network` object. It holds a script of deliveries, each a response or a transport failure, and consumes one per request sent. It records every request and every pause, in order, on a trace. Each imperative operation is a method proved against a specification function over that script:
- `Retry` specifies the 503-retrying fetch;
- `Crawl` specifies the crawl loop;
- `SavedText` specifies what the crawl appends to the file;
- `Conversion` specifies the JSONL-to-JSON conversion.

The properties are lemmas about those functions.

Where the program's parts disagree, the model takes their union:
- `FoundableStuff` has a `ChannelName` case, which `get_last_msg_in_channel` returns.
- A `Message` carries the channel id and a media flag, which the SQL sink binds, besides the author id, message id and text that the decoder reads.
- The decoder fills in the requested channel id. The program's decoder has no media field at all (`src/discord_api/get_channel_messages.rs:5-10`), while the SQL sink binds `has_media` (`src/utils/message_saver.rs:61-67`). No code of the program computes the flag. The model's own choice is to set it when the record has a non-empty `attachments` array.
- The serialised line has the five fields in that order: author id, message id, text, channel id, media flag.

Three behaviours of the crawl follow the code closely:
- A failed fetch during the crawl is retried with the same cursor, forever; it never ends the crawl.
- The program has no fallback to direct messages.
- The first page is fetched like every other.

## Model

| member | source | states |
|---|---|---|
| Text.ToDecimal | src/discord_api/get_channel_messages.rs:22 | a formatted id is a non-empty run of decimal digits, without a leading zero unless it is 0 |
| Text.ToDecimalValue | src/discord_api/get_channel_messages.rs:22 | the digits of a formatted number evaluate back to that number |
| Text.ToDecimalInjective | src/discord_api/get_channel_messages.rs:22 | different numbers are formatted differently |
| Text.ParseUnsigned | src/discord_api/mod.rs:99 | an accepted string is non-empty, made of digits with an optional leading `+`, and its value fits the target type |
| Text.ParseToDecimal | src/discord_api/get_channel_messages.rs:48 | parsing inverts formatting for every value the integer type can hold |
| Text.ParseRejectsOverflow | src/discord_api/mod.rs:99 | a formatted value larger than the type's maximum is rejected |
| Text.ParseUnsignedRejects | src/discord_api/mod.rs:96-99 | `256`, `-1`, `-0`, `+` and the empty string are not a `u8` (or `u64`); `+07` is 7 |
| Text.ReadNatToDecimal | src/discord_api/get_channel_messages.rs:22 | a formatted number followed by a non-digit reads back as that number and the rest of the text |
| Text.ParseDecimal | src/discord_api/mod.rs:101-104 | an accepted reset delay is an optional sign, then digits, then at most one `.` followed only by digits, with at least one digit in all; the result is exactly the value that text denotes, with its sign |
| Text.ParseDecimalAccepts | src/discord_api/mod.rs:101-104 | conversely, every such text is accepted with that value, so a delay is accepted exactly when it is a plain decimal |
| Text.ParseDecimalText | src/discord_api/mod.rs:101-104 | a written decimal (optional `-`, whole digits, optional `.` and fraction digits) reads back as exactly the value it denotes, with the sign and the number of fraction digits it was written with |
| Text.MillisUntilReset | src/discord_api/mod.rs:109-110 | the wait fits a `u16`; a negative delay gives 0; otherwise it is the least whole number of milliseconds covering the delay, saturated at 65535 |
| Text.MillisOneAndAHalf | src/discord_api/mod.rs:109-110 | a reset delay of `1.5` is read exactly and becomes a 1500 ms wait |
| Text.ParseDecimalExamples | src/discord_api/mod.rs:104 | `-2` keeps its sign; `1e3` and `.` are not accepted |
| Paths.FileStem | src/scraper.rs:153 | a path has a file stem exactly when it has a file name |
| Paths.LastDot | src/scraper.rs:153 | the extension starts at the last dot of the file name |
| Paths.FromPlainName | src/scraper.rs:132 | a file name without slashes (other than `` and `.`) is a relative path of one component |
| DiscordApi.AuthorizationValue | src/discord_api/mod.rs:19-22 | the Authorization header is `Bot ` followed by exactly the token |
| DiscordApi.AuthorizationValueInjective | src/discord_api/mod.rs:73-77 | two different tokens never send the same Authorization header |
| DiscordApi.RequestUrl | src/discord_api/mod.rs:84-87 | a request goes to `https://discord.com/api/v9`, a slash, and exactly the relative URL |
| DiscordApi.RequestUrlInjective | src/discord_api/mod.rs:84-87 | different relative URLs address different absolute URLs |
| DiscordApi.GetRatelimitInfo | src/discord_api/mod.rs:93-119 | pacing information exists if and only if both headers are present, the remaining count parses as a `u8` and the reset delay parses; the count is the parsed value and the wait fits a `u16` |
| DiscordApi.RateLimitWait | src/discord_api/mod.rs:121-137 | the governor pauses if and only if pacing information exists with 0 requests remaining, and then for exactly the announced milliseconds |
| DiscordApi.RateLimitExamples | src/discord_api/mod.rs:121-125 | 0 remaining with `1.5` waits 1500 ms; 5 remaining never waits, whatever the delay says |
| DiscordApi.NoPacingExamples | src/discord_api/mod.rs:96-104 | `256`, `-1` or a missing delay give no pacing information |
| DiscordApi.WaitForWrittenDelay | src/discord_api/mod.rs:101-125 | with 0 requests remaining, every plain non-negative decimal delay makes the governor wait the milliseconds that decimal denotes |
| DiscordApi.DiscordApi.RequestWithRelativeUrlAndAuthHeader | src/discord_api/mod.rs:79-91 | one GET is sent to the joined URL with the bot's Authorization header; a transport failure becomes `SendingRequest`, any response is returned as it is |
| DiscordApi.DiscordApi.HandleRateLimitWait | src/discord_api/mod.rs:121-137 | the only effect is the pause `RateLimitWait` decides, and no request is sent |
| ChannelMessages.ParseMessagesRelativeUrlInverse | src/discord_api/get_channel_messages.rs:22 | the page URL `MessagesRelativeUrl` builds is `channels/`, the channel id, `/messages?before=`, the cursor and `&limit=100`: both numbers read back out of it |
| ChannelMessages.MessagesRelativeUrlInjective | src/discord_api/get_channel_messages.rs:22 | fetches for different channels or cursors never share a URL |
| ChannelMessages.DecodeRecord | src/discord_api/get_channel_messages.rs:45-72 | a record becomes a message if and only if its `id` and `author.id` are strings holding a `u64` and its `content` is a string; the message carries exactly those values and the requested channel; it has media if and only if the record has an `attachments` array of at least one entry (the model's choice: the program computes no such flag) |
| ChannelMessages.DecodeAll | src/discord_api/get_channel_messages.rs:41-74 | a page has at most one message per record; every message belongs to the requested channel and its ids fit a `u64` |
| ChannelMessages.DecodeAllExact | src/discord_api/get_channel_messages.rs:41-74 | the page holds one message per decodable record, in array order, and no other: record i is kept if and only if it decodes |
| ChannelMessages.UndecodableRecordsDropped | src/discord_api/get_channel_messages.rs:62-72 | an array none of whose records decode gives an empty page |
| ChannelMessages.PageOutcome | src/discord_api/get_channel_messages.rs:19-82 | a page is returned if and only if the status is 200 and the body is JSON; another status is reported with that status and response; a transport failure is `SendingRequest`; a non-array body gives an empty page, an array its decoded records |
| ChannelMessages.CollectMessages | src/discord_api/get_channel_messages.rs:41-74 | the loop over the array pushes exactly the decoded records, in order |
| ChannelMessages.GetChannelMsgsBeforeMsg | src/discord_api/get_channel_messages.rs:13-83 | one request is sent, and the rate-limit pause follows only a 200 and only when asked for; the result is `PageOutcome` of the delivery |
| LastMessage.ChannelRelativeUrlReadsBack | src/discord_api/get_last_message_id_in_channel.rs:13 | the metadata URL `ChannelRelativeUrl` builds is `channels/` followed by the channel id in decimal and nothing else |
| LastMessage.ChannelRelativeUrlInjective | src/discord_api/get_last_message_id_in_channel.rs:13 | different channels are requested at different URLs |
| LastMessage.ResolveBody | src/discord_api/get_last_message_id_in_channel.rs:32-55 | exactly one of five outcomes: the id and name when both are readable; `ChannelName` not found when only the name is missing; `Message(None)` not found when the id is missing or not a `u64`; `Channel(requested id)` not found when the body is not an object |
| LastMessage.ChannelOutcome | src/discord_api/get_last_message_id_in_channel.rs:10-61 | a transport failure is `SendingRequest`; a status other than 200 is reported with its response; a body that is not JSON is a parse error; a 200 with a JSON body gives exactly `ResolveBody`'s outcome; a returned id fits a `u64` |
| LastMessage.GetLastMsgInChannel | src/discord_api/get_last_message_id_in_channel.rs:5-62 | one request is sent, and the rate-limit pause follows only a 200 and only when asked for; the result is `ChannelOutcome` of the delivery |
| MessageSaver.ToJsonLine | src/utils/message_saver.rs:37 | a message is serialised as a line opening a JSON object (its partners: `ReadJsonLineRoundTrip` reads every field back from it, `JsonLineIsOneLine` shows it is one line) |
| MessageSaver.ToJsonValue | src/utils/message_saver.rs:37 | a message's JSON value is an object of five fields holding its author id, message id, channel id, text and media flag |
| MessageSaver.ReadEscapedString | src/utils/message_saver.rs:37 | the JSON escaping of a text reads back as that text up to the closing quote |
| MessageSaver.ReadJsonLineRoundTrip | src/utils/message_saver.rs:37 | serialisation loses nothing: every field of every message reads back from its line |
| MessageSaver.JsonLineIsOneLine | src/utils/message_saver.rs:37 | a serialised message holds no newline and ends with `}`, so it is exactly one line of the file |
| MessageSaver.EscapeHasNoNewline | src/utils/message_saver.rs:37 | escaped text never contains a raw newline |
| MessageSaver.TerminatedAppend | src/utils/message_saver.rs:36-39 | writing two lists of lines one after the other writes their concatenation |
| MessageSaver.JsonlTextAppend | src/utils/message_saver.rs:36-39 | saving two batches one after the other writes the text of their concatenation |
| MessageSaver.Lines | src/scraper.rs:161-170 | the lines the reader yields hold no newline |
| MessageSaver.LinesKeepFinalCarriageReturn | src/scraper.rs:161-170 | a non-empty text without a newline is one line, exactly as it stands: a carriage return ending it is kept |
| MessageSaver.LinesUnterminatedLastLine | src/scraper.rs:161-170 | after whole lines, an unterminated last line is read as one more line, unchanged |
| MessageSaver.LinesDropCarriageReturnBeforeNewline | src/scraper.rs:161-170 | a carriage return right before a newline is dropped with it, and reading goes on after the newline |
| MessageSaver.LinesOfJsonlText | src/scraper.rs:161-170 | the line reader yields exactly the serialised messages of a written file, one per line |
| MessageSaver.ReadBackJsonlText | src/utils/message_saver.rs:36-39 | a file written by the sink reads back as exactly the messages written, in order |
| MessageSaver.ReadBackAfterAppend | src/utils/message_saver.rs:23-27 | appending keeps the messages already in the file, and the new batch follows them |
| MessageSaver.SavingTwiceDuplicates | src/utils/message_saver.rs:36-39 | nothing is deduplicated: a batch saved twice is in the file twice |
| MessageSaver.LinesWritten | src/utils/message_saver.rs:36-39 | fewer lines than the batch reach the file if and only if a write fails within it, and then exactly those before it |
| MessageSaver.JsonlSaver.New | src/utils/message_saver.rs:22-30 | opening succeeds if and only if the file can be opened, and then the existing contents are kept |
| MessageSaver.JsonlSaver.WriteLines | src/utils/message_saver.rs:36-39 | the write loop appends each line and a newline, in order, until the first failing write |
| MessageSaver.JsonlSaver.SaveMessages | src/utils/message_saver.rs:35-42 | the file grows by the lines of the messages written before any failure; the save succeeds if and only if no write or flush fails, and only then is a flush counted |
| MessageSaver.RowOf | src/utils/message_saver.rs:60-67 | a row binds the message's channel id, author id, message id, text and media flag |
| MessageSaver.RowsInserted | src/utils/message_saver.rs:59-70 | fewer rows than messages are inserted if and only if an insert within the batch is rejected, and then exactly the rows before the rejected one |
| MessageSaver.SqlSaver.New | src/utils/message_saver.rs:50-53 | connecting succeeds if and only if the database is reachable, and the table keeps its rows |
| MessageSaver.SqlSaver.SaveMessages | src/utils/message_saver.rs:58-72 | the table grows by one row per message, in order, up to the first rejected insert; the save succeeds if and only if none is rejected |
| MessageSaver.SqlSavingTwiceDuplicates | src/utils/message_saver.rs:59-70 | the table has no uniqueness constraint: a message of a batch saved twice is stored at least twice |
| Conversion.JsonPathFor | src/scraper.rs:153-159 | a path without a file stem is refused with `NoFileStem`; otherwise the JSON file sits in the same directory, named after the stem with `.json` |
| Conversion.JsonPathForChannelFile | src/scraper.rs:153-159 | `<name>.jsonl` in the working directory converts into `<name>.json` beside it |
| Conversion.JsonPathForUnnamedChannel | src/scraper.rs:153-159 | a channel with an empty name writes `.jsonl`, whose stem is the whole name, so it converts into `.jsonl.json` |
| Conversion.LinesRead | src/scraper.rs:170 | the loop sees a prefix of the lines, a shorter one if and only if a read error strikes before the end |
| Conversion.Conversion | src/scraper.rs:147-197 | the conversion succeeds if and only if the file opens, has a stem, and the JSON file can be created and written; each failure is reported with its own error and path; at most one value is written per line |
| Conversion.ConvertJsonlFileIntoJson | src/scraper.rs:147-197 | the line-by-line conversion does what `Conversion` specifies |
| Conversion.ParsedJsonLines | src/scraper.rs:170-174 | a parser that reads serialised messages keeps every line of a written file, as the message's JSON value |
| Conversion.ConvertingSavedMessages | src/scraper.rs:147-186 | converting a file the sink wrote, with nothing failing, writes every message it holds into the JSON array, in file order |
| Conversion.ConversionSkipsUnparsableLines | src/scraper.rs:170-174 | a line is kept if and only if it parses, and the kept values keep their line order |
| Scraper.Lift | src/scraper.rs:79-85 | a page passes through unchanged; an API error is wrapped unchanged |
| Scraper.Retry | src/scraper.rs:55-87 | a retrying fetch uses no more deliveries than the script holds; it has no answer only when it used them all |
| Scraper.RetryAnswer | src/scraper.rs:60-86 | there is no answer if and only if every delivery was a 503; otherwise the answer is the first delivery that is not a 503, and every delivery before it was a 503 |
| Scraper.RetrySendsIdenticalRequests | src/scraper.rs:67-76 | a 503 is retried with an identical request, exactly one per delivery used, so the cursor does not move |
| Scraper.RetryEventsPerAttempt | src/scraper.rs:60-77 | the retrying fetch leaves, per delivery used, its request, the rate-limit pause after a 200, and the 20-second pause after a 503 |
| Scraper.Attempt | src/scraper.rs:60-75 | one attempt fetches once, with the rate-limit wait, and pauses 20 seconds when the answer is a 503 |
| Scraper.ScrapeMsgsBeforeMsg | src/scraper.rs:55-87 | the method's answer, deliveries used and trace are those of `Retry` |
| Scraper.Crawl | src/scraper.rs:101-127 | a crawl uses no more deliveries than the script holds, and a finished crawl made at least one fetch |
| Scraper.FollowsNextCursor | src/scraper.rs:112-113 | unless a fetch got the empty page, the fetch after it asks before `NextCursor` of it: the last message of its page, or the same cursor after an error |
| Scraper.SavedPage | src/scraper.rs:112-120 | the saver is handed exactly the non-empty pages, unchanged; an error or the empty page hands nothing |
| Scraper.Batches | src/scraper.rs:112-120 | a crawl hands the saver at most one page per fetch |
| Scraper.CrawlCursorChain | src/scraper.rs:102-118 | the first fetch asks before the starting message; after a page the next fetch asks before that page's last message; after an error the same fetch is issued again |
| Scraper.CrawlStopsAtEmptyPage | src/scraper.rs:112-118 | the crawl finishes if and only if its last fetch got an empty page, and no earlier fetch got one |
| Scraper.FinalEmptyPageNotSaved | src/scraper.rs:112-120 | the empty page that ends a crawl is not handed to the saver |
| Scraper.SavedBatchesNonEmpty | src/scraper.rs:112-120 | the saver is only ever handed a non-empty page |
| Scraper.CrawlOfPages | src/scraper.rs:101-127 | given N non-empty pages and then an empty one, the crawl finishes after N + 1 fetches and saves exactly the N decoded pages, in order |
| Scraper.SavedTextAfter | src/scraper.rs:120-124 | one more fetch adds exactly what its save wrote, and one more batch exactly when the fetch got a non-empty page |
| Scraper.SavedTextIsJsonl | src/scraper.rs:120 | with no save failing, the crawl's output is the line-delimited text of all its messages |
| Scraper.SavedTextReadsBack | src/scraper.rs:120 | with no save failing, the output reads back as every saved message, page after page, in order |
| Scraper.FetchAndSave | src/scraper.rs:102-125 | one pass makes the retrying fetch and appends exactly what the save of a non-empty page writes; an error or the empty page leaves the file alone |
| Scraper.CrawlPass | src/scraper.rs:101-127 | a pass either ends the crawl, with the whole crawl's effects complete, or advances the loop's bookkeeping with fewer deliveries left |
| Scraper.CrawlChannel | src/scraper.rs:101-127 | the loop finishes exactly when `Crawl` does, uses the same deliveries, leaves the same trace, and appends `SavedText` of the crawl's saved pages; `Crawl` does not depend on the save faults, so a failed save changes neither the fetches, nor the deliveries used, nor the trace: it does not stop the crawl |
| Scraper.ElapsedMinutes | src/scraper.rs:129-130 | the duration is whole minutes, rounded down, of a non-negative clock difference; a negative one truncates toward zero and wraps around in the `u64` cast |
| Scraper.ScrapeChannel | src/scraper.rs:89-144 | a resolver error is returned wrapped, and nothing is crawled; otherwise the crawl from the newest message appends to the file; when it finishes, the result names the JSON file if the conversion succeeds and the line-delimited file if it fails, with the minutes taken |
| Scraper.CrawledMessagesReachJson | src/scraper.rs:99-143 | with no save or file failure, `<name>.json` receives every message already in `<name>.jsonl` followed by every message the crawl fetched, in order |

## Left out

- The HTTP transport, the clock and the file system are inputs. Deliveries come from a script, the elapsed time is a parameter, and faults are parameters of the save and conversion operations.
- Sleeping is recorded as a pause on the trace; no time passes.
- The 503 retry and the crawl loop have no bound in the program. The model runs them over a finite script and reports `None` when the script runs out before an answer or before the empty page.
- Async execution, `#[async_recursion]` and the `tracing` log lines are not modelled. Logging is the only thing the program does with a failed save and a failed fetch during the crawl. A failed conversion is logged too, and besides the result then names the `.jsonl` file instead of the `.json` file (`src/scraper.rs:134-141`), which the model covers.
- `main.rs` and `cli.rs` (argument parsing, choosing the sink) are not part of this model.
- The `MessageSaver` trait is not a Dafny trait here. Its two implementations are separate classes with the same `SaveMessages` method.
- `serde_jsonlines::append_json_lines`, which the crawl calls, is a library function. Its effect is modelled as one `JsonlSaver` save per page: open for append, one line per message, stop at the first failing write. The crawl's output is the saver passed to `ScrapeChannel`, which stands for the file `<name>.jsonl`; the model does not check that the two are the same file.
- `JsonlSaver` writes through a `BufWriter`. The model writes each line straight into the file text, so a line can never be half-written.
- The `to_string` serialisation of a message cannot fail for this struct, so that error path is not modelled.
- The JSON value parser (`serde_json::from_str`) is the function parameter `parse`. The lemmas about saved messages require only that it reads a serialised message back as the message's JSON value.
- The conversion's pretty-printing is not modelled. Its result is the sequence of JSON values written, and the `SerializeJsonlItems` error (which cannot occur for `Value`s) is never produced.
- The line reader drops the newline ending a line, and a carriage return right before that newline; an unterminated last line is kept as it stands, carriage return included. The reader ends at the first read error. Invalid UTF-8 is not modelled.
- `Text.ParseDecimal`, `Text.ParseDecimalExamples`: Rust's `f32` parser also accepts exponents, `inf` and `NaN`. The model reads plain decimals only (`1.5`, `-2`, `.5`, `3.`), exactly and without `f32` rounding. So a header such as `1e3` gives no pacing information here, while the program would wait 1000 ms.
- `Text.MillisUntilReset`: a float that is too large or not a number saturates at 65535 or becomes 0 in the program's `as u16` cast. Only the saturation of large finite values is modelled.
- The status of a response is a `nat`; the program's `u16` is not enforced.
- `DiscordApi.GetRatelimitInfo`: header names are the lower-case names `HeaderMap` stores. Values the program would reject as non-visible ASCII never parse as numbers, so that check has no effect on the result.
- Error payloads of the Rust libraries (`reqwest::Error`, `io::Error`) are dropped; each error keeps its kind and the path or status it names.
