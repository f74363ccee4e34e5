/** The persistence sinks. A message is serialised as one line of JSON; the line-delimited sink appends
    one newline-terminated line per message and flushes once per batch, the SQL sink inserts one row per
    message. Both stop at the first failure of a batch and keep what was already written; neither
    deduplicates. */
module MessageSaver {
  import opened Basics
  import Text
  import Json
  import ChannelMessages

  type Message = ChannelMessages.Message

  // ---------------------------------------------------------------------------------------------
  // Serialisation (`serde_json::to_string(message)`)

  function HexDigit(d: nat): (c: char)
    requires d < 16
  {
    "0123456789abcdef"[d]
  }

  function HexValue(c: char): Option<nat>
  {
    if '0' <= c <= '9' then Some((c as int) - ('0' as int))
    else if 'a' <= c <= 'f' then Some((c as int) - ('a' as int) + 10)
    else None
  }

  lemma {:induction false} HexRoundTrip(d: nat)
    requires d < 16
    ensures HexValue(HexDigit(d)) == Some(d)
  {
  }

  /** serde_json's escaping of one character inside a string: quote and backslash are escaped,
      backspace, form feed, newline, carriage return and tab get their short escapes, the other control
      characters become `\u00XX` with lower-case hex, and every other character stands for itself. */
  function EscapeChar(c: char): string
  {
    if c == '"' then ['\\', '"']
    else if c == '\\' then ['\\', '\\']
    else if c as int == 8 then ['\\', 'b']
    else if c as int == 12 then ['\\', 'f']
    else if c == '\n' then ['\\', 'n']
    else if c == '\r' then ['\\', 'r']
    else if c == '\t' then ['\\', 't']
    else if (c as int) < 32 then ['\\', 'u', '0', '0', HexDigit((c as int) / 16), HexDigit((c as int) % 16)]
    else [c]
  }

  function Escape(s: string): string
  {
    if s == [] then [] else EscapeChar(s[0]) + Escape(s[1..])
  }

  function BoolText(b: bool): string
  {
    if b then "true" else "false"
  }

  // The keys of the serialised fields, each with the punctuation that leads up to its value.
  const AuthorIdKey := "{\"author_id\":"
  const MessageIdKey := ",\"message_id\":"
  const MessageKey := ",\"message\":\""
  const ChannelIdKey := ",\"channel_id\":"
  const HasMediaKey := ",\"has_media\":"

  /** One message as a line of JSON: an object with its fields in declaration order (author, message
      id, text, channel, media flag), numbers in decimal, the text as an escaped string literal. */
  function ToJsonLine(m: Message): (line: string)
    ensures |line| > 0 && line[0] == '{'
  {
    AuthorIdKey + (Text.ToDecimal(m.authorId) + MessageIdPart(m))
  }

  function MessageIdPart(m: Message): string
  {
    MessageIdKey + (Text.ToDecimal(m.messageId) + MessagePart(m))
  }

  function MessagePart(m: Message): string
  {
    MessageKey + (Escape(m.message) + ("\"" + ChannelIdPart(m)))
  }

  function ChannelIdPart(m: Message): string
  {
    ChannelIdKey + (Text.ToDecimal(m.channelId) + HasMediaPart(m))
  }

  function HasMediaPart(m: Message): string
  {
    HasMediaKey + (BoolText(m.hasMedia) + "}")
  }

  /** The same serialisation as a JSON value (`serde_json::to_value(message)`): an object with one
      field per struct field, numbers for the ids, a string for the text and a boolean for the media
      flag. */
  function ToJsonValue(m: Message): (v: Json.Json)
    ensures v.JObject? && |v.fields| == 5
    ensures Json.IdNumber(v, "author_id") == Some(m.authorId) && Json.IdNumber(v, "message_id") == Some(m.messageId)
    ensures Json.IdNumber(v, "channel_id") == Some(m.channelId)
    ensures Json.StrField(v, "message") == Some(m.message) && Json.Get(v, "has_media") == Some(Json.JBool(m.hasMedia))
  {
    var fields := map["author_id" := Json.JNumber(m.authorId as real), "message_id" := Json.JNumber(m.messageId as real),
                      "message" := Json.JString(m.message), "channel_id" := Json.JNumber(m.channelId as real),
                      "has_media" := Json.JBool(m.hasMedia)];
    assert fields.Keys == {"author_id", "message_id", "message", "channel_id", "has_media"};
    Json.JObject(fields)
  }

  // ---------------------------------------------------------------------------------------------
  // Reading a line back

  /** Decodes the escape sequence at the start of `s`: the character and how many characters it used. */
  function ReadEscape(s: string): (r: Option<(char, nat)>)
    ensures r.Some? ==> 2 <= r.value.1 <= |s|
  {
    if |s| < 2 || s[0] != '\\' then None
    else if s[1] in "\"\\/" then Some((s[1], 2))
    else if s[1] == 'b' then Some((8 as char, 2))
    else if s[1] == 'f' then Some((12 as char, 2))
    else if s[1] == 'n' then Some(('\n', 2))
    else if s[1] == 'r' then Some(('\r', 2))
    else if s[1] == 't' then Some(('\t', 2))
    else if |s| >= 6 && s[1] == 'u' && s[2] == '0' && s[3] == '0' && HexValue(s[4]).Some? && HexValue(s[5]).Some? then
      Some(((HexValue(s[4]).value * 16 + HexValue(s[5]).value) as char, 6))
    else None
  }

  /** Reads the contents of a string literal whose opening quote is already consumed: the decoded text
      and what follows the closing quote. */
  function ReadString(s: string): Option<(string, string)>
    decreases |s|
  {
    if s == [] then None
    else if s[0] == '"' then Some(([], s[1..]))
    else if s[0] == '\\' then
      match ReadEscape(s)
      case None => None
      case Some((c, n)) =>
        match ReadString(s[n..])
        case None => None
        case Some((t, rest)) => Some(([c] + t, rest))
    else
      match ReadString(s[1..])
      case None => None
      case Some((t, rest)) => Some(([s[0]] + t, rest))
  }

  lemma {:induction false} ReadEscapedChar(c: char, s: string)
    requires ReadString(s).Some?
    ensures ReadString(EscapeChar(c) + s) == Some(([c] + ReadString(s).value.0, ReadString(s).value.1))
  {
    var e := EscapeChar(c);
    var u := e + s;
    if c == '"' || c == '\\' || c as int == 8 || c as int == 12 || c == '\n' || c == '\r' || c == '\t' {
      assert |e| == 2 && u[0] == '\\' && u[2..] == s;
      assert ReadEscape(u) == Some((c, 2));
    } else if (c as int) < 32 {
      var hi, lo := (c as int) / 16, (c as int) % 16;
      assert |e| == 6 && u[..6] == e && u[6..] == s;
      HexRoundTrip(hi);
      HexRoundTrip(lo);
      assert hi * 16 + lo == c as int;
      assert ReadEscape(u) == Some((c, 6));
    } else {
      assert e == [c] && u[1..] == s;
    }
  }

  lemma {:induction false} ReadEscapedString(t: string, rest: string)
    ensures ReadString(Escape(t) + "\"" + rest) == Some((t, rest))
  {
    if t == [] {
      assert Escape(t) + "\"" + rest == ['"'] + rest;
    } else {
      ReadEscapedString(t[1..], rest);
      ReadEscapedChar(t[0], Escape(t[1..]) + "\"" + rest);
      assert Escape(t) + "\"" + rest == EscapeChar(t[0]) + (Escape(t[1..]) + "\"" + rest);
      assert [t[0]] + t[1..] == t;
    }
  }

  function ReadBool(s: string): Option<bool>
  {
    if s == "true" then Some(true) else if s == "false" then Some(false) else None
  }

  /** The last field and the closing brace. */
  function ReadHasMedia(s: string): Option<bool>
  {
    var v := Text.StripPrefix(HasMediaKey, s);
    if v.None? || |v.value| == 0 || v.value[|v.value| - 1] != '}' then None
    else ReadBool(v.value[..|v.value| - 1])
  }

  /** The channel field and what follows it. */
  function ReadChannelId(s: string): Option<(nat, bool)>
  {
    var v := Text.StripPrefix(ChannelIdKey, s);
    if v.None? then None else
    var n := Text.ReadNat(v.value);
    if n.None? then None else
    var h := ReadHasMedia(n.value.1);
    if h.None? then None else Some((n.value.0, h.value))
  }

  /** The text field and what follows it. */
  function ReadMessageText(s: string): Option<(string, nat, bool)>
  {
    var v := Text.StripPrefix(MessageKey, s);
    if v.None? then None else
    var t := ReadString(v.value);
    if t.None? then None else
    var c := ReadChannelId(t.value.1);
    if c.None? then None else Some((t.value.0, c.value.0, c.value.1))
  }

  /** The message id field and what follows it. */
  function ReadMessageId(s: string): Option<(nat, string, nat, bool)>
  {
    var v := Text.StripPrefix(MessageIdKey, s);
    if v.None? then None else
    var n := Text.ReadNat(v.value);
    if n.None? then None else
    var t := ReadMessageText(n.value.1);
    if t.None? then None else Some((n.value.0, t.value.0, t.value.1, t.value.2))
  }

  /** Reads a line written by `ToJsonLine` back into the message. */
  function ReadJsonLine(line: string): Option<Message>
  {
    var v := Text.StripPrefix(AuthorIdKey, line);
    if v.None? then None else
    var n := Text.ReadNat(v.value);
    if n.None? then None else
    var r := ReadMessageId(n.value.1);
    if r.None? then None else
    Some(ChannelMessages.Message(r.value.2, n.value.0, r.value.0, r.value.1, r.value.3))
  }

  lemma {:induction false} ReadHasMediaPart(m: Message)
    ensures ReadHasMedia(HasMediaPart(m)) == Some(m.hasMedia)
  {
    var tail := BoolText(m.hasMedia) + "}";
    Text.StripPrefixOf(HasMediaKey, tail);
    assert tail[..|tail| - 1] == BoolText(m.hasMedia);
  }

  lemma {:induction false} ReadChannelIdPart(m: Message)
    ensures ReadChannelId(ChannelIdPart(m)) == Some((m.channelId, m.hasMedia))
  {
    Text.StripPrefixOf(ChannelIdKey, Text.ToDecimal(m.channelId) + HasMediaPart(m));
    assert HasMediaPart(m)[0] == ',';
    Text.ReadNatToDecimal(m.channelId, HasMediaPart(m));
    ReadHasMediaPart(m);
  }

  lemma {:induction false} ReadMessagePart(m: Message)
    ensures ReadMessageText(MessagePart(m)) == Some((m.message, m.channelId, m.hasMedia))
  {
    Text.StripPrefixOf(MessageKey, Escape(m.message) + ("\"" + ChannelIdPart(m)));
    assert Escape(m.message) + ("\"" + ChannelIdPart(m)) == Escape(m.message) + "\"" + ChannelIdPart(m);
    ReadEscapedString(m.message, ChannelIdPart(m));
    ReadChannelIdPart(m);
  }

  lemma {:induction false} ReadMessageIdPart(m: Message)
    ensures ReadMessageId(MessageIdPart(m)) == Some((m.messageId, m.message, m.channelId, m.hasMedia))
  {
    Text.StripPrefixOf(MessageIdKey, Text.ToDecimal(m.messageId) + MessagePart(m));
    assert MessagePart(m)[0] == ',';
    Text.ReadNatToDecimal(m.messageId, MessagePart(m));
    ReadMessagePart(m);
  }

  /** Serialisation loses nothing: every field of every message reads back from its line. */
  lemma {:induction false} ReadJsonLineRoundTrip(m: Message)
    ensures ReadJsonLine(ToJsonLine(m)) == Some(m)
  {
    Text.StripPrefixOf(AuthorIdKey, Text.ToDecimal(m.authorId) + MessageIdPart(m));
    assert MessageIdPart(m)[0] == ',';
    Text.ReadNatToDecimal(m.authorId, MessageIdPart(m));
    ReadMessageIdPart(m);
  }

  // ---------------------------------------------------------------------------------------------
  // Line-delimited files

  /** A serialised message is exactly one line: it holds no newline and does not end in a carriage
      return, so a line reader returns it unchanged. */
  lemma {:induction false} JsonLineIsOneLine(m: Message)
    ensures '\n' !in ToJsonLine(m)
    ensures |ToJsonLine(m)| > 0 && ToJsonLine(m)[|ToJsonLine(m)| - 1] == '}'
  {
    MessageIdPartIsOneLine(m);
    EndsWithLast(AuthorIdKey, Text.ToDecimal(m.authorId), MessageIdPart(m));
  }

  /** Keys, numbers and escaped text hold no newline, and the object's closing brace ends the part. */
  predicate ClosedLine(s: string)
  {
    '\n' !in s && |s| > 0 && s[|s| - 1] == '}'
  }

  lemma {:induction false} EndsWithLast(a: string, b: string, c: string)
    requires '\n' !in a && '\n' !in b && ClosedLine(c)
    ensures ClosedLine(a + (b + c))
  {
    var s := a + (b + c);
    assert s[|s| - 1] == c[|c| - 1];
  }

  lemma {:induction false} HasMediaPartIsOneLine(m: Message)
    ensures ClosedLine(HasMediaPart(m))
  {
    EndsWithLast(HasMediaKey, BoolText(m.hasMedia), "}");
  }

  lemma {:induction false} ChannelIdPartIsOneLine(m: Message)
    ensures ClosedLine(ChannelIdPart(m))
  {
    HasMediaPartIsOneLine(m);
    EndsWithLast(ChannelIdKey, Text.ToDecimal(m.channelId), HasMediaPart(m));
  }

  lemma {:induction false} MessagePartIsOneLine(m: Message)
    ensures ClosedLine(MessagePart(m))
  {
    ChannelIdPartIsOneLine(m);
    EscapeHasNoNewline(m.message);
    EndsWithLast("\"", [], ChannelIdPart(m));
    assert "\"" + ChannelIdPart(m) == "\"" + ([] + ChannelIdPart(m));
    EndsWithLast(MessageKey, Escape(m.message), "\"" + ChannelIdPart(m));
  }

  lemma {:induction false} MessageIdPartIsOneLine(m: Message)
    ensures ClosedLine(MessageIdPart(m))
  {
    MessagePartIsOneLine(m);
    EndsWithLast(MessageIdKey, Text.ToDecimal(m.messageId), MessagePart(m));
  }

  lemma {:induction false} EscapeHasNoNewline(s: string)
    ensures '\n' !in Escape(s)
  {
    if s != [] {
      EscapeHasNoNewline(s[1..]);
      var c := s[0];
      if c != '"' && c != '\\' && c as int != 8 && c as int != 12 && c != '\n' && c != '\r' && c != '\t' && (c as int) < 32 {
        assert EscapeChar(c) == ['\\', 'u', '0', '0', HexDigit((c as int) / 16), HexDigit((c as int) % 16)];
      }
    }
  }

  /** Lines joined into a text, each followed by a newline. */
  function Terminated(lines: seq<string>): string
  {
    if lines == [] then [] else lines[0] + "\n" + Terminated(lines[1..])
  }

  lemma {:induction false} TerminatedAppend(a: seq<string>, b: seq<string>)
    ensures Terminated(a + b) == Terminated(a) + Terminated(b)
  {
    if a == [] {
      assert a + b == b;
    } else {
      TerminatedAppend(a[1..], b);
      assert (a + b)[0] == a[0] && (a + b)[1..] == a[1..] + b;
    }
  }

  function JsonLines(messages: seq<Message>): (lines: seq<string>)
  {
    seq(|messages|, i requires 0 <= i < |messages| => ToJsonLine(messages[i]))
  }

  /** A file written by the line-delimited sink: each message's line followed by a newline. */
  function JsonlText(messages: seq<Message>): string
  {
    Terminated(JsonLines(messages))
  }

  lemma {:induction false} JsonlTextAppend(a: seq<Message>, b: seq<Message>)
    ensures JsonlText(a + b) == JsonlText(a) + JsonlText(b)
  {
    assert JsonLines(a + b) == JsonLines(a) + JsonLines(b);
    TerminatedAppend(JsonLines(a), JsonLines(b));
  }

  /** Position of the first newline in `s`, or `|s|` when there is none. */
  function NewlineIndex(s: string): (i: nat)
    ensures i <= |s|
    ensures i < |s| ==> s[i] == '\n'
    ensures forall k :: 0 <= k < i ==> s[k] != '\n'
  {
    if s == [] || s[0] == '\n' then 0 else 1 + NewlineIndex(s[1..])
  }

  function StripCarriageReturn(line: string): string
  {
    if |line| > 0 && line[|line| - 1] == '\r' then line[..|line| - 1] else line
  }

  /** The lines a buffered reader yields: the text cut at each newline, one carriage return right
      before a newline dropped, no empty line after a final newline, and an unterminated last line
      kept exactly as it stands. No line holds a newline. */
  function Lines(s: string): (r: seq<string>)
    ensures forall k :: 0 <= k < |r| ==> '\n' !in r[k]
    decreases |s|
  {
    if s == [] then []
    else
      var i := NewlineIndex(s);
      if i == |s| then [s]
      else [StripCarriageReturn(s[..i])] + Lines(s[i + 1..])
  }

  /** Text without a newline is one line, exactly as it stands: a carriage return ending it stays. */
  lemma {:induction false} LinesKeepFinalCarriageReturn(line: string)
    requires line != [] && '\n' !in line
    ensures Lines(line) == [line]
  {
    assert NewlineIndex(line) == |line|;
  }

  /** After whole lines, an unterminated last line is read as one more line, unchanged. */
  lemma {:induction false} LinesUnterminatedLastLine(text: string, line: string)
    requires text == [] || text[|text| - 1] == '\n'
    requires line != [] && '\n' !in line
    ensures Lines(text + line) == Lines(text) + [line]
    decreases |text|
  {
    if text == [] {
      assert text + line == line;
      LinesKeepFinalCarriageReturn(line);
    } else {
      var s := text + line;
      var i := NewlineIndex(text);
      assert i < |text|;
      assert forall k :: 0 <= k < |text| ==> s[k] == text[k];
      assert NewlineIndex(s) == i;
      assert s[..i] == text[..i];
      assert s[i + 1..] == text[i + 1..] + line;
      LinesUnterminatedLastLine(text[i + 1..], line);
    }
  }

  /** A carriage return right before a newline is dropped, and the reading goes on after the newline. */
  lemma {:induction false} LinesDropCarriageReturnBeforeNewline(line: string, rest: string)
    requires '\n' !in line
    ensures Lines(line + "\r\n" + rest) == [line] + Lines(rest)
  {
    var s := line + "\r\n" + rest;
    var i := NewlineIndex(s);
    assert s[|line|] == '\r' && s[|line| + 1] == '\n';
    assert forall k :: 0 <= k < |line| ==> s[k] == line[k];
    assert i == |line| + 1;
    assert s[..i] == line + "\r" && s[i + 1..] == rest;
    assert StripCarriageReturn(line + "\r") == line by {
      assert (line + "\r")[..|line|] == line;
    }
  }

  lemma {:induction false} LinesCons(line: string, rest: string)
    requires '\n' !in line
    requires line == [] || line[|line| - 1] != '\r'
    ensures Lines(line + "\n" + rest) == [line] + Lines(rest)
  {
    var s := line + "\n" + rest;
    var i := NewlineIndex(s);
    assert s[|line|] == '\n';
    assert i == |line|;
    assert s[..i] == line && s[i + 1..] == rest;
  }

  /** The lines of a file written by the sink are the serialised messages, one per line. */
  lemma {:induction false} LinesOfJsonlText(messages: seq<Message>)
    ensures Lines(JsonlText(messages)) == JsonLines(messages)
  {
    if messages != [] {
      var line := ToJsonLine(messages[0]);
      assert JsonLines(messages) == [line] + JsonLines(messages[1..]);
      assert JsonlText(messages) == line + "\n" + JsonlText(messages[1..]);
      JsonLineIsOneLine(messages[0]);
      LinesCons(line, JsonlText(messages[1..]));
      LinesOfJsonlText(messages[1..]);
    }
  }

  /** Reads every line back into a message; fails when some line is not a serialised message. */
  function ReadLines(lines: seq<string>): (r: Option<seq<Message>>)
    ensures r.Some? ==> |r.value| == |lines|
  {
    if lines == [] then Some([])
    else
      var m := ReadJsonLine(lines[0]);
      var ms := ReadLines(lines[1..]);
      if m.None? || ms.None? then None else Some([m.value] + ms.value)
  }

  /** What a reader of the file recovers from its contents. */
  function ReadBack(text: string): Option<seq<Message>>
  {
    ReadLines(Lines(text))
  }

  lemma {:induction false} ReadBackCons(m: Message, rest: string)
    requires ReadBack(rest).Some?
    ensures ReadBack(ToJsonLine(m) + "\n" + rest) == Some([m] + ReadBack(rest).value)
  {
    JsonLineIsOneLine(m);
    LinesCons(ToJsonLine(m), rest);
    ReadJsonLineRoundTrip(m);
    assert ([ToJsonLine(m)] + Lines(rest))[1..] == Lines(rest);
  }

  /** A file written by the sink reads back as exactly the messages written, in order. */
  lemma {:induction false} ReadBackJsonlText(messages: seq<Message>)
    ensures ReadBack(JsonlText(messages)) == Some(messages)
  {
    if messages != [] {
      JsonlTextCons(messages);
      ReadBackJsonlText(messages[1..]);
      ReadBackCons(messages[0], JsonlText(messages[1..]));
      assert [messages[0]] + messages[1..] == messages;
    }
  }

  /** The file of a non-empty batch is the first message's line, a newline, and the file of the rest. */
  lemma {:induction false} JsonlTextCons(messages: seq<Message>)
    requires messages != []
    ensures JsonlText(messages) == ToJsonLine(messages[0]) + "\n" + JsonlText(messages[1..])
  {
    assert JsonLines(messages)[1..] == JsonLines(messages[1..]);
  }

  /** Saving appends: a file holding `previous` still holds them, followed by what the batch wrote. */
  lemma {:induction false} ReadBackAfterAppend(previous: seq<Message>, batch: seq<Message>)
    ensures ReadBack(JsonlText(previous) + JsonlText(batch)) == Some(previous + batch)
  {
    JsonlTextAppend(previous, batch);
    ReadBackJsonlText(previous + batch);
  }

  /** Nothing is deduplicated: saving the same batch twice leaves every message in the file twice. */
  lemma {:induction false} SavingTwiceDuplicates(previous: seq<Message>, batch: seq<Message>)
    ensures ReadBack(JsonlText(previous) + JsonlText(batch) + JsonlText(batch)) == Some(previous + batch + batch)
  {
    JsonlTextAppend(previous, batch);
    ReadBackAfterAppend(previous + batch, batch);
  }

  /** How the file system behaves while a batch is saved: every call succeeds, writing the line at
      index `at` fails, or the final flush fails. */
  datatype WriteFault = NoFault | WriteFails(at: nat) | FlushFails

  /** The error a sink reports (a boxed error in the program). */
  datatype SaveError = Io | Database

  /** How many of `n` lines reach the file under `fault`: all of them unless a write fails first. */
  function LinesWritten(n: nat, fault: WriteFault): (k: nat)
    ensures k <= n
    ensures k < n <==> fault.WriteFails? && fault.at < n
    ensures k < n ==> k == fault.at
  {
    if fault.WriteFails? && fault.at < n then fault.at else n
  }

  /** Whether a batch of `n` messages is saved without error. */
  predicate SaveSucceeds(n: nat, fault: WriteFault)
  {
    fault.NoFault? || (fault.WriteFails? && fault.at >= n)
  }

  /** The line-delimited sink: the contents of its file and the number of flushes that completed. */
  class JsonlSaver {
    var text: string
    var flushes: nat

    constructor (existing: string)
      ensures text == existing && flushes == 0
    {
      text := existing;
      flushes := 0;
    }

    /** Opens the file for appending, creating it when missing (`existing` is None then); fails when
        the file system refuses (`canOpen` false). Existing contents are kept. */
    static method New(existing: Option<string>, canOpen: bool) returns (r: Result<JsonlSaver, SaveError>)
      ensures r.Ok? <==> canOpen
      ensures r.Ok? ==> fresh(r.value) && r.value.flushes == 0
                        && r.value.text == (if existing.Some? then existing.value else [])
      ensures r.Err? ==> r.error == Io
    {
      if !canOpen {
        return Err(Io);
      }
      var saver := new JsonlSaver(if existing.Some? then existing.value else []);
      return Ok(saver);
    }

    /** Writes one line per message in order, then flushes. A failing write ends the batch with an
        error, keeping the lines already written and skipping the flush; a failing flush reports an
        error after every line was written. */
    method SaveMessages(messages: seq<Message>, fault: WriteFault) returns (r: Result<(), SaveError>)
      modifies this
      ensures text == old(text) + JsonlText(messages[..LinesWritten(|messages|, fault)])
      ensures r.Ok? <==> SaveSucceeds(|messages|, fault)
      ensures r.Err? ==> r.error == Io
      ensures flushes == old(flushes) + (if r.Ok? then 1 else 0)
    {
      var written := WriteLines(JsonLines(messages), fault);
      assert JsonLines(messages)[..written] == JsonLines(messages[..written]);
      if written < |messages| || fault.FlushFails? {
        return Err(Io);
      }
      flushes := flushes + 1;
      return Ok(());
    }

    /** The write loop of a save: each message's line and a newline, until the end of the batch or
        the first failing write, whose index it returns. */
    method WriteLines(lines: seq<string>, fault: WriteFault) returns (written: nat)
      modifies this
      ensures written == LinesWritten(|lines|, fault)
      ensures text == old(text) + Terminated(lines[..written])
      ensures flushes == old(flushes)
    {
      written := 0;
      while written < |lines| && fault != WriteFails(written)
        invariant 0 <= written <= |lines|
        invariant text == old(text) + Terminated(lines[..written])
        invariant flushes == old(flushes)
        invariant !(fault.WriteFails? && fault.at < written)
      {
        TerminatedAppend(lines[..written], [lines[written]]);
        assert lines[..written + 1] == lines[..written] + [lines[written]];
        text := text + (lines[written] + "\n");
        written := written + 1;
      }
    }
  }

  // ---------------------------------------------------------------------------------------------
  // SQL

  /** A row of the `messages` table, columns in the order the insert binds them. */
  datatype Row = Row(channelId: nat, authorId: nat, messageId: nat, message: string, hasMedia: bool)

  function RowOf(m: Message): (row: Row)
    ensures row.channelId == m.channelId && row.authorId == m.authorId && row.messageId == m.messageId
    ensures row.message == m.message && row.hasMedia == m.hasMedia
  {
    Row(m.channelId, m.authorId, m.messageId, m.message, m.hasMedia)
  }

  function Rows(messages: seq<Message>): (rows: seq<Row>)
  {
    seq(|messages|, i requires 0 <= i < |messages| => RowOf(messages[i]))
  }

  /** How many of `n` inserts succeed when the insert at `failingInsert` (if any) is rejected. */
  function RowsInserted(n: nat, failingInsert: Option<nat>): (k: nat)
    ensures k <= n
    ensures k < n <==> failingInsert.Some? && failingInsert.value < n
    ensures k < n ==> k == failingInsert.value
  {
    if failingInsert.Some? && failingInsert.value < n then failingInsert.value else n
  }

  /** The SQL sink: the rows of the `messages` table. */
  class SqlSaver {
    var rows: seq<Row>

    constructor (existing: seq<Row>)
      ensures rows == existing
    {
      rows := existing;
    }

    /** Connects to the database at `databaseUrl` (holding `existing` rows); fails when the
        connection is refused. */
    static method New(databaseUrl: string, existing: seq<Row>, canConnect: bool) returns (r: Result<SqlSaver, SaveError>)
      ensures r.Ok? <==> canConnect
      ensures r.Ok? ==> fresh(r.value) && r.value.rows == existing
      ensures r.Err? ==> r.error == Database
    {
      if !canConnect {
        return Err(Database);
      }
      var saver := new SqlSaver(existing);
      return Ok(saver);
    }

    /** Inserts one row per message in order, each its own statement: a rejected insert ends the batch
        with an error and the rows inserted before it stay. */
    method SaveMessages(messages: seq<Message>, failingInsert: Option<nat>) returns (r: Result<(), SaveError>)
      modifies this
      ensures rows == old(rows) + Rows(messages[..RowsInserted(|messages|, failingInsert)])
      ensures r.Ok? <==> RowsInserted(|messages|, failingInsert) == |messages|
      ensures r.Err? ==> r.error == Database
    {
      var i := 0;
      while i < |messages|
        invariant 0 <= i <= |messages|
        invariant rows == old(rows) + Rows(messages[..i])
        invariant !(failingInsert.Some? && failingInsert.value < i)
      {
        if failingInsert == Some(i) {
          return Err(Database);
        }
        assert Rows(messages[..i + 1]) == Rows(messages[..i]) + [RowOf(messages[i])];
        rows := rows + [RowOf(messages[i])];
        i := i + 1;
      }
      assert messages[..i] == messages;
      return Ok(());
    }
  }

  /** The table has no uniqueness constraint: saving a batch twice stores every message of it at
      least twice. */
  lemma {:induction false} SqlSavingTwiceDuplicates(rows: seq<Row>, batch: seq<Message>, m: Message)
    requires m in batch
    ensures multiset(rows + Rows(batch) + Rows(batch))[RowOf(m)] >= 2
  {
    var i :| 0 <= i < |batch| && batch[i] == m;
    assert Rows(batch)[i] == RowOf(m);
    assert RowOf(m) in multiset(Rows(batch));
  }
}
