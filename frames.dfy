/** One line of the chat stream protocol and the fixed table that turns it
    into a typed event (`ChatApi.streamChat`, src/index.ts). */
module Frames {
  import opened Wrappers
  import opened Json
  import opened Text

  /** What an event carries: the payload text itself, or the value
      `JSON.parse` made of it. */
  datatype Content = Str(s: string) | Value(json: Json)

  /** `{ type, content }` as the generator yields it. */
  datatype Event = Event(kind: string, content: Content)

  /** How the payload after the tag is turned into content. */
  datatype Mode =
    | Unquote    // drop at most one leading and at most one trailing double quote
    | Raw        // the payload text as it is
    | ParseJson  // `JSON.parse(payload)`

  datatype Entry = Entry(kind: string, mode: Mode)

  /** The switch on the type tag: tag -> emitted kind and payload mode. */
  const Table: map<char, Entry> := map[
    '0' := Entry("text", Unquote),
    'g' := Entry("reasoning", Raw),
    'i' := Entry("redacted_reasoning", ParseJson),
    'j' := Entry("reasoning_signature", ParseJson),
    'h' := Entry("source", ParseJson),
    'k' := Entry("file", ParseJson),
    '2' := Entry("data", ParseJson),
    '8' := Entry("annotation", ParseJson),
    '3' := Entry("error", Raw),
    'b' := Entry("tool_call_start", ParseJson),
    'c' := Entry("tool_call_delta", ParseJson),
    '9' := Entry("tool_call", ParseJson),
    'a' := Entry("tool_result", ParseJson),
    'f' := Entry("step_start", ParseJson),
    'e' := Entry("step_finish", ParseJson),
    'd' := Entry("message_finish", ParseJson)
  ]

  /** The kinds whose content is always a string. */
  const StringKinds: set<string> := {"text", "reasoning", "error"}

  /** `switch (typeId)`: the entry for a tag, if the tag is listed. */
  function Lookup(tag: string): (e: Option<Entry>)
    ensures e.Some? <==> |tag| == 1 && tag[0] in Table
    ensures e.Some? ==> e.value == Table[tag[0]]
  {
    if |tag| == 1 && tag[0] in Table then Some(Table[tag[0]]) else None
  }

  /** What the consumers may rely on about an emitted event: the three
      string kinds carry text, every other kind a parsed value. */
  predicate WellFormed(e: Event) {
    e.content.Str? <==> e.kind in StringKinds
  }

  /** The modes of the table agree with the string kinds. */
  lemma TableModes(c: char)
    requires c in Table
    ensures Table[c].mode == ParseJson <==> Table[c].kind !in StringKinds
  {
  }

  /** The legacy server-sent-events prefix and its end-of-stream sentinel. */
  const LegacyPrefix := "data:"
  const DoneSentinel := "[DONE]"

  /** `content.replace(/^"|"$/g, '')`: a leading `"` goes, and a trailing
      `"` of what is left goes; `"` alone becomes empty. */
  function StripQuotes(s: string): (r: string)
    ensures var a := if s != [] && s[0] == '"' then 1 else 0;
            var b := if |s| > a && s[|s| - 1] == '"' then 1 else 0;
            r == s[a..|s| - b]
    ensures |s| - 2 <= |r| <= |s|
    ensures r == s <==> (s == [] || (s[0] != '"' && s[|s| - 1] != '"'))
  {
    var a := if s != [] && s[0] == '"' then s[1..] else s;
    if a != [] && a[|a| - 1] == '"' then a[..|a| - 1] else a
  }

  /** Only the outer pair of quotes is removed: quotes inside survive. */
  lemma StripQuotesOfQuoted(t: string)
    ensures StripQuotes("\"" + t + "\"") == t
  {
    var q := "\"" + t + "\"";
    assert q[1..] == t + "\"";
    assert (t + "\"")[..|t|] == t;
  }

  /** Only a leading quote: it alone is removed. */
  lemma StripQuotesLeading(t: string)
    requires t == [] || t[|t| - 1] != '"'
    ensures StripQuotes("\"" + t) == t
  {
    assert ("\"" + t)[1..] == t;
  }

  /** Only a trailing quote: it alone is removed. */
  lemma StripQuotesTrailing(t: string)
    requires t == [] || t[0] != '"'
    ensures StripQuotes(t + "\"") == t
  {
    assert (t + "\"")[..|t|] == t;
  }

  /** What one complete, trimmed line contributes to the stream. */
  datatype LineResult = Skip | Emit(event: Event) | Stop

  /** A listed tag's payload, decoded by its table entry; a payload that
      `JSON.parse` rejects is caught and the line dropped. */
  function DecodePayload(entry: Entry, payload: string, parse: string -> Option<Json>): (r: LineResult)
    ensures r != Stop
  {
    match entry.mode
    case Unquote => Emit(Event(entry.kind, Str(StripQuotes(payload))))
    case Raw => Emit(Event(entry.kind, Str(payload)))
    case ParseJson =>
      if parse(payload).Some? then Emit(Event(entry.kind, Value(parse(payload).value))) else Skip
  }

  /** An unlisted tag: the legacy `data:` form, or nothing. */
  function LegacyFrame(line: string): (r: LineResult)
    ensures r.Emit? ==> r.event.kind == "text" && r.event.content.Str?
  {
    if StartsWith(line, LegacyPrefix) then
      var data := Trim(line[|LegacyPrefix|..]);
      if data == DoneSentinel then Stop else Emit(Event("text", Str(data)))
    else Skip
  }

  /** The body of the inner loop for one trimmed line: blank lines and lines
      without `:` are dropped, a listed tag is decoded by its table entry, and
      an unlisted tag goes to the legacy path. */
  function ClassifyLine(line: string, parse: string -> Option<Json>): (r: LineResult)
    ensures line == "" ==> r == Skip
    ensures ':' !in line ==> r == Skip
    ensures r.Emit? ==> WellFormed(r.event)
  {
    if line == "" then Skip
    else
      IndexOfFirst(line, ':');
      var colon := IndexOf(line, ':');
      if colon == -1 then Skip
      else
        var tag := line[..colon];
        var payload := line[colon + 1..];
        var entry := Lookup(tag);
        if entry.Some? then
          TableModes(tag[0]);
          DecodePayload(entry.value, payload, parse)
        else LegacyFrame(line)
  }

  /** A line `<tag>:<payload>` with a listed tag yields exactly the event its
      table entry prescribes, and nothing when `JSON.parse` fails. */
  lemma TagCoverage(tag: string, payload: string, parse: string -> Option<Json>)
    requires Lookup(tag).Some?
    ensures var e := Lookup(tag).value;
            ClassifyLine(tag + ":" + payload, parse) ==
              match e.mode
              case Unquote => Emit(Event(e.kind, Str(StripQuotes(payload))))
              case Raw => Emit(Event(e.kind, Str(payload)))
              case ParseJson =>
                if parse(payload).Some? then Emit(Event(e.kind, Value(parse(payload).value)))
                else Skip
  {
    var line := tag + ":" + payload;
    assert |tag| == 1 && tag[0] != ':';
    assert line[1] == ':' && line[..1] == tag;
    IndexOfAt(line, ':', 1);
    assert line[..1] == tag;
    assert line[2..] == payload;
  }

  /** The documented example: `0:"hello"` is the text `hello`. */
  lemma TextExample(parse: string -> Option<Json>)
    ensures ClassifyLine("0:\"hello\"", parse) == Emit(Event("text", Str("hello")))
  {
    var quoted := "\"hello\"";
    assert quoted == "\"" + "hello" + "\"";
    StripQuotesOfQuoted("hello");
    assert "0:\"hello\"" == "0" + ":" + quoted;
    assert Lookup("0") == Some(Entry("text", Unquote));
    TagCoverage("0", quoted, parse);
  }

  /** The legacy path: `data:X` is the text `trim(X)`, or the end of the
      stream when `trim(X)` is `[DONE]`. */
  lemma LegacyLine(x: string, parse: string -> Option<Json>)
    ensures ClassifyLine(LegacyPrefix + x, parse) ==
              if Trim(x) == DoneSentinel then Stop else Emit(Event("text", Str(Trim(x))))
  {
    var line := LegacyPrefix + x;
    assert line[..4] == "data" && line[4] == ':';
    IndexOfAt(line, ':', 4);
    assert Lookup(line[..4]) == None;
    assert line[..|LegacyPrefix|] == LegacyPrefix;
    assert line[|LegacyPrefix|..] == x;
  }

  /** A line `<tag>:...` whose tag is not listed and that is not a legacy
      `data:` line is dropped without an event. */
  lemma UnknownTagSilent(line: string, parse: string -> Option<Json>)
    requires IndexOf(line, ':') >= 0 && !StartsWith(line, LegacyPrefix)
    requires Lookup(line[..IndexOf(line, ':')]).None?
    ensures ClassifyLine(line, parse) == Skip
  {
  }

  /** A line only ends the stream through the legacy sentinel. */
  lemma StopOnlyOnSentinel(line: string, parse: string -> Option<Json>)
    requires ClassifyLine(line, parse) == Stop
    ensures StartsWith(line, LegacyPrefix)
    ensures Trim(line[|LegacyPrefix|..]) == DoneSentinel
  {
    var colon := IndexOf(line, ':');
    assert Lookup(line[..colon]).None?;
  }
}
