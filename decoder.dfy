/** The frame splitter of `ChatApi.streamChat`: a text buffer kept across
    reads, cut at each newline into lines that are trimmed and classified in
    order. `Decode` says what a whole text yields; `StreamDecoder` is the
    buffered, chunk-at-a-time loop of the source, proved to agree with it.

    The splitting, trimming and bookkeeping do not depend on how a trimmed
    line is classified, so they are stated for any classifier `classify`;
    `Classifier(parse)` is the one of the source. */
module Decoder {
  import opened Wrappers
  import opened Json
  import opened Text
  import opened Frames

  /** The switch of the source, for a given `JSON.parse`. */
  function Classifier(parse: string -> Option<Json>): string -> LineResult {
    line => ClassifyLine(line, parse)
  }

  /** The classifier of the source only emits well-formed events. */
  lemma ClassifierWellFormed(parse: string -> Option<Json>, line: string)
    ensures Classifier(parse)(line).Emit? ==> WellFormed(Classifier(parse)(line).event)
  {
    var r := ClassifyLine(line, parse);
    assert Classifier(parse)(line) == r;
  }

  /** The events produced so far, and whether the stream has ended early
      (the generator's `return` on the legacy sentinel). */
  datatype Outcome = Outcome(events: seq<Event>, stopped: bool)

  /** One line's contribution put in front of what the remaining text yields. */
  function Then(r: LineResult, rest: Outcome): Outcome {
    match r
    case Skip => rest
    case Emit(e) => Outcome([e] + rest.events, rest.stopped)
    case Stop => Outcome([], true)
  }

  function Prepend(events: seq<Event>, o: Outcome): Outcome {
    Outcome(events + o.events, o.stopped)
  }

  lemma PrependPrepend(a: seq<Event>, b: seq<Event>, o: Outcome)
    ensures Prepend(a, Prepend(b, o)) == Prepend(a + b, o)
  {
    assert a + (b + o.events) == (a + b) + o.events;
  }

  lemma ConsAppend<T>(x: T, a: seq<T>, b: seq<T>)
    ensures [x] + (a + b) == ([x] + a) + b
  {
  }

  /** The number of occurrences of `c` in `s`. */
  function Count(s: string, c: char): nat {
    if s == [] then 0 else (if s[0] == c then 1 else 0) + Count(s[1..], c)
  }

  lemma {:induction false} CountAppend(a: string, b: string, c: char)
    ensures Count(a + b, c) == Count(a, c) + Count(b, c)
  {
    if a == [] {
      assert a + b == b;
    } else {
      assert (a + b)[1..] == a[1..] + b;
      CountAppend(a[1..], b, c);
    }
  }

  lemma CountAround(s: string, i: nat, c: char)
    requires i < |s| && s[i] == c
    ensures Count(s, c) == Count(s[..i], c) + 1 + Count(s[i + 1..], c)
  {
    assert s == s[..i] + ([c] + s[i + 1..]);
    CountAppend(s[..i], [c] + s[i + 1..], c);
    assert ([c] + s[i + 1..])[1..] == s[i + 1..];
  }

  lemma {:induction false} CountNone(s: string, c: char)
    requires c !in s
    ensures Count(s, c) == 0
  {
    if s != [] {
      assert c !in s[1..];
      CountNone(s[1..], c);
    }
  }

  /** The complete (newline-terminated) lines of a text, without their
      newlines, in order; the fragment after the last newline is not one. */
  function Lines(text: string): seq<string>
    decreases |text|
  {
    var nl := IndexOf(text, '\n');
    if nl < 0 then [] else [text[..nl]] + Lines(text[nl + 1..])
  }

  /** The text after the last newline: what the buffer holds once every
      complete line has been cut off. */
  function Pending(text: string): (r: string)
    ensures '\n' !in r
    decreases |text|
  {
    IndexOfFirst(text, '\n');
    var nl := IndexOf(text, '\n');
    if nl < 0 then text else Pending(text[nl + 1..])
  }

  /** The reference reading of the protocol, line by line: each line's
      result in order, up to the first line that stops the stream. */
  function DecodeLines(lines: seq<string>, classify: string -> LineResult): Outcome {
    if lines == [] then Outcome([], false)
    else Then(classify(Trim(lines[0])), DecodeLines(lines[1..], classify))
  }

  /** What a whole text yields: its complete lines, read in order; the
      newline-less fragment at the end yields nothing. */
  function Decode(text: string, classify: string -> LineResult): Outcome {
    DecodeLines(Lines(text), classify)
  }

  lemma LinesHead(text: string, nl: nat)
    requires nl == IndexOf(text, '\n')
    ensures Lines(text) == [text[..nl]] + Lines(text[nl + 1..])
  {
  }

  lemma PendingHead(text: string, nl: nat)
    requires nl == IndexOf(text, '\n')
    ensures Pending(text) == Pending(text[nl + 1..])
  {
  }

  lemma LinesNoNewline(text: string)
    requires '\n' !in text
    ensures Lines(text) == [] && Pending(text) == text
  {
    IndexOfFirst(text, '\n');
  }

  /** Each newline ends exactly one line. */
  lemma {:induction false} LinesCount(text: string)
    ensures |Lines(text)| == Count(text, '\n')
    decreases |text|
  {
    IndexOfFirst(text, '\n');
    var nl := IndexOf(text, '\n');
    if nl >= 0 {
      LinesHead(text, nl);
      CountAround(text, nl, '\n');
      CountNone(text[..nl], '\n');
      LinesCount(text[nl + 1..]);
    } else {
      CountNone(text, '\n');
    }
  }

  /** Cutting two pieces of text into lines: the first piece's lines, then
      the lines of its unfinished last line followed by the second piece. */
  lemma {:induction false} LinesAppend(t: string, s: string)
    ensures Lines(t + s) == Lines(t) + Lines(Pending(t) + s)
    decreases |t|
  {
    IndexOfFirst(t, '\n');
    var nl := IndexOf(t, '\n');
    if nl < 0 {
      LinesNoNewline(t);
      assert Lines(t) + Lines(Pending(t) + s) == Lines(t + s);
    } else {
      LinesAppend(t[nl + 1..], s);
      LinesAppendStep(t, s, nl);
    }
  }

  /** The inductive step of `LinesAppend`: cutting the first line off. */
  lemma LinesAppendStep(t: string, s: string, nl: nat)
    requires nl == IndexOf(t, '\n')
    requires Lines(t[nl + 1..] + s) == Lines(t[nl + 1..]) + Lines(Pending(t[nl + 1..]) + s)
    ensures Lines(t + s) == Lines(t) + Lines(Pending(t) + s)
  {
    var line, rest := t[..nl], t[nl + 1..];
    LinesHeadAppend(t, s, nl);
    LinesHead(t, nl);
    PendingHead(t, nl);
    ConsAppend(line, Lines(rest), Lines(Pending(rest) + s));
  }

  /** The first line of `t` is still the first line once `s` follows. */
  lemma LinesHeadAppend(t: string, s: string, nl: nat)
    requires nl == IndexOf(t, '\n')
    ensures Lines(t + s) == [t[..nl]] + Lines(t[nl + 1..] + s)
  {
    assert IndexOf(t + s, '\n') == nl by {
      IndexOfFirst(t, '\n');
      IndexOfAppend(t, s, '\n');
    }
    SliceAppend(t, s, nl);
    SliceAppend(t, s, nl + 1);
    LinesHead(t + s, nl);
  }

  /** Putting one line's result in front commutes with appending what a
      later piece of text yields. */
  lemma ThenOverAppend(r: LineResult, a: Outcome, d: Outcome)
    ensures Then(r, if a.stopped then a else Prepend(a.events, d))
         == if Then(r, a).stopped then Then(r, a) else Prepend(Then(r, a).events, d)
  {
    if r.Emit? && !a.stopped {
      assert [r.event] + (a.events + d.events) == ([r.event] + a.events) + d.events;
    }
  }

  /** Reading two runs of lines one after the other. */
  lemma {:induction false} DecodeLinesAppend(a: seq<string>, b: seq<string>, classify: string -> LineResult)
    ensures DecodeLines(a + b, classify) ==
              if DecodeLines(a, classify).stopped then DecodeLines(a, classify)
              else Prepend(DecodeLines(a, classify).events, DecodeLines(b, classify))
  {
    if a == [] {
      assert a + b == b;
      assert [] + DecodeLines(b, classify).events == DecodeLines(b, classify).events;
    } else {
      assert (a + b)[0] == a[0];
      assert (a + b)[1..] == a[1..] + b;
      DecodeLinesAppend(a[1..], b, classify);
      ThenOverAppend(classify(Trim(a[0])), DecodeLines(a[1..], classify), DecodeLines(b, classify));
    }
  }

  /** Putting the events already collected in front of one line's result. */
  lemma PrependThen(events: seq<Event>, r: LineResult, rest: Outcome)
    ensures Prepend(events, Then(r, rest)) ==
              match r
              case Skip => Prepend(events, rest)
              case Emit(e) => Prepend(events + [e], rest)
              case Stop => Outcome(events, true)
  {
    if r.Emit? {
      assert events + ([r.event] + rest.events) == (events + [r.event]) + rest.events;
    } else if r.Stop? {
      assert events + [] == events;
    }
  }

  /** One step of `Decode`: the first line, then the rest. */
  lemma DecodeStep(text: string, nl: nat, classify: string -> LineResult)
    requires nl == IndexOf(text, '\n')
    ensures Decode(text, classify) == Then(classify(Trim(text[..nl])), Decode(text[nl + 1..], classify))
    ensures Pending(text) == Pending(text[nl + 1..])
  {
    var lines := Lines(text[nl + 1..]);
    LinesHead(text, nl);
    assert ([text[..nl]] + lines)[0] == text[..nl];
    assert ([text[..nl]] + lines)[1..] == lines;
    calc {
      Decode(text, classify);
      DecodeLines([text[..nl]] + lines, classify);
      Then(classify(Trim(text[..nl])), DecodeLines(lines, classify));
    }
    PendingHead(text, nl);
  }

  /** What the loop of `StreamDecoder.Feed` learns from cutting one line off
      its buffer: the buffer's events, given the events already collected. */
  lemma ReadLine(text: string, events: seq<Event>, buf: string, nl: nat, classify: string -> LineResult)
    requires nl == IndexOf(buf, '\n')
    requires Decode(text, classify) == Prepend(events, Decode(buf, classify))
    requires Pending(text) == Pending(buf)
    ensures var rest := buf[nl + 1..];
            && Pending(text) == Pending(rest)
            && Decode(text, classify) ==
                 match classify(Trim(buf[..nl]))
                 case Skip => Prepend(events, Decode(rest, classify))
                 case Emit(e) => Prepend(events + [e], Decode(rest, classify))
                 case Stop => Outcome(events, true)
  {
    DecodeStep(buf, nl, classify);
    PrependThen(events, classify(Trim(buf[..nl])), Decode(buf[nl + 1..], classify));
  }

  /** Text without a newline yields nothing. */
  lemma DecodeNoNewline(text: string, classify: string -> LineResult)
    requires '\n' !in text
    ensures Decode(text, classify) == Outcome([], false)
  {
    LinesNoNewline(text);
  }

  /** Decoding a text in two pieces: the first piece's events, then what its
      unfinished last line followed by the second piece yields -- unless the
      first piece already ended the stream. This is what makes chunking
      irrelevant. */
  lemma DecodeAppend(t: string, s: string, classify: string -> LineResult)
    ensures Decode(t + s, classify) ==
              if Decode(t, classify).stopped then Decode(t, classify)
              else Prepend(Decode(t, classify).events, Decode(Pending(t) + s, classify))
  {
    LinesAppend(t, s);
    DecodeLinesAppend(Lines(t), Lines(Pending(t) + s), classify);
  }

  /** Each line yields at most one event, and every event is one some line
      yields. */
  lemma {:induction false} DecodeLinesEvents(lines: seq<string>, classify: string -> LineResult)
    ensures |DecodeLines(lines, classify).events| <= |lines|
    ensures forall i :: 0 <= i < |DecodeLines(lines, classify).events| ==>
              exists j :: 0 <= j < |lines| && classify(Trim(lines[j])) == Emit(DecodeLines(lines, classify).events[i])
  {
    if lines != [] {
      DecodeLinesEvents(lines[1..], classify);
      var rest := DecodeLines(lines[1..], classify);
      var all := DecodeLines(lines, classify);
      forall i | 0 <= i < |all.events|
        ensures exists j :: 0 <= j < |lines| && classify(Trim(lines[j])) == Emit(all.events[i])
      {
        if classify(Trim(lines[0])).Emit? && i == 0 {
          assert classify(Trim(lines[0])) == Emit(all.events[i]);
        } else {
          var k := if classify(Trim(lines[0])).Emit? then i - 1 else i;
          assert all.events[i] == rest.events[k];
          var j :| 0 <= j < |lines[1..]| && classify(Trim(lines[1..][j])) == Emit(rest.events[k]);
          assert lines[1..][j] == lines[j + 1];
        }
      }
    }
  }

  /** At most one event per newline of the text, and each event is well
      formed. */
  lemma DecodeEvents(text: string, parse: string -> Option<Json>)
    ensures |Decode(text, Classifier(parse)).events| <= Count(text, '\n')
    ensures forall i :: 0 <= i < |Decode(text, Classifier(parse)).events| ==>
              WellFormed(Decode(text, Classifier(parse)).events[i])
  {
    var classify := Classifier(parse);
    var lines := Lines(text);
    LinesCount(text);
    DecodeLinesEvents(lines, classify);
    var o := DecodeLines(lines, classify);
    forall i | 0 <= i < |o.events|
      ensures WellFormed(o.events[i])
    {
      var j :| 0 <= j < |lines| && classify(Trim(lines[j])) == Emit(o.events[i]);
      ClassifierWellFormed(parse, Trim(lines[j]));
    }
  }

  /** A line followed by its newline contributes exactly its own result,
      in front of what the rest of the text yields. */
  lemma DecodeLine(line: string, rest: string, classify: string -> LineResult)
    requires '\n' !in line
    ensures Decode(line + "\n" + rest, classify) == Then(classify(Trim(line)), Decode(rest, classify))
  {
    var text := line + "\n" + rest;
    assert text[|line|] == '\n' && text[..|line|] == line;
    IndexOfAt(text, '\n', |line|);
    assert text[|line| + 1..] == rest;
    DecodeStep(text, |line|, classify);
  }

  /** A trailing fragment without a newline never produces an event. */
  lemma TrailingFragmentSilent(t: string, f: string, classify: string -> LineResult)
    requires '\n' !in f
    ensures Decode(t + f, classify) == Decode(t, classify)
  {
    DecodeAppend(t, f, classify);
    assert '\n' !in Pending(t) + f;
    DecodeNoNewline(Pending(t) + f, classify);
    assert Decode(t, classify).events + [] == Decode(t, classify).events;
  }

  /** Lines the classifier drops -- blank ones, ones without `:`, a listed
      tag whose payload `JSON.parse` rejects, an unknown tag -- yield no event
      and decoding goes on with the next line. */
  lemma SkippedLineSilent(line: string, rest: string, parse: string -> Option<Json>)
    requires '\n' !in line
    requires ClassifyLine(Trim(line), parse) == Skip
    ensures Decode(line + "\n" + rest, Classifier(parse)) == Decode(rest, Classifier(parse))
  {
    DecodeLine(line, rest, Classifier(parse));
  }

  /** A frame whose payload fails to parse loses that frame only. */
  lemma ParseFailureDropsOnlyThatFrame(line: string, tag: string, payload: string, rest: string,
                                       parse: string -> Option<Json>)
    requires '\n' !in line && Trim(line) == tag + ":" + payload
    requires Lookup(tag).Some? && Lookup(tag).value.mode == ParseJson
    requires parse(payload).None?
    ensures Decode(line + "\n" + rest, Classifier(parse)) == Decode(rest, Classifier(parse))
  {
    TagCoverage(tag, payload, parse);
    SkippedLineSilent(line, rest, parse);
  }

  /** A line that stops the stream yields nothing, whatever follows it. */
  lemma StopLine(line: string, rest: string, classify: string -> LineResult)
    requires '\n' !in line && classify(Trim(line)) == Stop
    ensures Decode(line + "\n" + rest, classify) == Outcome([], true)
  {
    DecodeLine(line, rest, classify);
  }

  /** A line that stops the stream ends it for good: after complete lines
      `t`, whatever follows the stopping line -- even text already received --
      yields nothing. */
  lemma StopEndsStream(t: string, line: string, rest: string, classify: string -> LineResult)
    requires Pending(t) == ""
    requires '\n' !in line && classify(Trim(line)) == Stop
    ensures Decode(t + (line + "\n" + rest), classify).stopped
    ensures Decode(t + (line + "\n" + rest), classify).events == Decode(t, classify).events
  {
    var tail := line + "\n" + rest;
    StopLine(line, rest, classify);
    DecodeAppend(t, tail, classify);
    assert Pending(t) + tail == tail;
    assert Decode(t, classify).events + [] == Decode(t, classify).events;
  }

  /** `data: [DONE]` ends the stream of the source: a line that trims to
      the legacy prefix followed by text that trims to the sentinel. */
  lemma DoneEndsStream(t: string, line: string, x: string, rest: string, parse: string -> Option<Json>)
    requires Pending(t) == ""
    requires '\n' !in line && Trim(line) == LegacyPrefix + x && Trim(x) == DoneSentinel
    ensures Decode(t + (line + "\n" + rest), Classifier(parse)).stopped
    ensures Decode(t + (line + "\n" + rest), Classifier(parse)).events == Decode(t, Classifier(parse)).events
  {
    LegacyLine(x, parse);
    assert Classifier(parse)(Trim(line)) == Stop;
    StopEndsStream(t, line, rest, Classifier(parse));
  }

  /** A newline-terminated rendering of a list of lines. */
  function Terminated(lines: seq<string>): string {
    if lines == [] then "" else lines[0] + "\n" + Terminated(lines[1..])
  }

  /** A newline-free line and its newline are the first line of the text. */
  lemma LinesCons(l: string, tail: string)
    requires '\n' !in l
    ensures Lines(l + "\n" + tail) == [l] + Lines(tail)
  {
    var text := l + "\n" + tail;
    SliceAppend(l + "\n", tail, |l|);
    SliceAppend(l + "\n", tail, |l| + 1);
    assert (l + "\n")[..|l|] == l && (l + "\n")[|l| + 1..] == "";
    assert text[|l|] == '\n';
    IndexOfAt(text, '\n', |l|);
    LinesHead(text, |l|);
  }

  /** Cutting a newline-terminated rendering (and any trailing fragment)
      into lines gives back the lines. */
  lemma {:induction false} LinesOfTerminated(lines: seq<string>, f: string)
    requires forall i :: 0 <= i < |lines| ==> '\n' !in lines[i]
    requires '\n' !in f
    ensures Lines(Terminated(lines) + f) == lines
  {
    if lines == [] {
      LinesNoNewline(f);
      assert Terminated(lines) + f == f;
    } else {
      LinesOfTerminated(lines[1..], f);
      TerminatedStep(lines, f);
    }
  }

  /** The inductive step of `LinesOfTerminated`. */
  lemma TerminatedStep(lines: seq<string>, f: string)
    requires lines != [] && '\n' !in lines[0]
    requires Lines(Terminated(lines[1..]) + f) == lines[1..]
    ensures Lines(Terminated(lines) + f) == lines
  {
    var l, rest := lines[0], Terminated(lines[1..]);
    var tail := rest + f;
    assert Terminated(lines) + f == l + "\n" + tail by {
      assert Terminated(lines) == (l + "\n") + rest;
      assert ((l + "\n") + rest) + f == (l + "\n") + tail;
    }
    LinesCons(l, tail);
    assert lines == [l] + lines[1..];
  }

  /** So the events of such a text come out in line order. */
  lemma DecodeOfTerminated(lines: seq<string>, f: string, classify: string -> LineResult)
    requires forall i :: 0 <= i < |lines| ==> '\n' !in lines[i]
    requires '\n' !in f
    ensures Decode(Terminated(lines) + f, classify) == DecodeLines(lines, classify)
  {
    LinesOfTerminated(lines, f);
  }

  /** Conversely, every text is its complete lines, each with its newline,
      followed by what is pending: cutting loses and invents nothing. */
  lemma {:induction false} LinesThenPending(text: string)
    ensures Terminated(Lines(text)) + Pending(text) == text
    decreases |text|
  {
    var nl := IndexOf(text, '\n');
    if nl < 0 {
      IndexOfFirst(text, '\n');
      LinesNoNewline(text);
    } else {
      LinesThenPending(text[nl + 1..]);
      SplitStep(text, nl);
    }
  }

  /** The inductive step of `LinesThenPending`. */
  lemma SplitStep(text: string, nl: nat)
    requires nl == IndexOf(text, '\n')
    requires Terminated(Lines(text[nl + 1..])) + Pending(text[nl + 1..]) == text[nl + 1..]
    ensures Terminated(Lines(text)) + Pending(text) == text
  {
    var head, rest := text[..nl], text[nl + 1..];
    LinesHead(text, nl);
    PendingHead(text, nl);
    NewlineSplit(text, nl);
    SplitCons(text, head, rest, Lines(rest), Pending(rest));
  }

  /** One more line in front of a split text. */
  lemma SplitCons(text: string, l: string, rest: string, tail: seq<string>, p: string)
    requires text == l + "\n" + rest
    requires Terminated(tail) + p == rest
    ensures Terminated([l] + tail) + p == text
  {
    assert ([l] + tail)[1..] == tail;
    var t := Terminated(tail);
    assert Terminated([l] + tail) == l + "\n" + t;
    assert (l + "\n" + t) + p == (l + "\n") + (t + p);
  }

  lemma NewlineSplit(text: string, nl: nat)
    requires nl == IndexOf(text, '\n')
    ensures text == text[..nl] + "\n" + text[nl + 1..]
  {
    assert text == text[..nl] + [text[nl]] + text[nl + 1..];
  }

  /** The inner loop of the generator: cut complete lines off the buffer,
      one at a time, until none is left or a line ends the stream. */
  method Drain(text: string, classify: string -> LineResult) returns (events: seq<Event>, stop: bool, rest: string)
    ensures Outcome(events, stop) == Decode(text, classify)
    ensures !stop ==> rest == Pending(text) && '\n' !in rest
  {
    var buf := text;
    events, stop := [], false;
    var nl := IndexOf(buf, '\n');
    while nl != -1
      invariant nl == IndexOf(buf, '\n')
      invariant Decode(text, classify) == Prepend(events, Decode(buf, classify))
      invariant Pending(text) == Pending(buf)
      decreases |buf|
    {
      ReadLine(text, events, buf, nl, classify);
      var line := Trim(buf[..nl]);
      buf := buf[nl + 1..];
      var r := classify(line);
      if r.Stop? {
        return events, true, buf;
      }
      if r.Emit? {
        events := events + [r.event];
      }
      nl := IndexOf(buf, '\n');
    }
    IndexOfFirst(buf, '\n');
    LinesNoNewline(buf);
    DecodeNoNewline(buf, classify);
    assert events + [] == events;
    rest := buf;
  }

  /** The buffered decoder of one streaming call. */
  class StreamDecoder {
    /** The switch applied to each trimmed line (`Classifier(parse)` in the
        source). */
    const classify: string -> LineResult
    /** Text received but not yet cut into lines. */
    var buffer: string
    /** Set once the generator has returned on the legacy sentinel. */
    var stopped: bool

    /** Between reads the buffer holds at most one partial line. */
    predicate Valid()
      reads this
    {
      !stopped ==> '\n' !in buffer
    }

    constructor (classify: string -> LineResult)
      ensures Valid() && this.classify == classify
      ensures buffer == "" && !stopped
    {
      this.classify := classify;
      buffer := "";
      stopped := false;
    }

    /** One read: append the chunk, then cut, trim and classify every
        complete line in the buffer. What it yields is what `Decode` says the
        buffered text plus the chunk yields; what it keeps is the unfinished
        last line. */
    method Feed(chunk: string) returns (events: seq<Event>, stop: bool)
      requires Valid() && !stopped
      modifies this
      ensures Valid() && stop == stopped
      ensures Outcome(events, stop) == Decode(old(buffer) + chunk, classify)
      ensures !stop ==> buffer == Pending(old(buffer) + chunk)
    {
      var rest;
      events, stop, rest := Drain(buffer + chunk, classify);
      buffer, stopped := rest, stop;
    }
  }
}
