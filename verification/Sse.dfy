/**
 Server-sent events as the chat screen and the model gateway read them: text arrives cut
 into arbitrary chunks, and only complete lines are consumed. This is the part of section
 9.2.6 of the WHATWG HTML standard the two readers use: `data:` lines, anything else skipped.
 */
module Sse {
  import opened Wrappers
  import opened Sequences

  // ---- Lines ----

  predicate IsSpace(c: char) {
    || '\U{0009}' <= c <= '\U{000D}' || c == ' ' || c == '\U{00A0}' || c == '\U{1680}'
    || '\U{2000}' <= c <= '\U{200A}' || c == '\U{2028}' || c == '\U{2029}' || c == '\U{202F}'
    || c == '\U{205F}' || c == '\U{3000}' || c == '\U{FEFF}'
  }

  function TrimStart(s: string): string {
    if s != "" && IsSpace(s[0]) then TrimStart(s[1..]) else s
  }

  function TrimEnd(s: string): string {
    if s != "" && IsSpace(s[|s| - 1]) then TrimEnd(s[..|s| - 1]) else s
  }

  function Trim(s: string): string { TrimEnd(TrimStart(s)) }

  /** `indexOf('\n')`. */
  function IndexOfNewline(s: string): (i: int)
    ensures -1 <= i < |s|
    ensures i >= 0 ==> s[i] == '\n' && '\n' !in s[..i]
    ensures i == -1 ==> '\n' !in s
  {
    if s == "" then -1
    else if s[0] == '\n' then 0
    else
      var i := IndexOfNewline(s[1..]);
      assert i >= 0 ==> s[..i + 1] == [s[0]] + s[1..][..i];
      if i == -1 then -1 else i + 1
  }

  /** The complete lines of a text, character by character. */
  function Lines(s: string): seq<string> {
    if s == "" then []
    else
      var front := s[..|s| - 1];
      if s[|s| - 1] == '\n' then Lines(front) + [Rest(front)] else Lines(front)
  }

  /** What comes after the last complete line. */
  function Rest(s: string): string {
    if s == "" || s[|s| - 1] == '\n' then "" else Rest(s[..|s| - 1]) + [s[|s| - 1]]
  }

  /** The payload of a `data:` line. */
  function DataOf(line: string): Option<string> {
    var trimmed := Trim(line);
    if "data:" <= trimmed then Some(Trim(trimmed[5..])) else None
  }

  function Concat(chunks: seq<string>): string {
    if chunks == [] then "" else Concat(chunks[..|chunks| - 1]) + chunks[|chunks| - 1]
  }

  // ---- What a reader makes of the lines ----

  /** What a line does to a reader: nothing, one more event, or the end of reading. */
  datatype Act<+T> = Skip | Emit(event: T) | Stop

  datatype Reading<T> = Reading(events: seq<T>, stopped: bool)

  /** What one line does to the reading of the lines after it. */
  function Acted<T>(done: Act<T>, r: Reading<T>): Reading<T> {
    match done
    case Skip => r
    case Emit(e) => Reading([e] + r.events, r.stopped)
    case Stop => Reading([], true)
  }

  function Read<T>(lines: seq<string>, act: string -> Act<T>): Reading<T> {
    if lines == [] then Reading([], false) else Acted(act(lines[0]), Read(lines[1..], act))
  }

  /** The chat screen: a payload that does not parse throws; an empty one or `{}` is no event. */
  function ScreenLine<T>(line: string, parse: string -> Option<T>): Act<T> {
    var data := DataOf(line).GetOr("");
    if data == "" || data == "{}" then Skip
    else
      match parse(data)
      case None => Stop
      case Some(e) => Emit(e)
  }

  /** The model gateway: the payloads themselves, up to the end marker. */
  function GatewayLine(line: string): Act<string> {
    var data := DataOf(line).GetOr("");
    if data == "" then Skip else if data == "[DONE]" then Stop else Emit(data)
  }

  function ScreenAct<T>(parse: string -> Option<T>): string -> Act<T> {
    (line: string) => ScreenLine(line, parse)
  }

  // ---- Cutting a text anywhere ----

  /** The lines of a text are those of its first part, then those of the unfinished line and the second. */
  ghost predicate CutsAt(a: string, b: string) {
    && Lines(a + b) == Lines(a) + Lines(Rest(a) + b)
    && Rest(a + b) == Rest(Rest(a) + b)
  }

  lemma {:induction false} CutsLater(a: string, b: string, c: char)
    requires CutsAt(a, b)
    ensures CutsAt(a, b + [c])
  {
    var x, y := a + b, Rest(a) + b;
    LinesSnoc(x, c);
    LinesSnoc(y, c);
    Associative(a, b, [c]);
    Associative(Rest(a), b, [c]);
    Associative(Lines(a), Lines(y), [Rest(y)]);
  }

  lemma {:induction false} LinesConcat(a: string, b: string)
    ensures CutsAt(a, b)
  {
    if b == "" {
      assert a + b == a && Rest(a) + b == Rest(a);
      NoNewline(a);
    } else {
      LinesConcat(a, b[..|b| - 1]);
      CutsLater(a, b[..|b| - 1], b[|b| - 1]);
      assert b == b[..|b| - 1] + [b[|b| - 1]];
    }
  }

  lemma {:induction false} LinesSnoc(s: string, c: char)
    ensures Lines(s + [c]) == if c == '\n' then Lines(s) + [Rest(s)] else Lines(s)
    ensures Rest(s + [c]) == if c == '\n' then "" else Rest(s) + [c]
  {
    assert (s + [c])[..|s|] == s;
  }

  lemma {:induction false} NoNewline(s: string)
    ensures '\n' !in Rest(s)
    ensures '\n' !in s ==> Lines(s) == [] && Rest(s) == s
    ensures Lines(Rest(s)) == [] && Rest(Rest(s)) == Rest(s)
  {
    if s != "" {
      var front, c := s[..|s| - 1], s[|s| - 1];
      NoNewline(front);
      assert s == front + [c];
      if c != '\n' { LinesSnoc(Rest(front), c); }
    }
  }

  lemma {:induction false} FirstLine(line: string, more: string)
    requires '\n' !in line
    ensures Lines(line + "\n" + more) == [line] + Lines(more)
    ensures Rest(line + "\n" + more) == Rest(more)
  {
    NoNewline(line);
    LinesSnoc(line, '\n');
    LinesConcat(line + "\n", more);
    assert "" + more == more;
  }

  /** Reading a stretch of lines and then more. */
  lemma {:induction false} ReadConcat<T>(a: seq<string>, b: seq<string>, act: string -> Act<T>)
    ensures var r, r' := Read(a, act), Read(b, act);
      Read(a + b, act) == if r.stopped then r else Reading(r.events + r'.events, r'.stopped)
  {
    if a == [] {
      assert a + b == b;
    } else {
      assert (a + b)[1..] == a[1..] + b;
      ReadConcat(a[1..], b, act);
    }
  }

  /** One more chunk is read from the buffer it leaves behind the text before it. */
  lemma {:induction false} ReadChunk<T>(text: string, chunk: string, act: string -> Act<T>)
    ensures var r, r' := Read(Lines(text), act), Read(Lines(Rest(text) + chunk), act);
      Read(Lines(text + chunk), act) == if r.stopped then r else Reading(r.events + r'.events, r'.stopped)
  {
    LinesConcat(text, chunk);
    ReadConcat(Lines(text), Lines(Rest(text) + chunk), act);
  }

  /** A reading that stopped within the first chunks is the reading of all of them. */
  lemma {:induction false} ReadCut<T>(chunks: seq<string>, n: nat, act: string -> Act<T>)
    requires n <= |chunks| && Read(Lines(Concat(chunks[..n])), act).stopped
    ensures Read(Lines(Concat(chunks)), act) == Read(Lines(Concat(chunks[..n])), act)
    decreases |chunks|
  {
    if n == |chunks| {
      assert chunks[..n] == chunks;
    } else {
      var front, last := chunks[..|chunks| - 1], chunks[|chunks| - 1];
      assert front[..n] == chunks[..n];
      ReadCut(front, n, act);
      ReadChunk(Concat(front), last, act);
    }
  }

  lemma {:induction false} ReadLine<T>(line: string, more: string, act: string -> Act<T>)
    requires '\n' !in line
    ensures Read(Lines(line + "\n" + more), act) == Acted(act(line), Read(Lines(more), act))
    ensures Rest(line + "\n" + more) == Rest(more)
  {
    FirstLine(line, more);
    assert ([line] + Lines(more))[1..] == Lines(more);
  }

  lemma {:induction false} AtNewline(s: string, i: nat)
    requires i < |s| && s[i] == '\n'
    ensures s == s[..i] + "\n" + s[i + 1..]
  {}

  // ---- The buffer loops ----

  /** Consumes the buffer up to its last complete line, or to the line that stops the reading. */
  method ConsumeLines<T>(buffer: string, act: string -> Act<T>) returns (rest: string, events: seq<T>, stopped: bool)
    ensures Reading(events, stopped) == Read(Lines(buffer), act)
    ensures !stopped ==> rest == Rest(buffer)
  {
    rest, events, stopped := buffer, [], false;
    var newline := IndexOfNewline(rest);
    while newline != -1
      invariant newline == IndexOfNewline(rest) && !stopped
      invariant Rest(buffer) == Rest(rest)
      invariant Read(Lines(buffer), act) == Before(events, Read(Lines(rest), act))
      decreases |rest|
    {
      var done := act(rest[..newline]);
      AtNewline(rest, newline);
      ReadLine(rest[..newline], rest[newline + 1..], act);
      rest := rest[newline + 1..];
      newline := IndexOfNewline(rest);
      match done {
        case Skip =>
        case Emit(e) =>
          Associative(events, [e], Read(Lines(rest), act).events);
          events := events + [e];
        case Stop =>
          stopped := true;
          return;
      }
    }
    NoNewline(rest);
  }

  function Before<T>(events: seq<T>, r: Reading<T>): Reading<T> { Reading(events + r.events, r.stopped) }

  /** The loop of both readers: what it emits depends on the text, not on how it was cut. */
  method ReadChunks<T>(chunks: seq<string>, act: string -> Act<T>) returns (events: seq<T>, stopped: bool)
    ensures Reading(events, stopped) == Read(Lines(Concat(chunks)), act)
  {
    var buffer := "";
    events, stopped := [], false;
    var i := 0;
    while i < |chunks|
      invariant 0 <= i <= |chunks|
      invariant !stopped && buffer == Rest(Concat(chunks[..i]))
      invariant Reading(events, false) == Read(Lines(Concat(chunks[..i])), act)
    {
      assert chunks[..i + 1][..i] == chunks[..i];
      LinesConcat(Concat(chunks[..i]), chunks[i]);
      ReadChunk(Concat(chunks[..i]), chunks[i], act);
      buffer := buffer + chunks[i];
      var more;
      buffer, more, stopped := ConsumeLines(buffer, act);
      events := events + more;
      if stopped {
        ReadCut(chunks, i + 1, act);
        return;
      }
      i := i + 1;
    }
    assert chunks[..|chunks|] == chunks;
  }

  method StreamSse<T>(chunks: seq<string>, parse: string -> Option<T>) returns (events: seq<T>, failed: bool)
    ensures Reading(events, failed) == Read(Lines(Concat(chunks)), ScreenAct(parse))
  {
    events, failed := ReadChunks(chunks, ScreenAct(parse));
  }

  method ReadServerSentEvents(chunks: seq<string>) returns (payloads: seq<string>, done: bool)
    ensures Reading(payloads, done) == Read(Lines(Concat(chunks)), GatewayLine)
  {
    payloads, done := ReadChunks(chunks, GatewayLine);
  }

  // ---- What the server writes ----

  function Frame(payload: string): string { "data: " + payload + "\n\n" }

  /** A frame for every event, and then `tail`. */
  function Frames<T>(events: seq<T>, stringify: T -> string, tail: string): string {
    if events == [] then tail else Frame(stringify(events[0])) + Frames(events[1..], stringify, tail)
  }

  /** How the server closes a stream that went well. */
  function Closing(): string { "event: done\n" + Frame("{}") }

  /** One line of text with something in it and no blanks around it, as JSON of an object is. */
  predicate Compact(s: string) {
    s != "" && '\n' !in s && !IsSpace(s[0]) && !IsSpace(s[|s| - 1])
  }

  lemma {:induction false} TrimSame(line: string)
    requires line != "" && !IsSpace(line[0]) && !IsSpace(line[|line| - 1])
    ensures Trim(line) == line
  {}

  lemma {:induction false} DataLine(payload: string)
    requires Compact(payload)
    ensures DataOf("data: " + payload) == Some(payload)
  {
    var line := "data: " + payload;
    assert line[|line| - 1] == payload[|payload| - 1] && line[0] == 'd';
    TrimSame(line);
    assert line[5..] == " " + payload;
    assert (" " + payload)[1..] == payload;
    TrimSame(payload);
    assert "data:" <= line;
  }

  lemma {:induction false} ReadFrame<T>(payload: string, more: string, act: string -> Act<T>)
    requires Compact(payload) && act("") == Skip
    ensures Read(Lines(Frame(payload) + more), act) == Acted(act("data: " + payload), Read(Lines(more), act))
  {
    var line := "data: " + payload;
    assert '\n' !in line;
    assert Frame(payload) + more == line + "\n" + ("" + "\n" + more);
    ReadLine(line, "" + "\n" + more, act);
    ReadLine("", more, act);
  }

  /** Frames are read one by one, and then what follows them. */
  lemma {:induction false} ReadFrames<T>(events: seq<T>, stringify: T -> string, tail: string, act: string -> Act<T>)
    requires act("") == Skip
    requires forall e :: e in events ==> Compact(stringify(e)) && act("data: " + stringify(e)) == Emit(e)
    ensures Read(Lines(Frames(events, stringify, tail)), act) == Before(events, Read(Lines(tail), act))
  {
    var r := Read(Lines(tail), act);
    if events == [] {
      assert events + r.events == r.events;
    } else {
      var e, later := events[0], events[1..];
      assert e in events;
      ReadFrames(later, stringify, tail, act);
      ReadFrame(stringify(e), Frames(later, stringify, tail), act);
      Associative([e], later, r.events);
      assert [e] + later == events;
    }
  }

  lemma {:induction false} DataOfEmpty()
    ensures DataOf("").None? && DataOf("event: done").None?
  {
    TrimSame("event: done");
    assert "event: done"[0] == 'e' && "data:"[0] == 'd';
  }

  lemma {:induction false} ScreenOn<T>(payload: string, parse: string -> Option<T>)
    requires Compact(payload)
    ensures ScreenAct(parse)("") == Skip && ScreenAct(parse)("event: done") == Skip
    ensures ScreenAct(parse)("data: " + payload) ==
      if payload == "{}" then Skip else if parse(payload).None? then Stop else Emit(parse(payload).value)
  {
    DataOfEmpty();
    DataLine(payload);
  }

  lemma {:induction false} GatewayOn(payload: string)
    requires Compact(payload)
    ensures GatewayLine("") == Skip
    ensures GatewayLine("data: " + payload) == if payload == "[DONE]" then Stop else Emit(payload)
  {
    DataOfEmpty();
    DataLine(payload);
  }

  /** The closing frame emits nothing. */
  lemma {:induction false} ClosingSilent<T>(parse: string -> Option<T>)
    ensures Read(Lines(Closing()), ScreenAct(parse)) == Reading([], false)
  {
    var act := ScreenAct(parse);
    ScreenOn("{}", parse);
    ReadFrame("{}", "", act);
    assert Frame("{}") + "" == Frame("{}");
    var name := "event: done";
    assert Closing() == name + "\n" + Frame("{}");
    ReadLine(name, Frame("{}"), act);
  }

  /** What the screen reads of a stream the server finished is the list of events it wrote. */
  lemma {:induction false} RoundTrip<T>(events: seq<T>, stringify: T -> string, parse: string -> Option<T>)
    requires forall e :: e in events ==>
      Compact(stringify(e)) && stringify(e) != "{}" && parse(stringify(e)) == Some(e)
    ensures Read(Lines(Frames(events, stringify, Closing())), ScreenAct(parse)) == Reading(events, false)
  {
    forall e | e in events ensures ScreenAct(parse)("data: " + stringify(e)) == Emit(e) {
      ScreenOn(stringify(e), parse);
    }
    ScreenOn("{}", parse);
    ReadFrames(events, stringify, Closing(), ScreenAct(parse));
    ClosingSilent(parse);
  }

  /** The gateway reads the payloads before the end marker and nothing after it. */
  lemma {:induction false} PayloadRoundTrip(payloads: seq<string>, after: string)
    requires forall p :: p in payloads ==> Compact(p) && p != "[DONE]"
    ensures Read(Lines(Frames(payloads, (p: string) => p, Frame("[DONE]") + after)), GatewayLine)
         == Reading(payloads, true)
  {
    forall p | p in payloads ensures GatewayLine("data: " + p) == Emit(p) {
      GatewayOn(p);
    }
    GatewayOn("[DONE]");
    ReadFrames(payloads, (p: string) => p, Frame("[DONE]") + after, GatewayLine);
    ReadFrame("[DONE]", after, GatewayLine);
  }

  /** A payload that does not parse ends the screen's reading where it is, with the events before it. */
  lemma {:induction false} BadPayloadStops<T>(
      events: seq<T>, stringify: T -> string, parse: string -> Option<T>, bad: string, after: string)
    requires forall e :: e in events ==>
      Compact(stringify(e)) && stringify(e) != "{}" && parse(stringify(e)) == Some(e)
    requires Compact(bad) && bad != "{}" && parse(bad) == None
    ensures Read(Lines(Frames(events, stringify, Frame(bad) + after)), ScreenAct(parse)) == Reading(events, true)
  {
    forall e | e in events ensures ScreenAct(parse)("data: " + stringify(e)) == Emit(e) {
      ScreenOn(stringify(e), parse);
    }
    ScreenOn(bad, parse);
    ReadFrames(events, stringify, Frame(bad) + after, ScreenAct(parse));
    ReadFrame(bad, after, ScreenAct(parse));
    assert events + [] == events;
  }

  /** Lines may end in a carriage return: it is no part of the payload. */
  lemma {:induction false} CarriageReturn(payload: string)
    requires Compact(payload)
    ensures DataOf("data: " + payload + "\r") == DataOf("data: " + payload)
  {
    var line := "data: " + payload;
    assert (line + "\r")[..|line|] == line;
    assert line[0] == 'd' && line[|line| - 1] == payload[|payload| - 1];
    TrimSame(line);
    assert TrimStart(line + "\r") == line + "\r";
    assert TrimEnd(line + "\r") == TrimEnd(line);
  }
}
