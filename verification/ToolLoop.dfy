/**
 The agent loop: a model streams text and fragments of tool calls, the loop runs the calls
 and sends their results back, for a bounded number of rounds; the chat screen folds the
 events it emits. What the model streams and what the tools do is arbitrary.
 */
module ToolLoop {
  import opened Wrappers
  import Money

  /** A parsed tool input. */
  type Json = nat

  /** A fragment of a tool call; "" where a field is absent. */
  datatype Delta = Delta(index: int, id: string, name: string, arguments: string)

  datatype Chunk = Chunk(text: string, deltas: seq<Delta>)

  /** One model answer; the connection may break after its last chunk. */
  datatype Reply = Reply(chunks: seq<Chunk>, breaks: bool)

  datatype Call = Call(id: string, name: string, arguments: string)

  datatype Indexed = Indexed(index: int, call: Call)

  datatype Message =
    | Plain(content: string)
    | Assistant(text: Option<string>, calls: seq<Call>)
    | ToolResult(callId: string, output: string)

  datatype Event =
    | Text(delta: string)
    | ToolStart(callId: string, name: string, input: Json)
    | ToolEnd(callId: string, name: string, ok: bool, durationMs: int)
    | Error(message: string)

  /** What a tool did. `output` is None when its result has no JSON form at all. */
  datatype ToolOutcome = ToolOutcome(ok: bool, output: Option<string>, elapsedMs: int)

  /** The registered tools, how they answer the k-th call of a round, and the argument parser. */
  datatype World = World(known: set<string>, invoke: (nat, nat) -> ToolOutcome, parse: string -> Json)

  /** The record kept of a call that ran. */
  datatype Record = Record(callId: string, name: string, ok: bool, durationMs: int)

  const MAX_TOOL_RESULT_CHARS: nat := 8000

  // ---- Assembling calls from fragments ----

  function OrElse(s: string, other: string): string { if s != "" then s else other }

  function Merge(c: Call, d: Delta): Call {
    Call(OrElse(d.id, c.id), OrElse(d.name, c.name), c.arguments + d.arguments)
  }

  const NO_CALL := Call("", "", "")

  /** `calls.get(index) ?? empty`, changed, and set again: a JS map keeps the order of first insertion. */
  function Upsert(calls: seq<Indexed>, d: Delta): seq<Indexed> {
    if calls == [] then [Indexed(d.index, Merge(NO_CALL, d))]
    else if calls[0].index == d.index then [Indexed(d.index, Merge(calls[0].call, d))] + calls[1..]
    else [calls[0]] + Upsert(calls[1..], d)
  }

  function OfIndex(deltas: seq<Delta>, index: int): seq<Delta> {
    if deltas == [] then []
    else
      var d := deltas[|deltas| - 1];
      OfIndex(deltas[..|deltas| - 1], index) + (if d.index == index then [d] else [])
  }

  /** The indices of the fragments, in order of first appearance. */
  function FirstSeen(deltas: seq<Delta>): seq<int> {
    if deltas == [] then []
    else
      var before := FirstSeen(deltas[..|deltas| - 1]);
      var index := deltas[|deltas| - 1].index;
      if index in before then before else before + [index]
  }

  /** One call's own fragments put together. */
  function Joined(deltas: seq<Delta>): Call {
    if deltas == [] then NO_CALL else Merge(Joined(deltas[..|deltas| - 1]), deltas[|deltas| - 1])
  }

  /** One index on its own, whatever came between its fragments. */
  function Entry(deltas: seq<Delta>, index: int): Indexed { Indexed(index, Joined(OfIndex(deltas, index))) }

  function Entries(deltas: seq<Delta>, indices: seq<int>): seq<Indexed> {
    seq(|indices|, i requires 0 <= i < |indices| => Entry(deltas, indices[i]))
  }

  function Assembled(deltas: seq<Delta>): seq<Indexed> { Entries(deltas, FirstSeen(deltas)) }

  predicate Distinct<T(==)>(xs: seq<T>) {
    forall i, j :: 0 <= i < j < |xs| ==> xs[i] != xs[j]
  }

  lemma {:induction false} FirstSeenAre(deltas: seq<Delta>)
    ensures Distinct(FirstSeen(deltas))
    ensures forall i :: i in FirstSeen(deltas) <==> OfIndex(deltas, i) != []
  {
    if deltas != [] { FirstSeenAre(deltas[..|deltas| - 1]); }
  }

  lemma {:induction false} UpsertAt(calls: seq<Indexed>, d: Delta, p: nat)
    requires p < |calls| && calls[p].index == d.index
    requires forall i :: 0 <= i < p ==> calls[i].index != d.index
    ensures Upsert(calls, d) == calls[p := Indexed(d.index, Merge(calls[p].call, d))]
  {
    if p > 0 {
      UpsertAt(calls[1..], d, p - 1);
      assert calls == [calls[0]] + calls[1..];
    }
  }

  lemma {:induction false} UpsertNew(calls: seq<Indexed>, d: Delta)
    requires forall i :: 0 <= i < |calls| ==> calls[i].index != d.index
    ensures Upsert(calls, d) == calls + [Indexed(d.index, Merge(NO_CALL, d))]
  {
    if calls != [] {
      UpsertNew(calls[1..], d);
      assert calls == [calls[0]] + calls[1..];
    }
  }

  lemma {:induction false} OfIndexSnoc(deltas: seq<Delta>, d: Delta, index: int)
    ensures OfIndex(deltas + [d], index) == OfIndex(deltas, index) + (if d.index == index then [d] else [])
  {
    assert (deltas + [d])[..|deltas|] == deltas;
  }

  lemma {:induction false} EntrySnoc(deltas: seq<Delta>, d: Delta, index: int)
    ensures Entry(deltas + [d], index) ==
      if d.index == index then Indexed(index, Merge(Entry(deltas, index).call, d)) else Entry(deltas, index)
  {
    OfIndexSnoc(deltas, d, index);
    JoinedSnoc(OfIndex(deltas, index), d);
    assert OfIndex(deltas, index) + [] == OfIndex(deltas, index);
  }

  lemma {:induction false} AssembledAgain(deltas: seq<Delta>, d: Delta, p: nat)
    requires p < |FirstSeen(deltas)| && FirstSeen(deltas)[p] == d.index
    ensures Upsert(Assembled(deltas), d) == Assembled(deltas + [d])
  {
    var all, indices := deltas + [d], FirstSeen(deltas);
    assert all[..|all| - 1] == deltas;
    FirstSeenAre(deltas);
    UpsertAt(Assembled(deltas), d, p);
    forall i | 0 <= i < |indices| ensures Entries(all, indices)[i] == Upsert(Assembled(deltas), d)[i] {
      EntrySnoc(deltas, d, indices[i]);
    }
    assert Entries(all, indices) == Upsert(Assembled(deltas), d);
  }

  lemma {:induction false} AssembledFirst(deltas: seq<Delta>, d: Delta)
    requires d.index !in FirstSeen(deltas)
    ensures Upsert(Assembled(deltas), d) == Assembled(deltas + [d])
  {
    FirstSeenSnoc(deltas, d);
    FirstSeenAre(deltas);
    UpsertNew(Assembled(deltas), d);
    EntrySnoc(deltas, d, d.index);
    EntriesSnoc(deltas, d, FirstSeen(deltas));
  }

  lemma {:induction false} FirstSeenSnoc(deltas: seq<Delta>, d: Delta)
    ensures FirstSeen(deltas + [d]) == FirstSeen(deltas) + (if d.index in FirstSeen(deltas) then [] else [d.index])
  {
    assert (deltas + [d])[..|deltas|] == deltas;
  }

  lemma {:induction false} EntriesSnoc(deltas: seq<Delta>, d: Delta, indices: seq<int>)
    requires d.index !in indices
    ensures Entries(deltas + [d], indices + [d.index]) == Entries(deltas, indices) + [Entry(deltas + [d], d.index)]
  {
    forall i | 0 <= i < |indices| ensures Entry(deltas + [d], indices[i]) == Entry(deltas, indices[i]) {
      EntrySnoc(deltas, d, indices[i]);
    }
  }

  lemma {:induction false} AssembledSnoc(deltas: seq<Delta>, d: Delta)
    ensures Upsert(Assembled(deltas), d) == Assembled(deltas + [d])
  {
    if d.index in FirstSeen(deltas) {
      var p :| 0 <= p < |FirstSeen(deltas)| && FirstSeen(deltas)[p] == d.index;
      AssembledAgain(deltas, d, p);
    } else {
      AssembledFirst(deltas, d);
    }
  }

  lemma {:induction false} JoinedSnoc(deltas: seq<Delta>, d: Delta)
    ensures Joined(deltas + [d]) == Merge(Joined(deltas), d)
  {
    assert (deltas + [d])[..|deltas|] == deltas;
  }

  function Deltas(chunks: seq<Chunk>): seq<Delta> {
    if chunks == [] then [] else Deltas(chunks[..|chunks| - 1]) + chunks[|chunks| - 1].deltas
  }

  function Texts(chunks: seq<Chunk>): string {
    if chunks == [] then "" else Texts(chunks[..|chunks| - 1]) + chunks[|chunks| - 1].text
  }

  /** The text as it is passed on: one event for every chunk that has some. */
  function Streamed(chunks: seq<Chunk>): seq<Event> {
    if chunks == [] then []
    else
      var text := chunks[|chunks| - 1].text;
      Streamed(chunks[..|chunks| - 1]) + (if text != "" then [Text(text)] else [])
  }

  lemma {:induction false} PrefixSnoc(before: seq<Delta>, deltas: seq<Delta>, j: nat)
    requires j < |deltas|
    ensures before + deltas[..j] + [deltas[j]] == before + deltas[..j + 1]
  {}

  lemma {:induction false} AddNext(before: seq<Delta>, deltas: seq<Delta>, j: nat)
    requires j < |deltas|
    ensures Upsert(Assembled(before + deltas[..j]), deltas[j]) == Assembled(before + deltas[..j + 1])
  {
    PrefixSnoc(before, deltas, j);
    AssembledSnoc(before + deltas[..j], deltas[j]);
  }

  /** The fragments of one chunk, after those seen `before`. */
  method AddDeltas(sofar: seq<Indexed>, deltas: seq<Delta>, ghost before: seq<Delta>) returns (calls: seq<Indexed>)
    requires sofar == Assembled(before)
    ensures calls == Assembled(before + deltas)
  {
    calls := sofar;
    var j := 0;
    assert before + deltas[..0] == before;
    while j < |deltas|
      invariant 0 <= j <= |deltas|
      invariant calls == Assembled(before + deltas[..j])
    {
      AddNext(before, deltas, j);
      calls := Upsert(calls, deltas[j]);
      j := j + 1;
    }
    assert deltas[..j] == deltas;
  }

  /** One streamed answer: its text is passed on as it comes, its calls are put together. */
  method Assemble(chunks: seq<Chunk>) returns (text: string, calls: seq<Indexed>, events: seq<Event>)
    ensures text == Texts(chunks) && calls == Assembled(Deltas(chunks)) && events == Streamed(chunks)
  {
    text, calls, events := "", [], [];
    var i := 0;
    while i < |chunks|
      invariant 0 <= i <= |chunks|
      invariant text == Texts(chunks[..i]) && calls == Assembled(Deltas(chunks[..i])) && events == Streamed(chunks[..i])
    {
      var chunk := chunks[i];
      assert chunks[..i + 1][..i] == chunks[..i];
      if chunk.text != "" {
        text := text + chunk.text;
        events := events + [Text(chunk.text)];
      }
      calls := AddDeltas(calls, chunk.deltas, Deltas(chunks[..i]));
      i := i + 1;
    }
    assert chunks[..|chunks|] == chunks;
  }

  /** Fragments that spell a call: its id and name where they appear at all, its arguments in pieces. */
  predicate Spells(deltas: seq<Delta>, c: Call) {
    && (forall d :: d in deltas ==> d.id in {"", c.id} && d.name in {"", c.name})
    && (c.id != "" ==> exists d :: d in deltas && d.id == c.id)
    && (c.name != "" ==> exists d :: d in deltas && d.name == c.name)
    && Arguments(deltas) == c.arguments
  }

  function Arguments(deltas: seq<Delta>): string {
    if deltas == [] then "" else Arguments(deltas[..|deltas| - 1]) + deltas[|deltas| - 1].arguments
  }

  lemma {:induction false} JoinedFields(deltas: seq<Delta>, id: string, name: string)
    requires forall d :: d in deltas ==> d.id in {"", id} && d.name in {"", name}
    ensures Joined(deltas).id == (if exists d :: d in deltas && d.id == id then id else "")
    ensures Joined(deltas).name == (if exists d :: d in deltas && d.name == name then name else "")
    ensures Joined(deltas).arguments == Arguments(deltas)
  {
    if deltas != [] {
      var front, last := deltas[..|deltas| - 1], deltas[|deltas| - 1];
      assert deltas == front + [last];
      JoinedFields(front, id, name);
    }
  }

  lemma {:induction false} SeenIsAssembled(deltas: seq<Delta>, d: Delta)
    requires d in deltas
    ensures exists c :: c in Assembled(deltas) && c.index == d.index
  {
    EverySeen(deltas, d);
    var p :| 0 <= p < |FirstSeen(deltas)| && FirstSeen(deltas)[p] == d.index;
    assert Assembled(deltas)[p] in Assembled(deltas) && Assembled(deltas)[p].index == d.index;
  }

  lemma {:induction false} EverySeen(deltas: seq<Delta>, d: Delta)
    requires d in deltas
    ensures d.index in FirstSeen(deltas)
  {
    var front, last := deltas[..|deltas| - 1], deltas[|deltas| - 1];
    assert deltas == front + [last];
    if d in front { EverySeen(front, d); }
  }

  lemma {:induction false} AssembledOnce(deltas: seq<Delta>)
    ensures forall i, j :: 0 <= i < j < |Assembled(deltas)| ==> Assembled(deltas)[i].index != Assembled(deltas)[j].index
  {
    FirstSeenAre(deltas);
  }

  lemma {:induction false} EntryAsMeant(deltas: seq<Delta>, index: int, meant: Call)
    requires Spells(OfIndex(deltas, index), meant)
    ensures Entry(deltas, index).call == meant
  {
    JoinedFields(OfIndex(deltas, index), meant.id, meant.name);
  }

  /** However the fragments of several calls interleave, each call comes out once, and as it was meant. */
  lemma {:induction false} FragmentsAssemble(deltas: seq<Delta>, meant: map<int, Call>)
    requires forall i :: i in FirstSeen(deltas) ==> i in meant && Spells(OfIndex(deltas, i), meant[i])
    ensures forall c :: c in Assembled(deltas) ==> c.index in meant && c.call == meant[c.index]
    ensures forall i, j :: 0 <= i < j < |Assembled(deltas)| ==> Assembled(deltas)[i].index != Assembled(deltas)[j].index
    ensures forall d :: d in deltas ==> exists c :: c in Assembled(deltas) && c.index == d.index
  {
    AssembledOnce(deltas);
    forall c | c in Assembled(deltas) ensures c.index in meant && c.call == meant[c.index] {
      assert c.index in FirstSeen(deltas);
      EntryAsMeant(deltas, c.index, meant[c.index]);
    }
    forall d | d in deltas ensures exists c :: c in Assembled(deltas) && c.index == d.index {
      SeenIsAssembled(deltas, d);
    }
  }

  /** The named ones, in order of first appearance. */
  function Named(meant: int -> Call, indices: seq<int>): seq<Call> {
    if indices == [] then []
    else (if meant(indices[0]).name != "" then [meant(indices[0])] else []) + Named(meant, indices[1..])
  }

  lemma {:induction false} RequestedNames(calls: seq<Indexed>, meant: int -> Call, indices: seq<int>)
    requires |calls| == |indices|
    requires forall i :: 0 <= i < |calls| ==> calls[i] == Indexed(indices[i], meant(indices[i]))
    ensures Requested(calls) == Named(meant, indices)
  {
    if calls != [] { RequestedNames(calls[1..], meant, indices[1..]); }
  }

  /** What a reply asks for is every call its fragments spell that has a name, once, in order of first appearance. */
  lemma {:induction false} WantedAsMeant(reply: Reply, meant: int -> Call)
    requires var deltas := Deltas(reply.chunks);
      forall i :: i in FirstSeen(deltas) ==> Spells(OfIndex(deltas, i), meant(i))
    ensures Wanted(reply) == Named(meant, FirstSeen(Deltas(reply.chunks)))
  {
    var deltas := Deltas(reply.chunks);
    var indices := FirstSeen(deltas);
    forall i | 0 <= i < |indices| ensures Assembled(deltas)[i] == Indexed(indices[i], meant(indices[i])) {
      var index := indices[i];
      assert index in indices;
      EntryAsMeant(deltas, index, meant(index));
    }
    RequestedNames(Assembled(deltas), meant, indices);
  }

  // ---- Running the calls of one round ----

  function Requested(calls: seq<Indexed>): seq<Call> {
    if calls == [] then []
    else (if calls[0].call.name != "" then [calls[0].call] else []) + Requested(calls[1..])
  }

  function ToToolCall(c: Call): Call { c.(arguments := OrElse(c.arguments, "{}")) }

  function ToolCalls(calls: seq<Call>): seq<Call> {
    seq(|calls|, i requires 0 <= i < |calls| => ToToolCall(calls[i]))
  }

  function CallId(c: Call, round: nat): string { OrElse(c.id, c.name + "-" + Money.Print(round)) }

  function OutcomeOf(c: Call, w: World, round: nat, k: nat): ToolOutcome {
    if c.name in w.known then w.invoke(round, k) else ToolOutcome(false, Some("Unknown tool \"" + c.name + "\"."), 0)
  }

  function Capped(s: string): string {
    if |s| > MAX_TOOL_RESULT_CHARS then s[..MAX_TOOL_RESULT_CHARS] else s
  }

  function Duration(elapsedMs: int): int { if elapsedMs > 1 then elapsedMs else 1 }

  function Started(c: Call, w: World, round: nat): Event {
    ToolStart(CallId(c, round), c.name, w.parse(c.arguments))
  }

  function Ended(c: Call, w: World, round: nat, k: nat): Event {
    var o := OutcomeOf(c, w, round, k);
    ToolEnd(CallId(c, round), c.name, o.ok, Duration(o.elapsedMs))
  }

  /** The message that answers a call; one without JSON form is never sent. */
  function AnswerTo(c: Call, w: World, round: nat, k: nat): Message {
    ToolResult(CallId(c, round), Capped(OutcomeOf(c, w, round, k).output.GetOr("")))
  }

  function Ran(c: Call, w: World, round: nat, k: nat): Record {
    var o := OutcomeOf(c, w, round, k);
    Record(CallId(c, round), c.name, o.ok, Duration(o.elapsedMs))
  }

  // ---- What a stream of events and a list of messages must look like ----

  /** Every `tool_start` is followed at once by its own `tool_end`, there are no other ends, and an error is last. */
  predicate Tidy(events: seq<Event>)
    decreases |events|
  {
    events == [] ||
    match events[0]
    case Text(_) => Tidy(events[1..])
    case ToolStart(id, name, _) =>
      |events| > 1 && events[1].ToolEnd? && events[1].callId == id && events[1].name == name && Tidy(events[2..])
    case ToolEnd(_, _, _, _) => false
    case Error(_) => |events| == 1
  }

  predicate NoError(events: seq<Event>) {
    forall e :: e in events ==> !e.Error?
  }

  /** The result carries the id of the call it answers, if the call has one. */
  predicate Answers(m: Message, c: Call) {
    m.ToolResult? && (m.callId == c.id <==> c.id != "") && |m.output| <= MAX_TOOL_RESULT_CHARS
  }

  /** Every message with tool calls is followed at once by their results, one each and in order. */
  predicate Answered(messages: seq<Message>)
    decreases |messages|
  {
    messages == [] ||
    match messages[0]
    case Plain(_) => Answered(messages[1..])
    case ToolResult(_, _) => false
    case Assistant(_, calls) =>
      && |messages| > |calls|
      && (forall i :: 0 <= i < |calls| ==> Answers(messages[1 + i], calls[i]))
      && Answered(messages[1 + |calls|..])
  }

  lemma {:induction false} TidyConcat(a: seq<Event>, b: seq<Event>)
    requires Tidy(a) && NoError(a) && Tidy(b)
    ensures Tidy(a + b)
    decreases |a|
  {
    if a == [] {
      assert a + b == b;
    } else {
      assert a[0] in a;
      if a[0].Text? {
        assert (a + b)[1..] == a[1..] + b;
        TidyConcat(a[1..], b);
      } else {
        assert (a + b)[2..] == a[2..] + b;
        TidyConcat(a[2..], b);
      }
    }
  }

  lemma {:induction false} TextsTidy(events: seq<Event>)
    requires forall e :: e in events ==> e.Text?
    ensures Tidy(events) && NoError(events)
  {
    if events != [] {
      assert events[0] in events;
      TextsTidy(events[1..]);
    }
  }

  lemma {:induction false} AnsweredConcat(a: seq<Message>, b: seq<Message>)
    requires Answered(a) && Answered(b)
    ensures Answered(a + b)
    decreases |a|
  {
    if a == [] {
      assert a + b == b;
    } else {
      var n := if a[0].Assistant? then 1 + |a[0].calls| else 1;
      assert (a + b)[n..] == a[n..] + b;
      AnsweredConcat(a[n..], b);
    }
  }

  lemma {:induction false} PlainAnswered(messages: seq<Message>)
    requires forall m :: m in messages ==> m.Plain?
    ensures Answered(messages)
  {
    if messages != [] {
      assert messages[0] in messages;
      PlainAnswered(messages[1..]);
    }
  }

  /** The records the `tool_end`s of a stream tell of. */
  function EndsOf(events: seq<Event>): seq<Record> {
    if events == [] then []
    else (match events[0]
          case ToolEnd(id, name, ok, ms) => [Record(id, name, ok, ms)]
          case _ => []) + EndsOf(events[1..])
  }

  function TextOf(events: seq<Event>): string {
    if events == [] then ""
    else TextOf(events[..|events| - 1]) + (if events[|events| - 1].Text? then events[|events| - 1].delta else "")
  }

  lemma {:induction false} EndsConcat(a: seq<Event>, b: seq<Event>)
    ensures EndsOf(a + b) == EndsOf(a) + EndsOf(b)
  {
    if a == [] {
      assert a + b == b;
    } else {
      assert (a + b)[1..] == a[1..] + b;
      EndsConcat(a[1..], b);
    }
  }

  // ---- What the calls of one round come to ----

  function CallEvents(calls: seq<Call>, w: World, round: nat, n: nat): seq<Event>
    requires n <= |calls|
  {
    if n == 0 then []
    else CallEvents(calls, w, round, n - 1) + [Started(calls[n - 1], w, round), Ended(calls[n - 1], w, round, n - 1)]
  }

  /** The records of the first `n` calls. */
  function Records(calls: seq<Call>, w: World, round: nat, n: nat): seq<Record>
    requires n <= |calls|
  {
    if n == 0 then [] else Records(calls, w, round, n - 1) + [Ran(calls[n - 1], w, round, n - 1)]
  }

  function AnswersTo(calls: seq<Call>, w: World, round: nat, n: nat): seq<Message>
    requires n <= |calls|
  {
    if n == 0 then [] else AnswersTo(calls, w, round, n - 1) + [AnswerTo(calls[n - 1], w, round, n - 1)]
  }

  /** The first call from `k` on whose result has no JSON form, or the number of calls. */
  function FirstSilent(calls: seq<Call>, w: World, round: nat, k: nat): (r: nat)
    requires k <= |calls|
    ensures k <= r <= |calls|
    decreases |calls| - k
  {
    if k == |calls| || OutcomeOf(calls[k], w, round, k).output.None? then k else FirstSilent(calls, w, round, k + 1)
  }

  /** How many calls run: all, or up to and with the first such one. */
  function RanCount(calls: seq<Call>, w: World, round: nat): (r: nat)
    ensures r <= |calls|
  {
    var silent := FirstSilent(calls, w, round, 0);
    if silent < |calls| then silent + 1 else silent
  }

  /** One call, run. */
  method RunCall(call: Call, w: World, round: nat, k: nat)
    returns (start: Event, end: Event, record: Record, answer: Option<Message>)
    ensures start == Started(call, w, round) && end == Ended(call, w, round, k) && record == Ran(call, w, round, k)
    ensures answer ==
      if OutcomeOf(call, w, round, k).output.None? then None else Some(AnswerTo(call, w, round, k))
  {
    var id := CallId(call, round);
    start := ToolStart(id, call.name, w.parse(call.arguments));
    var outcome := OutcomeOf(call, w, round, k);
    var durationMs := Duration(outcome.elapsedMs);
    record := Record(id, call.name, outcome.ok, durationMs);
    end := ToolEnd(id, call.name, outcome.ok, durationMs);
    answer := if outcome.output.None? then None else Some(ToolResult(id, Capped(outcome.output.value)));
  }

  /**
   Runs the requested calls one by one. `threw` is the one way out: a result without JSON
   form breaks the loop after its `tool_end`.
   */
  method RunCalls(calls: seq<Call>, w: World, round: nat)
    returns (events: seq<Event>, records: seq<Record>, answers: seq<Message>, threw: bool)
    ensures events == CallEvents(calls, w, round, RanCount(calls, w, round))
    ensures records == Records(calls, w, round, RanCount(calls, w, round))
    ensures answers == AnswersTo(calls, w, round, FirstSilent(calls, w, round, 0))
    ensures threw <==> FirstSilent(calls, w, round, 0) < |calls|
  {
    events, records, answers, threw := [], [], [], false;
    var k := 0;
    while k < |calls|
      invariant 0 <= k <= |calls| && !threw
      invariant events == CallEvents(calls, w, round, k) && records == Records(calls, w, round, k)
      invariant answers == AnswersTo(calls, w, round, k)
      invariant FirstSilent(calls, w, round, 0) == FirstSilent(calls, w, round, k)
    {
      var start, end, record, answer := RunCall(calls[k], w, round, k);
      events, records := events + [start, end], records + [record];
      if answer.None? {
        threw := true;
        return;
      }
      answers := answers + [answer.value];
      k := k + 1;
    }
  }

  /**
   What running one call shows: a tool that is known decides the outcome, one that is not
   fails; the answer is the tool's own output, its first 8000 characters if it is longer,
   under the id the start, the end and the record carry; a duration is never less than 1 ms.
   */
  lemma {:induction false} CallShows(c: Call, w: World, round: nat, k: nat)
    ensures var o, start, end, record, answer :=
        w.invoke(round, k), Started(c, w, round), Ended(c, w, round, k), Ran(c, w, round, k), AnswerTo(c, w, round, k);
      && start.ToolStart? && start.name == c.name && start.input == w.parse(c.arguments)
      && end.ToolEnd? && end.name == c.name && end.callId == start.callId && end.durationMs >= 1
      && record == Record(start.callId, c.name, end.ok, end.durationMs)
      && answer.ToolResult? && answer.callId == start.callId
      && (c.id != "" ==> start.callId == c.id)
      && (c.id == "" ==> start.callId == c.name + "-" + Money.Print(round))
      && (c.name in w.known ==>
            && end.ok == o.ok
            && (o.elapsedMs >= 1 ==> end.durationMs == o.elapsedMs)
            && (o.output.Some? && |o.output.value| <= 8000 ==> answer.output == o.output.value)
            && (o.output.Some? && |o.output.value| > 8000 ==> answer.output == o.output.value[..8000]))
      && (c.name !in w.known ==> !end.ok && OutcomeOf(c, w, round, k).output.Some?)
  {}

  lemma {:induction false} CallEventsTidy(calls: seq<Call>, w: World, round: nat, n: nat)
    requires n <= |calls|
    ensures var events := CallEvents(calls, w, round, n);
      Tidy(events) && NoError(events) && EndsOf(events) == Records(calls, w, round, n) && TextOf(events) == ""
  {
    if n > 0 {
      CallEventsTidy(calls, w, round, n - 1);
      var events := CallEvents(calls, w, round, n - 1);
      PairAppended(events, Started(calls[n - 1], w, round), Ended(calls[n - 1], w, round, n - 1));
    }
  }

  /** Every answer carries the id of the call in its position, if the call has one, and is capped. */
  lemma {:induction false} AnswersMatch(calls: seq<Call>, w: World, round: nat, n: nat)
    requires n <= |calls| && forall c :: c in calls ==> c.name != ""
    ensures |AnswersTo(calls, w, round, n)| == n
    ensures forall k :: 0 <= k < n ==> Answers(AnswersTo(calls, w, round, n)[k], ToToolCall(calls[k]))
  {
    if n > 0 {
      AnswersMatch(calls, w, round, n - 1);
      assert calls[n - 1] in calls;
    }
  }

  lemma {:induction false} PairAppended(events: seq<Event>, start: Event, end: Event)
    requires Tidy(events) && NoError(events)
    requires start.ToolStart? && end.ToolEnd? && start.callId == end.callId && start.name == end.name
    ensures Tidy(events + [start, end]) && NoError(events + [start, end])
    ensures EndsOf(events + [start, end])
         == EndsOf(events) + [Record(end.callId, end.name, end.ok, end.durationMs)]
    ensures TextOf(events + [start, end]) == TextOf(events)
  {
    PairText(events, start, end);
    var pair := [start, end];
    assert pair[2..] == [];
    assert Tidy(pair);
    TidyConcat(events, pair);
    PairEnds(start, end);
    EndsConcat(events, pair);
  }

  lemma {:induction false} PairText(events: seq<Event>, start: Event, end: Event)
    requires start.ToolStart? && end.ToolEnd?
    ensures TextOf(events + [start, end]) == TextOf(events)
  {
    assert events + [start, end] == events + [start] + [end];
    TextSnoc(events, start);
    TextSnoc(events + [start], end);
  }

  lemma {:induction false} TextSnoc(events: seq<Event>, e: Event)
    ensures TextOf(events + [e]) == TextOf(events) + (if e.Text? then e.delta else "")
  {
    assert (events + [e])[..|events|] == events;
  }

  lemma {:induction false} TextConcat(a: seq<Event>, b: seq<Event>)
    ensures TextOf(a + b) == TextOf(a) + TextOf(b)
  {
    if b == [] {
      assert a + b == a && TextOf(a) + "" == TextOf(a);
    } else {
      var b', e := b[..|b| - 1], b[|b| - 1];
      TextConcat(a, b');
      TextSnoc(a + b', e);
      assert a + b == a + b' + [e];
    }
  }

  /** Passing the text on is tidy, and passes on all of it. */
  lemma {:induction false} StreamedTidy(chunks: seq<Chunk>)
    ensures var events := Streamed(chunks);
      Tidy(events) && NoError(events) && EndsOf(events) == [] && TextOf(events) == Texts(chunks)
  {
    StreamedText(chunks);
    TextsTidy(Streamed(chunks));
    NoEnds(Streamed(chunks));
  }

  lemma {:induction false} StreamedText(chunks: seq<Chunk>)
    ensures (forall e :: e in Streamed(chunks) ==> e.Text?) && TextOf(Streamed(chunks)) == Texts(chunks)
  {
    if chunks != [] {
      var front, text := chunks[..|chunks| - 1], chunks[|chunks| - 1].text;
      StreamedText(front);
      assert Texts(front) + "" == Texts(front) && Streamed(front) + [] == Streamed(front);
      if text != "" { TextSnoc(Streamed(front), Text(text)); }
    }
  }

  lemma {:induction false} PairEnds(start: Event, end: Event)
    requires start.ToolStart? && end.ToolEnd?
    ensures EndsOf([start, end]) == [Record(end.callId, end.name, end.ok, end.durationMs)]
  {
    var r := Record(end.callId, end.name, end.ok, end.durationMs);
    assert [end][1..] == [];
    assert EndsOf([end]) == [r] + [];
    assert [start, end][1..] == [end];
  }

  // ---- The rounds ----

  /** How a run ended. */
  datatype End = Finished | Broke | OutOfRounds

  function Wanted(reply: Reply): seq<Call> { Requested(Assembled(Deltas(reply.chunks))) }

  /** The calls the loop gets to. */
  function Called(reply: Reply): seq<Call> { if reply.breaks then [] else Wanted(reply) }

  function RoundEvents(reply: Reply, w: World, round: nat): seq<Event> {
    Streamed(reply.chunks) + CallEvents(Called(reply), w, round, RanCount(Called(reply), w, round))
  }

  function RoundRecords(reply: Reply, w: World, round: nat): seq<Record> {
    Records(Called(reply), w, round, RanCount(Called(reply), w, round))
  }

  function RoundEnd(reply: Reply, w: World, round: nat): Option<End> {
    if reply.breaks then Some(Broke)
    else if Wanted(reply) == [] then Some(Finished)
    else if FirstSilent(Wanted(reply), w, round, 0) < |Wanted(reply)| then Some(Broke)
    else None
  }

  /** The model's own turn, tool calls included, as it goes back to it. */
  function TurnOf(reply: Reply): Message {
    Assistant(if Texts(reply.chunks) != "" then Some(Texts(reply.chunks)) else None, ToolCalls(Wanted(reply)))
  }

  /** The turn and the results of its calls, one each and in order. */
  function Block(reply: Reply, w: World, round: nat): seq<Message> {
    [TurnOf(reply)] + AnswersTo(Wanted(reply), w, round, |Wanted(reply)|)
  }

  // ---- What a whole run comes to ----

  /** The messages after `n` rounds. */
  function Conversation(opening: seq<Message>, replies: seq<Reply>, w: World, n: nat): seq<Message>
    requires n <= |replies|
  {
    if n == 0 then opening else Conversation(opening, replies, w, n - 1) + Block(replies[n - 1], w, n - 1)
  }

  function Sent(opening: seq<Message>, replies: seq<Reply>, w: World, n: nat): seq<seq<Message>>
    requires n <= |replies|
  {
    seq(n, i requires 0 <= i < n => Conversation(opening, replies, w, i))
  }

  function Emits(replies: seq<Reply>, w: World, n: nat): seq<Event>
    requires n <= |replies|
  {
    if n == 0 then [] else Emits(replies, w, n - 1) + RoundEvents(replies[n - 1], w, n - 1)
  }

  function Keeps(replies: seq<Reply>, w: World, n: nat): seq<Record>
    requires n <= |replies|
  {
    if n == 0 then [] else Keeps(replies, w, n - 1) + RoundRecords(replies[n - 1], w, n - 1)
  }

  /** The text the first `n` replies streamed. */
  function Said(replies: seq<Reply>, n: nat): string
    requires n <= |replies|
  {
    if n == 0 then "" else Said(replies, n - 1) + Texts(replies[n - 1].chunks)
  }

  /** None of the first `n` rounds ends the run. */
  predicate GoesThrough(replies: seq<Reply>, w: World, n: nat)
    requires n <= |replies|
  {
    n == 0 || (GoesThrough(replies, w, n - 1) && RoundEnd(replies[n - 1], w, n - 1).None?)
  }

  function GiveUpMessage(maxRounds: nat): string {
    "Agent stopped after " + Money.Print(maxRounds) + " tool rounds without answering."
  }

  /** What the loop keeps: events emitted, requests sent, records collected, the messages so far. */
  datatype Trace = Trace(events: seq<Event>, requests: seq<seq<Message>>, collected: seq<Record>, messages: seq<Message>)

  /** `n` rounds done and none of them the last. */
  ghost predicate Running(tr: Trace, opening: seq<Message>, replies: seq<Reply>, w: World, n: nat)
    requires n <= |replies|
  {
    && GoesThrough(replies, w, n)
    && tr == Trace(Emits(replies, w, n), Sent(opening, replies, w, n), Keeps(replies, w, n),
                   Conversation(opening, replies, w, n))
  }

  predicate EndsWithError(events: seq<Event>, before: seq<Event>) {
    events != [] && events[|events| - 1].Error? && events[..|events| - 1] == before
  }

  /** Everything a run sends, emits and records, and why it ends. */
  ghost predicate IsRun(tr: Trace, end: End, opening: seq<Message>, replies: seq<Reply>, w: World, maxRounds: nat)
    requires maxRounds <= |replies|
  {
    var n := |tr.requests|;
    && n <= maxRounds
    && tr.requests == Sent(opening, replies, w, n) && tr.collected == Keeps(replies, w, n)
    && (if end == Finished then tr.events == Emits(replies, w, n) else EndsWithError(tr.events, Emits(replies, w, n)))
    && (if end == OutOfRounds
        then n == maxRounds && GoesThrough(replies, w, n) && tr.events[|tr.events| - 1] == Error(GiveUpMessage(maxRounds))
        else n > 0 && GoesThrough(replies, w, n - 1) && RoundEnd(replies[n - 1], w, n - 1) == Some(end))
  }

  /** One request to the model and the calls it asks for. */
  method Round(messages: seq<Message>, reply: Reply, w: World, round: nat)
    returns (events: seq<Event>, records: seq<Record>, messages': seq<Message>, end: Option<End>)
    ensures events == RoundEvents(reply, w, round) && records == RoundRecords(reply, w, round)
    ensures end == RoundEnd(reply, w, round)
    ensures end.None? ==> messages' == messages + Block(reply, w, round)
  {
    var text, calls, streamed := Assemble(reply.chunks);
    messages' := messages;
    if reply.breaks { return streamed, [], messages, Some(Broke); }
    var requested := Requested(calls);
    if requested == [] { return streamed, [], messages, Some(Finished); }
    var turn := Assistant(if text != "" then Some(text) else None, ToolCalls(requested));
    var ran, answers, threw;
    ran, records, answers, threw := RunCalls(requested, w, round);
    events := streamed + ran;
    if threw { return events, records, messages, Some(Broke); }
    messages' := messages + ([turn] + answers);
    end := None;
  }

  lemma {:induction false} SentNext(opening: seq<Message>, replies: seq<Reply>, w: World, n: nat)
    requires n < |replies|
    ensures Sent(opening, replies, w, n + 1) == Sent(opening, replies, w, n) + [Conversation(opening, replies, w, n)]
  {}

  /** One round of the loop, and how the run ended if it did. */
  method RunRound(tr: Trace, opening: seq<Message>, replies: seq<Reply>, w: World, round: nat, maxRounds: nat)
    returns (tr': Trace, end: Option<End>)
    requires round < maxRounds <= |replies| && Running(tr, opening, replies, w, round)
    ensures end.None? ==> Running(tr', opening, replies, w, round + 1)
    ensures end.Some? ==> IsRun(tr', end.value, opening, replies, w, maxRounds)
  {
    var events, records, messages;
    events, records, messages, end := Round(tr.messages, replies[round], w, round);
    tr' := Trace(tr.events + events, tr.requests + [tr.messages], tr.collected + records, messages);
    if end == Some(Broke) { tr' := tr'.(events := tr'.events + [Error("broke")]); }
    NextEmits(replies, w, round);
    if end.Some? {
      StopsThere(tr, tr', end.value, opening, replies, w, round, maxRounds);
    } else {
      GoesOn(tr, tr', opening, replies, w, round);
    }
  }

  lemma {:induction false} GoesOn(
      tr: Trace, tr': Trace, opening: seq<Message>, replies: seq<Reply>, w: World, round: nat)
    requires round < |replies| && Running(tr, opening, replies, w, round) && RoundEnd(replies[round], w, round).None?
    requires tr' == Trace(tr.events + RoundEvents(replies[round], w, round), tr.requests + [tr.messages],
                          tr.collected + RoundRecords(replies[round], w, round),
                          tr.messages + Block(replies[round], w, round))
    ensures Running(tr', opening, replies, w, round + 1)
  {
    SentNext(opening, replies, w, round);
  }

  lemma {:induction false} NextEmits(replies: seq<Reply>, w: World, round: nat)
    requires round < |replies|
    ensures Emits(replies, w, round + 1) == Emits(replies, w, round) + RoundEvents(replies[round], w, round)
    ensures Keeps(replies, w, round + 1) == Keeps(replies, w, round) + RoundRecords(replies[round], w, round)
  {}

  lemma {:induction false} StopsThere(
      tr: Trace, tr': Trace, end: End, opening: seq<Message>, replies: seq<Reply>, w: World, round: nat, maxRounds: nat)
    requires round < maxRounds <= |replies| && Running(tr, opening, replies, w, round) && end != OutOfRounds
    requires RoundEnd(replies[round], w, round) == Some(end)
    requires tr'.requests == tr.requests + [tr.messages]
    requires tr'.collected == Keeps(replies, w, round + 1)
    requires if end == Finished then tr'.events == Emits(replies, w, round + 1)
             else EndsWithError(tr'.events, Emits(replies, w, round + 1))
    ensures IsRun(tr', end, opening, replies, w, maxRounds)
  {
    SentNext(opening, replies, w, round);
    assert |tr'.requests| == round + 1;
  }

  method GiveUp(tr: Trace, opening: seq<Message>, replies: seq<Reply>, w: World, maxRounds: nat) returns (tr': Trace)
    requires maxRounds <= |replies| && Running(tr, opening, replies, w, maxRounds)
    ensures IsRun(tr', OutOfRounds, opening, replies, w, maxRounds)
  {
    tr' := tr.(events := tr.events + [Error(GiveUpMessage(maxRounds))]);
  }

  /** Rounds until one ends the run or none is left; any model, any tools. */
  method Stream(opening: seq<Message>, replies: seq<Reply>, w: World, maxRounds: nat) returns (tr: Trace, end: End)
    requires |replies| >= maxRounds
    ensures IsRun(tr, end, opening, replies, w, maxRounds)
  {
    tr := Trace([], [], [], opening);
    var round := 0;
    while round < maxRounds
      invariant 0 <= round <= maxRounds
      invariant Running(tr, opening, replies, w, round)
    {
      var ended;
      tr, ended := RunRound(tr, opening, replies, w, round, maxRounds);
      if ended.Some? {
        end := ended.value;
        return;
      }
      round := round + 1;
    }
    tr := GiveUp(tr, opening, replies, w, maxRounds);
    end := OutOfRounds;
  }

  // ---- What every run keeps ----

  lemma {:induction false} BlockAnswered(turn: Message, answers: seq<Message>)
    requires turn.Assistant? && |answers| == |turn.calls|
    requires forall k :: 0 <= k < |answers| ==> Answers(answers[k], turn.calls[k])
    ensures Answered([turn] + answers)
  {
    var block := [turn] + answers;
    assert block[1 + |turn.calls|..] == [];
    forall k | 0 <= k < |turn.calls| ensures Answers(block[1 + k], turn.calls[k]) {
      assert block[1 + k] == answers[k];
    }
  }

  lemma {:induction false} RequestedNamed(calls: seq<Indexed>)
    ensures forall c :: c in Requested(calls) ==> c.name != ""
  {
    if calls != [] { RequestedNamed(calls[1..]); }
  }

  lemma {:induction false} Emitted(events: seq<Event>, more: seq<Event>)
    requires Tidy(events) && NoError(events) && Tidy(more)
    ensures Tidy(events + more) && EndsOf(events + more) == EndsOf(events) + EndsOf(more)
    ensures NoError(more) ==> NoError(events + more)
  {
    TidyConcat(events, more);
    EndsConcat(events, more);
  }

  lemma {:induction false} NoEnds(events: seq<Event>)
    requires forall e :: e in events ==> !e.ToolEnd?
    ensures EndsOf(events) == []
  {
    if events != [] {
      assert events[0] in events;
      NoEnds(events[1..]);
    }
  }

  lemma {:induction false} ErrorAppended(events: seq<Event>, message: string)
    requires Tidy(events) && NoError(events)
    ensures Tidy(events + [Error(message)]) && EndsOf(events + [Error(message)]) == EndsOf(events)
    ensures !NoError(events + [Error(message)])
  {
    Emitted(events, [Error(message)]);
    NoEnds([Error(message)]);
    assert Error(message) in events + [Error(message)];
  }

  /** Tidy events without an error, and the records and the text they tell of. */
  ghost predicate Tells(events: seq<Event>, records: seq<Record>, text: string) {
    Tidy(events) && NoError(events) && EndsOf(events) == records && TextOf(events) == text
  }

  lemma {:induction false} TellsConcat(
      a: seq<Event>, b: seq<Event>, records: seq<Record>, more: seq<Record>, text: string, later: string)
    requires Tells(a, records, text) && Tells(b, more, later)
    ensures Tells(a + b, records + more, text + later)
  {
    Emitted(a, b);
    TextConcat(a, b);
  }

  lemma {:induction false} RoundTells(reply: Reply, w: World, round: nat)
    ensures Tells(RoundEvents(reply, w, round), RoundRecords(reply, w, round), Texts(reply.chunks))
  {
    var n, text := RanCount(Called(reply), w, round), Texts(reply.chunks);
    StreamedTidy(reply.chunks);
    CallEventsTidy(Called(reply), w, round, n);
    TellsConcat(Streamed(reply.chunks), CallEvents(Called(reply), w, round, n), [], RoundRecords(reply, w, round), text, "");
    assert text + "" == text && [] + RoundRecords(reply, w, round) == RoundRecords(reply, w, round);
  }

  lemma {:induction false} NextTells(replies: seq<Reply>, w: World, k: nat)
    requires k < |replies| && Tells(Emits(replies, w, k), Keeps(replies, w, k), Said(replies, k))
    ensures Tells(Emits(replies, w, k) + RoundEvents(replies[k], w, k),
                  Keeps(replies, w, k) + RoundRecords(replies[k], w, k), Said(replies, k) + Texts(replies[k].chunks))
  {
    var events, records, text := RoundEvents(replies[k], w, k), RoundRecords(replies[k], w, k), Texts(replies[k].chunks);
    RoundTells(replies[k], w, k);
    TellsConcat(Emits(replies, w, k), events, Keeps(replies, w, k), records, Said(replies, k), text);
  }

  /** What a run emits is tidy, its ends are the records, its text is all the text. */
  lemma {:induction false} EmitsTells(replies: seq<Reply>, w: World, n: nat)
    requires n <= |replies|
    ensures Tells(Emits(replies, w, n), Keeps(replies, w, n), Said(replies, n))
  {
    if n > 0 {
      EmitsTells(replies, w, n - 1);
      NextTells(replies, w, n - 1);
    }
  }

  lemma {:induction false} ErrorEnds(events: seq<Event>, before: seq<Event>, records: seq<Record>, text: string)
    requires EndsWithError(events, before) && Tells(before, records, text)
    ensures Tidy(events) && EndsOf(events) == records && TextOf(events) == text && !NoError(events)
  {
    var last := events[|events| - 1];
    assert events == before + [last];
    ErrorAppended(before, last.message);
    TextSnoc(before, last);
    assert text + "" == text;
  }

  /**
   Every start comes with its end, the ends are the records, all the text the model streamed
   is passed on, and there is an error event exactly when the model did not get to answer.
   */
  lemma {:induction false} RunIsTidy(
      tr: Trace, end: End, opening: seq<Message>, replies: seq<Reply>, w: World, maxRounds: nat)
    requires maxRounds <= |replies| && IsRun(tr, end, opening, replies, w, maxRounds)
    ensures Tidy(tr.events) && EndsOf(tr.events) == tr.collected
    ensures TextOf(tr.events) == Said(replies, |tr.requests|)
    ensures NoError(tr.events) <==> end == Finished
  {
    EmitsTells(replies, w, |tr.requests|);
    if end != Finished {
      ErrorEnds(tr.events, Emits(replies, w, |tr.requests|), tr.collected, Said(replies, |tr.requests|));
    }
  }

  /** The model's turn goes back with the text it streamed and every call it asked for, an empty argument list made `{}`. */
  lemma {:induction false} TurnSays(reply: Reply, k: nat)
    requires k < |Wanted(reply)|
    ensures var turn, call := TurnOf(reply), Wanted(reply)[k];
      && turn.Assistant? && |turn.calls| == |Wanted(reply)|
      && turn.text == (if Texts(reply.chunks) == "" then None else Some(Texts(reply.chunks)))
      && turn.calls[k].id == call.id && turn.calls[k].name == call.name
      && (call.arguments != "" ==> turn.calls[k].arguments == call.arguments)
      && (call.arguments == "" ==> turn.calls[k].arguments == "{}")
  {}

  /** Block by block: a turn with calls is followed by one answer for each of them. */
  lemma {:induction false} BlockIsAnswered(reply: Reply, w: World, round: nat)
    ensures Answered(Block(reply, w, round))
  {
    var calls := Wanted(reply);
    RequestedNamed(Assembled(Deltas(reply.chunks)));
    AnswersMatch(calls, w, round, |calls|);
    BlockAnswered(TurnOf(reply), AnswersTo(calls, w, round, |calls|));
  }

  lemma {:induction false} ConversationAnswered(opening: seq<Message>, replies: seq<Reply>, w: World, n: nat)
    requires n <= |replies| && forall m :: m in opening ==> m.Plain?
    ensures Answered(Conversation(opening, replies, w, n))
  {
    if n == 0 {
      PlainAnswered(opening);
    } else {
      var before, block := Conversation(opening, replies, w, n - 1), Block(replies[n - 1], w, n - 1);
      assert Conversation(opening, replies, w, n) == before + block;
      ConversationAnswered(opening, replies, w, n - 1);
      BlockIsAnswered(replies[n - 1], w, n - 1);
      AnsweredConcat(before, block);
    }
  }

  /** The answers of a round that went through: one for each call, in order, under its id, with something to say. */
  ghost predicate AllAnswered(reply: Reply, w: World, round: nat, answers: seq<Message>) {
    var calls := Wanted(reply);
    && |answers| == |calls| > 0
    && forall k :: 0 <= k < |calls| ==>
         Answers(answers[k], ToToolCall(calls[k])) && OutcomeOf(calls[k], w, round, k).output.Some?
  }

  lemma {:induction false} RoundAnswered(reply: Reply, w: World, round: nat)
    requires RoundEnd(reply, w, round).None?
    ensures AllAnswered(reply, w, round, AnswersTo(Wanted(reply), w, round, |Wanted(reply)|))
  {
    var calls := Wanted(reply);
    RequestedNamed(Assembled(Deltas(reply.chunks)));
    AnswersMatch(calls, w, round, |calls|);
    AllSpeak(calls, w, round, 0);
  }

  /** Every round but the last of a run goes through. */
  lemma {:induction false} AllButLast(
      tr: Trace, end: End, opening: seq<Message>, replies: seq<Reply>, w: World, maxRounds: nat)
    requires maxRounds <= |replies| && IsRun(tr, end, opening, replies, w, maxRounds) && |tr.requests| > 0
    ensures var n := |tr.requests|;
      n <= |replies| && tr.requests == Sent(opening, replies, w, n) && GoesThrough(replies, w, n - 1)
  {}

  lemma {:induction false} SentAt(opening: seq<Message>, replies: seq<Reply>, w: World, n: nat, i: nat)
    requires i < n <= |replies|
    ensures Sent(opening, replies, w, n)[i] == Conversation(opening, replies, w, i)
  {}

  lemma {:induction false} NextSent(opening: seq<Message>, replies: seq<Reply>, w: World, n: nat, i: nat)
    requires 0 < i < n <= |replies|
    ensures var requests := Sent(opening, replies, w, n);
      requests[i] == requests[i - 1] + Block(replies[i - 1], w, i - 1)
  {
    SentAt(opening, replies, w, n, i);
    SentAt(opening, replies, w, n, i - 1);
  }

  lemma {:induction false} SentAnswered(opening: seq<Message>, replies: seq<Reply>, w: World, n: nat, i: nat)
    requires i < n <= |replies| && forall m :: m in opening ==> m.Plain?
    ensures Answered(Sent(opening, replies, w, n)[i]) && (i == 0 ==> Sent(opening, replies, w, n)[i] == opening)
  {
    SentAt(opening, replies, w, n, i);
    ConversationAnswered(opening, replies, w, i);
  }

  /**
   Request `i` has every call in it answered. The first is the opening; each next one is the
   one before, the model's turn with every call it asked for, and one answer for each call,
   in order, under the call's id.
   */
  ghost predicate RequestAt(requests: seq<seq<Message>>, opening: seq<Message>, replies: seq<Reply>, w: World, i: nat)
    requires i < |requests| <= |replies|
  {
    && Answered(requests[i])
    && (i == 0 ==> requests[i] == opening)
    && (i > 0 ==>
          var reply := replies[i - 1];
          var answers := AnswersTo(Wanted(reply), w, i - 1, |Wanted(reply)|);
          && requests[i] == requests[i - 1] + ([TurnOf(reply)] + answers)
          && AllAnswered(reply, w, i - 1, answers))
  }

  lemma {:induction false} FirstRequest(opening: seq<Message>, replies: seq<Reply>, w: World, n: nat)
    requires 0 < n <= |replies| && (forall m :: m in opening ==> m.Plain?)
    ensures |Sent(opening, replies, w, n)| == n && RequestAt(Sent(opening, replies, w, n), opening, replies, w, 0)
  {
    SentAnswered(opening, replies, w, n, 0);
  }

  lemma {:induction false} LaterRequest(opening: seq<Message>, replies: seq<Reply>, w: World, n: nat, i: nat)
    requires 0 < i < n <= |replies| && RoundEnd(replies[i - 1], w, i - 1).None?
    requires forall m :: m in opening ==> m.Plain?
    ensures |Sent(opening, replies, w, n)| == n && RequestAt(Sent(opening, replies, w, n), opening, replies, w, i)
  {
    SentAnswered(opening, replies, w, n, i);
    NextSent(opening, replies, w, n, i);
    RoundAnswered(replies[i - 1], w, i - 1);
  }

  lemma {:induction false} AnyRequest(opening: seq<Message>, replies: seq<Reply>, w: World, n: nat, i: nat)
    requires i < n <= |replies| && GoesThrough(replies, w, n - 1) && forall m :: m in opening ==> m.Plain?
    ensures |Sent(opening, replies, w, n)| == n && RequestAt(Sent(opening, replies, w, n), opening, replies, w, i)
  {
    if i == 0 {
      FirstRequest(opening, replies, w, n);
    } else {
      WentThrough(replies, w, n - 1, i - 1);
      LaterRequest(opening, replies, w, n, i);
    }
  }

  /** So no request of a run leaves a call of any earlier turn unanswered. */
  lemma {:induction false} RequestHolds(
      tr: Trace, end: End, opening: seq<Message>, replies: seq<Reply>, w: World, maxRounds: nat, i: nat)
    requires maxRounds <= |replies| && IsRun(tr, end, opening, replies, w, maxRounds) && i < |tr.requests|
    requires forall m :: m in opening ==> m.Plain?
    ensures RequestAt(tr.requests, opening, replies, w, i)
  {
    AllButLast(tr, end, opening, replies, w, maxRounds);
    AnyRequest(opening, replies, w, |tr.requests|, i);
  }

  lemma {:induction false} WentThrough(replies: seq<Reply>, w: World, n: nat, i: nat)
    requires i < n <= |replies| && GoesThrough(replies, w, n)
    ensures RoundEnd(replies[i], w, i).None?
  {
    if i < n - 1 { WentThrough(replies, w, n - 1, i); }
  }

  /** With no silent call from `k` on, all of them have something to send back. */
  lemma {:induction false} AllSpeak(calls: seq<Call>, w: World, round: nat, k: nat)
    requires k <= |calls| && FirstSilent(calls, w, round, k) == |calls|
    ensures forall j :: k <= j < |calls| ==> OutcomeOf(calls[j], w, round, j).output.Some?
    decreases |calls| - k
  {
    if k < |calls| { AllSpeak(calls, w, round, k + 1); }
  }

  // ---- What the screen makes of the events ----

  datatype Badge = Badge(callId: string, name: string, ok: Option<bool>, durationMs: Option<int>)

  datatype Turn = Turn(content: string, badges: seq<Badge>, error: Option<string>)

  function Finish(b: Badge, id: string, ok: bool, durationMs: int): Badge {
    if b.callId == id then b.(ok := Some(ok), durationMs := Some(durationMs)) else b
  }

  function Apply(turn: Turn, e: Event): Turn {
    match e
    case Text(delta) => turn.(content := turn.content + delta)
    case ToolStart(id, name, _) => turn.(badges := turn.badges + [Badge(id, name, None, None)])
    case ToolEnd(id, _, ok, ms) =>
      turn.(badges := seq(|turn.badges|, i requires 0 <= i < |turn.badges| => Finish(turn.badges[i], id, ok, ms)))
    case Error(message) => turn.(error := Some(message))
  }

  function Fold(turn: Turn, events: seq<Event>): Turn
    decreases |events|
  {
    if events == [] then turn else Fold(Apply(turn, events[0]), events[1..])
  }

  predicate AllFinished(turn: Turn) {
    forall b :: b in turn.badges ==> b.ok.Some? && b.durationMs.Some?
  }

  lemma {:induction false} PairFinishes(turn: Turn, start: Event, end: Event)
    requires AllFinished(turn) && start.ToolStart? && end.ToolEnd? && start.callId == end.callId
    ensures AllFinished(Apply(Apply(turn, start), end))
  {
    var after := Apply(turn, start);
    forall b | b in Apply(after, end).badges ensures b.ok.Some? && b.durationMs.Some? {
      var i :| 0 <= i < |after.badges| && Apply(after, end).badges[i] == b;
      if i < |turn.badges| { assert turn.badges[i] in turn.badges; }
    }
  }

  /** Whatever the ids, no call is left unfinished on the screen. */
  lemma {:induction false} FoldFinishes(turn: Turn, events: seq<Event>)
    requires Tidy(events) && AllFinished(turn)
    ensures AllFinished(Fold(turn, events))
    decreases |events|
  {
    if events != [] {
      if events[0].ToolStart? {
        PairFinishes(turn, events[0], events[1]);
        assert events[1..][1..] == events[2..];
        FoldFinishes(Apply(Apply(turn, events[0]), events[1]), events[2..]);
      } else {
        FoldFinishes(Apply(turn, events[0]), events[1..]);
      }
    }
  }

  /** The badges of calls that ran. */
  function Shown(records: seq<Record>): seq<Badge> {
    seq(|records|, i requires 0 <= i < |records| =>
      var r := records[i]; Badge(r.callId, r.name, Some(r.ok), Some(r.durationMs)))
  }

  /** The calls have ids of their own. */
  predicate Fresh(badges: seq<Badge>, records: seq<Record>) {
    && (forall b, r :: b in badges && r in records ==> b.callId != r.callId)
    && (forall i, j :: 0 <= i < j < |records| ==> records[i].callId != records[j].callId)
  }

  lemma {:induction false} PairShows(turn: Turn, start: Event, end: Event)
    requires start.ToolStart? && end.ToolEnd? && start.callId == end.callId && start.name == end.name
    requires forall b :: b in turn.badges ==> b.callId != end.callId
    ensures Apply(Apply(turn, start), end).badges
         == turn.badges + [Badge(end.callId, end.name, Some(end.ok), Some(end.durationMs))]
  {
    var after := Apply(turn, start);
    forall i | 0 <= i < |turn.badges| ensures Finish(after.badges[i], end.callId, end.ok, end.durationMs) == turn.badges[i] {
      assert turn.badges[i] in turn.badges;
    }
  }

  lemma {:induction false} NextFresh(badges: seq<Badge>, b: Badge, r: Record, records: seq<Record>)
    requires Fresh(badges, [r] + records) && b.callId == r.callId
    ensures Fresh(badges + [b], records) && forall x :: x in badges ==> x.callId != r.callId
  {
    var all := [r] + records;
    assert r in all && forall x :: x in records ==> x in all;
    forall i | 0 <= i < |records| ensures records[i].callId != r.callId {
      assert all[0] == r && all[i + 1] == records[i];
    }
    forall i, j | 0 <= i < j < |records| ensures records[i].callId != records[j].callId {
      assert all[i + 1] == records[i] && all[j + 1] == records[j];
    }
  }

  /** With distinct call ids the screen shows every call once, in order, with its own outcome. */
  lemma {:induction false} FoldShows(turn: Turn, events: seq<Event>)
    requires Tidy(events) && Fresh(turn.badges, EndsOf(events))
    ensures Fold(turn, events).badges == turn.badges + Shown(EndsOf(events))
    decreases |events|
  {
    if events == [] {
    } else if events[0].ToolStart? {
      assert events == [events[0], events[1]] + events[2..];
      PairFolds(turn, events[0], events[1], events[2..]);
      var turn' := Apply(Apply(turn, events[0]), events[1]);
      FoldShows(turn', events[2..]);
    } else {
      assert EndsOf(events) == EndsOf(events[1..]);
      FoldShows(Apply(turn, events[0]), events[1..]);
    }
  }

  lemma {:induction false} FoldPair(turn: Turn, start: Event, end: Event, rest: seq<Event>)
    ensures Fold(turn, [start, end] + rest) == Fold(Apply(Apply(turn, start), end), rest)
  {
    var all := [start, end] + rest;
    assert all[1..] == [end] + rest && all[1..][1..] == rest;
  }

  lemma {:induction false} PairFolds(turn: Turn, start: Event, end: Event, rest: seq<Event>)
    requires start.ToolStart? && end.ToolEnd? && start.callId == end.callId && start.name == end.name
    requires Fresh(turn.badges, EndsOf([start, end] + rest))
    ensures var turn' := Apply(Apply(turn, start), end);
      && Fold(turn, [start, end] + rest) == Fold(turn', rest)
      && Fresh(turn'.badges, EndsOf(rest))
      && turn'.badges + Shown(EndsOf(rest)) == turn.badges + Shown(EndsOf([start, end] + rest))
  {
    var r := Record(end.callId, end.name, end.ok, end.durationMs);
    var b := Badge(end.callId, end.name, Some(end.ok), Some(end.durationMs));
    FoldPair(turn, start, end, rest);
    EndsConcat([start, end], rest);
    PairEnds(start, end);
    var ends := EndsOf(rest);
    NextFresh(turn.badges, b, r, ends);
    PairShows(turn, start, end);
    ShownCons(turn.badges, b, r, ends);
  }

  lemma {:induction false} ShownCons(badges: seq<Badge>, b: Badge, r: Record, records: seq<Record>)
    requires b == Badge(r.callId, r.name, Some(r.ok), Some(r.durationMs))
    ensures badges + [b] + Shown(records) == badges + Shown([r] + records)
  {
    assert Shown([r] + records) == [b] + Shown(records);
  }

  /** So what the screen ends up showing is what the run collected. */
  lemma {:induction false} ShowsCollected(events: seq<Event>)
    requires Tidy(events) && Fresh([], EndsOf(events))
    ensures Fold(Turn("", [], None), events).badges == Shown(EndsOf(events))
  {
    FoldShows(Turn("", [], None), events);
  }

  /** The text on the screen is the text of the events, and there is an error on it exactly if one of them is. */
  lemma {:induction false} FoldTells(turn: Turn, events: seq<Event>)
    ensures Fold(turn, events).content == turn.content + TextOf(events)
    ensures Fold(turn, events).error.Some? <==> turn.error.Some? || !NoError(events)
    decreases |events|
  {
    if events == [] {
      assert turn.content + "" == turn.content;
    } else {
      var e, rest := events[0], events[1..];
      assert events == [e] + rest;
      FoldTells(Apply(turn, e), rest);
      TextConcat([e], rest);
      TextOne(e);
      ApplyText(turn, e, TextOf(rest));
    }
  }

  lemma {:induction false} TextOne(e: Event)
    ensures TextOf([e]) == if e.Text? then e.delta else ""
  {
    TextSnoc([], e);
    assert [] + [e] == [e];
  }

  lemma {:induction false} ApplyText(turn: Turn, e: Event, later: string)
    ensures Apply(turn, e).content + later == turn.content + ((if e.Text? then e.delta else "") + later)
  {}
}
