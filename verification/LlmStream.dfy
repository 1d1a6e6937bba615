/** `ClaudeStreamer.stream` of apps/agent/vocalflow_agent/pipeline/llm.py: the events of one model
    reply become chunks of text and bracketed tool calls. */
module LlmStream {

  import opened Basics

  /** A JSON value; nothing is used of it but where it came from. */
  datatype Json = Json(text: string)

  const EMPTY_OBJECT := Json("{}")

  datatype Event =
    | ToolStart(id: string, name: string)   // content_block_start of a tool_use block
    | OtherStart                            // content_block_start of any other block
    | TextDelta(text: string)
    | InputDelta(fragment: string)          // input_json_delta
    | OtherDelta
    | BlockStop                             // content_block_stop
    | MessageStop
    | OtherEvent

  datatype Chunk =
    | Text(text: string)
    | ToolUseStart(id: string, name: string)
    | ToolUseInput(fragment: string)
    | ToolUseEnd(id: string, name: string, input: Json)
    | Done

  function Concat(fragments: seq<string>): string {
    if fragments == [] then "" else fragments[0] + Concat(fragments[1..])
  }

  /** The input object: what the fragments parse to, or an empty object. */
  function InputOf(parse: string -> Option<Json>, fragments: seq<string>): Json {
    if fragments == [] then EMPTY_OBJECT
    else match parse(Concat(fragments)) case Some(j) => j case None => EMPTY_OBJECT
  }

  // ---------------------------------------------------------------------------------------------
  // What each event means, read off the events alone
  // ---------------------------------------------------------------------------------------------

  /** Before event `k`: the position of the latest tool start, if no block has stopped since. */
  function OpenTool(events: seq<Event>, k: nat): (open: Option<nat>)
    requires k <= |events|
    ensures open.Some? ==> open.value < k && events[open.value].ToolStart?
  {
    if k == 0 || events[k - 1].BlockStop? then None
    else if events[k - 1].ToolStart? then Some(k - 1)
    else OpenTool(events, k - 1)
  }

  /** The input fragments among events[from..to]. */
  function Fragments(events: seq<Event>, from: nat, to: nat): seq<string>
    requires from <= to <= |events|
  {
    if from == to then []
    else Fragments(events, from, to - 1) + if events[to - 1].InputDelta? then [events[to - 1].fragment] else []
  }

  /** What event `k` adds to the chunks, if anything. */
  function Emitted(parse: string -> Option<Json>, events: seq<Event>, k: nat): Option<Chunk>
    requires k < |events|
  {
    match events[k]
    case ToolStart(id, name) => Some(ToolUseStart(id, name))
    case TextDelta(text) => Some(Text(text))
    case InputDelta(fragment) => Some(ToolUseInput(fragment))
    case MessageStop => Some(Done)
    case BlockStop =>
      (match OpenTool(events, k)
       case Some(s) =>
         if events[s].id == "" then None
         else Some(ToolUseEnd(events[s].id, events[s].name, InputOf(parse, Fragments(events, s + 1, k))))
       case None => None)
    case _ => None
  }

  function Add(chunks: seq<Chunk>, c: Option<Chunk>): seq<Chunk> {
    match c case Some(x) => chunks + [x] case None => chunks
  }

  function Chunks(parse: string -> Option<Json>, events: seq<Event>, n: nat): seq<Chunk>
    requires n <= |events|
  {
    if n == 0 then [] else Add(Chunks(parse, events, n - 1), Emitted(parse, events, n - 1))
  }

  /** The events that are looked at: all up to and including the first message_stop. */
  function Consumed(events: seq<Event>): (n: nat)
    ensures n <= |events|
    ensures forall i :: 0 <= i < n - 1 ==> !events[i].MessageStop?
    ensures n < |events| ==> n > 0 && events[n - 1].MessageStop?
  {
    if events == [] then 0
    else if events[0].MessageStop? then 1
    else 1 + Consumed(events[1..])
  }

  lemma ConsumedIs(events: seq<Event>, n: nat)
    requires n <= |events| && (forall i :: 0 <= i < n - 1 ==> !events[i].MessageStop?)
    requires n == |events| || (n > 0 && events[n - 1].MessageStop?)
    ensures n == Consumed(events)
  {
    if events != [] && !events[0].MessageStop? {
      if n == 0 {
      } else {
        ConsumedIs(events[1..], n - 1);
      }
    }
  }

  /** The three variables of the generator hold no more than the open tool and the fragments since. */
  ghost predicate Remembers(events: seq<Event>, k: nat, toolId: Option<string>, toolName: Option<string>,
                            inputBuf: seq<string>)
    requires k <= |events|
  {
    match OpenTool(events, k)
    case Some(s) => toolId == Some(events[s].id) && toolName == Some(events[s].name) &&
                    inputBuf == Fragments(events, s + 1, k)
    case None => toolId == None || toolId == Some("")
  }

  /** What the end of a block does, in terms of the variables. */
  lemma BlockEnds(parse: string -> Option<Json>, events: seq<Event>, k: nat,
                  toolId: Option<string>, toolName: Option<string>, inputBuf: seq<string>)
    requires k < |events| && events[k].BlockStop? && Remembers(events, k, toolId, toolName, inputBuf)
    ensures Remembers(events, k + 1, None, None, [])
    ensures Emitted(parse, events, k) ==
            if toolId.Some? && toolId.value != "" && toolName.Some?
            then Some(ToolUseEnd(toolId.value, toolName.value, InputOf(parse, inputBuf))) else None
    ensures toolId.Some? && toolId.value != "" ==> toolName.Some?
    ensures !(toolId.Some? && toolId.value != "") ==> Remembers(events, k + 1, toolId, toolName, inputBuf)
  {
  }

  lemma OtherEventKeeps(events: seq<Event>, k: nat, toolId: Option<string>, toolName: Option<string>,
                        inputBuf: seq<string>)
    requires k < |events| && !events[k].BlockStop? && !events[k].ToolStart?
    requires Remembers(events, k, toolId, toolName, inputBuf)
    ensures Remembers(events, k + 1, toolId, toolName,
                      if events[k].InputDelta? then inputBuf + [events[k].fragment] else inputBuf)
  {
    assert inputBuf + [] == inputBuf;
  }

  lemma ToolStarts(events: seq<Event>, k: nat)
    requires k < |events| && events[k].ToolStart?
    ensures Remembers(events, k + 1, Some(events[k].id), Some(events[k].name), [])
  {
  }

  lemma OneMore(parse: string -> Option<Json>, events: seq<Event>, k: nat, chunks: seq<Chunk>, out: Option<Chunk>)
    requires k < |events| && chunks == Chunks(parse, events, k) && Emitted(parse, events, k) == out
    ensures Add(chunks, out) == Chunks(parse, events, k + 1)
  {
  }

  /** The body of the loop, for any event but the last. */
  method Treat(parse: string -> Option<Json>, ghost events: seq<Event>, ghost k: nat, event: Event,
               toolId: Option<string>, toolName: Option<string>, inputBuf: seq<string>)
    returns (out: Option<Chunk>, toolId': Option<string>, toolName': Option<string>, inputBuf': seq<string>)
    requires k < |events| && events[k] == event && !event.MessageStop?
    requires Remembers(events, k, toolId, toolName, inputBuf)
    ensures out == Emitted(parse, events, k)
    ensures Remembers(events, k + 1, toolId', toolName', inputBuf')
  {
    out, toolId', toolName', inputBuf' := None, toolId, toolName, inputBuf;
    match event {
      case ToolStart(id, name) =>
        ToolStarts(events, k);
        return Some(ToolUseStart(id, name)), Some(id), Some(name), [];
      case BlockStop =>
        BlockEnds(parse, events, k, toolId, toolName, inputBuf);
        if toolId.Some? && toolId.value != "" {
          var input := InputOf(parse, inputBuf);
          out := Some(ToolUseEnd(toolId.value, if toolName.Some? then toolName.value else "", input));
          toolId', toolName', inputBuf' := None, None, [];
        }
      case TextDelta(text) =>
        OtherEventKeeps(events, k, toolId, toolName, inputBuf);
        out := Some(Text(text));
      case InputDelta(fragment) =>
        OtherEventKeeps(events, k, toolId, toolName, inputBuf);
        inputBuf' := inputBuf + [fragment];
        out := Some(ToolUseInput(fragment));
      case _ =>
        OtherEventKeeps(events, k, toolId, toolName, inputBuf);
    }
  }

  method Stream(parse: string -> Option<Json>, events: seq<Event>) returns (chunks: seq<Chunk>)
    ensures chunks == Chunks(parse, events, Consumed(events))
  {
    chunks := [];
    var toolId: Option<string> := None;
    var toolName: Option<string> := None;
    var inputBuf: seq<string> := [];
    var k := 0;
    while k < |events|
      invariant 0 <= k <= |events| && forall i :: 0 <= i < k ==> !events[i].MessageStop?
      invariant chunks == Chunks(parse, events, k)
      invariant Remembers(events, k, toolId, toolName, inputBuf)
    {
      if events[k].MessageStop? {
        OneMore(parse, events, k, chunks, Some(Done));
        ConsumedIs(events, k + 1);
        return chunks + [Done];
      }
      var out;
      out, toolId, toolName, inputBuf := Treat(parse, events, k, events[k], toolId, toolName, inputBuf);
      OneMore(parse, events, k, chunks, out);
      chunks := Add(chunks, out);
      k := k + 1;
    }
    ConsumedIs(events, k);
  }

  // ---------------------------------------------------------------------------------------------
  // Tool calls come well bracketed
  // ---------------------------------------------------------------------------------------------

  /** The input fragments among chunks[from..]. */
  function InputsFrom(chunks: seq<Chunk>, from: nat): seq<string> {
    if |chunks| <= from then []
    else InputsFrom(chunks[..|chunks| - 1], from) +
         match chunks[|chunks| - 1] case ToolUseInput(f) => [f] case _ => []
  }

  predicate Bracket(c: Chunk) {
    c.ToolUseStart? || c.ToolUseEnd?
  }

  /** chunks[i] opens a tool that is still open at the end of `chunks`. */
  ghost predicate Opens(chunks: seq<Chunk>, i: nat, id: string, name: string) {
    && i < |chunks| && chunks[i] == ToolUseStart(id, name)
    && forall m :: i < m < |chunks| ==> !Bracket(chunks[m])
  }

  /** An end closes the latest start: same id, same name, and as input exactly what was streamed in
      between. */
  ghost predicate Closes(parse: string -> Option<Json>, before: seq<Chunk>, end: Chunk) {
    end.ToolUseEnd? ==>
      exists i: nat :: Opens(before, i, end.id, end.name) && end.input == InputOf(parse, InputsFrom(before, i + 1))
  }

  lemma AddKeepsOpen(chunks: seq<Chunk>, c: Chunk, i: nat, id: string, name: string)
    requires Opens(chunks, i, id, name) && !Bracket(c)
    ensures Opens(chunks + [c], i, id, name)
    ensures InputsFrom(chunks + [c], i + 1) ==
            InputsFrom(chunks, i + 1) + match c case ToolUseInput(f) => [f] case _ => []
  {
    assert (chunks + [c])[..|chunks|] == chunks;
  }

  /** While a tool is open, its start is in the chunks and the fragments since are the same. */
  ghost predicate Tracks(events: seq<Event>, k: nat, chunks: seq<Chunk>, i: nat)
    requires k <= |events|
  {
    match OpenTool(events, k)
    case None => true
    case Some(s) => Opens(chunks, i, events[s].id, events[s].name) &&
                    InputsFrom(chunks, i + 1) == Fragments(events, s + 1, k)
  }

  lemma {:induction false} StreamTracks(parse: string -> Option<Json>, events: seq<Event>, k: nat) returns (i: nat)
    requires k <= |events|
    ensures Tracks(events, k, Chunks(parse, events, k), i)
  {
    if k == 0 {
      i := 0;
    } else {
      i := StreamTracks(parse, events, k - 1);
      i := StillTracks(parse, events, k - 1, i);
    }
  }

  lemma StillTracks(parse: string -> Option<Json>, events: seq<Event>, k: nat, i: nat) returns (i': nat)
    requires k < |events| && Tracks(events, k, Chunks(parse, events, k), i)
    ensures Tracks(events, k + 1, Chunks(parse, events, k + 1), i')
  {
    var before := Chunks(parse, events, k);
    i' := i;
    if events[k].ToolStart? {
      i' := |before|;
      assert InputsFrom(before + [ToolUseStart(events[k].id, events[k].name)], i' + 1) == [];
    } else if !events[k].BlockStop? && OpenTool(events, k).Some? {
      var s := OpenTool(events, k).value;
      var c := Emitted(parse, events, k);
      if c.Some? {
        AddKeepsOpen(before, c.value, i, events[s].id, events[s].name);
      }
    }
  }

  /** For every event sequence: each tool_use_end closes the latest tool_use_start. */
  lemma {:induction false} ToolCallsAreBracketed(parse: string -> Option<Json>, events: seq<Event>, n: nat, j: nat)
    requires n <= |events| && j < |Chunks(parse, events, n)|
    ensures var chunks := Chunks(parse, events, n); Closes(parse, chunks[..j], chunks[j])
  {
    var before := Chunks(parse, events, n - 1);
    var chunks := Chunks(parse, events, n);
    if j < |before| {
      ToolCallsAreBracketed(parse, events, n - 1, j);
      assert chunks[..j] == before[..j];
    } else {
      assert chunks[..j] == before;
      var i := StreamTracks(parse, events, n - 1);
    }
  }

  // ---------------------------------------------------------------------------------------------
  // What a tool is called with
  // ---------------------------------------------------------------------------------------------

  predicate IsInput(c: Chunk) {
    c.ToolUseInput?
  }

  /** The input text that was streamed in chunks[from..], in one piece. */
  function InputText(chunks: seq<Chunk>, from: nat): string {
    if |chunks| <= from then ""
    else InputText(chunks[..|chunks| - 1], from) +
         match chunks[|chunks| - 1] case ToolUseInput(f) => f case _ => ""
  }

  lemma {:induction false} ConcatAdd(ps: seq<string>, p: string)
    ensures Concat(ps + [p]) == Concat(ps) + p
  {
    if ps == [] {
      assert [p][1..] == [];
    } else {
      ConcatAdd(ps[1..], p);
      assert (ps + [p])[1..] == ps[1..] + [p];
    }
  }

  lemma {:induction false} InputTextIsJoined(chunks: seq<Chunk>, from: nat)
    ensures Concat(InputsFrom(chunks, from)) == InputText(chunks, from)
    ensures InputsFrom(chunks, from) == [] <==> forall m :: from <= m < |chunks| ==> !IsInput(chunks[m])
  {
    if |chunks| > from {
      var before, last := chunks[..|chunks| - 1], chunks[|chunks| - 1];
      InputTextIsJoined(before, from);
      if last.ToolUseInput? {
        ConcatAdd(InputsFrom(before, from), last.fragment);
      } else {
        assert InputsFrom(before, from) + [] == InputsFrom(before, from);
        assert InputText(before, from) + "" == InputText(before, from);
      }
      assert forall m :: from <= m < |before| ==> chunks[m] == before[m];
    }
  }

  /** `input` is what the text streamed since the start parses to; if nothing was streamed, or it does not
      parse, the empty object. */
  ghost predicate Parsed(parse: string -> Option<Json>, since: seq<Chunk>, from: nat, input: Json) {
    if exists m :: from <= m < |since| && IsInput(since[m])
    then parse(InputText(since, from)) == Some(input) || (parse(InputText(since, from)) == None && input == Json("{}"))
    else input == Json("{}")
  }

  /** Each tool call carries id and name of the latest start, and what the whole text streamed in between
      parses to. */
  lemma ToolInputIsParsed(parse: string -> Option<Json>, events: seq<Event>, n: nat, j: nat) returns (i: nat)
    requires n <= |events| && j < |Chunks(parse, events, n)| && Chunks(parse, events, n)[j].ToolUseEnd?
    ensures var chunks := Chunks(parse, events, n);
            && Opens(chunks[..j], i, chunks[j].id, chunks[j].name)
            && Parsed(parse, chunks[..j], i + 1, chunks[j].input)
  {
    ToolCallsAreBracketed(parse, events, n, j);
    var before, end := Chunks(parse, events, n)[..j], Chunks(parse, events, n)[j];
    i :| Opens(before, i, end.id, end.name) && end.input == InputOf(parse, InputsFrom(before, i + 1));
    InputTextIsJoined(before, i + 1);
  }

  /** However the same text is cut into fragments, the tool is called with the same input. */
  lemma CuttingInputDoesNotMatter(parse: string -> Option<Json>, a: seq<Chunk>, i: nat, x: Json,
                                  b: seq<Chunk>, j: nat, y: Json)
    requires Parsed(parse, a, i, x) && Parsed(parse, b, j, y) && InputText(a, i) == InputText(b, j)
    requires (exists m :: i <= m < |a| && IsInput(a[m])) <==> (exists m :: j <= m < |b| && IsInput(b[m]))
    ensures x == y
  {
  }

  /** Event `s` opens a tool; no block stops and no other tool opens up to event `k`. */
  ghost predicate OpenSince(events: seq<Event>, k: nat, s: nat) {
    s < k <= |events| && events[s].ToolStart? &&
    forall m :: s < m < k ==> !events[m].BlockStop? && !events[m].ToolStart?
  }

  lemma {:induction false} OpenToolIs(events: seq<Event>, k: nat, s: nat)
    requires k <= |events|
    ensures OpenSince(events, k, s) <==> OpenTool(events, k) == Some(s)
  {
    if k > 0 && !events[k - 1].BlockStop? && !events[k - 1].ToolStart? {
      OpenToolIs(events, k - 1, s);
    }
  }

  /** Every block that stops while a tool with an id is open ends the call of that tool at once, and no
      other event ends a call. */
  lemma StopsEndCalls(parse: string -> Option<Json>, events: seq<Event>, k: nat, s: nat)
    requires k < |events|
    ensures Chunks(parse, events, k) <= Chunks(parse, events, k + 1)
    ensures var before, after := Chunks(parse, events, k), Chunks(parse, events, k + 1);
            && (events[k].BlockStop? && OpenSince(events, k, s) && events[s].id != "" ==>
                  && |after| == |before| + 1 && after[|before|].ToolUseEnd?
                  && after[|before|].id == events[s].id && after[|before|].name == events[s].name)
            && (|after| > |before| && after[|before|].ToolUseEnd? ==>
                  events[k].BlockStop? && exists o: nat :: OpenSince(events, k, o) && events[o].id != "")
  {
    OpenToolIs(events, k, s);
    if OpenTool(events, k).Some? {
      OpenToolIs(events, k, OpenTool(events, k).value);
    }
  }

  // ---------------------------------------------------------------------------------------------
  // The text comes through
  // ---------------------------------------------------------------------------------------------

  function TextOf(chunks: seq<Chunk>): string {
    if chunks == [] then ""
    else TextOf(chunks[..|chunks| - 1]) + match chunks[|chunks| - 1] case Text(t) => t case _ => ""
  }

  function ReplyText(events: seq<Event>, n: nat): string
    requires n <= |events|
  {
    if n == 0 then "" else ReplyText(events, n - 1) + match events[n - 1] case TextDelta(t) => t case _ => ""
  }

  lemma TextAdd(chunks: seq<Chunk>, c: Chunk)
    ensures TextOf(chunks + [c]) == TextOf(chunks) + match c case Text(t) => t case _ => ""
  {
    assert (chunks + [c])[..|chunks|] == chunks;
  }

  /** The chunks carry exactly the text of the reply. */
  lemma {:induction false} TextComesThrough(parse: string -> Option<Json>, events: seq<Event>, n: nat)
    requires n <= |events|
    ensures TextOf(Chunks(parse, events, n)) == ReplyText(events, n)
  {
    if n > 0 {
      TextComesThrough(parse, events, n - 1);
      var c := Emitted(parse, events, n - 1);
      if c.Some? {
        TextAdd(Chunks(parse, events, n - 1), c.value);
      } else {
        assert ReplyText(events, n) == ReplyText(events, n - 1) + "" == ReplyText(events, n - 1);
      }
    }
  }
}
