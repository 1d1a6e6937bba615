/** How one model reply is cut into spoken segments and recorded: `_generate_and_speak`,
    `_has_sentence_boundary` and `_split_on_last_boundary` of
    apps/agent/vocalflow_agent/pipeline/session.py. */
module Session {
  import opened Basics
  import opened LlmStream

  /** What a tool call comes to: its result as JSON text, and its arguments as the tool leaves them
      (the handlers write the call id into the object they are given). */
  datatype ToolRun = ToolRun(content: string, args: Json)

  /** What lies outside: Python's table of white space, the truth value of a parsed tool input, and
      the tools. */
  datatype Env = Env(ws: char -> bool, truthy: Json -> bool, tool: (string, Json) -> ToolRun)

  /** The punctuation that ends a sentence is not white space. */
  ghost predicate Sane(ws: char -> bool) {
    !ws('.') && !ws('!') && !ws('?') && !ws(':')
  }

  predicate Stop(c: char) {
    c in ".!?"
  }

  function RStrip(ws: char -> bool, s: string): string {
    if s != "" && ws(s[|s| - 1]) then RStrip(ws, s[..|s| - 1]) else s
  }

  function LStrip(ws: char -> bool, s: string): string {
    if s != "" && ws(s[0]) then LStrip(ws, s[1..]) else s
  }

  /** `_has_sentence_boundary` */
  predicate HasBoundary(ws: char -> bool, s: string) {
    var r := RStrip(ws, s);
    r != "" && r[|r| - 1] in "!?.:"
  }

  /** After rstrip, the text ends in one of . ! ? */
  predicate EndsSentence(ws: char -> bool, s: string) {
    var r := RStrip(ws, s);
    r != "" && Stop(r[|r| - 1])
  }

  ghost predicate NoStopFrom(s: string, from: int) {
    forall j :: 0 <= j < |s| && from <= j ==> !Stop(s[j])
  }

  /** `i` is the last of . ! ? in `s`, or -1. */
  ghost predicate LastStop(s: string, i: int) {
    -1 <= i < |s| && (i >= 0 ==> Stop(s[i])) && NoStopFrom(s, i + 1)
  }

  function FindStop(s: string): (i: int)
    ensures -1 <= i < |s|
  {
    if s == "" then -1 else if Stop(s[|s| - 1]) then |s| - 1 else FindStop(s[..|s| - 1])
  }

  lemma {:induction false} FindStopFinds(s: string)
    ensures LastStop(s, FindStop(s))
  {
    if s != "" && !Stop(s[|s| - 1]) {
      var t := s[..|s| - 1];
      FindStopFinds(t);
      forall j | 0 <= j < |s| && FindStop(t) + 1 <= j ensures !Stop(s[j]) {
        if j < |t| {
          assert s[j] == t[j];
        }
      }
    }
  }

  /** What `_split_on_last_boundary` returns: the sentence and what is kept. */
  function Cut(ws: char -> bool, s: string): (string, string) {
    var i := FindStop(s);
    if i < 0 then (s, "") else (s[..i + 1], LStrip(ws, s[i + 1..]))
  }

  method SplitOnLastBoundary(ws: char -> bool, s: string) returns (sentence: string, leftover: string)
    ensures (sentence, leftover) == Cut(ws, s)
  {
    FindStopFinds(s);
    var i := |s| - 1;
    while i >= 0
      invariant -1 <= i < |s| && NoStopFrom(s, i + 1)
    {
      if s[i] in ".!?" {
        assert i == FindStop(s);
        return s[..i + 1], LStrip(ws, s[i + 1..]);
      }
      i := i - 1;
    }
    return s, "";
  }

  // ---------------------------------------------------------------------------------------------
  // Cutting loses nothing but white space, and leaves no sentence behind
  // ---------------------------------------------------------------------------------------------

  lemma {:induction false} LStripDrops(ws: char -> bool, s: string) returns (gap: string)
    ensures Blank(ws, gap) && s == gap + LStrip(ws, s)
  {
    gap := "";
    if s != "" && ws(s[0]) {
      var g := LStripDrops(ws, s[1..]);
      gap := [s[0]] + g;
    }
  }

  lemma {:induction false} RStripIsPrefix(ws: char -> bool, s: string)
    ensures RStrip(ws, s) <= s
  {
    if s != "" && ws(s[|s| - 1]) {
      RStripIsPrefix(ws, s[..|s| - 1]);
    }
  }

  /** Stripping on the left goes up to the first character that is not white space. */
  lemma {:induction false} LStripStops(ws: char -> bool, s: string)
    ensures LStrip(ws, s) != "" ==> !ws(LStrip(ws, s)[0])
  {
    if s != "" && ws(s[0]) {
      LStripStops(ws, s[1..]);
    }
  }

  /** `s[k]` is one of . ! ? : and the last character that is not white space. */
  ghost predicate BoundaryAt(ws: char -> bool, s: string, k: nat) {
    k < |s| && (Stop(s[k]) || s[k] == ':') && !ws(s[k]) && Blank(ws, s[k + 1..])
  }

  lemma {:induction false} RStripStops(ws: char -> bool, s: string)
    ensures var r := RStrip(ws, s);
            |r| <= |s| && s[..|r|] == r && Blank(ws, s[|r|..]) && (r != "" ==> !ws(r[|r| - 1]))
  {
    if s != "" && ws(s[|s| - 1]) {
      var t := s[..|s| - 1];
      RStripStops(ws, t);
      var r := RStrip(ws, t);
      assert s[|r|..] == t[|r|..] + [s[|s| - 1]];
    }
  }

  lemma BlankFrom(ws: char -> bool, s: string, from: nat)
    requires from <= |s| && Blank(ws, s[from..])
    ensures forall m :: from <= m < |s| ==> ws(s[m])
  {
    forall m | from <= m < |s| ensures ws(s[m]) {
      assert s[from..][m - from] == s[m];
    }
  }

  lemma BoundaryIs(ws: char -> bool, s: string)
    ensures HasBoundary(ws, s) <==> exists k: nat :: BoundaryAt(ws, s, k)
  {
    RStripStops(ws, s);
    var r := RStrip(ws, s);
    if HasBoundary(ws, s) {
      assert BoundaryAt(ws, s, |r| - 1);
    }
    if k: nat :| BoundaryAt(ws, s, k) {
      BlankFrom(ws, s, |r|);
      BlankFrom(ws, s, k + 1);
      assert r == s[..|r|];
    }
  }

  lemma CutDropsOnlyBlanks(ws: char -> bool, s: string) returns (gap: string)
    ensures Blank(ws, gap)
    ensures s == Cut(ws, s).0 + gap + Cut(ws, s).1
    ensures Cut(ws, s).1 != "" ==> !ws(Cut(ws, s).1[0])
  {
    gap := "";
    var i := FindStop(s);
    if i >= 0 {
      LStripStops(ws, s[i + 1..]);
      gap := LStripDrops(ws, s[i + 1..]);
    }
  }

  /** A segment that is flushed early: it ends in one of . ! ?, or it has none of them and its last
      character before white space is a colon. */
  ghost predicate SentenceLike(ws: char -> bool, s: string) {
    || (s != "" && Stop(s[|s| - 1]))
    || (NoStopFrom(s, 0) && HasBoundary(ws, s) && RStrip(ws, s)[|RStrip(ws, s)| - 1] == ':')
  }

  lemma CutSaysSentences(ws: char -> bool, s: string)
    requires HasBoundary(ws, s)
    ensures SentenceLike(ws, Cut(ws, s).0) && Cut(ws, s).0 != ""
    ensures NoStopFrom(Cut(ws, s).1, 0) && !EndsSentence(ws, Cut(ws, s).1)
  {
    FindStopFinds(s);
    RStripIsPrefix(ws, s);
    var r := RStrip(ws, s);
    assert s[|r| - 1] == r[|r| - 1];
    var i := FindStop(s);
    if i >= 0 {
      var rest := s[i + 1..];
      var gap := LStripDrops(ws, rest);
      var kept := LStrip(ws, rest);
      forall j | 0 <= j < |kept| ensures !Stop(kept[j]) {
        assert kept[j] == rest[|gap| + j] == s[i + 1 + |gap| + j];
      }
    }
    RStripIsPrefix(ws, Cut(ws, s).1);
  }

  // ---------------------------------------------------------------------------------------------
  // The text buffer
  // ---------------------------------------------------------------------------------------------

  /** The pieces waiting to be spoken, and the segments handed to `_speak`, in that order. */
  datatype Turn = Turn(buf: seq<string>, spoken: seq<string>)

  function Hear(ws: char -> bool, t: Turn, delta: string): Turn {
    var combined := Concat(t.buf + [delta]);
    if HasBoundary(ws, combined) then
      var (sentence, leftover) := Cut(ws, combined);
      Turn(if leftover == "" then [] else [leftover], t.spoken + [sentence])
    else Turn(t.buf + [delta], t.spoken)
  }

  function HearChunk(ws: char -> bool, t: Turn, c: Chunk): Turn {
    match c case Text(delta) => Hear(ws, t, delta) case _ => t
  }

  function Heard(ws: char -> bool, chunks: seq<Chunk>, n: nat): Turn
    requires n <= |chunks|
  {
    if n == 0 then Turn([], []) else HearChunk(ws, Heard(ws, chunks, n - 1), chunks[n - 1])
  }

  predicate Stops(c: Chunk) {
    c.ToolUseEnd? || c.Done?
  }

  /** The first finished tool call or end of message; the chunks after it are not looked at. */
  function StopAt(chunks: seq<Chunk>): (n: nat)
    ensures n <= |chunks|
  {
    if chunks == [] || Stops(chunks[0]) then 0 else 1 + StopAt(chunks[1..])
  }

  lemma {:induction false} StopAtIs(chunks: seq<Chunk>, n: nat)
    requires n <= |chunks| && (n < |chunks| ==> Stops(chunks[n]))
    requires forall i :: 0 <= i < n ==> !Stops(chunks[i])
    ensures StopAt(chunks) == n
  {
    if n > 0 {
      StopAtIs(chunks[1..], n - 1);
    }
  }

  lemma {:induction false} StopAtStops(chunks: seq<Chunk>)
    ensures StopAt(chunks) < |chunks| ==> Stops(chunks[StopAt(chunks)])
    ensures forall i :: 0 <= i < StopAt(chunks) ==> !Stops(chunks[i])
  {
    if chunks != [] && !Stops(chunks[0]) {
      StopAtStops(chunks[1..]);
      forall i | 0 <= i < StopAt(chunks) ensures !Stops(chunks[i]) {
        assert i > 0 ==> chunks[i] == chunks[1..][i - 1];
      }
    }
  }

  function Tail(t: Turn): seq<string> {
    if t.buf == [] then [] else [Concat(t.buf)]
  }

  /** Everything that one reply has spoken. */
  function Segments(ws: char -> bool, chunks: seq<Chunk>): seq<string> {
    var n := StopAt(chunks);
    Heard(ws, chunks, n).spoken + if n < |chunks| then Tail(Heard(ws, chunks, n)) else []
  }

  datatype Entry =
    | User(text: string)
    | Assistant(text: string)
    | ToolUse(id: string, name: string, input: Json)
    | ToolResult(id: string, content: string)

  function InputOrEmpty(env: Env, input: Json): Json {
    if env.truthy(input) then input else EMPTY_OBJECT
  }

  /** The input is recorded after the tool has run on it; an empty input was a copy. */
  function UseOf(env: Env, c: Chunk, run: ToolRun): Entry
    requires c.ToolUseEnd?
  {
    ToolUse(c.id, c.name, if env.truthy(c.input) then InputOrEmpty(env, run.args) else EMPTY_OBJECT)
  }

  function ResultOf(c: Chunk, run: ToolRun): Entry
    requires c.ToolUseEnd?
  {
    ToolResult(c.id, run.content)
  }

  function RunOf(env: Env, c: Chunk): ToolRun
    requires c.ToolUseEnd?
  {
    env.tool(c.name, InputOrEmpty(env, c.input))
  }

  /** What one reply adds to the history. */
  function Entries(env: Env, chunks: seq<Chunk>): seq<Entry> {
    var n := StopAt(chunks);
    if n == |chunks| then []
    else match chunks[n]
      case Done => [Assistant(Concat(Heard(env.ws, chunks, n).buf))]
      case ToolUseEnd(_, _, _) =>
        var run := RunOf(env, chunks[n]);
        [UseOf(env, chunks[n], run), ResultOf(chunks[n], run)]
      case _ => []
  }

  /** A finished call was answered: the tool of that name was asked once with the call's input, or
      with an empty object in its place; the two entries carry the id and the name of the call, the
      input as the tool left it and what the tool said. */
  ghost predicate Answered(env: Env, id: string, name: string, input: Json, entries: seq<Entry>) {
    var given := if env.truthy(input) then input else EMPTY_OBJECT;
    && |entries| == 2 && entries[0].ToolUse? && entries[1].ToolResult?
    && entries[0].id == id && entries[0].name == name && entries[1].id == id
    && entries[1].content == env.tool(name, given).content
    && (env.truthy(input) && env.truthy(env.tool(name, given).args) ==>
          entries[0].input == env.tool(name, given).args)
    && (!env.truthy(input) || !env.truthy(env.tool(name, given).args) ==> entries[0].input == EMPTY_OBJECT)
  }

  /** What a reply adds, by its first finished tool call or end of message: the two entries of the
      answered call, one entry of text, or nothing. */
  lemma {:induction false} EntriesAre(env: Env, chunks: seq<Chunk>, n: nat)
    requires n <= |chunks| && (forall i :: 0 <= i < n ==> !chunks[i].ToolUseEnd? && !chunks[i].Done?)
    requires n < |chunks| ==> chunks[n].ToolUseEnd? || chunks[n].Done?
    ensures n == |chunks| ==> Entries(env, chunks) == []
    ensures n < |chunks| && chunks[n].Done? ==> |Entries(env, chunks)| == 1 && Entries(env, chunks)[0].Assistant?
    ensures n < |chunks| && chunks[n].ToolUseEnd? ==>
            Answered(env, chunks[n].id, chunks[n].name, chunks[n].input, Entries(env, chunks))
  {
    StopAtIs(chunks, n);
  }

  class CallSession {
    var history: seq<Entry>
    var spoken: seq<string>

    constructor ()
      ensures history == [] && spoken == []
    {
      history, spoken := [], [];
    }

    /** `again`: a tool has run, and the model is to be asked once more. */
    method GenerateAndSpeak(env: Env, chunks: seq<Chunk>) returns (again: bool)
      modifies this
      ensures spoken == old(spoken) + Segments(env.ws, chunks)
      ensures history == old(history) + Entries(env, chunks)
      ensures again <==> StopAt(chunks) < |chunks| && chunks[StopAt(chunks)].ToolUseEnd?
    {
      var buf: seq<string> := [];
      var k := 0;
      while k < |chunks|
        invariant 0 <= k <= |chunks| && history == old(history)
        invariant forall i :: 0 <= i < k ==> !Stops(chunks[i])
        invariant buf == Heard(env.ws, chunks, k).buf
        invariant spoken == old(spoken) + Heard(env.ws, chunks, k).spoken
      {
        match chunks[k] {
          case Text(delta) =>
            buf := buf + [delta];
            var combined := Concat(buf);
            if HasBoundary(env.ws, combined) {
              var sentence, leftover := SplitOnLastBoundary(env.ws, combined);
              spoken := spoken + [sentence];
              buf := if leftover == "" then [] else [leftover];
            }
          case ToolUseEnd(id, name, input) =>
            StopAtIs(chunks, k);
            if buf != [] {
              spoken := spoken + [Concat(buf)];
            }
            var run := env.tool(name, InputOrEmpty(env, input));
            var after := if env.truthy(input) then run.args else input;
            history := history + [ToolUse(id, name, InputOrEmpty(env, after))];
            history := history + [ToolResult(id, run.content)];
            return true;
          case Done =>
            StopAtIs(chunks, k);
            if buf != [] {
              spoken := spoken + [Concat(buf)];
            }
            history := history + [Assistant(Concat(buf))];
            return false;
          case _ =>
        }
        k := k + 1;
      }
      StopAtIs(chunks, k);
      return false;
    }
  }

  // ---------------------------------------------------------------------------------------------
  // The reply is preserved
  // ---------------------------------------------------------------------------------------------

  /** segments[0] + gaps[0] + segments[1] + gaps[1] + ... */
  function Weave(segments: seq<string>, gaps: seq<string>): string
    requires |segments| == |gaps|
  {
    if segments == [] then ""
    else Weave(segments[..|segments| - 1], gaps[..|gaps| - 1]) + segments[|segments| - 1] + gaps[|gaps| - 1]
  }

  /** `text` is the segments in order, with white space between them, and then `rest`. */
  ghost predicate Woven(ws: char -> bool, text: string, segments: seq<string>, gaps: seq<string>, rest: string) {
    && |gaps| == |segments| && (forall i :: 0 <= i < |gaps| ==> Blank(ws, gaps[i]))
    && text == Weave(segments, gaps) + rest
  }

  lemma WeaveAdd(segments: seq<string>, gaps: seq<string>, s: string, gap: string)
    requires |segments| == |gaps|
    ensures Weave(segments + [s], gaps + [gap]) == Weave(segments, gaps) + s + gap
  {
    assert (segments + [s])[..|segments|] == segments && (gaps + [gap])[..|gaps|] == gaps;
  }

  lemma ConcatOne(p: string)
    ensures Concat([p]) == p
  {
    assert [p][1..] == [] && Concat([]) == "";
  }

  lemma TextGrows(chunks: seq<Chunk>, n: nat)
    requires n < |chunks|
    ensures TextOf(chunks[..n + 1]) == TextOf(chunks[..n]) + match chunks[n] case Text(t) => t case _ => ""
  {
    assert chunks[..n + 1] == chunks[..n] + [chunks[n]];
    TextAdd(chunks[..n], chunks[n]);
  }

  lemma FlushWeaves(ws: char -> bool, text: string, t: Turn, gaps: seq<string>, delta: string,
                    sentence: string, gap: string, leftover: string)
    requires Woven(ws, text, t.spoken, gaps, Concat(t.buf)) && Blank(ws, gap)
    requires Concat(t.buf) + delta == sentence + gap + leftover
    ensures Woven(ws, text + delta, t.spoken + [sentence], gaps + [gap], leftover)
  {
    WeaveAdd(t.spoken, gaps, sentence, gap);
    var w := Weave(t.spoken, gaps);
    calc {
      text + delta;
      w + (Concat(t.buf) + delta);
      w + (sentence + gap + leftover);
      w + sentence + gap + leftover;
    }
  }

  lemma HearKeeps(ws: char -> bool, t: Turn, delta: string, text: string, gaps: seq<string>)
    returns (gaps': seq<string>)
    requires Woven(ws, text, t.spoken, gaps, Concat(t.buf))
    ensures var t' := Hear(ws, t, delta); Woven(ws, text + delta, t'.spoken, gaps', Concat(t'.buf))
  {
    gaps' := gaps;
    ConcatAdd(t.buf, delta);
    var combined := Concat(t.buf + [delta]);
    if HasBoundary(ws, combined) {
      var gap := CutDropsOnlyBlanks(ws, combined);
      gaps' := gaps + [gap];
      ConcatOne(Cut(ws, combined).1);
      FlushWeaves(ws, text, t, gaps, delta, Cut(ws, combined).0, gap, Cut(ws, combined).1);
    } else {
      assert text + delta == Weave(t.spoken, gaps) + combined;
    }
  }

  /** At every chunk: what has come in is what has been handed to `_speak`, in order, plus the buffer;
      only white space is dropped, and only right after a segment. */
  lemma {:induction false} NoTextLost(ws: char -> bool, chunks: seq<Chunk>, n: nat) returns (gaps: seq<string>)
    requires n <= |chunks|
    ensures var t := Heard(ws, chunks, n); Woven(ws, TextOf(chunks[..n]), t.spoken, gaps, Concat(t.buf))
  {
    if n == 0 {
      gaps := [];
      assert chunks[..0] == [];
    } else {
      gaps := NoTextLost(ws, chunks, n - 1);
      TextGrows(chunks, n - 1);
      var text := TextOf(chunks[..n - 1]);
      if chunks[n - 1].Text? {
        gaps := HearKeeps(ws, Heard(ws, chunks, n - 1), chunks[n - 1].text, text, gaps);
      } else {
        assert text + "" == text;
      }
    }
  }

  /** The whole reply is spoken: up to the first tool call or the end of the message, the segments
      are the model's text. */
  lemma ReplyIsSpoken(ws: char -> bool, chunks: seq<Chunk>) returns (gaps: seq<string>)
    requires StopAt(chunks) < |chunks|
    ensures Woven(ws, TextOf(chunks[..StopAt(chunks)]), Segments(ws, chunks), gaps, "")
  {
    var n := StopAt(chunks);
    var t := Heard(ws, chunks, n);
    gaps := NoTextLost(ws, chunks, n);
    if t.buf == [] {
      assert Concat(t.buf) == "" && Segments(ws, chunks) == t.spoken;
    } else {
      WeaveAdd(t.spoken, gaps, Concat(t.buf), "");
      gaps := gaps + [""];
      var text := TextOf(chunks[..n]);
      assert text == text + "";
    }
  }

  /** After each delta the buffer does not end in . ! or ?, and every segment that has been flushed
      so far is a sentence, or ends in a colon. */
  lemma {:induction false} SentencesAreFlushed(ws: char -> bool, chunks: seq<Chunk>, n: nat, i: nat)
    requires n <= |chunks|
    ensures !EndsSentence(ws, Concat(Heard(ws, chunks, n).buf))
    ensures var spoken := Heard(ws, chunks, n).spoken;
            i < |spoken| ==> SentenceLike(ws, spoken[i]) && spoken[i] != ""
  {
    if n > 0 {
      SentencesAreFlushed(ws, chunks, n - 1, i);
      if chunks[n - 1].Text? {
        var t := Heard(ws, chunks, n - 1);
        var combined := Concat(t.buf + [chunks[n - 1].text]);
        if HasBoundary(ws, combined) {
          CutSaysSentences(ws, combined);
          ConcatOne(Cut(ws, combined).1);
        }
      }
    }
  }

  // ---------------------------------------------------------------------------------------------
  // From the events of the model to the ear
  // ---------------------------------------------------------------------------------------------

  /** From `k` on, the first event that ends the turn. */
  function StopEvent(parse: string -> Option<Json>, events: seq<Event>, k: nat): (m: nat)
    requires k <= |events|
    ensures k <= m <= |events|
    decreases |events| - k
  {
    if k == |events| then k
    else match Emitted(parse, events, k)
      case Some(c) => if Stops(c) then k else StopEvent(parse, events, k + 1)
      case None => StopEvent(parse, events, k + 1)
  }

  lemma {:induction false} ChunksExtend(parse: string -> Option<Json>, events: seq<Event>, m: nat, n: nat)
    requires m <= n <= |events|
    ensures Chunks(parse, events, m) <= Chunks(parse, events, n)
    decreases n
  {
    if m < n {
      ChunksExtend(parse, events, m, n - 1);
    }
  }

  ghost predicate NoneStops(chunks: seq<Chunk>) {
    forall i :: 0 <= i < |chunks| ==> !Stops(chunks[i])
  }

  lemma {:induction false} NoneStopsBefore(parse: string -> Option<Json>, events: seq<Event>, k: nat)
    requires k <= |events| && NoneStops(Chunks(parse, events, k))
    ensures var m := StopEvent(parse, events, k);
            && NoneStops(Chunks(parse, events, m))
            && (m < |events| ==> Emitted(parse, events, m).Some? && Stops(Emitted(parse, events, m).value))
    decreases |events| - k
  {
    if k < |events| {
      var c := Emitted(parse, events, k);
      if c.None? || !Stops(c.value) {
        NoneStopsBefore(parse, events, k + 1);
      }
    }
  }

  lemma MessageStopStops(parse: string -> Option<Json>, events: seq<Event>, n: nat, m: nat)
    requires 0 < n <= m <= |events| && events[n - 1].MessageStop?
    ensures !NoneStops(Chunks(parse, events, m))
  {
    ChunksExtend(parse, events, n, m);
    assert Chunks(parse, events, m)[|Chunks(parse, events, n - 1)|] == Done;
  }

  /** The chunks that a turn looks at are those of the events before `StopEvent`. */
  lemma StopEventStops(parse: string -> Option<Json>, events: seq<Event>)
    ensures var m := StopEvent(parse, events, 0);
            var chunks := Chunks(parse, events, Consumed(events));
            && m <= Consumed(events)
            && chunks[..StopAt(chunks)] == Chunks(parse, events, m)
            && (StopAt(chunks) < |chunks| <==> m < |events|)
  {
    var m := StopEvent(parse, events, 0);
    var n := Consumed(events);
    NoneStopsBefore(parse, events, 0);
    if n > 0 && events[n - 1].MessageStop? && n <= m {
      MessageStopStops(parse, events, n, m);
    }
    var chunks := Chunks(parse, events, n);
    ChunksExtend(parse, events, m, n);
    var p := |Chunks(parse, events, m)|;
    if m < |events| {
      ChunksExtend(parse, events, m + 1, n);
      assert Chunks(parse, events, m + 1)[p] == chunks[p];
    }
    StopAtIs(chunks, p);
  }

  /** For every event sequence and every cutting of the text into deltas: up to the first tool call or
      the end of the message, the ear gets the model's text. */
  lemma EventsAreSpoken(parse: string -> Option<Json>, ws: char -> bool, events: seq<Event>) returns (gaps: seq<string>)
    requires StopEvent(parse, events, 0) < |events|
    ensures Woven(ws, ReplyText(events, StopEvent(parse, events, 0)),
                  Segments(ws, Chunks(parse, events, Consumed(events))), gaps, "")
  {
    StopEventStops(parse, events);
    TextComesThrough(parse, events, StopEvent(parse, events, 0));
    gaps := ReplyIsSpoken(ws, Chunks(parse, events, Consumed(events)));
  }

  function Squeeze(ws: char -> bool, s: string): string {
    if s == "" then "" else Squeeze(ws, s[..|s| - 1]) + if ws(s[|s| - 1]) then "" else [s[|s| - 1]]
  }

  lemma {:induction false} SqueezeAdd(ws: char -> bool, s: string, t: string)
    ensures Squeeze(ws, s + t) == Squeeze(ws, s) + Squeeze(ws, t)
  {
    if t == "" {
      assert s + t == s;
    } else {
      SqueezeAdd(ws, s, t[..|t| - 1]);
      assert (s + t)[..|s + t| - 1] == s + t[..|t| - 1];
    }
  }

  /** Squeezing takes out white space and nothing else. */
  lemma {:induction false} SqueezeKeeps(ws: char -> bool, s: string, c: char)
    ensures multiset(Squeeze(ws, s))[c] == if ws(c) then 0 else multiset(s)[c]
  {
    if s != "" {
      SqueezeKeeps(ws, s[..|s| - 1], c);
      assert s == s[..|s| - 1] + [s[|s| - 1]];
    }
  }

  lemma {:induction false} SqueezeBlank(ws: char -> bool, s: string)
    requires Blank(ws, s)
    ensures Squeeze(ws, s) == ""
  {
    if s != "" {
      SqueezeBlank(ws, s[..|s| - 1]);
    }
  }

  lemma {:induction false} SqueezeWeave(ws: char -> bool, segments: seq<string>, gaps: seq<string>)
    requires |segments| == |gaps| && forall i :: 0 <= i < |gaps| ==> Blank(ws, gaps[i])
    ensures Squeeze(ws, Weave(segments, gaps)) == Squeeze(ws, Concat(segments))
  {
    if segments != [] {
      var last := |segments| - 1;
      SqueezeWeave(ws, segments[..last], gaps[..last]);
      assert segments == segments[..last] + [segments[last]];
      ConcatAdd(segments[..last], segments[last]);
      var w := Weave(segments[..last], gaps[..last]);
      SqueezeAdd(ws, w + segments[last], gaps[last]);
      SqueezeAdd(ws, w, segments[last]);
      SqueezeAdd(ws, Concat(segments[..last]), segments[last]);
      SqueezeBlank(ws, gaps[last]);
    }
  }

  /** However the same text is cut into deltas, the same is heard, white space apart. */
  lemma CuttingDoesNotMatter(ws: char -> bool, one: seq<Chunk>, other: seq<Chunk>)
    requires StopAt(one) < |one| && StopAt(other) < |other|
    requires TextOf(one[..StopAt(one)]) == TextOf(other[..StopAt(other)])
    ensures Squeeze(ws, Concat(Segments(ws, one))) == Squeeze(ws, Concat(Segments(ws, other)))
  {
    var g := ReplyIsSpoken(ws, one);
    var h := ReplyIsSpoken(ws, other);
    SqueezeWeave(ws, Segments(ws, one), g);
    SqueezeWeave(ws, Segments(ws, other), h);
    assert Weave(Segments(ws, one), g) + "" == Weave(Segments(ws, one), g);
    assert Weave(Segments(ws, other), h) + "" == Weave(Segments(ws, other), h);
  }

  // ---------------------------------------------------------------------------------------------
  // What the history keeps of a reply
  // ---------------------------------------------------------------------------------------------

  ghost predicate NeverABoundary(ws: char -> bool, chunks: seq<Chunk>, n: nat)
    requires n <= |chunks|
  {
    forall k :: 0 <= k <= n ==> !HasBoundary(ws, TextOf(chunks[..k]))
  }

  lemma {:induction false} NothingFlushed(ws: char -> bool, chunks: seq<Chunk>, n: nat)
    requires n <= |chunks|
    ensures NeverABoundary(ws, chunks, n) <==> Heard(ws, chunks, n).spoken == []
    ensures Heard(ws, chunks, n).spoken == [] ==> Concat(Heard(ws, chunks, n).buf) == TextOf(chunks[..n])
  {
    if n == 0 {
      assert chunks[..0] == [];
    } else {
      NothingFlushed(ws, chunks, n - 1);
      TextGrows(chunks, n - 1);
      var t := Heard(ws, chunks, n - 1);
      if chunks[n - 1].Text? {
        ConcatAdd(t.buf, chunks[n - 1].text);
      } else {
        assert TextOf(chunks[..n]) == TextOf(chunks[..n - 1]);
      }
      assert NeverABoundary(ws, chunks, n) <==>
             NeverABoundary(ws, chunks, n - 1) && !HasBoundary(ws, TextOf(chunks[..n]));
    }
  }

  lemma WeaveHasText(segments: seq<string>, gaps: seq<string>)
    requires |segments| == |gaps| && segments != [] && segments[|segments| - 1] != ""
    ensures |Weave(segments, gaps)| > 0
  {
  }

  lemma FlushedIsShorter(ws: char -> bool, chunks: seq<Chunk>, n: nat)
    requires n <= |chunks| && Heard(ws, chunks, n).spoken != []
    ensures |Concat(Heard(ws, chunks, n).buf)| < |TextOf(chunks[..n])|
  {
    var t := Heard(ws, chunks, n);
    SentencesAreFlushed(ws, chunks, n, |t.spoken| - 1);
    var gaps := NoTextLost(ws, chunks, n);
    WeaveHasText(t.spoken, gaps);
  }

  /** When a message ends, the history entry is the whole reply exactly when no delta ever completed a
      sentence; otherwise it is a shorter tail. */
  lemma HistoryKeepsTheReply(env: Env, chunks: seq<Chunk>)
    requires StopAt(chunks) < |chunks| && chunks[StopAt(chunks)].Done?
    ensures var n := StopAt(chunks);
            Entries(env, chunks) == [Assistant(TextOf(chunks[..n]))] <==> NeverABoundary(env.ws, chunks, n)
  {
    var n := StopAt(chunks);
    var entries := Entries(env, chunks);
    assert entries[0] == Assistant(Concat(Heard(env.ws, chunks, n).buf));
    NothingFlushed(env.ws, chunks, n);
    if Heard(env.ws, chunks, n).spoken != [] {
      FlushedIsShorter(env.ws, chunks, n);
    }
  }

  /** "Hi." is spoken, and the assistant's turn is recorded as empty. */
  lemma SpokenReplyMissingFromHistory(env: Env)
    requires Sane(env.ws)
    ensures var chunks := [Text("Hi."), Done];
            Segments(env.ws, chunks) == ["Hi."] && Entries(env, chunks) == [Assistant("")]
  {
    var ws, chunks := env.ws, [Text("Hi."), Done];
    StopAtIs(chunks, 1);
    assert Heard(ws, chunks, 0) == Turn([], []);
    ConcatOne("Hi.");
    assert [] + ["Hi."] == ["Hi."];
    assert RStrip(ws, "Hi.") == "Hi.";
    assert "Hi."[2] == '.' && FindStop("Hi.") == 2;
    assert LStrip(ws, "Hi."[3..]) == "";
    assert Cut(ws, "Hi.") == ("Hi.", "");
    assert Heard(ws, chunks, 1) == Turn([], ["Hi."]);
  }
}
