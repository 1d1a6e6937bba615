/** The conversation history of a call, written by every reply task of
    apps/agent/vocalflow_agent/pipeline/session.py: tasks of one event loop that take turns at their
    awaits and may be cancelled there. */
module History {
  import opened Basics
  import opened LlmStream
  import opened Session

  datatype Phase =
    | Fresh        // created, nothing done yet
    | Reading      // asked the model, reads its chunks
    | Invoking     // a tool call is complete: speaks what is buffered and awaits the tool
    | UseWritten(run: ToolRun)   // between the two appends; there is no await here
    | Recorded(entries: seq<Entry>)   // has appended these, and never will more
    | Ended        // the stream ended with neither
    | Gone         // cancelled or failed

  datatype Task = Task(chunks: seq<Chunk>, k: nat, turn: Turn, phase: Phase)

  /** `running`: the task that holds the event loop, if it is one of the replies. `sent`: the histories
      that were sent to the model. */
  datatype State = State(history: seq<Entry>, tasks: seq<Task>, running: Option<nat>, sent: seq<seq<Entry>>)

  datatype Step =
    | Spawn(chunks: seq<Chunk>)   // create_task; `chunks` is what the model will answer
    | Listen(text: string)        // the main loop appends what the caller, or the nudge, says
    | Resume(t: nat)
    | Suspend(t: nat)             // an await: possible anywhere here but between the two appends
    | Ask(t: nat)
    | Read(t: nat)
    | RecordUse(t: nat, run: ToolRun)   // the tool has answered
    | RecordResult(t: nat)
    | Abort(t: nat)               // CancelledError at an await, or an exception from the model or a tool

  const INITIAL := State([], [], None, [])

  predicate Runs(s: State, t: nat, phase: Phase) {
    s.running == Some(t) && t < |s.tasks| && s.tasks[t].phase == phase
  }

  predicate CanResume(p: Phase) {
    !p.UseWritten? && !p.Gone?
  }

  predicate Enabled(s: State, step: Step) {
    match step
    case Spawn(_) => true
    case Listen(_) => s.running == None
    case Resume(t) => s.running == None && t < |s.tasks| && CanResume(s.tasks[t].phase)
    case Suspend(t) => s.running == Some(t) && t < |s.tasks| && !s.tasks[t].phase.UseWritten?
    case Ask(t) => Runs(s, t, Fresh)
    case Read(t) => Runs(s, t, Reading)
    case RecordUse(t, _) => Runs(s, t, Invoking)
    case RecordResult(t) => Writing(s) && s.running == Some(t)
    case Abort(t) =>
      t < |s.tasks| && s.tasks[t].phase in {Fresh, Reading, Invoking} && (s.running == None || s.running == Some(t))
  }

  /** One turn of `async for chunk in ...`. */
  function ReadChunk(env: Env, t: Task): Task {
    if t.k >= |t.chunks| then t.(phase := Ended)
    else
      var c := t.chunks[t.k];
      if Stops(c) then
        t.(turn := t.turn.(spoken := t.turn.spoken + Tail(t.turn)),
           phase := if c.Done? then Recorded(ReadEntries(t)) else Invoking)
      else t.(k := t.k + 1, turn := HearChunk(env.ws, t.turn, c))
  }

  /** What that turn appends to the history. */
  function ReadEntries(t: Task): seq<Entry> {
    if t.k < |t.chunks| && t.chunks[t.k].Done? then [Assistant(Concat(t.turn.buf))] else []
  }

  predicate AtTool(t: Task) {
    t.k < |t.chunks| && t.chunks[t.k].ToolUseEnd?
  }

  function Put(s: State, t: nat, task: Task): State
    requires t < |s.tasks|
  {
    s.(tasks := s.tasks[t := task])
  }

  function Next(env: Env, s: State, step: Step): State
    requires Enabled(s, step)
  {
    match step
    case Spawn(chunks) => s.(tasks := s.tasks + [Task(chunks, 0, Turn([], []), Fresh)])
    case Listen(text) => s.(history := s.history + [User(text)])
    case Resume(t) => s.(running := Some(t))
    case Suspend(t) => s.(running := None)
    case Ask(t) => Put(s, t, s.tasks[t].(phase := Reading)).(sent := s.sent + [s.history])
    case Read(t) => Put(s, t, ReadChunk(env, s.tasks[t])).(history := s.history + ReadEntries(s.tasks[t]))
    case RecordUse(t, run) =>
      var task := s.tasks[t];
      Put(s, t, task.(phase := UseWritten(run))).(
        history := s.history + if AtTool(task) then [UseOf(env, task.chunks[task.k], run)] else [])
    case RecordResult(t) =>
      var task := s.tasks[t];
      if AtTool(task) then
        var c, run := task.chunks[task.k], task.phase.run;
        Put(s, t, task.(phase := Recorded([UseOf(env, c, run), ResultOf(c, run)]))).(
          history := s.history + [ResultOf(c, run)])
      else s
    case Abort(t) => Put(s, t, s.tasks[t].(phase := Gone)).(running := None)
  }

  ghost predicate Reaches(env: Env, s: State, steps: seq<Step>, t: State)
    decreases |steps|
  {
    if steps == [] then s == t
    else Enabled(s, steps[0]) && Reaches(env, Next(env, s, steps[0]), steps[1..], t)
  }

  lemma {:induction false} ReachesAppend(env: Env, s: State, steps: seq<Step>, t: State, step: Step)
    requires Reaches(env, s, steps, t) && Enabled(t, step)
    ensures Reaches(env, s, steps + [step], Next(env, t, step))
    decreases |steps|
  {
    if steps == [] {
      assert Reaches(env, Next(env, s, step), [], Next(env, t, step));
    } else {
      ReachesAppend(env, Next(env, s, steps[0]), steps[1..], t, step);
      assert (steps + [step])[1..] == steps[1..] + [step];
    }
  }

  lemma {:induction false} ReachesTrans(env: Env, s: State, steps: seq<Step>, t: State, more: seq<Step>, u: State)
    requires Reaches(env, s, steps, t) && Reaches(env, t, more, u)
    ensures Reaches(env, s, steps + more, u)
    decreases |steps|
  {
    if steps == [] {
      assert steps + more == more;
    } else {
      ReachesTrans(env, Next(env, s, steps[0]), steps[1..], t, more, u);
      assert (steps + more)[1..] == steps[1..] + more;
    }
  }

  // ---------------------------------------------------------------------------------------------
  // Tool traffic stays paired
  // ---------------------------------------------------------------------------------------------

  /** A tool call and the result of one and the same run of the tool; in particular their ids agree. */
  ghost predicate SameRun(env: Env, use: Entry, result: Entry) {
    && use.ToolUse? && result.ToolResult? && use.id == result.id
    && exists c: Chunk, run :: c.ToolUseEnd? && use == UseOf(env, c, run) && result == ResultOf(c, run)
  }

  /** The tool call at `i` is followed by its own result. */
  ghost predicate Answered(env: Env, h: seq<Entry>, i: nat)
    requires i < |h|
  {
    h[i].ToolUse? ==> i + 1 < |h| && SameRun(env, h[i], h[i + 1])
  }

  /** The result at `i` follows its own tool call. */
  ghost predicate Asked(env: Env, h: seq<Entry>, i: nat)
    requires i < |h|
  {
    h[i].ToolResult? ==> i > 0 && SameRun(env, h[i - 1], h[i])
  }

  /** Tool calls and results come in adjacent pairs. */
  ghost predicate Paired(env: Env, h: seq<Entry>) {
    forall i: nat :: i < |h| ==> Answered(env, h, i) && Asked(env, h, i)
  }

  /** All paired but for one call at the very end. */
  ghost predicate HalfPaired(env: Env, h: seq<Entry>, use: Entry) {
    h != [] && h[|h| - 1] == use && Paired(env, h[..|h| - 1])
  }

  lemma PairedAdd(env: Env, h: seq<Entry>, e: Entry)
    requires Paired(env, h) && (e.User? || e.Assistant?)
    ensures Paired(env, h + [e])
  {
    var g := h + [e];
    forall i: nat | i < |g| ensures Answered(env, g, i) && Asked(env, g, i) {
      if i < |h| {
        assert Answered(env, h, i) && Asked(env, h, i);
      }
    }
  }

  lemma PairedClose(env: Env, h: seq<Entry>, use: Entry, result: Entry)
    requires HalfPaired(env, h, use) && SameRun(env, use, result)
    ensures Paired(env, h + [result])
  {
    var g, p := h + [result], h[..|h| - 1];
    forall i: nat | i < |g| ensures Answered(env, g, i) && Asked(env, g, i) {
      if i < |p| {
        assert Answered(env, p, i) && Asked(env, p, i);
        assert g[i] == p[i] && (i + 1 < |p| ==> g[i + 1] == p[i + 1]);
      }
    }
  }

  /** What a reply may leave in the history: its text, or its tool call and the result of one run. */
  ghost predicate IsRecord(env: Env, chunks: seq<Chunk>, entries: seq<Entry>) {
    var n := StopAt(chunks);
    n < |chunks| &&
    if chunks[n].ToolUseEnd?
    then exists run :: entries == [UseOf(env, chunks[n], run), ResultOf(chunks[n], run)]
    else entries == Entries(env, chunks)
  }

  /** Where each task has got to in its own reply; nothing here depends on the other tasks. */
  ghost predicate TaskOk(env: Env, t: Task) {
    match t.phase
    case Fresh => t.k == 0 && t.turn == Turn([], [])
    case Reading => t.k <= StopAt(t.chunks) && t.turn == Heard(env.ws, t.chunks, t.k)
    case Invoking => t.k == StopAt(t.chunks) && AtTool(t) && t.turn.spoken == Segments(env.ws, t.chunks)
    case UseWritten(_) => t.k == StopAt(t.chunks) && AtTool(t) && t.turn.spoken == Segments(env.ws, t.chunks)
    case Recorded(entries) => IsRecord(env, t.chunks, entries) && t.turn.spoken == Segments(env.ws, t.chunks)
    case Ended => StopAt(t.chunks) == |t.chunks| && t.turn.spoken == Segments(env.ws, t.chunks)
    case Gone => t.turn.spoken <= Segments(env.ws, t.chunks)
  }

  ghost predicate TasksOk(env: Env, s: State) {
    forall t :: 0 <= t < |s.tasks| ==> TaskOk(env, s.tasks[t])
  }

  /** Only the running task can be between its two appends. */
  ghost predicate OneWriter(s: State) {
    forall t :: 0 <= t < |s.tasks| && s.tasks[t].phase.UseWritten? ==> s.running == Some(t)
  }

  predicate Writing(s: State) {
    s.running.Some? && s.running.value < |s.tasks| && s.tasks[s.running.value].phase.UseWritten?
  }

  ghost predicate HistoryOk(env: Env, s: State) {
    if Writing(s) then
      var task := s.tasks[s.running.value];
      AtTool(task) && HalfPaired(env, s.history, UseOf(env, task.chunks[task.k], task.phase.run))
    else Paired(env, s.history)
  }

  ghost predicate SentOk(env: Env, s: State) {
    forall i :: 0 <= i < |s.sent| ==> Paired(env, s.sent[i])
  }

  ghost predicate Inv(env: Env, s: State) {
    TasksOk(env, s) && OneWriter(s) && HistoryOk(env, s) && SentOk(env, s)
  }

  lemma {:induction false} SpokenSoFar(ws: char -> bool, chunks: seq<Chunk>, m: nat, n: nat)
    requires m <= n <= |chunks|
    ensures Heard(ws, chunks, m).spoken <= Heard(ws, chunks, n).spoken
    decreases n
  {
    if m < n {
      SpokenSoFar(ws, chunks, m, n - 1);
    }
  }

  lemma ReadKeepsTaskOk(env: Env, t: Task)
    requires TaskOk(env, t) && t.phase == Reading
    ensures TaskOk(env, ReadChunk(env, t))
  {
    StopAtStops(t.chunks);
  }

  lemma AbortKeepsTaskOk(env: Env, t: Task)
    requires TaskOk(env, t) && t.phase in {Fresh, Reading, Invoking}
    ensures TaskOk(env, t.(phase := Gone))
  {
    if t.phase == Reading {
      SpokenSoFar(env.ws, t.chunks, t.k, StopAt(t.chunks));
    }
  }

  lemma AskKeepsTaskOk(env: Env, t: Task)
    requires TaskOk(env, t) && t.phase == Fresh
    ensures TaskOk(env, t.(phase := Reading))
  {
    StopAtStops(t.chunks);
  }

  lemma RecordsKeepTaskOk(env: Env, t: Task, run: ToolRun)
    requires TaskOk(env, t) && (t.phase == Invoking || t.phase.UseWritten?) && AtTool(t)
    ensures TaskOk(env, t.(phase := UseWritten(run)))
    ensures var c := t.chunks[t.k]; TaskOk(env, t.(phase := Recorded([UseOf(env, c, run), ResultOf(c, run)])))
  {
    var c := t.chunks[t.k];
    assert IsRecord(env, t.chunks, [UseOf(env, c, run), ResultOf(c, run)]);
  }

  lemma PutKeepsTasksOk(env: Env, s: State, u: State, t: nat)
    requires TasksOk(env, s) && t < |s.tasks| && |u.tasks| == |s.tasks|
    requires u.tasks == s.tasks[t := u.tasks[t]] && TaskOk(env, u.tasks[t])
    ensures TasksOk(env, u)
  {
  }

  lemma SpawnKeepsTasksOk(env: Env, s: State, chunks: seq<Chunk>)
    requires TasksOk(env, s)
    ensures TasksOk(env, Next(env, s, Spawn(chunks)))
  {
  }

  lemma RecordUseKeepsTasksOk(env: Env, s: State, t: nat, run: ToolRun)
    requires TasksOk(env, s) && Enabled(s, RecordUse(t, run))
    ensures TasksOk(env, Next(env, s, RecordUse(t, run)))
  {
    assert TaskOk(env, s.tasks[t]);
    RecordsKeepTaskOk(env, s.tasks[t], run);
    PutKeepsTasksOk(env, s, Next(env, s, RecordUse(t, run)), t);
  }

  lemma RecordResultKeepsTasksOk(env: Env, s: State, t: nat)
    requires TasksOk(env, s) && Enabled(s, RecordResult(t))
    ensures TasksOk(env, Next(env, s, RecordResult(t)))
  {
    assert TaskOk(env, s.tasks[t]);
    RecordsKeepTaskOk(env, s.tasks[t], s.tasks[t].phase.run);
    PutKeepsTasksOk(env, s, Next(env, s, RecordResult(t)), t);
  }

  lemma StepKeepsTasksOk(env: Env, s: State, step: Step)
    requires TasksOk(env, s) && Enabled(s, step)
    ensures TasksOk(env, Next(env, s, step))
  {
    match step
    case Spawn(chunks) => SpawnKeepsTasksOk(env, s, chunks);
    case Listen(_) =>
    case Resume(_) =>
    case Suspend(_) =>
    case Ask(t) =>
      AskKeepsTaskOk(env, s.tasks[t]);
      PutKeepsTasksOk(env, s, Next(env, s, step), t);
    case Read(t) =>
      ReadKeepsTaskOk(env, s.tasks[t]);
      PutKeepsTasksOk(env, s, Next(env, s, step), t);
    case RecordUse(t, run) => RecordUseKeepsTasksOk(env, s, t, run);
    case RecordResult(t) => RecordResultKeepsTasksOk(env, s, t);
    case Abort(t) =>
      AbortKeepsTaskOk(env, s.tasks[t]);
      PutKeepsTasksOk(env, s, Next(env, s, step), t);
  }

  lemma StepKeepsHistoryOk(env: Env, s: State, step: Step)
    requires Inv(env, s) && Enabled(s, step)
    ensures HistoryOk(env, Next(env, s, step))
  {
    match step
    case Listen(text) => PairedAdd(env, s.history, User(text));
    case Read(t) =>
      var task := s.tasks[t];
      if ReadEntries(task) != [] {
        PairedAdd(env, s.history, Assistant(Concat(task.turn.buf)));
      } else {
        assert s.history + [] == s.history;
      }
    case RecordUse(t, run) =>
      assert TaskOk(env, s.tasks[t]);
      var use := UseOf(env, s.tasks[t].chunks[s.tasks[t].k], run);
      assert (s.history + [use])[..|s.history|] == s.history;
    case RecordResult(t) =>
      var c := s.tasks[t].chunks[s.tasks[t].k];
      var run := s.tasks[t].phase.run;
      PairedClose(env, s.history, UseOf(env, c, run), ResultOf(c, run));
    case _ =>
  }

  lemma StepKeepsSentOk(env: Env, s: State, step: Step)
    requires Inv(env, s) && Enabled(s, step)
    ensures SentOk(env, Next(env, s, step))
  {
  }

  lemma StepKeepsOneWriter(env: Env, s: State, step: Step)
    requires OneWriter(s) && Enabled(s, step)
    ensures OneWriter(Next(env, s, step))
  {
  }

  lemma StepPreservesInv(env: Env, s: State, step: Step)
    requires Inv(env, s) && Enabled(s, step)
    ensures Inv(env, Next(env, s, step))
  {
    StepKeepsTasksOk(env, s, step);
    StepKeepsOneWriter(env, s, step);
    StepKeepsHistoryOk(env, s, step);
    StepKeepsSentOk(env, s, step);
  }

  lemma {:induction false} RunPreservesInv(env: Env, s: State, steps: seq<Step>, t: State)
    requires Inv(env, s) && Reaches(env, s, steps, t)
    ensures Inv(env, t)
    decreases |steps|
  {
    if steps != [] {
      StepPreservesInv(env, s, steps[0]);
      RunPreservesInv(env, Next(env, s, steps[0]), steps[1..], t);
    }
  }

  /** In every interleaving and with every cancellation: whenever no reply holds the event loop, and
      in every request that was sent to the model, each tool call is immediately followed by its own
      result and each result follows its own call. */
  lemma ToolTrafficStaysPaired(env: Env, steps: seq<Step>, s: State)
    requires Reaches(env, INITIAL, steps, s)
    ensures s.running == None ==> Paired(env, s.history)
    ensures forall i :: 0 <= i < |s.sent| ==> Paired(env, s.sent[i])
  {
    RunPreservesInv(env, INITIAL, steps, s);
  }

  /** Whatever the other tasks do, a reply says the segments of its own chunks: all of them, in order,
      when it comes to its end, and a first part of them when it is cut off. */
  lemma RepliesDoNotMix(env: Env, steps: seq<Step>, s: State, t: nat)
    requires Reaches(env, INITIAL, steps, s) && t < |s.tasks|
    ensures var task := s.tasks[t];
            && task.turn.spoken <= Segments(env.ws, task.chunks)
            && (task.phase.Recorded? || task.phase.Ended? ==> task.turn.spoken == Segments(env.ws, task.chunks))
  {
    RunPreservesInv(env, INITIAL, steps, s);
    var task := s.tasks[t];
    assert TaskOk(env, task);
    if task.phase == Reading {
      SpokenSoFar(env.ws, task.chunks, task.k, StopAt(task.chunks));
    }
  }

  // ---------------------------------------------------------------------------------------------
  // Each reply is recorded once
  // ---------------------------------------------------------------------------------------------

  /** The entries that come from replies. */
  function Replies(h: seq<Entry>): seq<Entry> {
    if h == [] then []
    else Replies(h[..|h| - 1]) + if h[|h| - 1].User? then [] else [h[|h| - 1]]
  }

  predicate Wrote(t: Task) {
    t.phase.UseWritten? || t.phase.Recorded?
  }

  function Written(env: Env, t: Task): seq<Entry> {
    match t.phase
    case UseWritten(run) => if AtTool(t) then [UseOf(env, t.chunks[t.k], run)] else []
    case Recorded(entries) => entries
    case _ => []
  }

  /** What the tasks have written, one task after the other. */
  function InTurn(env: Env, tasks: seq<Task>, order: seq<nat>): seq<Entry>
    requires forall i :: 0 <= i < |order| ==> order[i] < |tasks|
  {
    if order == [] then []
    else InTurn(env, tasks, order[..|order| - 1]) + Written(env, tasks[order[|order| - 1]])
  }

  /** `order` names each task that has written once, and no other. */
  ghost predicate Writers(tasks: seq<Task>, order: seq<nat>) {
    && (forall i :: 0 <= i < |order| ==> order[i] < |tasks| && Wrote(tasks[order[i]]))
    && (forall i, j :: 0 <= i < j < |order| ==> order[i] != order[j])
    && (forall t: nat :: t < |tasks| && Wrote(tasks[t]) ==> t in order)
  }

  ghost predicate InOrder(env: Env, s: State, order: seq<nat>) {
    && Writers(s.tasks, order)
    && Replies(s.history) == InTurn(env, s.tasks, order)
    && (Writing(s) ==> order != [] && order[|order| - 1] == s.running.value)
  }

  lemma RepliesAdd(h: seq<Entry>, e: Entry)
    ensures Replies(h + [e]) == Replies(h) + if e.User? then [] else [e]
  {
    assert (h + [e])[..|h|] == h;
  }

  lemma {:induction false} InTurnFrame(env: Env, a: seq<Task>, b: seq<Task>, order: seq<nat>)
    requires forall i :: 0 <= i < |order| ==> order[i] < |a| && order[i] < |b|
    requires forall i :: 0 <= i < |order| ==> Written(env, a[order[i]]) == Written(env, b[order[i]])
    ensures InTurn(env, a, order) == InTurn(env, b, order)
  {
    if order != [] {
      InTurnFrame(env, a, b, order[..|order| - 1]);
    }
  }

  lemma WritersFrame(a: seq<Task>, b: seq<Task>, order: seq<nat>)
    requires Writers(a, order) && |a| <= |b|
    requires forall t: nat :: t < |a| && Wrote(a[t]) ==> Wrote(b[t])
    requires forall t: nat :: t < |b| && Wrote(b[t]) ==> t < |a| && Wrote(a[t])
    ensures Writers(b, order)
  {
  }

  /** A step that writes nothing. */
  lemma IdleStep(env: Env, s: State, u: State, order: seq<nat>)
    requires InOrder(env, s, order) && Replies(u.history) == Replies(s.history)
    requires Writing(u) ==> Writing(s) && u.running == s.running
    requires |s.tasks| <= |u.tasks|
    requires forall t: nat :: t < |s.tasks| && Wrote(s.tasks[t]) ==> u.tasks[t] == s.tasks[t]
    requires forall t: nat :: t < |u.tasks| && Wrote(u.tasks[t]) ==> t < |s.tasks| && Wrote(s.tasks[t])
    ensures InOrder(env, u, order)
  {
    WritersFrame(s.tasks, u.tasks, order);
    InTurnFrame(env, s.tasks, u.tasks, order);
  }

  lemma WritersAdd(tasks: seq<Task>, t: nat, task: Task, order: seq<nat>)
    requires Writers(tasks, order) && t < |tasks| && !Wrote(tasks[t]) && Wrote(task)
    ensures Writers(tasks[t := task], order + [t])
  {
    var more := order + [t];
    forall v: nat | v < |tasks| && Wrote(tasks[t := task][v]) ensures v in more {
      assert v == t || v in order;
    }
  }

  lemma InTurnAdd(env: Env, tasks: seq<Task>, t: nat, task: Task, order: seq<nat>)
    requires forall i :: 0 <= i < |order| ==> order[i] < |tasks| && order[i] != t
    requires t < |tasks|
    ensures var more := order + [t];
            && (forall i :: 0 <= i < |more| ==> more[i] < |tasks|)
            && InTurn(env, tasks[t := task], more) == InTurn(env, tasks, order) + Written(env, task)
  {
    InTurnFrame(env, tasks, tasks[t := task], order);
    assert (order + [t])[..|order|] == order;
  }

  /** A task writes its first entry. */
  lemma FirstEntry(env: Env, s: State, t: nat, task: Task, e: Entry, order: seq<nat>)
    requires InOrder(env, s, order) && s.running == Some(t) && t < |s.tasks| && !Wrote(s.tasks[t])
    requires Wrote(task) && Written(env, task) == [e] && !e.User?
    ensures InOrder(env, Put(s, t, task).(history := s.history + [e]), order + [t])
  {
    RepliesAdd(s.history, e);
    WritersAdd(s.tasks, t, task, order);
    InTurnAdd(env, s.tasks, t, task, order);
  }

  lemma InTurnLast(env: Env, tasks: seq<Task>, t: nat, task: Task, order: seq<nat>, e: Entry)
    requires order != [] && order[|order| - 1] == t && t < |tasks|
    requires forall i :: 0 <= i < |order| - 1 ==> order[i] < |tasks| && order[i] != t
    requires Written(env, task) == Written(env, tasks[t]) + [e]
    ensures InTurn(env, tasks[t := task], order) == InTurn(env, tasks, order) + [e]
  {
    var init, after := order[..|order| - 1], tasks[t := task];
    InTurnFrame(env, tasks, after, init);
    assert InTurn(env, tasks, order) == InTurn(env, tasks, init) + Written(env, tasks[t]);
    assert InTurn(env, after, order) == InTurn(env, after, init) + Written(env, task);
  }

  /** It writes the result after its tool call. */
  lemma SecondEntry(env: Env, s: State, t: nat, order: seq<nat>)
    requires Inv(env, s) && InOrder(env, s, order) && Enabled(s, RecordResult(t))
    ensures InOrder(env, Next(env, s, RecordResult(t)), order)
  {
    assert TaskOk(env, s.tasks[t]);
    var c, run := s.tasks[t].chunks[s.tasks[t].k], s.tasks[t].phase.run;
    var task := s.tasks[t].(phase := Recorded([UseOf(env, c, run), ResultOf(c, run)]));
    RepliesAdd(s.history, ResultOf(c, run));
    WritersFrame(s.tasks, s.tasks[t := task], order);
    InTurnLast(env, s.tasks, t, task, order, ResultOf(c, run));
  }

  lemma ReadKeepsOrder(env: Env, s: State, t: nat, order: seq<nat>) returns (order': seq<nat>)
    requires InOrder(env, s, order) && Enabled(s, Read(t))
    ensures InOrder(env, Next(env, s, Read(t)), order')
  {
    var task := s.tasks[t];
    if ReadEntries(task) == [] {
      order' := order;
      assert s.history + [] == s.history;
      IdleStep(env, s, Next(env, s, Read(t)), order);
    } else {
      order' := order + [t];
      FirstEntry(env, s, t, ReadChunk(env, task), Assistant(Concat(task.turn.buf)), order);
    }
  }

  lemma StepKeepsOrder(env: Env, s: State, step: Step, order: seq<nat>) returns (order': seq<nat>)
    requires Inv(env, s) && InOrder(env, s, order) && Enabled(s, step)
    ensures InOrder(env, Next(env, s, step), order')
  {
    order' := order;
    match step
    case Read(t) => order' := ReadKeepsOrder(env, s, t, order);
    case RecordUse(t, run) =>
      assert TaskOk(env, s.tasks[t]);
      order' := order + [t];
      var use := UseOf(env, s.tasks[t].chunks[s.tasks[t].k], run);
      FirstEntry(env, s, t, s.tasks[t].(phase := UseWritten(run)), use, order);
    case RecordResult(t) => SecondEntry(env, s, t, order);
    case Listen(text) =>
      RepliesAdd(s.history, User(text));
      IdleStep(env, s, Next(env, s, step), order);
    case _ => IdleStep(env, s, Next(env, s, step), order);
  }

  lemma {:induction false} RunKeepsOrder(env: Env, s: State, steps: seq<Step>, t: State, order: seq<nat>)
    returns (order': seq<nat>)
    requires Inv(env, s) && InOrder(env, s, order) && Reaches(env, s, steps, t)
    ensures Inv(env, t) && InOrder(env, t, order')
    decreases |steps|
  {
    order' := order;
    if steps != [] {
      StepPreservesInv(env, s, steps[0]);
      order' := StepKeepsOrder(env, s, steps[0], order);
      order' := RunKeepsOrder(env, Next(env, s, steps[0]), steps[1..], t, order');
    }
  }

  /** Apart from what the caller said, the history is the records of the replies that got to write
      one, in some order, each once and whole; only a reply that stands between its two appends has
      but the first. */
  lemma EachReplyIsRecordedOnce(env: Env, steps: seq<Step>, s: State) returns (order: seq<nat>)
    requires Reaches(env, INITIAL, steps, s)
    ensures Writers(s.tasks, order) && Replies(s.history) == InTurn(env, s.tasks, order)
    ensures forall t: nat :: t < |s.tasks| && s.tasks[t].phase.Recorded? ==>
              IsRecord(env, s.tasks[t].chunks, Written(env, s.tasks[t]))
  {
    order := RunKeepsOrder(env, INITIAL, steps, s, []);
    forall t: nat | t < |s.tasks| && s.tasks[t].phase.Recorded?
      ensures IsRecord(env, s.tasks[t].chunks, Written(env, s.tasks[t]))
    {
      assert TaskOk(env, s.tasks[t]);
    }
  }

  /** What the caller said, as the history has it. */
  function Utterances(h: seq<Entry>): seq<string> {
    if h == [] then []
    else Utterances(h[..|h| - 1]) + if h[|h| - 1].User? then [h[|h| - 1].text] else []
  }

  /** What the main loop appended in this run. */
  function Said(steps: seq<Step>): seq<string> {
    if steps == [] then []
    else (if steps[0].Listen? then [steps[0].text] else []) + Said(steps[1..])
  }

  lemma UtterancesAdd(h: seq<Entry>, e: Entry)
    ensures Utterances(h + [e]) == Utterances(h) + if e.User? then [e.text] else []
  {
    assert (h + [e])[..|h|] == h;
  }

  lemma StepKeepsUtterances(env: Env, s: State, step: Step)
    requires Enabled(s, step)
    ensures Utterances(Next(env, s, step).history) ==
            Utterances(s.history) + if step.Listen? then [step.text] else []
  {
    var h := s.history;
    assert h + [] == h && Utterances(h) + [] == Utterances(h);
    match step
    case Listen(text) => UtterancesAdd(h, User(text));
    case Read(t) =>
      var task := s.tasks[t];
      if ReadEntries(task) != [] {
        UtterancesAdd(h, Assistant(Concat(task.turn.buf)));
      }
    case RecordUse(t, run) =>
      if AtTool(s.tasks[t]) {
        UtterancesAdd(h, UseOf(env, s.tasks[t].chunks[s.tasks[t].k], run));
      }
    case RecordResult(t) =>
      if AtTool(s.tasks[t]) {
        UtterancesAdd(h, ResultOf(s.tasks[t].chunks[s.tasks[t].k], s.tasks[t].phase.run));
      }
    case _ =>
  }

  lemma {:induction false} RunKeepsUtterances(env: Env, s: State, steps: seq<Step>, t: State)
    requires Reaches(env, s, steps, t)
    ensures Utterances(t.history) == Utterances(s.history) + Said(steps)
    decreases |steps|
  {
    if steps != [] {
      StepKeepsUtterances(env, s, steps[0]);
      RunKeepsUtterances(env, Next(env, s, steps[0]), steps[1..], t);
    }
  }

  /** Whatever the replies do, all that the caller said is in the history, once each and in order. */
  lemma UtterancesAreKept(env: Env, steps: seq<Step>, s: State)
    requires Reaches(env, INITIAL, steps, s)
    ensures Utterances(s.history) == Said(steps)
  {
    RunKeepsUtterances(env, INITIAL, steps, s);
  }

  // ---------------------------------------------------------------------------------------------
  // A reply that is left alone does what `GenerateAndSpeak` says
  // ---------------------------------------------------------------------------------------------

  lemma {:induction false} ReadsUpTo(env: Env, s: State, t: nat, k: nat) returns (steps: seq<Step>)
    requires Runs(s, t, Reading) && s.tasks[t].k == 0 && s.tasks[t].turn == Turn([], [])
    requires k <= StopAt(s.tasks[t].chunks)
    ensures Reaches(env, s, steps,
                    Put(s, t, s.tasks[t].(k := k, turn := Heard(env.ws, s.tasks[t].chunks, k))))
  {
    var task := s.tasks[t];
    steps := [];
    if k == 0 {
      assert task.(k := 0, turn := Turn([], [])) == task;
      assert s.tasks[t := task] == s.tasks;
    } else {
      StopAtStops(task.chunks);
      steps := ReadsUpTo(env, s, t, k - 1);
      var u := Put(s, t, task.(k := k - 1, turn := Heard(env.ws, task.chunks, k - 1)));
      ReachesAppend(env, s, steps, u, Read(t));
      steps := steps + [Read(t)];
      assert u.history + [] == u.history;
      assert Next(env, u, Read(t)) == Put(s, t, task.(k := k, turn := Heard(env.ws, task.chunks, k)));
    }
  }

  /** The last steps of a reply, from the chunk it stops at. */
  lemma Finishes(env: Env, s: State, t: nat) returns (steps: seq<Step>, u: State)
    requires Runs(s, t, Reading) && TaskOk(env, s.tasks[t]) && s.tasks[t].k == StopAt(s.tasks[t].chunks)
    ensures Reaches(env, s, steps, u) && u.running == Some(t) && |u.tasks| == |s.tasks| && u.sent == s.sent
    ensures u.history == s.history + Entries(env, s.tasks[t].chunks)
    ensures u.tasks[t].turn.spoken == Segments(env.ws, s.tasks[t].chunks)
    ensures (u.tasks[t].phase.Recorded? || u.tasks[t].phase.Ended?) && u.tasks[t].chunks == s.tasks[t].chunks
  {
    var task := s.tasks[t];
    StopAtStops(task.chunks);
    ReadKeepsTaskOk(env, task);
    assert Reaches(env, s, [], s);
    ReachesAppend(env, s, [], s, Read(t));
    u := Next(env, s, Read(t));
    steps := [] + [Read(t)];
    if AtTool(task) {
      var run := RunOf(env, task.chunks[task.k]);
      ReachesAppend(env, s, steps, u, RecordUse(t, run));
      var v := Next(env, u, RecordUse(t, run));
      steps := steps + [RecordUse(t, run)];
      ReachesAppend(env, s, steps, v, RecordResult(t));
      steps := steps + [RecordResult(t)];
      var use, result := UseOf(env, task.chunks[task.k], run), ResultOf(task.chunks[task.k], run);
      assert s.history + [] + [use] + [result] == s.history + [use, result];
      u := Next(env, v, RecordResult(t));
    }
  }

  /** The first steps of a reply. */
  lemma Begins(env: Env, s: State, chunks: seq<Chunk>) returns (steps: seq<Step>, u: State)
    requires s.running == None
    ensures Reaches(env, s, steps, u)
    ensures var task := Task(chunks, 0, Turn([], []), Reading);
            u == State(s.history, s.tasks + [task], Some(|s.tasks|), s.sent + [s.history])
  {
    var t := |s.tasks|;
    var spawned := Next(env, s, Spawn(chunks));
    var resumed := Next(env, spawned, Resume(t));
    u := Next(env, resumed, Ask(t));
    assert Reaches(env, s, [], s);
    ReachesAppend(env, s, [], s, Spawn(chunks));
    ReachesAppend(env, s, [] + [Spawn(chunks)], spawned, Resume(t));
    ReachesAppend(env, s, [] + [Spawn(chunks)] + [Resume(t)], resumed, Ask(t));
    steps := [] + [Spawn(chunks)] + [Resume(t)] + [Ask(t)];
  }

  /** A reply that no other task interrupts is a run of this machine, with the result that
      `GenerateAndSpeak` promises. */
  lemma AloneIsSequential(env: Env, s: State, chunks: seq<Chunk>) returns (steps: seq<Step>, u: State)
    requires s.running == None
    ensures Reaches(env, s, steps, u) && u.running == None
    ensures u.history == s.history + Entries(env, chunks) && u.sent == s.sent + [s.history]
    ensures |u.tasks| == |s.tasks| + 1 && u.tasks[|s.tasks|].turn.spoken == Segments(env.ws, chunks)
  {
    var t := |s.tasks|;
    var first, read, last;
    steps, first := Begins(env, s, chunks);
    var reading := ReadsUpTo(env, first, t, StopAt(chunks));
    read := Put(first, t, first.tasks[t].(k := StopAt(chunks), turn := Heard(env.ws, chunks, StopAt(chunks))));
    ReachesTrans(env, s, steps, first, reading, read);
    var ends;
    ends, last := Finishes(env, read, t);
    ReachesTrans(env, s, steps + reading, read, ends, last);
    ReachesAppend(env, s, steps + reading + ends, last, Suspend(t));
    steps := steps + reading + ends + [Suspend(t)];
    u := Next(env, last, Suspend(t));
  }

  /** A reply can be cut off after any of its chunks: it has then handed on to be spoken what these chunks gave,
      and the history keeps nothing of it. */
  lemma CutOffAnywhere(env: Env, s: State, chunks: seq<Chunk>, k: nat) returns (steps: seq<Step>, u: State)
    requires s.running == None && k <= StopAt(chunks)
    ensures Reaches(env, s, steps, u) && u.running == None && u.history == s.history
    ensures |u.tasks| == |s.tasks| + 1 && u.tasks[|s.tasks|].phase == Gone
    ensures u.tasks[|s.tasks|].turn.spoken == Heard(env.ws, chunks, k).spoken
  {
    var t := |s.tasks|;
    var first;
    steps, first := Begins(env, s, chunks);
    var reading := ReadsUpTo(env, first, t, k);
    var read := Put(first, t, first.tasks[t].(k := k, turn := Heard(env.ws, chunks, k)));
    ReachesTrans(env, s, steps, first, reading, read);
    ReachesAppend(env, s, steps + reading, read, Abort(t));
    steps := steps + reading + [Abort(t)];
    u := Next(env, read, Abort(t));
  }
}
