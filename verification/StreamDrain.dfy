/** The crash-tolerant stream drain of apps/worker/vocalflow_worker/redis_helpers.py.

    Any number of producers append to a Redis stream; any number of workers drain it at the same
    time and may die between any two Redis commands. `Next` is one atomic command; `Reaches` is a
    run. `DrainStream` is the generator itself, proved to be one such run. */
module StreamDrain {

  /** Redis ids "ms-seq" are totally ordered; a positive number stands for each, and 0 for the
      cursor "0" that is used when none is stored. */
  type Id = nat

  datatype Entry = Entry(id: Id, fields: map<string, string>)

  /** Where one worker stands. `rest` is what is left of the batch it read, current entry first. */
  datatype Phase =
    | Idle
    | Reading(last: Id)              // next command: XREAD from `last`
    | Yielded(rest: seq<Entry>)      // the consumer is busy with rest[0]
    | Resumed(rest: seq<Entry>)      // the consumer is done with rest[0]; next command: SET
    | Committed(rest: seq<Entry>)    // the cursor is stored; next command: XDEL

  /** `stream` and `cursor` are in Redis. The other fields are history: `top` is the largest id ever
      generated, `added` all ids ever produced, `handled` those whose consumer ran to its end,
      `deliveries` counts yields, `aborted` the deaths between a yield and its SET, and `late` those
      between the SET and the XDEL. */
  datatype State = State(
    stream: seq<Entry>,
    cursor: Id,
    top: Id,
    added: set<Id>,
    handled: set<Id>,
    deliveries: multiset<Id>,
    aborted: multiset<Id>,
    late: multiset<Id>,
    workers: map<nat, Phase>)

  datatype Step =
    | Produce(entry: Entry)
    | Start(w: nat)
    | Read(w: nat, count: nat)
    | Handle(w: nat)
    | Commit(w: nat)
    | Delete(w: nat)
    | Crash(w: nat)

  const INITIAL := State([], 0, 0, {}, {}, multiset{}, multiset{}, multiset{}, map[])

  function PhaseOf(s: State, w: nat): Phase {
    if w in s.workers then s.workers[w] else Idle
  }

  function Ids(es: seq<Entry>): (ids: set<Id>) {
    set e | e in es :: e.id
  }

  predicate Sorted(es: seq<Entry>) {
    forall i, j :: 0 <= i < j < |es| ==> es[i].id < es[j].id
  }

  /** The entries XREAD sees: those with an id above `last`, in stream order. */
  function Above(es: seq<Entry>, last: Id): seq<Entry> {
    if es == [] then []
    else if last < es[0].id then [es[0]] + Above(es[1..], last)
    else Above(es[1..], last)
  }

  function UpTo(es: seq<Entry>, last: Id): seq<Entry> {
    if es == [] then []
    else if es[0].id <= last then [es[0]] + UpTo(es[1..], last)
    else UpTo(es[1..], last)
  }

  function Remove(es: seq<Entry>, id: Id): seq<Entry> {
    if es == [] then []
    else if es[0].id == id then Remove(es[1..], id)
    else [es[0]] + Remove(es[1..], id)
  }

  lemma {:induction false} AboveSelects(es: seq<Entry>, last: Id)
    ensures forall e :: e in Above(es, last) <==> e in es && last < e.id
    ensures Sorted(es) ==> Sorted(Above(es, last))
  {
    if es != [] {
      AboveSelects(es[1..], last);
      assert es == [es[0]] + es[1..];
    }
  }

  lemma {:induction false} RemoveSelects(es: seq<Entry>, id: Id)
    ensures forall e :: e in Remove(es, id) <==> e in es && e.id != id
    ensures Sorted(es) ==> Sorted(Remove(es, id))
  {
    if es != [] {
      RemoveSelects(es[1..], id);
      assert es == [es[0]] + es[1..];
    }
  }

  function Take<T>(s: seq<T>, n: nat): seq<T> {
    if |s| <= n then s else s[..n]
  }

  predicate Enabled(s: State, step: Step) {
    match step
    case Produce(e) => s.top < e.id
    case Start(w) => PhaseOf(s, w).Idle?
    case Read(w, count) => PhaseOf(s, w).Reading? && 1 <= count
    case Handle(w) => PhaseOf(s, w).Yielded? && PhaseOf(s, w).rest != []
    case Commit(w) => PhaseOf(s, w).Resumed? && PhaseOf(s, w).rest != []
    case Delete(w) => PhaseOf(s, w).Committed? && PhaseOf(s, w).rest != []
    case Crash(w) => true
  }

  /** The consumer is handed rest[0]. */
  function Deliver(s: State, w: nat, rest: seq<Entry>): State
    requires rest != []
  {
    s.(workers := s.workers[w := Yielded(rest)], deliveries := s.deliveries + multiset{rest[0].id})
  }

  function Next(s: State, step: Step): State
    requires Enabled(s, step)
  {
    match step
    case Produce(e) => s.(stream := s.stream + [e], top := e.id, added := s.added + {e.id})
    case Start(w) => s.(workers := s.workers[w := Reading(s.cursor)])
    case Read(w, count) =>
      var batch := Take(Above(s.stream, PhaseOf(s, w).last), count);
      if batch == [] then s.(workers := s.workers[w := Idle]) else Deliver(s, w, batch)
    case Handle(w) =>
      var rest := PhaseOf(s, w).rest;
      s.(workers := s.workers[w := Resumed(rest)], handled := s.handled + {rest[0].id})
    case Commit(w) =>
      var rest := PhaseOf(s, w).rest;
      s.(workers := s.workers[w := Committed(rest)], cursor := rest[0].id)
    case Delete(w) =>
      var rest := PhaseOf(s, w).rest;
      var s' := s.(stream := Remove(s.stream, rest[0].id));
      if |rest| == 1 then s'.(workers := s.workers[w := Reading(rest[0].id)])
      else Deliver(s', w, rest[1..])
    case Crash(w) =>
      var p := PhaseOf(s, w);
      s.(workers := s.workers[w := Idle],
         aborted := if (p.Yielded? || p.Resumed?) && p.rest != []
                    then s.aborted + multiset{p.rest[0].id} else s.aborted,
         late := if p.Committed? && p.rest != [] then s.late + multiset{p.rest[0].id} else s.late)
  }

  ghost predicate Reaches(s: State, steps: seq<Step>, t: State)
    decreases |steps|
  {
    if steps == [] then s == t
    else Enabled(s, steps[0]) && Reaches(Next(s, steps[0]), steps[1..], t)
  }

  lemma {:induction false} ReachesAppend(s: State, steps: seq<Step>, t: State, step: Step)
    requires Reaches(s, steps, t) && Enabled(t, step)
    ensures Reaches(s, steps + [step], Next(t, step))
    decreases |steps|
  {
    if steps == [] {
      assert Reaches(Next(s, step), [], Next(t, step));
    } else {
      ReachesAppend(Next(s, steps[0]), steps[1..], t, step);
      assert (steps + [step])[1..] == steps[1..] + [step];
    }
  }

  // ---------------------------------------------------------------------------------------------
  // No message is lost
  // ---------------------------------------------------------------------------------------------

  /** Every id up to the end of what the worker read is handled, or still ahead of it in its batch. */
  ghost predicate BatchInv(s: State, rest: seq<Entry>, ahead: seq<Entry>) {
    && rest != []
    && Sorted(rest)
    && rest[|rest| - 1].id <= s.top
    && forall id :: id in s.added && id <= rest[|rest| - 1].id ==> id in s.handled || id in Ids(ahead)
  }

  ghost predicate WorkerInv(s: State, p: Phase) {
    match p
    case Idle => true
    case Reading(last) => last <= s.top && forall id :: id in s.added && id <= last ==> id in s.handled
    case Yielded(rest) => BatchInv(s, rest, rest)
    case Resumed(rest) => rest != [] && BatchInv(s, rest, rest[1..])
    case Committed(rest) => rest != [] && BatchInv(s, rest, rest[1..])
  }

  /** The heart of the matter: an id that no later XREAD from the stored cursor can see is handled. */
  ghost predicate NoneLost(s: State) {
    forall id :: id in s.added && (id !in Ids(s.stream) || id <= s.cursor) ==> id in s.handled
  }

  ghost predicate Inv(s: State) {
    && Sorted(s.stream)
    && Ids(s.stream) <= s.added
    && s.cursor <= s.top
    && (forall id :: id in s.added ==> id <= s.top)
    && NoneLost(s)
    && forall w :: w in s.workers ==> WorkerInv(s, s.workers[w])
  }

  lemma WorkerInvPhase(s: State, w: nat)
    requires Inv(s)
    ensures WorkerInv(s, PhaseOf(s, w))
  {
  }

  lemma TakeIsPrefix<T>(s: seq<T>, n: nat)
    ensures Take(s, n) == s[..|Take(s, n)|]
    ensures n >= 1 && s != [] ==> Take(s, n) != []
  {
  }

  /** XREAD with a count: that many of the entries above `last` if there are that many, and all of
      them otherwise; the earliest come first. */
  lemma BatchIsEarliest(s: State, last: Id, count: nat)
    requires Sorted(s.stream)
    ensures var batch := Take(Above(s.stream, last), count);
            && |batch| <= count
            && (forall e :: e in batch ==> e in s.stream && last < e.id)
            && (forall e, b :: e in s.stream && last < e.id && b in batch && e !in batch ==>
                  b.id < e.id && |batch| == count)
            && (|batch| < count ==> forall e :: e in s.stream && last < e.id ==> e in batch)
  {
    AboveSelects(s.stream, last);
    var all := Above(s.stream, last);
    var batch := Take(all, count);
    assert forall k :: 0 <= k < |batch| ==> all[k] == batch[k] && all[k] in batch;
    forall e, b | e in s.stream && last < e.id && b in batch && e !in batch
      ensures b.id < e.id
    {
      var i :| 0 <= i < |all| && all[i] == e;
      var j :| 0 <= j < |batch| && batch[j] == b;
      assert all[j] == b;
    }
  }

  /** What XREAD returns covers every stream entry between `last` and its own last id. */
  lemma BatchCovers(s: State, last: Id, count: nat)
    requires Inv(s) && 1 <= count && WorkerInv(s, Reading(last))
    requires Take(Above(s.stream, last), count) != []
    ensures var batch := Take(Above(s.stream, last), count); BatchInv(s, batch, batch)
  {
    var all := Above(s.stream, last);
    var batch := Take(all, count);
    TakeIsPrefix(all, count);
    AboveSelects(s.stream, last);
    var end := batch[|batch| - 1];
    assert end in all && end in s.stream && end.id in Ids(s.stream);
    forall id | id in s.added && id <= end.id && id !in s.handled
      ensures id in Ids(batch)
    {
      assert last < id && id in Ids(s.stream);
      var e :| e in s.stream && e.id == id;
      assert e in all;
      var i :| 0 <= i < |all| && all[i] == e;
      assert i < |batch|;
      assert batch[i] == e;
    }
  }

  lemma ProduceKeepsWorker(s: State, e: Entry, p: Phase)
    requires s.top < e.id && WorkerInv(s, p)
    ensures WorkerInv(Next(s, Produce(e)), p)
  {
  }

  lemma TailAboveHead(rest: seq<Entry>)
    requires rest != [] && Sorted(rest)
    ensures forall id :: id in Ids(rest[1..]) ==> rest[0].id < id
    ensures Ids(rest) == Ids(rest[1..]) + {rest[0].id}
    ensures |rest| > 1 ==> rest[1..][|rest| - 2] == rest[|rest| - 1]
  {
    forall id | id in Ids(rest[1..]) ensures rest[0].id < id && id in Ids(rest) {
      var i :| 0 < i < |rest| && rest[i].id == id;
      assert rest[i] in rest;
    }
    forall id | id in Ids(rest) ensures id in Ids(rest[1..]) + {rest[0].id} {
      var i :| 0 <= i < |rest| && rest[i].id == id;
      if i > 0 {
        assert rest[i] == rest[1..][i - 1];
      }
    }
    assert rest[0] in rest;
  }

  lemma StepPreservesInv(s: State, step: Step)
    requires Inv(s) && Enabled(s, step)
    ensures Inv(Next(s, step))
  {
    match step
    case Produce(e) => ProduceKeepsInv(s, e);
    case Start(w) =>
    case Read(w, count) => ReadKeepsInv(s, w, count);
    case Handle(w) => HandleKeepsInv(s, w);
    case Commit(w) => CommitKeepsInv(s, w);
    case Delete(w) => DeleteKeepsInv(s, w);
    case Crash(w) =>
  }

  lemma ProduceKeepsInv(s: State, e: Entry)
    requires Inv(s) && s.top < e.id
    ensures Inv(Next(s, Produce(e)))
  {
    var t := Next(s, Produce(e));
    assert e in t.stream;
    forall x | x in s.stream ensures x in t.stream && x.id in Ids(s.stream) {
    }
    assert Ids(t.stream) == Ids(s.stream) + {e.id};
    forall w | w in t.workers ensures WorkerInv(t, t.workers[w]) {
      ProduceKeepsWorker(s, e, s.workers[w]);
    }
  }

  lemma ReadKeepsInv(s: State, w: nat, count: nat)
    requires Inv(s) && Enabled(s, Read(w, count))
    ensures Inv(Next(s, Read(w, count)))
  {
    WorkerInvPhase(s, w);
    var t := Next(s, Read(w, count));
    var batch := Take(Above(s.stream, PhaseOf(s, w).last), count);
    if batch != [] {
      BatchCovers(s, PhaseOf(s, w).last, count);
      assert BatchInv(t, batch, batch);
    }
    forall v | v in t.workers && v != w ensures WorkerInv(t, t.workers[v]) {
      assert WorkerInv(s, s.workers[v]);
    }
  }

  lemma HandleKeepsInv(s: State, w: nat)
    requires Inv(s) && Enabled(s, Handle(w))
    ensures Inv(Next(s, Handle(w)))
  {
    WorkerInvPhase(s, w);
    var rest := PhaseOf(s, w).rest;
    TailAboveHead(rest);
    assert BatchInv(Next(s, Handle(w)), rest, rest[1..]);
  }

  lemma CommitKeepsInv(s: State, w: nat)
    requires Inv(s) && Enabled(s, Commit(w))
    ensures Inv(Next(s, Commit(w)))
  {
    WorkerInvPhase(s, w);
    TailAboveHead(PhaseOf(s, w).rest);
  }

  /** Other workers notice nothing of a command but that more is handled. */
  lemma WorkerFrame(s: State, t: State, p: Phase)
    requires WorkerInv(s, p) && t.added == s.added && s.handled <= t.handled && t.top == s.top
    ensures WorkerInv(t, p)
  {
  }

  lemma DeleteLosesNothing(s: State, id: Id)
    requires Inv(s) && (id in s.added ==> id in s.handled)
    ensures var t := s.(stream := Remove(s.stream, id));
            NoneLost(t) && Sorted(t.stream) && Ids(t.stream) <= t.added
  {
    var t := s.(stream := Remove(s.stream, id));
    RemoveSelects(s.stream, id);
    forall i | i in Ids(t.stream) ensures i in s.added {
      var e :| e in t.stream && e.id == i;
      assert e in s.stream && e.id in Ids(s.stream);
    }
    forall i | i in t.added && i !in t.handled ensures i in Ids(t.stream) && i > s.cursor {
      assert i in Ids(s.stream);
      var e :| e in s.stream && e.id == i;
      assert e in t.stream;
    }
  }

  lemma DeleteKeepsInv(s: State, w: nat)
    requires Inv(s) && Enabled(s, Delete(w))
    ensures Inv(Next(s, Delete(w)))
  {
    WorkerInvPhase(s, w);
    var t := Next(s, Delete(w));
    var rest := PhaseOf(s, w).rest;
    TailAboveHead(rest);
    DeleteLosesNothing(s, rest[0].id);
    if |rest| > 1 {
      assert BatchInv(t, rest[1..], rest[1..]);
    }
    forall v | v in t.workers && v != w ensures WorkerInv(t, t.workers[v]) {
      WorkerFrame(s, t, s.workers[v]);
    }
  }

  lemma {:induction false} RunPreservesInv(s: State, steps: seq<Step>, t: State)
    requires Inv(s) && Reaches(s, steps, t)
    ensures Inv(t)
    decreases |steps|
  {
    if steps != [] {
      StepPreservesInv(s, steps[0]);
      RunPreservesInv(Next(s, steps[0]), steps[1..], t);
    }
  }

  /** In every interleaving of producers, drainers and deaths, an id that is not yet handled is in
      the stream and above the stored cursor, so the next drain reads it. */
  lemma NoMessageLost(steps: seq<Step>, t: State, id: Id)
    requires Reaches(INITIAL, steps, t) && id in t.added && id !in t.handled
    ensures exists e :: e in Above(t.stream, t.cursor) && e.id == id
  {
    RunPreservesInv(INITIAL, steps, t);
    AboveSelects(t.stream, t.cursor);
    var e :| e in t.stream && e.id == id;
    assert e in Above(t.stream, t.cursor);
  }

  // ---------------------------------------------------------------------------------------------
  // How often a message is delivered
  // ---------------------------------------------------------------------------------------------

  /** Drains follow each other: one starts only when no other is under way. */
  ghost predicate Sequential(s: State, steps: seq<Step>)
    decreases |steps|
  {
    steps == [] ||
    (&& Enabled(s, steps[0])
     && (steps[0].Start? ==> forall w :: w in s.workers ==> s.workers[w].Idle?)
     && Sequential(Next(s, steps[0]), steps[1..]))
  }

  ghost predicate InFlight(s: State, id: Id) {
    exists w :: w in s.workers && (s.workers[w].Yielded? || s.workers[w].Resumed?) &&
                s.workers[w].rest != [] && s.workers[w].rest[0].id == id
  }

  /** What a single drain under way knows about the stored cursor. */
  ghost predicate InStep(cursor: Id, p: Phase) {
    match p
    case Idle => true
    case Reading(last) => last == cursor
    case Yielded(rest) => rest != [] && Sorted(rest) && cursor < rest[0].id
    case Resumed(rest) => rest != [] && Sorted(rest) && cursor < rest[0].id
    case Committed(rest) => rest != [] && Sorted(rest) && cursor == rest[0].id
  }

  ghost predicate OneBusy(s: State) {
    forall v, w :: v in s.workers && w in s.workers && !s.workers[v].Idle? && !s.workers[w].Idle? ==> v == w
  }

  ghost predicate AloneInv(s: State) {
    && Sorted(s.stream)
    && OneBusy(s)
    && forall w :: w in s.workers ==> InStep(s.cursor, s.workers[w])
  }

  ghost predicate DeliveryBound(s: State) {
    forall id :: s.deliveries[id] <= s.aborted[id] + if id <= s.cursor || InFlight(s, id) then 1 else 0
  }

  lemma StepKeepsOneBusy(s: State, step: Step)
    requires OneBusy(s) && Enabled(s, step)
    requires step.Start? ==> forall w :: w in s.workers ==> s.workers[w].Idle?
    ensures OneBusy(Next(s, step))
  {
  }

  lemma ReadIsInStep(s: State, w: nat, count: nat)
    requires AloneInv(s) && Enabled(s, Read(w, count))
    ensures var t := Next(s, Read(w, count)); InStep(t.cursor, t.workers[w])
  {
    var all := Above(s.stream, PhaseOf(s, w).last);
    if Take(all, count) != [] {
      TakeIsPrefix(all, count);
      AboveSelects(s.stream, PhaseOf(s, w).last);
      assert all[0] in all;
    }
  }

  /** Only the drain that takes the step can be anywhere but idle. */
  lemma StepIsInStep(s: State, step: Step, v: nat)
    requires AloneInv(s) && Enabled(s, step) && v in Next(s, step).workers
    requires step.Start? ==> forall w :: w in s.workers ==> s.workers[w].Idle?
    ensures var t := Next(s, step); InStep(t.cursor, t.workers[v])
  {
    if step.Read? && step.w == v {
      ReadIsInStep(s, v, step.count);
    }
  }

  lemma StepKeepsAlone(s: State, step: Step)
    requires Inv(s) && AloneInv(s) && Enabled(s, step)
    requires step.Start? ==> forall w :: w in s.workers ==> s.workers[w].Idle?
    ensures AloneInv(Next(s, step))
  {
    StepPreservesInv(s, step);
    StepKeepsOneBusy(s, step);
    forall v | v in Next(s, step).workers ensures InStep(Next(s, step).cursor, Next(s, step).workers[v]) {
      StepIsInStep(s, step, v);
    }
  }

  ghost predicate Carries(p: Phase, id: Id) {
    (p.Yielded? || p.Resumed?) && p.rest != [] && p.rest[0].id == id
  }

  /** A delivery under way goes on, is committed, or dies. */
  lemma FlightGoesOn(s: State, step: Step, v: nat, id: Id)
    requires AloneInv(s) && Enabled(s, step) && v in s.workers && Carries(s.workers[v], id)
    ensures var t := Next(s, step);
            InFlight(t, id) || t.aborted[id] > s.aborted[id] || id <= t.cursor
  {
    var t := Next(s, step);
    assert step.Produce? || step.w == v || t.workers[v] == s.workers[v];
    if step.Handle? && step.w == v {
      assert t.workers[v] == Resumed(s.workers[v].rest);
    }
  }

  /** A new delivery is one under way, of an entry that was not and that the cursor has not reached. */
  lemma DeliveryIsNew(s: State, step: Step, id: Id)
    requires Enabled(s, step) && AloneInv(s) && AloneInv(Next(s, step))
    ensures var t := Next(s, step);
            && s.deliveries[id] <= t.deliveries[id] <= s.deliveries[id] + 1
            && (t.deliveries[id] > s.deliveries[id] ==> InFlight(t, id) && !InFlight(s, id) && s.cursor < id)
  {
    var t := Next(s, step);
    if t.deliveries[id] > s.deliveries[id] {
      assert t.workers[step.w].Yielded? && t.workers[step.w].rest[0].id == id;
    }
  }

  lemma StepKeepsDeliveryBound(s: State, step: Step)
    requires Inv(s) && AloneInv(s) && DeliveryBound(s) && Enabled(s, step)
    requires step.Start? ==> forall w :: w in s.workers ==> s.workers[w].Idle?
    ensures DeliveryBound(Next(s, step))
  {
    var t := Next(s, step);
    StepKeepsAlone(s, step);
    forall id: Id ensures t.deliveries[id] <= t.aborted[id] + if id <= t.cursor || InFlight(t, id) then 1 else 0 {
      StepKeepsOneBound(s, step, id);
    }
  }

  lemma StepKeepsOneBound(s: State, step: Step, id: Id)
    requires AloneInv(s) && Enabled(s, step) && AloneInv(Next(s, step))
    requires s.deliveries[id] <= s.aborted[id] + if id <= s.cursor || InFlight(s, id) then 1 else 0
    ensures var t := Next(s, step);
            t.deliveries[id] <= t.aborted[id] + if id <= t.cursor || InFlight(t, id) then 1 else 0
  {
    var t := Next(s, step);
    DeliveryIsNew(s, step, id);
    if InFlight(s, id) {
      var v :| v in s.workers && Carries(s.workers[v], id);
      FlightGoesOn(s, step, v, id);
    }
  }

  lemma {:induction false} SequentialRun(s: State, steps: seq<Step>, t: State)
    requires Inv(s) && AloneInv(s) && DeliveryBound(s)
    requires Reaches(s, steps, t) && Sequential(s, steps)
    ensures Inv(t) && AloneInv(t) && DeliveryBound(t)
    decreases |steps|
  {
    if steps != [] {
      StepPreservesInv(s, steps[0]);
      StepKeepsAlone(s, steps[0]);
      StepKeepsDeliveryBound(s, steps[0]);
      SequentialRun(Next(s, steps[0]), steps[1..], t);
    }
  }

  /** When drains do not overlap, a message is delivered once, plus once for every death that struck
      while it was out for delivery. */
  lemma DeliveredOncePlusCrashes(steps: seq<Step>, t: State, id: Id)
    requires Reaches(INITIAL, steps, t) && Sequential(INITIAL, steps)
    ensures t.deliveries[id] <= 1 + t.aborted[id]
  {
    SequentialRun(INITIAL, steps, t);
  }

  // ---------------------------------------------------------------------------------------------
  // The generator
  // ---------------------------------------------------------------------------------------------

  /** The stream and the key "<stream>.cursor" as Redis holds them. */
  class RedisStream {
    var entries: seq<Entry>
    var cursor: Id

    method XRead(last: Id, count: nat) returns (batch: seq<Entry>)
      requires 1 <= count
      ensures batch == Take(Above(entries, last), count)
    {
      batch := [];
      var i := 0;
      while i < |entries| && |batch| < count
        invariant 0 <= i <= |entries| && |batch| <= count
        invariant Above(entries, last) == batch + Above(entries[i..], last)
      {
        if last < entries[i].id {
          batch := batch + [entries[i]];
        }
        i := i + 1;
      }
    }

    method Set(id: Id)
      modifies `cursor
      ensures cursor == id
    {
      cursor := id;
    }

    method XDel(id: Id)
      modifies `entries
      ensures entries == Remove(old(entries), id)
    {
      var kept := [];
      for i := 0 to |entries|
        invariant Remove(entries, id) == kept + Remove(entries[i..], id)
      {
        if entries[i].id != id {
          kept := kept + [entries[i]];
        }
      }
      entries := kept;
    }
  }

  lemma {:induction false} RemoveOldest(es: seq<Entry>, last: Id)
    requires Sorted(es) && Above(es, last) != []
    ensures var e := Above(es, last)[0];
            last < e.id && Above(Remove(es, e.id), e.id) == Above(es, last)[1..]
  {
    var e := Above(es, last)[0];
    AboveSelects(es, last);
    assert e in Above(es, last);
    if last < es[0].id {
      forall x | x in es[1..] ensures e.id < x.id {
        var i :| 0 < i < |es| && es[i] == x;
      }
      AllAbove(es[1..], e.id, last);
    } else {
      RemoveOldest(es[1..], last);
    }
  }

  lemma OldestIsFirst(es: seq<Entry>, last: Id, x: Entry)
    requires Sorted(es) && Above(es, last) != [] && x in es && last < x.id
    ensures Above(es, last)[0].id <= x.id
  {
    AboveSelects(es, last);
    var i :| 0 <= i < |Above(es, last)| && Above(es, last)[i] == x;
  }

  lemma AllAbove(es: seq<Entry>, id: Id, last: Id)
    requires last < id && forall x :: x in es ==> id < x.id
    ensures Above(es, id) == es == Above(es, last) && Remove(es, id) == es
  {
    if es != [] {
      assert es[0] in es;
      forall x | x in es[1..] ensures id < x.id {
        assert x in es;
      }
      AllAbove(es[1..], id, last);
    }
  }

  /** Nothing above the cursor is left, so by `NoneLost` nothing at all is left to handle. */
  lemma DrainedMeansHandled(s: State)
    requires Inv(s) && Above(s.stream, s.cursor) == []
    ensures s.added <= s.handled
  {
    AboveSelects(s.stream, s.cursor);
    forall id | id in s.added && id in Ids(s.stream) ensures id in s.handled {
      var e :| e in s.stream && e.id == id;
      assert e !in Above(s.stream, s.cursor);
    }
  }

  /** The steps of worker `w` that treat the entry at the head of its batch. */
  function Turn(w: nat): seq<Step> {
    [Handle(w), Commit(w), Delete(w)]
  }

  ghost function AfterTurn(t: State, w: nat): State
    requires PhaseOf(t, w).Yielded? && PhaseOf(t, w).rest != []
  {
    Next(Next(Next(t, Handle(w)), Commit(w)), Delete(w))
  }

  lemma TurnKeepsInv(t: State, w: nat)
    requires Inv(t) && PhaseOf(t, w).Yielded? && PhaseOf(t, w).rest != []
    ensures Inv(AfterTurn(t, w))
  {
    StepPreservesInv(t, Handle(w));
    StepPreservesInv(Next(t, Handle(w)), Commit(w));
    StepPreservesInv(Next(Next(t, Handle(w)), Commit(w)), Delete(w));
  }

  lemma TurnRuns(s: State, steps: seq<Step>, t: State, w: nat, rest: seq<Entry>)
    requires Reaches(s, steps, t) && PhaseOf(t, w) == Yielded(rest) && rest != []
    ensures var u := AfterTurn(t, w);
            && Reaches(s, steps + Turn(w), u)
            && u.stream == Remove(t.stream, rest[0].id)
            && u.cursor == rest[0].id && u.added == t.added && u.handled == t.handled + {rest[0].id}
            && PhaseOf(u, w) == if |rest| == 1 then Reading(rest[0].id) else Yielded(rest[1..])
  {
    var t1 := Next(t, Handle(w));
    var t2 := Next(t1, Commit(w));
    ReachesAppend(s, steps, t, Handle(w));
    ReachesAppend(s, steps + [Handle(w)], t1, Commit(w));
    ReachesAppend(s, steps + [Handle(w)] + [Commit(w)], t2, Delete(w));
    assert steps + Turn(w) == steps + [Handle(w)] + [Commit(w)] + [Delete(w)];
  }

  /** Progress of the generator: what it has yielded, of the stream `was` and the cursor `start`. */
  ghost predicate Drained(was: seq<Entry>, start: Id, es: seq<Entry>, last: Id, yielded: seq<Entry>) {
    && Sorted(es)
    && yielded + Above(es, last) == Above(was, start)
    && UpTo(es, start) == UpTo(was, start)
    && (forall x :: x in es ==> x.id <= start || last < x.id)
    && last == if yielded == [] then start else yielded[|yielded| - 1].id
  }

  /** The run of the machine that the generator has performed so far. */
  ghost predicate Mirrors(s: State, steps: seq<Step>, t: State, es: seq<Entry>, last: Id, yielded: seq<Entry>) {
    && Inv(t) && Reaches(s, steps, t)
    && t.stream == es && t.cursor == last
    && t.added == s.added && t.handled == s.handled + Ids(yielded)
  }

  lemma TurnDrains(was: seq<Entry>, start: Id, es: seq<Entry>, last: Id, yielded: seq<Entry>)
    requires Drained(was, start, es, last, yielded) && Above(es, last) != []
    requires start <= last
    ensures var e := Above(es, last)[0];
            && e.id > last
            && Drained(was, start, Remove(es, e.id), e.id, yielded + [e])
            && Above(Remove(es, e.id), e.id) == Above(es, last)[1..]
  {
    var e := Above(es, last)[0];
    RemoveOldest(es, last);
    RemoveNewer(es, e.id, start);
    RemoveSelects(es, e.id);
    forall x | x in Remove(es, e.id) && start < x.id ensures e.id < x.id {
      OldestIsFirst(es, last, x);
    }
    assert yielded + [e] + Above(es, last)[1..] == yielded + Above(es, last);
  }

  lemma RemoveNewer(es: seq<Entry>, id: Id, start: Id)
    requires start < id
    ensures UpTo(Remove(es, id), start) == UpTo(es, start)
  {
  }

  lemma TurnMirrors(s: State, steps: seq<Step>, t: State, w: nat, es: seq<Entry>, last: Id, yielded: seq<Entry>)
    requires Mirrors(s, steps, t, es, last, yielded)
    requires PhaseOf(t, w).Yielded? && PhaseOf(t, w).rest != []
    ensures var e := PhaseOf(t, w).rest[0];
            && Mirrors(s, steps + Turn(w), AfterTurn(t, w), Remove(es, e.id), e.id, yielded + [e])
            && PhaseOf(AfterTurn(t, w), w) ==
               if |PhaseOf(t, w).rest| == 1 then Reading(e.id) else Yielded(PhaseOf(t, w).rest[1..])
  {
    var e := PhaseOf(t, w).rest[0];
    TurnRuns(s, steps, t, w, PhaseOf(t, w).rest);
    TurnKeepsInv(t, w);
    assert Ids(yielded + [e]) == Ids(yielded) + {e.id} by {
      forall x | x in yielded + [e] ensures x.id in Ids(yielded) + {e.id} {
      }
      assert e in yielded + [e];
      forall x | x in yielded ensures x in yielded + [e] {
      }
    }
  }

  lemma ReadMirrors(s: State, steps: seq<Step>, t: State, w: nat, count: nat,
                    es: seq<Entry>, last: Id, yielded: seq<Entry>)
    requires Mirrors(s, steps, t, es, last, yielded) && PhaseOf(t, w) == Reading(last) && 1 <= count
    ensures var u := Next(t, Read(w, count));
            && Mirrors(s, steps + [Read(w, count)], u, es, last, yielded)
            && PhaseOf(u, w) == var batch := Take(Above(es, last), count);
                                if batch == [] then Idle else Yielded(batch)
  {
    ReachesAppend(s, steps, t, Read(w, count));
    StepPreservesInv(t, Read(w, count));
  }

  /** When nothing above the cursor is left, the generator has yielded all it should. */
  lemma OnlyOldLeft(was: seq<Entry>, start: Id, es: seq<Entry>, last: Id, yielded: seq<Entry>)
    requires Drained(was, start, es, last, yielded) && Above(es, last) == []
    ensures yielded == Above(was, start) && es == UpTo(was, start)
  {
    AboveNone(es, start, last);
  }

  lemma AboveNone(es: seq<Entry>, start: Id, last: Id)
    requires Above(es, last) == [] && forall x :: x in es ==> x.id <= start || last < x.id
    ensures UpTo(es, start) == es
  {
    if es != [] {
      assert es[0] in es;
      AboveNone(es[1..], start, last);
    }
  }

  /** The inner loop: hand one batch to the consumer, entry by entry; SET and XDEL after each. */
  method YieldBatch(r: RedisStream, entries: seq<Entry>, last: Id, yielded: seq<Entry>,
                    ghost was: seq<Entry>, ghost start: Id,
                    ghost s: State, ghost steps: seq<Step>, ghost t: State, ghost w: nat)
    returns (yielded': seq<Entry>, last': Id, ghost steps': seq<Step>, ghost t': State)
    requires entries != [] && entries <= Above(r.entries, last)
    requires r.cursor == last >= start && Drained(was, start, r.entries, last, yielded)
    requires Mirrors(s, steps, t, r.entries, last, yielded) && PhaseOf(t, w) == Yielded(entries)
    modifies r
    ensures r.cursor == last' >= start && Drained(was, start, r.entries, last', yielded')
    ensures Mirrors(s, steps', t', r.entries, last', yielded') && PhaseOf(t', w) == Reading(last')
    ensures Above(r.entries, last') == old(Above(r.entries, last))[|entries|..]
  {
    yielded', last', steps', t' := yielded, last, steps, t;
    ghost var seen := Above(r.entries, last);
    for k := 0 to |entries|
      invariant r.cursor == last' >= start && Drained(was, start, r.entries, last', yielded')
      invariant Mirrors(s, steps', t', r.entries, last', yielded')
      invariant PhaseOf(t', w) == if k == |entries| then Reading(last') else Yielded(entries[k..])
      invariant Above(r.entries, last') == seen[k..]
    {
      var msg := entries[k];
      TurnDrains(was, start, r.entries, last', yielded');
      TurnMirrors(s, steps', t', w, r.entries, last', yielded');
      yielded' := yielded' + [msg];
      r.Set(msg.id);
      r.XDel(msg.id);
      last' := msg.id;
      steps', t' := steps' + Turn(w), AfterTurn(t', w);
    }
  }

  /** The generator, run while no other process touches the stream. It yields exactly the entries
      above the stored cursor, once each and in id order, and leaves none of them. It is also a run
      of the machine above, from any state `s` that holds this stream, at the end of which every
      message ever produced is handled. */
  method DrainStream(r: RedisStream, batch: nat, ghost s: State, ghost w: nat)
    returns (yielded: seq<Entry>, ghost steps: seq<Step>, ghost t: State)
    requires 1 <= batch
    requires Inv(s) && s.stream == r.entries && s.cursor == r.cursor && PhaseOf(s, w).Idle?
    modifies r
    ensures yielded == Above(old(r.entries), old(r.cursor))
    ensures r.entries == UpTo(old(r.entries), old(r.cursor))
    ensures r.cursor == if yielded == [] then old(r.cursor) else yielded[|yielded| - 1].id
    ensures Mirrors(s, steps, t, r.entries, r.cursor, yielded)
    ensures PhaseOf(t, w).Idle? && t.added <= t.handled
  {
    ghost var was, start := r.entries, r.cursor;
    var last: Id := r.cursor;
    yielded := [];
    steps, t := [Start(w)], Next(s, Start(w));
    assert Reaches(s, [] + [Start(w)], t) by { ReachesAppend(s, [], s, Start(w)); }
    StepPreservesInv(s, Start(w));
    assert Ids(yielded) == {};
    while true
      invariant r.cursor == last >= start
      invariant Drained(was, start, r.entries, last, yielded)
      invariant Mirrors(s, steps, t, r.entries, last, yielded)
      invariant PhaseOf(t, w) == Reading(last)
      decreases |Above(r.entries, last)|
    {
      var entries := r.XRead(last, batch);
      ReadMirrors(s, steps, t, w, batch, r.entries, last, yielded);
      steps, t := steps + [Read(w, batch)], Next(t, Read(w, batch));
      TakeIsPrefix(Above(r.entries, last), batch);
      if entries == [] {
        OnlyOldLeft(was, start, r.entries, last, yielded);
        DrainedMeansHandled(t);
        return;
      }
      yielded, last, steps, t := YieldBatch(r, entries, last, yielded, was, start, s, steps, t, w);
    }
  }
}
