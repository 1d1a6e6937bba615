/** How often one entry is delivered when drains overlap, by the number of drains under way. */
module Deliveries {
  import opened Basics
  import opened StreamDrain

  /** The drains under way. */
  function Busy(s: State): set<nat> {
    set w | w in s.workers && !s.workers[w].Idle?
  }

  function Batch(p: Phase): seq<Entry> {
    match p
    case Yielded(rest) => rest
    case Resumed(rest) => rest
    case Committed(rest) => rest
    case _ => []
  }

  /** The drains that have delivered `id` and not yet come past its XDEL. */
  function Heads(s: State, id: Id): set<nat> {
    set w | w in s.workers && Batch(s.workers[w]) != [] && Batch(s.workers[w])[0].id == id
  }

  predicate InTail(p: Phase, id: Id) {
    exists i :: 0 < i < |Batch(p)| && Batch(p)[i].id == id
  }

  /** The drains that have read `id` and not yet delivered it. */
  function Tails(s: State, id: Id): set<nat> {
    set w | w in s.workers && InTail(s.workers[w], id)
  }

  /** The deaths that struck between a delivery of `id` and its XDEL. */
  function Deaths(s: State, id: Id): nat {
    s.aborted[id] + s.late[id]
  }

  /** At most `n` drains are ever under way. */
  ghost predicate AtMost(n: nat, s: State, steps: seq<Step>)
    decreases |steps|
  {
    steps == [] ||
    (&& Enabled(s, steps[0])
     && (steps[0].Start? ==> |Busy(s)| < n)
     && AtMost(n, Next(s, steps[0]), steps[1..]))
  }

  /** As long as `id` is in the stream, everyone who delivered it is still at it or dead. Once it is
      gone, nobody can read it again. */
  ghost predicate Law(s: State, id: Id, n: nat) {
    && |Busy(s)| <= n
    && (id > s.top ==> s.deliveries[id] == 0)
    && (id in Ids(s.stream) ==> s.deliveries[id] <= |Heads(s, id)| + Deaths(s, id))
    && (id <= s.top && id !in Ids(s.stream) ==> s.deliveries[id] + |Tails(s, id)| <= n + Deaths(s, id))
  }

  /** Sets that differ at most in `w`. */
  lemma OneChanges(a: set<nat>, b: set<nat>, w: nat)
    requires a - {w} == b - {w}
    ensures |b| + (if w in a then 1 else 0) == |a| + (if w in b then 1 else 0)
  {
    assert w in a ==> a == (a - {w}) + {w};
    assert w in b ==> b == (b - {w}) + {w};
  }

  /** What one step of drain `w` does to the three counts. */
  lemma Counts(s: State, t: State, w: nat, id: Id)
    requires w in t.workers && t.workers == s.workers[w := t.workers[w]]
    ensures var p, q := PhaseOf(s, w), t.workers[w];
            && |Busy(t)| + (if p.Idle? then 0 else 1) == |Busy(s)| + (if q.Idle? then 0 else 1)
            && |Heads(t, id)| + (if Batch(p) != [] && Batch(p)[0].id == id then 1 else 0)
                 == |Heads(s, id)| + (if Batch(q) != [] && Batch(q)[0].id == id then 1 else 0)
            && |Tails(t, id)| + (if InTail(p, id) then 1 else 0) == |Tails(s, id)| + (if InTail(q, id) then 1 else 0)
  {
    OneChanges(Busy(s), Busy(t), w);
    OneChanges(Heads(s, id), Heads(t, id), w);
    OneChanges(Tails(s, id), Tails(t, id), w);
  }

  lemma BatchIsSorted(s: State, w: nat)
    requires Inv(s)
    ensures Sorted(Batch(PhaseOf(s, w)))
    ensures forall i :: 0 <= i < |Batch(PhaseOf(s, w))| ==> Batch(PhaseOf(s, w))[i].id <= s.top
  {
    WorkerInvPhase(s, w);
  }

  /** A drain has `id` at its head or behind it, but not both. */
  lemma HeadsAndTails(s: State, id: Id)
    requires Inv(s)
    ensures |Heads(s, id)| + |Tails(s, id)| <= |Busy(s)|
  {
    var heads, tails := Heads(s, id), Tails(s, id);
    forall w | w in heads ensures w !in tails {
      BatchIsSorted(s, w);
    }
    assert heads !! tails && heads + tails <= Busy(s);
    assert Busy(s) == (heads + tails) + (Busy(s) - (heads + tails));
  }

  lemma NothingAboveTop(s: State, id: Id)
    requires Inv(s) && id > s.top
    ensures Tails(s, id) == {}
  {
    forall w | w in s.workers ensures !InTail(s.workers[w], id) {
      BatchIsSorted(s, w);
    }
  }

  lemma ProduceKeepsLaw(s: State, e: Entry, id: Id, n: nat)
    requires Inv(s) && s.top < e.id && Law(s, id, n)
    ensures Law(Next(s, Produce(e)), id, n)
  {
    var t := Next(s, Produce(e));
    assert Busy(t) == Busy(s) && Heads(t, id) == Heads(s, id) && Tails(t, id) == Tails(s, id);
    assert Ids(t.stream) == Ids(s.stream) + {e.id} by {
      assert e in t.stream;
      forall x | x in s.stream ensures x in t.stream {
      }
    }
    if id > s.top {
      NothingAboveTop(s, id);
    }
  }

  lemma ReadKeepsLaw(s: State, w: nat, count: nat, id: Id, n: nat)
    requires Inv(s) && Enabled(s, Read(w, count)) && Law(s, id, n)
    ensures Law(Next(s, Read(w, count)), id, n)
  {
    var t := Next(s, Read(w, count));
    Counts(s, t, w, id);
    var all := Above(s.stream, PhaseOf(s, w).last);
    var batch := Take(all, count);
    TakeIsPrefix(all, count);
    AboveSelects(s.stream, PhaseOf(s, w).last);
    forall i | 0 <= i < |batch| ensures batch[i].id in Ids(s.stream) && batch[i].id <= s.top {
      assert batch[i] in all && batch[i] in s.stream;
    }
  }

  lemma DeleteKeepsLaw(s: State, w: nat, id: Id, n: nat)
    requires Inv(s) && Enabled(s, Delete(w)) && Law(s, id, n)
    ensures Law(Next(s, Delete(w)), id, n)
  {
    var t := Next(s, Delete(w));
    var rest := PhaseOf(s, w).rest;
    Counts(s, t, w, id);
    HeadsAndTails(s, id);
    BatchIsSorted(s, w);
    StreamWithout(s.stream, rest[0].id);
    assert forall i :: 0 <= i < |rest| - 1 ==> rest[1..][i] == rest[i + 1];
  }

  lemma StreamWithout(es: seq<Entry>, id: Id)
    ensures Ids(Remove(es, id)) == Ids(es) - {id}
  {
    RemoveSelects(es, id);
    forall x | x in Ids(es) - {id} ensures x in Ids(Remove(es, id)) {
      var e :| e in es && e.id == x;
      assert e in Remove(es, id);
    }
  }

  /** A step of drain `w` that leaves stream and batch as they are. */
  lemma MoveKeepsLaw(s: State, t: State, w: nat, id: Id, n: nat)
    requires Law(s, id, n) && w in t.workers && t.workers == s.workers[w := t.workers[w]]
    requires t.stream == s.stream && t.top == s.top && t.deliveries == s.deliveries
    requires Deaths(t, id) == Deaths(s, id) && Batch(t.workers[w]) == Batch(PhaseOf(s, w))
    requires t.workers[w].Idle? || !PhaseOf(s, w).Idle? || |Busy(s)| < n
    ensures Law(t, id, n)
  {
    Counts(s, t, w, id);
  }

  lemma CrashKeepsLaw(s: State, w: nat, id: Id, n: nat)
    requires Law(s, id, n)
    ensures Law(Next(s, Crash(w)), id, n)
  {
    Counts(s, Next(s, Crash(w)), w, id);
  }

  lemma StepKeepsLaw(s: State, step: Step, id: Id, n: nat)
    requires Inv(s) && Enabled(s, step) && Law(s, id, n)
    requires step.Start? ==> |Busy(s)| < n
    ensures Law(Next(s, step), id, n)
  {
    match step
    case Produce(e) => ProduceKeepsLaw(s, e, id, n);
    case Start(w) => MoveKeepsLaw(s, Next(s, step), w, id, n);
    case Read(w, count) => ReadKeepsLaw(s, w, count, id, n);
    case Handle(w) => MoveKeepsLaw(s, Next(s, step), w, id, n);
    case Commit(w) => MoveKeepsLaw(s, Next(s, step), w, id, n);
    case Delete(w) => DeleteKeepsLaw(s, w, id, n);
    case Crash(w) => CrashKeepsLaw(s, w, id, n);
  }

  lemma {:induction false} RunKeepsLaw(s: State, steps: seq<Step>, t: State, id: Id, n: nat)
    requires Inv(s) && Law(s, id, n) && Reaches(s, steps, t) && AtMost(n, s, steps)
    ensures Inv(t) && Law(t, id, n)
    decreases |steps|
  {
    if steps != [] {
      StepPreservesInv(s, steps[0]);
      StepKeepsLaw(s, steps[0], id, n);
      RunKeepsLaw(Next(s, steps[0]), steps[1..], t, id, n);
    }
  }

  /** With at most `n` drains under way at any time, a message is delivered at most `n` times, plus
      once for every death between one of its deliveries and its XDEL. */
  lemma DeliveredAtMost(n: nat, steps: seq<Step>, t: State, id: Id)
    requires Reaches(INITIAL, steps, t) && AtMost(n, INITIAL, steps)
    ensures t.deliveries[id] <= n + Deaths(t, id)
  {
    assert Busy(INITIAL) == {} && Tails(INITIAL, id) == {};
    RunKeepsLaw(INITIAL, steps, t, id, n);
    HeadsAndTails(t, id);
  }

  // ---------------------------------------------------------------------------------------------
  // The bound is exact
  // ---------------------------------------------------------------------------------------------

  lemma {:induction false} AtMostAppend(n: nat, s: State, steps: seq<Step>, t: State, step: Step)
    requires Reaches(s, steps, t) && AtMost(n, s, steps) && Enabled(t, step)
    requires step.Start? ==> |Busy(t)| < n
    ensures AtMost(n, s, steps + [step])
    decreases |steps|
  {
    if steps == [] {
      assert AtMost(n, Next(s, step), []);
    } else {
      AtMostAppend(n, Next(s, steps[0]), steps[1..], t, step);
      assert (steps + [step])[1..] == steps[1..] + [step];
    }
  }

  /** `k` drains have delivered the only entry, and nobody has died. */
  ghost predicate Crowded(t: State, e: Entry, k: nat) {
    && t.stream == [e] && t.cursor == 0 && t.deliveries[e.id] == k
    && t.aborted == multiset{} && t.late == multiset{} && Busy(t) == Upto(k)
  }

  /** One more drain reads the entry and delivers it. */
  lemma OneMoreDelivers(s: State, e: Entry, w: nat)
    requires 0 < e.id && Crowded(s, e, w)
    ensures PhaseOf(s, w).Idle? && |Busy(s)| == w
    ensures var s1 := Next(s, Start(w)); Enabled(s1, Read(w, 1)) && Crowded(Next(s1, Read(w, 1)), e, w + 1)
  {
    UptoIs(w);
    assert w !in Busy(s);
    assert Above([e], 0) == [e] by { assert [e][1..] == []; }
    var s1 := Next(s, Start(w));
    var t := Next(s1, Read(w, 1));
    assert t.workers == s.workers[w := Yielded([e])];
    assert Busy(t) == Busy(s) + {w};
  }

  lemma {:induction false} Crowd(e: Entry, k: nat, n: nat) returns (steps: seq<Step>, t: State)
    requires 0 < e.id && k <= n
    ensures Reaches(INITIAL, steps, t) && AtMost(n, INITIAL, steps) && Crowded(t, e, k)
  {
    if k == 0 {
      assert Reaches(INITIAL, [], INITIAL);
      ReachesAppend(INITIAL, [], INITIAL, Produce(e));
      AtMostAppend(n, INITIAL, [], INITIAL, Produce(e));
      steps, t := [] + [Produce(e)], Next(INITIAL, Produce(e));
    } else {
      var before, s := Crowd(e, k - 1, n);
      OneMoreDelivers(s, e, k - 1);
      steps, t := StartAndRead(n, before, s, k - 1);
    }
  }

  lemma StartAndRead(n: nat, before: seq<Step>, s: State, w: nat) returns (steps: seq<Step>, t: State)
    requires Reaches(INITIAL, before, s) && AtMost(n, INITIAL, before)
    requires PhaseOf(s, w).Idle? && |Busy(s)| < n
    ensures Enabled(Next(s, Start(w)), Read(w, 1)) && t == Next(Next(s, Start(w)), Read(w, 1))
    ensures Reaches(INITIAL, steps, t) && AtMost(n, INITIAL, steps)
  {
    var s1 := Next(s, Start(w));
    ReachesAppend(INITIAL, before, s, Start(w));
    AtMostAppend(n, INITIAL, before, s, Start(w));
    ReachesAppend(INITIAL, before + [Start(w)], s1, Read(w, 1));
    AtMostAppend(n, INITIAL, before + [Start(w)], s1, Read(w, 1));
    steps, t := before + [Start(w)] + [Read(w, 1)], Next(s1, Read(w, 1));
  }

  /** In every run with at most `n` drains under way, `m` and the deaths bound the deliveries. */
  ghost predicate Bounded(m: nat, n: nat) {
    forall steps, t, id :: Reaches(INITIAL, steps, t) && AtMost(n, INITIAL, steps) ==>
      t.deliveries[id] <= m + Deaths(t, id)
  }

  /** The number of drains under way is the exact bound; in particular, a message is processed only
      once, deaths apart, exactly if drains never overlap. */
  lemma BoundIsExact(m: nat, n: nat)
    ensures Bounded(m, n) <==> n <= m
  {
    if n <= m {
      forall steps, t, id | Reaches(INITIAL, steps, t) && AtMost(n, INITIAL, steps)
        ensures t.deliveries[id] <= m + Deaths(t, id)
      {
        DeliveredAtMost(n, steps, t, id);
      }
    } else {
      var e := Entry(1, map[]);
      var steps, t := Crowd(e, n, n);
      assert t.deliveries[e.id] > m + Deaths(t, e.id);
    }
  }

  // ---------------------------------------------------------------------------------------------
  // Deaths after the SET
  // ---------------------------------------------------------------------------------------------

  /** The same, but a death between the SET and the XDEL does not count. */
  ghost predicate OnceButForAborts(n: nat) {
    forall steps, t, id :: Reaches(INITIAL, steps, t) && AtMost(n, INITIAL, steps) ==>
      t.deliveries[id] <= 1 + t.aborted[id]
  }

  lemma {:induction false} OneAtATime(s: State, steps: seq<Step>)
    requires AtMost(1, s, steps)
    ensures Sequential(s, steps)
    decreases |steps|
  {
    if steps != [] {
      if steps[0].Start? {
        assert Busy(s) == {};
        forall w | w in s.workers ensures s.workers[w].Idle? {
          assert w !in Busy(s);
        }
      }
      OneAtATime(Next(s, steps[0]), steps[1..]);
    }
  }

  lemma {:induction false} AtMostGrows(m: nat, n: nat, s: State, steps: seq<Step>)
    requires m <= n && AtMost(m, s, steps)
    ensures AtMost(n, s, steps)
    decreases |steps|
  {
    if steps != [] {
      AtMostGrows(m, n, Next(s, steps[0]), steps[1..]);
    }
  }

  /** "Once, plus the deaths before the SET" holds exactly if drains never overlap. */
  lemma OverlapIsTheOnlyCause(n: nat)
    ensures OnceButForAborts(n) <==> n <= 1
  {
    if n <= 1 {
      forall steps, t, id | Reaches(INITIAL, steps, t) && AtMost(n, INITIAL, steps)
        ensures t.deliveries[id] <= 1 + t.aborted[id]
      {
        AtMostGrows(n, 1, INITIAL, steps);
        OneAtATime(INITIAL, steps);
        DeliveredOncePlusCrashes(steps, t, id);
      }
    } else {
      var e := Entry(1, map[]);
      var steps, t := Crowd(e, n, n);
      assert t.deliveries[e.id] > 1 + t.aborted[e.id];
    }
  }
}
