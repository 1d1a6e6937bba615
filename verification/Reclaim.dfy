/** Which entries a drain leaves in the stream: the XDEL is there to reclaim space. */
module Reclaim {
  import opened StreamDrain
  import opened Deliveries

  // ---------------------------------------------------------------------------------------------
  // However drains overlap: what stays behind has cost a death
  // ---------------------------------------------------------------------------------------------

  /** What is handled, or at the head of a batch, has been delivered. */
  ghost predicate DeliveredFirst(s: State) {
    && (forall id :: id in s.handled ==> s.deliveries[id] >= 1)
    && (forall w :: w in s.workers && Batch(s.workers[w]) != [] ==> s.deliveries[Batch(s.workers[w])[0].id] >= 1)
  }

  lemma StepDeliversFirst(s: State, step: Step)
    requires DeliveredFirst(s) && Enabled(s, step)
    ensures DeliveredFirst(Next(s, step))
  {
    var t := Next(s, step);
    assert forall id :: t.deliveries[id] >= s.deliveries[id];
    forall w | w in t.workers && Batch(t.workers[w]) != [] ensures t.deliveries[Batch(t.workers[w])[0].id] >= 1 {
      if w in s.workers && t.workers[w] == s.workers[w] {
        assert s.deliveries[Batch(s.workers[w])[0].id] >= 1;
      }
    }
  }

  lemma StepAddsOne(s: State, step: Step)
    requires Enabled(s, step)
    ensures |Busy(Next(s, step))| <= |Busy(s)| + 1
  {
    var t := Next(s, step);
    if step.Produce? {
      assert Busy(t) == Busy(s);
    } else {
      Counts(s, t, step.w, 0);
    }
  }

  /** Every run has some bound on the drains under way. */
  lemma {:induction false} RunIsAtMost(n: nat, s: State, steps: seq<Step>, t: State)
    requires Reaches(s, steps, t) && |Busy(s)| + |steps| <= n && DeliveredFirst(s)
    ensures AtMost(n, s, steps) && DeliveredFirst(t)
    decreases |steps|
  {
    if steps != [] {
      StepAddsOne(s, steps[0]);
      StepDeliversFirst(s, steps[0]);
      RunIsAtMost(n, Next(s, steps[0]), steps[1..], t);
    }
  }

  /** In every interleaving: a handled entry that is still in the stream although no drain is at it has
      been struck by a death between a delivery and its XDEL. */
  lemma LeftBehindCostsADeath(steps: seq<Step>, t: State, id: Id)
    requires Reaches(INITIAL, steps, t)
    requires id in t.handled && id in Ids(t.stream) && Heads(t, id) == {}
    ensures Deaths(t, id) >= 1
  {
    var n := |steps|;
    assert Busy(INITIAL) == {} && Tails(INITIAL, id) == {};
    RunIsAtMost(n, INITIAL, steps, t);
    RunKeepsLaw(INITIAL, steps, t, id, n);
  }

  // ---------------------------------------------------------------------------------------------
  // When drains follow each other: exactly what died after its SET stays
  // ---------------------------------------------------------------------------------------------

  ghost predicate AtXdel(s: State, id: Id) {
    exists w :: w in s.workers && s.workers[w].Committed? && s.workers[w].rest != [] && s.workers[w].rest[0].id == id
  }

  /** At or below the cursor, the stream holds what died after its SET, and what awaits its XDEL. */
  ghost predicate Tidy(s: State, id: Id) {
    && (s.late[id] > 0 ==> id <= s.cursor && id in Ids(s.stream))
    && (id in Ids(s.stream) && id <= s.cursor ==> s.late[id] > 0 || AtXdel(s, id))
  }

  /** The batch is what the stream holds between the cursor and the end of the batch. */
  ghost predicate Tight(s: State, p: Phase) {
    var rest := Batch(p);
    rest != [] ==>
      && Ids(rest) <= Ids(s.stream)
      && (forall id :: id in Ids(s.stream) && s.cursor < id <= rest[|rest| - 1].id ==> id in Ids(rest))
      && (p.Committed? ==> s.late[rest[0].id] == 0)
  }

  ghost predicate TidyInv(s: State) {
    && (forall id: Id :: Tidy(s, id))
    && (forall w :: w in s.workers ==> Tight(s, s.workers[w]))
  }

  /** Everything known of drains that follow each other. */
  ghost predicate Orderly(s: State) {
    Inv(s) && AloneInv(s) && TidyInv(s)
  }

  lemma ProduceKeepsTidy(s: State, e: Entry)
    requires Orderly(s) && s.top < e.id
    ensures TidyInv(Next(s, Produce(e)))
  {
    var t := Next(s, Produce(e));
    assert Ids(t.stream) == Ids(s.stream) + {e.id} by {
      assert e in t.stream;
      forall x | x in s.stream ensures x in t.stream {
      }
    }
    forall id: Id ensures Tidy(t, id) {
      assert Tidy(s, id);
      assert AtXdel(s, id) ==> AtXdel(t, id);
    }
    forall w | w in t.workers ensures Tight(t, t.workers[w]) {
      assert Tight(s, s.workers[w]);
      BatchIsSorted(s, w);
    }
  }

  lemma ReadIsTight(s: State, w: nat, count: nat)
    requires Orderly(s) && Enabled(s, Read(w, count))
    ensures Tight(Next(s, Read(w, count)), Next(s, Read(w, count)).workers[w])
  {
    var last := PhaseOf(s, w).last;
    assert InStep(s.cursor, s.workers[w]);
    var all := Above(s.stream, last);
    var batch := Take(all, count);
    TakeIsPrefix(all, count);
    AboveSelects(s.stream, last);
    if batch != [] {
      assert Ids(batch) <= Ids(s.stream) by {
        forall e | e in batch ensures e in s.stream {
          assert e in all;
        }
      }
      var end := batch[|batch| - 1];
      assert end == all[|batch| - 1];
      assert forall i :: |batch| <= i < |all| ==> end.id < all[i].id;
      forall id | id in Ids(s.stream) && last < id <= end.id ensures id in Ids(batch) {
        var e :| e in s.stream && e.id == id;
        assert e in all;
        var i :| 0 <= i < |all| && all[i] == e;
        assert batch[i] == e;
      }
    }
  }

  /** A step that changes neither stream nor cursor, and brings no drain to or from its XDEL. */
  lemma QuietStepKeepsTidy(s: State, t: State, w: nat)
    requires TidyInv(s) && w in t.workers && t.workers == s.workers[w := t.workers[w]]
    requires t.stream == s.stream && t.cursor == s.cursor && t.late == s.late
    requires !PhaseOf(s, w).Committed? && !t.workers[w].Committed? && Tight(t, t.workers[w])
    ensures TidyInv(t)
  {
    forall id: Id ensures Tidy(t, id) {
      assert Tidy(s, id);
      if AtXdel(s, id) {
        var v :| v in s.workers && s.workers[v].Committed? && s.workers[v].rest != [] && s.workers[v].rest[0].id == id;
        assert t.workers[v] == s.workers[v];
      }
    }
    forall v | v in t.workers ensures Tight(t, t.workers[v]) {
      assert v != w ==> Tight(s, s.workers[v]);
    }
  }

  lemma OthersAreIdle(s: State, w: nat)
    requires OneBusy(s) && w in s.workers && !s.workers[w].Idle?
    ensures forall v :: v in s.workers && v != w ==> s.workers[v].Idle?
    ensures forall id :: AtXdel(s, id) ==>
              s.workers[w].Committed? && s.workers[w].rest != [] && s.workers[w].rest[0].id == id
  {
  }

  lemma CommitKeepsTidy(s: State, w: nat)
    requires Orderly(s) && Enabled(s, Commit(w))
    ensures TidyInv(Next(s, Commit(w)))
  {
    var t, rest := Next(s, Commit(w)), PhaseOf(s, w).rest;
    OthersAreIdle(s, w);
    assert InStep(s.cursor, s.workers[w]) && Tight(s, s.workers[w]);
    TailAboveHead(rest);
    forall id: Id ensures Tidy(t, id) {
      assert Tidy(s, id);
      if id in Ids(t.stream) && s.cursor < id <= t.cursor {
        assert rest[0].id <= rest[|rest| - 1].id;
        assert id in Ids(rest);
        assert id == rest[0].id;
        assert t.workers[w].Committed? && t.workers[w].rest[0].id == id;
        assert AtXdel(t, id);
      }
    }
    assert Tidy(s, rest[0].id);
    forall v | v in t.workers ensures Tight(t, t.workers[v]) {
      assert v != w ==> t.workers[v].Idle?;
    }
  }

  lemma DeleteKeepsOneTidy(s: State, w: nat, id: Id)
    requires Orderly(s) && Enabled(s, Delete(w))
    ensures Tidy(Next(s, Delete(w)), id)
  {
    OthersAreIdle(s, w);
    assert InStep(s.cursor, s.workers[w]) && Tight(s, s.workers[w]) && Tidy(s, id);
    StreamWithout(s.stream, PhaseOf(s, w).rest[0].id);
  }

  lemma DeleteIsTight(s: State, w: nat)
    requires Orderly(s) && Enabled(s, Delete(w))
    ensures Tight(Next(s, Delete(w)), Next(s, Delete(w)).workers[w])
  {
    var rest := PhaseOf(s, w).rest;
    assert InStep(s.cursor, s.workers[w]) && Tight(s, s.workers[w]);
    TailAboveHead(rest);
    StreamWithout(s.stream, rest[0].id);
  }

  lemma DeleteKeepsTidy(s: State, w: nat)
    requires Orderly(s) && Enabled(s, Delete(w))
    ensures TidyInv(Next(s, Delete(w)))
  {
    var t := Next(s, Delete(w));
    OthersAreIdle(s, w);
    DeleteIsTight(s, w);
    forall id: Id ensures Tidy(t, id) {
      DeleteKeepsOneTidy(s, w, id);
    }
    forall v | v in t.workers ensures Tight(t, t.workers[v]) {
      assert v != w ==> t.workers[v].Idle?;
    }
  }

  lemma CrashKeepsTidy(s: State, w: nat)
    requires Orderly(s)
    ensures TidyInv(Next(s, Crash(w)))
  {
    var t, p := Next(s, Crash(w)), PhaseOf(s, w);
    if p.Idle? {
      QuietStepKeepsTidy(s, t, w);
    } else {
      OthersAreIdle(s, w);
      assert InStep(s.cursor, s.workers[w]) && Tight(s, s.workers[w]);
      forall id: Id ensures Tidy(t, id) {
        assert Tidy(s, id);
        if p.Committed? && p.rest[0].id == id {
          assert p.rest[0] in p.rest && id in Ids(p.rest);
        }
      }
      assert forall v :: v in t.workers ==> t.workers[v].Idle?;
    }
  }

  lemma StepKeepsTidy(s: State, step: Step)
    requires Orderly(s) && Enabled(s, step)
    ensures TidyInv(Next(s, step))
  {
    match step
    case Produce(e) => ProduceKeepsTidy(s, e);
    case Start(w) => QuietStepKeepsTidy(s, Next(s, step), w);
    case Read(w, count) =>
      ReadIsTight(s, w, count);
      QuietStepKeepsTidy(s, Next(s, step), w);
    case Handle(w) =>
      assert Tight(s, s.workers[w]);
      QuietStepKeepsTidy(s, Next(s, step), w);
    case Commit(w) => CommitKeepsTidy(s, w);
    case Delete(w) => DeleteKeepsTidy(s, w);
    case Crash(w) => CrashKeepsTidy(s, w);
  }

  lemma {:induction false} RunIsOrderly(s: State, steps: seq<Step>, t: State)
    requires Orderly(s) && Reaches(s, steps, t) && Sequential(s, steps)
    ensures Orderly(t)
    decreases |steps|
  {
    if steps != [] {
      StepPreservesInv(s, steps[0]);
      StepKeepsAlone(s, steps[0]);
      StepKeepsTidy(s, steps[0]);
      RunIsOrderly(Next(s, steps[0]), steps[1..], t);
    }
  }

  /** When drains do not overlap, the stream keeps at or below the cursor exactly the entries whose drain
      died between their SET and their XDEL; those it keeps for ever, as no later drain reads there. */
  lemma OnlyLateDeathsStay(steps: seq<Step>, t: State, id: Id)
    requires Reaches(INITIAL, steps, t) && Sequential(INITIAL, steps)
    ensures id <= t.cursor && Heads(t, id) == {} ==> (id in Ids(t.stream) <==> t.late[id] >= 1)
    ensures t.late[id] >= 1 ==> id <= t.cursor && id in Ids(t.stream)
  {
    RunIsOrderly(INITIAL, steps, t);
    assert Tidy(t, id);
    XdelIsHead(t, id);
  }

  lemma XdelIsHead(s: State, id: Id)
    ensures AtXdel(s, id) ==> Heads(s, id) != {}
  {
    if AtXdel(s, id) {
      var w :| w in s.workers && s.workers[w].Committed? && s.workers[w].rest != [] && s.workers[w].rest[0].id == id;
      assert w in Heads(s, id);
    }
  }
}
