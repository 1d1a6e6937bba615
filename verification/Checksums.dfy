/** Several tasks that fill one knowledge base at once: the lookup and the insertion of
    apps/worker/vocalflow_worker/tasks/kb_ingest.py are two commands, and others may come between them. The
    unique index of infra/migrations/init.sql on knowledge base and checksum refuses a second row. */
module Checksums {
  import opened Basics
  import opened Crawl

  /** `pending`: the tasks whose lookup found no row, with the document they will insert. `refused`
      counts, for each checksum, the insertions that the index has turned down. */
  datatype State = State(docs: seq<Doc>, pending: map<nat, Doc>, refused: multiset<string>)

  datatype Step =
    | Lookup(w: nat, d: Doc)
    | Insert(w: nat)
    | Abort(w: nat)

  function Start(docs: seq<Doc>): State {
    State(docs, map[], multiset{})
  }

  predicate Enabled(s: State, step: Step) {
    match step
    case Lookup(w, _) => w !in s.pending
    case Insert(w) => w in s.pending
    case Abort(w) => w in s.pending
  }

  /** A lookup that finds a row goes on without inserting; a task whose insertion is refused raises. */
  function Next(s: State, step: Step): State
    requires Enabled(s, step)
  {
    match step
    case Lookup(w, d) => if Rows(s.docs, d.checksum) == 0 then s.(pending := s.pending[w := d]) else s
    case Insert(w) =>
      var d := s.pending[w];
      var s' := s.(pending := s.pending - {w});
      if Rows(s.docs, d.checksum) == 0 then s'.(docs := s.docs + [d])
      else s'.(refused := s.refused + multiset{d.checksum})
    case Abort(w) => s.(pending := s.pending - {w})
  }

  ghost predicate Reaches(s: State, steps: seq<Step>, t: State)
    decreases |steps|
  {
    if steps == [] then s == t
    else Enabled(s, steps[0]) && Reaches(Next(s, steps[0]), steps[1..], t)
  }

  lemma {:induction false} ReachesAppend(s: State, steps: seq<Step>, t: State, step: Step)
    requires Reaches(s, steps, t) && Enabled(t, step)
    ensures Reaches(s, steps + [step], Next(t, step))
    decreases |steps|
  {
    if steps == [] {
      assert Reaches(Next(s, step), [], Next(t, step));
    } else {
      ReachesAppend(Next(s, steps[0]), steps[1..], t, step);
      assert (steps + [step])[1..] == steps[1..] + [step];
    }
  }

  // ---------------------------------------------------------------------------------------------
  // Checksums stay distinct
  // ---------------------------------------------------------------------------------------------

  /** In every run, however many lookups overlap, checksums stay distinct. */
  lemma {:induction false} AlwaysDistinct(s: State, steps: seq<Step>, t: State)
    requires Distinct(s.docs) && Reaches(s, steps, t)
    ensures Distinct(t.docs)
    decreases |steps|
  {
    if steps != [] {
      if steps[0].Insert? {
        RowsCount(s.docs, s.pending[steps[0].w].checksum);
      }
      AlwaysDistinct(Next(s, steps[0]), steps[1..], t);
    }
  }

  // ---------------------------------------------------------------------------------------------
  // How many insertions are refused
  // ---------------------------------------------------------------------------------------------

  /** The tasks that are between lookup and insertion for the checksum. */
  function Between(s: State, checksum: string): set<nat> {
    set w | w in s.pending && s.pending[w].checksum == checksum
  }

  /** At most `n` tasks are ever between lookup and insertion for one checksum. */
  ghost predicate AtMost(n: nat, s: State, steps: seq<Step>)
    decreases |steps|
  {
    steps == [] ||
    (&& Enabled(s, steps[0])
     && (steps[0].Lookup? && Rows(s.docs, steps[0].d.checksum) == 0 ==> |Between(s, steps[0].d.checksum)| < n)
     && AtMost(n, Next(s, steps[0]), steps[1..]))
  }

  lemma {:induction false} AtMostAppend(n: nat, s: State, steps: seq<Step>, t: State, step: Step)
    requires Reaches(s, steps, t) && AtMost(n, s, steps) && Enabled(t, step)
    requires step.Lookup? && Rows(t.docs, step.d.checksum) == 0 ==> |Between(t, step.d.checksum)| < n
    ensures AtMost(n, s, steps + [step])
    decreases |steps|
  {
    if steps == [] {
      assert AtMost(n, Next(s, step), []);
    } else {
      AtMostAppend(n, Next(s, steps[0]), steps[1..], t, step);
      assert (steps + [step])[1..] == steps[1..] + [step];
    }
  }

  /** As long as there is no row, nothing is refused and `n` tasks may be about to insert one; once there
      is one, they can only be refused, and no others come. */
  ghost predicate Law(s: State, n: nat, c: string) {
    if Rows(s.docs, c) == 0 then s.refused[c] == 0 && |Between(s, c)| <= n
    else s.refused[c] + |Between(s, c)| <= if n == 0 then 0 else n - 1
  }

  lemma OneLess(s: State, w: nat, c: string)
    requires w in s.pending
    ensures |Between(s.(pending := s.pending - {w}), c)|
         == |Between(s, c)| - if s.pending[w].checksum == c then 1 else 0
  {
    assert Between(s.(pending := s.pending - {w}), c) == Between(s, c) - {w};
  }

  lemma InsertKeepsLaw(s: State, w: nat, n: nat, c: string)
    requires Law(s, n, c) && w in s.pending
    ensures Law(Next(s, Insert(w)), n, c)
  {
    var t := Next(s, Insert(w));
    OneLess(s, w, c);
    assert Between(t, c) == Between(s.(pending := s.pending - {w}), c);
    RowsAppend(s.docs, s.pending[w], c);
    assert s.pending[w].checksum == c ==> w in Between(s, c);
  }

  lemma OneMore(s: State, w: nat, d: Doc, c: string)
    requires w !in s.pending
    ensures |Between(s.(pending := s.pending[w := d]), c)| == |Between(s, c)| + if d.checksum == c then 1 else 0
  {
    var after := Between(s.(pending := s.pending[w := d]), c);
    if d.checksum == c {
      assert after == Between(s, c) + {w};
    } else {
      assert after == Between(s, c);
    }
  }

  lemma LookupKeepsLaw(s: State, w: nat, d: Doc, n: nat, c: string)
    requires Law(s, n, c) && w !in s.pending
    requires Rows(s.docs, d.checksum) == 0 ==> |Between(s, d.checksum)| < n
    ensures Law(Next(s, Lookup(w, d)), n, c)
  {
    OneMore(s, w, d, c);
  }

  lemma AbortKeepsLaw(s: State, w: nat, n: nat, c: string)
    requires Law(s, n, c) && w in s.pending
    ensures Law(Next(s, Abort(w)), n, c)
  {
    OneLess(s, w, c);
  }

  lemma StepKeepsLaw(s: State, step: Step, n: nat, c: string)
    requires Law(s, n, c) && Enabled(s, step)
    requires step.Lookup? && Rows(s.docs, step.d.checksum) == 0 ==> |Between(s, step.d.checksum)| < n
    ensures Law(Next(s, step), n, c)
  {
    match step
    case Lookup(w, d) => LookupKeepsLaw(s, w, d, n, c);
    case Insert(w) => InsertKeepsLaw(s, w, n, c);
    case Abort(w) => AbortKeepsLaw(s, w, n, c);
  }

  lemma {:induction false} RunKeepsLaw(n: nat, s: State, steps: seq<Step>, t: State, c: string)
    requires Law(s, n, c) && Reaches(s, steps, t) && AtMost(n, s, steps)
    ensures Law(t, n, c)
    decreases |steps|
  {
    if steps != [] {
      StepKeepsLaw(s, steps[0], n, c);
      RunKeepsLaw(n, Next(s, steps[0]), steps[1..], t, c);
    }
  }

  // ---------------------------------------------------------------------------------------------
  // The bound is exact
  // ---------------------------------------------------------------------------------------------

  /** Tasks 0 to k - 1 are about to insert `d`. */
  ghost predicate Pending(s: State, d: Doc, k: nat) {
    s.pending.Keys == Upto(k) && forall w :: w in s.pending ==> s.pending[w] == d
  }

  /** `k` tasks have looked `d` up and found nothing. */
  ghost predicate Looked(s: State, d: Doc, k: nat) {
    s.docs == [] && s.refused == multiset{} && Pending(s, d, k)
  }

  lemma LookOnce(s: State, d: Doc, k: nat)
    requires Looked(s, d, k)
    ensures Enabled(s, Lookup(k, d)) && |Between(s, d.checksum)| == k
    ensures Looked(Next(s, Lookup(k, d)), d, k + 1)
  {
    UptoIs(k);
    assert Between(s, d.checksum) == Upto(k);
    assert Next(s, Lookup(k, d)).pending.Keys == s.pending.Keys + {k};
  }

  lemma {:induction false} Lookups(d: Doc, k: nat, n: nat) returns (steps: seq<Step>, t: State)
    requires k <= n
    ensures Reaches(Start([]), steps, t) && AtMost(n, Start([]), steps) && Looked(t, d, k)
  {
    if k == 0 {
      steps, t := [], Start([]);
    } else {
      var before, s := Lookups(d, k - 1, n);
      LookOnce(s, d, k - 1);
      ReachesAppend(Start([]), before, s, Lookup(k - 1, d));
      AtMostAppend(n, Start([]), before, s, Lookup(k - 1, d));
      steps, t := before + [Lookup(k - 1, d)], Next(s, Lookup(k - 1, d));
    }
  }

  /** All but `k` of the `n` tasks have inserted `d`; the first got in. */
  ghost predicate Inserted(s: State, d: Doc, n: nat, k: nat) {
    s.docs == [d] && Pending(s, d, k) && k < n && s.refused[d.checksum] == n - 1 - k
  }

  lemma OnePendingLess(s: State, d: Doc, k: nat)
    requires Pending(s, d, k + 1)
    ensures k in s.pending && Pending(s.(pending := s.pending - {k}), d, k)
  {
    UptoIs(k);
    assert Upto(k + 1) == Upto(k) + {k};
    assert (s.pending - {k}).Keys == s.pending.Keys - {k};
  }

  lemma FirstInsertion(s: State, d: Doc, n: nat)
    requires Looked(s, d, n) && n > 0
    ensures Enabled(s, Insert(n - 1)) && Inserted(Next(s, Insert(n - 1)), d, n, n - 1)
  {
    OnePendingLess(s, d, n - 1);
  }

  lemma RefusedInsertion(s: State, d: Doc, n: nat, k: nat)
    requires Inserted(s, d, n, k + 1)
    ensures Enabled(s, Insert(k)) && Inserted(Next(s, Insert(k)), d, n, k)
  {
    OnePendingLess(s, d, k);
    assert [d][1..] == [] && Rows(s.docs, d.checksum) == 1;
  }

  lemma {:induction false} Insertions(d: Doc, n: nat, k: nat) returns (steps: seq<Step>, t: State)
    requires k < n
    ensures Reaches(Start([]), steps, t) && AtMost(n, Start([]), steps) && Inserted(t, d, n, k)
    decreases n - k
  {
    var before, s;
    if k == n - 1 {
      before, s := Lookups(d, n, n);
      FirstInsertion(s, d, n);
    } else {
      before, s := Insertions(d, n, k + 1);
      RefusedInsertion(s, d, n, k);
    }
    ReachesAppend(Start([]), before, s, Insert(k));
    AtMostAppend(n, Start([]), before, s, Insert(k));
    steps, t := before + [Insert(k)], Next(s, Insert(k));
  }

  /** In every run with at most `n` tasks between lookup and insertion for one checksum, at most `m`
      insertions of a checksum are refused. */
  ghost predicate Bounded(m: nat, n: nat) {
    forall docs, steps, t, c ::
      Reaches(Start(docs), steps, t) && AtMost(n, Start(docs), steps) ==> t.refused[c] <= m
  }

  /** All tasks that overlap on one checksum but the first may be refused, and no more; in particular, no
      task ever raises for it exactly if lookups of one checksum do not overlap. */
  lemma RefusalsAreExact(m: nat, n: nat)
    ensures Bounded(m, n) <==> n <= m + 1
  {
    if n <= m + 1 {
      forall docs, steps, t, c | Reaches(Start(docs), steps, t) && AtMost(n, Start(docs), steps)
        ensures t.refused[c] <= m
      {
        assert Between(Start(docs), c) == {};
        RunKeepsLaw(n, Start(docs), steps, t, c);
      }
    } else {
      var d := Doc("", "", "");
      var steps, t := Insertions(d, n, 0);
      assert t.refused[d.checksum] == n - 1;
    }
  }
}
