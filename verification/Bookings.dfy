/** Many callers of one calendar at once: asking for slots and booking one of them are two requests, and
    others may come between them. */
module Bookings {
  import opened Basics
  import opened Calendar

  /** `offers`: the callers that have been offered slots and have not booked yet. */
  datatype State = State(busy: seq<Range>, offers: map<nat, Round>)

  datatype Step =
    | Ask(w: nat, r: Round)
    | Book(w: nat)
    | Leave(w: nat)

  function Start(busy: seq<Range>): State {
    State(busy, map[])
  }

  /** What a caller is offered is true when it asks. */
  ghost predicate Enabled(s: State, step: Step) {
    match step
    case Ask(w, r) => w !in s.offers && RoundOn(s.busy, r)
    case Book(w) => w in s.offers
    case Leave(w) => w in s.offers
  }

  function SlotOf(r: Round): Range {
    Slot(r.chosen, r.duration)
  }

  ghost function Next(s: State, step: Step): State
    requires Enabled(s, step)
  {
    match step
    case Ask(w, r) => s.(offers := s.offers[w := r])
    case Book(w) => State(s.busy + [SlotOf(s.offers[w])], s.offers - {w})
    case Leave(w) => s.(offers := s.offers - {w})
  }

  ghost predicate Reaches(s: State, steps: seq<Step>, t: State)
    decreases |steps|
  {
    if steps == [] then s == t
    else Enabled(s, steps[0]) && Reaches(Next(s, steps[0]), steps[1..], t)
  }

  /** At most `n` callers are ever between their question and their booking. */
  ghost predicate AtMost(n: nat, s: State, steps: seq<Step>)
    decreases |steps|
  {
    steps == [] ||
    (&& Enabled(s, steps[0])
     && (steps[0].Ask? ==> |s.offers| < n)
     && AtMost(n, Next(s, steps[0]), steps[1..]))
  }

  /** There is one offer at most, and it is still good. */
  ghost predicate Good(s: State) {
    && Disjoint(s.busy) && |s.offers| <= 1
    && forall w :: w in s.offers ==> Free(s.busy, SlotOf(s.offers[w]))
  }

  lemma OneFewer(offers: map<nat, Round>, w: nat)
    requires w in offers
    ensures |offers - {w}| == |offers| - 1
  {
    assert (offers - {w}).Keys == offers.Keys - {w};
    assert |offers.Keys| == |offers|;
  }

  lemma StepKeepsGood(s: State, step: Step)
    requires Good(s) && Enabled(s, step) && (step.Ask? ==> |s.offers| < 1)
    ensures Good(Next(s, step))
  {
    match step
    case Ask(w, r) =>
      OfferedIsFree(s.busy, r.start, r.end, r.duration, r.listed, r.slots, r.chosen);
      assert s.offers == map[];
    case Book(w) =>
      AddKeepsDisjoint(s.busy, SlotOf(s.offers[w]));
      OneFewer(s.offers, w);
      assert s.offers - {w} == map[];
    case Leave(w) => OneFewer(s.offers, w);
  }

  lemma {:induction false} OneAtATimeIsGood(s: State, steps: seq<Step>, t: State)
    requires Good(s) && Reaches(s, steps, t) && AtMost(1, s, steps)
    ensures Good(t)
    decreases |steps|
  {
    if steps != [] {
      StepKeepsGood(s, steps[0]);
      OneAtATimeIsGood(Next(s, steps[0]), steps[1..], t);
    }
  }

  lemma {:induction false} AtMostGrows(m: nat, n: nat, s: State, steps: seq<Step>)
    requires m <= n && AtMost(m, s, steps)
    ensures AtMost(n, s, steps)
    decreases |steps|
  {
    if steps != [] {
      AtMostGrows(m, n, Next(s, steps[0]), steps[1..]);
    }
  }

  /** Two callers are offered nine o'clock, and both book it. */
  lemma TwoBookOne(n: nat) returns (steps: seq<Step>, t: State)
    requires n >= 2
    ensures Reaches(Start([]), steps, t) && AtMost(n, Start([]), steps) && !Disjoint(t.busy)
  {
    var r := Round(9 * HOUR, 10 * HOUR, 60, [], [9 * HOUR], 9 * HOUR);
    StaleOfferDoubleBooks();
    var s1 := Next(Start([]), Ask(0, r));
    var s2 := Next(s1, Ask(1, r));
    var s3 := Next(s2, Book(0));
    t := Next(s3, Book(1));
    assert t.busy == [] + [SlotOf(r)] + [SlotOf(r)];
    var run3: seq<Step>, run2, run1 := [Book(1)], [Book(0), Book(1)], [Ask(1, r), Book(0), Book(1)];
    assert run3[1..] == [] && run2[1..] == run3 && run1[1..] == run2;
    assert Reaches(t, [], t) && AtMost(n, t, []);
    assert Reaches(s3, run3, t) && AtMost(n, s3, run3);
    assert Reaches(s2, run2, t) && AtMost(n, s2, run2);
    assert Reaches(s1, run1, t) && AtMost(n, s1, run1);
    steps := [Ask(0, r), Ask(1, r), Book(0), Book(1)];
    assert steps[1..] == run1;
  }

  /** From a calendar without overlaps, no run leads to one with. */
  ghost predicate NeverOverlaps(n: nat) {
    forall busy, steps, t ::
      Disjoint(busy) && Reaches(Start(busy), steps, t) && AtMost(n, Start(busy), steps) ==> Disjoint(t.busy)
  }

  /** Over all runs of callers that ask and book in any order, busy ranges stay pairwise disjoint exactly
      if at most one caller is between its question and its booking. */
  lemma OneCallerIsExact(n: nat)
    ensures NeverOverlaps(n) <==> n <= 1
  {
    if n <= 1 {
      forall busy, steps, t | Disjoint(busy) && Reaches(Start(busy), steps, t) && AtMost(n, Start(busy), steps)
        ensures Disjoint(t.busy)
      {
        AtMostGrows(n, 1, Start(busy), steps);
        OneAtATimeIsGood(Start(busy), steps, t);
      }
    } else {
      var steps, t := TwoBookOne(n);
      assert Disjoint([]) && Start([]).busy == [];
    }
  }
}
