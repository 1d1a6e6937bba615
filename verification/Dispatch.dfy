/** `FireDue` is a run of the callback machine, so what every run keeps holds of the task that runs. */
module Dispatch {
  import opened Callbacks

  lemma {:induction false} ReachesAppend(s: State, steps: seq<Step>, t: State, step: Step)
    requires Reaches(s, steps, t) && Enabled(t, step)
    ensures Reaches(s, steps + [step], Next(t, step))
    decreases |steps|
  {
    if steps == [] {
      assert Reaches(Next(s, step), [], Next(t, step));
    } else {
      ReachesAppend(Next(s, steps[0]), steps[1..], t, step);
      assert (steps + [step])[1..] == steps[1..] + [step];
    }
  }

  /** What the outbound stream holds, without the history of the entries. */
  function Calls(outbound: seq<Sent>): seq<Call> {
    if outbound == [] then []
    else
      var x := outbound[|outbound| - 1];
      Calls(outbound[..|outbound| - 1]) + [Call(x.to, x.agent, x.org)]
  }

  lemma CallsAdd(outbound: seq<Sent>, x: Sent)
    ensures Calls(outbound + [x]) == Calls(outbound) + [Call(x.to, x.agent, x.org)]
  {
    assert (outbound + [x])[..|outbound|] == outbound;
  }

  lemma ScoresPut(scheduled: map<string, Slot>, raw: string, slot: Slot)
    ensures Scores(scheduled[raw := slot]) == Scores(scheduled)[raw := slot.score]
  {
  }

  /** Dispatcher `d` has treated the first `n` of `claimed`. */
  ghost predicate Treated(s: State, t: State, d: nat, envs: seq<Env>, clock: seq<int>, claimed: seq<string>, n: nat)
    requires n <= |claimed| <= |envs| == |clock|
  {
    && Working(t, d, s.clock, claimed, n)
    && t.clock == (if n == 0 then s.clock else clock[n - 1])
    && Calls(t.outbound) == Calls(s.outbound) + Placed(envs, clock, claimed, n)
    && Scores(t.scheduled) == PutBack(Without(Scores(s.scheduled), claimed), s.clock + DELAY, envs, clock, claimed, n)
  }

  /** It holds the claims on the others, and has not looked at the next. */
  ghost predicate Working(t: State, d: nat, now: int, claimed: seq<string>, n: nat)
    requires n <= |claimed|
  {
    var p := DispatcherOf(t, d);
    && p.Busy? && p.now == now && p.head.Fresh? && |p.pending| == |claimed| - n
    && forall i :: 0 <= i < |p.pending| ==> p.pending[i].raw == claimed[n + i]
  }

  /** The entries are looked at one after the other, and not before the task started. */
  ghost predicate Onward(now: int, clock: seq<int>) {
    (forall i :: 0 <= i < |clock| ==> now <= clock[i]) && forall i, j :: 0 <= i < j < |clock| ==> clock[i] <= clock[j]
  }

  lemma TakesAll(s: State, d: nat, envs: seq<Env>, clock: seq<int>, claimed: seq<string>)
    returns (steps: seq<Step>, t: State)
    requires DispatcherOf(s, d).Idle? && IsClaim(Scores(s.scheduled), s.clock, claimed)
    requires |claimed| <= |envs| == |clock|
    ensures Reaches(s, steps, t) && Treated(s, t, d, envs, clock, claimed, 0)
  {
    var begun := Next(s, Begin(d));
    assert Reaches(s, [], s);
    ReachesAppend(s, [], s, Begin(d));
    ReachesAppend(s, [] + [Begin(d)], begun, Take(d, claimed));
    steps, t := [] + [Begin(d)] + [Take(d, claimed)], Next(begun, Take(d, claimed));
    assert Scores(t.scheduled) == Without(Scores(s.scheduled), claimed);
    assert Calls(s.outbound) + [] == Calls(s.outbound);
  }

  /** What one look at the entry at the head leads to. */
  ghost predicate HeadTreated(u: State, t: State, d: nat, outcome: Outcome)
    requires HasHead(DispatcherOf(u, d))
  {
    var p := DispatcherOf(u, d);
    && DispatcherOf(t, d) == Popped(p) && t.clock == u.clock
    && Calls(t.outbound) == Calls(u.outbound) + CallsOf(outcome)
    && Scores(t.scheduled) ==
       if outcome.Defer? then Scores(u.scheduled)[p.pending[0].raw := p.now + DELAY] else Scores(u.scheduled)
  }

  lemma Fires(v: State, d: nat)
    requires Enabled(v, Send(d))
    ensures var h := DispatcherOf(v, d).head;
            HeadTreated(v, Next(v, Send(d)), d, Fire(h.to, h.agent, h.org))
  {
    var t := Next(v, Send(d));
    CallsAdd(v.outbound, t.outbound[|v.outbound|]);
  }

  lemma Defers(v: State, d: nat, contact: string)
    requires Enabled(v, Reschedule(d))
    ensures HeadTreated(v, Next(v, Reschedule(d)), d, Defer(contact))
  {
    var t, raw := Next(v, Reschedule(d)), DispatcherOf(v, d).pending[0].raw;
    ScoresPut(v.scheduled, raw, t.scheduled[raw]);
    assert Calls(v.outbound) + [] == Calls(v.outbound);
  }

  lemma HandleHead(u: State, d: nat, env: Env) returns (steps: seq<Step>, t: State)
    requires HasHead(DispatcherOf(u, d)) && DispatcherOf(u, d).head.Fresh?
    requires !OutcomeOf(env, DispatcherOf(u, d).pending[0].raw, u.clock).Fail?
    ensures Reaches(u, steps, t)
    ensures HeadTreated(u, t, d, OutcomeOf(env, DispatcherOf(u, d).pending[0].raw, u.clock))
  {
    var outcome := OutcomeOf(env, DispatcherOf(u, d).pending[0].raw, u.clock);
    var v := Next(u, Examine(d, env));
    assert Reaches(u, [], u);
    ReachesAppend(u, [], u, Examine(d, env));
    steps, t := [] + [Examine(d, env)], v;
    if outcome.Fire? {
      ReachesAppend(u, steps, v, Send(d));
      Fires(v, d);
      steps, t := steps + [Send(d)], Next(v, Send(d));
    } else if outcome.Defer? {
      ReachesAppend(u, steps, v, Reschedule(d));
      Defers(v, d, outcome.contact);
      steps, t := steps + [Reschedule(d)], Next(v, Reschedule(d));
    } else {
      assert Calls(u.outbound) + [] == Calls(u.outbound);
    }
  }

  lemma {:induction false} ReachesTrans(s: State, steps: seq<Step>, t: State, more: seq<Step>, u: State)
    requires Reaches(s, steps, t) && Reaches(t, more, u)
    ensures Reaches(s, steps + more, u)
    decreases |steps|
  {
    if steps == [] {
      assert steps + more == more;
    } else {
      ReachesTrans(Next(s, steps[0]), steps[1..], t, more, u);
      assert (steps + more)[1..] == steps[1..] + more;
    }
  }

  /** One more entry, in the terms of the queue. */
  lemma OneMore(s: State, t: State, u: State, t': State, d: nat, envs: seq<Env>, clock: seq<int>,
                claimed: seq<string>, n: nat)
    requires n < |claimed| <= |envs| == |clock| && Treated(s, t, d, envs, clock, claimed, n)
    requires u == t.(clock := clock[n])
    requires HasHead(DispatcherOf(u, d)) && HeadTreated(u, t', d, OutcomeOf(envs[n], claimed[n], clock[n]))
    ensures Treated(s, t', d, envs, clock, claimed, n + 1)
  {
    var outcome := OutcomeOf(envs[n], claimed[n], clock[n]);
    assert DispatcherOf(u, d) == DispatcherOf(t, d);
    assert DispatcherOf(t, d).pending[0].raw == claimed[n];
    assert Working(t', d, s.clock, claimed, n + 1);
    assert Placed(envs, clock, claimed, n + 1) == Placed(envs, clock, claimed, n) + CallsOf(outcome);
    assert Calls(s.outbound) + Placed(envs, clock, claimed, n) + CallsOf(outcome)
        == Calls(s.outbound) + (Placed(envs, clock, claimed, n) + CallsOf(outcome));
  }

  /** One round of the loop: the clock moves on, the entry is gated, and what follows from it is done. */
  lemma TreatsOne(s: State, steps: seq<Step>, t: State, d: nat, envs: seq<Env>, clock: seq<int>, claimed: seq<string>,
                  n: nat)
    returns (steps': seq<Step>, t': State)
    requires n < |claimed| <= |envs| == |clock| && Onward(s.clock, clock)
    requires Reaches(s, steps, t) && Treated(s, t, d, envs, clock, claimed, n)
    requires !OutcomeOf(envs[n], claimed[n], clock[n]).Fail?
    ensures Reaches(s, steps', t') && Treated(s, t', d, envs, clock, claimed, n + 1)
  {
    var tick := Tick(clock[n] - t.clock);
    var u := Next(t, tick);
    ReachesAppend(s, steps, t, tick);
    assert DispatcherOf(u, d) == DispatcherOf(t, d);
    assert DispatcherOf(t, d).pending[0].raw == claimed[n];
    var more;
    more, t' := HandleHead(u, d, envs[n]);
    ReachesTrans(s, steps + [tick], u, more, t');
    steps' := steps + [tick] + more;
    OneMore(s, t, u, t', d, envs, clock, claimed, n);
  }

  lemma {:induction false} TreatsSome(s: State, d: nat, envs: seq<Env>, clock: seq<int>, claimed: seq<string>, n: nat)
    returns (steps: seq<Step>, t: State)
    requires n <= |claimed| <= |envs| == |clock| && Onward(s.clock, clock)
    requires DispatcherOf(s, d).Idle? && IsClaim(Scores(s.scheduled), s.clock, claimed)
    requires NoneFails(envs, clock, claimed, n)
    ensures Reaches(s, steps, t) && Treated(s, t, d, envs, clock, claimed, n)
  {
    if n == 0 {
      steps, t := TakesAll(s, d, envs, clock, claimed);
    } else {
      steps, t := TreatsSome(s, d, envs, clock, claimed, n - 1);
      steps, t := TreatsOne(s, steps, t, d, envs, clock, claimed, n - 1);
    }
  }

  /** A lookup raises: the dispatcher dies with what it still held. */
  lemma DiesAt(s: State, steps: seq<Step>, t: State, d: nat, envs: seq<Env>, clock: seq<int>, claimed: seq<string>,
               n: nat)
    returns (steps': seq<Step>, t': State)
    requires n < |claimed| <= |envs| == |clock| && Onward(s.clock, clock)
    requires Reaches(s, steps, t) && Treated(s, t, d, envs, clock, claimed, n)
    requires OutcomeOf(envs[n], claimed[n], clock[n]).Fail?
    ensures Reaches(s, steps', t') && DispatcherOf(t', d).Idle?
    ensures t'.outbound == t.outbound && t'.scheduled == t.scheduled
  {
    var tick := Tick(clock[n] - t.clock);
    var u := Next(t, tick);
    ReachesAppend(s, steps, t, tick);
    assert DispatcherOf(u, d) == DispatcherOf(t, d);
    assert DispatcherOf(t, d).pending[0].raw == claimed[n];
    ReachesAppend(s, steps + [tick], u, Examine(d, envs[n]));
    steps', t' := steps + [tick] + [Examine(d, envs[n])], Next(u, Examine(d, envs[n]));
  }

  /** What `FireDue` promises of the queue, for a task that starts at `s.clock` on the queue of `s`:
      the machine has a run to a state with the same set and the same calls, its dispatcher idle. */
  lemma FireDueIsARun(s: State, d: nat, envs: seq<Env>, clock: seq<int>, claimed: seq<string>, done: nat)
    returns (steps: seq<Step>, t: State)
    requires done <= |claimed| <= |envs| == |clock| && Onward(s.clock, clock)
    requires DispatcherOf(s, d).Idle? && IsClaim(Scores(s.scheduled), s.clock, claimed)
    requires NoneFails(envs, clock, claimed, done)
    requires done < |claimed| ==> OutcomeOf(envs[done], claimed[done], clock[done]).Fail?
    ensures Reaches(s, steps, t) && DispatcherOf(t, d).Idle?
    ensures Calls(t.outbound) == Calls(s.outbound) + Placed(envs, clock, claimed, done)
    ensures Scores(t.scheduled) ==
            PutBack(Without(Scores(s.scheduled), claimed), s.clock + DELAY, envs, clock, claimed, done)
  {
    steps, t := TreatsSome(s, d, envs, clock, claimed, done);
    if done < |claimed| {
      steps, t := DiesAt(s, steps, t, d, envs, clock, claimed, done);
    } else {
      ReachesAppend(s, steps, t, Finish(d));
      steps, t := steps + [Finish(d)], Next(t, Finish(d));
    }
  }
}
