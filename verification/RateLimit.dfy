/** The rate limiter of apps/api/app/api/widget.py: three fixed-window counters in Redis, each
    incremented by one atomic Lua script, while any number of requests interleave between scripts. */
module RateLimit {
  import opened Basics

  datatype Scope = Ip(ip: string) | Agent(agent: string) | Org(org: string)

  /** A Redis key: whom it counts, and in which window. */
  datatype Key = Key(scope: Scope, window: int)

  function Cap(s: Scope): nat {
    match s case Ip(_) => 5 case Agent(_) => 60 case Org(_) => 30
  }

  /** Window length in seconds: minutes for IP addresses and organisations, hours for agents. */
  function Length(s: Scope): real {
    if s.Agent? then 3600.0 else 60.0
  }

  function Ttl(s: Scope): real {
    if s.Agent? then 3700.0 else 90.0
  }

  /** int(t // length) */
  function WindowOf(s: Scope, t: real): int {
    if s.Agent? then (t / 3600.0).Floor else (t / 60.0).Floor
  }

  lemma WindowBounds(s: Scope, t: real)
    ensures WindowOf(s, t) as real * Length(s) <= t < (WindowOf(s, t) + 1) as real * Length(s)
  {
  }

  // ---------------------------------------------------------------------------------------------
  // The script
  // ---------------------------------------------------------------------------------------------

  datatype Counter = Counter(n: nat, expires: real)

  type Store = map<Key, Counter>

  /** The value INCR returns: an expired key is gone. */
  function Incremented(store: Store, key: Key, now: real): nat {
    if key in store && now < store[key].expires then store[key].n + 1 else 1
  }

  function AfterScript(store: Store, key: Key, ttl: real, now: real): Store {
    var n := Incremented(store, key, now);
    store[key := Counter(n, if n == 1 then now + ttl else store[key].expires)]
  }

  // ---------------------------------------------------------------------------------------------
  // Requests, step by step
  // ---------------------------------------------------------------------------------------------

  /** `Checking(i)`: limits 0 to i - 1 have been passed. `at`: when the last script let it in. */
  datatype Phase = Arrived | Resolving | NotFound | Checking(i: nat) | Accepted(at: real) | Rejected(i: nat)

  datatype Request = Request(ip: string, agent: string, org: string, minuteAt: real, hourAt: real, phase: Phase)

  function KeyOf(r: Request, i: nat): Key {
    if i == 0 then Key(Ip(r.ip), WindowOf(Ip(r.ip), r.minuteAt))
    else if i == 1 then Key(Agent(r.agent), WindowOf(Agent(r.agent), r.hourAt))
    else Key(Org(r.org), WindowOf(Org(r.org), r.minuteAt))
  }

  /** `evals` and `passed` are history: how often the script ran on a key, and which requests it let
      through. */
  datatype State = State(
    now: real,
    store: Store,
    reqs: map<nat, Request>,
    evals: map<Key, nat>,
    passed: map<Key, set<nat>>)

  datatype Step =
    | Tick(dt: real)
    | Arrive(id: nat, ip: string, agent: string)     // now_min is computed
    | ReadHour(id: nat)                              // now_hour is computed
    | Resolve(id: nat, found: bool, org: string)     // the agent row is fetched
    | Check(id: nat)                                 // one script

  const INITIAL := State(0.0, map[], map[], map[], map[])

  function Evals(s: State, k: Key): nat { if k in s.evals then s.evals[k] else 0 }

  function Passed(s: State, k: Key): set<nat> { if k in s.passed then s.passed[k] else {} }

  /** `latency` bounds the time between computing the keys of a request and its last script. */
  predicate Enabled(s: State, step: Step, latency: real) {
    match step
    case Tick(dt) => dt >= 0.0
    case Arrive(id, _, _) => id !in s.reqs
    case ReadHour(id) => id in s.reqs && s.reqs[id].phase.Arrived?
    case Resolve(id, _, _) => id in s.reqs && s.reqs[id].phase.Resolving?
    case Check(id) => id in s.reqs && s.reqs[id].phase.Checking? && s.reqs[id].phase.i < 3 &&
                      s.now - s.reqs[id].minuteAt <= latency
  }

  function SetPhase(s: State, id: nat, p: Phase): map<nat, Request>
    requires id in s.reqs
  {
    s.reqs[id := s.reqs[id].(phase := p)]
  }

  function Next(s: State, step: Step, latency: real): State
    requires Enabled(s, step, latency)
  {
    match step
    case Tick(dt) => s.(now := s.now + dt)
    case Arrive(id, ip, agent) => s.(reqs := s.reqs[id := Request(ip, agent, "", s.now, s.now, Arrived)])
    case ReadHour(id) => s.(reqs := s.reqs[id := s.reqs[id].(hourAt := s.now, phase := Resolving)])
    case Resolve(id, found, org) =>
      if found then s.(reqs := s.reqs[id := s.reqs[id].(org := org, phase := Checking(0))])
      else s.(reqs := SetPhase(s, id, NotFound))
    case Check(id) =>
      var i := s.reqs[id].phase.i;
      var k := KeyOf(s.reqs[id], i);
      var breached := Incremented(s.store, k, s.now) > Cap(k.scope);
      State(s.now, AfterScript(s.store, k, Ttl(k.scope), s.now),
            SetPhase(s, id, if breached then Rejected(i) else if i == 2 then Accepted(s.now) else Checking(i + 1)),
            s.evals[k := Evals(s, k) + 1],
            if breached then s.passed else s.passed[k := Passed(s, k) + {id}])
  }

  ghost predicate Reaches(s: State, steps: seq<Step>, t: State, latency: real)
    decreases |steps|
  {
    if steps == [] then s == t
    else Enabled(s, steps[0], latency) && Reaches(Next(s, steps[0], latency), steps[1..], t, latency)
  }

  // ---------------------------------------------------------------------------------------------
  // No key expires while its window can still be incremented
  // ---------------------------------------------------------------------------------------------

  function WindowEnd(k: Key): real {
    (k.window + 1) as real * Length(k.scope)
  }

  function Min(a: nat, b: nat): nat {
    if a <= b then a else b
  }

  /** The limits a request has passed: those before `Progress`. */
  function Progress(r: Request): nat {
    match r.phase
    case Checking(i) => i
    case Rejected(i) => i
    case Accepted(_) => 3
    case _ => 0
  }

  ghost predicate PassedLimit(r: Request, k: Key) {
    exists j: nat :: j < Progress(r) && j < 3 && k == KeyOf(r, j)
  }

  /** Only requests that came past a limit are recorded there. */
  ghost predicate RecordInv(s: State, k: Key) {
    forall id :: id in Passed(s, k) ==> id in s.reqs && PassedLimit(s.reqs[id], k)
  }

  ghost predicate KeyInv(s: State, k: Key) {
    && |Passed(s, k)| == Min(Evals(s, k), Cap(k.scope))
    && (k in s.store <==> Evals(s, k) > 0)
    && (k in s.store ==> s.store[k].n == Evals(s, k) && s.store[k].expires >= WindowEnd(k) + 30.0)
  }

  /** What a request has passed so far. */
  ghost predicate RequestInv(s: State, id: nat, r: Request) {
    && r.minuteAt <= r.hourAt <= s.now
    && (r.phase.Checking? ==> r.phase.i < 3 && forall j :: 0 <= j < r.phase.i ==> id in Passed(s, KeyOf(r, j)))
    && (r.phase.Accepted? ==> forall j :: 0 <= j < 3 ==> id in Passed(s, KeyOf(r, j)))
  }

  ghost predicate Inv(s: State) {
    && (forall k :: KeyInv(s, k) && RecordInv(s, k))
    && (forall id :: id in s.reqs ==> RequestInv(s, id, s.reqs[id]))
  }

  /** The arithmetic of windows, time-to-live and latency. */
  lemma WithinLifetime(s: State, r: Request, i: nat)
    requires i < 3 && r.minuteAt <= r.hourAt <= s.now && s.now - r.minuteAt <= 30.0
    ensures var k := KeyOf(r, i);
            && s.now < WindowEnd(k) + 30.0
            && WindowEnd(k) + 30.0 <= s.now + Ttl(k.scope)
  {
    WindowBounds(Ip(r.ip), r.minuteAt);
    WindowBounds(Agent(r.agent), r.hourAt);
    WindowBounds(Org(r.org), r.minuteAt);
  }

  /** A request has not been recorded yet under the key that it is about to check. */
  lemma NotYetPassed(s: State, id: nat, latency: real)
    requires Inv(s) && Enabled(s, Check(id), latency)
    ensures id !in Passed(s, KeyOf(s.reqs[id], s.reqs[id].phase.i))
  {
    assert RecordInv(s, KeyOf(s.reqs[id], s.reqs[id].phase.i));
  }

  lemma CheckKeepsKeys(s: State, id: nat, latency: real)
    requires Inv(s) && latency <= 30.0 && Enabled(s, Check(id), latency)
    ensures forall k :: KeyInv(Next(s, Check(id), latency), k)
  {
    var t := Next(s, Check(id), latency);
    var r := s.reqs[id];
    assert RequestInv(s, id, r);
    WithinLifetime(s, r, r.phase.i);
    NotYetPassed(s, id, latency);
    var k0 := KeyOf(r, r.phase.i);
    forall k ensures KeyInv(t, k) {
      assert KeyInv(s, k);
      if k == k0 {
        assert Incremented(s.store, k, s.now) == Evals(s, k) + 1;
      } else {
        assert Passed(t, k) == Passed(s, k) && Evals(t, k) == Evals(s, k);
      }
    }
  }

  /** Keys do not depend on the phase, so a request that gets further keeps what it has passed. */
  lemma PassedLimitGrows(r: Request, p: Phase, k: Key)
    requires PassedLimit(r, k) && Progress(r) <= Progress(r.(phase := p))
    ensures PassedLimit(r.(phase := p), k)
  {
    var j: nat :| j < Progress(r) && j < 3 && k == KeyOf(r, j);
    assert k == KeyOf(r.(phase := p), j);
  }

  lemma CheckKeepsRecords(s: State, id: nat, latency: real, k: Key)
    requires RecordInv(s, k) && Enabled(s, Check(id), latency)
    ensures RecordInv(Next(s, Check(id), latency), k)
  {
    var t := Next(s, Check(id), latency);
    var r := s.reqs[id];
    var i, p := r.phase.i, t.reqs[id].phase;
    var r' := r.(phase := p);
    assert t.reqs[id] == r' && Progress(r) <= Progress(r');
    if id in Passed(s, k) {
      PassedLimitGrows(r, p, k);
    } else if id in Passed(t, k) {
      assert i < Progress(r') && k == KeyOf(r', i);
    }
  }

  lemma OtherStepKeepsKey(s: State, step: Step, latency: real, k: Key)
    requires Inv(s) && Enabled(s, step, latency) && !step.Check?
    ensures KeyInv(Next(s, step, latency), k) && RecordInv(Next(s, step, latency), k)
  {
    assert KeyInv(s, k) && RecordInv(s, k);
  }

  lemma StepKeepsRequests(s: State, step: Step, latency: real)
    requires Inv(s) && Enabled(s, step, latency)
    ensures var t := Next(s, step, latency); forall id :: id in t.reqs ==> RequestInv(t, id, t.reqs[id])
  {
    var t := Next(s, step, latency);
    forall id | id in t.reqs ensures RequestInv(t, id, t.reqs[id]) {
      if id in s.reqs {
        assert RequestInv(s, id, s.reqs[id]);
        assert forall k :: Passed(s, k) <= Passed(t, k);
        forall j: nat | step.Check? && id == step.id && j < 3 ensures KeyOf(t.reqs[id], j) == KeyOf(s.reqs[id], j) {
        }
      }
    }
  }

  lemma StepPreservesInv(s: State, step: Step, latency: real)
    requires Inv(s) && latency <= 30.0 && Enabled(s, step, latency)
    ensures Inv(Next(s, step, latency))
  {
    var t := Next(s, step, latency);
    StepKeepsRequests(s, step, latency);
    if step.Check? {
      CheckKeepsKeys(s, step.id, latency);
    }
    forall k ensures KeyInv(t, k) && RecordInv(t, k) {
      if step.Check? {
        assert RecordInv(s, k);
        CheckKeepsRecords(s, step.id, latency, k);
      } else {
        OtherStepKeepsKey(s, step, latency, k);
      }
    }
  }

  lemma {:induction false} RunPreservesInv(s: State, steps: seq<Step>, t: State, latency: real)
    requires Inv(s) && latency <= 30.0 && Reaches(s, steps, t, latency)
    ensures Inv(t)
    decreases |steps|
  {
    if steps != [] {
      StepPreservesInv(s, steps[0], latency);
      RunPreservesInv(Next(s, steps[0], latency), steps[1..], t, latency);
    }
  }

  lemma InitialInv()
    ensures Inv(INITIAL)
  {
  }

  /** The requests that were accepted and counted under `k`. */
  ghost function AcceptedUnder(s: State, k: Key): set<nat> {
    set id | id in s.reqs && s.reqs[id].phase.Accepted? &&
             (k == KeyOf(s.reqs[id], 0) || k == KeyOf(s.reqs[id], 1) || k == KeyOf(s.reqs[id], 2))
  }

  lemma AcceptedHavePassed(s: State, k: Key)
    requires Inv(s)
    ensures AcceptedUnder(s, k) <= Passed(s, k)
  {
    forall id | id in AcceptedUnder(s, k) ensures id in Passed(s, k) {
      assert RequestInv(s, id, s.reqs[id]);
    }
  }

  /** In every run in which each request's scripts come at most 30 seconds after its keys were
      computed, no key lets more than its cap through. */
  lemma CapHolds(steps: seq<Step>, t: State, latency: real, k: Key)
    requires latency <= 30.0 && Reaches(INITIAL, steps, t, latency)
    ensures |AcceptedUnder(t, k)| <= Cap(k.scope)
  {
    InitialInv();
    RunPreservesInv(INITIAL, steps, t, latency);
    assert KeyInv(t, k);
    AcceptedHavePassed(t, k);
    SubsetSize(AcceptedUnder(t, k), Passed(t, k));
  }

  /** Nobody is turned away early: when a script rejects, as many requests as the cap allows have
      come past that limit in that window. */
  lemma RejectedOnlyWhenFull(steps: seq<Step>, s: State, latency: real, id: nat)
    requires latency <= 30.0 && Reaches(INITIAL, steps, s, latency) && Enabled(s, Check(id), latency)
    ensures Next(s, Check(id), latency).reqs[id].phase.Rejected? <==>
            var k := KeyOf(s.reqs[id], s.reqs[id].phase.i); |Passed(s, k)| == Cap(k.scope)
  {
    InitialInv();
    RunPreservesInv(INITIAL, steps, s, latency);
    var r := s.reqs[id];
    assert RequestInv(s, id, r);
    assert KeyInv(s, KeyOf(r, r.phase.i));
    WithinLifetime(s, r, r.phase.i);
  }

  /** Only requests whose agent was found have passed a limit. */
  ghost predicate FoundFirst(s: State) {
    forall k, id :: id in Passed(s, k) ==> id in s.reqs && FoundAgent(s.reqs[id])
  }

  predicate FoundAgent(r: Request) {
    r.phase.Checking? || r.phase.Accepted? || r.phase.Rejected?
  }

  lemma StepKeepsFoundFirst(s: State, step: Step, latency: real)
    requires FoundFirst(s) && Enabled(s, step, latency)
    ensures FoundFirst(Next(s, step, latency))
  {
    var t := Next(s, step, latency);
    forall k, id | id in Passed(t, k) ensures id in t.reqs && FoundAgent(t.reqs[id]) {
      assert id in Passed(s, k) ==> id in s.reqs && FoundAgent(s.reqs[id]);
    }
  }

  ghost predicate TurnedDown(s: State, id: nat) {
    id in s.reqs && s.reqs[id].phase.NotFound?
  }

  lemma {:induction false} RunKeepsTurnedDown(s: State, steps: seq<Step>, t: State, latency: real, id: nat)
    requires FoundFirst(s) && Reaches(s, steps, t, latency)
    ensures FoundFirst(t) && (TurnedDown(s, id) ==> TurnedDown(t, id))
    decreases |steps|
  {
    if steps != [] {
      StepKeepsFoundFirst(s, steps[0], latency);
      RunKeepsTurnedDown(Next(s, steps[0], latency), steps[1..], t, latency, id);
    }
  }

  /** A request for an agent that is not found is never counted under any key, however the run goes on. */
  lemma UnknownAgentIsNotCounted(steps: seq<Step>, s: State, id: nat, org: string, more: seq<Step>, t: State,
                                 latency: real, k: Key)
    requires Reaches(INITIAL, steps, s, latency) && Enabled(s, Resolve(id, false, org), latency)
    requires Reaches(Next(s, Resolve(id, false, org), latency), more, t, latency)
    ensures id !in Passed(t, k) && id !in AcceptedUnder(t, k)
  {
    RunKeepsTurnedDown(INITIAL, steps, s, latency, id);
    StepKeepsFoundFirst(s, Resolve(id, false, org), latency);
    RunKeepsTurnedDown(Next(s, Resolve(id, false, org), latency), more, t, latency, id);
  }

  ghost predicate Live(s: State, k: Key) {
    k in s.store && s.now < s.store[k].expires
  }

  ghost predicate Counted(s: State) {
    forall k :: k in s.store ==> s.store[k].n >= 1
  }

  lemma {:induction false} RunCounts(s: State, steps: seq<Step>, t: State, latency: real)
    requires Counted(s) && Reaches(s, steps, t, latency)
    ensures Counted(t)
    decreases |steps|
  {
    if steps != [] {
      RunCounts(Next(s, steps[0], latency), steps[1..], t, latency);
    }
  }

  /** In every run, however late its scripts: the expiry of a counter is set by the script that starts
      it, and no later script moves it while the counter lives. */
  lemma ExpiryIsSetOnce(steps: seq<Step>, s: State, step: Step, latency: real, k: Key)
    requires Reaches(INITIAL, steps, s, latency) && Enabled(s, step, latency)
    ensures var t := Next(s, step, latency);
            && (Live(s, k) ==>
                  && k in t.store && t.store[k].expires == s.store[k].expires
                  && t.store[k].n == s.store[k].n + (if Evals(t, k) > Evals(s, k) then 1 else 0))
            && (!Live(s, k) && Evals(t, k) > Evals(s, k) ==>
                  k in t.store && t.store[k] == Counter(1, s.now + if k.scope.Agent? then 3700.0 else 90.0))
            && (Evals(t, k) == Evals(s, k) ==>
                  (k in t.store <==> k in s.store) && (k in s.store ==> t.store[k] == s.store[k]))
  {
    RunCounts(INITIAL, steps, s, latency);
  }

  // ---------------------------------------------------------------------------------------------
  // Thirty seconds is the exact bound
  // ---------------------------------------------------------------------------------------------

  ghost predicate CapsHold(latency: real) {
    forall steps, t, k :: Reaches(INITIAL, steps, t, latency) ==> |AcceptedUnder(t, k)| <= Cap(k.scope)
  }

  lemma {:induction false} ReachesConcat(s: State, a: seq<Step>, t: State, b: seq<Step>, u: State, latency: real)
    requires Reaches(s, a, t, latency) && Reaches(t, b, u, latency)
    ensures Reaches(s, a + b, u, latency)
    decreases |a|
  {
    if a == [] {
      assert a + b == b;
    } else {
      ReachesConcat(Next(s, a[0], latency), a[1..], t, b, u, latency);
      assert (a + b)[1..] == a[1..] + b;
    }
  }

  lemma One(s: State, step: Step, latency: real)
    requires Enabled(s, step, latency)
    ensures Reaches(s, [step], Next(s, step, latency), latency)
  {
    assert Reaches(Next(s, step, latency), [], Next(s, step, latency), latency);
  }

  const CALLER := "caller"

  /** `n` requests from one caller have been accepted, all at time 0. */
  ghost predicate Burst(s: State, n: nat) {
    && s.now == 0.0
    && (forall id: nat :: id in s.reqs <==> id < n)
    && (forall id: nat :: id < n ==> s.reqs[id] == Request(CALLER, CALLER, CALLER, 0.0, 0.0, Accepted(0.0)))
    && (n == 0 ==> s.store == map[])
    && (n > 0 ==> s.store == map[Key(Ip(CALLER), 0) := Counter(n, 90.0), Key(Agent(CALLER), 0) := Counter(n, 3700.0),
                                 Key(Org(CALLER), 0) := Counter(n, 90.0)])
  }

  /** What the three scripts of a request make of the counters, run at one instant. */
  function ThreeScripts(store: Store, r: Request, now: real): Store {
    var k0, k1, k2 := KeyOf(r, 0), KeyOf(r, 1), KeyOf(r, 2);
    AfterScript(AfterScript(AfterScript(store, k0, 90.0, now), k1, 3700.0, now), k2, 90.0, now)
  }

  /** The three scripts of a request, run at one instant, when none of its counters is full. */
  lemma ThreeChecks(s: State, id: nat, latency: real) returns (steps: seq<Step>, t: State)
    requires id in s.reqs && s.reqs[id].phase == Checking(0) && s.now - s.reqs[id].minuteAt <= latency
    requires forall i :: 0 <= i < 3 ==> var k := KeyOf(s.reqs[id], i); Incremented(s.store, k, s.now) <= Cap(k.scope)
    ensures Reaches(s, steps, t, latency)
    ensures t.now == s.now && t.reqs == s.reqs[id := s.reqs[id].(phase := Accepted(s.now))]
    ensures t.store == ThreeScripts(s.store, s.reqs[id], s.now)
  {
    var s1 := Next(s, Check(id), latency);
    var k1 := KeyOf(s.reqs[id], 1);
    assert KeyOf(s1.reqs[id], 1) == k1 && Incremented(s1.store, k1, s.now) == Incremented(s.store, k1, s.now);
    var s2 := Next(s1, Check(id), latency);
    var k2 := KeyOf(s.reqs[id], 2);
    assert KeyOf(s2.reqs[id], 2) == k2 && Incremented(s2.store, k2, s.now) == Incremented(s.store, k2, s.now);
    t := Next(s2, Check(id), latency);
    One(s, Check(id), latency);
    One(s1, Check(id), latency);
    One(s2, Check(id), latency);
    ReachesConcat(s, [Check(id)], s1, [Check(id)], s2, latency);
    ReachesConcat(s, [Check(id)] + [Check(id)], s2, [Check(id)], t, latency);
    steps := [Check(id)] + [Check(id)] + [Check(id)];
  }

  /** A request arrives and its agent is found, all at one instant. */
  lemma Prepare(s: State, id: nat, latency: real) returns (steps: seq<Step>, t: State)
    requires id !in s.reqs
    ensures Reaches(s, steps, t, latency)
    ensures t == s.(reqs := s.reqs[id := Request(CALLER, CALLER, CALLER, s.now, s.now, Checking(0))])
  {
    var s1 := Next(s, Arrive(id, CALLER, CALLER), latency);
    var s2 := Next(s1, ReadHour(id), latency);
    t := Next(s2, Resolve(id, true, CALLER), latency);
    One(s, Arrive(id, CALLER, CALLER), latency);
    One(s1, ReadHour(id), latency);
    One(s2, Resolve(id, true, CALLER), latency);
    ReachesConcat(s, [Arrive(id, CALLER, CALLER)], s1, [ReadHour(id)], s2, latency);
    ReachesConcat(s, [Arrive(id, CALLER, CALLER)] + [ReadHour(id)], s2, [Resolve(id, true, CALLER)], t, latency);
    steps := [Arrive(id, CALLER, CALLER)] + [ReadHour(id)] + [Resolve(id, true, CALLER)];
  }

  function Prepared(s: State, id: nat): State {
    s.(reqs := s.reqs[id := Request(CALLER, CALLER, CALLER, s.now, s.now, Checking(0))])
  }

  lemma CountedBurst(s: State, n: nat)
    requires Burst(s, n)
    ensures var r := Prepared(s, n).reqs[n];
            && ThreeScripts(s.store, r, 0.0) ==
               map[Key(Ip(CALLER), 0) := Counter(n + 1, 90.0), Key(Agent(CALLER), 0) := Counter(n + 1, 3700.0),
                   Key(Org(CALLER), 0) := Counter(n + 1, 90.0)]
            && forall i :: 0 <= i < 3 ==> Incremented(s.store, KeyOf(r, i), 0.0) == n + 1
  {
  }

  lemma OneMoreAccepted(s: State, n: nat, latency: real) returns (steps: seq<Step>, t: State)
    requires n < 5 && latency > 0.0 && Burst(s, n)
    ensures Reaches(s, steps, t, latency) && Burst(t, n + 1)
  {
    CountedBurst(s, n);
    var prep, s1 := Prepare(s, n, latency);
    assert s1 == Prepared(s, n);
    var checks, s2 := ThreeChecks(s1, n, latency);
    ReachesConcat(s, prep, s1, checks, s2, latency);
    steps, t := prep + checks, s2;
  }

  lemma {:induction false} BurstOf(n: nat, latency: real) returns (steps: seq<Step>, t: State)
    requires n <= 5 && latency > 0.0
    ensures Reaches(INITIAL, steps, t, latency) && Burst(t, n)
  {
    if n == 0 {
      steps, t := [], INITIAL;
    } else {
      var before, s := BurstOf(n - 1, latency);
      var more, s' := OneMoreAccepted(s, n - 1, latency);
      ReachesConcat(INITIAL, before, s, more, s', latency);
      steps, t := before + more, s';
    }
  }

  /** The state in which the late scripts run: the sixth request was counted for minute 0, but its
      minute counters, set up at time 0, expire at 90. */
  ghost function LateState(s: State, slack: real): State {
    Prepared(s.(now := 60.0 - slack), 5).(now := 90.0)
  }

  lemma LateCounters(s: State, slack: real)
    requires Burst(s, 5) && 0.0 < slack <= 1.0
    ensures var s3 := LateState(s, slack); var r := s3.reqs[5];
            && KeyOf(r, 0) == Key(Ip(CALLER), 0)
            && forall i :: 0 <= i < 3 ==> var k := KeyOf(r, i); Incremented(s3.store, k, 90.0) <= Cap(k.scope)
  {
  }

  lemma SixAccepted(s: State, slack: real, t: State)
    requires Burst(s, 5) && 0.0 < slack <= 1.0
    requires var s3 := LateState(s, slack); t.reqs == s3.reqs[5 := s3.reqs[5].(phase := Accepted(90.0))]
    ensures |AcceptedUnder(t, Key(Ip(CALLER), 0))| > Cap(Ip(CALLER))
  {
    LateCounters(s, slack);
    var six: set<nat> := {0, 1, 2, 3, 4, 5};
    forall id | id in six ensures id in AcceptedUnder(t, Key(Ip(CALLER), 0)) {
      assert id == 5 || t.reqs[id] == s.reqs[id];
    }
    SubsetSize(six, AcceptedUnder(t, Key(Ip(CALLER), 0)));
  }

  lemma LateRun(s: State, slack: real, latency: real) returns (steps: seq<Step>)
    requires Burst(s, 5) && 0.0 < slack <= 1.0
    ensures Reaches(s, steps, LateState(s, slack), latency)
  {
    var s1 := Next(s, Tick(60.0 - slack), latency);
    One(s, Tick(60.0 - slack), latency);
    var prep, s2 := Prepare(s1, 5, latency);
    ReachesConcat(s, [Tick(60.0 - slack)], s1, prep, s2, latency);
    assert Next(s2, Tick(30.0 + slack), latency) == LateState(s, slack);
    One(s2, Tick(30.0 + slack), latency);
    ReachesConcat(s, [Tick(60.0 - slack)] + prep, s2, [Tick(30.0 + slack)], LateState(s, slack), latency);
    steps := [Tick(60.0 - slack)] + prep + [Tick(30.0 + slack)];
  }

  /** A script that comes more than 30 seconds late can find the counter of its window expired: five
      requests at the start of a minute, one more at its end whose scripts run 90 seconds after the
      first. */
  lemma LateScriptBreaksCap(latency: real) returns (steps: seq<Step>, t: State)
    requires latency > 30.0
    ensures Reaches(INITIAL, steps, t, latency)
    ensures |AcceptedUnder(t, Key(Ip(CALLER), 0))| > Cap(Ip(CALLER))
  {
    var slack := if latency - 30.0 < 2.0 then (latency - 30.0) / 2.0 else 1.0;
    var burst, s := BurstOf(5, latency);
    var wait := LateRun(s, slack, latency);
    LateCounters(s, slack);
    var checks, t' := ThreeChecks(LateState(s, slack), 5, latency);
    ReachesConcat(INITIAL, burst, s, wait, LateState(s, slack), latency);
    ReachesConcat(INITIAL, burst + wait, LateState(s, slack), checks, t', latency);
    SixAccepted(s, slack, t');
    steps, t := burst + wait + checks, t';
  }

  /** The caps hold in every run exactly if scripts are never more than 30 seconds late. */
  lemma LatencyBoundIsExact(latency: real)
    ensures CapsHold(latency) <==> latency <= 30.0
  {
    if latency <= 30.0 {
      forall steps, t, k | Reaches(INITIAL, steps, t, latency) ensures |AcceptedUnder(t, k)| <= Cap(k.scope) {
        CapHolds(steps, t, latency, k);
      }
    } else {
      var steps, t := LateScriptBreaksCap(latency);
    }
  }

  // ---------------------------------------------------------------------------------------------
  // The script and the loop over the limits
  // ---------------------------------------------------------------------------------------------

  class Redis {
    var store: Store

    /** The Lua script, at Redis time `now`. */
    method RunScript(key: Key, cap: nat, ttl: real, now: real) returns (breached: bool)
      modifies this
      ensures store == AfterScript(old(store), key, ttl, now)
      ensures breached <==> Incremented(old(store), key, now) > cap
    {
      var live := key in store && now < store[key].expires;
      var n := if live then store[key].n + 1 else 1;
      var expires := if key in store then store[key].expires else now;
      if n == 1 {
        expires := now + ttl;
      }
      store := store[key := Counter(n, expires)];
      breached := n > cap;
    }
  }

  /** Time passes until `at`, and the request's next script runs. */
  lemma OneLimit(s: State, steps: seq<Step>, t: State, r: Request, id: nat, i: nat, at: real, latency: real)
    returns (steps': seq<Step>, t': State)
    requires Reaches(s, steps, t, latency) && i < 3 && t.now <= at && at - r.minuteAt <= latency
    requires id in t.reqs && t.reqs[id] == r.(phase := Checking(i))
    ensures Reaches(s, steps', t', latency) && t'.now == at && id in t'.reqs
    ensures var k := KeyOf(r, i);
            && t'.store == AfterScript(t.store, k, Ttl(k.scope), at)
            && t'.reqs[id] == r.(phase := if Incremented(t.store, k, at) > Cap(k.scope) then Rejected(i)
                                          else if i == 2 then Accepted(at) else Checking(i + 1))
  {
    var tick := Tick(at - t.now);
    var u := Next(t, tick, latency);
    One(t, tick, latency);
    ReachesConcat(s, steps, t, [tick], u, latency);
    One(u, Check(id), latency);
    t' := Next(u, Check(id), latency);
    ReachesConcat(s, steps + [tick], u, [Check(id)], t', latency);
    assert KeyOf(u.reqs[id], i) == KeyOf(r, i);
    steps' := steps + [tick] + [Check(id)];
  }

  /** The loop of `connect`: one script per limit, at the times `clock`, leaving at the first breach.
      It is a run of the machine, so everything above applies to it. */
  method CheckLimits(redis: Redis, r: Request, clock: seq<real>, ghost s: State, ghost id: nat, ghost latency: real)
    returns (accepted: bool, ghost steps: seq<Step>, ghost t: State)
    requires |clock| == 3 && s.now <= clock[0] <= clock[1] <= clock[2] && clock[2] - r.minuteAt <= latency
    requires id in s.reqs && s.reqs[id] == r && r.phase == Checking(0) && s.store == redis.store
    modifies redis
    ensures Reaches(s, steps, t, latency) && t.store == redis.store
    ensures id in t.reqs && (if accepted then t.reqs[id].phase == Accepted(clock[2]) else t.reqs[id].phase.Rejected?)
  {
    steps, t := [], s;
    var i := 0;
    while i < 3
      invariant 0 <= i <= 3
      invariant Reaches(s, steps, t, latency) && t.store == redis.store
      invariant i < 3 ==> t.now <= clock[i]
      invariant id in t.reqs && t.reqs[id] == r.(phase := if i == 3 then Accepted(clock[2]) else Checking(i))
    {
      var key := KeyOf(r, i);
      var breached := redis.RunScript(key, Cap(key.scope), Ttl(key.scope), clock[i]);
      steps, t := OneLimit(s, steps, t, r, id, i, clock[i], latency);
      if breached {
        return false, steps, t;
      }
      i := i + 1;
    }
    accepted := true;
  }
}
