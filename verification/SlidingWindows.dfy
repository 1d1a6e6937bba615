/** How many connects the limits of apps/api/app/api/widget.py let in during any interval as long as a
    window, wherever it begins. */
module SlidingWindows {
  import opened Basics
  import opened RateLimit
  import opened Crowds

  /** When the key of request `r` was computed for the scope. */
  function KeyedAt(s: Scope, r: Request): real {
    if s.Agent? then r.hourAt else r.minuteAt
  }

  /** The requests accepted for the scope whose keys were computed in [from, to). */
  ghost function KeyedBetween(s: State, scope: Scope, from: real, to: real): set<nat> {
    set id | id in s.reqs && s.reqs[id].phase.Accepted? && Counts(scope, s.reqs[id]) &&
             from <= KeyedAt(scope, s.reqs[id]) < to
  }

  /** The requests let in for the scope in [from, to). */
  ghost function AcceptedBetween(s: State, scope: Scope, from: real, to: real): set<nat> {
    set id | id in s.reqs && s.reqs[id].phase.Accepted? && Counts(scope, s.reqs[id]) &&
             from <= s.reqs[id].phase.at < to
  }

  /** The requests let in during the window of the scope's length that begins at `from`. */
  ghost function AcceptedInWindow(s: State, scope: Scope, from: real): set<nat> {
    AcceptedBetween(s, scope, from, from + Length(scope))
  }

  /** Wherever a window of the same length is placed, at most twice the cap is accepted of the
      requests whose keys were computed in it. */
  lemma AtMostTwiceByKey(steps: seq<Step>, t: State, latency: real, scope: Scope, from: real)
    requires latency <= 30.0 && Reaches(INITIAL, steps, t, latency)
    ensures |KeyedBetween(t, scope, from, from + Length(scope))| <= 2 * Cap(scope)
  {
    var k0 := Key(scope, WindowOf(scope, from));
    var k1 := Key(scope, k0.window + 1);
    CapHolds(steps, t, latency, k0);
    CapHolds(steps, t, latency, k1);
    var a := KeyedBetween(t, scope, from, from + Length(scope));
    forall id | id in a ensures id in AcceptedUnder(t, k0) + AcceptedUnder(t, k1) {
      NextWindow(scope, from, KeyedAt(scope, t.reqs[id]));
    }
    SubsetSize(a, AcceptedUnder(t, k0) + AcceptedUnder(t, k1));
    UnionSize(AcceptedUnder(t, k0), AcceptedUnder(t, k1));
  }

  lemma NextWindow(scope: Scope, from: real, x: real)
    requires from <= x < from + Length(scope)
    ensures WindowOf(scope, from) <= WindowOf(scope, x) <= WindowOf(scope, from) + 1
  {
  }

  lemma WindowBefore(scope: Scope, from: real, x: real)
    requires from - 30.0 <= x < from
    ensures WindowOf(scope, from) - 1 <= WindowOf(scope, x) <= WindowOf(scope, from)
  {
  }

  /** A request is let in after its keys were computed, and in time. */
  ghost predicate LetInInTime(now: real, r: Request, latency: real) {
    && r.minuteAt <= r.hourAt <= now
    && (r.phase.Accepted? ==> r.hourAt <= r.phase.at <= r.minuteAt + latency)
  }

  ghost predicate InTime(s: State, latency: real) {
    forall id :: id in s.reqs ==> LetInInTime(s.now, s.reqs[id], latency)
  }

  lemma StepInTime(s: State, step: Step, latency: real)
    requires InTime(s, latency) && Enabled(s, step, latency)
    ensures InTime(Next(s, step, latency), latency)
  {
    var t := Next(s, step, latency);
    forall id | id in t.reqs ensures LetInInTime(t.now, t.reqs[id], latency) {
      assert id in s.reqs ==> LetInInTime(s.now, s.reqs[id], latency);
    }
  }

  lemma {:induction false} RunInTime(s: State, steps: seq<Step>, t: State, latency: real)
    requires InTime(s, latency) && Reaches(s, steps, t, latency)
    ensures InTime(t, latency)
    decreases |steps|
  {
    if steps != [] {
      StepInTime(s, steps[0], latency);
      RunInTime(Next(s, steps[0], latency), steps[1..], t, latency);
    }
  }

  lemma CountedUnder(t: State, scope: Scope, id: nat)
    requires id in t.reqs && t.reqs[id].phase.Accepted? && Counts(scope, t.reqs[id])
    ensures id in AcceptedUnder(t, Key(scope, WindowOf(scope, KeyedAt(scope, t.reqs[id]))))
  {
  }

  ghost function KeyedAround(t: State, scope: Scope, w: int): set<nat> {
    AcceptedUnder(t, Key(scope, w - 1)) + AcceptedUnder(t, Key(scope, w)) + AcceptedUnder(t, Key(scope, w + 1))
  }

  /** A request let in while the window of `from` lasts has a key of this window, the next or the one
      before. */
  lemma KeyedNearby(t: State, latency: real, scope: Scope, from: real, id: nat)
    requires InTime(t, latency) && latency <= 30.0 && id in AcceptedInWindow(t, scope, from)
    ensures id in KeyedAround(t, scope, WindowOf(scope, from))
    ensures var w, at := WindowOf(scope, from), WindowOf(scope, KeyedAt(scope, t.reqs[id]));
            w - 1 <= at <= w + 1 && id in AcceptedUnder(t, Key(scope, at))
  {
    var r := t.reqs[id];
    assert LetInInTime(t.now, r, latency);
    CountedUnder(t, scope, id);
    if KeyedAt(scope, r) < from {
      WindowBefore(scope, from, KeyedAt(scope, r));
    } else {
      NextWindow(scope, from, KeyedAt(scope, r));
    }
  }

  lemma AroundSize(steps: seq<Step>, t: State, latency: real, scope: Scope, w: int)
    requires latency <= 30.0 && Reaches(INITIAL, steps, t, latency)
    ensures |KeyedAround(t, scope, w)| <= 3 * Cap(scope)
  {
    CapHolds(steps, t, latency, Key(scope, w - 1));
    CapHolds(steps, t, latency, Key(scope, w));
    CapHolds(steps, t, latency, Key(scope, w + 1));
    ThreeSets(KeyedAround(t, scope, w), AcceptedUnder(t, Key(scope, w - 1)), AcceptedUnder(t, Key(scope, w)),
              AcceptedUnder(t, Key(scope, w + 1)));
  }

  /** Wherever a window of the same length is placed, at most three times the cap is let in during it:
      the keys may be those of the window before. */
  lemma AtMostThrice(steps: seq<Step>, t: State, latency: real, scope: Scope, from: real)
    requires latency <= 30.0 && Reaches(INITIAL, steps, t, latency)
    ensures |AcceptedInWindow(t, scope, from)| <= 3 * Cap(scope)
  {
    RunInTime(INITIAL, steps, t, latency);
    var a, b := AcceptedInWindow(t, scope, from), KeyedAround(t, scope, WindowOf(scope, from));
    forall id | id in a ensures id in b {
      KeyedNearby(t, latency, scope, from, id);
    }
    AroundSize(steps, t, latency, scope, WindowOf(scope, from));
    SubsetSize(a, b);
  }

  lemma ThreeSets<T>(a: set<T>, x: set<T>, y: set<T>, z: set<T>)
    requires a <= x + y + z
    ensures |a| <= |x| + |y| + |z|
  {
    SubsetSize(a, x + y + z);
    UnionSize(x + y, z);
    UnionSize(x, y);
  }

  /** Without any delay a request is let in when its keys are computed, and twice the cap is enough. */
  lemma AtMostTwiceAtOnce(steps: seq<Step>, t: State, latency: real, scope: Scope, from: real)
    requires latency <= 0.0 && Reaches(INITIAL, steps, t, latency)
    ensures |AcceptedInWindow(t, scope, from)| <= 2 * Cap(scope)
  {
    RunInTime(INITIAL, steps, t, latency);
    AtMostTwiceByKey(steps, t, latency, scope, from);
    var a, b := AcceptedInWindow(t, scope, from), KeyedBetween(t, scope, from, from + Length(scope));
    forall id | id in a ensures id in b {
      assert LetInInTime(t.now, t.reqs[id], latency);
    }
    SubsetSize(a, b);
  }

  // ---------------------------------------------------------------------------------------------
  // The exact factor of each limit
  // ---------------------------------------------------------------------------------------------

  /** An agent belongs to one organisation. */
  ghost predicate FixedOrgs(t: State, orgOf: string -> string) {
    forall id :: id in t.reqs && t.reqs[id].phase.Accepted? ==> t.reqs[id].org == orgOf(t.reqs[id].agent)
  }

  /** The most that any interval of a window's length can let in: three times the cap for an address or
      an organisation, but two and a half times for an agent. */
  function Most(scope: Scope): nat {
    match scope case Ip(_) => 15 case Org(_) => 90 case Agent(_) => 150
  }

  /** A key of the hour before, computed at most 30 seconds before the hour ends, goes with a key of that
      hour's last minute. */
  lemma LastMinute(w: int, minuteAt: real, hourAt: real, at: real, from: real)
    requires WindowOf(Agent(""), from) == w && from <= at && minuteAt <= hourAt <= at <= minuteAt + 30.0
    requires WindowOf(Agent(""), hourAt) == w - 1
    ensures WindowOf(Org(""), minuteAt) == 60 * w - 1
  {
    WindowBounds(Agent(""), from);
    WindowBounds(Agent(""), hourAt);
    WindowBounds(Org(""), minuteAt);
  }

  /** The last minute of the hour before for the agent's organisation, and the agent's own two hours. */
  ghost function AgentKeys(t: State, agent: string, w: int, org: string): set<nat> {
    AcceptedUnder(t, Key(Org(org), 60 * w - 1)) + AcceptedUnder(t, Key(Agent(agent), w))
      + AcceptedUnder(t, Key(Agent(agent), w + 1))
  }

  /** Late requests with a key of the hour before all count for one minute of one organisation. */
  lemma AgentKeyed(t: State, latency: real, agent: string, from: real, orgOf: string -> string, id: nat)
    requires latency <= 30.0 && InTime(t, latency) && FixedOrgs(t, orgOf)
    requires id in AcceptedInWindow(t, Agent(agent), from)
    ensures id in AgentKeys(t, agent, WindowOf(Agent(agent), from), orgOf(agent))
  {
    var r, w := t.reqs[id], WindowOf(Agent(agent), from);
    assert LetInInTime(t.now, r, latency);
    KeyedNearby(t, latency, Agent(agent), from, id);
    if WindowOf(Agent(agent), r.hourAt) == w - 1 {
      LastMinute(w, r.minuteAt, r.hourAt, r.phase.at, from);
      assert KeyOf(r, 2) == Key(Org(orgOf(agent)), 60 * w - 1);
    }
  }

  lemma AgentKeysSize(steps: seq<Step>, t: State, latency: real, agent: string, w: int, org: string)
    requires latency <= 30.0 && Reaches(INITIAL, steps, t, latency)
    ensures |AgentKeys(t, agent, w, org)| <= 150
  {
    CapHolds(steps, t, latency, Key(Org(org), 60 * w - 1));
    CapHolds(steps, t, latency, Key(Agent(agent), w));
    CapHolds(steps, t, latency, Key(Agent(agent), w + 1));
    ThreeSets(AgentKeys(t, agent, w, org), AcceptedUnder(t, Key(Org(org), 60 * w - 1)),
              AcceptedUnder(t, Key(Agent(agent), w)), AcceptedUnder(t, Key(Agent(agent), w + 1)));
  }

  lemma AgentAtMost(steps: seq<Step>, t: State, latency: real, agent: string, from: real, orgOf: string -> string)
    requires latency <= 30.0 && Reaches(INITIAL, steps, t, latency) && FixedOrgs(t, orgOf)
    ensures |AcceptedInWindow(t, Agent(agent), from)| <= Most(Agent(agent))
  {
    RunInTime(INITIAL, steps, t, latency);
    var w := WindowOf(Agent(agent), from);
    var a, b := AcceptedInWindow(t, Agent(agent), from), AgentKeys(t, agent, w, orgOf(agent));
    forall id | id in a ensures id in b {
      AgentKeyed(t, latency, agent, from, orgOf, id);
    }
    AgentKeysSize(steps, t, latency, agent, w, orgOf(agent));
    SubsetSize(a, b);
  }

  lemma AtMost(steps: seq<Step>, t: State, latency: real, scope: Scope, from: real, orgOf: string -> string)
    requires latency <= 30.0 && Reaches(INITIAL, steps, t, latency) && FixedOrgs(t, orgOf)
    ensures |AcceptedInWindow(t, scope, from)| <= Most(scope)
  {
    if scope.Agent? {
      AgentAtMost(steps, t, latency, scope.agent, from, orgOf);
    } else {
      AtMostThrice(steps, t, latency, scope, from);
    }
  }

  // ---------------------------------------------------------------------------------------------
  // With the least delay, that many get in
  // ---------------------------------------------------------------------------------------------

  function HalfOf(latency: real): real {
    if latency < 2.0 then latency / 2.0 else 1.0
  }

  /** Everyone in the crowd counts for the scope, so all of them are let in during the window. */
  lemma AllInWindow(t: State, c: Crowd, scope: Scope, n: nat, from: real, minute: int, hour: int, a: nat)
    requires InSince(t, c, n, from, minute, hour, a) && t.now < from + Length(scope) && scope == ScopeOf(c)
    ensures |AcceptedInWindow(t, scope, from)| == n && FixedOrgs(t, (agent: string) => c.me)
  {
    UptoIs(n);
    var b := AcceptedInWindow(t, scope, from);
    forall id: nat ensures id in b <==> id in Upto(n) {
      if id < n {
        assert LetIn(t.reqs[id], c, id, from, t.now);
        assert Counts(scope, t.reqs[id]);
      }
    }
    assert b == Upto(n);
    forall id | id in t.reqs ensures t.reqs[id].org == c.me {
      assert LetIn(t.reqs[id], c, id, from, t.now);
    }
  }

  /** For an address or an organisation: one full minute of requests whose keys are still those of the
      minute before, one of this minute, one of the next. */
  lemma ThreeMinutes(c: Crowd, latency: real) returns (steps: seq<Step>, t: State, from: real)
    requires latency > 0.0 && !c.OneAgent?
    ensures Reaches(INITIAL, steps, t, latency) && FixedOrgs(t, (agent: string) => c.me)
    ensures |AcceptedInWindow(t, ScopeOf(c), from)| == Most(ScopeOf(c))
  {
    var e := HalfOf(latency);
    from := 60.0 + e;
    var m := Cap(ScopeOf(c));
    steps, t := ThreeGroups(c, m, e, latency);
    AllInWindow(t, c, ScopeOf(c), 3 * m, from, 3, 0, 3 * m);
  }

  lemma ThreeGroups(c: Crowd, m: nat, e: real, latency: real) returns (steps: seq<Step>, t: State)
    requires 0.0 < e <= 1.0 && 2.0 * e <= latency && m <= 30 && !c.OneAgent? && (c.OneCaller? ==> m <= 5)
    ensures Reaches(INITIAL, steps, t, latency) && t.now == 120.0
    ensures InSince(t, c, 3 * m, 60.0 + e, 3, 0, 3 * m)
  {
    var from := 60.0 + e;
    steps, t := TwoGroups(c, m, e, latency);
    steps, t := Group(INITIAL, steps, t, c, 2 * m, m, from, Times(60.0 - e, 0.0, 0.0), 2, 0, 2 * m, latency);
  }

  lemma TwoGroups(c: Crowd, m: nat, e: real, latency: real) returns (steps: seq<Step>, t: State)
    requires 0.0 < e <= 1.0 && 2.0 * e <= latency && m <= 30 && !c.OneAgent? && (c.OneCaller? ==> m <= 5)
    ensures Reaches(INITIAL, steps, t, latency) && t.now == 60.0 + e
    ensures InSince(t, c, 2 * m, 60.0 + e, 2, 0, 2 * m)
  {
    var from := 60.0 + e;
    steps, t := Group(INITIAL, [], INITIAL, c, 0, m, from, Times(60.0 - e, 0.0, 2.0 * e), 0, 0, 0, latency);
    steps, t := Group(INITIAL, steps, t, c, m, m, from, Times(0.0, 0.0, 0.0), 1, 0, m, latency);
  }

  /** For an agent: thirty whose keys are those of the hour before, sixty of this hour, and sixty of the
      next, thirty of which read the minute before it begins. */
  lemma FiveMinutes(me: string, latency: real) returns (steps: seq<Step>, t: State, from: real)
    requires latency > 0.0
    ensures Reaches(INITIAL, steps, t, latency) && FixedOrgs(t, (agent: string) => me)
    ensures |AcceptedInWindow(t, Agent(me), from)| == Most(Agent(me))
  {
    var e := HalfOf(latency);
    from := 3600.0 + e;
    steps, t := FirstNinety(me, e, latency);
    steps, t := LastSixty(me, e, latency, steps, t);
    AllInWindow(t, OneAgent(me), Agent(me), 150, from, 121, 2, 60);
  }

  lemma FirstNinety(me: string, e: real, latency: real) returns (steps: seq<Step>, t: State)
    requires 0.0 < e <= 1.0 && 2.0 * e <= latency
    ensures Reaches(INITIAL, steps, t, latency) && t.now == 3660.0 + e
    ensures InSince(t, OneAgent(me), 90, 3600.0 + e, 62, 1, 60)
  {
    var c, from := OneAgent(me), 3600.0 + e;
    steps, t := Group(INITIAL, [], INITIAL, c, 0, 30, from, Times(3600.0 - e, 0.0, 2.0 * e), 59, 0, 0, latency);
    Later(t, c, 30, from, 60, 0, 30, 60, 1);
    steps, t := Group(INITIAL, steps, t, c, 30, 30, from, Times(0.0, 0.0, 0.0), 60, 1, 0, latency);
    steps, t := Group(INITIAL, steps, t, c, 60, 30, from, Times(60.0, 0.0, 0.0), 61, 1, 30, latency);
  }

  lemma LastSixty(me: string, e: real, latency: real, before: seq<Step>, s: State) returns (steps: seq<Step>, t: State)
    requires 0.0 < e <= 1.0 && 2.0 * e <= latency && Reaches(INITIAL, before, s, latency) && s.now == 3660.0 + e
    requires InSince(s, OneAgent(me), 90, 3600.0 + e, 62, 1, 60)
    ensures Reaches(INITIAL, steps, t, latency) && t.now == 7200.0
    ensures InSince(t, OneAgent(me), 150, 3600.0 + e, 121, 2, 60)
  {
    var c, from := OneAgent(me), 3600.0 + e;
    Later(s, c, 90, from, 62, 1, 60, 119, 2);
    steps, t := Group(INITIAL, before, s, c, 90, 30, from, Times(3540.0 - 2.0 * e, e, 0.0), 119, 2, 0, latency);
    steps, t := Group(INITIAL, steps, t, c, 120, 30, from, Times(0.0, 0.0, 0.0), 120, 2, 30, latency);
  }

  lemma MostGetIn(scope: Scope, latency: real) returns (steps: seq<Step>, t: State, from: real, orgOf: string -> string)
    requires latency > 0.0
    ensures Reaches(INITIAL, steps, t, latency) && FixedOrgs(t, orgOf)
    ensures |AcceptedInWindow(t, scope, from)| == Most(scope)
  {
    match scope
    case Ip(ip) =>
      steps, t, from := ThreeMinutes(OneCaller(ip), latency);
      orgOf := (agent: string) => ip;
    case Org(org) =>
      steps, t, from := ThreeMinutes(OneOrg(org), latency);
      orgOf := (agent: string) => org;
    case Agent(agent) =>
      steps, t, from := FiveMinutes(agent, latency);
      orgOf := (a: string) => agent;
  }

  /** In every run in which agents keep their organisation, at most `n` are let in for the scope during
      any interval of its window's length. */
  ghost predicate Enough(n: nat, latency: real, scope: Scope) {
    forall steps, t, from, orgOf ::
      Reaches(INITIAL, steps, t, latency) && FixedOrgs(t, orgOf) ==> |AcceptedInWindow(t, scope, from)| <= n
  }

  /** With any delay of at most 30 seconds, `Most` is the exact bound of each limit. */
  lemma MostIsExact(n: nat, latency: real, scope: Scope)
    requires 0.0 < latency <= 30.0
    ensures Enough(n, latency, scope) <==> Most(scope) <= n
  {
    if Most(scope) <= n {
      forall steps, t, from, orgOf | Reaches(INITIAL, steps, t, latency) && FixedOrgs(t, orgOf)
        ensures |AcceptedInWindow(t, scope, from)| <= n
      {
        AtMost(steps, t, latency, scope, from, orgOf);
      }
    } else {
      var steps, t, from, orgOf := MostGetIn(scope, latency);
    }
  }

  ghost predicate TwiceIsEnough(latency: real) {
    forall steps, t, scope, from :: Reaches(INITIAL, steps, t, latency) ==>
      |AcceptedInWindow(t, scope, from)| <= 2 * Cap(scope)
  }

  /** Twice the cap bounds every sliding window exactly if scripts are never late at all. */
  lemma TwiceIsExact(latency: real)
    ensures TwiceIsEnough(latency) <==> latency <= 0.0
  {
    if latency <= 0.0 {
      forall steps, t, scope, from | Reaches(INITIAL, steps, t, latency)
        ensures |AcceptedInWindow(t, scope, from)| <= 2 * Cap(scope)
      {
        AtMostTwiceAtOnce(steps, t, latency, scope, from);
      }
    } else {
      var steps, t, from, orgOf := MostGetIn(Ip(CALLER), latency);
    }
  }
}
