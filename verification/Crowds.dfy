/** Runs of the rate limiter in which many requests get in: whole groups that share an address, an agent
    or an organisation. */
module Crowds {
  import opened RateLimit

  /** What all requests share with `me`: everything, or agent and organisation, or the organisation. */
  datatype Crowd = OneCaller(me: string) | OneAgent(me: string) | OneOrg(me: string)

  function ScopeOf(c: Crowd): Scope {
    match c case OneCaller(me) => Ip(me) case OneAgent(me) => Agent(me) case OneOrg(me) => Org(me)
  }

  predicate Counts(scope: Scope, r: Request) {
    scope == KeyOf(r, 0).scope || scope == KeyOf(r, 1).scope || scope == KeyOf(r, 2).scope
  }

  /** A name of its own for each request. */
  function Name(me: string, id: nat): string {
    me + seq(id + 1, _ => 'x')
  }

  lemma NamesDiffer(me: string, i: nat, j: nat)
    ensures Name(me, i) != me && (i != j ==> Name(me, i) != Name(me, j))
  {
    assert |Name(me, i)| == |me| + i + 1 && |Name(me, j)| == |me| + j + 1;
  }

  /** Request `id` of the crowd, whose minute was read at `p` and whose hour at `h`. */
  function Ask(c: Crowd, id: nat, p: real, h: real): Request {
    Request(if c.OneCaller? then c.me else Name(c.me, id), if c.OneOrg? then Name(c.me, id) else c.me, c.me,
            p, h, Checking(0))
  }

  predicate IsKey(r: Request, k: Key) {
    k == KeyOf(r, 0) || k == KeyOf(r, 1) || k == KeyOf(r, 2)
  }

  /** A key that the whole crowd may share. */
  predicate Common(c: Crowd, k: Key) {
    k.scope == Ip(c.me) || k.scope == Agent(c.me) || k.scope == Org(c.me)
  }

  lemma ScriptAdds(store: Store, k: Key, ttl: real, now: real, other: Key)
    requires ttl > 0.0
    ensures Incremented(AfterScript(store, k, ttl, now), other, now)
         == Incremented(store, other, now) + if k == other then 1 else 0
  {
  }

  /** Time adds nothing to a count. */
  lemma TimeAddsNothing(store: Store, k: Key, now: real, later: real)
    requires now <= later
    ensures Incremented(store, k, later) <= Incremented(store, k, now)
  {
  }

  /** The three keys differ, so the scripts of a request add one to each of their counts. */
  lemma ScriptsAdd(store: Store, r: Request, now: real, k: Key)
    ensures var after := ThreeScripts(store, r, now);
            && Incremented(after, k, now) == Incremented(store, k, now) + (if IsKey(r, k) then 1 else 0)
            && (k in after ==> k in store || IsKey(r, k))
  {
    var k0, k1, k2 := KeyOf(r, 0), KeyOf(r, 1), KeyOf(r, 2);
    var a := AfterScript(store, k0, 90.0, now);
    var b := AfterScript(a, k1, 3700.0, now);
    ScriptAdds(store, k0, 90.0, now, k);
    ScriptAdds(a, k1, 3700.0, now, k);
    ScriptAdds(b, k2, 90.0, now, k);
  }

  // ---------------------------------------------------------------------------------------------
  // A group arrives
  // ---------------------------------------------------------------------------------------------

  /** What the group is going through: it has read its minute at `p`, or has been let in. */
  datatype Stage = Arriving(p: real) | Done(p: real, h: real, at: real)

  function AtStage(c: Crowd, id: nat, stage: Stage): Request {
    match stage
    case Arriving(p) => Ask(c, id, p, p).(org := "", phase := Arrived)
    case Done(p, h, at) => Ask(c, id, p, h).(phase := Accepted(at))
  }

  /** The first `n` requests of the group from `lo` on are at the stage, the others as before. */
  ghost predicate Extends(s: State, t: State, c: Crowd, lo: nat, n: nat, stage: Stage) {
    && (forall id :: id in t.reqs <==> id in s.reqs || lo <= id < lo + n)
    && (forall id :: id in t.reqs ==> t.reqs[id] == if lo <= id < lo + n then AtStage(c, id, stage) else s.reqs[id])
  }

  lemma {:induction false} Arrivals(s: State, c: Crowd, lo: nat, n: nat, latency: real)
    returns (steps: seq<Step>, t: State)
    requires forall id :: id in s.reqs ==> id < lo
    ensures Reaches(s, steps, t, latency) && Extends(s, t, c, lo, n, Arriving(s.now))
    ensures t.now == s.now && t.store == s.store
  {
    if n == 0 {
      steps, t := [], s;
    } else {
      var before, u := Arrivals(s, c, lo, n - 1, latency);
      var id, r := lo + n - 1, Ask(c, lo + n - 1, s.now, s.now);
      var step := Arrive(id, r.ip, r.agent);
      t := Next(u, step, latency);
      One(u, step, latency);
      ReachesConcat(s, before, u, [step], t, latency);
      ArrivesOnce(s, u, t, c, lo, n - 1);
      steps := before + [step];
    }
  }

  /** The first `n` of the group have gone on from `u`, where all of them had arrived. */
  ghost predicate AreReady(u: State, t: State, c: Crowd, p: real, lo: nat, n: nat) {
    && t.now == u.now && t.store == u.store && t.reqs.Keys == u.reqs.Keys
    && forall id :: id in t.reqs ==> t.reqs[id] == if lo <= id < lo + n then Ask(c, id, p, u.now) else u.reqs[id]
  }

  lemma ArrivesOnce(s: State, u: State, t: State, c: Crowd, lo: nat, n: nat)
    requires Extends(s, u, c, lo, n, Arriving(s.now))
    requires t.reqs == u.reqs[lo + n := AtStage(c, lo + n, Arriving(s.now))]
    ensures Extends(s, t, c, lo, n + 1, Arriving(s.now))
  {
  }

  ghost predicate HaveArrived(u: State, c: Crowd, p: real, lo: nat, n: nat) {
    forall id :: lo <= id < lo + n ==> id in u.reqs && u.reqs[id] == AtStage(c, id, Arriving(p))
  }

  /** The hours are read and the agent is found. */
  lemma {:induction false} Readies(u: State, c: Crowd, p: real, lo: nat, n: nat, latency: real)
    returns (steps: seq<Step>, t: State)
    requires HaveArrived(u, c, p, lo, n)
    ensures Reaches(u, steps, t, latency) && AreReady(u, t, c, p, lo, n)
  {
    if n == 0 {
      steps, t := [], u;
    } else {
      var before, v := Readies(u, c, p, lo, n - 1, latency);
      var id := lo + n - 1;
      assert id in u.reqs && v.reqs[id] == AtStage(c, id, Arriving(p));
      var more;
      more, t := ReadyOne(v, c, p, id, latency);
      OneMoreReady(u, v, t, c, p, lo, n - 1);
      ReachesConcat(u, before, v, more, t, latency);
      steps := before + more;
    }
  }

  lemma OneMoreReady(u: State, v: State, t: State, c: Crowd, p: real, lo: nat, n: nat)
    requires AreReady(u, v, c, p, lo, n) && lo + n in u.reqs
    requires t == v.(reqs := v.reqs[lo + n := Ask(c, lo + n, p, v.now)])
    ensures AreReady(u, t, c, p, lo, n + 1)
  {
  }

  lemma ReadyOne(v: State, c: Crowd, p: real, id: nat, latency: real) returns (steps: seq<Step>, t: State)
    requires id in v.reqs && v.reqs[id] == AtStage(c, id, Arriving(p))
    ensures Reaches(v, steps, t, latency) && t == v.(reqs := v.reqs[id := Ask(c, id, p, v.now)])
  {
    var w := Next(v, ReadHour(id), latency);
    One(v, ReadHour(id), latency);
    One(w, Resolve(id, true, c.me), latency);
    t := Next(w, Resolve(id, true, c.me), latency);
    ReachesConcat(v, [ReadHour(id)], w, [Resolve(id, true, c.me)], t, latency);
    steps := [ReadHour(id)] + [Resolve(id, true, c.me)];
  }

  // ---------------------------------------------------------------------------------------------
  // Its scripts run
  // ---------------------------------------------------------------------------------------------

  /** There is room for `m` requests from `lo` on: under the common keys, and their own keys are new. */
  ghost predicate Room(s: State, c: Crowd, p: real, h: real, lo: nat, m: nat) {
    forall id: nat, k :: lo <= id < lo + m && IsKey(Ask(c, id, p, h), k) ==>
      if Common(c, k) then Incremented(s.store, k, s.now) + m <= Cap(k.scope) + 1 else k !in s.store
  }

  /** What the scripts of the first `n` leave: at most `n` more under a common key, and no other keys. */
  ghost predicate Raised(s: State, t: State, c: Crowd, p: real, h: real, lo: nat, n: nat) {
    && t.now == s.now
    && (forall k :: Common(c, k) ==> Incremented(t.store, k, t.now) <= Incremented(s.store, k, s.now) + n)
    && (forall k :: k in t.store && k !in s.store ==> OfGroup(c, p, h, lo, n, k))
  }

  ghost predicate OfGroup(c: Crowd, p: real, h: real, lo: nat, n: nat, k: Key) {
    exists id: nat :: lo <= id < lo + n && IsKey(Ask(c, id, p, h), k)
  }

  /** A key that is not common belongs to one request only. */
  lemma OwnKey(c: Crowd, p: real, h: real, i: nat, j: nat, k: Key)
    requires IsKey(Ask(c, i, p, h), k) && IsKey(Ask(c, j, p, h), k) && !Common(c, k)
    ensures i == j
  {
    NamesDiffer(c.me, i, j);
  }

  lemma NextFits(s: State, u: State, c: Crowd, p: real, h: real, lo: nat, n: nat, m: nat, k: Key)
    requires n < m && Room(s, c, p, h, lo, m) && Raised(s, u, c, p, h, lo, n) && IsKey(Ask(c, lo + n, p, h), k)
    ensures Incremented(u.store, k, u.now) <= Cap(k.scope)
  {
    if !Common(c, k) && k in u.store {
      var id: nat :| lo <= id < lo + n && IsKey(Ask(c, id, p, h), k);
      OwnKey(c, p, h, id, lo + n, k);
    }
  }

  lemma RaisedOnce(s: State, u: State, t: State, c: Crowd, p: real, h: real, lo: nat, n: nat)
    requires Raised(s, u, c, p, h, lo, n) && t.now == u.now
    requires t.store == ThreeScripts(u.store, Ask(c, lo + n, p, h), u.now)
    ensures Raised(s, t, c, p, h, lo, n + 1)
  {
    var r := Ask(c, lo + n, p, h);
    forall k | Common(c, k)
      ensures Incremented(t.store, k, t.now) <= Incremented(s.store, k, s.now) + n + 1
    {
      ScriptsAdd(u.store, r, u.now, k);
    }
    forall k | k in t.store && k !in s.store ensures OfGroup(c, p, h, lo, n + 1, k) {
      ScriptsAdd(u.store, r, u.now, k);
      assert k in u.store ==> OfGroup(c, p, h, lo, n, k);
      assert IsKey(r, k) ==> lo <= lo + n < lo + n + 1 && IsKey(Ask(c, lo + n, p, h), k);
    }
  }

  lemma ExtendsOnce(s: State, u: State, t: State, c: Crowd, lo: nat, n: nat, stage: Stage)
    requires Extends(s, u, c, lo, n, stage) && lo + n in s.reqs
    requires t.reqs == u.reqs[lo + n := AtStage(c, lo + n, stage)]
    ensures Extends(s, t, c, lo, n + 1, stage)
  {
  }

  /** Requests lo to lo + n - 1 are in; request lo + n follows. */
  lemma NextIn(s: State, before: seq<Step>, u: State, c: Crowd, p: real, h: real, lo: nat, n: nat, m: nat,
               latency: real)
    returns (steps: seq<Step>, t: State)
    requires n < m && Room(s, c, p, h, lo, m) && s.now - p <= latency
    requires lo + n in s.reqs && s.reqs[lo + n] == Ask(c, lo + n, p, h)
    requires Reaches(s, before, u, latency) && Raised(s, u, c, p, h, lo, n)
    requires Extends(s, u, c, lo, n, Done(p, h, s.now))
    ensures Reaches(s, steps, t, latency) && Raised(s, t, c, p, h, lo, n + 1)
    ensures Extends(s, t, c, lo, n + 1, Done(p, h, s.now))
  {
    var id, r := lo + n, Ask(c, lo + n, p, h);
    assert u.reqs[id] == r;
    forall i | 0 <= i < 3 ensures var k := KeyOf(r, i); Incremented(u.store, k, u.now) <= Cap(k.scope) {
      NextFits(s, u, c, p, h, lo, n, m, KeyOf(r, i));
    }
    var more;
    more, t := ThreeChecks(u, id, latency);
    RaisedOnce(s, u, t, c, p, h, lo, n);
    ExtendsOnce(s, u, t, c, lo, n, Done(p, h, s.now));
    ReachesConcat(s, before, u, more, t, latency);
    steps := before + more;
  }

  /** The group stands before its scripts. */
  ghost predicate Stand(s: State, c: Crowd, p: real, h: real, lo: nat, m: nat) {
    forall id :: lo <= id < lo + m ==> id in s.reqs && s.reqs[id] == Ask(c, id, p, h)
  }

  lemma {:induction false} AllIn(s: State, c: Crowd, p: real, h: real, lo: nat, n: nat, m: nat, latency: real)
    returns (steps: seq<Step>, t: State)
    requires n <= m && Room(s, c, p, h, lo, m) && s.now - p <= latency
    requires Stand(s, c, p, h, lo, m)
    ensures Reaches(s, steps, t, latency) && Raised(s, t, c, p, h, lo, n)
    ensures Extends(s, t, c, lo, n, Done(p, h, s.now))
  {
    if n == 0 {
      steps, t := [], s;
    } else {
      var before, u := AllIn(s, c, p, h, lo, n - 1, m, latency);
      steps, t := NextIn(s, before, u, c, p, h, lo, n - 1, m, latency);
    }
  }

  // ---------------------------------------------------------------------------------------------
  // One group after the other
  // ---------------------------------------------------------------------------------------------

  ghost predicate LetIn(r: Request, c: Crowd, id: nat, from: real, now: real) {
    && r.phase.Accepted? && from <= r.phase.at <= now
    && r.ip == Ask(c, id, 0.0, 0.0).ip && r.agent == Ask(c, id, 0.0, 0.0).agent && r.org == c.me
  }

  /** A key of the future: no counter has it yet. */
  ghost predicate Open(c: Crowd, n: nat, minute: int, hour: int, k: Key) {
    || (if k.scope.Agent? then k.window > hour else k.window >= minute)
    || exists id: nat :: n <= id && (k.scope == Ip(Name(c.me, id)) || k.scope == Agent(Name(c.me, id)))
  }

  /** Requests 0 to n - 1 have been let in at or after `from`, `a` of them at most with keys of `hour`;
      no later minute from `minute` on, no later hour and no later name has been counted. */
  ghost predicate InSince(s: State, c: Crowd, n: nat, from: real, minute: int, hour: int, a: nat) {
    && (forall id: nat :: id in s.reqs <==> id < n)
    && (forall id: nat :: id < n ==> LetIn(s.reqs[id], c, id, from, s.now))
    && Incremented(s.store, Key(Agent(c.me), hour), s.now) <= a + 1
    && (forall k :: k in s.store ==> !Open(c, n, minute, hour, k))
  }

  /** How long the group waits before it reads the minute, the hour, and before its scripts. */
  datatype Times = Times(wait: real, gap: real, delay: real)

  /** Later minutes and hours are as free as the next. */
  lemma Later(s: State, c: Crowd, n: nat, from: real, minute: int, hour: int, a: nat, minute': int, hour': int)
    requires InSince(s, c, n, from, minute, hour, a) && minute <= minute' && hour < hour'
    ensures InSince(s, c, n, from, minute', hour', 0)
  {
    var k := Key(Agent(c.me), hour');
    assert Open(c, n, minute, hour, k);
    forall k | k in s.store ensures !Open(c, n, minute', hour', k) {
      assert !Open(c, n, minute, hour, k);
    }
  }

  lemma WindowIs(s: Scope, t: real, w: int)
    requires w as real * Length(s) <= t < (w + 1) as real * Length(s)
    ensures WindowOf(s, t) == w
  {
  }

  /** The group from `n` on has been made ready beside those of InSince; its keys have room. */
  lemma HasRoom(s: State, v: State, c: Crowd, n: nat, from: real, minute: int, hour: int, a: nat,
                p: real, h: real, m: nat)
    requires InSince(s, c, n, from, minute, hour, a) && v.store == s.store && s.now <= v.now
    requires WindowOf(Ip(c.me), p) == minute && WindowOf(Agent(c.me), h) == hour
    requires m <= 30 && (c.OneCaller? ==> m <= 5) && (!c.OneOrg? ==> a + m <= 60)
    ensures Room(v, c, p, h, n, m)
  {
    forall id: nat, k | n <= id < n + m && IsKey(Ask(c, id, p, h), k)
      ensures if Common(c, k) then Incremented(v.store, k, v.now) + m <= Cap(k.scope) + 1 else k !in v.store
    {
      NamesDiffer(c.me, id, id);
      if k == Key(Agent(c.me), hour) {
        TimeAddsNothing(s.store, k, s.now, v.now);
      } else {
        assert Open(c, n, minute, hour, k);
      }
    }
  }

  lemma OldKeysStay(s: State, v: State, t: State, c: Crowd, n: nat, from: real, minute: int, hour: int, a: nat,
                    p: real, h: real, m: nat, k: Key)
    requires InSince(s, c, n, from, minute, hour, a) && v.store == s.store && Raised(v, t, c, p, h, n, m)
    requires WindowOf(Ip(c.me), p) == minute && WindowOf(Agent(c.me), h) == hour && k in t.store
    ensures !Open(c, n + m, minute + 1, hour, k)
  {
    if k in s.store {
      assert !Open(c, n, minute, hour, k);
    } else {
      assert OfGroup(c, p, h, n, m, k);
      var id: nat :| n <= id < n + m && IsKey(Ask(c, id, p, h), k);
      forall j: nat | n + m <= j ensures k.scope != Ip(Name(c.me, j)) && k.scope != Agent(Name(c.me, j)) {
        NamesDiffer(c.me, id, j);
        NamesDiffer(c.me, j, id);
      }
    }
  }

  /** Requests n to n + m - 1 of the group stand before their scripts. */
  ghost predicate Joined(s: State, v: State, c: Crowd, n: nat, m: nat, p: real, h: real) {
    && (forall id: nat :: id in v.reqs <==> id < n + m)
    && (forall id: nat :: id < n ==> id in s.reqs && v.reqs[id] == s.reqs[id])
    && Stand(v, c, p, h, n, m)
  }

  lemma GroupIsIn(s: State, v: State, t: State, c: Crowd, n: nat, from: real, minute: int, hour: int, a: nat,
                  p: real, h: real, m: nat)
    requires InSince(s, c, n, from, minute, hour, a) && v.store == s.store && s.now <= v.now && from <= v.now
    requires Joined(s, v, c, n, m, p, h)
    requires WindowOf(Ip(c.me), p) == minute && WindowOf(Agent(c.me), h) == hour
    requires Raised(v, t, c, p, h, n, m) && Extends(v, t, c, n, m, Done(p, h, v.now))
    ensures InSince(t, c, n + m, from, minute + 1, hour, a + m)
  {
    TimeAddsNothing(s.store, Key(Agent(c.me), hour), s.now, v.now);
    assert Common(c, Key(Agent(c.me), hour));
    forall id: nat | id < n + m ensures id in t.reqs && LetIn(t.reqs[id], c, id, from, t.now) {
      if id < n {
        assert LetIn(s.reqs[id], c, id, from, s.now);
      }
    }
    forall k | k in t.store ensures !Open(c, n + m, minute + 1, hour, k) {
      OldKeysStay(s, v, t, c, n, from, minute, hour, a, p, h, m, k);
    }
  }

  lemma Waits(first: State, before: seq<Step>, s: State, dt: real, latency: real) returns (steps: seq<Step>, t: State)
    requires Reaches(first, before, s, latency) && dt >= 0.0
    ensures Reaches(first, steps, t, latency) && t == s.(now := s.now + dt)
  {
    t := Next(s, Tick(dt), latency);
    One(s, Tick(dt), latency);
    ReachesConcat(first, before, s, [Tick(dt)], t, latency);
    steps := before + [Tick(dt)];
  }

  lemma IsJoined(s: State, u: State, v: State, t: State, c: Crowd, n: nat, m: nat, p: real, h: real)
    requires forall id: nat :: id in s.reqs <==> id < n
    requires Extends(s, u, c, n, m, Arriving(p)) && v.reqs == u.reqs
    requires AreReady(v, t, c, p, n, m) && v.now == h
    ensures Joined(s, t, c, n, m, p, h)
  {
  }

  lemma AllHaveArrived(s: State, u: State, v: State, c: Crowd, n: nat, m: nat)
    requires Extends(s, u, c, n, m, Arriving(s.now)) && v.reqs == u.reqs
    ensures HaveArrived(v, c, s.now, n, m)
  {
    forall id | n <= id < n + m ensures id in v.reqs && v.reqs[id] == AtStage(c, id, Arriving(s.now)) {
      assert id in u.reqs;
    }
  }

  /** The group arrives, waits, and reads the hour and the agent. */
  lemma GetReady(s: State, c: Crowd, n: nat, m: nat, gap: real, p: real, h: real, latency: real)
    returns (steps: seq<Step>, t: State)
    requires (forall id: nat :: id in s.reqs <==> id < n) && gap >= 0.0 && p == s.now && h == p + gap
    ensures Reaches(s, steps, t, latency) && t.now == h && t.store == s.store
    ensures Joined(s, t, c, n, m, p, h)
  {
    var a, u := Arrivals(s, c, n, m, latency);
    var b, v := Waits(s, a, u, gap, latency);
    AllHaveArrived(s, u, v, c, n, m);
    var more;
    more, t := Readies(v, c, p, n, m, latency);
    IsJoined(s, u, v, t, c, n, m, p, h);
    ReachesConcat(s, b, v, more, t, latency);
    steps := b + more;
  }

  /** A group waits, arrives, reads the hour and the agent, waits, and runs its scripts. */
  lemma Group(first: State, before: seq<Step>, s: State, c: Crowd, n: nat, m: nat, from: real, times: Times,
              minute: int, hour: int, a: nat, latency: real) returns (steps: seq<Step>, t: State)
    requires Reaches(first, before, s, latency) && InSince(s, c, n, from, minute, hour, a)
    requires times.wait >= 0.0 && times.gap >= 0.0 && times.delay >= 0.0 && times.gap + times.delay <= latency
    requires from <= s.now + times.wait + times.gap + times.delay
    requires minute as real * 60.0 <= s.now + times.wait < (minute + 1) as real * 60.0
    requires hour as real * 3600.0 <= s.now + times.wait + times.gap < (hour + 1) as real * 3600.0
    requires m <= 30 && (c.OneCaller? ==> m <= 5) && (!c.OneOrg? ==> a + m <= 60)
    ensures Reaches(first, steps, t, latency) && t.now == s.now + times.wait + times.gap + times.delay
    ensures InSince(t, c, n + m, from, minute + 1, hour, a + m)
  {
    var p, h := s.now + times.wait, s.now + times.wait + times.gap;
    WindowIs(Ip(c.me), p, minute);
    WindowIs(Agent(c.me), h, hour);
    var ready, v := Comes(first, before, s, c, n, m, times, p, h, latency);
    steps, t := GetIn(first, ready, s, v, c, n, m, from, p, h, minute, hour, a, latency);
  }

  lemma Comes(first: State, before: seq<Step>, s: State, c: Crowd, n: nat, m: nat, times: Times, p: real, h: real,
              latency: real) returns (steps: seq<Step>, t: State)
    requires Reaches(first, before, s, latency) && forall id: nat :: id in s.reqs <==> id < n
    requires times.wait >= 0.0 && times.gap >= 0.0 && times.delay >= 0.0
    requires p == s.now + times.wait && h == p + times.gap
    ensures Reaches(first, steps, t, latency) && t.now == h + times.delay && t.store == s.store
    ensures Joined(s, t, c, n, m, p, h)
  {
    var waited, s1 := Waits(first, before, s, times.wait, latency);
    var more, s2 := GetReady(s1, c, n, m, times.gap, p, h, latency);
    ReachesConcat(first, waited, s1, more, s2, latency);
    steps, t := Waits(first, waited + more, s2, times.delay, latency);
    StillJoined(s, s1, s2, t, c, n, m, p, h);
  }

  lemma StillJoined(s: State, s1: State, s2: State, v: State, c: Crowd, n: nat, m: nat, p: real, h: real)
    requires Joined(s1, s2, c, n, m, p, h) && s1.reqs == s.reqs && v.reqs == s2.reqs
    ensures Joined(s, v, c, n, m, p, h)
  {
  }

  /** The scripts of the group run. */
  lemma GetIn(first: State, before: seq<Step>, s: State, v: State, c: Crowd, n: nat, m: nat, from: real,
              p: real, h: real, minute: int, hour: int, a: nat, latency: real) returns (steps: seq<Step>, t: State)
    requires Reaches(first, before, v, latency) && InSince(s, c, n, from, minute, hour, a)
    requires Joined(s, v, c, n, m, p, h) && v.store == s.store && s.now <= v.now && from <= v.now
    requires v.now - p <= latency && WindowOf(Ip(c.me), p) == minute && WindowOf(Agent(c.me), h) == hour
    requires m <= 30 && (c.OneCaller? ==> m <= 5) && (!c.OneOrg? ==> a + m <= 60)
    ensures Reaches(first, steps, t, latency) && t.now == v.now
    ensures InSince(t, c, n + m, from, minute + 1, hour, a + m)
  {
    HasRoom(s, v, c, n, from, minute, hour, a, p, h, m);
    var run;
    run, t := AllIn(v, c, p, h, n, m, m, latency);
    ReachesConcat(first, before, v, run, t, latency);
    steps := before + run;
    GroupIsIn(s, v, t, c, n, from, minute, hour, a, p, h, m);
  }
}
