/** The callback dispatcher of apps/worker/vocalflow_worker/tasks/callbacks.py: a sorted set from
    which several workers claim what is due, a gate, and a deferral. */
module Callbacks {
  import opened Basics
  import opened Compliance

  // ---------------------------------------------------------------------------------------------
  // What becomes of one entry
  // ---------------------------------------------------------------------------------------------

  /** The JSON payload of an entry; missing, null and empty fields are `None`. Asking a number, a string
      or a list for a field raises. */
  datatype Payload =
    | Malformed
    | NotAnObject
    | Payload(org: Option<string>, contact: Option<string>, agent: Option<string>)

  /** The databases as one dispatcher finds them when it looks at one entry. */
  datatype Env = Env(world: World, decode: string -> Payload, defaultAgent: string -> Option<string>)

  datatype Call = Call(to: string, agent: string, org: string)

  datatype Outcome =
    | Skip
    | NoAgent(contact: string)
    | Block(contact: string, why: Verdict)
    | Defer(contact: string)
    | Fire(contact: string, agent: string, org: string)
    | Fail

  function OutcomeOf(env: Env, raw: string, at: int): Outcome {
    match env.decode(raw)
    case Malformed => Skip
    case NotAnObject => Fail
    case Payload(org, contact, agent) =>
      if org.None? || contact.None? then Skip
      else
        var agent' := if agent.Some? then agent else env.defaultAgent(org.value);
        if agent'.None? then NoAgent(contact.value)
        else match WorkerGate(env.world, org.value, contact.value, at)
             case Allowed => Fire(contact.value, agent'.value, org.value)
             case QuietHours => Defer(contact.value)
             case Raised => Fail
             case why => Block(contact.value, why)
  }

  // ---------------------------------------------------------------------------------------------
  // The same, in terms of payload, databases and clock
  // ---------------------------------------------------------------------------------------------

  /** The entry names organisation and contact. */
  ghost predicate Names(env: Env, raw: string, org: string, contact: string) {
    var p := env.decode(raw);
    p.Payload? && p.org == Some(org) && p.contact == Some(contact)
  }

  /** The agent the entry names, or else the organisation's default. */
  ghost predicate HasAgent(env: Env, raw: string, org: string, agent: string) {
    var p := env.decode(raw);
    p.Payload? && if p.agent.Some? then p.agent.value == agent else env.defaultAgent(org) == Some(agent)
  }

  /** It has an agent, and the contact is not on the list and has its one consent record. */
  ghost predicate Diallable(env: Env, raw: string, org: string, contact: string, agent: string) {
    && Names(env, raw, org, contact) && HasAgent(env, raw, org, agent)
    && contact !in env.world.dnc && env.world.consents(org, contact) == 1
  }

  /** From 8:00 until before 21:00 by the clock of the number's state, which is known. */
  ghost predicate Daytime(w: World, phone: string, at: int) {
    var s := StateFromPhone(phone);
    s.Some? && 8 * 3_600_000_000 <= (at + w.offset(WorkerZone(s.value), at)) % 86_400_000_000 < 21 * 3_600_000_000
  }

  ghost predicate MayDial(env: Env, raw: string, at: int, call: Call) {
    Diallable(env, raw, call.org, call.to, call.agent) && Daytime(env.world, call.to, at)
  }

  /** All is in order but the hour. */
  ghost predicate PutOff(env: Env, raw: string, at: int, contact: string) {
    (exists org, agent :: Diallable(env, raw, org, contact, agent)) && !Daytime(env.world, contact, at)
  }

  /** The payload is not an object, or there is a second consent record to be looked at. */
  ghost predicate Raises(env: Env, raw: string) {
    || env.decode(raw).NotAnObject?
    || exists org, contact, agent :: Names(env, raw, org, contact) && HasAgent(env, raw, org, agent)
                                     && contact !in env.world.dnc && env.world.consents(org, contact) > 1
  }

  /** What is reported as blocked, and why. */
  ghost predicate Reports(env: Env, raw: string, at: int, report: Outcome) {
    match report
    case NoAgent(contact) =>
      exists org :: Names(env, raw, org, contact) && forall agent :: !HasAgent(env, raw, org, agent)
    case Block(contact, why) =>
      exists org, agent :: Names(env, raw, org, contact) && HasAgent(env, raw, org, agent) &&
        if contact in env.world.dnc then why == Dnc
        else env.world.consents(org, contact) == 0 && why == NoConsent
    case Defer(contact) => PutOff(env, raw, at, contact)
    case _ => false
  }

  ghost predicate IsDialled(env: Env, raw: string, at: int) {
    exists call :: MayDial(env, raw, at, call)
  }

  ghost predicate IsReported(env: Env, raw: string, at: int) {
    exists report :: Reports(env, raw, at, report)
  }

  lemma OutcomeMeans(env: Env, raw: string, at: int)
    ensures var o := OutcomeOf(env, raw, at);
            && (forall call :: MayDial(env, raw, at, call) <==> o == Fire(call.to, call.agent, call.org))
            && (o.Fail? <==> Raises(env, raw))
  {
    var p := env.decode(raw);
    if p.Payload? && p.org.Some? && p.contact.Some? {
      var org, contact := p.org.value, p.contact.value;
      var agent := if p.agent.Some? then p.agent else env.defaultAgent(org);
      assert Names(env, raw, org, contact);
      if agent.Some? {
        assert HasAgent(env, raw, org, agent.value);
      }
    }
  }

  lemma ReportMeans(env: Env, raw: string, at: int, report: Outcome)
    ensures Reports(env, raw, at, report) <==>
            OutcomeOf(env, raw, at) == report && (report.NoAgent? || report.Block? || report.Defer?)
  {
    var p := env.decode(raw);
    if p.Payload? && p.org.Some? && p.contact.Some? {
      var org, contact := p.org.value, p.contact.value;
      var agent := if p.agent.Some? then p.agent else env.defaultAgent(org);
      assert Names(env, raw, org, contact);
      if agent.Some? {
        assert HasAgent(env, raw, org, agent.value);
        assert env.world.consents(org, contact) == 1 && contact !in env.world.dnc ==>
               Diallable(env, raw, org, contact, agent.value);
      }
    }
  }

  const LIMIT := 50
  const DELAY := 8 * HOUR

  // ---------------------------------------------------------------------------------------------
  // The machine
  // ---------------------------------------------------------------------------------------------

  /** Every call of the scheduling tool is given a ticket, a history variable that says which
      scheduling an entry stems from. */
  datatype Slot = Slot(score: int, ticket: nat)

  datatype Claim = Claim(raw: string, score: int, ticket: nat)

  datatype Head = Fresh | Firing(to: string, agent: string, org: string, world: World, gatedAt: int) | Deferring

  datatype Dispatcher = Idle | Started(now: int) | Busy(now: int, pending: seq<Claim>, head: Head)

  /** An entry of the outbound stream, with what is known of how it got there. */
  datatype Sent = Sent(claim: Claim, to: string, agent: string, org: string, world: World, gatedAt: int, at: int)

  /** Where a ticket has got to. `Merged`: its member was already in the set, so ZADD only moved the
      score. `Lost`: its dispatcher died. */
  datatype Place = InSet | Held(d: nat) | Dialled | Dropped | Lost | Merged

  datatype State = State(
    clock: int,
    scheduled: map<string, Slot>,
    dispatchers: map<nat, Dispatcher>,
    outbound: seq<Sent>,
    issued: nat,
    raws: map<nat, string>,
    places: map<nat, Place>)

  datatype Step =
    | Tick(dt: nat)
    | Schedule(raw: string, score: int)
    | Begin(d: nat)
    | Take(d: nat, claimed: seq<string>)
    | Examine(d: nat, env: Env)
    | Send(d: nat)
    | Reschedule(d: nat)
    | Finish(d: nat)
    | Crash(d: nat)

  const INITIAL := State(0, map[], map[], [], 0, map[], map[])

  function DispatcherOf(s: State, d: nat): Dispatcher {
    if d in s.dispatchers then s.dispatchers[d] else Idle
  }

  function Scores(scheduled: map<string, Slot>): map<string, int> {
    map raw | raw in scheduled :: scheduled[raw].score
  }

  function Due(scores: map<string, int>, now: int): set<string> {
    set raw | raw in scores && 0 <= scores[raw] <= now
  }

  /** ZRANGEBYSCORE 0 now LIMIT 0 50: the entries due, earliest first, at most 50. Scores below zero
      are never in range. Entries of equal score may come in any order here. */
  ghost predicate IsClaim(scores: map<string, int>, now: int, claimed: seq<string>) {
    && (forall i :: 0 <= i < |claimed| ==> claimed[i] in Due(scores, now))
    && (forall i, j :: 0 <= i < j < |claimed| ==>
          claimed[i] != claimed[j] && scores[claimed[i]] <= scores[claimed[j]])
    && |claimed| <= LIMIT
    && (forall raw, i :: raw in Due(scores, now) && raw !in claimed && 0 <= i < |claimed| ==>
          scores[claimed[i]] <= scores[raw])
    && (|claimed| < LIMIT ==> forall raw :: raw in Due(scores, now) ==> raw in claimed)
  }

  /** In numbers: up to fifty entries, each with a score from 0 to now, none of them later than one that is
      left; fewer than fifty only if nothing due is left. */
  lemma ClaimMeans(scores: map<string, int>, now: int, claimed: seq<string>)
    requires IsClaim(scores, now, claimed)
    ensures |claimed| <= 50
    ensures forall raw :: raw in claimed ==> raw in scores && 0 <= scores[raw] <= now
    ensures forall raw, early :: early in claimed && raw in scores && raw !in claimed && 0 <= scores[raw] <= now ==>
              scores[early] <= scores[raw] && |claimed| == 50
    ensures |claimed| < 50 ==> forall raw :: raw in scores && 0 <= scores[raw] <= now ==> raw in claimed
  {
    forall raw | raw in scores && 0 <= scores[raw] <= now ensures raw in Due(scores, now) {
    }
    forall raw | raw in claimed ensures raw in Due(scores, now) {
      var i :| 0 <= i < |claimed| && claimed[i] == raw;
    }
  }

  predicate HasHead(p: Dispatcher) {
    p.Busy? && p.pending != []
  }

  ghost predicate Enabled(s: State, step: Step) {
    match step
    case Tick(_) => true
    case Schedule(_, _) => true
    case Begin(d) => DispatcherOf(s, d).Idle?
    case Take(d, claimed) =>
      DispatcherOf(s, d).Started? && IsClaim(Scores(s.scheduled), DispatcherOf(s, d).now, claimed)
    case Examine(d, _) => HasHead(DispatcherOf(s, d)) && DispatcherOf(s, d).head.Fresh?
    case Send(d) => HasHead(DispatcherOf(s, d)) && DispatcherOf(s, d).head.Firing?
    case Reschedule(d) => HasHead(DispatcherOf(s, d)) && DispatcherOf(s, d).head.Deferring?
    case Finish(d) => DispatcherOf(s, d).Busy? && DispatcherOf(s, d).pending == []
    case Crash(d) => d in s.dispatchers
  }

  function Tickets(claims: seq<Claim>): set<nat> {
    set c | c in claims :: c.ticket
  }

  function MoveAll(places: map<nat, Place>, tickets: set<nat>, p: Place): map<nat, Place> {
    map t | t in places :: if t in tickets then p else places[t]
  }

  /** The head is done with; the next claim, if any, has not been looked at. */
  function Popped(p: Dispatcher): Dispatcher
    requires HasHead(p)
  {
    Busy(p.now, p.pending[1..], Fresh)
  }

  /** The dispatcher dies, by a crash or an uncaught exception, and with it all it had claimed. */
  function Die(s: State, d: nat): State {
    var p := DispatcherOf(s, d);
    s.(dispatchers := s.dispatchers[d := Idle],
       places := if p.Busy? then MoveAll(s.places, Tickets(p.pending), Lost) else s.places)
  }

  ghost function Next(s: State, step: Step): State
    requires Enabled(s, step)
  {
    match step
    case Tick(dt) => s.(clock := s.clock + dt)
    case Schedule(raw, score) =>
      var known := raw in s.scheduled;
      s.(scheduled := s.scheduled[raw := Slot(score, if known then s.scheduled[raw].ticket else s.issued)],
         issued := s.issued + 1, raws := s.raws[s.issued := raw],
         places := s.places[s.issued := if known then Merged else InSet])
    case Begin(d) => s.(dispatchers := s.dispatchers[d := Started(s.clock)])
    case Take(d, claimed) =>
      assert forall i :: 0 <= i < |claimed| ==> claimed[i] in Due(Scores(s.scheduled), DispatcherOf(s, d).now);
      var pending := seq(|claimed|, i requires 0 <= i < |claimed| =>
                           Claim(claimed[i], s.scheduled[claimed[i]].score, s.scheduled[claimed[i]].ticket));
      s.(scheduled := map raw | raw in s.scheduled && raw !in claimed :: s.scheduled[raw],
         dispatchers := s.dispatchers[d := Busy(DispatcherOf(s, d).now, pending, Fresh)],
         places := MoveAll(s.places, Tickets(pending), Held(d)))
    case Examine(d, env) =>
      var p := DispatcherOf(s, d);
      var c := p.pending[0];
      (match OutcomeOf(env, c.raw, s.clock)
       case Fire(to, agent, org) =>
         s.(dispatchers := s.dispatchers[d := p.(head := Firing(to, agent, org, env.world, s.clock))])
       case Defer(_) => s.(dispatchers := s.dispatchers[d := p.(head := Deferring)])
       case Fail => Die(s, d)
       case _ => s.(dispatchers := s.dispatchers[d := Popped(p)], places := s.places[c.ticket := Dropped]))
    case Send(d) =>
      var p := DispatcherOf(s, d);
      var c, h := p.pending[0], p.head;
      s.(outbound := s.outbound + [Sent(c, h.to, h.agent, h.org, h.world, h.gatedAt, s.clock)],
         dispatchers := s.dispatchers[d := Popped(p)], places := s.places[c.ticket := Dialled])
    case Reschedule(d) =>
      var p := DispatcherOf(s, d);
      var c := p.pending[0];
      var known := c.raw in s.scheduled;
      s.(scheduled := s.scheduled[c.raw := Slot(p.now + DELAY, if known then s.scheduled[c.raw].ticket else c.ticket)],
         dispatchers := s.dispatchers[d := Popped(p)],
         places := s.places[c.ticket := if known then Merged else InSet])
    case Finish(d) => s.(dispatchers := s.dispatchers[d := Idle])
    case Crash(d) => Die(s, d)
  }

  ghost predicate Reaches(s: State, steps: seq<Step>, t: State)
    decreases |steps|
  {
    if steps == [] then s == t
    else Enabled(s, steps[0]) && Reaches(Next(s, steps[0]), steps[1..], t)
  }

  // ---------------------------------------------------------------------------------------------
  // Every scheduling is in exactly one place
  // ---------------------------------------------------------------------------------------------

  predicate At(s: State, t: nat, raw: string, p: Place) {
    t in s.places && t in s.raws && s.raws[t] == raw && s.places[t] == p
  }

  ghost predicate SetOk(s: State) {
    forall raw :: raw in s.scheduled ==> At(s, s.scheduled[raw].ticket, raw, InSet)
  }

  ghost predicate ClaimsOk(s: State, d: nat, pending: seq<Claim>, now: int) {
    && (forall i :: 0 <= i < |pending| ==>
          At(s, pending[i].ticket, pending[i].raw, Held(d)) && pending[i].score <= now)
    && (forall i, j :: 0 <= i < j < |pending| ==> pending[i].ticket != pending[j].ticket)
  }

  ghost predicate DispatcherOk(s: State, d: nat) {
    match DispatcherOf(s, d)
    case Idle => true
    case Started(now) => now <= s.clock
    case Busy(now, pending, head) =>
      && now <= s.clock && ClaimsOk(s, d, pending, now)
      && (head.Firing? ==> now <= head.gatedAt <= s.clock &&
                           WorkerGate(head.world, head.org, head.to, head.gatedAt) == Allowed)
  }

  ghost predicate SentOk(s: State, x: Sent) {
    && At(s, x.claim.ticket, x.claim.raw, Dialled)
    && x.claim.score <= x.gatedAt <= x.at <= s.clock
    && WorkerGate(x.world, x.org, x.to, x.gatedAt) == Allowed
  }

  ghost predicate OutboundOk(s: State) {
    && (forall i :: 0 <= i < |s.outbound| ==> SentOk(s, s.outbound[i]))
    && (forall i, j :: 0 <= i < j < |s.outbound| ==> s.outbound[i].claim.ticket != s.outbound[j].claim.ticket)
  }

  /** A ticket is really where `places` says it is. */
  ghost predicate Located(s: State, t: nat) {
    t in s.places && t in s.raws &&
    match s.places[t]
    case InSet => s.raws[t] in s.scheduled && s.scheduled[s.raws[t]].ticket == t
    case Held(d) => DispatcherOf(s, d).Busy? && t in Tickets(DispatcherOf(s, d).pending)
    case Dialled => exists i :: 0 <= i < |s.outbound| && s.outbound[i].claim.ticket == t
    case _ => true
  }

  ghost predicate Numbered(s: State) {
    && (forall t: nat :: t in s.places <==> t < s.issued)
    && (forall t: nat :: t in s.raws <==> t < s.issued)
  }

  ghost predicate Inv(s: State) {
    && Numbered(s)
    && SetOk(s)
    && (forall d: nat :: DispatcherOk(s, d))
    && OutboundOk(s)
    && (forall t: nat :: t < s.issued ==> Located(s, t))
  }

  lemma TicketsOf(claims: seq<Claim>, t: nat)
    ensures t in Tickets(claims) <==> exists i :: 0 <= i < |claims| && claims[i].ticket == t
  {
    if t in Tickets(claims) {
      var c :| c in claims && c.ticket == t;
    }
  }

  lemma ScheduleKeepsInv(s: State, raw: string, score: int)
    requires Inv(s)
    ensures Inv(Next(s, Schedule(raw, score)))
  {
    var u := Next(s, Schedule(raw, score));
    assert s.issued !in s.places;
    forall d: nat ensures DispatcherOk(u, d) {
      assert DispatcherOk(s, d);
    }
    forall t: nat | t < u.issued ensures Located(u, t) {
      if t < s.issued {
        assert Located(s, t);
      }
    }
  }

  lemma BeginKeepsInv(s: State, d: nat)
    requires Inv(s) && Enabled(s, Begin(d))
    ensures Inv(Next(s, Begin(d)))
  {
    var u := Next(s, Begin(d));
    forall e: nat ensures DispatcherOk(u, e) {
      assert DispatcherOk(s, e);
    }
    forall t: nat | t < u.issued ensures Located(u, t) {
      assert Located(s, t);
    }
  }

  lemma TickKeepsInv(s: State, dt: nat)
    requires Inv(s)
    ensures Inv(Next(s, Tick(dt)))
  {
    var u := Next(s, Tick(dt));
    forall e: nat ensures DispatcherOk(u, e) {
      assert DispatcherOk(s, e);
    }
    forall t: nat | t < u.issued ensures Located(u, t) {
      assert Located(s, t);
    }
    forall i | 0 <= i < |u.outbound| ensures SentOk(u, u.outbound[i]) {
      assert SentOk(s, s.outbound[i]);
    }
  }

  lemma FinishKeepsInv(s: State, d: nat)
    requires Inv(s) && Enabled(s, Finish(d))
    ensures Inv(Next(s, Finish(d)))
  {
    var u := Next(s, Finish(d));
    forall e: nat ensures DispatcherOk(u, e) {
      assert DispatcherOk(s, e);
    }
    forall t: nat | t < u.issued ensures Located(u, t) {
      assert Located(s, t);
    }
  }

  /** Tickets held by `d` move elsewhere: nobody else notices. */
  lemma OthersUnaffected(s: State, d: nat, places: map<nat, Place>)
    requires Inv(s) && places.Keys == s.places.Keys
    requires forall t :: t in s.places && s.places[t] != Held(d) ==> places[t] == s.places[t]
    ensures var u := s.(places := places);
            SetOk(u) && OutboundOk(u) && forall e: nat :: e != d ==> DispatcherOk(u, e)
  {
    var u := s.(places := places);
    forall e: nat | e != d ensures DispatcherOk(u, e) {
      assert DispatcherOk(s, e);
    }
    forall i | 0 <= i < |u.outbound| ensures SentOk(u, u.outbound[i]) {
      assert SentOk(s, s.outbound[i]);
    }
  }

  lemma DieKeepsInv(s: State, d: nat)
    requires Inv(s)
    ensures Inv(Die(s, d))
  {
    var u := Die(s, d);
    assert DispatcherOk(s, d);
    var p := DispatcherOf(s, d);
    if p.Busy? {
      forall t | t in s.places && s.places[t] != Held(d) ensures u.places[t] == s.places[t] {
        TicketsOf(p.pending, t);
      }
    }
    OthersUnaffected(s, d, u.places);
    forall e: nat ensures DispatcherOk(u, e) {
      if e != d {
        assert DispatcherOk(s.(places := u.places), e);
      }
    }
    forall t: nat | t < u.issued ensures Located(u, t) {
      assert Located(s, t);
    }
  }

  lemma TakeLocates(s: State, d: nat, claimed: seq<string>, t: nat)
    requires Inv(s) && Enabled(s, Take(d, claimed)) && t < s.issued
    ensures Located(Next(s, Take(d, claimed)), t)
  {
    var u := Next(s, Take(d, claimed));
    var pending := DispatcherOf(u, d).pending;
    assert Located(s, t);
    TakeMoves(s, d, claimed);
    if s.places[t] == InSet && s.raws[t] in claimed {
      var i :| 0 <= i < |claimed| && claimed[i] == s.raws[t];
      assert pending[i].ticket == t;
      TicketsOf(pending, t);
    }
  }

  lemma TakeKeepsDispatcher(s: State, d: nat, claimed: seq<string>, e: nat)
    requires Inv(s) && Enabled(s, Take(d, claimed))
    ensures DispatcherOk(Next(s, Take(d, claimed)), e)
  {
    assert DispatcherOk(s, d) && DispatcherOk(s, e);
    TakeMoves(s, d, claimed);
    TakeClaims(s, d, claimed);
  }

  lemma TakeKeepsInv(s: State, d: nat, claimed: seq<string>)
    requires Inv(s) && Enabled(s, Take(d, claimed))
    ensures Inv(Next(s, Take(d, claimed)))
  {
    var u := Next(s, Take(d, claimed));
    TakeMoves(s, d, claimed);
    TakeClaims(s, d, claimed);
    forall e: nat ensures DispatcherOk(u, e) {
      TakeKeepsDispatcher(s, d, claimed, e);
    }
    forall i | 0 <= i < |u.outbound| ensures SentOk(u, u.outbound[i]) {
      assert SentOk(s, s.outbound[i]);
    }
    forall t: nat | t < u.issued ensures Located(u, t) {
      TakeLocates(s, d, claimed, t);
    }
  }

  /** Only tickets that were in the set move, and exactly those of the claimed entries. */
  lemma TakeMoves(s: State, d: nat, claimed: seq<string>)
    requires Inv(s) && Enabled(s, Take(d, claimed))
    ensures var u := Next(s, Take(d, claimed));
            && u.places.Keys == s.places.Keys
            && (forall t :: t in s.places && s.places[t] != InSet ==> u.places[t] == s.places[t])
            && (forall t :: t in s.places && s.places[t] == InSet ==>
                  u.places[t] == if s.raws[t] in claimed then Held(d) else InSet)
  {
    var u := Next(s, Take(d, claimed));
    var pending := DispatcherOf(u, d).pending;
    forall t | t in s.places
      ensures u.places[t] == if s.places[t] == InSet && s.raws[t] in claimed then Held(d) else s.places[t]
    {
      TicketsOf(pending, t);
      assert Located(s, t);
      if t in Tickets(pending) {
        var i :| 0 <= i < |pending| && pending[i].ticket == t;
        assert claimed[i] in s.scheduled && At(s, t, claimed[i], InSet);
      }
      if s.places[t] == InSet && s.raws[t] in claimed {
        var i :| 0 <= i < |claimed| && claimed[i] == s.raws[t];
        assert pending[i].ticket == t;
      }
    }
  }

  lemma TakeClaims(s: State, d: nat, claimed: seq<string>)
    requires Inv(s) && Enabled(s, Take(d, claimed))
    ensures var u := Next(s, Take(d, claimed));
            ClaimsOk(u, d, DispatcherOf(u, d).pending, DispatcherOf(u, d).now) && SetOk(u)
  {
    var u := Next(s, Take(d, claimed));
    var pending := DispatcherOf(u, d).pending;
    TakeMoves(s, d, claimed);
    forall i | 0 <= i < |pending|
      ensures At(u, pending[i].ticket, pending[i].raw, Held(d)) && pending[i].score <= DispatcherOf(u, d).now
    {
      assert claimed[i] in Due(Scores(s.scheduled), DispatcherOf(s, d).now);
      assert At(s, pending[i].ticket, claimed[i], InSet);
    }
    forall i, j | 0 <= i < j < |pending| ensures pending[i].ticket != pending[j].ticket {
      assert claimed[i] in s.scheduled && claimed[j] in s.scheduled && claimed[i] != claimed[j];
    }
    forall raw | raw in u.scheduled ensures At(u, u.scheduled[raw].ticket, raw, InSet) {
      assert At(s, s.scheduled[raw].ticket, raw, InSet);
    }
  }

  /** The head of a dispatcher's claims is held by nobody else and by it only once. */
  lemma PopMovesOne(s: State, d: nat, place: Place)
    requires Inv(s) && HasHead(DispatcherOf(s, d)) && !place.Held?
    ensures var p := DispatcherOf(s, d); var c := p.pending[0];
            && At(s, c.ticket, c.raw, Held(d))
            && Tickets(p.pending) == Tickets(p.pending[1..]) + {c.ticket}
            && var u := s.(dispatchers := s.dispatchers[d := Popped(p)], places := s.places[c.ticket := place]);
               && SetOk(u) && OutboundOk(u)
               && (forall e: nat :: DispatcherOk(u, e))
               && (forall t: nat :: t < s.issued && t != c.ticket ==> Located(u, t))
  {
    var p := DispatcherOf(s, d);
    var c := p.pending[0];
    var rest := p.pending[1..];
    var u := s.(dispatchers := s.dispatchers[d := Popped(p)], places := s.places[c.ticket := place]);
    assert DispatcherOk(s, d);
    OthersUnaffected(s, d, u.places);
    forall e: nat ensures DispatcherOk(u, e) {
      if e == d {
        assert forall i :: 0 <= i < |rest| ==> rest[i] == p.pending[i + 1];
      } else {
        assert DispatcherOk(s.(places := u.places), e);
      }
    }
    forall t: nat ensures t in Tickets(p.pending) <==> t in Tickets(rest) || t == c.ticket {
      assert p.pending == [c] + rest;
    }
    forall t: nat | t < s.issued && t != c.ticket ensures Located(u, t) {
      assert Located(s, t);
    }
  }

  lemma SendKeepsInv(s: State, d: nat)
    requires Inv(s) && Enabled(s, Send(d))
    ensures Inv(Next(s, Send(d)))
  {
    var u := Next(s, Send(d));
    var c := DispatcherOf(s, d).pending[0];
    PopMovesOne(s, d, Dialled);
    var v := s.(dispatchers := u.dispatchers, places := u.places);
    assert DispatcherOk(s, d);
    forall e: nat ensures DispatcherOk(u, e) {
      assert DispatcherOk(v, e);
    }
    forall i | 0 <= i < |u.outbound| ensures SentOk(u, u.outbound[i]) {
      if i < |s.outbound| {
        assert SentOk(v, v.outbound[i]);
      }
    }
    forall i | 0 <= i < |s.outbound| ensures s.outbound[i].claim.ticket != c.ticket {
      assert SentOk(s, s.outbound[i]);
    }
    forall t: nat | t < u.issued ensures Located(u, t) {
      if t == c.ticket {
        assert u.outbound[|s.outbound|].claim.ticket == t;
      } else {
        assert Located(v, t);
        if v.places[t].Dialled? {
          var i :| 0 <= i < |v.outbound| && v.outbound[i].claim.ticket == t;
          assert u.outbound[i].claim.ticket == t;
        }
      }
    }
  }

  lemma RescheduleKeepsInv(s: State, d: nat)
    requires Inv(s) && Enabled(s, Reschedule(d))
    ensures Inv(Next(s, Reschedule(d)))
  {
    var u := Next(s, Reschedule(d));
    var c := DispatcherOf(s, d).pending[0];
    PopMovesOne(s, d, u.places[c.ticket]);
    var v := s.(dispatchers := u.dispatchers, places := u.places);
    forall e: nat ensures DispatcherOk(u, e) {
      assert DispatcherOk(v, e);
    }
    forall i | 0 <= i < |u.outbound| ensures SentOk(u, u.outbound[i]) {
      assert SentOk(v, v.outbound[i]);
    }
    forall t: nat | t < u.issued ensures Located(u, t) {
      if t != c.ticket {
        assert Located(v, t);
      }
    }
  }

  lemma DropKeepsInv(s: State, d: nat, env: Env)
    requires Inv(s) && Enabled(s, Examine(d, env))
    requires var o := OutcomeOf(env, DispatcherOf(s, d).pending[0].raw, s.clock); o.Skip? || o.NoAgent? || o.Block?
    ensures Inv(Next(s, Examine(d, env)))
  {
    var u := Next(s, Examine(d, env));
    var c := DispatcherOf(s, d).pending[0];
    PopMovesOne(s, d, Dropped);
    forall t: nat | t < u.issued ensures Located(u, t) {
      assert t == c.ticket || Located(u, t);
    }
  }

  lemma DecideKeepsInv(s: State, d: nat, env: Env)
    requires Inv(s) && Enabled(s, Examine(d, env))
    requires var o := OutcomeOf(env, DispatcherOf(s, d).pending[0].raw, s.clock); o.Fire? || o.Defer?
    ensures Inv(Next(s, Examine(d, env)))
  {
    var u := Next(s, Examine(d, env));
    forall e: nat ensures DispatcherOk(u, e) {
      assert DispatcherOk(s, e);
    }
    forall i | 0 <= i < |u.outbound| ensures SentOk(u, u.outbound[i]) {
      assert SentOk(s, s.outbound[i]);
    }
    forall t: nat | t < u.issued ensures Located(u, t) {
      assert Located(s, t);
    }
  }

  lemma StepPreservesInv(s: State, step: Step)
    requires Inv(s) && Enabled(s, step)
    ensures Inv(Next(s, step))
  {
    match step
    case Tick(dt) => TickKeepsInv(s, dt);
    case Schedule(raw, score) => ScheduleKeepsInv(s, raw, score);
    case Begin(d) => BeginKeepsInv(s, d);
    case Take(d, claimed) => TakeKeepsInv(s, d, claimed);
    case Examine(d, env) =>
      match OutcomeOf(env, DispatcherOf(s, d).pending[0].raw, s.clock) {
        case Fire(_, _, _) => DecideKeepsInv(s, d, env);
        case Defer(_) => DecideKeepsInv(s, d, env);
        case Fail => DieKeepsInv(s, d);
        case _ => DropKeepsInv(s, d, env);
      }
    case Send(d) => SendKeepsInv(s, d);
    case Reschedule(d) => RescheduleKeepsInv(s, d);
    case Finish(d) => FinishKeepsInv(s, d);
    case Crash(d) => DieKeepsInv(s, d);
  }

  lemma {:induction false} RunPreservesInv(s: State, steps: seq<Step>, t: State)
    requires Inv(s) && Reaches(s, steps, t)
    ensures Inv(t)
    decreases |steps|
  {
    if steps != [] {
      StepPreservesInv(s, steps[0]);
      RunPreservesInv(Next(s, steps[0]), steps[1..], t);
    }
  }

  lemma Reachable(steps: seq<Step>, t: State)
    requires Reaches(INITIAL, steps, t)
    ensures Inv(t)
  {
    RunPreservesInv(INITIAL, steps, t);
  }

  // ---------------------------------------------------------------------------------------------
  // What every run keeps
  // ---------------------------------------------------------------------------------------------

  /** Claim `j` of dispatcher `e` stems from ticket `t`. */
  predicate Holds(s: State, e: nat, j: int, t: nat) {
    var p := DispatcherOf(s, e);
    p.Busy? && 0 <= j < |p.pending| && p.pending[j].ticket == t
  }

  /** No two dispatchers hold the same claim, nobody holds a claim twice, and what is held is neither
      in the set nor dialled. */
  lemma ClaimsAreExclusive(steps: seq<Step>, s: State, d: nat, i: nat)
    requires Reaches(INITIAL, steps, s)
    requires DispatcherOf(s, d).Busy? && i < |DispatcherOf(s, d).pending|
    ensures var t := DispatcherOf(s, d).pending[i].ticket;
            && (forall e: nat, j :: Holds(s, e, j, t) ==> e == d && j == i)
            && (forall raw :: raw in s.scheduled ==> s.scheduled[raw].ticket != t)
            && (forall k :: 0 <= k < |s.outbound| ==> s.outbound[k].claim.ticket != t)
  {
    Reachable(steps, s);
    assert DispatcherOk(s, d);
    var t := DispatcherOf(s, d).pending[i].ticket;
    forall e: nat, j | Holds(s, e, j, t) ensures e == d && j == i {
      assert DispatcherOk(s, e);
      assert At(s, t, DispatcherOf(s, e).pending[j].raw, Held(e));
    }
    forall k | 0 <= k < |s.outbound| ensures s.outbound[k].claim.ticket != t {
      assert SentOk(s, s.outbound[k]);
    }
  }

  /** Nothing is dialled before its time, and the worker's gate allowed it after it was claimed. */
  lemma NeverEarly(steps: seq<Step>, s: State, k: nat)
    requires Reaches(INITIAL, steps, s) && k < |s.outbound|
    ensures var x := s.outbound[k]; x.claim.score <= x.gatedAt <= x.at <= s.clock
    ensures var x := s.outbound[k]; WorkerGate(x.world, x.org, x.to, x.gatedAt) == Allowed
  {
    Reachable(steps, s);
    assert SentOk(s, s.outbound[k]);
  }

  /** Every callback on the outbound stream satisfied the API's rules at the instant it was gated, if
      the two gates agree on its number, as they do on every normalised one. */
  lemma OutboundPassedTheApiGate(steps: seq<Step>, s: State, parse: string -> Parsed, k: nat)
    requires Reaches(INITIAL, steps, s) && k < |s.outbound|
    requires Refines(parse, s.outbound[k].to) || Normalised(parse, s.outbound[k].to)
    ensures var x := s.outbound[k]; ApiGate(x.world, parse, x.org, x.to, x.gatedAt) == Allowed
  {
    NeverEarly(steps, s, k);
    var x := s.outbound[k];
    if Normalised(parse, x.to) {
      WorkerGateRefinesApi(x.world, parse, x.org, x.to, x.gatedAt);
    }
  }

  /** The schedulings of an entry, as tickets. */
  function Schedulings(s: State, raw: string): set<nat> {
    set t | t in s.raws && s.raws[t] == raw
  }

  function InPlace(s: State, raw: string, p: Place): set<nat> {
    set t | t in s.raws && s.raws[t] == raw && t in s.places && s.places[t] == p
  }

  function HeldTickets(s: State, raw: string): set<nat> {
    set t | t in s.raws && s.raws[t] == raw && t in s.places && s.places[t].Held?
  }

  /** The calls placed for an entry, as positions of the outbound stream. */
  function Dials(s: State, raw: string): set<nat> {
    set k: nat | k < |s.outbound| && s.outbound[k].claim.raw == raw
  }

  lemma {:induction false} ImageSize(ks: set<nat>, f: map<nat, nat>)
    requires ks <= f.Keys && forall k, l :: k in ks && l in ks && k != l ==> f[k] != f[l]
    ensures |set k | k in ks :: f[k]| == |ks|
  {
    if ks != {} {
      var k :| k in ks;
      var rest := ks - {k};
      ImageSize(rest, f);
      assert (set x | x in ks :: f[x]) == (set x | x in rest :: f[x]) + {f[k]};
      assert f[k] !in (set x | x in rest :: f[x]);
    }
  }

  lemma DialsAreTickets(s: State, raw: string)
    requires Inv(s)
    ensures |Dials(s, raw)| == |InPlace(s, raw, Dialled)|
  {
    var f := map k: nat | k < |s.outbound| :: s.outbound[k].claim.ticket;
    var ks := Dials(s, raw);
    ImageSize(ks, f);
    forall t ensures t in (set k | k in ks :: f[k]) <==> t in InPlace(s, raw, Dialled) {
      if t in (set k | k in ks :: f[k]) {
        var k: nat :| k in ks && f[k] == t;
        assert SentOk(s, s.outbound[k]);
      }
      if t in InPlace(s, raw, Dialled) {
        assert Located(s, t);
        var k: nat :| k < |s.outbound| && s.outbound[k].claim.ticket == t;
        assert SentOk(s, s.outbound[k]);
        assert k in ks && f[k] == t;
      }
    }
    assert (set k | k in ks :: f[k]) == InPlace(s, raw, Dialled);
  }

  lemma InSetAtMostOnce(s: State, raw: string)
    requires Inv(s)
    ensures InPlace(s, raw, InSet) == if raw in s.scheduled then {s.scheduled[raw].ticket} else {}
  {
    forall t | t in InPlace(s, raw, InSet) ensures raw in s.scheduled && t == s.scheduled[raw].ticket {
      assert Located(s, t);
    }
    if raw in s.scheduled {
      assert At(s, s.scheduled[raw].ticket, raw, InSet);
    }
  }

  function OfKind(all: set<nat>, kind: map<nat, nat>, k: nat): set<nat>
    requires all <= kind.Keys
  {
    set t | t in all && kind[t] == k
  }

  lemma OfKindGrows(rest: set<nat>, t: nat, kind: map<nat, nat>, k: nat)
    requires rest + {t} <= kind.Keys && t !in rest
    ensures |OfKind(rest + {t}, kind, k)| == |OfKind(rest, kind, k)| + if kind[t] == k then 1 else 0
  {
    var grown := OfKind(rest + {t}, kind, k);
    if kind[t] == k {
      assert grown == OfKind(rest, kind, k) + {t};
    } else {
      assert grown == OfKind(rest, kind, k);
    }
  }

  lemma {:induction false} KindSizes(all: set<nat>, kind: map<nat, nat>)
    requires all <= kind.Keys && forall t :: t in all ==> kind[t] <= 5
    ensures |all| == |OfKind(all, kind, 0)| + |OfKind(all, kind, 1)| + |OfKind(all, kind, 2)|
              + |OfKind(all, kind, 3)| + |OfKind(all, kind, 4)| + |OfKind(all, kind, 5)|
  {
    if all != {} {
      var t :| t in all;
      var rest := all - {t};
      assert rest + {t} == all;
      KindSizes(rest, kind);
      OfKindGrows(rest, t, kind, 0);
      OfKindGrows(rest, t, kind, 1);
      OfKindGrows(rest, t, kind, 2);
      OfKindGrows(rest, t, kind, 3);
      OfKindGrows(rest, t, kind, 4);
      OfKindGrows(rest, t, kind, 5);
    }
  }

  function Kind(p: Place): nat {
    match p case Dialled => 0 case Held(_) => 1 case InSet => 2 case Dropped => 3 case Lost => 4 case Merged => 5
  }

  lemma PlacesPartition(s: State, raw: string)
    requires Numbered(s)
    ensures |Schedulings(s, raw)| == |InPlace(s, raw, Dialled)| + |HeldTickets(s, raw)| + |InPlace(s, raw, InSet)|
              + |InPlace(s, raw, Dropped)| + |InPlace(s, raw, Lost)| + |InPlace(s, raw, Merged)|
  {
    var all := Schedulings(s, raw);
    var kind := map t | t in s.places :: Kind(s.places[t]);
    KindSizes(all, kind);
    assert OfKind(all, kind, 0) == InPlace(s, raw, Dialled);
    assert OfKind(all, kind, 1) == HeldTickets(s, raw);
    assert OfKind(all, kind, 2) == InPlace(s, raw, InSet);
    assert OfKind(all, kind, 3) == InPlace(s, raw, Dropped);
    assert OfKind(all, kind, 4) == InPlace(s, raw, Lost);
    assert OfKind(all, kind, 5) == InPlace(s, raw, Merged);
  }

  /** Conservation: of the times an entry was scheduled, each one is still in the set, held by one
      dispatcher, dialled once, or given up (dropped by the gate, lost with its dispatcher, or merged
      into an entry that was already in the set). */
  lemma SchedulingsAreConserved(steps: seq<Step>, s: State, raw: string)
    requires Reaches(INITIAL, steps, s)
    ensures |Schedulings(s, raw)| == |Dials(s, raw)| + |HeldTickets(s, raw)| + (if raw in s.scheduled then 1 else 0)
              + |InPlace(s, raw, Dropped)| + |InPlace(s, raw, Lost)| + |InPlace(s, raw, Merged)|
  {
    Reachable(steps, s);
    DialsAreTickets(s, raw);
    InSetAtMostOnce(s, raw);
    PlacesPartition(s, raw);
  }

  // ---------------------------------------------------------------------------------------------
  // How often an eligible callback is deferred
  // ---------------------------------------------------------------------------------------------

  /** One look at an entry: its score, the clock read before the claim, and the instant of the gate. */
  datatype Look = Look(score: int, now: int, at: int)

  /** Only the clock stands between the entry and the dialler: known zone with a fixed offset, not on
      the list, one consent record. */
  ghost predicate Eligible(w: World, org: string, phone: string) {
    && phone !in w.dnc && w.consents(org, phone) == 1 && StateFromPhone(phone).Some?
    && exists off :: FixedOffset(w, WorkerZone(StateFromPhone(phone).value), off)
  }

  ghost predicate FixedOffset(w: World, z: Zone, off: int) {
    forall t: int :: w.offset(z, t) == off
  }

  lemma QuietLook(w: World, org: string, phone: string, at: int, off: int)
    requires Eligible(w, org, phone) && FixedOffset(w, WorkerZone(StateFromPhone(phone).value), off)
    ensures WorkerGate(w, org, phone, at) == if AllowedHours((at + off) % DAY) then Allowed else QuietHours
  {
  }

  /** The arithmetic of the day: with a third look at most five hours after the entry is due, the
      third look is within the allowed hours. */
  lemma ThreeLooks(a: Look, b: Look, c: Look, off: int, wait: int)
    requires wait <= 5 * HOUR
    requires a.score <= a.now <= a.at <= a.score + wait
    requires b.score <= b.now <= b.at <= b.score + wait
    requires c.score <= c.now <= c.at <= c.score + wait
    requires b.score == a.now + DELAY && c.score == b.now + DELAY
    requires !AllowedHours((a.at + off) % DAY) && !AllowedHours((b.at + off) % DAY)
    ensures AllowedHours((c.at + off) % DAY)
  {
    var day := (a.at + off) / DAY;
    var ta := a.at + off - day * DAY;
    var tb := b.at + off - day * DAY;
    var tc := c.at + off - day * DAY;
    assert ta == (a.at + off) % DAY;
    ModDay(b.at + off, day, tb);
    ModDay(c.at + off, day, tc);
  }

  lemma ModDay(x: int, day: int, r: int)
    requires x == day * DAY + r && 0 <= r < 3 * DAY
    ensures x % DAY == if r < DAY then r else if r < 2 * DAY then r - DAY else r - 2 * DAY
  {
  }

  // ---------------------------------------------------------------------------------------------
  // The script and the task
  // ---------------------------------------------------------------------------------------------

  ghost predicate Earliest(pool: set<string>, scores: map<string, int>, best: string)
    requires pool <= scores.Keys
  {
    best in pool && forall raw :: raw in pool ==> scores[best] <= scores[raw]
  }

  lemma {:induction false} EarliestExists(pool: set<string>, scores: map<string, int>) returns (best: string)
    requires pool != {} && pool <= scores.Keys
    ensures Earliest(pool, scores, best)
  {
    var first :| first in pool;
    var rest := pool - {first};
    best := first;
    assert forall raw :: raw in pool ==> raw == first || raw in rest;
    if rest != {} {
      var other := EarliestExists(rest, scores);
      best := if scores[other] < scores[first] then other else first;
    }
  }

  function CallsOf(o: Outcome): seq<Call> {
    if o.Fire? then [Call(o.contact, o.agent, o.org)] else []
  }

  /** What is reported as blocked: everything gated, the deferred entries among them. */
  function BlockedOf(o: Outcome): seq<Outcome> {
    if o.NoAgent? || o.Block? || o.Defer? then [o] else []
  }

  /** The calls placed for the first `n` entries, looked at in the given environments and instants. */
  function Placed(envs: seq<Env>, clock: seq<int>, raws: seq<string>, n: nat): seq<Call>
    requires n <= |raws| <= |envs| == |clock|
  {
    if n == 0 then [] else Placed(envs, clock, raws, n - 1) + CallsOf(OutcomeOf(envs[n - 1], raws[n - 1], clock[n - 1]))
  }

  function Reported(envs: seq<Env>, clock: seq<int>, raws: seq<string>, n: nat): seq<Outcome>
    requires n <= |raws| <= |envs| == |clock|
  {
    if n == 0 then []
    else Reported(envs, clock, raws, n - 1) + BlockedOf(OutcomeOf(envs[n - 1], raws[n - 1], clock[n - 1]))
  }

  /** The sorted set after the first `n` entries: what is deferred comes back with a new score. */
  function PutBack(scores: map<string, int>, when: int, envs: seq<Env>, clock: seq<int>, raws: seq<string>, n: nat):
    map<string, int>
    requires n <= |raws| <= |envs| == |clock|
  {
    if n == 0 then scores
    else
      var m := PutBack(scores, when, envs, clock, raws, n - 1);
      if OutcomeOf(envs[n - 1], raws[n - 1], clock[n - 1]).Defer? then m[raws[n - 1] := when] else m
  }

  function Without(scores: map<string, int>, raws: seq<string>): map<string, int> {
    map raw | raw in scores && raw !in raws :: scores[raw]
  }

  /** A treated entry is afterwards in the set exactly if it was deferred, with the new score; all
      other entries are as they were. */
  lemma {:induction false} PutBackIs(scores: map<string, int>, when: int, envs: seq<Env>, clock: seq<int>,
                                     raws: seq<string>, n: nat, raw: string)
    requires n <= |raws| <= |envs| == |clock|
    ensures var m := PutBack(Without(scores, raws), when, envs, clock, raws, n);
            && (raw in m <==> (raw in scores && raw !in raws) || Deferred(envs, clock, raws, n, raw))
            && (raw in m ==> m[raw] == if raw in raws then when else scores[raw])
  {
    if n > 0 {
      PutBackIs(scores, when, envs, clock, raws, n - 1, raw);
      assert Deferred(envs, clock, raws, n, raw) <==>
             Deferred(envs, clock, raws, n - 1, raw) ||
             (raws[n - 1] == raw && OutcomeOf(envs[n - 1], raw, clock[n - 1]).Defer?);
    }
  }

  ghost predicate Deferred(envs: seq<Env>, clock: seq<int>, raws: seq<string>, n: nat, raw: string)
    requires n <= |raws| <= |envs| == |clock|
  {
    exists i :: 0 <= i < n && raws[i] == raw && OutcomeOf(envs[i], raws[i], clock[i]).Defer?
  }

  /** No lookup raises for the first `n` entries. */
  ghost predicate NoneFails(envs: seq<Env>, clock: seq<int>, raws: seq<string>, n: nat)
    requires n <= |raws| <= |envs| == |clock|
  {
    forall i :: 0 <= i < n ==> !OutcomeOf(envs[i], raws[i], clock[i]).Fail?
  }

  lemma OneMoreNoFail(envs: seq<Env>, clock: seq<int>, raws: seq<string>, n: nat)
    requires n < |raws| <= |envs| == |clock| && NoneFails(envs, clock, raws, n)
    ensures OutcomeOf(envs[n], raws[n], clock[n]).Fail? || NoneFails(envs, clock, raws, n + 1)
  {
  }

  /** The calls placed for the first `n` entries: one for each entry that may be dialled, in order. */
  ghost predicate CallsFor(envs: seq<Env>, clock: seq<int>, raws: seq<string>, n: nat, calls: seq<Call>)
    requires n <= |raws| <= |envs| == |clock|
  {
    if n == 0 then calls == []
    else if IsDialled(envs[n - 1], raws[n - 1], clock[n - 1]) then
      && calls != [] && MayDial(envs[n - 1], raws[n - 1], clock[n - 1], calls[|calls| - 1])
      && CallsFor(envs, clock, raws, n - 1, calls[..|calls| - 1])
    else CallsFor(envs, clock, raws, n - 1, calls)
  }

  ghost predicate ReportsFor(envs: seq<Env>, clock: seq<int>, raws: seq<string>, n: nat, reports: seq<Outcome>)
    requires n <= |raws| <= |envs| == |clock|
  {
    if n == 0 then reports == []
    else if IsReported(envs[n - 1], raws[n - 1], clock[n - 1]) then
      && reports != [] && Reports(envs[n - 1], raws[n - 1], clock[n - 1], reports[|reports| - 1])
      && ReportsFor(envs, clock, raws, n - 1, reports[..|reports| - 1])
    else ReportsFor(envs, clock, raws, n - 1, reports)
  }

  lemma CallsMean(env: Env, raw: string, at: int)
    ensures var calls := CallsOf(OutcomeOf(env, raw, at));
            if IsDialled(env, raw, at) then |calls| == 1 && MayDial(env, raw, at, calls[0]) else calls == []
  {
    OutcomeMeans(env, raw, at);
    var o := OutcomeOf(env, raw, at);
    if o.Fire? {
      assert MayDial(env, raw, at, Call(o.contact, o.agent, o.org));
    }
  }

  lemma ReportsMean(env: Env, raw: string, at: int)
    ensures var reports := BlockedOf(OutcomeOf(env, raw, at));
            if IsReported(env, raw, at) then |reports| == 1 && Reports(env, raw, at, reports[0]) else reports == []
  {
    ReportMeans(env, raw, at, OutcomeOf(env, raw, at));
    forall report ensures Reports(env, raw, at, report) ==> BlockedOf(OutcomeOf(env, raw, at)) == [report] {
      ReportMeans(env, raw, at, report);
    }
  }

  lemma {:induction false} PlacedMeans(envs: seq<Env>, clock: seq<int>, raws: seq<string>, n: nat)
    requires n <= |raws| <= |envs| == |clock|
    ensures CallsFor(envs, clock, raws, n, Placed(envs, clock, raws, n))
  {
    if n > 0 {
      PlacedMeans(envs, clock, raws, n - 1);
      CallsMean(envs[n - 1], raws[n - 1], clock[n - 1]);
      var before, calls := Placed(envs, clock, raws, n - 1), Placed(envs, clock, raws, n);
      var more := CallsOf(OutcomeOf(envs[n - 1], raws[n - 1], clock[n - 1]));
      assert calls == before + more && calls[..|calls| - |more|] == before;
      assert more == [] ==> calls == before;
    }
  }

  lemma {:induction false} ReportedMeans(envs: seq<Env>, clock: seq<int>, raws: seq<string>, n: nat)
    requires n <= |raws| <= |envs| == |clock|
    ensures ReportsFor(envs, clock, raws, n, Reported(envs, clock, raws, n))
  {
    if n > 0 {
      ReportedMeans(envs, clock, raws, n - 1);
      ReportsMean(envs[n - 1], raws[n - 1], clock[n - 1]);
      var before, reports := Reported(envs, clock, raws, n - 1), Reported(envs, clock, raws, n);
      var more := BlockedOf(OutcomeOf(envs[n - 1], raws[n - 1], clock[n - 1]));
      assert reports == before + more && reports[..|reports| - |more|] == before;
      assert more == [] ==> reports == before;
    }
  }

  /** One of the first `n` entries is this one, and it was put off. */
  ghost predicate WasPutOff(envs: seq<Env>, clock: seq<int>, raws: seq<string>, n: nat, raw: string)
    requires n <= |raws| <= |envs| == |clock|
  {
    exists i, contact :: 0 <= i < n && raws[i] == raw && PutOff(envs[i], raws[i], clock[i], contact)
  }

  /** The set afterwards: what was not claimed, as it was, and what was put off, eight hours after `now`.
      Everything else that was claimed is gone. */
  ghost predicate LeftInSet(was: map<string, int>, claimed: seq<string>, n: nat, envs: seq<Env>, clock: seq<int>,
                            now: int, scores: map<string, int>)
    requires n <= |claimed| <= |envs| == |clock|
  {
    forall raw ::
      && (raw in scores <==> (raw in was && raw !in claimed) || WasPutOff(envs, clock, claimed, n, raw))
      && (raw in scores ==> scores[raw] == if raw in claimed then now + 8 * 3_600_000_000 else was[raw])
  }

  lemma PutBackMeans(was: map<string, int>, claimed: seq<string>, n: nat, envs: seq<Env>, clock: seq<int>, now: int)
    requires n <= |claimed| <= |envs| == |clock|
    ensures LeftInSet(was, claimed, n, envs, clock, now,
                      PutBack(Without(was, claimed), now + DELAY, envs, clock, claimed, n))
  {
    forall raw
      ensures Deferred(envs, clock, claimed, n, raw) <==> WasPutOff(envs, clock, claimed, n, raw)
    {
      DeferredMeans(envs, clock, claimed, n, raw);
    }
    var scores := PutBack(Without(was, claimed), now + DELAY, envs, clock, claimed, n);
    forall raw
      ensures raw in scores <==> (raw in was && raw !in claimed) || WasPutOff(envs, clock, claimed, n, raw)
      ensures raw in scores ==> scores[raw] == if raw in claimed then now + 8 * 3_600_000_000 else was[raw]
    {
      PutBackIs(was, now + DELAY, envs, clock, claimed, n, raw);
    }
  }

  lemma DeferredMeans(envs: seq<Env>, clock: seq<int>, raws: seq<string>, n: nat, raw: string)
    requires n <= |raws| <= |envs| == |clock|
    ensures Deferred(envs, clock, raws, n, raw) <==> WasPutOff(envs, clock, raws, n, raw)
  {
    forall i, contact | 0 <= i < n
      ensures PutOff(envs[i], raws[i], clock[i], contact) <==> OutcomeOf(envs[i], raws[i], clock[i]) == Defer(contact)
    {
      ReportMeans(envs[i], raws[i], clock[i], Defer(contact));
    }
    if Deferred(envs, clock, raws, n, raw) {
      var i :| 0 <= i < n && raws[i] == raw && OutcomeOf(envs[i], raws[i], clock[i]).Defer?;
      assert PutOff(envs[i], raws[i], clock[i], OutcomeOf(envs[i], raws[i], clock[i]).contact);
    }
  }

  class Queue {
    var scheduled: map<string, int>
    var outbound: seq<Call>

    /** The Lua script. */
    method ClaimDue(now: int) returns (entries: seq<string>)
      modifies `scheduled
      ensures IsClaim(old(scheduled), now, entries)
      ensures scheduled == Without(old(scheduled), entries)
    {
      entries := [];
      var scores := scheduled;
      var due := Due(scores, now);
      var pool := due;
      while pool != {} && |entries| < LIMIT
        invariant |entries| <= LIMIT && pool <= due
        invariant forall i :: 0 <= i < |entries| ==> entries[i] in due && entries[i] !in pool
        invariant forall raw :: raw in due ==> raw in pool || raw in entries
        invariant forall i, j :: 0 <= i < j < |entries| ==>
                    entries[i] != entries[j] && scores[entries[i]] <= scores[entries[j]]
        invariant forall i, raw :: 0 <= i < |entries| && raw in pool ==> scores[entries[i]] <= scores[raw]
        decreases |pool|
      {
        ghost var best := EarliestExists(pool, scores);
        var raw :| raw in pool && forall other :: other in pool ==> scores[raw] <= scores[other];
        entries := entries + [raw];
        pool := pool - {raw};
      }
      scheduled := Without(scores, entries);
    }

    /** What one entry leads to, once its outcome is known. */
    method Treat(raw: string, outcome: Outcome, when: int) returns (report: seq<Outcome>)
      requires !outcome.Fail?
      modifies this
      ensures scheduled == if outcome.Defer? then old(scheduled)[raw := when] else old(scheduled)
      ensures outbound == old(outbound) + CallsOf(outcome)
      ensures report == BlockedOf(outcome)
    {
      report := [];
      match outcome {
        case Skip =>
        case NoAgent(_) => report := [outcome];
        case Block(_, _) => report := [outcome];
        case Defer(_) =>
          report := [outcome];
          scheduled := scheduled[raw := when];
        case Fire(to, agent, org) =>
          outbound := outbound + [Call(to, agent, org)];
      }
    }

    /** The loop over the claimed entries: entry i is looked at in `envs[i]` at `clock[i]`. It stops
        early only if a lookup raises. */
    method TreatAll(entries: seq<string>, when: int, envs: seq<Env>, clock: seq<int>)
      returns (fired: nat, blocked: seq<Outcome>, done: nat)
      requires |entries| <= |envs| == |clock|
      modifies this
      ensures done <= |entries|
      ensures NoneFails(envs, clock, entries, done)
      ensures done < |entries| ==> OutcomeOf(envs[done], entries[done], clock[done]).Fail?
      ensures outbound == old(outbound) + Placed(envs, clock, entries, done)
      ensures fired == |Placed(envs, clock, entries, done)|
      ensures blocked == Reported(envs, clock, entries, done)
      ensures scheduled == PutBack(old(scheduled), when, envs, clock, entries, done)
    {
      ghost var before, sent := scheduled, outbound;
      fired, blocked, done := 0, [], 0;
      while done < |entries|
        invariant done <= |entries| && NoneFails(envs, clock, entries, done)
        invariant outbound == sent + Placed(envs, clock, entries, done)
        invariant fired == |Placed(envs, clock, entries, done)|
        invariant blocked == Reported(envs, clock, entries, done)
        invariant scheduled == PutBack(before, when, envs, clock, entries, done)
      {
        var outcome := OutcomeOf(envs[done], entries[done], clock[done]);
        if outcome.Fail? {
          return;
        }
        OneMoreNoFail(envs, clock, entries, done);
        var report := Treat(entries[done], outcome, when);
        blocked := blocked + report;
        fired := fired + |CallsOf(outcome)|;
        done := done + 1;
      }
    }

    /** `fire_due`, started at `now`: what becomes of each claimed entry, in terms of its payload, the
        databases and the clock. If a lookup raises, what had been claimed and not yet treated is gone
        from the set. */
    method FireDue(now: int, envs: seq<Env>, clock: seq<int>)
      returns (fired: nat, blocked: seq<Outcome>, raised: bool, ghost claimed: seq<string>, ghost done: nat)
      requires |envs| == |clock| == LIMIT
      modifies this
      ensures IsClaim(old(scheduled), now, claimed)
      ensures done <= |claimed| && (raised <==> done < |claimed|) && NoneFails(envs, clock, claimed, done)
      ensures raised ==> OutcomeOf(envs[done], claimed[done], clock[done]).Fail?
      ensures raised ==> Raises(envs[done], claimed[done])
      ensures forall i :: 0 <= i < done ==> !Raises(envs[i], claimed[i])
      ensures outbound == old(outbound) + Placed(envs, clock, claimed, done)
      ensures CallsFor(envs, clock, claimed, done, outbound[|old(outbound)|..])
      ensures fired == |outbound| - |old(outbound)|
      ensures blocked == Reported(envs, clock, claimed, done)
      ensures ReportsFor(envs, clock, claimed, done, blocked)
      ensures scheduled == PutBack(Without(old(scheduled), claimed), now + DELAY, envs, clock, claimed, done)
      ensures LeftInSet(old(scheduled), claimed, done, envs, clock, now, scheduled)
    {
      ghost var was, sent := scheduled, outbound;
      var entries := ClaimDue(now);
      var treated: nat;
      fired, blocked, treated := TreatAll(entries, now + DELAY, envs, clock);
      raised := treated < |entries|;
      claimed, done := entries, treated;
      assert outbound[|sent|..] == Placed(envs, clock, claimed, done);
      PlacedMeans(envs, clock, claimed, done);
      ReportedMeans(envs, clock, claimed, done);
      PutBackMeans(was, claimed, done, envs, clock, now);
      forall i | 0 <= i <= done && i < |claimed|
        ensures OutcomeOf(envs[i], claimed[i], clock[i]).Fail? <==> Raises(envs[i], claimed[i])
      {
        OutcomeMeans(envs[i], claimed[i], clock[i]);
      }
    }
  }
}
