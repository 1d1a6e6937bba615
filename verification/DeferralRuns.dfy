/** How often the callback machine puts one scheduling back: the deferral bound over whole runs, with
    any number of dispatchers, deaths and other entries. */
module DeferralRuns {
  import opened Basics
  import opened Compliance
  import opened Callbacks

  /** Dispatcher `d` is about to treat a claim on `raw`. */
  predicate AtHead(s: State, d: nat, raw: string) {
    HasHead(DispatcherOf(s, d)) && DispatcherOf(s, d).pending[0].raw == raw
  }

  /** Only the clock stands between the entry and the dialler, and its zone keeps the offset `off`. */
  ghost predicate EligibleLook(env: Env, raw: string, off: int) {
    match env.decode(raw)
    case Payload(org, contact, _) =>
      && org.Some? && contact.Some? && Eligible(env.world, org.value, contact.value)
      && FixedOffset(env.world, WorkerZone(StateFromPhone(contact.value).value), off)
    case _ => false
  }

  /** A look at `raw` finds it eligible and comes at most `wait` after its score. */
  ghost predicate GoodLook(s: State, d: nat, env: Env, raw: string, wait: int, off: int)
    requires AtHead(s, d, raw)
  {
    EligibleLook(env, raw, off) && s.clock <= DispatcherOf(s, d).pending[0].score + wait
  }

  /** In the run, nobody schedules `raw` again and every look at it is a good one. */
  ghost predicate Watched(s: State, steps: seq<Step>, raw: string, wait: int, off: int)
    decreases |steps|
  {
    steps == [] ||
    (&& Enabled(s, steps[0])
     && (steps[0].Schedule? ==> steps[0].raw != raw)
     && (steps[0].Examine? && AtHead(s, steps[0].d, raw) ==> GoodLook(s, steps[0].d, steps[0].env, raw, wait, off))
     && Watched(Next(s, steps[0]), steps[1..], raw, wait, off))
  }

  /** How often the run puts `raw` back into the set. */
  ghost function PutBacks(s: State, steps: seq<Step>, raw: string): nat
    decreases |steps|
  {
    if steps == [] || !Enabled(s, steps[0]) then 0
    else
      (if steps[0].Reschedule? && AtHead(s, steps[0].d, raw) then 1 else 0)
      + PutBacks(Next(s, steps[0]), steps[1..], raw)
  }

  predicate QuietAt(at: int, off: int) {
    !AllowedHours((at + off) % DAY)
  }

  ghost predicate GoodChain(looks: seq<Look>, wait: int, off: int) {
    && (forall i :: 0 <= i < |looks| ==>
          looks[i].score <= looks[i].now <= looks[i].at <= looks[i].score + wait && QuietAt(looks[i].at, off))
    && (forall i :: 0 <= i < |looks| - 1 ==> looks[i + 1].score == looks[i].now + DELAY)
  }

  /** The score that the entry must have after these looks. */
  predicate ScoreAfter(looks: seq<Look>, score: int) {
    looks != [] ==> score == looks[|looks| - 1].now + DELAY
  }

  /** Dispatcher `d` knows `raw` only by ticket `t` and its present score; before it puts it back, it
      has seen quiet hours. */
  ghost predicate Follows(s: State, d: nat, raw: string, t: nat, looks: seq<Look>, wait: int, off: int) {
    var p := DispatcherOf(s, d);
    p.Busy? ==>
      && (forall i :: 0 <= i < |p.pending| && p.pending[i].raw == raw ==>
            p.pending[i].ticket == t && ScoreAfter(looks, p.pending[i].score))
      && (AtHead(s, d, raw) && p.head.Deferring? ==> exists look: Look :: SeenQuiet(p, look, wait, off))
  }

  ghost predicate SeenQuiet(p: Dispatcher, look: Look, wait: int, off: int)
    requires HasHead(p)
  {
    && look.score == p.pending[0].score && look.now == p.now
    && look.score <= look.now <= look.at <= look.score + wait && QuietAt(look.at, off)
  }

  ghost predicate InQueue(s: State, raw: string, t: nat, looks: seq<Look>) {
    raw in s.scheduled ==> s.scheduled[raw].ticket == t && ScoreAfter(looks, s.scheduled[raw].score)
  }

  /** `t` is the only ticket under which `raw` is still about, and `looks` has put it where it is. */
  ghost predicate Tracked(s: State, raw: string, t: nat, looks: seq<Look>, wait: int, off: int) {
    && GoodChain(looks, wait, off)
    && InQueue(s, raw, t, looks)
    && forall d: nat :: Follows(s, d, raw, t, looks, wait, off)
  }

  /** A step that moves no claim on `raw`. */
  lemma OthersFollow(s: State, u: State, d: nat, raw: string, t: nat, looks: seq<Look>, wait: int, off: int)
    requires Tracked(s, raw, t, looks, wait, off) && InQueue(u, raw, t, looks)
    requires forall e: nat :: e != d ==> DispatcherOf(u, e) == DispatcherOf(s, e)
    requires Follows(u, d, raw, t, looks, wait, off)
    ensures Tracked(u, raw, t, looks, wait, off)
  {
    forall e: nat ensures Follows(u, e, raw, t, looks, wait, off) {
      assert Follows(s, e, raw, t, looks, wait, off);
    }
  }

  lemma TakeTracks(s: State, d: nat, claimed: seq<string>, raw: string, t: nat, looks: seq<Look>, wait: int, off: int)
    requires Tracked(s, raw, t, looks, wait, off) && Enabled(s, Take(d, claimed))
    ensures Tracked(Next(s, Take(d, claimed)), raw, t, looks, wait, off)
  {
    var u := Next(s, Take(d, claimed));
    OthersFollow(s, u, d, raw, t, looks, wait, off);
  }

  /** What a good look that defers has seen. */
  lemma DeferMeansQuiet(env: Env, raw: string, at: int, off: int)
    requires EligibleLook(env, raw, off) && OutcomeOf(env, raw, at).Defer?
    ensures QuietAt(at, off)
  {
    var p := env.decode(raw);
    QuietLook(env.world, p.org.value, p.contact.value, at, off);
  }

  lemma ExamineTracks(s: State, d: nat, env: Env, raw: string, t: nat, looks: seq<Look>, wait: int, off: int)
    requires Inv(s) && Tracked(s, raw, t, looks, wait, off) && Enabled(s, Examine(d, env))
    requires AtHead(s, d, raw) ==> GoodLook(s, d, env, raw, wait, off)
    ensures Tracked(Next(s, Examine(d, env)), raw, t, looks, wait, off)
  {
    var u := Next(s, Examine(d, env));
    var p := DispatcherOf(s, d);
    assert DispatcherOk(s, d) && Follows(s, d, raw, t, looks, wait, off);
    if AtHead(s, d, raw) && OutcomeOf(env, raw, s.clock).Defer? {
      DeferMeansQuiet(env, raw, s.clock, off);
      assert SeenQuiet(DispatcherOf(u, d), Look(p.pending[0].score, p.now, s.clock), wait, off);
    }
    OthersFollow(s, u, d, raw, t, looks, wait, off);
  }

  lemma SendTracks(s: State, d: nat, raw: string, t: nat, looks: seq<Look>, wait: int, off: int)
    requires Tracked(s, raw, t, looks, wait, off) && Enabled(s, Send(d))
    ensures Tracked(Next(s, Send(d)), raw, t, looks, wait, off)
  {
    assert Follows(s, d, raw, t, looks, wait, off);
    OthersFollow(s, Next(s, Send(d)), d, raw, t, looks, wait, off);
  }

  /** Another entry is put back. */
  lemma OtherPutBackTracks(s: State, d: nat, raw: string, t: nat, looks: seq<Look>, wait: int, off: int)
    requires Tracked(s, raw, t, looks, wait, off) && Enabled(s, Reschedule(d)) && !AtHead(s, d, raw)
    ensures Tracked(Next(s, Reschedule(d)), raw, t, looks, wait, off)
  {
    assert Follows(s, d, raw, t, looks, wait, off);
    OthersFollow(s, Next(s, Reschedule(d)), d, raw, t, looks, wait, off);
  }

  /** The claim that is put back was the only one. */
  lemma SoleClaim(s: State, d: nat, raw: string, t: nat, looks: seq<Look>, wait: int, off: int, e: nat, i: nat)
    requires Inv(s) && Tracked(s, raw, t, looks, wait, off) && AtHead(s, d, raw)
    requires DispatcherOf(s, e).Busy? && i < |DispatcherOf(s, e).pending| && DispatcherOf(s, e).pending[i].raw == raw
    ensures e == d && i == 0 && raw !in s.scheduled
  {
    assert DispatcherOk(s, d) && DispatcherOk(s, e);
    assert Follows(s, d, raw, t, looks, wait, off) && Follows(s, e, raw, t, looks, wait, off);
    assert At(s, t, raw, Held(d)) && At(s, t, raw, Held(e));
  }

  lemma PutBackTracks(s: State, d: nat, raw: string, t: nat, looks: seq<Look>, wait: int, off: int)
    returns (look: Look)
    requires Inv(s) && Tracked(s, raw, t, looks, wait, off) && Enabled(s, Reschedule(d)) && AtHead(s, d, raw)
    ensures Tracked(Next(s, Reschedule(d)), raw, t, looks + [look], wait, off)
  {
    var p, u := DispatcherOf(s, d), Next(s, Reschedule(d));
    assert Follows(s, d, raw, t, looks, wait, off);
    look :| SeenQuiet(p, look, wait, off);
    var more := looks + [look];
    SoleClaim(s, d, raw, t, looks, wait, off, d, 0);
    assert GoodChain(more, wait, off);
    assert InQueue(u, raw, t, more);
    forall e: nat ensures Follows(u, e, raw, t, more, wait, off) {
      NoneLeft(s, d, raw, t, looks, wait, off, e);
    }
  }

  lemma NoneLeft(s: State, d: nat, raw: string, t: nat, looks: seq<Look>, wait: int, off: int, e: nat)
    requires Inv(s) && Tracked(s, raw, t, looks, wait, off) && Enabled(s, Reschedule(d)) && AtHead(s, d, raw)
    ensures var q := DispatcherOf(Next(s, Reschedule(d)), e);
            q.Busy? ==> forall i :: 0 <= i < |q.pending| ==> q.pending[i].raw != raw
  {
    var q := DispatcherOf(Next(s, Reschedule(d)), e);
    if q.Busy? {
      forall i | 0 <= i < |q.pending| ensures q.pending[i].raw != raw {
        if DispatcherOf(s, e).pending[if e == d then i + 1 else i].raw == raw {
          SoleClaim(s, d, raw, t, looks, wait, off, e, if e == d then i + 1 else i);
        }
      }
    }
  }

  /** Steps that change neither the set nor what is pending anywhere, except that a dispatcher drops
      what it had. */
  lemma QuietStepTracks(s: State, step: Step, raw: string, t: nat, looks: seq<Look>, wait: int, off: int)
    requires Tracked(s, raw, t, looks, wait, off) && Enabled(s, step)
    requires step.Tick? || step.Begin? || step.Finish? || step.Crash? || (step.Schedule? && step.raw != raw)
    ensures Tracked(Next(s, step), raw, t, looks, wait, off)
  {
    var d := if step.Begin? || step.Finish? || step.Crash? then step.d else 0;
    assert Follows(s, d, raw, t, looks, wait, off);
    OthersFollow(s, Next(s, step), d, raw, t, looks, wait, off);
  }

  lemma AtMostTwoLooks(looks: seq<Look>, wait: int, off: int)
    requires GoodChain(looks, wait, off) && wait <= 5 * HOUR
    ensures |looks| <= 2
  {
    if |looks| >= 3 {
      var a, b, c := looks[0], looks[1], looks[2];
      assert b.score == a.now + DELAY && c.score == b.now + DELAY;
      ThreeLooks(a, b, c, off, wait);
    }
  }

  lemma StepTracks(s: State, step: Step, raw: string, t: nat, looks: seq<Look>, wait: int, off: int)
    returns (looks': seq<Look>)
    requires Inv(s) && Tracked(s, raw, t, looks, wait, off) && Enabled(s, step)
    requires step.Schedule? ==> step.raw != raw
    requires step.Examine? && AtHead(s, step.d, raw) ==> GoodLook(s, step.d, step.env, raw, wait, off)
    ensures Tracked(Next(s, step), raw, t, looks', wait, off)
    ensures |looks'| == |looks| + if step.Reschedule? && AtHead(s, step.d, raw) then 1 else 0
  {
    looks' := looks;
    match step
    case Take(d, claimed) => TakeTracks(s, d, claimed, raw, t, looks, wait, off);
    case Examine(d, env) => ExamineTracks(s, d, env, raw, t, looks, wait, off);
    case Send(d) => SendTracks(s, d, raw, t, looks, wait, off);
    case Reschedule(d) =>
      if AtHead(s, d, raw) {
        var look := PutBackTracks(s, d, raw, t, looks, wait, off);
        looks' := looks + [look];
      } else {
        OtherPutBackTracks(s, d, raw, t, looks, wait, off);
      }
    case _ => QuietStepTracks(s, step, raw, t, looks, wait, off);
  }

  lemma {:induction false} RunTracks(s: State, steps: seq<Step>, u: State, raw: string, t: nat, looks: seq<Look>,
                                     wait: int, off: int)
    requires Inv(s) && Tracked(s, raw, t, looks, wait, off) && wait <= 5 * HOUR
    requires Reaches(s, steps, u) && Watched(s, steps, raw, wait, off)
    ensures |looks| + PutBacks(s, steps, raw) <= 2
    decreases |steps|
  {
    AtMostTwoLooks(looks, wait, off);
    if steps != [] {
      StepPreservesInv(s, steps[0]);
      var looks' := StepTracks(s, steps[0], raw, t, looks, wait, off);
      RunTracks(Next(s, steps[0]), steps[1..], u, raw, t, looks', wait, off);
    }
  }

  /** Nobody holds a claim on `raw`, and it is not in the set. */
  ghost predicate NotAbout(s: State, raw: string) {
    && raw !in s.scheduled
    && forall d: nat, i :: DispatcherOf(s, d).Busy? && 0 <= i < |DispatcherOf(s, d).pending| ==>
         DispatcherOf(s, d).pending[i].raw != raw
  }

  /** In every run, whatever else goes on: an entry that is scheduled while it is not about, and not
      scheduled again, is put back at most twice, if each look at it finds it eligible and comes at
      most five hours after its score. */
  lemma AtMostTwoPutBacks(before: seq<Step>, s: State, raw: string, score: int, steps: seq<Step>, u: State,
                          wait: int, off: int)
    requires Reaches(INITIAL, before, s) && NotAbout(s, raw) && wait <= 5 * HOUR
    requires var s1 := Next(s, Schedule(raw, score));
             Reaches(s1, steps, u) && Watched(s1, steps, raw, wait, off)
    ensures PutBacks(Next(s, Schedule(raw, score)), steps, raw) <= 2
  {
    var s1 := Next(s, Schedule(raw, score));
    Reachable(before, s);
    StepPreservesInv(s, Schedule(raw, score));
    forall d: nat ensures Follows(s1, d, raw, s.issued, [], wait, off) {
      assert DispatcherOf(s1, d) == DispatcherOf(s, d);
    }
    RunTracks(s1, steps, u, raw, s.issued, [], wait, off);
  }

  // ---------------------------------------------------------------------------------------------
  // Five hours is exact
  // ---------------------------------------------------------------------------------------------

  predicate IsPutBack(s: State, step: Step, raw: string) {
    step.Reschedule? && AtHead(s, step.d, raw)
  }

  /** A run so far in which `raw` has been put back `n` times. */
  ghost predicate Run(s: State, steps: seq<Step>, t: State, raw: string, wait: int, off: int, n: nat) {
    Reaches(s, steps, t) && Watched(s, steps, raw, wait, off) && PutBacks(s, steps, raw) == n
  }

  lemma {:induction false} RunAppend(s: State, steps: seq<Step>, t: State, step: Step, raw: string, wait: int,
                                     off: int, n: nat)
    requires Run(s, steps, t, raw, wait, off, n) && Enabled(t, step)
    requires step.Schedule? ==> step.raw != raw
    requires step.Examine? && AtHead(t, step.d, raw) ==> GoodLook(t, step.d, step.env, raw, wait, off)
    ensures Run(s, steps + [step], Next(t, step), raw, wait, off, n + if IsPutBack(t, step, raw) then 1 else 0)
    decreases |steps|
  {
    if steps == [] {
      var u := Next(t, step);
      assert Reaches(u, [], u) && Watched(u, [], raw, wait, off) && PutBacks(u, [], raw) == 0;
      assert ([] + [step])[1..] == [];
    } else {
      var u := Next(s, steps[0]);
      RunAppend(u, steps[1..], t, step, raw, wait, off, PutBacks(u, steps[1..], raw));
      assert (steps + [step])[1..] == steps[1..] + [step];
    }
  }

  /** Only `raw` is in the set, and dispatcher 0 is free. */
  ghost predicate Waits(s: State, raw: string, score: int) {
    s.scheduled.Keys == {raw} && s.scheduled[raw].score == score && DispatcherOf(s, 0).Idle?
  }

  lemma ClaimsIt(s: State, raw: string, score: int)
    requires Waits(s, raw, score) && 0 <= score <= s.clock
    ensures IsClaim(Scores(s.scheduled), s.clock, [raw])
  {
    assert Due(Scores(s.scheduled), s.clock) == {raw};
  }

  /** The state in which dispatcher 0 has claimed the entry. */
  lemma ClaimRun(s: State, steps: seq<Step>, t: State, raw: string, score: int, now: int, wait: int, off: int, n: nat)
    returns (steps': seq<Step>, t': State)
    requires Run(s, steps, t, raw, wait, off, n) && Waits(t, raw, score) && 0 <= score <= now && t.clock <= now
    ensures Run(s, steps', t', raw, wait, off, n)
    ensures t'.clock == now && t'.scheduled == map[]
    ensures exists c :: DispatcherOf(t', 0) == Busy(now, [c], Fresh) && c.raw == raw && c.score == score
  {
    var t1 := Next(t, Tick(now - t.clock));
    RunAppend(s, steps, t, Tick(now - t.clock), raw, wait, off, n);
    var t2 := Next(t1, Begin(0));
    RunAppend(s, steps + [Tick(now - t.clock)], t1, Begin(0), raw, wait, off, n);
    ClaimsIt(t1, raw, score);
    t' := Next(t2, Take(0, [raw]));
    RunAppend(s, steps + [Tick(now - t.clock)] + [Begin(0)], t2, Take(0, [raw]), raw, wait, off, n);
    steps' := steps + [Tick(now - t.clock)] + [Begin(0)] + [Take(0, [raw])];
    assert DispatcherOf(t', 0).pending == [Claim(raw, score, t.scheduled[raw].ticket)];
  }

  /** One claim, one look at quiet hours, one put-back. */
  lemma DeferralRun(s: State, steps: seq<Step>, t: State, raw: string, score: int, env: Env, now: int,
                    wait: int, off: int, n: nat)
    returns (steps': seq<Step>, t': State)
    requires Run(s, steps, t, raw, wait, off, n) && Waits(t, raw, score)
    requires 0 <= score <= now <= score + wait && t.clock <= now
    requires EligibleLook(env, raw, off) && OutcomeOf(env, raw, now).Defer?
    ensures Run(s, steps', t', raw, wait, off, n + 1)
    ensures Waits(t', raw, now + DELAY) && t'.clock == now
  {
    var before, u := ClaimRun(s, steps, t, raw, score, now, wait, off, n);
    var u1 := Next(u, Examine(0, env));
    RunAppend(s, before, u, Examine(0, env), raw, wait, off, n);
    var u2 := Next(u1, Reschedule(0));
    RunAppend(s, before + [Examine(0, env)], u1, Reschedule(0), raw, wait, off, n);
    t' := Next(u2, Finish(0));
    RunAppend(s, before + [Examine(0, env)] + [Reschedule(0)], u2, Finish(0), raw, wait, off, n + 1);
    steps' := before + [Examine(0, env)] + [Reschedule(0)] + [Finish(0)];
  }

  const PHONE := "+14155550123"

  /** A world in which the entry is eligible and local time is the clock's. */
  function PlainEnv(): Env {
    Env(World({}, (o: string, p: string) => 1, (z: Zone, t: int) => 0),
        (raw: string) => Payload(Some("org"), Some(PHONE), Some("agent")),
        (org: string) => None)
  }

  lemma PlainEnvDefers(raw: string, at: int, day: int, tod: int)
    requires at == day * DAY + tod && 0 <= tod < DAY && !AllowedHours(tod)
    ensures EligibleLook(PlainEnv(), raw, 0) && OutcomeOf(PlainEnv(), raw, at).Defer?
  {
    var w := PlainEnv().world;
    assert PHONE[2..5] == "415";
    assert StateFromPhone(PHONE) == Some(CA);
    assert WorkerZone(StateFromPhone(PHONE).value) == LosAngeles && FixedOffset(w, LosAngeles, 0);
    assert at % DAY == tod;
    QuietLook(w, "org", PHONE, at, 0);
  }

  /** Twice, without any wait: due at 23:00 and seen at once, due at 7:00 and seen at once. */
  lemma TwoPutBacks(raw: string, wait: int) returns (steps: seq<Step>, u: State)
    requires wait >= 0
    ensures var s1 := Next(INITIAL, Schedule(raw, 23 * HOUR)); Run(s1, steps, u, raw, wait, 0, 2)
  {
    var s1 := Next(INITIAL, Schedule(raw, 23 * HOUR));
    assert Run(s1, [], s1, raw, wait, 0, 0);
    PlainEnvDefers(raw, 23 * HOUR, 0, 23 * HOUR);
    steps, u := DeferralRun(s1, [], s1, raw, 23 * HOUR, PlainEnv(), 23 * HOUR, wait, 0, 0);
    PlainEnvDefers(raw, 31 * HOUR, 1, 7 * HOUR);
    steps, u := DeferralRun(s1, steps, u, raw, 31 * HOUR, PlainEnv(), 31 * HOUR, wait, 0, 1);
  }

  /** If entries may wait longer than five hours, there is no end to it: due at 21:00 and seen at once,
      then day after day due at 5:00 and seen just before 8:00, due just before 16:00 and seen at 21:00. */
  lemma {:induction false} AnyNumberOfPutBacks(raw: string, wait: int, days: nat) returns (steps: seq<Step>, u: State)
    requires wait > 5 * HOUR
    ensures var s1 := Next(INITIAL, Schedule(raw, 21 * HOUR)); Run(s1, steps, u, raw, wait, 0, 2 * days + 1)
    ensures u.clock == days * DAY + 21 * HOUR && Waits(u, raw, (days + 1) * DAY + 5 * HOUR)
  {
    var s1 := Next(INITIAL, Schedule(raw, 21 * HOUR));
    if days == 0 {
      assert Run(s1, [], s1, raw, wait, 0, 0);
      PlainEnvDefers(raw, 21 * HOUR, 0, 21 * HOUR);
      steps, u := DeferralRun(s1, [], s1, raw, 21 * HOUR, PlainEnv(), 21 * HOUR, wait, 0, 0);
    } else {
      steps, u := AnyNumberOfPutBacks(raw, wait, days - 1);
      steps, u := OneMoreDay(s1, steps, u, raw, wait, days, 2 * days - 1);
    }
  }

  lemma OneMoreDay(s: State, before: seq<Step>, t: State, raw: string, wait: int, day: int, n: nat)
    returns (steps: seq<Step>, u: State)
    requires wait > 5 * HOUR && day > 0 && Run(s, before, t, raw, wait, 0, n)
    requires t.clock <= day * DAY + 5 * HOUR && Waits(t, raw, day * DAY + 5 * HOUR)
    ensures Run(s, steps, u, raw, wait, 0, n + 2)
    ensures u.clock == day * DAY + 21 * HOUR && Waits(u, raw, (day + 1) * DAY + 5 * HOUR)
  {
    var start := day * DAY;
    PlainEnvDefers(raw, start + 8 * HOUR - 1, day, 8 * HOUR - 1);
    steps, u := DeferralRun(s, before, t, raw, start + 5 * HOUR, PlainEnv(), start + 8 * HOUR - 1, wait, 0, n);
    PlainEnvDefers(raw, start + 21 * HOUR, day, 21 * HOUR);
    steps, u := DeferralRun(s, steps, u, raw, start + 16 * HOUR - 1, PlainEnv(), start + 21 * HOUR, wait, 0, n + 1);
  }

  /** One scheduling from `s` on is put back at most `n` times. */
  ghost predicate SufficesFrom(n: nat, s: State, raw: string, score: int, wait: int) {
    var s1 := Next(s, Schedule(raw, score));
    forall steps, u, off: int ::
      Reaches(s1, steps, u) && Watched(s1, steps, raw, wait, off) ==> PutBacks(s1, steps, raw) <= n
  }

  /** In every run, a scheduling of an entry that is not about is put back at most `n` times. */
  ghost predicate Suffices(n: nat, wait: int) {
    forall before, s, raw, score: int ::
      Reaches(INITIAL, before, s) && NotAbout(s, raw) ==> SufficesFrom(n, s, raw, score, wait)
  }

  lemma MorePutBacks(n: nat, wait: int) returns (score: int)
    requires wait >= 0 && (n < 2 || wait > 5 * HOUR)
    ensures !SufficesFrom(n, INITIAL, "entry", score, wait)
  {
    var steps, u;
    if wait > 5 * HOUR {
      score := 21 * HOUR;
      steps, u := AnyNumberOfPutBacks("entry", wait, n);
    } else {
      score := 23 * HOUR;
      steps, u := TwoPutBacks("entry", wait);
    }
    assert PutBacks(Next(INITIAL, Schedule("entry", score)), steps, "entry") > n;
  }

  /** Over all runs of the machine, `n` deferrals suffice exactly if n is at least two and entries wait at
      most five hours; beyond that no number does. */
  lemma DeferralBoundIsExact(n: nat, wait: int)
    requires wait >= 0
    ensures Suffices(n, wait) <==> n >= 2 && wait <= 5 * HOUR
  {
    if n >= 2 && wait <= 5 * HOUR {
      forall before, s, raw, score: int | Reaches(INITIAL, before, s) && NotAbout(s, raw)
        ensures SufficesFrom(n, s, raw, score, wait)
      {
        var s1 := Next(s, Schedule(raw, score));
        forall steps, u, off: int | Reaches(s1, steps, u) && Watched(s1, steps, raw, wait, off)
          ensures PutBacks(s1, steps, raw) <= n
        {
          AtMostTwoPutBacks(before, s, raw, score, steps, u, wait, off);
        }
      }
    } else {
      var score := MorePutBacks(n, wait);
      assert Reaches(INITIAL, [], INITIAL) && NotAbout(INITIAL, "entry");
    }
  }
}
