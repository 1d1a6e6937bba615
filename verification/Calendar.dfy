/** The slot finder and the booking of apps/api/app/integrations/google_calendar.py. An instant is a
    number of microseconds of the clock that the caller's UTC offset keeps, counted from a midnight. */
module Calendar {
  import opened Basics

  const STEP := 30 * MINUTE

  /** A busy range, or a slot. */
  datatype Range = Range(start: int, end: int)

  predicate Holds(r: Range, t: int) {
    r.start <= t < r.end
  }

  ghost predicate ShareAnInstant(a: Range, b: Range) {
    exists t :: Holds(a, t) && Holds(b, t)
  }

  /** The loop's test of one busy range. */
  predicate Clashes(b: Range, slot: Range) {
    b.start < slot.end && b.end > slot.start
  }

  predicate Clash(busy: seq<Range>, slot: Range) {
    exists b :: b in busy && Clashes(b, slot)
  }

  function HourOf(t: int): int {
    t / HOUR % 24
  }

  predicate HourTest(slot: Range) {
    HourOf(slot.start) >= 8 && HourOf(slot.end) <= 18
  }

  predicate Open(busy: seq<Range>, slot: Range) {
    !Clash(busy, slot) && HourTest(slot)
  }

  function Grid(start: int, k: nat): int {
    start + k * STEP
  }

  function Slot(start: int, duration: int): Range {
    Range(start, start + duration * MINUTE)
  }

  // ---------------------------------------------------------------------------------------------
  // What the loop finds
  // ---------------------------------------------------------------------------------------------

  /** A point of the half-hour grid that fits the window and passes both tests. */
  ghost predicate Acceptable(start: int, end: int, duration: int, busy: seq<Range>, k: nat) {
    var slot := Slot(Grid(start, k), duration);
    slot.end <= end && Open(busy, slot)
  }

  ghost predicate Increasing(slots: seq<int>) {
    forall i, j :: 0 <= i < j < |slots| ==> slots[i] < slots[j]
  }

  ghost predicate OnlyAcceptable(start: int, end: int, duration: int, busy: seq<Range>, slots: seq<int>) {
    forall s :: s in slots ==> exists k: nat :: s == Grid(start, k) && Acceptable(start, end, duration, busy, k)
  }

  /** No acceptable point is passed over: one that is missing comes after five others. */
  ghost predicate NonePassedOver(start: int, end: int, duration: int, busy: seq<Range>, slots: seq<int>) {
    forall k: nat :: Acceptable(start, end, duration, busy, k) ==>
      Grid(start, k) in slots || (|slots| == 5 && slots[4] < Grid(start, k))
  }

  /** `slots` are the first five acceptable grid points, or all of them if there are fewer. */
  ghost predicate FirstFive(start: int, end: int, duration: int, busy: seq<Range>, slots: seq<int>) {
    && |slots| <= 5 && Increasing(slots)
    && OnlyAcceptable(start, end, duration, busy, slots)
    && NonePassedOver(start, end, duration, busy, slots)
  }

  /** The demonstration slots of an organisation without a calendar. */
  function Fallback(start: int): seq<int> {
    var seed := start - start % HOUR + 2 * HOUR;
    [seed, seed + 3 * HOUR, seed + 26 * HOUR, seed + 29 * HOUR, seed + 50 * HOUR]
  }

  /** All of the first `k` grid points that are acceptable, and no more. */
  ghost predicate Scanned(start: int, end: int, duration: int, busy: seq<Range>, k: nat, slots: seq<int>) {
    && Increasing(slots) && OnlyAcceptable(start, end, duration, busy, slots)
    && (forall s :: s in slots ==> s < Grid(start, k))
    && forall j: nat :: j < k && Acceptable(start, end, duration, busy, j) ==> Grid(start, j) in slots
  }

  lemma ScanOne(start: int, end: int, duration: int, busy: seq<Range>, k: nat, slots: seq<int>)
    requires Scanned(start, end, duration, busy, k, slots)
    ensures Scanned(start, end, duration, busy, k + 1,
                    if Acceptable(start, end, duration, busy, k) then slots + [Grid(start, k)] else slots)
  {
    var here := Grid(start, k);
    var more := slots + if Acceptable(start, end, duration, busy, k) then [here] else [];
    assert Grid(start, k + 1) == here + STEP;
    forall s | s in more
      ensures s < Grid(start, k + 1)
      ensures exists j: nat :: s == Grid(start, j) && Acceptable(start, end, duration, busy, j)
    {
      assert s in slots || s == here;
    }
    forall j: nat | j < k + 1 && Acceptable(start, end, duration, busy, j) ensures Grid(start, j) in more {
      if j < k {
        assert Grid(start, j) in slots;
      }
    }
    forall i, j | 0 <= i < j < |more| ensures more[i] < more[j] {
      assert more[i] in slots;
    }
    assert OnlyAcceptable(start, end, duration, busy, more);
    assert more == if Acceptable(start, end, duration, busy, k) then slots + [here] else slots;
  }

  lemma ScanEnds(start: int, end: int, duration: int, busy: seq<Range>, k: nat, slots: seq<int>)
    requires Scanned(start, end, duration, busy, k, slots) && |slots| <= 5
    requires |slots| == 5 || Slot(Grid(start, k), duration).end > end
    ensures FirstFive(start, end, duration, busy, slots)
  {
    assert |slots| == 5 ==> slots[4] in slots;
    forall j: nat | Acceptable(start, end, duration, busy, j)
      ensures Grid(start, j) in slots || (|slots| == 5 && slots[4] < Grid(start, j))
    {
      assert Slot(Grid(start, j), duration).end <= end;
      assert j < k || Grid(start, k) <= Grid(start, j);
    }
  }

  // ---------------------------------------------------------------------------------------------
  // The same, in instants
  // ---------------------------------------------------------------------------------------------

  /** `hour` o'clock and less than an hour later, on some day. */
  ghost predicate InHour(t: int, hour: int) {
    exists day: int :: (day * 24 + hour) * 3_600_000_000 <= t < (day * 24 + hour + 1) * 3_600_000_000
  }

  /** It begins from the 8th hour of a day on and ends before the 19th hour of one has passed. */
  ghost predicate WithinHours(slot: Range) {
    (exists h :: 8 <= h < 24 && InHour(slot.start, h)) && (exists h :: 0 <= h <= 18 && InHour(slot.end, h))
  }

  /** What may be offered: a point of the half-hour grid from `start` on, whose slot ends by `end`, is
      within the hours, and shares no instant with a listed range. */
  ghost predicate MayOffer(start: int, end: int, duration: int, listed: seq<Range>, k: int, s: int) {
    var slot := Range(s, s + duration * 60_000_000);
    && k >= 0 && s == start + k * 1_800_000_000 && slot.end <= end && WithinHours(slot)
    && forall l :: l in listed ==> !ShareAnInstant(l, slot)
  }

  /** The first five that may be offered, in order, or all of them if there are fewer. */
  ghost predicate OffersFirstFive(start: int, end: int, duration: int, listed: seq<Range>, slots: seq<int>) {
    && |slots| <= 5 && (forall i, j :: 0 <= i < j < |slots| ==> slots[i] < slots[j])
    && (forall s :: s in slots ==> exists k :: MayOffer(start, end, duration, listed, k, s))
    && forall k, s :: MayOffer(start, end, duration, listed, k, s) ==> s in slots || (|slots| == 5 && slots[4] < s)
  }

  ghost predicate NoneEmpty(listed: seq<Range>) {
    forall l :: l in listed ==> l.start < l.end
  }

  /** For ranges that are not empty, the loop's test says whether some listed range shares an instant. */
  lemma ClashMeansShare(listed: seq<Range>, slot: Range)
    requires NoneEmpty(listed) && slot.start < slot.end
    ensures Clash(listed, slot) <==> exists l :: l in listed && ShareAnInstant(l, slot)
  {
    forall l | l in listed ensures Clashes(l, slot) <==> ShareAnInstant(l, slot) {
      ClashesMeansShare(l, slot);
    }
  }

  lemma InHourIs(t: int, hour: int)
    requires 0 <= hour < 24
    ensures InHour(t, hour) <==> HourOf(t) == hour
  {
    HourOfIs(t);
    if HourOf(t) == hour {
      var day := t / DAY;
      assert (day * 24 + hour) * 3_600_000_000 <= t < (day * 24 + hour + 1) * 3_600_000_000;
    }
    if InHour(t, hour) {
      var day: int :| (day * 24 + hour) * 3_600_000_000 <= t < (day * 24 + hour + 1) * 3_600_000_000;
      DayOfIs(t, day);
    }
  }

  lemma HoursMeanHourTest(slot: Range)
    ensures HourTest(slot) <==> WithinHours(slot)
  {
    InHourIs(slot.start, HourOf(slot.start));
    InHourIs(slot.end, HourOf(slot.end));
    forall h | 0 <= h < 24 ensures InHour(slot.start, h) <==> HourOf(slot.start) == h {
      InHourIs(slot.start, h);
    }
    forall h | 0 <= h < 24 ensures InHour(slot.end, h) <==> HourOf(slot.end) == h {
      InHourIs(slot.end, h);
    }
  }

  lemma AcceptableMeansMayOffer(start: int, end: int, duration: int, listed: seq<Range>, k: nat)
    requires NoneEmpty(listed) && duration > 0
    ensures Acceptable(start, end, duration, listed, k) <==>
            MayOffer(start, end, duration, listed, k, start + k * 1_800_000_000)
  {
    var slot := Slot(Grid(start, k), duration);
    ClashMeansShare(listed, slot);
    HoursMeanHourTest(slot);
    assert Grid(start, k) == start + k * 1_800_000_000 && slot.end == slot.start + duration * 60_000_000;
  }

  lemma FirstFiveAreOffered(start: int, end: int, duration: int, listed: seq<Range>, slots: seq<int>)
    requires NoneEmpty(listed) && duration > 0 && FirstFive(start, end, duration, listed, slots)
    ensures OffersFirstFive(start, end, duration, listed, slots)
  {
    forall s | s in slots ensures exists k :: MayOffer(start, end, duration, listed, k, s) {
      var k: nat :| s == Grid(start, k) && Acceptable(start, end, duration, listed, k);
      AcceptableMeansMayOffer(start, end, duration, listed, k);
    }
    forall k, s | MayOffer(start, end, duration, listed, k, s)
      ensures s in slots || (|slots| == 5 && slots[4] < s)
    {
      AcceptableMeansMayOffer(start, end, duration, listed, k);
      assert s == Grid(start, k);
    }
  }

  /** The demonstration slots: hours 0, 3, 26, 29 and 50 from a full hour that lies more than one hour, and
      at most two, after `start`. */
  ghost predicate Demonstration(start: int, slots: seq<int>) {
    && |slots| == 5 && (exists hour: int :: slots[0] == hour * 3_600_000_000)
    && start + 3_600_000_000 < slots[0] <= start + 7_200_000_000
    && slots[1] - slots[0] == 3 * 3_600_000_000 && slots[2] - slots[0] == 26 * 3_600_000_000
    && slots[3] - slots[0] == 29 * 3_600_000_000 && slots[4] - slots[0] == 50 * 3_600_000_000
  }

  lemma FallbackIsDemonstration(start: int)
    ensures Demonstration(start, Fallback(start))
  {
    var hour := start / HOUR + 2;
    assert Fallback(start)[0] == hour * 3_600_000_000;
  }

  class GoogleCalendar {
    var connected: bool
    var busy: seq<Range>

    constructor (connected: bool, busy: seq<Range>)
      ensures this.connected == connected && this.busy == busy
    {
      this.connected, this.busy := connected, busy;
    }

    /** `listed` is the answer of the freeBusy query. */
    method Availability(start: int, end: int, duration: int, listed: seq<Range>) returns (slots: seq<int>)
      ensures connected ==> FirstFive(start, end, duration, listed, slots)
      ensures connected && NoneEmpty(listed) && duration > 0 ==> OffersFirstFive(start, end, duration, listed, slots)
      ensures !connected ==> Demonstration(start, slots)
    {
      if !connected {
        FallbackIsDemonstration(start);
        return Fallback(start);
      }
      slots := [];
      var cur := start;
      ghost var k: nat := 0;
      while cur + duration * MINUTE <= end && |slots| < 5
        invariant cur == Grid(start, k) && |slots| <= 5
        invariant Scanned(start, end, duration, listed, k, slots)
        decreases end - cur - duration * MINUTE
      {
        ScanOne(start, end, duration, listed, k, slots);
        if Open(listed, Slot(cur, duration)) {
          slots := slots + [cur];
        }
        cur := cur + STEP;
        k := k + 1;
      }
      ScanEnds(start, end, duration, listed, k, slots);
      if NoneEmpty(listed) && duration > 0 {
        FirstFiveAreOffered(start, end, duration, listed, slots);
      }
    }

    method Book(startAt: int, duration: int) returns (booked: bool)
      modifies this
      ensures connected == old(connected) == booked
      ensures busy == if booked then old(busy) + [Slot(startAt, duration)] else old(busy)
    {
      if !connected {
        return false;
      }
      busy := busy + [Slot(startAt, duration)];
      return true;
    }

    /** A caller asks for slots and books one of them, with nobody else booking in between. */
    method BookOneOffered(start: int, end: int, duration: int, listed: seq<Range>, choice: nat)
      returns (booked: bool)
      requires Truthful(busy, start, end, listed)
      modifies this
      ensures connected == old(connected) && (!booked ==> busy == old(busy))
      ensures Disjoint(old(busy)) ==> Disjoint(busy)
      ensures booked ==> |busy| == |old(busy)| + 1 && busy[..|old(busy)|] == old(busy)
    {
      var slots := Availability(start, end, duration, listed);
      booked := false;
      if choice < |slots| {
        ghost var was := busy;
        booked := Book(slots[choice], duration);
        if booked {
          OfferedIsFree(was, start, end, duration, listed, slots, slots[choice]);
          AddKeepsDisjoint(was, Slot(slots[choice], duration));
        }
      }
    }
  }

  lemma SameUpTo(a: seq<int>, b: seq<int>, n: nat, j: nat)
    requires j < n <= |a| && n <= |b| && a[..n] == b[..n]
    ensures a[j] == b[j]
  {
    assert a[..n][j] == b[..n][j];
  }

  /** What is in one answer and not in another comes after five others there. */
  lemma MissingComesLater(start: int, end: int, duration: int, busy: seq<Range>, a: seq<int>, b: seq<int>, s: int)
    requires FirstFive(start, end, duration, busy, a) && FirstFive(start, end, duration, busy, b)
    requires s in b
    ensures s in a || (|a| == 5 && a[4] < s)
  {
  }

  /** After a common prefix, the next slot of `b` cannot come before that of `a`, and there is one of
      `a` if there is one of `b`. */
  lemma NotBefore(start: int, end: int, duration: int, busy: seq<Range>, a: seq<int>, b: seq<int>, i: nat)
    requires FirstFive(start, end, duration, busy, a) && FirstFive(start, end, duration, busy, b)
    requires i <= |a| && i < |b| && a[..i] == b[..i]
    ensures i < |a| && a[i] <= b[i]
  {
    forall j | 0 <= j < i ensures a[j] < b[i] {
      SameUpTo(a, b, i, j);
    }
    MissingComesLater(start, end, duration, busy, a, b, b[i]);
  }

  lemma {:induction false} SamePrefix(start: int, end: int, duration: int, busy: seq<Range>, a: seq<int>, b: seq<int>,
                                      n: nat)
    requires FirstFive(start, end, duration, busy, a) && FirstFive(start, end, duration, busy, b)
    requires n <= |a| && n <= |b|
    ensures a[..n] == b[..n]
  {
    if n > 0 {
      SamePrefix(start, end, duration, busy, a, b, n - 1);
      NotBefore(start, end, duration, busy, a, b, n - 1);
      NotBefore(start, end, duration, busy, b, a, n - 1);
      assert a[..n] == a[..n - 1] + [a[n - 1]] && b[..n] == b[..n - 1] + [b[n - 1]];
    }
  }

  /** The answer is determined. */
  lemma FirstFiveIsUnique(start: int, end: int, duration: int, busy: seq<Range>, a: seq<int>, b: seq<int>)
    requires FirstFive(start, end, duration, busy, a) && FirstFive(start, end, duration, busy, b)
    ensures a == b
  {
    var n := if |a| < |b| then |a| else |b|;
    SamePrefix(start, end, duration, busy, a, b, n);
    if n < |b| {
      NotBefore(start, end, duration, busy, a, b, n);
    }
    if n < |a| {
      NotBefore(start, end, duration, busy, b, a, n);
    }
    assert a == a[..n] && b == b[..n];
  }

  // ---------------------------------------------------------------------------------------------
  // Offered slots are free
  // ---------------------------------------------------------------------------------------------

  /** For ranges that are not empty the clash test says whether they share an instant. */
  lemma ClashesMeansShare(b: Range, slot: Range)
    ensures ShareAnInstant(b, slot) ==> Clashes(b, slot)
    ensures b.start < b.end && slot.start < slot.end ==> (Clashes(b, slot) <==> ShareAnInstant(b, slot))
  {
    if Clashes(b, slot) && b.start < b.end && slot.start < slot.end {
      var t := if b.start < slot.start then slot.start else b.start;
      assert Holds(b, t) && Holds(slot, t);
    }
  }

  /** What the freeBusy query promises: every busy instant of the window is in a listed range. The
      ranges may be clipped or merged. */
  ghost predicate Truthful(busy: seq<Range>, start: int, end: int, listed: seq<Range>) {
    forall b, t :: b in busy && Holds(b, t) && start <= t < end ==> exists l :: l in listed && Holds(l, t)
  }

  ghost predicate Free(busy: seq<Range>, slot: Range) {
    forall b :: b in busy ==> !ShareAnInstant(b, slot)
  }

  ghost predicate Disjoint(busy: seq<Range>) {
    forall i, j :: 0 <= i < j < |busy| ==> !ShareAnInstant(busy[i], busy[j])
  }

  lemma SharingClashes(busy: seq<Range>, start: int, end: int, listed: seq<Range>, slot: Range)
    requires Truthful(busy, start, end, listed) && start <= slot.start && slot.end <= end
    ensures !Free(busy, slot) ==> Clash(listed, slot)
  {
    if !Free(busy, slot) {
      var b :| b in busy && ShareAnInstant(b, slot);
      var t :| Holds(b, t) && Holds(slot, t);
      assert start <= t < end;
      var l :| l in listed && Holds(l, t);
      assert Clashes(l, slot);
    }
  }

  lemma OfferedIsFree(busy: seq<Range>, start: int, end: int, duration: int, listed: seq<Range>, slots: seq<int>,
                      s: int)
    requires Truthful(busy, start, end, listed)
    requires FirstFive(start, end, duration, listed, slots) && s in slots
    ensures Free(busy, Slot(s, duration))
  {
    var k: nat :| s == Grid(start, k) && Acceptable(start, end, duration, listed, k);
    SharingClashes(busy, start, end, listed, Slot(s, duration));
  }

  /** A calendar is disjoint with one range more exactly when it was and the range is free. */
  lemma AddKeepsDisjoint(busy: seq<Range>, slot: Range)
    ensures Disjoint(busy + [slot]) <==> Disjoint(busy) && Free(busy, slot)
  {
    var more := busy + [slot];
    if Disjoint(more) {
      forall i, j | 0 <= i < j < |busy| ensures !ShareAnInstant(busy[i], busy[j]) {
        assert !ShareAnInstant(more[i], more[j]);
      }
      forall b | b in busy ensures !ShareAnInstant(b, slot) {
        var i :| 0 <= i < |busy| && busy[i] == b;
        assert !ShareAnInstant(more[i], more[|busy|]);
      }
    }
  }

  /** A round of a caller: what was asked, what the query answered, and the slot that was booked. */
  datatype Round = Round(start: int, end: int, duration: int, listed: seq<Range>, slots: seq<int>, chosen: int)

  ghost predicate RoundOn(busy: seq<Range>, r: Round) {
    && Truthful(busy, r.start, r.end, r.listed)
    && FirstFive(r.start, r.end, r.duration, r.listed, r.slots) && r.chosen in r.slots
  }

  /** The rounds run one after the other and leave `after`. */
  ghost predicate Rounds(before: seq<Range>, rounds: seq<Round>, after: seq<Range>)
    decreases |rounds|
  {
    if rounds == [] then before == after
    else
      && RoundOn(before, rounds[0])
      && Rounds(before + [Slot(rounds[0].chosen, rounds[0].duration)], rounds[1..], after)
  }

  /** However often slots are asked for and one of them is booked, busy ranges stay pairwise disjoint. */
  lemma {:induction false} NoDoubleBooking(before: seq<Range>, rounds: seq<Round>, after: seq<Range>)
    requires Disjoint(before) && Rounds(before, rounds, after)
    ensures Disjoint(after)
    decreases |rounds|
  {
    if rounds != [] {
      var r := rounds[0];
      OfferedIsFree(before, r.start, r.end, r.duration, r.listed, r.slots, r.chosen);
      AddKeepsDisjoint(before, Slot(r.chosen, r.duration));
      NoDoubleBooking(before + [Slot(r.chosen, r.duration)], rounds[1..], after);
    }
  }

  /** When others have booked `since` the query was answered, the booking is safe exactly when the
      slot is free of what they booked. */
  lemma StaleOfferIsSafeIff(before: seq<Range>, since: seq<Range>, r: Round)
    requires RoundOn(before, r) && Disjoint(before + since)
    ensures Disjoint(before + since + [Slot(r.chosen, r.duration)]) <==> Free(since, Slot(r.chosen, r.duration))
  {
    var slot := Slot(r.chosen, r.duration);
    OfferedIsFree(before, r.start, r.end, r.duration, r.listed, r.slots, r.chosen);
    AddKeepsDisjoint(before + since, slot);
    assert Free(before + since, slot) <==> Free(before, slot) && Free(since, slot) by {
      assert forall b :: b in before + since <==> b in before || b in since;
    }
  }

  /** Two callers are offered nine o'clock; both book it. */
  lemma StaleOfferDoubleBooks()
    ensures var r := Round(9 * HOUR, 10 * HOUR, 60, [], [9 * HOUR], 9 * HOUR);
            var slot := Slot(r.chosen, r.duration);
            RoundOn([], r) && Disjoint([] + [slot]) && !Disjoint([] + [slot] + [slot])
  {
    var r := Round(9 * HOUR, 10 * HOUR, 60, [], [9 * HOUR], 9 * HOUR);
    var slot := Slot(9 * HOUR, 60);
    assert Grid(9 * HOUR, 0) == 9 * HOUR;
    assert Acceptable(9 * HOUR, 10 * HOUR, 60, [], 0);
    assert RoundOn([], r);
    StaleOfferIsSafeIff([], [slot], r);
    assert Holds(slot, 9 * HOUR);
    assert slot in [slot];
  }

  // ---------------------------------------------------------------------------------------------
  // Business hours
  // ---------------------------------------------------------------------------------------------

  /** The slot lies between 8:00 and 19:00 of one day. */
  ghost predicate WithinBusinessHours(slot: Range) {
    exists day: int :: day * DAY + 8 * HOUR <= slot.start && slot.end < day * DAY + 19 * HOUR
  }

  lemma HourOfIs(t: int)
    ensures var d := t / DAY; d * DAY + HourOf(t) * HOUR <= t < d * DAY + (HourOf(t) + 1) * HOUR
  {
    assert t / HOUR / 24 == t / DAY;
  }

  lemma DayOfIs(t: int, day: int)
    requires day * DAY <= t < (day + 1) * DAY
    ensures t / DAY == day
  {
  }

  lemma BusinessHoursPassTheTest(slot: Range, day: int)
    requires slot.start <= slot.end && day * DAY + 8 * HOUR <= slot.start && slot.end < day * DAY + 19 * HOUR
    ensures HourTest(slot) && slot.start / DAY == day == slot.end / DAY
  {
    DayOfIs(slot.start, day);
    DayOfIs(slot.end, day);
    HourOfIs(slot.start);
    HourOfIs(slot.end);
  }

  /** The hour test looks at the two hours alone: a slot is within business hours exactly when it
      passes and does not end on another day. */
  lemma HourTestIs(slot: Range)
    requires slot.start <= slot.end
    ensures WithinBusinessHours(slot) <==> HourTest(slot) && slot.start / DAY == slot.end / DAY
  {
    HourOfIs(slot.start);
    HourOfIs(slot.end);
    if WithinBusinessHours(slot) {
      var day: int :| day * DAY + 8 * HOUR <= slot.start && slot.end < day * DAY + 19 * HOUR;
      BusinessHoursPassTheTest(slot, day);
    }
    if HourTest(slot) && slot.start / DAY == slot.end / DAY {
      var day := slot.start / DAY;
      assert day * DAY + 8 * HOUR <= slot.start && slot.end < day * DAY + 19 * HOUR;
    }
  }

  /** An evening of five hours, 20:00 to 01:00, is offered. */
  lemma OvernightSlotIsOffered()
    ensures FirstFive(20 * HOUR, 25 * HOUR, 300, [], [20 * HOUR])
    ensures !WithinBusinessHours(Slot(20 * HOUR, 300))
  {
    HourTestIs(Slot(20 * HOUR, 300));
    assert Grid(20 * HOUR, 0) == 20 * HOUR;
    assert Acceptable(20 * HOUR, 25 * HOUR, 300, [], 0);
  }
}
