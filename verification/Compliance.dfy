/** The rules for dialling: the gate of apps/api/app/services/compliance.py and its copy in
    apps/worker/vocalflow_worker/tasks/callbacks.py. */
module Compliance {

  import opened Basics

  datatype UsState = CA | WA | NY | FL | MA | PA | NH | CT | DE | MD | MI | IL | TX | MT | NV

  datatype Zone = LosAngeles | NewYork | Detroit | Chicago | Denver

  /** STATE_TIMEZONE of the API. */
  function ApiZone(s: UsState): Zone {
    match s
    case CA => LosAngeles case WA => LosAngeles
    case NY => NewYork case FL => NewYork case MA => NewYork case PA => NewYork
    case NH => NewYork case CT => NewYork case DE => NewYork case MD => NewYork
    case MI => Detroit
    case IL => Chicago case TX => Chicago
    case MT => Denver
    case NV => LosAngeles
  }

  /** _STATE_TZ of the worker, a copy kept by hand. */
  function WorkerZone(s: UsState): Zone {
    match s
    case CA => LosAngeles case WA => LosAngeles
    case NY => NewYork case FL => NewYork case MA => NewYork case PA => NewYork
    case NH => NewYork case CT => NewYork case DE => NewYork case MD => NewYork
    case MI => Detroit
    case IL => Chicago case TX => Chicago
    case MT => Denver
    case NV => LosAngeles
  }

  /** AREA_CODE_STATE of the API. */
  function ApiAreaState(npa: nat): Option<UsState> {
    if npa in {213, 310, 415, 510, 619, 650, 707, 714, 747, 805, 818, 831, 858, 909, 916, 925,
               949} then Some(CA)
    else if npa in {212, 315, 347, 516, 585, 607, 631, 646, 716, 718, 845, 914, 917, 929} then Some(NY)
    else if npa in {210, 214, 254, 281, 325, 346, 361, 409, 430, 432, 469, 512, 713, 806, 817, 830, 903, 915,
               936, 940, 956, 972, 979} then Some(TX)
    else if npa in {239, 305, 321, 352, 386, 407, 561, 727, 754, 772, 786, 813, 850, 863, 904, 941,
               954} then Some(FL)
    else if npa in {217, 224, 309, 312, 331, 618, 630, 708, 773, 779, 815, 847, 872} then Some(IL)
    else if npa in {339, 351, 413, 508, 617, 774, 781, 857, 978} then Some(MA)
    else if npa in {206, 253, 360, 425, 509, 564} then Some(WA)
    else if npa in {215, 267, 412, 484, 570, 610, 717, 724, 814, 878} then Some(PA)
    else None
  }

  /** _NPA_STATE of the worker, a copy kept by hand. */
  function WorkerAreaState(npa: nat): Option<UsState> {
    if npa in {213, 310, 415, 510, 619, 650, 707, 714, 747, 805, 818, 831, 858, 909, 916, 925,
               949} then Some(CA)
    else if npa in {212, 315, 347, 516, 585, 607, 631, 646, 716, 718, 845, 914, 917, 929} then Some(NY)
    else if npa in {210, 214, 254, 281, 346, 361, 409, 430, 432, 469, 512, 713, 806, 817, 830, 903, 915, 936,
               940, 956, 972, 979} then Some(TX)
    else if npa in {239, 305, 321, 352, 386, 407, 561, 727, 754, 772, 786, 813, 850, 863, 904, 941,
               954} then Some(FL)
    else if npa in {217, 224, 309, 312, 331, 618, 630, 708, 773, 779, 815, 847, 872} then Some(IL)
    else if npa in {339, 351, 413, 508, 617, 774, 781, 857, 978} then Some(MA)
    else if npa in {206, 253, 360, 425, 509, 564} then Some(WA)
    else if npa in {215, 267, 412, 484, 570, 610, 717, 724, 814, 878} then Some(PA)
    else None
  }

  /** The two tables agree except for one area code that only the API knows. */
  lemma TablesDifferAt325(npa: nat)
    ensures WorkerAreaState(npa) == if npa == 325 then None else ApiAreaState(npa)
    ensures ApiAreaState(325) == Some(TX)
  {
  }

  // ---------------------------------------------------------------------------------------------
  // Phone numbers
  // ---------------------------------------------------------------------------------------------

  predicate IsDigit(c: char) {
    '0' <= c <= '9'
  }

  /** The dictionary key that a three-character string stands for; no key has other characters. */
  function AreaCode(s: string): Option<nat>
    requires |s| == 3
  {
    if IsDigit(s[0]) && IsDigit(s[1]) && IsDigit(s[2])
    then Some((s[0] - '0') as nat * 100 + (s[1] - '0') as nat * 10 + (s[2] - '0') as nat)
    else None
  }

  function Figure(d: nat): char
    requires d < 10
  {
    "0123456789"[d]
  }

  /** A number below 1000 in three figures. */
  function Figures(n: nat): string
    requires n < 1000
  {
    [Figure(n / 100), Figure(n / 10 % 10), Figure(n % 10)]
  }

  lemma FigureIs(d: nat, c: char)
    requires d < 10
    ensures c == Figure(d) <==> IsDigit(c) && (c - '0') as int == d
  {
    var s := "0123456789";
    assert s[0] == '0' && s[1] == '1' && s[2] == '2' && s[3] == '3' && s[4] == '4';
    assert s[5] == '5' && s[6] == '6' && s[7] == '7' && s[8] == '8' && s[9] == '9';
  }

  lemma DigitsOf(a: nat, b: nat, c: nat, n: nat)
    requires a < 10 && b < 10 && c < 10 && n < 1000
    ensures n == a * 100 + b * 10 + c <==> a == n / 100 && b == n / 10 % 10 && c == n % 10
  {
    if n == a * 100 + b * 10 + c {
      assert n / 10 == a * 10 + b;
    }
  }

  /** Three characters are read as the number that they spell, and as none if they spell none. */
  lemma AreaCodeReads(s: string, n: nat)
    requires |s| == 3 && n < 1000
    ensures AreaCode(s) == Some(n) <==> s == Figures(n)
  {
    FigureIs(n / 100, s[0]);
    FigureIs(n / 10 % 10, s[1]);
    FigureIs(n % 10, s[2]);
    if IsDigit(s[0]) && IsDigit(s[1]) && IsDigit(s[2]) {
      DigitsOf((s[0] - '0') as nat, (s[1] - '0') as nat, (s[2] - '0') as nat, n);
    }
    assert s == [s[0], s[1], s[2]];
  }

  /** What the phone-number library makes of a string. */
  datatype Parsed = Unparsable | Number(e164: string, country: string, national: string)

  /** A US or Canadian number in E.164 form, which the library leaves as it is. */
  predicate Normalised(parse: string -> Parsed, phone: string) {
    && |phone| == 12 && phone[..2] == "+1"
    && (forall i :: 2 <= i < 12 ==> IsDigit(phone[i]))
    && (parse(phone) == Number(phone, "US", phone[2..]) || parse(phone) == Number(phone, "CA", phone[2..]))
  }

  // ---------------------------------------------------------------------------------------------
  // The gates
  // ---------------------------------------------------------------------------------------------

  /** The databases and the time zones. `consents` counts the active call-consent records of an
      organisation for a number; nothing in the schema keeps that at one. `offset` is the UTC offset
      of a zone at an instant. */
  datatype World = World(dnc: set<string>, consents: (string, string) -> nat, offset: (Zone, int) -> int)

  function TimeOfDay(w: World, z: Zone, now: int): int {
    (now + w.offset(z, now)) % DAY
  }

  /** 08:00 <= local < 21:00 */
  predicate AllowedHours(tod: int) {
    8 * HOUR <= tod < 21 * HOUR
  }

  datatype Verdict = Allowed | Dnc | NoConsent | QuietHours | Raised

  /** `_state_from_phone` */
  function StateFromPhone(phone: string): Option<UsState> {
    if phone == "" || !("+1" <= phone && |phone| >= 5) then None
    else match AreaCode(phone[2..5])
         case Some(npa) => WorkerAreaState(npa)
         case None => None
  }

  /** The worker knows a state for exactly the strings that begin with +1 and one of its area codes. */
  lemma StateIsRead(phone: string, st: UsState)
    ensures StateFromPhone(phone) == Some(st) <==>
            && |phone| >= 5
            && exists n: nat :: n < 1000 && phone[..5] == "+1" + Figures(n) && WorkerAreaState(n) == Some(st)
  {
    if |phone| >= 5 {
      var head, area := phone[..2], phone[2..5];
      assert phone[..5] == head + area;
      forall n: nat | n < 1000 ensures phone[..5] == "+1" + Figures(n) <==> head == "+1" && AreaCode(area) == Some(n) {
        AreaCodeReads(area, n);
        assert |Figures(n)| == 3 && (head + area)[..2] == head && ("+1" + Figures(n))[..2] == "+1";
        assert (head + area)[2..] == area && ("+1" + Figures(n))[2..] == Figures(n);
      }
      assert "+1" <= phone <==> head == "+1";
    }
  }

  /** `_gate`; `scalar_one_or_none` raises on a second consent record. */
  function WorkerGate(w: World, org: string, phone: string, now: int): Verdict {
    if phone in w.dnc then Dnc
    else if w.consents(org, phone) > 1 then Raised
    else if w.consents(org, phone) == 0 then NoConsent
    else match StateFromPhone(phone)
         case None => QuietHours
         case Some(s) => if AllowedHours(TimeOfDay(w, WorkerZone(s), now)) then Allowed else QuietHours
  }

  /** The state that `parse_number` reads off a number. */
  function StateOfNumber(n: Parsed): Option<UsState>
    requires n.Number?
  {
    if (n.country == "US" || n.country == "CA") && |n.national| == 10 then
      match AreaCode(n.national[..3])
      case Some(npa) => ApiAreaState(npa)
      case None => None
    else None
  }

  /** The zone whose clock the API goes by: New York if the number does not say. */
  function ZoneOfNumber(n: Parsed): Zone
    requires n.Number?
  {
    match StateOfNumber(n) case None => NewYork case Some(s) => ApiZone(s)
  }

  /** `gate_outbound_call`; a violation and an error both reach the caller as an exception. */
  function ApiGate(w: World, parse: string -> Parsed, org: string, raw: string, now: int): Verdict {
    match parse(raw)
    case Unparsable => Raised
    case Number(e164, _, _) =>
      if e164 in w.dnc then Dnc
      else if w.consents(org, e164) > 1 then Raised
      else if w.consents(org, e164) == 0 then NoConsent
      else if AllowedHours(TimeOfDay(w, ZoneOfNumber(parse(raw)), now)) then Allowed
      else QuietHours
  }

  /** The time of day in zone `z` at `now` lies from 8:00 up to, not including, 21:00. The offset is the
      one in force at that very instant. */
  ghost predicate DayIn(w: World, z: Zone, now: int) {
    exists day: int :: day * DAY + 8 * HOUR <= now + w.offset(z, now) < day * DAY + 21 * HOUR
  }

  lemma DayIs(w: World, z: Zone, now: int)
    ensures DayIn(w, z, now) <==> AllowedHours(TimeOfDay(w, z, now))
  {
    var local := now + w.offset(z, now);
    var day := local / DAY;
    assert local == day * DAY + TimeOfDay(w, z, now);
    if AllowedHours(TimeOfDay(w, z, now)) {
      assert day * DAY + 8 * HOUR <= now + w.offset(z, now) < day * DAY + 21 * HOUR;
    }
    if DayIn(w, z, now) {
      var d: int :| d * DAY + 8 * HOUR <= now + w.offset(z, now) < d * DAY + 21 * HOUR;
      assert d == day;
    }
  }

  /** What each verdict means, in terms of the list, the records and the clock at `now`. */
  lemma VerdictsMean(w: World, parse: string -> Parsed, org: string, raw: string, now: int)
    ensures var n, v := parse(raw), ApiGate(w, parse, org, raw, now);
            && (v == Allowed <==> n.Number? && n.e164 !in w.dnc && w.consents(org, n.e164) == 1 &&
                                  DayIn(w, ZoneOfNumber(n), now))
            && (v == Dnc <==> n.Number? && n.e164 in w.dnc)
            && (v == NoConsent <==> n.Number? && n.e164 !in w.dnc && w.consents(org, n.e164) == 0)
            && (v == Raised <==> (n.Number? ==> n.e164 !in w.dnc && w.consents(org, n.e164) >= 2))
    ensures var s, v := StateFromPhone(raw), WorkerGate(w, org, raw, now);
            && (v == Allowed <==> raw !in w.dnc && w.consents(org, raw) == 1 && s.Some? &&
                                  DayIn(w, WorkerZone(s.value), now))
            && (v == Dnc <==> raw in w.dnc)
            && (v == NoConsent <==> raw !in w.dnc && w.consents(org, raw) == 0)
            && (v == Raised <==> raw !in w.dnc && w.consents(org, raw) >= 2)
  {
    if parse(raw).Number? {
      DayIs(w, ZoneOfNumber(parse(raw)), now);
    }
    if StateFromPhone(raw).Some? {
      DayIs(w, WorkerZone(StateFromPhone(raw).value), now);
    }
  }

  lemma ZonesAgree(s: UsState)
    ensures ApiZone(s) == WorkerZone(s)
  {
  }

  /** On a normalised number the two gates read the same area code. */
  lemma SameAreaCode(parse: string -> Parsed, phone: string)
    requires Normalised(parse, phone)
    ensures var npa := AreaCode(phone[2..5]);
            && npa.Some?
            && StateFromPhone(phone) == WorkerAreaState(npa.value)
            && StateOfNumber(parse(phone)) == ApiAreaState(npa.value)
  {
    assert phone[2..5] == phone[2..][..3];
    assert "+1" <= phone;
  }

  /** Whatever the databases, the clock and the zones: what the worker lets through, the API does. */
  ghost predicate Refines(parse: string -> Parsed, phone: string) {
    forall w, org, now :: WorkerGate(w, org, phone, now) == Allowed ==> ApiGate(w, parse, org, phone, now) == Allowed
  }

  /** The two gates look up the same number and go by the same clock. */
  predicate SameNumberAndClock(parse: string -> Parsed, phone: string)
    requires StateFromPhone(phone).Some?
  {
    && parse(phone).Number? && parse(phone).e164 == phone
    && ZoneOfNumber(parse(phone)) == WorkerZone(StateFromPhone(phone).value)
  }

  /** A world in which nothing but the list and the zones stands in the way. */
  function OpenWorld(dnc: set<string>, z: Zone, elsewhere: int): World {
    World(dnc, (o: string, p: string) => 1, (y: Zone, t: int) => if y == z then 0 else elsewhere)
  }

  /** For any string and any parser, the worker's gate refines the API's exactly if the worker knows no
      state for it, so that it never lets it through, or both look up the same number and go by the
      same clock. */
  lemma RefinementIsExact(parse: string -> Parsed, phone: string)
    ensures Refines(parse, phone) <==> StateFromPhone(phone).None? || SameNumberAndClock(parse, phone)
  {
    if StateFromPhone(phone).Some? && !SameNumberAndClock(parse, phone) {
      var z, now := WorkerZone(StateFromPhone(phone).value), 12 * HOUR;
      var dnc := if parse(phone).Number? && parse(phone).e164 != phone then {parse(phone).e164} else {};
      var w := OpenWorld(dnc, z, -now);
      assert WorkerGate(w, "", phone, now) == Allowed;
      assert ApiGate(w, parse, "", phone, now) != Allowed;
    }
  }

  lemma NormalisedIsSameNumberAndClock(parse: string -> Parsed, phone: string)
    requires Normalised(parse, phone) && StateFromPhone(phone).Some?
    ensures SameNumberAndClock(parse, phone)
  {
    SameAreaCode(parse, phone);
    TablesDifferAt325(AreaCode(phone[2..5]).value);
    ZonesAgree(StateFromPhone(phone).value);
  }

  /** On a normalised number the worker's gate refines the API's: it lets it through exactly when the
      API does and the worker's own table knows the area code. */
  lemma WorkerGateRefinesApi(w: World, parse: string -> Parsed, org: string, phone: string, now: int)
    requires Normalised(parse, phone)
    ensures Refines(parse, phone)
    ensures WorkerGate(w, org, phone, now) == Allowed <==>
            ApiGate(w, parse, org, phone, now) == Allowed && StateFromPhone(phone).Some?
  {
    RefinementIsExact(parse, phone);
    if StateFromPhone(phone).Some? {
      NormalisedIsSameNumberAndClock(parse, phone);
    }
  }

  /** The two verdicts differ only in what the worker does not know: an area code outside its table
      is quiet to the worker, while the API falls back on New York. */
  lemma GatesDifferOnlyOnUnknownArea(w: World, parse: string -> Parsed, org: string, phone: string, now: int)
    requires Normalised(parse, phone) && WorkerGate(w, org, phone, now) != ApiGate(w, parse, org, phone, now)
    ensures WorkerGate(w, org, phone, now) == QuietHours && ApiGate(w, parse, org, phone, now) == Allowed
    ensures StateFromPhone(phone) == None
  {
    WorkerGateRefinesApi(w, parse, org, phone, now);
    SameAreaCode(parse, phone);
    TablesDifferAt325(AreaCode(phone[2..5]).value);
  }

  /** Without normalisation the refinement fails: the worker takes any string that begins with a known
      area code. Six digits after +1 are Los Angeles to the worker; a library that finds no region for
      them sends the API to New York time. */
  lemma UnnormalisedNumberSlipsThrough(parse: string -> Parsed)
    requires parse("+1415555") == Number("+1415555", "", "415555")
    ensures !Refines(parse, "+1415555")
  {
    assert "+1415555"[2..5] == "415";
    assert StateFromPhone("+1415555") == Some(CA);
    RefinementIsExact(parse, "+1415555");
  }
}
