/** Which match the engine settles for where several begin at one position: of a card number the
    shortest, of an e-mail address the longest; of the others there is only one. */
module Choices {
  import opened Regex
  import opened Shapes
  import opened Patterns

  /** The end that the engine chooses. */
  ghost predicate Choice(u: Tables, c: Category, s: string, i: nat, e: nat) {
    && Shape(u, c, s, i, e)
    && (c == CC ==> forall f: nat :: Shape(u, c, s, i, f) ==> e <= f)
    && (c == EMAIL ==> forall f: nat :: Shape(u, c, s, i, f) ==> f <= e)
  }

  // ---------------------------------------------------------------------------------------------
  // One shape at a position
  // ---------------------------------------------------------------------------------------------

  lemma CvvIsUnique(u: Tables, s: string, i: nat, e: nat, f: nat)
    requires Sensible(u) && CvvShape(u, s, i, e) && CvvShape(u, s, i, f)
    ensures e == f
  {
    assert forall k :: i <= k < e ==> WordAt(u, s, k);
    assert forall k :: i <= k < f ==> WordAt(u, s, k);
  }

  lemma {:induction false} CountJoins(u: Tables, s: string, i: nat, k: nat, j: nat)
    requires i <= k <= j <= |s|
    ensures DigitCount(u, s, i, j) == DigitCount(u, s, i, k) + DigitCount(u, s, k, j)
    decreases k - i
  {
    if i < k {
      CountJoins(u, s, i + 1, k, j);
    }
  }

  lemma {:induction false} CountAll(u: Tables, s: string, i: nat, j: nat)
    requires AllDigits(u, s, i, j)
    ensures DigitCount(u, s, i, j) == j - i
    decreases j - i
  {
    if i < j {
      CountAll(u, s, i + 1, j);
    }
  }

  lemma {:induction false} CountAtMost(u: Tables, s: string, i: nat, j: nat)
    requires i <= j <= |s|
    ensures DigitCount(u, s, i, j) <= j - i
    decreases j - i
  {
    if i < j {
      CountAtMost(u, s, i + 1, j);
    }
  }

  /** Before the area code there is at most the leading 1. */
  lemma HeadDigits(u: Tables, s: string, i: nat, one: nat, gap: nat, area: nat)
    requires i <= one <= gap <= one + 1 && gap <= area <= |s|
    requires (forall k :: i <= k < one ==> !u.digit(s[k])) && (forall k :: gap <= k < area ==> !u.digit(s[k]))
    ensures DigitCount(u, s, i, area) <= 1
  {
    NoDigits(u, s, i, one);
    NoDigits(u, s, gap, area);
    CountAtMost(u, s, one, gap);
    CountJoins(u, s, i, one, area);
    CountJoins(u, s, one, gap, area);
  }

  lemma TailDigits(u: Tables, s: string, area: nat, exchange: nat, line: nat, j: nat)
    requires area + 3 <= exchange && exchange + 3 <= line && j == line + 4 <= |s|
    requires AllDigits(u, s, area, area + 3) && AllDigits(u, s, exchange, exchange + 3) && AllDigits(u, s, line, j)
    requires forall k :: area + 3 <= k < exchange ==> !u.digit(s[k])
    requires forall k :: exchange + 3 <= k < line ==> !u.digit(s[k])
    ensures DigitCount(u, s, area, j) == 10
  {
    CountAll(u, s, area, area + 3);
    NoDigits(u, s, area + 3, exchange);
    CountAll(u, s, exchange, exchange + 3);
    NoDigits(u, s, exchange + 3, line);
    CountAll(u, s, line, j);
    CountJoins(u, s, area, area + 3, j);
    CountJoins(u, s, area + 3, exchange, j);
    CountJoins(u, s, exchange, exchange + 3, j);
    CountJoins(u, s, exchange + 3, line, j);
  }

  /** A phone number has ten digits, or eleven with the leading 1. */
  lemma PhoneDigits(u: Tables, s: string, i: nat, j: nat, w: Phone)
    requires Sensible(u) && PhoneParts(u, s, i, j, w)
    ensures 10 <= DigitCount(u, s, i, j) <= 11
  {
    var one := i + w.plus;
    var gap := one + w.one;
    var area := gap + w.gap + w.open;
    var exchange := area + 3 + w.close + w.gap2;
    var line := exchange + 3 + w.gap3;
    HeadDigits(u, s, i, one, gap, area);
    TailDigits(u, s, area, exchange, line, j);
    CountJoins(u, s, i, area, j);
  }

  lemma {:induction false} NoDigits(u: Tables, s: string, i: nat, j: nat)
    requires i <= j <= |s| && forall k :: i <= k < j ==> !u.digit(s[k])
    ensures DigitCount(u, s, i, j) == 0
    decreases j - i
  {
    if i < j {
      NoDigits(u, s, i + 1, j);
    }
  }

  /** What ends at `f` begins with at most eleven digits up to there, and has four at its end. */
  lemma PhoneEnds(u: Tables, s: string, i: nat, f: nat)
    requires Sensible(u) && PhoneShape(u, s, i, f)
    ensures i + 10 <= f <= |s| && AllDigits(u, s, f - 4, f) && 10 <= DigitCount(u, s, i, f) <= 11
    ensures f < |s| ==> !u.digit(s[f])
  {
    var w :| PhoneParts(u, s, i, f, w);
    PhoneDigits(u, s, i, f, w);
    CountAtMost(u, s, i, f);
  }

  /** A longer one would have four more digits after the shorter. */
  lemma PhoneIsUnique(u: Tables, s: string, i: nat, e: nat, f: nat)
    requires Sensible(u) && PhoneShape(u, s, i, e) && PhoneShape(u, s, i, f)
    ensures e >= f
  {
    PhoneEnds(u, s, i, e);
    PhoneEnds(u, s, i, f);
    if e < f {
      CountJoins(u, s, i, e, f);
      LastFourAfter(u, s, e, f);
    }
  }

  lemma LastFourAfter(u: Tables, s: string, e: nat, f: nat)
    requires e < f <= |s| && f >= 4 && !u.digit(s[e]) && AllDigits(u, s, f - 4, f)
    ensures DigitCount(u, s, e, f) >= 4
  {
    CountJoins(u, s, e, f - 4, f);
    CountAll(u, s, f - 4, f);
  }

  lemma ChoiceIsUnique(u: Tables, c: Category, s: string, i: nat, e: nat, f: nat)
    requires Sensible(u) && Choice(u, c, s, i, e) && Choice(u, c, s, i, f)
    ensures e == f
  {
    if c == CVV {
      CvvIsUnique(u, s, i, e, f);
    } else if c == PHONE {
      PhoneIsUnique(u, s, i, e, f);
      PhoneIsUnique(u, s, i, f, e);
    }
  }

  // ---------------------------------------------------------------------------------------------
  // What the engine tries first
  // ---------------------------------------------------------------------------------------------

  /** Those of the ends at which a word begins or ends. */
  function Kept(u: Tables, s: string, ends: seq<nat>): (kept: seq<nat>)
    requires Between(ends, 0, |s|)
  {
    if ends == [] then []
    else (if Edge(u, s, ends[0]) then [ends[0]] else []) + Kept(u, s, ends[1..])
  }

  lemma {:induction false} EndsAfterBoundary(u: Tables, s: string, i: nat, starts: seq<nat>)
    requires i <= |s| && Between(starts, i, |s|)
    ensures EndsAfter(u, Boundary, s, i, starts) == Kept(u, s, starts)
  {
    if starts != [] {
      BoundaryIsEdge(u, s, starts[0]);
      EndsAfterBoundary(u, s, i, starts[1..]);
    }
  }

  lemma EndsAfterOne(u: Tables, r: Re, s: string, i: nat, k: nat)
    requires i <= k <= |s|
    ensures EndsAfter(u, r, s, i, [k]) == Ends(u, r, s, k)
  {
    assert [k][1..] == [] && EndsAfter(u, r, s, i, []) == [];
    assert Ends(u, r, s, k) + [] == Ends(u, r, s, k);
  }

  lemma BoundedEnds(u: Tables, r: Re, s: string, i: nat)
    requires i <= |s|
    ensures Ends(u, Cat(Boundary, Cat(r, Boundary)), s, i) ==
            if Edge(u, s, i) then Kept(u, s, Ends(u, r, s, i)) else []
  {
    BoundaryIsEdge(u, s, i);
    if Edge(u, s, i) {
      EndsAfterOne(u, Cat(r, Boundary), s, i, i);
      EndsAfterBoundary(u, s, i, Ends(u, r, s, i));
    }
  }

  lemma {:induction false} KeptAre(u: Tables, s: string, ends: seq<nat>, x: nat)
    requires Between(ends, 0, |s|)
    ensures x in Kept(u, s, ends) <==> x in ends && Edge(u, s, x)
  {
    if ends != [] {
      KeptAre(u, s, ends[1..], x);
      assert ends == [ends[0]] + ends[1..];
    }
  }

  // ---------------------------------------------------------------------------------------------
  // E-mail addresses: the longest first
  // ---------------------------------------------------------------------------------------------

  predicate Falling(ends: seq<nat>) {
    forall a, b :: 0 <= a < b < |ends| ==> ends[a] > ends[b]
  }

  lemma {:induction false} KeptFall(u: Tables, s: string, ends: seq<nat>)
    requires Between(ends, 0, |s|) && Falling(ends)
    ensures Falling(Kept(u, s, ends))
  {
    if ends != [] {
      var rest := Kept(u, s, ends[1..]);
      KeptFall(u, s, ends[1..]);
      forall b | 0 <= b < |rest| ensures ends[0] > rest[b] {
        KeptAre(u, s, ends[1..], rest[b]);
        var k :| 0 <= k < |ends[1..]| && ends[1..][k] == rest[b];
        assert ends[k + 1] == rest[b];
      }
    }
  }

  /** Later starts lead to smaller ends. */
  ghost predicate InOrder(u: Tables, r: Re, s: string, starts: seq<nat>) {
    && (forall a :: 0 <= a < |starts| ==> starts[a] <= |s| && Falling(Ends(u, r, s, starts[a])))
    && forall a, b, x, y ::
         0 <= a < b < |starts| && Matches(u, r, s, starts[a], x) && Matches(u, r, s, starts[b], y) ==>
         x > y
  }

  lemma {:induction false} EndsAfterFall(u: Tables, r: Re, s: string, i: nat, starts: seq<nat>)
    requires i <= |s| && Between(starts, i, |s|) && InOrder(u, r, s, starts)
    ensures Falling(EndsAfter(u, r, s, i, starts))
  {
    if starts != [] {
      var first, rest := Ends(u, r, s, starts[0]), EndsAfter(u, r, s, i, starts[1..]);
      assert InOrder(u, r, s, starts[1..]) by {
        assert forall a :: 0 <= a < |starts| - 1 ==> starts[1..][a] == starts[a + 1];
      }
      EndsAfterFall(u, r, s, i, starts[1..]);
      forall a, b | 0 <= a < |first| && 0 <= b < |rest| ensures first[a] > rest[b] {
        RestIsLess(u, r, s, i, starts, first[a], rest[b]);
      }
    }
  }

  lemma RestIsLess(u: Tables, r: Re, s: string, i: nat, starts: seq<nat>, x: nat, y: nat)
    requires i <= |s| && Between(starts, i, |s|) && InOrder(u, r, s, starts) && starts != []
    requires x in Ends(u, r, s, starts[0]) && y in EndsAfter(u, r, s, i, starts[1..])
    ensures x > y
  {
    EndsAreMatches(u, r, s, starts[0], x);
    EndsAfterAreMatches(u, r, s, i, starts[1..], y);
    var k: nat :| k in starts[1..] && Matches(u, r, s, k, y);
    var b :| 0 <= b < |starts[1..]| && starts[1..][b] == k;
    assert starts[b + 1] == k;
  }

  lemma SomeFall(u: Tables, cs: CharSet, min: nat, s: string, i: nat)
    requires i <= |s|
    ensures Falling(Ends(u, Some(cs, min), s, i))
  {
    RepeatOrder(u, cs, min, Unbounded, true, s, i);
  }

  lemma LiteralFalls(u: Tables, c: char, rest: Re, s: string, i: nat)
    requires i <= |s| && (i + 1 <= |s| ==> Falling(Ends(u, rest, s, i + 1)))
    ensures Falling(Ends(u, Cat(Literal(c), rest), s, i))
  {
    if i < |s| && s[i] == c {
      assert Ends(u, Literal(c), s, i) == [i + 1];
      EndsAfterOne(u, rest, s, i, i + 1);
    } else {
      assert Ends(u, Literal(c), s, i) == [];
    }
  }

  lemma TopLevelFalls(u: Tables, s: string, i: nat)
    requires i <= |s|
    ensures Falling(Ends(u, TopLevel(), s, i))
  {
    if i < |s| {
      SomeFall(u, LETTER, 2, s, i + 1);
    }
    LiteralFalls(u, '.', Some(LETTER, 2), s, i);
  }

  /** The letters after an earlier dot end before the letters after a later one. */
  lemma HostFalls(u: Tables, s: string, i: nat)
    requires i <= |s|
    ensures Falling(Ends(u, HostAndTop(), s, i))
  {
    var starts := Ends(u, Some(HOST, 1), s, i);
    SomeFall(u, HOST, 1, s, i);
    forall a | 0 <= a < |starts| ensures Falling(Ends(u, TopLevel(), s, starts[a])) {
      TopLevelFalls(u, s, starts[a]);
    }
    forall a, b, x, y | 0 <= a < b < |starts| && Matches(u, TopLevel(), s, starts[a], x)
                        && Matches(u, TopLevel(), s, starts[b], y)
      ensures x > y
    {
      LaterDot(u, s, starts[a], x, starts[b], y);
    }
    EndsAfterFall(u, TopLevel(), s, i, starts);
  }

  lemma LaterDot(u: Tables, s: string, d: nat, x: nat, e: nat, y: nat)
    requires e < d && Matches(u, TopLevel(), s, d, x) && Matches(u, TopLevel(), s, e, y)
    ensures x > y
  {
    TopLevelIs(u, s, d, x);
    TopLevelIs(u, s, e, y);
    assert forall k :: e + 1 <= k < y ==> Has(u, LETTER, s[k]);
  }

  lemma SignFalls(u: Tables, s: string, i: nat)
    requires i <= |s|
    ensures Falling(Ends(u, SignAndHost(), s, i))
  {
    if i < |s| {
      HostFalls(u, s, i + 1);
    }
    LiteralFalls(u, '@', HostAndTop(), s, i);
  }

  /** Only one end of the local part is followed by the sign. */
  lemma EmailFalls(u: Tables, s: string, i: nat)
    requires Sensible(u) && i <= |s|
    ensures Falling(Ends(u, EmailBody(), s, i))
  {
    assert EmailBody() == Cat(Some(LOCAL, 1), SignAndHost());
    var starts := Ends(u, Some(LOCAL, 1), s, i);
    SomeFall(u, LOCAL, 1, s, i);
    forall a | 0 <= a < |starts| ensures Falling(Ends(u, SignAndHost(), s, starts[a])) {
      SignFalls(u, s, starts[a]);
    }
    forall a, b, x, y | 0 <= a < b < |starts|
      ensures Matches(u, SignAndHost(), s, starts[a], x) && Matches(u, SignAndHost(), s, starts[b], y) ==> x > y
    {
      EndsAreMatches(u, Some(LOCAL, 1), s, i, starts[a]);
      NoSignInside(u, s, i, starts[a], starts[b], y);
    }
    EndsAfterFall(u, SignAndHost(), s, i, starts);
  }

  lemma NoSignInside(u: Tables, s: string, i: nat, a: nat, b: nat, y: nat)
    requires Sensible(u) && i <= b < a && Matches(u, Some(LOCAL, 1), s, i, a)
    ensures !Matches(u, SignAndHost(), s, b, y)
  {
    RepeatCharsIs(u, LOCAL, 1, Unbounded, s, i, a);
    LiteralThen(u, '@', HostAndTop(), s, b, y);
    assert !Has(u, LOCAL, '@');
  }

  // ---------------------------------------------------------------------------------------------
  // Card numbers: the shortest first
  // ---------------------------------------------------------------------------------------------

  /** No end that counts is less than the first that counts. */
  ghost predicate LeastFirst(u: Tables, s: string, ends: seq<nat>)
    requires Between(ends, 0, |s|)
  {
    var kept := Kept(u, s, ends);
    forall b :: 0 <= b < |kept| ==> kept[0] <= kept[b]
  }

  lemma {:induction false} KeptJoin(u: Tables, s: string, a: seq<nat>, b: seq<nat>)
    requires Between(a, 0, |s|) && Between(b, 0, |s|) && Between(a + b, 0, |s|)
    ensures Kept(u, s, a + b) == Kept(u, s, a) + Kept(u, s, b)
  {
    if a == [] {
      assert a + b == b && Kept(u, s, a) + Kept(u, s, b) == Kept(u, s, b);
    } else {
      var first := if Edge(u, s, a[0]) then [a[0]] else [];
      assert (a + b)[1..] == a[1..] + b && (a + b)[0] == a[0];
      KeptJoin(u, s, a[1..], b);
      assert first + (Kept(u, s, a[1..]) + Kept(u, s, b)) == first + Kept(u, s, a[1..]) + Kept(u, s, b);
    }
  }

  function CardEnds(u: Tables, min: nat, max: nat, s: string, i: nat): (ends: seq<nat>)
    requires i <= |s|
    ensures Between(ends, i, |s|)
  {
    RepeatEnds(u, CardGroup(), min, AtMost(max), true, s, i)
  }

  function CardEndsAfter(u: Tables, min: nat, max: nat, s: string, i: nat, starts: seq<nat>): (ends: seq<nat>)
    requires i <= |s| && Between(starts, i, |s|)
    ensures Between(ends, i, |s|)
  {
    RepeatAfter(u, CardGroup(), min, AtMost(max), true, s, i, starts)
  }

  /** Without a digit there is no group. */
  lemma NoGroup(u: Tables, min: nat, max: nat, s: string, i: nat)
    requires i <= |s| && (i < |s| ==> !u.digit(s[i]))
    ensures CardEnds(u, min, max, s, i) == if min == 0 then [i] else []
  {
    var gaps := Repeat(Chars(GAP), 0, Unbounded, false);
    assert Ends(u, Chars(DIGIT), s, i) == [];
    assert Ends(u, CardGroup(), s, i) == EndsAfter(u, gaps, s, i, []) == [];
    assert RepeatAfter(u, CardGroup(), Dec(min), Less(AtMost(max)), true, s, i, []) == [];
  }

  /** The ends of a group: after its digit, and after each blank or hyphen that follows. */
  lemma GroupEnds(u: Tables, s: string, i: nat) returns (starts: seq<nat>)
    requires i < |s| && u.digit(s[i])
    ensures starts == Ends(u, CardGroup(), s, i) && starts != [] && starts[0] == i + 1
    ensures forall a, b :: 0 <= a < b < |starts| ==> starts[a] < starts[b]
    ensures forall k :: k in starts <==> i < k <= |s| && Gap(s, i + 1, k)
  {
    var gaps := Repeat(Chars(GAP), 0, Unbounded, false);
    starts := Ends(u, CardGroup(), s, i);
    assert Ends(u, Chars(DIGIT), s, i) == [i + 1];
    EndsAfterOne(u, gaps, s, i, i + 1);
    RepeatOrder(u, GAP, 0, Unbounded, false, s, i + 1);
    forall k: nat ensures k in starts <==> i < k <= |s| && Gap(s, i + 1, k) {
      EndsAreMatches(u, CardGroup(), s, i, k);
      GroupIs(u, s, i, k);
    }
    assert i + 1 in starts;
  }

  lemma {:induction false} SkipGaps(u: Tables, min: nat, max: nat, s: string, i: nat, starts: seq<nat>)
    requires i <= |s| && Between(starts, i, |s|) && starts != [] && min > 0
    requires forall a :: 0 <= a < |starts| ==> starts[a] > i
    requires forall a :: 0 <= a < |starts| - 1 ==> starts[a] < |s| && !u.digit(s[starts[a]])
    ensures CardEndsAfter(u, min, max, s, i, starts) == CardEnds(u, min, max, s, starts[|starts| - 1])
  {
    var first := CardEnds(u, min, max, s, starts[0]);
    var rest := CardEndsAfter(u, min, max, s, i, starts[1..]);
    assert CardEndsAfter(u, min, max, s, i, starts) == first + rest;
    if |starts| == 1 {
      assert starts[1..] == [] && rest == [];
    } else {
      NoGroup(u, min, max, s, starts[0]);
      SkipGaps(u, min, max, s, i, starts[1..]);
    }
  }

  lemma AfterIsLater(u: Tables, min: nat, max: nat, s: string, i: nat, starts: seq<nat>, lo: nat, e: nat)
    requires i <= |s| && Between(starts, i, |s|) && forall a :: 0 <= a < |starts| ==> starts[a] >= lo
    requires e in CardEndsAfter(u, min, max, s, i, starts)
    ensures e >= lo
  {
    RepeatAfterAreMatches(u, CardGroup(), min, AtMost(max), true, s, i, starts, e);
  }

  /** A group that is followed by a gap may be the last: then its digit is the first end that counts. */
  lemma StopsAtGap(u: Tables, max: nat, s: string, i: nat, starts: seq<nat>)
    requires Sensible(u) && i < |s| && u.digit(s[i]) && Between(starts, i, |s|) && |starts| > 1 && starts[0] == i + 1
    requires (forall a, b :: 0 <= a < b < |starts| ==> starts[a] < starts[b])
    requires i + 1 < |s| && !u.word(s[i + 1])
    ensures LeastFirst(u, s, CardEndsAfter(u, 0, max, s, i, starts))
  {
    NoGroup(u, 0, max, s, i + 1);
    var rest := CardEndsAfter(u, 0, max, s, i, starts[1..]);
    assert CardEndsAfter(u, 0, max, s, i, starts) == [i + 1] + rest;
    KeptJoin(u, s, [i + 1], rest);
    assert [i + 1][1..] == [] && Edge(u, s, i + 1);
    assert Kept(u, s, [i + 1]) == [i + 1];
    var kept := Kept(u, s, rest);
    forall b | 0 <= b < |kept| ensures i + 1 <= kept[b] {
      KeptAre(u, s, rest, kept[b]);
      AfterIsLater(u, 0, max, s, i, starts[1..], i + 1, kept[b]);
    }
  }

  lemma {:induction false} CardLeast(u: Tables, min: nat, max: nat, s: string, i: nat)
    requires Sensible(u) && i <= |s|
    requires min > 0 || !Edge(u, s, i) || i == |s| || !u.digit(s[i])
    ensures LeastFirst(u, s, CardEnds(u, min, max, s, i))
    decreases |s| - i, 1
  {
    var stop := if min == 0 then [i] else [];
    if i == |s| || !u.digit(s[i]) {
      NoGroup(u, min, max, s, i);
    } else if max == 0 {
      assert CardEnds(u, min, max, s, i) == [] + stop == stop;
    } else {
      var starts := GroupEnds(u, s, i);
      var more := CardEndsAfter(u, Dec(min), Dec(max), s, i, starts);
      assert CardEnds(u, min, max, s, i) == more + stop;
      MoreLeast(u, Dec(min), Dec(max), s, i, starts);
      KeptJoin(u, s, more, stop);
      assert Kept(u, s, stop) == [];
    }
  }

  lemma {:induction false} MoreLeast(u: Tables, min: nat, max: nat, s: string, i: nat, starts: seq<nat>)
    requires Sensible(u) && i < |s| && u.digit(s[i]) && Between(starts, i, |s|) && starts != [] && starts[0] == i + 1
    requires forall a, b :: 0 <= a < b < |starts| ==> starts[a] < starts[b]
    requires forall k :: k in starts <==> i < k <= |s| && Gap(s, i + 1, k)
    ensures LeastFirst(u, s, CardEndsAfter(u, min, max, s, i, starts))
    decreases |s| - i, 0
  {
    if |starts| == 1 {
      OnlyStart(u, min, max, s, i, starts);
      CardLeast(u, min, max, s, i + 1);
    } else {
      var last := starts[|starts| - 1];
      StartsAreGaps(u, s, i, starts);
      if min == 0 {
        StopsAtGap(u, max, s, i, starts);
      } else {
        SkipGaps(u, min, max, s, i, starts);
        CardLeast(u, min, max, s, last);
      }
    }
  }

  lemma OnlyStart(u: Tables, min: nat, max: nat, s: string, i: nat, starts: seq<nat>)
    requires Sensible(u) && i < |s| && u.digit(s[i]) && starts == [i + 1]
    ensures CardEndsAfter(u, min, max, s, i, starts) == CardEnds(u, min, max, s, i + 1)
    ensures !Edge(u, s, i + 1) || i + 1 == |s| || !u.digit(s[i + 1])
  {
    var rest := CardEndsAfter(u, min, max, s, i, starts[1..]);
    assert starts[1..] == [] && rest == [];
    assert CardEndsAfter(u, min, max, s, i, starts) == CardEnds(u, min, max, s, i + 1) + rest;
    assert CardEnds(u, min, max, s, i + 1) + rest == CardEnds(u, min, max, s, i + 1);
  }

  /** All starts but the last are blanks or hyphens. */
  lemma StartsAreGaps(u: Tables, s: string, i: nat, starts: seq<nat>)
    requires Sensible(u) && i < |s| && Between(starts, i, |s|) && |starts| > 1 && starts[0] == i + 1
    requires forall a, b :: 0 <= a < b < |starts| ==> starts[a] < starts[b]
    requires forall k :: k in starts <==> i < k <= |s| && Gap(s, i + 1, k)
    ensures forall a :: 0 <= a < |starts| ==> starts[a] > i
    ensures forall a :: 0 <= a < |starts| - 1 ==> starts[a] < |s| && !u.digit(s[starts[a]]) && !u.word(s[starts[a]])
    ensures i + 1 < |s| && !u.word(s[i + 1])
  {
    var last := starts[|starts| - 1];
    assert last in starts && Gap(s, i + 1, last);
    assert !u.word(' ') && !u.word('-') && !u.digit(' ') && !u.digit('-');
    forall a | 0 <= a < |starts| ensures starts[a] > i && (a < |starts| - 1 ==> i + 1 <= starts[a] < last) {
      assert starts[a] in starts;
    }
  }

  // ---------------------------------------------------------------------------------------------
  // The engine's choice
  // ---------------------------------------------------------------------------------------------

  lemma KeptEnd(u: Tables, c: Category, s: string, i: nat, f: nat)
    requires Sensible(u) && i <= |s|
    ensures f in Ends(u, Pattern(c), s, i) <==> Shape(u, c, s, i, f)
  {
    EndsAreMatches(u, Pattern(c), s, i, f);
    PatternIsShape(u, c, s, i, f);
  }

  lemma CardChoice(u: Tables, s: string, i: nat, f: nat)
    requires Sensible(u) && i <= |s| && Ends(u, Pattern(CC), s, i) != [] && Shape(u, CC, s, i, f)
    ensures Ends(u, Pattern(CC), s, i)[0] <= f
  {
    CardEndsAre(u, s, i);
    CardLeast(u, 13, 19, s, i);
    KeptEnd(u, CC, s, i, f);
    LeastIs(u, s, CardEnds(u, 13, 19, s, i), f);
  }

  lemma CardEndsAre(u: Tables, s: string, i: nat)
    requires i <= |s|
    ensures Ends(u, Pattern(CC), s, i) == if Edge(u, s, i) then Kept(u, s, CardEnds(u, 13, 19, s, i)) else []
  {
    assert CardBody() == Repeat(CardGroup(), 13, AtMost(19), true);
    BoundedEnds(u, CardBody(), s, i);
  }

  lemma LeastIs(u: Tables, s: string, ends: seq<nat>, f: nat)
    requires Between(ends, 0, |s|) && LeastFirst(u, s, ends) && f in Kept(u, s, ends)
    ensures Kept(u, s, ends)[0] <= f
  {
    var kept := Kept(u, s, ends);
    var b :| 0 <= b < |kept| && kept[b] == f;
  }

  lemma EmailChoice(u: Tables, s: string, i: nat, f: nat)
    requires Sensible(u) && i <= |s| && Ends(u, Pattern(EMAIL), s, i) != [] && Shape(u, EMAIL, s, i, f)
    ensures f <= Ends(u, Pattern(EMAIL), s, i)[0]
  {
    BoundedEnds(u, EmailBody(), s, i);
    EmailFalls(u, s, i);
    KeptFall(u, s, Ends(u, EmailBody(), s, i));
    KeptEnd(u, EMAIL, s, i, f);
    var ends := Ends(u, Pattern(EMAIL), s, i);
    var b :| 0 <= b < |ends| && ends[b] == f;
  }

  /** The first end that the engine tries is the one chosen; it tries none exactly if no stretch of the
      shape begins here. */
  lemma FirstEndIsChoice(u: Tables, c: Category, s: string, i: nat)
    requires Sensible(u) && i <= |s|
    ensures var ends := Ends(u, Pattern(c), s, i);
            if ends == [] then forall f: nat :: !Shape(u, c, s, i, f) else Choice(u, c, s, i, ends[0])
  {
    var ends := Ends(u, Pattern(c), s, i);
    forall f: nat ensures f in ends <==> Shape(u, c, s, i, f) {
      KeptEnd(u, c, s, i, f);
    }
    if ends != [] {
      assert ends[0] in ends;
      forall f: nat | Shape(u, c, s, i, f)
        ensures (c == CC ==> ends[0] <= f) && (c == EMAIL ==> f <= ends[0])
      {
        if c == CC {
          CardChoice(u, s, i, f);
        } else if c == EMAIL {
          EmailChoice(u, s, i, f);
        }
      }
    }
  }
}
