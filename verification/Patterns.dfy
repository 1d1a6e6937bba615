/** The five patterns of apps/api/app/services/redaction.py, and what they match, character by
    character. */
module Patterns {
  import opened Regex
  import opened Shapes

  const DIGIT := CharSet(false, true, false, "")
  const AT_SIGN := CharSet(false, false, false, "@")

  function Literal(c: char): Re { Chars(CharSet(false, false, false, [c])) }

  function OneOf(cs: string): Re { Chars(CharSet(false, false, false, cs)) }

  function Optional(r: Re): Re { Repeat(r, 0, AtMost(1), true) }

  function Digits(lo: nat, hi: nat): Re { Repeat(Chars(DIGIT), lo, AtMost(hi), true) }

  /** \b r \b */
  function Bounded(r: Re): Re { Cat(Boundary, Cat(r, Boundary)) }

  /** (?:\d[ -]*?){13,19} */
  function CardBody(): Re {
    Repeat(Cat(Chars(DIGIT), Repeat(OneOf(" -"), 0, Unbounded, false)), 13, AtMost(19), true)
  }

  /** \d{3}-\d{2}-\d{4} */
  function SsnBody(): Re {
    Cat(Digits(3, 3), Cat(Literal('-'), Cat(Digits(2, 2), Cat(Literal('-'), Digits(4, 4)))))
  }

  /** [\w.+-]+@[\w.-]+\.[a-zA-Z]{2,} */
  function EmailBody(): Re {
    Cat(Repeat(Chars(CharSet(true, false, false, ".+-")), 1, Unbounded, true),
    Cat(Chars(AT_SIGN),
    Cat(Repeat(Chars(CharSet(true, false, false, ".-")), 1, Unbounded, true),
    Cat(Literal('.'),
        Repeat(Chars(CharSet(false, false, true, "")), 2, Unbounded, true)))))
  }

  /** \+?1?[ .-]?\(?\d{3}\)?[ .-]?\d{3}[ .-]?\d{4} */
  function PhoneBody(): Re {
    Cat(Optional(Literal('+')), Cat(Optional(Literal('1')), Cat(Optional(OneOf(" .-")),
    Cat(Optional(Literal('(')), Cat(Digits(3, 3), Cat(Optional(Literal(')')), PhoneTail()))))))
  }

  /** [ .-]?\d{3}[ .-]?\d{4} */
  function PhoneTail(): Re {
    Cat(Optional(OneOf(" .-")), Cat(Digits(3, 3), Cat(Optional(OneOf(" .-")), Digits(4, 4))))
  }

  function Body(c: Category): Re {
    match c
    case CC => CardBody()
    case SSN => SsnBody()
    case EMAIL => EmailBody()
    case PHONE => PhoneBody()
    case CVV => Digits(3, 4)
  }

  function Pattern(c: Category): Re {
    Bounded(Body(c))
  }

  // ---------------------------------------------------------------------------------------------
  // Social security numbers and check digits
  // ---------------------------------------------------------------------------------------------

  lemma DigitsIs(u: Tables, lo: nat, hi: nat, s: string, i: nat, j: nat)
    ensures Matches(u, Digits(lo, hi), s, i, j) <==> AllDigits(u, s, i, j) && lo <= j - i <= hi
  {
    RepeatCharsIs(u, DIGIT, lo, AtMost(hi), s, i, j);
  }

  lemma LiteralIs(u: Tables, c: char, s: string, i: nat, j: nat)
    ensures Matches(u, Literal(c), s, i, j) <==> j == i + 1 <= |s| && s[i] == c
  {
  }

  /** ddd-dd-dddd */
  predicate SsnBodyShape(u: Tables, s: string, i: nat, j: nat) {
    && j == i + 11 && j <= |s| && s[i + 3] == '-' && s[i + 6] == '-'
    && AllDigits(u, s, i, i + 3) && AllDigits(u, s, i + 4, i + 6) && AllDigits(u, s, i + 7, i + 11)
  }

  lemma DigitsThen(u: Tables, n: nat, rest: Re, s: string, i: nat, j: nat)
    ensures Matches(u, Cat(Digits(n, n), rest), s, i, j) <==>
            i + n <= |s| && AllDigits(u, s, i, i + n) && Matches(u, rest, s, i + n, j)
  {
    if Matches(u, Cat(Digits(n, n), rest), s, i, j) {
      var k := CatSplits(u, Digits(n, n), rest, s, i, j);
      DigitsIs(u, n, n, s, i, k);
    }
    if i + n <= |s| && AllDigits(u, s, i, i + n) && Matches(u, rest, s, i + n, j) {
      DigitsIs(u, n, n, s, i, i + n);
      CatJoins(u, Digits(n, n), rest, s, i, i + n, j);
    }
  }

  lemma LiteralThen(u: Tables, c: char, rest: Re, s: string, i: nat, j: nat)
    ensures Matches(u, Cat(Literal(c), rest), s, i, j) <==>
            i < |s| && s[i] == c && Matches(u, rest, s, i + 1, j)
  {
    if Matches(u, Cat(Literal(c), rest), s, i, j) {
      var k := CatSplits(u, Literal(c), rest, s, i, j);
      LiteralIs(u, c, s, i, k);
    }
    if i < |s| && s[i] == c && Matches(u, rest, s, i + 1, j) {
      LiteralIs(u, c, s, i, i + 1);
      CatJoins(u, Literal(c), rest, s, i, i + 1, j);
    }
  }

  /** -dddd */
  function LastFour(): Re {
    Cat(Literal('-'), Digits(4, 4))
  }

  lemma LastFourIs(u: Tables, s: string, i: nat, j: nat)
    ensures Matches(u, LastFour(), s, i, j) <==> j == i + 5 <= |s| && s[i] == '-' && AllDigits(u, s, i + 1, j)
  {
    LiteralThen(u, '-', Digits(4, 4), s, i, j);
    DigitsIs(u, 4, 4, s, i + 1, j);
  }

  lemma MiddleTwoIs(u: Tables, s: string, i: nat, j: nat)
    ensures Matches(u, Cat(Literal('-'), Cat(Digits(2, 2), LastFour())), s, i, j) <==>
            && j == i + 8 && j <= |s| && s[i] == '-' && AllDigits(u, s, i + 1, i + 3) && s[i + 3] == '-'
            && AllDigits(u, s, i + 4, j)
  {
    LiteralThen(u, '-', Cat(Digits(2, 2), LastFour()), s, i, j);
    DigitsThen(u, 2, LastFour(), s, i + 1, j);
    LastFourIs(u, s, i + 3, j);
  }

  lemma SsnBodyIs(u: Tables, s: string, i: nat, j: nat)
    ensures Matches(u, SsnBody(), s, i, j) <==> SsnBodyShape(u, s, i, j)
  {
    DigitsThen(u, 3, Cat(Literal('-'), Cat(Digits(2, 2), LastFour())), s, i, j);
    MiddleTwoIs(u, s, i + 3, j);
  }

  lemma SsnIs(u: Tables, s: string, i: nat, j: nat)
    requires Sensible(u)
    ensures Matches(u, Pattern(SSN), s, i, j) <==> SsnShape(u, s, i, j)
  {
    BoundedIs(u, SsnBody(), s, i, j);
    SsnBodyIs(u, s, i, j);
    if SsnBodyShape(u, s, i, j) {
      assert u.digit(s[i]) && u.digit(s[j - 1]);
    }
  }

  lemma CvvIs(u: Tables, s: string, i: nat, j: nat)
    requires Sensible(u)
    ensures Matches(u, Pattern(CVV), s, i, j) <==> CvvShape(u, s, i, j)
  {
    BoundedIs(u, Digits(3, 4), s, i, j);
    DigitsIs(u, 3, 4, s, i, j);
    if AllDigits(u, s, i, j) && 3 <= j - i {
      assert u.digit(s[i]) && u.digit(s[j - 1]);
    }
  }

  // ---------------------------------------------------------------------------------------------
  // Card numbers
  // ---------------------------------------------------------------------------------------------

  const GAP := CharSet(false, false, false, " -")

  /** \d[ -]*? */
  function CardGroup(): Re {
    Cat(Chars(DIGIT), Repeat(Chars(GAP), 0, Unbounded, false))
  }

  predicate Gap(s: string, i: nat, j: nat) {
    i <= j <= |s| && forall k :: i <= k < j ==> s[k] == ' ' || s[k] == '-'
  }

  lemma GapsAre(u: Tables, s: string, i: nat, j: nat)
    ensures Matches(u, Repeat(Chars(GAP), 0, Unbounded, false), s, i, j) <==> Gap(s, i, j)
  {
    RepeatCharsIs(u, GAP, 0, Unbounded, s, i, j);
    assert forall c: char :: c in " -" <==> c == ' ' || c == '-';
  }

  lemma GroupIs(u: Tables, s: string, i: nat, j: nat)
    ensures Matches(u, CardGroup(), s, i, j) <==> i < j <= |s| && u.digit(s[i]) && Gap(s, i + 1, j)
  {
    var gaps := Repeat(Chars(GAP), 0, Unbounded, false);
    if Matches(u, CardGroup(), s, i, j) {
      var k := CatSplits(u, Chars(DIGIT), gaps, s, i, j);
      GapsAre(u, s, k, j);
    }
    if i < j <= |s| && u.digit(s[i]) && Gap(s, i + 1, j) {
      GapsAre(u, s, i + 1, j);
      assert Matches(u, Chars(DIGIT), s, i, i + 1);
      CatJoins(u, Chars(DIGIT), gaps, s, i, i + 1, j);
    }
  }

  /** Begins with a digit, if at all; digits, blanks and hyphens. */
  predicate CardRun(u: Tables, s: string, i: nat, j: nat) {
    && i <= j <= |s| && (i < j ==> u.digit(s[i]))
    && forall k :: i <= k < j ==> u.digit(s[k]) || s[k] == ' ' || s[k] == '-'
  }

  lemma {:induction false} GapCounts(u: Tables, s: string, i: nat, k: nat, j: nat)
    requires Sensible(u) && i <= k <= j <= |s| && Gap(s, i, k)
    ensures DigitCount(u, s, i, j) == DigitCount(u, s, k, j)
    decreases k - i
  {
    if i < k {
      assert !u.digit(' ') && !u.digit('-');
      GapCounts(u, s, i + 1, k, j);
    }
  }

  /** The next digit, or the end. */
  function NextDigit(u: Tables, s: string, i: nat, j: nat): (k: nat)
    requires i <= j <= |s|
    ensures i <= k <= j && (k < j ==> u.digit(s[k])) && forall l :: i <= l < k ==> !u.digit(s[l])
    decreases j - i
  {
    if i == j || u.digit(s[i]) then i else NextDigit(u, s, i + 1, j)
  }

  lemma GroupSplits(u: Tables, min: nat, max: nat, s: string, i: nat, j: nat) returns (k: nat)
    requires Sensible(u) && i < j && Repeats(u, CardGroup(), min, AtMost(max), s, i, j)
    ensures max > 0 && i < k <= j <= |s| && u.digit(s[i]) && Gap(s, i + 1, k)
    ensures Repeats(u, CardGroup(), Dec(min), AtMost(Dec(max)), s, k, j)
    ensures DigitCount(u, s, i, j) == 1 + DigitCount(u, s, k, j)
  {
    k := RepeatSplits(u, CardGroup(), min, AtMost(max), s, i, j);
    GroupIs(u, s, i, k);
    GapCounts(u, s, i + 1, k, j);
  }

  lemma {:induction false} GroupsAre(u: Tables, min: nat, max: nat, s: string, i: nat, j: nat)
    requires Sensible(u)
    ensures Repeats(u, CardGroup(), min, AtMost(max), s, i, j) <==>
            CardRun(u, s, i, j) && min <= DigitCount(u, s, i, j) <= max
    decreases if i <= j then j - i else 0
  {
    if i < j <= |s| {
      if Repeats(u, CardGroup(), min, AtMost(max), s, i, j) {
        var k := GroupSplits(u, min, max, s, i, j);
        GroupsAre(u, Dec(min), Dec(max), s, k, j);
      }
      if CardRun(u, s, i, j) && min <= DigitCount(u, s, i, j) <= max {
        var k := NextDigit(u, s, i + 1, j);
        GapCounts(u, s, i + 1, k, j);
        GroupIs(u, s, i, k);
        GroupsAre(u, Dec(min), Dec(max), s, k, j);
        RepeatJoins(u, CardGroup(), min, AtMost(max), s, i, k, j);
      }
    }
  }

  lemma CardIs(u: Tables, s: string, i: nat, j: nat)
    requires Sensible(u)
    ensures Matches(u, Pattern(CC), s, i, j) <==> CardShape(u, s, i, j)
  {
    assert CardBody() == Repeat(CardGroup(), 13, AtMost(19), true);
    BoundedIs(u, CardBody(), s, i, j);
    GroupsAre(u, 13, 19, s, i, j);
  }

  // ---------------------------------------------------------------------------------------------
  // E-mail addresses
  // ---------------------------------------------------------------------------------------------

  const LOCAL := CharSet(true, false, false, ".+-")
  const HOST := CharSet(true, false, false, ".-")
  const LETTER := CharSet(false, false, true, "")

  function Some(cs: CharSet, min: nat): Re {
    Repeat(Chars(cs), min, Unbounded, true)
  }

  function TopLevel(): Re {
    Cat(Literal('.'), Some(LETTER, 2))
  }

  function HostAndTop(): Re {
    Cat(Some(HOST, 1), TopLevel())
  }

  predicate AllHave(u: Tables, cs: CharSet, s: string, i: nat, j: nat) {
    i <= j <= |s| && forall k :: i <= k < j ==> Has(u, cs, s[k])
  }

  lemma SomeSplits(u: Tables, cs: CharSet, min: nat, rest: Re, s: string, i: nat, j: nat) returns (k: nat)
    requires Matches(u, Cat(Some(cs, min), rest), s, i, j)
    ensures AllHave(u, cs, s, i, k) && min <= k - i && Matches(u, rest, s, k, j)
  {
    k := CatSplits(u, Some(cs, min), rest, s, i, j);
    RepeatCharsIs(u, cs, min, Unbounded, s, i, k);
  }

  lemma SomeJoins(u: Tables, cs: CharSet, min: nat, rest: Re, s: string, i: nat, k: nat, j: nat)
    requires AllHave(u, cs, s, i, k) && min <= k - i && Matches(u, rest, s, k, j)
    ensures Matches(u, Cat(Some(cs, min), rest), s, i, j)
  {
    RepeatCharsIs(u, cs, min, Unbounded, s, i, k);
    CatJoins(u, Some(cs, min), rest, s, i, k, j);
  }

  lemma TopLevelIs(u: Tables, s: string, i: nat, j: nat)
    ensures Matches(u, TopLevel(), s, i, j) <==> i < |s| && s[i] == '.' && AllHave(u, LETTER, s, i + 1, j) && j - i > 2
  {
    LiteralThen(u, '.', Some(LETTER, 2), s, i, j);
    RepeatCharsIs(u, LETTER, 2, Unbounded, s, i + 1, j);
  }

  /** @, host and top level */
  function SignAndHost(): Re {
    Cat(Literal('@'), HostAndTop())
  }

  predicate HostParts(u: Tables, s: string, i: nat, j: nat, d: nat) {
    && i < |s| && s[i] == '@' && AllHave(u, HOST, s, i + 1, d) && d > i + 1
    && d < |s| && s[d] == '.' && AllHave(u, LETTER, s, d + 1, j) && j - d > 2
  }

  lemma HostSplits(u: Tables, s: string, i: nat, j: nat) returns (d: nat)
    requires Matches(u, SignAndHost(), s, i, j)
    ensures HostParts(u, s, i, j, d)
  {
    LiteralThen(u, '@', HostAndTop(), s, i, j);
    d := SomeSplits(u, HOST, 1, TopLevel(), s, i + 1, j);
    TopLevelIs(u, s, d, j);
  }

  lemma HostJoins(u: Tables, s: string, i: nat, j: nat, d: nat)
    requires HostParts(u, s, i, j, d)
    ensures Matches(u, SignAndHost(), s, i, j)
  {
    TopLevelIs(u, s, d, j);
    SomeJoins(u, HOST, 1, TopLevel(), s, i + 1, d, j);
    LiteralThen(u, '@', HostAndTop(), s, i, j);
  }

  lemma PartsAre(u: Tables, s: string, i: nat, j: nat, a: nat, d: nat)
    ensures EmailParts(u, s, i, j, a, d) <==> i < a && AllHave(u, LOCAL, s, i, a) && HostParts(u, s, a, j, d)
  {
    assert forall c: char :: Has(u, LOCAL, c) <==> LocalChar(u, c);
    assert forall c: char :: Has(u, HOST, c) <==> HostChar(u, c);
    assert forall c: char :: Has(u, LETTER, c) <==> AsciiLetter(c);
  }

  lemma EmailBodyIs(u: Tables, s: string, i: nat, j: nat)
    ensures Matches(u, EmailBody(), s, i, j) <==> exists a: nat, d: nat :: EmailParts(u, s, i, j, a, d)
  {
    assert EmailBody() == Cat(Some(LOCAL, 1), SignAndHost());
    if Matches(u, EmailBody(), s, i, j) {
      var a := SomeSplits(u, LOCAL, 1, SignAndHost(), s, i, j);
      var d := HostSplits(u, s, a, j);
      PartsAre(u, s, i, j, a, d);
    }
    if a: nat, d: nat :| EmailParts(u, s, i, j, a, d) {
      PartsAre(u, s, i, j, a, d);
      HostJoins(u, s, a, j, d);
      SomeJoins(u, LOCAL, 1, SignAndHost(), s, i, a, j);
    }
  }

  lemma EmailIs(u: Tables, s: string, i: nat, j: nat)
    ensures Matches(u, Pattern(EMAIL), s, i, j) <==> EmailShape(u, s, i, j)
  {
    BoundedIs(u, EmailBody(), s, i, j);
    EmailBodyIs(u, s, i, j);
  }

  // ---------------------------------------------------------------------------------------------
  // Phone numbers
  // ---------------------------------------------------------------------------------------------

  lemma CharThen(u: Tables, c: char, rest: Re, s: string, i: nat, j: nat) returns (k: nat)
    requires Matches(u, Cat(Optional(Literal(c)), rest), s, i, j)
    ensures i <= k <= i + 1 && k <= |s| && (k > i ==> s[i] == c) && Matches(u, rest, s, k, j)
  {
    k := CatSplits(u, Optional(Literal(c)), rest, s, i, j);
    CharIs(u, c, s, i, k);
  }

  lemma SeparatorThen(u: Tables, rest: Re, s: string, i: nat, j: nat) returns (k: nat)
    requires Matches(u, Cat(Optional(OneOf(" .-")), rest), s, i, j)
    ensures i <= k <= i + 1 && k <= |s| && (k > i ==> Separator(s[i])) && Matches(u, rest, s, k, j)
  {
    k := CatSplits(u, Optional(OneOf(" .-")), rest, s, i, j);
    SeparatorIs(u, s, i, k);
  }

  /** \d{3}\)? and what follows */
  function AreaAndTail(): Re {
    Cat(Digits(3, 3), CloseAndTail())
  }

  lemma HeadSplits(u: Tables, s: string, i: nat, j: nat) returns (a: nat, b: nat, c: nat, d: nat)
    requires Matches(u, PhoneBody(), s, i, j)
    ensures i <= a <= i + 1 && a <= b <= a + 1 && b <= c <= b + 1 && c <= d <= c + 1 && d <= |s|
    ensures (a > i ==> s[i] == '+') && (b > a ==> s[a] == '1') && (c > b ==> Separator(s[b])) && (d > c ==> s[c] == '(')
    ensures d + 3 <= |s| && AllDigits(u, s, d, d + 3) && Matches(u, CloseAndTail(), s, d + 3, j)
  {
    var r4 := Cat(Optional(Literal('(')), AreaAndTail());
    var r3 := Cat(Optional(OneOf(" .-")), r4);
    var r2 := Cat(Optional(Literal('1')), r3);
    a := CharThen(u, '+', r2, s, i, j);
    b := CharThen(u, '1', r3, s, a, j);
    c := SeparatorThen(u, r4, s, b, j);
    d := CharThen(u, '(', AreaAndTail(), s, c, j);
    AreaThen(u, s, d, j);
  }

  lemma PhoneBodySplits(u: Tables, s: string, i: nat, j: nat) returns (w: Phone)
    requires Matches(u, PhoneBody(), s, i, j)
    ensures PhoneParts(u, s, i, j, w)
  {
    var a, b, c, d := HeadSplits(u, s, i, j);
    var f, g, l := CloseSplits(u, s, d + 3, j);
    w := Phone(a - i, b - a, c - b, d - c, f - (d + 3), g - f, l - (g + 3));
    Assembled(u, s, i, a, b, c, d, f, g, l, w);
  }

  /** The pieces, end to end. */
  lemma Assembled(u: Tables, s: string, i: nat, a: nat, b: nat, c: nat, d: nat, f: nat, g: nat, l: nat, w: Phone)
    requires i <= a <= i + 1 && a <= b <= a + 1 && b <= c <= b + 1 && c <= d <= c + 1
    requires d + 3 <= f <= d + 4 && f <= g <= f + 1 && g + 3 <= l <= g + 4 && l + 4 <= |s|
    requires w == Phone(a - i, b - a, c - b, d - c, f - (d + 3), g - f, l - (g + 3))
    requires (a > i ==> s[i] == '+') && (b > a ==> s[a] == '1')
    requires (c > b ==> Separator(s[b])) && (d > c ==> s[c] == '(')
    requires (f > d + 3 ==> s[d + 3] == ')') && (g > f ==> Separator(s[f])) && (l > g + 3 ==> Separator(s[g + 3]))
    requires AllDigits(u, s, d, d + 3) && AllDigits(u, s, g, g + 3) && AllDigits(u, s, l, l + 4)
    ensures PhoneParts(u, s, i, l + 4, w)
  {
  }

  lemma AreaThen(u: Tables, s: string, d: nat, j: nat)
    ensures Matches(u, AreaAndTail(), s, d, j) <==>
            d + 3 <= |s| && AllDigits(u, s, d, d + 3) && Matches(u, CloseAndTail(), s, d + 3, j)
  {
    DigitsThen(u, 3, CloseAndTail(), s, d, j);
  }

  /** \)? and what follows */
  function CloseAndTail(): Re {
    Cat(Optional(Literal(')')), PhoneTail())
  }

  lemma CloseSplits(u: Tables, s: string, e: nat, j: nat) returns (f: nat, g: nat, l: nat)
    requires Matches(u, CloseAndTail(), s, e, j)
    ensures e <= f <= e + 1 && f <= g <= f + 1 && g + 3 <= l <= g + 4 && j == l + 4 <= |s|
    ensures (f > e ==> s[e] == ')') && (g > f ==> Separator(s[f])) && (l > g + 3 ==> Separator(s[g + 3]))
    ensures AllDigits(u, s, g, g + 3) && AllDigits(u, s, l, l + 4)
  {
    f := CharThen(u, ')', PhoneTail(), s, e, j);
    var h;
    g, h, l := TailSplits(u, s, f, j);
  }

  /** [ .-]?\d{3}[ .-]?\d{4} */
  lemma TailSplits(u: Tables, s: string, i: nat, j: nat) returns (g: nat, h: nat, l: nat)
    requires Matches(u, PhoneTail(), s, i, j)
    ensures i <= g <= i + 1 && h == g + 3 && h <= l <= h + 1 && j == l + 4 <= |s|
    ensures (g > i ==> Separator(s[i])) && (l > h ==> Separator(s[h]))
    ensures AllDigits(u, s, g, h) && AllDigits(u, s, l, j)
  {
    var r2 := Cat(Optional(OneOf(" .-")), Digits(4, 4));
    g := SeparatorThen(u, Cat(Digits(3, 3), r2), s, i, j);
    h := g + 3;
    DigitsThen(u, 3, r2, s, g, j);
    l := SeparatorThen(u, Digits(4, 4), s, h, j);
    DigitsIs(u, 4, 4, s, l, j);
  }

  lemma CharIs(u: Tables, c: char, s: string, i: nat, j: nat)
    ensures Matches(u, Optional(Literal(c)), s, i, j) <==> i <= j <= |s| && j - i <= 1 && (j == i + 1 ==> s[i] == c)
  {
    OptionalIs(u, CharSet(false, false, false, [c]), s, i, j);
  }

  lemma SeparatorIs(u: Tables, s: string, i: nat, j: nat)
    ensures Matches(u, Optional(OneOf(" .-")), s, i, j) <==>
            i <= j <= |s| && j - i <= 1 && (j == i + 1 ==> Separator(s[i]))
  {
    OptionalIs(u, CharSet(false, false, false, " .-"), s, i, j);
    assert forall c: char :: c in " .-" <==> Separator(c);
  }

  lemma TailJoins(u: Tables, s: string, i: nat, g: nat, h: nat, l: nat, j: nat)
    requires i <= g <= i + 1 && h == g + 3 && h <= l <= h + 1 && j == l + 4 <= |s|
    requires (g > i ==> Separator(s[i])) && (l > h ==> Separator(s[h]))
    requires AllDigits(u, s, g, h) && AllDigits(u, s, l, j)
    ensures Matches(u, PhoneTail(), s, i, j)
  {
    var gap := Optional(OneOf(" .-"));
    var r2 := Cat(gap, Digits(4, 4));
    SeparatorIs(u, s, i, g);
    DigitsIs(u, 3, 3, s, g, h);
    SeparatorIs(u, s, h, l);
    DigitsIs(u, 4, 4, s, l, j);
    CatJoins(u, gap, Digits(4, 4), s, h, l, j);
    CatJoins(u, Digits(3, 3), r2, s, g, h, j);
    CatJoins(u, gap, Cat(Digits(3, 3), r2), s, i, g, j);
  }

  lemma CharJoins(u: Tables, c: char, rest: Re, s: string, i: nat, k: nat, j: nat)
    requires i <= k <= i + 1 && k <= |s| && (k > i ==> s[i] == c) && Matches(u, rest, s, k, j)
    ensures Matches(u, Cat(Optional(Literal(c)), rest), s, i, j)
  {
    CharIs(u, c, s, i, k);
    CatJoins(u, Optional(Literal(c)), rest, s, i, k, j);
  }

  lemma SeparatorJoins(u: Tables, rest: Re, s: string, i: nat, k: nat, j: nat)
    requires i <= k <= i + 1 && k <= |s| && (k > i ==> Separator(s[i])) && Matches(u, rest, s, k, j)
    ensures Matches(u, Cat(Optional(OneOf(" .-")), rest), s, i, j)
  {
    SeparatorIs(u, s, i, k);
    CatJoins(u, Optional(OneOf(" .-")), rest, s, i, k, j);
  }

  lemma AreaJoins(u: Tables, s: string, d: nat, f: nat, g: nat, l: nat)
    requires d + 3 <= f <= d + 4 && f <= g <= f + 1 && g + 3 <= l <= g + 4 && l + 4 <= |s|
    requires (f > d + 3 ==> s[d + 3] == ')') && (g > f ==> Separator(s[f])) && (l > g + 3 ==> Separator(s[g + 3]))
    requires AllDigits(u, s, d, d + 3) && AllDigits(u, s, g, g + 3) && AllDigits(u, s, l, l + 4)
    ensures Matches(u, AreaAndTail(), s, d, l + 4)
  {
    TailJoins(u, s, f, g, g + 3, l, l + 4);
    CharJoins(u, ')', PhoneTail(), s, d + 3, f, l + 4);
    AreaThen(u, s, d, l + 4);
  }

  lemma HeadJoins(u: Tables, s: string, i: nat, a: nat, b: nat, c: nat, d: nat, j: nat)
    requires i <= a <= i + 1 && a <= b <= a + 1 && b <= c <= b + 1 && c <= d <= c + 1 && d <= |s|
    requires (a > i ==> s[i] == '+') && (b > a ==> s[a] == '1')
    requires (c > b ==> Separator(s[b])) && (d > c ==> s[c] == '(')
    requires Matches(u, AreaAndTail(), s, d, j)
    ensures Matches(u, PhoneBody(), s, i, j)
  {
    var r4 := Cat(Optional(Literal('(')), AreaAndTail());
    var r3 := Cat(Optional(OneOf(" .-")), r4);
    var r2 := Cat(Optional(Literal('1')), r3);
    CharJoins(u, '(', AreaAndTail(), s, c, d, j);
    SeparatorJoins(u, r4, s, b, c, j);
    CharJoins(u, '1', r3, s, a, b, j);
    CharJoins(u, '+', r2, s, i, a, j);
  }

  lemma PhoneBodyJoins(u: Tables, s: string, i: nat, j: nat, w: Phone)
    requires PhoneParts(u, s, i, j, w)
    ensures Matches(u, PhoneBody(), s, i, j)
  {
    var a := i + w.plus;
    var b := a + w.one;
    var c := b + w.gap;
    var d := c + w.open;
    var f := d + 3 + w.close;
    var g := f + w.gap2;
    AreaJoins(u, s, d, f, g, g + 3 + w.gap3);
    HeadJoins(u, s, i, a, b, c, d, j);
  }

  lemma PhoneIs(u: Tables, s: string, i: nat, j: nat)
    requires Sensible(u)
    ensures Matches(u, Pattern(PHONE), s, i, j) <==> PhoneShape(u, s, i, j)
  {
    BoundedIs(u, PhoneBody(), s, i, j);
    if Matches(u, PhoneBody(), s, i, j) {
      var w := PhoneBodySplits(u, s, i, j);
    }
    if w :| PhoneParts(u, s, i, j, w) {
      PhoneBodyJoins(u, s, i, j, w);
      assert u.digit(s[j - 1]);
    }
  }

  /** What each pattern matches is exactly what has its shape. */
  lemma PatternIsShape(u: Tables, c: Category, s: string, i: nat, j: nat)
    requires Sensible(u)
    ensures Matches(u, Pattern(c), s, i, j) <==> Shape(u, c, s, i, j)
  {
    match c
    case CC => CardIs(u, s, i, j);
    case SSN => SsnIs(u, s, i, j);
    case EMAIL => EmailIs(u, s, i, j);
    case PHONE => PhoneIs(u, s, i, j);
    case CVV => CvvIs(u, s, i, j);
  }
}
