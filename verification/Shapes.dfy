/** What apps/api/app/services/redaction.py looks for, character by character: the shape of a card number,
    a social security number, an e-mail address, a phone number and a card's check digits. */
module Shapes {
  import opened Regex

  datatype Category = CC | SSN | EMAIL | PHONE | CVV

  /** There is a word character at `k`. */
  predicate WordAt(u: Tables, s: string, k: int) {
    0 <= k < |s| && u.word(s[k])
  }

  /** A word begins or ends here. */
  predicate Edge(u: Tables, s: string, k: int) {
    WordAt(u, s, k - 1) != WordAt(u, s, k)
  }

  predicate AllDigits(u: Tables, s: string, i: nat, j: nat) {
    i <= j <= |s| && forall k :: i <= k < j ==> u.digit(s[k])
  }

  /** ddd-dd-dddd, next to no word character. */
  predicate SsnShape(u: Tables, s: string, i: nat, j: nat) {
    && j == i + 11 && j <= |s| && s[i + 3] == '-' && s[i + 6] == '-'
    && AllDigits(u, s, i, i + 3) && AllDigits(u, s, i + 4, i + 6) && AllDigits(u, s, i + 7, i + 11)
    && !WordAt(u, s, i - 1) && !WordAt(u, s, j)
  }

  /** Three or four digits, next to no word character. */
  predicate CvvShape(u: Tables, s: string, i: nat, j: nat) {
    (j == i + 3 || j == i + 4) && AllDigits(u, s, i, j) && !WordAt(u, s, i - 1) && !WordAt(u, s, j)
  }

  function DigitCount(u: Tables, s: string, i: nat, j: nat): nat
    requires i <= j <= |s|
    decreases j - i
  {
    if i == j then 0 else (if u.digit(s[i]) then 1 else 0) + DigitCount(u, s, i + 1, j)
  }

  /** It begins with a digit; digits, blanks and hyphens, 13 to 19 of them digits. */
  predicate CardShape(u: Tables, s: string, i: nat, j: nat) {
    && i < j <= |s| && u.digit(s[i]) && (forall k :: i <= k < j ==> u.digit(s[k]) || s[k] == ' ' || s[k] == '-')
    && 13 <= DigitCount(u, s, i, j) <= 19
    && !WordAt(u, s, i - 1) && Edge(u, s, j)
  }

  predicate LocalChar(u: Tables, c: char) {
    u.word(c) || c == '.' || c == '+' || c == '-'
  }

  predicate HostChar(u: Tables, c: char) {
    u.word(c) || c == '.' || c == '-'
  }

  /** The sign is at `a`, the last dot that counts at `d`: local part, host, and two letters or more. */
  predicate EmailParts(u: Tables, s: string, i: nat, j: nat, a: nat, d: nat) {
    && i < a && a + 1 < d && d + 2 < j <= |s| && s[a] == '@' && s[d] == '.'
    && (forall k :: i <= k < a ==> LocalChar(u, s[k]))
    && (forall k :: a < k < d ==> HostChar(u, s[k]))
    && (forall k :: d < k < j ==> AsciiLetter(s[k]))
  }

  ghost predicate EmailShape(u: Tables, s: string, i: nat, j: nat) {
    (exists a: nat, d: nat :: EmailParts(u, s, i, j, a, d)) && Edge(u, s, i) && Edge(u, s, j)
  }

  /** Which of the optional characters are there: 0 or 1 each. */
  datatype Phone = Phone(plus: nat, one: nat, gap: nat, open: nat, close: nat, gap2: nat, gap3: nat)

  predicate Separator(c: char) {
    c == ' ' || c == '.' || c == '-'
  }

  /** +1 (ddd) ddd-dddd, where all but the ten digits may be missing. */
  predicate PhoneParts(u: Tables, s: string, i: nat, j: nat, w: Phone) {
    var one := i + w.plus;
    var gap := one + w.one;
    var open := gap + w.gap;
    var area := open + w.open;
    var close := area + 3;
    var gap2 := close + w.close;
    var exchange := gap2 + w.gap2;
    var gap3 := exchange + 3;
    var line := gap3 + w.gap3;
    && w.plus <= 1 && w.one <= 1 && w.gap <= 1 && w.open <= 1 && w.close <= 1 && w.gap2 <= 1 && w.gap3 <= 1
    && j == line + 4 && j <= |s|
    && (w.plus == 1 ==> s[i] == '+') && (w.one == 1 ==> s[one] == '1') && (w.gap == 1 ==> Separator(s[gap]))
    && (w.open == 1 ==> s[open] == '(') && (w.close == 1 ==> s[close] == ')')
    && (w.gap2 == 1 ==> Separator(s[gap2])) && (w.gap3 == 1 ==> Separator(s[gap3]))
    && AllDigits(u, s, area, area + 3) && AllDigits(u, s, exchange, exchange + 3) && AllDigits(u, s, line, line + 4)
  }

  ghost predicate PhoneShape(u: Tables, s: string, i: nat, j: nat) {
    (exists w :: PhoneParts(u, s, i, j, w)) && Edge(u, s, i) && !WordAt(u, s, j)
  }

  ghost predicate Shape(u: Tables, c: Category, s: string, i: nat, j: nat) {
    match c
    case CC => CardShape(u, s, i, j)
    case SSN => SsnShape(u, s, i, j)
    case EMAIL => EmailShape(u, s, i, j)
    case PHONE => PhoneShape(u, s, i, j)
    case CVV => CvvShape(u, s, i, j)
  }

  /** The text has a stretch of the shape. */
  ghost predicate HasShape(u: Tables, c: Category, s: string) {
    exists i: nat, j: nat :: Shape(u, c, s, i, j)
  }

  // ---------------------------------------------------------------------------------------------
  // The building blocks of the patterns
  // ---------------------------------------------------------------------------------------------

  lemma CatSplits(u: Tables, a: Re, b: Re, s: string, i: nat, j: nat) returns (k: nat)
    requires Matches(u, Cat(a, b), s, i, j)
    ensures Matches(u, a, s, i, k) && Matches(u, b, s, k, j)
  {
    k :| Matches(u, a, s, i, k) && Matches(u, b, s, k, j);
  }

  lemma CatJoins(u: Tables, a: Re, b: Re, s: string, i: nat, k: nat, j: nat)
    requires Matches(u, a, s, i, k) && Matches(u, b, s, k, j)
    ensures Matches(u, Cat(a, b), s, i, j)
  {
  }

  lemma RepeatSplits(u: Tables, body: Re, min: nat, max: Max, s: string, i: nat, j: nat) returns (k: nat)
    requires Repeats(u, body, min, max, s, i, j) && i < j
    ensures max != AtMost(0) && i < k <= j && Matches(u, body, s, i, k)
    ensures Repeats(u, body, Dec(min), Less(max), s, k, j)
  {
    k :| i < k <= j && Matches(u, body, s, i, k) && Repeats(u, body, Dec(min), Less(max), s, k, j);
  }

  lemma RepeatJoins(u: Tables, body: Re, min: nat, max: Max, s: string, i: nat, k: nat, j: nat)
    requires max != AtMost(0) && i < k <= j && Matches(u, body, s, i, k)
    requires Repeats(u, body, Dec(min), Less(max), s, k, j)
    ensures Repeats(u, body, min, max, s, i, j)
  {
  }

  lemma {:induction false} RepeatCharsIs(u: Tables, cs: CharSet, min: nat, max: Max, s: string, i: nat, j: nat)
    ensures Repeats(u, Chars(cs), min, max, s, i, j) <==>
            && i <= j <= |s| && min <= j - i && (max.AtMost? ==> j - i <= max.n)
            && forall k :: i <= k < j ==> Has(u, cs, s[k])
    decreases if i <= j then j - i else 0
  {
    if i < j <= |s| {
      RepeatCharsIs(u, cs, Dec(min), Less(max), s, i + 1, j);
      if Repeats(u, Chars(cs), min, max, s, i, j) {
        var k := RepeatSplits(u, Chars(cs), min, max, s, i, j);
        assert k == i + 1;
      }
      if Has(u, cs, s[i]) && Repeats(u, Chars(cs), Dec(min), Less(max), s, i + 1, j) && max != AtMost(0) {
        RepeatJoins(u, Chars(cs), min, max, s, i, i + 1, j);
      }
    }
  }

  lemma OptionalIs(u: Tables, cs: CharSet, s: string, i: nat, j: nat)
    ensures Matches(u, Repeat(Chars(cs), 0, AtMost(1), true), s, i, j) <==>
            i <= j <= |s| && j - i <= 1 && (j == i + 1 ==> Has(u, cs, s[i]))
  {
    RepeatCharsIs(u, cs, 0, AtMost(1), s, i, j);
  }

  lemma BoundaryIsEdge(u: Tables, s: string, i: nat)
    requires i <= |s|
    ensures AtBoundary(u, s, i) <==> Edge(u, s, i)
  {
  }

  /** \b r \b */
  lemma BoundedIs(u: Tables, r: Re, s: string, i: nat, j: nat)
    ensures Matches(u, Cat(Boundary, Cat(r, Boundary)), s, i, j) <==>
            Matches(u, r, s, i, j) && Edge(u, s, i) && Edge(u, s, j)
  {
    if Matches(u, Cat(Boundary, Cat(r, Boundary)), s, i, j) {
      var k := CatSplits(u, Boundary, Cat(r, Boundary), s, i, j);
      var l := CatSplits(u, r, Boundary, s, k, j);
    }
    if Matches(u, r, s, i, j) && Edge(u, s, i) && Edge(u, s, j) {
      CatJoins(u, r, Boundary, s, i, j, j);
      CatJoins(u, Boundary, Cat(r, Boundary), s, i, i, j);
    }
  }
}
