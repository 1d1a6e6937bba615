/** The redaction pipeline of apps/api/app/services/redaction.py: five patterns substituted one
    after the other, with flags for what was found. */
module Redaction {
  import opened Regex
  import opened Shapes
  import opened Patterns
  import opened Choices
  import opened Substitution

  // ---------------------------------------------------------------------------------------------
  // The engine's choices
  // ---------------------------------------------------------------------------------------------

  /** The match the engine settles for at position `i`: the first it reaches. */
  function At(u: Tables, r: Re, s: string, i: nat): (h: Hit)
    requires i <= |s|
    ensures h.Hit? && MinLength(r) >= 1 ==> i < h.end <= |s|
  {
    var ends := Ends(u, r, s, i);
    if ends == [] then Miss
    else
      assert ends[0] in ends;
      EndsAreMatches(u, r, s, i, ends[0]);
      MatchLength(u, r, s, i, ends[0]);
      Hit(ends[0])
  }

  function Hits(u: Tables, r: Re, s: string): (hits: seq<Hit>)
    requires MinLength(r) >= 1
    ensures Advancing(hits, s)
    ensures forall i :: 0 <= i <= |s| ==> hits[i] == At(u, r, s, i)
  {
    seq(|s| + 1, i requires 0 <= i <= |s| => At(u, r, s, i))
  }

  lemma HitIsMatch(u: Tables, r: Re, s: string, i: nat, e: nat)
    requires i <= |s| && At(u, r, s, i) == Hit(e)
    ensures Matches(u, r, s, i, e)
  {
    var ends := Ends(u, r, s, i);
    assert ends[0] in ends;
    EndsAreMatches(u, r, s, i, e);
  }

  lemma MissIsNoMatch(u: Tables, r: Re, s: string, i: nat, j: nat)
    requires i <= |s| && At(u, r, s, i).Miss?
    ensures !Matches(u, r, s, i, j)
  {
    EndsAreMatches(u, r, s, i, j);
  }

  /** `pattern.search` is exact: it succeeds when the text contains a match and only then. */
  lemma SearchFinds(u: Tables, r: Re, s: string)
    requires MinLength(r) >= 1
    ensures Search(Hits(u, r, s)) <==> Contains(u, r, s)
  {
    var hits := Hits(u, r, s);
    if Search(hits) {
      var i :| 0 <= i < |hits| && hits[i].Hit?;
      HitIsMatch(u, r, s, i, hits[i].end);
    }
    if Contains(u, r, s) {
      var a: nat, b: nat :| Matches(u, r, s, a, b);
      EndsAreMatches(u, r, s, a, b);
      assert hits[a] == At(u, r, s, a);
    }
  }

  // ---------------------------------------------------------------------------------------------
  // Where a match in the output of a substitution can come from
  // ---------------------------------------------------------------------------------------------

  /** All five patterns: something is consumed, both edges are word boundaries, no bracket. */
  predicate Fit(u: Tables, r: Re) {
    && MinLength(r) >= 1
    && BeginsAtBoundary(r) && EndsAtBoundary(r)
    && Avoids(u, r, '[') && Avoids(u, r, ']')
  }

  /** A label is bracketed and holds no character of `cs`, which every match of the pattern needs. */
  ghost predicate Inert(u: Tables, tag: string, cs: CharSet) {
    && Bracketed(tag)
    && forall c :: c in tag ==> !Has(u, cs, c)
  }

  /** Every hit begins and ends at a word boundary of the text. */
  ghost predicate EdgesAtBoundaries(u: Tables, hits: seq<Hit>, s: string)
    requires Advancing(hits, s)
  {
    forall i :: 0 <= i <= |s| && hits[i].Hit? ==> AtBoundary(u, s, i) && AtBoundary(u, s, hits[i].end)
  }

  lemma HitEdges(u: Tables, p: Re, s: string)
    requires Fit(u, p)
    ensures EdgesAtBoundaries(u, Hits(u, p, s), s)
  {
    var hits := Hits(u, p, s);
    forall i | 0 <= i <= |s| && hits[i].Hit? ensures AtBoundary(u, s, i) && AtBoundary(u, s, hits[i].end) {
      HitIsMatch(u, p, s, i, hits[i].end);
      MatchBoundaries(u, p, s, i, hits[i].end);
    }
  }

  /** A match cannot begin inside a label: it would have to leave through ']' or live without a
      character it needs. */
  lemma NotInLabel(u: Tables, q: Re, cs: CharSet, out: string, tag: string, l: nat, a: nat, b: nat)
    requires Fit(u, q) && Needs(q, cs) && Inert(u, tag, cs) && InLabel(out, tag, a, l)
    ensures !Matches(u, q, out, a, b)
  {
    LabelChars(out, tag, a, l);
    if Matches(u, q, out, a, b) {
      MatchAvoidsAt(u, q, out, a, b, ']');
      MatchNeeds(u, q, out, a, b, cs);
    }
  }

  predicate Bracketed(tag: string) {
    2 <= |tag| && tag[0] == '[' && tag[|tag| - 1] == ']'
  }

  /** A word boundary at a seam of the output is one in the input. */
  lemma SeamBoundary(u: Tables, hits: seq<Hit>, tag: string, s: string, out: string, a: nat, k: nat)
    requires Sensible(u) && Bracketed(tag) && Advancing(hits, s) && EdgesAtBoundaries(u, hits, s)
    requires a <= |out| && k <= |s| && Seam(hits, tag, s, 0, out, a, k) && out[a..] == Sub(hits, tag, s, k)
    ensures AtBoundary(u, out, a) ==> AtBoundary(u, s, k)
  {
    if k < |s| && hits[k].Miss? {
      assert out[a] == out[a..][0] == s[k];
    }
  }

  /** A bracket-free stretch of the output that begins with a copied character is a stretch of the
      input, and has no boundary at its edges that the input lacks. */
  lemma StretchLifts(u: Tables, hits: seq<Hit>, tag: string, s: string, out: string, a: nat, b: nat, k: nat)
    requires Sensible(u) && Bracketed(tag) && Advancing(hits, s) && EdgesAtBoundaries(u, hits, s)
    requires Copied(hits, tag, s, 0, out, a, k)
    requires a < b <= |out| && '[' !in out[a..b]
    ensures SameStretch(u, out, a, b, s, k)
  {
    CopiedStretch(hits, tag, s, out, a, b - a, k);
    SeamBoundary(u, hits, tag, s, out, a, k);
    SeamBoundary(u, hits, tag, s, out, b, k + (b - a));
  }

  /** Any match of `q` in the output is already a match in the input, at a position where `p` does
      not match. */
  lemma SubMatchLifts(u: Tables, p: Re, q: Re, tag: string, cs: CharSet, s: string, a: nat, b: nat)
    requires Sensible(u) && Fit(u, p) && Fit(u, q) && Needs(q, cs) && Inert(u, tag, cs)
    requires Matches(u, q, Sub(Hits(u, p, s), tag, s, 0), a, b)
    ensures exists k: nat, e: nat :: k <= |s| && Matches(u, q, s, k, e) && At(u, p, s, k).Miss?
  {
    var hits := Hits(u, p, s);
    var out := Sub(hits, tag, s, 0);
    MatchLength(u, q, out, a, b);
    var k := Locate(hits, tag, s, 0, a);
    if InLabel(out, tag, a, k) {
      NotInLabel(u, q, cs, out, tag, k, a, b);
    } else {
      MatchAvoids(u, q, out, a, b, '[');
      HitEdges(u, p, s);
      StretchLifts(u, hits, tag, s, out, a, b, k);
      Transfer(u, q, out, a, b, s, k);
      assert At(u, p, s, k).Miss?;
    }
  }

  lemma SubCleans(u: Tables, p: Re, tag: string, cs: CharSet, s: string)
    requires Sensible(u) && Fit(u, p) && Needs(p, cs) && Inert(u, tag, cs)
    ensures !Contains(u, p, Sub(Hits(u, p, s), tag, s, 0))
  {
    var out := Sub(Hits(u, p, s), tag, s, 0);
    if Contains(u, p, out) {
      var a: nat, b: nat :| Matches(u, p, out, a, b);
      SubMatchLifts(u, p, p, tag, cs, s, a, b);
      var k: nat, e: nat :| k <= |s| && Matches(u, p, s, k, e) && At(u, p, s, k).Miss?;
      MissIsNoMatch(u, p, s, k, e);
    }
  }

  lemma SubAddsNoMatch(u: Tables, p: Re, q: Re, tag: string, cs: CharSet, s: string)
    requires Sensible(u) && Fit(u, p) && Fit(u, q) && Needs(q, cs) && Inert(u, tag, cs)
    requires Contains(u, q, Sub(Hits(u, p, s), tag, s, 0))
    ensures Contains(u, q, s)
  {
    var a: nat, b: nat :| Matches(u, q, Sub(Hits(u, p, s), tag, s, 0), a, b);
    SubMatchLifts(u, p, q, tag, cs, s, a, b);
  }

  // ---------------------------------------------------------------------------------------------
  // The five patterns
  // ---------------------------------------------------------------------------------------------

  function Name(c: Category): string {
    match c case CC => "CC" case SSN => "SSN" case EMAIL => "EMAIL" case PHONE => "PHONE" case CVV => "CVV"
  }

  function Tag(c: Category): string {
    "[REDACTED_" + Name(c) + "]"
  }

  function Witness(c: Category): CharSet {
    if c == EMAIL then AT_SIGN else DIGIT
  }

  /** No match contains a bracket. */
  predicate BracketFree(u: Tables, r: Re) {
    Avoids(u, r, '[') && Avoids(u, r, ']')
  }

  lemma SetIsBracketFree(u: Tables, cs: CharSet)
    requires Sensible(u) && '[' !in cs.chars && ']' !in cs.chars
    ensures BracketFree(u, Chars(cs))
  {
    assert !u.word('[') && !u.word(']');
  }

  lemma OneOfFits(u: Tables, cs: string)
    requires Sensible(u) && '[' !in cs && ']' !in cs
    ensures BracketFree(u, OneOf(cs)) && BracketFree(u, Optional(OneOf(cs)))
  {
    SetIsBracketFree(u, CharSet(false, false, false, cs));
  }

  lemma RepeatFits(u: Tables, r: Re, min: nat, max: Max, greedy: bool)
    requires BracketFree(u, r)
    ensures BracketFree(u, Repeat(r, min, max, greedy))
  {
  }

  lemma CatFits(u: Tables, a: Re, b: Re)
    requires BracketFree(u, a) && BracketFree(u, b)
    ensures BracketFree(u, Cat(a, b)) && MinLength(Cat(a, b)) == MinLength(a) + MinLength(b)
    ensures forall cs :: Needs(Cat(a, b), cs) <==> Needs(a, cs) || Needs(b, cs)
  {
  }

  lemma DigitsFit(u: Tables, lo: nat, hi: nat)
    requires Sensible(u) && lo > 0
    ensures BracketFree(u, Digits(lo, hi)) && MinLength(Digits(lo, hi)) >= 1 && Needs(Digits(lo, hi), DIGIT)
  {
    SetIsBracketFree(u, DIGIT);
  }

  lemma CardFits(u: Tables)
    requires Sensible(u)
    ensures BracketFree(u, CardBody()) && MinLength(CardBody()) >= 1 && Needs(CardBody(), DIGIT)
  {
    SetIsBracketFree(u, DIGIT);
    OneOfFits(u, " -");
    RepeatFits(u, OneOf(" -"), 0, Unbounded, false);
    CatFits(u, Chars(DIGIT), Repeat(OneOf(" -"), 0, Unbounded, false));
    RepeatFits(u, Cat(Chars(DIGIT), Repeat(OneOf(" -"), 0, Unbounded, false)), 13, AtMost(19), true);
  }

  lemma SsnFits(u: Tables)
    requires Sensible(u)
    ensures BracketFree(u, SsnBody()) && MinLength(SsnBody()) >= 1 && Needs(SsnBody(), DIGIT)
  {
    DigitsFit(u, 3, 3);
    DigitsFit(u, 2, 2);
    DigitsFit(u, 4, 4);
    OneOfFits(u, "-");
    var tail := Cat(Literal('-'), Digits(4, 4));
    CatFits(u, Literal('-'), Digits(4, 4));
    CatFits(u, Digits(2, 2), tail);
    CatFits(u, Literal('-'), Cat(Digits(2, 2), tail));
    CatFits(u, Digits(3, 3), Cat(Literal('-'), Cat(Digits(2, 2), tail)));
  }

  lemma EmailFits(u: Tables)
    requires Sensible(u)
    ensures BracketFree(u, EmailBody()) && MinLength(EmailBody()) >= 1 && Needs(EmailBody(), AT_SIGN)
  {
    SetIsBracketFree(u, CharSet(true, false, false, ".+-"));
    SetIsBracketFree(u, CharSet(true, false, false, ".-"));
    SetIsBracketFree(u, CharSet(false, false, true, ""));
    SetIsBracketFree(u, AT_SIGN);
    OneOfFits(u, ".");
    var local := Repeat(Chars(CharSet(true, false, false, ".+-")), 1, Unbounded, true);
    var host := Repeat(Chars(CharSet(true, false, false, ".-")), 1, Unbounded, true);
    var top := Cat(Literal('.'), Repeat(Chars(CharSet(false, false, true, "")), 2, Unbounded, true));
    CatFits(u, Literal('.'), Repeat(Chars(CharSet(false, false, true, "")), 2, Unbounded, true));
    CatFits(u, host, top);
    CatFits(u, Chars(AT_SIGN), Cat(host, top));
    CatFits(u, local, Cat(Chars(AT_SIGN), Cat(host, top)));
  }

  lemma PhoneFits(u: Tables)
    requires Sensible(u)
    ensures BracketFree(u, PhoneBody()) && MinLength(PhoneBody()) >= 1 && Needs(PhoneBody(), DIGIT)
  {
    DigitsFit(u, 3, 3);
    DigitsFit(u, 4, 4);
    OneOfFits(u, " .-");
    OneOfFits(u, "+");
    OneOfFits(u, "1");
    OneOfFits(u, "(");
    OneOfFits(u, ")");
    var sep := Optional(OneOf(" .-"));
    CatFits(u, sep, Digits(4, 4));
    CatFits(u, Digits(3, 3), Cat(sep, Digits(4, 4)));
    CatFits(u, sep, Cat(Digits(3, 3), Cat(sep, Digits(4, 4))));
    var r1 := Cat(Optional(Literal(')')), PhoneTail());
    CatFits(u, Optional(Literal(')')), PhoneTail());
    CatFits(u, Digits(3, 3), r1);
    var r2 := Cat(Optional(Literal('(')), Cat(Digits(3, 3), r1));
    CatFits(u, Optional(Literal('(')), Cat(Digits(3, 3), r1));
    CatFits(u, sep, r2);
    CatFits(u, Optional(Literal('1')), Cat(sep, r2));
    CatFits(u, Optional(Literal('+')), Cat(Optional(Literal('1')), Cat(sep, r2)));
  }

  lemma PatternFits(u: Tables, c: Category)
    requires Sensible(u)
    ensures Fit(u, Pattern(c)) && Needs(Pattern(c), Witness(c))
  {
    match c {
      case CC => CardFits(u);
      case SSN => SsnFits(u);
      case EMAIL => EmailFits(u);
      case PHONE => PhoneFits(u);
      case CVV => DigitsFit(u, 3, 4);
    }
    var r := Body(c);
    CatFits(u, r, Boundary);
    CatFits(u, Boundary, Cat(r, Boundary));
    assert EndsAtBoundary(Cat(r, Boundary));
  }

  lemma TagIsInert(u: Tables, c: Category, d: Category)
    requires Sensible(u)
    ensures Inert(u, Tag(c), Witness(d))
  {
    forall x | x in Tag(c) ensures !Has(u, Witness(d), x) {
      assert x in "REDACTED_" || x in Name(c) || x == '[' || x == ']';
      assert AsciiLetter(x) || x == '_' || x == '[' || x == ']';
      assert !u.digit(x);
    }
  }

  lemma TagHasOneBracket(c: Category)
    ensures Count('[', Tag(c)) == 1
  {
    var rest := "REDACTED_" + Name(c) + "]";
    assert Tag(c) == "[" + rest;
    CountConcat('[', "[", rest);
    CountAbsent('[', rest);
    CountAbsent('[', "");
    assert "["[1..] == "";
  }

  // ---------------------------------------------------------------------------------------------
  // The pipeline
  // ---------------------------------------------------------------------------------------------

  datatype RedactionResult = RedactionResult(text: string, hadPii: bool, categories: seq<Category>)

  /** The passes in the order in which they are made. */
  function Order(paymentWindow: bool): seq<Category> {
    [CC, SSN, EMAIL] + if paymentWindow then [PHONE, CVV] else []
  }

  ghost predicate Holds(u: Tables, c: Category, s: string) {
    Contains(u, Pattern(c), s)
  }

  /** One pass: if the pattern is found, its matches are replaced. */
  ghost function Pass(u: Tables, c: Category, s: string): string
    requires Sensible(u)
  {
    PatternFits(u, c);
    if Holds(u, c, s) then Sub(Hits(u, Pattern(c), s), Tag(c), s, 0) else s
  }

  ghost function After(u: Tables, cats: seq<Category>, s: string): string
    requires Sensible(u)
  {
    if cats == [] then s else After(u, cats[1..], Pass(u, cats[0], s))
  }

  /** The categories recorded: those whose pattern is found when its turn comes. */
  ghost function Found(u: Tables, cats: seq<Category>, s: string): seq<Category>
    requires Sensible(u)
  {
    if cats == [] then []
    else (if Holds(u, cats[0], s) then [cats[0]] else []) + Found(u, cats[1..], Pass(u, cats[0], s))
  }

  lemma PassCleans(u: Tables, c: Category, s: string)
    requires Sensible(u)
    ensures !Holds(u, c, Pass(u, c, s))
  {
    PatternFits(u, c);
    TagIsInert(u, c, c);
    if Holds(u, c, s) {
      SubCleans(u, Pattern(c), Tag(c), Witness(c), s);
    }
  }

  lemma PassAddsNothing(u: Tables, c: Category, d: Category, s: string)
    requires Sensible(u) && Holds(u, d, Pass(u, c, s))
    ensures Holds(u, d, s)
  {
    PatternFits(u, c);
    PatternFits(u, d);
    TagIsInert(u, c, d);
    if Holds(u, c, s) {
      SubAddsNoMatch(u, Pattern(c), Pattern(d), Tag(c), Witness(d), s);
    }
  }

  lemma {:induction false} AfterAddsNothing(u: Tables, cats: seq<Category>, d: Category, s: string)
    requires Sensible(u) && Holds(u, d, After(u, cats, s))
    ensures Holds(u, d, s)
  {
    if cats != [] {
      AfterAddsNothing(u, cats[1..], d, Pass(u, cats[0], s));
      PassAddsNothing(u, cats[0], d, s);
    }
  }

  /** Nothing is left: no stretch of the result matches any pattern that was applied, however the
      passes cut and however the matches of different patterns overlap in the input. */
  lemma {:induction false} NothingLeft(u: Tables, cats: seq<Category>, c: Category, s: string)
    requires Sensible(u) && c in cats
    ensures !Holds(u, c, After(u, cats, s))
  {
    var s' := Pass(u, cats[0], s);
    if c == cats[0] {
      PassCleans(u, c, s);
      if Holds(u, c, After(u, cats[1..], s')) {
        AfterAddsNothing(u, cats[1..], c, s');
      }
    } else {
      NothingLeft(u, cats[1..], c, s');
    }
  }

  /** A category is recorded only if the original text matched its pattern. */
  lemma {:induction false} FoundWasThere(u: Tables, cats: seq<Category>, c: Category, s: string)
    requires Sensible(u) && c in Found(u, cats, s)
    ensures c in cats && Holds(u, c, s)
  {
    if !(c == cats[0] && Holds(u, c, s)) {
      FoundWasThere(u, cats[1..], c, Pass(u, cats[0], s));
      PassAddsNothing(u, cats[0], c, s);
    }
  }

  lemma {:induction false} CleanTextUntouched(u: Tables, cats: seq<Category>, s: string)
    requires Sensible(u) && forall c :: c in cats ==> !Holds(u, c, s)
    ensures After(u, cats, s) == s && Found(u, cats, s) == []
  {
    if cats != [] {
      assert cats[0] in cats && forall c :: c in cats[1..] ==> c in cats;
      CleanTextUntouched(u, cats[1..], s);
    }
  }

  /** A pass that finds something adds an opening bracket, and no pass removes one. */
  lemma PassCounts(u: Tables, c: Category, s: string)
    requires Sensible(u)
    ensures Count('[', Pass(u, c, s)) >= Count('[', s)
    ensures Holds(u, c, s) ==> Count('[', Pass(u, c, s)) > Count('[', s)
  {
    PatternFits(u, c);
    TagHasOneBracket(c);
    if Holds(u, c, s) {
      var r := Pattern(c);
      var hits := Hits(u, r, s);
      forall i | 0 <= i <= |s| && hits[i].Hit? ensures '[' !in s[i..hits[i].end] {
        HitIsMatch(u, r, s, i, hits[i].end);
        MatchAvoids(u, r, s, i, hits[i].end, '[');
      }
      SearchFinds(u, r, s);
      SubCounts(hits, Tag(c), s, 0, '[');
      assert s[0..] == s;
    }
  }

  lemma {:induction false} FoundCounts(u: Tables, cats: seq<Category>, s: string)
    requires Sensible(u)
    ensures Count('[', After(u, cats, s)) >= Count('[', s) + |Found(u, cats, s)|
  {
    if cats != [] {
      PassCounts(u, cats[0], s);
      FoundCounts(u, cats[1..], Pass(u, cats[0], s));
    }
  }

  /** The two ways of reporting agree: the text changes exactly when a category is recorded, although
      a label may be as long as what it replaces. */
  lemma {:induction false} ChangedIffFound(u: Tables, cats: seq<Category>, s: string)
    requires Sensible(u)
    ensures After(u, cats, s) != s <==> Found(u, cats, s) != []
  {
    FoundCounts(u, cats, s);
    if Found(u, cats, s) == [] && cats != [] {
      ChangedIffFound(u, cats[1..], s);
    }
  }

  /** What a pass makes of a text: the label stands over each of the leftmost, non-overlapping
      matches, and everything between them is kept. */
  lemma PassSplices(u: Tables, c: Category, s: string) returns (cuts: seq<Cut>)
    requires Sensible(u)
    ensures Fit(u, Pattern(c)) && Leftmost(Hits(u, Pattern(c), s), 0, cuts)
    ensures Pass(u, c, s) == Splice(s, 0, cuts, Tag(c))
    ensures cuts != [] <==> Holds(u, c, s)
  {
    PatternFits(u, c);
    var hits := Hits(u, Pattern(c), s);
    SearchFinds(u, Pattern(c), s);
    cuts := SubSplices(hits, Tag(c), s, 0);
    assert s[0..] == s;
  }

  // ---------------------------------------------------------------------------------------------
  // The same, in characters
  // ---------------------------------------------------------------------------------------------

  predicate IsLabel(c: Category, tag: string) {
    match c
    case CC => tag == "[REDACTED_CC]"
    case SSN => tag == "[REDACTED_SSN]"
    case EMAIL => tag == "[REDACTED_EMAIL]"
    case PHONE => tag == "[REDACTED_PHONE]"
    case CVV => tag == "[REDACTED_CVV]"
  }

  ghost predicate BeginsAt(u: Tables, c: Category, s: string, i: nat) {
    exists e: nat :: Shape(u, c, s, i, e)
  }

  /** From `i` on, the cuts are the leftmost stretches of the shape, each as the engine chooses it, and no
      stretch begins outside them. */
  ghost predicate CutsOut(u: Tables, c: Category, s: string, i: nat, cuts: seq<Cut>)
    decreases |cuts|
  {
    if cuts == [] then i <= |s| && forall k: nat :: i <= k ==> !BeginsAt(u, c, s, k)
    else
      var cut := cuts[0];
      && i <= cut.start < cut.end <= |s| && Choice(u, c, s, cut.start, cut.end)
      && (forall k: nat :: i <= k < cut.start ==> !BeginsAt(u, c, s, k))
      && CutsOut(u, c, s, cut.end, cuts[1..])
  }

  /** `out` is `s` with the label in place of those stretches. */
  ghost predicate Replaced(u: Tables, c: Category, s: string, out: string) {
    exists cuts, tag :: CutsOut(u, c, s, 0, cuts) && IsLabel(c, tag) && out == Splice(s, 0, cuts, tag)
  }

  lemma AtIsChoice(u: Tables, c: Category, s: string, i: nat)
    requires Sensible(u) && i <= |s|
    ensures match At(u, Pattern(c), s, i) case Miss => !BeginsAt(u, c, s, i) case Hit(e) => Choice(u, c, s, i, e)
  {
    FirstEndIsChoice(u, c, s, i);
  }

  lemma HoldsMeansShape(u: Tables, c: Category, s: string)
    requires Sensible(u)
    ensures Holds(u, c, s) <==> HasShape(u, c, s)
  {
    forall i: nat, j: nat ensures Matches(u, Pattern(c), s, i, j) <==> Shape(u, c, s, i, j) {
      PatternIsShape(u, c, s, i, j);
    }
  }

  lemma NothingBeginsBeyond(u: Tables, c: Category, s: string, i: nat)
    requires i >= |s|
    ensures !BeginsAt(u, c, s, i)
  {
  }

  lemma {:induction false} LeftmostIsCutOut(u: Tables, c: Category, s: string, i: nat, cuts: seq<Cut>)
    requires Sensible(u) && Fit(u, Pattern(c)) && i <= |s| && Leftmost(Hits(u, Pattern(c), s), i, cuts)
    ensures CutsOut(u, c, s, i, cuts)
    decreases |cuts|
  {
    var hits := Hits(u, Pattern(c), s);
    forall k: nat | i <= k && (k > |s| || hits[k].Miss?) ensures !BeginsAt(u, c, s, k) {
      if k <= |s| {
        AtIsChoice(u, c, s, k);
      } else {
        NothingBeginsBeyond(u, c, s, k);
      }
    }
    if cuts != [] {
      AtIsChoice(u, c, s, cuts[0].start);
      LeftmostIsCutOut(u, c, s, cuts[0].end, cuts[1..]);
    }
  }

  lemma TagIsLabel(c: Category)
    ensures IsLabel(c, Tag(c))
  {
  }

  lemma ReplacedBy(u: Tables, c: Category, s: string, cuts: seq<Cut>, tag: string)
    requires CutsOut(u, c, s, 0, cuts) && IsLabel(c, tag)
    ensures Replaced(u, c, s, Splice(s, 0, cuts, tag))
  {
  }

  lemma PassReplaces(u: Tables, c: Category, s: string)
    requires Sensible(u)
    ensures Replaced(u, c, s, Pass(u, c, s))
  {
    var cuts := PassSplices(u, c, s);
    LeftmostIsCutOut(u, c, s, 0, cuts);
    TagIsLabel(c);
    ReplacedBy(u, c, s, cuts, Tag(c));
  }

  /** What a pass records. */
  ghost function Recorded(u: Tables, c: Category, s: string): seq<Category> {
    if HasShape(u, c, s) then [c] else []
  }

  /** The three passes, and the two more of the payment window: `t` are the texts that they make. */
  ghost predicate Pipeline(u: Tables, original: string, paymentWindow: bool, t: seq<string>, res: RedactionResult)
    requires |t| == 5
  {
    && Replaced(u, CC, original, t[0]) && Replaced(u, SSN, t[0], t[1]) && Replaced(u, EMAIL, t[1], t[2])
    && (paymentWindow ==> Replaced(u, PHONE, t[2], t[3]) && Replaced(u, CVV, t[3], t[4]))
    && res.text == (if paymentWindow then t[4] else t[2])
    && res.categories == Recorded(u, CC, original) + Recorded(u, SSN, t[0]) + Recorded(u, EMAIL, t[1])
                         + (if paymentWindow then Recorded(u, PHONE, t[2]) + Recorded(u, CVV, t[3]) else [])
    && (res.hadPii <==> res.text != original)
  }

  /** What the whole pipeline returns. */
  ghost function Redacted(u: Tables, text: string, paymentWindow: bool): RedactionResult
    requires Sensible(u)
  {
    var cats := Order(paymentWindow);
    RedactionResult(After(u, cats, text), After(u, cats, text) != text, Found(u, cats, text))
  }

  /** The closure `sub` and the list it appends to. */
  class Redactor {
    var categories: seq<Category>

    constructor ()
      ensures categories == []
    {
      categories := [];
    }

    method SubPattern(u: Tables, c: Category, s: string) returns (t: string)
      requires Sensible(u)
      modifies this
      ensures t == Pass(u, c, s)
      ensures categories == old(categories) + if Holds(u, c, s) then [c] else []
    {
      PatternFits(u, c);
      var hits := Hits(u, Pattern(c), s);
      SearchFinds(u, Pattern(c), s);
      if Search(hits) {
        categories := categories + [c];
        t := Sub(hits, Tag(c), s, 0);
      } else {
        t := s;
      }
    }
  }

  lemma {:induction false} OneMorePass(u: Tables, cats: seq<Category>, c: Category, s: string)
    requires Sensible(u)
    ensures After(u, cats + [c], s) == Pass(u, c, After(u, cats, s))
    ensures Found(u, cats + [c], s) == Found(u, cats, s) + if Holds(u, c, After(u, cats, s)) then [c] else []
  {
    if cats == [] {
      assert [c][1..] == [];
      assert Found(u, [], Pass(u, c, s)) == [];
    } else {
      OneMorePass(u, cats[1..], c, Pass(u, cats[0], s));
      assert (cats + [c])[1..] == cats[1..] + [c];
    }
  }

  /** What the caller may rely on, whatever the text. */
  lemma ResultIsSound(u: Tables, original: string, paymentWindow: bool)
    requires Sensible(u)
    ensures var res := Redacted(u, original, paymentWindow); var cats := Order(paymentWindow);
            && (forall c :: c in cats ==> !Holds(u, c, res.text))
            && (forall c :: c in res.categories ==> c in cats && Holds(u, c, original))
            && (res.hadPii <==> res.categories != [])
            && ((forall c :: c in cats ==> !Holds(u, c, original)) ==> res.text == original)
  {
    var res := Redacted(u, original, paymentWindow);
    var cats := Order(paymentWindow);
    forall c | c in cats ensures !Holds(u, c, res.text) {
      NothingLeft(u, cats, c, original);
    }
    forall c | c in res.categories ensures c in cats && Holds(u, c, original) {
      FoundWasThere(u, cats, c, original);
    }
    ChangedIffFound(u, cats, original);
    if forall c :: c in cats ==> !Holds(u, c, original) {
      CleanTextUntouched(u, cats, original);
    }
  }

  lemma PassRecords(u: Tables, c: Category, s: string)
    requires Sensible(u)
    ensures Recorded(u, c, s) == if Holds(u, c, s) then [c] else []
  {
    HoldsMeansShape(u, c, s);
  }

  /** The passes, one by one. */
  lemma {:induction false} Unrolled(u: Tables, cats: seq<Category>, c: Category, s: string, t: string,
                                    found: seq<Category>)
    requires Sensible(u) && After(u, cats, s) == t && Found(u, cats, s) == found
    ensures Replaced(u, c, t, Pass(u, c, t)) && After(u, cats + [c], s) == Pass(u, c, t)
    ensures Found(u, cats + [c], s) == found + Recorded(u, c, t)
  {
    OneMorePass(u, cats, c, s);
    PassReplaces(u, c, t);
    PassRecords(u, c, t);
  }

  /** What the three passes that are always made amount to. */
  ghost predicate Three(u: Tables, s: string, t0: string, t1: string, t2: string, found: seq<Category>) {
    && Replaced(u, CC, s, t0) && Replaced(u, SSN, t0, t1) && Replaced(u, EMAIL, t1, t2)
    && found == Recorded(u, CC, s) + Recorded(u, SSN, t0) + Recorded(u, EMAIL, t1)
  }

  lemma FirstThree(u: Tables, s: string) returns (t0: string, t1: string, t2: string, found: seq<Category>)
    requires Sensible(u)
    ensures After(u, Order(false), s) == t2 && Found(u, Order(false), s) == found && Three(u, s, t0, t1, t2, found)
  {
    t0 := Pass(u, CC, s);
    t1 := Pass(u, SSN, t0);
    t2 := Pass(u, EMAIL, t1);
    var a := Recorded(u, CC, s);
    var b := a + Recorded(u, SSN, t0);
    found := b + Recorded(u, EMAIL, t1);
    Unrolled(u, [], CC, s, s, []);
    assert [] + a == a;
    Unrolled(u, [] + [CC], SSN, s, t0, a);
    Unrolled(u, [] + [CC] + [SSN], EMAIL, s, t1, b);
    assert Order(false) == [] + [CC] + [SSN] + [EMAIL];
  }

  lemma LastTwo(u: Tables, s: string, t2: string, found: seq<Category>) returns (t3: string, t4: string)
    requires Sensible(u) && After(u, Order(false), s) == t2 && Found(u, Order(false), s) == found
    ensures After(u, Order(true), s) == t4
    ensures Found(u, Order(true), s) == found + (Recorded(u, PHONE, t2) + Recorded(u, CVV, t3))
    ensures Replaced(u, PHONE, t2, t3) && Replaced(u, CVV, t3, t4)
  {
    t3 := Pass(u, PHONE, t2);
    t4 := Pass(u, CVV, t3);
    var d := found + Recorded(u, PHONE, t2);
    Unrolled(u, Order(false), PHONE, s, t2, found);
    Unrolled(u, Order(false) + [PHONE], CVV, s, t3, d);
    assert Order(true) == Order(false) + [PHONE] + [CVV];
    assert d + Recorded(u, CVV, t3) == found + (Recorded(u, PHONE, t2) + Recorded(u, CVV, t3));
  }

  lemma RedactedIsPipeline(u: Tables, original: string, paymentWindow: bool) returns (t: seq<string>)
    requires Sensible(u)
    ensures |t| == 5 && Pipeline(u, original, paymentWindow, t, Redacted(u, original, paymentWindow))
  {
    var t0, t1, t2, found := FirstThree(u, original);
    var t3, t4 := LastTwo(u, original, t2, found);
    t := [t0, t1, t2, t3, t4];
    assert found + [] == found;
  }

  /** Of what was looked for, no stretch is left. */
  ghost predicate NoneLeft(u: Tables, text: string, paymentWindow: bool) {
    forall c, i: nat, j: nat :: c == CC || c == SSN || c == EMAIL || paymentWindow ==> !Shape(u, c, text, i, j)
  }

  lemma NoShapeLeft(u: Tables, original: string, paymentWindow: bool)
    requires Sensible(u)
    ensures NoneLeft(u, Redacted(u, original, paymentWindow).text, paymentWindow)
  {
    var text := Redacted(u, original, paymentWindow).text;
    ResultIsSound(u, original, paymentWindow);
    forall c, i: nat, j: nat | c == CC || c == SSN || c == EMAIL || paymentWindow
      ensures !Shape(u, c, text, i, j)
    {
      PatternIsShape(u, c, text, i, j);
      assert c in Order(paymentWindow);
    }
  }

  /** The passes of `cats` have made `text` and recorded `found`. */
  ghost predicate Made(u: Tables, cats: seq<Category>, s: string, text: string, found: seq<Category>)
    requires Sensible(u)
  {
    After(u, cats, s) == text && Found(u, cats, s) == found
  }

  lemma OneMoreMade(u: Tables, cats: seq<Category>, c: Category, s: string, text: string, found: seq<Category>)
    requires Sensible(u) && Made(u, cats, s, text, found)
    ensures Made(u, cats + [c], s, Pass(u, c, text), found + if Holds(u, c, text) then [c] else [])
  {
    OneMorePass(u, cats, c, s);
  }

  lemma AllMade(u: Tables, s: string, paymentWindow: bool, text: string, found: seq<Category>)
    requires Sensible(u)
    requires Made(u, [CC] + [SSN] + [EMAIL] + (if paymentWindow then [PHONE] + [CVV] else []), s, text, found)
    ensures RedactionResult(text, text != s, found) == Redacted(u, s, paymentWindow)
  {
    assert Order(paymentWindow) == [CC] + [SSN] + [EMAIL] + if paymentWindow then [PHONE] + [CVV] else [];
  }

  lemma Described(u: Tables, original: string, paymentWindow: bool, res: RedactionResult) returns (t: seq<string>)
    requires Sensible(u) && res == Redacted(u, original, paymentWindow)
    ensures forall c :: c in Order(paymentWindow) ==> !Holds(u, c, res.text)
    ensures forall c :: c in res.categories ==> c in Order(paymentWindow) && Holds(u, c, original)
    ensures res.hadPii <==> res.categories != []
    ensures |t| == 5 && Pipeline(u, original, paymentWindow, t, res) && NoneLeft(u, res.text, paymentWindow)
  {
    ResultIsSound(u, original, paymentWindow);
    t := RedactedIsPipeline(u, original, paymentWindow);
    NoShapeLeft(u, original, paymentWindow);
  }

  /** `t` are the texts that the passes make. No stretch is left of the shape of a card number, a social
      security number or an e-mail address, nor in the payment window of a phone number or of three or
      four digits. */
  method RedactInline(u: Tables, original: string, paymentWindow: bool)
    returns (res: RedactionResult, ghost t: seq<string>)
    requires Sensible(u)
    ensures res == Redacted(u, original, paymentWindow)
    ensures forall c :: c in Order(paymentWindow) ==> !Holds(u, c, res.text)
    ensures forall c :: c in res.categories ==> c in Order(paymentWindow) && Holds(u, c, original)
    ensures res.hadPii <==> res.categories != []
    ensures |t| == 5 && Pipeline(u, original, paymentWindow, t, res)
    ensures NoneLeft(u, res.text, paymentWindow)
  {
    var r := new Redactor();
    ghost var cats, text0, found := [], original, [];
    var text := r.SubPattern(u, CC, original);
    OneMoreMade(u, cats, CC, original, text0, found);
    cats, text0, found := cats + [CC], text, r.categories;
    text := r.SubPattern(u, SSN, text);
    OneMoreMade(u, cats, SSN, original, text0, found);
    cats, text0, found := cats + [SSN], text, r.categories;
    text := r.SubPattern(u, EMAIL, text);
    OneMoreMade(u, cats, EMAIL, original, text0, found);
    cats, text0, found := cats + [EMAIL], text, r.categories;
    if paymentWindow {
      text := r.SubPattern(u, PHONE, text);
      OneMoreMade(u, cats, PHONE, original, text0, found);
      cats, text0, found := cats + [PHONE], text, r.categories;
      text := r.SubPattern(u, CVV, text);
      OneMoreMade(u, cats, CVV, original, text0, found);
      cats, text0, found := cats + [CVV], text, r.categories;
    }
    assert cats == [CC] + [SSN] + [EMAIL] + if paymentWindow then [PHONE] + [CVV] else [];
    AllMade(u, original, paymentWindow, text, r.categories);
    res := RedactionResult(text, text != original, r.categories);
    t := Described(u, original, paymentWindow, res);
  }

  /** A second run changes nothing and reports nothing. */
  lemma Idempotent(u: Tables, text: string, paymentWindow: bool)
    requires Sensible(u)
    ensures var once := Redacted(u, text, paymentWindow);
            Redacted(u, once.text, paymentWindow) == RedactionResult(once.text, false, [])
  {
    var cats := Order(paymentWindow);
    var out := After(u, cats, text);
    forall c | c in cats ensures !Holds(u, c, out) {
      NothingLeft(u, cats, c, text);
    }
    CleanTextUntouched(u, cats, out);
  }
}
