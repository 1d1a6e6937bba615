/** The part of Python's `re` that apps/api/app/services/redaction.py relies on: character sets,
    word boundaries, concatenation, greedy and lazy repetition, and `Pattern.sub`.

    `Matches` says declaratively which stretches of a text a pattern matches. `Ends` is the
    backtracking engine: it lists, in the order in which the engine tries them, the ends of all
    matches that begin at a position. `Sub` takes the first. */
module Regex {

  /** Python's Unicode tables for \w and \d. */
  datatype Tables = Tables(word: char -> bool, digit: char -> bool)

  predicate AsciiLetter(c: char) {
    'a' <= c <= 'z' || 'A' <= c <= 'Z'
  }

  predicate AsciiDigit(c: char) {
    '0' <= c <= '9'
  }

  lemma AsciiIs(c: char)
    ensures AsciiLetter(c) <==>
            c in {'a', 'b', 'c', 'd', 'e', 'f', 'g', 'h', 'i', 'j', 'k', 'l', 'm', 'n', 'o', 'p', 'q', 'r', 's', 't',
              'u', 'v', 'w', 'x', 'y', 'z', 'A', 'B', 'C', 'D', 'E', 'F', 'G', 'H', 'I', 'J', 'K', 'L', 'M', 'N',
              'O', 'P', 'Q', 'R', 'S', 'T', 'U', 'V', 'W', 'X', 'Y', 'Z'}
    ensures AsciiDigit(c) <==> c in {'0', '1', '2', '3', '4', '5', '6', '7', '8', '9'}
  {
  }

  /** All that is used of the tables: digits are word characters, and both agree with ASCII. */
  ghost predicate Sensible(u: Tables) {
    && (forall c: char :: u.digit(c) ==> u.word(c))
    && (forall c: char :: c < 128 as char ==>
          && (u.digit(c) <==> AsciiDigit(c))
          && (u.word(c) <==> AsciiDigit(c) || AsciiLetter(c) || c == '_'))
  }

  /** A bracket expression: \w, \d, [a-zA-Z] and single characters. */
  datatype CharSet = CharSet(word: bool, digit: bool, letter: bool, chars: string)

  predicate Has(u: Tables, cs: CharSet, c: char) {
    (cs.word && u.word(c)) || (cs.digit && u.digit(c)) || (cs.letter && AsciiLetter(c)) || c in cs.chars
  }

  datatype Max = AtMost(n: nat) | Unbounded

  function Dec(n: nat): nat {
    if n == 0 then 0 else n - 1
  }

  function Less(m: Max): Max {
    match m case AtMost(n) => AtMost(Dec(n)) case Unbounded => Unbounded
  }

  datatype Re =
    | Chars(cs: CharSet)
    | Boundary
    | Cat(first: Re, second: Re)
    | Repeat(body: Re, min: nat, max: Max, greedy: bool)

  /** \b */
  predicate AtBoundary(u: Tables, s: string, i: nat)
    requires i <= |s|
  {
    (i > 0 && u.word(s[i - 1])) != (i < |s| && u.word(s[i]))
  }

  // ---------------------------------------------------------------------------------------------
  // What a pattern matches
  // ---------------------------------------------------------------------------------------------

  ghost predicate Matches(u: Tables, r: Re, s: string, i: nat, j: nat)
    decreases r, 0, 0
  {
    && i <= j <= |s|
    && match r
       case Chars(cs) => j == i + 1 && Has(u, cs, s[i])
       case Boundary => i == j && AtBoundary(u, s, i)
       case Cat(a, b) => exists k: nat :: Matches(u, a, s, i, k) && Matches(u, b, s, k, j)
       case Repeat(body, min, max, _) => Repeats(u, body, min, max, s, i, j)
  }

  /** Every round consumes something; in the patterns used here no repeated body is nullable. */
  ghost predicate Repeats(u: Tables, body: Re, min: nat, max: Max, s: string, i: nat, j: nat)
    decreases body, 1, if i <= j then j - i else 0
  {
    && i <= j <= |s|
    && ((min == 0 && i == j) ||
        (max != AtMost(0) &&
         (exists k: nat :: i < k <= j && Matches(u, body, s, i, k) &&
                           Repeats(u, body, Dec(min), Less(max), s, k, j))))
  }

  ghost predicate Contains(u: Tables, r: Re, s: string) {
    exists i: nat, j: nat :: Matches(u, r, s, i, j)
  }

  // ---------------------------------------------------------------------------------------------
  // The backtracking engine
  // ---------------------------------------------------------------------------------------------

  predicate Between(ends: seq<nat>, lo: nat, hi: nat) {
    forall k :: 0 <= k < |ends| ==> lo <= ends[k] <= hi
  }

  function Ends(u: Tables, r: Re, s: string, i: nat): (ends: seq<nat>)
    requires i <= |s|
    ensures Between(ends, i, |s|)
    decreases r, 0, 0, 0
  {
    match r
    case Chars(cs) => if i < |s| && Has(u, cs, s[i]) then [i + 1] else []
    case Boundary => if AtBoundary(u, s, i) then [i] else []
    case Cat(a, b) => EndsAfter(u, b, s, i, Ends(u, a, s, i))
    case Repeat(body, min, max, greedy) => RepeatEnds(u, body, min, max, greedy, s, i)
  }

  function EndsAfter(u: Tables, r: Re, s: string, i: nat, starts: seq<nat>): (ends: seq<nat>)
    requires Between(starts, i, |s|)
    ensures Between(ends, i, |s|)
    decreases r, 1, 0, |starts|
  {
    if starts == [] then []
    else Ends(u, r, s, starts[0]) + EndsAfter(u, r, s, i, starts[1..])
  }

  function RepeatEnds(u: Tables, body: Re, min: nat, max: Max, greedy: bool, s: string, i: nat): (ends: seq<nat>)
    requires i <= |s|
    ensures Between(ends, i, |s|)
    decreases body, 1, 2 * (|s| - i) + 1, 0
  {
    var stop := if min == 0 then [i] else [];
    var more := if max == AtMost(0) then []
                else RepeatAfter(u, body, Dec(min), Less(max), greedy, s, i, Ends(u, body, s, i));
    if greedy then more + stop else stop + more
  }

  function RepeatAfter(u: Tables, body: Re, min: nat, max: Max, greedy: bool, s: string, i: nat, starts: seq<nat>):
    (ends: seq<nat>)
    requires i <= |s| && Between(starts, i, |s|)
    ensures Between(ends, i, |s|)
    decreases body, 1, 2 * (|s| - i), |starts|
  {
    if starts == [] then []
    else (if starts[0] == i then [] else RepeatEnds(u, body, min, max, greedy, s, starts[0]))
         + RepeatAfter(u, body, min, max, greedy, s, i, starts[1..])
  }

  /** Backtracking is complete and sound: the engine reaches an end exactly when the pattern
      matches up to there. */
  lemma {:induction false} EndsAreMatches(u: Tables, r: Re, s: string, i: nat, j: nat)
    requires i <= |s|
    ensures j in Ends(u, r, s, i) <==> Matches(u, r, s, i, j)
    decreases r, 0, 0, 0
  {
    match r
    case Chars(_) =>
    case Boundary =>
    case Cat(a, b) =>
      EndsAfterAreMatches(u, b, s, i, Ends(u, a, s, i), j);
      forall k: nat ensures k in Ends(u, a, s, i) <==> Matches(u, a, s, i, k) {
        EndsAreMatches(u, a, s, i, k);
      }
    case Repeat(body, min, max, greedy) =>
      RepeatEndsAreMatches(u, body, min, max, greedy, s, i, j);
  }

  lemma {:induction false} EndsAfterAreMatches(u: Tables, r: Re, s: string, i: nat, starts: seq<nat>, j: nat)
    requires i <= |s| && Between(starts, i, |s|)
    ensures j in EndsAfter(u, r, s, i, starts) <==> exists k: nat :: k in starts && Matches(u, r, s, k, j)
    decreases r, 1, 0, |starts|
  {
    if starts != [] {
      EndsAreMatches(u, r, s, starts[0], j);
      EndsAfterAreMatches(u, r, s, i, starts[1..], j);
      assert starts == [starts[0]] + starts[1..];
    }
  }

  lemma {:induction false} RepeatEndsAreMatches(u: Tables, body: Re, min: nat, max: Max, greedy: bool, s: string,
                                                i: nat, j: nat)
    requires i <= |s|
    ensures j in RepeatEnds(u, body, min, max, greedy, s, i) <==> Repeats(u, body, min, max, s, i, j)
    decreases body, 1, 2 * (|s| - i) + 1, 0
  {
    if max != AtMost(0) {
      forall k: nat ensures k in Ends(u, body, s, i) <==> Matches(u, body, s, i, k) {
        EndsAreMatches(u, body, s, i, k);
      }
      RepeatAfterAreMatches(u, body, Dec(min), Less(max), greedy, s, i, Ends(u, body, s, i), j);
    }
  }

  lemma {:induction false} RepeatAfterAreMatches(u: Tables, body: Re, min: nat, max: Max, greedy: bool, s: string,
                                                 i: nat,
                                starts: seq<nat>, j: nat)
    requires i <= |s| && Between(starts, i, |s|)
    ensures j in RepeatAfter(u, body, min, max, greedy, s, i, starts) <==>
            exists k: nat :: k in starts && i < k <= j && Repeats(u, body, min, max, s, k, j)
    decreases body, 1, 2 * (|s| - i), |starts|
  {
    if starts != [] {
      var k0 := starts[0];
      if k0 != i {
        RepeatEndsAreMatches(u, body, min, max, greedy, s, k0, j);
      }
      RepeatAfterAreMatches(u, body, min, max, greedy, s, i, starts[1..], j);
      assert forall k: nat :: k in starts <==> k == k0 || k in starts[1..];
      assert j in RepeatAfter(u, body, min, max, greedy, s, i, starts) <==>
             (k0 != i && j in RepeatEnds(u, body, min, max, greedy, s, k0)) ||
             j in RepeatAfter(u, body, min, max, greedy, s, i, starts[1..]);
    }
  }

  /** One round over a character set: either it consumes s[i], or the repetition stops here. */
  lemma RepeatCharsEnds(u: Tables, cs: CharSet, min: nat, max: Max, greedy: bool, s: string, i: nat)
    requires i <= |s|
    ensures var stop := if min == 0 then [i] else [];
            RepeatEnds(u, Chars(cs), min, max, greedy, s, i) ==
            if max != AtMost(0) && i < |s| && Has(u, cs, s[i])
            then var tail := RepeatEnds(u, Chars(cs), Dec(min), Less(max), greedy, s, i + 1);
                 if greedy then tail + stop else stop + tail
            else stop
  {
    if max != AtMost(0) && i < |s| && Has(u, cs, s[i]) {
      var tail := RepeatEnds(u, Chars(cs), Dec(min), Less(max), greedy, s, i + 1);
      assert RepeatAfter(u, Chars(cs), Dec(min), Less(max), greedy, s, i, []) == [];
      assert RepeatAfter(u, Chars(cs), Dec(min), Less(max), greedy, s, i, [i + 1]) == tail + [] == tail;
    }
  }

  /** Priority: over one character set the greedy form offers its ends longest first, the lazy form
      shortest first. */
  lemma {:induction false} RepeatOrder(u: Tables, cs: CharSet, min: nat, max: Max, greedy: bool, s: string, i: nat)
    requires i <= |s|
    ensures Ordered(RepeatEnds(u, Chars(cs), min, max, greedy, s, i), greedy)
    decreases |s| - i
  {
    RepeatCharsEnds(u, cs, min, max, greedy, s, i);
    if max != AtMost(0) && i < |s| && Has(u, cs, s[i]) {
      RepeatOrder(u, cs, Dec(min), Less(max), greedy, s, i + 1);
      var tail := RepeatEnds(u, Chars(cs), Dec(min), Less(max), greedy, s, i + 1);
      OrderedWith(tail, i, if min == 0 then [i] else [], |s|, greedy);
    }
  }

  predicate Ordered(ends: seq<nat>, greedy: bool) {
    forall x, y :: 0 <= x < y < |ends| ==> if greedy then ends[x] > ends[y] else ends[x] < ends[y]
  }

  lemma OrderedWith(tail: seq<nat>, i: nat, stop: seq<nat>, hi: nat, greedy: bool)
    requires Ordered(tail, greedy) && Between(tail, i + 1, hi) && (stop == [i] || stop == [])
    ensures Ordered(if greedy then tail + stop else stop + tail, greedy)
  {
  }

  // ---------------------------------------------------------------------------------------------
  // What can be read off a pattern
  // ---------------------------------------------------------------------------------------------

  /** The least number of characters a match consumes. */
  function MinLength(r: Re): nat {
    match r
    case Chars(_) => 1
    case Boundary => 0
    case Cat(a, b) => MinLength(a) + MinLength(b)
    case Repeat(body, min, _, _) => if min == 0 then 0 else MinLength(body)
  }

  predicate BeginsAtBoundary(r: Re) {
    r.Boundary? || (r.Cat? && BeginsAtBoundary(r.first))
  }

  predicate EndsAtBoundary(r: Re) {
    r.Boundary? || (r.Cat? && EndsAtBoundary(r.second))
  }

  /** No match contains the character `c`. */
  predicate Avoids(u: Tables, r: Re, c: char) {
    match r
    case Chars(cs) => !Has(u, cs, c)
    case Boundary => true
    case Cat(a, b) => Avoids(u, a, c) && Avoids(u, b, c)
    case Repeat(body, _, _, _) => Avoids(u, body, c)
  }

  /** Every match contains a character of `cs`. */
  predicate Needs(r: Re, cs: CharSet) {
    match r
    case Chars(x) => x == cs
    case Boundary => false
    case Cat(a, b) => Needs(a, cs) || Needs(b, cs)
    case Repeat(body, min, _, _) => min > 0 && Needs(body, cs)
  }

  lemma {:induction false} MatchLength(u: Tables, r: Re, s: string, i: nat, j: nat)
    requires Matches(u, r, s, i, j)
    ensures i + MinLength(r) <= j
  {
    match r
    case Chars(_) =>
    case Boundary =>
    case Cat(a, b) =>
      var k: nat :| Matches(u, a, s, i, k) && Matches(u, b, s, k, j);
      MatchLength(u, a, s, i, k);
      MatchLength(u, b, s, k, j);
    case Repeat(body, min, max, _) =>
      if min > 0 {
        assert Repeats(u, body, min, max, s, i, j);
        var k: nat :| i < k <= j && Matches(u, body, s, i, k) && Repeats(u, body, Dec(min), Less(max), s, k, j);
        MatchLength(u, body, s, i, k);
      }
  }

  lemma {:induction false} MatchBoundaries(u: Tables, r: Re, s: string, i: nat, j: nat)
    requires Matches(u, r, s, i, j)
    ensures BeginsAtBoundary(r) ==> AtBoundary(u, s, i)
    ensures EndsAtBoundary(r) ==> AtBoundary(u, s, j)
  {
    if r.Cat? {
      var k: nat :| Matches(u, r.first, s, i, k) && Matches(u, r.second, s, k, j);
      MatchBoundaries(u, r.first, s, i, k);
      MatchBoundaries(u, r.second, s, k, j);
    }
  }

  lemma {:induction false} MatchAvoids(u: Tables, r: Re, s: string, i: nat, j: nat, c: char)
    requires Matches(u, r, s, i, j) && Avoids(u, r, c)
    ensures c !in s[i..j]
    decreases r, 0, 0
  {
    match r
    case Chars(_) =>
    case Boundary =>
    case Cat(a, b) =>
      var k: nat :| Matches(u, a, s, i, k) && Matches(u, b, s, k, j);
      MatchAvoids(u, a, s, i, k, c);
      MatchAvoids(u, b, s, k, j, c);
      assert s[i..j] == s[i..k] + s[k..j];
    case Repeat(body, min, max, _) => RepeatAvoids(u, body, min, max, s, i, j, c);
  }

  lemma {:induction false} RepeatAvoids(u: Tables, body: Re, min: nat, max: Max, s: string, i: nat, j: nat, c: char)
    requires Repeats(u, body, min, max, s, i, j) && Avoids(u, body, c)
    ensures c !in s[i..j]
    decreases body, 1, j - i
  {
    if !(min == 0 && i == j) {
      var k: nat :| i < k <= j && Matches(u, body, s, i, k) && Repeats(u, body, Dec(min), Less(max), s, k, j);
      MatchAvoids(u, body, s, i, k, c);
      RepeatAvoids(u, body, Dec(min), Less(max), s, k, j, c);
      assert s[i..j] == s[i..k] + s[k..j];
    }
  }

  lemma MatchAvoidsAt(u: Tables, r: Re, s: string, i: nat, j: nat, c: char)
    requires Matches(u, r, s, i, j) && Avoids(u, r, c)
    ensures forall m :: i <= m < j ==> s[m] != c
  {
    MatchAvoids(u, r, s, i, j, c);
    forall m | i <= m < j ensures s[m] != c {
      assert s[m] == s[i..j][m - i];
    }
  }

  lemma {:induction false} MatchNeeds(u: Tables, r: Re, s: string, i: nat, j: nat, cs: CharSet)
    requires Matches(u, r, s, i, j) && Needs(r, cs)
    ensures exists k :: i <= k < j && Has(u, cs, s[k])
  {
    match r
    case Chars(_) =>
    case Cat(a, b) =>
      var k: nat :| Matches(u, a, s, i, k) && Matches(u, b, s, k, j);
      if Needs(a, cs) {
        MatchNeeds(u, a, s, i, k, cs);
      } else {
        MatchNeeds(u, b, s, k, j, cs);
      }
    case Repeat(body, min, max, _) =>
      assert Repeats(u, body, min, max, s, i, j);
      var k: nat :| i < k <= j && Matches(u, body, s, i, k) && Repeats(u, body, Dec(min), Less(max), s, k, j);
      MatchNeeds(u, body, s, i, k, cs);
  }

  /** A match depends on the characters it consumes and on the boundaries at its two edges. */
  ghost predicate SameStretch(u: Tables, s: string, i: nat, j: nat, t: string, i': nat) {
    && i <= j <= |s| && i' + (j - i) <= |t|
    && s[i..j] == t[i'..i' + (j - i)]
    && (AtBoundary(u, s, i) ==> AtBoundary(u, t, i'))
    && (AtBoundary(u, s, j) ==> AtBoundary(u, t, i' + (j - i)))
  }

  /** Cutting a stretch in two: inside it, boundaries are the same in both texts. */
  lemma SplitStretch(u: Tables, s: string, i: nat, k: nat, j: nat, t: string, i': nat)
    requires SameStretch(u, s, i, j, t, i') && i <= k <= j
    ensures SameStretch(u, s, i, k, t, i') && SameStretch(u, s, k, j, t, i' + (k - i))
  {
    var k' := i' + (k - i);
    assert s[i..k] == s[i..j][..k - i] == t[i'..k'];
    assert s[k..j] == s[i..j][k - i..] == t[k'..i' + (j - i)];
    if i < k < j {
      assert s[k - 1] == s[i..j][k - 1 - i] == t[k' - 1];
      assert s[k] == s[i..j][k - i] == t[k'];
    }
  }

  lemma {:induction false} Transfer(u: Tables, r: Re, s: string, i: nat, j: nat, t: string, i': nat)
    requires Matches(u, r, s, i, j) && SameStretch(u, s, i, j, t, i')
    ensures Matches(u, r, t, i', i' + (j - i))
    decreases r, 0, 0
  {
    match r
    case Chars(_) => assert s[i] == s[i..j][0] == t[i'];
    case Boundary =>
    case Cat(a, b) =>
      var k: nat :| Matches(u, a, s, i, k) && Matches(u, b, s, k, j);
      SplitStretch(u, s, i, k, j, t, i');
      Transfer(u, a, s, i, k, t, i');
      Transfer(u, b, s, k, j, t, i' + (k - i));
    case Repeat(body, min, max, _) => TransferRepeats(u, body, min, max, s, i, j, t, i');
  }

  lemma {:induction false} TransferRepeats(u: Tables, body: Re, min: nat, max: Max, s: string, i: nat, j: nat,
                                           t: string, i': nat)
    requires Repeats(u, body, min, max, s, i, j) && SameStretch(u, s, i, j, t, i')
    ensures Repeats(u, body, min, max, t, i', i' + (j - i))
    decreases body, 1, j - i
  {
    if !(min == 0 && i == j) {
      var k: nat :| i < k <= j && Matches(u, body, s, i, k) && Repeats(u, body, Dec(min), Less(max), s, k, j);
      SplitStretch(u, s, i, k, j, t, i');
      Transfer(u, body, s, i, k, t, i');
      TransferRepeats(u, body, Dec(min), Less(max), s, k, j, t, i' + (k - i));
    }
  }
}
