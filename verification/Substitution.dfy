/** `Pattern.sub` as an operation on strings, given for every position the match, if any, that the
    engine settles for there. Nothing in this module knows what a pattern is. */
module Substitution {

  datatype Hit = Hit(end: nat) | Miss

  /** One hit or miss for each position of `s`, its end included; no hit is empty. */
  ghost predicate Advancing(hits: seq<Hit>, s: string) {
    && |hits| == |s| + 1
    && forall i :: 0 <= i <= |s| && hits[i].Hit? ==> i < hits[i].end <= |s|
  }

  /** `pattern.search`. */
  predicate Search(hits: seq<Hit>) {
    exists i :: 0 <= i < |hits| && hits[i].Hit?
  }

  /** `pattern.sub(label, s)` from position `i` on. */
  function Sub(hits: seq<Hit>, tag: string, s: string, i: nat): string
    requires Advancing(hits, s) && i <= |s|
    decreases |s| - i
  {
    if i == |s| then ""
    else match hits[i]
         case Miss => [s[i]] + Sub(hits, tag, s, i + 1)
         case Hit(e) => tag + Sub(hits, tag, s, e)
  }

  // ---------------------------------------------------------------------------------------------
  // The label is spliced over the leftmost matches and the rest is kept
  // ---------------------------------------------------------------------------------------------

  datatype Cut = Cut(start: nat, end: nat)

  /** From `i` on, the cuts are disjoint and in order, each is the hit at its start, and outside them
      there is no hit. */
  ghost predicate Leftmost(hits: seq<Hit>, i: nat, cuts: seq<Cut>)
    decreases |cuts|
  {
    if cuts == [] then forall k :: i <= k < |hits| ==> hits[k].Miss?
    else
      var c := cuts[0];
      && i <= c.start < |hits| && c.start < c.end && hits[c.start] == Hit(c.end)
      && (forall k :: i <= k < c.start ==> hits[k].Miss?)
      && Leftmost(hits, c.end, cuts[1..])
  }

  function Splice(s: string, i: nat, cuts: seq<Cut>, tag: string): string
    decreases |cuts|
  {
    if cuts == [] then (if i <= |s| then s[i..] else "")
    else if i <= cuts[0].start <= |s| then s[i..cuts[0].start] + tag + Splice(s, cuts[0].end, cuts[1..], tag)
    else ""
  }

  lemma {:induction false} SubSplices(hits: seq<Hit>, tag: string, s: string, i: nat) returns (cuts: seq<Cut>)
    requires Advancing(hits, s) && i <= |s|
    ensures Leftmost(hits, i, cuts)
    ensures Sub(hits, tag, s, i) == Splice(s, i, cuts, tag)
    ensures cuts != [] <==> exists k :: i <= k < |hits| && hits[k].Hit?
    decreases |s| - i
  {
    if i == |s| {
      cuts := [];
    } else {
      match hits[i]
      case Miss =>
        cuts := SubSplices(hits, tag, s, i + 1);
        KeepOne(hits, tag, s, i, cuts);
      case Hit(e) =>
        var rest := SubSplices(hits, tag, s, e);
        cuts := [Cut(i, e)] + rest;
        assert s[i..i] + tag == tag;
    }
  }

  lemma KeepOne(hits: seq<Hit>, tag: string, s: string, i: nat, cuts: seq<Cut>)
    requires Advancing(hits, s) && i < |s| && Leftmost(hits, i + 1, cuts) && hits[i].Miss?
    ensures Leftmost(hits, i, cuts) && Splice(s, i, cuts, tag) == [s[i]] + Splice(s, i + 1, cuts, tag)
  {
    if cuts == [] {
      assert s[i..] == [s[i]] + s[i + 1..];
    } else {
      var start := cuts[0].start;
      var rest := Splice(s, cuts[0].end, cuts[1..], tag);
      assert s[i..start] == [s[i]] + s[i + 1..start];
      assert s[i..start] + tag + rest == [s[i]] + (s[i + 1..start] + tag + rest);
    }
  }

  // ---------------------------------------------------------------------------------------------
  // Counting brackets
  // ---------------------------------------------------------------------------------------------

  function Count(c: char, s: string): nat {
    if s == "" then 0 else (if s[0] == c then 1 else 0) + Count(c, s[1..])
  }

  lemma {:induction false} CountConcat(c: char, s: string, t: string)
    ensures Count(c, s + t) == Count(c, s) + Count(c, t)
  {
    if s == "" {
      assert s + t == t;
    } else {
      CountConcat(c, s[1..], t);
      assert (s + t)[1..] == s[1..] + t;
    }
  }

  lemma {:induction false} CountAbsent(c: char, s: string)
    requires c !in s
    ensures Count(c, s) == 0
  {
    if s != "" {
      CountAbsent(c, s[1..]);
    }
  }

  ghost predicate HitsAvoid(hits: seq<Hit>, s: string, c: char)
    requires Advancing(hits, s)
  {
    forall i :: 0 <= i <= |s| && hits[i].Hit? ==> c !in s[i..hits[i].end]
  }

  /** How many hits are replaced from `i` on. */
  function Replacements(hits: seq<Hit>, s: string, i: nat): nat
    requires Advancing(hits, s) && i <= |s|
    decreases |s| - i
  {
    if i == |s| then 0
    else match hits[i]
         case Miss => Replacements(hits, s, i + 1)
         case Hit(e) => 1 + Replacements(hits, s, e)
  }

  /** If no hit contains `c` and the label contains it once, each replacement adds one. */
  lemma {:induction false} SubCounts(hits: seq<Hit>, tag: string, s: string, i: nat, c: char)
    requires Advancing(hits, s) && i <= |s| && HitsAvoid(hits, s, c) && Count(c, tag) == 1
    ensures Count(c, Sub(hits, tag, s, i)) == Count(c, s[i..]) + Replacements(hits, s, i)
    ensures (exists k :: i <= k < |s| && hits[k].Hit?) ==> Replacements(hits, s, i) > 0
    decreases |s| - i
  {
    if i < |s| {
      match hits[i]
      case Miss =>
        SubCounts(hits, tag, s, i + 1, c);
        assert s[i..] == [s[i]] + s[i + 1..];
        CountConcat(c, [s[i]], s[i + 1..]);
        CountConcat(c, [s[i]], Sub(hits, tag, s, i + 1));
      case Hit(e) =>
        SubCounts(hits, tag, s, e, c);
        assert s[i..] == s[i..e] + s[e..];
        CountConcat(c, s[i..e], s[e..]);
        CountAbsent(c, s[i..e]);
        CountConcat(c, tag, Sub(hits, tag, s, e));
    }
  }

  // ---------------------------------------------------------------------------------------------
  // Where a position of the output comes from
  // ---------------------------------------------------------------------------------------------

  ghost predicate EndOfHit(hits: seq<Hit>, k: nat) {
    exists h :: 0 <= h < |hits| && hits[h] == Hit(k)
  }

  /** What stands before position `a` of the output, if that position copies s[k]: nothing in both
      texts, the same character in both, or the label of a hit that ends at `k`. */
  ghost predicate Seam(hits: seq<Hit>, tag: string, s: string, i: nat, out: string, a: nat, k: nat) {
    || (a == 0 && k == i)
    || (0 < a <= |out| && i < k <= |s| && out[a - 1] == s[k - 1])
    || (0 < a <= |out| && tag != "" && out[a - 1] == tag[|tag| - 1] && EndOfHit(hits, k))
  }

  /** Position `a` of the output `out` of Sub(.., i) copies s[k], and the rest is made of s[k..]. */
  ghost predicate Copied(hits: seq<Hit>, tag: string, s: string, i: nat, out: string, a: nat, k: nat)
    requires Advancing(hits, s)
  {
    && a < |out| && i <= k < |s| && hits[k].Miss?
    && out[a..] == Sub(hits, tag, s, k)
    && Seam(hits, tag, s, i, out, a, k)
  }

  /** Position `a` of the output lies in a label that begins at `l`. */
  ghost predicate InLabel(out: string, tag: string, a: nat, l: nat) {
    l <= a < l + |tag| <= |out| && out[l..l + |tag|] == tag
  }

  lemma ShiftLabel(pre: string, rest: string, tag: string, a: nat, l: nat)
    requires InLabel(rest, tag, a, l)
    ensures InLabel(pre + rest, tag, |pre| + a, |pre| + l)
  {
    assert (pre + rest)[|pre| + l..|pre| + l + |tag|] == rest[l..l + |tag|];
  }

  lemma ShiftCopied(hits: seq<Hit>, tag: string, s: string, i: nat, pre: string, j: nat, rest: string, a: nat, k: nat)
    requires Advancing(hits, s) && Copied(hits, tag, s, j, rest, a, k) && i < j && pre != ""
    requires Seam(hits, tag, s, i, pre, |pre|, j)
    ensures Copied(hits, tag, s, i, pre + rest, |pre| + a, k)
  {
    var out := pre + rest;
    assert out[|pre| + a..] == rest[a..];
    if a > 0 {
      assert out[|pre| + a - 1] == rest[a - 1];
    }
  }

  /** What the first round of `Sub` emits, and where the next one begins. */
  function Emitted(hits: seq<Hit>, tag: string, s: string, i: nat): string
    requires Advancing(hits, s) && i < |s|
  {
    if hits[i].Hit? then tag else [s[i]]
  }

  function Onward(hits: seq<Hit>, s: string, i: nat): nat
    requires Advancing(hits, s) && i < |s|
  {
    if hits[i].Hit? then hits[i].end else i + 1
  }

  lemma SubRound(hits: seq<Hit>, tag: string, s: string, i: nat)
    requires Advancing(hits, s) && i < |s|
    ensures Sub(hits, tag, s, i) == Emitted(hits, tag, s, i) + Sub(hits, tag, s, Onward(hits, s, i))
  {
  }

  lemma SubAtEnd(hits: seq<Hit>, tag: string, s: string, i: nat)
    requires Advancing(hits, s) && i <= |s| && Sub(hits, tag, s, i) != ""
    ensures i < |s|
  {
  }

  /** Either in a label that begins at `k`, or a copy of s[k]. */
  ghost predicate Located(hits: seq<Hit>, tag: string, s: string, i: nat, out: string, a: nat, k: nat)
    requires Advancing(hits, s)
  {
    InLabel(out, tag, a, k) || Copied(hits, tag, s, i, out, a, k)
  }

  lemma LocateHere(hits: seq<Hit>, tag: string, s: string, i: nat, a: nat) returns (k: nat)
    requires Advancing(hits, s) && i < |s| && a < |Emitted(hits, tag, s, i)|
    ensures Located(hits, tag, s, i, Sub(hits, tag, s, i), a, k)
  {
    var out := Sub(hits, tag, s, i);
    k := if hits[i].Miss? then i else 0;
    if hits[i].Hit? {
      assert out[..|tag|] == tag;
    } else {
      assert out[0..] == out;
    }
  }

  lemma LocateLater(hits: seq<Hit>, tag: string, s: string, i: nat, a: nat, k: nat) returns (k': nat)
    requires Advancing(hits, s) && i < |s| && tag != ""
    requires var j := Onward(hits, s, i); Located(hits, tag, s, j, Sub(hits, tag, s, j), a, k)
    ensures var pre := Emitted(hits, tag, s, i);
            Located(hits, tag, s, i, pre + Sub(hits, tag, s, Onward(hits, s, i)), |pre| + a, k')
  {
    var pre, j := Emitted(hits, tag, s, i), Onward(hits, s, i);
    var rest := Sub(hits, tag, s, j);
    if InLabel(rest, tag, a, k) {
      ShiftLabel(pre, rest, tag, a, k);
      k' := |pre| + k;
    } else {
      ShiftCopied(hits, tag, s, i, pre, j, rest, a, k);
      k' := k;
    }
  }

  lemma {:induction false} Locate(hits: seq<Hit>, tag: string, s: string, i: nat, a: nat) returns (k: nat)
    requires Advancing(hits, s) && i <= |s| && a < |Sub(hits, tag, s, i)| && tag != ""
    ensures Located(hits, tag, s, i, Sub(hits, tag, s, i), a, k)
    decreases |s| - i
  {
    SubAtEnd(hits, tag, s, i);
    SubRound(hits, tag, s, i);
    var pre := Emitted(hits, tag, s, i);
    if a < |pre| {
      k := LocateHere(hits, tag, s, i, a);
    } else {
      k := Locate(hits, tag, s, Onward(hits, s, i), a - |pre|);
      k := LocateLater(hits, tag, s, i, a - |pre|, k);
    }
  }

  /** Where the output does not show the first character of the label, it is the input. */
  lemma {:induction false} Verbatim(hits: seq<Hit>, tag: string, s: string, k: nat, n: nat)
    requires Advancing(hits, s) && k <= |s| && tag != ""
    requires n <= |Sub(hits, tag, s, k)| && tag[0] !in Sub(hits, tag, s, k)[..n]
    ensures k + n <= |s|
    ensures Sub(hits, tag, s, k)[..n] == s[k..k + n] && Sub(hits, tag, s, k)[n..] == Sub(hits, tag, s, k + n)
    decreases n
  {
    var out := Sub(hits, tag, s, k);
    if n > 0 {
      assert out[0] == out[..n][0];
      var rest := Sub(hits, tag, s, k + 1);
      assert out == [s[k]] + rest;
      assert out[..n] == [s[k]] + rest[..n - 1];
      Verbatim(hits, tag, s, k + 1, n - 1);
      assert s[k..k + n] == [s[k]] + s[k + 1..k + n];
      assert out[n..] == rest[n - 1..];
    }
  }

  /** A stretch of the output that begins with a copied character and shows no label is a stretch of
      the input, and its end is a seam again. */
  lemma CopiedStretch(hits: seq<Hit>, tag: string, s: string, out: string, a: nat, n: nat, k: nat)
    requires Advancing(hits, s) && Copied(hits, tag, s, 0, out, a, k) && tag != ""
    requires 1 <= n && a + n <= |out| && tag[0] !in out[a..a + n]
    ensures k + n <= |s| && out[a..a + n] == s[k..k + n]
    ensures out[a + n..] == Sub(hits, tag, s, k + n) && Seam(hits, tag, s, 0, out, a + n, k + n)
  {
    assert out[a..][..n] == out[a..a + n];
    Verbatim(hits, tag, s, k, n);
    assert out[a..][n..] == out[a + n..];
    assert out[a + n - 1] == out[a..a + n][n - 1] == s[k..k + n][n - 1];
  }

  lemma LabelChars(out: string, tag: string, a: nat, l: nat)
    requires InLabel(out, tag, a, l)
    ensures forall m :: l <= m < l + |tag| ==> out[m] == tag[m - l]
  {
    forall m | l <= m < l + |tag| ensures out[m] == tag[m - l] {
      assert out[m] == out[l..l + |tag|][m - l];
    }
  }
}
