/** The paragraph chunker `_chunk` of apps/worker/vocalflow_worker/tasks/kb_index.py. */
module Chunker {
  import opened Basics

  const BREAK := "\n\n"

  /** text.split("\n\n"): leftmost separators, not overlapping. */
  function Split(s: string): (ps: seq<string>)
    ensures ps != []
  {
    if s == "" then [""]
    else if |s| >= 2 && s[0] == '\n' && s[1] == '\n' then [""] + Split(s[2..])
    else
      var ps := Split(s[1..]);
      [[s[0]] + ps[0]] + ps[1..]
  }

  /** "\n\n".join(ps) */
  function Join(ps: seq<string>): string {
    if ps == [] then "" else if |ps| == 1 then ps[0] else ps[0] + BREAK + Join(ps[1..])
  }

  function NonBlank(ws: char -> bool, ps: seq<string>): seq<string> {
    if ps == [] then []
    else (if Blank(ws, ps[0]) then [] else [ps[0]]) + NonBlank(ws, ps[1..])
  }

  function Total(ps: seq<string>): nat {
    if ps == [] then 0 else |ps[0]| + Total(ps[1..])
  }

  /** The greedy packing of `ps` after `buf` has been collected. */
  function Pack(buf: seq<string>, ps: seq<string>, limit: int): seq<seq<string>>
    decreases |ps|
  {
    if ps == [] then (if buf == [] then [] else [buf])
    else if Total(buf) + |ps[0]| > limit && buf != [] then [buf] + Pack([ps[0]], ps[1..], limit)
    else Pack(buf + [ps[0]], ps[1..], limit)
  }

  function JoinEach(groups: seq<seq<string>>): seq<string> {
    if groups == [] then [] else [Join(groups[0])] + JoinEach(groups[1..])
  }

  function Paragraphs(ws: char -> bool, text: string): seq<string> {
    NonBlank(ws, Split(text))
  }

  function Chunks(ws: char -> bool, text: string, maxTokens: int): seq<string> {
    JoinEach(Pack([], Paragraphs(ws, text), maxTokens * 4))
  }

  lemma TotalAppend(ps: seq<string>, p: string)
    ensures Total(ps + [p]) == Total(ps) + |p|
  {
    if ps != [] {
      assert (ps + [p])[1..] == ps[1..] + [p];
    }
  }

  lemma {:induction false} JoinEachAppend(groups: seq<seq<string>>, g: seq<string>)
    ensures JoinEach(groups + [g]) == JoinEach(groups) + [Join(g)]
  {
    if groups == [] {
      assert [g][1..] == [];
    } else {
      JoinEachAppend(groups[1..], g);
      assert (groups + [g])[1..] == groups[1..] + [g];
    }
  }

  method Chunk(ws: char -> bool, text: string, maxTokens: int) returns (out: seq<string>)
    ensures out == Chunks(ws, text, maxTokens)
  {
    out := [];
    var paragraphs := Split(text);
    var buf: seq<string> := [];
    var n := 0;
    ghost var closed: seq<seq<string>> := [];
    ghost var groups := Pack([], NonBlank(ws, paragraphs), maxTokens * 4);
    assert paragraphs[0..] == paragraphs;
    for i := 0 to |paragraphs|
      invariant n == Total(buf) && out == JoinEach(closed)
      invariant groups == closed + Pack(buf, NonBlank(ws, paragraphs[i..]), maxTokens * 4)
    {
      var p := paragraphs[i];
      assert paragraphs[i..][1..] == paragraphs[i + 1..];
      if Blank(ws, p) {
        assert NonBlank(ws, paragraphs[i..]) == NonBlank(ws, paragraphs[i + 1..]);
        continue;
      }
      var plen := |p|;
      ghost var rest := NonBlank(ws, paragraphs[i + 1..]);
      assert NonBlank(ws, paragraphs[i..]) == [p] + rest && ([p] + rest)[1..] == rest;
      if n + plen > maxTokens * 4 && buf != [] {
        JoinEachAppend(closed, buf);
        assert Pack(buf, [p] + rest, maxTokens * 4) == [buf] + Pack([p], rest, maxTokens * 4);
        closed := closed + [buf];
        out := out + [Join(buf)];
        buf := [];
        n := 0;
        assert buf + [p] == [p] && groups == closed + Pack([p], rest, maxTokens * 4);
      } else {
        assert groups == closed + Pack(buf + [p], rest, maxTokens * 4);
      }
      TotalAppend(buf, p);
      buf := buf + [p];
      n := n + plen;
    }
    assert paragraphs[|paragraphs|..] == [];
    if buf != [] {
      JoinEachAppend(closed, buf);
      assert groups == closed + [buf];
      out := out + [Join(buf)];
    } else {
      assert groups == closed;
    }
  }

  // ---------------------------------------------------------------------------------------------
  // Split and join are inverse
  // ---------------------------------------------------------------------------------------------

  predicate HasBreak(p: string) {
    exists i :: 0 <= i < |p| - 1 && p[i] == '\n' && p[i + 1] == '\n'
  }

  predicate EndsInNewline(p: string) {
    p != "" && p[|p| - 1] == '\n'
  }

  /** What `split` yields: no piece holds a separator, and only the last may end in a newline. Any
      piece may begin with one. */
  predicate Pieces(ps: seq<string>) {
    && (forall i :: 0 <= i < |ps| ==> !HasBreak(ps[i]))
    && (forall i :: 0 <= i < |ps| - 1 ==> !EndsInNewline(ps[i]))
  }

  lemma {:induction false} SplitYieldsPieces(s: string)
    ensures Pieces(Split(s))
    ensures s != "" && s[0] != '\n' ==> Split(s)[0] != "" && Split(s)[0][0] == s[0]
    ensures |s| >= 2 && s[0] == '\n' && s[1] != '\n' ==> |Split(s)[0]| >= 2
  {
    if s == "" {
    } else if |s| >= 2 && s[0] == '\n' && s[1] == '\n' {
      SplitYieldsPieces(s[2..]);
    } else {
      SplitYieldsPieces(s[1..]);
      var ps := Split(s[1..]);
      var p := [s[0]] + ps[0];
      assert !HasBreak(p) by {
        forall i | 0 <= i < |p| - 1 ensures !(p[i] == '\n' && p[i + 1] == '\n') {
          if i > 0 {
            assert p[i] == ps[0][i - 1] && p[i + 1] == ps[0][i];
          } else if s[0] == '\n' {
            SplitHead(s[1..]);
          }
        }
      }
      if |ps| > 1 {
        SplitHead(s[1..]);
        assert ps[0] != "" ==> p[|p| - 1] == ps[0][|ps[0]| - 1];
      }
    }
  }

  /** The first piece is a prefix of the text; if it is empty, the text is empty or begins with a
      separator. */
  lemma {:induction false} SplitHead(s: string)
    ensures Split(s)[0] <= s
    ensures Split(s)[0] == "" ==> s == "" || (|s| >= 2 && s[0] == '\n' && s[1] == '\n')
  {
    if s == "" {
    } else if |s| >= 2 && s[0] == '\n' && s[1] == '\n' {
    } else {
      SplitHead(s[1..]);
    }
  }

  lemma JoinPrepend(c: char, ps: seq<string>)
    requires ps != []
    ensures Join([[c] + ps[0]] + ps[1..]) == [c] + Join(ps)
  {
    var qs := [[c] + ps[0]] + ps[1..];
    if |ps| > 1 {
      assert qs[1..] == ps[1..];
      var rest := Join(ps[1..]);
      assert Join(ps) == ps[0] + BREAK + rest;
      assert [c] + ps[0] + BREAK + rest == [c] + (ps[0] + BREAK + rest);
    }
  }

  /** Joining what was split gives the text back. */
  lemma {:induction false} JoinSplit(s: string)
    ensures Join(Split(s)) == s
  {
    if s == "" {
    } else if |s| >= 2 && s[0] == '\n' && s[1] == '\n' {
      JoinSplit(s[2..]);
      assert ([""] + Split(s[2..]))[1..] == Split(s[2..]);
      assert s == BREAK + s[2..];
    } else {
      JoinSplit(s[1..]);
      JoinPrepend(s[0], Split(s[1..]));
    }
  }

  lemma {:induction false} SplitJoin(ps: seq<string>)
    requires ps != [] && Pieces(ps)
    ensures Split(Join(ps)) == ps
    decreases Total(ps) + |ps|
  {
    var p := ps[0];
    if p == "" {
      if |ps| > 1 {
        assert Join(ps)[2..] == Join(ps[1..]);
        SplitJoin(ps[1..]);
      }
    } else {
      var qs := [p[1..]] + ps[1..];
      assert Pieces(qs) by {
        forall i | 0 <= i < |p[1..]| - 1 ensures !(p[1..][i] == '\n' && p[1..][i + 1] == '\n') {
          assert p[i + 1] == p[1..][i] && p[i + 2] == p[1..][i + 1];
        }
      }
      assert [p[0]] + p[1..] == p && qs[1..] == ps[1..];
      assert [p] + ps[1..] == ps;
      SplitJoin(qs);
      JoinPrepend(p[0], qs);
      var s := Join(ps);
      assert s[1..] == Join(qs);
      assert !HasBreak(p) && s[0] == p[0];
      assert |p| >= 2 ==> s[1] == p[1];
      assert |ps| > 1 ==> !EndsInNewline(p);
    }
  }

  // ---------------------------------------------------------------------------------------------
  // No text is lost
  // ---------------------------------------------------------------------------------------------

  function Flatten<T>(groups: seq<seq<T>>): seq<T> {
    if groups == [] then [] else groups[0] + Flatten(groups[1..])
  }

  /** A group that the packing may form: one paragraph, or lengths that sum up to the limit. */
  predicate Fits(group: seq<string>, limit: int) {
    |group| == 1 || (group != [] && Total(group) <= limit)
  }

  /** A division of `ps` into consecutive groups that all fit. */
  ghost predicate Division(groups: seq<seq<string>>, ps: seq<string>, limit: int) {
    && Flatten(groups) == ps
    && forall i :: 0 <= i < |groups| ==> Fits(groups[i], limit)
  }

  lemma {:induction false} PackDivides(buf: seq<string>, ps: seq<string>, limit: int)
    requires buf == [] || Fits(buf, limit)
    ensures Division(Pack(buf, ps, limit), buf + ps, limit)
    decreases |ps|
  {
    if ps == [] {
      if buf != [] {
        assert Flatten([buf]) == buf + Flatten([]);
      }
    } else if Total(buf) + |ps[0]| > limit && buf != [] {
      PackDivides([ps[0]], ps[1..], limit);
      assert Pack(buf, ps, limit)[1..] == Pack([ps[0]], ps[1..], limit);
      assert buf + ([ps[0]] + ps[1..]) == buf + ps;
    } else {
      TotalAppend(buf, ps[0]);
      PackDivides(buf + [ps[0]], ps[1..], limit);
      assert buf + [ps[0]] + ps[1..] == buf + ps;
    }
  }

  /** Group `i` could not have taken the first paragraph of the next one. */
  ghost predicate FullAt(groups: seq<seq<string>>, i: nat, limit: int)
    requires i + 1 < |groups|
  {
    groups[i + 1] != [] && Total(groups[i]) + |groups[i + 1][0]| > limit
  }

  ghost predicate Full(groups: seq<seq<string>>, limit: int) {
    forall i: nat :: i + 1 < |groups| ==> FullAt(groups, i, limit)
  }

  lemma FullTail(groups: seq<seq<string>>, limit: int)
    requires |groups| > 1
    ensures Full(groups, limit) <==> FullAt(groups, 0, limit) && Full(groups[1..], limit)
  {
    var tail := groups[1..];
    if Full(groups, limit) {
      forall i: nat | i + 1 < |tail| ensures FullAt(tail, i, limit) {
        assert FullAt(groups, i + 1, limit);
      }
    }
    if FullAt(groups, 0, limit) && Full(tail, limit) {
      forall i: nat | i + 1 < |groups| ensures FullAt(groups, i, limit) {
        assert i > 0 ==> FullAt(tail, i - 1, limit);
      }
    }
  }

  lemma {:induction false} PackFills(buf: seq<string>, ps: seq<string>, limit: int)
    ensures Full(Pack(buf, ps, limit), limit)
    ensures buf + ps != [] ==>
            Pack(buf, ps, limit) != [] && Pack(buf, ps, limit)[0] != [] && Pack(buf, ps, limit)[0][0] == (buf + ps)[0]
    decreases |ps|
  {
    if ps != [] {
      var p := ps[0];
      if Total(buf) + |p| > limit && buf != [] {
        var later := Pack([p], ps[1..], limit);
        PackFills([p], ps[1..], limit);
        assert ([buf] + later)[1..] == later;
        FullTail([buf] + later, limit);
      } else {
        PackFills(buf + [p], ps[1..], limit);
        assert (buf + [p]) + ps[1..] == buf + ps;
      }
    }
  }

  /** The first group of a division that no group can be added to: it is settled by the paragraphs. */
  lemma SameFirstGroup(a: seq<seq<string>>, b: seq<seq<string>>, ps: seq<string>, limit: int)
    requires Division(a, ps, limit) && Full(a, limit) && Division(b, ps, limit) && Full(b, limit)
    requires a != [] && b != []
    ensures |a[0]| <= |b[0]|
  {
    assert Fits(a[0], limit) && Fits(b[0], limit);
    var rest := Flatten(b[1..]);
    assert ps == b[0] + rest && ps == a[0] + Flatten(a[1..]);
    if |a[0]| > |b[0]| {
      assert |ps| > |b[0]| && rest != [];
      assert |b| > 1 && Flatten(b[1..]) == b[1] + Flatten(b[1..][1..]);
      FullTail(b, limit);
      assert FullAt(b, 0, limit) && b[1] != [];
      var k := |b[0]|;
      assert a[0] <= ps && ps[k] == rest[0] == b[1][0] && a[0][k] == ps[k];
      assert a[0][..k] == ps[..k] == b[0];
      TotalAppend(b[0], b[1][0]);
      var more, last := b[0] + [b[1][0]], a[0][|b[0]| + 1..];
      assert a[0] == more + last;
      TotalConcat(more, last);
    }
  }

  /** The packing is the one division into groups that fit in which no group could have taken the
      first paragraph of the next. */
  lemma {:induction false} PackingIsUnique(a: seq<seq<string>>, b: seq<seq<string>>, ps: seq<string>, limit: int)
    requires Division(a, ps, limit) && Full(a, limit) && Division(b, ps, limit) && Full(b, limit)
    ensures a == b
    decreases |a|
  {
    if a != [] {
      assert Fits(a[0], limit);
    }
    if b != [] {
      assert Fits(b[0], limit);
    }
    if a != [] && b != [] {
      SameFirstGroup(a, b, ps, limit);
      SameFirstGroup(b, a, ps, limit);
      assert a[0] == ps[..|a[0]|] && b[0] == ps[..|b[0]|];
      var rest := ps[|a[0]|..];
      TailDivides(a, ps, limit);
      TailDivides(b, ps, limit);
      PackingIsUnique(a[1..], b[1..], rest, limit);
      assert a == [a[0]] + a[1..] && b == [b[0]] + b[1..];
    }
  }

  lemma TailDivides(groups: seq<seq<string>>, ps: seq<string>, limit: int)
    requires groups != [] && Division(groups, ps, limit) && Full(groups, limit)
    ensures |groups[0]| <= |ps| && Division(groups[1..], ps[|groups[0]|..], limit) && Full(groups[1..], limit)
  {
    assert ps == groups[0] + Flatten(groups[1..]);
    assert ps[|groups[0]|..] == Flatten(groups[1..]);
    if |groups| > 1 {
      FullTail(groups, limit);
    }
  }

  /** Any division into groups that fit, none of which could have taken the paragraph after it, is the
      packing. */
  lemma PackIsTheFullDivision(groups: seq<seq<string>>, ps: seq<string>, limit: int)
    ensures Division(groups, ps, limit) && Full(groups, limit) <==> groups == Pack([], ps, limit)
  {
    PackDivides([], ps, limit);
    assert [] + ps == ps;
    PackFills([], ps, limit);
    if Division(groups, ps, limit) && Full(groups, limit) {
      PackingIsUnique(groups, Pack([], ps, limit), ps, limit);
    }
  }

  /** The paragraphs to be packed are pieces that a second split leaves alone. */
  lemma {:induction false} NonBlankPieces(ws: char -> bool, ps: seq<string>)
    requires Pieces(ps)
    ensures Pieces(NonBlank(ws, ps))
    ensures forall p :: p in NonBlank(ws, ps) ==> p in ps && !Blank(ws, p)
  {
    if ps != [] {
      NonBlankPieces(ws, ps[1..]);
      if |ps| == 1 {
        assert NonBlank(ws, ps[1..]) == [];
      }
    }
  }

  lemma {:induction false} NonBlankAgain(ws: char -> bool, ps: seq<string>)
    requires forall p :: p in ps ==> !Blank(ws, p)
    ensures NonBlank(ws, ps) == ps
  {
    if ps != [] {
      assert ps[0] in ps && forall p :: p in ps[1..] ==> p in ps;
      NonBlankAgain(ws, ps[1..]);
    }
  }

  lemma PiecesParts(a: seq<string>, b: seq<string>)
    requires Pieces(a + b)
    ensures Pieces(a) && Pieces(b)
  {
    forall i | 0 <= i < |a| ensures !HasBreak(a[i]) && (i < |a| - 1 ==> !EndsInNewline(a[i])) {
      assert (a + b)[i] == a[i];
    }
    forall i | 0 <= i < |b| ensures !HasBreak(b[i]) && (i < |b| - 1 ==> !EndsInNewline(b[i])) {
      assert (a + b)[|a| + i] == b[i];
    }
  }

  function SplitEach(chunks: seq<string>): seq<string> {
    if chunks == [] then [] else Split(chunks[0]) + SplitEach(chunks[1..])
  }

  lemma {:induction false} SplitEachJoined(groups: seq<seq<string>>, ps: seq<string>, limit: int)
    requires Division(groups, ps, limit) && Pieces(ps)
    ensures SplitEach(JoinEach(groups)) == ps
  {
    if groups != [] {
      assert Fits(groups[0], limit);
      PiecesParts(groups[0], Flatten(groups[1..]));
      SplitJoin(groups[0]);
      SplitEachJoined(groups[1..], Flatten(groups[1..]), limit);
      assert JoinEach(groups)[1..] == JoinEach(groups[1..]);
    }
  }

  /** Splitting the chunks again gives exactly the non-blank paragraphs of the text, in order. */
  lemma NoTextLost(ws: char -> bool, text: string, maxTokens: int)
    ensures SplitEach(Chunks(ws, text, maxTokens)) == Paragraphs(ws, text)
  {
    var ps := Paragraphs(ws, text);
    SplitYieldsPieces(text);
    NonBlankPieces(ws, Split(text));
    PackDivides([], ps, maxTokens * 4);
    assert [] + ps == ps;
    SplitEachJoined(Pack([], ps, maxTokens * 4), ps, maxTokens * 4);
  }

  lemma {:induction false} JoinAppend(a: seq<string>, b: seq<string>)
    requires a != [] && b != []
    ensures Join(a + b) == Join(a) + BREAK + Join(b)
  {
    if |a| == 1 {
      assert (a + b)[1..] == b;
    } else {
      JoinAppend(a[1..], b);
      assert (a + b)[1..] == a[1..] + b;
      assert Join(a + b) == a[0] + BREAK + (Join(a[1..]) + BREAK + Join(b));
    }
  }

  lemma {:induction false} JoinJoined(groups: seq<seq<string>>, ps: seq<string>, limit: int)
    requires Division(groups, ps, limit)
    ensures Join(JoinEach(groups)) == Join(ps)
    ensures groups != [] ==> ps != []
  {
    if groups != [] {
      assert Fits(groups[0], limit);
      var rest := Flatten(groups[1..]);
      JoinJoined(groups[1..], rest, limit);
      assert JoinEach(groups)[1..] == JoinEach(groups[1..]);
      if |groups| == 1 {
        assert rest == [] && groups[0] + [] == groups[0];
      } else {
        assert groups[1] == groups[1..][0] && Fits(groups[1..][0], limit);
        JoinAppend(groups[0], rest);
      }
    }
  }

  lemma ParagraphsOfJoin(ws: char -> bool, ps: seq<string>)
    requires Pieces(ps) && forall p :: p in ps ==> !Blank(ws, p)
    ensures Paragraphs(ws, Join(ps)) == ps
  {
    if ps == [] {
      assert NonBlank(ws, [""]) == NonBlank(ws, [""][1..]);
    } else {
      SplitJoin(ps);
      NonBlankAgain(ws, ps);
    }
  }

  /** Chunking the joined chunks again returns the same chunks. */
  lemma Idempotent(ws: char -> bool, text: string, maxTokens: int)
    ensures Chunks(ws, Join(Chunks(ws, text, maxTokens)), maxTokens) == Chunks(ws, text, maxTokens)
  {
    var ps := Paragraphs(ws, text);
    SplitYieldsPieces(text);
    NonBlankPieces(ws, Split(text));
    PackDivides([], ps, maxTokens * 4);
    assert [] + ps == ps;
    JoinJoined(Pack([], ps, maxTokens * 4), ps, maxTokens * 4);
    ParagraphsOfJoin(ws, ps);
  }

  // ---------------------------------------------------------------------------------------------
  // No division uses fewer chunks
  // ---------------------------------------------------------------------------------------------

  lemma {:induction false} TotalConcat(a: seq<string>, b: seq<string>)
    ensures Total(a + b) == Total(a) + Total(b)
  {
    if a == [] {
      assert a + b == b;
    } else {
      TotalConcat(a[1..], b);
      assert (a + b)[1..] == a[1..] + b;
    }
  }

  lemma {:induction false} DivisionTail(groups: seq<seq<string>>, limit: int)
    requires groups != [] && Division(groups, Flatten(groups), limit)
    ensures Division(groups[1..], Flatten(groups[1..]), limit) && Fits(groups[0], limit)
  {
  }

  /** The group of a division in which a given suffix begins: what of that group belongs to the
      suffix fits, and the later groups divide the rest. */
  lemma {:induction false} FindGroup(groups: seq<seq<string>>, skip: nat, ps: seq<string>, limit: int)
    returns (y: seq<string>, later: seq<seq<string>>)
    requires Division(groups, Flatten(groups), limit) && skip + |ps| == |Flatten(groups)|
    requires ps != [] && Flatten(groups)[skip..] == ps
    ensures y != [] && Fits(y, limit) && ps == y + Flatten(later)
    ensures Division(later, Flatten(later), limit) && |later| < |groups|
    decreases |groups|
  {
    var g := groups[0];
    DivisionTail(groups, limit);
    if skip < |g| {
      y, later := g[skip..], groups[1..];
      assert g == g[..skip] + y;
      TotalConcat(g[..skip], y);
    } else {
      y, later := FindGroup(groups[1..], skip - |g|, ps, limit);
    }
  }

  /** Taking one paragraph more: the bookkeeping of `StaysAhead`. */
  lemma TakeOne(buf: seq<string>, y: seq<string>, limit: int)
    requires buf != [] && y != [] && Fits(buf + y, limit)
    ensures Total(buf) + |y[0]| <= limit
    ensures Fits((buf + [y[0]]) + y[1..], limit)
  {
    var more := buf + [y[0]];
    assert buf + y == more + y[1..];
    assert |more + y[1..]| > 1;
    TotalConcat(more, y[1..]);
    TotalAppend(buf, y[0]);
  }

  /** Greedy stays ahead. Its open group is `buf`; the next `y` paragraphs still fit with it; after
      them come at most the paragraphs that `later` divides. Then greedy needs at most one group more
      than `later` has. */
  lemma {:induction false} StaysAhead(buf: seq<string>, ps: seq<string>, limit: int,
                                      y: seq<string>, later: seq<seq<string>>, skip: nat)
    requires buf != [] && Fits(buf + y, limit)
    requires Division(later, Flatten(later), limit)
    requires skip <= |Flatten(later)| && ps == y + Flatten(later)[skip..]
    requires y != [] ==> skip == 0
    ensures |Pack(buf, ps, limit)| <= 1 + |later|
    decreases |ps|
  {
    if y != [] {
      TakeOne(buf, y, limit);
      assert ps[1..] == y[1..] + Flatten(later)[skip..];
      StaysAhead(buf + [y[0]], ps[1..], limit, y[1..], later, skip);
    } else if ps != [] {
      assert buf + y == buf && ps == Flatten(later)[skip..];
      if Total(buf) + |ps[0]| > limit {
        var more := OpensGroup(ps, limit, later, skip);
        assert Pack(buf, ps, limit) == [buf] + Pack([ps[0]], ps[1..], limit);
      } else {
        TotalAppend(buf, ps[0]);
        assert (buf + [ps[0]]) + [] == buf + [ps[0]];
        assert ps[1..] == [] + Flatten(later)[skip + 1..];
        StaysAhead(buf + [ps[0]], ps[1..], limit, [], later, skip + 1);
      }
    }
  }

  /** Greedy opens a group at a suffix of what `later` divides. */
  lemma {:induction false} OpensGroup(ps: seq<string>, limit: int, later: seq<seq<string>>, skip: nat) returns (n: nat)
    requires Division(later, Flatten(later), limit)
    requires skip <= |Flatten(later)| && ps == Flatten(later)[skip..] && ps != []
    ensures n == |Pack([ps[0]], ps[1..], limit)| <= |later|
    decreases |ps|, 0
  {
    var y, later' := FindGroup(later, skip, ps, limit);
    assert [ps[0]] + y[1..] == y;
    assert ps[1..] == y[1..] + Flatten(later');
    assert Flatten(later')[0..] == Flatten(later');
    StaysAhead([ps[0]], ps[1..], limit, y[1..], later', 0);
    n := |Pack([ps[0]], ps[1..], limit)|;
  }

  /** Every chunk is a single paragraph or has paragraph lengths that sum to at most the limit, and no
      division of the same paragraphs that keeps to this has fewer chunks. */
  lemma PackingIsOptimal(ws: char -> bool, text: string, maxTokens: int, other: seq<seq<string>>)
    requires Division(other, Paragraphs(ws, text), maxTokens * 4)
    ensures var groups := Pack([], Paragraphs(ws, text), maxTokens * 4);
            Division(groups, Paragraphs(ws, text), maxTokens * 4) && |groups| <= |other|
  {
    var ps := Paragraphs(ws, text);
    var limit := maxTokens * 4;
    PackDivides([], ps, limit);
    assert [] + ps == ps;
    if ps != [] {
      assert Flatten(other)[0..] == ps && [] + [ps[0]] == [ps[0]];
      var n := OpensGroup(ps, limit, other, 0);
      assert Pack([], ps, limit) == Pack([ps[0]], ps[1..], limit);
    }
  }

  // ---------------------------------------------------------------------------------------------
  // How long a chunk can be
  // ---------------------------------------------------------------------------------------------

  /** The limit counts paragraphs only; the separators come on top. */
  lemma {:induction false} JoinLength(ps: seq<string>)
    requires ps != []
    ensures |Join(ps)| == Total(ps) + 2 * (|ps| - 1)
  {
    if |ps| == 1 {
      assert ps[1..] == [];
    } else {
      JoinLength(ps[1..]);
    }
  }

  lemma {:induction false} JoinEachIs(groups: seq<seq<string>>, i: nat)
    requires i < |groups|
    ensures |JoinEach(groups)| == |groups| && JoinEach(groups)[i] == Join(groups[i])
  {
    if i > 0 {
      JoinEachIs(groups[1..], i - 1);
    } else {
      JoinEachSize(groups);
    }
  }

  lemma {:induction false} JoinEachSize(groups: seq<seq<string>>)
    ensures |JoinEach(groups)| == |groups|
  {
    if groups != [] {
      JoinEachSize(groups[1..]);
    }
  }

  lemma {:induction false} TotalAtLeast(ps: seq<string>)
    requires forall p :: p in ps ==> p != ""
    ensures |ps| <= Total(ps)
  {
    if ps != [] {
      forall p | p in ps[1..] ensures p != "" {
        assert p in ps;
      }
      TotalAtLeast(ps[1..]);
      assert ps[0] in ps;
    }
  }

  lemma {:induction false} InFlatten<T>(groups: seq<seq<T>>, i: nat, x: T)
    requires i < |groups| && x in groups[i]
    ensures x in Flatten(groups)
  {
    if i > 0 {
      InFlatten(groups[1..], i - 1, x);
    }
  }

  /** A chunk of several paragraphs is longer than the limit exactly when its separators do not fit in
      any more, and in no case longer than three times the limit less two. */
  lemma ChunkLength(ws: char -> bool, text: string, maxTokens: int, i: nat)
    requires i < |Chunks(ws, text, maxTokens)|
    ensures var groups, limit := Pack([], Paragraphs(ws, text), maxTokens * 4), maxTokens * 4;
            && i < |groups| && Chunks(ws, text, maxTokens)[i] == Join(groups[i])
            && (var g, n := groups[i], |Chunks(ws, text, maxTokens)[i]|;
                |g| > 1 ==> (n > limit <==> Total(g) > limit - 2 * (|g| - 1)) && n <= 3 * limit - 2)
  {
    var ps, limit := Paragraphs(ws, text), maxTokens * 4;
    var groups := Pack([], ps, limit);
    JoinEachSize(groups);
    JoinEachIs(groups, i);
    PackDivides([], ps, limit);
    assert [] + ps == ps;
    var g := groups[i];
    assert Fits(g, limit);
    JoinLength(g);
    SplitYieldsPieces(text);
    NonBlankPieces(ws, Split(text));
    forall p | p in g ensures p != "" {
      InFlatten(groups, i, p);
    }
    TotalAtLeast(g);
  }

  lemma {:induction false} PackAll(buf: seq<string>, ps: seq<string>, limit: int)
    requires Total(buf) + Total(ps) <= limit && buf + ps != []
    ensures Pack(buf, ps, limit) == [buf + ps]
    decreases |ps|
  {
    if ps == [] {
      assert buf + ps == buf;
    } else {
      TotalAppend(buf, ps[0]);
      assert buf + [ps[0]] + ps[1..] == buf + ps;
      PackAll(buf + [ps[0]], ps[1..], limit);
    }
  }

  /** `n` paragraphs of one letter. */
  function Letters(n: nat): seq<string> {
    if n == 0 then [] else ["x"] + Letters(n - 1)
  }

  lemma {:induction false} LettersAre(n: nat)
    ensures |Letters(n)| == n == Total(Letters(n)) && forall p :: p in Letters(n) ==> p == "x"
  {
    if n > 0 {
      LettersAre(n - 1);
      assert (["x"] + Letters(n - 1))[1..] == Letters(n - 1);
    }
  }

  /** For every limit there is a text whose only chunk has that greatest length. */
  lemma LongestChunk(ws: char -> bool, maxTokens: int)
    requires maxTokens >= 1 && !ws('x') && ws('\n')
    ensures var text := Join(Letters(maxTokens * 4));
            Chunks(ws, text, maxTokens) == [text] && |text| == 3 * (maxTokens * 4) - 2
  {
    var ps, limit := Letters(maxTokens * 4), maxTokens * 4;
    LettersAre(limit);
    JoinLength(ps);
    assert Pieces(ps) by {
      assert forall k :: 0 <= k < |ps| ==> ps[k] in ps;
    }
    ParagraphsOfJoin(ws, ps);
    PackAll([], ps, limit);
    assert [] + ps == ps;
    assert JoinEach([ps]) == [Join(ps)] + JoinEach([ps][1..]);
  }
}
