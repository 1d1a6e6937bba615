/** What several modules need. */
module Basics {

  datatype Option<T> = None | Some(value: T)

  /** s.strip() == "", for Python's table `ws` of white space. */
  predicate Blank(ws: char -> bool, s: string) {
    forall i :: 0 <= i < |s| ==> ws(s[i])
  }

  // Instants are counted in microseconds.
  const MINUTE := 60_000_000
  const HOUR := 60 * MINUTE
  const DAY := 24 * HOUR

  // ---------------------------------------------------------------------------------------------
  // Sizes of sets
  // ---------------------------------------------------------------------------------------------

  lemma SubsetSize<T>(a: set<T>, b: set<T>)
    requires a <= b
    ensures |a| <= |b|
  {
    assert b == a + (b - a);
  }

  lemma UnionSize<T>(a: set<T>, b: set<T>)
    ensures |a + b| <= |a| + |b|
  {
    assert a + b == a + (b - a);
    SubsetSize(b - a, b);
  }

  function Upto(n: nat): set<nat> {
    if n == 0 then {} else Upto(n - 1) + {n - 1}
  }

  lemma {:induction false} UptoIs(n: nat)
    ensures |Upto(n)| == n && forall k :: k in Upto(n) <==> 0 <= k < n
  {
    if n > 0 {
      UptoIs(n - 1);
    }
  }
}
