/** Stock datatypes shared by every component. */
module Prelude {

  datatype Option<+T> = None | Some(value: T)

  datatype Result<+T, +E> = Ok(value: T) | Err(error: E)
}

/** Letters without regard to case, for patterns whose letters are ASCII. */
module Ascii {

  function LowerChar(c: char): char
  {
    if 'A' <= c <= 'Z' then ((c as int) + 32) as char else c
  }

  function Lower(s: string): string
  {
    seq(|s|, i requires 0 <= i < |s| => LowerChar(s[i]))
  }
}

/** Sizes of finite sets against sequences. */
module Finite {

  lemma SubsetFits<T>(a: set<T>, b: set<T>)
    requires a <= b
    ensures |a| <= |b|
  {
    assert b == a + (b - a);
  }

  lemma {:induction false} ElementsFit<T>(a: set<T>, xs: seq<T>)
    requires forall x :: x in a ==> x in xs
    ensures |a| <= |xs|
  {
    if xs == [] {
      assert a == {};
    } else {
      var n := |xs| - 1;
      ElementsFit(a - {xs[n]}, xs[..n]);
      if xs[n] in a {
        assert a == (a - {xs[n]}) + {xs[n]};
      } else {
        assert a - {xs[n]} == a;
      }
    }
  }

  lemma {:induction false} DistinctFits<T>(xs: seq<T>, pool: set<T>)
    requires forall i, j :: 0 <= i < j < |xs| ==> xs[i] != xs[j]
    requires forall i :: 0 <= i < |xs| ==> xs[i] in pool
    ensures |xs| <= |pool|
  {
    if xs != [] {
      var n := |xs| - 1;
      DistinctFits(xs[..n], pool - {xs[n]});
    }
  }
}
