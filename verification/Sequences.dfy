/** Options and order-preserving subsequences, used by every queue of the model. */
module Sequences {

  datatype Option<+T> = None | Some(value: T)

  /** `a` is obtained from `b` by deleting some elements and keeping the order of the rest. */
  ghost predicate IsSubseq<T>(a: seq<T>, b: seq<T>)
    decreases |b|
  {
    if a == [] then true
    else if b == [] then false
    else
      var aInit, bInit := a[..|a| - 1], b[..|b| - 1];
      (a[|a| - 1] == b[|b| - 1] && IsSubseq(aInit, bInit)) || IsSubseq(a, bInit)
  }

  lemma {:induction false} SubseqRefl<T>(a: seq<T>)
    ensures IsSubseq(a, a)
    decreases |a|
  {
    if a != [] {
      SubseqRefl(a[..|a| - 1]);
    }
  }

  lemma SubseqSnoc<T>(a: seq<T>, b: seq<T>, x: T)
    requires IsSubseq(a, b)
    ensures IsSubseq(a + [x], b + [x])
    ensures IsSubseq(a, b + [x])
  {
    assert (a + [x])[..|a|] == a;
    assert (b + [x])[..|b|] == b;
  }

  /** Dropping a suffix of the short side or adding one to the long side keeps the relation. */
  lemma {:induction false} SubseqPrefix<T>(a: seq<T>, c: seq<T>, b: seq<T>)
    requires IsSubseq(a + c, b)
    ensures IsSubseq(a, b)
    decreases |b|
  {
    if a != [] {
      var bInit := b[..|b| - 1];
      if IsSubseq(a + c, bInit) {
        SubseqPrefix(a, c, bInit);
      } else if c == [] {
        assert a + c == a;
      } else {
        assert (a + c)[..|a + c| - 1] == a + c[..|c| - 1];
        SubseqPrefix(a, c[..|c| - 1], bInit);
      }
    }
  }

  lemma {:induction false} SubseqExtend<T>(a: seq<T>, b: seq<T>, d: seq<T>)
    requires IsSubseq(a, b)
    ensures IsSubseq(a, b + d)
    decreases |d|
  {
    if d == [] {
      assert b + d == b;
    } else {
      SubseqExtend(a, b, d[..|d| - 1]);
      SubseqSnoc(a, b + d[..|d| - 1], d[|d| - 1]);
      assert b + d == (b + d[..|d| - 1]) + [d[|d| - 1]];
    }
  }

  /** Concatenation respects the relation. */
  lemma {:induction false} SubseqConcat<T>(a: seq<T>, b: seq<T>, c: seq<T>, d: seq<T>)
    requires IsSubseq(a, b) && IsSubseq(c, d)
    ensures IsSubseq(a + c, b + d)
    decreases |d|
  {
    if c == [] {
      assert a + c == a;
      SubseqExtend(a, b, d);
    } else {
      var dInit, x := d[..|d| - 1], d[|d| - 1];
      assert b + d == (b + dInit) + [x];
      if IsSubseq(c, dInit) {
        SubseqConcat(a, b, c, dInit);
        SubseqSnoc(a + c, b + dInit, x);
      } else {
        SubseqConcat(a, b, c[..|c| - 1], dInit);
        SubseqSnoc(a + c[..|c| - 1], b + dInit, x);
        assert a + c == (a + c[..|c| - 1]) + [x];
      }
    }
  }

  lemma {:induction false} SubseqMember<T>(a: seq<T>, b: seq<T>, x: T)
    requires IsSubseq(a, b) && x in a
    ensures x in b
    decreases |b|
  {
    var bInit := b[..|b| - 1];
    if IsSubseq(a, bInit) {
      SubseqMember(a, bInit, x);
    } else if x != a[|a| - 1] {
      assert x in a[..|a| - 1];
      SubseqMember(a[..|a| - 1], bInit, x);
    }
  }
}
