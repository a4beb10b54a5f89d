/** The two array operations the agenda is built from: `Array.prototype.filter`
    and the one-element `Array.prototype.splice(start, 1)`, with the subsequence
    relation that says a result keeps the order of its source. */
module Seqs {

  /** `s.filter(p)`: the elements of `s` that satisfy `p`, in their original order. */
  function Filter<T(!new)>(p: T -> bool, s: seq<T>): (r: seq<T>)
    ensures |r| <= |s|
    ensures forall x :: x in r <==> x in s && p(x)
  {
    if s == [] then []
    else
      assert s == [s[0]] + s[1..];
      if p(s[0]) then [s[0]] + Filter(p, s[1..]) else Filter(p, s[1..])
  }

  /** `a` is `b` with some elements deleted and the others left in order. */
  predicate IsSubseq<T(==)>(a: seq<T>, b: seq<T>)
    decreases |b|
  {
    a == [] || (b != [] && ((a[0] == b[0] && IsSubseq(a[1..], b[1..])) || IsSubseq(a, b[1..])))
  }

  lemma {:induction false} FilterIsSubseq<T(!new)>(p: T -> bool, s: seq<T>)
    ensures IsSubseq(Filter(p, s), s)
  {
    if s != [] {
      FilterIsSubseq(p, s[1..]);
    }
  }

  /** A filter keeps every element that passes it as often as it occurs, and
      drops every other element. */
  lemma {:induction false} FilterMultiset<T(!new)>(p: T -> bool, s: seq<T>)
    ensures forall x :: multiset(Filter(p, s))[x] == if p(x) then multiset(s)[x] else 0
  {
    if s != [] {
      FilterMultiset(p, s[1..]);
      assert s == [s[0]] + s[1..];
    }
  }

  /** Filtering a concatenation filters each part. */
  lemma {:induction false} FilterConcat<T(!new)>(p: T -> bool, a: seq<T>, b: seq<T>)
    ensures Filter(p, a + b) == Filter(p, a) + Filter(p, b)
  {
    if a == [] {
      assert a + b == b;
    } else {
      var ab := a + b;
      assert ab[0] == a[0] && ab[1..] == a[1..] + b;
      FilterConcat(p, a[1..], b);
      if p(a[0]) {
        calc {
          Filter(p, ab);
          [a[0]] + Filter(p, a[1..] + b);
          [a[0]] + (Filter(p, a[1..]) + Filter(p, b));
          ([a[0]] + Filter(p, a[1..])) + Filter(p, b);
        }
      }
    }
  }

  lemma FilterLengthConcat<T(!new)>(p: T -> bool, a: seq<T>, b: seq<T>)
    ensures |Filter(p, a + b)| == |Filter(p, a)| + |Filter(p, b)|
  {
    FilterConcat(p, a, b);
  }

  /** Filtering one more element: it is kept at the end exactly when it passes. */
  lemma FilterStep<T(!new)>(p: T -> bool, s: seq<T>, e: T)
    ensures Filter(p, s + [e]) == Filter(p, s) + (if p(e) then [e] else [])
  {
    FilterConcat(p, s, [e]);
  }

  /** A filter that every element passes keeps the sequence whole. */
  lemma {:induction false} FilterKeepsAll<T(!new)>(p: T -> bool, s: seq<T>)
    requires forall i :: 0 <= i < |s| ==> p(s[i])
    ensures Filter(p, s) == s
  {
    if s != [] {
      FilterKeepsAll(p, s[1..]);
    }
  }

  /** A filter no element passes leaves nothing. */
  lemma {:induction false} FilterDropsAll<T(!new)>(p: T -> bool, s: seq<T>)
    requires forall i :: 0 <= i < |s| ==> !p(s[i])
    ensures Filter(p, s) == []
  {
    if s != [] {
      FilterDropsAll(p, s[1..]);
    }
  }

  /** Three predicates that split every element of `s` into exactly one class
      split `s`'s length among their three filters. */
  lemma {:induction false} FilterThreeWay<T(!new)>(p: T -> bool, q: T -> bool, r: T -> bool, s: seq<T>)
    requires forall i :: 0 <= i < |s| ==> (p(s[i]) || q(s[i]) || r(s[i]))
    requires forall i :: 0 <= i < |s| ==> !(p(s[i]) && q(s[i])) && !(p(s[i]) && r(s[i])) && !(q(s[i]) && r(s[i]))
    ensures |Filter(p, s)| + |Filter(q, s)| + |Filter(r, s)| == |s|
  {
    if s != [] {
      FilterThreeWay(p, q, r, s[1..]);
    }
  }

  lemma {:induction false} SubseqRefl<T>(s: seq<T>)
    ensures IsSubseq(s, s)
  {
    if s != [] {
      SubseqRefl(s[1..]);
    }
  }

  /** Elements placed before the larger sequence keep it a supersequence. */
  lemma {:induction false} SubseqPrepend<T>(a: seq<T>, x: seq<T>, b: seq<T>)
    requires IsSubseq(a, b)
    ensures IsSubseq(a, x + b)
  {
    if x != [] && a != [] {
      SubseqPrepend(a, x[1..], b);
      assert (x + b)[1..] == x[1..] + b;
      assert IsSubseq(a, (x + b)[1..]);
    } else if x == [] {
      assert x + b == b;
    }
  }

  /** Elements placed after the larger sequence keep it a supersequence. */
  lemma {:induction false} SubseqAppend<T>(a: seq<T>, b: seq<T>, y: seq<T>)
    requires IsSubseq(a, b)
    ensures IsSubseq(a, b + y)
    decreases |b|
  {
    if a != [] {
      assert (b + y)[0] == b[0] && (b + y)[1..] == b[1..] + y;
      if a[0] == b[0] && IsSubseq(a[1..], b[1..]) {
        SubseqAppend(a[1..], b[1..], y);
      } else {
        SubseqAppend(a, b[1..], y);
      }
    }
  }

  lemma {:induction false} SubseqMember<T>(a: seq<T>, b: seq<T>, x: T)
    requires IsSubseq(a, b) && x in a
    ensures x in b
    decreases |b|
  {
    if a[0] == b[0] && IsSubseq(a[1..], b[1..]) {
      if x != a[0] {
        SubseqMember(a[1..], b[1..], x);
      }
    } else {
      SubseqMember(a, b[1..], x);
    }
  }

  /** `s.splice(start, 1)`: a negative `start` counts back from the end (and is
      clamped at 0), a `start` at or past the end removes nothing. */
  function SpliceOne<T>(s: seq<T>, start: int): (r: seq<T>)
    ensures 0 <= start < |s| ==> |r| == |s| - 1 && r[..start] == s[..start]
    ensures 0 <= start < |s| ==> forall j :: start <= j < |r| ==> r[j] == s[j + 1]
    ensures 0 <= start < |s| ==> multiset(r) + multiset{s[start]} == multiset(s)
    ensures start >= |s| ==> r == s
    ensures -|s| <= start < 0 ==> r == SpliceOne(s, |s| + start)
    ensures start < -|s| ==> r == if s == [] then s else s[1..]
    decreases if start < 0 then 1 else 0
  {
    var k := if start >= 0 then start else if |s| + start >= 0 then |s| + start else 0;
    if k < |s| then
      assert s == s[..k] + [s[k]] + s[k + 1..];
      s[..k] + s[k + 1..]
    else s
  }
}
