/** The JavaScript array operations the pipeline uses on lists: `reverse`, and `slice`
    with its clamping of negative and out-of-range bounds. */
module Seqs {
  /** `[...s].reverse()` */
  function Reverse<T>(s: seq<T>): (r: seq<T>)
    ensures |r| == |s|
    ensures forall i :: 0 <= i < |s| ==> r[i] == s[|s| - 1 - i]
  {
    if s == [] then [] else Reverse(s[1..]) + [s[0]]
  }

  lemma {:induction false} ReverseInvolutive<T>(s: seq<T>)
    ensures Reverse(Reverse(s)) == s
  {
  }

  lemma {:induction false} ReverseAppend<T>(a: seq<T>, b: seq<T>)
    ensures Reverse(a + b) == Reverse(b) + Reverse(a)
  {
    var l, r := Reverse(a + b), Reverse(b) + Reverse(a);
    assert |l| == |r|;
    forall i | 0 <= i < |l|
      ensures l[i] == r[i]
    {
      if i < |b| {
        assert l[i] == (a + b)[|a| + |b| - 1 - i] == b[|b| - 1 - i];
      } else {
        assert l[i] == (a + b)[|a| + |b| - 1 - i] == a[|a| - 1 - (i - |b|)];
      }
    }
  }

  /** Concatenation of four lists regrouped at the front and at the back */
  lemma {:induction false} AppendAssoc4<T>(a: seq<T>, b: seq<T>, c: seq<T>, d: seq<T>)
    ensures a + (b + c + d) == (a + b) + c + d
    ensures (a + b + c) + d == a + b + (c + d)
  {
  }

  lemma {:induction false} LastOfPair<T>(s: seq<T>, a: T, b: T)
    requires s == [a] + [b]
    ensures s != [] && s[|s| - 1] == b
  {
  }

  /** A list that agrees with `b` and has one element more is `b` extended by that element */
  lemma {:induction false} PrefixPlusLast<T>(a: seq<T>, b: seq<T>)
    requires |a| == |b| + 1
    requires forall i :: 0 <= i < |b| ==> a[i] == b[i]
    ensures a == b + [a[|b|]]
  {
  }

  /** Membership in a non-empty list: in the part before the last element, or the last */
  lemma {:induction false} InInit<T>(s: seq<T>, x: T)
    requires s != []
    ensures x in s <==> x in s[..|s| - 1] || s[|s| - 1] == x
  {
    assert s == s[..|s| - 1] + [s[|s| - 1]];
  }

  /** A slice bound as `Array.prototype.slice` resolves it: negative counts from the end */
  function SliceBound(len: nat, k: int): (b: nat)
    ensures b <= len
    ensures 0 <= k <= len ==> b == k
    ensures k > len ==> b == len
    ensures -(len as int) <= k < 0 ==> b == len + k
    ensures k < -(len as int) ==> b == 0
  {
    if k < 0 then (if len + k < 0 then 0 else len + k) else if k > len then len else k
  }

  /** `s.slice(0, end)` */
  function SliceTo<T>(s: seq<T>, end: int): (r: seq<T>)
    ensures r <= s
    ensures end >= 0 ==> |r| == if end < |s| then end else |s|
    ensures end < 0 ==> |r| == if |s| + end < 0 then 0 else |s| + end
  {
    s[..SliceBound(|s|, end)]
  }

  /** `s.slice(start)` */
  function SliceFrom<T>(s: seq<T>, start: int): (r: seq<T>)
    ensures r == s[SliceBound(|s|, start)..]
    ensures 0 <= start <= |s| ==> s[..start] + r == s
    ensures start >= |s| ==> r == []
  {
    s[SliceBound(|s|, start)..]
  }
}
