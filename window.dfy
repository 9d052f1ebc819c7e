/** The bounded histories of the dashboard. Every one of them is updated by
    adding one element and cutting the result back with `slice`: newest-first
    lists take `[x, ...prev].slice(0, n)`, oldest-first ones take
    `[...prev, x].slice(-n)`. */
module Window {
  import opened Types

  /** `s.slice(0, n)`: the first `n` elements, or all when there are fewer. */
  function FirstN<T>(s: seq<T>, n: nat): (r: seq<T>)
    ensures |r| == Min(|s|, n)
    ensures forall i :: 0 <= i < |r| ==> r[i] == s[i]
  {
    s[..Min(|s|, n)]
  }

  /** `s.slice(-n)` for a positive `n`: the last `n` elements, or all when
      there are fewer. */
  function LastN<T>(s: seq<T>, n: nat): (r: seq<T>)
    requires n > 0
    ensures |r| == Min(|s|, n)
    ensures forall i :: 0 <= i < |r| ==> r[i] == s[|s| - |r| + i]
  {
    s[|s| - Min(|s|, n)..]
  }

  /** Newest first: `x` goes to index 0, the rest keep their order, and the
      oldest element falls off once the window is full. */
  function PushFront<T>(x: T, s: seq<T>, cap: nat): (r: seq<T>)
    ensures |r| == Min(|s| + 1, cap)
    ensures cap > 0 ==> r[0] == x
    ensures forall i :: 0 < i < |r| ==> r[i] == s[i - 1]
  {
    FirstN([x] + s, cap)
  }

  /** Oldest first: `x` goes last, the rest keep their order, and the oldest
      element is evicted first once the window is full. */
  function PushBack<T>(s: seq<T>, x: T, cap: nat): (r: seq<T>)
    requires cap > 0
    ensures |r| == Min(|s| + 1, cap)
    ensures r[|r| - 1] == x
    ensures forall i :: 0 <= i < |r| - 1 ==> r[i] == s[|s| + 1 - |r| + i]
  {
    LastN(s + [x], cap)
  }

  /** The elements of `s` in the opposite order. */
  function Reversed<T>(s: seq<T>): (r: seq<T>)
    ensures |r| == |s|
    ensures forall k :: 0 <= k < |s| ==> r[k] == s[|s| - 1 - k]
  {
    if s == [] then [] else Reversed(s[1..]) + [s[0]]
  }

  /** The window after pushing each of `xs` to the front, one call at a time. */
  function PushFrontAll<T>(s: seq<T>, xs: seq<T>, cap: nat): (r: seq<T>)
    decreases |xs|
  {
    if xs == [] then s else PushFrontAll(PushFront(xs[0], s, cap), xs[1..], cap)
  }

  /** The window after pushing each of `xs` to the back, one call at a time. */
  function PushBackAll<T>(s: seq<T>, xs: seq<T>, cap: nat): (r: seq<T>)
    requires cap > 0
    decreases |xs|
  {
    if xs == [] then s else PushBackAll(PushBack(s, xs[0], cap), xs[1..], cap)
  }

  /** Cutting early and cutting late keep the same front part. */
  lemma FirstNAbsorb<T>(u: seq<T>, t: seq<T>, n: nat)
    ensures FirstN(u + FirstN(t, n), n) == FirstN(u + t, n)
  {
    var a, b := FirstN(u + FirstN(t, n), n), FirstN(u + t, n);
    assert |a| == |b|;
    forall i | 0 <= i < |a| ensures a[i] == b[i] {
      if i >= |u| {
        assert (u + FirstN(t, n))[i] == FirstN(t, n)[i - |u|];
      }
    }
  }

  /** Cutting early and cutting late keep the same back part. */
  lemma LastNAbsorb<T>(t: seq<T>, u: seq<T>, n: nat)
    requires n > 0
    ensures LastN(LastN(t, n) + u, n) == LastN(t + u, n)
  {
    if |t| <= n {
      assert LastN(t, n) == t;
    } else {
      var x, k := t + u, |t| - n;
      assert LastN(t, n) == t[k..];
      assert t[k..] + u == x[k..];
      assert LastN(x[k..], n) == x[k..][|u|..] == x[k + |u|..];
      assert LastN(x, n) == x[k + |u|..];
    }
  }

  /** However many elements were pushed to the front, the window holds the
      newest `cap` of them in newest-first order, followed by what is still
      left of the old window. */
  lemma {:induction false} PushFrontAllKeepsNewest<T>(s: seq<T>, xs: seq<T>, cap: nat)
    requires |s| <= cap
    ensures PushFrontAll(s, xs, cap) == FirstN(Reversed(xs) + s, cap)
    decreases |xs|
  {
    if xs == [] {
      assert FirstN(s, cap) == s;
    } else {
      var s' := PushFront(xs[0], s, cap);
      calc {
        PushFrontAll(s, xs, cap);
        PushFrontAll(s', xs[1..], cap);
        { PushFrontAllKeepsNewest(s', xs[1..], cap); }
        FirstN(Reversed(xs[1..]) + s', cap);
        { FirstNAbsorb(Reversed(xs[1..]), [xs[0]] + s, cap); }
        FirstN(Reversed(xs[1..]) + ([xs[0]] + s), cap);
        { assert Reversed(xs[1..]) + ([xs[0]] + s) == Reversed(xs) + s; }
        FirstN(Reversed(xs) + s, cap);
      }
    }
  }

  /** However many elements were pushed to the back, the window holds the
      last `cap` elements of the old window followed by everything pushed:
      the oldest are always evicted first. */
  lemma {:induction false} PushBackAllKeepsNewest<T>(s: seq<T>, xs: seq<T>, cap: nat)
    requires cap > 0 && |s| <= cap
    ensures PushBackAll(s, xs, cap) == LastN(s + xs, cap)
    decreases |xs|
  {
    if xs == [] {
      assert s + xs == s;
      assert LastN(s, cap) == s;
    } else {
      var s' := PushBack(s, xs[0], cap);
      calc {
        PushBackAll(s, xs, cap);
        PushBackAll(s', xs[1..], cap);
        { PushBackAllKeepsNewest(s', xs[1..], cap); }
        LastN(s' + xs[1..], cap);
        { LastNAbsorb(s + [xs[0]], xs[1..], cap); }
        LastN(s + [xs[0]] + xs[1..], cap);
        { assert s + [xs[0]] + xs[1..] == s + xs; }
        LastN(s + xs, cap);
      }
    }
  }
}
