/** A bounded first-in first-out buffer, as a Python `deque` created with a
    `maxlen`: appending to a full buffer silently drops its oldest entry. */
module Fifo {

  function Min(a: nat, b: nat): nat {
    if a <= b then a else b
  }

  /** The newest `cap` entries of `s`, oldest first. */
  function Window<T>(s: seq<T>, cap: nat): (r: seq<T>)
    ensures |r| == Min(|s|, cap)
  {
    if |s| <= cap then s else s[|s| - cap..]
  }

  /** `deque.append(x)` on a deque bounded by `cap`. */
  function Push<T>(q: seq<T>, cap: nat, x: T): (r: seq<T>)
    ensures |r| == Min(|q| + 1, cap)
    ensures cap > 0 ==> r[|r| - 1] == x
  {
    Window(q + [x], cap)
  }

  /** The new entry goes last; the rest is the old contents, less the oldest
      entry exactly when the buffer was already full. */
  lemma PushShifts<T>(q: seq<T>, cap: nat, x: T)
    ensures |q| < cap ==> Push(q, cap, x) == q + [x]
    ensures 0 < cap == |q| ==> Push(q, cap, x) == q[1..] + [x]
    ensures cap == 0 ==> Push(q, cap, x) == []
  {
  }

  /** Appending the entries of `xs` one by one, oldest first. */
  function PushAll<T>(q: seq<T>, cap: nat, xs: seq<T>): (r: seq<T>)
    decreases |xs|
  {
    if xs == [] then q else PushAll(Push(q, cap, xs[0]), cap, xs[1..])
  }

  /** Trimming to the window early and appending more gives the same window as
      appending first and trimming once. */
  lemma WindowAppend<T>(s: seq<T>, t: seq<T>, cap: nat)
    ensures Window(Window(s, cap) + t, cap) == Window(s + t, cap)
  {
  }

  /** Pushing entries one at a time keeps exactly the newest `cap` of
      everything ever pushed: the buffer is the window of its whole history. */
  lemma {:induction false} PushAllIsWindow<T>(q: seq<T>, cap: nat, xs: seq<T>)
    requires |q| <= cap
    ensures PushAll(q, cap, xs) == Window(q + xs, cap)
    decreases |xs|
  {
    if xs == [] {
      assert q + xs == q;
    } else {
      var q' := Push(q, cap, xs[0]);
      PushAllIsWindow(q', cap, xs[1..]);
      WindowAppend(q + [xs[0]], xs[1..], cap);
      assert q + [xs[0]] + xs[1..] == q + xs;
    }
  }

  /** Starting from an empty buffer, after n pushes the buffer holds exactly
      min(n, cap) entries, the most recent ones, in the order they arrived. */
  lemma FromEmpty<T>(cap: nat, xs: seq<T>)
    ensures |PushAll([], cap, xs)| == Min(|xs|, cap)
    ensures PushAll([], cap, xs) == xs[|xs| - Min(|xs|, cap)..]
  {
    var empty: seq<T> := [];
    PushAllIsWindow(empty, cap, xs);
    assert empty + xs == xs;
    var w := Window(xs, cap);
    assert PushAll(empty, cap, xs) == w;
    if |xs| <= cap {
      assert w == xs == xs[0..];
    } else {
      assert w == xs[|xs| - cap..];
    }
  }
}
