/**
 * The rolling buffers behind the dashboard's trade list and log list:
 * `buf.append(x)` followed by a single `buf.pop(0)` when the length has
 * passed the cap (dashboard.py lines 172-181).
 */
module Buffers {

  /** The last `cap` elements of `s`, or all of `s` when it is no longer than `cap`. */
  function Last<T>(s: seq<T>, cap: nat): (r: seq<T>)
  {
    if |s| <= cap then s else s[|s| - cap..]
  }

  /**
   * One append to the tail followed by at most one removal from the head:
   * the result is the newest `KeptLength(|buf|, 1, cap)` elements of the old
   * buffer followed by the new one.
   */
  function AppendTrim<T>(buf: seq<T>, x: T, cap: nat): (r: seq<T>)
    ensures r == Newest(buf + [x], KeptLength(|buf|, 1, cap))
  {
    var b := buf + [x];
    if |b| > cap then b[1..] else b
  }

  /**
   * The same, once for each element of `xs` in order. The length follows
   * `KeptLength`: a buffer already over the cap keeps its length, however
   * many elements are appended.
   */
  function AppendAllTrim<T>(buf: seq<T>, xs: seq<T>, cap: nat): (r: seq<T>)
    ensures |r| == KeptLength(|buf|, |xs|, cap)
    decreases |xs|
  {
    if |xs| == 0 then buf
    else
      KeptLengthCompose(|buf|, 1, |xs| - 1, cap);
      AppendAllTrim(AppendTrim(buf, xs[0], cap), xs[1..], cap)
  }

  /**
   * The new element is the last one; the survivors are the old elements in
   * their old order; exactly one element, the oldest, is dropped when the
   * length passes the cap, and none otherwise.
   */
  lemma AppendTrimShape<T>(buf: seq<T>, x: T, cap: nat)
    requires cap >= 1
    ensures var r := AppendTrim(buf, x, cap);
      && |r| >= 1 && r[|r| - 1] == x
      && (|buf| >= cap ==> r == buf[1..] + [x])
      && (|buf| < cap ==> r == buf + [x])
  {
    if |buf| >= cap {
      assert (buf + [x])[1..] == buf[1..] + [x];
    }
  }

  /** A buffer that is within its cap stays within it. */
  lemma AppendTrimBounded<T>(buf: seq<T>, x: T, cap: nat)
    requires |buf| <= cap
    ensures |AppendTrim(buf, x, cap)| <= cap
  {
  }

  /**
   * A buffer already over its cap is not brought back under it: one removal
   * per append keeps its length where it was.
   */
  lemma AppendTrimOverCap<T>(buf: seq<T>, x: T, cap: nat)
    requires |buf| > cap
    ensures |AppendTrim(buf, x, cap)| == |buf| > cap
  {
  }

  /** The newest `n` elements of `w`, in order. */
  function Newest<T>(w: seq<T>, n: nat): (r: seq<T>)
    requires n <= |w|
    ensures |r| == n
  {
    w[|w| - n..]
  }

  /**
   * How many elements a buffer that held `n0` holds after `k` appends, each
   * followed by one removal from the head when the length has passed `cap`:
   * never more than it was given; within the cap when it started within it;
   * unchanged when it started over the cap.
   */
  function KeptLength(n0: nat, k: nat, cap: nat): (n: nat)
    ensures n <= n0 + k
    ensures n0 <= cap ==> n == if n0 + k <= cap then n0 + k else cap
    ensures n0 > cap ==> n == n0
  {
    if n0 >= cap then n0 else if n0 + k <= cap then n0 + k else cap
  }

  /** Counting the appends in two batches gives the same length as counting them at once. */
  lemma KeptLengthCompose(n0: nat, k: nat, m: nat, cap: nat)
    ensures KeptLength(KeptLength(n0, k, cap), m, cap) == KeptLength(n0, k + m, cap)
  {
  }

  /** A window of a window followed by more elements is a window of everything. */
  lemma NewestOfAppend<T>(w: seq<T>, n: nat, ys: seq<T>, m: nat)
    requires n <= |w| && m <= n + |ys|
    ensures Newest(Newest(w, n) + ys, m) == Newest(w + ys, m)
  {
    var v := Newest(w, n) + ys;
    var u := w + ys;
    assert v == u[|w| - n..];
  }

  /**
   * Appending `ys` to a window that the trims have left and trimming on
   * leaves the same window of everything as trimming all along.
   */
  lemma NewestThenAppend<T>(w: seq<T>, ys: seq<T>, n0: nat, k: nat, cap: nat)
    requires n0 + k == |w|
    ensures var n := KeptLength(n0, k, cap);
      Newest(Newest(w, n) + ys, KeptLength(n, |ys|, cap)) == Newest(w + ys, KeptLength(n0, k + |ys|, cap))
  {
    var n := KeptLength(n0, k, cap);
    KeptLengthCompose(n0, k, |ys|, cap);
    NewestOfAppend(w, n, ys, KeptLength(n, |ys|, cap));
  }

  /**
   * A buffer that holds the window of `start + run` and then takes `ys`
   * holds the window of `start + (run + ys)`.
   */
  lemma WindowAdvance<T>(start: seq<T>, run: seq<T>, ys: seq<T>, prev: seq<T>, next: seq<T>, cap: nat)
    requires prev == Newest(start + run, KeptLength(|start|, |run|, cap))
    requires next == Newest(prev + ys, KeptLength(|prev|, |ys|, cap))
    ensures next == Newest(start + (run + ys), KeptLength(|start|, |run| + |ys|, cap))
  {
    NewestThenAppend(start + run, ys, |start|, |run|, cap);
    assert start + run + ys == start + (run + ys);
  }

  /**
   * Any run of appends and trims keeps exactly the newest
   * `KeptLength(|buf|, |xs|, cap)` elements of old and new together, in order.
   */
  lemma {:induction false} AppendAllTrimNewest<T>(buf: seq<T>, xs: seq<T>, cap: nat)
    ensures AppendAllTrim(buf, xs, cap) == Newest(buf + xs, KeptLength(|buf|, |xs|, cap))
    decreases |xs|
  {
    if |xs| == 0 {
      assert buf + xs == buf;
    } else {
      var next := AppendTrim(buf, xs[0], cap);
      AppendAllTrimNewest(next, xs[1..], cap);
      assert AppendAllTrim(buf, xs, cap) == AppendAllTrim(next, xs[1..], cap);
      WindowAdvance(buf, [xs[0]], xs[1..], next, AppendAllTrim(buf, xs, cap), cap);
      assert [xs[0]] + xs[1..] == xs;
    }
  }

  /** Starting within the cap, the kept window is the last `cap` elements. */
  lemma NewestWithinCap<T>(w: seq<T>, n0: nat, k: nat, cap: nat)
    requires n0 <= cap && n0 + k == |w|
    ensures Newest(w, KeptLength(n0, k, cap)) == Last(w, cap)
  {
  }

  /**
   * Starting within the cap, any run of appends leaves exactly the last `cap`
   * items of everything appended, in their original order.
   */
  lemma AppendAllTrimKeepsLast<T>(buf: seq<T>, xs: seq<T>, cap: nat)
    requires |buf| <= cap
    ensures AppendAllTrim(buf, xs, cap) == Last(buf + xs, cap)
  {
    AppendAllTrimNewest(buf, xs, cap);
    NewestWithinCap(buf + xs, |buf|, |xs|, cap);
  }
}
