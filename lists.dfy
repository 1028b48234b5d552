/**
 * Capacity-bounded logs. The application keeps its session log and the
 * pipeline keeps its run log as arrays that are re-sliced after each append,
 * so that only the most recent entries survive.
 */
module Lists {

  function Min(a: nat, b: nat): nat { if a < b then a else b }

  /** `s.slice(-n)` for `n > 0` (and the empty list for `n == 0`): the newest `n` entries. */
  function KeepLast<T>(s: seq<T>, n: nat): (r: seq<T>)
    ensures |r| == Min(n, |s|)
    ensures r == s[|s| - |r|..]
  {
    if |s| <= n then s else s[|s| - n..]
  }

  /** Append one entry, then keep only the newest `cap`. */
  function BoundedPush<T>(log: seq<T>, x: T, cap: nat): seq<T>
  {
    KeepLast(log + [x], cap)
  }

  /** Append every entry of `xs` in turn, each through `BoundedPush`. */
  function PushAll<T>(log: seq<T>, xs: seq<T>, cap: nat): seq<T>
    decreases |xs|
  {
    if xs == [] then log else PushAll(BoundedPush(log, xs[0], cap), xs[1..], cap)
  }

  /** Trimming then appending keeps the same entries as appending then trimming. */
  lemma KeepLastThenAppend<T>(s: seq<T>, ys: seq<T>, n: nat)
    ensures KeepLast(KeepLast(s, n) + ys, n) == KeepLast(s + ys, n)
  {
    var k := KeepLast(s, n);
    assert k == s[|s| - |k|..];
    if |s + ys| > n {
      assert (k + ys)[|k + ys| - n..] == (s + ys)[|s + ys| - n..];
    }
  }

  /** Appending one entry to a log of capacity `n + 1` equals trimming the old log to `n` and appending. */
  lemma KeepLastAppend<T>(s: seq<T>, x: T, n: nat)
    ensures KeepLast(s + [x], n + 1) == KeepLast(s, n) + [x]
  {
    var k := KeepLast(s, n);
    assert k == s[|s| - |k|..];
    if |s| > n {
      assert (s + [x])[|s| + 1 - (n + 1)..] == s[|s| - n..] + [x];
    }
  }

  /**
   * FIFO eviction: after any number of bounded appends the log holds exactly
   * the newest `cap` entries of everything ever appended, in their original order.
   */
  lemma {:induction false} PushAllKeepsNewest<T>(log: seq<T>, xs: seq<T>, cap: nat)
    requires |log| <= cap
    ensures PushAll(log, xs, cap) == KeepLast(log + xs, cap)
    decreases |xs|
  {
    if xs == [] {
      assert log + xs == log;
    } else {
      var next, rest := BoundedPush(log, xs[0], cap), xs[1..];
      calc {
        PushAll(log, xs, cap);
        PushAll(next, rest, cap);
        { PushAllKeepsNewest(next, rest, cap); }
        KeepLast(next + rest, cap);
        { KeepLastThenAppend(log + [xs[0]], rest, cap); }
        KeepLast(log + [xs[0]] + rest, cap);
        { assert log + [xs[0]] + rest == log + xs; }
        KeepLast(log + xs, cap);
      }
    }
  }
}
