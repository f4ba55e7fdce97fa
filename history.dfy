/** Bounded FIFO histories: the engine's `deque(maxlen = cap)` buffers. */
module History {

  /** The most recent `cap` entries of `s`, oldest first (all of `s` when it is shorter). */
  function Latest<T>(s: seq<T>, cap: nat): (r: seq<T>)
    ensures |r| == if |s| < cap then |s| else cap
    ensures forall k :: 0 <= k < |r| ==> r[k] == s[|s| - |r| + k]
  {
    if |s| <= cap then s else s[|s| - cap..]
  }

  /** Appending to a deque of capacity `cap`: when it is full the oldest entry is evicted first. */
  function BoundedAppend<T>(h: seq<T>, x: T, cap: nat): (r: seq<T>)
    requires 0 < cap
    ensures |h| <= cap ==> r == Latest(h + [x], cap)
  {
    if |h| < cap then h + [x] else h[|h| - cap + 1..] + [x]
  }

  /** A bounded history that holds the latest `cap` entries of a full log still holds the
      latest `cap` entries after one more entry is appended to both. */
  lemma {:induction false} BoundedAppendKeepsLatest<T>(s: seq<T>, x: T, cap: nat)
    requires 0 < cap
    ensures BoundedAppend(Latest(s, cap), x, cap) == Latest(s + [x], cap)
    ensures |BoundedAppend(Latest(s, cap), x, cap)| <= cap
  {
    if |s| >= cap {
      var h := Latest(s, cap);
      assert h == s[|s| - cap..];
      assert h[|h| - cap + 1..] == s[|s| - cap + 1..];
      assert (s + [x])[|s| + 1 - cap..] == s[|s| - cap + 1..] + [x];
    }
  }

  /** After any sequence of appends to an empty deque, it holds exactly the latest `cap`
      entries, the newest last. */
  lemma {:induction false} BoundedHistoryIsSuffix<T>(log: seq<T>, cap: nat)
    requires 0 < cap
    ensures Replay([], log, cap) == Latest(log, cap)
    decreases |log|
  {
    if log != [] {
      var init, last := log[..|log| - 1], log[|log| - 1];
      assert init + [last] == log;
      BoundedHistoryIsSuffix(init, cap);
      assert Replay([], log, cap) == BoundedAppend(Latest(init, cap), last, cap);
      BoundedAppendKeepsLatest(init, last, cap);
    }
  }

  /** `h` after appending every entry of `log` in turn. */
  function Replay<T>(h: seq<T>, log: seq<T>, cap: nat): seq<T>
    requires 0 < cap
    decreases |log|
  {
    if log == [] then h else BoundedAppend(Replay(h, log[..|log| - 1], cap), log[|log| - 1], cap)
  }
}
