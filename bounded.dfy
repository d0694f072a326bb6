/**
  The two list idioms the monitoring services use on their histories:
  append-then-truncate (`h.append(x); if len(h) > n: h = h[-n:]`) and the
  read-side slice `h[-limit:]` guarded by `if limit:`.
*/
module Bounded {
  import opened Wrappers

  /** `h[-n:]` when `len(h) > n`, otherwise `h`: the newest `n` entries, oldest first. */
  function KeepLast<T>(h: seq<T>, n: nat): seq<T> {
    if |h| > n then h[|h| - n..] else h
  }

  /**
    Appending to a history that respects its bound and truncating keeps the bound,
    puts the new entry last and drops exactly the oldest entry when the history was full.
  */
  lemma AppendBounded<T>(h: seq<T>, x: T, n: nat)
    requires 0 < n && |h| <= n
    ensures var r := KeepLast(h + [x], n);
      && |r| <= n
      && r[|r| - 1] == x
      && r == (if |h| < n then h + [x] else h[1..] + [x])
  {
    if |h| == n {
      assert (h + [x])[|h + [x]| - n..] == h[1..] + [x];
    }
  }

  /** Python's `h[start:]` for any integer `start` (negative counts from the end, out of range clamps). */
  function SliceFrom<T>(h: seq<T>, start: int): seq<T> {
    if start < 0 then (if -start >= |h| then h else h[|h| + start..])
    else if start >= |h| then []
    else h[start..]
  }

  /**
    `history[-limit:] if limit else history`, the read side of `get_health_history`
    and `get_metrics_history`: a suffix of the history holding the last `limit`
    entries for a positive limit, all of it for no limit or zero, and all but the
    first `-limit` entries for a negative one (Python's slice semantics).
  */
  function Recent<T>(h: seq<T>, limit: Option<int>): (r: seq<T>)
    ensures |r| <= |h| && r == h[|h| - |r|..]
    ensures limit.None? || limit.value == 0 ==> r == h
    ensures limit.Some? && limit.value > 0 ==> |r| == (if limit.value < |h| then limit.value else |h|)
    ensures limit.Some? && limit.value < 0 ==> |r| == (if -limit.value < |h| then |h| + limit.value else 0)
  {
    if limit.None? || limit.value == 0 then h else SliceFrom(h, -limit.value)
  }
}
