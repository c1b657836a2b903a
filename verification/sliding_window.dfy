/** Logs of timestamps that are pruned to a window each time one is added, against the unpruned history.
    The functions ending in `Upto` look at the first n timestamps only. */
module SlidingWindow {

  function SinceUpto(times: seq<int>, n: nat, cutoff: int): seq<int>
    requires n <= |times|
  {
    if n == 0 then []
    else if times[n - 1] > cutoff then SinceUpto(times, n - 1, cutoff) + [times[n - 1]]
    else SinceUpto(times, n - 1, cutoff)
  }

  /** The timestamps strictly after the cutoff, in order. */
  function Since(times: seq<int>, cutoff: int): seq<int> {
    SinceUpto(times, |times|, cutoff)
  }

  function CountAfterUpto(times: seq<int>, n: nat, cutoff: int): nat
    requires n <= |times|
  {
    if n == 0 then 0
    else CountAfterUpto(times, n - 1, cutoff) + (if times[n - 1] > cutoff then 1 else 0)
  }

  /** How many timestamps lie strictly after the cutoff. */
  function CountAfter(times: seq<int>, cutoff: int): nat {
    CountAfterUpto(times, |times|, cutoff)
  }

  function CountInUpto(times: seq<int>, n: nat, from: int, to: int): nat
    requires n <= |times|
  {
    if n == 0 then 0
    else CountInUpto(times, n - 1, from, to) + (if from < times[n - 1] <= to then 1 else 0)
  }

  /** How many timestamps lie in (from, to]. */
  function CountIn(times: seq<int>, from: int, to: int): nat {
    CountInUpto(times, |times|, from, to)
  }

  predicate Ordered(times: seq<int>) {
    forall i, j :: 0 <= i < j < |times| ==> times[i] <= times[j]
  }

  /** What a log holds after the first n additions when every addition prunes it to the window. */
  function Log(history: seq<int>, n: nat, window: int): seq<int>
    requires n <= |history|
  {
    if n == 0 then []
    else Since(Log(history, n - 1, window) + [history[n - 1]], history[n - 1] - window)
  }

  // ----- the loops

  lemma {:induction false} SinceOfPrefix(a: seq<int>, b: seq<int>, n: nat, cutoff: int)
    requires n <= |a| && n <= |b| && forall i :: 0 <= i < n ==> a[i] == b[i]
    ensures SinceUpto(a, n, cutoff) == SinceUpto(b, n, cutoff)
  {
    if n > 0 {
      SinceOfPrefix(a, b, n - 1, cutoff);
    }
  }

  /** pruneTimes: the kept timestamps are moved to the front of the same array; their number is returned. */
  method PruneTimes(values: array<int>, cutoff: int) returns (n: nat)
    modifies values
    ensures n <= values.Length && values[..n] == Since(old(values[..]), cutoff)
  {
    n := 0;
    ghost var was := values[..];
    for i := 0 to values.Length
      invariant n <= i
      invariant values[..n] == SinceUpto(was, i, cutoff)
      invariant forall j :: i <= j < values.Length ==> values[j] == was[j]
    {
      if values[i] > cutoff {
        values[n] := values[i];
        n := n + 1;
      }
    }
  }

  /** countSince */
  method CountSince(values: seq<int>, cutoff: int) returns (n: nat)
    ensures n == CountAfter(values, cutoff)
  {
    n := 0;
    for i := 0 to |values|
      invariant n == CountAfterUpto(values, i, cutoff)
    {
      if values[i] > cutoff {
        n := n + 1;
      }
    }
  }

  // ----- pruning loses nothing a later window needs

  lemma {:induction false} SinceLength(times: seq<int>, n: nat, cutoff: int)
    requires n <= |times|
    ensures |SinceUpto(times, n, cutoff)| == CountAfterUpto(times, n, cutoff)
  {
    if n > 0 {
      SinceLength(times, n - 1, cutoff);
    }
  }

  lemma {:induction false} CountAfterOfPrefix(a: seq<int>, b: seq<int>, n: nat, cutoff: int)
    requires n <= |a| && n <= |b| && forall i :: 0 <= i < n ==> a[i] == b[i]
    ensures CountAfterUpto(a, n, cutoff) == CountAfterUpto(b, n, cutoff)
  {
    if n > 0 {
      CountAfterOfPrefix(a, b, n - 1, cutoff);
    }
  }

  lemma {:induction false} LogOfPrefix(a: seq<int>, b: seq<int>, n: nat, window: int)
    requires n <= |a| && n <= |b| && forall i :: 0 <= i < n ==> a[i] == b[i]
    ensures Log(a, n, window) == Log(b, n, window)
  {
    if n > 0 {
      LogOfPrefix(a, b, n - 1, window);
    }
  }

  lemma SinceLast(times: seq<int>, x: int, cutoff: int)
    ensures Since(times + [x], cutoff) == if x > cutoff then Since(times, cutoff) + [x] else Since(times, cutoff)
  {
    SinceOfPrefix(times + [x], times, |times|, cutoff);
  }

  /** An earlier cutoff first changes nothing. */
  lemma {:induction false} SinceSince(times: seq<int>, n: nat, early: int, late: int)
    requires n <= |times| && early <= late
    ensures Since(SinceUpto(times, n, early), late) == SinceUpto(times, n, late)
  {
    if n > 0 {
      SinceSince(times, n - 1, early, late);
      SinceLast(SinceUpto(times, n - 1, early), times[n - 1], late);
    }
  }

  lemma {:induction false} CountAfterShrinks(times: seq<int>, n: nat, early: int, late: int)
    requires n <= |times| && early <= late
    ensures CountAfterUpto(times, n, late) <= CountAfterUpto(times, n, early)
  {
    if n > 0 {
      CountAfterShrinks(times, n - 1, early, late);
    }
  }

  /** The pruned log is exactly the part of the history inside the latest window. */
  lemma {:induction false} LogIsWindow(history: seq<int>, n: nat, window: int)
    requires Ordered(history) && window >= 0 && 0 < n <= |history|
    ensures Log(history, n, window) == SinceUpto(history, n, history[n - 1] - window)
  {
    var now := history[n - 1];
    if n > 1 {
      LogIsWindow(history, n - 1, window);
      SinceSince(history, n - 1, history[n - 2] - window, now - window);
    }
    SinceLast(Log(history, n - 1, window), now, now - window);
  }

  /** Counting a shorter window on the pruned log and on the whole history gives the same number. */
  lemma ShorterWindowAgrees(history: seq<int>, n: nat, window: int, shorter: int)
    requires Ordered(history) && 0 < n <= |history| && 0 <= shorter <= window
    ensures CountAfter(Log(history, n, window), history[n - 1] - shorter) ==
            CountAfterUpto(history, n, history[n - 1] - shorter)
  {
    var now := history[n - 1];
    LogIsWindow(history, n, window);
    SinceSince(history, n, now - window, now - shorter);
    SinceLength(Log(history, n, window), |Log(history, n, window)|, now - shorter);
    SinceLength(history, n, now - shorter);
  }

  lemma {:induction false} CountInIsAfter(times: seq<int>, n: nat, from: int, to: int)
    requires n <= |times| && forall i :: 0 <= i < n ==> times[i] <= to
    ensures CountInUpto(times, n, from, to) == CountAfterUpto(times, n, from)
  {
    if n > 0 {
      CountInIsAfter(times, n - 1, from, to);
    }
  }

  lemma {:induction false} CountInSplits(times: seq<int>, n: nat, from: int, mid: int, to: int)
    requires n <= |times| && from <= mid <= to
    ensures CountInUpto(times, n, from, to) == CountInUpto(times, n, from, mid) + CountInUpto(times, n, mid, to)
  {
    if n > 0 {
      CountInSplits(times, n - 1, from, mid, to);
    }
  }
}
