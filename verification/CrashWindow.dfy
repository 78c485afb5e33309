/**
 The crash circuit breaker: a list of recent crash times per command, trimmed at every crash.
 It reports a crash loop exactly when the whole, untrimmed history does.
 */
module CrashWindow {
  const WINDOW := 60_000
  const THRESHOLD := 5

  /** The list without its leading times before the cutoff. */
  function DropBefore(times: seq<int>, cutoff: int): seq<int> {
    if times == [] || cutoff <= times[0] then times else DropBefore(times[1..], cutoff)
  }

  function CountSince(times: seq<int>, cutoff: int): nat {
    if times == [] then
      0
    else
      CountSince(times[..|times| - 1], cutoff) + if cutoff <= times[|times| - 1] then 1 else 0
  }

  /** The definition: enough crashes in the window that ends at `now`. */
  predicate Looping(history: seq<int>, now: int) {
    THRESHOLD <= CountSince(history, now - WINDOW)
  }

  /** The list the daemon keeps after a history of crashes. */
  function Tracked(history: seq<int>): seq<int> {
    if history == [] then
      []
    else
      var now := history[|history| - 1];
      DropBefore(Tracked(history[..|history| - 1]) + [now], now - WINDOW)
  }

  lemma {:induction false} CountConcat(a: seq<int>, b: seq<int>, cutoff: int)
    ensures CountSince(a + b, cutoff) == CountSince(a, cutoff) + CountSince(b, cutoff)
    decreases |b|
  {
    if b == [] {
      assert a + b == a;
    } else {
      CountConcat(a, b[..|b| - 1], cutoff);
      assert (a + b)[..|a + b| - 1] == a + b[..|b| - 1];
    }
  }

  /** Trimming never loses a time that a later count could still want. */
  lemma {:induction false} DropIsUnseen(times: seq<int>, cutoff: int, later: int)
    requires cutoff <= later
    ensures CountSince(DropBefore(times, cutoff), later) == CountSince(times, later)
    decreases |times|
  {
    if times != [] && times[0] < cutoff {
      DropIsUnseen(times[1..], cutoff, later);
      CountConcat([times[0]], times[1..], later);
      assert [times[0]] + times[1..] == times;
    }
  }

  lemma {:induction false} TrackedCounts(history: seq<int>, now: int)
    requires forall i :: 0 <= i < |history| ==> history[i] <= now
    ensures CountSince(Tracked(history), now - WINDOW) == CountSince(history, now - WINDOW)
    decreases |history|
  {
    if history != [] {
      var front, last := history[..|history| - 1], history[|history| - 1];
      TrackedCounts(front, now);
      DropIsUnseen(Tracked(front) + [last], last - WINDOW, now - WINDOW);
      CountConcat(Tracked(front), [last], now - WINDOW);
      CountConcat(front, [last], now - WINDOW);
      assert front + [last] == history;
    }
  }

  lemma {:induction false} CountIsBounded(times: seq<int>, cutoff: int)
    ensures CountSince(times, cutoff) <= |times|
    decreases |times|
  {
    if times != [] {
      CountIsBounded(times[..|times| - 1], cutoff);
    }
  }

  /** The positions of the crashes in the window. */
  ghost function Hits(times: seq<int>, cutoff: int): set<int> {
    set i | 0 <= i < |times| && cutoff <= times[i]
  }

  /** The count is the number of times at or after the cutoff. */
  lemma {:induction false} CountIsNumber(times: seq<int>, cutoff: int)
    ensures CountSince(times, cutoff) == |Hits(times, cutoff)|
    decreases |times|
  {
    if times != [] {
      var front, last := times[..|times| - 1], |times| - 1;
      CountIsNumber(front, cutoff);
      assert Hits(times, cutoff) == Hits(front, cutoff) + if cutoff <= times[last] then {last} else {};
    }
  }

  predicate Nondecreasing(times: seq<int>) {
    forall i, j :: 0 <= i < j < |times| ==> times[i] <= times[j]
  }

  /** On a clock that never runs back, the trimmed list and the full history report the same loops. */
  lemma TrimmedReportsTheSame(history: seq<int>, now: int)
    requires Nondecreasing(history) && (history != [] ==> history[|history| - 1] <= now)
    ensures Looping(Tracked(history), now) <==> Looping(history, now)
    ensures Looping(history, now) <==> |set i | 0 <= i < |history| && now - 60_000 <= history[i]| >= 5
  {
    forall i | 0 <= i < |history|
      ensures history[i] <= now
    {
    }
    TrackedCounts(history, now);
    CountIsNumber(history, now - WINDOW);
  }

  class CrashTracker {
    var crashes: map<string, seq<int>>

    constructor ()
      ensures crashes == map[]
    {
      crashes := map[];
    }

    function Times(command: string): seq<int>
      reads this
    {
      if command in crashes then crashes[command] else []
    }

    /** Records one crash and trims; the list stays the one its history makes, and no other command's moves. */
    method RecordCrash(command: string, now: int, ghost history: seq<int>)
      requires Times(command) == Tracked(history)
      modifies this
      ensures Times(command) == Tracked(history + [now])
      ensures forall other :: other != command ==> Times(other) == old(Times(other))
    {
      var times := (if command in crashes then crashes[command] else []) + [now];
      var cutoff := now - WINDOW;
      var i := 0;
      while i < |times| && times[i] < cutoff
        invariant 0 <= i <= |times| && DropBefore(times[i..], cutoff) == DropBefore(times, cutoff)
      {
        assert times[i..][1..] == times[i + 1..];
        i := i + 1;
      }
      crashes := crashes[command := times[i..]];
      assert (history + [now])[..|history|] == history;
    }

    /** Counts the tracked times in the window; the short list answers without counting. */
    method IsCrashLooping(command: string, now: int, ghost history: seq<int>) returns (looping: bool)
      requires Times(command) == Tracked(history)
      requires Nondecreasing(history) && (history != [] ==> history[|history| - 1] <= now)
      ensures looping <==> Looping(history, now)
    {
      TrimmedReportsTheSame(history, now);
      var times := if command in crashes then crashes[command] else [];
      CountIsBounded(times, now - WINDOW);
      if |times| < THRESHOLD {
        return false;
      }
      var count := 0;
      for i := 0 to |times|
        invariant count == CountSince(times[..i], now - WINDOW)
      {
        assert times[..i + 1][..i] == times[..i];
        if now - WINDOW <= times[i] {
          count := count + 1;
        }
      }
      assert times[..|times|] == times;
      return THRESHOLD <= count;
    }
  }
}
