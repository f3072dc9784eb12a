/**
 * The running frame-time window of the `update` hook in the example
 * programs examples/my-main/main.rs and examples/parenting_and_object_types.rs:
 * a queue of the last frame times, at most `RUNNING_SIZE` long, whose mean
 * is shown in the window title.
 */
module FrameTimes {

  const RUNNING_SIZE: nat := 60

  /** The window after recording `frameTime`: the oldest time leaves when the window is full. */
  function Slide(times: seq<real>, frameTime: real): (r: seq<real>)
    ensures |times| < RUNNING_SIZE ==> r == times + [frameTime]
    ensures |times| >= RUNNING_SIZE ==> r == times[1..] + [frameTime]
  {
    (if |times| >= RUNNING_SIZE then times[1..] else times) + [frameTime]
  }

  function Sum(s: seq<real>): (r: real) {
    if s == [] then 0.0 else Sum(s[..|s| - 1]) + s[|s| - 1]
  }

  /** The mean of a non-empty window. */
  function Mean(s: seq<real>): (r: real)
    requires s != []
  {
    Sum(s) / |s| as real
  }

  /** A window that was not too long stays within `RUNNING_SIZE`, and is never empty. */
  lemma SlideBounded(times: seq<real>, frameTime: real)
    requires |times| <= RUNNING_SIZE
    ensures 1 <= |Slide(times, frameTime)| <= RUNNING_SIZE
  {
  }

  /**
   * First in, first out: the newest time is last, and the others are the
   * most recent times of the old window in their old order.
   */
  lemma SlideIsFifo(times: seq<real>, frameTime: real)
    ensures var r := Slide(times, frameTime);
            && r[|r| - 1] == frameTime
            && |r| - 1 <= |times|
            && r[..|r| - 1] == times[|times| - (|r| - 1)..]
  {
    var r := Slide(times, frameTime);
    assert r[..|r| - 1] == (if |times| >= RUNNING_SIZE then times[1..] else times);
  }

  /** Starting empty, any run of updates keeps the window within `RUNNING_SIZE` and holds the latest times. */
  function Replay(frames: seq<real>): (r: seq<real>) {
    if frames == [] then [] else Slide(Replay(frames[..|frames| - 1]), frames[|frames| - 1])
  }

  lemma {:induction false} ReplayKeepsLatest(frames: seq<real>)
    ensures |Replay(frames)| == if |frames| < RUNNING_SIZE then |frames| else RUNNING_SIZE
    ensures Replay(frames) == frames[|frames| - |Replay(frames)|..]
  {
    if frames != [] {
      var prefix := frames[..|frames| - 1];
      ReplayKeepsLatest(prefix);
      var w := Replay(prefix);
      var t := frames[|frames| - 1];
      if |w| >= RUNNING_SIZE {
        assert w[1..] == prefix[|prefix| - |w| + 1..];
        assert prefix[|prefix| - |w| + 1..] + [t] == frames[|frames| - |w|..];
      } else {
        assert w + [t] == frames[|frames| - |w| - 1..];
      }
    }
  }

  /** A window that lies between `lo` and `hi` has its mean between them too. */
  lemma MeanBetweenExtremes(s: seq<real>, lo: real, hi: real)
    requires s != []
    requires forall i | 0 <= i < |s| :: lo <= s[i] <= hi
    ensures lo <= Mean(s) <= hi
  {
    SumBetween(s, lo, hi);
  }

  lemma {:induction false} SumBetween(s: seq<real>, lo: real, hi: real)
    requires forall i | 0 <= i < |s| :: lo <= s[i] <= hi
    ensures |s| as real * lo <= Sum(s) <= |s| as real * hi
  {
    if s != [] {
      SumBetween(s[..|s| - 1], lo, hi);
    }
  }

  /** The `LAST_FRAME_TIMES` queue. */
  class FrameTimeWindow {
    var times: seq<real>

    ghost predicate Valid()
      reads this
    {
      |times| <= RUNNING_SIZE
    }

    constructor ()
      ensures Valid() && times == []
    {
      times := [];
    }

    /**
     * Records this frame's time (dropping the oldest when the window is
     * full) and returns the mean over the window.
     */
    method Update(frameTime: real) returns (mean: real)
      requires Valid()
      modifies this
      ensures Valid()
      ensures times == Slide(old(times), frameTime)
      ensures times != [] && mean == Mean(times)
    {
      if |times| >= RUNNING_SIZE {
        times := times[1..];
      }
      times := times + [frameTime];
      mean := Sum(times) / |times| as real;
    }
  }
}
