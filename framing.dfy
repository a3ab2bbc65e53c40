/**
 * Pure descriptions of how the consumer side cuts a growing buffer of
 * interleaved samples into whole frames, and how it picks one channel out
 * of a frame. The imperative drains (the visualizer's `try_consume` loop and
 * the prototype's framing loop) are proved against these functions.
 */
module Framing {
  import opened Wrappers

  /** `(a + 1) * n == a * n + n`: one more group of `n`. */
  lemma MulSucc(a: int, n: int)
    ensures (a + 1) * n == a * n + n
  {
  }

  /**
   * `r` is `s` taken with step `n` from index 0: element `i` of `r` is
   * element `i * n` of `s`, and `r` is long enough to cover all of `s`.
   */
  ghost predicate IsStride<T>(s: seq<T>, n: nat, r: seq<T>) {
    && (forall i :: 0 <= i < |r| ==> 0 <= i * n < |s| && r[i] == s[i * n])
    && |s| <= |r| * n
  }

  lemma StrideCons<T>(s: seq<T>, n: nat, tail: seq<T>)
    requires 0 < n < |s| && IsStride(s[n..], n, tail)
    ensures IsStride(s, n, [s[0]] + tail)
  {
    var r := [s[0]] + tail;
    forall i | 0 <= i < |r| ensures 0 <= i * n < |s| && r[i] == s[i * n] {
      if i > 0 {
        MulSucc(i - 1, n);
        assert r[i] == tail[i - 1] == s[n..][(i - 1) * n];
      }
    }
    MulSucc(|tail|, n);
  }

  /** Every `n`-th element starting at index 0 (the range view `stride(n)`). */
  function Stride<T>(s: seq<T>, n: nat): (r: seq<T>)
    requires n > 0
    ensures IsStride(s, n, r)
    decreases |s|
  {
    if |s| == 0 then []
    else if |s| <= n then [s[0]]
    else
      var tail := Stride(s[n..], n);
      StrideCons(s, n, tail);
      [s[0]] + tail
  }

  /** A frame of `channels * count` interleaved samples strides to exactly `count` samples. */
  lemma StrideOfFrame<T>(frame: seq<T>, channels: nat, count: nat)
    requires channels > 0 && |frame| == count * channels
    ensures |Stride(frame, channels)| == count
  {
    var r := Stride(frame, channels);
    if |r| < count {
      MulLe(|r| + 1, count, channels);
      MulSucc(|r|, channels);
    }
  }

  /** Multiplying by a natural number keeps the order. */
  lemma MulLe(a: nat, b: nat, n: nat)
    requires a <= b
    ensures a * n <= b * n
  {
    assert b * n == a * n + (b - a) * n;
  }

  /** Index `i * channels` is inside a buffer holding at least `count * channels` samples. */
  lemma StrideIndexInBounds(i: nat, channels: nat, count: nat, size: nat)
    requires i < count && size >= count * channels && channels > 0
    ensures 0 <= i * channels < size
  {
    MulLe(0, i, channels);
    MulLe(i + 1, count, channels);
    MulSucc(i, channels);
  }

  /** The whole frames a buffer starts with, in order, each of `size` samples. */
  function Frames<T>(buf: seq<T>, size: nat): (frames: seq<seq<T>>)
    requires size > 0
    ensures forall k :: 0 <= k < |frames| ==> |frames[k]| == size
    decreases |buf|
  {
    if |buf| < size then [] else [buf[..size]] + Frames(buf[size..], size)
  }

  /** What is left of a buffer once every whole frame has been removed from its front. */
  function DrainRest<T>(buf: seq<T>, size: nat): (rest: seq<T>)
    requires size > 0
    ensures |rest| < size
    decreases |buf|
  {
    if |buf| < size then buf else DrainRest(buf[size..], size)
  }

  /** The last whole frame of a buffer, if it has one. */
  function LastFrame<T>(buf: seq<T>, size: nat): Option<seq<T>>
    requires size > 0
  {
    var frames := Frames(buf, size);
    if frames == [] then None else Some(frames[|frames| - 1])
  }

  function Flatten<T>(frames: seq<seq<T>>): seq<T> {
    if frames == [] then [] else frames[0] + Flatten(frames[1..])
  }

  lemma FlattenCons<T>(head: seq<T>, frames: seq<seq<T>>)
    ensures Flatten([head] + frames) == head + Flatten(frames)
  {
    assert ([head] + frames)[1..] == frames;
  }

  /** The frames followed by the remainder give back the buffer: nothing is lost or reordered. */
  lemma {:induction false} FramesThenRest<T>(buf: seq<T>, size: nat)
    requires size > 0
    ensures Flatten(Frames(buf, size)) + DrainRest(buf, size) == buf
    decreases |buf|
  {
    if |buf| >= size {
      var head, tail := buf[..size], buf[size..];
      FramesThenRest(tail, size);
      FlattenCons(head, Frames(tail, size));
      SplitJoin(buf, size);
    }
  }

  lemma SplitJoin<T>(buf: seq<T>, size: nat)
    requires size <= |buf|
    ensures buf[..size] + buf[size..] == buf
  {
  }

  /** A buffer holds as many whole frames as fit: `n * size <= |buf| < (n + 1) * size`. */
  lemma {:induction false} FramesCount<T>(buf: seq<T>, size: nat)
    requires size > 0
    ensures |Frames(buf, size)| * size <= |buf| < (|Frames(buf, size)| + 1) * size
    decreases |buf|
  {
    var n := |Frames(buf, size)|;
    MulSucc(n, size);
    if |buf| >= size {
      FramesCount(buf[size..], size);
      MulSucc(n - 1, size);
    }
  }

  /** Frame `k` is the slice `[k * size, (k + 1) * size)` of the buffer. */
  lemma {:induction false} FrameAt<T>(buf: seq<T>, size: nat, k: nat)
    requires size > 0 && k < |Frames(buf, size)|
    ensures (k + 1) * size <= |buf|
    ensures Frames(buf, size)[k] == buf[k * size..(k + 1) * size]
    decreases |buf|
  {
    MulSucc(k, size);
    if k > 0 {
      var rest := buf[size..];
      FrameAt(rest, size, k - 1);
      MulSucc(k - 1, size);
      SliceOfSuffix(buf, size, (k - 1) * size, k * size);
      assert Frames(buf, size)[k] == Frames(rest, size)[k - 1];
    }
  }

  /** A slice of a suffix is the slice of the whole shifted by where the suffix starts. */
  lemma SliceOfSuffix<T>(buf: seq<T>, from: nat, lo: nat, hi: nat)
    requires from <= |buf| && lo <= hi <= |buf| - from
    ensures buf[from..][lo..hi] == buf[from + lo..from + hi]
  {
  }

  /** The remainder starts right after the last whole frame. */
  lemma {:induction false} DrainRestAt<T>(buf: seq<T>, size: nat)
    requires size > 0
    ensures |Frames(buf, size)| * size <= |buf|
    ensures DrainRest(buf, size) == buf[|Frames(buf, size)| * size..]
    decreases |buf|
  {
    FramesCount(buf, size);
    if |buf| >= size {
      var rest := buf[size..];
      DrainRestAt(rest, size);
      var m := |Frames(rest, size)|;
      assert |Frames(buf, size)| == m + 1;
      MulSucc(m, size);
      assert rest[m * size..] == buf[size + m * size..];
    }
  }

  /** Removing one frame from the front does not change which frame comes last, unless it was the only one. */
  lemma LastFrameStep<T>(buf: seq<T>, size: nat)
    requires size > 0 && |buf| >= size
    ensures LastFrame(buf, size) == Some(LastFrame(buf[size..], size).GetOr(buf[..size]))
  {
    var frames := Frames(buf, size);
    assert frames[1..] == Frames(buf[size..], size);
  }

  /** The last whole frame is the slice that ends where the remainder begins. */
  lemma LastFrameAt<T>(buf: seq<T>, size: nat)
    requires size > 0
    ensures |buf| < size <==> LastFrame(buf, size) == None
    ensures |buf| >= size ==>
      var n := |Frames(buf, size)|;
      1 <= n && n * size <= |buf| && LastFrame(buf, size) == Some(buf[(n - 1) * size..n * size])
  {
    FramesCount(buf, size);
    if |buf| >= size {
      var n := |Frames(buf, size)|;
      FrameAt(buf, size, n - 1);
    }
  }
}
