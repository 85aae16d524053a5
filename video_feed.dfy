/** The live video feed (src/components/VideoFeed.tsx): the bounded frame
    dispatch queue and its drain loop, the capture-interval rule, and the
    bounding-box normalisation and scaling behind the overlay. */
module VideoFeed {
  import opened Types
  import opened Seqs

  // ---------------------------------------------------------------------------
  // Frame dispatch queue
  // ---------------------------------------------------------------------------

  /** One captured frame: the base64 JPEG payload and its capture time. */
  datatype Frame = Frame(frameData: string, timestamp: int)

  /** At most this many frames wait for delivery. */
  const MaxQueued: nat := 10

  /** `push` followed by one `shift` when the queue has grown past the bound. */
  function Push(q: seq<Frame>, f: Frame): (r: seq<Frame>)
    ensures |q| <= MaxQueued ==> |r| <= MaxQueued
    ensures |q| < MaxQueued ==> r == q + [f]
    ensures |q| == MaxQueued ==> r == q[1..] + [f]
  {
    var pushed := q + [f];
    if |pushed| > MaxQueued then pushed[1..] else pushed
  }

  /** The queue after enqueuing `fs` in order, with no drain in between. */
  function PushAll(q: seq<Frame>, fs: seq<Frame>): seq<Frame>
    decreases |fs|
  {
    if fs == [] then q else PushAll(Push(q, fs[0]), fs[1..])
  }

  /** A queue within the bound holds the `MaxQueued` most recent frames in
      capture order, however many were enqueued. */
  lemma {:induction false} PushAllKeepsMostRecent(q: seq<Frame>, fs: seq<Frame>)
    requires |q| <= MaxQueued
    ensures PushAll(q, fs) == Last(q + fs, MaxQueued)
    decreases |fs|
  {
    if fs == [] {
      assert q + fs == q;
    } else {
      var f, rest := fs[0], fs[1..];
      var q' := Push(q, f);
      calc {
        PushAll(q, fs);
        PushAll(q', rest);
        { PushAllKeepsMostRecent(q', rest); }
        Last(q' + rest, MaxQueued);
        { PushIsLast(q, f); }
        Last(Last(q + [f], MaxQueued) + rest, MaxQueued);
        { LastOfLast(q + [f], rest); }
        Last((q + [f]) + rest, MaxQueued);
        { assert (q + [f]) + rest == q + fs; }
        Last(q + fs, MaxQueued);
      }
    }
  }

  lemma PushIsLast(q: seq<Frame>, f: Frame)
    requires |q| <= MaxQueued
    ensures Push(q, f) == Last(q + [f], MaxQueued)
  {
  }

  lemma LastOfLast(s: seq<Frame>, t: seq<Frame>)
    ensures Last(Last(s, MaxQueued) + t, MaxQueued) == Last(s + t, MaxQueued)
  {
    var a := Last(Last(s, MaxQueued) + t, MaxQueued);
    var b := Last(s + t, MaxQueued);
    forall i | 0 <= i < |a| ensures a[i] == b[i] {
    }
  }

  /** What one run of `processFrameQueue` does to a queue `q`, when the
      `i`-th send attempt of the run succeeds exactly when `accepted(i)`:
      the frames sent, in order, and the frames left behind. */
  datatype DrainOutcome = DrainOutcome(sent: seq<Frame>, rest: seq<Frame>)

  function Drained(q: seq<Frame>, accepted: nat -> bool, attempt: nat): (o: DrainOutcome)
    ensures |o.sent| == |q| ==> o.rest == []
    ensures |o.sent| < |q| ==> |o.sent| + 1 + |o.rest| == |q|
    decreases |q|
  {
    if q == [] then DrainOutcome([], [])
    else if !accepted(attempt) then DrainOutcome([], q[1..])   // the shifted frame is lost
    else
      var o := Drained(q[1..], accepted, attempt + 1);
      DrainOutcome([q[0]] + o.sent, o.rest)
  }

  /** Draining sends a prefix of the queue in FIFO order; when it stops early
      the frame that failed is gone and the rest stay queued in order; it
      never sends more frames than it took off the queue. */
  lemma {:induction false} DrainedShape(q: seq<Frame>, accepted: nat -> bool, attempt: nat)
    ensures var o := Drained(q, accepted, attempt);
      && |o.sent| <= |q|
      && o.sent == q[..|o.sent|]
      && (|o.sent| == |q| ==> o.rest == [])
      && (|o.sent| < |q| ==> o.rest == q[|o.sent| + 1..] && !accepted(attempt + |o.sent|))
      && (forall j :: attempt <= j < attempt + |o.sent| ==> accepted(j))
    decreases |q|
  {
    if q != [] && accepted(attempt) {
      DrainedShape(q[1..], accepted, attempt + 1);
      var o := Drained(q[1..], accepted, attempt + 1);
      assert [q[0]] + o.sent == q[..|o.sent| + 1];
    }
  }

  /** When every send succeeds the whole queue goes out, in order. */
  lemma {:induction false} DrainedAllAccepted(q: seq<Frame>, accepted: nat -> bool, attempt: nat)
    requires forall j :: attempt <= j < attempt + |q| ==> accepted(j)
    ensures Drained(q, accepted, attempt) == DrainOutcome(q, [])
    decreases |q|
  {
    if q != [] {
      DrainedAllAccepted(q[1..], accepted, attempt + 1);
      assert [q[0]] + q[1..] == q;
    }
  }

  /** The queue held in `frameQueueRef` and the re-entrancy flag
      `isProcessingQueueRef`. */
  class FrameQueue {
    var frames: seq<Frame>
    var draining: bool

    ghost predicate Valid()
      reads this
    {
      |frames| <= MaxQueued
    }

    constructor ()
      ensures Valid() && frames == [] && !draining
    {
      frames := [];
      draining := false;
    }

    /** The enqueue half of `processFrame`. */
    method Enqueue(f: Frame)
      requires Valid()
      modifies this
      ensures Valid()
      ensures frames == Push(old(frames), f)
      ensures draining == old(draining)
    {
      frames := frames + [f];
      if |frames| > MaxQueued {
        frames := frames[1..];
      }
    }

    /** `processFrameQueue`: take the head, send it, stop at the first
        failure. `accepted(i)` is what `sendFrame` returns on the i-th
        attempt of this run. */
    method Drain(accepted: nat -> bool) returns (sent: seq<Frame>)
      requires Valid()
      modifies this
      ensures Valid()
      ensures old(draining) || old(frames) == [] ==>
        sent == [] && frames == old(frames) && draining == old(draining)
      ensures !old(draining) && old(frames) != [] ==>
        DrainOutcome(sent, frames) == Drained(old(frames), accepted, 0) && !draining
    {
      sent := [];
      if draining || |frames| == 0 {
        return;
      }
      draining := true;
      ghost var total := Drained(frames, accepted, 0);
      while |frames| > 0
        invariant |frames| <= MaxQueued
        invariant total == DrainOutcome(sent + Drained(frames, accepted, |sent|).sent,
                                        Drained(frames, accepted, |sent|).rest)
        decreases |frames|
      {
        var item := frames[0];
        frames := frames[1..];
        var success := accepted(|sent|);
        if !success {
          assert sent + [] == sent;
          break;
        }
        assert sent + ([item] + Drained(frames, accepted, |sent| + 1).sent)
            == (sent + [item]) + Drained(frames, accepted, |sent| + 1).sent;
        sent := sent + [item];
      }
      assert sent + [] == sent;
      draining := false;
    }

    /** `processFrame` once a frame has been captured: enqueue it, then drain.
        `captured` is `None` when a guard fails (refs missing, not mounted, no
        2D context, zero video dimensions), and then nothing happens. A tick
        that arrives while an earlier drain is suspended in its `await` only
        enqueues: the drain call returns at once on the raised flag. */
    method ProcessFrame(captured: Option<string>, now: int, accepted: nat -> bool)
      returns (sent: seq<Frame>)
      requires Valid()
      modifies this
      ensures Valid() && draining == old(draining)
      ensures captured.None? ==> sent == [] && frames == old(frames)
      ensures captured.Some? && old(draining) ==>
        sent == [] && frames == Push(old(frames), Frame(captured.value, now))
      ensures captured.Some? && !old(draining) ==>
        DrainOutcome(sent, frames)
          == Drained(Push(old(frames), Frame(captured.value, now)), accepted, 0)
    {
      sent := [];
      if captured.None? {
        return;
      }
      Enqueue(Frame(captured.value, now));
      sent := Drain(accepted);
    }

    /** Pausing capture, and the capture effect's cleanup: the queue is
        wiped and the flag lowered. */
    method Flush()
      modifies this
      ensures Valid() && frames == [] && !draining
    {
      frames := [];
      draining := false;
    }

    /** The capture effect: nothing before mount; with video active and
        both connection checks true it starts the capture timer at
        `CaptureInterval`; otherwise it wipes the queue. */
    method CaptureEffect(mounted: bool, videoActive: bool, storeConnected: bool, socketConnected: bool,
                         processAllFrames: bool, targetFps: real)
      returns (timer: Option<Delay>)
      requires Valid()
      modifies this
      ensures Valid()
      ensures !mounted ==> timer.None? && frames == old(frames) && draining == old(draining)
      ensures mounted && videoActive && storeConnected && socketConnected ==>
        timer == Some(CaptureInterval(processAllFrames, targetFps))
        && frames == old(frames) && draining == old(draining)
      ensures mounted && !(videoActive && storeConnected && socketConnected) ==>
        timer.None? && frames == [] && !draining
    {
      if !mounted {
        return None;
      }
      if videoActive && storeConnected && socketConnected {
        timer := Some(CaptureInterval(processAllFrames, targetFps));
      } else {
        timer := None;
        Flush();
      }
    }
  }

  // ---------------------------------------------------------------------------
  // Capture interval
  // ---------------------------------------------------------------------------

  /** The value of the interval expression in milliseconds; `Unbounded` is
      the `Infinity` that `Math.max` returns when the target rate is 0. It is
      the expression's value, not the timer's period: a browser converts an
      `Infinity` delay to 0, so such a timer fires as often as it can. */
  datatype Delay = Millis(ms: real) | Unbounded

  function Max(a: real, b: real): real
  {
    if a >= b then a else b
  }

  /** `Math.max(floor, budget / targetFps)` with JavaScript division. */
  function ClampedPeriod(floor: real, budget: real, targetFps: real): Delay
    requires budget > 0.0
  {
    if targetFps == 0.0 then Unbounded else Millis(Max(floor, budget / targetFps))
  }

  /** Every-frame mode: `max(100, 1000 / fps)`; skip-frame mode:
      `max(500, 2000 / fps)`. */
  function CaptureInterval(processAllFrames: bool, targetFps: real): (d: Delay)
    ensures d.Unbounded? <==> targetFps == 0.0
    ensures d.Millis? ==> d.ms >= (if processAllFrames then 100.0 else 500.0)
    ensures targetFps < 0.0 ==> d == Millis(if processAllFrames then 100.0 else 500.0)
    // At a positive rate the interval lasts at least the frame budget
    // (1000 ms, or 2000 ms in skip mode) divided over the rate, and exactly
    // that whenever it is above the floor.
    ensures targetFps > 0.0 ==>
      d.Millis? && d.ms * targetFps >= (if processAllFrames then 1000.0 else 2000.0)
    ensures targetFps > 0.0 && d.Millis? && d.ms > (if processAllFrames then 100.0 else 500.0) ==>
      d.ms * targetFps == (if processAllFrames then 1000.0 else 2000.0)
  {
    if processAllFrames then ClampedPeriod(100.0, 1000.0, targetFps)
    else ClampedPeriod(500.0, 2000.0, targetFps)
  }

  /** A higher target rate never gives a longer interval. */
  lemma IntervalAntitone(processAllFrames: bool, slow: real, fast: real)
    requires 0.0 < slow <= fast
    ensures CaptureInterval(processAllFrames, fast).ms <= CaptureInterval(processAllFrames, slow).ms
  {
    var budget := if processAllFrames then 1000.0 else 2000.0;
    DivAntitone(budget, slow, fast);
  }

  lemma DivAntitone(budget: real, slow: real, fast: real)
    requires budget > 0.0 && 0.0 < slow <= fast
    ensures budget / fast <= budget / slow
  {
    var a, b := budget / fast, budget / slow;
    assert a * fast == budget && b * slow == budget;
  }

  lemma MulMono(b: real, slow: real, fast: real)
    requires b >= 0.0 && slow <= fast
    ensures b * fast >= b * slow
  {
  }

  /** At the same positive rate, skip-frame mode never captures more often. */
  lemma SkipModeIsSlower(targetFps: real)
    requires targetFps > 0.0
    ensures CaptureInterval(false, targetFps).ms >= CaptureInterval(true, targetFps).ms
  {
    assert 2000.0 / targetFps == 2.0 * (1000.0 / targetFps);
  }

  /** From 10 frames per second on, every-frame mode runs at its 100 ms floor;
      from 4 on, skip-frame mode runs at its 500 ms floor. */
  lemma IntervalFloors(targetFps: real)
    ensures targetFps >= 10.0 ==> CaptureInterval(true, targetFps) == Millis(100.0)
    ensures targetFps >= 4.0 ==> CaptureInterval(false, targetFps) == Millis(500.0)
  {
    if targetFps >= 10.0 {
      DivAntitone(1000.0, 10.0, targetFps);
    }
    if targetFps >= 4.0 {
      DivAntitone(2000.0, 4.0, targetFps);
    }
  }

  /** At the store's default 5 frames per second, every-frame mode waits
      200 ms between captures and skip-frame mode its 500 ms floor. */
  lemma IntervalAtDefaultRate()
    ensures CaptureInterval(true, 5.0) == Millis(200.0)
    ensures CaptureInterval(false, 5.0) == Millis(500.0)
  {
  }

  // ---------------------------------------------------------------------------
  // Overlay geometry
  // ---------------------------------------------------------------------------

  /** A box as `[x1, y1, x2, y2]` in the coordinate space of the sent frame. */
  datatype Box = Box(x1: real, y1: real, x2: real, y2: real)

  /** The rectangle handed to `strokeRect`: top-left corner, width, height. */
  datatype Rect = Rect(x: real, y: real, width: real, height: real)

  function FourNumbers(a: Coord, b: Coord, c: Coord, d: Coord): (r: Option<Box>)
    ensures r.Some? <==> a.Num? && b.Num? && c.Num? && d.Num?
  {
    if a.Num? && b.Num? && c.Num? && d.Num? then Some(Box(a.v, b.v, c.v, d.v)) else None
  }

  /** An array gives its first four entries (a missing entry is `undefined`,
      hence NaN); an object gives `x1`, `y1`, `x2`, `y2`; anything else, or a
      NaN among the four, is skipped. */
  function Normalise(b: RawBox): (r: Option<Box>)
    ensures b.OtherShape? ==> r.None?
    ensures b.ArrayBox? ==>
      (r.Some? <==> |b.coords| >= 4 && forall i :: 0 <= i < 4 ==> b.coords[i].Num?)
    ensures b.ArrayBox? && r.Some? ==>
      |b.coords| >= 4 && b.coords[0].Num? && b.coords[1].Num? && b.coords[2].Num? && b.coords[3].Num?
      && r.value == Box(b.coords[0].v, b.coords[1].v, b.coords[2].v, b.coords[3].v)
    ensures b.ObjectBox? ==>
      (r.Some? <==> b.x1.Num? && b.y1.Num? && b.x2.Num? && b.y2.Num?)
    ensures b.ObjectBox? && r.Some? ==> r.value == Box(b.x1.v, b.y1.v, b.x2.v, b.y2.v)
  {
    match b
    case ArrayBox(cs) =>
      if |cs| < 4 then None else FourNumbers(cs[0], cs[1], cs[2], cs[3])
    case ObjectBox(x1, y1, x2, y2) => FourNumbers(x1, y1, x2, y2)
    case OtherShape => None
  }

  /** Both the array and the object spelling of the same box draw the same. */
  lemma NormaliseShapesAgree(x1: real, y1: real, x2: real, y2: real, extra: seq<Coord>)
    ensures Normalise(ArrayBox([Num(x1), Num(y1), Num(x2), Num(y2)] + extra))
         == Normalise(ObjectBox(Num(x1), Num(y1), Num(x2), Num(y2)))
         == Some(Box(x1, y1, x2, y2))
  {
    var cs := [Num(x1), Num(y1), Num(x2), Num(y2)] + extra;
    assert cs[0] == Num(x1) && cs[1] == Num(y1) && cs[2] == Num(x2) && cs[3] == Num(y2);
  }

  /** Each corner is scaled per axis; width and height are the scaled
      differences. */
  function ScaleBox(b: Box, scaleX: real, scaleY: real): (r: Rect)
    ensures r.x == b.x1 * scaleX && r.y == b.y1 * scaleY
    ensures r.x + r.width == b.x2 * scaleX && r.y + r.height == b.y2 * scaleY
  {
    var sx1, sy1, sx2, sy2 := b.x1 * scaleX, b.y1 * scaleY, b.x2 * scaleX, b.y2 * scaleY;
    Rect(sx1, sy1, sx2 - sx1, sy2 - sy1)
  }

  /** The width is the box's own width times the horizontal scale (and
      likewise for height), so a well-formed box draws with non-negative size
      under non-negative scales. */
  lemma ScaleBoxSize(b: Box, scaleX: real, scaleY: real)
    ensures ScaleBox(b, scaleX, scaleY).width == (b.x2 - b.x1) * scaleX
    ensures ScaleBox(b, scaleX, scaleY).height == (b.y2 - b.y1) * scaleY
    ensures b.x1 <= b.x2 && scaleX >= 0.0 ==> ScaleBox(b, scaleX, scaleY).width >= 0.0
    ensures b.y1 <= b.y2 && scaleY >= 0.0 ==> ScaleBox(b, scaleX, scaleY).height >= 0.0
  {
    if b.x1 <= b.x2 && scaleX >= 0.0 { MulMono(scaleX, b.x1, b.x2); }
    if b.y1 <= b.y2 && scaleY >= 0.0 { MulMono(scaleY, b.y1, b.y2); }
    assert (b.x2 - b.x1) * scaleX == b.x2 * scaleX - b.x1 * scaleX;
    assert (b.y2 - b.y1) * scaleY == b.y2 * scaleY - b.y1 * scaleY;
  }

  /** The rectangles `drawDetections` strokes, in detection order: one per
      detection whose box normalises, none for the others. */
  function BoxesToDraw(ds: seq<Detection>, scaleX: real, scaleY: real): (r: seq<Rect>)
    ensures |r| <= |ds|
    ensures (forall i :: 0 <= i < |ds| ==> Normalise(ds[i].bbox).Some?) ==> |r| == |ds|
    decreases |ds|
  {
    if ds == [] then []
    else
      var rest := BoxesToDraw(ds[1..], scaleX, scaleY);
      match Normalise(ds[0].bbox)
      case Some(b) => [ScaleBox(b, scaleX, scaleY)] + rest
      case None => rest
  }

  /** When every box is valid, the i-th rectangle is the i-th detection's box. */
  lemma {:induction false} BoxesToDrawAt(ds: seq<Detection>, scaleX: real, scaleY: real, i: nat)
    requires forall j :: 0 <= j < |ds| ==> Normalise(ds[j].bbox).Some?
    requires i < |ds|
    ensures BoxesToDraw(ds, scaleX, scaleY)[i] == ScaleBox(Normalise(ds[i].bbox).value, scaleX, scaleY)
    decreases |ds|
  {
    if i > 0 {
      BoxesToDrawAt(ds[1..], scaleX, scaleY, i - 1);
    }
  }

  /** Detections are drawn independently: the rectangles of `ds + es` are
      those of `ds` followed by those of `es`. */
  lemma {:induction false} BoxesToDrawConcat(ds: seq<Detection>, es: seq<Detection>, scaleX: real, scaleY: real)
    ensures BoxesToDraw(ds + es, scaleX, scaleY) == BoxesToDraw(ds, scaleX, scaleY) + BoxesToDraw(es, scaleX, scaleY)
    decreases |ds|
  {
    if ds == [] {
      assert ds + es == es;
    } else {
      assert (ds + es)[0] == ds[0];
      assert (ds + es)[1..] == ds[1..] + es;
      BoxesToDrawConcat(ds[1..], es, scaleX, scaleY);
    }
  }

  /** One detection draws its scaled box when the box normalises, and
      nothing otherwise; with `BoxesToDrawConcat` this fixes the rectangles
      of any list, invalid boxes included. */
  lemma BoxesToDrawOne(d: Detection, scaleX: real, scaleY: real)
    ensures Normalise(d.bbox).None? ==> BoxesToDraw([d], scaleX, scaleY) == []
    ensures Normalise(d.bbox).Some? ==>
      BoxesToDraw([d], scaleX, scaleY) == [ScaleBox(Normalise(d.bbox).value, scaleX, scaleY)]
  {
    assert [d][1..] == [];
  }

  /** A bad box is skipped and the others are still drawn, in order. */
  lemma SkipsOnlyInvalid(ds: seq<Detection>, bad: Detection, es: seq<Detection>, scaleX: real, scaleY: real)
    requires Normalise(bad.bbox).None?
    ensures BoxesToDraw(ds + [bad] + es, scaleX, scaleY)
         == BoxesToDraw(ds, scaleX, scaleY) + BoxesToDraw(es, scaleX, scaleY)
  {
    BoxesToDrawConcat(ds + [bad], es, scaleX, scaleY);
    BoxesToDrawConcat(ds, [bad], scaleX, scaleY);
    BoxesToDrawOne(bad, scaleX, scaleY);
    assert BoxesToDraw(ds, scaleX, scaleY) + [] == BoxesToDraw(ds, scaleX, scaleY);
  }

  /** The caption's base: `class_name`, else `type`, else "Detection"
      (JavaScript's `||` skips empty strings). */
  function BaseLabel(d: Detection): (caption: string)
    ensures caption != []
    ensures d.className.Some? && d.className.value != [] ==> caption == d.className.value
    ensures (d.className.None? || d.className.value == []) && d.kind != [] ==> caption == d.kind
    ensures (d.className.None? || d.className.value == []) && d.kind == [] ==> caption == "Detection"
  {
    if d.className.Some? && d.className.value != [] then d.className.value
    else if d.kind != [] then d.kind
    else "Detection"
  }
}
