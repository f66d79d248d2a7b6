/** The data half of `render_frame`: the flipped-and-shifted second signal
    restricted to its window, the pointwise product with the first signal,
    and the convolution result revealed up to the current shift index. */
module SlidingFrame {
  import opened Waveform
  import opened Convolution

  datatype Option<T> = None | Some(value: T)

  /** One row of the result table: a time and a convolution value. */
  datatype Point = Point(t: real, value: real)

  /** Everything computed once per parameter set and shared by every frame. */
  datatype Scene = Scene(duration: nat, tau: seq<real>, y1: seq<real>, y2: seq<real>, conv: seq<real>, convTime: seq<real>)

  /** The aligned sequences one frame shows. */
  datatype Frame = Frame(tau: seq<real>, signal1: seq<real>, sliding: seq<real>, product: seq<real>,
                         visible: seq<Point>, tip: Option<Point>)

  /** The signals, their convolution and its time axis, as computed before any frame. */
  function MakeScene(lib: Library, duration: nat, w1: WaveSpec, w2: WaveSpec): (s: Scene)
    ensures s.duration == duration
    ensures |s.tau| == |s.y1| == |s.y2| == SampleCount(duration)
    ensures |s.conv| == |s.convTime| && TimedResult(s)
    ensures duration > 0 ==> |s.conv| == 2 * SampleCount(duration) - 1
  {
    var tau := TimeAxis(duration);
    var y1 := Generate(lib, w1, tau);
    var y2 := Generate(lib, w2, tau);
    var conv := Convolve(y1, y2, Dt);
    Scene(duration, tau, y1, y2, conv, ConvTimeAxis(|conv|, Dt))
  }

  /** The shapes a frame relies on: the first signal lies on the time axis and
      each convolution value has its time. */
  predicate Aligned(scene: Scene)
  {
    |scene.y1| == |scene.tau| && |scene.convTime| == |scene.conv|
  }

  /** The result's time axis is `arange(len) * dt`. */
  predicate TimedResult(scene: Scene)
  {
    scene.convTime == ConvTimeAxis(|scene.conv|, Dt)
  }

  /** The shift time of shift index k. */
  function ShiftTime(k: nat): real
  {
    (k as real) * Dt
  }

  /** The mask: the local time of the second signal lies in [0, duration). */
  predicate InWindow(duration: nat, tLocal: real)
  {
    0.0 <= tLocal < duration as real
  }

  /** The second signal flipped and shifted to time t_current = k * dt: at tau[i]
      it is g(t_current - tau[i] - xOffset) + yOffset inside the mask and exactly
      zero, without the y-offset, outside it. */
  function SlidingSignal(lib: Library, w2: WaveSpec, duration: nat, tau: seq<real>, k: nat): (s: seq<real>)
    ensures |s| == |tau|
  {
    seq(|tau|, i requires 0 <= i < |tau| =>
      var tLocal := ShiftTime(k) - tau[i];
      if InWindow(duration, tLocal) then Sample(lib, w2, tLocal) else 0.0)
  }

  /** Builds the sliding signal as the source does: a zero buffer, then an
      in-place overwrite of the positions the mask selects. */
  method BuildSliding(lib: Library, w2: WaveSpec, duration: nat, tau: seq<real>, k: nat) returns (ys: seq<real>)
    ensures ys == SlidingSignal(lib, w2, duration, tau, k)
  {
    var tCurrent := ShiftTime(k);
    var buffer := new real[|tau|](_ => 0.0);
    var i := 0;
    while i < |tau|
      invariant 0 <= i <= |tau|
      invariant forall j :: 0 <= j < i ==> buffer[j] == SlidingSignal(lib, w2, duration, tau, k)[j]
      invariant forall j :: i <= j < |tau| ==> buffer[j] == 0.0
    {
      var tLocal := tCurrent - tau[i];
      if 0.0 <= tLocal && tLocal < duration as real {
        buffer[i] := Sample(lib, w2, tLocal);
      }
      i := i + 1;
    }
    ys := buffer[..];
    assert forall j :: 0 <= j < |tau| ==> ys[j] == SlidingSignal(lib, w2, duration, tau, k)[j];
  }

  /** The pointwise product of two aligned signals. */
  function Product(y1: seq<real>, ys: seq<real>): (p: seq<real>)
    requires |y1| == |ys|
    ensures |p| == |y1|
    ensures forall i :: 0 <= i < |p| ==> p[i] == y1[i] * ys[i]
  {
    seq(|y1|, i requires 0 <= i < |y1| => y1[i] * ys[i])
  }

  /** The result table: each convolution value beside its time. */
  function Rows(convTime: seq<real>, conv: seq<real>): (r: seq<Point>)
    requires |convTime| == |conv|
    ensures |r| == |conv|
    ensures forall n :: 0 <= n < |r| ==> r[n] == Point(convTime[n], conv[n])
  {
    seq(|conv|, n requires 0 <= n < |conv| => Point(convTime[n], conv[n]))
  }

  /** Rows 0..k inclusive (`iloc[:k+1]`, which stops at the end of the table). */
  function Visible<T>(rows: seq<T>, k: nat): (v: seq<T>)
    ensures v <= rows
    ensures |v| == if k < |rows| then k + 1 else |rows|
  {
    if k < |rows| then rows[..k + 1] else rows
  }

  /** The last row (`iloc[-1:]`), absent for an empty table. */
  function Tip<T>(v: seq<T>): (t: Option<T>)
    ensures t.Some? <==> |v| > 0
    ensures t.Some? ==> t.value == v[|v| - 1]
  {
    if |v| == 0 then None else Some(v[|v| - 1])
  }

  /** The frame at shift index k: four aligned columns over tau, and a prefix
      of the result table whose tip is its last row. */
  function FrameOf(lib: Library, w2: WaveSpec, scene: Scene, k: nat): (f: Frame)
    requires Aligned(scene)
    ensures f.tau == scene.tau && f.signal1 == scene.y1
    ensures |f.sliding| == |f.product| == |scene.tau|
    ensures f.visible <= Rows(scene.convTime, scene.conv)
    ensures f.tip.Some? <==> |f.visible| > 0
  {
    var sliding := SlidingSignal(lib, w2, scene.duration, scene.tau, k);
    var visible := Visible(Rows(scene.convTime, scene.conv), k);
    Frame(scene.tau, scene.y1, sliding, Product(scene.y1, sliding), visible, Tip(visible))
  }

  /** `render_frame` without the chart: builds the frame at shift index k. */
  method RenderFrame(lib: Library, w2: WaveSpec, scene: Scene, k: nat) returns (f: Frame)
    requires Aligned(scene)
    ensures f == FrameOf(lib, w2, scene, k)
  {
    var sliding := BuildSliding(lib, w2, scene.duration, scene.tau, k);
    var product := Product(scene.y1, sliding);
    var visible := Visible(Rows(scene.convTime, scene.conv), k);
    f := Frame(scene.tau, scene.y1, sliding, product, visible, Tip(visible));
  }

  /** On the sampled time axis the mask is an index range: tau[i] is in the
      window of shift k exactly when 0 <= k - i < N. */
  lemma WindowIsIndexRange(duration: nat, k: nat, i: nat)
    requires i < SampleCount(duration)
    ensures |TimeAxis(duration)| == SampleCount(duration)
    ensures ShiftTime(k) - TimeAxis(duration)[i] == ((k - i) as real) * Dt
    ensures InWindow(duration, ShiftTime(k) - TimeAxis(duration)[i]) <==> 0 <= k - i < SampleCount(duration)
  {
    TimeAxisGrid(duration);
  }

  /** Flip and slide: at shift k the sliding signal at tau[i] is the second
      signal's own sample k - i when that lies on the axis, and zero otherwise. */
  lemma SlidingIsFlippedSignal(lib: Library, w2: WaveSpec, duration: nat, k: nat)
    ensures var tau := TimeAxis(duration);
            var s := SlidingSignal(lib, w2, duration, tau, k);
            var y2 := Generate(lib, w2, tau);
            |s| == |y2| == SampleCount(duration) &&
            forall i :: 0 <= i < |s| ==> s[i] == if 0 <= k - i < |s| then y2[k - i] else 0.0
  {
    var tau := TimeAxis(duration);
    TimeAxisGrid(duration);
    forall i | 0 <= i < |tau|
      ensures SlidingSignal(lib, w2, duration, tau, k)[i]
              == if 0 <= k - i < |tau| then Generate(lib, w2, tau)[k - i] else 0.0
    {
      WindowIsIndexRange(duration, k, i);
      if 0 <= k - i < |tau| {
        assert tau[k - i] == ((k - i) as real) * Dt;
      }
    }
  }

  /** At shift index 0 only tau[0] = 0 lies in the window: the sliding signal is
      g(-xOffset) + yOffset there and zero everywhere else, and so is the product. */
  lemma ShiftZeroTouchesOnlyFirstSample(lib: Library, duration: nat, w1: WaveSpec, w2: WaveSpec)
    requires duration > 0
    ensures var f := FrameOf(lib, w2, MakeScene(lib, duration, w1, w2), 0);
            f.sliding[0] == Sample(lib, w2, 0.0) &&
            forall i :: 0 < i < |f.sliding| ==> f.sliding[i] == 0.0 && f.product[i] == 0.0
  {
    SlidingIsFlippedSignal(lib, w2, duration, 0);
    TimeAxisGrid(duration);
  }

  /** Multiplying by a signal that vanishes outside the window vanishes there too. */
  lemma ProductVanishesOutsideWindow(y1: seq<real>, y2: seq<real>, sliding: seq<real>, k: nat)
    requires |y1| == |y2| == |sliding|
    requires forall i :: 0 <= i < |sliding| ==> sliding[i] == if 0 <= k - i < |y2| then y2[k - i] else 0.0
    ensures forall i :: 0 <= i < |sliding| && !(0 <= k - i < |y2|) ==>
              sliding[i] == 0.0 && Product(y1, sliding)[i] == 0.0
  {
  }

  /** Every sequence of a frame lies on the time axis, and the sliding signal
      and the product vanish wherever the mask is false. */
  lemma FrameIsAligned(lib: Library, duration: nat, w1: WaveSpec, w2: WaveSpec, k: nat)
    ensures var scene := MakeScene(lib, duration, w1, w2);
            var f := FrameOf(lib, w2, scene, k);
            |f.tau| == |f.signal1| == |f.sliding| == |f.product| == SampleCount(duration) &&
            f.signal1 == scene.y1 &&
            forall i :: 0 <= i < |f.product| && !(0 <= k - i < SampleCount(duration)) ==>
              f.sliding[i] == 0.0 && f.product[i] == 0.0
  {
    var scene := MakeScene(lib, duration, w1, w2);
    var sliding := SlidingSignal(lib, w2, duration, scene.tau, k);
    SlidingIsFlippedSignal(lib, w2, duration, k);
    ProductVanishesOutsideWindow(scene.y1, scene.y2, sliding, k);
  }

  /** The sum of a sequence. */
  function SeqSum(s: seq<real>): real
  {
    if |s| == 0 then 0.0 else SeqSum(s[..|s| - 1]) + s[|s| - 1]
  }

  lemma {:induction false} SeqSumOfTerms(s: seq<real>, y1: seq<real>, y2: seq<real>, n: int, m: nat)
    requires m <= |s|
    requires forall i :: 0 <= i < m ==> s[i] == Term(y1, y2, n, i)
    ensures SeqSum(s[..m]) == PartialSum(y1, y2, n, 0, m)
  {
    if m > 0 {
      assert s[..m][..m - 1] == s[..m - 1];
      SeqSumOfTerms(s, y1, y2, n, m - 1);
    }
  }

  /** Summing the product of y1 with the flipped y2 gives entry k of the full convolution. */
  lemma ProductSumIsFullAt(y1: seq<real>, y2: seq<real>, sliding: seq<real>, k: nat)
    requires |y1| == |y2| == |sliding|
    requires forall i :: 0 <= i < |sliding| ==> sliding[i] == if 0 <= k - i < |y2| then y2[k - i] else 0.0
    ensures SeqSum(Product(y1, sliding)) == FullAt(y1, y2, k)
  {
    var product := Product(y1, sliding);
    forall i | 0 <= i < |product|
      ensures product[i] == Term(y1, y2, k, i)
    {
    }
    SeqSumOfTerms(product, y1, y2, k, |product|);
    assert product[..|product|] == product;
  }

  /** The animation's meaning: at every shift index the area under the product
      curve (its sum times dt) is the convolution value the result curve shows there. */
  lemma ProductAreaIsConvolution(lib: Library, duration: nat, w1: WaveSpec, w2: WaveSpec, k: nat)
    requires k < |MakeScene(lib, duration, w1, w2).conv|
    ensures SeqSum(FrameOf(lib, w2, MakeScene(lib, duration, w1, w2), k).product) * Dt
            == MakeScene(lib, duration, w1, w2).conv[k]
  {
    var scene := MakeScene(lib, duration, w1, w2);
    var sliding := SlidingSignal(lib, w2, duration, scene.tau, k);
    SlidingIsFlippedSignal(lib, w2, duration, k);
    ProductSumIsFullAt(scene.y1, scene.y2, sliding, k);
  }

  /** Revealing rows 0..k of a table shows k + 1 rows ending at row k, a
      strict prefix of rows 0..k + 1. */
  lemma VisibleRowsGrow(convTime: seq<real>, conv: seq<real>, k: nat)
    requires |convTime| == |conv| && k < |conv|
    ensures var rows := Rows(convTime, conv);
            |Visible(rows, k)| == k + 1 &&
            Tip(Visible(rows, k)) == Some(Point(convTime[k], conv[k])) &&
            (k + 1 < |conv| ==> Visible(rows, k) < Visible(rows, k + 1))
  {
    var rows := Rows(convTime, conv);
    if k + 1 < |conv| {
      assert Visible(rows, k) == Visible(rows, k + 1)[..k + 1];
    }
  }

  /** The result revealed at shift k is the first k + 1 rows, a strict prefix of
      what shift k + 1 reveals, and ends at the point (k * dt, convolved_full[k]). */
  lemma VisibleGrowsByOne(lib: Library, w2: WaveSpec, scene: Scene, k: nat)
    requires Aligned(scene) && TimedResult(scene)
    requires k < |scene.conv|
    ensures var f := FrameOf(lib, w2, scene, k);
            |f.visible| == k + 1 &&
            f.tip == Some(Point((k as real) * Dt, scene.conv[k])) &&
            (k + 1 < |scene.conv| ==> f.visible < FrameOf(lib, w2, scene, k + 1).visible)
  {
    VisibleRowsGrow(scene.convTime, scene.conv, k);
  }
}
