/** The animation driver: the frame stride, the schedule of shift indices
    `range(0, total_steps, skip)`, the idle midpoint frame, and one run of the
    driver deciding between playback and the static view. */
module Animation {
  import opened Waveform
  import opened Convolution
  import opened SlidingFrame

  /** The parameters the sidebar supplies. */
  datatype Config = Config(duration: nat, animSpeed: nat, wave1: WaveSpec, wave2: WaveSpec)

  /** What one run of the driver hands to the chart: the frames played in
      order followed by a status text, or the single static frame. */
  datatype Output = Played(frames: seq<Frame>, status: string) | Still(frame: Frame)

  /** `max(1, int(100 / anim_speed))`: the largest stride whose product with the
      speed stays within 100, and never below 1. */
  function Skip(animSpeed: nat): (s: nat)
    requires animSpeed >= 1
    ensures s >= 1
    ensures s * animSpeed <= 100 || s == 1
    ensures 100 < (s + 1) * animSpeed
  {
    var q := 100 / animSpeed;
    if q < 1 then 1 else q
  }

  /** Over the slider's range 1..100 the stride is plain integer division. */
  lemma SkipOnSliderRange(animSpeed: nat)
    requires 1 <= animSpeed <= 100
    ensures Skip(animSpeed) == 100 / animSpeed
  {
  }

  /** The number of indices `range(0, total, skip)` yields: ceil(total / skip),
      the fewest strides that reach total. */
  function FrameCount(total: nat, skip: nat): (c: nat)
    requires skip >= 1
    ensures total <= c * skip
    ensures c == 0 || (c - 1) * skip < total
  {
    var q := (total + skip - 1) / skip;
    assert total + skip - 1 == q * skip + (total + skip - 1) % skip;
    assert (q - 1) * skip == q * skip - skip;
    q
  }

  lemma MulMonotone(a: int, b: int, c: nat)
    requires a <= b
    ensures a * c <= b * c
  {
  }

  /** m strides cover total and m - 1 do not exactly when m is ceil(total / skip). */
  lemma CeilDivision(total: nat, skip: nat, m: nat)
    requires skip >= 1
    requires total <= m * skip
    requires m == 0 || (m - 1) * skip < total
    ensures m == FrameCount(total, skip)
  {
    var q := (total + skip - 1) / skip;
    var r := (total + skip - 1) % skip;
    assert total + skip - 1 == q * skip + r;
    if m < q {
      MulMonotone(m, q - 1, skip);
    } else if m > q {
      MulMonotone(q, m - 1, skip);
      assert (m - 1) * skip == m * skip - skip;
    }
  }

  /** The shift indices of a playback, in the order they are visited. */
  method Schedule(total: nat, skip: nat) returns (indices: seq<nat>)
    requires skip >= 1
    ensures |indices| == FrameCount(total, skip)
    ensures forall j :: 0 <= j < |indices| ==> indices[j] == j * skip && indices[j] < total
  {
    indices := [];
    var i := 0;
    while i < total
      invariant i == |indices| * skip
      invariant |indices| == 0 || (|indices| - 1) * skip < total
      invariant forall j :: 0 <= j < |indices| ==> indices[j] == j * skip && indices[j] < total
      decreases total - i
    {
      indices := indices + [i];
      i := i + skip;
    }
    CeilDivision(total, skip, |indices|);
  }

  /** Stride j * skip visits every multiple of skip below total, each once, in increasing order. */
  lemma ScheduleVisitsEveryMultiple(total: nat, skip: nat, m: nat)
    requires skip >= 1
    requires m < total && m % skip == 0
    ensures m / skip < FrameCount(total, skip) && (m / skip) * skip == m
  {
    var j := m / skip;
    assert m == j * skip + m % skip;
    var q := (total + skip - 1) / skip;
    assert total + skip - 1 == q * skip + (total + skip - 1) % skip;
    if q <= j {
      MulMonotone(q, j, skip);
    }
  }

  /** Consecutive indices of a schedule are strictly increasing. */
  lemma ScheduleIncreases(indices: seq<nat>, skip: nat, a: nat, b: nat)
    requires skip >= 1
    requires forall j :: 0 <= j < |indices| ==> indices[j] == j * skip
    requires a < b < |indices|
    ensures indices[a] < indices[b]
  {
    MulMonotone(a + 1, b, skip);
  }

  /** The idle frame `int(total_steps / 2)`: the middle index, inside the
      result whenever it is non-empty. */
  function Midpoint(total: nat): (m: nat)
    ensures 2 * m <= total < 2 * m + 2
    ensures total >= 1 ==> m < total
  {
    total / 2
  }

  /** When the midpoint is a multiple of the stride, playback shows the idle
      frame too: frame number Midpoint / skip of the schedule is the midpoint. */
  lemma IdleFrameIsPlayed(total: nat, skip: nat)
    requires skip >= 1 && total >= 1
    requires Midpoint(total) % skip == 0
    ensures Midpoint(total) / skip < FrameCount(total, skip)
    ensures (Midpoint(total) / skip) * skip == Midpoint(total)
  {
    ScheduleVisitsEveryMultiple(total, skip, Midpoint(total));
  }

  /** At the default speed of 50 the stride is 2, while the midpoint of a
      2N - 1 point result is N - 1 = 100 * duration - 1, which is odd: no frame
      of the playback is the idle frame. */
  lemma IdleFrameSkippedAtDefaultSpeed(lib: Library, duration: nat, w1: WaveSpec, w2: WaveSpec)
    requires duration > 0
    ensures var total := |MakeScene(lib, duration, w1, w2).conv|;
            Skip(50) == 2 && Midpoint(total) == SampleCount(duration) - 1 &&
            Midpoint(total) % Skip(50) == 1 &&
            forall j :: 0 <= j < FrameCount(total, Skip(50)) ==> j * Skip(50) != Midpoint(total)
  {
    var n := SampleCount(duration);
    var total := |MakeScene(lib, duration, w1, w2).conv|;
    assert total == 2 * n - 1;
    assert Skip(50) == 2;
    assert Midpoint(total) == n - 1 == 2 * (50 * duration - 1) + 1;
    forall j | 0 <= j
      ensures j * 2 != 2 * (50 * duration - 1) + 1
    {
    }
  }

  /** The signals and the convolution, computed once per run with the direct method. */
  method ComputeScene(lib: Library, cfg: Config) returns (scene: Scene)
    ensures scene == MakeScene(lib, cfg.duration, cfg.wave1, cfg.wave2)
  {
    var tau := TimeAxis(cfg.duration);
    var y1 := Generate(lib, cfg.wave1, tau);
    var y2 := Generate(lib, cfg.wave2, tau);
    var conv := ConvolveDirect(y1, y2, Dt);
    scene := Scene(cfg.duration, tau, y1, y2, conv, ConvTimeAxis(|conv|, Dt));
  }

  /** The playback loop: renders the frame of every scheduled index, in order. */
  method Play(lib: Library, w2: WaveSpec, scene: Scene, skip: nat) returns (frames: seq<Frame>)
    requires Aligned(scene) && skip >= 1
    ensures |frames| == FrameCount(|scene.conv|, skip)
    ensures forall j :: 0 <= j < |frames| ==>
              j * skip < |scene.conv| && frames[j] == FrameOf(lib, w2, scene, j * skip)
  {
    var indices := Schedule(|scene.conv|, skip);
    frames := [];
    for j := 0 to |indices|
      invariant |frames| == j
      invariant forall m :: 0 <= m < j ==> frames[m] == FrameOf(lib, w2, scene, indices[m])
    {
      var f := RenderFrame(lib, w2, scene, indices[j]);
      frames := frames + [f];
    }
    forall j | 0 <= j < |frames|
      ensures j * skip < |scene.conv| && frames[j] == FrameOf(lib, w2, scene, j * skip)
    {
      assert indices[j] == j * skip;
    }
  }

  /** One run of the driver: with Start pressed and Stop not pressed it plays
      the frames at 0, skip, 2 * skip, ... below the result's length and then
      reports "Done!"; otherwise it shows the frame at the midpoint. */
  method Drive(lib: Library, cfg: Config, start: bool, stop: bool) returns (out: Output)
    requires cfg.animSpeed >= 1
    ensures var scene := MakeScene(lib, cfg.duration, cfg.wave1, cfg.wave2);
            var skip := Skip(cfg.animSpeed);
            if start && !stop then
              out.Played? && out.status == "Done!" &&
              |out.frames| == FrameCount(|scene.conv|, skip) &&
              forall j :: 0 <= j < |out.frames| ==>
                j * skip < |scene.conv| && out.frames[j] == FrameOf(lib, cfg.wave2, scene, j * skip)
            else
              out == Still(FrameOf(lib, cfg.wave2, scene, Midpoint(|scene.conv|)))
  {
    var scene := ComputeScene(lib, cfg);
    if start && !stop {
      var frames := Play(lib, cfg.wave2, scene, Skip(cfg.animSpeed));
      out := Played(frames, "Done!");
    } else {
      var f := RenderFrame(lib, cfg.wave2, scene, Midpoint(|scene.conv|));
      out := Still(f);
    }
  }

  /** The stride example: at 50 frames per second the stride is 2, and a
      199-point result plays 100 frames, the last at index 198. */
  lemma StrideExample()
    ensures Skip(50) == 2 && FrameCount(199, 2) == 100 && (FrameCount(199, 2) - 1) * 2 == 198
  {
  }

  /** The first value of the result pairs the first samples of the two signals. */
  lemma FirstResultValue(lib: Library, duration: nat, w1: WaveSpec, w2: WaveSpec)
    requires duration > 0
    ensures var scene := MakeScene(lib, duration, w1, w2);
            |scene.y1| > 0 && |scene.y2| > 0 && scene.conv[0] == scene.y1[0] * scene.y2[0] * Dt
  {
    var scene := MakeScene(lib, duration, w1, w2);
    var tau := TimeAxis(duration);
    var y1 := Generate(lib, w1, tau);
    var y2 := Generate(lib, w2, tau);
    assert scene.conv == Convolve(y1, y2, Dt);
    ConvolveFirst(y1, y2, Dt);
  }

  /** One second of samples: 100 points per signal and a 199-point result. */
  lemma OneSecondExample(lib: Library, w1: WaveSpec, w2: WaveSpec)
    ensures |MakeScene(lib, 1, w1, w2).tau| == 100 && |MakeScene(lib, 1, w1, w2).conv| == 199
  {
  }
}
