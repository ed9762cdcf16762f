/**
 * What one call of `render` asks of the GPU, as a function of the state it
 * starts from: the sequence of resolved draw calls and swaps, and the
 * assignment of buffers it leaves behind. The lemmas state what the driver
 * promises about that sequence: swap counts and parity, a splat exactly when
 * the pointer moved, no pass sampling the buffer it writes, a swap right
 * after every pass into a double buffer and nowhere else, and which velocity
 * buffer each pass uses.
 */
module Frame {
  import opened WebGl
  import opened FieldStorage
  import opened Input

  /** The fixed number of Jacobi sweeps per frame. */
  const PressureIterations: nat := 10
  /** The advection timestep `dt`. */
  const TimeStep: real := 1.0 / 60.0
  /** The splat radius `u_point_size`. */
  const SplatRadius: real := 0.01

  /** The driver state a frame starts from. */
  datatype Snapshot = Snapshot(
    pointer: PointerState,
    canvasWidth: int,
    canvasHeight: int,
    outputColor: Pair,
    velocity: Pair,
    divergence: Fbo,
    pressure: Pair,
    colorTexel: Uniform,
    velocityTexel: Uniform)

  predicate CanvasOk(s: Snapshot)
  {
    s.canvasWidth > 0 && s.canvasHeight > 0
  }

  /** The seven physical buffers. */
  function Buffers(s: Snapshot): seq<Fbo>
  {
    [s.outputColor.read, s.outputColor.write, s.velocity.read, s.velocity.write,
     s.divergence, s.pressure.read, s.pressure.write]
  }

  predicate Disjoint(s: Snapshot)
  {
    AllDistinct(Buffers(s))
  }

  /** The double-buffered field a buffer belongs to, if any. */
  function FieldOf(s: Snapshot, b: Fbo): Option<Field>
  {
    if b == s.outputColor.read || b == s.outputColor.write then Some(OutputColor)
    else if b == s.velocity.read || b == s.velocity.write then Some(Velocity)
    else if b == s.pressure.read || b == s.pressure.write then Some(Pressure)
    else None
  }

  /** The splat uniforms: aspect ratio, centre in normalized coordinates (y flipped), value, radius. */
  function SplatSettings(p: PointerState, width: int, height: int, value: Uniform): map<Name, Uniform>
    requires width > 0 && height > 0
  {
    map[Ratio := F1(width as real / height as real),
        Point := F2(p.x / width as real, 1.0 - p.y / height as real),
        PointValue := value,
        PointSize := F1(SplatRadius)]
  }

  /** One splat: from the read side of `b` into its write side. */
  function SplatStep(b: Pair, settings: map<Name, Uniform>): Step
  {
    Draw(SplatProgram, map[InputTexture := b.read], Offscreen(b.write), settings)
  }

  /** The impulse: into velocity (displacement, y flipped), then into the dye (full red). */
  function SplatSteps(s: Snapshot): seq<Step>
    requires CanvasOk(s)
  {
    if s.pointer.moved then
      [SplatStep(s.velocity, SplatSettings(s.pointer, s.canvasWidth, s.canvasHeight,
                                           F3(s.pointer.dx, -s.pointer.dy, 1.0))),
       Swap(Velocity),
       SplatStep(s.outputColor, SplatSettings(s.pointer, s.canvasWidth, s.canvasHeight, F3(1.0, 0.0, 0.0))),
       Swap(OutputColor)]
    else
      []
  }

  /**
   * A motion event at (x, y) makes the next frame open with the two splats
   * at (x, y): velocity gets the scaled displacement, y flipped, and the dye
   * full red at the same centre and radius.
   */
  lemma MotionSplat(s: Snapshot, p: PointerState, x: real, y: real)
    requires CanvasOk(s) && s.pointer == Moved(p, x, y)
    ensures var t := Steps(s);
      && t[0].Draw? && t[0].program == SplatProgram && t[0].target == Offscreen(s.velocity.write)
      && PointValue in t[0].settings && Point in t[0].settings && PointSize in t[0].settings
      && t[0].settings[PointValue] == F3(Gain * (x - p.x), -(Gain * (y - p.y)), 1.0)
      && t[0].settings[Point] == F2(x / s.canvasWidth as real, 1.0 - y / s.canvasHeight as real)
      && t[2].Draw? && t[2].program == SplatProgram && t[2].target == Offscreen(s.outputColor.write)
      && PointValue in t[2].settings && Point in t[2].settings && PointSize in t[2].settings
      && t[2].settings[PointValue] == F3(1.0, 0.0, 0.0)
      && t[2].settings[Point] == t[0].settings[Point] && t[2].settings[PointSize] == t[0].settings[PointSize]
  {
  }

  function DivergenceStep(v: Pair, divergence: Fbo, texel: Uniform): Step
  {
    Draw(DivergenceProgram, map[VelocityTexture := v.read], Offscreen(divergence), map[Texel := texel])
  }

  /** One Jacobi sweep: from the divergence and the read side of pressure into its write side. */
  function Sweep(divergence: Fbo, p: Pair, texel: Uniform): Step
  {
    Draw(PressureProgram, map[DivergenceTexture := divergence, PressureTexture := p.read],
         Offscreen(p.write), map[Texel := texel])
  }

  /** `n` sweeps, each followed by a swap of pressure. */
  function Sweeps(n: nat, divergence: Fbo, p: Pair, texel: Uniform): (r: seq<Step>)
    ensures |r| == 2 * n
  {
    if n == 0 then []
    else Sweeps(n - 1, divergence, p, texel) + [Sweep(divergence, SwapN(p, n - 1), texel), Swap(Pressure)]
  }

  function ProjectionStep(p: Pair, v: Pair, texel: Uniform): Step
  {
    Draw(GradientSubtractProgram, map[PressureTexture := p.read, VelocityTexture := v.read],
         Offscreen(v.write), map[Texel := texel])
  }

  function AdvectionSettings(texel: Uniform): map<Name, Uniform>
  {
    map[UseText := F1(0.0), Texel := texel, Dt := F1(TimeStep)]
  }

  /** Velocity transported by itself. */
  function SelfAdvectionStep(v: Pair, texel: Uniform): Step
  {
    Draw(AdvectionProgram, map[VelocityTexture := v.read, InputTexture := v.read],
         Offscreen(v.write), AdvectionSettings(texel))
  }

  /** The dye transported by the velocity buffer `transport`. */
  function DyeAdvectionStep(transport: Fbo, c: Pair, texel: Uniform): Step
  {
    Draw(AdvectionProgram, map[VelocityTexture := transport, InputTexture := c.read],
         Offscreen(c.write), AdvectionSettings(texel))
  }

  function PresentStep(c: Pair): Step
  {
    Draw(OutputShaderProgram, map[OutputTexture := c.read], Screen, map[])
  }

  /** Velocity after the splat, if any. */
  function InjectedVelocity(s: Snapshot): Pair
  {
    if s.pointer.moved then s.velocity.Swapped() else s.velocity
  }

  /** Dye after the splat, if any. */
  function InjectedColor(s: Snapshot): Pair
  {
    if s.pointer.moved then s.outputColor.Swapped() else s.outputColor
  }

  /**
   * The last seven steps: projection, the two advections, presentation.
   * `v` and `c` are velocity and the dye after the splat, `p` pressure as
   * the frame found it.
   */
  function Tail(v: Pair, c: Pair, p: Pair, velocityTexel: Uniform, colorTexel: Uniform): seq<Step>
  {
    var v2 := v.Swapped();
    [ProjectionStep(SwapN(p, PressureIterations), v, velocityTexel), Swap(Velocity),
     SelfAdvectionStep(v2, velocityTexel), Swap(Velocity),
     // The dye pass binds only unit 2; unit 1 still holds v2.read from the pass before.
     DyeAdvectionStep(v2.read, c, colorTexel), Swap(OutputColor),
     PresentStep(c.Swapped())]
  }

  /** The passes every frame runs, after the splat if any. */
  function Passes(v: Pair, c: Pair, divergence: Fbo, p: Pair, velocityTexel: Uniform, colorTexel: Uniform): (r: seq<Step>)
    ensures |r| == 8 + 2 * PressureIterations
  {
    [DivergenceStep(v, divergence, velocityTexel)]
    + Sweeps(PressureIterations, divergence, p, velocityTexel)
    + Tail(v, c, p, velocityTexel, colorTexel)
  }

  /** The tail of the frame starting in `s`. */
  function TailSteps(s: Snapshot): seq<Step>
  {
    Tail(InjectedVelocity(s), InjectedColor(s), s.pressure, s.velocityTexel, s.colorTexel)
  }

  /** The events of one frame, in order. */
  function Steps(s: Snapshot): (r: seq<Step>)
    requires CanvasOk(s)
    ensures |r| == if s.pointer.moved then 32 else 28
  {
    SplatSteps(s)
    + Passes(InjectedVelocity(s), InjectedColor(s), s.divergence, s.pressure, s.velocityTexel, s.colorTexel)
  }

  /** The state a frame leaves: motion consumed, each pair as its swaps leave it. */
  function After(s: Snapshot): Snapshot
  {
    s.(pointer := s.pointer.(moved := false),
       velocity := InjectedVelocity(s).Swapped().Swapped(),
       outputColor := InjectedColor(s).Swapped(),
       pressure := SwapN(s.pressure, PressureIterations))
  }

  /** The number of swaps of `f` in `t`. */
  function SwapCount(t: seq<Step>, f: Field): nat
  {
    multiset(t)[Swap(f)]
  }

  lemma {:induction false} SweepsSwapCount(n: nat, divergence: Fbo, p: Pair, texel: Uniform, f: Field)
    ensures SwapCount(Sweeps(n, divergence, p, texel), f) == if f == Pressure then n else 0
  {
    if n > 0 {
      SweepsSwapCount(n - 1, divergence, p, texel, f);
    }
  }

  /** Step `j` of the sweeps: the (j/2)-th sweep on even j, a swap of pressure on odd j. */
  lemma {:induction false} SweepsAt(n: nat, divergence: Fbo, p: Pair, texel: Uniform, j: nat)
    requires j < 2 * n
    ensures Sweeps(n, divergence, p, texel)[j]
         == if j % 2 == 0 then Sweep(divergence, SwapN(p, j / 2), texel) else Swap(Pressure)
  {
    if j < 2 * (n - 1) {
      SweepsAt(n - 1, divergence, p, texel, j);
    }
  }

  /** A swapped assignment uses the same two buffers. */
  lemma SwapNBuffers(p: Pair, k: nat)
    ensures SwapN(p, k) == p || SwapN(p, k) == p.Swapped()
  {
    SwapNParity(p, k);
  }

  /** The pairwise distinctness of the seven buffers, spelled out. */
  lemma DisjointFacts(s: Snapshot)
    requires Disjoint(s)
    ensures s.outputColor.read != s.outputColor.write
    ensures s.velocity.read != s.velocity.write
    ensures s.pressure.read != s.pressure.write
    ensures s.divergence !in {s.outputColor.read, s.outputColor.write, s.velocity.read, s.velocity.write,
                              s.pressure.read, s.pressure.write}
    ensures s.velocity.read !in {s.outputColor.read, s.outputColor.write, s.pressure.read, s.pressure.write}
    ensures s.velocity.write !in {s.outputColor.read, s.outputColor.write, s.pressure.read, s.pressure.write}
    ensures s.outputColor.read !in {s.pressure.read, s.pressure.write}
    ensures s.outputColor.write !in {s.pressure.read, s.pressure.write}
  {
    var b := Buffers(s);
    assert b[0] != b[1] && b[2] != b[3] && b[5] != b[6];
    assert forall j :: 0 <= j < 7 && j != 4 ==> b[4] != b[j];
    assert forall j :: 0 <= j < 7 && j != 2 ==> b[2] != b[j];
    assert forall j :: 0 <= j < 7 && j != 3 ==> b[3] != b[j];
    assert b[0] != b[5] && b[0] != b[6] && b[1] != b[5] && b[1] != b[6];
  }

  /** Where each step of a frame comes from. */
  lemma StepsAt(s: Snapshot, i: nat)
    requires CanvasOk(s) && i < |Steps(s)|
    ensures var k := |SplatSteps(s)|;
            && (i < k ==> Steps(s)[i] == SplatSteps(s)[i])
            && (i == k ==> Steps(s)[i] == DivergenceStep(InjectedVelocity(s), s.divergence, s.velocityTexel))
            && (k < i <= k + 2 * PressureIterations ==>
                  Steps(s)[i] == Sweeps(PressureIterations, s.divergence, s.pressure, s.velocityTexel)[i - k - 1])
            && (k + 2 * PressureIterations < i ==> Steps(s)[i] == TailSteps(s)[i - k - 1 - 2 * PressureIterations])
  {
  }

  /** Each sweep samples the pressure the sweep before it wrote, and the last one writes what is read after `n` swaps. */
  lemma {:induction false} SweepsChain(n: nat, divergence: Fbo, p: Pair, texel: Uniform)
    ensures var r := Sweeps(n, divergence, p, texel);
            forall j :: 2 <= j < 2 * n && j % 2 == 0 ==>
              && r[j].Draw? && PressureTexture in r[j].samples
              && r[j - 2].Draw? && r[j - 2].target.Offscreen?
              && r[j].samples[PressureTexture] == r[j - 2].target.fbo
    ensures n > 0 ==> (Sweeps(n, divergence, p, texel)[2 * n - 2] == Sweep(divergence, SwapN(p, n - 1), texel)
                       && SwapN(p, n - 1).write == SwapN(p, n).read)
  {
    var r := Sweeps(n, divergence, p, texel);
    forall j | 2 <= j < 2 * n && j % 2 == 0
      ensures && r[j].Draw? && PressureTexture in r[j].samples
              && r[j - 2].Draw? && r[j - 2].target.Offscreen?
              && r[j].samples[PressureTexture] == r[j - 2].target.fbo
    {
      SweepsAt(n, divergence, p, texel, j);
      SweepsAt(n, divergence, p, texel, j - 2);
      assert (j - 2) / 2 == j / 2 - 1;
    }
    if n > 0 {
      SweepsAt(n, divergence, p, texel, 2 * n - 2);
    }
  }

  /** A frame swaps velocity 3 times after a splat and 2 without, the dye 2 and 1 times, pressure 10 times. */
  lemma SwapCounts(s: Snapshot, f: Field)
    requires CanvasOk(s)
    ensures SwapCount(Steps(s), f)
         == match f
            case Velocity => if s.pointer.moved then 3 else 2
            case OutputColor => if s.pointer.moved then 2 else 1
            case Pressure => PressureIterations
  {
    StepsSwapCount(s, f);
    SweepsSwapCount(PressureIterations, s.divergence, s.pressure, s.velocityTexel, f);
    SplatSwapCount(s, f);
    TailSwapCount(s, f);
  }

  /** The pairs a frame leaves are its starting pairs swapped as often as the frame swaps them. */
  lemma AfterFollowsSwaps(s: Snapshot)
    requires CanvasOk(s)
    ensures After(s).velocity == SwapN(s.velocity, SwapCount(Steps(s), Velocity))
    ensures After(s).outputColor == SwapN(s.outputColor, SwapCount(Steps(s), OutputColor))
    ensures After(s).pressure == SwapN(s.pressure, SwapCount(Steps(s), Pressure))
  {
    SwapCounts(s, Velocity);
    SwapCounts(s, OutputColor);
    SwapCounts(s, Pressure);
    FrameParity(s);
    SwapNParity(s.velocity, if s.pointer.moved then 3 else 2);
    SwapNParity(s.outputColor, if s.pointer.moved then 2 else 1);
  }

  lemma StepsSwapCount(s: Snapshot, f: Field)
    requires CanvasOk(s)
    ensures SwapCount(Steps(s), f)
         == SwapCount(SplatSteps(s), f) + SwapCount(Sweeps(PressureIterations, s.divergence, s.pressure, s.velocityTexel), f)
            + SwapCount(TailSteps(s), f)
  {
    var a := SplatSteps(s);
    var b := [DivergenceStep(InjectedVelocity(s), s.divergence, s.velocityTexel)];
    var c := Sweeps(PressureIterations, s.divergence, s.pressure, s.velocityTexel);
    var d := TailSteps(s);
    var p := Passes(InjectedVelocity(s), InjectedColor(s), s.divergence, s.pressure, s.velocityTexel, s.colorTexel);
    assert p == b + c + d;
    assert multiset(p) == multiset(b) + multiset(c) + multiset(d);
    assert multiset(Steps(s)) == multiset(a) + multiset(p);
  }

  lemma SplatSwapCount(s: Snapshot, f: Field)
    requires CanvasOk(s)
    ensures SwapCount(SplatSteps(s), f) == if s.pointer.moved && f != Pressure then 1 else 0
  {
  }

  lemma TailSwapCount(s: Snapshot, f: Field)
    ensures SwapCount(TailSteps(s), f) == if f == Velocity then 2 else if f == OutputColor then 1 else 0
  {
  }

  /** After a frame the motion is consumed, velocity is swapped iff it splatted, the dye iff it did not, pressure is as before. */
  lemma FrameParity(s: Snapshot)
    ensures !After(s).pointer.moved
    ensures After(s).velocity == if s.pointer.moved then s.velocity.Swapped() else s.velocity
    ensures After(s).outputColor == if s.pointer.moved then s.outputColor else s.outputColor.Swapped()
    ensures After(s).pressure == s.pressure
  {
    SwapNParity(s.pressure, PressureIterations);
  }

  /** A frame splats if and only if the pointer moved since the last frame. */
  lemma SplatIffMoved(s: Snapshot)
    requires CanvasOk(s)
    ensures (exists i :: 0 <= i < |Steps(s)| && Steps(s)[i].Draw? && Steps(s)[i].program == SplatProgram)
            <==> s.pointer.moved
  {
    var t := Steps(s);
    if s.pointer.moved {
      assert t[0].Draw? && t[0].program == SplatProgram;
    } else {
      forall i | 0 <= i < |t| && t[i].Draw?
        ensures t[i].program != SplatProgram
      {
        StepsAt(s, i);
        if 0 < i <= 2 * PressureIterations {
          SweepsAt(PressureIterations, s.divergence, s.pressure, s.velocityTexel, i - 1);
        }
      }
    }
  }

  /** No pass targets a buffer that one of its samplers reads. */
  lemma NoAliasing(s: Snapshot)
    requires CanvasOk(s) && Disjoint(s)
    ensures forall i :: 0 <= i < |Steps(s)| && Steps(s)[i].Draw? && Steps(s)[i].target.Offscreen? ==>
              Steps(s)[i].target.fbo !in Steps(s)[i].samples.Values
  {
    forall i | 0 <= i < |Steps(s)| && Steps(s)[i].Draw? && Steps(s)[i].target.Offscreen?
      ensures Steps(s)[i].target.fbo !in Steps(s)[i].samples.Values
    {
      var k := |SplatSteps(s)|;
      if k < i <= k + 2 * PressureIterations {
        SweepNoAliasing(s, i);
      } else {
        PassNoAliasing(s, i);
      }
    }
  }

  /** The splat, divergence, projection and advection passes do not sample their target either. */
  lemma PassNoAliasing(s: Snapshot, i: nat)
    requires CanvasOk(s) && Disjoint(s)
    requires i <= |SplatSteps(s)| || |SplatSteps(s)| + 2 * PressureIterations < i < |Steps(s)|
    requires Steps(s)[i].Draw? && Steps(s)[i].target.Offscreen?
    ensures Steps(s)[i].target.fbo !in Steps(s)[i].samples.Values
  {
    DisjointFacts(s);
    StepsAt(s, i);
    SwapNBuffers(s.pressure, PressureIterations);
  }

  /** A sweep targets the pressure buffer it does not read, and not the divergence. */
  lemma SweepNoAliasing(s: Snapshot, i: nat)
    requires CanvasOk(s) && Disjoint(s)
    requires |SplatSteps(s)| < i <= |SplatSteps(s)| + 2 * PressureIterations
    requires Steps(s)[i].Draw? && Steps(s)[i].target.Offscreen?
    ensures Steps(s)[i].target.fbo !in Steps(s)[i].samples.Values
  {
    var k := |SplatSteps(s)|;
    DisjointFacts(s);
    StepsAt(s, i);
    SweepsAt(PressureIterations, s.divergence, s.pressure, s.velocityTexel, i - k - 1);
    SwapNBuffers(s.pressure, (i - k - 1) / 2);
  }

  /** `st` is a pass into a buffer of the double-buffered field `f`. */
  predicate DrawsInto(s: Snapshot, st: Step, f: Field)
  {
    st.Draw? && st.target.Offscreen? && FieldOf(s, st.target.fbo) == Some(f)
  }

  /**
   * Every pass into a double buffer is followed at once by the swap of that
   * field, and every swap directly follows such a pass.
   */
  lemma SwapDiscipline(s: Snapshot)
    requires CanvasOk(s) && Disjoint(s)
    ensures Steps(s)[0].Draw?
    ensures Steps(s)[|Steps(s)| - 1].Draw? && Steps(s)[|Steps(s)| - 1].target == Screen
    ensures forall i, f :: 0 < i < |Steps(s)| ==> (Steps(s)[i] == Swap(f) <==> DrawsInto(s, Steps(s)[i - 1], f))
  {
    forall i, f | 0 < i < |Steps(s)|
      ensures Steps(s)[i] == Swap(f) <==> DrawsInto(s, Steps(s)[i - 1], f)
    {
      SwapDisciplineAt(s, i, f);
    }
  }

  lemma SwapDisciplineAt(s: Snapshot, i: nat, f: Field)
    requires CanvasOk(s) && Disjoint(s) && 0 < i < |Steps(s)|
    ensures Steps(s)[i] == Swap(f) <==> DrawsInto(s, Steps(s)[i - 1], f)
  {
    var k := |SplatSteps(s)|;
    if i <= k + 1 {
      DisjointFacts(s);
      StepsAt(s, i);
      StepsAt(s, i - 1);
      if i == k + 1 {
        SweepsAt(PressureIterations, s.divergence, s.pressure, s.velocityTexel, 0);
      }
    } else if i <= k + 2 * PressureIterations + 1 {
      SweepDisciplineAt(s, i, f);
    } else {
      TailDisciplineAt(s, i, f);
    }
  }

  /** The discipline inside the sweeps, and at their end. */
  lemma SweepDisciplineAt(s: Snapshot, i: nat, f: Field)
    requires CanvasOk(s) && Disjoint(s)
    requires |SplatSteps(s)| + 1 < i <= |SplatSteps(s)| + 2 * PressureIterations + 1
    ensures Steps(s)[i] == Swap(f) <==> DrawsInto(s, Steps(s)[i - 1], f)
  {
    var k := |SplatSteps(s)|;
    DisjointFacts(s);
    StepsAt(s, i);
    StepsAt(s, i - 1);
    SweepsAt(PressureIterations, s.divergence, s.pressure, s.velocityTexel, i - k - 2);
    SwapNBuffers(s.pressure, (i - k - 2) / 2);
    if i <= k + 2 * PressureIterations {
      SweepsAt(PressureIterations, s.divergence, s.pressure, s.velocityTexel, i - k - 1);
    }
  }

  /** The discipline in the last seven steps. */
  lemma TailDisciplineAt(s: Snapshot, i: nat, f: Field)
    requires CanvasOk(s) && Disjoint(s)
    requires |SplatSteps(s)| + 2 * PressureIterations + 1 < i < |Steps(s)|
    ensures Steps(s)[i] == Swap(f) <==> DrawsInto(s, Steps(s)[i - 1], f)
  {
    DisjointFacts(s);
    StepsAt(s, i);
    StepsAt(s, i - 1);
    SwapNBuffers(s.pressure, PressureIterations);
  }

  /**
   * Divergence is taken of the velocity after the splat; every sweep reads
   * that divergence and the pressure the sweep before it wrote (the first,
   * the read side the frame began with); the gradient is subtracted from the
   * same velocity, using the pressure the last sweep wrote, which is again
   * the read side the frame began with.
   */
  lemma ProjectionInputs(s: Snapshot)
    requires CanvasOk(s) && Disjoint(s)
    ensures var t := Steps(s); var k := |SplatSteps(s)|; var n := |t|;
      && t[k].Draw? && t[k].program == DivergenceProgram && t[k].target == Offscreen(s.divergence)
      && VelocityTexture in t[k].samples
      && (s.pointer.moved ==> t[0].Draw? && t[0].target == Offscreen(t[k].samples[VelocityTexture]))
      && (!s.pointer.moved ==> t[k].samples[VelocityTexture] == s.velocity.read)
      && (forall i :: k < i <= k + 2 * PressureIterations && t[i].Draw? ==>
            && t[i].program == PressureProgram
            && DivergenceTexture in t[i].samples && t[i].samples[DivergenceTexture] == s.divergence
            && PressureTexture in t[i].samples
            && (i == k + 1 ==> t[i].samples[PressureTexture] == s.pressure.read)
            && (i > k + 1 ==> t[i - 2].Draw? && t[i - 2].target.Offscreen?
                              && t[i].samples[PressureTexture] == t[i - 2].target.fbo))
      && t[n - 9].Draw? && t[n - 9].program == PressureProgram && t[n - 9].target.Offscreen?
      && t[n - 7].Draw? && t[n - 7].program == GradientSubtractProgram
      && PressureTexture in t[n - 7].samples && VelocityTexture in t[n - 7].samples
      && t[n - 7].samples[PressureTexture] == t[n - 9].target.fbo == s.pressure.read
      && t[n - 7].samples[VelocityTexture] == t[k].samples[VelocityTexture]
  {
    var t := Steps(s);
    var k := |SplatSteps(s)|;
    var n := |t|;
    var sweeps := Sweeps(PressureIterations, s.divergence, s.pressure, s.velocityTexel);
    SweepsChain(PressureIterations, s.divergence, s.pressure, s.velocityTexel);
    SwapNParity(s.pressure, PressureIterations);
    forall i | k < i <= k + 2 * PressureIterations && t[i].Draw?
      ensures && t[i].program == PressureProgram
              && DivergenceTexture in t[i].samples && t[i].samples[DivergenceTexture] == s.divergence
              && PressureTexture in t[i].samples
              && (i == k + 1 ==> t[i].samples[PressureTexture] == s.pressure.read)
              && (i > k + 1 ==> t[i - 2].Draw? && t[i - 2].target.Offscreen?
                                && t[i].samples[PressureTexture] == t[i - 2].target.fbo)
    {
      StepsAt(s, i);
      SweepsAt(PressureIterations, s.divergence, s.pressure, s.velocityTexel, i - k - 1);
      if i > k + 1 {
        StepsAt(s, i - 2);
        assert t[i - 2] == sweeps[i - k - 3];
      }
    }
    StepsAt(s, n - 9);
  }

  /**
   * The dye is transported by the projected velocity from before
   * self-advection: the buffer the gradient-subtract pass wrote, which the
   * frame leaves as velocity's write side, and not the one self-advection
   * wrote. The advected dye is what is presented.
   */
  lemma DyeTransport(s: Snapshot)
    requires CanvasOk(s) && Disjoint(s)
    ensures var t := Steps(s); var n := |t|;
      && t[n - 7].Draw? && t[n - 7].program == GradientSubtractProgram && t[n - 7].target.Offscreen?
      && t[n - 5].Draw? && t[n - 5].program == AdvectionProgram && t[n - 5].target.Offscreen?
      && t[n - 3].Draw? && t[n - 3].program == AdvectionProgram && t[n - 3].target.Offscreen?
      && VelocityTexture in t[n - 3].samples
      && t[n - 3].samples[VelocityTexture] == t[n - 7].target.fbo == After(s).velocity.write
      && t[n - 3].samples[VelocityTexture] != t[n - 5].target.fbo
      && t[n - 5].target.fbo == After(s).velocity.read
      && t[n - 3].target.fbo == After(s).outputColor.read
      && t[n - 1].Draw? && t[n - 1].target == Screen && OutputTexture in t[n - 1].samples
      && t[n - 1].samples[OutputTexture] == t[n - 3].target.fbo
  {
    DisjointFacts(s);
  }
}
