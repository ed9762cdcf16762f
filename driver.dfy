/**
 * The frame driver of main.js: the global fields, the pointer, the canvas
 * size, resizing, and `render`, which issues one frame of passes. Each pass
 * of `render` is a method of its own, over the buffers it uses.
 */
module Driver {
  import opened WebGl
  import opened FieldStorage
  import opened Input
  import opened Frame

  /**
   * `blit(b.write())` followed by `b.swap()`: a pass of the program in use
   * into the write side of `b`, then the exchange of `b`'s two buffers, with
   * the swap recorded in the trace.
   */
  method BlitAndSwap(gl: Context, b: DoubleFbo, f: Field)
    requires b.Valid() && gl.program.Some?
    modifies gl`trace, b
    ensures b.Valid() && b.View() == old(b.View()).Swapped()
    ensures gl.trace == old(gl.trace) +
      [Draw(gl.program.value, Reads(gl.program.value, gl.uniforms, gl.units), Offscreen(old(b.View()).write),
            Values(gl.program.value, gl.uniforms)),
       Swap(f)]
  {
    gl.Blit(Offscreen(b.Write()));
    b.Swap();
    gl.trace := gl.trace + [Swap(f)];
  }

  /**
   * `main.js` lines 138-151: consume the motion, splat the displacement into velocity
   * and full red into the dye, at the pointer's position on a canvas of
   * `width` x `height`, swapping each after its pass.
   */
  method Splat(gl: Context, pointer: Pointer, width: int, height: int, velocity: DoubleFbo, outputColor: DoubleFbo)
    requires width > 0 && height > 0
    requires velocity != outputColor && velocity.Valid() && outputColor.Valid()
    modifies gl`trace, gl`program, gl`uniforms, gl`active, gl`units, pointer, velocity, outputColor
    ensures pointer.State() == old(pointer.State()).(moved := false)
    ensures velocity.Valid() && velocity.View() == old(velocity.View()).Swapped()
    ensures outputColor.Valid() && outputColor.View() == old(outputColor.View()).Swapped()
    ensures gl.trace == old(gl.trace) +
      [SplatStep(old(velocity.View()), SplatSettings(old(pointer.State()), width, height,
                                                     F3(old(pointer.dx), -old(pointer.dy), 1.0))),
       Swap(Velocity),
       SplatStep(old(outputColor.View()), SplatSettings(old(pointer.State()), width, height, F3(1.0, 0.0, 0.0))),
       Swap(OutputColor)]
  {
    pointer.moved := false;
    SplatVelocity(gl, pointer.State(), width, height, velocity);
    SplatColor(gl, pointer.State(), width, height, outputColor);
  }

  /** `main.js` lines 139-146: the splat into velocity at pointer state `p`, which sets all the splat uniforms. */
  method SplatVelocity(gl: Context, p: PointerState, width: int, height: int, velocity: DoubleFbo)
    requires width > 0 && height > 0 && velocity.Valid()
    modifies gl`trace, gl`program, gl`uniforms, gl`active, gl`units, velocity
    ensures velocity.Valid() && velocity.View() == old(velocity.View()).Swapped()
    ensures gl.trace == old(gl.trace) +
      [SplatStep(old(velocity.View()), SplatSettings(p, width, height, F3(p.dx, -p.dy, 1.0))), Swap(Velocity)]
    ensures gl.program == Some(SplatProgram)
    ensures SplatUniforms(gl.uniforms, SplatSettings(p, width, height, F3(p.dx, -p.dy, 1.0)))
  {
    gl.UseProgram(SplatProgram);
    SplatUniformsSet(gl.uniforms, I(1), p, width, height, F3(p.dx, -p.dy, 1.0));
    gl.BindSampler(InputTexture, velocity.Read(), 1);
    gl.SetUniform(Ratio, F1(width as real / height as real));
    gl.SetUniform(Point, F2(p.x / width as real, 1.0 - p.y / height as real));
    gl.SetUniform(PointValue, F3(p.dx, -p.dy, 1.0));
    gl.SetUniform(PointSize, F1(SplatRadius));
    BlitAndSwap(gl, velocity, Velocity);
  }

  /** The splat program's uniforms other than its sampler hold `settings`. */
  ghost predicate SplatUniforms(uniforms: map<(Program, Name), Uniform>, settings: map<Name, Uniform>)
  {
    Values(SplatProgram, uniforms) == settings
  }

  /** Setting the splat uniforms in the order of lines 140-144 gives the splat settings. */
  lemma SplatUniformsSet(uniforms: map<(Program, Name), Uniform>, input: Uniform,
                         p: PointerState, width: int, height: int, value: Uniform)
    requires width > 0 && height > 0
    ensures SplatUniforms(uniforms[(SplatProgram, InputTexture) := input]
                                  [(SplatProgram, Ratio) := F1(width as real / height as real)]
                                  [(SplatProgram, Point) := F2(p.x / width as real, 1.0 - p.y / height as real)]
                                  [(SplatProgram, PointValue) := value]
                                  [(SplatProgram, PointSize) := F1(SplatRadius)],
                          SplatSettings(p, width, height, value))
  {
  }

  /** Rebinding the splat sampler and value keeps the other splat uniforms. */
  lemma SplatValueUpdate(uniforms: map<(Program, Name), Uniform>, input: Uniform, value: Uniform,
                         p: PointerState, width: int, height: int, value0: Uniform)
    requires width > 0 && height > 0
    requires SplatUniforms(uniforms, SplatSettings(p, width, height, value0))
    ensures SplatUniforms(uniforms[(SplatProgram, InputTexture) := input][(SplatProgram, PointValue) := value],
                          SplatSettings(p, width, height, value))
  {
    var s0 := SplatSettings(p, width, height, value0);
    assert Ratio in s0 && Point in s0 && PointSize in s0;
  }

  /**
   * `main.js` lines 148-151: the splat into the dye, with only the sampler and the
   * value changed; ratio, centre and radius are as the velocity splat left
   * them.
   */
  method SplatColor(gl: Context, ghost p: PointerState, ghost width: int, ghost height: int, outputColor: DoubleFbo)
    requires width > 0 && height > 0 && outputColor.Valid()
    requires gl.program == Some(SplatProgram)
    requires SplatUniforms(gl.uniforms, SplatSettings(p, width, height, F3(p.dx, -p.dy, 1.0)))
    modifies gl`trace, gl`program, gl`uniforms, gl`active, gl`units, outputColor
    ensures outputColor.Valid() && outputColor.View() == old(outputColor.View()).Swapped()
    ensures gl.trace == old(gl.trace) +
      [SplatStep(old(outputColor.View()), SplatSettings(p, width, height, F3(1.0, 0.0, 0.0))), Swap(OutputColor)]
  {
    SplatValueUpdate(gl.uniforms, I(1), F3(1.0, 0.0, 0.0), p, width, height, F3(p.dx, -p.dy, 1.0));
    gl.BindSampler(InputTexture, outputColor.Read(), 1);
    gl.SetUniform(PointValue, F3(1.0, 0.0, 0.0));
    BlitAndSwap(gl, outputColor, OutputColor);
  }

  /** `main.js` lines 154-157: the divergence of velocity into the divergence buffer. */
  method ComputeDivergence(gl: Context, velocity: DoubleFbo, divergence: Fbo)
    requires velocity.Valid()
    modifies gl`trace, gl`program, gl`uniforms, gl`active, gl`units
    ensures gl.trace == old(gl.trace) + [DivergenceStep(velocity.View(), divergence, F2(velocity.texelSizeX, velocity.texelSizeY))]
  {
    gl.UseProgram(DivergenceProgram);
    gl.SetUniform(Texel, F2(velocity.texelSizeX, velocity.texelSizeY));
    gl.BindSampler(VelocityTexture, velocity.Read(), 1);
    gl.Blit(Offscreen(divergence));
  }

  /** `main.js` lines 159-166: the fixed number of Jacobi sweeps, each followed by a swap of pressure. */
  method SolvePressure(gl: Context, velocity: DoubleFbo, divergence: Fbo, pressure: DoubleFbo)
    requires pressure.Valid()
    modifies gl`trace, gl`program, gl`uniforms, gl`active, gl`units, pressure
    ensures pressure.Valid() && pressure.View() == SwapN(old(pressure.View()), PressureIterations)
    ensures gl.trace == old(gl.trace)
                        + Sweeps(PressureIterations, divergence, old(pressure.View()),
                                 F2(velocity.texelSizeX, velocity.texelSizeY))
  {
    ghost var p0 := pressure.View();
    ghost var t0 := gl.trace;
    var texel := F2(velocity.texelSizeX, velocity.texelSizeY);
    gl.UseProgram(PressureProgram);
    gl.SetUniform(Texel, texel);
    gl.BindSampler(DivergenceTexture, divergence, 1);
    var i := 0;
    while i < PressureIterations
      invariant 0 <= i <= PressureIterations
      invariant pressure.Valid() && pressure.View() == SwapN(p0, i)
      invariant gl.trace == t0 + Sweeps(i, divergence, p0, texel)
      invariant gl.program == Some(PressureProgram)
      invariant (PressureProgram, Texel) in gl.uniforms && gl.uniforms[(PressureProgram, Texel)] == texel
      invariant (PressureProgram, DivergenceTexture) in gl.uniforms
      invariant gl.uniforms[(PressureProgram, DivergenceTexture)] == I(1)
      invariant 1 in gl.units && gl.units[1] == divergence
    {
      gl.BindSampler(PressureTexture, pressure.Read(), 2);
      BlitAndSwap(gl, pressure, Pressure);
      i := i + 1;
    }
  }

  /** `main.js` lines 168-173: subtract the pressure gradient from velocity. */
  method SubtractGradient(gl: Context, velocity: DoubleFbo, pressure: DoubleFbo)
    requires velocity != pressure && velocity.Valid() && pressure.Valid()
    modifies gl`trace, gl`program, gl`uniforms, gl`active, gl`units, velocity
    ensures velocity.Valid() && velocity.View() == old(velocity.View()).Swapped()
    ensures gl.trace == old(gl.trace) + [ProjectionStep(pressure.View(), old(velocity.View()),
                                                        F2(velocity.texelSizeX, velocity.texelSizeY)),
                                         Swap(Velocity)]
  {
    gl.UseProgram(GradientSubtractProgram);
    gl.SetUniform(Texel, F2(velocity.texelSizeX, velocity.texelSizeY));
    gl.BindSampler(PressureTexture, pressure.Read(), 1);
    gl.BindSampler(VelocityTexture, velocity.Read(), 2);
    BlitAndSwap(gl, velocity, Velocity);
  }

  /**
   * `main.js` lines 175-182: velocity transported by itself. Unit 1 is left holding
   * the velocity it sampled, which the swap turns into the write side.
   */
  method AdvectVelocity(gl: Context, velocity: DoubleFbo)
    requires velocity.Valid()
    modifies gl`trace, gl`program, gl`uniforms, gl`active, gl`units, velocity
    ensures velocity.Valid() && velocity.View() == old(velocity.View()).Swapped()
    ensures gl.trace == old(gl.trace) + [SelfAdvectionStep(old(velocity.View()), F2(velocity.texelSizeX, velocity.texelSizeY)),
                                         Swap(Velocity)]
    ensures 1 in gl.units && gl.units[1] == velocity.Write()
    ensures (AdvectionProgram, VelocityTexture) in gl.uniforms && gl.uniforms[(AdvectionProgram, VelocityTexture)] == I(1)
    ensures (AdvectionProgram, Dt) in gl.uniforms && gl.uniforms[(AdvectionProgram, Dt)] == F1(TimeStep)
  {
    gl.UseProgram(AdvectionProgram);
    gl.SetUniform(UseText, F1(0.0));
    gl.SetUniform(Texel, F2(velocity.texelSizeX, velocity.texelSizeY));
    gl.BindSampler(VelocityTexture, velocity.Read(), 1);
    gl.BindSampler(InputTexture, velocity.Read(), 1);
    gl.SetUniform(Dt, F1(TimeStep));
    BlitAndSwap(gl, velocity, Velocity);
  }

  /**
   * `main.js` lines 184-189: the dye transported by velocity. Only unit 2 and the
   * input sampler are rebound, so velocity is sampled through unit 1, with
   * the timestep, as the previous pass left them.
   */
  method AdvectColor(gl: Context, outputColor: DoubleFbo)
    requires outputColor.Valid()
    requires 1 in gl.units
    requires (AdvectionProgram, VelocityTexture) in gl.uniforms && gl.uniforms[(AdvectionProgram, VelocityTexture)] == I(1)
    requires (AdvectionProgram, Dt) in gl.uniforms && gl.uniforms[(AdvectionProgram, Dt)] == F1(TimeStep)
    modifies gl`trace, gl`program, gl`uniforms, gl`active, gl`units, outputColor
    ensures outputColor.Valid() && outputColor.View() == old(outputColor.View()).Swapped()
    ensures gl.trace == old(gl.trace) + [DyeAdvectionStep(old(gl.units[1]), old(outputColor.View()),
                                                          F2(outputColor.texelSizeX, outputColor.texelSizeY)),
                                         Swap(OutputColor)]
  {
    gl.UseProgram(AdvectionProgram);
    gl.SetUniform(UseText, F1(0.0));
    gl.SetUniform(Texel, F2(outputColor.texelSizeX, outputColor.texelSizeY));
    gl.BindSampler(InputTexture, outputColor.Read(), 2);
    BlitAndSwap(gl, outputColor, OutputColor);
  }

  /** `main.js` lines 191-195: the output shader draws the dye's read side to the screen. */
  method Present(gl: Context, outputColor: DoubleFbo)
    requires outputColor.Valid()
    modifies gl`trace, gl`program, gl`uniforms, gl`active, gl`units
    ensures gl.trace == old(gl.trace) + [PresentStep(outputColor.View())]
  {
    gl.UseProgram(OutputShaderProgram);
    gl.BindSampler(OutputTexture, outputColor.Read(), 1);
    gl.Blit(Screen);
  }

  /**
   * `main.js` lines 154-195: the passes every frame runs. Velocity is swapped twice and
   * so ends as it began, the dye once, pressure once per sweep.
   */
  method Simulate(gl: Context, velocity: DoubleFbo, divergence: Fbo, pressure: DoubleFbo, outputColor: DoubleFbo)
    requires velocity != pressure && velocity != outputColor && pressure != outputColor
    requires velocity.Valid() && pressure.Valid() && outputColor.Valid()
    modifies gl`trace, gl`program, gl`uniforms, gl`active, gl`units, velocity, pressure, outputColor
    ensures velocity.Valid() && pressure.Valid() && outputColor.Valid()
    ensures velocity.View() == old(velocity.View())
    ensures outputColor.View() == old(outputColor.View()).Swapped()
    ensures pressure.View() == SwapN(old(pressure.View()), PressureIterations)
    ensures gl.trace == old(gl.trace) + Passes(old(velocity.View()), old(outputColor.View()), divergence, old(pressure.View()),
                                               F2(velocity.texelSizeX, velocity.texelSizeY),
                                               F2(outputColor.texelSizeX, outputColor.texelSizeY))
  {
    ComputeDivergence(gl, velocity, divergence);
    SolvePressure(gl, velocity, divergence, pressure);
    SubtractGradient(gl, velocity, pressure);
    AdvectVelocity(gl, velocity);
    AdvectColor(gl, outputColor);
    Present(gl, outputColor);
  }

  /** The buffers stay pairwise distinct when the pairs are swapped. */
  lemma DisjointUnderSwaps(s: Snapshot, c: Pair, v: Pair, p: Pair)
    requires Disjoint(s)
    requires c == s.outputColor || c == s.outputColor.Swapped()
    requires v == s.velocity || v == s.velocity.Swapped()
    requires p == s.pressure || p == s.pressure.Swapped()
    ensures Disjoint(s.(outputColor := c, velocity := v, pressure := p))
  {
    DisjointFacts(s);
    var b := Buffers(s.(outputColor := c, velocity := v, pressure := p));
    forall i, j | 0 <= i < j < |b|
      ensures b[i] != b[j]
    {
    }
  }

  /** The global state of main.js: the context, the pointer, the canvas size and the fields. */
  class Smoke {
    const gl: Context
    const pointer: Pointer
    var canvasWidth: int
    var canvasHeight: int
    var outputColor: DoubleFbo
    var velocity: DoubleFbo
    var divergence: Fbo
    var pressure: DoubleFbo

    /** The state a frame starts from. */
    function Snap(): Snapshot
      reads this, pointer, outputColor, velocity, pressure
    {
      Snapshot(pointer.State(), canvasWidth, canvasHeight,
               outputColor.View(), velocity.View(), divergence, pressure.View(),
               F2(outputColor.texelSizeX, outputColor.texelSizeY),
               F2(velocity.texelSizeX, velocity.texelSizeY))
    }

    ghost predicate Valid()
      reads this, pointer, outputColor, velocity, pressure
    {
      outputColor != velocity && outputColor != pressure && velocity != pressure &&
      outputColor.Valid() && velocity.Valid() && pressure.Valid() &&
      canvasWidth > 0 && canvasHeight > 0 &&
      Disjoint(Snap()) &&
      outputColor.width == velocity.width == pressure.width == divergence.width &&
      outputColor.height == velocity.height == pressure.height == divergence.height
    }

    /**
     * Start-up: the fields are built (line 30), then the canvas is sized to
     * the window and the fields rebuilt at half that size (line 32).
     */
    constructor (innerWidth: int, innerHeight: int)
      requires innerWidth >= 2 && innerHeight >= 2
      ensures Valid() && fresh(gl) && fresh(pointer)
      ensures fresh(outputColor) && fresh(velocity) && fresh(pressure)
      ensures CreatedBetween(Buffers(Snap()), 0, gl.created)
      ensures pointer.State() == PointerState(0.0, 0.0, 0.0, 0.0, false)
      ensures canvasWidth == innerWidth && canvasHeight == innerHeight
      ensures velocity.width == innerWidth / 2 && velocity.height == innerHeight / 2
      ensures gl.trace == []
    {
      var context := new Context();
      gl := context;
      pointer := new Pointer();
      var c, v, d, p := InitFbos(context, innerWidth / 2, innerHeight / 2);
      outputColor, velocity, divergence, pressure := c, v, d, p;
      // The canvas element's own size until it is first resized.
      canvasWidth, canvasHeight := 300, 150;
      new;
      Resize(innerWidth, innerHeight);
    }

    /**
     * `resizeCanvas`: the canvas takes the window's size and every field is
     * rebuilt, fresh, at half of it (rounded down); the pointer is untouched.
     */
    method Resize(innerWidth: int, innerHeight: int)
      requires innerWidth >= 2 && innerHeight >= 2
      modifies this, gl`units, gl`created
      ensures Valid()
      ensures canvasWidth == innerWidth && canvasHeight == innerHeight
      ensures fresh(outputColor) && fresh(velocity) && fresh(pressure)
      ensures CreatedBetween(Buffers(Snap()), old(gl.created), gl.created)
      ensures velocity.width == innerWidth / 2 && velocity.height == innerHeight / 2
      ensures pointer.State() == old(pointer.State())
    {
      canvasWidth := innerWidth;
      canvasHeight := innerHeight;
      outputColor, velocity, divergence, pressure := InitFbos(gl, innerWidth / 2, innerHeight / 2);
    }

    /**
     * `render`: one frame. The trace grows by exactly the passes and swaps of
     * `Steps` and the state becomes `After` of the state it started from.
     */
    method Render()
      requires Valid()
      modifies gl`trace, gl`program, gl`uniforms, gl`active, gl`units, pointer, outputColor, velocity, pressure
      ensures Valid()
      ensures gl.trace == old(gl.trace) + Steps(old(Snap()))
      ensures Snap() == After(old(Snap()))
    {
      ghost var s := Snap();
      if pointer.moved {
        Splat(gl, pointer, canvasWidth, canvasHeight, velocity, outputColor);
      }
      Simulate(gl, velocity, divergence, pressure, outputColor);
      SwapNBuffers(s.pressure, PressureIterations);
      DisjointUnderSwaps(s, outputColor.View(), velocity.View(), pressure.View());
    }
  }
}
