/**
 * The slice of the WebGL context that the fluid driver relies on: render
 * targets, the program in use, each program's uniform values, the texture
 * units and what each draw call samples and targets.
 *
 * Pixel data, texture parameters, framebuffer attachments, the vertex buffers
 * and the viewport are not modelled; a render target is an object identity
 * with a size.
 */
module WebGl {

  datatype Option<T> = None | Some(value: T)

  /** The six linked shader programs of main.js (splatProgram, ...). */
  datatype Program =
    | SplatProgram
    | DivergenceProgram
    | PressureProgram
    | GradientSubtractProgram
    | AdvectionProgram
    | OutputShaderProgram

  /** The uniform names the driver sets (u_input_texture, u_ratio, ...). */
  datatype Name =
    | InputTexture
    | Ratio
    | Point
    | PointValue
    | PointSize
    | Texel
    | VelocityTexture
    | DivergenceTexture
    | PressureTexture
    | UseText
    | Dt
    | OutputTexture

  /** A uniform value: `uniform1i` (a texture unit for samplers), `uniform1f`, `uniform2f`, `uniform3f`. */
  datatype Uniform =
    | I(unit: int)
    | F1(a: real)
    | F2(a: real, b: real)
    | F3(a: real, b: real, c: real)

  /** A render target: an off-screen buffer of `createFBO`, or the default framebuffer. */
  datatype Target = Offscreen(fbo: Fbo) | Screen

  /** The double-buffered fields of the simulation. */
  datatype Field = OutputColor | Velocity | Pressure

  /**
   * One event of a frame: a draw call, with the buffer each sampler of the
   * program reads (resolved through its uniform and the texture units), the
   * target and the other uniforms; or the swap of a double-buffered field.
   */
  datatype Step =
    | Draw(program: Program, samples: map<Name, Fbo>, target: Target, settings: map<Name, Uniform>)
    | Swap(field: Field)

  /** `m` extended with the buffer that sampler `n` of `p` reads, if its uniform names a bound unit. */
  function Sample(p: Program, n: Name, uniforms: map<(Program, Name), Uniform>, units: map<int, Fbo>,
                  m: map<Name, Fbo>): map<Name, Fbo>
  {
    if (p, n) in uniforms && uniforms[(p, n)].I? && uniforms[(p, n)].unit in units
    then m[n := units[uniforms[(p, n)].unit]]
    else m
  }

  /**
   * The buffer each sampler of `p` reads: the buffer bound to the unit its
   * uniform names. The samplers of each program are those the driver sets.
   */
  function Reads(p: Program, uniforms: map<(Program, Name), Uniform>, units: map<int, Fbo>): map<Name, Fbo>
  {
    match p
    case SplatProgram => Sample(p, InputTexture, uniforms, units, map[])
    case DivergenceProgram => Sample(p, VelocityTexture, uniforms, units, map[])
    case PressureProgram =>
      Sample(p, PressureTexture, uniforms, units, Sample(p, DivergenceTexture, uniforms, units, map[]))
    case GradientSubtractProgram =>
      Sample(p, VelocityTexture, uniforms, units, Sample(p, PressureTexture, uniforms, units, map[]))
    case AdvectionProgram =>
      Sample(p, InputTexture, uniforms, units, Sample(p, VelocityTexture, uniforms, units, map[]))
    case OutputShaderProgram => Sample(p, OutputTexture, uniforms, units, map[])
  }

  /** `m` extended with the value of uniform `n` of `p`, if it has been set. */
  function Setting(p: Program, n: Name, uniforms: map<(Program, Name), Uniform>, m: map<Name, Uniform>): map<Name, Uniform>
  {
    if (p, n) in uniforms then m[n := uniforms[(p, n)]] else m
  }

  /** The values of the non-sampler uniforms of `p`, those the driver sets. */
  function Values(p: Program, uniforms: map<(Program, Name), Uniform>): map<Name, Uniform>
  {
    match p
    case SplatProgram =>
      Setting(p, PointSize, uniforms, Setting(p, PointValue, uniforms,
        Setting(p, Point, uniforms, Setting(p, Ratio, uniforms, map[]))))
    case DivergenceProgram => Setting(p, Texel, uniforms, map[])
    case PressureProgram => Setting(p, Texel, uniforms, map[])
    case GradientSubtractProgram => Setting(p, Texel, uniforms, map[])
    case AdvectionProgram =>
      Setting(p, Dt, uniforms, Setting(p, Texel, uniforms, Setting(p, UseText, uniforms, map[])))
    case OutputShaderProgram => map[]
  }

  /**
   * An off-screen render target of `createFBO`: a texture with its
   * framebuffer, identified by the order in which it was created, and its size.
   */
  datatype Fbo = Fbo(handle: nat, width: int, height: int) {
    /** `attach(id)`: make unit `id` active, bind this buffer's texture to it, return `id`. */
    method Attach(gl: Context, id: int) returns (unit: int)
      modifies gl`active, gl`units
      ensures unit == id
      ensures gl.active == id && gl.units == old(gl.units)[id := this]
    {
      gl.active := id;
      gl.units := gl.units[id := this];
      unit := id;
    }
  }

  /** The WebGL context `gl`. */
  class Context {
    var program: Option<Program>
    /** Uniform values are state of each program and persist across draws. */
    var uniforms: map<(Program, Name), Uniform>
    var active: int
    /** Texture unit -> buffer whose texture is bound to it. */
    var units: map<int, Fbo>
    /** The number of buffers created so far; the next one gets this handle. */
    var created: nat
    /** What the GPU was asked to do, as resolved draw calls, with the driver's swaps between them. */
    ghost var trace: seq<Step>

    constructor ()
      ensures program == None && uniforms == map[] && active == 0 && units == map[] && created == 0 && trace == []
    {
      program := None;
      created := 0;
      uniforms := map[];
      active := 0;
      units := map[];
      trace := [];
    }

    method UseProgram(p: Program)
      modifies this`program
      ensures program == Some(p)
    {
      program := Some(p);
    }

    /** `gl.uniform*` on a uniform of the program in use. */
    method SetUniform(n: Name, u: Uniform)
      requires program.Some?
      modifies this`uniforms
      ensures uniforms == old(uniforms)[(program.value, n) := u]
    {
      uniforms := uniforms[(program.value, n) := u];
    }

    /** `gl.uniform1i(n, b.attach(id))`: bind `b` to unit `id` and point sampler `n` of the program in use at it. */
    method BindSampler(n: Name, b: Fbo, id: int)
      requires program.Some?
      modifies this`active, this`units, this`uniforms
      ensures active == id && units == old(units)[id := b]
      ensures uniforms == old(uniforms)[(program.value, n) := I(id)]
    {
      var unit := b.Attach(this, id);
      SetUniform(n, I(unit));
    }

    /**
     * `createFBO(w, h)`: a new buffer of size w x h, distinct from every
     * buffer created before. Creating its texture binds it to the active
     * texture unit.
     */
    method CreateFbo(w: int, h: int) returns (f: Fbo)
      modifies this`units, this`created
      ensures f == Fbo(old(created), w, h) && created == old(created) + 1
      ensures units == old(units)[active := f]
    {
      f := Fbo(created, w, h);
      created := created + 1;
      units := units[active := f];
    }

    /** `blit(target)`: draw the program in use into `target`. */
    method Blit(target: Target)
      requires program.Some?
      modifies this`trace
      ensures trace == old(trace) + [Draw(program.value, Reads(program.value, uniforms, units), target, Values(program.value, uniforms))]
    {
      trace := trace + [Draw(program.value, Reads(program.value, uniforms, units), target, Values(program.value, uniforms))];
    }
  }
}
