# Smoke: a model of the WebGL fluid driver

`main.js` runs a small smoke/fluid simulation on the GPU. The simulation state
lives in render targets: dye (`outputColor`), `velocity` and `pressure` are
double buffers ("ping-pong" pairs, `createDoubleFBO`), and `divergence` is a
single buffer. Mouse and touch motion updates a global `pointer`. Every
animation frame, `render` does the following:

- If the pointer moved, it splats the displacement into velocity and red into the dye.
- It takes the divergence of velocity.
- It runs ten Jacobi sweeps for pressure.
- It subtracts the pressure gradient from velocity.
- It advects velocity by itself, then advects the dye by velocity.
- It draws the dye to the screen.

Every pass into a double buffer reads its read side, writes its write side,
and is followed by a `swap`.

This project models the CPU side of that driver: which program each pass
uses, which buffer each sampler reads (through the sampler uniform and the
texture unit it names), which buffer each pass writes, the other uniform
values, and the swaps. It then proves what the driver promises about them.

- `webgl.dfy` (module `WebGl`): the part of the WebGL context the driver relies on.
  - The program in use and each program's uniform values (uniforms persist per program, as in GL).
  - The texture units and buffer creation (`createFBO`, `attach`).
  - `blit`, recorded in a ghost trace as a resolved draw: the buffer each sampler reads, the target, and the other uniforms.
- `field_storage.dfy` (module `FieldStorage`): the double buffer (`createDoubleFBO`: `read`, `write`, `swap`, texel sizes) and `initFBOs`.
- `pointer.dfy` (module `Input`): the pointer record and `updateMousePosition`.
- `frame.dfy` (module `Frame`): a pure specification of one frame.
  - `Steps(s)` is the sequence of draws and swaps that `render` issues from state `s`.
  - `After(s)` is the state it leaves behind.
  - The lemmas cover swap counts and parity, splat-iff-moved, the absence of read/write aliasing, the swap discipline, the inputs of the projection, and which velocity transports the dye.
- `driver.dfy` (module `Driver`): the passes of `render` as imperative methods, and the class `Smoke` holding the globals.
  - `Smoke.Render` is proved to append exactly `Steps(old state)` to the trace.
  - It is also proved to leave the state `After(old state)`.

## Model

| member | source | states |
|---|---|---|
| WebGl.Fbo.Attach | main.js:85 | `attach(id)` makes unit `id` active, binds this buffer to it, leaves every other unit as it was, and returns `id` |
| WebGl.Context.constructor | main.js:9 | a fresh context has no program, no uniforms, no bound units, no buffers and an empty trace |
| WebGl.Context.UseProgram | main.js:139 | `useProgram` makes `p` the program in use |
| WebGl.Context.SetUniform | main.js:141-144 | `uniform*` changes only the named uniform of the program in use; other programs keep their values |
| WebGl.Context.BindSampler | main.js:140 | `uniform1i(n, b.attach(id))` binds `b` to unit `id` and points sampler `n` of the program in use at that unit |
| WebGl.Context.CreateFbo | main.js:74-86 | `createFBO(w, h)` yields a buffer of size w x h that differs from every buffer created before, and leaves it bound to the active unit (line 76) |
| WebGl.Context.Blit | main.js:124-133 | `blit(target)` appends one draw of the program in use into `target`, sampling the buffers its sampler uniforms name through the texture units |
| FieldStorage.TexelSize | main.js:93 | the texel size of a field n texels across is positive and multiplies with n to 1 |
| FieldStorage.SwapNParity | main.js:96 | after n swaps a pair is as it began when n is even and exchanged when n is odd, so two swaps restore it |
| FieldStorage.DoubleFbo.constructor | main.js:88-93 | `createDoubleFBO(w, h)` makes two new, distinct buffers of size w x h; the texel sizes times w and h are 1 |
| FieldStorage.DoubleFbo.Read | main.js:94 | `read()` is a buffer of the pair's size and never the one `write()` returns |
| FieldStorage.DoubleFbo.Write | main.js:95 | `write()` is a buffer of the pair's size and never the one `read()` returns |
| FieldStorage.DoubleFbo.Swap | main.js:96 | `swap()` exchanges read and write in place and keeps the pair well formed |
| FieldStorage.InitFbos | main.js:65-72 | `initFBOs` makes three new double buffers and a divergence buffer, all of size w x h; the seven buffers are pairwise distinct and newer than every earlier buffer |
| Input.Pointer.constructor | main.js:3-5 | the pointer starts at (0, 0) with no displacement and no pending motion |
| Input.Pointer.Update | main.js:116-122 | `updateMousePosition(x, y)` marks motion pending, records five times the displacement from the previous position, moves to (x, y), and changes nothing else |
| Input.LastEventsCount | main.js:116-122 | after two events, the pointer state depends only on those two positions, not on its earlier state; the displacement is five times their difference |
| Frame.Sweeps | main.js:162-166 | ten sweeps issue twenty steps, a draw and a swap per sweep |
| Frame.Passes | main.js:154-195 | the passes every frame runs are 28 steps |
| Frame.Steps | main.js:135-198 | a frame issues 32 steps after motion and 28 without |
| Frame.SweepsSwapCount | main.js:162-166 | n sweeps swap pressure n times and nothing else |
| Frame.SweepsAt | main.js:162-166 | the even steps of the sweeps are the sweeps over the successively swapped pressure pair; the odd steps are swaps of pressure |
| Frame.SweepsChain | main.js:162-166 | each sweep samples the pressure buffer the sweep before it wrote; the last sweep writes what the pair then reads |
| Frame.SwapCounts | main.js:137-189 | a frame swaps velocity 3 times after motion and 2 without, the dye 2 and 1 times, pressure 10 times |
| Frame.StepsSwapCount | main.js:137-189 | a frame's swaps of a field are those of the splat, of the sweeps and of the last passes together |
| Frame.SplatSwapCount | main.js:146-151 | the splat swaps velocity and the dye once each when the pointer moved, and nothing otherwise |
| Frame.TailSwapCount | main.js:168-189 | projection and advection swap velocity twice and the dye once |
| Frame.FrameParity | main.js:137-189 | a frame consumes the motion; it leaves velocity swapped exactly when it splatted, the dye swapped exactly when it did not, and pressure as it found it (ten swaps) |
| Frame.AfterFollowsSwaps | main.js:137-189 | the pairs a frame leaves are its starting pairs swapped as often as the frame's steps swap them |
| Frame.SplatIffMoved | main.js:137-152 | a frame contains a splat draw if and only if the pointer moved since the last frame |
| Frame.MotionSplat | main.js:116-151 | after a motion event at (x, y), the next frame opens with a velocity splat of value (5 dx, -5 dy, 1) at (x / width, 1 - y / height), then a dye splat of (1, 0, 0) at the same point and radius |
| Frame.NoAliasing | main.js:135-195 | no pass writes a buffer that one of its samplers reads, whenever the seven buffers are distinct |
| Frame.PassNoAliasing | main.js:137-189 | the splat, divergence, projection and advection passes do not sample their target |
| Frame.SweepNoAliasing | main.js:162-166 | a sweep writes neither the pressure buffer it reads nor the divergence |
| Frame.SwapDiscipline | main.js:145-189 | every pass into a double buffer is followed at once by a swap of that field, and every swap directly follows such a pass; the frame starts with a draw and ends drawing to the screen |
| Frame.SwapDisciplineAt | main.js:145-189 | the swap discipline at one position of the frame |
| Frame.SweepDisciplineAt | main.js:162-166 | the swap discipline inside the sweeps and where they end |
| Frame.TailDisciplineAt | main.js:168-195 | the swap discipline in projection, advection and presentation |
| Frame.ProjectionInputs | main.js:154-173 | divergence reads the velocity the splat wrote (or velocity's read side without motion); each sweep reads that divergence and the previous sweep's output; the gradient pass reads the last sweep's output and the same velocity that divergence read |
| Frame.DyeTransport | main.js:175-195 | the dye is advected by the velocity the gradient pass wrote, which unit 1 still holds from line 178, and not by the self-advected velocity; the advected dye is what is drawn to the screen |
| Frame.DisjointFacts | main.js:65-72 | the distinctness of the seven buffers, pair by pair |
| Frame.SwapNBuffers | main.js:96 | swapping never brings in another buffer |
| Frame.StepsAt | main.js:135-198 | position i of a frame falls in the splat, the divergence pass, the sweeps, or the last seven steps |
| Driver.BlitAndSwap | main.js:145-146 | `blit(b.write()); b.swap()` records a draw into the old write side and then the swap, and exchanges the pair |
| Driver.Splat | main.js:137-152 | the splat consumes the motion and leaves the pointer otherwise unchanged; it appends the velocity splat, a swap of velocity, the dye splat and a swap of the dye, and swaps both pairs |
| Driver.SplatVelocity | main.js:139-146 | the velocity splat samples velocity's read side, writes its write side, and carries the pointer's ratio, centre, value (dx, -dy, 1) and radius 0.01 |
| Driver.SplatUniformsSet | main.js:140-144 | setting the splat uniforms in source order gives exactly the splat settings |
| Driver.SplatValueUpdate | main.js:148-149 | rebinding the sampler and the value keeps ratio, centre and radius from the velocity splat |
| Driver.SplatColor | main.js:148-151 | the dye splat samples the dye's read side, writes its write side, and has value (1, 0, 0) with the velocity splat's other settings |
| Driver.ComputeDivergence | main.js:154-157 | the divergence pass reads velocity's read side and writes the divergence buffer, with velocity's texel size |
| Driver.SolvePressure | main.js:159-166 | the loop appends the ten sweeps of `Frame.Sweeps` and leaves pressure swapped ten times |
| Driver.SubtractGradient | main.js:168-173 | the gradient pass reads pressure's and velocity's read sides, writes velocity's write side, and swaps velocity |
| Driver.AdvectVelocity | main.js:175-182 | velocity advects itself with dt = 1/60 and is swapped; unit 1 is left holding the buffer it sampled, now velocity's write side |
| Driver.AdvectColor | main.js:184-189 | the dye advection samples the buffer unit 1 holds as velocity and the dye's read side, and writes the dye's write side |
| Driver.Present | main.js:191-195 | the output pass samples the dye's read side and draws to the screen |
| Driver.Simulate | main.js:154-195 | the unconditional passes append the 28 steps of `Frame.Passes`; velocity ends as it began, the dye swapped, pressure swapped ten times |
| Driver.DisjointUnderSwaps | main.js:96 | swaps keep the seven buffers pairwise distinct |
| Driver.Smoke.constructor | main.js:30-32 | start-up builds the fields, sizes the canvas to the window and rebuilds the fields at half the window size, as new objects over buffers created by the context; the pointer is at rest and nothing has been drawn |
| Driver.Smoke.Resize | main.js:100-104 | `resizeCanvas` sets the canvas to the window size and replaces every field with new buffers at half of it, rounded down; the pointer is untouched |
| Driver.Smoke.Render | main.js:135-198 | one frame appends exactly `Steps` of the state it starts from and leaves the state `After` it, with all buffers still distinct |

## Left out

- Shader sources, shader compilation and program linking (lines 12-21, 36-63) are not modelled. A program is a name, and its uniforms are the ones the driver sets. The fluid mathematics (divergence, Jacobi iteration, gradient, advection, the splat kernel) runs on the GPU. It is not part of this model, so no numerical property of the fields is stated.
- The vertex buffers, attribute setup, viewport calls, texture parameters and texture formats (`gl.RG`, `gl.RGB`, `gl.FLOAT`, the `OES_texture_float` extension) are left out. A buffer is a creation handle with a width and a height.
- Pixel contents are not modelled. A resize gives new buffers, and the model says nothing about their contents.
- DOM events, `setupEvents`, the `resize` listener and `requestAnimationFrame` are not modelled. Events become calls of `Pointer.Update`, `Smoke.Resize` and `Smoke.Render`, and the window size becomes a parameter.
- Numbers are exact reals, not IEEE doubles. `Math.floor(innerWidth * 0.5)` is integer division by 2.
- Smoke.Resize: requires a window of at least 2 x 2. Below that the field size is 0: the source then creates empty textures and divides by zero for the texel size, which IEEE arithmetic turns into Infinity. The model does not represent that case, and the source has no guard against it.
- Smoke.constructor: requires a window of at least 2 x 2, for the same reason. The canvas's default size of 300 x 150 before the first resize is written in.
- Unset uniforms (GL's zero default) are absent from the uniform map. Every sampler a pass reads is set earlier in the same frame, so nothing the model states depends on them.
- Driver.SplatColor: the splat is split into two methods for the velocity and the dye. The dye half takes the pointer state and canvas size only as ghost parameters, because the source reuses the uniforms the velocity half set.
- The presentation pass is modelled only as a draw to the screen that samples the dye's read side.
- `main.js` does not reject a zero-sized domain, and the model follows the code (see Smoke.Resize).
