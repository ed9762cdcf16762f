/**
 * Field storage: ping-pong pairs of render targets (`createDoubleFBO`) and
 * the set of fields the simulation runs on (`initFBOs`).
 */
module FieldStorage {
  import opened WebGl

  /** The texel size `1 / n` of a field n texels wide (or high). */
  function TexelSize(n: int): (t: real)
    requires n > 0
    ensures t > 0.0 && t * (n as real) == 1.0
  {
    1.0 / (n as real)
  }

  /** Which buffer of a double buffer is currently read and which is written. */
  datatype Pair = Pair(read: Fbo, write: Fbo) {
    function Swapped(): Pair
    {
      Pair(write, read)
    }
  }

  /** The assignment after `n` swaps. */
  function SwapN(p: Pair, n: nat): Pair
  {
    if n == 0 then p else SwapN(p, n - 1).Swapped()
  }

  /** Only the parity of the number of swaps matters: two swaps restore the original assignment. */
  lemma {:induction false} SwapNParity(p: Pair, n: nat)
    ensures SwapN(p, n) == if n % 2 == 0 then p else p.Swapped()
  {
    if n > 0 {
      SwapNParity(p, n - 1);
    }
  }

  /** Every buffer in `bs` was created after the first `lo` buffers and among the first `hi`. */
  predicate CreatedBetween(bs: seq<Fbo>, lo: nat, hi: nat)
  {
    forall i :: 0 <= i < |bs| ==> lo <= bs[i].handle < hi
  }

  /** No buffer occurs twice in `bs`. */
  predicate AllDistinct(bs: seq<Fbo>)
  {
    forall i, j :: 0 <= i < j < |bs| ==> bs[i] != bs[j]
  }

  /** `createDoubleFBO(w, h)`: two buffers of one size, one read, one written. */
  class DoubleFbo {
    const width: int
    const height: int
    const texelSizeX: real
    const texelSizeY: real
    var fbo1: Fbo
    var fbo2: Fbo

    ghost predicate Valid()
      reads this
    {
      width > 0 && height > 0 &&
      texelSizeX == TexelSize(width) && texelSizeY == TexelSize(height) &&
      fbo1 != fbo2 &&
      fbo1.width == width && fbo1.height == height &&
      fbo2.width == width && fbo2.height == height
    }

    constructor (gl: Context, w: int, h: int)
      requires w > 0 && h > 0
      modifies gl`units, gl`created
      ensures Valid() && width == w && height == h
      ensures texelSizeX * (w as real) == 1.0 && texelSizeY * (h as real) == 1.0
      ensures fbo1.handle == old(gl.created) && fbo2.handle == old(gl.created) + 1 && gl.created == old(gl.created) + 2
      ensures gl.units == old(gl.units)[gl.active := fbo2]
    {
      var f1 := gl.CreateFbo(w, h);
      var f2 := gl.CreateFbo(w, h);
      width, height := w, h;
      texelSizeX, texelSizeY := TexelSize(w), TexelSize(h);
      fbo1, fbo2 := f1, f2;
    }

    /** `read()`: the buffer passes sample; never the one they write. */
    function Read(): (b: Fbo)
      reads this
      requires Valid()
      ensures b != Write() && b.width == width && b.height == height
    {
      fbo1
    }

    /** `write()`: the buffer passes target; never the one they sample. */
    function Write(): (b: Fbo)
      reads this
      requires Valid()
      ensures b != fbo1 && b.width == width && b.height == height
    {
      fbo2
    }

    function View(): Pair
      reads this
    {
      Pair(fbo1, fbo2)
    }

    /** `swap()`: exchange the two buffers in place; no data is copied. */
    method Swap()
      modifies this
      ensures View() == old(View()).Swapped()
      ensures Valid() <==> old(Valid())
    {
      fbo1, fbo2 := fbo2, fbo1;
    }
  }

  /**
   * `initFBOs` for a field size of w x h: the dye (outputColor), velocity
   * and pressure double buffers and the single divergence buffer, all new,
   * all distinct, all of size w x h. Each texture created is bound to the
   * active unit, so the last one created stays bound there.
   */
  method InitFbos(gl: Context, w: int, h: int)
    returns (outputColor: DoubleFbo, velocity: DoubleFbo, divergence: Fbo, pressure: DoubleFbo)
    requires w > 0 && h > 0
    modifies gl`units, gl`created
    ensures fresh(outputColor) && fresh(velocity) && fresh(pressure)
    ensures outputColor != velocity && outputColor != pressure && velocity != pressure
    ensures outputColor.Valid() && velocity.Valid() && pressure.Valid()
    ensures outputColor.width == velocity.width == pressure.width == divergence.width == w
    ensures outputColor.height == velocity.height == pressure.height == divergence.height == h
    ensures var bs := [outputColor.fbo1, outputColor.fbo2, velocity.fbo1, velocity.fbo2,
                       divergence, pressure.fbo1, pressure.fbo2];
            AllDistinct(bs) && CreatedBetween(bs, old(gl.created), gl.created)
    ensures gl.units == old(gl.units)[gl.active := pressure.fbo2]
  {
    outputColor := new DoubleFbo(gl, w, h);
    velocity := new DoubleFbo(gl, w, h);
    divergence := gl.CreateFbo(w, h);
    pressure := new DoubleFbo(gl, w, h);
  }
}
