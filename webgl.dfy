/**
 * The WebGL texture parameters the visualizers choose: only the parameter values are
 * modelled, not the GPU objects they are set on.
 */
module WebGl {
  import opened JsNumbers

  /** The `TEXTURE_MIN_FILTER` / `TEXTURE_MAG_FILTER` values in use. */
  datatype Filter = Nearest | Linear | LinearMipmapNearest | LinearMipmapLinear

  /** The `TEXTURE_WRAP_S` / `TEXTURE_WRAP_T` values in use. */
  datatype Wrap = Repeat | ClampToEdge

  /** The state of a texture after the parameter calls: whether mipmaps were generated, the filters and the wraps. */
  datatype TexParams = TexParams(mipmap: bool, minFilter: Filter, magFilter: Filter, wrapS: Wrap, wrapT: Wrap)

  /** A side length passes the helper `isPowerOf2` exactly when it is 0 or a power of two. */
  predicate SidePasses(side: Uint32)
  {
    side == 0 || PowerOfTwo(side)
  }

  /** `SidePasses` agrees with the bit test `(v & (v - 1)) === 0` on every 32-bit side. */
  lemma SideBitTest(side: Uint32)
    ensures SidePasses(side) <==> IsPowerOf2(side)
  {
    IsPowerOf2Iff(side);
  }
}
