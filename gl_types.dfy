/** The fixed-width integer types of the GL headers, as bounded mathematical integers. */
module GlTypes {

  const UINT32_MODULUS: int := 0x1_0000_0000

  /** `GLuint`: a 32-bit unsigned integer, the type of every object name. */
  type GLuint = x: int | 0 <= x < 0x1_0000_0000

  /** `GLenum`: an `unsigned int`. */
  type GLenum = GLuint

  /** `GLint` and C++ `int`: a 32-bit two's-complement integer. */
  type GLint = x: int | -0x8000_0000 <= x < 0x8000_0000

  /** `GLsizei`: a 32-bit signed integer. */
  type GLsizei = GLint

  /** The implicit conversion of a signed `int` to an `unsigned int` parameter: the unique
      value of the unsigned range that is congruent to `x` modulo 2^32. */
  function ToGLenum(x: GLint): (r: GLenum)
    ensures (r - x) % UINT32_MODULUS == 0
    ensures 0 <= x ==> r == x
  {
    if x < 0 then x + UINT32_MODULUS else x
  }

  /** `x++` on an `unsigned int`: one more, except that the largest value wraps around to 0. */
  function Increment(x: GLuint): (r: GLuint)
    ensures x + 1 < UINT32_MODULUS ==> r == x + 1
    ensures x + 1 == UINT32_MODULUS ==> r == 0
  {
    (x + 1) % UINT32_MODULUS
  }
}
