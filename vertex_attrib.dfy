/** Vertex-attribute formats: the base types a vertex attribute's components can have, their byte
    sizes, the component count (length) of an attribute, and the map from C++ component types to
    base types. The base-type codes and sizes are those of Table 2.2 in section 2.2 of the OpenGL 4.6
    Core Profile specification. */
module VertexAttrib {
  import opened Results
  import opened GlTypes

  /** `VertexAttributeBaseType`: the thirteen base types an attribute's components can have. */
  datatype BaseType =
    | Byte | UByte | Short | UShort | Int | UInt | Fixed | Float | HalfFloat | Double
    | Int2_10_10_10Rev | UInt2_10_10_10Rev | UInt10F_11F_11FRev

  /** The `GLenum` value of each base type. */
  function BaseTypeCode(t: BaseType): (code: GLenum)
    ensures 0x1400 <= code <= 0x140C || code in {0x8D9F, 0x8368, 0x8C3B}
  {
    match t
    case Byte => 0x1400
    case UByte => 0x1401
    case Short => 0x1402
    case UShort => 0x1403
    case Int => 0x1404
    case UInt => 0x1405
    case Fixed => 0x140C
    case Float => 0x1406
    case HalfFloat => 0x140B
    case Double => 0x140A
    case Int2_10_10_10Rev => 0x8D9F
    case UInt2_10_10_10Rev => 0x8368
    case UInt10F_11F_11FRev => 0x8C3B
  }

  /** The base type a `GLenum` value names, if any: a scoped enum over `GLenum` can hold any value,
      so a value outside the thirteen is possible. */
  function BaseTypeOf(code: GLenum): (r: Option<BaseType>)
    ensures r.Some? ==> BaseTypeCode(r.value) == code
  {
    if code == 0x1400 then Some(Byte)
    else if code == 0x1401 then Some(UByte)
    else if code == 0x1402 then Some(Short)
    else if code == 0x1403 then Some(UShort)
    else if code == 0x1404 then Some(Int)
    else if code == 0x1405 then Some(UInt)
    else if code == 0x140C then Some(Fixed)
    else if code == 0x1406 then Some(Float)
    else if code == 0x140B then Some(HalfFloat)
    else if code == 0x140A then Some(Double)
    else if code == 0x8D9F then Some(Int2_10_10_10Rev)
    else if code == 0x8368 then Some(UInt2_10_10_10Rev)
    else if code == 0x8C3B then Some(UInt10F_11F_11FRev)
    else None
  }

  /** Every base type is found again from its code, so no two base types share a code. */
  lemma BaseTypeCodeRoundTrip(t: BaseType)
    ensures BaseTypeOf(BaseTypeCode(t)) == Some(t)
  {
    match t case _ =>
  }

  /** The C++ component types that have a base type: `GLbyte` to `GLdouble`. */
  datatype ScalarType = GLbyte | GLubyte | GLshort | GLushort | GLint | GLuint | GLfloat | GLdouble

  /** `sizeof` of each scalar type: the bit widths of the GL type table, in bytes. */
  function ScalarSize(t: ScalarType): (size: nat)
    ensures size in {1, 2, 4, 8}
  {
    match t
    case GLbyte => 1
    case GLubyte => 1
    case GLshort => 2
    case GLushort => 2
    case GLint => 4
    case GLuint => 4
    case GLfloat => 4
    case GLdouble => 8
  }

  /** `TypeToEnum<T>::value`: the base type of the same name, never `GLfixed`, a half float or a packed
      format, and of the scalar's size. */
  function TypeToEnum(t: ScalarType): (b: BaseType)
    ensures b !in {Fixed, HalfFloat, Int2_10_10_10Rev, UInt2_10_10_10Rev, UInt10F_11F_11FRev}
    ensures BaseTypeSize(b) == ScalarSize(t)
  {
    match t
    case GLbyte => Byte
    case GLubyte => UByte
    case GLshort => Short
    case GLushort => UShort
    case GLint => Int
    case GLuint => UInt
    case GLfloat => Float
    case GLdouble => Double
  }

  /** `EnumValueTo<E>::Type`: defined only for the eight base types that are plain scalars. */
  function EnumValueTo(b: BaseType): (r: Option<ScalarType>)
    ensures r.Some? ==> TypeToEnum(r.value) == b
    ensures r.None? <==> b in {Fixed, HalfFloat, Int2_10_10_10Rev, UInt2_10_10_10Rev, UInt10F_11F_11FRev}
  {
    match b
    case Byte => Some(GLbyte)
    case UByte => Some(GLubyte)
    case Short => Some(GLshort)
    case UShort => Some(GLushort)
    case Int => Some(GLint)
    case UInt => Some(GLuint)
    case Float => Some(GLfloat)
    case Double => Some(GLdouble)
    case _ => None
  }

  /** `TypeToEnum` and `EnumValueTo` undo each other on the scalar types. */
  lemma ScalarEnumRoundTrip(t: ScalarType)
    ensures EnumValueTo(TypeToEnum(t)) == Some(t)
  {
    match t case _ =>
  }

  /** The size of a base type: `sizeof` of its scalar type for the eight scalars, two bytes for a
      half float, and four for `GLfixed` and the three packed formats. */
  function BaseTypeSize(b: BaseType): (size: nat)
    ensures size in {1, 2, 4, 8}
    ensures size == 1 <==> b in {Byte, UByte}
    ensures size == 2 <==> b in {Short, UShort, HalfFloat}
    ensures size == 8 <==> b == Double
  {
    match b
    case Byte => ScalarSize(GLbyte)
    case UByte => ScalarSize(GLubyte)
    case Short => ScalarSize(GLshort)
    case UShort => ScalarSize(GLushort)
    case Int => ScalarSize(GLint)
    case UInt => ScalarSize(GLuint)
    case Fixed => 4
    case Float => ScalarSize(GLfloat)
    case HalfFloat => 2
    case Double => ScalarSize(GLdouble)
    case Int2_10_10_10Rev => 4
    case UInt2_10_10_10Rev => 4
    case UInt10F_11F_11FRev => 4
  }

  const InvalidEnumValue: string := "invalid enum value"

  /** `getSizeOfBaseType`: the byte size of the base type a code names; any other code throws. */
  function SizeOfBaseType(code: GLenum): (r: Result<nat, string>)
    ensures r.Ok? <==> BaseTypeOf(code).Some?
    ensures r.Err? ==> r.error == InvalidEnumValue
    ensures (code == 0x1400 || code == 0x1401) ==> r == Ok(1)
    ensures (code == 0x1402 || code == 0x1403 || code == 0x140B) ==> r == Ok(2)
    ensures (code == 0x1404 || code == 0x1405 || code == 0x1406 || code == 0x140C) ==> r == Ok(4)
    ensures (code == 0x8D9F || code == 0x8368 || code == 0x8C3B) ==> r == Ok(4)
    ensures code == 0x140A ==> r == Ok(8)
  {
    match BaseTypeOf(code)
    case Some(b) => Ok(BaseTypeSize(b))
    case None => Err(InvalidEnumValue)
  }

  /** The size of a scalar's base type is the size of the scalar. */
  lemma SizeOfScalar(t: ScalarType)
    ensures SizeOfBaseType(BaseTypeCode(TypeToEnum(t))) == Ok(ScalarSize(t))
  {
    BaseTypeCodeRoundTrip(TypeToEnum(t));
    match t case _ =>
  }

  /** `VertexAttributeLength`: one to four components. */
  datatype Length = L1 | L2 | L3 | L4

  /** `toLengthValue`: the number of components. */
  function LengthValue(l: Length): (n: GLenum)
    ensures 1 <= n <= 4
  {
    match l
    case L1 => 1
    case L2 => 2
    case L3 => 3
    case L4 => 4
  }

  const InvalidLength: string := "invalid vertex attribute length; must be 1, 2, 3 or 4"

  /** `toLengthEnum`: the length with `n` components; a count outside 1..4 throws. */
  function ToLengthEnum(n: GLenum): (r: Result<Length, string>)
    ensures r.Ok? <==> 1 <= n <= 4
    ensures r.Ok? ==> LengthValue(r.value) == n
    ensures r.Err? ==> r.error == InvalidLength
  {
    if n < 1 || n > 4 then Err(InvalidLength)
    else if n == 1 then Ok(L1)
    else if n == 2 then Ok(L2)
    else if n == 3 then Ok(L3)
    else Ok(L4)
  }

  /** Every length converts to its count and back. */
  lemma LengthRoundTrip(l: Length)
    ensures ToLengthEnum(LengthValue(l)) == Ok(l)
  {
    match l case _ =>
  }

  /** The type of an attribute's data: one scalar, or a `glm::vec<L, T>` of `L` scalars. */
  datatype AttribType = Scalar(scalar: ScalarType) | Vector(size: GLint, component: ScalarType)

  /** The format of an attribute: its length and base type. */
  datatype Format = Format(length: Length, baseType: BaseType)

  /** `FormatEnum<T>`: a scalar has length 1; a vector has the length `toLengthEnum` gives its size,
      which rejects a size outside 1..4 (a negative size converts to a large unsigned count). */
  function FormatEnum(a: AttribType): (r: Result<Format, string>)
    ensures a.Scalar? ==> r == Ok(Format(L1, TypeToEnum(a.scalar)))
    ensures a.Vector? ==> (r.Ok? <==> 1 <= a.size <= 4)
    ensures a.Vector? && r.Ok? ==>
      LengthValue(r.value.length) == a.size && r.value.baseType == TypeToEnum(a.component)
    ensures r.Err? ==> r.error == InvalidLength
  {
    match a
    case Scalar(t) => Ok(Format(L1, TypeToEnum(t)))
    case Vector(size, t) =>
      match ToLengthEnum(ToGLenum(size))
      case Ok(l) => Ok(Format(l, TypeToEnum(t)))
      case Err(e) => Err(e)
  }
}
