/** GLSL declarations as values (types, layout, storage and memory qualifiers, variable and interface
    block definitions) and the exact text the printer writes for each, as pure functions. The
    imperative printer in module GlslPrinter is proved to write exactly this text. Keywords follow
    sections 4.3 (storage qualifiers), 4.3.9 (interface blocks), 4.4 (layout qualifiers) and 4.10
    (memory qualifiers) of the OpenGL Shading Language 4.60 specification. */
module GlslSyntax {
  import opened Results
  import opened GlTypes
  import opened Text

  // ---------------------------------------------------------------- value types

  /** `enum class Type`: the sixteen GLSL types the printer knows. */
  datatype Type =
    | Float | Vec2 | Vec3 | Vec4
    | Int | IVec2 | IVec3 | IVec4
    | UInt | UVec2 | UVec3 | UVec4
    | Mat2 | Mat3 | Mat4
    | Sampler2D

  /** The printer's table of type keywords, indexed by the enumerator's ordinal. */
  const TypeNames: seq<string> := [
    "float", "vec2", "vec3", "vec4",
    "int", "ivec2", "ivec3", "ivec4",
    "uint", "uvec2", "uvec3", "uvec4",
    "mat2", "mat3", "mat4",
    "sampler2D"
  ]

  /** `static_cast<unsigned int>(type)`: declaration order, always inside the keyword table. */
  function TypeOrdinal(t: Type): (n: nat)
    ensures n < |TypeNames|
  {
    match t
    case Float => 0 case Vec2 => 1 case Vec3 => 2 case Vec4 => 3
    case Int => 4 case IVec2 => 5 case IVec3 => 6 case IVec4 => 7
    case UInt => 8 case UVec2 => 9 case UVec3 => 10 case UVec4 => 11
    case Mat2 => 12 case Mat3 => 13 case Mat4 => 14
    case Sampler2D => 15
  }

  /** What `out << type` writes: a non-empty keyword of the table. */
  function TypeName(t: Type): (s: string)
  {
    TypeNames[TypeOrdinal(t)]
  }

  /** Reads a type keyword back. */
  function TypeFromName(s: string): Option<Type>
  {
    if s == "float" then Some(Float) else if s == "vec2" then Some(Vec2)
    else if s == "vec3" then Some(Vec3) else if s == "vec4" then Some(Vec4)
    else if s == "int" then Some(Int) else if s == "ivec2" then Some(IVec2)
    else if s == "ivec3" then Some(IVec3) else if s == "ivec4" then Some(IVec4)
    else if s == "uint" then Some(UInt) else if s == "uvec2" then Some(UVec2)
    else if s == "uvec3" then Some(UVec3) else if s == "uvec4" then Some(UVec4)
    else if s == "mat2" then Some(Mat2) else if s == "mat3" then Some(Mat3)
    else if s == "mat4" then Some(Mat4) else if s == "sampler2D" then Some(Sampler2D)
    else None
  }

  /** Every type prints as a distinct keyword, so the printed keyword determines the type. */
  lemma TypeNameRoundTrip(t: Type)
    ensures TypeFromName(TypeName(t)) == Some(t)
  {
  }

  /** `enum class LayoutQualifiers::Memory`: the block memory layouts of section 4.4.5 of the
      OpenGL Shading Language 4.60 specification. */
  datatype Memory = MemoryNone | Packed | Shared | Std140 | Std430

  const MemoryNames: seq<string> := ["", "packed", "shared", "std140", "std430"]

  function MemoryOrdinal(m: Memory): (n: nat)
    ensures n < |MemoryNames|
  {
    match m
    case MemoryNone => 0 case Packed => 1 case Shared => 2 case Std140 => 3 case Std430 => 4
  }

  /** What `out << memory` writes: a keyword of the table, empty exactly for `none`. */
  function MemoryName(m: Memory): (s: string)
    ensures s in MemoryNames && (s == "" <==> m == MemoryNone)
  {
    MemoryNames[MemoryOrdinal(m)]
  }

  function MemoryFromName(s: string): Option<Memory>
  {
    if s == "" then Some(MemoryNone) else if s == "packed" then Some(Packed)
    else if s == "shared" then Some(Shared) else if s == "std140" then Some(Std140)
    else if s == "std430" then Some(Std430) else None
  }

  lemma MemoryNameRoundTrip(m: Memory)
    ensures MemoryFromName(MemoryName(m)) == Some(m)
  {
  }

  /** `enum class StorageQualifier` (section 4.3 of the OpenGL Shading Language 4.60
      specification). */
  datatype StorageQualifier = StorageNone | Const | In | Out | Uniform | Buffer

  const StorageNames: seq<string> := ["", "const", "in", "out", "uniform", "buffer"]

  function StorageOrdinal(q: StorageQualifier): (n: nat)
    ensures n < |StorageNames|
  {
    match q
    case StorageNone => 0 case Const => 1 case In => 2 case Out => 3 case Uniform => 4 case Buffer => 5
  }

  /** What `out << qualifier` writes: a keyword of the table, empty exactly for `none`;
      `constant` writes "const". */
  function StorageName(q: StorageQualifier): (s: string)
    ensures s in StorageNames && (s == "" <==> q == StorageNone)
  {
    StorageNames[StorageOrdinal(q)]
  }

  function StorageFromName(s: string): Option<StorageQualifier>
  {
    if s == "" then Some(StorageNone) else if s == "const" then Some(Const)
    else if s == "in" then Some(In) else if s == "out" then Some(Out)
    else if s == "uniform" then Some(Uniform) else if s == "buffer" then Some(Buffer) else None
  }

  lemma StorageNameRoundTrip(q: StorageQualifier)
    ensures StorageFromName(StorageName(q)) == Some(q)
  {
  }

  /** Every type prints as a non-empty keyword of its table; among memory layouts and storage
      qualifiers exactly `none` prints as nothing. */
  lemma KeywordNames(t: Type, m: Memory, q: StorageQualifier)
    ensures TypeName(t) in TypeNames && |TypeName(t)| > 0
    ensures MemoryName(m) in MemoryNames && (MemoryName(m) == "" <==> m == MemoryNone)
    ensures StorageName(q) in StorageNames && (StorageName(q) == "" <==> q == StorageNone)
  {
    KeywordTables();
  }

  /** The keyword tables hold the keywords of the language, at the enumerators' positions. */
  lemma KeywordTables()
    ensures |TypeNames| == 16 && |MemoryNames| == 5 && |StorageNames| == 6
    ensures TypeName(Vec3) == "vec3" && TypeName(Sampler2D) == "sampler2D" && TypeName(Float) == "float"
    ensures MemoryName(MemoryNone) == "" && MemoryName(Std140) == "std140"
    ensures StorageName(StorageNone) == "" && StorageName(Const) == "const"
  {
  }

  // ---------------------------------------------------------------- layout qualifiers

  /** `struct LayoutQualifiers`: a memory layout and three integer qualifiers, -1 meaning unset. */
  datatype LayoutQualifiers = LayoutQualifiers(memory: Memory, location: GLint, component: GLint, binding: GLint)

  /** A default-constructed `LayoutQualifiers`. */
  const DefaultLayout := LayoutQualifiers(MemoryNone, -1, -1, -1)

  /** `LayoutQualifiers::operator bool`: a memory layout, or a location or binding other than -1.
      The component is not consulted, so an unset layout may still hold a component entry. */
  predicate LayoutIsSet(l: LayoutQualifiers)
  {
    l.memory != MemoryNone || l.location != -1 || l.binding != -1
  }

  /** What `out << LayoutQualifier{name, value}` writes: `name = value`, the value with a minus sign
      exactly when it is negative. */
  function QualifierText(name: string, value: GLint): (t: string)
  {
    name + " = " + IntDecimal(value)
  }

  /** An entry prints as its name and ` = `, then a minus sign exactly when the value is negative. */
  lemma QualifierTextShape(name: string, value: GLint)
    ensures |QualifierText(name, value)| > |name| + 3 && HasPrefix(QualifierText(name, value), name + " = ")
    ensures QualifierText(name, value)[|name| + 3] == '-' <==> value < 0
  {
    var digits := IntDecimal(value);
    assert QualifierText(name, value)[|name| + 3] == digits[0];
  }

  /** The entries of a layout, in the printer's fixed order; an integer entry is present only when
      its value is greater than -1. */
  function LayoutFields(l: LayoutQualifiers): seq<string>
  {
    (if l.memory != MemoryNone then [MemoryName(l.memory)] else [])
    + (if l.location > -1 then [QualifierText("location", l.location)] else [])
    + (if l.component > -1 then [QualifierText("component", l.component)] else [])
    + (if l.binding > -1 then [QualifierText("binding", l.binding)] else [])
  }

  /** What `out << layout` writes: the entries in parentheses after `layout`; `layout()` exactly
      when no entry is present. */
  function LayoutText(l: LayoutQualifiers): (s: string)
  {
    var fields := LayoutFields(l);
    if fields == [] then "layout()"
    else
      JoinHasPrefix(fields, ", ");
      "layout(" + Join(fields, ", ") + ")"
  }

  /** A printed layout is `layout(`, its entries and `)`, and is `layout()` exactly when no entry is
      present. */
  lemma LayoutTextShape(l: LayoutQualifiers)
    ensures |LayoutText(l)| >= 8 && LayoutText(l)[..7] == "layout(" && LayoutText(l)[|LayoutText(l)| - 1] == ')'
    ensures LayoutText(l) == "layout()" <==> LayoutFields(l) == []
  {
    var fields := LayoutFields(l);
    if fields != [] {
      JoinHasPrefix(fields, ", ");
    }
  }

  /** Only the memory layout, the location and the binding make a layout set: an unset layout prints
      at most its component entry, and a set layout prints no entry only when its location or
      binding is below -1. */
  lemma LayoutIsSetFields(l: LayoutQualifiers)
    ensures !LayoutIsSet(l) ==>
      LayoutFields(l) == if l.component > -1 then [QualifierText("component", l.component)] else []
    ensures LayoutIsSet(l) && LayoutFields(l) == [] ==>
      l.memory == MemoryNone && (l.location < -1 || l.binding < -1)
  {
  }

  /** The layout a printed layout stands for: a negative integer entry prints like -1. */
  function Normalized(l: LayoutQualifiers): LayoutQualifiers
  {
    LayoutQualifiers(l.memory,
      if l.location > -1 then l.location else -1,
      if l.component > -1 then l.component else -1,
      if l.binding > -1 then l.binding else -1)
  }

  /** Reads a non-negative 32-bit `int` written in decimal. */
  function ParseGLint(s: string): Option<GLint>
  {
    match ParseDecimal(s)
    case Some(n) => if n < 0x8000_0000 then Some(n) else None
    case None => None
  }

  /** Reads one entry of a layout into the layout read so far. */
  function ParseLayoutEntry(e: string, acc: LayoutQualifiers): Option<LayoutQualifiers>
  {
    match MemoryFromName(e)
    case Some(m) => if m != MemoryNone then Some(acc.(memory := m)) else None
    case None =>
      if HasPrefix(e, "location = ") then
        (match ParseGLint(e[11..]) case Some(n) => Some(acc.(location := n)) case None => None)
      else if HasPrefix(e, "component = ") then
        (match ParseGLint(e[12..]) case Some(n) => Some(acc.(component := n)) case None => None)
      else if HasPrefix(e, "binding = ") then
        (match ParseGLint(e[10..]) case Some(n) => Some(acc.(binding := n)) case None => None)
      else None
  }

  function ParseLayoutEntries(entries: seq<string>, acc: LayoutQualifiers): Option<LayoutQualifiers>
    decreases |entries|
  {
    if entries == [] then Some(acc)
    else match ParseLayoutEntry(entries[0], acc)
      case Some(next) => ParseLayoutEntries(entries[1..], next)
      case None => None
  }

  /** Reads `layout(...)` text back into layout qualifiers. */
  function ParseLayout(s: string): Option<LayoutQualifiers>
  {
    if |s| >= 8 && s[..7] == "layout(" && s[|s| - 1] == ')' then
      var inner := s[7..|s| - 1];
      if inner == "" then Some(DefaultLayout) else ParseLayoutEntries(Split(inner, ", "), DefaultLayout)
    else None
  }

  lemma {:induction false} ParseLayoutEntriesAppend(xs: seq<string>, ys: seq<string>, acc: LayoutQualifiers)
    ensures ParseLayoutEntries(xs + ys, acc) ==
      match ParseLayoutEntries(xs, acc)
      case Some(mid) => ParseLayoutEntries(ys, mid)
      case None => None
    decreases |xs|
  {
    if xs == [] {
      assert xs + ys == ys;
    } else {
      assert (xs + ys)[0] == xs[0];
      assert (xs + ys)[1..] == xs[1..] + ys;
      match ParseLayoutEntry(xs[0], acc)
      case Some(next) => ParseLayoutEntriesAppend(xs[1..], ys, next);
      case None =>
    }
  }

  /** The text of an integer entry `name = n` is the name, ` = ` and the digits of `n`, which read
      back as `n`. */
  lemma QualifierTextParts(name: string, n: GLint)
    requires n > -1
    ensures HasPrefix(QualifierText(name, n), name + " = ")
    ensures ParseGLint(QualifierText(name, n)[|name| + 3..]) == Some(n)
  {
    var e := QualifierText(name, n);
    assert IntDecimal(n) == Decimal(n);
    DecimalRoundTrip(n);
    assert e[|name| + 3..] == Decimal(n);
  }

  /** An entry that is not a memory keyword and starts with one of the integer prefixes. */
  lemma ParseIntegerEntry(e: string, acc: LayoutQualifiers)
    requires MemoryFromName(e) == None
    ensures HasPrefix(e, "location = ") ==>
      ParseLayoutEntries([e], acc) ==
      (match ParseGLint(e[11..]) case Some(n) => Some(acc.(location := n)) case None => None)
    ensures !HasPrefix(e, "location = ") && HasPrefix(e, "component = ") ==>
      ParseLayoutEntries([e], acc) ==
      (match ParseGLint(e[12..]) case Some(n) => Some(acc.(component := n)) case None => None)
    ensures !HasPrefix(e, "location = ") && !HasPrefix(e, "component = ") && HasPrefix(e, "binding = ") ==>
      ParseLayoutEntries([e], acc) ==
      (match ParseGLint(e[10..]) case Some(n) => Some(acc.(binding := n)) case None => None)
  {
    var single: seq<string> := [e];
    assert single[1..] == [];
  }

  /** Text starting with a letter that begins no memory keyword is not a memory keyword. */
  lemma NotAMemoryName(e: string)
    requires |e| > 0 && e[0] in "lcb"
    ensures MemoryFromName(e) == None
  {
    FirstCharDiffers(e, "packed");
    FirstCharDiffers(e, "shared");
    FirstCharDiffers(e, "std140");
    FirstCharDiffers(e, "std430");
  }

  /** `location = n` reads back as the location `n`. */
  lemma ParseLocationEntry(n: GLint, acc: LayoutQualifiers)
    requires n > -1
    ensures ParseLayoutEntries([QualifierText("location", n)], acc) == Some(acc.(location := n))
  {
    var e := QualifierText("location", n);
    QualifierTextParts("location", n);
    assert e[0] == 'l';
    NotAMemoryName(e);
    ParseIntegerEntry(e, acc);
  }

  /** `component = n` reads back as the component `n`. */
  lemma ParseComponentEntry(n: GLint, acc: LayoutQualifiers)
    requires n > -1
    ensures ParseLayoutEntries([QualifierText("component", n)], acc) == Some(acc.(component := n))
  {
    var e := QualifierText("component", n);
    QualifierTextParts("component", n);
    assert e[0] == 'c';
    NotAMemoryName(e);
    FirstCharDiffers(e, "location = ");
    ParseIntegerEntry(e, acc);
  }

  /** `binding = n` reads back as the binding `n`. */
  lemma ParseBindingEntry(n: GLint, acc: LayoutQualifiers)
    requires n > -1
    ensures ParseLayoutEntries([QualifierText("binding", n)], acc) == Some(acc.(binding := n))
  {
    var e := QualifierText("binding", n);
    QualifierTextParts("binding", n);
    assert e[0] == 'b';
    NotAMemoryName(e);
    FirstCharDiffers(e, "location = ");
    FirstCharDiffers(e, "component = ");
    ParseIntegerEntry(e, acc);
  }

  lemma LayoutFieldsHaveNoComma(l: LayoutQualifiers)
    ensures forall i :: 0 <= i < |LayoutFields(l)| ==> ',' !in LayoutFields(l)[i]
  {
    var fields := LayoutFields(l);
    forall i | 0 <= i < |fields|
      ensures ',' !in fields[i]
    {
      QualifiersHaveNoComma(l);
    }
  }

  lemma QualifiersHaveNoComma(l: LayoutQualifiers)
    ensures ',' !in MemoryName(l.memory)
    ensures l.location > -1 ==> ',' !in QualifierText("location", l.location)
    ensures l.component > -1 ==> ',' !in QualifierText("component", l.component)
    ensures l.binding > -1 ==> ',' !in QualifierText("binding", l.binding)
  {
    DigitsExclude(l.location, ',');
    DigitsExclude(l.component, ',');
    DigitsExclude(l.binding, ',');
  }

  /** The decimal text of a non-negative number holds only digits. */
  lemma DigitsExclude(n: int, c: char)
    requires !IsDigit(c)
    ensures n >= 0 ==> c !in IntDecimal(n)
  {
    if n >= 0 {
      var d := Decimal(n);
      assert IntDecimal(n) == d;
      forall i | 0 <= i < |d|
        ensures d[i] != c
      {
        assert IsDigit(d[i]);
      }
    }
  }

  /** The entries of a layout, read in order from the default layout, give the layout back with
      every negative entry as -1. */
  lemma LayoutFieldsRoundTrip(l: LayoutQualifiers)
    ensures ParseLayoutEntries(LayoutFields(l), DefaultLayout) == Some(Normalized(l))
  {
    var mem := if l.memory != MemoryNone then [MemoryName(l.memory)] else [];
    var loc := if l.location > -1 then [QualifierText("location", l.location)] else [];
    var comp := if l.component > -1 then [QualifierText("component", l.component)] else [];
    var bind := if l.binding > -1 then [QualifierText("binding", l.binding)] else [];
    assert LayoutFields(l) == mem + loc + comp + bind;
    var a0 := DefaultLayout;
    var a1 := if l.memory != MemoryNone then a0.(memory := l.memory) else a0;
    var a2 := if l.location > -1 then a1.(location := l.location) else a1;
    var a3 := if l.component > -1 then a2.(component := l.component) else a2;
    var a4 := if l.binding > -1 then a3.(binding := l.binding) else a3;
    assert ParseLayoutEntries(mem, a0) == Some(a1) by {
      if l.memory != MemoryNone {
        MemoryNameRoundTrip(l.memory);
        var single: seq<string> := [MemoryName(l.memory)];
        assert single[1..] == [];
      }
    }
    assert ParseLayoutEntries(loc, a1) == Some(a2) by {
      if l.location > -1 { ParseLocationEntry(l.location, a1); }
    }
    assert ParseLayoutEntries(comp, a2) == Some(a3) by {
      if l.component > -1 { ParseComponentEntry(l.component, a2); }
    }
    assert ParseLayoutEntries(bind, a3) == Some(a4) by {
      if l.binding > -1 { ParseBindingEntry(l.binding, a3); }
    }
    ParseLayoutEntriesAppend(mem, loc, a0);
    ParseLayoutEntriesAppend(mem + loc, comp, a0);
    ParseLayoutEntriesAppend(mem + loc + comp, bind, a0);
    assert a4 == Normalized(l);
  }

  /** A layout with no entry is the default layout once normalized. */
  lemma NoFieldsIsDefault(l: LayoutQualifiers)
    requires LayoutFields(l) == []
    ensures Normalized(l) == DefaultLayout
  {
    assert |LayoutFields(l)| == (if l.memory != MemoryNone then 1 else 0) + (if l.location > -1 then 1 else 0)
      + (if l.component > -1 then 1 else 0) + (if l.binding > -1 then 1 else 0);
  }

  /** Printing a layout loses nothing but the sign of negative entries: reading the text back gives
      the layout with every negative entry as -1. */
  lemma LayoutRoundTrip(l: LayoutQualifiers)
    ensures ParseLayout(LayoutText(l)) == Some(Normalized(l))
  {
    var fields := LayoutFields(l);
    var s := LayoutText(l);
    var inner := Join(fields, ", ");
    assert s[..7] == "layout(" && s[7..|s| - 1] == inner;
    if fields == [] {
      NoFieldsIsDefault(l);
    } else {
      assert inner != "" by {
        // the first field is a non-empty keyword or entry
        if l.memory != MemoryNone {
          assert fields[0] == MemoryName(l.memory);
        }
        JoinHasPrefix(fields, ", ");
      }
      assert Split(inner, ", ") == fields by {
        LayoutFieldsHaveNoComma(l);
        SplitJoin(fields, ", ");
      }
      LayoutFieldsRoundTrip(l);
    }
  }

  lemma JoinPair(a: string, b: string, sep: string)
    ensures Join([a, b], sep) == a + sep + b
  {
    assert [a, b][1..] == [b];
  }

  /** A join starts with its first item. */
  lemma JoinHasPrefix(items: seq<string>, sep: string)
    requires |items| >= 1
    ensures HasPrefix(Join(items, sep), items[0])
  {
  }

  /** A default layout is unset and prints as `layout()`. */
  lemma DefaultLayoutText()
    ensures !LayoutIsSet(DefaultLayout)
    ensures LayoutText(DefaultLayout) == "layout()"
  {
  }

  /** Whether a layout is set does not depend on its component. */
  lemma LayoutIsSetIgnoresComponent(l: LayoutQualifiers, c: GLint)
    ensures LayoutIsSet(l.(component := c)) == LayoutIsSet(l)
  {
  }

  // ---------------------------------------------------------------- variable definitions

  /** `struct Initializer`: an optional constructor expression (`ctor_string`, null when absent). */
  datatype Initializer = Initializer(ctor: Option<string>)

  /** `Initializer::operator bool`: the constructor string is not null, so the default initializer
      is the only unset one. */
  predicate InitializerIsSet(i: Initializer)
    ensures !InitializerIsSet(i) <==> i == Initializer(None)
  {
    i.ctor.Some?
  }

  /** What `out << init` writes for a non-null constructor string: `= ` and then the string. */
  function InitializerText(i: Initializer): (t: string)
    requires InitializerIsSet(i)
  {
    "= " + i.ctor.value
  }

  /** The default initializer, with a null constructor string, is the only unset one. */
  lemma UnsetInitializer(i: Initializer)
    ensures !InitializerIsSet(i) <==> i == Initializer(None)
  {
  }

  /** A set initializer prints as `= ` and then its constructor string. */
  lemma InitializerTextShape(i: Initializer)
    requires InitializerIsSet(i)
    ensures |InitializerText(i)| == |i.ctor.value| + 2 && InitializerText(i)[..2] == "= "
    ensures InitializerText(i)[2..] == i.ctor.value
  {
  }

  /** What `out << ArraySize{size}` writes: `[]` for a negative size, `[size]` otherwise. */
  function ArraySuffix(size: GLint): (s: string)
  {
    if size < 0 then "[]"
    else
      DecimalRoundTrip(size);
      var digits := IntDecimal(size);
      assert ("[" + digits + "]")[1..|digits| + 1] == digits;
      "[" + digits + "]"
  }

  /** An array suffix is in brackets; it is `[]` exactly for a negative size, and otherwise the digits
      between the brackets read back to the size. */
  lemma ArraySuffixShape(size: GLint)
    ensures |ArraySuffix(size)| >= 2 && ArraySuffix(size)[0] == '[' && ArraySuffix(size)[|ArraySuffix(size)| - 1] == ']'
    ensures ArraySuffix(size) == "[]" <==> size < 0
    ensures size >= 0 ==> ParseDecimal(ArraySuffix(size)[1..|ArraySuffix(size)| - 1]) == Some(size)
  {
    if size >= 0 {
      DecimalRoundTrip(size);
      var digits := IntDecimal(size);
      assert ("[" + digits + "]")[1..|digits| + 1] == digits;
    }
  }

  /** `struct Definition`: one GLSL variable declaration. */
  datatype Definition = Definition(
    layout: LayoutQualifiers,
    storage: StorageQualifier,
    ty: Type,
    name: string,
    init: Initializer,
    arraySize: GLint)

  /** A default-constructed `Definition`. */
  const DefaultDefinition := Definition(DefaultLayout, StorageNone, Float, "unnamed_variable", Initializer(None), 0)

  /** The fields of a definition, in the printer's order; the optional ones only when present. */
  function DefinitionFields(d: Definition): seq<string>
  {
    (if LayoutIsSet(d.layout) then [LayoutText(d.layout)] else [])
    + (if d.storage != StorageNone then [StorageName(d.storage)] else [])
    + [TypeName(d.ty)] + [d.name]
    + (if d.arraySize != 0 then [ArraySuffix(d.arraySize)] else [])
    + (if InitializerIsSet(d.init) then [InitializerText(d.init)] else [])
  }

  /** What `out << decl` writes: the fields separated by single spaces, then `;`. Without any of the
      optional parts it is the type, a space, the name and `;`. */
  function DefinitionText(d: Definition): (s: string)
  {
    var fields := DefinitionFields(d);
    if !LayoutIsSet(d.layout) && d.storage == StorageNone && d.arraySize == 0 && !InitializerIsSet(d.init) then
      assert fields == [TypeName(d.ty), d.name];
      JoinPair(TypeName(d.ty), d.name, " ");
      Join(fields, " ") + ";"
    else
      Join(fields, " ") + ";"
  }

  /** A printed definition ends with `;`; without any of the optional parts it is the type, a space,
      the name and `;`. */
  lemma DefinitionTextShape(d: Definition)
    ensures |DefinitionText(d)| >= 1 && DefinitionText(d)[|DefinitionText(d)| - 1] == ';'
    ensures !LayoutIsSet(d.layout) && d.storage == StorageNone && d.arraySize == 0 && !InitializerIsSet(d.init)
      ==> DefinitionText(d) == TypeName(d.ty) + " " + d.name + ";"
  {
    if !LayoutIsSet(d.layout) && d.storage == StorageNone && d.arraySize == 0 && !InitializerIsSet(d.init) {
      assert DefinitionFields(d) == [TypeName(d.ty), d.name];
      JoinPair(TypeName(d.ty), d.name, " ");
    }
  }

  /** A default definition prints as `float unnamed_variable;`. */
  lemma DefaultDefinitionText()
    ensures DefinitionText(DefaultDefinition) == "float unnamed_variable;"
  {
    var d := DefaultDefinition;
    assert !LayoutIsSet(d.layout) && d.storage == StorageNone && d.arraySize == 0 && !InitializerIsSet(d.init);
    DefinitionTextShape(d);
    assert TypeName(d.ty) == "float";
  }

  /** A definition starts with `layout(` exactly when its layout is set: no storage keyword and no
      type keyword starts that way. */
  lemma DefinitionStartsWithLayout(d: Definition)
    ensures HasPrefix(DefinitionText(d), "layout(") <==> LayoutIsSet(d.layout)
  {
    var fields := DefinitionFields(d);
    var text := DefinitionText(d);
    JoinHasPrefix(fields, " ");
    var first := fields[0];
    assert HasPrefix(text, first);
    if LayoutIsSet(d.layout) {
      assert first == LayoutText(d.layout);
      assert first[..7] == "layout(";
    } else {
      assert first == StorageName(d.storage) || first == TypeName(d.ty);
      assert |first| > 0 && first[0] != 'l' by {
        KeywordsStartOtherwise(d.storage, d.ty);
      }
      assert text[0] == first[0];
    }
  }

  /** No storage keyword and no type keyword starts with the letter of `layout`. */
  lemma KeywordsStartOtherwise(q: StorageQualifier, t: Type)
    ensures q != StorageNone ==> |StorageName(q)| > 0 && StorageName(q)[0] != 'l'
    ensures |TypeName(t)| > 0 && TypeName(t)[0] != 'l'
  {
    match t case _ =>
    match q case _ =>
  }

  // ---------------------------------------------------------------- memory qualifiers

  /** `enum class MemoryQualifier : unsigned char`: a set of flags over one byte (section 4.10
      of the OpenGL Shading Language 4.60 specification). */
  type MemoryQualifier = bv8

  const NoMemoryQualifier: MemoryQualifier := 0
  const Coherent: MemoryQualifier := 1
  const Volatile: MemoryQualifier := 2
  const Restrict: MemoryQualifier := 4
  const ReadOnly: MemoryQualifier := 8
  const WriteOnly: MemoryQualifier := 16

  /** The five flags of the enumeration. */
  predicate IsFlag(f: MemoryQualifier)
  {
    f == Coherent || f == Volatile || f == Restrict || f == ReadOnly || f == WriteOnly
  }

  /** The flags are five distinct single bits, and `none` is no bit at all. */
  lemma FlagsAreSingleBits()
    ensures NoMemoryQualifier == 0
    ensures forall f :: IsFlag(f) ==> f != 0 && f & (f - 1) == 0
    ensures Coherent != Volatile && Volatile != Restrict && Restrict != ReadOnly && ReadOnly != WriteOnly
    ensures Coherent | Volatile | Restrict | ReadOnly | WriteOnly == 0x1F
  {
  }

  /** `operator|`: the flags set in the result are those set in either operand. */
  function Or(l: MemoryQualifier, r: MemoryQualifier): (q: MemoryQualifier)
    ensures forall f :: IsFlag(f) ==> (q & f != 0 <==> l & f != 0 || r & f != 0)
  {
    l | r
  }

  /** `operator&`: the flags set in the result are those set in both operands. */
  function And(l: MemoryQualifier, r: MemoryQualifier): (q: MemoryQualifier)
    ensures forall f :: IsFlag(f) ==> (q & f != 0 <==> l & f != 0 && r & f != 0)
  {
    l & r
  }

  /** The keywords of the flags set in `q`, in the printer's fixed order. */
  function MemoryQualifierWords(q: MemoryQualifier): seq<string>
  {
    (if q & Coherent != 0 then ["coherent"] else [])
    + (if q & Volatile != 0 then ["volatile"] else [])
    + (if q & Restrict != 0 then ["restrict"] else [])
    + (if q & ReadOnly != 0 then ["readonly"] else [])
    + (if q & WriteOnly != 0 then ["writeonly"] else [])
  }

  /** What `out << qualifier` writes: the keywords separated by single spaces; nothing exactly when
      none of the five flags is set. */
  function MemoryQualifierText(q: MemoryQualifier): (s: string)
    ensures s == "" <==> q & 0x1F == 0
  {
    var words := MemoryQualifierWords(q);
    if words == [] then
      assert q & 0x1F == 0;
      ""
    else
      JoinHasPrefix(words, " ");
      assert q & 0x1F != 0;
      Join(words, " ")
  }

  function FlagOfWord(w: string): Option<MemoryQualifier>
  {
    if w == "coherent" then Some(Coherent) else if w == "volatile" then Some(Volatile)
    else if w == "restrict" then Some(Restrict) else if w == "readonly" then Some(ReadOnly)
    else if w == "writeonly" then Some(WriteOnly) else None
  }

  function ParseFlagWords(words: seq<string>): Option<MemoryQualifier>
    decreases |words|
  {
    if words == [] then Some(NoMemoryQualifier)
    else match (FlagOfWord(words[0]), ParseFlagWords(words[1..]))
      case (Some(f), Some(rest)) => Some(f | rest)
      case _ => None
  }

  /** Reads printed memory qualifiers back into flags. */
  function ParseMemoryQualifier(s: string): Option<MemoryQualifier>
  {
    if s == "" then Some(NoMemoryQualifier) else ParseFlagWords(Split(s, " "))
  }

  lemma {:induction false} ParseFlagWordsAppend(xs: seq<string>, ys: seq<string>)
    requires ParseFlagWords(xs).Some? && ParseFlagWords(ys).Some?
    ensures ParseFlagWords(xs + ys) == Some(ParseFlagWords(xs).value | ParseFlagWords(ys).value)
    decreases |xs|
  {
    if xs == [] {
      assert xs + ys == ys;
    } else {
      assert (xs + ys)[0] == xs[0];
      assert (xs + ys)[1..] == xs[1..] + ys;
      ParseFlagWordsAppend(xs[1..], ys);
    }
  }

  /** One optional keyword reads back as its flag, or as no flag when absent. */
  lemma ParseOptionalFlag(q: MemoryQualifier, f: MemoryQualifier, w: string)
    requires FlagOfWord(w) == Some(f)
    ensures ParseFlagWords(if q & f != 0 then [w] else [])
      == Some(if q & f != 0 then f else NoMemoryQualifier)
  {
    if q & f != 0 {
      var single: seq<string> := [w];
      assert single[1..] == [];
    }
  }

  /** The flags of `q`, taken one by one, make up its low five bits. */
  lemma FlagBitsCompose(q: MemoryQualifier)
    ensures (if q & Coherent != 0 then Coherent else 0) | (if q & Volatile != 0 then Volatile else 0)
      | (if q & Restrict != 0 then Restrict else 0) | (if q & ReadOnly != 0 then ReadOnly else 0)
      | (if q & WriteOnly != 0 then WriteOnly else 0) == q & 0x1F
  {
  }

  /** The printed keywords read back as the flags that were set. */
  lemma MemoryQualifierWordsRoundTrip(q: MemoryQualifier)
    ensures ParseFlagWords(MemoryQualifierWords(q)) == Some(q & 0x1F)
  {
    var c: seq<string> := if q & Coherent != 0 then ["coherent"] else [];
    var v: seq<string> := if q & Volatile != 0 then ["volatile"] else [];
    var r: seq<string> := if q & Restrict != 0 then ["restrict"] else [];
    var ro: seq<string> := if q & ReadOnly != 0 then ["readonly"] else [];
    var wo: seq<string> := if q & WriteOnly != 0 then ["writeonly"] else [];
    assert MemoryQualifierWords(q) == c + v + r + ro + wo;
    ParseOptionalFlag(q, Coherent, "coherent");
    ParseOptionalFlag(q, Volatile, "volatile");
    ParseOptionalFlag(q, Restrict, "restrict");
    ParseOptionalFlag(q, ReadOnly, "readonly");
    ParseOptionalFlag(q, WriteOnly, "writeonly");
    ParseFlagWordsAppend(c, v);
    ParseFlagWordsAppend(c + v, r);
    ParseFlagWordsAppend(c + v + r, ro);
    ParseFlagWordsAppend(c + v + r + ro, wo);
    FlagBitsCompose(q);
  }

  /** Printing memory qualifiers loses only the bits outside the five flags: reading the text back
      gives exactly the flags that were set. */
  lemma MemoryQualifierRoundTrip(q: MemoryQualifier)
    ensures ParseMemoryQualifier(MemoryQualifierText(q)) == Some(q & 0x1F)
  {
    var words := MemoryQualifierWords(q);
    MemoryQualifierWordsRoundTrip(q);
    if words == [] {
      assert MemoryQualifierText(q) == "";
      assert ParseFlagWords(words) == Some(NoMemoryQualifier);
    } else {
      assert forall i :: 0 <= i < |words| ==> ' ' !in words[i];
      SplitJoin(words, " ");
      JoinHasPrefix(words, " ");
      assert MemoryQualifierText(q) != "";
    }
  }

  // ---------------------------------------------------------------- interface blocks

  /** `struct BlockDefinition`: an interface block (section 4.3.9 of the OpenGL
      Shading Language 4.60 specification). */
  datatype BlockDefinition = BlockDefinition(
    layout: LayoutQualifiers,
    storage: StorageQualifier,
    memory: MemoryQualifier,
    blockName: string,
    instanceName: Option<string>,
    defs: seq<Definition>)

  /** A default-constructed `BlockDefinition`. */
  const DefaultBlock := BlockDefinition(DefaultLayout, Uniform, NoMemoryQualifier, "UnnamedBlock", None, [])

  /** The header of a block: `[layout ][memory ]storage name`. */
  function BlockHeaderFields(b: BlockDefinition): seq<string>
  {
    (if LayoutIsSet(b.layout) then [LayoutText(b.layout)] else [])
    + (if b.memory != NoMemoryQualifier then [MemoryQualifierText(b.memory)] else [])
    + [StorageName(b.storage)] + [b.blockName]
  }

  /** The members, each on a new line indented by two spaces, in order. */
  function MembersText(defs: seq<Definition>): string
  {
    if defs == [] then "" else "\n" + Join(MemberLines(defs), "\n")
  }

  /** The end of the block after its closing brace: ` instance` when named, then `;`. */
  function BlockTail(b: BlockDefinition): string
  {
    (if b.instanceName.Some? then " " + b.instanceName.value else "") + ";"
  }

  /** What `out << block_def` writes: it ends with `}` and `;`, with the instance name between them
      after a space when there is one. */
  function BlockText(b: BlockDefinition): (s: string)
  {
    Join(BlockHeaderFields(b), " ") + "\n{" + MembersText(b.defs) + "\n}" + BlockTail(b)
  }

  /** A printed block ends with `};`, or with `} `, the instance name and `;` when it has one. */
  lemma BlockTextEnding(b: BlockDefinition)
    ensures b.instanceName.None? ==> |BlockText(b)| >= 2 && BlockText(b)[|BlockText(b)| - 2..] == "};"
    ensures b.instanceName.Some? ==>
      var name := b.instanceName.value;
      |BlockText(b)| >= |name| + 3 && BlockText(b)[|BlockText(b)| - |name| - 3..] == "} " + name + ";"
  {
    var front := Join(BlockHeaderFields(b), " ") + "\n{" + MembersText(b.defs) + "\n";
    var close := "}" + BlockTail(b);
    assert BlockText(b) == front + close;
    assert BlockText(b)[|front|..] == close;
  }

  /** The lines of a printed block: the header, `{`, one indented line per member, and `}` with the
      tail. */
  function BlockLines(b: BlockDefinition): seq<string>
  {
    [Join(BlockHeaderFields(b), " "), "{"] + MemberLines(b.defs) + ["}" + BlockTail(b)]
  }

  /** One line per member, in order: two spaces of indentation, then the member's definition. */
  function MemberLines(defs: seq<Definition>): seq<string>
  {
    if defs == [] then [] else MemberLines(defs[..|defs| - 1]) + ["  " + DefinitionText(defs[|defs| - 1])]
  }

  lemma {:induction false} MemberLinesAreOneLine(defs: seq<Definition>)
    requires forall i :: 0 <= i < |defs| ==>
      '\n' !in defs[i].name && (defs[i].init.ctor.Some? ==> '\n' !in defs[i].init.ctor.value)
    ensures forall i :: 0 <= i < |MemberLines(defs)| ==> '\n' !in MemberLines(defs)[i]
    decreases |defs|
  {
    if defs != [] {
      MemberLinesAreOneLine(defs[..|defs| - 1]);
      DefinitionTextIsOneLine(defs[|defs| - 1]);
    }
  }

  /** Adding a member to the block adds one indented line after the members before it. */
  lemma MembersTextSnoc(defs: seq<Definition>, d: Definition)
    ensures MembersText(defs + [d]) == MembersText(defs) + "\n  " + DefinitionText(d)
  {
    var line := "  " + DefinitionText(d);
    assert MemberLines(defs + [d]) == MemberLines(defs) + [line] by {
      assert (defs + [d])[..|defs|] == defs;
    }
    assert defs == [] <==> MemberLines(defs) == [];
    LinesSnoc(MemberLines(defs), line);
  }

  /** Text made of lines each after a line break, one line more. */
  lemma LinesSnoc(lines: seq<string>, line: string)
    ensures (if lines == [] then "" else "\n" + Join(lines, "\n")) + "\n" + line
      == "\n" + Join(lines + [line], "\n")
  {
    JoinSnoc(lines, line, "\n");
    if lines != [] {
      ConcatAssoc("\n", Join(lines, "\n"), "\n", line);
    }
  }

  /** The block text is its lines joined by newlines. */
  lemma BlockTextIsLines(b: BlockDefinition)
    ensures BlockText(b) == Join(BlockLines(b), "\n")
  {
    var header, members, close := Join(BlockHeaderFields(b), " "), MemberLines(b.defs), "}" + BlockTail(b);
    BracedLines(header, members, close);
    assert BlockText(b) == header + "\n{" + MembersText(b.defs) + "\n" + close;
  }

  /** A header, `{`, lines each after a line break, and a closing line after one more, are those
      lines joined by line breaks. */
  lemma BracedLines(header: string, members: seq<string>, close: string)
    ensures header + "\n{" + (if members == [] then "" else "\n" + Join(members, "\n")) + "\n" + close
      == Join([header, "{"] + members + [close], "\n")
  {
    JoinPair(header, "{", "\n");
    JoinAppend([header, "{"], members, "\n");
    JoinSnoc([header, "{"] + members, close, "\n");
  }

  /** No name or constructor string of the block contains a line break. */
  predicate SingleLineNames(b: BlockDefinition)
  {
    && '\n' !in b.blockName
    && (b.instanceName.Some? ==> '\n' !in b.instanceName.value)
    && forall i :: 0 <= i < |b.defs| ==>
        '\n' !in b.defs[i].name && (b.defs[i].init.ctor.Some? ==> '\n' !in b.defs[i].init.ctor.value)
  }

  lemma LayoutTextIsOneLine(l: LayoutQualifiers)
    ensures '\n' !in LayoutText(l)
  {
    var fields := LayoutFields(l);
    DigitsExclude(l.location, '\n');
    DigitsExclude(l.component, '\n');
    DigitsExclude(l.binding, '\n');
    assert forall i :: 0 <= i < |fields| ==> '\n' !in fields[i];
    JoinExcludes(fields, ", ", '\n');
  }

  lemma DefinitionTextIsOneLine(d: Definition)
    requires '\n' !in d.name && (d.init.ctor.Some? ==> '\n' !in d.init.ctor.value)
    ensures '\n' !in DefinitionText(d)
  {
    var fields := DefinitionFields(d);
    LayoutTextIsOneLine(d.layout);
    DigitsExclude(d.arraySize, '\n');
    assert '\n' !in TypeName(d.ty) by { match d.ty case _ => }
    assert forall i :: 0 <= i < |fields| ==> '\n' !in fields[i];
    JoinExcludes(fields, " ", '\n');
  }

  /** The header of a block whose names hold no line break is one line. */
  lemma HeaderIsOneLine(b: BlockDefinition)
    requires '\n' !in b.blockName
    ensures '\n' !in Join(BlockHeaderFields(b), " ")
  {
    var header := BlockHeaderFields(b);
    LayoutTextIsOneLine(b.layout);
    assert '\n' !in MemoryQualifierText(b.memory) by {
      JoinExcludes(MemoryQualifierWords(b.memory), " ", '\n');
    }
    assert forall i :: 0 <= i < |header| ==> '\n' !in header[i];
    JoinExcludes(header, " ", '\n');
  }

  /** No line of a block whose names hold no line break holds one. */
  lemma BlockLinesAreOneLine(b: BlockDefinition)
    requires SingleLineNames(b)
    ensures forall i :: 0 <= i < |BlockLines(b)| ==> '\n' !in BlockLines(b)[i]
  {
    var lines := BlockLines(b);
    var members := MemberLines(b.defs);
    HeaderIsOneLine(b);
    MemberLinesAreOneLine(b.defs);
    forall i | 0 <= i < |lines|
      ensures '\n' !in lines[i]
    {
      if 2 <= i < 2 + |members| {
        assert lines[i] == members[i - 2];
      }
    }
  }

  /** A block whose names hold no line break prints one line for the header, one for `{`, one per
      member in order, and one for `}` with the instance name and `;`. */
  lemma BlockLayout(b: BlockDefinition)
    requires SingleLineNames(b)
    ensures Split(BlockText(b), "\n") == BlockLines(b)
  {
    BlockTextIsLines(b);
    BlockLinesAreOneLine(b);
    SplitJoin(BlockLines(b), "\n");
  }

  /** A default block prints as an empty uniform block named `UnnamedBlock`. */
  lemma DefaultBlockText()
    ensures BlockText(DefaultBlock) == "uniform UnnamedBlock\n{\n};"
  {
    assert BlockHeaderFields(DefaultBlock) == ["uniform", "UnnamedBlock"];
    JoinPair("uniform", "UnnamedBlock", " ");
    assert MembersText([]) == "";
  }
}
