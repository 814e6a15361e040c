# gl-utils core, modelled in Dafny

This project models the core of `gl-utils`, a small C++ convenience layer over OpenGL. The model covers four parts of the library:

- **The GLSL declaration printer** (`src/glsl_syntax.cpp`, `include/glutils/glsl_syntax.hpp`). It writes GLSL text for layout qualifiers, variable definitions, memory qualifiers and interface blocks through a `StringJoiner` that puts a separator between present items.
  - `GlslSyntax` defines the printed text of each declaration as pure functions.
  - `GlslPrinter` writes the same text imperatively, through a `StringJoiner` class with an `unsigned int` item counter that wraps at 2^32. Each printer method is proved to append exactly what the pure function describes.
  - The partners of the printed text are parsers for layouts and memory qualifiers, with round-trip lemmas, and a line-structure lemma for blocks.
- **The vertex attribute utilities** (`include/glutils/vertex_attrib_utils.hpp`, with the enums of `include/glutils/vertex_attrib_enums.hpp`). This covers base type codes, the C scalar type ↔ base type mapping, byte sizes, attribute lengths and the format of scalar and vector attributes. Thrown `std::logic_error`s become `Result` errors.
- **The debug message callback** (`src/debug.cpp`).
  - Tables map the GL source, type and severity codes to their names, with `??` for anything else.
  - The report is eight lines.
  - HIGH severity goes to the error stream and everything else to the standard output. A newline is always written to the standard output first.
- **The ownership wrappers** (`include/glutils/guard.hpp`, `include/glutils/object.hpp`, `include/proxy.hpp`). Each is a class over a `Driver` that logs every name passed to a destroy call.
  - `Guard` and `Proxy` destroy unconditionally, zero included.
  - The destructor and move assignment of `Object` destroy only a non-zero name. Assignment from a handle destroys whatever it holds, zero included.
  - `Object` is proved never to destroy a non-zero name twice under two assumptions. The first is the library's documented discipline of at most one `Object` per GL object, tracked by a ghost owner map. The second is that the driver never hands out a name again once it has been destroyed.

Integers keep the widths of the GL types (`GLuint`, `GLenum`, `GLint`). The implicit `int` → `GLenum` conversion and the `unsigned` increment are written out (`GlTypes.ToGLenum`, `GlTypes.Increment`). Output streams are append-only text (`Streams.Stream`).

## Model

| member | source | states |
|---|---|---|
| `GlTypes.Increment` | src/glsl_syntax.cpp:16 | `items++` on an `unsigned int` is one more, except that 2^32-1 wraps to 0 |
| `GlTypes.ToGLenum` | include/glutils/vertex_attrib_utils.hpp:115 | passing an `int` as a `GLenum` keeps non-negative values and is congruent modulo 2^32 otherwise |
| `Text.IntDecimal` | src/glsl_syntax.cpp:92 | an `int` is written with a leading `-` exactly when negative, and otherwise as digits only |
| `Text.DecimalRoundTrip` | src/glsl_syntax.cpp:92 | reading back the decimal text of a number gives the number |
| `Streams.Stream.Write` | src/glsl_syntax.cpp:18 | `out << s` appends `s` and nothing else |
| `GlslSyntax.TypeOrdinal` | src/glsl_syntax.cpp:66 | every `Type` indexes inside the keyword table |
| `GlslSyntax.MemoryOrdinal` | src/glsl_syntax.cpp:72 | every memory layout indexes inside its keyword table |
| `GlslSyntax.StorageOrdinal` | src/glsl_syntax.cpp:78 | every storage qualifier indexes inside its keyword table |
| `GlslSyntax.TypeNameRoundTrip` | src/glsl_syntax.cpp:56-67 | distinct types print as distinct keywords: the keyword reads back to its type |
| `GlslSyntax.MemoryNameRoundTrip` | src/glsl_syntax.cpp:69-73 | each memory layout reads back from its keyword |
| `GlslSyntax.StorageNameRoundTrip` | src/glsl_syntax.cpp:75-79 | each storage qualifier reads back from its keyword |
| `GlslSyntax.KeywordTables` | src/glsl_syntax.cpp:56-79 | the tables hold 16, 5 and 6 keywords; `none` prints as the empty string; sample entries |
| `GlslSyntax.KeywordNames` | src/glsl_syntax.cpp:56-79 | `TypeName`, `MemoryName` and `StorageName` print an entry of their keyword tables; every type keyword is non-empty, and a memory layout or storage qualifier prints as the empty string exactly when it is `none` |
| `GlslSyntax.KeywordsStartOtherwise` | src/glsl_syntax.cpp:56-79 | no type keyword and no non-empty storage keyword starts with `l` |
| `GlslSyntax.QualifierTextShape` | src/glsl_syntax.cpp:89-94 | `QualifierText`: an entry prints as its name and ` = `, followed by a `-` exactly when the value is negative |
| `GlslSyntax.QualifierTextParts` | src/glsl_syntax.cpp:89-94 | a non-negative entry prints as `name = ` followed by digits that read back to its value |
| `GlslSyntax.ParseLocationEntry` | src/glsl_syntax.cpp:104 | a printed location entry reads back into the location field alone |
| `GlslSyntax.ParseComponentEntry` | src/glsl_syntax.cpp:105 | a printed component entry reads back into the component field alone |
| `GlslSyntax.ParseBindingEntry` | src/glsl_syntax.cpp:106 | a printed binding entry reads back into the binding field alone |
| `GlslSyntax.ParseIntegerEntry` | src/glsl_syntax.cpp:102-106 | an entry that is not a memory keyword is read by its `location = `, `component = ` or `binding = ` prefix |
| `GlslSyntax.LayoutFieldsHaveNoComma` | src/glsl_syntax.cpp:102-106 | no printed layout entry contains a comma, so `, ` separates them unambiguously |
| `GlslSyntax.LayoutFieldsRoundTrip` | src/glsl_syntax.cpp:102-106 | the present entries read back to the layout with negative values normalised to -1 |
| `GlslSyntax.NoFieldsIsDefault` | src/glsl_syntax.cpp:96-109 | a layout printing no entries is the default layout up to normalisation |
| `GlslSyntax.LayoutRoundTrip` | src/glsl_syntax.cpp:96-109 | `layout(...)` text reads back to the printed layout: the memory layout and every entry above -1, with the rest at -1 |
| `GlslSyntax.DefaultLayoutText` | include/glutils/glsl_syntax.hpp:31-34 | a default layout is not set and prints as `layout()` |
| `GlslSyntax.LayoutTextShape` | src/glsl_syntax.cpp:96-109 | `LayoutText`: the printed layout is `layout(`, the entries and `)`, and it is `layout()` exactly when no entry is present |
| `GlslSyntax.LayoutIsSetFields` | src/glsl_syntax.cpp:142-145 | `LayoutIsSet`: a memory layout other than `none`, or a location or binding other than -1, sets a layout and the component does not. An unset layout prints at most its component entry. A set layout that prints no entry has a location or binding below -1 |
| `GlslSyntax.LayoutIsSetIgnoresComponent` | src/glsl_syntax.cpp:142-145 | whether a layout counts as set does not depend on its component |
| `GlslSyntax.LayoutTextIsOneLine` | src/glsl_syntax.cpp:96-109 | a printed layout contains no newline |
| `GlslSyntax.UnsetInitializer` | include/glutils/glsl_syntax.hpp:59 | `InitializerIsSet`: the initializer with a null constructor string is the only unset one |
| `GlslSyntax.InitializerTextShape` | src/glsl_syntax.cpp:111-114 | `InitializerText`: a set initializer prints as `= ` followed by exactly its constructor string |
| `GlslSyntax.ArraySuffixShape` | src/glsl_syntax.cpp:116-128 | `ArraySuffix`: the suffix is in brackets; it is `[]` exactly for a negative size, and otherwise the digits between the brackets read back to the size |
| `GlslSyntax.DefinitionTextShape` | src/glsl_syntax.cpp:130-140 | `DefinitionText`: a printed definition ends with `;`, and without a set layout, a storage qualifier, an array size or an initializer it is the type, a space, the name and `;` |
| `GlslSyntax.DefinitionStartsWithLayout` | src/glsl_syntax.cpp:130-140 | a printed definition starts with `layout(` if and only if its layout is set |
| `GlslSyntax.DefaultDefinitionText` | include/glutils/glsl_syntax.hpp:65-73 | a default definition prints as `float unnamed_variable;` |
| `GlslSyntax.DefinitionTextIsOneLine` | src/glsl_syntax.cpp:130-140 | a definition whose name and initializer have no newline prints on one line |
| `GlslSyntax.FlagsAreSingleBits` | include/glutils/glsl_syntax.hpp:77-85 | `none` is 0; the five flags are distinct single bits making up 0x1F |
| `GlslSyntax.Or` | src/glsl_syntax.cpp:147-151 | a flag is set in the result if and only if it is set in `l` or in `r` |
| `GlslSyntax.And` | src/glsl_syntax.cpp:152-156 | a flag is set in `l & r` if and only if it is set in both |
| `GlslSyntax.MemoryQualifierText` | src/glsl_syntax.cpp:158-168 | a memory qualifier prints as the empty string exactly when none of its five flag bits is set |
| `GlslSyntax.MemoryQualifierWordsRoundTrip` | src/glsl_syntax.cpp:160-165 | the printed keywords read back to exactly the flag bits of the qualifier |
| `GlslSyntax.MemoryQualifierRoundTrip` | src/glsl_syntax.cpp:158-168 | the printed qualifier text reads back to its five flag bits (bits outside them are not printed) |
| `GlslSyntax.MembersTextSnoc` | src/glsl_syntax.cpp:179-180 | one more member adds a newline, two spaces and its definition at the end |
| `GlslSyntax.BlockTextIsLines` | src/glsl_syntax.cpp:170-185 | a printed block is its header line, `{`, one line per member and `}` with the tail, joined by newlines |
| `GlslSyntax.BlockTextEnding` | src/glsl_syntax.cpp:170-185 | `BlockText`: a printed block ends with `};`, or with `} `, the instance name and `;` when it has one |
| `GlslSyntax.MemberLinesAreOneLine` | src/glsl_syntax.cpp:179-180 | member lines hold no newline when no member name or initializer does |
| `GlslSyntax.HeaderIsOneLine` | src/glsl_syntax.cpp:172-176 | the block header holds no newline when the block name does not |
| `GlslSyntax.BlockLinesAreOneLine` | src/glsl_syntax.cpp:170-185 | no line of a block holds a newline when the names and initializers have none |
| `GlslSyntax.BlockLayout` | src/glsl_syntax.cpp:170-185 | splitting a printed block on newlines gives exactly its lines, in order |
| `GlslSyntax.DefaultBlockText` | include/glutils/glsl_syntax.hpp:92-100 | a default block prints as `uniform UnnamedBlock`, `{`, `};` on three lines |
| `GlslPrinter.StringJoiner.constructor` | src/glsl_syntax.cpp:7-11 | a new joiner on `out` has counted no items and has written nothing |
| `GlslPrinter.StringJoiner.BeginItem` | src/glsl_syntax.cpp:16-17 | the separator is written unless the counter reads zero, and the counter is incremented with wrap-around |
| `GlslPrinter.StringJoiner.Add` | src/glsl_syntax.cpp:13-20 | writes the separator when needed, then the value; the joiner keeps writing the join of its items |
| `GlslPrinter.StringJoiner.AddIf` | src/glsl_syntax.cpp:22-52 | a present item is added as by `add`; an absent one writes and counts nothing |
| `GlslPrinter.StringJoiner.AddLayoutIf` | src/glsl_syntax.cpp:30-36 | a set layout is added in its printed form; an unset one changes nothing |
| `GlslPrinter.StringJoiner.AddMemoryQualifierIf` | src/glsl_syntax.cpp:22-28 | a qualifier other than `none` is added in its printed form; `none` changes nothing |
| `GlslPrinter.StringJoiner.AddDefinition` | src/glsl_syntax.cpp:13-20 | a definition is added in its printed form |
| `GlslPrinter.WriteLayout` | src/glsl_syntax.cpp:96-109 | appends exactly `LayoutText`, which `LayoutRoundTrip` reads back |
| `GlslPrinter.WriteDefinition` | src/glsl_syntax.cpp:130-140 | appends exactly `DefinitionText` |
| `GlslPrinter.WriteMemoryQualifier` | src/glsl_syntax.cpp:158-168 | appends exactly `MemoryQualifierText`, which `MemoryQualifierRoundTrip` reads back |
| `GlslPrinter.StartBlockHeader` | src/glsl_syntax.cpp:172-176 | the header fields joined by spaces are written, and the joiner has counted 2 to 4 items |
| `GlslPrinter.AddMembers` | src/glsl_syntax.cpp:178-180 | each member goes on its own line indented by two spaces, in order |
| `GlslPrinter.MembersTextStep` | src/glsl_syntax.cpp:179-180 | one turn of the member loop extends the text to the next prefix of the members |
| `GlslPrinter.WriteBlock` | src/glsl_syntax.cpp:170-185 | appends exactly `BlockText`, whose lines `BlockLayout` states |
| `VertexAttrib.BaseTypeCode` | include/glutils/vertex_attrib_enums.hpp:10-25 | every base type has its GL enum value |
| `VertexAttrib.BaseTypeOf` | include/glutils/vertex_attrib_enums.hpp:10-25 | a code read as a base type has that code |
| `VertexAttrib.BaseTypeCodeRoundTrip` | include/glutils/vertex_attrib_enums.hpp:10-25 | the thirteen codes are distinct: each base type reads back from its code |
| `VertexAttrib.ScalarSize` | include/glutils/vertex_attrib_utils.hpp:53 | every C scalar type is 1, 2, 4 or 8 bytes |
| `VertexAttrib.EnumValueTo` | include/glutils/vertex_attrib_utils.hpp:36-47 | a base type maps back to a scalar type exactly when it is one of the eight the macros list |
| `VertexAttrib.TypeToEnum` | include/glutils/vertex_attrib_utils.hpp:36-49 | a C scalar type maps to the base type of the same name: never `GLfixed`, a half float or a packed format, and with the scalar's byte size |
| `VertexAttrib.ScalarEnumRoundTrip` | include/glutils/vertex_attrib_utils.hpp:36-47 | `EnumValueTo` inverts `TypeToEnum` |
| `VertexAttrib.BaseTypeSize` | include/glutils/vertex_attrib_utils.hpp:56-90 | every base type is 1, 2, 4 or 8 bytes: 1 exactly for the bytes, 2 exactly for the shorts and the half float, 8 exactly for the double |
| `VertexAttrib.SizeOfBaseType` | include/glutils/vertex_attrib_utils.hpp:56-90 | the byte size of each of the thirteen codes, and `invalid enum value` for every other code |
| `VertexAttrib.SizeOfScalar` | include/glutils/vertex_attrib_utils.hpp:53-90 | the size of a scalar's base type is the size of the scalar |
| `VertexAttrib.LengthValue` | include/glutils/vertex_attrib_utils.hpp:102-103 | a length's value is 1 to 4 |
| `VertexAttrib.ToLengthEnum` | include/glutils/vertex_attrib_utils.hpp:93-99 | accepts exactly 1 to 4, keeping the value, and otherwise fails with `invalid vertex attribute length; must be 1, 2, 3 or 4` |
| `VertexAttrib.LengthRoundTrip` | include/glutils/vertex_attrib_utils.hpp:93-103 | `toLengthEnum` inverts `toLengthValue` |
| `VertexAttrib.FormatEnum` | include/glutils/vertex_attrib_utils.hpp:105-117 | a scalar has length 1 and its base type; a vector's length is its size, which must be 1 to 4 |
| `Debug.Lookup` | src/debug.cpp:11-22 | a code missing from a table gives `??`; any other name is the code's table entry |
| `Debug.LookupFound` | src/debug.cpp:10-52 | in a table of distinct codes and names, a listed code gives its name and the name gives back the code |
| `Debug.TablesAreDistinct` | src/debug.cpp:10-52 | the source, type and severity tables have distinct codes and names |
| `Debug.SourceName` | src/debug.cpp:10-22 | the name is `??` exactly for codes outside the six debug sources; otherwise it identifies the code |
| `Debug.TypeName` | src/debug.cpp:24-39 | the name is `??` exactly for codes outside the nine debug types; otherwise it identifies the code |
| `Debug.SeverityName` | src/debug.cpp:42-52 | the name is `??` exactly for codes outside the four severities; otherwise it identifies the code |
| `Debug.TableNamesAreOneLine` | src/debug.cpp:10-52 | no name in the tables contains a newline |
| `Debug.Report` | src/debug.cpp:56-61 | the report is its eight lines joined by newlines |
| `Debug.ReportLayout` | src/debug.cpp:56-61 | for a message without newlines, splitting the report on newlines gives exactly its eight lines |
| `Debug.ReportTarget` | src/debug.cpp:54 | the report goes to the error stream if and only if the severity is HIGH |
| `Debug.WriteReport` | src/debug.cpp:56-61 | appends exactly the report to the chosen stream |
| `Debug.DebugCallback` | src/debug.cpp:8-62 | writes a newline to the standard output, then the report to the error stream for HIGH severity and to the standard output otherwise; the other stream is untouched |
| `Driver.Driver.Destroy` | include/glutils/handle.hpp:23-25 | a destroy call logs the name, zero included |
| `Driver.DestroyKeepsOnce` | include/glutils/object.hpp:25 | destroying zero or a name not destroyed before keeps every non-zero name destroyed at most once |
| `Guards.Guard.constructor` | include/glutils/guard.hpp:17-18 | holds the created handle; nothing is destroyed |
| `Guards.Guard.Dispose` | include/glutils/guard.hpp:21-24 | the destructor destroys the held handle, even zero |
| `Guards.Guard.Release` | include/glutils/guard.hpp:58-63 | returns the handle and holds zero; nothing is destroyed |
| `Guards.Guard.Reset` | include/glutils/guard.hpp:70-74 | destroys the held handle, then holds the new one |
| `Guards.Guard.Move` | include/glutils/guard.hpp:30 | takes the other's handle and leaves it holding zero; nothing is destroyed |
| `Guards.Guard.MoveAssign` | include/glutils/guard.hpp:38-42 | destroys the held handle and takes the other's, leaving it at zero; a self-move destroys zero and keeps the handle |
| `Guards.Guard.GetHandle` | include/glutils/guard.hpp:45-48 | returns the held handle |
| `Objects.Object.constructor` | include/glutils/object.hpp:21-27 | holds the created or adopted handle and becomes its single owner; nothing is destroyed |
| `Objects.Object.Dispose` | include/glutils/object.hpp:30-34 | the destructor destroys the held name only when it is non-zero, keeping the at-most-once invariant |
| `Objects.Object.Move` | include/glutils/object.hpp:37-41 | takes the other's name and ownership, leaving it at zero; nothing is destroyed |
| `Objects.Object.AssignHandle` | include/glutils/object.hpp:44-51 | destroys the held name whatever it is, even zero, then holds the new handle |
| `Objects.Object.MoveAssign` | include/glutils/object.hpp:54-65 | destroys the held name only when non-zero, takes the other's and leaves it at zero; a self-move ends at zero |
| `Proxies.Proxy.constructor` | include/proxy.hpp:21-22 | holds the created name; nothing is destroyed |
| `Proxies.Proxy.FromName` | include/proxy.hpp:30-36 | succeeds if and only if the driver validates the name, and otherwise raises `GLError` with the intended message; nothing is destroyed |
| `Proxies.Proxy.Dispose` | include/proxy.hpp:25-27 | the destructor destroys the held name, even zero |
| `Proxies.Proxy.Move` | include/proxy.hpp:43-45 | takes the other's name and sets it to zero |
| `Proxies.Proxy.MoveAssign` | include/proxy.hpp:53-58 | destroys the held name, then takes the other's and zeroes it; a self-move ends at zero |
| `Proxies.Proxy.Validate` | include/proxy.hpp:62-64 | the driver's verdict on the held name |
| `Proxies.Proxy.GetName` | include/proxy.hpp:67-69 | returns the held name |
| `Proxies.NameDigitsFit` | include/proxy.hpp:33 | a `GLuint` has at most ten decimal digits, fewer than the message prefix's characters |
| `Proxies.MessageAsWritten` | include/proxy.hpp:32-33 | the message as built keeps the prefix's length and starts with the name's digits |
| `Proxies.MessageOverwritesPrefix` | include/proxy.hpp:32-33 | as built, no message starts with `Invalid object name: ` |
| `Proxies.MessageFortyTwo` | include/proxy.hpp:32-33 | as built, name 42 gives `42valid object name: ` |
| `Proxies.ErrorMessage` | include/proxy.hpp:32-34 | the intended message is the prefix followed by the name, which reads back from it |

## Findings

| source | as written | input that shows it | evidently intended | confidence | as-written member | corrected member |
|---|---|---|---|---|---|---|
| include/proxy.hpp:32-33 | `std::ostringstream msg {"Invalid object name: "}; msg << name;` starts writing at the beginning of the buffer, so the digits overwrite the prefix | name 42 gives `42valid object name: ` | `Invalid object name: 42` | high; not executed | `Proxies.MessageAsWritten` (with `Proxies.MessageOverwritesPrefix`, `Proxies.MessageFortyTwo`) | `Proxies.ErrorMessage`, used by `Proxies.Proxy.FromName` |

## Left out

- The OpenGL function table, the loader and the one-line forwarding wrappers (buffers, programs, shaders, textures, vertex arrays, sync objects) are not part of this model. They only forward calls to the driver.
- Interface blocks (`interface_block.hpp`/`.cpp`) are not part of this model.
- `HandleType::create`, `Create` and `Validate` are calls into the driver. The created name is a constructor parameter, and validation is the function `Driver.validate`. Which names the driver hands out, and whether it reuses destroyed names, is not modelled.
- `Handle::destroy(handle)` in `include/glutils/handle.hpp:23-25` destroys `m_name` from a static function. The model takes it to destroy the name of the handle it is given.
- The truth value of a handle (`if (*this)` in `Object`) is taken to be "the name is not zero".
- `Guard::operator->` returns the address of the held handle. Addresses are not modelled.
- Output streams are reduced to the text written. Buffering, flushing and formatting flags are not modelled, and `std::endl` is modelled as `"\n"`.
- `debugCallback` does not use its `length` and `user_ptr` parameters. `user_ptr` is dropped, and `length` is taken but unused. `enableDebugCallback` registers the callback with the driver and is not part of this model. The GL debug enum values come from the OpenGL registry, since the generated `gl.h` is not part of this model.
- The compile-time mappings of `vertex_attrib_utils.hpp` (`TypeToEnum`, `EnumValueTo`, `FormatEnum` over `glm::vec`) are functions over datatypes of the C scalar types. A failure that would stop compilation is an `Err` result.
- A null `const char *` name or block name is not modelled: names are strings. A null constructor string or instance name is `None`.
- `GlslPrinter.WriteBlock` states the printed text only for blocks with fewer than 2^32-4 members. With more members the joiner's `unsigned` counter would wrap during the member loop and the text would differ.
- `GlslPrinter.AddMembers` likewise states the text only while the counter cannot wrap, starting from a non-zero count with the member separator.
- `Objects.Object.constructor`, `Objects.Object.Dispose`, `Objects.Object.AssignHandle` and `Objects.Object.MoveAssign` assume the documented discipline of at most one `Object` per GL object (ghost ownership in `Driver.owner`). They promise destroy-at-most-once only under it.
- `Objects.Object.constructor` and `Objects.Object.AssignHandle` also require a non-zero handle to be unowned and never destroyed before (`Driver.Unused`). The destroy-at-most-once guarantee therefore assumes that the driver never recycles a destroyed name. A driver that reuses names, which OpenGL allows, is outside what the model promises.
