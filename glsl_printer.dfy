/** The GLSL declaration printer of `src/glsl_syntax.cpp`: the `operator<<` overloads, written as
    methods that append to a `Stream` through a `StringJoiner`, each proved to write exactly the text
    its pure counterpart in `GlslSyntax` describes. */
module GlslPrinter {
  import opened GlTypes
  import opened Text
  import opened GlslSyntax
  import opened Streams

  /** `struct StringJoiner`: writes items to `out`, putting `separator` before every item but the
      first. `items` is the `unsigned int` count of items added so far, which wraps at 2^32. The ghost
      fields record the text of `out` before the first item and the printed form of every item
      added, so that a printer can state what the joiner has written as a `Join`. */
  class StringJoiner {
    const out: Stream
    var separator: string
    var items: GLuint
    ghost var origin: string
    ghost var added: seq<string>

    /** Since its first item the joiner has written exactly the join of its items, and the counter
        has not wrapped. */
    ghost predicate Joined()
      reads this, out
    {
      out.text == origin + Join(added, separator) && items == |added|
    }

    constructor(out: Stream, separator: string)
      ensures this.out == out && this.separator == separator && items == 0
      ensures origin == out.text && added == [] && Joined()
    {
      this.out := out;
      this.separator := separator;
      items := 0;
      origin := out.text;
      added := [];
    }

    /** The first half of `add`: `if (items++) out << separator;`. The separator is written unless
        the counter reads zero, and the counter moves on, wrapping as an `unsigned int` does. */
    method BeginItem()
      modifies this`items, out
      ensures items == Increment(old(items))
      ensures out.text == old(out.text) + (if old(items) != 0 then separator else "")
    {
      var previous := items;
      items := Increment(items);
      if previous != 0 {
        out.Write(separator);
      }
    }

    /** Records that an item printed as `value` was added: the proof step shared by every `add`. */
    ghost method Record(value: string, before: string, count: int)
      requires out.text == before + (if count != 0 then separator else "") + value
      requires 0 <= count < UINT32_MODULUS && items == Increment(count)
      modifies this`added
      ensures added == old(added) + [value]
      ensures (before == origin + Join(old(added), separator) && count == |old(added)|
        && |added| < UINT32_MODULUS) ==> Joined()
    {
      JoinSnoc(added, value, separator);
      added := added + [value];
    }

    /** `add(value)` for a value whose printed form is `value`. */
    method Add(value: string)
      modifies this`items, this`added, out
      ensures items == Increment(old(items))
      ensures out.text == old(out.text) + (if old(items) != 0 then separator else "") + value
      ensures added == old(added) + [value]
      ensures old(Joined()) && |added| < UINT32_MODULUS ==> Joined()
    {
      ghost var before := out.text;
      ghost var count := items;
      BeginItem();
      out.Write(value);
      Record(value, before, count);
    }

    /** `addIf(value, null_value)`, `addIf(value)` and `addStringIf(...)`: adds the item only when
        it is present (the value differs from the null value, or converts to `true`); otherwise
        nothing is written or counted. */
    method AddIf(present: bool, value: string)
      modifies this`items, this`added, out
      ensures items == if present then Increment(old(items)) else old(items)
      ensures out.text == old(out.text) + (if present && old(items) != 0 then separator else "")
        + (if present then value else "")
      ensures added == old(added) + (if present then [value] else [])
      ensures old(Joined()) && |added| < UINT32_MODULUS ==> Joined()
    {
      if present {
        Add(value);
      }
    }

    /** `addIf(layout)`: adds a layout, printed by its own printer, when it is set. */
    method AddLayoutIf(l: LayoutQualifiers)
      modifies this`items, this`added, out
      ensures items == if LayoutIsSet(l) then Increment(old(items)) else old(items)
      ensures out.text == old(out.text) + (if LayoutIsSet(l) && old(items) != 0 then separator else "")
        + (if LayoutIsSet(l) then LayoutText(l) else "")
      ensures added == old(added) + (if LayoutIsSet(l) then [LayoutText(l)] else [])
      ensures old(Joined()) && |added| < UINT32_MODULUS ==> Joined()
    {
      if LayoutIsSet(l) {
        ghost var before := out.text;
        ghost var count := items;
        BeginItem();
        WriteLayout(out, l);
        Record(LayoutText(l), before, count);
      }
    }

    /** `addIf(memory, MemoryQualifier::none)`: adds memory qualifiers, printed by their own
        printer, when any bit is set. */
    method AddMemoryQualifierIf(q: MemoryQualifier)
      modifies this`items, this`added, out
      ensures items == if q != NoMemoryQualifier then Increment(old(items)) else old(items)
      ensures out.text == old(out.text)
        + (if q != NoMemoryQualifier && old(items) != 0 then separator else "")
        + (if q != NoMemoryQualifier then MemoryQualifierText(q) else "")
      ensures added == old(added) + (if q != NoMemoryQualifier then [MemoryQualifierText(q)] else [])
      ensures old(Joined()) && |added| < UINT32_MODULUS ==> Joined()
    {
      if q != NoMemoryQualifier {
        ghost var before := out.text;
        ghost var count := items;
        BeginItem();
        WriteMemoryQualifier(out, q);
        Record(MemoryQualifierText(q), before, count);
      }
    }

    /** `add(def)`: adds a definition, printed by its own printer. */
    method AddDefinition(d: Definition)
      modifies this`items, this`added, out
      ensures items == Increment(old(items))
      ensures out.text == old(out.text) + (if old(items) != 0 then separator else "") + DefinitionText(d)
      ensures added == old(added) + [DefinitionText(d)]
    {
      ghost var before := out.text;
      ghost var count := items;
      BeginItem();
      WriteDefinition(out, d);
      Record(DefinitionText(d), before, count);
    }
  }

  /** `operator<<(out, const LayoutQualifiers &)`: writes `layout(`, the memory layout and the
      integer entries above -1 separated by `, `, and `)`. */
  method WriteLayout(out: Stream, l: LayoutQualifiers)
    modifies out
    ensures out.text == old(out.text) + LayoutText(l)
  {
    var start := out.text;
    out.Write("layout(");
    var join := new StringJoiner(out, ", ");
    join.AddIf(l.memory != MemoryNone, MemoryName(l.memory));
    assert join.added == if l.memory != MemoryNone then [MemoryName(l.memory)] else [];
    join.AddIf(l.location > -1, QualifierText("location", l.location));
    join.AddIf(l.component > -1, QualifierText("component", l.component));
    join.AddIf(l.binding > -1, QualifierText("binding", l.binding));
    assert join.added == LayoutFields(l);
    assert join.Joined();
    ghost var inner := Join(join.added, ", ");
    assert out.text == start + "layout(" + inner;
    out.Write(")");
    assert LayoutText(l) == "layout(" + inner + ")";
    ConcatAssoc(start, "layout(", inner, ")");
  }

  /** `operator<<(out, const Definition &)`: the layout when set, the storage qualifier when not
      `none`, the type, the name, the array suffix when the size is not 0 and the initializer when
      present, separated by single spaces, then `;`. */
  method WriteDefinition(out: Stream, d: Definition)
    modifies out
    ensures out.text == old(out.text) + DefinitionText(d)
  {
    var start := out.text;
    var join := new StringJoiner(out, " ");
    join.AddLayoutIf(d.layout);
    assert join.added == if LayoutIsSet(d.layout) then [LayoutText(d.layout)] else [];
    join.AddIf(d.storage != StorageNone, StorageName(d.storage));
    join.Add(TypeName(d.ty));
    join.Add(d.name);
    join.AddIf(d.arraySize != 0, ArraySuffix(d.arraySize));
    var init := if InitializerIsSet(d.init) then InitializerText(d.init) else "";
    join.AddIf(InitializerIsSet(d.init), init);
    assert join.added == DefinitionFields(d);
    assert join.Joined();
    ghost var joined := Join(join.added, " ");
    assert out.text == start + joined;
    out.Write(";");
    assert DefinitionText(d) == joined + ";";
    ConcatAssoc3(start, joined, ";");
  }

  /** `operator<<(out, MemoryQualifier)`: the keyword of each flag set in the qualifier (tested with
      `operator&` against `none`), in a fixed order, separated by single spaces. */
  method WriteMemoryQualifier(out: Stream, q: MemoryQualifier)
    modifies out
    ensures out.text == old(out.text) + MemoryQualifierText(q)
  {
    var join := new StringJoiner(out, " ");
    join.AddIf(And(q, Coherent) != NoMemoryQualifier, "coherent");
    assert join.added == if q & Coherent != 0 then ["coherent"] else [];
    join.AddIf(And(q, Volatile) != NoMemoryQualifier, "volatile");
    join.AddIf(And(q, Restrict) != NoMemoryQualifier, "restrict");
    join.AddIf(And(q, ReadOnly) != NoMemoryQualifier, "readonly");
    join.AddIf(And(q, WriteOnly) != NoMemoryQualifier, "writeonly");
    assert join.added == MemoryQualifierWords(q);
    assert join.Joined();
  }

  lemma BlockTextRegroup(start: string, header: string, members: string, tail: string)
    ensures start + header + "\n{" + members + "\n}" + tail + ";"
      == start + (header + "\n{" + members + "\n}" + (tail + ";"))
  {
  }

  /** The loop `for (const auto &def : block_def.defs) join.add(def);` of the block printer: with
      the separator set to a newline and two spaces and at least one item already added, each
      member goes on its own indented line, as long as the counter does not wrap. */
  method AddMembers(join: StringJoiner, defs: seq<Definition>)
    modifies join`items, join`added, join.out
    ensures join.separator == old(join.separator)
    ensures (0 < old(join.items) && old(join.items) + |defs| < UINT32_MODULUS && join.separator == "\n  ")
      ==> join.items == old(join.items) + |defs| && join.out.text == old(join.out.text) + MembersText(defs)
  {
    ghost var small := 0 < join.items && join.items + |defs| < UINT32_MODULUS && join.separator == "\n  ";
    ghost var count := join.items;
    ghost var start := join.out.text;
    for i := 0 to |defs|
      invariant join.separator == old(join.separator)
      invariant small ==> join.items == count + i && join.out.text == start + MembersText(defs[..i])
    {
      join.AddDefinition(defs[i]);
      if small {
        MembersTextStep(start, defs, i);
      }
    }
    assert defs[..|defs|] == defs;
  }

  /** One turn of the member loop: the next member goes after the text printed so far. */
  lemma MembersTextStep(start: string, defs: seq<Definition>, i: nat)
    requires i < |defs|
    ensures start + MembersText(defs[..i]) + "\n  " + DefinitionText(defs[i]) == start + MembersText(defs[..i + 1])
  {
    MembersTextSnoc(defs[..i], defs[i]);
    assert defs[..i + 1] == defs[..i] + [defs[i]];
    ConcatAssoc(start, MembersText(defs[..i]), "\n  ", DefinitionText(defs[i]));
  }

  /** The first statement of the block printer: a joiner on `out` that adds the layout when set,
      the memory qualifiers when any is set, the storage qualifier and the block name. */
  method StartBlockHeader(out: Stream, b: BlockDefinition) returns (join: StringJoiner)
    modifies out
    ensures fresh(join) && join.out == out && join.separator == " "
    ensures join.items == |BlockHeaderFields(b)| && 2 <= join.items <= 4
    ensures out.text == old(out.text) + Join(BlockHeaderFields(b), " ")
  {
    join := new StringJoiner(out, " ");
    join.AddLayoutIf(b.layout);
    assert join.added == if LayoutIsSet(b.layout) then [LayoutText(b.layout)] else [];
    join.AddMemoryQualifierIf(b.memory);
    join.Add(StorageName(b.storage));
    join.Add(b.blockName);
    assert join.added == BlockHeaderFields(b);
    assert join.Joined();
  }

  /** `operator<<(out, const BlockDefinition &)`: the header joined by spaces, a newline and `{`,
      the members through the same joiner with the separator switched to a newline and two spaces,
      a newline and `}`, the instance name after a space when there is one, and `;`. The joiner's
      counter runs across the header and the members, so the text is stated for blocks too small
      for it to wrap. */
  method WriteBlock(out: Stream, b: BlockDefinition)
    modifies out
    ensures |b.defs| < UINT32_MODULUS - 4 ==> out.text == old(out.text) + BlockText(b)
  {
    var start := out.text;
    var join := StartBlockHeader(out, b);
    ghost var header := Join(BlockHeaderFields(b), " ");
    out.Write("\n{");
    ghost var t1 := out.text;
    join.separator := "\n  ";
    AddMembers(join, b.defs);
    ghost var members := MembersText(b.defs);
    ghost var t2 := out.text;
    out.Write("\n}");
    ghost var t3 := out.text;
    join.separator := " ";
    ghost var small := |b.defs| < UINT32_MODULUS - 4;
    assert small ==> join.items != 0 && t2 == t1 + members;
    join.AddIf(b.instanceName.Some?, if b.instanceName.Some? then b.instanceName.value else "");
    ghost var tail := if b.instanceName.Some? then " " + b.instanceName.value else "";
    if small {
      if b.instanceName.Some? {
        ConcatAssoc3(t3, " ", b.instanceName.value);
      }
      assert out.text == t3 + tail;
      BlockTextRegroup(start, header, members, tail);
    }
    out.Write(";");
  }
}
