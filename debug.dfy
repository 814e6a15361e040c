/** The debug-output callback: it names a message's source, type and severity, as listed in chapter
    20 (Debug Output) of the OpenGL 4.6 Core Profile specification, and writes a fixed report to the
    error stream for high-severity messages and to standard output otherwise. */
module Debug {
  import opened Results
  import opened GlTypes
  import opened Text
  import opened Streams

  const DEBUG_SOURCE_API: GLenum := 0x8246
  const DEBUG_SOURCE_WINDOW_SYSTEM: GLenum := 0x8247
  const DEBUG_SOURCE_SHADER_COMPILER: GLenum := 0x8248
  const DEBUG_SOURCE_THIRD_PARTY: GLenum := 0x8249
  const DEBUG_SOURCE_APPLICATION: GLenum := 0x824A
  const DEBUG_SOURCE_OTHER: GLenum := 0x824B

  const DEBUG_TYPE_ERROR: GLenum := 0x824C
  const DEBUG_TYPE_DEPRECATED_BEHAVIOR: GLenum := 0x824D
  const DEBUG_TYPE_UNDEFINED_BEHAVIOR: GLenum := 0x824E
  const DEBUG_TYPE_PORTABILITY: GLenum := 0x824F
  const DEBUG_TYPE_PERFORMANCE: GLenum := 0x8250
  const DEBUG_TYPE_OTHER: GLenum := 0x8251
  const DEBUG_TYPE_MARKER: GLenum := 0x8268
  const DEBUG_TYPE_PUSH_GROUP: GLenum := 0x8269
  const DEBUG_TYPE_POP_GROUP: GLenum := 0x826A

  const DEBUG_SEVERITY_HIGH: GLenum := 0x9146
  const DEBUG_SEVERITY_MEDIUM: GLenum := 0x9147
  const DEBUG_SEVERITY_LOW: GLenum := 0x9148
  const DEBUG_SEVERITY_NOTIFICATION: GLenum := 0x826B

  /** The name printed for a code the callback does not know. */
  const Unknown: string := "??"

  /** The six debug sources, in the order the callback tests them. */
  const Sources: seq<(GLenum, string)> := [
    (DEBUG_SOURCE_API, "API"),
    (DEBUG_SOURCE_WINDOW_SYSTEM, "WINDOW_SYSTEM"),
    (DEBUG_SOURCE_SHADER_COMPILER, "SHADER_COMPILER"),
    (DEBUG_SOURCE_THIRD_PARTY, "THIRD_PARTY"),
    (DEBUG_SOURCE_APPLICATION, "APPLICATION"),
    (DEBUG_SOURCE_OTHER, "OTHER")
  ]

  /** The nine debug types. */
  const Types: seq<(GLenum, string)> := [
    (DEBUG_TYPE_ERROR, "ERROR"),
    (DEBUG_TYPE_DEPRECATED_BEHAVIOR, "DEPRECATED_BEHAVIOR"),
    (DEBUG_TYPE_UNDEFINED_BEHAVIOR, "UNDEFINED_BEHAVIOR"),
    (DEBUG_TYPE_PORTABILITY, "PORTABILITY"),
    (DEBUG_TYPE_PERFORMANCE, "PERFORMANCE"),
    (DEBUG_TYPE_MARKER, "MARKER"),
    (DEBUG_TYPE_PUSH_GROUP, "PUSH_GROUP"),
    (DEBUG_TYPE_POP_GROUP, "POP_GROUP"),
    (DEBUG_TYPE_OTHER, "OTHER")
  ]

  /** The four severities. */
  const Severities: seq<(GLenum, string)> := [
    (DEBUG_SEVERITY_HIGH, "HIGH"),
    (DEBUG_SEVERITY_MEDIUM, "MEDIUM"),
    (DEBUG_SEVERITY_LOW, "LOW"),
    (DEBUG_SEVERITY_NOTIFICATION, "NOTIFICATION")
  ]

  /** A `switch` over the table's codes: the name of the first entry with the code, or `??`. */
  function Lookup(table: seq<(GLenum, string)>, code: GLenum): (name: string)
    ensures (forall i :: 0 <= i < |table| ==> table[i].0 != code) ==> name == Unknown
    ensures name != Unknown ==> exists i :: 0 <= i < |table| && table[i] == (code, name)
  {
    if table == [] then Unknown
    else if table[0].0 == code then table[0].1
    else Lookup(table[1..], code)
  }

  /** Reads a printed name back as the code of the first entry with that name. */
  function Unlookup(table: seq<(GLenum, string)>, name: string): Option<GLenum>
  {
    if table == [] then None
    else if table[0].1 == name then Some(table[0].0)
    else Unlookup(table[1..], name)
  }

  /** The codes of a table are distinct, and so are its names. */
  predicate Distinct(table: seq<(GLenum, string)>)
  {
    forall i, j :: 0 <= i < j < |table| ==> table[i].0 != table[j].0 && table[i].1 != table[j].1
  }

  /** In a table of distinct entries, an entry's code prints as the entry's name, and the name reads
      back as the code. */
  lemma {:induction false} LookupFound(table: seq<(GLenum, string)>, i: nat)
    requires i < |table| && Distinct(table)
    ensures Lookup(table, table[i].0) == table[i].1
    ensures Unlookup(table, table[i].1) == Some(table[i].0)
  {
    if i > 0 {
      var rest := table[1..];
      assert rest[i - 1] == table[i];
      assert Distinct(rest) by {
        forall a, b | 0 <= a < b < |rest|
          ensures rest[a].0 != rest[b].0 && rest[a].1 != rest[b].1
        {
          assert rest[a] == table[a + 1] && rest[b] == table[b + 1];
        }
      }
      LookupFound(rest, i - 1);
    }
  }

  lemma TablesAreDistinct()
    ensures Distinct(Sources) && Distinct(Types) && Distinct(Severities)
  {
  }

  /** The `switch (source)`: the six known sources print as their own names, each found back from
      its name; any other code prints as `??`. */
  function SourceName(source: GLenum): (name: string)
    ensures name == Unknown <==> source !in {0x8246, 0x8247, 0x8248, 0x8249, 0x824A, 0x824B}
    ensures name != Unknown ==> Unlookup(Sources, name) == Some(source)
  {
    SourceNames(source);
    Lookup(Sources, source)
  }

  /** The `switch (type)`: the nine known message types print as their own names, each found back
      from its name; any other code prints as `??`. */
  function TypeName(t: GLenum): (name: string)
    ensures name == Unknown <==> t !in {0x824C, 0x824D, 0x824E, 0x824F, 0x8250, 0x8251, 0x8268, 0x8269, 0x826A}
    ensures name != Unknown ==> Unlookup(Types, name) == Some(t)
  {
    TypeNames(t);
    Lookup(Types, t)
  }

  /** The `switch (severity)`: the four known severities print as their own names, each found back
      from its name; any other code prints as `??`. */
  function SeverityName(severity: GLenum): (name: string)
    ensures name == Unknown <==> severity !in {0x9146, 0x9147, 0x9148, 0x826B}
    ensures name != Unknown ==> Unlookup(Severities, name) == Some(severity)
  {
    SeverityNames(severity);
    Lookup(Severities, severity)
  }

  /** Looking a code up in the source table. */
  lemma SourceNames(source: GLenum)
    ensures Lookup(Sources, source) == Unknown <==> source !in {0x8246, 0x8247, 0x8248, 0x8249, 0x824A, 0x824B}
    ensures Lookup(Sources, source) != Unknown ==> Unlookup(Sources, Lookup(Sources, source)) == Some(source)
  {
    if source in {0x8246, 0x8247, 0x8248, 0x8249, 0x824A, 0x824B} {
      TablesAreDistinct();
      LookupFound(Sources, source - 0x8246);
    } else {
      assert forall i :: 0 <= i < |Sources| ==> Sources[i].0 != source;
    }
  }

  /** Looking a code up in the message type table. */
  lemma TypeNames(t: GLenum)
    ensures Lookup(Types, t) == Unknown <==> t !in {0x824C, 0x824D, 0x824E, 0x824F, 0x8250, 0x8251, 0x8268, 0x8269, 0x826A}
    ensures Lookup(Types, t) != Unknown ==> Unlookup(Types, Lookup(Types, t)) == Some(t)
  {
    if t in {0x824C, 0x824D, 0x824E, 0x824F, 0x8250} {
      TablesAreDistinct();
      LookupFound(Types, t - 0x824C);
    } else if t in {0x8268, 0x8269, 0x826A} {
      TablesAreDistinct();
      LookupFound(Types, t - 0x8268 + 5);
    } else if t == 0x8251 {
      TablesAreDistinct();
      LookupFound(Types, 8);
    } else {
      assert forall i :: 0 <= i < |Types| ==> Types[i].0 != t;
    }
  }

  /** Looking a code up in the severity table. */
  lemma SeverityNames(severity: GLenum)
    ensures Lookup(Severities, severity) == Unknown <==> severity !in {0x9146, 0x9147, 0x9148, 0x826B}
    ensures Lookup(Severities, severity) != Unknown ==> Unlookup(Severities, Lookup(Severities, severity)) == Some(severity)
  {
    if severity in {0x9146, 0x9147, 0x9148} {
      TablesAreDistinct();
      LookupFound(Severities, severity - 0x9146);
    } else if severity == 0x826B {
      TablesAreDistinct();
      LookupFound(Severities, 3);
    } else {
      assert forall i :: 0 <= i < |Severities| ==> Severities[i].0 != severity;
    }
  }

  /** No name in a table free of line breaks, nor `??`, holds one. */
  lemma NameIsOneLine(table: seq<(GLenum, string)>, code: GLenum)
    requires forall i :: 0 <= i < |table| ==> '\n' !in table[i].1
    ensures '\n' !in Lookup(table, code)
  {
    var name := Lookup(table, code);
    if name != Unknown {
      var i :| 0 <= i < |table| && table[i] == (code, name);
    }
  }

  /** No name in the three tables holds a line break. */
  lemma TableNamesAreOneLine()
    ensures forall i :: 0 <= i < |Sources| ==> '\n' !in Sources[i].1
    ensures forall i :: 0 <= i < |Types| ==> '\n' !in Types[i].1
    ensures forall i :: 0 <= i < |Severities| ==> '\n' !in Severities[i].1
  {
  }

  /** The lines of the report, without their line breaks. */
  function ReportLines(source: GLenum, t: GLenum, id: GLuint, severity: GLenum, message: string): seq<string>
  {
    [ "",
      "[OpenGL Debug Message] (" + Decimal(id) + ")",
      "Source:   " + SourceName(source),
      "Type:     " + TypeName(t),
      "Severity: " + SeverityName(severity),
      "Message:  " + message,
      "",
      "" ]
  }

  /** The report the callback writes: a line break, the header with the id, one line each for the
      source, type, severity and message, and two line breaks. */
  function Report(source: GLenum, t: GLenum, id: GLuint, severity: GLenum, message: string): (r: string)
    ensures r == Join(ReportLines(source, t, id, severity, message), "\n")
  {
    ReportShape(Decimal(id), SourceName(source), TypeName(t), SeverityName(severity), message);
    "\n[OpenGL Debug Message] (" + Decimal(id) + ")"
    + "\nSource:   " + SourceName(source)
    + "\nType:     " + TypeName(t)
    + "\nSeverity: " + SeverityName(severity)
    + "\nMessage:  " + message
    + "\n\n"
  }

  /** Eight items joined: each after the one before it and a separator. */
  lemma JoinEight(items: seq<string>, sep: string)
    requires |items| == 8
    ensures Join(items, sep) == items[0] + sep + items[1] + sep + items[2] + sep + items[3] + sep + items[4]
      + sep + items[5] + sep + items[6] + sep + items[7]
  {
    assert Join(items[..1], sep) == items[0];
    JoinStep(items, 1, sep);
    JoinStep(items, 2, sep);
    JoinStep(items, 3, sep);
    JoinStep(items, 4, sep);
    JoinStep(items, 5, sep);
    JoinStep(items, 6, sep);
    JoinStep(items, 7, sep);
    assert items[..8] == items;
  }

  /** Joining one more item of a run of items. */
  lemma JoinStep(items: seq<string>, k: nat, sep: string)
    requires 0 < k < |items|
    ensures Join(items[..k + 1], sep) == Join(items[..k], sep) + sep + items[k]
  {
    JoinSnoc(items[..k], items[k], sep);
    assert items[..k] + [items[k]] == items[..k + 1];
  }

  /** A line break and a tag, then a value, is a line break and then the tagged value. */
  lemma AppendLine(x: string, tag: string, v: string)
    ensures x + ("\n" + tag) + v == x + "\n" + (tag + v)
  {
  }

  /** The header of the report is a line break and then the header line. */
  lemma HeaderSplit(d: string)
    ensures "\n[OpenGL Debug Message] (" + d + ")" == "" + "\n" + ("[OpenGL Debug Message] (" + d + ")")
  {
    assert "\n[OpenGL Debug Message] (" == "\n" + "[OpenGL Debug Message] (";
    ConcatAssoc3("\n", "[OpenGL Debug Message] (", d);
    ConcatAssoc3("\n", "[OpenGL Debug Message] (" + d, ")");
  }

  /** Each tag the report writes starts with the line break that ends the line before it. */
  lemma TagsSplit()
    ensures "\nSource:   " == "\n" + "Source:   "
    ensures "\nType:     " == "\n" + "Type:     "
    ensures "\nSeverity: " == "\n" + "Severity: "
    ensures "\nMessage:  " == "\n" + "Message:  "
  {
  }

  /** The report's text, whatever the id digits, names and message, is its lines joined by line
      breaks. */
  lemma ReportShape(d: string, s: string, ty: string, v: string, m: string)
    ensures "\n[OpenGL Debug Message] (" + d + ")" + "\nSource:   " + s + "\nType:     " + ty
      + "\nSeverity: " + v + "\nMessage:  " + m + "\n\n"
      == Join(["", "[OpenGL Debug Message] (" + d + ")", "Source:   " + s, "Type:     " + ty,
               "Severity: " + v, "Message:  " + m, "", ""], "\n")
  {
    var lines := ["", "[OpenGL Debug Message] (" + d + ")", "Source:   " + s, "Type:     " + ty,
                  "Severity: " + v, "Message:  " + m, "", ""];
    JoinEight(lines, "\n");
    var header := "\n[OpenGL Debug Message] (" + d + ")";
    HeaderSplit(d);
    TagsSplit();
    var r2 := header + "\nSource:   " + s;
    AppendLine(header, "Source:   ", s);
    var r3 := r2 + "\nType:     " + ty;
    AppendLine(r2, "Type:     ", ty);
    var r4 := r3 + "\nSeverity: " + v;
    AppendLine(r3, "Severity: ", v);
    var r5 := r4 + "\nMessage:  " + m;
    AppendLine(r4, "Message:  ", m);
    assert r5 + "\n\n" == r5 + "\n" + "" + "\n" + "";
  }

  /** The report's lines hold no line break when the id digits, the names and the message hold
      none. */
  lemma ReportLinesAreOneLine(d: string, s: string, ty: string, v: string, m: string)
    requires '\n' !in d && '\n' !in s && '\n' !in ty && '\n' !in v && '\n' !in m
    ensures forall i :: 0 <= i < 8 ==> '\n' !in ["", "[OpenGL Debug Message] (" + d + ")", "Source:   " + s,
      "Type:     " + ty, "Severity: " + v, "Message:  " + m, "", ""][i]
  {
    assert '\n' !in "[OpenGL Debug Message] (" + d + ")";
    assert '\n' !in "Source:   " + s && '\n' !in "Type:     " + ty;
    assert '\n' !in "Severity: " + v && '\n' !in "Message:  " + m;
  }

  /** For a message without line breaks, splitting the report at its line breaks gives exactly the
      eight report lines: an empty line, the header, the four labelled lines and two empty lines. */
  lemma ReportLayout(source: GLenum, t: GLenum, id: GLuint, severity: GLenum, message: string)
    requires '\n' !in message
    ensures Split(Report(source, t, id, severity, message), "\n") == ReportLines(source, t, id, severity, message)
  {
    var lines := ReportLines(source, t, id, severity, message);
    assert '\n' !in Decimal(id) by {
      var d := Decimal(id);
      forall i | 0 <= i < |d| ensures d[i] != '\n' { assert IsDigit(d[i]); }
    }
    TableNamesAreOneLine();
    NameIsOneLine(Sources, source);
    NameIsOneLine(Types, t);
    NameIsOneLine(Severities, severity);
    ReportLinesAreOneLine(Decimal(id), SourceName(source), TypeName(t), SeverityName(severity), message);
    SplitJoin(lines, "\n");
  }

  /** Where the report goes. */
  datatype Target = StandardOutput | StandardError

  /** The report goes to the error stream exactly for high-severity messages. */
  function ReportTarget(severity: GLenum): (target: Target)
    ensures target == StandardError <==> SeverityName(severity) == "HIGH"
  {
    if severity == DEBUG_SEVERITY_HIGH then StandardError else StandardOutput
  }

  /** The report's insertions into the chosen stream, in order. */
  method WriteReport(out: Stream, source: GLenum, t: GLenum, id: GLuint, severity: GLenum, message: string)
    modifies out
    ensures out.text == old(out.text) + Report(source, t, id, severity, message)
  {
    ghost var start := out.text;
    var srcName, typeName, severityName := SourceName(source), TypeName(t), SeverityName(severity);
    out.Write("\n[OpenGL Debug Message] (");
    out.Write(Decimal(id));
    ConcatAssoc3(start, "\n[OpenGL Debug Message] (", Decimal(id));
    out.Write(")");
    ghost var r := "\n[OpenGL Debug Message] (" + Decimal(id) + ")";
    ConcatAssoc3(start, "\n[OpenGL Debug Message] (" + Decimal(id), ")");
    out.Write("\nSource:   ");
    out.Write(srcName);
    ConcatAssoc(start, r, "\nSource:   ", srcName);
    r := r + "\nSource:   " + srcName;
    out.Write("\nType:     ");
    out.Write(typeName);
    ConcatAssoc(start, r, "\nType:     ", typeName);
    r := r + "\nType:     " + typeName;
    out.Write("\nSeverity: ");
    out.Write(severityName);
    ConcatAssoc(start, r, "\nSeverity: ", severityName);
    r := r + "\nSeverity: " + severityName;
    out.Write("\nMessage:  ");
    out.Write(message);
    ConcatAssoc(start, r, "\nMessage:  ", message);
    r := r + "\nMessage:  " + message;
    out.Write("\n\n");
    ConcatAssoc3(start, r, "\n\n");
  }

  /** `debugCallback`: a line break to standard output whatever the severity, then the report to the
      error stream for a high-severity message and to standard output otherwise. The length and the
      user pointer are not used. */
  method DebugCallback(cout: Stream, cerr: Stream, source: GLenum, t: GLenum, id: GLuint,
                       severity: GLenum, length: GLsizei, message: string)
    requires cout != cerr
    modifies cout, cerr
    ensures ReportTarget(severity) == StandardError ==>
      cout.text == old(cout.text) + "\n" && cerr.text == old(cerr.text) + Report(source, t, id, severity, message)
    ensures ReportTarget(severity) == StandardOutput ==>
      cout.text == old(cout.text) + "\n" + Report(source, t, id, severity, message) && cerr.text == old(cerr.text)
  {
    cout.Write("\n");
    var out := if severity == DEBUG_SEVERITY_HIGH then cerr else cout;
    WriteReport(out, source, t, id, severity, message);
  }
}
