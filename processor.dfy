/**
 * The processor's generation of one companion class: a writer that only
 * appends, the list of ColumnInfo objects that processFields fills, and the
 * methods that write the class. Each method is proved against the
 * specification functions of FieldCollector and Emitter.
 */
module Processor {
  import opened Elements
  import opened Annotations
  import opened Columns
  import opened Emitter
  import opened FieldCollector

  const METADATA_OPEN := "    public void addMetadata() {\n"
  const METHOD_CLOSE := "    }\n"
  const CLASS_CLOSE := "}\n"

  /** The package clause, imports, class header and the singleton field. */
  function Preamble(t: TypeElement, sinceStamp: string, dateStamp: string): seq<string>
    requires t.simpleName != ""
  {
    var q := QClassName(t.simpleName);
    HeaderLines(t, sinceStamp, dateStamp) + [SingletonLine(q, ClassObjectName(t.simpleName), GetTableName(t))]
  }

  /** The constructors and the addMetadata method closing the class. */
  function Closing(t: TypeElement, columns: seq<ColumnRecord>): seq<string>
    requires AllHintsComplete(columns)
  {
    ClosingLines(QClassName(t.simpleName), GetTableSchema(t), GetTableName(t), columns)
  }

  function ClosingLines(qClassName: string, schema: string, table: string, columns: seq<ColumnRecord>): seq<string>
    requires AllHintsComplete(columns)
  {
    ConstructorLines(qClassName, schema, table) + [METADATA_OPEN] + MetadataLines(columns) + [METHOD_CLOSE, CLASS_CLOSE]
  }

  /** The whole text written for entity t, one string per writer.write call. */
  function CompanionSource(t: TypeElement, conv: string -> string, sinceStamp: string, dateStamp: string): seq<string>
    requires t.simpleName != ""
  {
    var collected := VisitType(t, QClassName(t.simpleName), conv, Collected([], []));
    VisitTypeHintsComplete(t, QClassName(t.simpleName), conv, Collected([], []));
    Preamble(t, sinceStamp, dateStamp) + collected.text + Closing(t, collected.columns)
  }

  /** The snapshots depend only on the objects' own fields. */
  twostate lemma RecordsUnchanged(cs: seq<ColumnInfo>)
    requires forall k | 0 <= k < |cs| :: unchanged(cs[k])
    ensures Records(cs) == old(Records(cs))
  {
  }

  lemma RecordsSnoc(cs: seq<ColumnInfo>, info: ColumnInfo)
    ensures Records(cs + [info]) == Records(cs) + [info.Snapshot()]
  {
  }

  /**
   * One generation: `out` is the writer, `columns` the list processFields
   * appends to, `conv` the camel-case converter used for default column
   * names.
   */
  class Generation {
    const conv: string -> string
    var out: seq<string>
    var columns: seq<ColumnInfo>

    constructor (conv: string -> string)
      ensures this.conv == conv && out == [] && columns == []
    {
      this.conv := conv;
      out := [];
      columns := [];
    }

    /** The collector's state: the snapshots of the columns and the text written. */
    function State(): Collected
      reads this, columns
    {
      Collected(Records(columns), out)
    }

    method Write(s: string)
      modifies this`out
      ensures out == old(out) + [s]
      ensures Records(columns) == old(Records(columns))
    {
      out := out + [s];
    }

    method WriteAll(lines: seq<string>)
      modifies this`out
      ensures out == old(out) + lines
      ensures Records(columns) == old(Records(columns))
    {
      for i := 0 to |lines|
        invariant out == old(out) + lines[..i]
      {
        Write(lines[i]);
        assert lines[..i + 1] == lines[..i] + [lines[i]];
      }
    }

    /** Whether some collected column already has this name. */
    method ColumnExists(column: string) returns (b: bool)
      ensures b <==> HasColumn(Records(columns), column)
    {
      var k := 0;
      while k < |columns|
        invariant 0 <= k <= |columns|
        invariant forall j | 0 <= j < k :: columns[j].column != column
      {
        if columns[k].column == column {
          assert Records(columns)[k].column == column;
          return true;
        }
        k := k + 1;
      }
      return false;
    }

    /** writerColumn: sets the field's hints on info and writes its Javadoc and path field. */
    method WriterColumn(e: Element, javaType: string, constantName: string, info: ColumnInfo)
      modifies this`out, info
      ensures info.Snapshot() == WithHints(old(info.Snapshot()), e, javaType)
      ensures out == old(out) + ColumnText(e, javaType, constantName)
    {
      HintTypesDistinct();
      WriteJavadoc(e);
      info.nullable := ColumnNullableHint(e);
      info.isJson := IsJson(e);
      Write(PathFieldDeclaration(javaType, constantName));
      AppendTwo(old(out), JavadocLines(e), [PathFieldDeclaration(javaType, constantName)]);
      if javaType == STRING_TYPE {
        info.length := Some(ColumnLengthHint(e));
      } else if javaType == INTEGER_TYPE {
        info.columnDefinition := Some(ColumnDefinitionHint(e));
      } else if javaType == BIG_DECIMAL_TYPE {
        info.precision := Some(ColumnPrecisionHint(e));
        info.scale := Some(ColumnScaleHint(e));
      }
    }

    /** The field's Javadoc, when it has a non-empty one. */
    method WriteJavadoc(e: Element)
      modifies this`out
      ensures out == old(out) + JavadocLines(e)
    {
      var javadoc := e.docComment;
      if javadoc.Some? && javadoc.value != "" {
        Write("    /**\n     *" + javadoc.value + "     */\n");
      }
    }

    /**
     * processFields: the superclass first (unless it is java.lang.Object),
     * then each enclosed element in declaration order.
     */
    method ProcessFields(qClassName: string, t: TypeElement)
      modifies this
      ensures State() == VisitType(t, qClassName, conv, old(State()))
      decreases t
    {
      if ProcessesSuperclass(t) {
        ProcessFields(qClassName, t.superclass.value);
      }
      ProcessMembers(qClassName, t.members);
    }

    /** The loop of processFields over the enclosed elements, in declaration order. */
    method ProcessMembers(qClassName: string, members: seq<Element>)
      modifies this
      ensures State() == VisitElements(members, qClassName, conv, old(State()))
    {
      var i := 0;
      while i < |members|
        invariant 0 <= i <= |members|
        invariant State() == VisitElements(members[..i], qClassName, conv, old(State()))
      {
        ProcessElement(qClassName, members[i]);
        VisitElementsStep(members, i, qClassName, conv, old(State()));
        i := i + 1;
      }
      assert members[..|members|] == members;
    }

    /**
     * One pass of the loop in processFields: a kept field whose column name
     * is new gets a ColumnInfo; an @Id field also gets the primary-key field.
     */
    method ProcessElement(qClassName: string, e: Element)
      modifies this
      ensures State() == VisitElement(e, qClassName, conv, old(State()))
    {
      if e.kind == Field {
        var fieldName := e.simpleName;
        if !ShouldBeIgnored(e) {
          var constantName := ConstantName(fieldName);
          var column := match GetColumnValue(e) case Some(v) => v case None => conv(fieldName);
          assert column == ColumnName(e, conv);
          var taken := ColumnExists(column);
          if !taken {
            AddField(qClassName, e, column, constantName);
            return;
          }
        }
      }
      VisitElementSkips(e, qClassName, conv, State());
    }

    /** A kept field under a new column name: its ColumnInfo, its text and, for @Id, the primary-key field. */
    method AddField(qClassName: string, e: Element, column: string, constantName: string)
      requires e.kind == Field && !ShouldBeIgnored(e)
      requires column == ColumnName(e, conv) && constantName == ConstantName(e.simpleName)
      requires !HasColumn(Records(columns), column)
      modifies this
      ensures State() == VisitElement(e, qClassName, conv, old(State()))
    {
      VisitElementAdds(e, qClassName, conv, State());
      AddColumn(e, column, constantName);
      if HasAnnotation(e.annotations, ID_ANNOTATION) {
        WriteAll(PrimaryKeyLines(qClassName, constantName));
      }
    }

    /** A new ColumnInfo for a kept field: appended to the list, then filled and written by writerColumn. */
    method AddColumn(e: Element, column: string, constantName: string)
      requires constantName == ConstantName(e.simpleName)
      modifies this
      ensures Records(columns) == old(Records(columns)) + [NewColumn(e, column)]
      ensures out == old(out) + ColumnText(e, e.typeName, constantName)
    {
      ghost var prev := columns;
      label start:
      var info := new ColumnInfo();
      var javaType := e.typeName;
      info.column := column;
      info.javaType := javaType;
      info.javaField := constantName;
      columns := columns + [info];
      ghost var unset := ColumnRecord("", "", "", None, false, false, None, None, None);
      assert info.Snapshot() == unset.(column := column, javaType := e.typeName, javaField := ConstantName(e.simpleName));
      WriterColumn(e, javaType, constantName, info);
      assert info.Snapshot() == NewColumn(e, column);
      RecordsUnchanged@start(prev);
      RecordsSnoc(prev, info);
    }

    /** The addMetadata call for the column at position i. */
    method WriteMetadataCall(i: int)
      requires 0 <= i < |columns| && columns[i].Snapshot().HintsComplete()
      modifies this`out
      ensures out == old(out) + [MetadataLine(columns[i].Snapshot(), i + 1)]
      ensures Records(columns) == old(Records(columns))
    {
      Write(MetadataLine(columns[i].Snapshot(), i + 1));
    }

    /** The addMetadata body: one call per column, with index i + 1 for the i-th. */
    method AddMetadataCalls()
      requires AllHintsComplete(Records(columns))
      modifies this`out
      ensures out == old(out) + MetadataLines(old(Records(columns)))
    {
      ghost var cs := Records(columns);
      var i := 0;
      while i < |columns|
        invariant 0 <= i <= |columns| == |cs|
        invariant Records(columns) == cs
        invariant AllHintsComplete(cs[..i])
        invariant out == old(out) + MetadataLines(cs[..i])
      {
        WriteMetadataCall(i);
        MetadataLinesStep(cs, i);
        AppendTwo(old(out), MetadataLines(cs[..i]), [MetadataLine(cs[i], i + 1)]);
        i := i + 1;
      }
      assert cs[..|columns|] == cs;
    }

    /** The constructors and the addMetadata method, written after the fields. */
    method WriteClosing(qClassName: string, schema: string, table: string)
      requires AllHintsComplete(Records(columns))
      modifies this`out
      ensures out == old(out) + ClosingLines(qClassName, schema, table, old(Records(columns)))
    {
      ghost var cs := Records(columns);
      var head := ConstructorLines(qClassName, schema, table) + [METADATA_OPEN];
      var tail := [METHOD_CLOSE, CLASS_CLOSE];
      WriteAll(head);
      assert Records(columns) == cs;
      AddMetadataCalls();
      ghost var body := MetadataLines(cs);
      assert out == old(out) + head + body;
      WriteAll(tail);
      assert Records(columns) == cs;
      AppendThree(old(out), head, body, tail);
    }

    /** generateFieldConstants: the whole companion class for t. */
    method GenerateFieldConstants(t: TypeElement, sinceStamp: string, dateStamp: string)
      requires t.simpleName != ""
      modifies this
      ensures out == old(out) + CompanionSource(t, conv, sinceStamp, dateStamp)
    {
      var className := t.simpleName;
      var qClassName := QClassName(className);
      var table := GetTableName(t);
      var schema := GetTableSchema(t);
      WritePreamble(t, qClassName, table, sinceStamp, dateStamp);
      ghost var preamble := out;
      columns := [];
      assert State() == Collected([], preamble);
      ProcessFields(qClassName, t);
      ghost var collected := VisitType(t, qClassName, conv, Collected([], []));
      VisitTypeTextPrefix(t, qClassName, conv, [], preamble);
      VisitTypeHintsComplete(t, qClassName, conv, Collected([], []));
      assert Records(columns) == collected.columns;
      assert out == preamble + collected.text;
      WriteClosing(qClassName, schema, table);
      assert out == preamble + collected.text + ClosingLines(qClassName, schema, table, collected.columns);
      AppendThree(old(out), Preamble(t, sinceStamp, dateStamp), collected.text, Closing(t, collected.columns));
    }

    /** The header of the companion class and its singleton field. */
    method WritePreamble(t: TypeElement, qClassName: string, table: string, sinceStamp: string, dateStamp: string)
      requires t.simpleName != "" && qClassName == QClassName(t.simpleName) && table == GetTableName(t)
      modifies this`out
      ensures out == old(out) + Preamble(t, sinceStamp, dateStamp)
    {
      var classObjectName := ClassObjectName(t.simpleName);
      WriteAll(HeaderLines(t, sinceStamp, dateStamp) + [SingletonLine(qClassName, classObjectName, table)]);
    }
  }
}
