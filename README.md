# QuerydslSqlSpringAnnotationProcessor, modelled in Dafny

The processor is a build-time annotation processor. For each class annotated with Spring Data's
`@Table`, it writes a companion class `Q<Name>` in the querydsl-sql style. That class holds:

- a singleton field;
- one typed path field per persisted column, plus a `primaryKey` field for each kept `@Id` field;
- four constructors that hand the schema and table to the base class;
- an `addMetadata()` method that registers every column under a 1-based index, with a
  `ColumnMetadata` type descriptor.

This project models the core of that generation:

- **Field collector** (`processFields`). It visits the superclass chain first and stops at
  `java.lang.Object`. It skips static, final and `@Transient` fields. A non-empty `@Column`
  value gives the column name; otherwise the camel-case conversion of the field name does. A name
  that was already collected is dropped, so the first occurrence wins.
- **`writerColumn` and the `ColumnInfo` record.** This covers the constant hint lookups (length 0,
  nullable true, column definition `""`, precision 0, scale 2), the JSON flag taken from
  `@JdbcTypeCode("3001")`, and the getters that supply defaults for precision and scale.
- **Type mapper and index loop** of `generateFieldConstants`: the if/else chain from Java type
  name and hints to the descriptor text, `.notNull()`, and the positional index.
- **Naming**: the `Q` prefix, the singleton's lower-cased first character, the table name taken
  from `@Table` `value`/`name`, and the schema that defaults to `public`.

## Structure

| file | module | form |
|---|---|---|
| `elements.dfy` | `Elements` | The compiler's elements as plain datatypes. A `TypeElement` has an optional superclass, enclosed `Element`s and `AnnotationMirror`s. Each mirror has its attributes as an ordered list of key/value pairs. |
| `annotations.dfy` | `Annotations` | The lookup helpers (`getAnnotationMirror`, `hasAnnotation`, `getColumnValue`, `isJson`, `shouldBeIgnored`, `getTableName`, `getTableSchema`). These are early-return searches that mutate nothing, so they are written as recursive functions. |
| `columns.dfy` | `Columns` | `ColumnInfo` as a class with mutable fields, and its value snapshot `ColumnRecord`, which carries the getters with defaults. |
| `numerals.dfy` | `Numerals` | Decimal rendering of a Java `int` in string concatenation, and its inverse. |
| `type_mapping.dfy` | `TypeMapping` | The descriptor chain as a function, and its properties. |
| `emitter.dfy` | `Emitter` | The text of every `writer.write` call, as functions. |
| `field_collector.dfy` | `FieldCollector` | `processFields` as a specification function over (column records, text written), and its properties. |
| `processor.dfy` | `Processor` | Class `Generation`: the writer (`out: seq<string>`), the `columns` list of `ColumnInfo` objects, and the imperative methods. Each method is proved equal to the specification functions. |

The writer is an append-only sequence with one string per `write` call. `ProcessFields` recurses
and loops as the source does. Its postcondition is that the new state (the column snapshots and
the text written) equals `VisitType` applied to the old state. Its properties are proved
about `VisitType`: distinct names, superclass first, declaration
order, only appending, nothing from ignored fields, and every kept field present.
`GenerateFieldConstants` is proved to write exactly `CompanionSource(t, ...)`. That is the header,
the fields of `VisitType`, the constructors and one `addMetadata` call per collected column.

Two behaviours of the code are worth knowing when reading the model:

- The code writes a `primaryKey` field for every kept `@Id` field, right after that field's path
  field. Two `@Id` fields therefore give two fields named `primaryKey`.
- Length, precision and scale are not resolved from annotations. The lookups are stubs that return
  constants, and the model uses those constants.

## Model

| member | source | states |
|---|---|---|
| Annotations.GetAnnotationMirror | src/main/java/io/github/xiaochenxt/processor/QuerydslSqlSpringAnnotationProcessor.java:394-401 | None exactly when no mirror has the type; otherwise the first mirror of that type |
| Annotations.HasAnnotation | src/main/java/io/github/xiaochenxt/processor/QuerydslSqlSpringAnnotationProcessor.java:415-424 | true iff some mirror has the type, which is the same as getAnnotationMirror finding one |
| Annotations.FindAttribute | src/main/java/io/github/xiaochenxt/processor/QuerydslSqlSpringAnnotationProcessor.java:353-360 | None exactly when no attribute key is among the keys; otherwise the first attribute whose key is |
| Annotations.NonEmptyValueAttribute | src/main/java/io/github/xiaochenxt/processor/QuerydslSqlSpringAnnotationProcessor.java:281-289 | None exactly when every `value` attribute is empty; otherwise the value of the first non-empty `value` attribute |
| Annotations.GetColumnValue | src/main/java/io/github/xiaochenxt/processor/QuerydslSqlSpringAnnotationProcessor.java:277-292 | present iff the first @Column has a non-empty `value` attribute, and then it is the first such value, never empty |
| Annotations.IsJson | src/main/java/io/github/xiaochenxt/processor/QuerydslSqlSpringAnnotationProcessor.java:378-389 | true only with @JdbcTypeCode present; false without a `value` attribute; otherwise true iff the first `value` is "3001" |
| Annotations.GetTableName | src/main/java/io/github/xiaochenxt/processor/QuerydslSqlSpringAnnotationProcessor.java:349-363 | the first `value` or `name` attribute of @Table, even when empty; the simple name when there is no @Table or no such attribute |
| Annotations.ShouldBeIgnored | src/main/java/io/github/xiaochenxt/processor/QuerydslSqlSpringAnnotationProcessor.java:406-410 | true iff the field is static, final, or carries a mirror of type @Transient |
| Annotations.GetTableSchema | src/main/java/io/github/xiaochenxt/processor/QuerydslSqlSpringAnnotationProcessor.java:365-376 | the first `schema` attribute of @Table, or "public" when it is absent or empty; never empty |
| Columns.ColumnRecord.Precision | src/main/java/io/github/xiaochenxt/processor/QuerydslSqlSpringAnnotationProcessor.java:511-513 | 0 when precision is null, otherwise the stored value |
| Columns.ColumnRecord.Scale | src/main/java/io/github/xiaochenxt/processor/QuerydslSqlSpringAnnotationProcessor.java:519-521 | 2 when scale is null or 0, otherwise the stored value; never 0 |
| Columns.ColumnInfo.constructor | src/main/java/io/github/xiaochenxt/processor/QuerydslSqlSpringAnnotationProcessor.java:436-469 | a new ColumnInfo has every boxed field null and both flags false |
| Numerals.IntToString | src/main/java/io/github/xiaochenxt/processor/QuerydslSqlSpringAnnotationProcessor.java:166-167 | non-empty; starts with '-' iff negative; ends in a digit |
| Numerals.IntToStringRoundTrip | src/main/java/io/github/xiaochenxt/processor/QuerydslSqlSpringAnnotationProcessor.java:166-167 | reading the rendered index back gives the index |
| Numerals.IntToStringInjective | src/main/java/io/github/xiaochenxt/processor/QuerydslSqlSpringAnnotationProcessor.java:166-167 | distinct indices are rendered as distinct text |
| TypeMapping.FixedTypesFollowTable | src/main/java/io/github/xiaochenxt/processor/QuerydslSqlSpringAnnotationProcessor.java:134-157 | for Long, Date, the java.time types, Timestamp, Float, Double, Byte, Short and Boolean, the descriptor is the fixed table's, whatever the hints |
| TypeMapping.JsonStringIsUnbounded | src/main/java/io/github/xiaochenxt/processor/QuerydslSqlSpringAnnotationProcessor.java:120-122 | a JSON-flagged String is VARCHAR of size Integer.MAX_VALUE, whatever its length |
| TypeMapping.PlainStringUsesLength | src/main/java/io/github/xiaochenxt/processor/QuerydslSqlSpringAnnotationProcessor.java:123-125 | any other String is VARCHAR sized by its length |
| TypeMapping.IntegerSubtype | src/main/java/io/github/xiaochenxt/processor/QuerydslSqlSpringAnnotationProcessor.java:126-133 | an Integer is TINYINT(3) when the definition contains "tinyint", else SMALLINT(3) when it contains "smallint", else INTEGER(10) |
| TypeMapping.DecimalUsesPrecisionAndScale | src/main/java/io/github/xiaochenxt/processor/QuerydslSqlSpringAnnotationProcessor.java:146-147 | a BigDecimal is NUMERIC sized by getPrecision with getScale digits, never 0 digits |
| TypeMapping.UnrecognisedTypeFallsBack | src/main/java/io/github/xiaochenxt/processor/QuerydslSqlSpringAnnotationProcessor.java:158-164 | any other type is OTHER of size Integer.MAX_VALUE when JSON-flagged, else VARCHAR sized by its length |
| TypeMapping.MapColumnType | src/main/java/io/github/xiaochenxt/processor/QuerydslSqlSpringAnnotationProcessor.java:120-164 | digits are set only for LocalDateTime and BigDecimal; a missing size occurs only for a VARCHAR whose length was never set; a VARCHAR is sized by the length or Integer.MAX_VALUE; a BigDecimal is NUMERIC(precision, scale) |
| TypeMapping.ColumnTypeText | src/main/java/io/github/xiaochenxt/processor/QuerydslSqlSpringAnnotationProcessor.java:120-165 | the text starts with `ofType(Types.<jdbc>).withSize(<size>)` of the mapped type and ends with ')' |
| TypeMapping.ColumnTypeTextParts | src/main/java/io/github/xiaochenxt/processor/QuerydslSqlSpringAnnotationProcessor.java:120-165 | the descriptor is `ofType(Types.<jdbc>).withSize(<size>)`, then `.withDigits(<d>)` exactly when the mapped type has digits d, then `.notNull()` exactly when the column is not nullable |
| TypeMapping.NotNullIffNotNullable | src/main/java/io/github/xiaochenxt/processor/QuerydslSqlSpringAnnotationProcessor.java:165 | the descriptor ends in ".notNull()" iff the column is not nullable |
| Emitter.QClassName | src/main/java/io/github/xiaochenxt/processor/QuerydslSqlSpringAnnotationProcessor.java:77 | one character longer than the simple name: 'Q' followed by the simple name |
| Emitter.ClassObjectName | src/main/java/io/github/xiaochenxt/processor/QuerydslSqlSpringAnnotationProcessor.java:98 | same length as the class name, first character lower-cased, the rest kept; unchanged when the first character is not upper-case |
| Emitter.PathFieldFollowsTable | src/main/java/io/github/xiaochenxt/processor/QuerydslSqlSpringAnnotationProcessor.java:225-258 | the path field is a public final field named after the constant, of the path class a separate table gives its Java type (SimplePath of the type otherwise), initialised by that table's factory (createSimple otherwise) called with the quoted name and, except for String and Boolean, the type's class literal |
| Emitter.MetadataLineShape | src/main/java/io/github/xiaochenxt/processor/QuerydslSqlSpringAnnotationProcessor.java:167 | a registration starts with the constant and column name, ends with the descriptor, and the text between them reads back as the index |
| Emitter.MetadataLineIndexInjective | src/main/java/io/github/xiaochenxt/processor/QuerydslSqlSpringAnnotationProcessor.java:167 | two registrations of one column at different indices are different lines |
| Emitter.MetadataLineAt | src/main/java/io/github/xiaochenxt/processor/QuerydslSqlSpringAnnotationProcessor.java:115-167 | one call per column, and the k-th call (from 0) registers the k-th column with index k + 1 |
| Emitter.MetadataLinesLength | src/main/java/io/github/xiaochenxt/processor/QuerydslSqlSpringAnnotationProcessor.java:115-168 | addMetadata holds exactly as many calls as there are columns |
| FieldCollector.ColumnNameResolution | src/main/java/io/github/xiaochenxt/processor/QuerydslSqlSpringAnnotationProcessor.java:199 | with a non-empty @Column `value`, the column name is that non-empty value; otherwise it is the converted field name |
| FieldCollector.NewColumnHints | src/main/java/io/github/xiaochenxt/processor/QuerydslSqlSpringAnnotationProcessor.java:201-246 | a new column has the resolved name, the declared type and the field's name; it is nullable, has length 0 only for String, has precision 0 and scale 2 for BigDecimal, has the definition "" for Integer, and has the JSON flag of isJson |
| FieldCollector.NewIntegerColumnIsInteger | src/main/java/io/github/xiaochenxt/processor/QuerydslSqlSpringAnnotationProcessor.java:126-133 | an Integer field's column is mapped to INTEGER(10), since its definition is "" |
| FieldCollector.NewColumnNeverNotNull | src/main/java/io/github/xiaochenxt/processor/QuerydslSqlSpringAnnotationProcessor.java:165 | a new column's descriptor never ends in ".notNull()", since nullable is always true |
| FieldCollector.VisitElement | src/main/java/io/github/xiaochenxt/processor/QuerydslSqlSpringAnnotationProcessor.java:195-211 | only appends; the columns grow by exactly the field's new column iff the field is kept and its name is new, and stay the same otherwise |
| FieldCollector.VisitElementSkips | src/main/java/io/github/xiaochenxt/processor/QuerydslSqlSpringAnnotationProcessor.java:195-200 | a non-field, an ignored field or a field whose column name is already collected changes nothing |
| FieldCollector.VisitElementAdds | src/main/java/io/github/xiaochenxt/processor/QuerydslSqlSpringAnnotationProcessor.java:200-211 | a kept field with a new column name appends one column, its path field and, for @Id, the primary-key field |
| FieldCollector.VisitElementsStep | src/main/java/io/github/xiaochenxt/processor/QuerydslSqlSpringAnnotationProcessor.java:194-195 | each enclosed element is handled in the state the earlier ones left |
| FieldCollector.VisitElements | src/main/java/io/github/xiaochenxt/processor/QuerydslSqlSpringAnnotationProcessor.java:194-215 | the loop only appends, to both the column list and the text |
| FieldCollector.VisitElementsDedup | src/main/java/io/github/xiaochenxt/processor/QuerydslSqlSpringAnnotationProcessor.java:194-215 | the columns added by the loop are the kept fields' candidates with repeated names dropped, first occurrence kept |
| FieldCollector.VisitElementsDistinct | src/main/java/io/github/xiaochenxt/processor/QuerydslSqlSpringAnnotationProcessor.java:200-206 | the loop keeps the column names pairwise distinct |
| FieldCollector.VisitElementsOrder | src/main/java/io/github/xiaochenxt/processor/QuerydslSqlSpringAnnotationProcessor.java:194-215 | the columns added are a subsequence of the kept fields' columns in declaration order |
| FieldCollector.VisitElementsComplete | src/main/java/io/github/xiaochenxt/processor/QuerydslSqlSpringAnnotationProcessor.java:194-215 | every kept field's column name is present afterwards |
| FieldCollector.VisitElementsHintsComplete | src/main/java/io/github/xiaochenxt/processor/QuerydslSqlSpringAnnotationProcessor.java:228-230 | every Integer column gets a column definition, which the type mapper reads |
| FieldCollector.VisitType | src/main/java/io/github/xiaochenxt/processor/QuerydslSqlSpringAnnotationProcessor.java:180-216 | processFields only appends, to both the column list and the text; no collected column is changed or removed |
| FieldCollector.VisitTypeDedup | src/main/java/io/github/xiaochenxt/processor/QuerydslSqlSpringAnnotationProcessor.java:180-216 | the columns added are the chain's candidates, superclass first, with repeated names dropped, first occurrence kept |
| FieldCollector.DedupConcat | src/main/java/io/github/xiaochenxt/processor/QuerydslSqlSpringAnnotationProcessor.java:182-215 | dropping repeats over two lists in turn is dropping them over the concatenation |
| FieldCollector.SuperclassColumnsFirst | src/main/java/io/github/xiaochenxt/processor/QuerydslSqlSpringAnnotationProcessor.java:182-192 | the superclass's columns are a prefix of the subclass's |
| FieldCollector.VisitTypeDistinct | src/main/java/io/github/xiaochenxt/processor/QuerydslSqlSpringAnnotationProcessor.java:180-216 | the collected column names are pairwise distinct |
| FieldCollector.VisitTypeOrder | src/main/java/io/github/xiaochenxt/processor/QuerydslSqlSpringAnnotationProcessor.java:180-216 | the columns added are a subsequence of the kept fields of the chain, superclass first, each class in declaration order |
| FieldCollector.VisitTypeComplete | src/main/java/io/github/xiaochenxt/processor/QuerydslSqlSpringAnnotationProcessor.java:180-216 | every kept field of the chain has its column name present afterwards |
| FieldCollector.IgnoredFieldsYieldNoColumn | src/main/java/io/github/xiaochenxt/processor/QuerydslSqlSpringAnnotationProcessor.java:194-206 | every added column comes from a field of the chain that is neither static, final nor @Transient |
| FieldCollector.VisitTypeTextPrefix | src/main/java/io/github/xiaochenxt/processor/QuerydslSqlSpringAnnotationProcessor.java:180-216 | the fields' text does not depend on what was written before it |
| FieldCollector.VisitTypeHintsComplete | src/main/java/io/github/xiaochenxt/processor/QuerydslSqlSpringAnnotationProcessor.java:223-230 | every Integer column of the chain gets a column definition |
| FieldCollector.CollectedColumnsDescriptors | src/main/java/io/github/xiaochenxt/processor/QuerydslSqlSpringAnnotationProcessor.java:120-165 | every column processFields adds has complete hints, never gets ".notNull()", and is INTEGER(10) when its type is Integer |
| Processor.Generation.ColumnExists | src/main/java/io/github/xiaochenxt/processor/QuerydslSqlSpringAnnotationProcessor.java:200 | true iff some collected column has the name |
| Processor.Generation.WriteJavadoc | src/main/java/io/github/xiaochenxt/processor/QuerydslSqlSpringAnnotationProcessor.java:219-222 | writes the Javadoc block exactly when the doc comment is non-null and non-empty |
| Processor.Generation.WriterColumn | src/main/java/io/github/xiaochenxt/processor/QuerydslSqlSpringAnnotationProcessor.java:218-260 | sets nullable, isJson and the type's hints on the ColumnInfo, and writes the Javadoc and the typed path field |
| Processor.Generation.AddColumn | src/main/java/io/github/xiaochenxt/processor/QuerydslSqlSpringAnnotationProcessor.java:201-207 | appends one ColumnInfo, the new column of the field, and leaves the earlier ones unchanged |
| Processor.Generation.AddField | src/main/java/io/github/xiaochenxt/processor/QuerydslSqlSpringAnnotationProcessor.java:200-211 | the state after a kept field with a new column name is one collector step |
| Processor.Generation.ProcessElement | src/main/java/io/github/xiaochenxt/processor/QuerydslSqlSpringAnnotationProcessor.java:195-213 | one pass of the loop is one collector step |
| Processor.Generation.ProcessMembers | src/main/java/io/github/xiaochenxt/processor/QuerydslSqlSpringAnnotationProcessor.java:194-215 | the loop over the enclosed elements is the collector over them in order |
| Processor.Generation.ProcessFields | src/main/java/io/github/xiaochenxt/processor/QuerydslSqlSpringAnnotationProcessor.java:180-216 | the columns and text afterwards are VisitType of those before |
| Processor.Generation.WriteMetadataCall | src/main/java/io/github/xiaochenxt/processor/QuerydslSqlSpringAnnotationProcessor.java:166-167 | writes the call for the column at position i with index i + 1 and changes no column |
| Processor.Generation.AddMetadataCalls | src/main/java/io/github/xiaochenxt/processor/QuerydslSqlSpringAnnotationProcessor.java:114-168 | writes one call per collected column, in list order |
| Processor.Generation.WriteClosing | src/main/java/io/github/xiaochenxt/processor/QuerydslSqlSpringAnnotationProcessor.java:102-170 | writes the four constructors and addMetadata for the collected columns |
| Processor.Generation.WritePreamble | src/main/java/io/github/xiaochenxt/processor/QuerydslSqlSpringAnnotationProcessor.java:82-99 | writes the package, imports, header and the singleton field |
| Processor.Generation.GenerateFieldConstants | src/main/java/io/github/xiaochenxt/processor/QuerydslSqlSpringAnnotationProcessor.java:74-175 | writes exactly the companion source: preamble, the fields of VisitType, constructors and addMetadata |

## Left out

- Processor lifecycle (`init`, `process`, `getSupportedAnnotationTypes`, `getSupportedSourceVersion`): this is host-compiler scheduling.
- `Filer`, `JavaFileObject` and the writer as I/O, and the `IOException` diagnostic path. The writer is an append-only sequence of strings, and a write never fails.
- The package name comes from the element as data (`TypeElement.packageName`), not from `getPackageOf`.
- The two `new Date()` timestamps become the parameters `sinceStamp` and `dateStamp`, because they are not deterministic.
- `getJavadoc` comes from the compiler's element utilities. It is the input field `Element.docComment`, with None for null.
- `ParsingUtils.reconcatenateCamelCase` is a foreign library. It is the function parameter `conv`, and nothing is claimed about its output.
- The `javax.lang.model` API is replaced by datatypes:
  - a superclass mirror that is not a declared type is `superclass == None`;
  - annotation attributes are an ordered list of key/value pairs, because the lookups take the first match in iteration order;
  - attribute values are their `toString()` text.
- Emitter.ClassObjectName: lower-cases ASCII letters only, where `String.toLowerCase` also maps other alphabets and depends on the default locale (in a Turkish locale `I` becomes the dotless `ı`).
- Processor.Generation.GenerateFieldConstants: requires a non-empty simple name, because `substring(0, 1)` throws for an empty one and a class annotated with `@Table` always has a name. The exception is not modelled.
- Columns.ColumnInfo.constructor: the three `String` fields start as `""` where Java starts them as null. Every path sets them before they are read. The boxed `Integer` fields and `columnDefinition` are options, with None for null.
- The `ColumnInfo` setters and getters are plain field writes and reads in the model; they are not separate methods.
- The unused parameters of `processFields` (`className`, `table`) are not modelled.
- The index `i + 1` is an unbounded integer, so the overflow past `Integer.MAX_VALUE` columns is not modelled.
- The length is set only for String columns, and every type of the chain except String gets a fixed or computed size. Only a type outside the chain without the JSON flag is therefore rendered `withSize(null)`, as the code does. The model does not check whether that text compiles.
