/**
 * The text the processor writes for a companion `Q<Name>` class: header,
 * singleton field, one typed path field per column (with the carried-over
 * Javadoc and the primary-key field), the four constructors and the
 * positional addMetadata calls. Each function gives the strings of a run of
 * writer.write calls, one string per call.
 */
module Emitter {
  import opened Elements
  import opened Columns
  import opened TypeMapping
  import opened Numerals

  const PROCESSOR_NAME := "io.github.xiaochenxt.processor.QuerydslSqlSpringAnnotationProcessor"

  const IMPORTS :=
    "import static com.querydsl.core.types.PathMetadataFactory.*;\n" +
    "import com.querydsl.core.types.dsl.*;\n" +
    "import com.querydsl.core.types.PathMetadata;\n" +
    "import javax.annotation.processing.Generated;\n" +
    "import com.querydsl.core.types.Path;\n" +
    "import com.querydsl.sql.ColumnMetadata;\n" +
    "import java.sql.Types;\n\n"

  /** The generated class is the entity's simple name prefixed with Q. */
  function QClassName(simpleName: string): (r: string)
    ensures |r| == |simpleName| + 1 && r[0] == 'Q' && r[1..] == simpleName
  {
    "Q" + simpleName
  }

  /** The Java field of a column is named after the entity field unchanged. */
  function ConstantName(fieldName: string): string
  {
    fieldName
  }

  /** Lower-casing of one character, for ASCII letters. */
  function LowerChar(c: char): (r: char)
    ensures 'A' <= c <= 'Z' ==> 'a' <= r <= 'z' && r as int - 'a' as int == c as int - 'A' as int
    ensures !('A' <= c <= 'Z') ==> r == c
  {
    if 'A' <= c <= 'Z' then (c as int - 'A' as int + 'a' as int) as char else c
  }

  /**
   * The singleton field's name: the class name with its first character
   * lower-cased. The one-character case of the source needs no special
   * treatment: the rest is kept either way.
   */
  function ClassObjectName(className: string): (r: string)
    requires className != ""
    ensures |r| == |className| && r[0] == LowerChar(className[0]) && r[1..] == className[1..]
    ensures !('A' <= className[0] <= 'Z') ==> r == className
  {
    [LowerChar(className[0])] + (if |className| == 1 then "" else className[1..])
  }

  /** Package clause, imports, Javadoc header, @Generated and the class header. */
  function HeaderLines(t: TypeElement, sinceStamp: string, dateStamp: string): seq<string>
  {
    var q := QClassName(t.simpleName);
    [ "package " + t.packageName + ";\n\n",
      IMPORTS,
      "/**\n * 根据" + t.qualifiedName + "自动生成\n * @author 小郴\n * @since " + sinceStamp + "\n */\n",
      "@Generated(value =\"" + PROCESSOR_NAME + "\", date =\"" + dateStamp
        + "\", comments =\"根据" + t.qualifiedName + "自动生成\")\n",
      "public class " + q + " extends com.querydsl.sql.RelationalPathBase<" + q + "> {\n\n" ]
  }

  function SingletonLine(q: string, classObjectName: string, table: string): string
  {
    "    public static final " + q + " " + classObjectName + " = new " + q + "(\"" + table + "\");\n\n"
  }

  /** The field's Javadoc, re-emitted when it is non-null and non-empty. */
  function JavadocLines(e: Element): seq<string>
  {
    match e.docComment
    case Some(doc) => if doc != "" then ["    /**\n     *" + doc + "     */\n"] else []
    case None => []
  }

  /** A public final path field of class cls named n, initialised by init. */
  function FieldDeclaration(cls: string, n: string, init: string): string
  {
    "    public final " + cls + " " + n + " = " + init + ";\n\n"
  }

  function NumberPathClass(typeArgument: string): string
  {
    "NumberPath<" + typeArgument + ">"
  }

  function DateTimePathClass(javaType: string): string
  {
    "DateTimePath<" + javaType + ">"
  }

  /** A path factory call: the factory, the quoted path name, then the class argument if any. */
  function CreateCall(factory: string, n: string, classArgument: string): string
  {
    factory + "(\"" + n + "\"" + classArgument + ")"
  }

  function ClassArgument(classLiteral: string): string
  {
    ", " + classLiteral + ".class"
  }

  function NumberPath(typeArgument: string, n: string): string
  {
    FieldDeclaration(NumberPathClass(typeArgument), n, CreateCall("createNumber", n, ClassArgument(typeArgument)))
  }

  function DateTimePath(javaType: string, n: string): string
  {
    FieldDeclaration(DateTimePathClass(javaType), n, CreateCall("createDateTime", n, ClassArgument(javaType)))
  }

  /** The typed path field of a column, chosen by the Java type name. */
  function PathFieldDeclaration(javaType: string, n: string): string
  {
    if javaType == STRING_TYPE then FieldDeclaration("StringPath", n, CreateCall("createString", n, ""))
    else if javaType == INTEGER_TYPE then NumberPath("Integer", n)
    else if javaType == LONG_TYPE then NumberPath("Long", n)
    else if javaType == DATE_TYPE then DateTimePath(DATE_TYPE, n)
    else if javaType == LOCAL_DATE_TIME_TYPE then DateTimePath(LOCAL_DATE_TIME_TYPE, n)
    else if javaType == LOCAL_DATE_TYPE then DateTimePath(LOCAL_DATE_TYPE, n)
    else if javaType == LOCAL_TIME_TYPE then DateTimePath(LOCAL_TIME_TYPE, n)
    else if javaType == TIMESTAMP_TYPE then DateTimePath(TIMESTAMP_TYPE, n)
    else if javaType == BIG_DECIMAL_TYPE then NumberPath(BIG_DECIMAL_TYPE, n)
    else if javaType == FLOAT_TYPE then NumberPath("Float", n)
    else if javaType == DOUBLE_TYPE then NumberPath("Double", n)
    else if javaType == BYTE_TYPE then NumberPath("Byte", n)
    else if javaType == SHORT_TYPE then NumberPath("Short", n)
    else if javaType == BOOLEAN_TYPE then FieldDeclaration("BooleanPath", n, CreateCall("createBoolean", n, ""))
    else FieldDeclaration("SimplePath<" + javaType + ">", n, CreateCall("createSimple", n, ClassArgument(javaType)))
  }

  /*
   * The tables below restate, type by type, what the chain above declares:
   * the path class, the factory, and the class argument.
   */

  /** The Querydsl path class declared for each Java type with a dedicated path. */
  const PATH_CLASSES: map<string, string> := map[
    STRING_TYPE := "StringPath",
    INTEGER_TYPE := NumberPathClass("Integer"),
    LONG_TYPE := NumberPathClass("Long"),
    DATE_TYPE := DateTimePathClass(DATE_TYPE),
    LOCAL_DATE_TIME_TYPE := DateTimePathClass(LOCAL_DATE_TIME_TYPE),
    LOCAL_DATE_TYPE := DateTimePathClass(LOCAL_DATE_TYPE),
    LOCAL_TIME_TYPE := DateTimePathClass(LOCAL_TIME_TYPE),
    TIMESTAMP_TYPE := DateTimePathClass(TIMESTAMP_TYPE),
    BIG_DECIMAL_TYPE := NumberPathClass(BIG_DECIMAL_TYPE),
    FLOAT_TYPE := NumberPathClass("Float"),
    DOUBLE_TYPE := NumberPathClass("Double"),
    BYTE_TYPE := NumberPathClass("Byte"),
    SHORT_TYPE := NumberPathClass("Short"),
    BOOLEAN_TYPE := "BooleanPath"]

  /** Any other type gets a SimplePath of itself. */
  function PathClass(javaType: string): string
  {
    if javaType in PATH_CLASSES then PATH_CLASSES[javaType] else "SimplePath<" + javaType + ">"
  }

  /** The factory that creates each dedicated path. */
  const PATH_FACTORIES: map<string, string> := map[
    STRING_TYPE := "createString",
    INTEGER_TYPE := "createNumber",
    LONG_TYPE := "createNumber",
    DATE_TYPE := "createDateTime",
    LOCAL_DATE_TIME_TYPE := "createDateTime",
    LOCAL_DATE_TYPE := "createDateTime",
    LOCAL_TIME_TYPE := "createDateTime",
    TIMESTAMP_TYPE := "createDateTime",
    BIG_DECIMAL_TYPE := "createNumber",
    FLOAT_TYPE := "createNumber",
    DOUBLE_TYPE := "createNumber",
    BYTE_TYPE := "createNumber",
    SHORT_TYPE := "createNumber",
    BOOLEAN_TYPE := "createBoolean"]

  /** Any other type is created by createSimple. */
  function PathFactory(javaType: string): string
  {
    if javaType in PATH_FACTORIES then PATH_FACTORIES[javaType] else "createSimple"
  }

  /** The java.lang types whose class literal is written by simple name. */
  const SHORT_CLASS_LITERALS: map<string, string> := map[
    INTEGER_TYPE := "Integer",
    LONG_TYPE := "Long",
    FLOAT_TYPE := "Float",
    DOUBLE_TYPE := "Double",
    BYTE_TYPE := "Byte",
    SHORT_TYPE := "Short"]

  /** StringPath and BooleanPath take no class argument; every other path takes its type's class literal. */
  function PathClassArgument(javaType: string): string
  {
    if javaType == STRING_TYPE || javaType == BOOLEAN_TYPE then ""
    else if javaType in SHORT_CLASS_LITERALS then ClassArgument(SHORT_CLASS_LITERALS[javaType])
    else ClassArgument(javaType)
  }

  lemma PathFactoryIsCreate(javaType: string)
    ensures "create" <= PathFactory(javaType)
  {
  }

  /** The declaration starts with its class and name, and initialises the field by a create call. */
  lemma FieldDeclarationStart(cls: string, n: string, factory: string, classArgument: string)
    requires "create" <= factory
    ensures "    public final " + cls + " " + n + " = create" <= FieldDeclaration(cls, n, CreateCall(factory, n, classArgument))
  {
    var init := CreateCall(factory, n, classArgument);
    var d := FieldDeclaration(cls, n, init);
    var p := "    public final " + cls + " " + n + " = ";
    assert d == p + init + ";\n\n";
    assert init[..6] == factory[..6];
    assert d[..|p| + 6] == p + init[..6];
  }

  /**
   * Every path field is a public final field named n, of the path class the
   * table gives its type, initialised by the table's factory called with the
   * quoted name n and the table's class argument.
   */
  lemma PathFieldFollowsTable(javaType: string, n: string)
    ensures PathFieldDeclaration(javaType, n)
            == FieldDeclaration(PathClass(javaType), n, CreateCall(PathFactory(javaType), n, PathClassArgument(javaType)))
    ensures "    public final " + PathClass(javaType) + " " + n + " = create" <= PathFieldDeclaration(javaType, n)
  {
    if javaType in {INTEGER_TYPE, LONG_TYPE, BIG_DECIMAL_TYPE, FLOAT_TYPE, DOUBLE_TYPE, BYTE_TYPE, SHORT_TYPE} {
      NumberPathFollowsTable(javaType, n);
    } else if javaType in {DATE_TYPE, LOCAL_DATE_TIME_TYPE, LOCAL_DATE_TYPE, LOCAL_TIME_TYPE, TIMESTAMP_TYPE} {
      DateTimePathFollowsTable(javaType, n);
    } else {
      OtherPathFollowsTable(javaType, n);
    }
    PathFactoryIsCreate(javaType);
    FieldDeclarationStart(PathClass(javaType), n, PathFactory(javaType), PathClassArgument(javaType));
  }

  lemma OtherPathFollowsTable(javaType: string, n: string)
    requires javaType !in {INTEGER_TYPE, LONG_TYPE, BIG_DECIMAL_TYPE, FLOAT_TYPE, DOUBLE_TYPE, BYTE_TYPE, SHORT_TYPE}
    requires javaType !in {DATE_TYPE, LOCAL_DATE_TIME_TYPE, LOCAL_DATE_TYPE, LOCAL_TIME_TYPE, TIMESTAMP_TYPE}
    ensures PathFieldDeclaration(javaType, n)
            == FieldDeclaration(PathClass(javaType), n, CreateCall(PathFactory(javaType), n, PathClassArgument(javaType)))
  {
  }

  lemma DateTimePathFollowsTable(javaType: string, n: string)
    requires javaType in {DATE_TYPE, LOCAL_DATE_TIME_TYPE, LOCAL_DATE_TYPE, LOCAL_TIME_TYPE, TIMESTAMP_TYPE}
    ensures PathFieldDeclaration(javaType, n)
            == FieldDeclaration(PathClass(javaType), n, CreateCall(PathFactory(javaType), n, PathClassArgument(javaType)))
  {
    if javaType in {LOCAL_DATE_TIME_TYPE, LOCAL_DATE_TYPE, LOCAL_TIME_TYPE} {
      JavaTimePathFollowsTable(javaType, n);
    }
  }

  lemma JavaTimePathFollowsTable(javaType: string, n: string)
    requires javaType in {LOCAL_DATE_TIME_TYPE, LOCAL_DATE_TYPE, LOCAL_TIME_TYPE}
    ensures PathFieldDeclaration(javaType, n)
            == FieldDeclaration(PathClass(javaType), n, CreateCall(PathFactory(javaType), n, PathClassArgument(javaType)))
  {
  }

  lemma NumberPathFollowsTable(javaType: string, n: string)
    requires javaType in {INTEGER_TYPE, LONG_TYPE, BIG_DECIMAL_TYPE, FLOAT_TYPE, DOUBLE_TYPE, BYTE_TYPE, SHORT_TYPE}
    ensures PathFieldDeclaration(javaType, n)
            == FieldDeclaration(PathClass(javaType), n, CreateCall(PathFactory(javaType), n, PathClassArgument(javaType)))
  {
    if javaType in {INTEGER_TYPE, LONG_TYPE, BIG_DECIMAL_TYPE} {
      WholeNumberPathFollowsTable(javaType, n);
    } else {
      var t := if javaType == FLOAT_TYPE then "Float" else if javaType == DOUBLE_TYPE then "Double"
        else if javaType == BYTE_TYPE then "Byte" else "Short";
      NumberPathFromTable(javaType, t, n);
    }
  }

  lemma WholeNumberPathFollowsTable(javaType: string, n: string)
    requires javaType in {INTEGER_TYPE, LONG_TYPE, BIG_DECIMAL_TYPE}
    ensures PathFieldDeclaration(javaType, n)
            == FieldDeclaration(PathClass(javaType), n, CreateCall(PathFactory(javaType), n, PathClassArgument(javaType)))
  {
    var t := if javaType == INTEGER_TYPE then "Integer" else if javaType == LONG_TYPE then "Long" else BIG_DECIMAL_TYPE;
    NumberPathFromTable(javaType, t, n);
  }

  lemma NumberPathFromTable(javaType: string, t: string, n: string)
    requires PathFieldDeclaration(javaType, n) == NumberPath(t, n)
    requires PathClass(javaType) == NumberPathClass(t) && PathFactory(javaType) == "createNumber"
    requires PathClassArgument(javaType) == ClassArgument(t)
    ensures PathFieldDeclaration(javaType, n)
            == FieldDeclaration(PathClass(javaType), n, CreateCall(PathFactory(javaType), n, PathClassArgument(javaType)))
  {
  }

  /** The primary-key field, written for every kept field that carries @Id. */
  function PrimaryKeyLines(q: string, constantName: string): seq<string>
  {
    [ "    /**\n     * 数据库主键\n     */\n",
      "    public final com.querydsl.sql.PrimaryKey<" + q + "> primaryKey = createPrimaryKey(" + constantName + ");\n\n" ]
  }

  /** The four constructors, each handing schema and table to the base class. */
  function ConstructorLines(q: string, schema: string, table: string): seq<string>
  {
    [ "    public " + q + "(String variable) {\n",
      "        super(" + q + ".class, forVariable(variable), \"" + schema + "\", \"" + table + "\");\n",
      "        addMetadata();\n    }\n\n",
      "    public " + q + "(String variable, String schema, String table) {\n",
      "        super(" + q + ".class, forVariable(variable), schema, table);\n",
      "        addMetadata();\n    }\n\n",
      "    public " + q + "(Path<? extends " + q + "> path) {\n",
      "        super(path.getType(), path.getMetadata(), \"" + schema + "\", \"" + table + "\");\n",
      "        addMetadata();\n    }\n\n",
      "    public " + q + "(PathMetadata metadata) {\n",
      "        super(" + q + ".class, metadata, \"" + schema + "\", \"" + table + "\");\n",
      "        addMetadata();\n    }\n\n" ]
  }

  /** The registration of one column at a 1-based position. */
  function MetadataLine(c: ColumnRecord, index: int): string
    requires c.HintsComplete()
  {
    MetadataLinePrefix(c) + IntToString(index) + MetadataLineSuffix(c)
  }

  /**
   * A registration names the column's constant and column name, then its
   * index as decimal digits, then its type descriptor.
   */
  lemma MetadataLineShape(c: ColumnRecord, index: int)
    requires c.HintsComplete()
    ensures var r := MetadataLine(c, index);
      && MetadataLinePrefix(c) <= r
      && EndsWith(r, MetadataLineSuffix(c))
      && var digits := r[|MetadataLinePrefix(c)|..|r| - |MetadataLineSuffix(c)|];
         digits == IntToString(index) && ParseInt(digits) == Some(index)
  {
    ThreeParts(MetadataLinePrefix(c), IntToString(index), MetadataLineSuffix(c));
    IntToStringRoundTrip(index);
  }

  /** The three parts of a concatenation are recovered by slicing it at their lengths. */
  lemma ThreeParts(p: string, m: string, s: string)
    ensures var r := p + m + s;
      && r[..|p|] == p && r[|p|..|p| + |m|] == m && r[|p| + |m|..] == s
  {
  }

  /** What precedes the index in a registration: the constant and the column name. */
  function MetadataLinePrefix(c: ColumnRecord): string
  {
    "        addMetadata(" + c.javaField + ", ColumnMetadata.named(\"" + c.column + "\").withIndex("
  }

  /** What follows the index in a registration: the column type descriptor. */
  function MetadataLineSuffix(c: ColumnRecord): string
    requires c.HintsComplete()
  {
    ")." + ColumnTypeText(c) + ");\n"
  }

  /** Two registrations of the same column at different positions are different lines. */
  lemma MetadataLineIndexInjective(c: ColumnRecord, i: int, j: int)
    requires c.HintsComplete()
    requires MetadataLine(c, i) == MetadataLine(c, j)
    ensures i == j
  {
    var p, s := MetadataLinePrefix(c), MetadataLineSuffix(c);
    var a, b := IntToString(i), IntToString(j);
    assert |a| == |b|;
    var line := MetadataLine(c, i);
    assert line == p + a + s;
    assert line[|p|..|p| + |a|] == a;
    assert MetadataLine(c, j) == p + b + s;
    assert line[|p|..|p| + |b|] == b;
    IntToStringInjective(i, j);
  }

  predicate AllHintsComplete(cs: seq<ColumnRecord>)
  {
    forall k | 0 <= k < |cs| :: cs[k].HintsComplete()
  }

  /** The body of addMetadata: one call per column, numbered from 1 in list order. */
  function MetadataLines(cs: seq<ColumnRecord>): seq<string>
    requires AllHintsComplete(cs)
  {
    if cs == [] then [] else MetadataLines(cs[..|cs| - 1]) + [MetadataLine(cs[|cs| - 1], |cs|)]
  }

  /** The k-th call (from 0) registers the k-th column with index k + 1: indices run 1..n. */
  lemma {:induction false} MetadataLineAt(cs: seq<ColumnRecord>, k: int)
    requires AllHintsComplete(cs) && 0 <= k < |cs|
    ensures |MetadataLines(cs)| == |cs|
    ensures MetadataLines(cs)[k] == MetadataLine(cs[k], k + 1)
  {
    var init := cs[..|cs| - 1];
    MetadataLinesLength(init);
    if k < |cs| - 1 {
      MetadataLineAt(init, k);
    }
  }

  /** Writing the calls for the first i + 1 columns appends the call for column i to those for the first i. */
  lemma MetadataLinesStep(cs: seq<ColumnRecord>, i: int)
    requires AllHintsComplete(cs) && 0 <= i < |cs|
    ensures AllHintsComplete(cs[..i]) && AllHintsComplete(cs[..i + 1])
    ensures MetadataLines(cs[..i + 1]) == MetadataLines(cs[..i]) + [MetadataLine(cs[i], i + 1)]
  {
    assert cs[..i + 1][..i] == cs[..i];
  }

  lemma {:induction false} MetadataLinesLength(cs: seq<ColumnRecord>)
    requires AllHintsComplete(cs)
    ensures |MetadataLines(cs)| == |cs|
  {
    if cs != [] {
      MetadataLinesLength(cs[..|cs| - 1]);
    }
  }
}
