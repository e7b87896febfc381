/**
 * The annotation lookups of the processor: finding a mirror by type name,
 * reading its attributes, and the per-field and per-table decisions built
 * on them (ignore rules, column-name override, JSON flag, table name and
 * schema). Each lookup is an early-return search that mutates nothing, so
 * it is written as a recursive function.
 */
module Annotations {
  import opened Elements

  /** Index i holds the first mirror of type `name`. */
  ghost predicate FirstOfType(anns: seq<AnnotationMirror>, name: string, i: int)
  {
    && 0 <= i < |anns|
    && anns[i].annotationType == name
    && forall j | 0 <= j < i :: anns[j].annotationType != name
  }

  /** The first annotation mirror whose type is `name`, if any. */
  function GetAnnotationMirror(anns: seq<AnnotationMirror>, name: string): (r: Option<AnnotationMirror>)
    ensures r.None? <==> forall i | 0 <= i < |anns| :: anns[i].annotationType != name
    ensures r.Some? ==> exists i :: FirstOfType(anns, name, i) && anns[i] == r.value
  {
    if anns == [] then None
    else if anns[0].annotationType == name then
      assert FirstOfType(anns, name, 0);
      Some(anns[0])
    else
      var r := GetAnnotationMirror(anns[1..], name);
      assert r.Some? ==> exists i :: FirstOfType(anns, name, i) && anns[i] == r.value by {
        if r.Some? {
          var i :| FirstOfType(anns[1..], name, i) && anns[1..][i] == r.value;
          assert FirstOfType(anns, name, i + 1);
        }
      }
      r
  }

  /** Whether some mirror has type `name`; a search of its own in the processor. */
  function HasAnnotation(anns: seq<AnnotationMirror>, name: string): (b: bool)
    ensures b <==> exists i | 0 <= i < |anns| :: anns[i].annotationType == name
    ensures b <==> GetAnnotationMirror(anns, name).Some?
  {
    if anns == [] then false
    else anns[0].annotationType == name || HasAnnotation(anns[1..], name)
  }

  /** Index i holds the first attribute whose key is in `keys`. */
  ghost predicate FirstWithKey(values: seq<AnnotationValue>, keys: set<string>, i: int)
  {
    && 0 <= i < |values|
    && values[i].key in keys
    && forall j | 0 <= j < i :: values[j].key !in keys
  }

  lemma FirstWithKeyUniqueAll(values: seq<AnnotationValue>, keys: set<string>)
    ensures forall i, j :: FirstWithKey(values, keys, i) && FirstWithKey(values, keys, j) ==> i == j
  {
  }

  /** The first attribute, in iteration order, whose key is one of `keys`. */
  function FindAttribute(values: seq<AnnotationValue>, keys: set<string>): (r: Option<AnnotationValue>)
    ensures r.None? <==> forall i | 0 <= i < |values| :: values[i].key !in keys
    ensures r.Some? ==> exists i :: FirstWithKey(values, keys, i) && values[i] == r.value
  {
    if values == [] then None
    else if values[0].key in keys then
      assert FirstWithKey(values, keys, 0);
      Some(values[0])
    else
      var r := FindAttribute(values[1..], keys);
      assert r.Some? ==> exists i :: FirstWithKey(values, keys, i) && values[i] == r.value by {
        if r.Some? {
          var i :| FirstWithKey(values[1..], keys, i) && values[1..][i] == r.value;
          assert FirstWithKey(values, keys, i + 1);
        }
      }
      r
  }

  /** Index i holds the first `value` attribute that is non-empty. */
  ghost predicate FirstNonEmptyValue(values: seq<AnnotationValue>, i: int)
  {
    && 0 <= i < |values|
    && values[i].key == "value" && values[i].value != ""
    && forall j | 0 <= j < i :: !(values[j].key == "value" && values[j].value != "")
  }

  lemma FirstNonEmptyValueUnique(values: seq<AnnotationValue>)
    ensures forall i, j :: FirstNonEmptyValue(values, i) && FirstNonEmptyValue(values, j) ==> i == j
  {
  }

  /**
   * The value of the first `value` attribute that is non-empty: the loop of
   * the column-name lookup skips an empty `value` and keeps iterating.
   */
  function NonEmptyValueAttribute(values: seq<AnnotationValue>): (r: Option<string>)
    ensures r.None? <==> forall i | 0 <= i < |values| :: values[i].key == "value" ==> values[i].value == ""
    ensures r.Some? ==> exists i :: FirstNonEmptyValue(values, i) && values[i].value == r.value
  {
    if values == [] then None
    else if values[0].key == "value" && values[0].value != "" then
      assert FirstNonEmptyValue(values, 0);
      Some(values[0].value)
    else
      var r := NonEmptyValueAttribute(values[1..]);
      assert r.Some? ==> exists i :: FirstNonEmptyValue(values, i) && values[i].value == r.value by {
        if r.Some? {
          var i :| FirstNonEmptyValue(values[1..], i) && values[1..][i].value == r.value;
          assert FirstNonEmptyValue(values, i + 1);
        }
      }
      r
  }

  /**
   * The explicit column name of a field: the first non-empty `value` of its
   * first @Column, and nothing when there is none.
   */
  function GetColumnValue(e: Element): (r: Option<string>)
    ensures r.Some? ==> r.value != ""
    ensures r.Some? <==>
      && HasAnnotation(e.annotations, COLUMN_ANNOTATION)
      && exists a | a in GetAnnotationMirror(e.annotations, COLUMN_ANNOTATION).value.elementValues
           :: a.key == "value" && a.value != ""
    ensures HasAnnotation(e.annotations, COLUMN_ANNOTATION) ==>
      var values := GetAnnotationMirror(e.annotations, COLUMN_ANNOTATION).value.elementValues;
      forall i :: FirstNonEmptyValue(values, i) ==> r == Some(values[i].value)
  {
    match GetAnnotationMirror(e.annotations, COLUMN_ANNOTATION)
    case None => None
    case Some(m) =>
      FirstNonEmptyValueUnique(m.elementValues);
      NonEmptyValueAttribute(m.elementValues)
  }

  /**
   * The JSON flag: the first `value` attribute of the field's first
   * @JdbcTypeCode is exactly "3001"; an absent annotation or attribute means
   * false.
   */
  function IsJson(e: Element): (b: bool)
    ensures b ==> HasAnnotation(e.annotations, JDBC_TYPE_CODE_ANNOTATION)
    ensures HasAnnotation(e.annotations, JDBC_TYPE_CODE_ANNOTATION) ==>
      var values := GetAnnotationMirror(e.annotations, JDBC_TYPE_CODE_ANNOTATION).value.elementValues;
      && ((forall i | 0 <= i < |values| :: values[i].key != "value") ==> !b)
      && forall i :: FirstWithKey(values, {"value"}, i) ==> (b <==> values[i].value == JSON_TYPE_CODE)
  {
    match GetAnnotationMirror(e.annotations, JDBC_TYPE_CODE_ANNOTATION)
    case None => false
    case Some(m) =>
      match FindAttribute(m.elementValues, {"value"})
      case None => false
      case Some(a) =>
        FirstWithKeyUniqueAll(m.elementValues, {"value"});
        a.value == JSON_TYPE_CODE
  }

  /** Fields that never become columns: static, final, or marked @Transient. */
  predicate ShouldBeIgnored(e: Element)
    ensures ShouldBeIgnored(e) <==> || Static in e.modifiers || Final in e.modifiers
                                    || exists i | 0 <= i < |e.annotations| :: e.annotations[i].annotationType == TRANSIENT_ANNOTATION
  {
    || Static in e.modifiers
    || Final in e.modifiers
    || HasAnnotation(e.annotations, TRANSIENT_ANNOTATION)
  }

  /**
   * The table name: the first `value` or `name` attribute of the first
   * @Table, even when empty; the simple name when there is none.
   */
  function GetTableName(t: TypeElement): (r: string)
    ensures !HasAnnotation(t.annotations, TABLE_ANNOTATION) ==> r == t.simpleName
    ensures HasAnnotation(t.annotations, TABLE_ANNOTATION) ==>
      var values := GetAnnotationMirror(t.annotations, TABLE_ANNOTATION).value.elementValues;
      && ((forall i | 0 <= i < |values| :: values[i].key != "value" && values[i].key != "name") ==> r == t.simpleName)
      && forall i :: FirstWithKey(values, {"value", "name"}, i) ==> r == values[i].value
  {
    match GetAnnotationMirror(t.annotations, TABLE_ANNOTATION)
    case None => t.simpleName
    case Some(m) =>
      match FindAttribute(m.elementValues, {"value", "name"})
      case None => t.simpleName
      case Some(a) =>
        FirstWithKeyUniqueAll(m.elementValues, {"value", "name"});
        a.value
  }

  /**
   * The schema: the first `schema` attribute of the first @Table, or
   * "public" when that is absent or empty. It is never empty.
   */
  function GetTableSchema(t: TypeElement): (r: string)
    ensures r != ""
    ensures !HasAnnotation(t.annotations, TABLE_ANNOTATION) ==> r == "public"
    ensures HasAnnotation(t.annotations, TABLE_ANNOTATION) ==>
      var values := GetAnnotationMirror(t.annotations, TABLE_ANNOTATION).value.elementValues;
      && ((forall i | 0 <= i < |values| :: values[i].key != "schema") ==> r == "public")
      && forall i :: FirstWithKey(values, {"schema"}, i) ==>
           r == if values[i].value == "" then "public" else values[i].value
  {
    match GetAnnotationMirror(t.annotations, TABLE_ANNOTATION)
    case None => "public"
    case Some(m) =>
      match FindAttribute(m.elementValues, {"schema"})
      case None => "public"
      case Some(a) =>
        FirstWithKeyUniqueAll(m.elementValues, {"schema"});
        if a.value == "" then "public" else a.value
  }
}
