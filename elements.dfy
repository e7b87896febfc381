/**
 * The compiler's view of an entity, reduced to plain data: the type element
 * being processed, its enclosed elements, their modifiers and the annotation
 * mirrors attached to them. The host compiler's element and type-mirror API
 * is replaced by these values.
 */
module Elements {

  datatype Option<T> = None | Some(value: T)

  /** The modifiers a field element may carry (only STATIC and FINAL are inspected). */
  datatype Modifier = Public | Protected | Private | Static | Final | Transient | Volatile

  /** The kind of an enclosed element; only FIELD elements are collected. */
  datatype ElementKind = Field | Method | Constructor | NestedType

  /** One explicitly written annotation attribute, e.g. `name = "orders"`. */
  datatype AnnotationValue = AnnotationValue(key: string, value: string)

  /**
   * An annotation mirror: the annotation's type name and its explicitly
   * written attributes, in the order the compiler iterates them.
   */
  datatype AnnotationMirror = AnnotationMirror(annotationType: string, elementValues: seq<AnnotationValue>)

  /**
   * An element enclosed in a type. `typeName` is the declared type as the
   * compiler prints it; `docComment` is the Javadoc the compiler returns for
   * it (None for a null doc comment).
   */
  datatype Element = Element(
    kind: ElementKind,
    simpleName: string,
    typeName: string,
    modifiers: set<Modifier>,
    annotations: seq<AnnotationMirror>,
    docComment: Option<string>)

  /**
   * A class declaration. `superclass` is None when the superclass mirror is
   * not a declared type (the case of java.lang.Object itself); the chain is
   * finite because the datatype is inductive.
   */
  datatype TypeElement = TypeElement(
    packageName: string,
    qualifiedName: string,
    simpleName: string,
    superclass: Option<TypeElement>,
    members: seq<Element>,
    annotations: seq<AnnotationMirror>)

  const OBJECT_TYPE := "java.lang.Object"
  const TABLE_ANNOTATION := "org.springframework.data.relational.core.mapping.Table"
  const COLUMN_ANNOTATION := "org.springframework.data.relational.core.mapping.Column"
  const ID_ANNOTATION := "org.springframework.data.annotation.Id"
  const TRANSIENT_ANNOTATION := "org.springframework.data.annotation.Transient"
  const JDBC_TYPE_CODE_ANNOTATION := "org.hibernate.annotations.JdbcTypeCode"

  /** The hibernate SqlTypes.JSON code, compared as text. */
  const JSON_TYPE_CODE := "3001"

  /** Appending two pieces one after the other appends their concatenation. */
  lemma AppendTwo<T>(o: seq<T>, a: seq<T>, b: seq<T>)
    ensures o + a + b == o + (a + b)
  {
  }

  /** Appending three pieces one after the other appends their concatenation. */
  lemma AppendThree<T>(o: seq<T>, a: seq<T>, b: seq<T>, c: seq<T>)
    ensures o + a + b + c == o + (a + b + c)
  {
  }
}
