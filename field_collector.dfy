/**
 * The field collector as a specification: what processFields leaves in the
 * column list and writes, as functions of the type element and the state it
 * starts from, and the properties of that result (unique column names,
 * superclass-first and declaration order, nothing from ignored fields,
 * every kept field accounted for).
 */
module FieldCollector {
  import opened Elements
  import opened Annotations
  import opened Columns
  import opened Emitter
  import opened TypeMapping

  // The per-field hint lookups are constants in the processor.
  function ColumnDefinitionHint(e: Element): string { "" }
  function ColumnLengthHint(e: Element): int { 0 }
  function ColumnNullableHint(e: Element): bool { true }
  function ColumnPrecisionHint(e: Element): int { 0 }
  function ColumnScaleHint(e: Element): int { 2 }

  /**
   * The column name of a field: its explicit @Column value, else the field
   * name run through the camel-case converter `conv`, which is not modelled.
   */
  function ColumnName(e: Element, conv: string -> string): string
  {
    match GetColumnValue(e)
    case Some(v) => v
    case None => conv(e.simpleName)
  }

  /** A field element that is neither static, final nor @Transient. */
  predicate Collectible(e: Element)
  {
    e.kind == Field && !ShouldBeIgnored(e)
  }

  /** What writerColumn sets on a ColumnInfo: nullability, JSON flag and the type's hints. */
  function WithHints(r: ColumnRecord, e: Element, javaType: string): ColumnRecord
  {
    r.(nullable := ColumnNullableHint(e),
       isJson := IsJson(e),
       length := if javaType == STRING_TYPE then Some(ColumnLengthHint(e)) else r.length,
       columnDefinition := if javaType == INTEGER_TYPE then Some(ColumnDefinitionHint(e)) else r.columnDefinition,
       precision := if javaType == BIG_DECIMAL_TYPE then Some(ColumnPrecisionHint(e)) else r.precision,
       scale := if javaType == BIG_DECIMAL_TYPE then Some(ColumnScaleHint(e)) else r.scale)
  }

  /** The ColumnInfo of a kept field once processFields and writerColumn are done with it. */
  function NewColumn(e: Element, column: string): ColumnRecord
  {
    var unset := ColumnRecord("", "", "", None, false, false, None, None, None);
    WithHints(unset.(column := column, javaType := e.typeName, javaField := ConstantName(e.simpleName)), e, e.typeName)
  }

  /** What writerColumn writes: the Javadoc, then the typed path field. */
  function ColumnText(e: Element, javaType: string, constantName: string): seq<string>
  {
    JavadocLines(e) + [PathFieldDeclaration(javaType, constantName)]
  }

  predicate HasColumn(cs: seq<ColumnRecord>, name: string)
  {
    exists k | 0 <= k < |cs| :: cs[k].column == name
  }

  predicate DistinctColumns(cs: seq<ColumnRecord>)
  {
    forall j, k | 0 <= j < k < |cs| :: cs[j].column != cs[k].column
  }

  /** The column list and the text written so far. */
  datatype Collected = Collected(columns: seq<ColumnRecord>, text: seq<string>)

  /**
   * One enclosed element of the loop in processFields: it adds the field's
   * column exactly when the field is kept and its column name is new, and
   * the text only grows.
   */
  function VisitElement(e: Element, q: string, conv: string -> string, st: Collected): (r: Collected)
    ensures st.columns <= r.columns && st.text <= r.text
    ensures r.columns == st.columns + [NewColumn(e, ColumnName(e, conv))] <==>
              Collectible(e) && !HasColumn(st.columns, ColumnName(e, conv))
    ensures r.columns == st.columns <==> !(Collectible(e) && !HasColumn(st.columns, ColumnName(e, conv)))
  {
    if e.kind != Field || ShouldBeIgnored(e) then st
    else
      var column := ColumnName(e, conv);
      if HasColumn(st.columns, column) then st
      else
        var name := ConstantName(e.simpleName);
        var pk := if HasAnnotation(e.annotations, ID_ANNOTATION) then PrimaryKeyLines(q, name) else [];
        Collected(st.columns + [NewColumn(e, column)], st.text + ColumnText(e, e.typeName, name) + pk)
  }

  /** The loop over the enclosed elements, in declaration order; it only appends. */
  function VisitElements(ms: seq<Element>, q: string, conv: string -> string, st: Collected): (r: Collected)
    ensures st.columns <= r.columns && st.text <= r.text
  {
    if ms == [] then st else VisitElement(ms[|ms| - 1], q, conv, VisitElements(ms[..|ms| - 1], q, conv, st))
  }

  /** The recursion happens only for a declared superclass other than java.lang.Object. */
  predicate ProcessesSuperclass(t: TypeElement)
  {
    t.superclass.Some? && t.superclass.value.qualifiedName != OBJECT_TYPE
  }

  /**
   * processFields: the superclass first, then the type's own elements. The
   * column list and the text only grow at the end: no collected column is
   * changed or removed.
   */
  function VisitType(t: TypeElement, q: string, conv: string -> string, st: Collected): (r: Collected)
    ensures st.columns <= r.columns && st.text <= r.text
    decreases t
  {
    var afterSuper := if ProcessesSuperclass(t) then VisitType(t.superclass.value, q, conv, st) else st;
    VisitElements(t.members, q, conv, afterSuper)
  }

  // ----- Reference definitions: the kept fields of a class chain, in order -----

  /** The columns the kept fields would give, in declaration order, before de-duplication. */
  function Candidates(ms: seq<Element>, conv: string -> string): seq<ColumnRecord>
  {
    if ms == [] then []
    else
      var e := ms[|ms| - 1];
      Candidates(ms[..|ms| - 1], conv) + if Collectible(e) then [NewColumn(e, ColumnName(e, conv))] else []
  }

  /** The same over the superclass chain, superclass first, stopping at java.lang.Object. */
  function ChainCandidates(t: TypeElement, conv: string -> string): seq<ColumnRecord>
    decreases t
  {
    (if ProcessesSuperclass(t) then ChainCandidates(t.superclass.value, conv) else []) + Candidates(t.members, conv)
  }

  /** The enclosed elements of the chain, superclass first. */
  function ChainElements(t: TypeElement): seq<Element>
    decreases t
  {
    (if ProcessesSuperclass(t) then ChainElements(t.superclass.value) else []) + t.members
  }

  /**
   * First occurrence wins, stated on the candidates alone: a candidate is
   * kept when its column name is neither among `seen` nor among the
   * candidates kept before it.
   */
  function Dedup(cands: seq<ColumnRecord>, seen: seq<ColumnRecord>): seq<ColumnRecord>
  {
    if cands == [] then []
    else
      var kept := Dedup(cands[..|cands| - 1], seen);
      var x := cands[|cands| - 1];
      kept + if HasColumn(seen + kept, x.column) then [] else [x]
  }

  /** xs occurs in ys in order, possibly with gaps. */
  predicate IsSubsequence<T(==)>(xs: seq<T>, ys: seq<T>)
    decreases |ys|
  {
    if xs == [] then true
    else if ys == [] then false
    else if xs[|xs| - 1] == ys[|ys| - 1] then IsSubsequence(xs[..|xs| - 1], ys[..|ys| - 1])
    else IsSubsequence(xs, ys[..|ys| - 1])
  }

  lemma SubsequenceSnoc<T>(xs: seq<T>, ys: seq<T>, x: T)
    requires IsSubsequence(xs, ys)
    ensures IsSubsequence(xs + [x], ys + [x])
  {
    assert (xs + [x])[..|xs|] == xs;
    assert (ys + [x])[..|ys|] == ys;
  }

  lemma {:induction false} SubsequenceExtend<T>(xs: seq<T>, ys: seq<T>, y: T)
    requires IsSubsequence(xs, ys)
    ensures IsSubsequence(xs, ys + [y])
    decreases |ys|, 1
  {
    assert (ys + [y])[..|ys|] == ys;
    if xs != [] && xs[|xs| - 1] == y {
      SubsequenceDropLast(xs, ys);
    }
  }

  lemma {:induction false} SubsequenceDropLast<T>(xs: seq<T>, ys: seq<T>)
    requires xs != [] && IsSubsequence(xs, ys)
    ensures IsSubsequence(xs[..|xs| - 1], ys)
    decreases |ys|, 0
  {
    var ys' := ys[..|ys| - 1];
    assert ys == ys' + [ys[|ys| - 1]];
    if xs[|xs| - 1] == ys[|ys| - 1] {
      SubsequenceExtend(xs[..|xs| - 1], ys', ys[|ys| - 1]);
    } else {
      SubsequenceDropLast(xs, ys');
      SubsequenceExtend(xs[..|xs| - 1], ys', ys[|ys| - 1]);
    }
  }

  lemma {:induction false} SubsequenceConcat<T>(a: seq<T>, b: seq<T>, c: seq<T>, d: seq<T>)
    requires IsSubsequence(a, b) && IsSubsequence(c, d)
    ensures IsSubsequence(a + c, b + d)
    decreases |d|
  {
    if d == [] {
      assert c == [];
      assert a + c == a && b + d == b;
    } else {
      var d' := d[..|d| - 1];
      var y := d[|d| - 1];
      assert b + d == (b + d') + [y];
      if c != [] && c[|c| - 1] == y {
        var c' := c[..|c| - 1];
        SubsequenceConcat(a, b, c', d');
        SubsequenceSnoc(a + c', b + d', y);
        assert a + c == (a + c') + [y];
      } else {
        SubsequenceConcat(a, b, c, d');
        SubsequenceExtend(a + c, b + d', y);
      }
    }
  }

  lemma {:induction false} SubsequenceMembers<T>(xs: seq<T>, ys: seq<T>)
    requires IsSubsequence(xs, ys)
    ensures forall x | x in xs :: x in ys
    decreases |ys|
  {
    if xs != [] {
      var ys' := ys[..|ys| - 1];
      assert ys == ys' + [ys[|ys| - 1]];
      if xs[|xs| - 1] == ys[|ys| - 1] {
        SubsequenceMembers(xs[..|xs| - 1], ys');
        assert xs == xs[..|xs| - 1] + [xs[|xs| - 1]];
      } else {
        SubsequenceMembers(xs, ys');
      }
    }
  }

  // ----- Properties of one step -----

  /** A kept field under a new column name adds its column, its text and, for @Id, the primary-key lines. */
  lemma VisitElementAdds(e: Element, q: string, conv: string -> string, st: Collected)
    requires e.kind == Field && !ShouldBeIgnored(e) && !HasColumn(st.columns, ColumnName(e, conv))
    ensures var r := VisitElement(e, q, conv, st);
      var name := ConstantName(e.simpleName);
      && r.columns == st.columns + [NewColumn(e, ColumnName(e, conv))]
      && r.text == st.text + ColumnText(e, e.typeName, name)
                   + (if HasAnnotation(e.annotations, ID_ANNOTATION) then PrimaryKeyLines(q, name) else [])
  {
  }

  /** Any other element leaves the state as it is. */
  lemma VisitElementSkips(e: Element, q: string, conv: string -> string, st: Collected)
    requires e.kind != Field || ShouldBeIgnored(e) || HasColumn(st.columns, ColumnName(e, conv))
    ensures VisitElement(e, q, conv, st) == st
  {
  }

  // ----- Properties of the loop over one class's elements -----

  /** Visiting one more element continues from the state the earlier elements left. */
  lemma VisitElementsStep(ms: seq<Element>, i: int, q: string, conv: string -> string, st: Collected)
    requires 0 <= i < |ms|
    ensures VisitElements(ms[..i + 1], q, conv, st) == VisitElement(ms[i], q, conv, VisitElements(ms[..i], q, conv, st))
  {
    assert ms[..i + 1][..i] == ms[..i];
  }

  lemma {:induction false} VisitElementsDistinct(ms: seq<Element>, q: string, conv: string -> string, st: Collected)
    requires DistinctColumns(st.columns)
    ensures DistinctColumns(VisitElements(ms, q, conv, st).columns)
  {
    if ms != [] {
      var mid := VisitElements(ms[..|ms| - 1], q, conv, st);
      VisitElementsDistinct(ms[..|ms| - 1], q, conv, st);
      var e := ms[|ms| - 1];
      if Collectible(e) && !HasColumn(mid.columns, ColumnName(e, conv)) {
        var r := VisitElement(e, q, conv, mid);
        assert r.columns == mid.columns + [NewColumn(e, ColumnName(e, conv))];
        forall j, k | 0 <= j < k < |r.columns| ensures r.columns[j].column != r.columns[k].column {
          if k == |mid.columns| {
            assert r.columns[j] == mid.columns[j];
          }
        }
      }
    }
  }

  lemma {:induction false} VisitElementsOrder(ms: seq<Element>, q: string, conv: string -> string, st: Collected)
    ensures var r := VisitElements(ms, q, conv, st);
      && st.columns <= r.columns
      && IsSubsequence(r.columns[|st.columns|..], Candidates(ms, conv))
  {
    var r := VisitElements(ms, q, conv, st);
    if ms == [] {
      assert r.columns[|st.columns|..] == [];
    } else {
      var init := ms[..|ms| - 1];
      var e := ms[|ms| - 1];
      var mid := VisitElements(init, q, conv, st);
      assert r == VisitElement(e, q, conv, mid);
      VisitElementsOrder(init, q, conv, st);
      var added := mid.columns[|st.columns|..];
      var before := Candidates(init, conv);
      if !Collectible(e) {
        VisitElementSkips(e, q, conv, mid);
        assert Candidates(ms, conv) == before;
      } else {
        var x := NewColumn(e, ColumnName(e, conv));
        assert Candidates(ms, conv) == before + [x];
        if HasColumn(mid.columns, ColumnName(e, conv)) {
          VisitElementSkips(e, q, conv, mid);
          SubsequenceExtend(added, before, x);
        } else {
          VisitElementAdds(e, q, conv, mid);
          OrderStep(st.columns, mid.columns, x, before);
        }
      }
    }
  }

  /** Appending x to both the collected columns and the candidates keeps the subsequence relation. */
  lemma OrderStep(prefix: seq<ColumnRecord>, cs: seq<ColumnRecord>, x: ColumnRecord, candidates: seq<ColumnRecord>)
    requires prefix <= cs && IsSubsequence(cs[|prefix|..], candidates)
    ensures prefix <= cs + [x] && IsSubsequence((cs + [x])[|prefix|..], candidates + [x])
  {
    assert (cs + [x])[|prefix|..] == cs[|prefix|..] + [x];
    SubsequenceSnoc(cs[|prefix|..], candidates, x);
  }

  lemma {:induction false} VisitElementsComplete(ms: seq<Element>, q: string, conv: string -> string, st: Collected)
    ensures var r := VisitElements(ms, q, conv, st);
      forall x | x in Candidates(ms, conv) :: HasColumn(r.columns, x.column)
  {
    if ms != [] {
      var init := ms[..|ms| - 1];
      var e := ms[|ms| - 1];
      var mid := VisitElements(init, q, conv, st);
      var r := VisitElement(e, q, conv, mid);
      VisitElementsComplete(init, q, conv, st);
      forall x | x in Candidates(init, conv) ensures HasColumn(r.columns, x.column) {
        var k :| 0 <= k < |mid.columns| && mid.columns[k].column == x.column;
        assert r.columns[k] == mid.columns[k];
      }
      if Collectible(e) {
        var name := ColumnName(e, conv);
        if !HasColumn(mid.columns, name) {
          assert r.columns[|mid.columns|] == NewColumn(e, name);
        }
      }
    }
  }

  lemma {:induction false} VisitElementsHintsComplete(ms: seq<Element>, q: string, conv: string -> string, st: Collected)
    requires AllHintsComplete(st.columns)
    ensures AllHintsComplete(VisitElements(ms, q, conv, st).columns)
  {
    if ms != [] {
      var mid := VisitElements(ms[..|ms| - 1], q, conv, st);
      VisitElementsHintsComplete(ms[..|ms| - 1], q, conv, st);
      var r := VisitElement(ms[|ms| - 1], q, conv, mid);
      forall k | 0 <= k < |r.columns| ensures r.columns[k].HintsComplete() {
        if k < |mid.columns| {
          assert r.columns[k] == mid.columns[k];
        }
      }
    }
  }

  lemma {:induction false} CandidatesOrigin(ms: seq<Element>, conv: string -> string)
    ensures forall x | x in Candidates(ms, conv) ::
      exists e | e in ms :: Collectible(e) && x == NewColumn(e, ColumnName(e, conv))
  {
    if ms != [] {
      var init := ms[..|ms| - 1];
      CandidatesOrigin(init, conv);
      forall x | x in Candidates(ms, conv)
        ensures exists e | e in ms :: Collectible(e) && x == NewColumn(e, ColumnName(e, conv))
      {
        if x in Candidates(init, conv) {
          var e :| e in init && Collectible(e) && x == NewColumn(e, ColumnName(e, conv));
          assert e in ms;
        } else {
          assert ms[|ms| - 1] in ms;
        }
      }
    }
  }

  // ----- Properties of processFields over the whole chain -----

  /** The superclass's columns, in their own order, come before the class's own. */
  lemma SuperclassColumnsFirst(t: TypeElement, q: string, conv: string -> string, st: Collected)
    requires ProcessesSuperclass(t)
    ensures VisitType(t.superclass.value, q, conv, st).columns <= VisitType(t, q, conv, st).columns
  {
  }

  /** Column names stay pairwise distinct: a field whose column already exists is skipped. */
  lemma {:induction false} VisitTypeDistinct(t: TypeElement, q: string, conv: string -> string, st: Collected)
    requires DistinctColumns(st.columns)
    ensures DistinctColumns(VisitType(t, q, conv, st).columns)
    decreases t
  {
    var afterSuper := if ProcessesSuperclass(t) then VisitType(t.superclass.value, q, conv, st) else st;
    if ProcessesSuperclass(t) {
      VisitTypeDistinct(t.superclass.value, q, conv, st);
    }
    VisitElementsDistinct(t.members, q, conv, afterSuper);
  }

  /**
   * The added columns are the chain's kept fields in order (superclass
   * first, then declaration order) with some left out: those whose column
   * name was already taken.
   */
  lemma {:induction false} VisitTypeOrder(t: TypeElement, q: string, conv: string -> string, st: Collected)
    ensures var r := VisitType(t, q, conv, st);
      && st.columns <= r.columns
      && IsSubsequence(r.columns[|st.columns|..], ChainCandidates(t, conv))
    decreases t
  {
    var r := VisitType(t, q, conv, st);
    if ProcessesSuperclass(t) {
      var mid := VisitType(t.superclass.value, q, conv, st);
      assert r == VisitElements(t.members, q, conv, mid);
      VisitTypeOrder(t.superclass.value, q, conv, st);
      VisitElementsOrder(t.members, q, conv, mid);
      assert ChainCandidates(t, conv) == ChainCandidates(t.superclass.value, conv) + Candidates(t.members, conv);
      OrderConcat(st.columns, mid.columns, r.columns, ChainCandidates(t.superclass.value, conv), Candidates(t.members, conv));
    } else {
      VisitElementsOrder(t.members, q, conv, st);
      assert ChainCandidates(t, conv) == Candidates(t.members, conv);
    }
  }

  /** Two stretches of appended columns, each a subsequence of its candidates, make one. */
  lemma OrderConcat(s0: seq<ColumnRecord>, s1: seq<ColumnRecord>, s2: seq<ColumnRecord>,
                    c1: seq<ColumnRecord>, c2: seq<ColumnRecord>)
    requires s0 <= s1 <= s2 && IsSubsequence(s1[|s0|..], c1) && IsSubsequence(s2[|s1|..], c2)
    ensures s0 <= s2 && IsSubsequence(s2[|s0|..], c1 + c2)
  {
    assert s2[|s0|..] == s1[|s0|..] + s2[|s1|..];
    SubsequenceConcat(s1[|s0|..], c1, s2[|s1|..], c2);
  }

  /** Every kept field of the chain has its column name in the result. */
  lemma {:induction false} VisitTypeComplete(t: TypeElement, q: string, conv: string -> string, st: Collected)
    ensures var r := VisitType(t, q, conv, st);
      forall x | x in ChainCandidates(t, conv) :: HasColumn(r.columns, x.column)
    decreases t
  {
    var r := VisitType(t, q, conv, st);
    var mid := if ProcessesSuperclass(t) then VisitType(t.superclass.value, q, conv, st) else st;
    VisitElementsComplete(t.members, q, conv, mid);
    if ProcessesSuperclass(t) {
      VisitTypeComplete(t.superclass.value, q, conv, st);
      forall x | x in ChainCandidates(t.superclass.value, conv) ensures HasColumn(r.columns, x.column) {
        var k :| 0 <= k < |mid.columns| && mid.columns[k].column == x.column;
        assert r.columns[k] == mid.columns[k];
      }
    }
  }

  /** Every candidate comes from a field of the chain that is not static, final or @Transient. */
  lemma {:induction false} ChainCandidatesOrigin(t: TypeElement, conv: string -> string)
    ensures forall x | x in ChainCandidates(t, conv) ::
      exists e | e in ChainElements(t) :: Collectible(e) && x == NewColumn(e, ColumnName(e, conv))
    decreases t
  {
    CandidatesOrigin(t.members, conv);
    if ProcessesSuperclass(t) {
      ChainCandidatesOrigin(t.superclass.value, conv);
    }
  }

  /**
   * So a static, final or @Transient field never yields a column: each
   * added column is the record of a kept field of the chain.
   */
  lemma IgnoredFieldsYieldNoColumn(t: TypeElement, q: string, conv: string -> string, st: Collected)
    ensures var r := VisitType(t, q, conv, st);
      forall k | |st.columns| <= k < |r.columns| ::
        exists e | e in ChainElements(t) :: Collectible(e) && r.columns[k] == NewColumn(e, ColumnName(e, conv))
  {
    var r := VisitType(t, q, conv, st);
    VisitTypeOrder(t, q, conv, st);
    SubsequenceMembers(r.columns[|st.columns|..], ChainCandidates(t, conv));
    ChainCandidatesOrigin(t, conv);
    forall k | |st.columns| <= k < |r.columns|
      ensures exists e | e in ChainElements(t) :: Collectible(e) && r.columns[k] == NewColumn(e, ColumnName(e, conv))
    {
      assert r.columns[k] == r.columns[|st.columns|..][k - |st.columns|];
      assert r.columns[k] in r.columns[|st.columns|..];
      assert r.columns[k] in ChainCandidates(t, conv);
    }
  }

  /** The collector's choices depend only on the columns, so earlier text is a plain prefix. */
  lemma {:induction false} VisitElementsTextPrefix(ms: seq<Element>, q: string, conv: string -> string,
                                                   cs: seq<ColumnRecord>, pre: seq<string>)
    ensures var r := VisitElements(ms, q, conv, Collected(cs, []));
      VisitElements(ms, q, conv, Collected(cs, pre)) == Collected(r.columns, pre + r.text)
  {
    if ms != [] {
      var init := ms[..|ms| - 1];
      var e := ms[|ms| - 1];
      VisitElementsTextPrefix(init, q, conv, cs, pre);
      var mid := VisitElements(init, q, conv, Collected(cs, []));
      VisitElementTextPrefix(e, q, conv, mid.columns, pre, mid.text);
    }
  }

  /** One step of the loop does not look at the text written so far. */
  lemma VisitElementTextPrefix(e: Element, q: string, conv: string -> string,
                               cs: seq<ColumnRecord>, pre: seq<string>, text: seq<string>)
    ensures var r := VisitElement(e, q, conv, Collected(cs, text));
      VisitElement(e, q, conv, Collected(cs, pre + text)) == Collected(r.columns, pre + r.text)
  {
    if e.kind == Field && !ShouldBeIgnored(e) && !HasColumn(cs, ColumnName(e, conv)) {
      var name := ConstantName(e.simpleName);
      var pk := if HasAnnotation(e.annotations, ID_ANNOTATION) then PrimaryKeyLines(q, name) else [];
      VisitElementAdds(e, q, conv, Collected(cs, text));
      VisitElementAdds(e, q, conv, Collected(cs, pre + text));
      AppendThree(pre, text, ColumnText(e, e.typeName, name), pk);
    } else {
      VisitElementSkips(e, q, conv, Collected(cs, text));
      VisitElementSkips(e, q, conv, Collected(cs, pre + text));
    }
  }

  lemma {:induction false} VisitTypeTextPrefix(t: TypeElement, q: string, conv: string -> string,
                                               cs: seq<ColumnRecord>, pre: seq<string>)
    ensures var r := VisitType(t, q, conv, Collected(cs, []));
      VisitType(t, q, conv, Collected(cs, pre)) == Collected(r.columns, pre + r.text)
    decreases t
  {
    if ProcessesSuperclass(t) {
      var sup := t.superclass.value;
      VisitTypeTextPrefix(sup, q, conv, cs, pre);
      var mid := VisitType(sup, q, conv, Collected(cs, []));
      var own := VisitElements(t.members, q, conv, Collected(mid.columns, []));
      assert VisitType(t, q, conv, Collected(cs, [])) == VisitElements(t.members, q, conv, Collected(mid.columns, mid.text));
      assert VisitType(t, q, conv, Collected(cs, pre)) == VisitElements(t.members, q, conv, Collected(mid.columns, pre + mid.text));
      VisitElementsTextPrefix(t.members, q, conv, mid.columns, mid.text);
      VisitElementsTextPrefix(t.members, q, conv, mid.columns, pre + mid.text);
      AppendTwo(pre, mid.text, own.text);
    } else {
      VisitElementsTextPrefix(t.members, q, conv, cs, pre);
    }
  }

  /** Every collected column can be handed to the type mapper. */
  lemma {:induction false} VisitTypeHintsComplete(t: TypeElement, q: string, conv: string -> string, st: Collected)
    requires AllHintsComplete(st.columns)
    ensures AllHintsComplete(VisitType(t, q, conv, st).columns)
    decreases t
  {
    var afterSuper := if ProcessesSuperclass(t) then VisitType(t.superclass.value, q, conv, st) else st;
    if ProcessesSuperclass(t) {
      VisitTypeHintsComplete(t.superclass.value, q, conv, st);
    }
    VisitElementsHintsComplete(t.members, q, conv, afterSuper);
  }

  /** The column name is the non-empty @Column value when there is one, else the converted field name. */
  lemma ColumnNameResolution(e: Element, conv: string -> string)
    ensures HasAnnotation(e.annotations, COLUMN_ANNOTATION)
            && (exists a | a in GetAnnotationMirror(e.annotations, COLUMN_ANNOTATION).value.elementValues
                  :: a.key == "value" && a.value != "")
        ==> ColumnName(e, conv) != ""
            && AnnotationValue("value", ColumnName(e, conv))
               in GetAnnotationMirror(e.annotations, COLUMN_ANNOTATION).value.elementValues
    ensures !HasAnnotation(e.annotations, COLUMN_ANNOTATION)
            || (forall a | a in GetAnnotationMirror(e.annotations, COLUMN_ANNOTATION).value.elementValues
                  :: a.key == "value" ==> a.value == "")
        ==> ColumnName(e, conv) == conv(e.simpleName)
  {
  }

  /**
   * The hints of a new column are the constant lookups: nullable, length 0
   * for a String and unset otherwise, precision 0 and scale 2 for a
   * BigDecimal, a column definition for an Integer, and the JSON flag.
   */
  lemma NewColumnHints(e: Element, column: string)
    ensures var c := NewColumn(e, column);
      && c.column == column && c.javaType == e.typeName && c.javaField == e.simpleName
      && c.nullable && c.isJson == IsJson(e) && c.HintsComplete()
      && (c.length.Some? <==> e.typeName == STRING_TYPE)
      && (e.typeName == STRING_TYPE ==> c.length == Some(0))
      && (e.typeName == BIG_DECIMAL_TYPE ==> c.Precision() == 0 && c.Scale() == 2)
      && (e.typeName == INTEGER_TYPE ==> c.columnDefinition == Some(""))
  {
  }

  /**
   * The column definition of an Integer field is always "", so it contains
   * neither "tinyint" nor "smallint": every collected Integer is INTEGER(10).
   */
  lemma NewIntegerColumnIsInteger(e: Element, column: string)
    requires e.typeName == INTEGER_TYPE
    ensures MapColumnType(NewColumn(e, column)) == ColumnType(INTEGER, Some(10), None)
  {
    assert !Contains("", "tinyint");
    assert !Contains("", "smallint");
  }

  /** Every new column is nullable, so its descriptor never ends in ".notNull()". */
  lemma NewColumnNeverNotNull(e: Element, column: string)
    ensures NewColumn(e, column).HintsComplete()
    ensures !EndsWith(ColumnTypeText(NewColumn(e, column)), ".notNull()")
  {
    NotNullIffNotNullable(NewColumn(e, column));
  }

  /**
   * Over the whole chain: every column processFields adds is nullable, and
   * every Integer column among them maps to INTEGER(10).
   */
  lemma CollectedColumnsDescriptors(t: TypeElement, q: string, conv: string -> string, st: Collected)
    ensures var r := VisitType(t, q, conv, st);
      forall k | |st.columns| <= k < |r.columns| ::
        && r.columns[k].HintsComplete()
        && !EndsWith(ColumnTypeText(r.columns[k]), ".notNull()")
        && (r.columns[k].javaType == INTEGER_TYPE ==> MapColumnType(r.columns[k]) == ColumnType(INTEGER, Some(10), None))
  {
    var r := VisitType(t, q, conv, st);
    IgnoredFieldsYieldNoColumn(t, q, conv, st);
    forall k | |st.columns| <= k < |r.columns|
      ensures && r.columns[k].HintsComplete()
              && !EndsWith(ColumnTypeText(r.columns[k]), ".notNull()")
              && (r.columns[k].javaType == INTEGER_TYPE ==> MapColumnType(r.columns[k]) == ColumnType(INTEGER, Some(10), None))
    {
      assert exists e | e in ChainElements(t) :: Collectible(e) && r.columns[k] == NewColumn(e, ColumnName(e, conv));
      var e :| e in ChainElements(t) && Collectible(e) && r.columns[k] == NewColumn(e, ColumnName(e, conv));
      NewColumnNeverNotNull(e, ColumnName(e, conv));
      if e.typeName == INTEGER_TYPE {
        NewIntegerColumnIsInteger(e, ColumnName(e, conv));
      }
    }
  }

  // ----- First occurrence wins, against the reference Dedup -----

  /** The loop over one class keeps exactly the candidates Dedup keeps. */
  lemma {:induction false} VisitElementsDedup(ms: seq<Element>, q: string, conv: string -> string, st: Collected)
    ensures VisitElements(ms, q, conv, st).columns == st.columns + Dedup(Candidates(ms, conv), st.columns)
  {
    if ms != [] {
      var init := ms[..|ms| - 1];
      var e := ms[|ms| - 1];
      var mid := VisitElements(init, q, conv, st);
      VisitElementsDedup(init, q, conv, st);
      var c0 := Candidates(init, conv);
      var kept := Dedup(c0, st.columns);
      if Collectible(e) {
        var x := NewColumn(e, ColumnName(e, conv));
        assert Candidates(ms, conv) == c0 + [x];
        assert (c0 + [x])[..|c0|] == c0;
        assert Dedup(c0 + [x], st.columns) == kept + if HasColumn(st.columns + kept, x.column) then [] else [x];
        if HasColumn(mid.columns, ColumnName(e, conv)) {
          VisitElementSkips(e, q, conv, mid);
        } else {
          VisitElementAdds(e, q, conv, mid);
          AppendTwo(st.columns, kept, [x]);
        }
      } else {
        assert Candidates(ms, conv) == c0 + [] == c0;
        VisitElementSkips(e, q, conv, mid);
      }
    }
  }

  /** De-duplicating a concatenation de-duplicates the second part against what the first part kept. */
  lemma {:induction false} DedupConcat(a: seq<ColumnRecord>, b: seq<ColumnRecord>, seen: seq<ColumnRecord>)
    ensures Dedup(a + b, seen) == Dedup(a, seen) + Dedup(b, seen + Dedup(a, seen))
    decreases |b|
  {
    var da := Dedup(a, seen);
    if b == [] {
      assert a + b == a;
    } else {
      var b0 := b[..|b| - 1];
      var y := b[|b| - 1];
      DedupConcat(a, b0, seen);
      var db0 := Dedup(b0, seen + da);
      var tail := if HasColumn(seen + da + db0, y.column) then [] else [y];
      assert (a + b)[..|a + b| - 1] == a + b0;
      AppendTwo(seen, da, db0);
      assert Dedup(a + b, seen) == (da + db0) + tail;
      assert Dedup(b, seen + da) == db0 + tail;
      AppendTwo(da, db0, tail);
    }
  }

  /**
   * processFields keeps, of the chain's kept fields taken superclass first,
   * exactly the first field under each column name not collected before.
   */
  lemma {:induction false} VisitTypeDedup(t: TypeElement, q: string, conv: string -> string, st: Collected)
    ensures VisitType(t, q, conv, st).columns == st.columns + Dedup(ChainCandidates(t, conv), st.columns)
    decreases t
  {
    if ProcessesSuperclass(t) {
      var sup := t.superclass.value;
      var mid := VisitType(sup, q, conv, st);
      VisitTypeDedup(sup, q, conv, st);
      VisitElementsDedup(t.members, q, conv, mid);
      var d1 := Dedup(ChainCandidates(sup, conv), st.columns);
      DedupConcat(ChainCandidates(sup, conv), Candidates(t.members, conv), st.columns);
      AppendTwo(st.columns, d1, Dedup(Candidates(t.members, conv), mid.columns));
    } else {
      VisitElementsDedup(t.members, q, conv, st);
      assert ChainCandidates(t, conv) == [] + Candidates(t.members, conv) == Candidates(t.members, conv);
    }
  }
}
