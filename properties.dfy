/** What a consumer of the node JSON can rely on, derived from the schema:
    the "type" key, the position and children keys, the null-versus-omitted
    policy of optional fields, their defaults, the enum and attribute
    encodings, distinct keys at every depth, and a reader that recovers the
    tree's shape. */
module Properties {
  import opened Options
  import opened Json
  import opened Mdast
  import opened Wrappers
  import opened Schema

  // ---------------------------------------------------------------------------
  // Keys: order, distinctness, lookup
  // ---------------------------------------------------------------------------

  /** A node is always written as an object whose keys are its layout, in
      order, and no key is written twice. */
  lemma KeyOrder(n: Node)
    ensures Emit(n).JObj?
    ensures Keys(Emit(n).fields) == KeyNames(Layout(n))
    ensures Distinct(Keys(Emit(n).fields))
  {
    EmitMatchesSchema(n);
    FieldsKeys(n);
  }

  /** Reading key `k` from a node's object yields the schema's value when the
      layout has `k`, and finds nothing otherwise. */
  lemma GetKey(n: Node, k: Key)
    ensures Get(Emit(n), KeyName(k)) == if k in Layout(n) then Some(Value(n, k)) else Option.None
  {
    EmitMatchesSchema(n);
    FieldsLookup(n, k);
  }

  /** The first field is "type", holding the variant's name; `Math` has no
      arm of its own and is tagged "_TODO". */
  lemma TypeFirst(n: Node)
    ensures Emit(n).JObj? && |Emit(n).fields| > 0
    ensures Emit(n).fields[0] == (KeyName(KType), JStr(if n.Math? then "_TODO" else VariantName(n)))
    ensures Get(Emit(n), KeyName(KType)) == Some(JStr(if n.Math? then "_TODO" else VariantName(n)))
  {
    EmitMatchesSchema(n);
    LayoutStartsWithType(n);
    GetKey(n, KType);
  }

  /** The catch-all arm: a `Math` node becomes `{"type": "_TODO"}` and nothing
      else; its value, meta and position are dropped. */
  lemma MathFallback(n: Node)
    requires n.Math?
    ensures Emit(n) == JObj([("type", JStr("_TODO"))])
  {
    MathArm(n);
  }

  /** "position" is present exactly when the node has a span (and is not
      `Math`), is never null, and reads back as that span. */
  lemma PositionKey(n: Node)
    ensures Get(Emit(n), KeyName(KPosition)) ==
            if !n.Math? && n.position.Some? then Some(PositionJson(n.position.value)) else Option.None
    ensures Get(Emit(n), KeyName(KPosition)) != Some(JNull)
    ensures !n.Math? && n.position.Some? ==>
            PositionOf(Get(Emit(n), KeyName(KPosition)).value) == n.position
  {
    GetKey(n, KPosition);
    PositionInLayout(n);
  }

  /** "children" is present exactly on the parent variants, and holds one
      object per child, in document order. */
  lemma ChildrenKey(n: Node)
    ensures Get(Emit(n), KeyName(KChildren)) ==
            if IsParent(n) then Some(JArr(EmitChildren(n.children))) else Option.None
  {
    GetKey(n, KChildren);
    ChildrenInLayout(n);
  }

  /** The children array has one entry per child, the i-th being the i-th
      child's object. */
  lemma ChildrenInOrder(cs: seq<Node>)
    ensures |EmitChildren(cs)| == |cs|
    ensures forall i :: 0 <= i < |cs| ==> EmitChildren(cs)[i] == Emit(cs[i])
  {
  }

  // ---------------------------------------------------------------------------
  // Optional fields: omitted, null, or defaulted
  // ---------------------------------------------------------------------------

  /** A link without a title has no "title" key at all. */
  lemma LinkTitleOmitted(n: Node)
    requires n.Link?
    ensures Get(Emit(n), KeyName(KTitle)) == if n.title.Some? then Some(JStr(n.title.value)) else Option.None
  {
    LinkTitleInSchema(n);
    GetKey(n, KTitle);
  }

  /** A flow element without a name has no "name" key at all. */
  lemma FlowElementNameOmitted(n: Node)
    requires n.MdxJsxFlowElement?
    ensures Get(Emit(n), KeyName(KName)) == if n.name.Some? then Some(JStr(n.name.value)) else Option.None
  {
    FlowElementNameInSchema(n);
    GetKey(n, KName);
  }

  /** A text element always has "name", null when it has none. */
  lemma TextElementNameNullable(n: Node)
    requires n.MdxJsxTextElement?
    ensures Get(Emit(n), KeyName(KName)) == Some(if n.name.Some? then JStr(n.name.value) else JNull)
  {
    TextElementNameInSchema(n);
    GetKey(n, KName);
  }

  /** A list always has "start", null when `start` is absent. */
  lemma ListStartNullable(n: Node)
    requires n.List?
    ensures Get(Emit(n), KeyName(KStart)) == Some(if n.start.Some? then JNum(n.start.value) else JNull)
  {
    ListStartInSchema(n);
    GetKey(n, KStart);
  }

  /** An image always has "title", null when it has none. */
  lemma ImageTitleNullable(n: Node)
    requires n.Image?
    ensures Get(Emit(n), KeyName(KTitle)) == Some(if n.title.Some? then JStr(n.title.value) else JNull)
  {
    ImageTitleInSchema(n);
    GetKey(n, KTitle);
  }

  /** Footnote definitions and image and link references always have
      "label", null when they have none. */
  lemma ReferenceLabelNullable(n: Node)
    requires n.FootnoteDefinition? || n.ImageReference? || n.LinkReference?
    ensures Get(Emit(n), KeyName(KLabel)) == Some(if n.label'.Some? then JStr(n.label'.value) else JNull)
  {
    ReferenceLabelInSchema(n);
    GetKey(n, KLabel);
  }

  /** A code block always has "lang" and "meta", "" when absent. */
  lemma CodeDefaults(n: Node)
    requires n.Code?
    ensures Get(Emit(n), KeyName(KLang)) == Some(JStr(if n.lang.Some? then n.lang.value else ""))
    ensures Get(Emit(n), KeyName(KMeta)) == Some(JStr(if n.meta.Some? then n.meta.value else ""))
  {
    CodeDefaultsInSchema(n);
    GetKey(n, KLang);
    GetKey(n, KMeta);
  }

  /** A definition always has "title" and "label", "" when absent. */
  lemma DefinitionDefaults(n: Node)
    requires n.Definition?
    ensures Get(Emit(n), KeyName(KTitle)) == Some(JStr(if n.title.Some? then n.title.value else ""))
    ensures Get(Emit(n), KeyName(KLabel)) == Some(JStr(if n.label'.Some? then n.label'.value else ""))
  {
    DefinitionDefaultsInSchema(n);
    GetKey(n, KTitle);
    GetKey(n, KLabel);
  }

  /** A list item always has "checked", false when `checked` is absent. */
  lemma ListItemCheckedDefault(n: Node)
    requires n.ListItem?
    ensures Get(Emit(n), KeyName(KChecked)) == Some(JBool(n.checked.Some? && n.checked.value))
  {
    ListItemCheckedInSchema(n);
    GetKey(n, KChecked);
  }

  // ---------------------------------------------------------------------------
  // Enums, attributes and stops
  // ---------------------------------------------------------------------------

  /** A table's "align" lists every column's alignment by name, in order. */
  lemma AlignKey(n: Node)
    requires n.Table?
    ensures Get(Emit(n), KeyName(KAlign)).Some? && Get(Emit(n), KeyName(KAlign)).value.JArr?
    ensures var items := Get(Emit(n), KeyName(KAlign)).value.items;
            |items| == |n.align| &&
            forall i :: 0 <= i < |items| ==> items[i].JStr? && AlignKindOf(items[i].s) == Some(n.align[i])
  {
    AlignInSchema(n);
    GetKey(n, KAlign);
  }

  /** A reference's "reference_kind" is the kind's name. */
  lemma ReferenceKindKey(n: Node)
    requires n.ImageReference? || n.LinkReference?
    ensures Get(Emit(n), KeyName(KReferenceKind)).Some? && Get(Emit(n), KeyName(KReferenceKind)).value.JStr?
    ensures ReferenceKindOf(Get(Emit(n), KeyName(KReferenceKind)).value.s) == Some(n.referenceKind)
  {
    ReferenceKindInSchema(n);
    GetKey(n, KReferenceKind);
  }

  /** A JSX element's "attributes" keeps every entry, in order, and each
      entry reads back as the original with a property's name blanked. */
  lemma AttributesKey(n: Node)
    requires n.MdxJsxFlowElement? || n.MdxJsxTextElement?
    ensures Get(Emit(n), KeyName(KAttributes)).Some? && Get(Emit(n), KeyName(KAttributes)).value.JArr?
    ensures var items := Get(Emit(n), KeyName(KAttributes)).value.items;
            |items| == |n.attributes| &&
            forall i :: 0 <= i < |items| ==> AttributeContentOf(items[i]) == Some(Unnamed(n.attributes[i]))
  {
    AttributesInSchema(n);
    GetKey(n, KAttributes);
  }

  /** Two properties that differ only in their names are written the same:
      the name never reaches the JSON. */
  lemma PropertyNameDropped(a: MdxJsxAttribute, b: MdxJsxAttribute)
    requires a.value == b.value
    ensures AttributeContentJson(Property(a)) == AttributeContentJson(Property(b))
  {
  }

  /** Only a flow expression writes "stops", and they read back unchanged;
      the stops of text expressions and ESM blocks are not written. */
  lemma StopsKey(n: Node)
    ensures Get(Emit(n), KeyName(KStops)).Some? <==> n.MdxFlowExpression?
    ensures n.MdxFlowExpression? ==> StopsOf(Get(Emit(n), KeyName(KStops)).value) == Some(n.stops)
  {
    GetKey(n, KStops);
    StopsInLayout(n);
    if n.MdxFlowExpression? {
      StopsInSchema(n);
    }
  }

  // ---------------------------------------------------------------------------
  // Distinct keys at every depth
  // ---------------------------------------------------------------------------

  /** Every value the schema puts in a node's object has distinct keys
      throughout, given that the node's children do. */
  lemma ValueUniqueKeys(n: Node, k: Key)
    requires IsParent(n) ==> forall c :: c in n.children ==> UniqueKeys(Emit(c))
    ensures UniqueKeys(Value(n, k))
  {
    match k
    case KChildren =>
      if IsParent(n) {
        var items := EmitChildren(n.children);
        forall i | 0 <= i < |items| ensures UniqueKeys(items[i]) {
          assert n.children[i] in n.children;
        }
      }
    case KAttributes =>
      if n.MdxJsxFlowElement? || n.MdxJsxTextElement? {
        var items := Collect(n.attributes, AttributeContentJson);
        forall i | 0 <= i < |items| ensures UniqueKeys(items[i]) {
          assert items[i] == AttributeContentJson(n.attributes[i]);
        }
      }
    case KAlign =>
      if n.Table? {
        var items := Collect(n.align, AlignJson);
        forall i | 0 <= i < |items| ensures UniqueKeys(items[i]) {
          assert items[i] == AlignJson(n.align[i]);
        }
      }
    case KStops =>
      if n.MdxFlowExpression? {
        StopsRoundTrip(n.stops);
      }
    case _ =>
  }

  /** No object anywhere in a node's JSON has a key twice. */
  lemma {:induction false} EmitUniqueKeys(n: Node)
    ensures UniqueKeys(Emit(n))
    decreases n
  {
    if IsParent(n) {
      forall c | c in n.children ensures UniqueKeys(Emit(c)) {
        EmitUniqueKeys(c);
      }
    }
    KeyOrder(n);
    EmitMatchesSchema(n);
    var keys := Layout(n);
    var fields := Fields(n);
    forall i | 0 <= i < |fields| ensures UniqueKeys(fields[i].1) {
      ValueUniqueKeys(n, keys[i]);
    }
  }

  // ---------------------------------------------------------------------------
  // Reading the shape of the tree back
  // ---------------------------------------------------------------------------

  /** The shape of a tree: each node's type tag and its children. */
  datatype Outline = Outline(kind: string, kids: seq<Outline>)

  function OutlineOf(n: Node): Outline
  {
    Outline(TypeName(n),
            if IsParent(n)
            then seq(|n.children|, i requires 0 <= i < |n.children| => OutlineOf(n.children[i]))
            else [])
  }

  /** A consumer's reading of the JSON: the "type" string and, when there is
      a "children" array, the outline of each entry. */
  function ReadOutline(j: Json): Option<Outline>
    decreases j
  {
    match Get(j, KeyName(KType))
    case Some(JStr(kind)) =>
      (match Get(j, KeyName(KChildren))
       case None => Some(Outline(kind, []))
       case Some(c) =>
         assert (KeyName(KChildren), c) in j.fields;
         if c.JArr? && forall i :: 0 <= i < |c.items| ==> ReadOutline(c.items[i]).Some?
         then Some(Outline(kind, seq(|c.items|, i requires 0 <= i < |c.items| => ReadOutline(c.items[i]).value)))
         else Option.None)
    case _ => Option.None
  }

  /** An object whose "type" is a string and that has no "children" reads as
      a leaf of that kind. */
  lemma ReadLeaf(j: Json, kind: string)
    requires Get(j, KeyName(KType)) == Some(JStr(kind))
    requires Get(j, KeyName(KChildren)) == Option.None
    ensures ReadOutline(j) == Some(Outline(kind, []))
  {
  }

  /** An object whose "children" array reads entry by entry as `kids` reads as
      a node of that kind with those kids. */
  lemma ReadParent(j: Json, kind: string, items: seq<Json>, kids: seq<Outline>)
    requires Get(j, KeyName(KType)) == Some(JStr(kind))
    requires Get(j, KeyName(KChildren)) == Some(JArr(items))
    requires |items| == |kids|
    requires forall i :: 0 <= i < |items| ==> ReadOutline(items[i]) == Some(kids[i])
    ensures ReadOutline(j) == Some(Outline(kind, kids))
  {
    var read := seq(|items|, i requires 0 <= i < |items| => ReadOutline(items[i]).value);
    assert read == kids;
    assert ReadOutline(j) == Some(Outline(kind, read));
  }

  /** Reading a node's JSON recovers the node's outline: the type tags and
      the parent-child structure survive serialization. */
  lemma {:induction false} OutlineRoundTrip(n: Node)
    ensures ReadOutline(Emit(n)) == Some(OutlineOf(n))
    decreases n
  {
    TypeFirst(n);
    ChildrenKey(n);
    var j := Emit(n);
    if IsParent(n) {
      var cs := n.children;
      var items := EmitChildren(cs);
      var kids := OutlineOf(n).kids;
      forall i | 0 <= i < |items| ensures ReadOutline(items[i]) == Some(kids[i]) {
        OutlineRoundTrip(cs[i]);
      }
      ReadParent(j, TypeName(n), items, kids);
    } else {
      ReadLeaf(j, TypeName(n));
    }
  }
}
