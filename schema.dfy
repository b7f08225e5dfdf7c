/** The wire schema the node serializer commits to, written down independently
    of the serializer: per variant, which keys its object has and in what order
    (`Layout`), and per key, what the key holds (`Value`). `EmitMatchesSchema`
    proves that `Emit` writes exactly this object for every node. */
module Schema {
  import opened Options
  import opened Json
  import opened Mdast
  import opened Wrappers

  /** The keys a node object can carry. */
  datatype Key =
    | KType | KPosition | KChildren | KValue | KIdentifier | KLabel | KTitle | KName
    | KUrl | KAlt | KReferenceKind | KAttributes | KOrdered | KStart | KSpread
    | KChecked | KDepth | KAlign | KLang | KMeta | KStops

  /** The key as it is spelled in the JSON object. */
  function KeyName(k: Key): string
  {
    match k
    case KType => "type"
    case KPosition => "position"
    case KChildren => "children"
    case KValue => "value"
    case KIdentifier => "identifier"
    case KLabel => "label"
    case KTitle => "title"
    case KName => "name"
    case KUrl => "url"
    case KAlt => "alt"
    case KReferenceKind => "reference_kind"
    case KAttributes => "attributes"
    case KOrdered => "ordered"
    case KStart => "start"
    case KSpread => "spread"
    case KChecked => "checked"
    case KDepth => "depth"
    case KAlign => "align"
    case KLang => "lang"
    case KMeta => "meta"
    case KStops => "stops"
  }

  /** Different keys are spelled differently. */
  lemma KeyNameInjective(k1: Key, k2: Key)
    ensures KeyName(k1) == KeyName(k2) ==> k1 == k2
  {
  }

  /** `k` when the optional field is present, nothing otherwise. */
  function KeyIfSome<T>(o: Option<T>, k: Key): seq<Key>
  {
    if o.Some? then [k] else []
  }

  /** The keys of a node's object, in the order they are written. Only
      "position", Link's "title" and MdxJsxFlowElement's "name" come and go;
      every other key of a variant is always there. */
  function Layout(n: Node): seq<Key>
  {
    match n
    case Root(_, p) => [KType, KChildren] + KeyIfSome(p, KPosition)
    case BlockQuote(_, p) => [KType] + KeyIfSome(p, KPosition) + [KChildren]
    case FootnoteDefinition(_, p, _, _) =>
      [KType] + KeyIfSome(p, KPosition) + [KChildren, KIdentifier, KLabel]
    case MdxJsxFlowElement(_, p, name, _) =>
      [KType] + KeyIfSome(name, KName) + KeyIfSome(p, KPosition) + [KChildren, KAttributes]
    case List(_, p, _, _, _) =>
      [KType] + KeyIfSome(p, KPosition) + [KOrdered, KStart, KSpread, KChildren]
    case MdxjsEsm(_, p, _) => [KType] + KeyIfSome(p, KPosition) + [KValue]
    case Toml(_, p) => [KType] + KeyIfSome(p, KPosition) + [KValue]
    case Yaml(_, p) => [KType] + KeyIfSome(p, KPosition) + [KValue]
    case Break(p) => [KType] + KeyIfSome(p, KPosition)
    case InlineCode(_, p) => [KType] + KeyIfSome(p, KPosition) + [KValue]
    case InlineMath(_, p) => [KType] + KeyIfSome(p, KPosition) + [KValue]
    case Delete(_, p) => [KType] + KeyIfSome(p, KPosition) + [KChildren]
    case Emphasis(_, p) => [KType] + KeyIfSome(p, KPosition) + [KChildren]
    case MdxTextExpression(_, p, _) => [KType] + KeyIfSome(p, KPosition) + [KValue]
    case FootnoteReference(p, _, _) => [KType] + KeyIfSome(p, KPosition) + [KIdentifier]
    case Html(_, p) => [KType] + KeyIfSome(p, KPosition) + [KValue]
    case Image(p, _, _, _) => [KType] + KeyIfSome(p, KPosition) + [KTitle, KAlt, KUrl]
    case ImageReference(p, _, _, _, _) =>
      [KType] + KeyIfSome(p, KPosition) + [KLabel, KAlt, KIdentifier, KReferenceKind]
    case MdxJsxTextElement(_, p, _, _) =>
      [KType] + KeyIfSome(p, KPosition) + [KName, KChildren, KAttributes]
    case Link(_, p, _, title) =>
      [KType] + KeyIfSome(p, KPosition) + [KChildren] + KeyIfSome(title, KTitle) + [KUrl]
    case LinkReference(_, p, _, _, _) =>
      [KType] + KeyIfSome(p, KPosition) + [KLabel, KIdentifier, KChildren, KReferenceKind]
    case Strong(_, p) => [KType] + KeyIfSome(p, KPosition) + [KChildren]
    case Text(_, p) => [KType, KValue] + KeyIfSome(p, KPosition)
    case Code(_, p, _, _) => [KType, KValue] + KeyIfSome(p, KPosition) + [KLang, KMeta]
    case Math(_, _, _) => [KType]
    case MdxFlowExpression(_, p, _) => [KType, KValue] + KeyIfSome(p, KPosition) + [KStops]
    case Heading(_, p, _) => [KType, KDepth, KChildren] + KeyIfSome(p, KPosition)
    case Table(_, p, _) => [KType] + KeyIfSome(p, KPosition) + [KChildren, KAlign]
    case ThematicBreak(p) => [KType] + KeyIfSome(p, KPosition)
    case TableRow(_, p) => [KType] + KeyIfSome(p, KPosition) + [KChildren]
    case TableCell(_, p) => [KType] + KeyIfSome(p, KPosition) + [KChildren]
    case ListItem(_, p, _, _) => [KType] + KeyIfSome(p, KPosition) + [KChecked, KChildren, KSpread]
    case Definition(p, _, _, _, _) =>
      [KType] + KeyIfSome(p, KPosition) + [KIdentifier, KUrl, KTitle, KLabel]
    case Paragraph(_, p) => [KType] + KeyIfSome(p, KPosition) + [KChildren]
  }

  /** Every object starts with its "type" key. */
  lemma LayoutStartsWithType(n: Node)
    ensures |Layout(n)| > 0 && Layout(n)[0] == KType
  {
  }

  /** No layout names a key twice. */
  lemma LayoutDistinct(n: Node)
    ensures forall i, j :: 0 <= i < j < |Layout(n)| ==> Layout(n)[i] != Layout(n)[j]
  {
    if IsContainer(n) {
      ContainerLayoutDistinct(n);
    } else if IsLiteral(n) {
      LiteralLayoutDistinct(n);
    } else if IsResource(n) {
      ResourceLayoutDistinct(n);
    } else {
      ElementLayoutDistinct(n);
    }
  }

  /** Variants whose only keys besides "type" and "position" are "children"
      (and, for a heading, "depth"). */
  predicate IsContainer(n: Node)
  {
    n.Root? || n.BlockQuote? || n.Delete? || n.Emphasis? || n.Strong? ||
    n.TableRow? || n.TableCell? || n.Paragraph? || n.Heading?
  }

  /** Variants that carry a literal "value" instead of children, and `Math`. */
  predicate IsLiteral(n: Node)
  {
    n.MdxjsEsm? || n.Toml? || n.Yaml? || n.InlineCode? || n.InlineMath? ||
    n.MdxTextExpression? || n.Html? || n.Text? || n.Code? || n.MdxFlowExpression? || n.Math?
  }

  /** Footnote definitions, lists and list items, tables and JSX elements. */
  predicate IsElement(n: Node)
  {
    n.FootnoteDefinition? || n.MdxJsxFlowElement? || n.MdxJsxTextElement? ||
    n.List? || n.ListItem? || n.Table?
  }

  /** Breaks, references, images, links and definitions. */
  predicate IsResource(n: Node)
  {
    n.Break? || n.ThematicBreak? || n.FootnoteReference? || n.Image? ||
    n.ImageReference? || n.Definition? || n.Link? || n.LinkReference?
  }

  lemma ContainerLayoutDistinct(n: Node)
    requires IsContainer(n)
    ensures forall i, j :: 0 <= i < j < |Layout(n)| ==> Layout(n)[i] != Layout(n)[j]
  {
    var keys := Layout(n);
    forall i, j | 0 <= i < j < |keys| ensures keys[i] != keys[j] {}
  }

  lemma LiteralLayoutDistinct(n: Node)
    requires IsLiteral(n)
    ensures forall i, j :: 0 <= i < j < |Layout(n)| ==> Layout(n)[i] != Layout(n)[j]
  {
    var keys := Layout(n);
    forall i, j | 0 <= i < j < |keys| ensures keys[i] != keys[j] {}
  }

  lemma ResourceLayoutDistinct(n: Node)
    requires IsResource(n)
    ensures forall i, j :: 0 <= i < j < |Layout(n)| ==> Layout(n)[i] != Layout(n)[j]
  {
    var keys := Layout(n);
    forall i, j | 0 <= i < j < |keys| ensures keys[i] != keys[j] {}
  }

  lemma ElementLayoutDistinct(n: Node)
    requires IsElement(n)
    ensures forall i, j :: 0 <= i < j < |Layout(n)| ==> Layout(n)[i] != Layout(n)[j]
  {
    var keys := Layout(n);
    forall i, j | 0 <= i < j < |keys| ensures keys[i] != keys[j] {}
  }

  /** "position" is written exactly when the node has a span, except on the
      catch-all arm. */
  lemma PositionInLayout(n: Node)
    ensures KPosition in Layout(n) <==> !n.Math? && n.position.Some?
  {
  }

  /** "children" is written exactly for the parent variants. */
  lemma ChildrenInLayout(n: Node)
    ensures KChildren in Layout(n) <==> IsParent(n)
  {
  }

  /** Only a flow expression writes its stops. */
  lemma StopsInLayout(n: Node)
    ensures KStops in Layout(n) <==> n.MdxFlowExpression?
  {
  }

  /** A flow expression's stops read back from the value it writes. */
  lemma StopsInSchema(n: Node)
    requires n.MdxFlowExpression?
    ensures StopsOf(Value(n, KStops)) == Some(n.stops)
  {
    StopsRoundTrip(n.stops);
  }

  /** What key `k` holds in the object of `n`, one key at a time: this is where
      the null-or-default policy for optional fields is stated. Only consulted
      for keys in `Layout(n)`; for any other key it is `JNull`. */
  function Value(n: Node, k: Key): Json
  {
    match k
    case KType => JStr(TypeName(n))
    case KPosition => if n.position.Some? then PositionJson(n.position.value) else JNull
    case KChildren => if IsParent(n) then JArr(EmitChildren(n.children)) else JNull
    case KValue =>
      if n.MdxjsEsm? || n.Toml? || n.Yaml? || n.InlineCode? || n.InlineMath?
         || n.MdxTextExpression? || n.Html? || n.Text? || n.Code? || n.MdxFlowExpression?
      then JStr(n.value) else JNull
    case KIdentifier =>
      if n.FootnoteDefinition? || n.FootnoteReference? || n.ImageReference?
         || n.LinkReference? || n.Definition?
      then JStr(n.identifier) else JNull
    case KLabel =>
      // a definition's label defaults to "", the other labels are nullable
      if n.Definition? then JStr(OrEmpty(n.label'))
      else if n.FootnoteDefinition? || n.ImageReference? || n.LinkReference? then StringOrNull(n.label')
      else JNull
    case KTitle =>
      // a definition's title defaults to "", an image's is nullable, a link's
      // is only written when present
      if n.Definition? then JStr(OrEmpty(n.title))
      else if n.Image? || n.Link? then StringOrNull(n.title)
      else JNull
    case KName =>
      // written only when present on a flow element, nullable on a text element
      if n.MdxJsxFlowElement? || n.MdxJsxTextElement? then StringOrNull(n.name) else JNull
    case KUrl => if n.Image? || n.Link? || n.Definition? then JStr(n.url) else JNull
    case KAlt => if n.Image? || n.ImageReference? then JStr(n.alt) else JNull
    case KReferenceKind =>
      if n.ImageReference? || n.LinkReference? then JStr(ReferenceKindName(n.referenceKind)) else JNull
    case KAttributes =>
      if n.MdxJsxFlowElement? || n.MdxJsxTextElement? then JArr(Collect(n.attributes, AttributeContentJson))
      else JNull
    case KOrdered => if n.List? then JBool(n.ordered) else JNull
    case KStart => if n.List? then NumberOrNull(n.start) else JNull
    case KSpread => if n.List? || n.ListItem? then JBool(n.spread) else JNull
    case KChecked => if n.ListItem? then JBool(n.checked == Some(true)) else JNull
    case KDepth => if n.Heading? then JNum(n.depth) else JNull
    case KAlign => if n.Table? then JArr(Collect(n.align, AlignJson)) else JNull
    case KLang => if n.Code? then JStr(OrEmpty(n.lang)) else JNull
    case KMeta => if n.Code? then JStr(OrEmpty(n.meta)) else JNull
    case KStops => if n.MdxFlowExpression? then StopsJson(n.stops) else JNull
  }

  /** The object the schema prescribes: the layout's keys in order, each with
      its value. */
  function Fields(n: Node): seq<(string, Json)>
  {
    var keys := Layout(n);
    seq(|keys|, i requires 0 <= i < |keys| => (KeyName(keys[i]), Value(n, keys[i])))
  }

  /** The spelled-out keys of a layout. */
  function KeyNames(keys: seq<Key>): seq<string>
  {
    seq(|keys|, i requires 0 <= i < |keys| => KeyName(keys[i]))
  }

  /** The schema's object has the layout's keys, in order, each once. */
  lemma FieldsKeys(n: Node)
    ensures Keys(Fields(n)) == KeyNames(Layout(n))
    ensures Distinct(Keys(Fields(n)))
  {
    LayoutDistinct(n);
    var keys := Layout(n);
    assert Keys(Fields(n)) == KeyNames(keys);
    forall i, j | 0 <= i < j < |keys| ensures KeyName(keys[i]) != KeyName(keys[j]) {
      KeyNameInjective(keys[i], keys[j]);
    }
  }

  /** Looking a key up in the schema's object finds its value exactly when
      the layout has the key. */
  lemma FieldsLookup(n: Node, k: Key)
    ensures Lookup(Fields(n), KeyName(k)) == if k in Layout(n) then Some(Value(n, k)) else Option.None
  {
    FieldsKeys(n);
    var keys := Layout(n);
    var fields := Fields(n);
    if k in keys {
      var i :| 0 <= i < |keys| && keys[i] == k;
      assert fields[i] == (KeyName(k), Value(n, k));
      LookupDistinct(fields, KeyName(k), Value(n, k));
    } else if KeyName(k) in Keys(fields) {
      var i :| 0 <= i < |fields| && Keys(fields)[i] == KeyName(k);
      KeyNameInjective(keys[i], k);
      assert false;
    }
  }

  // Optional and defaulted fields, variant by variant.

  lemma LinkTitleInSchema(n: Node)
    requires n.Link?
    ensures KTitle in Layout(n) <==> n.title.Some?
    ensures n.title.Some? ==> Value(n, KTitle) == JStr(n.title.value)
  {
  }

  lemma FlowElementNameInSchema(n: Node)
    requires n.MdxJsxFlowElement?
    ensures KName in Layout(n) <==> n.name.Some?
    ensures n.name.Some? ==> Value(n, KName) == JStr(n.name.value)
  {
  }

  lemma TextElementNameInSchema(n: Node)
    requires n.MdxJsxTextElement?
    ensures KName in Layout(n)
    ensures Value(n, KName) == if n.name.Some? then JStr(n.name.value) else JNull
  {
  }

  lemma ListStartInSchema(n: Node)
    requires n.List?
    ensures KStart in Layout(n)
    ensures Value(n, KStart) == if n.start.Some? then JNum(n.start.value) else JNull
  {
  }

  lemma ImageTitleInSchema(n: Node)
    requires n.Image?
    ensures KTitle in Layout(n)
    ensures Value(n, KTitle) == if n.title.Some? then JStr(n.title.value) else JNull
  {
  }

  lemma ReferenceLabelInSchema(n: Node)
    requires n.FootnoteDefinition? || n.ImageReference? || n.LinkReference?
    ensures KLabel in Layout(n)
    ensures Value(n, KLabel) == if n.label'.Some? then JStr(n.label'.value) else JNull
  {
  }

  lemma CodeDefaultsInSchema(n: Node)
    requires n.Code?
    ensures KLang in Layout(n) && KMeta in Layout(n)
    ensures Value(n, KLang) == JStr(if n.lang.Some? then n.lang.value else "")
    ensures Value(n, KMeta) == JStr(if n.meta.Some? then n.meta.value else "")
  {
  }

  lemma DefinitionDefaultsInSchema(n: Node)
    requires n.Definition?
    ensures KTitle in Layout(n) && KLabel in Layout(n)
    ensures Value(n, KTitle) == JStr(if n.title.Some? then n.title.value else "")
    ensures Value(n, KLabel) == JStr(if n.label'.Some? then n.label'.value else "")
  {
  }

  lemma ListItemCheckedInSchema(n: Node)
    requires n.ListItem?
    ensures KChecked in Layout(n)
    ensures Value(n, KChecked) == JBool(n.checked.Some? && n.checked.value)
  {
  }

  lemma AlignInSchema(n: Node)
    requires n.Table?
    ensures KAlign in Layout(n)
    ensures Value(n, KAlign).JArr? && |Value(n, KAlign).items| == |n.align|
    ensures forall i :: 0 <= i < |n.align| ==>
              Value(n, KAlign).items[i].JStr? && AlignKindOf(Value(n, KAlign).items[i].s) == Some(n.align[i])
  {
    var items := Value(n, KAlign).items;
    forall i | 0 <= i < |n.align|
      ensures items[i].JStr? && AlignKindOf(items[i].s) == Some(n.align[i])
    {
      assert items[i] == AlignJson(n.align[i]);
    }
  }

  lemma ReferenceKindInSchema(n: Node)
    requires n.ImageReference? || n.LinkReference?
    ensures KReferenceKind in Layout(n)
    ensures Value(n, KReferenceKind) == JStr(ReferenceKindName(n.referenceKind))
  {
  }

  lemma AttributesInSchema(n: Node)
    requires n.MdxJsxFlowElement? || n.MdxJsxTextElement?
    ensures KAttributes in Layout(n)
    ensures Value(n, KAttributes).JArr? && |Value(n, KAttributes).items| == |n.attributes|
    ensures forall i :: 0 <= i < |n.attributes| ==>
              AttributeContentOf(Value(n, KAttributes).items[i]) == Some(Unnamed(n.attributes[i]))
  {
    var items := Value(n, KAttributes).items;
    forall i | 0 <= i < |n.attributes|
      ensures AttributeContentOf(items[i]) == Some(Unnamed(n.attributes[i]))
    {
      assert items[i] == AttributeContentJson(n.attributes[i]);
    }
  }

  // One lemma per arm of the node serializer: the arm writes the schema's entries.

  lemma RootArm(n: Node) requires n.Root? ensures Entries(n) == Fields(n) {
    if n.position.Some? {} else {}
  }
  lemma BlockQuoteArm(n: Node) requires n.BlockQuote? ensures Entries(n) == Fields(n) {
    if n.position.Some? {} else {}
  }
  lemma FootnoteDefinitionArm(n: Node) requires n.FootnoteDefinition? ensures Entries(n) == Fields(n) {
    if n.position.Some? {} else {}
  }
  lemma MdxJsxFlowElementArm(n: Node) requires n.MdxJsxFlowElement? ensures Entries(n) == Fields(n) {
    if n.position.Some? {} else {}
  }
  lemma ListArm(n: Node) requires n.List? ensures Entries(n) == Fields(n) {
    if n.position.Some? {} else {}
  }
  lemma MdxjsEsmArm(n: Node) requires n.MdxjsEsm? ensures Entries(n) == Fields(n) {
    if n.position.Some? {} else {}
  }
  lemma TomlArm(n: Node) requires n.Toml? ensures Entries(n) == Fields(n) {
    if n.position.Some? {} else {}
  }
  lemma YamlArm(n: Node) requires n.Yaml? ensures Entries(n) == Fields(n) {
    if n.position.Some? {} else {}
  }
  lemma BreakArm(n: Node) requires n.Break? ensures Entries(n) == Fields(n) {
    if n.position.Some? {} else {}
  }
  lemma InlineCodeArm(n: Node) requires n.InlineCode? ensures Entries(n) == Fields(n) {
    if n.position.Some? {} else {}
  }
  lemma InlineMathArm(n: Node) requires n.InlineMath? ensures Entries(n) == Fields(n) {
    if n.position.Some? {} else {}
  }
  lemma DeleteArm(n: Node) requires n.Delete? ensures Entries(n) == Fields(n) {
    if n.position.Some? {} else {}
  }
  lemma EmphasisArm(n: Node) requires n.Emphasis? ensures Entries(n) == Fields(n) {
    if n.position.Some? {} else {}
  }
  lemma MdxTextExpressionArm(n: Node) requires n.MdxTextExpression? ensures Entries(n) == Fields(n) {
    if n.position.Some? {} else {}
  }
  lemma FootnoteReferenceArm(n: Node) requires n.FootnoteReference? ensures Entries(n) == Fields(n) {
    if n.position.Some? {} else {}
  }
  lemma HtmlArm(n: Node) requires n.Html? ensures Entries(n) == Fields(n) {
    if n.position.Some? {} else {}
  }
  lemma ImageArm(n: Node) requires n.Image? ensures Entries(n) == Fields(n) {
    if n.position.Some? {} else {}
  }
  lemma ImageReferenceArm(n: Node) requires n.ImageReference? ensures Entries(n) == Fields(n) {
    if n.position.Some? {} else {}
  }
  lemma MdxJsxTextElementArm(n: Node) requires n.MdxJsxTextElement? ensures Entries(n) == Fields(n) {
    if n.position.Some? {} else {}
  }
  lemma LinkArm(n: Node) requires n.Link? ensures Entries(n) == Fields(n) {
    if n.position.Some? {} else {}
  }
  lemma LinkReferenceArm(n: Node) requires n.LinkReference? ensures Entries(n) == Fields(n) {
    if n.position.Some? {} else {}
  }
  lemma StrongArm(n: Node) requires n.Strong? ensures Entries(n) == Fields(n) {
    if n.position.Some? {} else {}
  }
  lemma TextArm(n: Node) requires n.Text? ensures Entries(n) == Fields(n) {
    if n.position.Some? {} else {}
  }
  lemma CodeArm(n: Node) requires n.Code? ensures Entries(n) == Fields(n) {
    if n.position.Some? {} else {}
  }
  lemma MathArm(n: Node) requires n.Math? ensures Entries(n) == Fields(n) {}
  lemma MdxFlowExpressionArm(n: Node) requires n.MdxFlowExpression? ensures Entries(n) == Fields(n) {
    if n.position.Some? {} else {}
  }
  lemma HeadingArm(n: Node) requires n.Heading? ensures Entries(n) == Fields(n) {
    if n.position.Some? {} else {}
  }
  lemma TableArm(n: Node) requires n.Table? ensures Entries(n) == Fields(n) {
    if n.position.Some? {} else {}
  }
  lemma ThematicBreakArm(n: Node) requires n.ThematicBreak? ensures Entries(n) == Fields(n) {
    if n.position.Some? {} else {}
  }
  lemma TableRowArm(n: Node) requires n.TableRow? ensures Entries(n) == Fields(n) {
    if n.position.Some? {} else {}
  }
  lemma TableCellArm(n: Node) requires n.TableCell? ensures Entries(n) == Fields(n) {
    if n.position.Some? {} else {}
  }
  lemma ListItemArm(n: Node) requires n.ListItem? ensures Entries(n) == Fields(n) {
    if n.position.Some? {} else {}
  }
  lemma DefinitionArm(n: Node) requires n.Definition? ensures Entries(n) == Fields(n) {
    if n.position.Some? {} else {}
  }
  lemma ParagraphArm(n: Node) requires n.Paragraph? ensures Entries(n) == Fields(n) {
    if n.position.Some? {} else {}
  }

  /** Every node, whatever its variant, is written as the schema's object. */
  lemma EmitMatchesSchema(n: Node)
    ensures Emit(n) == JObj(Fields(n))
  {
    match n
    case Root(_, _) => RootArm(n);
    case BlockQuote(_, _) => BlockQuoteArm(n);
    case FootnoteDefinition(_, _, _, _) => FootnoteDefinitionArm(n);
    case MdxJsxFlowElement(_, _, _, _) => MdxJsxFlowElementArm(n);
    case List(_, _, _, _, _) => ListArm(n);
    case MdxjsEsm(_, _, _) => MdxjsEsmArm(n);
    case Toml(_, _) => TomlArm(n);
    case Yaml(_, _) => YamlArm(n);
    case Break(_) => BreakArm(n);
    case InlineCode(_, _) => InlineCodeArm(n);
    case InlineMath(_, _) => InlineMathArm(n);
    case Delete(_, _) => DeleteArm(n);
    case Emphasis(_, _) => EmphasisArm(n);
    case MdxTextExpression(_, _, _) => MdxTextExpressionArm(n);
    case FootnoteReference(_, _, _) => FootnoteReferenceArm(n);
    case Html(_, _) => HtmlArm(n);
    case Image(_, _, _, _) => ImageArm(n);
    case ImageReference(_, _, _, _, _) => ImageReferenceArm(n);
    case MdxJsxTextElement(_, _, _, _) => MdxJsxTextElementArm(n);
    case Link(_, _, _, _) => LinkArm(n);
    case LinkReference(_, _, _, _, _) => LinkReferenceArm(n);
    case Strong(_, _) => StrongArm(n);
    case Text(_, _) => TextArm(n);
    case Code(_, _, _, _) => CodeArm(n);
    case Math(_, _, _) => MathArm(n);
    case MdxFlowExpression(_, _, _) => MdxFlowExpressionArm(n);
    case Heading(_, _, _) => HeadingArm(n);
    case Table(_, _, _) => TableArm(n);
    case ThematicBreak(_) => ThematicBreakArm(n);
    case TableRow(_, _) => TableRowArm(n);
    case TableCell(_, _) => TableCellArm(n);
    case ListItem(_, _, _, _) => ListItemArm(n);
    case Definition(_, _, _, _, _) => DefinitionArm(n);
    case Paragraph(_, _) => ParagraphArm(n);
  }
}
