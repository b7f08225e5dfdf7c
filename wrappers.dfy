/** The projection of a `markdown::mdast` tree onto JSON: the `My*` wrapper
    types and their `Serialize` implementations. Every serializer opens a
    struct, appends fields one at a time and closes it; the struct is never
    read back, so each one is modelled as a function returning the ordered
    field list of a JSON object. */
module Wrappers {
  import opened Options
  import opened Json
  import opened Mdast

  /** `iter().map(f).collect()`: order and length preserved. */
  function Collect<A, B>(s: seq<A>, f: A -> B): seq<B>
  {
    seq(|s|, i requires 0 <= i < |s| => f(s[i]))
  }

  /** A JSON number read back as a natural number. */
  function NatOf(j: Json): Option<nat>
  {
    if j.JNum? && j.n >= 0 then Some(j.n) else Option.None
  }

  // ---------------------------------------------------------------------------
  // Points and positions (MyPoint, MyPosition)
  // ---------------------------------------------------------------------------

  /** A point as `{"line", "column", "offset"}`; nothing is lost. */
  function PointJson(p: Point): (j: Json)
    ensures PointOf(j) == Some(p)
    ensures UniqueKeys(j)
  {
    JObj([("line", JNum(p.line)), ("column", JNum(p.column)), ("offset", JNum(p.offset))])
  }

  /** Reads a point back from an object with exactly the keys line, column,
      offset, in that order. */
  function PointOf(j: Json): Option<Point>
  {
    if j.JObj? && Keys(j.fields) == ["line", "column", "offset"] then
      match (NatOf(j.fields[0].1), NatOf(j.fields[1].1), NatOf(j.fields[2].1))
      case (Some(line), Some(column), Some(offset)) => Some(Point(line, column, offset))
      case _ => Option.None
    else Option.None
  }

  /** A position as `{"start", "end"}`, each a point; nothing is lost. */
  function PositionJson(p: Position): (j: Json)
    ensures PositionOf(j) == Some(p)
    ensures UniqueKeys(j)
  {
    JObj([("start", PointJson(p.start)), ("end", PointJson(p.end))])
  }

  /** Reads a position back from an object with exactly the keys start, end. */
  function PositionOf(j: Json): Option<Position>
  {
    if j.JObj? && Keys(j.fields) == ["start", "end"] then
      match (PointOf(j.fields[0].1), PointOf(j.fields[1].1))
      case (Some(start), Some(end)) => Some(Position(start, end))
      case _ => Option.None
    else Option.None
  }

  // ---------------------------------------------------------------------------
  // Stops (the crate's `(usize, usize)` pairs, written by serde as arrays)
  // ---------------------------------------------------------------------------

  function StopJson(s: Stop): Json
  {
    JArr([JNum(s.relative), JNum(s.absolute)])
  }

  function StopsJson(stops: seq<Stop>): Json
  {
    JArr(Collect(stops, StopJson))
  }

  function StopOf(j: Json): Option<Stop>
  {
    if j.JArr? && |j.items| == 2 then
      match (NatOf(j.items[0]), NatOf(j.items[1]))
      case (Some(relative), Some(absolute)) => Some(Stop(relative, absolute))
      case _ => Option.None
    else Option.None
  }

  function StopItemsOf(items: seq<Json>): Option<seq<Stop>>
  {
    if items == [] then Some([])
    else
      match (StopOf(items[0]), StopItemsOf(items[1..]))
      case (Some(s), Some(rest)) => Some([s] + rest)
      case _ => Option.None
  }

  /** Reads an array of stops back. */
  function StopsOf(j: Json): Option<seq<Stop>>
  {
    if j.JArr? then StopItemsOf(j.items) else Option.None
  }

  /** The stops array keeps every stop, in order. */
  lemma {:induction false} StopsRoundTrip(stops: seq<Stop>)
    ensures StopsOf(StopsJson(stops)) == Some(stops)
    ensures UniqueKeys(StopsJson(stops))
  {
    if stops != [] {
      var items := Collect(stops, StopJson);
      StopsRoundTrip(stops[1..]);
      assert items[1..] == Collect(stops[1..], StopJson) by {
        forall i | 0 <= i < |stops| - 1
          ensures items[1..][i] == Collect(stops[1..], StopJson)[i]
        {
          assert stops[1..][i] == stops[i + 1];
        }
      }
      assert StopOf(items[0]) == Some(stops[0]);
      assert UniqueKeys(items[0]);
      assert [stops[0]] + stops[1..] == stops;
    }
  }

  // ---------------------------------------------------------------------------
  // Reference kind and table alignment (MyReferenceKind, MyAlignKind)
  // ---------------------------------------------------------------------------

  /** A reference kind serializes as the name of its variant. */
  function ReferenceKindName(k: ReferenceKind): (s: string)
    ensures ReferenceKindOf(s) == Some(k)
  {
    match k
    case Collapsed => "Collapsed"
    case Full => "Full"
    case Shortcut => "Shortcut"
  }

  function ReferenceKindOf(s: string): Option<ReferenceKind>
  {
    if s == "Collapsed" then Some(Collapsed)
    else if s == "Full" then Some(Full)
    else if s == "Shortcut" then Some(Shortcut)
    else Option.None
  }

  /** An alignment serializes as the name of its variant. */
  function AlignKindName(a: AlignKind): (s: string)
    ensures AlignKindOf(s) == Some(a)
  {
    match a
    case Left => "Left"
    case Center => "Center"
    case Right => "Right"
    case None => "None"
  }

  function AlignKindOf(s: string): Option<AlignKind>
  {
    if s == "Left" then Some(Left)
    else if s == "Center" then Some(Center)
    else if s == "Right" then Some(Right)
    else if s == "None" then Some(AlignKind.None)
    else Option.None
  }

  function AlignJson(a: AlignKind): Json
  {
    JStr(AlignKindName(a))
  }

  // ---------------------------------------------------------------------------
  // JSX attributes (MyAttributeValue, MyAttributeContent, MyMdxJsxAttribute)
  // ---------------------------------------------------------------------------

  /** A literal value is a bare string; an expression value is an untagged
      object `{"expression", "stops"}`. Nothing is lost. */
  function AttributeValueJson(v: AttributeValue): (j: Json)
    ensures AttributeValueOf(j) == Some(v)
    ensures j.JStr? <==> v.Literal?
    ensures UniqueKeys(j)
  {
    match v
    case Expression(e, stops) =>
      StopsRoundTrip(stops);
      JObj([("expression", JStr(e)), ("stops", StopsJson(stops))])
    case Literal(s) => JStr(s)
  }

  function AttributeValueOf(j: Json): Option<AttributeValue>
  {
    match j
    case JStr(s) => Some(Literal(s))
    case JObj(fields) =>
      if Keys(fields) == ["expression", "stops"] && fields[0].1.JStr? then
        match StopsOf(fields[1].1)
        case Some(stops) => Some(AttributeValue.Expression(fields[0].1.s, stops))
        case None => Option.None
      else Option.None
    case _ => Option.None
  }

  /** The attribute entry with the property's name blanked out: all that its
      JSON keeps. */
  function Unnamed(a: AttributeContent): AttributeContent
  {
    match a
    case Expression(_, _) => a
    case Property(p) => Property(MdxJsxAttribute("", p.value))
  }

  /** An attribute entry as a tagged object: `{"type": "Expression", "value",
      "stops"}` or `{"type": "Property"}` followed by `"value"` only when the
      property has one. Everything but a property's name is kept. */
  function AttributeContentJson(a: AttributeContent): (j: Json)
    ensures AttributeContentOf(j) == Some(Unnamed(a))
    ensures UniqueKeys(j)
  {
    match a
    case Expression(e, stops) =>
      StopsRoundTrip(stops);
      JObj([("type", JStr("Expression")), ("value", JStr(e)), ("stops", StopsJson(stops))])
    case Property(p) =>
      JObj([("type", JStr("Property"))] +
           match p.value
           case None => []
           case Some(v) => [("value", AttributeValueJson(v))])
  }

  function AttributeContentOf(j: Json): Option<AttributeContent>
  {
    if !j.JObj? then Option.None
    else
      var fields := j.fields;
      if Keys(fields) == ["type", "value", "stops"] && fields[0].1 == JStr("Expression")
         && fields[1].1.JStr?
      then
        match StopsOf(fields[2].1)
        case Some(stops) => Some(AttributeContent.Expression(fields[1].1.s, stops))
        case None => Option.None
      else if Keys(fields) == ["type"] && fields[0].1 == JStr("Property") then
        Some(Property(MdxJsxAttribute("", Option.None)))
      else if Keys(fields) == ["type", "value"] && fields[0].1 == JStr("Property") then
        match AttributeValueOf(fields[1].1)
        case Some(v) => Some(Property(MdxJsxAttribute("", Some(v))))
        case None => Option.None
      else Option.None
  }

  /** The standalone attribute serializer (never called by the node
      serializer): `{"type": "MdxJsxAttribute", "name"}` plus `"value"` when
      present. Unlike an attribute entry, it keeps the name. */
  function MdxJsxAttributeJson(a: MdxJsxAttribute): (j: Json)
    ensures MdxJsxAttributeOf(j) == Some(a)
    ensures UniqueKeys(j)
  {
    JObj([("type", JStr("MdxJsxAttribute")), ("name", JStr(a.name))] +
         match a.value
         case None => []
         case Some(v) => [("value", AttributeValueJson(v))])
  }

  function MdxJsxAttributeOf(j: Json): Option<MdxJsxAttribute>
  {
    if !j.JObj? then Option.None
    else
      var fields := j.fields;
      if |fields| < 2 || Keys(fields)[..2] != ["type", "name"]
         || fields[0].1 != JStr("MdxJsxAttribute") || !fields[1].1.JStr?
      then Option.None
      else if |fields| == 2 then Some(MdxJsxAttribute(fields[1].1.s, Option.None))
      else if Keys(fields) == ["type", "name", "value"] then
        match AttributeValueOf(fields[2].1)
        case Some(v) => Some(MdxJsxAttribute(fields[1].1.s, Some(v)))
        case None => Option.None
      else Option.None
  }

  // ---------------------------------------------------------------------------
  // Nodes (MyNode)
  // ---------------------------------------------------------------------------

  /** The value of a node's "type" key: the name of its variant, except that
      `Math`, which has no arm of its own, falls to the catch-all "_TODO". */
  function TypeName(n: Node): string
  {
    if n.Math? then "_TODO" else VariantName(n)
  }

  /** `"position"`, written only when the node has a span. */
  function PositionField(p: Option<Position>): seq<(string, Json)>
  {
    match p
    case None => []
    case Some(pos) => [("position", PositionJson(pos))]
  }

  /** A field written only when the optional string is present. */
  function FieldIfSome(key: string, o: Option<string>): seq<(string, Json)>
  {
    match o
    case None => []
    case Some(s) => [(key, JStr(s))]
  }

  /** serde's rendering of `Option<String>`: the string, or null. */
  function StringOrNull(o: Option<string>): Json
  {
    match o
    case None => JNull
    case Some(s) => JStr(s)
  }

  /** serde's rendering of `Option<u32>`: the number, or null. */
  function NumberOrNull(o: Option<nat>): Json
  {
    match o
    case None => JNull
    case Some(k) => JNum(k)
  }

  /** `unwrap_or("")`. */
  function OrEmpty(o: Option<string>): string
  {
    match o
    case None => ""
    case Some(s) => s
  }

  function ChildrenField(cs: seq<Node>): (string, Json)
    decreases cs, 1
  {
    ("children", JArr(EmitChildren(cs)))
  }

  /** The JSON object of one node, children emitted depth-first. */
  function Emit(n: Node): (j: Json)
    decreases n, 1
  {
    JObj(Entries(n))
  }

  /** The fields each arm of the node serializer writes into the node's struct,
      in the order it writes them. */
  function Entries(n: Node): seq<(string, Json)>
    decreases n, 0
  {
    match n
    case Root(cs, p) =>
      [("type", JStr("Root")), ChildrenField(cs)] + PositionField(p)
    case BlockQuote(cs, p) =>
      [("type", JStr("BlockQuote"))] + PositionField(p) + [ChildrenField(cs)]
    case FootnoteDefinition(cs, p, identifier, lbl) =>
      [("type", JStr("FootnoteDefinition"))] + PositionField(p) +
      [ChildrenField(cs), ("identifier", JStr(identifier)), ("label", StringOrNull(lbl))]
    case MdxJsxFlowElement(cs, p, name, attributes) =>
      [("type", JStr("MdxJsxFlowElement"))] + FieldIfSome("name", name) + PositionField(p) +
      [ChildrenField(cs), ("attributes", JArr(Collect(attributes, AttributeContentJson)))]
    case List(cs, p, ordered, start, spread) =>
      [("type", JStr("List"))] + PositionField(p) +
      [("ordered", JBool(ordered)), ("start", NumberOrNull(start)), ("spread", JBool(spread)),
       ChildrenField(cs)]
    case MdxjsEsm(value, p, _) =>
      [("type", JStr("MdxjsEsm"))] + PositionField(p) + [("value", JStr(value))]
    case Toml(value, p) =>
      [("type", JStr("Toml"))] + PositionField(p) + [("value", JStr(value))]
    case Yaml(value, p) =>
      [("type", JStr("Yaml"))] + PositionField(p) + [("value", JStr(value))]
    case Break(p) =>
      [("type", JStr("Break"))] + PositionField(p)
    case InlineCode(value, p) =>
      [("type", JStr("InlineCode"))] + PositionField(p) + [("value", JStr(value))]
    case InlineMath(value, p) =>
      [("type", JStr("InlineMath"))] + PositionField(p) + [("value", JStr(value))]
    case Delete(cs, p) =>
      [("type", JStr("Delete"))] + PositionField(p) + [ChildrenField(cs)]
    case Emphasis(cs, p) =>
      [("type", JStr("Emphasis"))] + PositionField(p) + [ChildrenField(cs)]
    case MdxTextExpression(value, p, _) =>
      [("type", JStr("MdxTextExpression"))] + PositionField(p) + [("value", JStr(value))]
    case FootnoteReference(p, identifier, _) =>
      [("type", JStr("FootnoteReference"))] + PositionField(p) +
      [("identifier", JStr(identifier))]
    case Html(value, p) =>
      [("type", JStr("Html"))] + PositionField(p) + [("value", JStr(value))]
    case Image(p, alt, url, title) =>
      [("type", JStr("Image"))] + PositionField(p) +
      [("title", StringOrNull(title)), ("alt", JStr(alt)), ("url", JStr(url))]
    case ImageReference(p, alt, kind, identifier, lbl) =>
      [("type", JStr("ImageReference"))] + PositionField(p) +
      [("label", StringOrNull(lbl)), ("alt", JStr(alt)), ("identifier", JStr(identifier)),
       ("reference_kind", JStr(ReferenceKindName(kind)))]
    case MdxJsxTextElement(cs, p, name, attributes) =>
      [("type", JStr("MdxJsxTextElement"))] + PositionField(p) +
      [("name", StringOrNull(name)), ChildrenField(cs),
       ("attributes", JArr(Collect(attributes, AttributeContentJson)))]
    case Link(cs, p, url, title) =>
      [("type", JStr("Link"))] + PositionField(p) + [ChildrenField(cs)] +
      FieldIfSome("title", title) + [("url", JStr(url))]
    case LinkReference(cs, p, kind, identifier, lbl) =>
      [("type", JStr("LinkReference"))] + PositionField(p) +
      [("label", StringOrNull(lbl)), ("identifier", JStr(identifier)), ChildrenField(cs),
       ("reference_kind", JStr(ReferenceKindName(kind)))]
    case Strong(cs, p) =>
      [("type", JStr("Strong"))] + PositionField(p) + [ChildrenField(cs)]
    case Text(value, p) =>
      [("type", JStr("Text")), ("value", JStr(value))] + PositionField(p)
    case Code(value, p, lang, meta) =>
      [("type", JStr("Code")), ("value", JStr(value))] + PositionField(p) +
      [("lang", JStr(OrEmpty(lang))), ("meta", JStr(OrEmpty(meta)))]
    case Math(_, _, _) =>
      [("type", JStr("_TODO"))]
    case MdxFlowExpression(value, p, stops) =>
      [("type", JStr("MdxFlowExpression")), ("value", JStr(value))] + PositionField(p) +
      [("stops", StopsJson(stops))]
    case Heading(cs, p, depth) =>
      [("type", JStr("Heading")), ("depth", JNum(depth)), ChildrenField(cs)] + PositionField(p)
    case Table(cs, p, align) =>
      [("type", JStr("Table"))] + PositionField(p) +
      [ChildrenField(cs), ("align", JArr(Collect(align, AlignJson)))]
    case ThematicBreak(p) =>
      [("type", JStr("ThematicBreak"))] + PositionField(p)
    case TableRow(cs, p) =>
      [("type", JStr("TableRow"))] + PositionField(p) + [ChildrenField(cs)]
    case TableCell(cs, p) =>
      [("type", JStr("TableCell"))] + PositionField(p) + [ChildrenField(cs)]
    case ListItem(cs, p, spread, checked) =>
      [("type", JStr("ListItem"))] + PositionField(p) +
      [("checked", JBool(checked.Some? && checked.value)), ChildrenField(cs),
       ("spread", JBool(spread))]
    case Definition(p, url, title, identifier, lbl) =>
      [("type", JStr("Definition"))] + PositionField(p) +
      [("identifier", JStr(identifier)), ("url", JStr(url)),
       ("title", JStr(OrEmpty(title))), ("label", JStr(OrEmpty(lbl)))]
    case Paragraph(cs, p) =>
      [("type", JStr("Paragraph"))] + PositionField(p) + [ChildrenField(cs)]
  }

  /** The children array: one object per child, in document order. */
  function EmitChildren(cs: seq<Node>): (js: seq<Json>)
    decreases cs, 0
  {
    seq(|cs|, i requires 0 <= i < |cs| => Emit(cs[i]))
  }
}
