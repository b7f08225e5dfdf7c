/** The syntax tree the `markdown` crate's `to_mdast` hands to the projection:
    `markdown::mdast::Node` and the `unist` position types. Each variant carries
    the fields the serializer reads, plus the few it deliberately drops
    (`stops` on MdxjsEsm and MdxTextExpression, `label` on FootnoteReference,
    `value` and `meta` on Math). Machine integers (`usize`, `u32`, `u8`) are
    `nat`: the projection copies them and never does arithmetic on them. */
module Mdast {
  import opened Options

  /** One place in the source text: 1-based line and column, 0-based offset. */
  datatype Point = Point(line: nat, column: nat, offset: nat)

  /** The span of a node in the source text. */
  datatype Position = Position(start: Point, end: Point)

  /** A source-mapping breakpoint inside an embedded expression. Its definition
      lies in the parser crate; it is assumed here to be a pair of offsets
      (relative, absolute). */
  datatype Stop = Stop(relative: nat, absolute: nat)

  datatype ReferenceKind = Collapsed | Full | Shortcut

  datatype AlignKind = Left | Center | Right | None

  /** The value of a JSX attribute: `{expression}` or `"literal"`. */
  datatype AttributeValue =
    | Expression(value: string, stops: seq<Stop>)
    | Literal(value: string)

  /** A named JSX attribute, `name` or `name=value`. */
  datatype MdxJsxAttribute = MdxJsxAttribute(name: string, value: Option<AttributeValue>)

  /** One entry of a JSX element's attribute list: a spread `{...expression}`
      or a named property. */
  datatype AttributeContent =
    | Expression(value: string, stops: seq<Stop>)
    | Property(attribute: MdxJsxAttribute)

  datatype Node =
    | Root(children: seq<Node>, position: Option<Position>)
    | BlockQuote(children: seq<Node>, position: Option<Position>)
    | FootnoteDefinition(children: seq<Node>, position: Option<Position>,
                         identifier: string, label': Option<string>)
    | MdxJsxFlowElement(children: seq<Node>, position: Option<Position>,
                        name: Option<string>, attributes: seq<AttributeContent>)
    | List(children: seq<Node>, position: Option<Position>,
           ordered: bool, start: Option<nat>, spread: bool)
    | MdxjsEsm(value: string, position: Option<Position>, stops: seq<Stop>)
    | Toml(value: string, position: Option<Position>)
    | Yaml(value: string, position: Option<Position>)
    | Break(position: Option<Position>)
    | InlineCode(value: string, position: Option<Position>)
    | InlineMath(value: string, position: Option<Position>)
    | Delete(children: seq<Node>, position: Option<Position>)
    | Emphasis(children: seq<Node>, position: Option<Position>)
    | MdxTextExpression(value: string, position: Option<Position>, stops: seq<Stop>)
    | FootnoteReference(position: Option<Position>, identifier: string, label': Option<string>)
    | Html(value: string, position: Option<Position>)
    | Image(position: Option<Position>, alt: string, url: string, title: Option<string>)
    | ImageReference(position: Option<Position>, alt: string, referenceKind: ReferenceKind,
                     identifier: string, label': Option<string>)
    | MdxJsxTextElement(children: seq<Node>, position: Option<Position>,
                        name: Option<string>, attributes: seq<AttributeContent>)
    | Link(children: seq<Node>, position: Option<Position>, url: string, title: Option<string>)
    | LinkReference(children: seq<Node>, position: Option<Position>, referenceKind: ReferenceKind,
                    identifier: string, label': Option<string>)
    | Strong(children: seq<Node>, position: Option<Position>)
    | Text(value: string, position: Option<Position>)
    | Code(value: string, position: Option<Position>, lang: Option<string>, meta: Option<string>)
    | Math(value: string, position: Option<Position>, meta: Option<string>)
    | MdxFlowExpression(value: string, position: Option<Position>, stops: seq<Stop>)
    | Heading(children: seq<Node>, position: Option<Position>, depth: nat)
    | Table(children: seq<Node>, position: Option<Position>, align: seq<AlignKind>)
    | ThematicBreak(position: Option<Position>)
    | TableRow(children: seq<Node>, position: Option<Position>)
    | TableCell(children: seq<Node>, position: Option<Position>)
    | ListItem(children: seq<Node>, position: Option<Position>, spread: bool, checked: Option<bool>)
    | Definition(position: Option<Position>, url: string, title: Option<string>,
                 identifier: string, label': Option<string>)
    | Paragraph(children: seq<Node>, position: Option<Position>)

  /** The name of the node's variant, as written in `markdown::mdast::Node`
      and, one for one, in the wrapper enum `MyNode`. */
  function VariantName(n: Node): string
  {
    match n
    case Root(_, _) => "Root"
    case BlockQuote(_, _) => "BlockQuote"
    case FootnoteDefinition(_, _, _, _) => "FootnoteDefinition"
    case MdxJsxFlowElement(_, _, _, _) => "MdxJsxFlowElement"
    case List(_, _, _, _, _) => "List"
    case MdxjsEsm(_, _, _) => "MdxjsEsm"
    case Toml(_, _) => "Toml"
    case Yaml(_, _) => "Yaml"
    case Break(_) => "Break"
    case InlineCode(_, _) => "InlineCode"
    case InlineMath(_, _) => "InlineMath"
    case Delete(_, _) => "Delete"
    case Emphasis(_, _) => "Emphasis"
    case MdxTextExpression(_, _, _) => "MdxTextExpression"
    case FootnoteReference(_, _, _) => "FootnoteReference"
    case Html(_, _) => "Html"
    case Image(_, _, _, _) => "Image"
    case ImageReference(_, _, _, _, _) => "ImageReference"
    case MdxJsxTextElement(_, _, _, _) => "MdxJsxTextElement"
    case Link(_, _, _, _) => "Link"
    case LinkReference(_, _, _, _, _) => "LinkReference"
    case Strong(_, _) => "Strong"
    case Text(_, _) => "Text"
    case Code(_, _, _, _) => "Code"
    case Math(_, _, _) => "Math"
    case MdxFlowExpression(_, _, _) => "MdxFlowExpression"
    case Heading(_, _, _) => "Heading"
    case Table(_, _, _) => "Table"
    case ThematicBreak(_) => "ThematicBreak"
    case TableRow(_, _) => "TableRow"
    case TableCell(_, _) => "TableCell"
    case ListItem(_, _, _, _) => "ListItem"
    case Definition(_, _, _, _, _) => "Definition"
    case Paragraph(_, _) => "Paragraph"
  }

  /** The parent variants: those for which the crate's `Node::children()`
      returns a child list. All other variants are leaves. */
  predicate IsParent(n: Node)
  {
    || n.Root? || n.BlockQuote? || n.FootnoteDefinition? || n.MdxJsxFlowElement?
    || n.List? || n.Delete? || n.Emphasis? || n.MdxJsxTextElement? || n.Link?
    || n.LinkReference? || n.Strong? || n.Heading? || n.Table? || n.TableRow?
    || n.TableCell? || n.ListItem? || n.Paragraph?
  }
}
