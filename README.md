# markdown-rs AST-to-JSON projection, modelled in Dafny

This project models `src/wrappers.rs`: the layer that takes a markdown/MDX
syntax tree built by the `markdown` crate and turns it into JSON objects.
The layer has three parts:

- the `My*` wrapper types, which rename the crate's helper types: points,
  positions, reference kinds, table alignments, JSX attribute entries and
  attribute values;
- `MyNode`, which maps each of the crate's 34 node variants to a variant of
  the same name;
- one hand-written `Serialize` arm per variant. Each arm decides which keys
  appear, in what order, which optional fields are omitted, which are
  written as null and which get a default.

Modules:

- `Options` (`options.dfy`): the `Option` type.
- `Json` (`json.dfy`): the JSON data the `Serialize` impls write. An object
  is the sequence of fields in the order its `serialize_field` calls write
  them, because that order is what the arms decide. The module also holds
  key lookup, as a consumer reads an object, and "distinct keys at every
  depth".
- `Mdast` (`mdast.dfy`): the input tree. There is one `Node` constructor per
  variant, carrying the fields the serializer reads. A few fields that it
  drops are kept so that the drop can be stated.
- `Wrappers` (`wrappers.dfy`): the serializers.
  - Each `Serialize` impl opens a struct, appends fields one at a time and
    closes it. Nothing reads the struct back, so each impl is a function
    returning the ordered field list.
  - `Emit` is the node serializer. `Entries` holds its 33 arms, plus a
    `Math` case for the catch-all.
  - Every helper serializer has a decoder (`PointOf`, `AlignKindOf`, …). Its
    contract is the round trip.
- `Schema` (`schema.dfy`): an independent reference definition of every
  node object, written key by key.
  - `Layout(n)` gives a variant's keys in the order the arm writes them.
  - `Value(n, k)` gives what key `k` holds.
  - One lemma per arm proves that the arm writes exactly `Fields(n)`, the
    schema's object.
- `Properties` (`properties.dfy`): what a consumer of the JSON can rely
  on, derived from the schema:
  - the "type" tag and the `_TODO` fallback;
  - when "position" and "children" appear;
  - the null-versus-omitted policy and the defaults of optional fields;
  - the enum and attribute encodings;
  - distinct keys in every object at every depth;
  - a reader that recovers the tree's outline (type tags and parent-child
    order) from the JSON.

Two behaviours of the code are worth knowing before reading the table:

- **Key order is not uniform across variants.** Most arms write "position"
  right after "type". Root and Heading write it last. Text, Code and
  MdxFlowExpression write it after "value". MdxJsxFlowElement writes it
  after "name" whenever a name is present. `Layout` records each arm's
  actual order.
- **Math has no arm.** It falls to the catch-all, which writes only
  `{"type": "_TODO"}`, losing the value, meta and position.

## Model

| member | source | states |
|---|---|---|
| Wrappers.PointJson | src/wrappers.rs:22-33 | a point is written as an object with keys line, column, offset in that order, reads back as the same point, and has distinct keys |
| Wrappers.PositionJson | src/wrappers.rs:42-56 | a position is written as an object with keys start, end, each a point, reads back as the same position, and has distinct keys |
| Wrappers.StopsRoundTrip | src/wrappers.rs:657-667 | a stops array keeps every stop in order: reading it back yields the original sequence |
| Wrappers.ReferenceKindName | src/wrappers.rs:57-72 | a reference kind is written as a string naming its variant, and that string decodes to the same kind |
| Wrappers.AlignJson | src/wrappers.rs:118-124 | no contract of its own: the derived unit-variant serializer, writing the variant name as a JSON string; stated by `Wrappers.AlignKindName` and `Properties.AlignKey` |
| Wrappers.AlignKindName | src/wrappers.rs:118-134 | an alignment is written as a string naming its variant (Left, Center, Right, None), and that string decodes to the same alignment |
| Wrappers.AttributeValueJson | src/wrappers.rs:136-165 | a literal value is a bare string and an expression value is an untagged object with keys expression, stops (string exactly when literal); it reads back unchanged |
| Wrappers.AttributeContentJson | src/wrappers.rs:74-116 | an expression entry is a "type": "Expression" object with value and stops; a property entry is a "type": "Property" object with "value" only when present; reading it back yields the entry with the property's name blanked, and nothing else is lost |
| Wrappers.MdxJsxAttributeJson | src/wrappers.rs:167-188 | the standalone attribute serializer writes type, name, and value when present, and reads back as the same attribute, name included |
| Wrappers.Emit | src/wrappers.rs:272-810 | no contract of its own: the node serializer, an object holding `Entries(n)`; equal to the schema's object `JObj(Schema.Fields(n))` by `Schema.EmitMatchesSchema` |
| Wrappers.Entries | src/wrappers.rs:294-807 | no contract of its own: the 33 arms, plus a `Math` case for the catch-all, each the ordered fields its `serialize_field` calls write; equal to `Schema.Fields(n)` arm by arm by the `Schema.*Arm` lemmas |
| Wrappers.ChildrenField | src/wrappers.rs:297-302 | no contract of its own: the ("children", array) field; its content is stated by `Properties.ChildrenKey` |
| Wrappers.EmitChildren | src/wrappers.rs:297-302 | no contract of its own: `iter().map(MyNode::from).collect()` serialized; length and order stated by `Properties.ChildrenInOrder` |
| Wrappers.Collect | src/wrappers.rs:365-372 | no contract of its own: `iter().map(f).collect()`, order and length kept; used for attributes (also 562-569), alignments (702-709) and stops, and stated through `Properties.AttributesKey`, `Properties.AlignKey` and `Wrappers.StopsRoundTrip` |
| Mdast.VariantName | src/wrappers.rs:231-270 | no contract of its own: the variant name that `From<Node> for MyNode` preserves and each arm writes as "type"; stated by `Properties.TypeFirst` |
| Wrappers.TypeName | src/wrappers.rs:802-807 | no contract of its own: the "type" value, the variant name except "_TODO" for Math through the catch-all; stated by `Properties.TypeFirst` and `Properties.MathFallback` |
| Wrappers.StopsJson | src/wrappers.rs:665 | no contract of its own: a stops vector as an array of two-element arrays (also at 98 and 158); its round trip is `Wrappers.StopsRoundTrip` |
| Wrappers.StopJson | src/wrappers.rs:665 | no contract of its own: one stop, serde's form of a `(usize, usize)` pair, a two-element array; read back by `StopOf` within `Wrappers.StopsRoundTrip` |
| Wrappers.PositionField | src/wrappers.rs:304-307 | no contract of its own: the "position" field, written only under `if let Some`; stated by `Properties.PositionKey` |
| Wrappers.FieldIfSome | src/wrappers.rs:350-352 | no contract of its own: a string field written only under `if let Some` (also Link's title at 587-589); stated by `Properties.FlowElementNameOmitted` and `Properties.LinkTitleOmitted` |
| Wrappers.StringOrNull | src/wrappers.rs:525 | no contract of its own: an `Option<String>` serialized as the string or null; stated by `Properties.ImageTitleNullable`, `Properties.ReferenceLabelNullable` and `Properties.TextElementNameNullable` |
| Wrappers.NumberOrNull | src/wrappers.rs:383 | no contract of its own: an `Option<u32>` serialized as the number or null; stated by `Properties.ListStartNullable` |
| Wrappers.OrEmpty | src/wrappers.rs:652-653 | no contract of its own: `unwrap_or("")` on an optional string; stated by `Properties.CodeDefaults` and `Properties.DefinitionDefaults` |
| Schema.RootArm | src/wrappers.rs:294-310 | the Root arm writes type, children, then position when present |
| Schema.BlockQuoteArm | src/wrappers.rs:311-327 | the BlockQuote arm writes type, position when present, children |
| Schema.FootnoteDefinitionArm | src/wrappers.rs:328-346 | the FootnoteDefinition arm writes type, position?, children, identifier, label (null when absent) |
| Schema.MdxJsxFlowElementArm | src/wrappers.rs:347-374 | the flow element arm writes type, name only when present, position?, children, attributes |
| Schema.ListArm | src/wrappers.rs:375-394 | the List arm writes type, position?, ordered, start (null when absent), spread, children |
| Schema.MdxjsEsmArm | src/wrappers.rs:395-404 | the MdxjsEsm arm writes type, position?, value, and drops the stops |
| Schema.TomlArm | src/wrappers.rs:405-414 | the Toml arm writes type, position?, value |
| Schema.YamlArm | src/wrappers.rs:415-424 | the Yaml arm writes type, position?, value |
| Schema.BreakArm | src/wrappers.rs:425-433 | the Break arm writes type and position? only |
| Schema.InlineCodeArm | src/wrappers.rs:434-443 | the InlineCode arm writes type, position?, value |
| Schema.InlineMathArm | src/wrappers.rs:444-453 | the InlineMath arm writes type, position?, value |
| Schema.DeleteArm | src/wrappers.rs:454-470 | the Delete arm writes type, position?, children |
| Schema.EmphasisArm | src/wrappers.rs:471-487 | the Emphasis arm writes type, position?, children |
| Schema.MdxTextExpressionArm | src/wrappers.rs:488-497 | the text expression arm writes type, position?, value, and no stops |
| Schema.FootnoteReferenceArm | src/wrappers.rs:498-507 | the FootnoteReference arm writes type, position?, identifier, and drops the label |
| Schema.HtmlArm | src/wrappers.rs:508-517 | the Html arm writes type, position?, value |
| Schema.ImageArm | src/wrappers.rs:518-529 | the Image arm writes type, position?, title (null when absent), alt, url |
| Schema.ImageReferenceArm | src/wrappers.rs:530-545 | the ImageReference arm writes type, position?, label (null when absent), alt, identifier, reference_kind |
| Schema.MdxJsxTextElementArm | src/wrappers.rs:546-571 | the text element arm writes type, position?, name (null when absent), children, attributes |
| Schema.LinkArm | src/wrappers.rs:572-592 | the Link arm writes type, position?, children, title only when present, url |
| Schema.LinkReferenceArm | src/wrappers.rs:593-615 | the LinkReference arm writes type, position?, label (null when absent), identifier, children, reference_kind |
| Schema.StrongArm | src/wrappers.rs:616-633 | the Strong arm writes type, position?, children |
| Schema.TextArm | src/wrappers.rs:634-643 | the Text arm writes type, value, then position? |
| Schema.CodeArm | src/wrappers.rs:644-655 | the Code arm writes type, value, position?, lang and meta ("" when absent) |
| Schema.MathArm | src/wrappers.rs:802-807 | Math has no arm and the catch-all writes only type "_TODO" |
| Schema.MdxFlowExpressionArm | src/wrappers.rs:657-667 | the flow expression arm writes type, value, position?, stops |
| Schema.HeadingArm | src/wrappers.rs:668-686 | the Heading arm writes type, depth, children, then position? |
| Schema.TableArm | src/wrappers.rs:687-711 | the Table arm writes type, position?, children, align |
| Schema.ThematicBreakArm | src/wrappers.rs:712-720 | the ThematicBreak arm writes type and position? only |
| Schema.TableRowArm | src/wrappers.rs:721-737 | the TableRow arm writes type, position?, children |
| Schema.TableCellArm | src/wrappers.rs:738-754 | the TableCell arm writes type, position?, children |
| Schema.ListItemArm | src/wrappers.rs:755-773 | the ListItem arm writes type, position?, checked (false when absent), children, spread |
| Schema.DefinitionArm | src/wrappers.rs:774-786 | the Definition arm writes type, position?, identifier, url, title and label ("" when absent) |
| Schema.ParagraphArm | src/wrappers.rs:787-801 | the Paragraph arm writes type, position?, children |
| Schema.EmitMatchesSchema | src/wrappers.rs:272-810 | every node, whatever its variant, is written as the schema's object |
| Schema.LayoutStartsWithType | src/wrappers.rs:294-807 | every arm's first key is "type" |
| Schema.LayoutDistinct | src/wrappers.rs:294-807 | no arm writes a key twice |
| Schema.ContainerLayoutDistinct | src/wrappers.rs:294-807 | the arms of the plain container variants write no key twice |
| Schema.LiteralLayoutDistinct | src/wrappers.rs:294-807 | the arms of the literal-valued variants write no key twice |
| Schema.ResourceLayoutDistinct | src/wrappers.rs:294-807 | the break, image, link, reference and definition arms write no key twice |
| Schema.ElementLayoutDistinct | src/wrappers.rs:294-807 | the footnote definition, list, list item, table and JSX element arms write no key twice |
| Schema.PositionInLayout | src/wrappers.rs:294-807 | an arm writes "position" exactly when the node has a span, except Math, which never does |
| Schema.ChildrenInLayout | src/wrappers.rs:294-807 | an arm writes "children" exactly for the 17 parent variants |
| Schema.StopsInLayout | src/wrappers.rs:657-667 | only the flow expression arm writes "stops" |
| Schema.StopsInSchema | src/wrappers.rs:657-667 | the stops a flow expression writes read back unchanged |
| Properties.KeyOrder | src/wrappers.rs:272-810 | a node's object has exactly the layout's keys, in the arm's order, each once |
| Properties.GetKey | src/wrappers.rs:272-810 | reading any key from a node's object yields the schema's value when the arm writes that key, and nothing otherwise |
| Properties.TypeFirst | src/wrappers.rs:231-270 | the first field is "type", holding the name of the parser variant (which the node wrapper preserves), or "_TODO" for Math |
| Properties.MathFallback | src/wrappers.rs:802-807 | a Math node becomes exactly {"type": "_TODO"}: value, meta and position dropped |
| Properties.PositionKey | src/wrappers.rs:294-807 | "position" is present exactly when the node has a span and is not Math (each arm's `if let Some`, e.g. 304-307, 314-317, 638-641; the catch-all at 803-806 writes none), is never null, and reads back as the span (the `MyPosition` serializer at 42-56) |
| Properties.ChildrenKey | src/wrappers.rs:297-302 | "children" is present exactly on parent variants, even when empty, and holds the children's objects |
| Properties.ChildrenInOrder | src/wrappers.rs:297-302 | the children array has one entry per child, the i-th being the i-th child's object |
| Properties.LinkTitleOmitted | src/wrappers.rs:587-589 | a link without a title has no "title" key; with one, "title" holds it |
| Properties.FlowElementNameOmitted | src/wrappers.rs:350-352 | a flow element without a name has no "name" key; with one, "name" holds it |
| Properties.TextElementNameNullable | src/wrappers.rs:553 | a text element always has "name", null when absent |
| Properties.ListStartNullable | src/wrappers.rs:383 | a list always has "start", null when absent |
| Properties.ImageTitleNullable | src/wrappers.rs:525 | an image always has "title", null when absent |
| Properties.ReferenceLabelNullable | src/wrappers.rs:328-615 | footnote definitions and image and link references always have "label", null when absent |
| Properties.CodeDefaults | src/wrappers.rs:652-653 | a code block always has "lang" and "meta", "" when absent |
| Properties.DefinitionDefaults | src/wrappers.rs:783-784 | a definition always has "title" and "label", "" when absent |
| Properties.ListItemCheckedDefault | src/wrappers.rs:762 | a list item always has "checked", false when `checked` is absent |
| Properties.AlignKey | src/wrappers.rs:702-709 | a table's "align" has one string per column, in order, each decoding to that column's alignment |
| Properties.ReferenceKindKey | src/wrappers.rs:530-615 | a reference's "reference_kind" is a string decoding to its kind |
| Properties.AttributesKey | src/wrappers.rs:347-571 | a JSX element's "attributes" has one entry per attribute, in order, each reading back as the attribute with a property's name blanked |
| Properties.PropertyNameDropped | src/wrappers.rs:94-108 | two property entries differing only in name are written identically |
| Properties.StopsKey | src/wrappers.rs:488-667 | "stops" is present exactly on a flow expression and reads back as its stops; text expressions and ESM blocks do not write theirs |
| Properties.ValueUniqueKeys | src/wrappers.rs:272-810 | every value the schema places in a node's object has distinct keys throughout, given that the children's objects do |
| Properties.EmitUniqueKeys | src/wrappers.rs:272-810 | no object anywhere in a node's JSON has a key twice |
| Properties.OutlineRoundTrip | src/wrappers.rs:272-810 | reading the "type" tags and "children" arrays back from a node's JSON recovers the tree's shape: every tag and the parent-child order |

## Left out

- `src/main.rs` is not part of this model. It reads the input file, splits
  YAML front matter, calls the parser, prints the result, writes the output
  file and runs a benchmark. All of that is I/O and calls into other
  crates.
- The parser (`markdown::to_mdast`) is outside the model. Its output tree is
  the input type `Mdast.Node`. No invariant is assumed about node fields,
  such as a heading depth range, because the code enforces none.
- `From<Node> for MyNode` (src/wrappers.rs:231-270) maps each variant to the
  variant of the same name and moves the payload unchanged. The model
  therefore uses one `Node` type for both. The mapping shows up only as the
  variant name written under "type" (`VariantName`, `TypeFirst`). The other
  `From` impls are the same kind of renaming and are folded into the
  serializers.
- Serde machinery is not modelled:
  - the length hints passed to `serialize_struct`, which do not affect the
    output;
  - the `?` error paths, which cannot fire for these values;
  - `.clone()` calls.

  Emission is modelled as total.
- Key order after `src/main.rs`: the program turns the node into a
  `serde_json::Value` with `json!` before printing it. Without serde_json's
  `preserve_order` feature that value's maps sort their keys
  alphabetically, and the crate manifest is not part of this model. Every
  key-order result here (`Schema.*Arm`, `Properties.KeyOrder`,
  `Properties.TypeFirst`) is about the order the `Serialize` impls write;
  key presence, values and distinctness do not depend on it.
- JSON text rendering is not modelled: pretty-printing, whitespace and
  string escaping in `serde_json`. The model stops at the JSON value.
- `Stop` is defined in the parser crate and its definition is not part of
  this model. It is assumed to be a `(usize, usize)` pair, which serde
  writes as a two-element array, and is modelled as a pair of natural
  numbers.
- Integer widths are not modelled. Line, column, offset, depth, start and
  stop offsets are `usize`/`u8`/`u32` in the crate and natural numbers here.
  No arithmetic is performed on them, so no wrap-around can arise.
- Recursion depth and stack exhaustion are not modelled; the model recurses
  structurally over the tree.
- `Wrappers.MdxJsxAttributeJson` models `MyMdxJsxAttribute`, which the node
  serializer never calls. It is kept as a standalone helper.
