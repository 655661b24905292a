# Canvas builder model

This project is a Dafny model of `CanvasBuilder` from the `obsidian-canvas` helper script.
`CanvasBuilder` builds a document in the JSON Canvas 1.0 format that Obsidian reads. The
document holds an ordered list of nodes and an ordered list of edges. The builder grows both
lists in place: four node adders (text, file, link, group), one edge adder, a grid layout and
a radial layout. A read-only query, `to_json`, writes the document out.

The model keeps that shape:

- `Canvas.CanvasBuilder` is a class with fields `nodes: seq<Node>` and `edges: seq<Edge>`.
  Its methods reassign those fields. Each method's `ensures` gives the whole new state in
  terms of the old one.
- `Records` defines the node variants, the edge record, and the per-argument rules:
  - an optional argument is kept only when it is truthy;
  - file subpaths get a leading `#`;
  - `backgroundStyle` is kept only together with `background`;
  - end markers are written only when they differ from their defaults.
- `Serialize` turns records into ordered JSON objects with the source's key order. It also
  defines a reader for those objects. The round-trip lemmas show that the writer's output
  reads back to the same nodes and edges.
- `Grid` models Python's floor `//` and `%` and proves facts about grid positions. Distinct
  items get distinct cells, and for `cols > 0` the cells advance in row-major order.
- `Json` is a minimal JSON value with ordered object members. A member written later
  overrides an earlier one with the same key, as in a Python dictionary.

Identifiers come from a random generator (`secrets.token_hex(8)`). Each call that may need
one takes it as a parameter: `generated` for an adder, `generatedIds` for a layout, listed in
call order. The only thing assumed about such an identifier is that it has 16 lower-case hex
digits. The radial layout's trigonometric positions are also parameters (`positions`).

Three behaviours of the code the model keeps:

- A grid with `cols == 0` and at least one item raises `ZeroDivisionError` at the first item
  (create_canvas.py:183), before anything is appended. `CreateGridLayout` returns
  `Failure(ZeroDivisionError)` for this case.
- A negative `cols` follows Python's floor division and modulo (create_canvas.py:183-184).
- An optional argument that is the empty string is treated like an absent one, because the
  code tests truthiness and not `is not None` (create_canvas.py:41, 68, 70, 123-129, 154-159,
  164). The end markers are the exception: they are only compared with their defaults
  (create_canvas.py:160-163), so an empty `from_end` or `to_end` is written as given.

## Model

| member | source | states |
|---|---|---|
| Canvas.CanvasBuilder.constructor | obsidian-canvas/scripts/create_canvas.py:16-18 | A new builder has no nodes and no edges. |
| Canvas.CanvasBuilder.AddTextNode | obsidian-canvas/scripts/create_canvas.py:20-44 | Appends exactly one text node at the end. Earlier nodes and all edges are unchanged. The returned id is the caller's `node_id` when truthy, otherwise the generated one, and it is the stored node's id. Colour is kept only when truthy. |
| Canvas.CanvasBuilder.AddFileNode | obsidian-canvas/scripts/create_canvas.py:46-73 | Appends exactly one file node at the end, with the same id, colour and frame rules as text nodes. The subpath is stored only when truthy, normalised to start with `#`. |
| Canvas.CanvasBuilder.AddLinkNode | obsidian-canvas/scripts/create_canvas.py:75-99 | Appends exactly one link node at the end. Earlier nodes and all edges are unchanged, and the id and colour rules are as for text. |
| Canvas.CanvasBuilder.AddGroupNode | obsidian-canvas/scripts/create_canvas.py:101-133 | Inserts the group at index 0, and every earlier node moves up exactly one index. Label, colour and background are kept only when truthy. backgroundStyle is kept only when background and style are both truthy. Edges are unchanged. |
| Canvas.CanvasBuilder.AddEdge | obsidian-canvas/scripts/create_canvas.py:135-167 | Appends exactly one edge at the end, with the endpoints stored verbatim and not looked up. Nodes are unchanged. Label, sides and colour are kept only when truthy. fromEnd is kept iff it is not "none", and toEnd iff it is not "arrow". |
| Canvas.CanvasBuilder.AddItemNode | obsidian-canvas/scripts/create_canvas.py:188-193 | The layouts' per-item dispatch appends the node of the parsed kind with that adder's default size and no colour. |
| Canvas.CanvasBuilder.CreateGridLayout | obsidian-canvas/scripts/create_canvas.py:169-197 | Fails iff items is non-empty and either cols is 0 (ZeroDivisionError) or node_type is unknown (ValueError). On failure nothing changes. On success it appends exactly one node per item, in item order, with item k at column k % cols and row k // cols. It returns the ids in item order and adds no edges. |
| Canvas.CanvasBuilder.CreateRadialLayout | obsidian-canvas/scripts/create_canvas.py:199-239 | Always appends the "Center" text node first. Given positions the caller could compute, it fails iff items is non-empty and node_type is unknown; the centre node then stays and no edge is added. On success it appends one node per item and one edge per item, from the centre id to that item's id. It returns the item ids in order and the centre id. With no items only the centre is added. |
| Canvas.CanvasBuilder.ToJson | obsidian-canvas/scripts/create_canvas.py:241-248 | The document has a "nodes" member iff there are nodes, and an "edges" member iff there are edges. An empty builder gives `{}`. Reading the document back gives both sequences in stored order. |
| Canvas.CenterNode | obsidian-canvas/scripts/create_canvas.py:211-218 | The radial centre is the text "Center" with no colour, at corner (center_x - 125, center_y - 100), 250 by 200, so its midpoint is (center_x, center_y). |
| Canvas.WrittenNodeClean | obsidian-canvas/scripts/create_canvas.py:31-130 | For any node an adder can store, a reader of its written object finds a non-empty id, no empty optional value, a subpath starting with `#`, and a backgroundStyle only together with a background. |
| Canvas.WrittenEdgeClean | obsidian-canvas/scripts/create_canvas.py:148-165 | For any edge the edge adder can store, a reader of its written object finds a non-empty id, no empty label, side or colour, no fromEnd of "none" and no toEnd of "arrow". An end marker is only compared with its default, so an empty fromEnd or toEnd is written as given. |
| Canvas.TextObjectKeys | obsidian-canvas/scripts/create_canvas.py:32-42 | The written text node object has a "color" key iff the colour argument is truthy. |
| Canvas.LinkObjectKeys | obsidian-canvas/scripts/create_canvas.py:87-97 | The written link node object has a "color" key iff the colour argument is truthy. |
| Canvas.FileObjectKeys | obsidian-canvas/scripts/create_canvas.py:59-71 | The written file node object has "color" and "subpath" keys iff those arguments are truthy. The subpath written is the `#`-normalised one. |
| Canvas.GroupObjectKeys | obsidian-canvas/scripts/create_canvas.py:115-130 | The written group object has "label", "color" and "background" keys iff those arguments are truthy, and "backgroundStyle" iff background and style are both truthy. |
| Canvas.EdgeObjectKeys | obsidian-canvas/scripts/create_canvas.py:149-165 | The written edge object has "label", "fromSide", "toSide" and "color" keys iff those arguments are truthy. It has "fromEnd" iff that argument is not "none", and "toEnd" iff it is not "arrow". |
| Records.Keep | obsidian-canvas/scripts/create_canvas.py:41-42 | An `if value:` field is present iff the argument is truthy, holds the argument unchanged, and is never empty. |
| Records.ChooseId | obsidian-canvas/scripts/create_canvas.py:31 | `node_id or _generate_id()` gives the caller's id when truthy, otherwise the generated one, and never the empty string. |
| Records.NormalizeSubpath | obsidian-canvas/scripts/create_canvas.py:71 | The result starts with `#`. It equals the input iff the input already starts with `#`; otherwise it is `#` followed by the input. |
| Records.NormalizeSubpathIdempotent | obsidian-canvas/scripts/create_canvas.py:71 | Normalising a normalised subpath changes nothing. |
| Records.StoredSubpath | obsidian-canvas/scripts/create_canvas.py:70-71 | A subpath is stored iff it is truthy, and what is stored is the normalised value. |
| Records.StoredBackgroundStyle | obsidian-canvas/scripts/create_canvas.py:127-130 | backgroundStyle is stored iff both background and style are truthy, and it is stored unchanged. |
| Records.EndMarker | obsidian-canvas/scripts/create_canvas.py:160-163 | An end marker is stored iff it differs from that end's default, and it is stored unchanged. |
| Records.PlainEdge | obsidian-canvas/scripts/create_canvas.py:237 | The edge built with every default has the given edge id, joins the two given node ids and has no optional field. |
| Records.ParseNodeType | obsidian-canvas/scripts/create_canvas.py:188-195 | Only "text", "file" and "link" are accepted, each mapping to its kind. Anything else is the ValueError branch. |
| Records.ParseKindName | obsidian-canvas/scripts/create_canvas.py:188-193 | Every kind's name parses back to that kind. |
| Serialize.ItemNodeType | obsidian-canvas/scripts/create_canvas.py:188-193 | The node a layout adds for a parsed node_type is written with that same "type" tag. |
| Records.ItemNode | obsidian-canvas/scripts/create_canvas.py:188-193 | The node for a layout item has the item as its text, file or url, the given position, that adder's default size and no colour. |
| Serialize.NodeObjectHead | obsidian-canvas/scripts/create_canvas.py:32-34 | Every node object starts with "id" and then "type". |
| Serialize.NodeOptionalKeys | obsidian-canvas/scripts/create_canvas.py:32-130 | An optional node key (color, subpath, label, background, backgroundStyle) is in the object iff the record sets that field. |
| Serialize.EdgeObjectHead | obsidian-canvas/scripts/create_canvas.py:149-153 | Every edge object starts with "id", "fromNode" and "toNode". |
| Serialize.EdgeOptionalKeys | obsidian-canvas/scripts/create_canvas.py:154-165 | An optional edge key is in the object iff the record sets that field. |
| Serialize.NodeRoundTrip | obsidian-canvas/scripts/create_canvas.py:32-130 | Reading a written node object gives back the node. |
| Serialize.EdgeRoundTrip | obsidian-canvas/scripts/create_canvas.py:149-165 | Reading a written edge object gives back the edge. |
| Serialize.DecodeEncodeAll | obsidian-canvas/scripts/create_canvas.py:245-247 | An array written element by element with an encoder that the reader inverts reads back to the same elements in the same order. |
| Serialize.NodesRoundTrip | obsidian-canvas/scripts/create_canvas.py:245 | Reading the written "nodes" array gives back the node sequence. |
| Serialize.EdgesRoundTrip | obsidian-canvas/scripts/create_canvas.py:247 | Reading the written "edges" array gives back the edge sequence. |
| Serialize.NodesJson | obsidian-canvas/scripts/create_canvas.py:245 | The "nodes" array has one object per node, in stored order. |
| Serialize.EdgesJson | obsidian-canvas/scripts/create_canvas.py:247 | The "edges" array has one object per edge, in stored order. |
| Serialize.CanvasJson | obsidian-canvas/scripts/create_canvas.py:243-248 | The top-level keys are exactly "nodes" (if there are nodes) followed by "edges" (if there are edges). An empty document is `{}`. |
| Serialize.CanvasRoundTrip | obsidian-canvas/scripts/create_canvas.py:243-248 | Reading a written document gives back both sequences in order. A missing member reads as empty. |
| Grid.FloorDiv | obsidian-canvas/scripts/create_canvas.py:183 | Python's `//` rounds toward minus infinity, for either sign of the divisor. |
| Grid.FloorMod | obsidian-canvas/scripts/create_canvas.py:184 | Python's `%` satisfies `a == b*(a//b) + a%b`, and the remainder has the divisor's sign. |
| Grid.CellDeterminesItem | obsidian-canvas/scripts/create_canvas.py:183-184 | The (row, col) pair of an index determines the index. |
| Grid.GridPositionsDistinct | obsidian-canvas/scripts/create_canvas.py:183-186 | With cols and both spacings non-zero, two different items never get the same (x, y). |
| Grid.GridNext | obsidian-canvas/scripts/create_canvas.py:183-186 | With cols > 0, the next item is one column to the right on the same row, or at column 0 of the next row once the row is full. |

## Left out

- `_generate_id` (random hex from `secrets.token_hex`) is a foreign random source. Its results are parameters restricted to 16 lower-case hex digits. Uniqueness of identifiers is only probabilistic, so no lemma claims it.
- Canvas.CanvasBuilder.CreateRadialLayout: the item positions come from floating-point `cos`/`sin` and `int(...)` truncation, so the caller supplies them. Because of that, the `radius` and `start_angle` parameters do not appear. The division by `len(items)` is only reached inside the loop, which the model mirrors. The model assumes the position computation succeeds. Its error paths are not modelled: a non-finite `start_angle` (`math.cos`/`math.sin` raise `ValueError` for an infinity; a NaN reaches `int(nan)`, which raises `ValueError`), or a `radius`, `center_x` or `center_y` too large for a float (`OverflowError`, from the int-to-float conversion or from `int(inf)` when the sum overflows). Each of those is raised after the centre node is appended and before the `node_type` test, even for a valid node type. The model reports success in those cases, so its "fails iff the node type is unknown" holds only when the positions can be computed.
- `**kwargs` forwarding in both layouts is not modelled. Layout items use each adder's default size and no colour, id or subpath. The duplicate-keyword `TypeError` that kwargs can cause is not modelled either.
- Canvas.CanvasBuilder.ToJson produces a JSON value, not the indented text of `json.dumps`. The `indent` parameter is therefore not modelled.
- `save` (file I/O), `create_example_mindmap` and `main` (command-line glue and printing) are not part of this model.
- Python's dynamic typing is not modelled. Arguments are assumed to have their annotated types; `None` for `from_end`/`to_end`, for example, is not covered.
