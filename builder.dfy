/** The canvas builder: an ordered sequence of nodes and an ordered sequence of edges
    that the add operations and the two layouts extend in place, and the read-only
    query that serialises them. */
module Canvas {
  import opened Wrappers
  import opened Json
  import opened Records
  import opened Serialize
  import opened Grid

  /** What a layout call raises. */
  datatype LayoutError =
    | ZeroDivisionError            // `i // cols` with `cols == 0`
    | UnknownNodeType(nodeType: string)

  predicate AllGeneratedIds(ids: seq<string>) {
    forall i :: 0 <= i < |ids| ==> IsGeneratedId(ids[i])
  }

  // The radial layout centres nodes by subtracting this fixed half-size.
  const HalfWidth := 125
  const HalfHeight := 100

  /** The text node the radial layout puts at its centre. */
  function CenterNode(id: string, centerX: int, centerY: int): (n: Node)
    ensures n.Text? && n.id == id && n.text == "Center" && n.color.None?
    ensures n.x == centerX - 125 && n.y == centerY - 100 && n.width == 250 && n.height == 200
    ensures n.x + n.width / 2 == centerX && n.y + n.height / 2 == centerY
  {
    Text(id, "Center", centerX - HalfWidth, centerY - HalfHeight, 2 * HalfWidth, 2 * HalfHeight, None)
  }

  /** In the object written for a text node an adder stores, "color" is a key exactly
      when the colour argument is truthy. */
  lemma TextObjectKeys(id: string, text: string, x: int, y: int, width: int, height: int,
                       color: Option<string>)
    ensures "color" in ToMap(NodeFields(Text(id, text, x, y, width, height, Keep(color)))) <==> Truthy(color)
  {
    NodeOptionalKeys(Text(id, text, x, y, width, height, Keep(color)));
  }

  /** The same for a link node. */
  lemma LinkObjectKeys(id: string, url: string, x: int, y: int, width: int, height: int,
                       color: Option<string>)
    ensures "color" in ToMap(NodeFields(Link(id, url, x, y, width, height, Keep(color)))) <==> Truthy(color)
  {
    NodeOptionalKeys(Link(id, url, x, y, width, height, Keep(color)));
  }

  /** In the object written for a file node, "color" and "subpath" are keys exactly when
      those arguments are truthy, and the subpath written is the normalised one. */
  lemma FileObjectKeys(id: string, file: string, x: int, y: int, width: int, height: int,
                       color: Option<string>, subpath: Option<string>)
    ensures var m := ToMap(NodeFields(File(id, file, x, y, width, height, Keep(color), StoredSubpath(subpath))));
            && ("color" in m <==> Truthy(color))
            && ("subpath" in m <==> Truthy(subpath))
            && (Truthy(subpath) ==> "subpath" in m && m["subpath"] == JString(NormalizeSubpath(subpath.value)))
  {
    var n := File(id, file, x, y, width, height, Keep(color), StoredSubpath(subpath));
    NodeOptionalKeys(n);
    NodeMap(n);
    NodeDictAt(n, "subpath");
  }

  /** In the object written for a group node, "label", "color" and "background" are keys
      exactly when those arguments are truthy, and "backgroundStyle" exactly when both the
      background and the style are. */
  lemma GroupObjectKeys(id: string, x: int, y: int, width: int, height: int,
                        labelText: Option<string>, color: Option<string>,
                        background: Option<string>, backgroundStyle: Option<string>)
    ensures var m := ToMap(NodeFields(Group(id, x, y, width, height, Keep(labelText), Keep(color), Keep(background),
                                            StoredBackgroundStyle(background, backgroundStyle))));
            && ("label" in m <==> Truthy(labelText))
            && ("color" in m <==> Truthy(color))
            && ("background" in m <==> Truthy(background))
            && ("backgroundStyle" in m <==> Truthy(background) && Truthy(backgroundStyle))
  {
    NodeOptionalKeys(Group(id, x, y, width, height, Keep(labelText), Keep(color), Keep(background),
                           StoredBackgroundStyle(background, backgroundStyle)));
  }

  /** In the object written for an edge, "label", "fromSide", "toSide" and "color" are keys
      exactly when those arguments are truthy, "fromEnd" exactly when it is not "none" and
      "toEnd" exactly when it is not "arrow". */
  lemma EdgeObjectKeys(id: string, fromNode: string, toNode: string, labelText: Option<string>,
                       fromSide: Option<string>, toSide: Option<string>, fromEnd: string, toEnd: string,
                       color: Option<string>)
    ensures var m := ToMap(EdgeFields(Edge(id, fromNode, toNode, Keep(labelText), Keep(fromSide), Keep(toSide),
                                           EndMarker(fromEnd, NoMarker), EndMarker(toEnd, ArrowMarker), Keep(color))));
            && ("label" in m <==> Truthy(labelText))
            && ("fromSide" in m <==> Truthy(fromSide))
            && ("toSide" in m <==> Truthy(toSide))
            && ("fromEnd" in m <==> fromEnd != NoMarker)
            && ("toEnd" in m <==> toEnd != ArrowMarker)
            && ("color" in m <==> Truthy(color))
  {
    EdgeOptionalKeys(Edge(id, fromNode, toNode, Keep(labelText), Keep(fromSide), Keep(toSide),
                          EndMarker(fromEnd, NoMarker), EndMarker(toEnd, ArrowMarker), Keep(color)));
  }

  /** What a reader gets from the object written for a node a builder stores: a non-empty
      identifier, no empty optional value, a subpath that starts with `#`, and a background
      style only together with a background. */
  lemma {:induction false} WrittenNodeClean(n: Node)
    requires WellFormedNode(n)
    ensures var m := ToMap(NodeFields(n));
            && GetString(m, "id").Some? && GetString(m, "id") != Some("")
            && NonEmptyOpt(GetString(m, "color"))
            && (n.File? ==> NonEmptyOpt(GetString(m, "subpath"))
                            && (GetString(m, "subpath").Some? ==> StartsWithHash(GetString(m, "subpath").value)))
            && (n.Group? ==> && NonEmptyOpt(GetString(m, "label"))
                             && NonEmptyOpt(GetString(m, "background"))
                             && NonEmptyOpt(GetString(m, "backgroundStyle"))
                             && (GetString(m, "backgroundStyle").Some? ==> GetString(m, "background").Some?))
  {
    NodeMap(n);
    forall k ensures Get(NodeDict(n), k) == NodeEntry(n, k) {
      NodeDictAt(n, k);
    }
    CommonEntries(n, NodeDict(n));
    if n.File? {
      FileFromEntries(n, NodeDict(n));
    } else if n.Group? {
      GroupFromEntries(n, NodeDict(n));
    }
  }

  /** What a reader gets from the object written for an edge a builder stores: a non-empty
      identifier, no empty label, side or colour, no "fromEnd" of "none" and no "toEnd" of
      "arrow". An end marker is only compared with its default, so an empty one is written. */
  lemma {:induction false} WrittenEdgeClean(e: Edge)
    requires WellFormedEdge(e)
    ensures var m := ToMap(EdgeFields(e));
            && GetString(m, "id").Some? && GetString(m, "id") != Some("")
            && NonEmptyOpt(GetString(m, "label"))
            && NonEmptyOpt(GetString(m, "fromSide"))
            && NonEmptyOpt(GetString(m, "toSide"))
            && NonEmptyOpt(GetString(m, "color"))
            && GetString(m, "fromEnd") != Some(NoMarker)
            && GetString(m, "toEnd") != Some(ArrowMarker)
  {
    EdgeMap(e);
    forall k ensures Get(EdgeDict(e), k) == EdgeEntry(e, k) {
      EdgeDictAt(e, k);
    }
    EdgeEndpointEntries(e, EdgeDict(e));
    EdgeOptionalEntries(e, EdgeDict(e));
  }

  class CanvasBuilder {
    var nodes: seq<Node>
    var edges: seq<Edge>

    /** Every stored record is one an add operation can have built; `WrittenNodeClean`
        and `WrittenEdgeClean` say what this means for the document that is written. */
    ghost predicate Valid()
      reads this
    {
      && (forall i :: 0 <= i < |nodes| ==> WellFormedNode(nodes[i]))
      && (forall i :: 0 <= i < |edges| ==> WellFormedEdge(edges[i]))
    }

    constructor ()
      ensures Valid() && nodes == [] && edges == []
    {
      nodes := [];
      edges := [];
    }

    /** Appends a text node; `generated` is what the identifier generator returns if called. */
    method AddTextNode(text: string, x: int, y: int, width: int := TextWidth, height: int := TextHeight,
                       color: Option<string> := None, nodeId: Option<string> := None,
                       nameonly generated: string)
      returns (id: string)
      requires Valid() && IsGeneratedId(generated)
      modifies this
      ensures Valid()
      ensures id == ChooseId(nodeId, generated)
      ensures nodes == old(nodes) + [Text(id, text, x, y, width, height, Keep(color))]
      ensures edges == old(edges)
    {
      id := ChooseId(nodeId, generated);
      nodes := nodes + [Text(id, text, x, y, width, height, Keep(color))];
    }

    /** Appends a file node; a subpath is stored only when given, with a leading `#`. */
    method AddFileNode(filePath: string, x: int, y: int, width: int := FileWidth, height: int := FileHeight,
                       color: Option<string> := None, subpath: Option<string> := None,
                       nodeId: Option<string> := None, nameonly generated: string)
      returns (id: string)
      requires Valid() && IsGeneratedId(generated)
      modifies this
      ensures Valid()
      ensures id == ChooseId(nodeId, generated)
      ensures nodes == old(nodes) + [File(id, filePath, x, y, width, height, Keep(color), StoredSubpath(subpath))]
      ensures edges == old(edges)
    {
      id := ChooseId(nodeId, generated);
      nodes := nodes + [File(id, filePath, x, y, width, height, Keep(color), StoredSubpath(subpath))];
    }

    /** Appends a link node. */
    method AddLinkNode(url: string, x: int, y: int, width: int := LinkWidth, height: int := LinkHeight,
                       color: Option<string> := None, nodeId: Option<string> := None,
                       nameonly generated: string)
      returns (id: string)
      requires Valid() && IsGeneratedId(generated)
      modifies this
      ensures Valid()
      ensures id == ChooseId(nodeId, generated)
      ensures nodes == old(nodes) + [Link(id, url, x, y, width, height, Keep(color))]
      ensures edges == old(edges)
    {
      id := ChooseId(nodeId, generated);
      nodes := nodes + [Link(id, url, x, y, width, height, Keep(color))];
    }

    /** Inserts a group node at index 0, so that it is drawn beneath every node added
        before it; each earlier node moves up one index. */
    method AddGroupNode(x: int, y: int, width: int, height: int,
                        labelText: Option<string> := None, color: Option<string> := None,
                        background: Option<string> := None, backgroundStyle: Option<string> := None,
                        nodeId: Option<string> := None, nameonly generated: string)
      returns (id: string)
      requires Valid() && IsGeneratedId(generated)
      modifies this
      ensures Valid()
      ensures id == ChooseId(nodeId, generated)
      ensures nodes == [Group(id, x, y, width, height, Keep(labelText), Keep(color), Keep(background),
                              StoredBackgroundStyle(background, backgroundStyle))] + old(nodes)
      ensures forall i :: 0 <= i < |old(nodes)| ==> nodes[i + 1] == old(nodes)[i]
      ensures edges == old(edges)
    {
      id := ChooseId(nodeId, generated);
      var group := Group(id, x, y, width, height, Keep(labelText), Keep(color), Keep(background),
                         StoredBackgroundStyle(background, backgroundStyle));
      nodes := [group] + nodes;
    }

    /** Appends an edge; the endpoints are stored as given and are not looked up. */
    method AddEdge(fromNode: string, toNode: string, labelText: Option<string> := None,
                   fromSide: Option<string> := None, toSide: Option<string> := None,
                   fromEnd: string := NoMarker, toEnd: string := ArrowMarker,
                   color: Option<string> := None, edgeId: Option<string> := None,
                   nameonly generated: string)
      returns (id: string)
      requires Valid() && IsGeneratedId(generated)
      modifies this
      ensures Valid()
      ensures id == ChooseId(edgeId, generated)
      ensures edges == old(edges) + [Edge(id, fromNode, toNode, Keep(labelText), Keep(fromSide), Keep(toSide),
                                          EndMarker(fromEnd, NoMarker), EndMarker(toEnd, ArrowMarker), Keep(color))]
      ensures nodes == old(nodes)
    {
      id := ChooseId(edgeId, generated);
      var edge := Edge(id, fromNode, toNode, Keep(labelText), Keep(fromSide), Keep(toSide),
                       EndMarker(fromEnd, NoMarker), EndMarker(toEnd, ArrowMarker), Keep(color));
      edges := edges + [edge];
    }

    /** The `node_type` dispatch inside both layouts: calls the adder of the item's kind
        with its default size and no optional arguments. */
    method AddItemNode(kind: ItemKind, item: string, x: int, y: int, generated: string)
      returns (id: string)
      requires Valid() && IsGeneratedId(generated)
      modifies this
      ensures Valid()
      ensures id == generated
      ensures nodes == old(nodes) + [ItemNode(kind, id, item, x, y)]
      ensures edges == old(edges)
    {
      match kind
      case TextKind => id := AddTextNode(item, x, y, generated := generated);
      case FileKind => id := AddFileNode(item, x, y, generated := generated);
      case LinkKind => id := AddLinkNode(item, x, y, generated := generated);
    }

    /** Places item `i` at column `i % cols`, row `i // cols`, and returns the new
        identifiers in item order. `generatedIds` holds the identifiers the generator hands
        out, one per item, in call order. */
    method CreateGridLayout(items: seq<string>, cols: int := 3, startX: int := 0, startY: int := 0,
                            spacingX: int := 500, spacingY: int := 350, nodeType: string := "text",
                            nameonly generatedIds: seq<string>)
      returns (r: Result<seq<string>, LayoutError>)
      requires Valid()
      requires |generatedIds| == |items| && AllGeneratedIds(generatedIds)
      modifies this
      ensures Valid()
      ensures edges == old(edges)
      ensures r.Failure? <==> items != [] && (cols == 0 || ParseNodeType(nodeType).None?)
      ensures r.Failure? ==> nodes == old(nodes)
      ensures r.Failure? ==> r.error == if cols == 0 then ZeroDivisionError else UnknownNodeType(nodeType)
      ensures r.Success? ==> r.value == generatedIds
      ensures r.Success? ==> |nodes| == |old(nodes)| + |items| && nodes[..|old(nodes)|] == old(nodes)
      ensures r.Success? && items != [] ==>
                cols != 0 && ParseNodeType(nodeType).Some? &&
                forall k :: 0 <= k < |items| ==>
                  nodes[|old(nodes)| + k] ==
                    ItemNode(ParseNodeType(nodeType).value, generatedIds[k], items[k],
                             GridX(k, cols, startX, spacingX), GridY(k, cols, startY, spacingY))
    {
      var nodeIds: seq<string> := [];
      var i := 0;
      while i < |items|
        invariant 0 <= i <= |items|
        invariant Valid()
        invariant edges == old(edges)
        invariant nodeIds == generatedIds[..i]
        invariant |nodes| == |old(nodes)| + i && nodes[..|old(nodes)|] == old(nodes)
        invariant i > 0 ==> cols != 0 && ParseNodeType(nodeType).Some?
        invariant forall k :: 0 <= k < i ==>
                    nodes[|old(nodes)| + k] ==
                      ItemNode(ParseNodeType(nodeType).value, generatedIds[k], items[k],
                               GridX(k, cols, startX, spacingX), GridY(k, cols, startY, spacingY))
      {
        if cols == 0 {
          return Failure(ZeroDivisionError);
        }
        var row := FloorDiv(i, cols);
        var col := FloorMod(i, cols);
        var x := startX + col * spacingX;
        var y := startY + row * spacingY;
        var kind := ParseNodeType(nodeType);
        if kind.None? {
          return Failure(UnknownNodeType(nodeType));
        }
        var id := AddItemNode(kind.value, items[i], x, y, generatedIds[i]);
        nodeIds := nodeIds + [id];
        i := i + 1;
      }
      assert generatedIds[..|items|] == generatedIds;
      r := Success(nodeIds);
    }

    /** Adds a "Center" text node, then one node per item at the position the caller
        computed on the circle, each followed by an edge from the centre to it.
        Returns the item identifiers in item order and the centre's identifier.
        `generatedIds` holds the identifiers the generator hands out, in call order:
        the centre, then for each item its node and its edge. */
    method CreateRadialLayout(items: seq<string>, centerX: int := 0, centerY: int := 0,
                              nodeType: string := "text", nameonly positions: seq<(int, int)>,
                              nameonly generatedIds: seq<string>)
      returns (r: Result<(seq<string>, string), LayoutError>)
      requires Valid()
      requires |positions| == |items|
      requires |generatedIds| == 1 + 2 * |items| && AllGeneratedIds(generatedIds)
      modifies this
      ensures Valid()
      ensures |nodes| > |old(nodes)|
      ensures nodes[..|old(nodes)| + 1] == old(nodes) + [CenterNode(generatedIds[0], centerX, centerY)]
      ensures |edges| >= |old(edges)| && edges[..|old(edges)|] == old(edges)
      ensures r.Failure? <==> items != [] && ParseNodeType(nodeType).None?
      ensures r.Failure? ==> r.error == UnknownNodeType(nodeType)
      ensures r.Failure? ==> |nodes| == |old(nodes)| + 1 && edges == old(edges)
      ensures r.Success? ==> r.value.1 == generatedIds[0] && |r.value.0| == |items|
      ensures r.Success? ==> |nodes| == |old(nodes)| + 1 + |items| && |edges| == |old(edges)| + |items|
      ensures r.Success? && items != [] ==>
                ParseNodeType(nodeType).Some? &&
                forall k :: 0 <= k < |items| ==>
                  && r.value.0[k] == generatedIds[1 + 2 * k]
                  && nodes[|old(nodes)| + 1 + k] ==
                       ItemNode(ParseNodeType(nodeType).value, r.value.0[k], items[k], positions[k].0, positions[k].1)
                  && edges[|old(edges)| + k] == PlainEdge(generatedIds[2 + 2 * k], r.value.1, r.value.0[k])
    {
      var centerId := AddTextNode("Center", centerX - HalfWidth, centerY - HalfHeight,
                                  width := 2 * HalfWidth, height := 2 * HalfHeight,
                                  generated := generatedIds[0]);
      var nodeIds: seq<string> := [];
      var i := 0;
      while i < |items|
        invariant 0 <= i <= |items|
        invariant Valid()
        invariant |nodeIds| == i
        invariant |nodes| == |old(nodes)| + 1 + i
        invariant nodes[..|old(nodes)| + 1] == old(nodes) + [CenterNode(generatedIds[0], centerX, centerY)]
        invariant |edges| == |old(edges)| + i && edges[..|old(edges)|] == old(edges)
        invariant i > 0 ==> ParseNodeType(nodeType).Some?
        invariant forall k :: 0 <= k < i ==>
                    && nodeIds[k] == generatedIds[1 + 2 * k]
                    && nodes[|old(nodes)| + 1 + k] ==
                         ItemNode(ParseNodeType(nodeType).value, nodeIds[k], items[k], positions[k].0, positions[k].1)
                    && edges[|old(edges)| + k] == PlainEdge(generatedIds[2 + 2 * k], centerId, nodeIds[k])
      {
        // The position on the circle is computed by the caller (see `positions`).
        var (x, y) := positions[i];
        var kind := ParseNodeType(nodeType);
        if kind.None? {
          return Failure(UnknownNodeType(nodeType));
        }
        var id := AddItemNode(kind.value, items[i], x, y, generatedIds[1 + 2 * i]);
        nodeIds := nodeIds + [id];
        var _ := AddEdge(centerId, id, generated := generatedIds[2 + 2 * i]);
        i := i + 1;
      }
      r := Success((nodeIds, centerId));
    }

    /** The document as a JSON value: "nodes" present exactly when there are nodes,
        "edges" exactly when there are edges, each array in stored order, so that a
        reader gets both sequences back. */
    function ToJson(): (j: Value)
      reads this
      ensures j.JObject?
      ensures "nodes" in Keys(j.fields) <==> nodes != []
      ensures "edges" in Keys(j.fields) <==> edges != []
      ensures nodes == [] && edges == [] ==> j == JObject([])
      ensures DecodeCanvas(j) == Some((nodes, edges))
    {
      CanvasRoundTrip(nodes, edges);
      CanvasJson(nodes, edges)
    }
  }
}
