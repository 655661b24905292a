/** The serialised form of a canvas: each record becomes a JSON object whose keys
    follow the canonical order (identifier, type, type-specific field, geometry,
    optional fields), optional fields appear only when set, and the document holds
    "nodes" and "edges" only when they are non-empty. A reader for that form is given
    too, and reading what the serialiser wrote gives back the records. */
module Serialize {
  import opened Wrappers
  import opened Json
  import opened Records

  function StrField(key: string, s: string): (f: seq<(string, Value)>)
    ensures ToMap(f) == map[key := JString(s)]
  {
    ToMapSingle(key, JString(s));
    [(key, JString(s))]
  }

  function IntField(key: string, n: int): (f: seq<(string, Value)>)
    ensures ToMap(f) == map[key := JInt(n)]
  {
    ToMapSingle(key, JInt(n));
    [(key, JInt(n))]
  }

  /** The dictionary entry of an optional field. */
  function OptMap(key: string, o: Option<string>): map<string, Value> {
    if o.Some? then map[key := JString(o.value)] else map[]
  }

  /** A key/value pair that is written only when the field is set. */
  function OptField(key: string, o: Option<string>): (f: seq<(string, Value)>)
    ensures ToMap(f) == OptMap(key, o)
  {
    if o.Some? then StrField(key, o.value) else []
  }

  function GeometryMap(x: int, y: int, width: int, height: int): map<string, Value> {
    map["x" := JInt(x), "y" := JInt(y), "width" := JInt(width), "height" := JInt(height)]
  }

  function Geometry(x: int, y: int, width: int, height: int): (f: seq<(string, Value)>)
    ensures ToMap(f) == GeometryMap(x, y, width, height)
  {
    ToMapAppend(IntField("x", x), IntField("y", y));
    ToMapAppend(IntField("x", x) + IntField("y", y), IntField("width", width));
    ToMapAppend(IntField("x", x) + IntField("y", y) + IntField("width", width), IntField("height", height));
    IntField("x", x) + IntField("y", y) + IntField("width", width) + IntField("height", height)
  }

  function TypeName(n: Node): string {
    match n
    case Text(_, _, _, _, _, _, _) => "text"
    case File(_, _, _, _, _, _, _, _) => "file"
    case Link(_, _, _, _, _, _, _) => "link"
    case Group(_, _, _, _, _, _, _, _, _) => "group"
  }

  /** A layout item's node is written with the tag its `node_type` was parsed from. */
  lemma ItemNodeType(kind: ItemKind, id: string, item: string, x: int, y: int)
    ensures TypeName(ItemNode(kind, id, item, x, y)) == KindName(kind)
    ensures ParseNodeType(TypeName(ItemNode(kind, id, item, x, y))) == Some(kind)
  {
  }

  /** The members of a node object, in canonical order: identifier, type,
      type-specific field, geometry, then the optional fields that are set. */
  function NodeFields(n: Node): seq<(string, Value)> {
    match n
    case Text(id, text, x, y, w, h, color) =>
      StrField("id", id) + StrField("type", "text") + StrField("text", text) + Geometry(x, y, w, h)
      + OptField("color", color)
    case File(id, file, x, y, w, h, color, subpath) =>
      StrField("id", id) + StrField("type", "file") + StrField("file", file) + Geometry(x, y, w, h)
      + OptField("color", color) + OptField("subpath", subpath)
    case Link(id, url, x, y, w, h, color) =>
      StrField("id", id) + StrField("type", "link") + StrField("url", url) + Geometry(x, y, w, h)
      + OptField("color", color)
    case Group(id, x, y, w, h, caption, color, background, style) =>
      StrField("id", id) + StrField("type", "group") + Geometry(x, y, w, h)
      + OptField("label", caption) + OptField("color", color)
      + OptField("background", background) + OptField("backgroundStyle", style)
  }

  /** The members of an edge object, in canonical order. */
  function EdgeFields(e: Edge): seq<(string, Value)> {
    StrField("id", e.id) + StrField("fromNode", e.fromNode) + StrField("toNode", e.toNode)
    + OptField("label", e.labelText) + OptField("fromSide", e.fromSide) + OptField("toSide", e.toSide)
    + OptField("fromEnd", e.fromEnd) + OptField("toEnd", e.toEnd) + OptField("color", e.color)
  }

  /** The dictionary a reader builds from a node object. */
  function NodeDict(n: Node): map<string, Value> {
    match n
    case Text(id, text, x, y, w, h, color) =>
      map["id" := JString(id), "type" := JString("text"), "text" := JString(text)] + GeometryMap(x, y, w, h)
      + OptMap("color", color)
    case File(id, file, x, y, w, h, color, subpath) =>
      map["id" := JString(id), "type" := JString("file"), "file" := JString(file)] + GeometryMap(x, y, w, h)
      + OptMap("color", color) + OptMap("subpath", subpath)
    case Link(id, url, x, y, w, h, color) =>
      map["id" := JString(id), "type" := JString("link"), "url" := JString(url)] + GeometryMap(x, y, w, h)
      + OptMap("color", color)
    case Group(id, x, y, w, h, caption, color, background, style) =>
      map["id" := JString(id), "type" := JString("group")] + GeometryMap(x, y, w, h)
      + OptMap("label", caption) + OptMap("color", color)
      + OptMap("background", background) + OptMap("backgroundStyle", style)
  }

  /** The dictionary a reader builds from an edge object. */
  function EdgeDict(e: Edge): map<string, Value> {
    map["id" := JString(e.id), "fromNode" := JString(e.fromNode), "toNode" := JString(e.toNode)]
    + OptMap("label", e.labelText) + OptMap("fromSide", e.fromSide) + OptMap("toSide", e.toSide)
    + OptMap("fromEnd", e.fromEnd) + OptMap("toEnd", e.toEnd) + OptMap("color", e.color)
  }

  lemma {:induction false} NodeMap(n: Node)
    ensures ToMap(NodeFields(n)) == NodeDict(n)
  {
    var p0 := StrField("id", n.id);
    var p1 := p0 + StrField("type", TypeName(n));
    ToMapAppend(p0, StrField("type", TypeName(n)));
    match n
    case Text(id, text, x, y, w, h, color) =>
      var p2 := p1 + StrField("text", text);
      var p3 := p2 + Geometry(x, y, w, h);
      ToMapAppend(p1, StrField("text", text));
      ToMapAppend(p2, Geometry(x, y, w, h));
      ToMapAppend(p3, OptField("color", color));
    case File(id, file, x, y, w, h, color, subpath) =>
      var p2 := p1 + StrField("file", file);
      var p3 := p2 + Geometry(x, y, w, h);
      var p4 := p3 + OptField("color", color);
      ToMapAppend(p1, StrField("file", file));
      ToMapAppend(p2, Geometry(x, y, w, h));
      ToMapAppend(p3, OptField("color", color));
      ToMapAppend(p4, OptField("subpath", subpath));
    case Link(id, url, x, y, w, h, color) =>
      var p2 := p1 + StrField("url", url);
      var p3 := p2 + Geometry(x, y, w, h);
      ToMapAppend(p1, StrField("url", url));
      ToMapAppend(p2, Geometry(x, y, w, h));
      ToMapAppend(p3, OptField("color", color));
    case Group(id, x, y, w, h, caption, color, background, style) =>
      var p2 := p1 + Geometry(x, y, w, h);
      var p3 := p2 + OptField("label", caption);
      var p4 := p3 + OptField("color", color);
      var p5 := p4 + OptField("background", background);
      ToMapAppend(p1, Geometry(x, y, w, h));
      ToMapAppend(p2, OptField("label", caption));
      ToMapAppend(p3, OptField("color", color));
      ToMapAppend(p4, OptField("background", background));
      ToMapAppend(p5, OptField("backgroundStyle", style));
  }

  lemma {:induction false} EdgeMap(e: Edge)
    ensures ToMap(EdgeFields(e)) == EdgeDict(e)
  {
    var p0 := StrField("id", e.id);
    var p1 := p0 + StrField("fromNode", e.fromNode);
    var p2 := p1 + StrField("toNode", e.toNode);
    var p3 := p2 + OptField("label", e.labelText);
    var p4 := p3 + OptField("fromSide", e.fromSide);
    var p5 := p4 + OptField("toSide", e.toSide);
    var p6 := p5 + OptField("fromEnd", e.fromEnd);
    var p7 := p6 + OptField("toEnd", e.toEnd);
    ToMapAppend(p0, StrField("fromNode", e.fromNode));
    ToMapAppend(p1, StrField("toNode", e.toNode));
    ToMapAppend(p2, OptField("label", e.labelText));
    ToMapAppend(p3, OptField("fromSide", e.fromSide));
    ToMapAppend(p4, OptField("toSide", e.toSide));
    ToMapAppend(p5, OptField("fromEnd", e.fromEnd));
    ToMapAppend(p6, OptField("toEnd", e.toEnd));
    ToMapAppend(p7, OptField("color", e.color));
  }

  function OptValue(o: Option<string>): Option<Value> {
    if o.Some? then Some(JString(o.value)) else None
  }

  /** The member a reader finds under key `k` of a node object: the identifier, the
      type and the geometry always, the type-specific fields of the node's own
      variant, and an optional field only when it is set. */
  function NodeEntry(n: Node, k: string): Option<Value> {
    if k == "id" then Some(JString(n.id))
    else if k == "type" then Some(JString(TypeName(n)))
    else if k == "x" then Some(JInt(n.x))
    else if k == "y" then Some(JInt(n.y))
    else if k == "width" then Some(JInt(n.width))
    else if k == "height" then Some(JInt(n.height))
    else if k == "color" then OptValue(n.color)
    else
      match n
      case Text(_, text, _, _, _, _, _) =>
        if k == "text" then Some(JString(text)) else None
      case File(_, file, _, _, _, _, _, subpath) =>
        if k == "file" then Some(JString(file)) else if k == "subpath" then OptValue(subpath) else None
      case Link(_, url, _, _, _, _, _) =>
        if k == "url" then Some(JString(url)) else None
      case Group(_, _, _, _, _, caption, _, background, style) =>
        if k == "label" then OptValue(caption)
        else if k == "background" then OptValue(background)
        else if k == "backgroundStyle" then OptValue(style)
        else None
  }

  /** The member a reader finds under key `k` of an edge object. */
  function EdgeEntry(e: Edge, k: string): Option<Value> {
    if k == "id" then Some(JString(e.id))
    else if k == "fromNode" then Some(JString(e.fromNode))
    else if k == "toNode" then Some(JString(e.toNode))
    else if k == "label" then OptValue(e.labelText)
    else if k == "fromSide" then OptValue(e.fromSide)
    else if k == "toSide" then OptValue(e.toSide)
    else if k == "fromEnd" then OptValue(e.fromEnd)
    else if k == "toEnd" then OptValue(e.toEnd)
    else if k == "color" then OptValue(e.color)
    else None
  }

  /** Looking a key up in a dictionary extended by an optional field. */
  lemma GetOverOpt(a: map<string, Value>, key: string, o: Option<string>, k: string)
    ensures Get(a + OptMap(key, o), k) == if k == key && o.Some? then OptValue(o) else Get(a, k)
  {
  }

  /** Reading any key of a serialised node finds exactly the node's entry for it. */
  lemma {:induction false} NodeDictAt(n: Node, k: string)
    ensures Get(NodeDict(n), k) == NodeEntry(n, k)
  {
    match n
    case Text(_, _, _, _, _, _, _) =>
      TextDictAt(n, k);
    case File(_, _, _, _, _, _, _, _) =>
      FileDictAt(n, k);
    case Link(_, _, _, _, _, _, _) =>
      LinkDictAt(n, k);
    case Group(_, _, _, _, _, _, _, _, _) =>
      GroupDictAt(n, k);
  }

  lemma {:induction false} TextDictAt(n: Node, k: string)
    requires n.Text?
    ensures Get(NodeDict(n), k) == NodeEntry(n, k)
  {
    var m0 := map["id" := JString(n.id), "type" := JString("text"), "text" := JString(n.text)]
              + GeometryMap(n.x, n.y, n.width, n.height);
    GetOverOpt(m0, "color", n.color, k);
    if k in m0 {
      assert k in {"id", "type", "text", "x", "y", "width", "height"};
    }
  }

  lemma {:induction false} LinkDictAt(n: Node, k: string)
    requires n.Link?
    ensures Get(NodeDict(n), k) == NodeEntry(n, k)
  {
    var m0 := map["id" := JString(n.id), "type" := JString("link"), "url" := JString(n.url)]
              + GeometryMap(n.x, n.y, n.width, n.height);
    GetOverOpt(m0, "color", n.color, k);
    if k in m0 {
      assert k in {"id", "type", "url", "x", "y", "width", "height"};
    }
  }

  lemma {:induction false} FileDictAt(n: Node, k: string)
    requires n.File?
    ensures Get(NodeDict(n), k) == NodeEntry(n, k)
  {
    var m0 := map["id" := JString(n.id), "type" := JString("file"), "file" := JString(n.file)]
              + GeometryMap(n.x, n.y, n.width, n.height);
    GetOverOpt(m0, "color", n.color, k);
    GetOverOpt(m0 + OptMap("color", n.color), "subpath", n.subpath, k);
    if k in m0 {
      assert k in {"id", "type", "file", "x", "y", "width", "height"};
    }
  }

  lemma {:induction false} GroupDictAt(n: Node, k: string)
    requires n.Group?
    ensures Get(NodeDict(n), k) == NodeEntry(n, k)
  {
    var m0 := map["id" := JString(n.id), "type" := JString("group")] + GeometryMap(n.x, n.y, n.width, n.height);
    GroupOptionalAt(m0, n.labelText, n.color, n.background, n.backgroundStyle, k);
    if k in m0 {
      assert k in {"id", "type", "x", "y", "width", "height"};
    }
  }

  /** Looking a key up in a dictionary extended by the four optional group fields. */
  lemma {:induction false} GroupOptionalAt(m0: map<string, Value>, caption: Option<string>, color: Option<string>,
                                           background: Option<string>, style: Option<string>, k: string)
    ensures Get(m0 + OptMap("label", caption) + OptMap("color", color)
                + OptMap("background", background) + OptMap("backgroundStyle", style), k)
            == if k == "label" && caption.Some? then OptValue(caption)
               else if k == "color" && color.Some? then OptValue(color)
               else if k == "background" && background.Some? then OptValue(background)
               else if k == "backgroundStyle" && style.Some? then OptValue(style)
               else Get(m0, k)
  {
    var m1 := m0 + OptMap("label", caption);
    var m2 := m1 + OptMap("color", color);
    var m3 := m2 + OptMap("background", background);
    GetOverOpt(m0, "label", caption, k);
    GetOverOpt(m1, "color", color, k);
    GetOverOpt(m2, "background", background, k);
    GetOverOpt(m3, "backgroundStyle", style, k);
  }

  /** Reading any key of a serialised edge finds exactly the edge's entry for it. */
  lemma {:induction false} EdgeDictAt(e: Edge, k: string)
    ensures Get(EdgeDict(e), k) == EdgeEntry(e, k)
  {
    var m0 := map["id" := JString(e.id), "fromNode" := JString(e.fromNode), "toNode" := JString(e.toNode)];
    var m1 := m0 + OptMap("label", e.labelText);
    var m2 := m1 + OptMap("fromSide", e.fromSide);
    var m3 := m2 + OptMap("toSide", e.toSide);
    var m4 := m3 + OptMap("fromEnd", e.fromEnd);
    var m5 := m4 + OptMap("toEnd", e.toEnd);
    GetOverOpt(m0, "label", e.labelText, k);
    GetOverOpt(m1, "fromSide", e.fromSide, k);
    GetOverOpt(m2, "toSide", e.toSide, k);
    GetOverOpt(m3, "fromEnd", e.fromEnd, k);
    GetOverOpt(m4, "toEnd", e.toEnd, k);
    GetOverOpt(m5, "color", e.color, k);
  }

  /** Reads a node object back into a record; None for anything the serialiser cannot have written. */
  function DecodeNode(v: Value): Option<Node> {
    if v.JObject? then NodeFromDict(ToMap(v.fields)) else None
  }

  function NodeFromDict(m: map<string, Value>): Option<Node> {
    var id :- GetString(m, "id");
    var t :- GetString(m, "type");
    var x :- GetInt(m, "x");
    var y :- GetInt(m, "y");
    var w :- GetInt(m, "width");
    var h :- GetInt(m, "height");
    var color := GetString(m, "color");
    if t == "text" then
      var text :- GetString(m, "text");
      Some(Text(id, text, x, y, w, h, color))
    else if t == "file" then
      var file :- GetString(m, "file");
      Some(File(id, file, x, y, w, h, color, GetString(m, "subpath")))
    else if t == "link" then
      var url :- GetString(m, "url");
      Some(Link(id, url, x, y, w, h, color))
    else if t == "group" then
      Some(Group(id, x, y, w, h, GetString(m, "label"), color,
                 GetString(m, "background"), GetString(m, "backgroundStyle")))
    else None
  }

  /** Reads an edge object back into a record. */
  function DecodeEdge(v: Value): Option<Edge> {
    if v.JObject? then EdgeFromDict(ToMap(v.fields)) else None
  }

  function EdgeFromDict(m: map<string, Value>): Option<Edge> {
    var id :- GetString(m, "id");
    var from :- GetString(m, "fromNode");
    var to :- GetString(m, "toNode");
    Some(Edge(id, from, to, GetString(m, "label"), GetString(m, "fromSide"), GetString(m, "toSide"),
              GetString(m, "fromEnd"), GetString(m, "toEnd"), GetString(m, "color")))
  }

  /** A dictionary that holds exactly a node's entries reads back as that node. */
  lemma NodeFromEntries(n: Node, m: map<string, Value>)
    requires forall k :: Get(m, k) == NodeEntry(n, k)
    ensures NodeFromDict(m) == Some(n)
  {
    CommonEntries(n, m);
    match n
    case Text(_, _, _, _, _, _, _) =>
      assert Get(m, "text") == NodeEntry(n, "text");
    case File(_, _, _, _, _, _, _, _) =>
      FileFromEntries(n, m);
    case Link(_, _, _, _, _, _, _) =>
      assert Get(m, "url") == NodeEntry(n, "url");
    case Group(_, _, _, _, _, _, _, _, _) =>
      GroupFromEntries(n, m);
  }

  /** The members every node object has, read back. */
  lemma CommonEntries(n: Node, m: map<string, Value>)
    requires forall k :: Get(m, k) == NodeEntry(n, k)
    ensures GetString(m, "id") == Some(n.id) && GetString(m, "type") == Some(TypeName(n))
    ensures GetInt(m, "x") == Some(n.x) && GetInt(m, "y") == Some(n.y)
    ensures GetInt(m, "width") == Some(n.width) && GetInt(m, "height") == Some(n.height)
    ensures GetString(m, "color") == n.color
  {
    assert Get(m, "id") == NodeEntry(n, "id");
    assert Get(m, "type") == NodeEntry(n, "type");
    assert Get(m, "x") == NodeEntry(n, "x");
    assert Get(m, "y") == NodeEntry(n, "y");
    assert Get(m, "width") == NodeEntry(n, "width");
    assert Get(m, "height") == NodeEntry(n, "height");
    assert Get(m, "color") == NodeEntry(n, "color");
  }

  lemma FileFromEntries(n: Node, m: map<string, Value>)
    requires n.File?
    requires forall k :: Get(m, k) == NodeEntry(n, k)
    ensures GetString(m, "file") == Some(n.file) && GetString(m, "subpath") == n.subpath
  {
    assert Get(m, "file") == NodeEntry(n, "file");
    assert Get(m, "subpath") == NodeEntry(n, "subpath");
  }

  lemma GroupFromEntries(n: Node, m: map<string, Value>)
    requires n.Group?
    requires forall k :: Get(m, k) == NodeEntry(n, k)
    ensures GetString(m, "label") == n.labelText
    ensures GetString(m, "background") == n.background
    ensures GetString(m, "backgroundStyle") == n.backgroundStyle
  {
    assert Get(m, "label") == NodeEntry(n, "label");
    assert Get(m, "background") == NodeEntry(n, "background");
    assert Get(m, "backgroundStyle") == NodeEntry(n, "backgroundStyle");
  }

  /** A dictionary that holds exactly an edge's entries reads back as that edge. */
  lemma EdgeFromEntries(e: Edge, m: map<string, Value>)
    requires forall k :: Get(m, k) == EdgeEntry(e, k)
    ensures EdgeFromDict(m) == Some(e)
  {
    EdgeEndpointEntries(e, m);
    EdgeOptionalEntries(e, m);
  }

  lemma EdgeEndpointEntries(e: Edge, m: map<string, Value>)
    requires forall k :: Get(m, k) == EdgeEntry(e, k)
    ensures GetString(m, "id") == Some(e.id)
    ensures GetString(m, "fromNode") == Some(e.fromNode)
    ensures GetString(m, "toNode") == Some(e.toNode)
  {
    assert Get(m, "id") == EdgeEntry(e, "id");
    assert Get(m, "fromNode") == EdgeEntry(e, "fromNode");
    assert Get(m, "toNode") == EdgeEntry(e, "toNode");
  }

  lemma EdgeOptionalEntries(e: Edge, m: map<string, Value>)
    requires forall k :: Get(m, k) == EdgeEntry(e, k)
    ensures GetString(m, "label") == e.labelText
    ensures GetString(m, "fromSide") == e.fromSide
    ensures GetString(m, "toSide") == e.toSide
    ensures GetString(m, "fromEnd") == e.fromEnd
    ensures GetString(m, "toEnd") == e.toEnd
    ensures GetString(m, "color") == e.color
  {
    assert Get(m, "label") == EdgeEntry(e, "label");
    assert Get(m, "fromSide") == EdgeEntry(e, "fromSide");
    assert Get(m, "toSide") == EdgeEntry(e, "toSide");
    assert Get(m, "fromEnd") == EdgeEntry(e, "fromEnd");
    assert Get(m, "toEnd") == EdgeEntry(e, "toEnd");
    assert Get(m, "color") == EdgeEntry(e, "color");
  }

  /** Reading a serialised node gives the node back. */
  lemma {:induction false} NodeRoundTrip(n: Node)
    ensures DecodeNode(JObject(NodeFields(n))) == Some(n)
  {
    NodeMap(n);
    forall k ensures Get(NodeDict(n), k) == NodeEntry(n, k) {
      NodeDictAt(n, k);
    }
    NodeFromEntries(n, NodeDict(n));
  }

  /** Reading a serialised edge gives the edge back. */
  lemma {:induction false} EdgeRoundTrip(e: Edge)
    ensures DecodeEdge(JObject(EdgeFields(e))) == Some(e)
  {
    EdgeMap(e);
    forall k ensures Get(EdgeDict(e), k) == EdgeEntry(e, k) {
      EdgeDictAt(e, k);
    }
    EdgeFromEntries(e, EdgeDict(e));
  }

  /** A node object starts with "id" then "type". */
  lemma NodeObjectHead(n: Node)
    ensures |NodeFields(n)| >= 2
    ensures NodeFields(n)[0] == ("id", JString(n.id))
    ensures NodeFields(n)[1] == ("type", JString(TypeName(n)))
  {
  }

  /** A reader finds each optional key in a node object exactly when the record sets that field. */
  lemma {:induction false} NodeOptionalKeys(n: Node)
    ensures "color" in ToMap(NodeFields(n)) <==> n.color.Some?
    ensures "subpath" in ToMap(NodeFields(n)) <==> n.File? && n.subpath.Some?
    ensures "label" in ToMap(NodeFields(n)) <==> n.Group? && n.labelText.Some?
    ensures "background" in ToMap(NodeFields(n)) <==> n.Group? && n.background.Some?
    ensures "backgroundStyle" in ToMap(NodeFields(n)) <==> n.Group? && n.backgroundStyle.Some?
  {
    NodeMap(n);
    forall k ensures Get(NodeDict(n), k) == NodeEntry(n, k) {
      NodeDictAt(n, k);
    }
    OptionalKeysFromEntries(n, NodeDict(n));
  }

  lemma OptionalKeysFromEntries(n: Node, m: map<string, Value>)
    requires forall k :: Get(m, k) == NodeEntry(n, k)
    ensures "color" in m <==> n.color.Some?
    ensures "subpath" in m <==> n.File? && n.subpath.Some?
    ensures "label" in m <==> n.Group? && n.labelText.Some?
    ensures "background" in m <==> n.Group? && n.background.Some?
    ensures "backgroundStyle" in m <==> n.Group? && n.backgroundStyle.Some?
  {
    assert Get(m, "color") == NodeEntry(n, "color");
    assert Get(m, "subpath") == NodeEntry(n, "subpath");
    assert Get(m, "label") == NodeEntry(n, "label");
    assert Get(m, "background") == NodeEntry(n, "background");
    assert Get(m, "backgroundStyle") == NodeEntry(n, "backgroundStyle");
  }

  /** An edge object starts with "id", "fromNode", "toNode". */
  lemma EdgeObjectHead(e: Edge)
    ensures |EdgeFields(e)| >= 3
    ensures EdgeFields(e)[..3] == [("id", JString(e.id)), ("fromNode", JString(e.fromNode)), ("toNode", JString(e.toNode))]
  {
  }

  /** A reader finds each optional key in an edge object exactly when the record sets that field. */
  lemma {:induction false} EdgeOptionalKeys(e: Edge)
    ensures "label" in ToMap(EdgeFields(e)) <==> e.labelText.Some?
    ensures "fromSide" in ToMap(EdgeFields(e)) <==> e.fromSide.Some?
    ensures "toSide" in ToMap(EdgeFields(e)) <==> e.toSide.Some?
    ensures "fromEnd" in ToMap(EdgeFields(e)) <==> e.fromEnd.Some?
    ensures "toEnd" in ToMap(EdgeFields(e)) <==> e.toEnd.Some?
    ensures "color" in ToMap(EdgeFields(e)) <==> e.color.Some?
  {
    EdgeMap(e);
    forall k ensures Get(EdgeDict(e), k) == EdgeEntry(e, k) {
      EdgeDictAt(e, k);
    }
    EdgeKeysFromEntries(e, EdgeDict(e));
  }

  lemma EdgeKeysFromEntries(e: Edge, m: map<string, Value>)
    requires forall k :: Get(m, k) == EdgeEntry(e, k)
    ensures "label" in m <==> e.labelText.Some?
    ensures "fromSide" in m <==> e.fromSide.Some?
    ensures "toSide" in m <==> e.toSide.Some?
    ensures "fromEnd" in m <==> e.fromEnd.Some?
    ensures "toEnd" in m <==> e.toEnd.Some?
    ensures "color" in m <==> e.color.Some?
  {
    assert Get(m, "label") == EdgeEntry(e, "label");
    assert Get(m, "fromSide") == EdgeEntry(e, "fromSide");
    assert Get(m, "toSide") == EdgeEntry(e, "toSide");
    assert Get(m, "fromEnd") == EdgeEntry(e, "fromEnd");
    assert Get(m, "toEnd") == EdgeEntry(e, "toEnd");
    assert Get(m, "color") == EdgeEntry(e, "color");
  }

  /** A JSON array written element by element, in order. */
  function EncodeAll<T>(xs: seq<T>, enc: T -> Value): (vs: seq<Value>)
    ensures |vs| == |xs|
    ensures forall i :: 0 <= i < |xs| ==> vs[i] == enc(xs[i])
  {
    if xs == [] then [] else [enc(xs[0])] + EncodeAll(xs[1..], enc)
  }

  /** A JSON array read element by element; one unreadable element fails the whole read. */
  function DecodeAll<T>(vs: seq<Value>, dec: Value -> Option<T>): Option<seq<T>> {
    if vs == [] then Some([])
    else
      var x :- dec(vs[0]);
      var rest :- DecodeAll(vs[1..], dec);
      Some([x] + rest)
  }

  /** Reading back an array written with an encoder the reader inverts gives the elements back. */
  lemma {:induction false} DecodeEncodeAll<T>(xs: seq<T>, enc: T -> Value, dec: Value -> Option<T>)
    requires forall x :: dec(enc(x)) == Some(x)
    ensures DecodeAll(EncodeAll(xs, enc), dec) == Some(xs)
    decreases |xs|
  {
    if xs != [] {
      var vs := EncodeAll(xs, enc);
      DecodeEncodeAll(xs[1..], enc, dec);
      assert vs[1..] == EncodeAll(xs[1..], enc);
      assert [xs[0]] + xs[1..] == xs;
    }
  }

  function NodeObject(n: Node): Value {
    JObject(NodeFields(n))
  }

  function EdgeObject(e: Edge): Value {
    JObject(EdgeFields(e))
  }

  /** The "nodes" array: one object per node, in stored order. */
  function NodesJson(ns: seq<Node>): (vs: seq<Value>)
    ensures |vs| == |ns|
    ensures forall i :: 0 <= i < |ns| ==> vs[i] == JObject(NodeFields(ns[i]))
  {
    EncodeAll(ns, NodeObject)
  }

  /** The "edges" array: one object per edge, in stored order. */
  function EdgesJson(es: seq<Edge>): (vs: seq<Value>)
    ensures |vs| == |es|
    ensures forall i :: 0 <= i < |es| ==> vs[i] == JObject(EdgeFields(es[i]))
  {
    EncodeAll(es, EdgeObject)
  }

  /** A top-level member that is written only when its array is non-empty. */
  function Section(key: string, vs: seq<Value>): seq<(string, Value)> {
    if vs == [] then [] else [(key, JArray(vs))]
  }

  /** The document: "nodes" when there are nodes, then "edges" when there are edges. */
  function CanvasJson(nodes: seq<Node>, edges: seq<Edge>): (v: Value)
    ensures v.JObject?
    ensures Keys(v.fields) == (if nodes == [] then [] else ["nodes"]) + (if edges == [] then [] else ["edges"])
    ensures nodes == [] && edges == [] ==> v == JObject([])
    ensures nodes != [] ==> v.fields[0] == ("nodes", JArray(NodesJson(nodes)))
    ensures edges != [] ==> v.fields[|v.fields| - 1] == ("edges", JArray(EdgesJson(edges)))
  {
    JObject(Section("nodes", NodesJson(nodes)) + Section("edges", EdgesJson(edges)))
  }

  function DecodeNodes(vs: seq<Value>): Option<seq<Node>> {
    DecodeAll(vs, DecodeNode)
  }

  function DecodeEdges(vs: seq<Value>): Option<seq<Edge>> {
    DecodeAll(vs, DecodeEdge)
  }

  /** Reads a document back; a missing "nodes" or "edges" member reads as empty. */
  function DecodeCanvas(v: Value): Option<(seq<Node>, seq<Edge>)> {
    if !v.JObject? then None
    else
      var m := ToMap(v.fields);
      var nodes :- match Get(m, "nodes")
                   case None => Some([])
                   case Some(JArray(vs)) => DecodeNodes(vs)
                   case Some(_) => None;
      var edges :- match Get(m, "edges")
                   case None => Some([])
                   case Some(JArray(vs)) => DecodeEdges(vs)
                   case Some(_) => None;
      Some((nodes, edges))
  }

  lemma NodesRoundTrip(ns: seq<Node>)
    ensures DecodeNodes(NodesJson(ns)) == Some(ns)
  {
    forall n ensures DecodeNode(NodeObject(n)) == Some(n) {
      NodeRoundTrip(n);
    }
    DecodeEncodeAll(ns, NodeObject, DecodeNode);
  }

  lemma EdgesRoundTrip(es: seq<Edge>)
    ensures DecodeEdges(EdgesJson(es)) == Some(es)
  {
    forall e ensures DecodeEdge(EdgeObject(e)) == Some(e) {
      EdgeRoundTrip(e);
    }
    DecodeEncodeAll(es, EdgeObject, DecodeEdge);
  }

  /** Reading a document built from two written arrays: each array decodes to its own
      sequence, and an array that is not written reads as empty. */
  lemma {:induction false} DecodeSections(ns: seq<Value>, es: seq<Value>, nodes: seq<Node>, edges: seq<Edge>)
    requires ns == [] <==> nodes == []
    requires es == [] <==> edges == []
    requires DecodeNodes(ns) == Some(nodes) && DecodeEdges(es) == Some(edges)
    ensures DecodeCanvas(JObject(Section("nodes", ns) + Section("edges", es))) == Some((nodes, edges))
  {
    var a := Section("nodes", ns);
    var b := Section("edges", es);
    ToMapAppend(a, b);
    if a != [] { ToMapSingle("nodes", JArray(ns)); }
    if b != [] { ToMapSingle("edges", JArray(es)); }
    var m := ToMap(a + b);
    assert Get(m, "nodes") == if ns == [] then None else Some(JArray(ns));
    assert Get(m, "edges") == if es == [] then None else Some(JArray(es));
  }

  /** Reading a serialised document gives back both sequences, in their stored order. */
  lemma {:induction false} CanvasRoundTrip(nodes: seq<Node>, edges: seq<Edge>)
    ensures DecodeCanvas(CanvasJson(nodes, edges)) == Some((nodes, edges))
  {
    NodesRoundTrip(nodes);
    EdgesRoundTrip(edges);
    DecodeSections(NodesJson(nodes), EdgesJson(edges), nodes, edges);
  }
}
