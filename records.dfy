/** The records a canvas holds: the four node variants, the edge, and the rules by
    which a builder call turns its arguments into a record (which optional keys are
    kept, how identifiers and file subpaths are chosen). */
module Records {
  import opened Wrappers

  /** A Python `Optional[str]` argument is used only when it is truthy: present and non-empty. */
  predicate Truthy(o: Option<string>) {
    o.Some? && o.value != ""
  }

  /** A stored optional value is never the empty string. */
  predicate NonEmptyOpt(o: Option<string>) {
    o.Some? ==> o.value != ""
  }

  /** The optional field an `if value: node[key] = value` statement produces. */
  function Keep(o: Option<string>): (r: Option<string>)
    ensures r.Some? <==> Truthy(o)
    ensures NonEmptyOpt(r)
    ensures r.Some? ==> r == o
  {
    if Truthy(o) then o else None
  }

  predicate IsHexDigit(c: char) {
    '0' <= c <= '9' || 'a' <= c <= 'f'
  }

  /** What the identifier generator returns: 8 random bytes as 16 lower-case hex digits. */
  predicate IsGeneratedId(s: string) {
    |s| == 16 && forall i :: 0 <= i < |s| ==> IsHexDigit(s[i])
  }

  /** `node_id or _generate_id()`: the caller's identifier when truthy, the generated one otherwise. */
  function ChooseId(requested: Option<string>, generated: string): (id: string)
    ensures Truthy(requested) ==> id == requested.value
    ensures !Truthy(requested) ==> id == generated
    ensures IsGeneratedId(generated) ==> id != ""
  {
    if Truthy(requested) then requested.value else generated
  }

  predicate StartsWithHash(s: string) {
    |s| > 0 && s[0] == '#'
  }

  /** A file subpath is an anchor: a `#` is put in front unless one is already there. */
  function NormalizeSubpath(s: string): (r: string)
    ensures StartsWithHash(r)
    ensures StartsWithHash(s) <==> r == s
    ensures !StartsWithHash(s) ==> r[1..] == s
  {
    if StartsWithHash(s) then s else "#" + s
  }

  /** The subpath field of a file node: only a truthy subpath is stored, normalised. */
  function StoredSubpath(subpath: Option<string>): (r: Option<string>)
    ensures r.Some? <==> Truthy(subpath)
    ensures r.Some? ==> StartsWithHash(r.value) && r.value == NormalizeSubpath(subpath.value)
  {
    if Truthy(subpath) then Some(NormalizeSubpath(subpath.value)) else None
  }

  /** `backgroundStyle` is kept only inside the `if background:` branch. */
  function StoredBackgroundStyle(background: Option<string>, style: Option<string>): (r: Option<string>)
    ensures r.Some? <==> Truthy(background) && Truthy(style)
    ensures r.Some? ==> r == style
  {
    if Truthy(background) then Keep(style) else None
  }

  /** An end marker is stored only when it differs from that end's default. */
  function EndMarker(value: string, default: string): (r: Option<string>)
    ensures r.Some? <==> value != default
    ensures r.Some? ==> r.value == value
  {
    if value != default then Some(value) else None
  }

  const NoMarker := "none"
  const ArrowMarker := "arrow"

  datatype Node =
    | Text(id: string, text: string, x: int, y: int, width: int, height: int,
           color: Option<string>)
    | File(id: string, file: string, x: int, y: int, width: int, height: int,
           color: Option<string>, subpath: Option<string>)
    | Link(id: string, url: string, x: int, y: int, width: int, height: int,
           color: Option<string>)
    | Group(id: string, x: int, y: int, width: int, height: int,
            labelText: Option<string>, color: Option<string>,
            background: Option<string>, backgroundStyle: Option<string>)

  datatype Edge = Edge(id: string, fromNode: string, toNode: string,
                       labelText: Option<string>, fromSide: Option<string>, toSide: Option<string>,
                       fromEnd: Option<string>, toEnd: Option<string>, color: Option<string>)

  /** What every node a builder stores satisfies. */
  predicate WellFormedNode(n: Node) {
    && n.id != ""
    && NonEmptyOpt(n.color)
    && (n.File? ==> NonEmptyOpt(n.subpath) && (n.subpath.Some? ==> StartsWithHash(n.subpath.value)))
    && (n.Group? ==>
          && NonEmptyOpt(n.labelText) && NonEmptyOpt(n.background) && NonEmptyOpt(n.backgroundStyle)
          && (n.backgroundStyle.Some? ==> n.background.Some?))
  }

  /** What every edge a builder stores satisfies. */
  predicate WellFormedEdge(e: Edge) {
    && e.id != ""
    && NonEmptyOpt(e.labelText) && NonEmptyOpt(e.fromSide) && NonEmptyOpt(e.toSide) && NonEmptyOpt(e.color)
    && (e.fromEnd.Some? ==> e.fromEnd.value != NoMarker)
    && (e.toEnd.Some? ==> e.toEnd.value != ArrowMarker)
  }

  /** The edge `add_edge(from, to)` builds when every optional argument keeps its default. */
  function PlainEdge(id: string, from: string, to: string): (e: Edge)
    ensures e.id == id && e.fromNode == from && e.toNode == to
    ensures e.labelText.None? && e.fromSide.None? && e.toSide.None? && e.color.None?
    ensures e.fromEnd.None? && e.toEnd.None?
  {
    Edge(id, from, to, None, None, None, EndMarker(NoMarker, NoMarker), EndMarker(ArrowMarker, ArrowMarker), None)
  }

  // Default sizes of the node constructors.
  const TextWidth := 250
  const TextHeight := 200
  const FileWidth := 400
  const FileHeight := 300
  const LinkWidth := 300
  const LinkHeight := 150

  /** The node types a layout accepts. */
  datatype ItemKind = TextKind | FileKind | LinkKind

  function KindName(k: ItemKind): string {
    match k
    case TextKind => "text"
    case FileKind => "file"
    case LinkKind => "link"
  }

  /** The `node_type` dispatch of the layouts: one of three tags, anything else unknown. */
  function ParseNodeType(t: string): (r: Option<ItemKind>)
    ensures r.Some? ==> KindName(r.value) == t
    ensures r.None? ==> forall k: ItemKind :: KindName(k) != t
  {
    if t == "text" then Some(TextKind)
    else if t == "file" then Some(FileKind)
    else if t == "link" then Some(LinkKind)
    else None
  }

  /** Parsing a kind's own tag gives that kind back. */
  lemma ParseKindName(k: ItemKind)
    ensures ParseNodeType(KindName(k)) == Some(k)
  {
  }

  /** The node a layout adds for one item: the constructor of its kind with default
      size and no color. */
  function ItemNode(kind: ItemKind, id: string, item: string, x: int, y: int): (n: Node)
    ensures n.id == id && n.x == x && n.y == y && n.color.None?
    ensures kind == TextKind ==> n.Text? && n.text == item && n.width == TextWidth && n.height == TextHeight
    ensures kind == FileKind ==> n.File? && n.file == item && n.subpath.None? && n.width == FileWidth && n.height == FileHeight
    ensures kind == LinkKind ==> n.Link? && n.url == item && n.width == LinkWidth && n.height == LinkHeight
  {
    match kind
    case TextKind => Text(id, item, x, y, TextWidth, TextHeight, None)
    case FileKind => File(id, item, x, y, FileWidth, FileHeight, None, None)
    case LinkKind => Link(id, item, x, y, LinkWidth, LinkHeight, None)
  }

  /** Normalising a stored subpath again changes nothing. */
  lemma NormalizeSubpathIdempotent(s: string)
    ensures NormalizeSubpath(NormalizeSubpath(s)) == NormalizeSubpath(s)
  {
  }
}
