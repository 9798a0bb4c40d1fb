/** The graph as far as the codec sees it: vertex count, the edge list in
    edge-id order, and the attribute tables of igraph's C attribute handler,
    with the igraph operations the codec calls, stated on the graph's value
    and provided in place by the class `Graph`. */
module Graphs {
  import opened Tokens

  /** igraph's attribute type tags (igraph_attribute_type_t of igraph 0.10). */
  const NUMERIC: int := 1
  const STRING: int := 3

  /** An edge as igraph_edges reports it. */
  datatype Edge = Edge(from: nat, to: nat)

  /** The values of one attribute, one per vertex or per edge. Attributes of a
      type the codec does not handle (Boolean ones, say) keep only their tag
      and their length. */
  datatype Values =
    | Numeric(nums: seq<Double>)
    | Text(strs: seq<string>)
    | Other(tag: int, size: nat)

  function TypeTag(v: Values): int
  {
    match v
    case Numeric(_) => NUMERIC
    case Text(_) => STRING
    case Other(t, _) => t
  }

  function Length(v: Values): nat
  {
    match v
    case Numeric(ns) => |ns|
    case Text(ss) => |ss|
    case Other(_, n) => n
  }

  /** The values after `k` vertices (edges) are added: the old values are
      kept and the new ones get the handler's defaults, NaN and the empty
      string. */
  function Padded(v: Values, k: nat): (r: Values)
    ensures TypeTag(r) == TypeTag(v) && Length(r) == Length(v) + k
    ensures v.Numeric? ==> r.Numeric? && r.nums[..|v.nums|] == v.nums && forall j :: |v.nums| <= j < |r.nums| ==> r.nums[j] == NaN
    ensures v.Text? ==> r.Text? && r.strs[..|v.strs|] == v.strs && forall j :: |v.strs| <= j < |r.strs| ==> r.strs[j] == ""
  {
    match v
    case Numeric(ns) => Numeric(ns + seq(k, _ => NaN))
    case Text(ss) => Text(ss + seq(k, _ => ""))
    case Other(t, n) => Other(t, n + k)
  }

  datatype Attribute = Attribute(name: string, values: Values)

  /** Every attribute of a table padded by `k` values, in table order. */
  function PadAll(attrs: seq<Attribute>, k: nat): (r: seq<Attribute>)
    ensures |r| == |attrs|
    ensures forall i :: 0 <= i < |r| ==> r[i].name == attrs[i].name && r[i].values == Padded(attrs[i].values, k)
  {
    seq(|attrs|, i requires 0 <= i < |attrs| => Attribute(attrs[i].name, Padded(attrs[i].values, k)))
  }

  /** igraph_cattribute_list: the names, one per attribute, in the order of
      the attribute table. */
  function Names(attrs: seq<Attribute>): (r: seq<string>)
    ensures |r| == |attrs|
  {
    seq(|attrs|, i requires 0 <= i < |attrs| => attrs[i].name)
  }

  /** igraph_cattribute_list: the type tags, in parallel with the names. When
      the tags are honest, a tag is numeric (string) exactly when the
      attribute holds numbers (strings). */
  function Tags(attrs: seq<Attribute>): (r: seq<int>)
    ensures |r| == |attrs|
    ensures KnownTags(attrs) ==> forall i :: 0 <= i < |r| ==>
      (r[i] == NUMERIC <==> attrs[i].values.Numeric?) && (r[i] == STRING <==> attrs[i].values.Text?)
  {
    seq(|attrs|, i requires 0 <= i < |attrs| => TypeTag(attrs[i].values))
  }

  /** The lists of a non-empty table start with its first attribute. */
  lemma NamesTail(attrs: seq<Attribute>)
    requires attrs != []
    ensures Names(attrs)[0] == attrs[0].name && Names(attrs)[1..] == Names(attrs[1..])
    ensures Tags(attrs)[0] == TypeTag(attrs[0].values) && Tags(attrs)[1..] == Tags(attrs[1..])
  {
  }

  /** The attribute table's lookup by name: the first attribute so named. */
  function Find(attrs: seq<Attribute>, name: string): (r: Option<nat>)
    ensures r.Some? ==> r.value < |attrs| && attrs[r.value].name == name
  {
    if attrs == [] then None
    else if attrs[0].name == name then Some(0)
    else
      match Find(attrs[1..], name)
      case None => None
      case Some(k) => Some(k + 1)
  }

  /** The lookup finds the first attribute so named, and finds nothing
      exactly when no attribute has that name. */
  lemma {:induction false} FindSpec(attrs: seq<Attribute>, name: string)
    ensures Find(attrs, name).Some? ==> forall j :: 0 <= j < Find(attrs, name).value ==> attrs[j].name != name
    ensures Find(attrs, name).None? <==> forall j :: 0 <= j < |attrs| ==> attrs[j].name != name
    decreases |attrs|
  {
    if attrs != [] && attrs[0].name != name {
      FindSpec(attrs[1..], name);
      assert forall j :: 1 <= j < |attrs| ==> attrs[j] == attrs[1..][j - 1];
    }
  }

  /** The values stored under `name`, if any. */
  function Lookup(attrs: seq<Attribute>, name: string): Option<Values>
  {
    match Find(attrs, name)
    case None => None
    case Some(k) => Some(attrs[k].values)
  }

  /** igraph_cattribute_VANV / EANV: the numeric values stored under `name`;
      with unique names, those of the numeric attribute of that name. */
  function NumericValues(attrs: seq<Attribute>, name: string): (r: seq<Double>)
    ensures UniqueNames(attrs) ==> forall i :: 0 <= i < |attrs| && attrs[i].name == name && attrs[i].values.Numeric? ==>
      r == attrs[i].values.nums
  {
    FindAllUnique(attrs);
    match Lookup(attrs, name)
    case Some(Numeric(ns)) => ns
    case _ => []
  }

  /** igraph_cattribute_VASV / EASV: the string values stored under `name`;
      with unique names, those of the string attribute of that name. */
  function StringValues(attrs: seq<Attribute>, name: string): (r: seq<string>)
    ensures UniqueNames(attrs) ==> forall i :: 0 <= i < |attrs| && attrs[i].name == name && attrs[i].values.Text? ==>
      r == attrs[i].values.strs
  {
    FindAllUnique(attrs);
    match Lookup(attrs, name)
    case Some(Text(ss)) => ss
    case _ => []
  }

  datatype Scope = OfVertices | OfEdges

  datatype GraphState = GraphState(
    directed: bool,
    numVertices: nat,
    edges: seq<Edge>,           // in edge-id order
    graphAttrs: seq<string>,    // names of the whole-graph attributes
    vertexAttrs: seq<Attribute>,
    edgeAttrs: seq<Attribute>)
  {
    /** How many values each attribute of the scope holds. */
    function Count(scope: Scope): nat
    {
      if scope == OfVertices then numVertices else |edges|
    }

    function Attrs(scope: Scope): seq<Attribute>
    {
      if scope == OfVertices then vertexAttrs else edgeAttrs
    }

    function WithAttrs(scope: Scope, attrs: seq<Attribute>): GraphState
    {
      if scope == OfVertices then this.(vertexAttrs := attrs) else this.(edgeAttrs := attrs)
    }
  }

  /** igraph_empty: no vertices, no edges, no attributes. */
  function EmptyGraph(directed: bool): GraphState
  {
    GraphState(directed, 0, [], [], [], [])
  }

  predicate UniqueNames(attrs: seq<Attribute>)
  {
    forall i, j {:trigger attrs[i].name, attrs[j].name} :: 0 <= i < j < |attrs| ==> attrs[i].name != attrs[j].name
  }

  predicate Sized(attrs: seq<Attribute>, n: nat)
  {
    forall i :: 0 <= i < |attrs| ==> Length(attrs[i].values) == n
  }

  /** The tag of an unmodelled attribute type is not one of the two the codec handles. */
  predicate KnownTags(attrs: seq<Attribute>)
  {
    forall i :: 0 <= i < |attrs| ==> TypeTag(attrs[i].values) in {NUMERIC, STRING} ==> !attrs[i].values.Other?
  }

  /** igraph keeps names and string values as C strings: none holds a NUL. */
  predicate CValues(v: Values)
  {
    v.Text? ==> CStrings(v.strs)
  }

  predicate CAttrs(attrs: seq<Attribute>)
  {
    forall i :: 0 <= i < |attrs| ==> '\0' !in attrs[i].name && CValues(attrs[i].values)
  }

  /** The endpoint order igraph reports: an undirected edge smaller endpoint first. */
  function Oriented(directed: bool, a: nat, b: nat): Edge
  {
    if directed || a <= b then Edge(a, b) else Edge(b, a)
  }

  predicate Normal(directed: bool, e: Edge)
  {
    directed || e.from <= e.to
  }

  /** What an igraph graph with the C attribute handler always satisfies. */
  predicate WellFormed(g: GraphState)
  {
    && (forall e :: e in g.edges ==> e.from < g.numVertices && e.to < g.numVertices && Normal(g.directed, e))
    && UniqueNames(g.vertexAttrs) && Sized(g.vertexAttrs, g.numVertices) && KnownTags(g.vertexAttrs) && CAttrs(g.vertexAttrs)
    && UniqueNames(g.edgeAttrs) && Sized(g.edgeAttrs, |g.edges|) && KnownTags(g.edgeAttrs) && CAttrs(g.edgeAttrs)
  }

  /** igraph_edges over all edges in edge-id order: the endpoints flattened. */
  function Flatten(edges: seq<Edge>): (r: seq<int>)
    ensures |r| == 2 * |edges|
  {
    if edges == [] then [] else [edges[0].from, edges[0].to] + Flatten(edges[1..])
  }

  /** Entries `2 * i` and `2 * i + 1` are the endpoints of edge `i`. */
  lemma {:induction false} FlattenAt(edges: seq<Edge>, i: nat)
    requires i < |edges|
    ensures Flatten(edges)[2 * i] == edges[i].from && Flatten(edges)[2 * i + 1] == edges[i].to
    decreases i
  {
    if i > 0 {
      FlattenAt(edges[1..], i - 1);
    }
  }

  predicate ValidIds(flat: seq<int>, n: nat)
  {
    forall k :: 0 <= k < |flat| ==> 0 <= flat[k] < n
  }

  /** The edges a flat endpoint list stands for, pair by pair. */
  function Pairs(directed: bool, flat: seq<int>): (r: seq<Edge>)
    requires |flat| % 2 == 0 && forall k :: 0 <= k < |flat| ==> flat[k] >= 0
    ensures |r| == |flat| / 2
  {
    if flat == [] then [] else [Oriented(directed, flat[0], flat[1])] + Pairs(directed, flat[2..])
  }

  /** Edge `i` joins entries `2 * i` and `2 * i + 1`. */
  lemma {:induction false} PairsAt(directed: bool, flat: seq<int>, i: nat)
    requires |flat| % 2 == 0 && forall k :: 0 <= k < |flat| ==> flat[k] >= 0
    requires i < |flat| / 2
    ensures Pairs(directed, flat)[i] == Oriented(directed, flat[2 * i], flat[2 * i + 1])
    decreases i
  {
    if i > 0 {
      PairsAt(directed, flat[2..], i - 1);
      assert flat[2..][2 * (i - 1)] == flat[2 * i] && flat[2..][2 * (i - 1) + 1] == flat[2 * i + 1];
    }
  }

  /** igraph_add_vertices: `n` new vertices, the vertex attributes padded;
      the edges and their attributes are untouched, and every vertex
      attribute still holds one value per vertex. */
  function VerticesAdded(g: GraphState, n: nat): (r: GraphState)
    ensures r.numVertices == g.numVertices + n && r.edges == g.edges && r.edgeAttrs == g.edgeAttrs
    ensures r.directed == g.directed && r.graphAttrs == g.graphAttrs
    ensures Names(r.vertexAttrs) == Names(g.vertexAttrs)
    ensures Sized(g.vertexAttrs, g.numVertices) ==> Sized(r.vertexAttrs, r.numVertices)
  {
    g.(numVertices := g.numVertices + n, vertexAttrs := PadAll(g.vertexAttrs, n))
  }

  /** igraph_add_edges: refuses an odd-length list and unknown vertex ids. */
  function EdgesAdded(g: GraphState, flat: seq<int>): (r: Option<GraphState>)
    ensures r.Some? <==> |flat| % 2 == 0 && ValidIds(flat, g.numVertices)
  {
    if |flat| % 2 == 0 && ValidIds(flat, g.numVertices) then
      Some(g.(edges := g.edges + Pairs(g.directed, flat), edgeAttrs := PadAll(g.edgeAttrs, |flat| / 2)))
    else None
  }

  /** Adding edges keeps the vertices and the edges there were, and edge
      `|g.edges| + i` is the `i`-th pair of the list. */
  lemma EdgesAddedSpec(g: GraphState, flat: seq<int>, i: nat)
    requires EdgesAdded(g, flat).Some? && i < |flat| / 2
    ensures var h := EdgesAdded(g, flat).value;
      && h.numVertices == g.numVertices && h.vertexAttrs == g.vertexAttrs
      && |h.edges| == |g.edges| + |flat| / 2 && h.edges[..|g.edges|] == g.edges
      && h.edges[|g.edges| + i] == Oriented(g.directed, flat[2 * i], flat[2 * i + 1])
  {
    PairsAt(g.directed, flat, i);
    var h := EdgesAdded(g, flat).value;
    assert h.edges[|g.edges| + i] == Pairs(g.directed, flat)[i];
  }

  /** What setting the attribute `name` of every vertex (edge) at once does
      to an attribute table whose arrays hold `count` values: it refuses an
      array of the wrong length and a name already used by an attribute of
      another type, replaces the array of an attribute of that name, and
      otherwise appends a new attribute. */
  function TableSet(attrs: seq<Attribute>, count: nat, name: string, vals: Values): (r: Result<seq<Attribute>>)
    ensures Length(vals) != count ==> r == Err(InvalidAttributeLength)
    ensures r.Ok? ==> |attrs| <= |r.value| <= |attrs| + 1
  {
    if Length(vals) != count then Err(InvalidAttributeLength)
    else
      match Find(attrs, name)
      case Some(k) =>
        if TypeTag(attrs[k].values) != TypeTag(vals) then Err(AttributeTypeMismatch)
        else Ok(attrs[k := Attribute(name, vals)])
      case None => Ok(attrs + [Attribute(name, vals)])
  }

  /** Afterwards `name` reads `vals` and every other name reads what it read
      before; and the only refusals are the two above. */
  lemma TableSetSpec(attrs: seq<Attribute>, count: nat, name: string, vals: Values, other: string)
    ensures var r := TableSet(attrs, count, name, vals);
      r.Err? <==> Length(vals) != count || (Lookup(attrs, name).Some? && TypeTag(Lookup(attrs, name).value) != TypeTag(vals))
    ensures var r := TableSet(attrs, count, name, vals);
      r.Ok? ==> Lookup(r.value, name) == Some(vals) && (other != name ==> Lookup(r.value, other) == Lookup(attrs, other))
  {
    if Length(vals) == count {
      match Find(attrs, name)
      case Some(k) => LookupAfterUpdate(attrs, k, vals);
      case None => LookupAfterAppend(attrs, name, vals);
    }
  }

  /** igraph_cattribute_VAN_setv, VAS_setv, EAN_setv and EAS_setv: the table
      of `scope` set as above, the rest of the graph unchanged. */
  function AttributeSet(g: GraphState, scope: Scope, name: string, vals: Values): (r: Result<GraphState>)
    ensures r.Ok? ==> r.value.WithAttrs(scope, []) == g.WithAttrs(scope, [])
  {
    match TableSet(g.Attrs(scope), g.Count(scope), name, vals)
    case Err(e) => Err(e)
    case Ok(t) => Ok(g.WithAttrs(scope, t))
  }

  lemma LookupAfterUpdate(attrs: seq<Attribute>, k: nat, vals: Values)
    requires k < |attrs|
    requires Find(attrs, attrs[k].name) == Some(k)
    ensures Lookup(attrs[k := Attribute(attrs[k].name, vals)], attrs[k].name) == Some(vals)
    ensures forall n :: n != attrs[k].name ==>
      Lookup(attrs[k := Attribute(attrs[k].name, vals)], n) == Lookup(attrs, n)
  {
    var upd := attrs[k := Attribute(attrs[k].name, vals)];
    assert forall j :: 0 <= j < |attrs| ==> upd[j].name == attrs[j].name;
    forall n ensures Find(upd, n) == Find(attrs, n) {
      FindSameNames(upd, attrs, n);
    }
  }

  lemma LookupAfterAppend(attrs: seq<Attribute>, name: string, vals: Values)
    requires Find(attrs, name).None?
    ensures Lookup(attrs + [Attribute(name, vals)], name) == Some(vals)
    ensures forall n :: n != name ==> Lookup(attrs + [Attribute(name, vals)], n) == Lookup(attrs, n)
  {
    var app := attrs + [Attribute(name, vals)];
    assert app[|attrs|].name == name;
    FindSpec(attrs, name);
    FindSpec(app, name);
    forall n | n != name ensures Lookup(app, n) == Lookup(attrs, n) {
      FindSpec(attrs, n);
      FindSpec(app, n);
      if Find(attrs, n).None? {
        assert forall j :: 0 <= j < |app| ==> app[j].name != n;
      } else {
        var k := Find(attrs, n).value;
        assert app[k] == attrs[k];
        assert forall j :: 0 <= j < k ==> app[j] == attrs[j];
      }
    }
  }

  /** Lookup by name sees only the names. */
  lemma FindSameNames(a: seq<Attribute>, b: seq<Attribute>, n: string)
    requires |a| == |b| && forall j :: 0 <= j < |a| ==> a[j].name == b[j].name
    ensures Find(a, n) == Find(b, n)
  {
    if Find(a, n).Some? {
      assert b[Find(a, n).value].name == n;
    } else {
      assert forall j :: 0 <= j < |b| ==> (b[j].name != n) == (a[j].name != n);
    }
  }

  /** FindUnique for every index at once. */
  lemma FindAllUnique(attrs: seq<Attribute>)
    ensures UniqueNames(attrs) ==> forall i :: 0 <= i < |attrs| ==> Find(attrs, attrs[i].name) == Some(i)
  {
    if UniqueNames(attrs) {
      forall i | 0 <= i < |attrs|
        ensures Find(attrs, attrs[i].name) == Some(i)
      {
        FindUnique(attrs, i);
      }
    }
  }

  /** With unique names, the lookup of the `i`-th name finds the `i`-th attribute. */
  lemma {:induction false} FindUnique(attrs: seq<Attribute>, i: nat)
    requires UniqueNames(attrs) && i < |attrs|
    ensures Find(attrs, attrs[i].name) == Some(i)
    ensures Lookup(attrs, attrs[i].name) == Some(attrs[i].values)
  {
    FindSpec(attrs, attrs[i].name);
    assert Find(attrs, attrs[i].name).Some?;
  }

  /** An igraph graph with the C attribute handler. */
  class Graph {
    const directed: bool
    var numVertices: nat
    var edges: seq<Edge>
    var graphAttrs: seq<string>
    var vertexAttrs: seq<Attribute>
    var edgeAttrs: seq<Attribute>

    function State(): GraphState
      reads this
    {
      GraphState(directed, numVertices, edges, graphAttrs, vertexAttrs, edgeAttrs)
    }

    ghost predicate Valid()
      reads this
    {
      WellFormed(State())
    }

    /** igraph_empty. */
    constructor Empty(directed: bool)
      ensures State() == EmptyGraph(directed) && Valid()
    {
      this.directed := directed;
      numVertices, edges, graphAttrs, vertexAttrs, edgeAttrs := 0, [], [], [], [];
    }

    method Assign(s: GraphState)
      requires s.directed == directed
      modifies this
      ensures State() == s
    {
      numVertices, edges, graphAttrs, vertexAttrs, edgeAttrs := s.numVertices, s.edges, s.graphAttrs, s.vertexAttrs, s.edgeAttrs;
    }

    /** igraph_add_vertices. */
    method AddVertices(n: nat)
      requires Valid()
      modifies this
      ensures Valid() && State() == VerticesAdded(old(State()), n)
    {
      VerticesAddedWellFormed(State(), n);
      Assign(VerticesAdded(State(), n));
    }

    /** igraph_add_edges; on refusal the graph is unchanged. */
    method AddEdges(flat: seq<int>) returns (ok: bool)
      requires Valid()
      modifies this
      ensures Valid()
      ensures ok == EdgesAdded(old(State()), flat).Some?
      ensures State() == if ok then EdgesAdded(old(State()), flat).value else old(State())
    {
      var r := EdgesAdded(State(), flat);
      ok := r.Some?;
      if ok {
        EdgesAddedWellFormed(State(), flat);
        Assign(r.value);
      }
    }

    /** The *_setv functions; on refusal the graph is unchanged. */
    method SetAttribute(scope: Scope, name: string, vals: Values) returns (err: Option<Error>)
      requires Valid() && !vals.Other? && '\0' !in name && CValues(vals)
      modifies this
      ensures Valid()
      ensures var r := AttributeSet(old(State()), scope, name, vals);
        err == (if r.Ok? then None else Some(r.error)) && State() == if r.Ok? then r.value else old(State())
    {
      var r := AttributeSet(State(), scope, name, vals);
      if r.Ok? {
        AttributeSetWellFormed(State(), scope, name, vals);
        Assign(r.value);
        err := None;
      } else {
        err := Some(r.error);
      }
    }
  }

  /** Padding keeps names and tags and adds `k` to every length. */
  lemma PadAllKeeps(attrs: seq<Attribute>, n: nat, k: nat)
    requires UniqueNames(attrs) && Sized(attrs, n) && KnownTags(attrs) && CAttrs(attrs)
    ensures UniqueNames(PadAll(attrs, k)) && Sized(PadAll(attrs, k), n + k) && KnownTags(PadAll(attrs, k))
    ensures CAttrs(PadAll(attrs, k))
  {
    var p := PadAll(attrs, k);
    forall i | 0 <= i < |p|
      ensures CValues(p[i].values)
    {
      PaddedCValues(attrs[i].values, k);
    }
  }

  /** Padding with empty strings adds no NUL. */
  lemma PaddedCValues(v: Values, k: nat)
    requires CValues(v)
    ensures CValues(Padded(v, k))
  {
    if v.Text? {
      var r := Padded(v, k).strs;
      forall j | 0 <= j < |r|
        ensures '\0' !in r[j]
      {
        if j < |v.strs| {
          assert r[j] == r[..|v.strs|][j];
        }
      }
    }
  }

  lemma VerticesAddedWellFormed(g: GraphState, n: nat)
    requires WellFormed(g)
    ensures WellFormed(VerticesAdded(g, n))
  {
    PadAllKeeps(g.vertexAttrs, g.numVertices, n);
  }

  lemma EdgesAddedWellFormed(g: GraphState, flat: seq<int>)
    requires WellFormed(g) && EdgesAdded(g, flat).Some?
    ensures WellFormed(EdgesAdded(g, flat).value)
  {
    var h := EdgesAdded(g, flat).value;
    var ps := Pairs(g.directed, flat);
    assert h.edges == g.edges + ps;
    forall e | e in ps
      ensures e.from < g.numVertices && e.to < g.numVertices && Normal(g.directed, e)
    {
      var i :| 0 <= i < |ps| && ps[i] == e;
      PairsAt(g.directed, flat, i);
      assert 0 <= flat[2 * i] < g.numVertices && 0 <= flat[2 * i + 1] < g.numVertices;
    }
    PadAllKeeps(g.edgeAttrs, |g.edges|, |flat| / 2);
  }

  /** A table whose names are unique, whose arrays hold `count` values, whose
      tags are honest and whose strings are C strings. */
  predicate TableOk(attrs: seq<Attribute>, count: nat)
  {
    UniqueNames(attrs) && Sized(attrs, count) && KnownTags(attrs) && CAttrs(attrs)
  }

  /** Setting a numeric or string array keeps a table well formed. */
  lemma TableSetOk(attrs: seq<Attribute>, count: nat, name: string, vals: Values)
    requires TableOk(attrs, count) && !vals.Other? && '\0' !in name && CValues(vals)
    requires TableSet(attrs, count, name, vals).Ok?
    ensures TableOk(TableSet(attrs, count, name, vals).value, count)
  {
    var a := TableSet(attrs, count, name, vals).value;
    match Find(attrs, name)
    case Some(k) =>
      assert a == attrs[k := Attribute(name, vals)];
      assert forall j :: 0 <= j < |a| ==> a[j].name == attrs[j].name;
    case None =>
      assert a == attrs + [Attribute(name, vals)];
      FindSpec(attrs, name);
  }

  /** A graph is well formed exactly when its edges are and both tables are. */
  lemma WellFormedByTables(g: GraphState, scope: Scope, t: seq<Attribute>)
    requires WellFormed(g)
    ensures WellFormed(g.WithAttrs(scope, t)) <==> TableOk(t, g.Count(scope))
  {
  }

  /** Setting a numeric or string attribute keeps a graph well formed. */
  lemma AttributeSetWellFormed(g: GraphState, scope: Scope, name: string, vals: Values)
    requires WellFormed(g) && !vals.Other? && '\0' !in name && CValues(vals)
    requires AttributeSet(g, scope, name, vals).Ok?
    ensures WellFormed(AttributeSet(g, scope, name, vals).value)
  {
    TableSetOk(g.Attrs(scope), g.Count(scope), name, vals);
    WellFormedByTables(g, scope, TableSet(g.Attrs(scope), g.Count(scope), name, vals).value);
  }
}
