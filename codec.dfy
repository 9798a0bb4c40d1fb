/** The save and load functions for a whole igraph graph: what a save writes,
    field by field, what a load reads and does to the destination graph, and
    the two as methods over an archive and a graph object. */
module Codec {
  import opened Tokens
  import opened Vectors
  import opened Archives
  import opened Graphs

  /** What a save appended to the archive, and the error it raised, if any. */
  datatype Written = Written(tokens: seq<Token>, failure: Option<Error>)

  /** `num_vertices`, `num_edges` and `edges`: the counts, then the endpoints
      of all edges in edge-id order, two per edge. */
  function SaveHeader(g: GraphState): (r: seq<Token>)
    ensures |r| == 3 + 2 * |g.edges|
    ensures r[0] == Int(g.numVertices) && r[1] == Int(|g.edges|) && r[2] == SizeTag(2 * |g.edges|)
  {
    [IntTok(g.numVertices), IntTok(|g.edges|)] + EncodeVector(Flatten(g.edges), IntTok)
  }

  /** The switch on the type tag: the value array of one attribute, or nothing
      for a type the codec does not support. */
  function SaveArray(v: Values): (r: Option<seq<Token>>)
    ensures r.Some? <==> !v.Other?
    ensures r.Some? ==> |r.value| == Length(v) + 1 && r.value[0] == SizeTag(Length(v))
  {
    match v
    case Numeric(ns) => Some(EncodeVector(ns, NumTok))
    case Text(ss) => Some(EncodeVector(ss, StrTok))
    case Other(_, _) => None
  }

  /** The value arrays of `attrs` in table order, stopping at the first
      attribute of an unsupported type. */
  function SaveValues(attrs: seq<Attribute>): (r: Written)
    ensures r.failure.None? || r.failure.value.UnsupportedAttributeType?
    ensures r.failure.None? ==> |r.tokens| >= |attrs|
    decreases |attrs|
  {
    if attrs == [] then Written([], None)
    else
      match SaveArray(attrs[0].values)
      case None => Written([], Some(UnsupportedAttributeType(TypeTag(attrs[0].values))))
      case Some(ts) =>
        var rest := SaveValues(attrs[1..]);
        Written(ts + rest.tokens, rest.failure)
  }

  /** One attribute table: the names, the type tags, then the value arrays.
      Its stream opens with the size tag of the name list and, after the names,
      that of the type list; only a value array can make it fail. */
  function SaveAttributes(attrs: seq<Attribute>): (r: Written)
    ensures r.failure.None? || r.failure.value.UnsupportedAttributeType?
  {
    var vals := SaveValues(attrs);
    Written(EncodeVector(Names(attrs), StrTok) + EncodeVector(Tags(attrs), IntTok) + vals.tokens, vals.failure)
  }

  /** The save function for a graph. Its stream always starts with the
      header; graph attributes make it fail, and otherwise only an attribute of
      an unsupported type does. */
  function Save(g: GraphState): (r: Written)
    ensures |SaveHeader(g)| <= |r.tokens|
    ensures |g.graphAttrs| != 0 ==> r == Written(SaveHeader(g), Some(GraphAttributesUnsupported))
    ensures |g.graphAttrs| == 0 ==> r.failure.None? || r.failure.value.UnsupportedAttributeType?
  {
    var header := SaveHeader(g);
    if |g.graphAttrs| != 0 then Written(header, Some(GraphAttributesUnsupported))
    else
      var v := SaveAttributes(g.vertexAttrs);
      if v.failure.Some? then Written(header + v.tokens, v.failure)
      else
        var e := SaveAttributes(g.edgeAttrs);
        Written(header + v.tokens + e.tokens, e.failure)
  }

  /** Where a load got to: the destination graph, the cursor, and the error
      it raised, if any. */
  datatype Loaded = Loaded(graph: GraphState, pos: nat, failure: Option<Error>)

  /** The switch on the tag read back, which the loader first narrows to an
      `int`: the value array of one attribute. */
  function LoadArray(ts: seq<Token>, pos: nat, tag: int): (r: Result<(Values, nat)>)
    ensures r.Ok? ==> !r.value.0.Other? && TypeTag(r.value.0) == Int32(tag) && CValues(r.value.0)
    ensures r.Ok? ==> r.value.1 == pos + 1 + Length(r.value.0)
    ensures r.Err? ==> r.error == MalformedArchive || r.error == UnsupportedAttributeType(Int32(tag))
  {
    CStringsDecoded(ts, pos);
    var t := Int32(tag);
    if t == NUMERIC then
      match DecodeVector(ts, pos, AsNum)
      case None => Err(MalformedArchive)
      case Some((ns, p)) => Ok((Numeric(ns), p))
    else if t == STRING then
      match DecodeVector(ts, pos, AsCStr)
      case None => Err(MalformedArchive)
      case Some((ss, p)) => Ok((Text(ss), p))
    else Err(UnsupportedAttributeType(t))
  }

  /** Where the loop over the type list leaves the attribute table it fills:
      the table, the position after the last array read, and the error that
      stopped it, if any. */
  datatype Filled = Filled(table: seq<Attribute>, pos: nat, failure: Option<Error>)

  /** The loop over the type list: read each value array and set it in the
      table `t`, whose arrays hold `count` values, under the name at the same
      index; here `names` and `tags` are what is left of the two lists. */
  function LoadEach(ts: seq<Token>, pos: nat, t: seq<Attribute>, count: nat,
                    names: seq<string>, tags: seq<int>): (r: Filled)
    ensures pos <= r.pos
    decreases |tags|
  {
    if tags == [] then Filled(t, pos, None)
    else if names == [] then Filled(t, pos, Some(MissingAttributeName))
    else
      match LoadArray(ts, pos, tags[0])
      case Err(e) => Filled(t, pos, Some(e))
      case Ok((vals, p)) =>
        match TableSet(t, count, names[0], vals)
        case Err(e) => Filled(t, p, Some(e))
        case Ok(u) => LoadEach(ts, p, u, count, names[1..], tags[1..])
  }

  /** One attribute table read back into `g`: the names, the type tags, the
      arrays. */
  function LoadAttributes(ts: seq<Token>, pos: nat, g: GraphState, scope: Scope): (r: Loaded)
    ensures pos <= r.pos
    ensures r.graph.WithAttrs(scope, []) == g.WithAttrs(scope, [])
  {
    match DecodeVector(ts, pos, AsCStr)
    case None => Loaded(g, pos, Some(MalformedArchive))
    case Some((names, p)) =>
      match DecodeVector(ts, p, AsInt)
      case None => Loaded(g, p, Some(MalformedArchive))
      case Some((tags, q)) =>
        var f := LoadEach(ts, q, g.Attrs(scope), g.Count(scope), names, tags);
        Loaded(g.WithAttrs(scope, f.table), f.pos, f.failure)
  }

  /** The vertex table, then, unless it failed, the edge table. */
  function LoadTables(ts: seq<Token>, pos: nat, g: GraphState): (r: Loaded)
    ensures pos <= r.pos
    ensures r.graph.numVertices == g.numVertices && r.graph.edges == g.edges
  {
    var v := LoadAttributes(ts, pos, g, OfVertices);
    if v.failure.Some? then v else LoadAttributes(ts, v.pos, v.graph, OfEdges)
  }

  /** The load function for a graph, into the destination graph `g`. The
      graph keeps its kind and its graph attributes; a load that succeeds added
      the stored vertex count and kept the edges there were. */
  function Load(ts: seq<Token>, pos: nat, g: GraphState): (r: Loaded)
    ensures pos <= r.pos
    ensures r.graph.directed == g.directed && r.graph.graphAttrs == g.graphAttrs
    ensures r.failure.None? ==> pos < |ts| && ts[pos].Int? && r.graph.numVertices == g.numVertices + ts[pos].i
    ensures r.failure.None? ==> |g.edges| <= |r.graph.edges| && r.graph.edges[..|g.edges|] == g.edges
  {
    match ReadToken(ts, pos, AsCount)
    case None => Loaded(g, pos, Some(MalformedArchive))
    case Some((nv, p1)) =>
      match ReadToken(ts, p1, AsCount)
      case None => Loaded(g, p1, Some(MalformedArchive))
      case Some((_, p2)) =>
        match DecodeVector(ts, p2, AsInt)
        case None => Loaded(g, p2, Some(MalformedArchive))
        case Some((flat, p3)) =>
          var g1 := VerticesAdded(g, nv);
          match EdgesAdded(g1, flat)
          case None => Loaded(g1, p3, Some(InvalidEdgeList))
          case Some(g2) => LoadTables(ts, p3, g2)
  }

  /** A method ended where the load function says: same graph, same error,
      and on success the same cursor. */
  predicate Reached(l: Loaded, g: GraphState, pos: nat, err: Option<Error>)
  {
    g == l.graph && err == l.failure && (err.None? ==> pos == l.pos)
  }

  /** The value arrays from index `i` on, as the save loop sees them: the
      array fetched by name for the tag at `i`, or the error for that tag. */
  lemma SaveValuesStep(attrs: seq<Attribute>, i: nat)
    requires UniqueNames(attrs) && KnownTags(attrs) && i < |attrs|
    ensures var rest, name, tag := SaveValues(attrs[i + 1..]), attrs[i].name, Tags(attrs)[i];
      SaveValues(attrs[i..]) ==
        if tag == NUMERIC then Written(EncodeVector(NumericValues(attrs, name), NumTok) + rest.tokens, rest.failure)
        else if tag == STRING then Written(EncodeVector(StringValues(attrs, name), StrTok) + rest.tokens, rest.failure)
        else Written([], Some(UnsupportedAttributeType(tag)))
  {
    assert attrs[i..][0] == attrs[i] && attrs[i..][1..] == attrs[i + 1..];
    FindUnique(attrs, i);
  }

  /** Saves the value array of the attribute at index `i` of `attrs`, fetched
      by its name, or refuses its type: one turn of the save loop. */
  method SaveAttributeValues(ar: Archive, attrs: seq<Attribute>, i: nat) returns (err: Option<Error>)
    requires UniqueNames(attrs) && KnownTags(attrs) && i < |attrs|
    modifies ar`tokens
    ensures var s, rest := SaveValues(attrs[i..]), SaveValues(attrs[i + 1..]);
      if err.None? then old(ar.tokens) + s.tokens == ar.tokens + rest.tokens && s.failure == rest.failure
      else ar.tokens == old(ar.tokens) && s == Written([], err)
  {
    SaveValuesStep(attrs, i);
    var name, tag := attrs[i].name, Tags(attrs)[i];
    if tag == NUMERIC {
      ar.SaveNumVector(NumericValues(attrs, name));
    } else if tag == STRING {
      ar.SaveStrVector(StringValues(attrs, name));
    } else {
      return Some(UnsupportedAttributeType(tag));
    }
    ghost var e, rest := ar.tokens[|old(ar.tokens)|..], SaveValues(attrs[i + 1..]).tokens;
    assert ar.tokens == old(ar.tokens) + e;
    SeqAssoc(old(ar.tokens), e, rest);
    return None;
  }

  lemma SeqAssoc<T>(a: seq<T>, b: seq<T>, c: seq<T>)
    ensures a + (b + c) == (a + b) + c
  {
  }

  /** The save loop over the tags of one table: the value array of each
      attribute in table order, stopping at the first tag it refuses. */
  method SaveTableValues(ar: Archive, attrs: seq<Attribute>) returns (err: Option<Error>)
    requires UniqueNames(attrs) && KnownTags(attrs)
    modifies ar`tokens
    ensures var w := SaveValues(attrs); ar.tokens == old(ar.tokens) + w.tokens && err == w.failure
  {
    ghost var all := SaveValues(attrs);
    assert attrs[0..] == attrs;
    var i := 0;
    while i < |attrs|
      invariant 0 <= i <= |attrs|
      invariant old(ar.tokens) + all.tokens == ar.tokens + SaveValues(attrs[i..]).tokens
      invariant all.failure == SaveValues(attrs[i..]).failure
    {
      err := SaveAttributeValues(ar, attrs, i);
      if err.Some? {
        assert ar.tokens + [] == old(ar.tokens) + all.tokens;
        return;
      }
      i := i + 1;
    }
    assert attrs[i..] == [];
    assert ar.tokens + [] == old(ar.tokens) + all.tokens;
    return None;
  }

  /** Saves one attribute table of `g`: the names, the type tags, then the
      value array of each attribute fetched by its name. */
  method SaveAttributeTable(ar: Archive, g: Graph, scope: Scope) returns (err: Option<Error>)
    requires g.Valid()
    modifies ar`tokens
    ensures var w := SaveAttributes(g.State().Attrs(scope));
      ar.tokens == old(ar.tokens) + w.tokens && err == w.failure
  {
    var attrs := g.State().Attrs(scope);
    assert UniqueNames(attrs) && KnownTags(attrs);
    ar.SaveStrVector(Names(attrs));
    ar.SaveIntVector(Tags(attrs));
    ghost var n, t := EncodeVector(Names(attrs), StrTok), EncodeVector(Tags(attrs), IntTok);
    err := SaveTableValues(ar, attrs);
    SeqAssoc(old(ar.tokens), n, t);
    SeqAssoc(old(ar.tokens), n + t, SaveValues(attrs).tokens);
  }

  /** Saves the graph `g`: the header, then (when the graph has no graph
      attributes) the vertex table and the edge table. */
  method SaveGraph(ar: Archive, g: Graph) returns (err: Option<Error>)
    requires g.Valid()
    modifies ar`tokens
    ensures var w := Save(g.State()); ar.tokens == old(ar.tokens) + w.tokens && err == w.failure
  {
    ghost var s := g.State();
    ghost var header := SaveHeader(s);
    ar.Write(IntTok(g.numVertices));
    ar.Write(IntTok(|g.edges|));
    var allEdges := Flatten(g.edges);
    ar.SaveIntVector(allEdges);
    SeqAssoc(old(ar.tokens), [IntTok(s.numVertices), IntTok(|s.edges|)], EncodeVector(allEdges, IntTok));
    ghost var top := ar.tokens;
    assert top == old(ar.tokens) + header;
    if |g.graphAttrs| != 0 {
      return Some(GraphAttributesUnsupported);
    }
    err := SaveAttributeTable(ar, g, OfVertices);
    ghost var v := SaveAttributes(s.vertexAttrs);
    SeqAssoc(old(ar.tokens), header, v.tokens);
    if err.Some? {
      return;
    }
    err := SaveAttributeTable(ar, g, OfEdges);
    SeqAssoc(old(ar.tokens), header + v.tokens, SaveAttributes(s.edgeAttrs).tokens);
  }

  /** Reads one value array for the type tag `tag` (the body of the switch of
      the load loop); `initSize` is the size its vector is created with before
      the load resizes it. */
  method LoadAttributeValues(ar: Archive, tag: int, initSize: nat) returns (r: Result<Values>)
    modifies ar`pos
    ensures r.Ok? ==> !r.value.Other? && LoadArray(ar.tokens, old(ar.pos), tag) == Ok((r.value, ar.pos))
    ensures r.Err? ==> LoadArray(ar.tokens, old(ar.pos), tag) == Err(r.error)
  {
    var attributeType := Int32(tag);
    if attributeType == NUMERIC {
      var results := new Vector<Double>(initSize, Double(0));
      var ok := ar.LoadNumVector(results);
      if !ok {
        return Err(MalformedArchive);
      }
      return Ok(Numeric(results.elems));
    } else if attributeType == STRING {
      var strresults := new Vector<string>(initSize, "");
      var ok := ar.LoadStrVector(strresults);
      if !ok {
        return Err(MalformedArchive);
      }
      return Ok(Text(strresults.elems));
    } else {
      return Err(UnsupportedAttributeType(attributeType));
    }
  }

  /** One turn of the load loop: the value array for the first type left,
      set on `g` under the first name left. Only the table of `scope`
      changes; when the turn succeeds, the rest of the load is the loop over
      the lists after them. */
  method LoadAttributeStep(ar: Archive, g: Graph, scope: Scope, names: seq<string>, types: seq<int>,
                           initSize: nat) returns (err: Option<Error>)
    requires g.Valid() && types != [] && CStrings(names)
    modifies ar`pos, g
    ensures g.Valid()
    ensures g.State() == old(g.State()).WithAttrs(scope, g.State().Attrs(scope))
    ensures var l := LoadEach(ar.tokens, old(ar.pos), old(g.State().Attrs(scope)), old(g.State().Count(scope)), names, types);
      if err.None? then names != [] && l == LoadEach(ar.tokens, ar.pos, g.State().Attrs(scope), old(g.State().Count(scope)), names[1..], types[1..])
      else l.table == g.State().Attrs(scope) && l.failure == err
  {
    if names == [] {
      return Some(MissingAttributeName);
    }
    var vals := LoadAttributeValues(ar, types[0], initSize);
    if vals.Err? {
      return Some(vals.error);
    }
    err := g.SetAttribute(scope, names[0], vals.value);
  }

  /** Loads one attribute table into `g`: the names, the type tags, then one
      value array per tag, each set on the graph under the name at its index. */
  method LoadAttributeTable(ar: Archive, g: Graph, scope: Scope, initSize: nat) returns (err: Option<Error>)
    requires g.Valid()
    modifies ar`pos, g
    ensures g.Valid()
    ensures Reached(LoadAttributes(ar.tokens, old(ar.pos), old(g.State()), scope), g.State(), ar.pos, err)
  {
    var names := new Vector<string>(1, "");
    var ok := ar.LoadStrVector(names);
    if !ok {
      return Some(MalformedArchive);
    }
    CStringsDecoded(ar.tokens, old(ar.pos));
    ghost var p1 := ar.pos;
    var types := new Vector<int>(1, 0);
    ok := ar.LoadIntVector(types);
    if !ok {
      return Some(MalformedArchive);
    }
    var nameList, typeList := names.elems, types.elems;
    ghost var g0 := g.State();
    ghost var target := LoadEach(ar.tokens, ar.pos, g0.Attrs(scope), g0.Count(scope), nameList, typeList);
    LoadAttributesRead(ar.tokens, old(ar.pos), g0, scope, nameList, p1, typeList, ar.pos);
    // The loop index `i` of the C++ is implicit: the rests are the two lists
    // from index `i` on.
    var restNames, restTypes := nameList, typeList;
    while restTypes != []
      invariant CStrings(restNames)
      invariant g.Valid()
      invariant g.State() == g0.WithAttrs(scope, g.State().Attrs(scope))
      invariant target == LoadEach(ar.tokens, ar.pos, g.State().Attrs(scope), g0.Count(scope), restNames, restTypes)
      decreases |restTypes|
    {
      err := LoadAttributeStep(ar, g, scope, restNames, restTypes, initSize);
      if err.Some? {
        return;
      }
      restNames, restTypes := restNames[1..], restTypes[1..];
    }
    err := None;
  }

  /** Once the name and type lists are read, loading a table is the loop
      over them. */
  lemma LoadAttributesRead(ts: seq<Token>, pos: nat, g: GraphState, scope: Scope,
                           names: seq<string>, p: nat, tags: seq<int>, q: nat)
    requires DecodeVector(ts, pos, AsCStr) == Some((names, p)) && DecodeVector(ts, p, AsInt) == Some((tags, q))
    ensures var f := LoadEach(ts, q, g.Attrs(scope), g.Count(scope), names, tags);
      LoadAttributes(ts, pos, g, scope) == Loaded(g.WithAttrs(scope, f.table), f.pos, f.failure)
  {
  }

  method LoadGraph(ar: Archive, g: Graph) returns (err: Option<Error>)
    requires g.Valid()
    modifies ar`pos, g
    ensures g.Valid()
    ensures Reached(Load(ar.tokens, old(ar.pos), old(g.State())), g.State(), ar.pos, err)
  {
    var numVertices := ar.Read(AsCount);
    if numVertices.None? {
      return Some(MalformedArchive);
    }
    var numEdges := ar.Read(AsCount);
    if numEdges.None? {
      return Some(MalformedArchive);
    }
    var allEdges := new Vector<int>(numEdges.value, 0);
    var ok := ar.LoadIntVector(allEdges);
    if !ok {
      return Some(MalformedArchive);
    }
    g.AddVertices(numVertices.value);
    ok := g.AddEdges(allEdges.elems);
    if !ok {
      return Some(InvalidEdgeList);
    }
    err := LoadAttributeTable(ar, g, OfVertices, numVertices.value);
    if err.Some? {
      return;
    }
    err := LoadAttributeTable(ar, g, OfEdges, 1);
  }
}
