/** What the graph codec promises: when a save fails and what it has written
    by then, when a load fails, that a load keeps the graph well formed, and
    that loading what a save wrote gives back the graph. */
module CodecProperties {
  import opened Tokens
  import opened Vectors
  import opened Archives
  import opened Graphs
  import opened Codec

  /** Every attribute has one of the two types the codec handles. */
  predicate Supported(attrs: seq<Attribute>)
  {
    forall i :: 0 <= i < |attrs| ==> !attrs[i].values.Other?
  }

  // ---------------------------------------------------------------------
  // Save: when it fails, and what it has written by then

  /** Saving the value arrays fails exactly when some attribute has a type
      other than numeric or string. */
  lemma {:induction false} SaveValuesSucceedsIff(attrs: seq<Attribute>)
    ensures SaveValues(attrs).failure.None? <==> Supported(attrs)
    decreases |attrs|
  {
    if attrs != [] {
      SaveValuesSucceedsIff(attrs[1..]);
      assert forall i :: 1 <= i < |attrs| ==> attrs[1..][i - 1] == attrs[i];
    }
  }

  /** At the first attribute `k` of an unsupported type, saving the value
      arrays stops with that attribute's tag, having written the arrays of
      the attributes before it and nothing of attribute `k`. */
  lemma {:induction false} SaveValuesStopsAt(attrs: seq<Attribute>, k: nat)
    requires k < |attrs| && attrs[k].values.Other? && Supported(attrs[..k])
    ensures SaveValues(attrs[..k]).failure.None?
    ensures SaveValues(attrs) == Written(SaveValues(attrs[..k]).tokens, Some(UnsupportedAttributeType(attrs[k].values.tag)))
    decreases k
  {
    if k == 0 {
      assert attrs[..0] == [];
    } else {
      assert attrs[..k][0] == attrs[0] && attrs[..k][1..] == attrs[1..][..k - 1];
      var tail := attrs[1..][..k - 1];
      forall i | 0 <= i < |tail|
        ensures !tail[i].values.Other?
      {
        assert tail[i] == attrs[..k][i + 1];
      }
      SaveValuesStopsAt(attrs[1..], k - 1);
    }
  }

  /** A save succeeds exactly when the graph has no graph attributes and every
      vertex and edge attribute is numeric or string. */
  lemma SaveSucceedsIff(g: GraphState)
    ensures Save(g).failure.None? <==>
      |g.graphAttrs| == 0 && Supported(g.vertexAttrs) && Supported(g.edgeAttrs)
  {
    SaveValuesSucceedsIff(g.vertexAttrs);
    SaveValuesSucceedsIff(g.edgeAttrs);
  }

  /** A graph with graph attributes: the save fails after the counts and the
      edge list, before any attribute name, type or value. */
  lemma SaveRejectsGraphAttributes(g: GraphState)
    requires |g.graphAttrs| != 0
    ensures Save(g).failure == Some(GraphAttributesUnsupported)
    ensures |Save(g).tokens| == 3 + 2 * |g.edges|
    ensures forall k :: 0 <= k < |Save(g).tokens| ==> !Save(g).tokens[k].Str?
  {
    var ts, flat := Save(g).tokens, Flatten(g.edges);
    forall k | 0 <= k < |ts|
      ensures !ts[k].Str?
    {
      if k >= 3 {
        EncodeVectorAt(flat, IntTok, k - 3);
        assert ts[k] == EncodeVector(flat, IntTok)[k - 2];
      }
    }
  }

  /** What a save has written before the attribute table of `scope`. */
  function TablesBefore(g: GraphState, scope: Scope): seq<Token>
  {
    if scope == OfVertices then SaveHeader(g) else SaveHeader(g) + SaveAttributes(g.vertexAttrs).tokens
  }

  /** An attribute `k` of an unsupported type (the first one, and with the
      vertex table fine when it is an edge attribute): the save fails with its
      tag, which is neither the numeric nor the string tag, having written its
      table's names and types and the arrays of the attributes before it. */
  lemma SaveStopsAtUnsupported(g: GraphState, scope: Scope, k: nat)
    requires WellFormed(g) && |g.graphAttrs| == 0
    requires scope == OfEdges ==> Supported(g.vertexAttrs)
    requires var attrs := g.Attrs(scope); k < |attrs| && attrs[k].values.Other? && Supported(attrs[..k])
    ensures var attrs := g.Attrs(scope);
      Save(g) == Written(TablesBefore(g, scope) + (EncodeVector(Names(attrs), StrTok) + EncodeVector(Tags(attrs), IntTok)
                                                   + SaveValues(attrs[..k]).tokens),
                         Some(UnsupportedAttributeType(attrs[k].values.tag)))
    ensures g.Attrs(scope)[k].values.tag !in {NUMERIC, STRING}
  {
    var attrs := g.Attrs(scope);
    assert TypeTag(attrs[k].values) == attrs[k].values.tag;
    TableStopsAt(attrs, k);
    if scope == OfEdges {
      SaveValuesSucceedsIff(g.vertexAttrs);
    }
  }

  /** The table-level half: such an attribute ends its table's save after the
      names, the types and the arrays before it. */
  lemma TableStopsAt(attrs: seq<Attribute>, k: nat)
    requires k < |attrs| && attrs[k].values.Other? && Supported(attrs[..k])
    ensures SaveAttributes(attrs) == Written(EncodeVector(Names(attrs), StrTok) + EncodeVector(Tags(attrs), IntTok)
                                             + SaveValues(attrs[..k]).tokens,
                                             Some(UnsupportedAttributeType(attrs[k].values.tag)))
  {
    SaveValuesStopsAt(attrs, k);
  }

  // ---------------------------------------------------------------------
  // Load: when it fails, and the graph it leaves

  /** A load loop that succeeds met, at every index, a name and a tag that
      narrows to the numeric or the string tag; so a type list longer than the
      name list makes the load fail. */
  lemma {:induction false} LoadEachSucceeds(ts: seq<Token>, pos: nat, t: seq<Attribute>, count: nat,
                                            names: seq<string>, tags: seq<int>)
    requires LoadEach(ts, pos, t, count, names, tags).failure.None?
    ensures |tags| <= |names|
    ensures forall j :: 0 <= j < |tags| ==> Int32(tags[j]) in {NUMERIC, STRING}
    decreases |tags|
  {
    if tags != [] {
      assert names != [];
      var r := LoadArray(ts, pos, tags[0]);
      assert r.Ok?;
      assert Int32(tags[0]) == NUMERIC || Int32(tags[0]) == STRING;
      var u := TableSet(t, count, names[0], r.value.0);
      assert u.Ok?;
      LoadEachSucceeds(ts, r.value.1, u.value, count, names[1..], tags[1..]);
      assert forall j :: 1 <= j < |tags| ==> tags[j] == tags[1..][j - 1];
    }
  }

  /** A tag the loader does not narrow to the numeric or the string tag is
      refused with the narrowed value. */
  lemma LoadRejectsUnknownTag(ts: seq<Token>, pos: nat, tag: int)
    requires tag % 0x1_0000_0000 != NUMERIC && tag % 0x1_0000_0000 != STRING
    ensures LoadArray(ts, pos, tag) == Err(UnsupportedAttributeType(Int32(tag)))
    ensures Int32(tag) !in {NUMERIC, STRING}
  {
  }

  /** The loader narrows a tag to 32 bits first, so tags a multiple of 2^32
      apart are read alike. */
  lemma LoadNarrowsTags(ts: seq<Token>, pos: nat, tag: int, k: int)
    ensures LoadArray(ts, pos, tag + k * 0x1_0000_0000) == LoadArray(ts, pos, tag)
  {
    assert (tag + k * 0x1_0000_0000) % 0x1_0000_0000 == tag % 0x1_0000_0000;
  }

  /** The loop leaves a well-formed table well formed, wherever it stops. */
  lemma {:induction false} LoadEachWellFormed(ts: seq<Token>, pos: nat, t: seq<Attribute>, count: nat,
                                              names: seq<string>, tags: seq<int>)
    requires TableOk(t, count) && CStrings(names)
    ensures TableOk(LoadEach(ts, pos, t, count, names, tags).table, count)
    decreases |tags|
  {
    if tags != [] && names != [] && LoadArray(ts, pos, tags[0]).Ok? {
      var r := LoadArray(ts, pos, tags[0]).value;
      if TableSet(t, count, names[0], r.0).Ok? {
        TableSetOk(t, count, names[0], r.0);
        LoadEachWellFormed(ts, r.1, TableSet(t, count, names[0], r.0).value, count, names[1..], tags[1..]);
      }
    }
  }

  /** Whatever the stream holds and wherever the load stops, the graph it
      leaves is a well-formed igraph graph. */
  lemma LoadWellFormed(ts: seq<Token>, pos: nat, g: GraphState)
    requires WellFormed(g)
    ensures WellFormed(Load(ts, pos, g).graph)
  {
    match ReadToken(ts, pos, AsCount)
    case None =>
    case Some((nv, p1)) =>
      match ReadToken(ts, p1, AsCount)
      case None =>
      case Some((_, p2)) =>
        match DecodeVector(ts, p2, AsInt)
        case None =>
        case Some((flat, p3)) =>
          var g1 := VerticesAdded(g, nv);
          VerticesAddedWellFormed(g, nv);
          if EdgesAdded(g1, flat).Some? {
            var g2 := EdgesAdded(g1, flat).value;
            EdgesAddedWellFormed(g1, flat);
            LoadAttributesWellFormed(ts, p3, g2, OfVertices);
            var v := LoadAttributes(ts, p3, g2, OfVertices);
            LoadAttributesWellFormed(ts, v.pos, v.graph, OfEdges);
          }
  }

  lemma LoadAttributesWellFormed(ts: seq<Token>, pos: nat, g: GraphState, scope: Scope)
    requires WellFormed(g)
    ensures WellFormed(LoadAttributes(ts, pos, g, scope).graph)
  {
    match DecodeVector(ts, pos, AsCStr)
    case None =>
    case Some((names, p)) =>
      match DecodeVector(ts, p, AsInt)
      case None =>
      case Some((tags, q)) =>
        CStringsDecoded(ts, pos);
        LoadEachWellFormed(ts, q, g.Attrs(scope), g.Count(scope), names, tags);
        WellFormedByTables(g, scope, LoadEach(ts, q, g.Attrs(scope), g.Count(scope), names, tags).table);
  }

  // ---------------------------------------------------------------------
  // The round trip

  /** The counts and the edge list read back as written. */
  lemma HeaderRoundTrip(ts: seq<Token>, pos: nat, g: GraphState)
    requires At(ts, pos, SaveHeader(g))
    ensures ReadToken(ts, pos, AsCount) == Some((g.numVertices, pos + 1))
    ensures ReadToken(ts, pos + 1, AsCount) == Some((|g.edges|, pos + 2))
    ensures DecodeVector(ts, pos + 2, AsInt) == Some((Flatten(g.edges), pos + |SaveHeader(g)|))
  {
    var counts := [IntTok(g.numVertices), IntTok(|g.edges|)];
    AtSplit(ts, pos, counts, EncodeVector(Flatten(g.edges), IntTok));
    AtIndex(ts, pos, SaveHeader(g), 0);
    AtIndex(ts, pos, SaveHeader(g), 1);
    IntVectorRoundTrip(ts, pos + 2, Flatten(g.edges));
  }

  /** Every endpoint in the flattened edge list is a vertex id below `nv`. */
  lemma FlattenIds(nv: nat, edges: seq<Edge>)
    requires forall e :: e in edges ==> e.from < nv && e.to < nv
    ensures ValidIds(Flatten(edges), nv)
  {
    var flat := Flatten(edges);
    forall k | 0 <= k < |flat|
      ensures 0 <= flat[k] < nv
    {
      var i := k / 2;
      assert edges[i] in edges;
      FlattenAt(edges, i);
      assert k == 2 * i || k == 2 * i + 1;
    }
  }

  /** Reading the flattened list back pair by pair gives the same edges. */
  lemma PairsOfFlatten(directed: bool, nv: nat, edges: seq<Edge>)
    requires forall e :: e in edges ==> Normal(directed, e)
    requires ValidIds(Flatten(edges), nv)
    ensures Pairs(directed, Flatten(edges)) == edges
  {
    var flat := Flatten(edges);
    var ps := Pairs(directed, flat);
    forall i | 0 <= i < |edges|
      ensures ps[i] == edges[i]
    {
      assert edges[i] in edges;
      PairsAt(directed, flat, i);
      FlattenAt(edges, i);
    }
  }

  /** Adding `nv` vertices to an empty graph and then the flattened edges of
      a well-formed graph gives back exactly those edges, in the same order. */
  lemma ReinsertEdges(directed: bool, nv: nat, edges: seq<Edge>)
    requires forall e :: e in edges ==> e.from < nv && e.to < nv && Normal(directed, e)
    ensures EdgesAdded(VerticesAdded(EmptyGraph(directed), nv), Flatten(edges))
      == Some(GraphState(directed, nv, edges, [], [], []))
  {
    var g1 := VerticesAdded(EmptyGraph(directed), nv);
    assert g1 == GraphState(directed, nv, [], [], [], []);
    var flat := Flatten(edges);
    FlattenIds(nv, edges);
    PairsOfFlatten(directed, nv, edges);
    assert g1.edges + Pairs(directed, flat) == edges;
    assert PadAll([], |flat| / 2) == [];
  }

  /** One value array read back for its own type tag. */
  lemma ArrayRoundTrip(ts: seq<Token>, pos: nat, v: Values)
    requires !v.Other? && CValues(v) && At(ts, pos, SaveArray(v).value)
    ensures LoadArray(ts, pos, TypeTag(v)) == Ok((v, pos + |SaveArray(v).value|))
  {
    match v
    case Numeric(ns) => NumVectorRoundTrip(ts, pos, ns);
    case Text(ss) => StrVectorRoundTrip(ts, pos, ss);
  }

  /** What a supported value array takes up in the stream: its size tag and
      one token per value. */
  lemma SaveArrayLength(v: Values)
    requires !v.Other?
    ensures SaveArray(v).Some? && |SaveArray(v).value| == Length(v) + 1
  {
  }

  /** The value arrays take up the first array's tokens, then the rest's. */
  lemma SaveValuesCons(attrs: seq<Attribute>)
    requires attrs != [] && !attrs[0].values.Other?
    ensures SaveValues(attrs).tokens == SaveArray(attrs[0].values).value + SaveValues(attrs[1..]).tokens
    ensures |SaveValues(attrs).tokens| == Length(attrs[0].values) + 1 + |SaveValues(attrs[1..]).tokens|
  {
    SaveArrayLength(attrs[0].values);
  }

  /** In a table with unique names, the first name of a suffix is not used
      before it. */
  lemma FreshHead(t: seq<Attribute>, attrs: seq<Attribute>)
    requires attrs != [] && UniqueNames(t + attrs)
    ensures Find(t, attrs[0].name).None?
  {
    FindSpec(t, attrs[0].name);
    assert (t + attrs)[|t|] == attrs[0];
    forall j | 0 <= j < |t|
      ensures t[j].name != attrs[0].name
    {
      assert (t + attrs)[j] == t[j];
    }
  }

  lemma AppendCons<T>(t: seq<T>, s: seq<T>)
    requires s != []
    ensures t + [s[0]] + s[1..] == t + s
  {
  }

  /** The value arrays of `attrs` read back from `pos` on can be set in the
      table `t` one by one: each array reads back as saved, its name is new
      to the table when its turn comes, and it holds `count` values. */
  predicate Insertable(ts: seq<Token>, pos: nat, t: seq<Attribute>, count: nat, attrs: seq<Attribute>)
    decreases |attrs|
  {
    attrs != [] ==>
      var a := attrs[0];
      var next := pos + Length(a.values) + 1;
      && !a.values.Other? && Find(t, a.name).None? && Length(a.values) == count
      && LoadArray(ts, pos, TypeTag(a.values)) == Ok((a.values, next))
      && Insertable(ts, next, t + [a], count, attrs[1..])
  }

  /** A table saved in full after `pos`, with names unique and new to `t`
      and arrays of `count` values, can be set in turn. */
  lemma {:induction false} SavedInsertable(ts: seq<Token>, pos: nat, t: seq<Attribute>, count: nat, attrs: seq<Attribute>)
    requires UniqueNames(t + attrs) && Sized(attrs, count) && Supported(attrs) && CAttrs(attrs)
    requires At(ts, pos, SaveValues(attrs).tokens)
    ensures Insertable(ts, pos, t, count, attrs)
    decreases |attrs|
  {
    if attrs != [] {
      var a, rest := attrs[0], attrs[1..];
      assert forall i :: 0 <= i < |rest| ==> rest[i] == attrs[i + 1];
      SaveValuesCons(attrs);
      AtSplit(ts, pos, SaveArray(a.values).value, SaveValues(rest).tokens);
      ArrayRoundTrip(ts, pos, a.values);
      FreshHead(t, attrs);
      AppendCons(t, attrs);
      SavedInsertable(ts, pos + Length(a.values) + 1, t + [a], count, rest);
    }
  }

  /** The first turn of the load loop reads the first array and appends the
      first attribute to the table; so once the rest of the lists loads back
      after it, the whole lists do. */
  lemma LoadFirst(ts: seq<Token>, pos: nat, t: seq<Attribute>, count: nat, attrs: seq<Attribute>, next: nat, last: Filled)
    requires attrs != [] && Find(t, attrs[0].name).None? && Length(attrs[0].values) == count
    requires LoadArray(ts, pos, TypeTag(attrs[0].values)) == Ok((attrs[0].values, next))
    requires LoadEach(ts, next, t + [attrs[0]], count, Names(attrs[1..]), Tags(attrs[1..])) == last
    ensures LoadEach(ts, pos, t, count, Names(attrs), Tags(attrs)) == last
  {
    NamesTail(attrs);
  }

  /** Setting the value arrays of `attrs`, in order, appends them all to the
      table, and the load stops just after the last array. */
  lemma {:induction false} EachRoundTrip(ts: seq<Token>, pos: nat, t: seq<Attribute>, count: nat, attrs: seq<Attribute>)
    requires Insertable(ts, pos, t, count, attrs)
    ensures LoadEach(ts, pos, t, count, Names(attrs), Tags(attrs))
      == Filled(t + attrs, pos + |SaveValues(attrs).tokens|, None)
    decreases |attrs|
  {
    if attrs == [] {
      assert t + [] == t;
    } else {
      var next := pos + Length(attrs[0].values) + 1;
      EachRoundTrip(ts, next, t + [attrs[0]], count, attrs[1..]);
      EachStep(ts, pos, t, count, attrs, next);
    }
  }

  /** One turn of the induction above: once the rest of the lists loads
      back after the first array, the whole lists do. */
  lemma EachStep(ts: seq<Token>, pos: nat, t: seq<Attribute>, count: nat, attrs: seq<Attribute>, next: nat)
    requires attrs != [] && Insertable(ts, pos, t, count, attrs)
    requires next == pos + Length(attrs[0].values) + 1
    requires LoadEach(ts, next, t + [attrs[0]], count, Names(attrs[1..]), Tags(attrs[1..]))
      == Filled(t + [attrs[0]] + attrs[1..], next + |SaveValues(attrs[1..]).tokens|, None)
    ensures LoadEach(ts, pos, t, count, Names(attrs), Tags(attrs))
      == Filled(t + attrs, pos + |SaveValues(attrs).tokens|, None)
  {
    SaveValuesCons(attrs);
    AppendCons(t, attrs);
    LoadFirst(ts, pos, t, count, attrs, next, Filled(t + attrs, pos + |SaveValues(attrs).tokens|, None));
  }

  /** A saved table in the stream: its name list and type list read back,
      and its value arrays follow them. */
  lemma TableHeadRoundTrip(ts: seq<Token>, pos: nat, attrs: seq<Attribute>, p: nat, q: nat)
    requires CAttrs(attrs) && At(ts, pos, SaveAttributes(attrs).tokens)
    requires p == pos + |EncodeVector(Names(attrs), StrTok)| && q == p + |EncodeVector(Tags(attrs), IntTok)|
    ensures DecodeVector(ts, pos, AsCStr) == Some((Names(attrs), p))
    ensures DecodeVector(ts, p, AsInt) == Some((Tags(attrs), q))
    ensures At(ts, q, SaveValues(attrs).tokens)
    ensures pos + |SaveAttributes(attrs).tokens| == q + |SaveValues(attrs).tokens|
  {
    var n, t, v := EncodeVector(Names(attrs), StrTok), EncodeVector(Tags(attrs), IntTok), SaveValues(attrs).tokens;
    AtSplit(ts, pos, n + t, v);
    AtSplit(ts, pos, n, t);
    StrVectorRoundTrip(ts, pos, Names(attrs));
    IntVectorRoundTrip(ts, pos + |n|, Tags(attrs));
  }

  /** The value arrays of a saved table load, into an empty table, as that
      table. */
  lemma ValuesRoundTrip(ts: seq<Token>, q: nat, count: nat, attrs: seq<Attribute>)
    requires TableOk(attrs, count) && Supported(attrs)
    requires At(ts, q, SaveValues(attrs).tokens)
    ensures LoadEach(ts, q, [], count, Names(attrs), Tags(attrs)) == Filled(attrs, q + |SaveValues(attrs).tokens|, None)
  {
    assert [] + attrs == attrs;
    SavedInsertable(ts, q, [], count, attrs);
    EachRoundTrip(ts, q, [], count, attrs);
  }

  /** One attribute table read back into a graph without attributes of that
      scope gives the graph with exactly that table. */
  lemma AttributesRoundTrip(ts: seq<Token>, pos: nat, base: GraphState, scope: Scope, attrs: seq<Attribute>)
    requires base.Attrs(scope) == []
    requires TableOk(attrs, base.Count(scope)) && Supported(attrs)
    requires At(ts, pos, SaveAttributes(attrs).tokens)
    ensures LoadAttributes(ts, pos, base, scope)
      == Loaded(base.WithAttrs(scope, attrs), pos + |SaveAttributes(attrs).tokens|, None)
  {
    var p := pos + |EncodeVector(Names(attrs), StrTok)|;
    var q := p + |EncodeVector(Tags(attrs), IntTok)|;
    TableHeadRoundTrip(ts, pos, attrs, p, q);
    ValuesRoundTrip(ts, q, base.Count(scope), attrs);
    LoadAttributesRead(ts, pos, base, scope, Names(attrs), p, Tags(attrs), q);
  }

  /** A load whose counts and edge list are read and added goes on to the
      two attribute tables. */
  lemma LoadComposed(ts: seq<Token>, pos: nat, g: GraphState, nv: nat, ne: nat, flat: seq<int>, p3: nat, g2: GraphState)
    requires ReadToken(ts, pos, AsCount) == Some((nv, pos + 1)) && ReadToken(ts, pos + 1, AsCount) == Some((ne, pos + 2))
    requires DecodeVector(ts, pos + 2, AsInt) == Some((flat, p3)) && EdgesAdded(VerticesAdded(g, nv), flat) == Some(g2)
    ensures Load(ts, pos, g) == LoadTables(ts, p3, g2)
  {
  }

  /** The counts and edges a save writes load back into an empty graph as
      that graph's vertices and edges, and the load goes on to the tables. */
  lemma HeaderLoads(ts: seq<Token>, pos: nat, g: GraphState)
    requires WellFormed(g) && At(ts, pos, SaveHeader(g))
    ensures Load(ts, pos, EmptyGraph(g.directed))
      == LoadTables(ts, pos + |SaveHeader(g)|, GraphState(g.directed, g.numVertices, g.edges, [], [], []))
  {
    HeaderRoundTrip(ts, pos, g);
    ReinsertEdges(g.directed, g.numVertices, g.edges);
    LoadComposed(ts, pos, EmptyGraph(g.directed), g.numVertices, |g.edges|, Flatten(g.edges),
                 pos + |SaveHeader(g)|, GraphState(g.directed, g.numVertices, g.edges, [], [], []));
  }

  /** A successful save is the header, then the vertex table, then the edge
      table. */
  lemma SaveLayout(ts: seq<Token>, pos: nat, g: GraphState)
    requires Save(g).failure.None? && At(ts, pos, Save(g).tokens)
    ensures var h, va := SaveHeader(g), SaveAttributes(g.vertexAttrs).tokens;
      && |Save(g).tokens| == |h| + |va| + |SaveAttributes(g.edgeAttrs).tokens|
      && At(ts, pos, h)
      && At(ts, pos + |h|, va)
      && At(ts, pos + |h| + |va|, SaveAttributes(g.edgeAttrs).tokens)
  {
    var h, va, ea := SaveHeader(g), SaveAttributes(g.vertexAttrs).tokens, SaveAttributes(g.edgeAttrs).tokens;
    assert Save(g).tokens == h + va + ea;
    AtSplit(ts, pos, h + va, ea);
    AtSplit(ts, pos, h, va);
  }

  /** The two attribute tables of a well-formed graph whose save succeeds
      read back, one after the other, into the graph with its vertices and
      edges but no attributes, and give back the graph. */
  lemma TablesRoundTrip(ts: seq<Token>, p3: nat, g: GraphState, end: nat)
    requires |g.graphAttrs| == 0
    requires TableOk(g.vertexAttrs, g.numVertices) && Supported(g.vertexAttrs)
    requires TableOk(g.edgeAttrs, |g.edges|) && Supported(g.edgeAttrs)
    requires At(ts, p3, SaveAttributes(g.vertexAttrs).tokens)
    requires At(ts, p3 + |SaveAttributes(g.vertexAttrs).tokens|, SaveAttributes(g.edgeAttrs).tokens)
    requires end == p3 + |SaveAttributes(g.vertexAttrs).tokens| + |SaveAttributes(g.edgeAttrs).tokens|
    ensures LoadTables(ts, p3, GraphState(g.directed, g.numVertices, g.edges, [], [], [])) == Loaded(g, end, None)
  {
    var g2 := GraphState(g.directed, g.numVertices, g.edges, [], [], []);
    var p4 := p3 + |SaveAttributes(g.vertexAttrs).tokens|;
    var g3 := GraphState(g.directed, g.numVertices, g.edges, [], g.vertexAttrs, []);
    assert g2.WithAttrs(OfVertices, g.vertexAttrs) == g3;
    AttributesRoundTrip(ts, p3, g2, OfVertices, g.vertexAttrs);
    assert LoadTables(ts, p3, g2) == LoadAttributes(ts, p4, g3, OfEdges);
    assert g3.WithAttrs(OfEdges, g.edgeAttrs) == g;
    AttributesRoundTrip(ts, p4, g3, OfEdges, g.edgeAttrs);
    assert end == p4 + |SaveAttributes(g.edgeAttrs).tokens|;
  }

  /** Of a successful save, the header loads into the graph with its vertices
      and edges but no attributes. */
  lemma HeaderOfSaved(ts: seq<Token>, pos: nat, g: GraphState)
    requires WellFormed(g) && Save(g).failure.None?
    requires At(ts, pos, Save(g).tokens)
    ensures Load(ts, pos, EmptyGraph(g.directed))
      == LoadTables(ts, pos + |SaveHeader(g)|, GraphState(g.directed, g.numVertices, g.edges, [], [], []))
  {
    SaveLayout(ts, pos, g);
    HeaderLoads(ts, pos, g);
  }

  /** Of a successful save of a well-formed graph, the two tables load back
      into the graph with its vertices and edges and give the whole graph. */
  lemma TablesOfSaved(ts: seq<Token>, pos: nat, g: GraphState)
    requires WellFormed(g) && Save(g).failure.None?
    requires At(ts, pos, Save(g).tokens)
    ensures LoadTables(ts, pos + |SaveHeader(g)|, GraphState(g.directed, g.numVertices, g.edges, [], [], []))
      == Loaded(g, pos + |Save(g).tokens|, None)
  {
    SaveSucceedsIff(g);
    SaveLayout(ts, pos, g);
    TablesRoundTrip(ts, pos + |SaveHeader(g)|, g, pos + |Save(g).tokens|);
  }

  /** The round trip: a well-formed graph whose save succeeds, loaded from
      wherever its stream sits into an empty graph of the same kind, comes
      back whole (vertex count, edges in edge-id order, every attribute's
      name, type and values, table order included), the load succeeds, and
      the cursor ends just after the graph's last token. */
  lemma RoundTrip(ts: seq<Token>, pos: nat, g: GraphState)
    requires WellFormed(g) && Save(g).failure.None?
    requires At(ts, pos, Save(g).tokens)
    ensures Load(ts, pos, EmptyGraph(g.directed)) == Loaded(g, pos + |Save(g).tokens|, None)
  {
    HeaderOfSaved(ts, pos, g);
    TablesOfSaved(ts, pos, g);
  }

  /** The round trip for a graph stored in the middle of a longer stream. */
  lemma StreamRoundTrip(prefix: seq<Token>, g: GraphState, suffix: seq<Token>)
    requires WellFormed(g) && Save(g).failure.None?
    ensures Load(prefix + Save(g).tokens + suffix, |prefix|, EmptyGraph(g.directed))
      == Loaded(g, |prefix| + |Save(g).tokens|, None)
  {
    var ts := prefix + Save(g).tokens + suffix;
    assert ts[|prefix|..|prefix| + |Save(g).tokens|] == Save(g).tokens;
    AtSlice(ts, |prefix|, Save(g).tokens);
    RoundTrip(ts, |prefix|, g);
  }

  /** The source's own use of the codec: save `g` into a fresh output
      archive, then load that stream into a fresh empty graph of the same
      kind. When the save succeeds the load succeeds too and the new graph
      equals `g`. */
  method SaveThenLoad(g: Graph) returns (h: Graph, saveErr: Option<Error>, loadErr: Option<Error>)
    requires g.Valid()
    ensures h.directed == g.directed
    ensures saveErr == Save(g.State()).failure
    ensures saveErr.None? ==> loadErr.None? && h.State() == g.State()
  {
    var output := new Archive.Output();
    saveErr := SaveGraph(output, g);
    var input := new Archive.Input(output.tokens);
    h := new Graph.Empty(g.directed);
    loadErr := LoadGraph(input, h);
    if saveErr.None? {
      WholeStreamLoads(input.tokens, g.State());
    }
  }

  /** A successful save, read on its own from its first token. */
  lemma WholeStreamLoads(ts: seq<Token>, g: GraphState)
    requires WellFormed(g) && Save(g).failure.None? && ts == Save(g).tokens
    ensures Load(ts, 0, EmptyGraph(g.directed)) == Loaded(g, |ts|, None)
  {
    assert ts[0..|ts|] == ts;
    AtSlice(ts, 0, ts);
    RoundTrip(ts, 0, g);
  }

  // ---------------------------------------------------------------------
  // Concrete instances

  /** The stream of an empty graph: two zero counts, then five empty
      vectors (edges, vertex names and types, edge names and types). */
  lemma EmptyGraphStream(directed: bool)
    ensures Save(EmptyGraph(directed))
      == Written([Int(0), Int(0), SizeTag(0), SizeTag(0), SizeTag(0), SizeTag(0), SizeTag(0)], None)
  {
    assert Flatten([]) == [] && Names([]) == [] && Tags([]) == [];
  }

  /** A stored string is cut at its first NUL when it is read back into a
      string vector. */
  lemma StringCutAtNul()
    ensures DecodeVector([SizeTag(1), Str(['a', '\0', 'b'])], 0, AsCStr) == Some((["a"], 2))
  {
    var ts := [SizeTag(1), Str(['a', '\0', 'b'])];
    CutAtNul('a', 'b');
    assert AsCStr(ts[1]) == Some(['a']) && Readable(ts, 1, AsCStr);
    assert DecodeElems(ts, 2, 0, AsCStr) == Some(([], 2));
    assert [['a']] + [] == ["a"];
    assert DecodeElems(ts, 1, 1, AsCStr) == Some((["a"], 2));
  }

  /** A vertex table of two numeric attributes stored under the names
      "a\0x" and "a\0y", with one value each. */
  function CutNamesStream(x: Double, y: Double): (r: seq<Token>)
    ensures |r| == 10
  {
    [SizeTag(2), Str(['a', '\0', 'x']), Str(['a', '\0', 'y']),
     SizeTag(2), Int(NUMERIC), Int(NUMERIC),
     SizeTag(1), Num(x), SizeTag(1), Num(y)]
  }

  /** Two stored names that differ only after a NUL load as the same name:
      the second array replaces the first under that name. */
  lemma NamesCutAtNul(x: Double, y: Double)
    ensures LoadAttributes(CutNamesStream(x, y), 0, GraphState(false, 1, [], [], [], []), OfVertices)
      == Loaded(GraphState(false, 1, [], [], [Attribute("a", Numeric([y]))], []), 10, None)
  {
    var ts := CutNamesStream(x, y);
    CutNamesHead(x, y);
    CutNamesArrays(x, y);
    var t1 := [Attribute("a", Numeric([x]))];
    assert Find([], "a") == None && [] + t1 == t1;
    assert TableSet([], 1, "a", Numeric([x])) == Ok(t1);
    var t2 := [Attribute("a", Numeric([y]))];
    assert Find(t1, "a") == Some(0) && t1[0 := Attribute("a", Numeric([y]))] == t2;
    assert TableSet(t1, 1, "a", Numeric([y])) == Ok(t2);
    assert ["a", "a"][1..] == ["a"] && [NUMERIC, NUMERIC][1..] == [NUMERIC];
    assert LoadEach(ts, 10, t2, 1, [], []) == Filled(t2, 10, None);
    assert LoadEach(ts, 8, t1, 1, ["a"], [NUMERIC]) == Filled(t2, 10, None);
    assert LoadEach(ts, 6, [], 1, ["a", "a"], [NUMERIC, NUMERIC]) == Filled(t2, 10, None);
  }

  lemma CutNamesHead(x: Double, y: Double)
    ensures DecodeVector(CutNamesStream(x, y), 0, AsCStr) == Some((["a", "a"], 3))
    ensures DecodeVector(CutNamesStream(x, y), 3, AsInt) == Some(([NUMERIC, NUMERIC], 6))
  {
    var ts := CutNamesStream(x, y);
    CutAtNul('a', 'x');
    CutAtNul('a', 'y');
    assert AsCStr(ts[1]) == Some(['a']) && AsCStr(ts[2]) == Some(['a']);
    assert Readable(ts, 1, AsCStr) && Readable(ts, 2, AsCStr);
    assert DecodeElems(ts, 3, 0, AsCStr) == Some(([], 3));
    assert [['a']] + [] == ["a"] && [['a']] + ["a"] == ["a", "a"];
    assert DecodeElems(ts, 2, 1, AsCStr) == Some((["a"], 3));
    assert Readable(ts, 4, AsInt) && Readable(ts, 5, AsInt);
    assert DecodeElems(ts, 6, 0, AsInt) == Some(([], 6));
    assert [NUMERIC] + [] == [NUMERIC] && [NUMERIC] + [NUMERIC] == [NUMERIC, NUMERIC];
    assert DecodeElems(ts, 5, 1, AsInt) == Some(([NUMERIC], 6));
  }

  lemma CutNamesArrays(x: Double, y: Double)
    ensures LoadArray(CutNamesStream(x, y), 6, NUMERIC) == Ok((Numeric([x]), 8))
    ensures LoadArray(CutNamesStream(x, y), 8, NUMERIC) == Ok((Numeric([y]), 10))
  {
    var ts := CutNamesStream(x, y);
    assert Int32(NUMERIC) == NUMERIC;
    assert Readable(ts, 7, AsNum) && Readable(ts, 9, AsNum);
    assert DecodeElems(ts, 8, 0, AsNum) == Some(([], 8));
    assert DecodeElems(ts, 10, 0, AsNum) == Some(([], 10));
    assert [x] + [] == [x] && [y] + [] == [y];
  }

  /** A three-character string with a NUL in the middle keeps its first
      character as a C string. */
  lemma CutAtNul(a: char, b: char)
    requires a != '\0'
    ensures CString([a, '\0', b]) == [a]
  {
    assert [a, '\0', b][1..] == ['\0', b];
  }
}
