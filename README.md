# igraph graphs through cereal: a verified model of the codec

This project models the serialisation code of `main.cpp`. That code stores an
igraph graph that uses the C attribute handler in a cereal archive, and reads
it back. It has two layers:

- **Vector codecs.** There is a save/load pair for `igraph_vector_int_t`,
  `igraph_vector_t` and `igraph_strvector_t`. A save writes a size tag and then
  every element in index order. A load reads the size, resizes the destination
  to it, and reads that many elements into it.
- **Graph codec.** A save writes, in this order:
  1. the vertex count and the edge count;
  2. the flattened edge list in edge-id order;
  3. then it fails if the graph has whole-graph attributes;
  4. otherwise, the vertex attribute names, their type tags and one value
     array per tag, chosen by a switch on the tag;
  5. then the same for the edge attributes.

  A load reads the same fields in the same order into a destination graph. It
  adds the vertices and the edges, then sets each array on the graph under the
  name at the same index. A tag that is neither numeric nor string makes a
  save or a load fail.

The archive is a positional stream of tokens: a size tag, an integer, a
double (kept as its 64-bit pattern) or a string. A cereal name-value pair
contributes only its value.

igraph keeps every string as a C string. A string read into an
`igraph_strvector_t` is stored through `c_str()`, so only its part before the
first NUL survives. This holds for string values and for attribute names,
which are read through a string vector. A well-formed graph
(`Graphs.WellFormed`) holds no NUL in any name or string value, so its save
writes every string in full.

The model comes in two forms:

- **Functions on values.** `Codec.Save` gives what a save writes and the error
  it raises. `Codec.Load` gives what a load does to the destination graph, the
  cursor and the error.
- **Imperative methods.** These follow the C++ and are proved against those
  functions: `Archives.Archive` has a write buffer and a read cursor,
  `Vectors.Vector` is a resizable igraph vector, and `Graphs.Graph` is the graph
  object updated in place.

Module layout:

- `tokens.dfy`: tokens, scalar codecs, errors, C strings, and the narrowing
  of a tag to a C++ `int`;
- `vectors.dfy`: vector layout, decoding, and the igraph vector class;
- `archive.dfy`: the archive class and the six vector save/load functions;
- `graphs.dfy`: the graph value, the igraph operations the codec calls, and
  the graph class;
- `codec.dfy`: the graph save and load, as functions and as methods;
- `properties.dfy`: error paths, well-formedness after a load, and the round
  trip.

The theorem `CodecProperties.RoundTrip` states the main result. Take a
well-formed graph whose save succeeds, wherever its stream sits in the archive.
Loading it into an empty graph of the same kind:

- succeeds;
- gives back the same vertex count, the same edges in edge-id order, and every
  attribute with the same name, type, values and table position;
- leaves the cursor just after the graph's last token.

## Model

| member | source | states |
|---|---|---|
| Tokens.ScalarCodecsInverse | main.cpp:27-92 | every scalar reader returns exactly what its writer wrote (long int, double, and a size_t read back as a count); a std::string read into igraph comes back whole when it holds no NUL, and as its part before the first NUL otherwise |
| Tokens.CString | main.cpp:90 | the C string kept from a string is its longest NUL-free prefix: a prefix with no NUL, followed in the string by a NUL when shorter, and the whole string when it holds no NUL |
| Tokens.Int32 | main.cpp:237 | the conversion to `int` lands in the 32-bit range, agrees with the input modulo 2^32, and keeps every value already in range |
| Vectors.EncodeElems | main.cpp:31-33 | a save writes one element token per element |
| Vectors.EncodeElemsAt | main.cpp:31-33 | the token at index i is element i, encoded (index order) |
| Vectors.EncodeVector | main.cpp:29-33 | the saved vector is one token longer than the vector and starts with the size tag of its length |
| Vectors.EncodeVectorAt | main.cpp:29-33 | after the size tag, token i + 1 is element i |
| Vectors.DecodeElems | main.cpp:41-45 | reading n elements gives n values and stops n tokens further on |
| Vectors.DecodeVector | main.cpp:37-46 | a successful load starts at a size tag equal to the number of elements read and stops just after those elements |
| Vectors.DecodeVectorAt | main.cpp:37-46 | the load succeeds exactly when a size tag is followed by that many tokens of the element's kind; element i is the decoding of the token i + 1 places after the tag |
| Vectors.CStringsDecoded | main.cpp:81-92 | no string of a string vector read back holds a NUL |
| Vectors.DecodeElemsSpec | main.cpp:41-45 | reading n elements succeeds exactly when the n tokens are there and of the element's kind; value i is the decoding of token pos + i |
| Vectors.AtSplit | main.cpp:27-92 | two runs written one after the other sit side by side in the stream |
| Vectors.VectorRoundTrip | main.cpp:27-46 | loading what a vector save wrote gives back the vector, whole and in order, and stops just after it, whatever surrounds it |
| Vectors.IntVectorRoundTrip | main.cpp:27-46 | the round trip for igraph_vector_int_t |
| Vectors.NumVectorRoundTrip | main.cpp:49-67 | the round trip for igraph_vector_t |
| Vectors.StrVectorRoundTrip | main.cpp:70-92 | the round trip for an igraph_strvector_t whose strings hold no NUL |
| Vectors.Vector.constructor | main.cpp:103 | a vector initialised with n elements, all holding the fill value |
| Vectors.Vector.Resize | main.cpp:40 | the vector has the new size and keeps its first elements; new slots hold the fill value, which stands in for igraph's uninitialised numeric elements and its empty strings |
| Vectors.Vector.Set | main.cpp:44 | element i is replaced and nothing else changes |
| Archives.Archive.Write | main.cpp:30 | writing appends exactly one token |
| Archives.Archive.Read | main.cpp:43 | reading consumes the next token when it has the expected kind, and otherwise fails without consuming |
| Archives.Archive.SaveVector | main.cpp:27-34 | the archive grows by exactly the size tag and the element tokens in index order |
| Archives.Archive.LoadVector | main.cpp:37-46 | succeeds exactly when the stream holds a vector at the cursor; then the destination is that vector, whatever its size was, and the cursor is past it |
| Archives.Archive.SaveIntVector | main.cpp:27-34 | the save of igraph_vector_int_t as above |
| Archives.Archive.LoadIntVector | main.cpp:37-46 | the load of igraph_vector_int_t as above |
| Archives.Archive.SaveNumVector | main.cpp:49-55 | the save of igraph_vector_t as above |
| Archives.Archive.LoadNumVector | main.cpp:58-67 | the load of igraph_vector_t as above |
| Archives.Archive.SaveStrVector | main.cpp:70-78 | the save of igraph_strvector_t as above |
| Archives.Archive.LoadStrVector | main.cpp:81-92 | the load of igraph_strvector_t as above, each string cut at its first NUL as `igraph_strvector_set` with `c_str()` does; no element of the result holds a NUL |
| Graphs.Find | main.cpp:147-148 | a lookup by name that succeeds names an attribute with that name |
| Graphs.FindSpec | main.cpp:147-148 | the lookup finds the first attribute with that name, and fails exactly when no attribute has it |
| Graphs.FindAllUnique | main.cpp:147-148 | with unique names, looking up the name of every attribute finds that attribute |
| Graphs.Names | main.cpp:125-126 | the name list has one entry per attribute of the table |
| Graphs.Tags | main.cpp:125-126 | the type list has one tag per attribute; with honest tags, tag i is numeric (string) exactly when attribute i holds numbers (strings) |
| Graphs.NumericValues | main.cpp:147-148 | with unique names, the numeric values fetched under an attribute's name are exactly that attribute's values |
| Graphs.StringValues | main.cpp:155-156 | with unique names, the string values fetched under an attribute's name are exactly that attribute's values |
| Graphs.Padded | main.cpp:222-223 | adding k vertices (edges) keeps an attribute's type and old values and adds k values: NaN for numeric, the empty string for string |
| Graphs.PadAll | main.cpp:222-223 | padding a table keeps its length and every name, and pads every attribute's values by k |
| Graphs.PaddedCValues | main.cpp:222-223 | padding adds no NUL to string values |
| Graphs.WellFormed | main.cpp:96-299 | what a graph with the C attribute handler always satisfies: every edge joins existing vertices, smaller endpoint first when undirected; in each table names are unique, every array holds one value per vertex (edge), a numeric or string tag belongs only to an array of that type, and no name or string value holds a NUL |
| Graphs.VerticesAdded | main.cpp:222 | n more vertices; the edges, the edge attributes, the kind and the graph attributes are unchanged; the vertex attribute names are the same; a vertex table with one value per vertex still has one value per vertex |
| Graphs.FindUnique | main.cpp:147-148 | with unique names, looking up the i-th name finds the i-th attribute; this is why fetching by name in the save loop gives the array of that index |
| Graphs.Flatten | main.cpp:102-108 | the flattened edge list has 2 · numEdges entries |
| Graphs.FlattenAt | main.cpp:104 | entries 2i and 2i + 1 are the endpoints of edge i |
| Graphs.Pairs | main.cpp:223 | a flat list of 2m endpoints stands for m edges |
| Graphs.PairsAt | main.cpp:223 | edge i joins entries 2i and 2i + 1, smaller endpoint first when undirected |
| Graphs.EdgesAdded | main.cpp:223 | adding edges succeeds exactly when the list has even length and names only existing vertices |
| Graphs.EdgesAddedSpec | main.cpp:223 | after adding edges, the vertices and old edges are unchanged and new edge i is the i-th pair of the list |
| Graphs.TableSet | main.cpp:244 | setting an array of the wrong length is refused, and a successful set never shrinks the table |
| Graphs.TableSetSpec | main.cpp:244 | the set fails exactly for a wrong length or a name already used by another type; on success the name reads the new array and every other name reads what it read before |
| Graphs.AttributeSet | main.cpp:244 | setting a vertex (edge) attribute changes only that table of the graph |
| Graphs.LookupAfterUpdate | main.cpp:244 | replacing the array of an existing name: that name reads the new array, every other name is unaffected |
| Graphs.LookupAfterAppend | main.cpp:244 | appending a new name: it reads the new array, every other name is unaffected |
| Graphs.Graph.Empty | main.cpp:344 | igraph_empty gives a well-formed graph with no vertices, edges or attributes |
| Graphs.Graph.AddVertices | main.cpp:222 | the graph becomes the graph with n more vertices, attributes padded, and stays well formed |
| Graphs.Graph.AddEdges | main.cpp:223 | the graph gains the edges when they are valid and is unchanged otherwise; it stays well formed |
| Graphs.Graph.SetAttribute | main.cpp:244 | the graph becomes the result of the set, or is unchanged with the set's error; it stays well formed |
| Graphs.PadAllKeeps | main.cpp:222 | padding keeps names and tags unique and honest and adds k to every array length |
| Graphs.VerticesAddedWellFormed | main.cpp:222 | adding vertices keeps a graph well formed |
| Graphs.EdgesAddedWellFormed | main.cpp:223 | adding valid edges keeps a graph well formed |
| Graphs.TableSetOk | main.cpp:244 | setting a numeric or string array keeps an attribute table well formed |
| Graphs.WellFormedByTables | main.cpp:244 | replacing one table of a well-formed graph gives a well-formed graph exactly when the new table is well formed |
| Graphs.AttributeSetWellFormed | main.cpp:244 | setting a numeric or string attribute keeps a graph well formed |
| Codec.SaveHeader | main.cpp:97-108 | the header is 3 + 2 · numEdges tokens: the vertex count, the edge count, and the size tag of the 2 · numEdges endpoints |
| Codec.SaveArray | main.cpp:142-165 | an array is written exactly for a numeric or string attribute; it is the size tag of its length followed by one token per value |
| Codec.SaveValues | main.cpp:139-166 | saving the value arrays can fail only with an unsupported type; a complete save writes at least one token per attribute |
| Codec.SaveAttributes | main.cpp:133-166 | saving a table can fail only with an unsupported type |
| Codec.Save | main.cpp:96-210 | the stream is at least as long as the header; with graph attributes it is exactly the header, with the graph-attributes error; otherwise the save succeeds or fails with an unsupported type |
| Codec.SaveValuesStep | main.cpp:139-165 | at index i the save loop writes the array fetched by the i-th name for tag i and continues, or stops with the error for an unsupported tag |
| Codec.SaveAttributeValues | main.cpp:140-165 | one turn of the save loop appends what the save function gives for index i |
| Codec.SaveTableValues | main.cpp:139-166 | the save loop appends exactly the value arrays of the save function and raises its error |
| Codec.SaveAttributeTable | main.cpp:133-166 | saving a table appends its names, types and value arrays and raises the save function's error |
| Codec.SaveGraph | main.cpp:96-210 | the archive grows by exactly what the save function writes, and the method raises the same error |
| Codec.LoadArray | main.cpp:237-258 | an array read for a tag has the type of the narrowed tag, no NUL in its strings, and ends after its size tag and its values; the only errors are a malformed stream and the narrowed unsupported tag |
| Codec.LoadEach | main.cpp:235-259 | the load loop never moves the cursor back |
| Codec.LoadAttributes | main.cpp:226-261 | loading a table changes only that table of the graph and never moves the cursor back |
| Codec.LoadAttributesRead | main.cpp:226-236 | once the name and type lists are read, loading a table is the load loop over them, starting after the type list |
| Codec.LoadTables | main.cpp:226-298 | loading the two tables keeps the vertex count and the edges and never moves the cursor back |
| Codec.Load | main.cpp:213-299 | the load keeps the graph's kind and graph attributes and never moves the cursor back; on success the graph gains the stored vertex count and keeps its old edges as a prefix |
| Codec.LoadAttributeValues | main.cpp:237-258 | reads one value array for the narrowed tag, or fails as the load function says |
| Codec.LoadAttributeStep | main.cpp:235-259 | one turn of the load loop changes only the table of its scope, keeps the graph well formed and matches the load function's loop step |
| Codec.LoadAttributeTable | main.cpp:226-261 | loading a table leaves the graph, error and cursor the load function gives, and the graph well formed |
| Codec.LoadGraph | main.cpp:213-299 | the load leaves the graph, error and cursor the load function gives, and the graph well formed |
| CodecProperties.SaveValuesSucceedsIff | main.cpp:142-165 | saving the value arrays fails exactly when some attribute is neither numeric nor string |
| CodecProperties.SaveValuesStopsAt | main.cpp:160-164 | at the first unsupported attribute, saving stops with its tag after the arrays before it |
| CodecProperties.SaveSucceedsIff | main.cpp:96-210 | a save succeeds exactly when there are no graph attributes and every vertex and edge attribute is numeric or string |
| CodecProperties.SaveRejectsGraphAttributes | main.cpp:128-131 | with graph attributes the save fails after writing only the counts and the edge list: 3 + 2 · numEdges tokens and no name |
| CodecProperties.SaveStopsAtUnsupported | main.cpp:160-164 | an unsupported vertex or edge attribute makes the save fail with its tag, which is neither numeric nor string, after the earlier tables, its table's names and types and the arrays before it |
| CodecProperties.TableStopsAt | main.cpp:195-199 | within one table, the unsupported attribute ends the save after names, types and the earlier arrays |
| CodecProperties.LoadEachSucceeds | main.cpp:234-236 | a successful load loop had a name for every type and a tag that narrows to numeric or string at every index |
| CodecProperties.LoadRejectsUnknownTag | main.cpp:254-257 | a tag that does not narrow to numeric or string is refused with the narrowed value |
| CodecProperties.LoadNarrowsTags | main.cpp:237 | for every tag and every integer k, the tag tag + k · 2^32 loads exactly like the tag: the same array and cursor, or the same error |
| CodecProperties.LoadEachWellFormed | main.cpp:235-259 | the load loop leaves a well-formed table well formed, wherever it stops |
| CodecProperties.LoadAttributesWellFormed | main.cpp:226-261 | loading a table leaves a well-formed graph well formed |
| CodecProperties.LoadWellFormed | main.cpp:213-299 | whatever the stream, the graph a load leaves is well formed |
| CodecProperties.HeaderRoundTrip | main.cpp:214-220 | the counts and the edge list read back as written |
| CodecProperties.FlattenIds | main.cpp:104 | every saved endpoint is an existing vertex id |
| CodecProperties.PairsOfFlatten | main.cpp:223 | reading the flattened list pair by pair gives back the same edges |
| CodecProperties.ReinsertEdges | main.cpp:218-223 | adding the vertices, then the saved edge list, to an empty graph gives exactly the original edges in order |
| CodecProperties.ArrayRoundTrip | main.cpp:142-159 | a saved value array loads back for its own tag |
| CodecProperties.SavedInsertable | main.cpp:139-166 | the saved arrays of a table, read in the load loop, match each attribute in turn, each under a fresh name with the right length |
| CodecProperties.EachRoundTrip | main.cpp:235-259 | the load loop over saved arrays appends the attributes in table order and stops after their last token |
| CodecProperties.EachStep | main.cpp:235-259 | one turn of the load loop: once the rest of the lists loads back after the first array, the whole lists do |
| CodecProperties.TableHeadRoundTrip | main.cpp:136-137 | the saved names and types of a table read back, and its arrays follow |
| CodecProperties.ValuesRoundTrip | main.cpp:235-259 | the value arrays of a saved table load into an empty table as that table |
| CodecProperties.AttributesRoundTrip | main.cpp:226-261 | a saved table loads into a graph without attributes of that kind as exactly that table |
| CodecProperties.HeaderLoads | main.cpp:214-223 | the saved header loads into an empty graph as the graph's vertices and edges, and the load continues with the tables |
| CodecProperties.SaveLayout | main.cpp:96-201 | a successful save is the header, then the vertex table, then the edge table |
| CodecProperties.TablesRoundTrip | main.cpp:226-298 | the two saved tables load back into the graph's vertices and edges as the whole graph |
| CodecProperties.HeaderOfSaved | main.cpp:213-223 | loading a successful save reads the header into the graph without attributes |
| CodecProperties.TablesOfSaved | main.cpp:226-298 | after that header, the tables complete the graph and end where the save ended |
| CodecProperties.RoundTrip | main.cpp:96-299 | loading a successful save into an empty graph of the same kind succeeds, gives back the graph, and stops at the end of the save |
| CodecProperties.StreamRoundTrip | main.cpp:96-299 | the same for a graph stored between any prefix and any suffix |
| CodecProperties.WholeStreamLoads | main.cpp:340-345 | a stream holding only a successful save loads from its first token into the graph |
| CodecProperties.SaveThenLoad | main.cpp:328-345 | save into a fresh archive, then load that stream into a fresh empty graph: the save error is the save function's, and when it succeeds the load succeeds with an equal graph |
| CodecProperties.EmptyGraphStream | main.cpp:96-201 | the stream of an empty graph is two zero counts and five empty vectors |
| CodecProperties.StringCutAtNul | main.cpp:81-92 | the stored string "a\0b" reads back in a string vector as "a" |
| CodecProperties.NamesCutAtNul | main.cpp:226-253 | two stored names "a\0x" and "a\0y" with numeric arrays load as one attribute "a" holding the second array |

## Left out

- The save checks for graph attributes only after writing the counts and the edges. The code writes those tokens before the failure, and so does the model.
- An unsupported attribute type fails the save after part of the stream has been written, in the code and in the model.
- The code does not make the load atomic, and neither does the model: a failed load leaves the destination graph partly filled.
- The load does not compare a stored array's size with the vertex or edge count, in the code or in the model. Only the attribute handler's length check, `InvalidAttributeLength`, stands in for that.
- The load never compares the lengths of the name list and the type list, in the code or in the model.
- The load indexes the name list by the type list's index without a bound. When the type list is longer, the C++ behaviour is undefined. The model turns it into the error `MissingAttributeName`. Extra names are ignored, as in the code.
- The return codes of `igraph_add_edges` and the `*_setv` functions are ignored in the C++. With igraph's default error handler those failures abort. The model turns them into the errors `InvalidEdgeList`, `InvalidAttributeLength` and `AttributeTypeMismatch`, and stops there.
- Codec.LoadGraph: the cursor after a failed load is not specified. Only the graph and the error are tied to the load function on failure.
- Codec.LoadAttributeTable: the cursor after a failed load is not specified, as for `Codec.LoadGraph`.
- Codec.LoadAttributeStep: the cursor after a failed turn is not specified. Only the table and the error are tied to the load function's loop.
- Codec.LoadAttributeValues: the cursor after a failed read is not specified. Only the error is tied to the load function.
- Archives.Archive.LoadVector: the cursor and the destination after a failed load are not specified, and the same holds for `LoadIntVector`, `LoadNumVector` and `LoadStrVector`.
- Strings are not converted to C strings on the save side (main.cpp:75, 140-141). A well-formed graph holds no NUL in its names and string values, so the conversion changes nothing there.
- The directedness of the graph is not serialised. The destination graph keeps its own directedness. Undirected edges are kept with the smaller endpoint first, the order `igraph_edges` reports them in.
- cereal's archive backends (JSON, XML, binary) and the names of the name-value pairs are not modelled. The archive is the positional token stream those backends carry.
- The `main` driver is not modelled: console output, file streams, the RNG seed, registering the attribute table and building the 25-vertex sample graph. `CodecProperties.SaveThenLoad` models only its save-then-load sequence.
- igraph internals are modelled as operations on the graph value: `igraph_cattribute_list`, the `*ANV`/`*ASV` getters, the `*_setv` setters, `igraph_edges`, `igraph_add_vertices` and `igraph_add_edges`. The model keeps their observable results: table order, lookup by name, padding new vertices' and edges' numeric values with NaN and string values with the empty string. Init and destroy have no observable counterpart and are left out.
- The `throw` after a failing `igraph_edges` (main.cpp:104-106) is not modelled. For a valid graph and all edges that call does not fail.
- Floating-point semantics are out of scope. A double is copied as its bit pattern and never computed with.
- Integer widths of `size_t`, `long int` and `igraph_integer_t` are left out. Integers are unbounded, except the one narrowing to `int` of a type tag on load (main.cpp:237, 274), which is modelled.
- The `std::string::reserve` call has no observable effect and is left out.
- The `assert` that the name and type lists have equal length (main.cpp:135, 170) holds by construction: both lists come from the same attribute table.
- Attribute types other than numeric and string (Boolean, say) keep only their tag and their length.
