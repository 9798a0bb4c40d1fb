/** The vocabulary of the archive: the tokens a save writes and a load consumes,
    the scalar codecs that map attribute values to tokens and back, and the
    errors the codec can raise. */
module Tokens {

  /** A numeric attribute value. The codec never computes with doubles, it only
      copies them, so a value is kept as its IEEE-754 bit pattern. */
  datatype Double = Double(bits: bv64)

  /** The value igraph's attribute handler gives the numeric attribute of a
      vertex or edge that was added after the attribute existed (a quiet NaN). */
  const NaN: Double := Double(0x7FF8_0000_0000_0000)

  /** One field of the archive. The archive is positional: a reader gets the
      tokens back in exactly the order the writer produced them. */
  datatype Token =
    | SizeTag(n: nat)      // the length prefix written by make_size_tag
    | Int(i: int)          // an integer scalar: size_t, long int, igraph_integer_t
    | Num(d: Double)       // a double
    | Str(s: string)       // a std::string

  datatype Option<T> = None | Some(value: T)

  datatype Result<T> = Ok(value: T) | Err(error: Error)

  datatype Error =
    | MalformedArchive                   // the next token is missing or of another kind
    | GraphAttributesUnsupported         // the graph carries whole-graph attributes
    | UnsupportedAttributeType(tag: int) // a type tag that is neither numeric nor string
    | InvalidEdgeList                    // igraph_add_edges: odd length or unknown vertex id
    | InvalidAttributeLength             // *_setv: one value per vertex (edge) expected
    | AttributeTypeMismatch              // *_setv: the name exists with another type
    | MissingAttributeName               // the type list is longer than the name list

  // Scalar codecs, one writer and one reader per element type.

  function IntTok(i: int): Token { Int(i) }
  function NumTok(d: Double): Token { Num(d) }
  function StrTok(s: string): Token { Str(s) }

  function AsInt(t: Token): Option<int> { if t.Int? then Some(t.i) else None }
  function AsNum(t: Token): Option<Double> { if t.Num? then Some(t.d) else None }

  /** A string as igraph stores it: igraph keeps C strings, so a string
      handed over with `c_str()` is kept only up to its first NUL. */
  function CString(s: string): (r: string)
    ensures r <= s && '\0' !in r
    ensures |r| < |s| ==> s[|r|] == '\0'
    ensures '\0' !in s ==> r == s
  {
    if s == [] || s[0] == '\0' then [] else [s[0]] + CString(s[1..])
  }

  /** No string of the sequence holds a NUL: the strings igraph can store. */
  predicate CStrings(v: seq<string>)
  {
    forall i :: 0 <= i < |v| ==> '\0' !in v[i]
  }

  /** A std::string read back and stored with igraph_strvector_set, which
      copies its C string: the part before the first NUL. */
  function AsCStr(t: Token): Option<string> { if t.Str? then Some(CString(t.s)) else None }

  /** A size_t read back: an integer token that is not negative. */
  function AsCount(t: Token): Option<nat> { if t.Int? && t.i >= 0 then Some(t.i) else None }

  /** A length prefix read back. */
  function AsSize(t: Token): Option<nat> { if t.SizeTag? then Some(t.n) else None }

  /** Every reader gives back exactly what its writer wrote; a string does
      when it holds no NUL, and otherwise only its part before the first. */
  lemma ScalarCodecsInverse()
    ensures forall i :: AsInt(IntTok(i)) == Some(i)
    ensures forall d :: AsNum(NumTok(d)) == Some(d)
    ensures forall s :: AsCStr(StrTok(s)) == Some(CString(s))
    ensures forall s :: '\0' !in s ==> AsCStr(StrTok(s)) == Some(s)
    ensures forall n: nat :: AsCount(IntTok(n)) == Some(n)
  {
  }

  /** The conversion of an igraph_integer_t to a C++ `int`: the value modulo
      2^32, read as a two's-complement 32-bit number. */
  function Int32(x: int): (r: int)
    ensures -0x8000_0000 <= r < 0x8000_0000
    ensures (x - r) % 0x1_0000_0000 == 0
    ensures -0x8000_0000 <= x < 0x8000_0000 ==> r == x
  {
    var m := x % 0x1_0000_0000;
    if m >= 0x8000_0000 then m - 0x1_0000_0000 else m
  }
}
