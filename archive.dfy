/** The cereal archive seen through the codec: an output side that appends
    tokens and an input side that consumes them at a cursor, with the save and
    load functions for igraph's integer, numeric and string vectors. */
module Archives {
  import opened Tokens
  import opened Vectors

  class Archive {
    /** Everything written so far (output) or the whole stream (input). */
    var tokens: seq<Token>
    /** The next token a load reads. */
    var pos: nat

    /** An output archive with nothing written yet. */
    constructor Output()
      ensures tokens == [] && pos == 0
    {
      tokens, pos := [], 0;
    }

    /** An input archive over a stream written earlier. */
    constructor Input(ts: seq<Token>)
      ensures tokens == ts && pos == 0
    {
      tokens, pos := ts, 0;
    }

    /** `ar(x)` on an output archive. */
    method Write(t: Token)
      modifies this`tokens
      ensures tokens == old(tokens) + [t]
    {
      tokens := tokens + [t];
    }

    /** `ar(x)` on an input archive: the next token if `dec` accepts it;
        otherwise nothing is consumed. */
    method Read<T>(dec: Token -> Option<T>) returns (r: Option<T>)
      modifies this`pos
      ensures Readable(tokens, old(pos), dec) ==> r == dec(tokens[old(pos)]) && pos == old(pos) + 1
      ensures !Readable(tokens, old(pos), dec) ==> r.None? && pos == old(pos)
    {
      if pos < |tokens| && dec(tokens[pos]).Some? {
        r := dec(tokens[pos]);
        pos := pos + 1;
      } else {
        r := None;
      }
    }

    /** The save function shared by the three vector kinds: the size tag, then
        every element in index order. */
    method SaveVector<T>(v: seq<T>, enc: T -> Token)
      modifies this`tokens
      ensures tokens == old(tokens) + EncodeVector(v, enc)
    {
      Write(SizeTag(|v|));
      ghost var head := tokens;
      for i := 0 to |v|
        invariant tokens == head + EncodeElems(v[..i], enc)
      {
        EncodeElemsPrefix(v, i, enc);
        Write(enc(v[i]));
      }
      assert v[..|v|] == v;
      assert tokens == old(tokens) + ([SizeTag(|v|)] + EncodeElems(v, enc));
    }

    /** The load function shared by the three vector kinds: read the size,
        resize `dest` to it whatever its size was, and read that many
        elements into it in index order. It succeeds exactly when the stream
        holds such a vector at the cursor, and then `dest` is that vector. */
    method LoadVector<T>(dest: Vector<T>, dec: Token -> Option<T>, fill: T) returns (ok: bool)
      modifies this`pos, dest
      ensures ok <==> DecodeVector(tokens, old(pos), dec).Some?
      ensures ok ==> (dest.elems, pos) == DecodeVector(tokens, old(pos), dec).value
    {
      ghost var p0 := pos;
      var n := Read(AsSize);
      if n.None? {
        return false;
      }
      dest.Resize(n.value, fill);
      for i := 0 to n.value
        invariant pos == p0 + 1 + i
        invariant |dest.elems| == n.value
        invariant forall k :: p0 + 1 <= k < p0 + 1 + i ==> Readable(tokens, k, dec)
        invariant forall k :: 0 <= k < i ==> Readable(tokens, p0 + 1 + k, dec) && dec(tokens[p0 + 1 + k]) == Some(dest.elems[k])
      {
        var x := Read(dec);
        if x.None? {
          assert !Readable(tokens, p0 + 1 + i, dec);
          DecodeElemsSpec(tokens, p0 + 1, n.value, dec);
          return false;
        }
        dest.Set(i, x.value);
      }
      DecodeElemsSpec(tokens, p0 + 1, n.value, dec);
      var r := DecodeElems(tokens, p0 + 1, n.value, dec);
      assert r.Some?;
      forall k | 0 <= k < n.value
        ensures dest.elems[k] == r.value.0[k]
      {
        assert Readable(tokens, p0 + 1 + k, dec);
      }
      assert dest.elems == r.value.0;
      assert DecodeVector(tokens, p0, dec) == r;
      ok := true;
    }

    // The overloads of main.cpp, one pair per igraph vector type.

    /** Saving an igraph_vector_int_t. */
    method SaveIntVector(v: seq<int>)
      modifies this`tokens
      ensures tokens == old(tokens) + EncodeVector(v, IntTok)
    {
      SaveVector(v, IntTok);
    }

    /** Loading an igraph_vector_int_t. */
    method LoadIntVector(dest: Vector<int>) returns (ok: bool)
      modifies this`pos, dest
      ensures ok <==> DecodeVector(tokens, old(pos), AsInt).Some?
      ensures ok ==> (dest.elems, pos) == DecodeVector(tokens, old(pos), AsInt).value
    {
      ok := LoadVector(dest, AsInt, 0);
    }

    /** Saving an igraph_vector_t. */
    method SaveNumVector(v: seq<Double>)
      modifies this`tokens
      ensures tokens == old(tokens) + EncodeVector(v, NumTok)
    {
      SaveVector(v, NumTok);
    }

    /** Loading an igraph_vector_t. */
    method LoadNumVector(dest: Vector<Double>) returns (ok: bool)
      modifies this`pos, dest
      ensures ok <==> DecodeVector(tokens, old(pos), AsNum).Some?
      ensures ok ==> (dest.elems, pos) == DecodeVector(tokens, old(pos), AsNum).value
    {
      ok := LoadVector(dest, AsNum, Double(0));
    }

    /** Saving an igraph_strvector_t. */
    method SaveStrVector(v: seq<string>)
      modifies this`tokens
      ensures tokens == old(tokens) + EncodeVector(v, StrTok)
    {
      SaveVector(v, StrTok);
    }

    /** Loading an igraph_strvector_t: each string read is stored with
        igraph_strvector_set, which keeps only its part before the first NUL
        (the reader `AsCStr`). */
    method LoadStrVector(dest: Vector<string>) returns (ok: bool)
      modifies this`pos, dest
      ensures ok <==> DecodeVector(tokens, old(pos), AsCStr).Some?
      ensures ok ==> (dest.elems, pos) == DecodeVector(tokens, old(pos), AsCStr).value
      ensures ok ==> CStrings(dest.elems)
    {
      ok := LoadVector(dest, AsCStr, "");
      CStringsDecoded(tokens, old(pos));
    }
  }
}
