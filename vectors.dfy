/** The layout of one vector in the archive (a size tag, then one token per
    element in index order), how it is read back, and igraph's resizable vector
    that a load fills in place. */
module Vectors {
  import opened Tokens

  /** The element tokens of `v`, one per element, in index order. */
  function EncodeElems<T>(v: seq<T>, enc: T -> Token): (r: seq<Token>)
    ensures |r| == |v|
  {
    if v == [] then [] else [enc(v[0])] + EncodeElems(v[1..], enc)
  }

  /** The token at index `i` is the element at index `i`, encoded. */
  lemma {:induction false} EncodeElemsAt<T>(v: seq<T>, enc: T -> Token, i: nat)
    requires i < |v|
    ensures EncodeElems(v, enc)[i] == enc(v[i])
    decreases i
  {
    if i > 0 {
      EncodeElemsAt(v[1..], enc, i - 1);
    }
  }

  /** One more element adds its token at the end. */
  lemma EncodeElemsSnoc<T>(v: seq<T>, x: T, enc: T -> Token)
    ensures EncodeElems(v + [x], enc) == EncodeElems(v, enc) + [enc(x)]
  {
    var l, r := EncodeElems(v + [x], enc), EncodeElems(v, enc) + [enc(x)];
    forall i | 0 <= i <= |v|
      ensures l[i] == r[i]
    {
      EncodeElemsAt(v + [x], enc, i);
      if i < |v| {
        EncodeElemsAt(v, enc, i);
      }
    }
  }

  /** The tokens of the first `i + 1` elements extend those of the first `i`. */
  lemma EncodeElemsPrefix<T>(v: seq<T>, i: nat, enc: T -> Token)
    requires i < |v|
    ensures EncodeElems(v[..i + 1], enc) == EncodeElems(v[..i], enc) + [enc(v[i])]
  {
    assert v[..i + 1] == v[..i] + [v[i]];
    EncodeElemsSnoc(v[..i], v[i], enc);
  }

  /** What saving the vector `v` appends to the archive: its size, then its
      elements in index order. */
  function EncodeVector<T>(v: seq<T>, enc: T -> Token): (r: seq<Token>)
    ensures |r| == |v| + 1 && r[0] == SizeTag(|v|)
  {
    [SizeTag(|v|)] + EncodeElems(v, enc)
  }

  /** After the size tag, the element at index `i`. */
  lemma EncodeVectorAt<T>(v: seq<T>, enc: T -> Token, i: nat)
    requires i < |v|
    ensures EncodeVector(v, enc)[i + 1] == enc(v[i])
  {
    EncodeElemsAt(v, enc, i);
  }

  /** Reads one token at `pos` with `dec`; gives the value and the next position. */
  function ReadToken<T>(ts: seq<Token>, pos: nat, dec: Token -> Option<T>): Option<(T, nat)>
  {
    if pos < |ts| && dec(ts[pos]).Some? then Some((dec(ts[pos]).value, pos + 1)) else None
  }

  /** The token at `k` exists and `dec` accepts it. */
  predicate Readable<T>(ts: seq<Token>, k: nat, dec: Token -> Option<T>)
  {
    k < |ts| && dec(ts[k]).Some?
  }

  /** Reads `n` elements starting at `pos`: the elements in order together
      with the position after the last one, or nothing. */
  function DecodeElems<T>(ts: seq<Token>, pos: nat, n: nat, dec: Token -> Option<T>): (r: Option<(seq<T>, nat)>)
    decreases n
    ensures r.Some? ==> |r.value.0| == n && r.value.1 == pos + n
  {
    if n == 0 then Some(([], pos))
    else if !Readable(ts, pos, dec) then None
    else
      var rest := DecodeElems(ts, pos + 1, n - 1, dec);
      if rest.None? then None
      else Some(([dec(ts[pos]).value] + rest.value.0, rest.value.1))
  }

  /** Reading `n` elements succeeds exactly when the archive holds `n` more
      tokens at `pos` that `dec` accepts, and then element `i` is what `dec`
      makes of the token at `pos + i`. */
  lemma {:induction false} DecodeElemsSpec<T>(ts: seq<Token>, pos: nat, n: nat, dec: Token -> Option<T>)
    ensures var r := DecodeElems(ts, pos, n, dec);
      r.Some? <==> forall k :: pos <= k < pos + n ==> Readable(ts, k, dec)
    ensures var r := DecodeElems(ts, pos, n, dec);
      r.Some? ==> forall i :: 0 <= i < n ==> Readable(ts, pos + i, dec) && dec(ts[pos + i]) == Some(r.value.0[i])
    decreases n
  {
    if n > 0 && Readable(ts, pos, dec) {
      DecodeElemsSpec(ts, pos + 1, n - 1, dec);
      var r, rest := DecodeElems(ts, pos, n, dec), DecodeElems(ts, pos + 1, n - 1, dec);
      if r.Some? {
        assert forall i :: 1 <= i < n ==> r.value.0[i] == rest.value.0[i - 1] && Readable(ts, pos + 1 + (i - 1), dec);
      }
    }
  }

  /** Loading a vector: read the size tag, then that many elements. A vector
      read back was announced by a size tag of its length, and the cursor
      stops just after its last element. */
  function DecodeVector<T>(ts: seq<Token>, pos: nat, dec: Token -> Option<T>): (r: Option<(seq<T>, nat)>)
    ensures r.Some? ==> pos < |ts| && ts[pos] == SizeTag(|r.value.0|) && r.value.1 == pos + 1 + |r.value.0|
  {
    match ReadToken(ts, pos, AsSize)
    case None => None
    case Some((n, p)) => DecodeElems(ts, p, n, dec)
  }

  /** Loading a vector succeeds exactly when a size tag is followed by that
      many tokens `dec` accepts; element `i` is what `dec` makes of the token
      `i + 1` places after the size tag. */
  lemma DecodeVectorAt<T>(ts: seq<Token>, pos: nat, dec: Token -> Option<T>)
    ensures DecodeVector(ts, pos, dec).Some? <==>
      pos < |ts| && ts[pos].SizeTag? && forall k :: pos + 1 <= k < pos + 1 + ts[pos].n ==> Readable(ts, k, dec)
    ensures var r := DecodeVector(ts, pos, dec);
      r.Some? ==> forall i :: 0 <= i < |r.value.0| ==> Readable(ts, pos + 1 + i, dec) && dec(ts[pos + 1 + i]) == Some(r.value.0[i])
  {
    if pos < |ts| && ts[pos].SizeTag? {
      DecodeElemsSpec(ts, pos + 1, ts[pos].n, dec);
    }
  }

  /** A string vector read back holds only C strings. */
  lemma CStringsDecoded(ts: seq<Token>, pos: nat)
    ensures var r := DecodeVector(ts, pos, AsCStr); r.Some? ==> CStrings(r.value.0)
  {
    DecodeVectorAt(ts, pos, AsCStr);
  }

  /** `ts` holds the tokens `x` starting at position `pos`, token by token. */
  predicate At(ts: seq<Token>, pos: nat, x: seq<Token>)
    decreases |x|
  {
    if x == [] then pos <= |ts| else pos < |ts| && ts[pos] == x[0] && At(ts, pos + 1, x[1..])
  }

  /** A run of tokens is the slice of the stream it covers. */
  lemma {:induction false} AtSlice(ts: seq<Token>, pos: nat, x: seq<Token>)
    ensures At(ts, pos, x) <==> pos + |x| <= |ts| && ts[pos..pos + |x|] == x
    decreases |x|
  {
    if x != [] {
      AtSlice(ts, pos + 1, x[1..]);
      if pos + |x| <= |ts| {
        assert ts[pos..pos + |x|] == [ts[pos]] + ts[pos + 1..pos + 1 + |x[1..]|];
        assert x == [x[0]] + x[1..];
      }
    }
  }

  /** The token `k` places into a run is the stream's token at `pos + k`. */
  lemma AtIndex(ts: seq<Token>, pos: nat, x: seq<Token>, k: nat)
    requires At(ts, pos, x) && k < |x|
    ensures pos + k < |ts| && ts[pos + k] == x[k]
  {
    AtSlice(ts, pos, x);
    assert ts[pos..pos + |x|][k] == ts[pos + k];
  }

  /** A run of tokens split in two is two adjacent runs. */
  lemma {:induction false} AtSplit(ts: seq<Token>, pos: nat, x: seq<Token>, y: seq<Token>)
    requires At(ts, pos, x + y)
    ensures At(ts, pos, x) && At(ts, pos + |x|, y)
    decreases |x|
  {
    if x != [] {
      assert (x + y)[0] == x[0] && (x + y)[1..] == x[1..] + y;
      AtSplit(ts, pos + 1, x[1..], y);
    } else {
      assert x + y == y;
    }
  }

  /** Loading what a save wrote gives back the same vector: the size read is the
      length saved and every element is equal, whatever precedes or follows it. */
  lemma {:induction false} VectorRoundTrip<T>(ts: seq<Token>, pos: nat, v: seq<T>, enc: T -> Token, dec: Token -> Option<T>)
    requires forall i :: 0 <= i < |v| ==> dec(enc(v[i])) == Some(v[i])
    requires At(ts, pos, EncodeVector(v, enc))
    ensures DecodeVector(ts, pos, dec) == Some((v, pos + |v| + 1))
  {
    var e := EncodeVector(v, enc);
    AtIndex(ts, pos, e, 0);
    AtSlice(ts, pos, e);
    forall k | pos + 1 <= k < pos + 1 + |v|
      ensures k < |ts| && dec(ts[k]) == Some(v[k - pos - 1])
    {
      AtIndex(ts, pos, e, k - pos);
      EncodeVectorAt(v, enc, k - pos - 1);
    }
    DecodeElemsSpec(ts, pos + 1, |v|, dec);
    var r := DecodeElems(ts, pos + 1, |v|, dec);
    assert r.Some?;
    var xs := r.value.0;
    forall i | 0 <= i < |v|
      ensures xs[i] == v[i]
    {
      assert dec(ts[pos + 1 + i]) == Some(xs[i]);
    }
    assert xs == v;
  }

  /** The round trip for each of the three vector kinds. */
  lemma IntVectorRoundTrip(ts: seq<Token>, pos: nat, v: seq<int>)
    requires At(ts, pos, EncodeVector(v, IntTok))
    ensures DecodeVector(ts, pos, AsInt) == Some((v, pos + |EncodeVector(v, IntTok)|))
  {
    ScalarCodecsInverse();
    VectorRoundTrip(ts, pos, v, IntTok, AsInt);
  }

  lemma NumVectorRoundTrip(ts: seq<Token>, pos: nat, v: seq<Double>)
    requires At(ts, pos, EncodeVector(v, NumTok))
    ensures DecodeVector(ts, pos, AsNum) == Some((v, pos + |EncodeVector(v, NumTok)|))
  {
    ScalarCodecsInverse();
    VectorRoundTrip(ts, pos, v, NumTok, AsNum);
  }

  /** Strings come back whole when they are C strings, as igraph's are. */
  lemma StrVectorRoundTrip(ts: seq<Token>, pos: nat, v: seq<string>)
    requires CStrings(v) && At(ts, pos, EncodeVector(v, StrTok))
    ensures DecodeVector(ts, pos, AsCStr) == Some((v, pos + |EncodeVector(v, StrTok)|))
  {
    ScalarCodecsInverse();
    VectorRoundTrip(ts, pos, v, StrTok, AsCStr);
  }

  /** An igraph vector (igraph_vector_int_t, igraph_vector_t or
      igraph_strvector_t): a resizable buffer updated in place. */
  class Vector<T> {
    var elems: seq<T>

    /** igraph_vector_*_init: `n` elements, all `fill`. */
    constructor (n: nat, fill: T)
      ensures elems == seq(n, _ => fill)
    {
      elems := seq(n, _ => fill);
    }

    /** igraph_vector_*_resize: keeps the first elements. igraph_strvector_resize
        adds empty strings; the numeric resizes leave new elements
        uninitialised, and `fill` stands in for whatever they hold (every load
        overwrites them). */
    method Resize(n: nat, fill: T)
      modifies this
      ensures |elems| == n
      ensures forall i :: 0 <= i < n && i < |old(elems)| ==> elems[i] == old(elems)[i]
      ensures forall i :: |old(elems)| <= i < n ==> elems[i] == fill
    {
      if n <= |elems| {
        elems := elems[..n];
      } else {
        elems := elems + seq(n - |elems|, _ => fill);
      }
    }

    /** igraph_vector_*_set. */
    method Set(i: nat, x: T)
      requires i < |elems|
      modifies this
      ensures elems == old(elems)[i := x]
    {
      elems := elems[i := x];
    }
  }
}
