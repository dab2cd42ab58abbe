/** Bytes, and streams that arrive as a sequence of pieces. */
module ByteStreams {
  import opened Wrappers

  type Byte = b: int | 0 <= b < 256
  type Bytes = seq<Byte>

  function Concat(pieces: seq<Bytes>): Bytes {
    if pieces == [] then [] else Concat(pieces[..|pieces| - 1]) + pieces[|pieces| - 1]
  }

  lemma ConcatGrows(pieces: seq<Bytes>, n: nat)
    requires n < |pieces|
    ensures Concat(pieces[..n + 1]) == Concat(pieces[..n]) + pieces[n]
  {
    assert pieces[..n + 1][..n] == pieces[..n];
  }

  lemma {:induction false} ConcatIsMonotone(pieces: seq<Bytes>, n: nat)
    requires n <= |pieces|
    ensures Concat(pieces[..n]) <= Concat(pieces)
    decreases |pieces| - n
  {
    if n < |pieces| {
      ConcatGrows(pieces, n);
      ConcatIsMonotone(pieces, n + 1);
    } else {
      assert pieces[..n] == pieces;
    }
  }

  /** Copies pieces one after the other into a buffer of their total size. */
  method Gather(pieces: seq<Bytes>, size: nat) returns (bytes: Bytes)
    requires size == |Concat(pieces)|
    ensures bytes == Concat(pieces)
  {
    var buffer := new Byte[size];
    var offset, k := 0, 0;
    while k < |pieces|
      invariant 0 <= k <= |pieces| && offset == |Concat(pieces[..k])| <= size
      invariant buffer[..offset] == Concat(pieces[..k])
    {
      ConcatGrows(pieces, k);
      ConcatIsMonotone(pieces, k + 1);
      forall i | 0 <= i < |pieces[k]| { buffer[offset + i] := pieces[k][i]; }
      offset := offset + |pieces[k]|;
      k := k + 1;
    }
    assert pieces[..k] == pieces && buffer[..offset] == buffer[..];
    bytes := buffer[..];
  }

  /** Reads a stream piece by piece, unless it has too many pieces or too many bytes. */
  method ReadWithin(pieces: seq<Bytes>, limit: nat, most: nat) returns (bytes: Option<Bytes>)
    ensures bytes == if |pieces| <= most && |Concat(pieces)| <= limit then Some(Concat(pieces)) else None
  {
    var size, n := 0, 0;
    while n < |pieces|
      invariant 0 <= n <= |pieces| && n <= most && size == |Concat(pieces[..n])| <= limit
    {
      ConcatGrows(pieces, n);
      size := size + |pieces[n]|;
      n := n + 1;
      if n > most || size > limit {
        ConcatIsMonotone(pieces, n);
        return None;
      }
    }
    assert pieces[..n] == pieces;
    var read := Gather(pieces, size);
    bytes := Some(read);
  }
}
