/** The data cursor that events and messages share: a private copy of some bytes, read piecewise. */
module DataItem {
  newtype Byte = x: int | 0 <= x < 256

  // ---------------------------------------------------------------- what a run of reads delivers

  function Min(a: nat, b: nat): nat {
    if a < b then a else b
  }

  /** Where the cursor stands after reads with buffers of the given sizes. */
  function Cursor(len: nat, readed: nat, sizes: seq<nat>): (pos: nat)
    requires readed <= len
    ensures readed <= pos <= len
    decreases |sizes|
  {
    if sizes == [] then readed
    else Cursor(len, readed + Min(sizes[0], len - readed), sizes[1..])
  }

  /** The pieces those reads put into the buffers, one after the other. */
  function Delivered(data: seq<Byte>, readed: nat, sizes: seq<nat>): seq<Byte>
    requires readed <= |data|
    decreases |sizes|
  {
    if sizes == [] then []
    else
      var n := Min(sizes[0], |data| - readed);
      data[readed..readed + n] + Delivered(data, readed + n, sizes[1..])
  }

  function Sum(sizes: seq<nat>): nat {
    if sizes == [] then 0 else sizes[0] + Sum(sizes[1..])
  }

  /** Whatever the sizes, the pieces make up the data up to the cursor, and the cursor is where the
      total size leads. */
  lemma {:induction false} ReadsConcatenate(data: seq<Byte>, readed: nat, sizes: seq<nat>)
    requires readed <= |data|
    ensures Delivered(data, readed, sizes) == data[readed..Cursor(|data|, readed, sizes)]
    ensures Cursor(|data|, readed, sizes) == Min(readed + Sum(sizes), |data|)
    decreases |sizes|
  {
    if sizes != [] {
      ReadsConcatenate(data, readed + Min(sizes[0], |data| - readed), sizes[1..]);
    }
  }

  lemma NextRead(data: seq<Byte>, readed: nat, sizes: seq<nat>, i: nat)
    requires readed <= |data| && i < |sizes|
    ensures var n := Min(sizes[i], |data| - readed);
            && Cursor(|data|, readed, sizes[i..]) == Cursor(|data|, readed + n, sizes[i + 1..])
            && Delivered(data, readed, sizes[i..]) == data[readed..readed + n] + Delivered(data, readed + n, sizes[i + 1..])
  {
    assert sizes[i..][1..] == sizes[i + 1..];
  }

  lemma NoRead(data: seq<Byte>, readed: nat, sizes: seq<nat>)
    requires readed <= |data|
    ensures sizes[0..] == sizes
    ensures Cursor(|data|, readed, sizes[|sizes|..]) == readed && Delivered(data, readed, sizes[|sizes|..]) == []
  {
  }

  /** How a total amount is split into reads does not matter. */
  lemma SplitOfReads(data: seq<Byte>, sizes: seq<nat>, other: seq<nat>)
    requires Sum(sizes) == Sum(other)
    ensures Delivered(data, 0, sizes) == Delivered(data, 0, other)
  {
    ReadsConcatenate(data, 0, sizes);
    ReadsConcatenate(data, 0, other);
  }

  class DataItem {
    const name: string
    var data: array<Byte>
    var readed: nat

    ghost predicate Valid()
      reads this
    {
      readed <= data.Length
    }

    constructor NewItem(name: string, buf: array<Byte>)
      ensures Valid() && fresh(data) && this.name == name && readed == 0
      ensures data[..] == buf[..]
    {
      this.name := name;
      var bytes := new Byte[buf.Length](i requires 0 <= i < buf.Length reads buf => buf[i]);
      data, readed := bytes, 0;
    }

    /** The caller gets bytes of its own. */
    method Data() returns (bytes: array<Byte>)
      ensures fresh(bytes) && bytes[..] == data[..]
    {
      bytes := new Byte[data.Length](i requires 0 <= i < data.Length reads this, data => data[i]);
    }

    /** A copy starts from its beginning, wherever this item has been read to. */
    method Copy() returns (item: DataItem)
      ensures fresh(item) && fresh(item.data) && item.Valid()
      ensures item.name == name && item.data[..] == data[..] && item.readed == 0
    {
      item := new DataItem.NewItem(name, data);
    }

    /** Fills the buffer from the cursor on. Only a nonempty buffer can see the end. */
    method Read(p: array<Byte>) returns (n: nat, eof: bool)
      requires Valid() && p != data
      modifies this`readed, p
      ensures Valid() && n == readed - old(readed) == Min(p.Length, data.Length - old(readed))
      ensures p[..n] == data[old(readed)..readed] && p[n..] == old(p[n..])
      ensures eof <==> p.Length > 0 && readed == data.Length
      ensures p.Length > 0 && old(readed) < data.Length ==> n > 0
    {
      n, eof := 0, false;
      if p.Length == 0 {
        return;
      }
      n := Min(p.Length, data.Length - readed);
      forall i | 0 <= i < n {
        p[i] := data[readed + i];
      }
      readed := readed + n;
      if readed == data.Length {
        eof := true;
      }
    }

    /** A caller's run of reads with arbitrary buffer sizes. */
    method ReadPieces(sizes: seq<nat>) returns (out: seq<Byte>, eof: bool)
      requires Valid()
      modifies this`readed
      ensures Valid() && readed == Cursor(data.Length, old(readed), sizes)
      ensures out == Delivered(data[..], old(readed), sizes)
      ensures eof <==> sizes != [] && sizes[|sizes| - 1] > 0 && readed == data.Length
    {
      hide Cursor, Delivered;
      out, eof := [], false;
      ghost var bytes := data[..];
      NoRead(bytes, readed, sizes);
      for i := 0 to |sizes|
        invariant readed <= data.Length && bytes == data[..]
        invariant Cursor(|bytes|, readed, sizes[i..]) == Cursor(|bytes|, old(readed), sizes)
        invariant out + Delivered(bytes, readed, sizes[i..]) == Delivered(bytes, old(readed), sizes)
        invariant eof <==> i > 0 && sizes[i - 1] > 0 && readed == data.Length
      {
        NextRead(bytes, readed, sizes, i);
        var n;
        var p := new Byte[sizes[i]];
        n, eof := Read(p);
        out := out + p[..n];
      }
      NoRead(bytes, readed, sizes);
    }

    /** Reading until the end is reported, with buffers of any nonzero sizes: it terminates with all
        the bytes that were left. */
    method ReadAll() returns (out: seq<Byte>)
      requires Valid()
      modifies this`readed
      ensures Valid() && readed == data.Length && out == data[old(readed)..]
    {
      out := [];
      var eof := false;
      while !eof
        invariant Valid() && old(readed) <= readed && out == data[old(readed)..readed]
        invariant eof ==> readed == data.Length
        decreases data.Length - readed, !eof
      {
        var size: nat :| size > 0;
        var p := new Byte[size];
        var n;
        n, eof := Read(p);
        out := out + p[..n];
      }
    }
  }

  /** What goes in comes out, also from a copy of an item that has been read in part. */
  method RoundTrip(name: string, buf: array<Byte>, part: nat) returns (out: seq<Byte>, copied: seq<Byte>)
    ensures out == buf[..] && copied == buf[..]
  {
    var item := new DataItem.NewItem(name, buf);
    var p := new Byte[part];
    var n, eof := item.Read(p);
    var copy := item.Copy();
    out := item.ReadAll();
    out := p[..n] + out;
    copied := copy.ReadAll();
  }
}
