/** `tailBuffer`: the last bytes of a command's standard error, kept in one slice. */
module TailBuffer {

  newtype Byte = x: int | 0 <= x < 256

  /** The last n bytes of a log, or all of it; nothing when n is not positive. */
  function LastBytes(log: seq<Byte>, n: int): seq<Byte> {
    if n <= 0 then [] else if |log| <= n then log else log[|log| - n..]
  }

  /** A suffix, as long as the log and n allow. */
  lemma LastBytesAre(log: seq<Byte>, n: int)
    ensures var r := LastBytes(log, n);
      && |r| == (if n <= 0 then 0 else if |log| <= n then |log| else n)
      && log[|log| - |r|..] == r
  {
  }

  /** Forgetting the front before a write loses nothing that the write would keep. */
  lemma LastOfLast(log: seq<Byte>, p: seq<Byte>, n: int)
    ensures LastBytes(LastBytes(log, n) + p, n) == LastBytes(log + p, n)
  {
    if 0 < n < |log| {
      var tail := log[|log| - n..];
      assert log + p == log[..|log| - n] + (tail + p);
    }
  }

  function Concat(chunks: seq<seq<Byte>>): seq<Byte> {
    if chunks == [] then [] else Concat(chunks[..|chunks| - 1]) + chunks[|chunks| - 1]
  }

  class Buffer {
    const maxBytes: int
    var data: array<Byte>   // the slice's backing array
    var len: nat            // and its length
    ghost var chunks: seq<seq<Byte>> // every write so far

    ghost predicate Valid()
      reads this, data
    {
      len <= data.Length && data[..len] == LastBytes(Concat(chunks), maxBytes)
    }

    constructor (maxBytes: int)
      ensures Valid() && fresh(data) && this.maxBytes == maxBytes && chunks == []
    {
      this.maxBytes := maxBytes;
      data, len, chunks := new Byte[0], 0, [];
    }

    /** Go's append onto the first `keep` bytes: in place while the capacity lasts, into
        a larger array otherwise. */
    method Append(keep: nat, p: seq<Byte>)
      requires keep <= len <= data.Length
      modifies this`data, this`len, data
      ensures len == keep + |p| <= data.Length
      ensures data[..len] == old(data[..keep]) + p
      ensures data == old(data) || fresh(data)
    {
      var size := keep + |p|;
      if size > data.Length {
        var grown := new Byte[2 * size];
        forall i | 0 <= i < keep { grown[i] := data[i]; }
        data := grown;
      }
      ghost var head := data[..keep];
      var i := 0;
      while i < |p|
        invariant 0 <= i <= |p| && data[..keep + i] == head + p[..i]
        modifies data
      {
        data[keep + i] := p[i];
        i := i + 1;
        assert data[..keep + i] == data[..keep + i - 1] + [data[keep + i - 1]];
      }
      assert p[..i] == p;
      len := size;
    }

    /** The overlapping left shift: the slice becomes its own bytes from `from` on. */
    method ShiftLeft(from: nat)
      requires from <= len <= data.Length
      modifies this`len, data
      ensures len == old(len) - from && data[..len] == old(data[from..len])
    {
      var i := 0;
      while i < len - from
        invariant 0 <= i <= len - from
        invariant forall j :: 0 <= j < i ==> data[j] == old(data[from + j])
        invariant forall j :: i <= j < data.Length ==> data[j] == old(data[j])
        modifies data
      {
        data[i] := data[from + i];
        i := i + 1;
      }
      len := len - from;
    }

    /** Reports the whole chunk as written and keeps the last maxBytes bytes of all the
        chunks so far. */
    method Write(p: seq<Byte>) returns (n: int)
      requires Valid()
      modifies this, data
      ensures Valid() && chunks == old(chunks) + [p] && n == |p|
      ensures data[..len] == LastBytes(Concat(chunks), maxBytes)
        && (len == maxBytes || data[..len] == Concat(chunks) || maxBytes <= 0 == len)
      ensures data == old(data) || fresh(data)
    {
      n := |p|;
      assert (chunks + [p])[..|chunks|] == chunks;
      if maxBytes <= 0 {
        chunks := chunks + [p];
        return;
      }
      LastOfLast(Concat(chunks), p, maxBytes);
      if |p| >= maxBytes {
        Append(0, p[|p| - maxBytes..]);
        chunks := chunks + [p];
        return;
      }
      var needed := len + |p| - maxBytes;
      if needed > 0 { ShiftLeft(needed); }
      Append(len, p);
      chunks := chunks + [p];
    }
  }
}
