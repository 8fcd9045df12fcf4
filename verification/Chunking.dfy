/** The reading side of the sender: read_chunk fills one buffer from the input
    file, read_loop cuts the whole input into chunks. */
module Chunking {
  import opened Wire
  import opened Arithmetic

  /** A FILE open for reading: its content, the read position and the
      end-of-file flag. */
  class InFile {
    const content: bytes
    var pos: nat
    var eof: bool

    constructor (content: bytes)
      ensures this.content == content && pos == 0 && !eof
    {
      this.content := content;
      pos := 0;
      eof := false;
    }

    ghost predicate Valid()
      reads this
    {
      pos <= |content| && (eof ==> pos == |content|)
    }

    /** fread: any positive number of the bytes left, up to the request; nothing
        only at the end. Only a request that reaches past the end can raise eof,
        and a read that returns nothing always does. */
    method Fread(n: nat) returns (got: bytes)
      requires Valid() && n > 0
      modifies `pos, `eof
      ensures Valid()
      ensures |got| <= n && old(pos) + |got| == pos && got == content[old(pos)..pos]
      ensures got == [] <==> old(pos) == |content|
      ensures got == [] ==> eof
      ensures eof ==> old(eof) || old(pos) + n > |content|
    {
      if pos == |content| {
        eof := true;
        return [];
      }
      var left := |content| - pos;
      var most := if n < left then n else left;
      var k: nat :| 1 <= k <= most;
      got := content[pos..pos + k];
      pos := pos + k;
      if pos == |content| && k < n {
        var raise: bool := *;
        eof := eof || raise;
      }
    }
  }

  /** The bytes the next read_chunk takes from what is left. */
  function Head(rest: bytes, size: nat): bytes {
    if |rest| < size then rest else rest[..size]
  }

  /** The chunks of an input: full ones, then a last one that is strictly shorter. */
  function Chunks(input: bytes, size: nat): (cs: seq<bytes>)
    requires size > 0
    ensures |cs| > 0
    decreases |input|
  {
    if |input| < size then [input] else [input[..size]] + Chunks(input[size..], size)
  }

  /** read_chunk: whatever the pattern of short reads, the buffer receives
      exactly the next `size` bytes, or all that is left, and eof is raised
      exactly when fewer than `size` bytes were left. */
  method ReadChunk(file: InFile, size: nat) returns (buf: bytes)
    requires file.Valid() && !file.eof && size > 0
    modifies file`pos, file`eof
    ensures file.Valid()
    ensures buf == Head(file.content[old(file.pos)..], size)
    ensures file.pos == old(file.pos) + |buf|
    ensures file.eof <==> |file.content| - old(file.pos) < size
  {
    var toRead: nat := size;
    buf := [];
    var more := true;
    while toRead > 0 && more
      invariant file.Valid()
      invariant |buf| + toRead == size
      invariant file.pos == old(file.pos) + |buf|
      invariant buf == file.content[old(file.pos)..file.pos]
      invariant !more ==> file.pos == |file.content| && file.eof && toRead > 0
      invariant file.eof ==> |file.content| - old(file.pos) < size
      decreases more, toRead
    {
      var got := file.Fread(toRead);
      if got == [] {
        more := false;
      } else {
        buf := buf + got;
        toRead := toRead - |got|;
      }
    }
    ghost var rest := file.content[old(file.pos)..];
    assert buf == rest[..|buf|];
  }

  /** read_loop: the chunks put on the channel, in order. */
  method ReadLoop(file: InFile, size: nat) returns (sent: seq<bytes>)
    requires file.Valid() && file.pos == 0 && !file.eof && size > 0
    modifies file`pos, file`eof
    ensures sent == Chunks(file.content, size)
    ensures file.eof
  {
    sent := [];
    while !file.eof
      invariant file.Valid()
      invariant !file.eof ==> sent + Chunks(file.content[file.pos..], size) == Chunks(file.content, size)
      invariant file.eof ==> sent == Chunks(file.content, size)
      decreases !file.eof, |file.content| - file.pos
    {
      ghost var rest := file.content[file.pos..];
      ghost var before := sent;
      var buf := ReadChunk(file, size);
      sent := sent + [buf];
      if file.eof {
        assert Chunks(rest, size) == [buf];
      } else {
        assert file.content[file.pos..] == rest[size..];
        assert Chunks(rest, size) == [buf] + Chunks(rest[size..], size);
        assert sent + Chunks(rest[size..], size) == before + ([buf] + Chunks(rest[size..], size));
      }
    }
  }

  function Concat(cs: seq<bytes>): bytes {
    if cs == [] then [] else cs[0] + Concat(cs[1..])
  }

  lemma Regroup(a: bytes, b: bytes, c: bytes)
    ensures a + (b + c) == a + b + c
  {
  }

  lemma {:induction false} ConcatAppend(xs: seq<bytes>, ys: seq<bytes>)
    ensures Concat(xs + ys) == Concat(xs) + Concat(ys)
  {
    if xs == [] {
      assert xs + ys == ys;
    } else {
      ConcatAppend(xs[1..], ys);
      assert (xs + ys)[1..] == xs[1..] + ys;
      Regroup(xs[0], Concat(xs[1..]), Concat(ys));
    }
  }

  /** Chunking loses nothing, keeps the order, cuts full chunks, and ends with a
      chunk that is strictly shorter: empty exactly for a whole number of chunks. */
  lemma {:induction false} ChunksPartition(input: bytes, size: nat)
    requires size > 0
    ensures var cs := Chunks(input, size);
      && Concat(cs) == input
      && |cs| == |input| / size + 1
      && (forall i :: 0 <= i < |cs| - 1 ==> |cs[i]| == size)
      && |cs[|cs| - 1]| == |input| % size
    decreases |input|
  {
    if |input| < size {
      assert Concat([input]) == input + Concat([]);
      DivisionIs(|input|, size, 0, |input|);
    } else {
      var rest := input[size..];
      ChunksPartition(rest, size);
      var cs := Chunks(input, size);
      assert cs[1..] == Chunks(rest, size);
      assert Concat(cs) == input[..size] + rest == input;
      SubtractOnce(|input|, size);
      assert forall i :: 1 <= i < |cs| - 1 ==> cs[i] == cs[1..][i - 1];
    }
  }

  lemma QuotientBelowInput(n: nat, size: nat)
    requires size > 0
    ensures n / size <= n
  {
    Multiples(1, size, n / size);
    assert n / size * size <= n;
  }

  lemma ChunksBounded(input: bytes, size: nat)
    requires size > 0
    ensures |Chunks(input, size)| <= |input| + 1
    ensures forall c :: 0 <= c < |Chunks(input, size)| ==> |Chunks(input, size)[c]| <= size
  {
    ChunksPartition(input, size);
    forall c | 0 <= c < |Chunks(input, size)|
      ensures |Chunks(input, size)[c]| <= size
    {
      if c == |Chunks(input, size)| - 1 {
        assert |input| % size < size;
      }
    }
    QuotientBelowInput(|input|, size);
  }

}
