/** The bump allocator. */
module ArenaModel {
  import opened Options
  import opened Arith
  import opened Bits

  datatype Chunk = Chunk(data: nat, size: nat, used: nat)

  /** A block handed out: `size` bytes from `addr` on, in chunk number `chunk`. */
  datatype Block = Block(addr: nat, size: nat, chunk: nat)

  predicate ApartBytes(a: nat, n: nat, b: nat, m: nat) {
    a + n <= b || b + m <= a
  }

  function Padding(addr: nat, align: nat): (p: nat)
    requires align > 0
    ensures p < align && (addr + p) % align == 0
  {
    ModRoundsUp(addr, align);
    (align - addr % align) % align
  }

  lemma PaddingLeast(addr: nat, align: nat)
    requires align > 0
    ensures forall a: nat :: addr <= a && Multiple(a, align) ==> addr + Padding(addr, align) <= a
  {
    hide Padding;
    var u := addr + Padding(addr, align);
    forall a: nat | addr <= a && Multiple(a, align)
      ensures u <= a
    {
      if a < u {
        MultiplesApart(u, a, align);
      }
    }
  }

  /** The least aligned address at or after the bytes in use. */
  ghost predicate Lowest(c: Chunk, addr: nat, align: nat)
    requires align > 0
  {
    c.data + c.used <= addr && addr % align == 0 && forall a: nat :: c.data + c.used <= a && Multiple(a, align) ==> addr <= a
  }

  /** The chunk used up to an address and no further. */
  function UsedTo(c: Chunk, end: nat): Chunk {
    c.(used := if end >= c.data then end - c.data else 0)
  }

  predicate ChunksApart(chunks: seq<Chunk>) {
    forall i, j :: 0 <= i < j < |chunks| ==> ApartBytes(chunks[i].data, chunks[i].size, chunks[j].data, chunks[j].size)
  }

  /** A block lies in the used part of its chunk. */
  predicate Inside(b: Block, chunks: seq<Chunk>) {
    b.chunk < |chunks| && chunks[b.chunk].data <= b.addr && b.addr + b.size <= chunks[b.chunk].data + chunks[b.chunk].used
  }

  predicate BlocksApart(blocks: seq<Block>) {
    forall i, j :: 0 <= i < j < |blocks| ==> ApartBytes(blocks[i].addr, blocks[i].size, blocks[j].addr, blocks[j].size)
  }

  predicate ChunksOk(chunks: seq<Chunk>) {
    |chunks| > 0 && ChunksApart(chunks) && forall i :: 0 <= i < |chunks| ==> chunks[i].used <= chunks[i].size
  }

  /** `malloc` hands out memory no chunk owns. */
  predicate Unowned(chunks: seq<Chunk>, data: nat, size: nat) {
    forall i :: 0 <= i < |chunks| ==> ApartBytes(chunks[i].data, chunks[i].size, data, size)
  }

  lemma Bumped(chunks: seq<Chunk>, blocks: seq<Block>, c: nat, off: nat, size: nat)
    requires ChunksOk(chunks) && BlocksApart(blocks) && c < |chunks|
    requires forall k :: 0 <= k < |blocks| ==> Inside(blocks[k], chunks)
    requires chunks[c].used <= off && off + size <= chunks[c].size
    ensures var after := chunks[c := chunks[c].(used := off + size)];
      var more := blocks + [Block(chunks[c].data + off, size, c)];
      && ChunksOk(after) && BlocksApart(more) && forall k :: 0 <= k < |more| ==> Inside(more[k], after)
  {
    var b := Block(chunks[c].data + off, size, c);
    forall k | 0 <= k < |blocks|
      ensures ApartBytes(blocks[k].addr, blocks[k].size, b.addr, b.size)
    {
      assert Inside(blocks[k], chunks);
      var d := blocks[k].chunk;
      if d < c {
        assert ApartBytes(chunks[d].data, chunks[d].size, chunks[c].data, chunks[c].size);
      } else if c < d {
        assert ApartBytes(chunks[c].data, chunks[c].size, chunks[d].data, chunks[d].size);
      }
    }
  }

  class Arena {
    var chunkSize: nat
    var chunks: seq<Chunk>
    /** Blocks handed out since the last reset. */
    ghost var blocks: seq<Block>

    ghost predicate Valid()
      reads this
    {
      && ChunksOk(chunks) && BlocksApart(blocks)
      && forall k :: 0 <= k < |blocks| ==> Inside(blocks[k], chunks)
    }

    constructor (chunkSize: nat, data: nat)
      ensures Valid() && chunks == [Chunk(data, chunkSize, 0)] && blocks == [] && this.chunkSize == chunkSize
    {
      this.chunkSize := chunkSize;
      chunks := [Chunk(data, chunkSize, 0)];
      blocks := [];
    }

    method AllocateNewChunk(data: nat)
      requires Valid() && Unowned(chunks, data, chunkSize)
      modifies this
      ensures Valid() && chunks == old(chunks) + [Chunk(data, chunkSize, 0)]
      ensures chunkSize == old(chunkSize) && blocks == old(blocks)
    {
      chunks := chunks + [Chunk(data, chunkSize, 0)];
      assert forall k :: 0 <= k < |blocks| ==> Inside(blocks[k], old(chunks));
    }

    /** Bumps the newest chunk if the request fits there. */
    method TryBump(size: nat, align: nat) returns (r: Option<nat>)
      requires Valid() && align > 0
      modifies this
      ensures Valid() && chunkSize == old(chunkSize) && |chunks| == |old(chunks)|
      ensures var c := old(chunks[|chunks| - 1]);
        r.Some? <==> c.used + Padding(c.data + c.used, align) + size <= c.size
      ensures r.None? ==> chunks == old(chunks) && blocks == old(blocks)
      ensures r.Some? ==> r.value % align == 0 && blocks == old(blocks) + [Block(r.value, size, |chunks| - 1)]
      ensures r.Some? ==> Lowest(old(chunks[|chunks| - 1]), r.value, align)
      ensures r.Some? ==> chunks == old(chunks)[|chunks| - 1 := UsedTo(old(chunks[|chunks| - 1]), r.value + size)]
    {
      var n := |chunks| - 1;
      var c := chunks[n];
      var padding := Padding(c.data + c.used, align);
      if c.used + padding + size > c.size {
        return None;
      }
      var off := c.used + padding;
      PaddingLeast(c.data + c.used, align);
      Bumped(chunks, blocks, n, off, size);
      chunks := chunks[n := c.(used := off + size)];
      blocks := blocks + [Block(c.data + off, size, n)];
      return Some(c.data + off);
    }

    /**
      `next` is what `malloc` would answer if a new chunk is needed. `None` means that the
      request does not fit even there, so that the code would retry again with another chunk.
     */
    method Allocate(size: nat, align: nat, next: nat) returns (r: Option<nat>)
      requires Valid() && align > 0
      requires Unowned(chunks, next, Larger(chunkSize, size))
      modifies this
      ensures Valid() && |chunks| <= |old(chunks)| + 1
      ensures r.Some? ==> r.value % align == 0 && |blocks| == |old(blocks)| + 1
      ensures r.Some? ==> blocks[..|old(blocks)|] == old(blocks)
      ensures r.Some? ==> blocks[|old(blocks)|].addr == r.value && blocks[|old(blocks)|].size == size
      ensures r.None? <==> !Fits(old(chunks[|chunks| - 1]), size, align) && !FitsFresh(next, size, align, old(chunkSize))
      ensures next % align == 0 ==> r.Some?
      ensures r.Some? ==>
        var fits := Fits(old(chunks[|chunks| - 1]), size, align);
        var c := if fits then old(chunks[|chunks| - 1]) else Chunk(next, Larger(old(chunkSize), size), 0);
        && Lowest(c, r.value, align)
        && chunks == (if fits then old(chunks[..|chunks| - 1]) else old(chunks)) + [UsedTo(c, r.value + size)]
    {
      r := TryBump(size, align);
      if r.None? {
        chunkSize := Larger(chunkSize, size);
        AllocateNewChunk(next);
        AlignedFits(next, align, size, old(chunkSize));
        r := TryBump(size, align);
      }
    }

    /** Makes all memory available again; no block handed out before counts any more. */
    method Reset()
      requires Valid()
      modifies this
      ensures Valid() && blocks == [] && chunkSize == old(chunkSize) && |chunks| == |old(chunks)|
      ensures forall i :: 0 <= i < |chunks| ==> chunks[i] == old(chunks)[i].(used := 0)
    {
      blocks := [];
      for i := 0 to |chunks|
        invariant |chunks| == |old(chunks)| && blocks == [] && chunkSize == old(chunkSize)
        invariant forall j :: 0 <= j < i ==> chunks[j] == old(chunks)[j].(used := 0)
        invariant forall j :: i <= j < |chunks| ==> chunks[j] == old(chunks)[j]
      {
        chunks := chunks[i := chunks[i].(used := 0)];
      }
    }
  }

  function Larger(a: nat, b: nat): nat {
    if b > a then b else a
  }

  predicate Fits(c: Chunk, size: nat, align: nat)
    requires align > 0
  {
    c.used + Padding(c.data + c.used, align) + size <= c.size
  }

  /** The second try succeeds. */
  predicate FitsFresh(data: nat, size: nat, align: nat, chunkSize: nat)
    requires align > 0
  {
    Padding(data, align) + size <= Larger(chunkSize, size)
  }

  /** A chunk that starts aligned always fits the request it was made for. */
  lemma {:induction false} AlignedFits(data: nat, align: nat, size: nat, chunkSize: nat)
    requires align > 0
    ensures data % align == 0 ==> FitsFresh(data, size, align, chunkSize)
  {
    if data % align == 0 {
      DivUnique(align, align, 1, 0);
    }
  }

  /** Otherwise a request as large as a chunk never fits: every retry fails in the same way. */
  lemma {:induction false} MisalignedNeverFits(data: nat, align: nat, size: nat, chunkSize: nat)
    requires align > 0 && data % align != 0 && size >= chunkSize
    ensures !FitsFresh(data, size, align, chunkSize)
  {
    var p := Padding(data, align);
    assert (data + p) % align == 0;
  }
}
