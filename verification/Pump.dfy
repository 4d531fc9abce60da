/** The pump's pipe (base/pump.cc): a byte FIFO over a queue of fixed-size blocks drawn from a growing pool. */
module Pump {
  import opened Common

  type Block = array<bv8>

  const READ_BUF_SIZE: nat := 4096

  // ----- the block pool ----------------------------------------------------------------

  /** TGrowingPool: blocks are handed out, come back and are handed out again, and never given up. */
  class GrowingPool {
    var availBlocks: seq<Block>
    var blocks: seq<Block>
    /** The blocks handed out and not yet recycled. */
    ghost var lent: set<Block>

    ghost predicate Valid()
      reads this
    {
      && NoDup(blocks) && NoDup(availBlocks)
      && Elems(blocks) == Elems(availBlocks) + lent
      && Elems(availBlocks) !! lent
      && forall b | b in blocks :: b.Length == READ_BUF_SIZE
    }

    constructor ()
      ensures Valid() && availBlocks == [] && blocks == [] && lent == {}
    {
      availBlocks, blocks, lent := [], [], {};
      new;
      assert Elems(blocks) == Elems(availBlocks) + lent;
    }

    /** The block handed out was not lent to anyone. */
    method Allocate() returns (b: Block)
      requires Valid()
      modifies this
      ensures Valid() && b !in old(lent) && lent == old(lent) + {b} && b.Length == READ_BUF_SIZE
      ensures b in old(availBlocks) || fresh(b)
      ensures Elems(availBlocks) == Elems(old(availBlocks)) - {b}
    {
      if availBlocks != [] {
        b := availBlocks[0];
        NoDupSplit(availBlocks, 1);
        assert availBlocks[..1] == [b];
        assert Elems(availBlocks[1..]) == Elems(availBlocks) - {b};
        availBlocks := availBlocks[1..];
      } else {
        b := new bv8[READ_BUF_SIZE];
        PushNew(blocks, b);
        blocks := blocks + [b];
      }
      lent := lent + {b};
    }

    method Recycle(b: Block)
      requires Valid() && b in lent
      modifies this
      ensures Valid() && lent == old(lent) - {b} && availBlocks == old(availBlocks) + [b]
    {
      PushNew(availBlocks, b);
      availBlocks := availBlocks + [b];
      lent := lent - {b};
    }
  }

  // ----- the bytes in a queue of blocks ------------------------------------------------

  ghost predicate Full(cs: seq<seq<bv8>>) {
    forall i | 0 <= i < |cs| :: |cs[i]| == READ_BUF_SIZE
  }

  /** The offsets make sense: in a single block the writer is not ahead of the reader. */
  ghost predicate Framed(cs: seq<seq<bv8>>, from: nat, to: nat) {
    && Full(cs) && from <= READ_BUF_SIZE && to <= READ_BUF_SIZE
    && (|cs| == 1 ==> from <= to)
  }

  /** The bytes from offset from of the first block to offset to of the last, every block between being full. */
  ghost function Flat(cs: seq<seq<bv8>>, from: nat, to: nat): seq<bv8>
    requires Framed(cs, from, to)
    decreases cs
  {
    if cs == [] then []
    else if |cs| == 1 then cs[0][from..to]
    else cs[0][from..] + Flat(cs[1..], 0, to)
  }

  /** How much one write may offer: the rest of the first block. */
  ghost function Offer(cs: seq<seq<bv8>>, from: nat, to: nat): nat
    requires Framed(cs, from, to)
  {
    if cs == [] then 0 else if |cs| == 1 then to - from else READ_BUF_SIZE - from
  }

  lemma SliceGrow(was: seq<bv8>, now: seq<bv8>, from: nat, to: nat, more: seq<bv8>)
    requires from <= to && to + |more| <= |now| && to <= |was|
    requires now[..to] == was[..to] && now[to..to + |more|] == more
    ensures now[from..to + |more|] == was[from..to] + more
  {
    assert now[from..to] == now[..to][from..] && was[from..to] == was[..to][from..];
    assert now[from..to + |more|] == now[from..to] + now[to..to + |more|];
  }

  lemma FramedSize(cs: seq<seq<bv8>>, from: nat, to: nat)
    requires Framed(cs, from, to) && cs != []
    ensures |cs[|cs| - 1]| == READ_BUF_SIZE && to <= READ_BUF_SIZE && (|cs| == 1 ==> from <= to)
  {
  }

  /** Reading into the last block appends. */
  lemma {:induction false} FlatGrows(cs: seq<seq<bv8>>, from: nat, to: nat, last: seq<bv8>, more: seq<bv8>)
    requires Framed(cs, from, to) && cs != [] && |last| == READ_BUF_SIZE && to + |more| <= READ_BUF_SIZE
    requires last[..to] == cs[|cs| - 1][..to] && last[to..to + |more|] == more
    ensures Framed(cs[|cs| - 1 := last], from, to + |more|)
    ensures Flat(cs[|cs| - 1 := last], from, to + |more|) == Flat(cs, from, to) + more
    decreases cs
  {
    var now := cs[|cs| - 1 := last];
    if |cs| == 1 {
      SliceGrow(cs[0], last, from, to, more);
      assert now[0] == last;
    } else {
      FlatGrows(cs[1..], 0, to, last, more);
      assert now[1..] == cs[1..][|cs| - 2 := last] && now[0] == cs[0];
      assert cs[0][from..] + (Flat(cs[1..], 0, to) + more) == cs[0][from..] + Flat(cs[1..], 0, to) + more;
    }
  }

  /** Appending an unread block behind a full one adds nothing. */
  lemma {:induction false} FlatNewBlock(cs: seq<seq<bv8>>, from: nat, to: nat, b: seq<bv8>)
    requires Framed(cs, from, to) && |b| == READ_BUF_SIZE && (if cs == [] then from == 0 else to == READ_BUF_SIZE)
    ensures Framed(cs + [b], from, 0) && Flat(cs + [b], from, 0) == Flat(cs, from, to)
    decreases cs
  {
    if cs != [] {
      assert (cs + [b])[1..] == cs[1..] + [b];
      if |cs| > 1 {
        FlatNewBlock(cs[1..], 0, to, b);
      }
    }
  }

  /** A write is offered as much as is buffered, up to the end of the front block. */
  lemma {:induction false} OfferIs(cs: seq<seq<bv8>>, from: nat, to: nat)
    requires Framed(cs, from, to)
    ensures Offer(cs, from, to) == Min(|Flat(cs, from, to)|, READ_BUF_SIZE - from)
  {
  }

  lemma SliceFront(block: seq<bv8>, from: nat, to: nat, n: nat, rest: seq<bv8>)
    requires from + n <= to <= |block|
    ensures (block[from..to] + rest)[..n] == block[from..from + n]
    ensures (block[from..to] + rest)[n..] == block[from + n..to] + rest
  {
    assert block[from..to] == block[from..from + n] + block[from + n..to];
  }

  /** What a write offers is the front of the queue, and taking n bytes of it drops them. */
  lemma FlatAdvance(cs: seq<seq<bv8>>, from: nat, to: nat, n: nat)
    requires Framed(cs, from, to) && cs != [] && n <= Offer(cs, from, to)
    ensures n <= |Flat(cs, from, to)| && cs[0][from..from + n] == Flat(cs, from, to)[..n]
    ensures Framed(cs, from + n, to) && Flat(cs, from + n, to) == Flat(cs, from, to)[n..]
    ensures |cs| > 1 && from + n == READ_BUF_SIZE ==> Flat(cs[1..], 0, to) == Flat(cs, from, to)[n..]
  {
    if |cs| > 1 {
      var rest := Flat(cs[1..], 0, to);
      SliceFront(cs[0], from, READ_BUF_SIZE, n, rest);
      assert cs[0][from..] == cs[0][from..READ_BUF_SIZE] && cs[0][from + n..] == cs[0][from + n..READ_BUF_SIZE];
    } else {
      SliceFront(cs[0], from, to, n, []);
      assert cs[0][from..to] + [] == cs[0][from..to] && cs[0][from + n..to] + [] == cs[0][from + n..to];
    }
  }

  lemma FlatEmpty(cs: seq<seq<bv8>>, from: nat, to: nat)
    requires Framed(cs, from, to) && from < READ_BUF_SIZE
    ensures Flat(cs, from, to) == [] <==> Offer(cs, from, to) == 0
  {
  }

  ghost function ContentsOf(bs: seq<Block>): seq<seq<bv8>>
    reads bs
  {
    seq(|bs|, i requires 0 <= i < |bs| reads bs => bs[i][..])
  }

  lemma ContentsSize(bs: seq<Block>)
    ensures |ContentsOf(bs)| == |bs|
  {
  }

  lemma ContentsTail(bs: seq<Block>)
    requires bs != []
    ensures ContentsOf(bs[1..]) == ContentsOf(bs)[1..]
  {
    ContentsSize(bs);
  }

  lemma FirstIsNotLast(bs: seq<Block>)
    requires NoDup(bs) && |bs| > 1
    ensures bs[0] != bs[|bs| - 1]
  {
  }

  /** Nothing is buffered when there is no block, or one and the reader is where the writer is. */
  lemma FlatNothing(cs: seq<seq<bv8>>, at: nat)
    ensures Flat([], 0, 0) == []
    ensures |cs| == 1 && Framed(cs, at, at) ==> Flat(cs, at, at) == []
  {
  }

  lemma ContentsPush(bs: seq<Block>, b: Block)
    ensures ContentsOf(bs + [b]) == ContentsOf(bs) + [b[..]]
  {
  }

  lemma InElems(bs: seq<Block>, b: Block)
    ensures b in bs <==> b in Elems(bs)
  {
  }

  // ----- the pipe ----------------------------------------------------------------------

  datatype Errno = EAgain | EWouldBlock | EIntr | Other

  /** What the kernel says to a read: an error, or the bytes it has, of which as many as fit are taken; none is the
      end of the stream. */
  datatype ReadResult = ReadFail(errno: Errno) | Got(bytes: seq<bv8>)

  /** What the kernel says to a write: an error, or how many of the bytes offered it takes at most. */
  datatype WriteResult = WriteFail(errno: Errno) | Takes(count: nat)

  function Min(a: nat, b: nat): nat {
    if a < b then a else b
  }

  /** What a write that takes at most count bytes takes of these: no more than the front block holds of them. */
  ghost function Taken(bytes: seq<bv8>, from: nat, count: nat): seq<bv8>
    requires from <= READ_BUF_SIZE
  {
    bytes[..Min(count, Min(|bytes|, READ_BUF_SIZE - from))]
  }

  lemma TakenSome(bytes: seq<bv8>, from: nat, count: nat)
    requires from < READ_BUF_SIZE && count > 0
    ensures Taken(bytes, from, count) <= bytes && (bytes != [] ==> |Taken(bytes, from, count)| > 0)
    ensures Taken(bytes + [], from, count) == Taken(bytes, from, count)
  {
    assert bytes + [] == bytes;
  }

  ghost function Joined(parts: seq<seq<bv8>>): seq<bv8> {
    if parts == [] then [] else Joined(parts[..|parts| - 1]) + parts[|parts| - 1]
  }

  lemma JoinedPush(parts: seq<seq<bv8>>, part: seq<bv8>)
    ensures Joined(parts + [part]) == Joined(parts) + part
  {
    assert (parts + [part])[..|parts|] == parts;
  }

  /** The stream is open before the i-th call: it was to begin with, and no read has found its end. */
  ghost predicate StillOpen(script: seq<(ReadResult, WriteResult)>, open: bool, i: nat)
    requires i <= |script|
  {
    open && forall j | 0 <= j < i :: script[j].0 != Got([])
  }

  lemma StartOfScript(script: seq<(ReadResult, WriteResult)>, open: bool)
    ensures Joined([]) == [] && TakenFrom(script, open, []) && (StillOpen(script, open, 0) <==> open)
  {
  }

  /** While the stream is open a read gives a prefix of its bytes, and something if it has something. */
  ghost predicate TookFrom(read: ReadResult, open: bool, part: seq<bv8>) {
    if open && read.Got? then
      part <= read.bytes && |part| <= READ_BUF_SIZE && (part == [] ==> read.bytes == [])
    else part == []
  }

  /** What each of the calls took in. */
  ghost predicate TakenFrom(script: seq<(ReadResult, WriteResult)>, open: bool, taken: seq<seq<bv8>>)
    requires |taken| <= |script|
  {
    forall i | 0 <= i < |taken| ::
      TookFrom(script[i].0, StillOpen(script, open, i), taken[i])
  }

  lemma TakenPush(script: seq<(ReadResult, WriteResult)>, open: bool, taken: seq<seq<bv8>>, part: seq<bv8>)
    requires |taken| < |script| && TakenFrom(script, open, taken)
    requires TookFrom(script[|taken|].0, StillOpen(script, open, |taken|), part)
    ensures TakenFrom(script, open, taken + [part])
  {
    hide TookFrom, StillOpen;
  }

  lemma OpenStep(script: seq<(ReadResult, WriteResult)>, open: bool, i: nat)
    requires i < |script|
    ensures StillOpen(script, open, i + 1) <==> StillOpen(script, open, i) && script[i].0 != Got([])
  {
  }

  /** What a read gives when there is this much room. */
  ghost function Part(read: ReadResult, open: bool, space: nat): (part: seq<bv8>)
    ensures 0 < space <= READ_BUF_SIZE ==> TookFrom(read, open, part)
  {
    if open && read.Got? then read.bytes[..Min(|read.bytes|, space)] else []
  }

  lemma TakeIn(script: seq<(ReadResult, WriteResult)>, open: bool, taken: seq<seq<bv8>>, start: seq<bv8>, was: seq<bv8>,
               part: seq<bv8>)
    requires |taken| < |script| && TakenFrom(script, open, taken) && was == start + Joined(taken)
    requires TookFrom(script[|taken|].0, StillOpen(script, open, |taken|), part)
    ensures TakenFrom(script, open, taken + [part]) && was + part == start + Joined(taken + [part])
    ensures var i := |taken|; StillOpen(script, open, i + 1) <==> StillOpen(script, open, i) && script[i].0 != Got([])
  {
    hide Joined, StillOpen, TakenFrom, TookFrom;
    JoinedPush(taken, part);
    TakenPush(script, open, taken, part);
    OpenStep(script, open, |taken|);
    assert start + Joined(taken) + part == start + (Joined(taken) + part);
  }

  class Pipe {
    const pool: GrowingPool
    var blocks: seq<Block>
    var readOffset: nat
    var writeOffset: nat
    var writing: bool
    var readOpen: bool
    /** Everything read from one end and written to the other, and whether a write failed for good. */
    ghost var bytesIn: seq<bv8>
    ghost var bytesOut: seq<bv8>
    ghost var failed: bool

    ghost function Contents(): seq<seq<bv8>>
      reads this`blocks, blocks
    {
      ContentsOf(blocks)
    }

    /** The blocks are ours alone and the offsets lie in them. */
    ghost predicate Held()
      reads this`blocks, this`readOffset, this`writeOffset, pool, blocks
    {
      && pool.Valid() && NoDup(blocks) && Elems(blocks) <= pool.lent
      && Framed(Contents(), writeOffset, readOffset)
      && writeOffset < READ_BUF_SIZE && (blocks == [] ==> writeOffset == 0)
      && (|blocks| == 1 && writeOffset == readOffset ==> writeOffset == 0)
    }

    /** The blocks lent to other pipes. */
    ghost function Others(): set<Block>
      reads this`blocks, pool
    {
      pool.lent - Elems(blocks)
    }

    /** The blocks we may write to. */
    ghost function Territory(): set<Block>
      reads this`blocks, pool
    {
      Elems(blocks) + Elems(pool.availBlocks)
    }

    /** The bytes between the reader and the writer. */
    ghost function Buffered(): seq<bv8>
      requires Held()
      reads this`blocks, this`readOffset, this`writeOffset, pool, blocks
    {
      Flat(Contents(), writeOffset, readOffset)
    }

    ghost predicate Valid()
      reads this, pool, blocks
    {
      && Held()
      && bytesIn == bytesOut + Buffered()
      && (Buffered() != [] && !failed ==> writing)
      && (failed ==> !readOpen && !writing)
    }

    constructor (pool: GrowingPool)
      requires pool.Valid()
      ensures this.pool == pool && Valid() && bytesIn == [] && bytesOut == [] && !failed && readOpen
    {
      this.pool := pool;
      blocks, readOffset, writeOffset := [], 0, 0;
      writing, readOpen, failed := false, true, false;
      bytesIn, bytesOut := [], [];
    }

    /** A new last block, when there is none or the last is full. */
    method AcquireBlock()
      requires Held() && (blocks == [] || readOffset == READ_BUF_SIZE)
      modifies this`blocks, this`readOffset, pool
      ensures Held() && blocks != [] && readOffset == 0 && Buffered() == old(Buffered())
      ensures blocks[..|blocks| - 1] == old(blocks)
      ensures blocks[|blocks| - 1] in old(pool.availBlocks) || fresh(blocks[|blocks| - 1])
      ensures Others() == old(Others()) && fresh(Territory() - old(Territory()))
    {
      hide Flat, Framed, NoDup, Elems, ContentsOf;
      var b := pool.Allocate();
      InElems(old(pool.availBlocks), b);
      PushNew(blocks, b);
      Append(b);
    }

    method Append(b: Block)
      requires pool.Valid() && NoDup(blocks) && Elems(blocks) <= pool.lent && b !in Elems(blocks) && b in pool.lent
      requires b.Length == READ_BUF_SIZE && Framed(Contents(), writeOffset, readOffset) && writeOffset < READ_BUF_SIZE
      requires if blocks == [] then writeOffset == 0 else readOffset == READ_BUF_SIZE
      modifies this`blocks, this`readOffset
      ensures Held() && blocks == old(blocks) + [b] && readOffset == 0
      ensures Buffered() == old(Flat(Contents(), writeOffset, readOffset))
    {
      hide Flat, Framed, NoDup, Elems, ContentsOf;
      ContentsSize(blocks);
      FlatNewBlock(Contents(), writeOffset, readOffset, b[..]);
      InElems(blocks, b);
      PushNew(blocks, b);
      ContentsPush(blocks, b);
      blocks := blocks + [b];
      readOffset := 0;
    }

    /** The first block goes back to the pool; it holds nothing that is still to be written. */
    method ReleaseBlock()
      requires pool.Valid() && NoDup(blocks) && Elems(blocks) <= pool.lent && blocks != []
      modifies this`blocks, pool
      ensures pool.Valid() && NoDup(blocks) && Elems(blocks) <= pool.lent && blocks == old(blocks)[1..]
      ensures pool.lent == old(pool.lent) - {old(blocks)[0]}
      ensures Others() == old(Others()) && Territory() == old(Territory())
    {
      NoDupSplit(blocks, 1);
      assert blocks[..1] == [blocks[0]];
      var b := blocks[0];
      assert Elems(blocks) == Elems(blocks[1..]) + {b};
      PushNew(pool.availBlocks, b);
      blocks := blocks[1..];
      pool.Recycle(b);
    }

    /** The kernel puts bytes behind the reader's offset in the last block. */
    method Fill(bytes: seq<bv8>)
      requires Held() && blocks != [] && readOffset + |bytes| <= READ_BUF_SIZE && bytes != []
      modifies this`readOffset, blocks[|blocks| - 1]
      ensures Held() && Buffered() == old(Buffered()) + bytes && readOffset == old(readOffset) + |bytes|
    {
      hide Flat, Framed, NoDup, Elems;
      FramedSize(Contents(), writeOffset, readOffset);
      ghost var cs := Contents();
      var last, at := blocks[|blocks| - 1], readOffset;
      CopyIn(last, at, bytes);
      FlatGrows(cs, writeOffset, at, last[..], bytes);
      readOffset := at + |bytes|;
      LastChanged(cs);
    }

    /** The bytes a read puts into a block. */
    static method CopyIn(block: Block, at: nat, bytes: seq<bv8>)
      requires at + |bytes| <= block.Length
      modifies block
      ensures block[..][..at] == old(block[..])[..at] && block[..][at..at + |bytes|] == bytes
    {
      forall i | 0 <= i < |bytes| {
        block[at + i] := bytes[i];
      }
    }

    /** Writing into the last block changes the last content only, because no block is in the queue twice. */
    twostate lemma LastChanged(cs: seq<seq<bv8>>)
      requires cs == old(Contents()) && blocks == old(blocks) && blocks != [] && NoDup(blocks)
      requires forall b | b in blocks && b != blocks[|blocks| - 1] :: b[..] == old(b[..])
      ensures Contents() == cs[|cs| - 1 := blocks[|blocks| - 1][..]]
    {
      forall i | 0 <= i < |cs| ensures Contents()[i] == cs[|cs| - 1 := blocks[|blocks| - 1][..]][i] {
        assert i < |cs| - 1 ==> blocks[i] != blocks[|blocks| - 1];
      }
    }

    method StartWriting()
      modifies this`writing
      ensures writing
    {
      if !writing {
        writing := true;
      }
    }

    method StopWriting()
      modifies this`writing
      ensures !writing
    {
      writing := false;
    }

    method StopReading()
      modifies this`readOpen
      ensures !readOpen
    {
      if readOpen {
        readOpen := false;
      }
    }

    /** How many bytes the next read may take: the rest of the last block, or a whole new one. */
    ghost function Space(): nat
      requires readOffset <= READ_BUF_SIZE
      reads this`blocks, this`readOffset
    {
      if blocks == [] || readOffset == READ_BUF_SIZE then READ_BUF_SIZE else READ_BUF_SIZE - readOffset
    }

    /** There is room behind the reader's offset. */
    method MakeRoom()
      requires Held()
      modifies this`blocks, this`readOffset, pool
      ensures Held() && blocks != [] && Buffered() == old(Buffered())
      ensures READ_BUF_SIZE - readOffset == old(Space()) == Space()
      ensures blocks[|blocks| - 1] in old(blocks) || blocks[|blocks| - 1] in old(pool.availBlocks)
              || fresh(blocks[|blocks| - 1])
      ensures Others() == old(Others()) && fresh(Territory() - old(Territory()))
    {
      if blocks == [] || readOffset == READ_BUF_SIZE {
        AcquireBlock();
      }
    }

    /** The reading half of Service. Returns the errno of a read that throws. */
    method ReadHalf(result: ReadResult) returns (thrown: Option<Errno>)
      requires Valid() && readOpen
      modifies this`blocks, this`readOffset, this`writing, this`readOpen, this`bytesIn, pool, blocks, pool.availBlocks
      ensures Valid() && !failed && bytesOut == old(bytesOut)
      ensures thrown.Some? <==> result.ReadFail? && (result.errno.EIntr? || result.errno.Other?)
      ensures thrown.Some? ==> thrown.value == result.errno
      ensures readOpen <==> result != Got([])
      ensures old(writing) ==> writing
      ensures bytesIn == old(bytesIn) + Part(result, true, old(Space()))
      ensures Buffered() == old(Buffered()) + Part(result, true, old(Space()))
      ensures result.Got? ==> bytesIn == old(bytesIn) + result.bytes || readOffset == 4096
      ensures Others() == old(Others()) && fresh(Territory() - old(Territory()))
    {
      hide Flat, Framed, NoDup, Elems;
      thrown := None;
      assert Framed(Contents(), writeOffset, readOffset);
      MakeRoom();
      match result {
        case ReadFail(errno) =>
          if !errno.EAgain? && !errno.EWouldBlock? {
            thrown := Some(errno);
          }
        case Got(bytes) =>
          if bytes == [] {
            StopReading();
          } else {
            var n := Min(|bytes|, READ_BUF_SIZE - readOffset);
            Fill(bytes[..n]);
            bytesIn := bytesIn + bytes[..n];
            StartWriting();
          }
      }
    }

    /** bytes_to_write: nothing, up to the reader in its block, or the rest of an own block. The two blocks are
        compared by address, which works because no block is in the queue twice. */
    method BytesToWrite() returns (n: nat)
      requires Held()
      ensures n == Offer(Contents(), writeOffset, readOffset)
      ensures (n == 0 <==> Buffered() == []) && (n > 0 ==> blocks != [])
    {
      FlatEmpty(Contents(), writeOffset, readOffset);
      if blocks == [] {
        n := 0;
      } else if blocks[0] == blocks[|blocks| - 1] {
        n := readOffset - writeOffset;
      } else {
        n := READ_BUF_SIZE - writeOffset;
      }
    }

    /** The bookkeeping after a write of n bytes. */
    method Advance(n: nat)
      requires Held() && blocks != [] && 0 < Offer(Contents(), writeOffset, readOffset)
      requires n <= Offer(Contents(), writeOffset, readOffset)
      modifies this`blocks, this`readOffset, this`writeOffset, pool
      ensures Held() && n <= |old(Buffered())| && Buffered() == old(Buffered())[n..]
      ensures n == old(Offer(Contents(), writeOffset, readOffset)) ==> writeOffset == 0
      ensures readOffset == old(readOffset) || Buffered() == []
      ensures Others() == old(Others()) && Territory() == old(Territory())
    {
      hide Flat, NoDup, Elems, ContentsOf;
      ghost var cs := Contents();
      ContentsSize(blocks);
      ContentsTail(blocks);
      FlatAdvance(cs, writeOffset, readOffset, n);
      FlatNothing(cs, writeOffset + n);
      if |blocks| > 1 {
        FirstIsNotLast(blocks);
      }
      writeOffset := writeOffset + n;
      if blocks[0] == blocks[|blocks| - 1] && readOffset == writeOffset {
        ReleaseBlock();
        ContentsSize(blocks);
        readOffset := 0;
        writeOffset := 0;
      } else if writeOffset == READ_BUF_SIZE {
        ReleaseBlock();
        ContentsSize(blocks);
        writeOffset := 0;
      }
    }

    /** The memory a write is given holds the front of the queue. */
    lemma FrontIs(k: nat)
      requires Held() && blocks != [] && k <= Offer(Contents(), writeOffset, readOffset)
      ensures writeOffset + k <= blocks[0].Length && k <= |Buffered()|
      ensures blocks[0][writeOffset..writeOffset + k] == Buffered()[..k]
    {
      hide Flat;
      FlatAdvance(Contents(), writeOffset, readOffset, k);
      assert Contents()[0] == blocks[0][..];
    }

    /** A write of k bytes from the front block. */
    method Deliver(k: nat)
      requires Held() && blocks != [] && 0 < Offer(Contents(), writeOffset, readOffset)
      requires k <= Offer(Contents(), writeOffset, readOffset)
      modifies this`blocks, this`readOffset, this`writeOffset, this`bytesOut, pool
      ensures Held() && k <= |old(Buffered())| && Buffered() == old(Buffered())[k..]
      ensures bytesOut == old(bytesOut) + old(Buffered())[..k]
      ensures k == old(Offer(Contents(), writeOffset, readOffset)) ==> writeOffset == 0
      ensures readOffset == old(readOffset) || Buffered() == []
      ensures Others() == old(Others()) && Territory() == old(Territory())
    {
      hide Flat, Framed, NoDup, Elems, ContentsOf, Offer;
      FrontIs(k);
      bytesOut := bytesOut + blocks[0][writeOffset..writeOffset + k];
      Advance(k);
    }

    /** The writing half of Service. False if the write failed for good. */
    method WriteHalf(result: WriteResult) returns (ok: bool)
      requires Valid() && writing && !failed
      modifies this`blocks, this`readOffset, this`writeOffset, this`writing, this`readOpen, this`bytesOut, this`failed
      modifies pool
      ensures Valid() && bytesIn == old(bytesIn) && failed == !ok
      ensures ok <==> old(Buffered()) == [] || result.Takes? || !result.errno.Other?
      ensures (ok ==> readOpen == old(readOpen)) && (old(Buffered()) == [] ==> !writing)
      ensures bytesOut == old(bytesOut) + if result.Takes? then
                            Taken(old(Buffered()), old(writeOffset), result.count)
                          else []
      ensures result.Takes? && result.count > 0 && old(Buffered()) != [] ==> |bytesOut| > |old(bytesOut)|
      ensures result.Takes? ==> |bytesOut| == |old(bytesOut)| + result.count || bytesOut == bytesIn || writeOffset == 0
      ensures readOffset == old(readOffset) || bytesOut == bytesIn
      ensures Others() == old(Others()) && Territory() == old(Territory())
    {
      hide Flat, Framed, NoDup, Elems, ContentsOf, Offer;
      OfferIs(Contents(), writeOffset, readOffset);
      ok := true;
      var n := BytesToWrite();
      if n == 0 {
        StopWriting();
        return;
      }
      match result {
        case WriteFail(errno) =>
          if errno.Other? {
            StopReading();
            StopWriting();
            failed := true;
            ok := false;
          }
        case Takes(count) =>
          var k := Min(count, n);
          Deliver(k);
      }
    }

    /** One call: Err if the read throws, otherwise whether the pipe lives on. */
    method Service(read: ReadResult, write: WriteResult) returns (r: Result<bool, Errno>)
      requires Valid() && (readOpen || writing)
      modifies this, pool, Territory()
      ensures Valid()
      ensures r.Err? <==> old(readOpen) && read.ReadFail? && (read.errno.EIntr? || read.errno.Other?)
      ensures r.Err? ==> read == ReadFail(r.error)
      ensures r.Ok? ==> r.value == (readOpen || writing)
      ensures r == Ok(false) && !failed ==> bytesOut == bytesIn
      ensures failed ==> write == WriteFail(Other)
      ensures bytesIn == old(bytesIn) + Part(read, old(readOpen), old(Space()))
      ensures bytesOut == old(bytesOut) + if r.Ok? && write.Takes? then
                            Taken(old(Buffered()) + Part(read, old(readOpen), old(Space())),
                                  old(writeOffset), write.count)
                          else []
      ensures old(bytesOut) <= bytesOut <= bytesIn
      ensures r.Ok? && old(readOpen) && read.Got? ==>
                bytesIn == old(bytesIn) + read.bytes || readOffset == 4096 || bytesOut == bytesIn
      ensures r.Ok? && write.Takes? ==>
                |bytesOut| == |old(bytesOut)| + write.count || bytesOut == bytesIn || writeOffset == 0
      ensures !old(readOpen) ==> !readOpen
      ensures r == Ok(true) && old(readOpen) ==> (readOpen <==> read != Got([]))
      ensures !old(readOpen) && old(Buffered()) == [] ==> r == Ok(false)
      ensures Others() == old(Others()) && fresh(Territory() - old(Territory()))
    {
      hide Flat, Framed, NoDup, Elems, Offer;
      InTerritory();
      if readOpen {
        var thrown := ReadHalf(read);
        if thrown.Some? {
          return Err(thrown.value);
        }
      }
      if writing {
        var ok := WriteHalf(write);
        if !ok {
          return Ok(false);
        }
      }
      r := Ok(readOpen || writing);
    }

    /** The pump's loop over one pipe: any number of calls with any results, until the pipe dies, a read throws or
        the script ends. What came in is what the reads gave, each cut to the room there was, until the stream ended. */
    method ServiceAll(script: seq<(ReadResult, WriteResult)>)
      returns (r: Result<bool, Errno>, ghost taken: seq<seq<bv8>>)
      requires Valid() && (readOpen || writing) && !failed
      modifies this, pool, Territory()
      ensures Valid() && old(bytesOut) <= bytesOut <= bytesIn
      ensures |taken| <= |script| && (|taken| == |script| || r != Ok(true))
      ensures bytesIn == old(bytesIn) + Joined(taken) && TakenFrom(script, old(readOpen), taken)
      ensures r.Err? ==> taken != [] && script[|taken| - 1].0 == ReadFail(r.error)
      ensures r.Ok? ==> r.value == (readOpen || writing)
      ensures r == Ok(false) && !failed ==> bytesOut == bytesIn
      ensures failed ==> exists i | 0 <= i < |script| :: script[i].1 == WriteFail(Other)
      ensures Others() == old(Others())
    {
      hide Flat, Framed, NoDup, Elems, Held, Joined, StillOpen, TakenFrom, TookFrom, ContentsOf, Taken;
      StartOfScript(script, readOpen);
      r, taken := Ok(true), [];
      var i := 0;
      while i < |script|
        invariant 0 <= i == |taken| <= |script| && Valid() && !failed && (readOpen || writing) && r == Ok(true)
        invariant old(bytesOut) <= bytesOut <= bytesIn && Others() == old(Others())
        invariant bytesIn == old(bytesIn) + Joined(taken) && TakenFrom(script, old(readOpen), taken)
        invariant readOpen <==> StillOpen(script, old(readOpen), i)
        invariant fresh(Territory() - old(Territory()))
      {
        ghost var before, was := Territory(), bytesIn;
        RoomLeft();
        ghost var part := Part(script[i].0, readOpen, Space());
        label Before:
        r := Service(script[i].0, script[i].1);
        forall b | b in Territory() && b !in old(Territory()) ensures fresh(b) {
          assert b !in before ==> fresh@Before(b);
        }
        TakeIn(script, old(readOpen), taken, old(bytesIn), was, part);
        taken := taken + [part];
        i := i + 1;
        if r != Ok(true) {
          return;
        }
      }
    }

    lemma RoomLeft()
      requires Valid()
      ensures writeOffset < READ_BUF_SIZE && readOffset <= READ_BUF_SIZE && 0 < Space() <= READ_BUF_SIZE
    {
    }

    lemma InTerritory()
      ensures forall b | b in blocks || b in pool.availBlocks :: b in Territory()
    {
    }

    /** Once the stream has ended, writes that each take something deliver everything, and then the pipe dies. */
    method Drain(counts: seq<nat>) returns (r: Result<bool, Errno>)
      requires Valid() && !readOpen && writing && !failed && |counts| > |Buffered()|
      requires forall i | 0 <= i < |counts| :: counts[i] > 0
      modifies this, pool, Territory()
      ensures Valid() && r == Ok(false) && bytesIn == old(bytesIn) && bytesOut == bytesIn
    {
      hide Flat, Framed, NoDup, Elems, Held;
      r := Ok(true);
      var i := 0;
      while r == Ok(true)
        invariant 0 <= i <= |counts| && Valid() && !failed && !readOpen && bytesIn == old(bytesIn)
        invariant r == Ok(true) ==> writing && i + |bytesIn| - |bytesOut| < |counts|
        invariant r == Ok(true) || (r == Ok(false) && bytesOut == bytesIn)
        invariant fresh(Territory() - old(Territory()))
        decreases |counts| - i, if r == Ok(true) then 1 else 0
      {
        ghost var before := Territory();
        RoomLeft();
        TakenSome(Buffered(), writeOffset, counts[i]);
        label Before:
        r := Service(Got([]), Takes(counts[i]));
        forall b | b in Territory() && b !in old(Territory()) ensures fresh(b) {
          assert b !in before ==> fresh@Before(b);
        }
        i := i + 1;
      }
    }

    /** ~TPipe: every block goes back to the pool. */
    method Close()
      requires Valid()
      modifies this, pool
      ensures pool.Valid() && pool.lent == old(pool.lent) - Elems(old(blocks)) && !readOpen && !writing && blocks == []
    {
      if readOpen {
        StopReading();
      }
      if writing {
        StopWriting();
      }
      while blocks != []
        invariant pool.Valid() && NoDup(blocks) && Elems(blocks) <= pool.lent
        invariant Others() == old(Others()) && !readOpen && !writing
        decreases |blocks|
      {
        ReleaseBlock();
      }
      assert Elems(blocks) == {};
    }
  }
}
