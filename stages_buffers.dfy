/**
 * The stages of data_filter.py that gather data across packets in a
 * buffer held by the stage: Batch, DistillHeader, DataBuffer, Join, Peek
 * and CollectData. Each is a class whose fields are the stage's buffer;
 * filter_data returns the sends it makes, in order.
 */
module BufferStages {
  import opened Errors
  import opened Strings
  import opened Values
  import opened Packets
  import opened StageCommon
  import StageKeys

  // =====================================================================
  // Batch: the specification of splitting into blocks

  /** The whole blocks of n chars at the front of s, in order. */
  function Blocks(s: string, n: int): (bs: seq<string>)
    requires n > 0
    decreases |s|
  {
    if |s| < n then [] else [s[..n]] + Blocks(s[n..], n)
  }

  /** What is left of s after its whole blocks. */
  function Leftover(s: string, n: int): (r: string)
    requires n > 0
    decreases |s|
  {
    if |s| < n then s else Leftover(s[n..], n)
  }

  /** Every block has exactly n chars. */
  lemma {:induction false} BlocksSized(s: string, n: int)
    requires n > 0
    ensures forall i :: 0 <= i < |Blocks(s, n)| ==> |Blocks(s, n)[i]| == n
    decreases |s|
  {
    if |s| >= n {
      BlocksSized(s[n..], n);
    }
  }

  /** The leftover is shorter than a block. */
  lemma {:induction false} LeftoverShort(s: string, n: int)
    requires n > 0
    ensures |Leftover(s, n)| < n
    decreases |s|
  {
    if |s| >= n {
      LeftoverShort(s[n..], n);
    }
  }

  /** The blocks followed by the leftover are s. */
  lemma {:induction false} BlocksRejoin(s: string, n: int)
    requires n > 0
    ensures Concat(Blocks(s, n)) + Leftover(s, n) == s
    decreases |s|
  {
    if |s| >= n {
      var rest := s[n..];
      assert s == s[..n] + rest;
      BlocksRejoin(rest, n);
      var bs := Blocks(s, n);
      assert bs == [s[..n]] + Blocks(rest, n);
      assert bs[0] == s[..n] && bs[1..] == Blocks(rest, n);
      assert Concat(bs) == s[..n] + Concat(Blocks(rest, n));
      ConcatAssoc(s[..n], Concat(Blocks(rest, n)), Leftover(rest, n));
    }
  }

  /** One block taken off the front at position k. */
  lemma BlocksStep(all: string, k: nat, n: int)
    requires n > 0 && k + n <= |all|
    ensures Blocks(all[k..], n) == [all[k..k + n]] + Blocks(all[k + n..], n)
    ensures Leftover(all[k..], n) == Leftover(all[k + n..], n)
  {
    assert all[k..][..n] == all[k..k + n];
    assert all[k..][n..] == all[k + n..];
  }

  /** The loop step of Batch: the block at k joins those already sent. */
  lemma BlocksAdvance(all: string, k: nat, n: int, done: seq<string>, block: string,
                      k2: nat, done2: seq<string>)
    requires n > 0 && k <= |all| && block == PySlice(all, k, k + n) && |block| == n
    requires k2 == k + n && done2 == done + [block]
    requires Blocks(all, n) == done + Blocks(all[k..], n)
    requires Leftover(all, n) == Leftover(all[k..], n)
    ensures k2 <= |all|
    ensures Blocks(all, n) == done2 + Blocks(all[k2..], n)
    ensures Leftover(all, n) == Leftover(all[k2..], n)
  {
    BlocksStep(all, k, n);
    assert done + ([block] + Blocks(all[k + n..], n)) == (done + [block]) + Blocks(all[k + n..], n);
  }

  /** The sends of Batch for the blocks bs: a clone of p per block, to dest. */
  function BlockSends(p: Packet, bs: seq<string>, dest: string): (r: seq<Send>)
    ensures |r| == |bs|
    ensures forall i :: 0 <= i < |bs| ==> r[i] == Send(dest, Clone(p, VStr(bs[i]), map[]))
  {
    seq(|bs|, i requires 0 <= i < |bs| => Send(dest, Clone(p, VStr(bs[i]), map[])))
  }

  /** The sends for one block more. */
  lemma BlockSendsAppend(p: Packet, bs: seq<string>, b: string, dest: string)
    ensures BlockSends(p, bs + [b], dest) == BlockSends(p, bs, dest) + [Send(dest, Clone(p, VStr(b), map[]))]
  {
  }

  /** Each block sent carries exactly its block as data. */
  lemma BlockSendsCarry(p: Packet, s: string, n: int, dest: string, i: nat)
    requires n > 0 && i < |Blocks(s, n)|
    ensures DataStr(BlockSends(p, Blocks(s, n), dest)[i].packet) == Blocks(s, n)[i]
    ensures |DataStr(BlockSends(p, Blocks(s, n), dest)[i].packet)| == n
  {
    BlocksSized(s, n);
    CloneWithStr(p, Blocks(s, n)[i]);
  }

  /**
   * Batch.validate_params: a numeric size of zero or less, or a size that
   * is neither a number nor empty, unset or a `%UPPER` placeholder, is a
   * FilterAttributeError. A float size is judged by its text (it is at most
   * zero when it carries a sign '-' or is zero). A list size reaches the
   * regular expression match, which raises TypeError.
   */
  function ValidateSize(size: Value): (r: Result<()>)
    ensures NumberOf(size).Some? ==> (r.Ok? <==> NumberOf(size).value >= 1)
    ensures size.VStr? ==> (r.Ok? <==> size.s == "" || size.s == StageKeys.KUnset || StageKeys.UcPercent(size))
    ensures r.Err? ==> r.error == FilterAttributeError || r.error == TypeError
  {
    match size
    case VInt(i) => if i <= 0 then Err(FilterAttributeError) else Ok(())
    case VBool(b) => if !b then Err(FilterAttributeError) else Ok(())
    case VFloat(t) =>
      if !Truthy(size) || (|t| > 0 && t[0] == '-') then Err(FilterAttributeError) else Ok(())
    case VStr(s) =>
      if s != "" && s != StageKeys.KUnset && !StageKeys.UcPercent(size) then Err(FilterAttributeError)
      else Ok(())
    case VNone => Ok(())
    case _ => if Truthy(size) then Err(TypeError) else Ok(())
  }

  // =====================================================================
  // Batch

  /**
   * Batch: packet data is gathered until at least `size` chars are held,
   * then sent on in blocks of exactly `size` chars, each a clone of the
   * packet that completed it; the chars left over wait for the next packet.
   */
  class Batch {
    /** The `size` key. */
    var size: int
    /** The `fork_dest` key: where blocks are sent. */
    var forkDest: string
    /** `inputs`: the data held, in arrival order. */
    var inputs: seq<string>
    /** `input_char_count`: how many chars are held. */
    var inputCharCount: int
    /** `block_index`: the start of the next block within the joined inputs. */
    var blockIndex: int
    /**
     * The last packet received; `_last_packet` is its clone with data `''`,
     * taken when flush_buffer needs it.
     */
    var lastPacket: Packet
    /** All the data received so far. */
    ghost var received: string
    /** All the blocks sent so far. */
    ghost var emitted: seq<string>

    /**
     * The held chars are counted, the blocks sent and the chars held are
     * everything received, and with a valid size every block sent is whole
     * and what is held is less than a block.
     */
    ghost predicate Valid()
      reads this
    {
      inputCharCount == |Concat(inputs)| && blockIndex == 0 &&
      Concat(emitted) + Concat(inputs) == received &&
      (size > 0 ==> |Concat(inputs)| < size && forall i :: 0 <= i < |emitted| ==> |emitted[i]| == size)
    }

    /** init_filter: an empty input and an empty last packet. */
    constructor(size: int, forkDest: string)
      ensures Valid()
      ensures this.size == size && this.forkDest == forkDest
      ensures inputs == [""] && lastPacket == PacketOf(VStr("")) && received == "" && emitted == []
    {
      this.size := size;
      this.forkDest := forkDest;
      inputs := [""];
      inputCharCount := 0;
      blockIndex := 0;
      lastPacket := PacketOf(VStr(""));
      received := "";
      emitted := [];
      new;
      assert Concat([""]) == "";
    }

    /**
     * before_filter_data and filter_data. With a valid size the blocks of
     * the held chars followed by the new data are sent and the leftover is
     * held; a size of zero or less is a FilterAttributeError once a block
     * is due.
     */
    method FilterData(p: Packet) returns (r: Result<seq<Send>>)
      requires Valid()
      modifies this
      ensures size == old(size) && forkDest == old(forkDest)
      ensures lastPacket == p
      ensures !Data(p).VStr? ==> r == Err(TypeError) && inputs == old(inputs) && received == old(received)
      ensures Data(p).VStr? ==> received == old(received) + Data(p).s
      ensures Data(p).VStr? && old(inputCharCount) + |Data(p).s| < size ==>
        r == Ok([]) && inputs == old(inputs) + [Data(p).s] && emitted == old(emitted)
      ensures Data(p).VStr? && size <= 0 ==>
        r == Err(FilterAttributeError) && inputs == old(inputs) + [Data(p).s] && emitted == old(emitted)
      ensures Data(p).VStr? && size > 0 ==>
        var all := Concat(old(inputs)) + Data(p).s;
        r == Ok(BlockSends(p, Blocks(all, size), forkDest)) &&
        Concat(inputs) == Leftover(all, size) &&
        emitted == old(emitted) + Blocks(all, size)
      ensures Data(p).VStr? ==> Valid()
    {
      lastPacket := p;
      if !Data(p).VStr? {
        return Err(TypeError);
      }
      var s := Data(p).s;
      ghost var all := Concat(inputs) + s;
      Accept(s);
      if inputCharCount < size {
        Short(old(inputs), s, size);
        ConcatAssoc(Concat(emitted), Concat(old(inputs)), s);
        return Ok([]);
      }
      r := SplitBlocks(p);
      if size > 0 {
        Emitted(old(emitted), Blocks(all, size), all, size);
        ConcatAssoc(Concat(old(emitted)), Concat(old(inputs)), s);
        emitted := emitted + Blocks(all, size);
      }
    }

    /** Take in the data of one packet. */
    method Accept(s: string)
      requires inputCharCount == |Concat(inputs)|
      modifies this`inputs, this`inputCharCount, this`received
      ensures inputs == old(inputs) + [s] && received == old(received) + s
      ensures Concat(inputs) == Concat(old(inputs)) + s
      ensures inputCharCount == |Concat(inputs)|
    {
      ConcatAppend(inputs, [s]);
      assert Concat([s]) == s;
      inputs := inputs + [s];
      inputCharCount := inputCharCount + |s|;
      received := received + s;
    }

    /**
     * The loop of filter_data over the joined inputs: whole blocks are sent
     * while there are any, the leftover becomes the only input.
     */
    method SplitBlocks(p: Packet) returns (r: Result<seq<Send>>)
      requires blockIndex == 0
      modifies this`inputs, this`inputCharCount, this`blockIndex
      ensures blockIndex == 0
      ensures size <= 0 ==>
        r == Err(FilterAttributeError) && inputs == old(inputs) && inputCharCount == old(inputCharCount)
      ensures size > 0 ==> var all := Concat(old(inputs));
        r == Ok(BlockSends(p, Blocks(all, size), forkDest)) &&
        inputs == [Leftover(all, size)] && inputCharCount == |Leftover(all, size)|
    {
      var all := Concat(inputs);
      ghost var done: seq<string> := [];
      var out: seq<Send> := [];
      var leftover: string;
      while true
        invariant 0 <= blockIndex <= |all|
        invariant size > 0 ==> Blocks(all, size) == done + Blocks(all[blockIndex..], size)
        invariant size > 0 ==> Leftover(all, size) == Leftover(all[blockIndex..], size)
        invariant out == BlockSends(p, done, forkDest)
        invariant size <= 0 ==> blockIndex == 0
        modifies this`blockIndex
        decreases |all| - blockIndex
      {
        if size <= 0 {
          return Err(FilterAttributeError);
        }
        var block := PySlice(all, blockIndex, blockIndex + size);
        if |block| == size {
          var k2, out2 := blockIndex + size, out + [Send(forkDest, Clone(p, VStr(block), map[]))];
          ghost var done2 := done + [block];
          BlocksAdvance(all, blockIndex, size, done, block, k2, done2);
          BlockSendsAppend(p, done, block, forkDest);
          done, out, blockIndex := done2, out2, k2;
        } else {
          assert block == all[blockIndex..];
          assert done == Blocks(all, size) && block == Leftover(all, size);
          leftover := block;
          break;
        }
      }
      InitInput(leftover);
      r := Ok(out);
    }

    /** `_init_input(data)`: hold only `data`. */
    method InitInput(data: string)
      modifies this`inputs, this`inputCharCount, this`blockIndex
      ensures inputs == [data] && inputCharCount == |data| && blockIndex == 0
    {
      inputs := [data];
      inputCharCount := |data|;
      blockIndex := 0;
    }

    /**
     * Bookkeeping for the invariant after a call that sent the blocks of
     * `all`: the emitted blocks and the leftover still make up everything
     * received.
     */
    static lemma Emitted(before: seq<string>, bs: seq<string>, all: string, n: int)
      requires n > 0 && bs == Blocks(all, n)
      ensures Concat(before + bs) + Leftover(all, n) == Concat(before) + all
      ensures forall i :: 0 <= i < |bs| ==> |bs[i]| == n
      ensures |Leftover(all, n)| < n
    {
      ConcatAppend(before, bs);
      BlocksRejoin(all, n);
      BlocksSized(all, n);
      LeftoverShort(all, n);
      ConcatAssoc(Concat(before), Concat(bs), Leftover(all, n));
    }

    /** Too little data for a block: no blocks, everything is leftover. */
    static lemma Short(held: seq<string>, s: string, n: int)
      requires n > 0 ==> |Concat(held)| + |s| < n
      ensures n > 0 ==> Blocks(Concat(held) + s, n) == [] && Leftover(Concat(held) + s, n) == Concat(held) + s
    {
    }

    /**
     * flush_buffer: whatever is held goes on, in a clone of the last packet,
     * unless it is empty.
     */
    function FlushBuffer(): (r: seq<Send>)
      reads this
      ensures Concat(inputs) == "" <==> r == []
      ensures r != [] ==> r == [Send(forkDest, Clone(Clone(lastPacket, VStr(""), map[]), VStr(Concat(inputs)), map[]))]
    {
      var remainder := Concat(inputs);
      if remainder != "" then [Send(forkDest, Clone(Clone(lastPacket, VStr(""), map[]), VStr(remainder), map[]))] else []
    }
  }

  /**
   * With a valid size the blocks sent over a run of packets followed by
   * what a flush sends are all the data received, every block whole.
   */
  lemma BatchAccounts(b: Batch)
    requires b.Valid() && b.size > 0
    ensures Concat(b.emitted) + Concat(b.inputs) == b.received
    ensures forall i :: 0 <= i < |b.emitted| ==> |b.emitted[i]| == b.size
    ensures b.FlushBuffer() != [] ==> DataStr(b.FlushBuffer()[0].packet) == Concat(b.inputs) &&
                                      |Concat(b.inputs)| < b.size
  {
    if b.FlushBuffer() != [] {
      CloneWithStr(Clone(b.lastPacket, VStr(""), map[]), Concat(b.inputs));
    }
  }

  // =====================================================================
  // DistillHeader

  /**
   * The sends of DistillHeader once `all` is to be split: the first h chars
   * go to the branch, and the rest, when there is any, to main, carrying the
   * header as the attribute `keep_header_key` when that key was given.
   */
  function DistillSends(p: Packet, all: string, h: int, keepHeaderKey: Option<string>): (r: seq<Send>)
    ensures |r| == if Tail(all, h) == "" then 1 else 2
    ensures r[0].forkDest == "branch"
    ensures |r| == 2 ==> r[1].forkDest == "main"
  {
    var header := Head(all, h);
    var remainder := Tail(all, h);
    [Send("branch", Clone(p, VStr(header), map[]))] +
    if remainder == "" then []
    else
      var out := Clone(p, VStr(remainder), map[]);
      [Send("main", if keepHeaderKey.Some? then Set(out, keepHeaderKey.value, VStr(header)) else out)]
  }

  /**
   * The header sent and the remainder sent are the two halves of the data
   * split at h: the branch packet carries the header (or, when the header is
   * empty, the packet's own data, as a clone with empty data does), the main
   * packet the remainder, and the remainder packet holds the header under
   * the key asked for.
   */
  lemma DistillSplits(p: Packet, all: string, h: int, keepHeaderKey: Option<string>)
    requires keepHeaderKey != Some("data")
    ensures var r := DistillSends(p, all, h, keepHeaderKey);
      Head(all, h) + Tail(all, h) == all &&
      (Head(all, h) != "" ==> DataStr(r[0].packet) == Head(all, h)) &&
      (|r| == 2 ==> DataStr(r[1].packet) == Tail(all, h)) &&
      (|r| == 2 && keepHeaderKey.Some? ==>
        keepHeaderKey.value in r[1].packet.fields && r[1].packet.fields[keepHeaderKey.value] == VStr(Head(all, h)))
  {
    HeadTail(all, h);
    var r := DistillSends(p, all, h, keepHeaderKey);
    if Head(all, h) != "" {
      CloneWithStr(p, Head(all, h));
    }
    if Tail(all, h) != "" {
      var out := Clone(p, VStr(Tail(all, h)), map[]);
      CloneWithStr(p, Tail(all, h));
      if keepHeaderKey.Some? {
        assert r[1].packet == Set(out, keepHeaderKey.value, VStr(Head(all, h)));
        assert Data(r[1].packet) == Data(out);
      }
    }
  }

  /**
   * DistillHeader: in mode `once` data is gathered until there are
   * `header_size` chars, the header is split off once and every later packet
   * passes straight through; in any other mode (`repeated`) every packet is
   * split.
   */
  class DistillHeader {
    /** The `header_size` key. */
    var headerSize: int
    /** `distill_mode == 'once'` */
    var once: bool
    /** The `keep_header_key` key, when it was given. */
    var keepHeaderKey: Option<string>
    /** `inputs`: data gathered towards the header. */
    var inputs: seq<string>
    /** `input_char_count` */
    var inputCharCount: int
    /** `headers_done`: the one header of mode `once` has been sent. */
    var headersDone: bool

    /**
     * The count of held chars is right, and data is held only in mode
     * `once` while its header is still to come.
     */
    ghost predicate Valid()
      reads this
    {
      inputCharCount == |Concat(inputs)| &&
      (!once || headersDone ==> inputs == [])
    }

    /** init_filter with zero_inputs. */
    constructor(headerSize: int, once: bool, keepHeaderKey: Option<string>)
      ensures Valid()
      ensures this.headerSize == headerSize && this.once == once && this.keepHeaderKey == keepHeaderKey
      ensures inputs == [] && !headersDone
    {
      this.headerSize := headerSize;
      this.once := once;
      this.keepHeaderKey := keepHeaderKey;
      inputs := [];
      inputCharCount := 0;
      headersDone := false;
    }

    /** filter_data */
    method FilterData(p: Packet) returns (r: Result<seq<Send>>)
      requires Valid()
      modifies this`inputs, this`inputCharCount, this`headersDone
      ensures Valid()
      ensures old(headersDone) ==> r == Ok([Send("main", p)]) && headersDone && inputs == old(inputs)
      ensures !old(headersDone) && !Data(p).VStr? ==>
        r == Err(TypeError) && !headersDone && inputs == old(inputs)
      ensures !old(headersDone) && Data(p).VStr? && once && |Concat(old(inputs)) + Data(p).s| < headerSize ==>
        r == Ok([]) && !headersDone && inputs == old(inputs) + [Data(p).s]
      ensures !old(headersDone) && Data(p).VStr? && !(once && |Concat(old(inputs)) + Data(p).s| < headerSize) ==>
        r == Ok(DistillSends(p, Concat(old(inputs)) + Data(p).s, headerSize, keepHeaderKey)) &&
        headersDone == once && inputs == []
    {
      if headersDone {
        return Ok([Send("main", p)]);
      }
      if !Data(p).VStr? {
        return Err(TypeError);
      }
      var s := Data(p).s;
      ConcatAppend(inputs, [s]);
      assert Concat([s]) == s;
      inputs := inputs + [s];
      inputCharCount := inputCharCount + |s|;
      if once && inputCharCount < headerSize {
        return Ok([]);
      }
      var all := Concat(inputs);
      inputs := [];
      inputCharCount := 0;
      if once {
        headersDone := true;
      }
      r := Ok(DistillSends(p, all, headerSize, keepHeaderKey));
    }
  }

  // =====================================================================
  // DataBuffer

  /** The total length of the chunks, counted chunk by chunk. */
  function SumLengths(cs: seq<string>): (n: nat)
    ensures n == |Concat(cs)|
  {
    if |cs| == 0 then 0 else |cs[0]| + SumLengths(cs[1..])
  }

  /**
   * (c, k) names position n of the joined chunks: it is k chars into chunk
   * c, and when k is not 0 it is strictly inside that chunk.
   */
  ghost predicate ChunkPos(cs: seq<string>, c: nat, k: nat, n: int)
  {
    c <= |cs| && |Concat(cs[..c])| + k == n && (k > 0 ==> c < |cs| && k < |cs[c]|)
  }

  /** The joined chunks before position (c, k) and from it on. */
  lemma ChunkCut(cs: seq<string>, c: nat, k: nat, n: int)
    requires ChunkPos(cs, c, k, n)
    ensures 0 <= n <= |Concat(cs)|
    ensures Concat(cs)[..n] == if k == 0 then Concat(cs[..c]) else Concat(cs[..c] + [cs[c][..k]])
    ensures Concat(cs)[n..] == if k == 0 then Concat(cs[c..]) else Concat([cs[c][k..]] + cs[c + 1..])
  {
    assert cs == cs[..c] + cs[c..];
    ConcatAppend(cs[..c], cs[c..]);
    if k > 0 {
      assert cs[c..] == [cs[c]] + cs[c + 1..];
      assert Concat(cs[c..]) == cs[c] + Concat(cs[c + 1..]);
      ConcatAppend(cs[..c], [cs[c][..k]]);
      assert Concat([cs[c][..k]]) == cs[c][..k];
      assert Concat([cs[c][k..]] + cs[c + 1..]) == cs[c][k..] + Concat(cs[c + 1..]);
      assert cs[c] == cs[c][..k] + cs[c][k..];
      ConcatAssoc(cs[c][..k], cs[c][k..], Concat(cs[c + 1..]));
      ConcatAssoc(Concat(cs[..c]), cs[c][..k], cs[c][k..] + Concat(cs[c + 1..]));
    }
  }

  /** The prefix of the chunks one chunk longer. */
  lemma PrefixStep(cs: seq<string>, i: nat)
    requires i < |cs|
    ensures Concat(cs[..i + 1]) == Concat(cs[..i]) + cs[i]
  {
    assert cs[..i + 1] == cs[..i] + [cs[i]];
    ConcatAppend(cs[..i], [cs[i]]);
    assert Concat([cs[i]]) == cs[i];
  }

  /** A prefix of the chunks joins to no more than all of them. */
  lemma PrefixShorter(cs: seq<string>, i: nat)
    requires i <= |cs|
    ensures |Concat(cs[..i])| <= |Concat(cs)|
  {
    assert cs == cs[..i] + cs[i..];
    ConcatAppend(cs[..i], cs[i..]);
  }

  /**
   * DataBuffer: a buffer of data chunks from which a prefix can be read or
   * cut off without first joining them.
   */
  class DataBuffer {
    /** `_chunks` */
    var chunks: seq<string>

    /** The buffered data. */
    function Contents(): (s: string)
      reads this
    {
      Concat(chunks)
    }

    constructor()
      ensures chunks == []
    {
      chunks := [];
    }

    /** `_buffer_size`: the length of the buffered data. */
    function BufferSize(): (n: nat)
      reads this
      ensures n == |Contents()|
    {
      SumLengths(chunks)
    }

    /**
     * `_chunk_index`: the chunk and the offset within it of a position;
     * positions at or before the start give (0, 0), those after the end None.
     */
    method ChunkIndex(dataIndex: int) returns (r: Option<(nat, nat)>)
      ensures dataIndex <= 0 ==> r == Some((0, 0))
      ensures dataIndex > 0 ==> (r.None? <==> dataIndex > |Contents()|)
      ensures dataIndex > 0 && r.Some? ==> ChunkPos(chunks, r.value.0, r.value.1, dataIndex)
    {
      if dataIndex <= 0 {
        return Some((0, 0));
      }
      var chunkSize := 0;
      for i := 0 to |chunks|
        invariant chunkSize == |Concat(chunks[..i])| && chunkSize < dataIndex
      {
        PrefixStep(chunks, i);
        PrefixShorter(chunks, i + 1);
        chunkSize := chunkSize + |chunks[i]|;
        if dataIndex == chunkSize {
          return Some((i + 1, 0));
        } else if chunkSize > dataIndex {
          return Some((i, dataIndex - (chunkSize - |chunks[i]|)));
        }
      }
      assert chunks[..|chunks|] == chunks;
      return None;
    }

    /** `_add_data` */
    method AddData(data: string)
      modifies this
      ensures chunks == old(chunks) + [data]
      ensures Contents() == old(Contents()) + data
    {
      ConcatAppend(chunks, [data]);
      assert Concat([data]) == data;
      chunks := chunks + [data];
    }

    /**
     * `_get_data`: the whole buffer, or its first dataIndex chars; a
     * negative index reads nothing.
     */
    method GetData(dataIndex: Option<int>) returns (r: string)
      ensures dataIndex.None? ==> r == Contents()
      ensures dataIndex.Some? && dataIndex.value < 0 ==> r == ""
      ensures dataIndex.Some? && dataIndex.value >= 0 ==> r == Head(Contents(), dataIndex.value)
    {
      if dataIndex.None? {
        return Concat(chunks);
      }
      var pos := ChunkIndex(dataIndex.value);
      if pos.None? {
        assert Concat(chunks)[..|Concat(chunks)|] == Concat(chunks);
        return Concat(chunks);
      }
      var (c, k) := pos.value;
      if dataIndex.value > 0 {
        ChunkCut(chunks, c, k, dataIndex.value);
      }
      var matching := chunks[..c];
      if k == 0 {
        return Concat(matching);
      }
      return Concat(matching + [chunks[c][..k]]);
    }

    /**
     * `_truncate_data`: drop the first dataIndex chars of the buffer (all of
     * it when dataIndex is past the end, none when it is not positive).
     */
    method TruncateData(dataIndex: int)
      modifies this
      ensures dataIndex <= 0 ==> chunks == old(chunks)
      ensures dataIndex >= 0 ==> Contents() == Tail(old(Contents()), dataIndex)
    {
      var pos := ChunkIndex(dataIndex);
      if pos.None? {
        chunks := [];
        return;
      }
      var (c, k) := pos.value;
      if dataIndex > 0 {
        ChunkCut(chunks, c, k, dataIndex);
      }
      if k == 0 {
        chunks := chunks[c..];
        return;
      }
      chunks := [chunks[c][k..]] + chunks[c + 1..];
    }
  }

  // =====================================================================
  // Join

  /**
   * Join: string data is gathered; the first packet whose data is not a
   * string sends on the gathered strings joined with `join_str`, in a new
   * packet, and the gathering starts again.
   */
  class Join {
    /** The `join_str` key. */
    var joinStr: string
    /** `parts`: the strings gathered. */
    var parts: seq<string>

    constructor(joinStr: string)
      ensures this.joinStr == joinStr && parts == []
    {
      this.joinStr := joinStr;
      parts := [];
    }

    /** filter_data */
    method FilterData(p: Packet) returns (r: seq<Send>)
      modifies this`parts
      ensures Data(p).VStr? ==> parts == old(parts) + [Data(p).s] && r == []
      ensures !Data(p).VStr? ==> parts == [] && r == [Send("main", PacketOf(VStr(Strings.Join(old(parts), joinStr))))]
    {
      if Data(p).VStr? {
        parts := parts + [Data(p).s];
        return [];
      }
      var out := PacketOf(VStr(Strings.Join(parts, joinStr)));
      parts := [];
      return [Send("main", out)];
    }

    /** flush_buffer: any strings gathered go on joined; the parts are kept. */
    function FlushBuffer(): (r: seq<Send>)
      reads this
      ensures parts == [] <==> r == []
      ensures r != [] ==> r == [Send("main", PacketOf(VStr(Strings.Join(parts, joinStr))))]
    {
      if parts != [] then [Send("main", PacketOf(VStr(Strings.Join(parts, joinStr))))] else []
    }
  }

  /**
   * With a one-char join string that no gathered part contains, the data of
   * the joined packet splits back into the parts.
   */
  lemma JoinedSplitsBack(parts: seq<string>, c: char)
    requires |parts| >= 1 && forall i :: 0 <= i < |parts| ==> c !in parts[i]
    ensures Split(DataStr(PacketOf(VStr(Strings.Join(parts, [c])))), c) == parts
  {
    var joined := Strings.Join(parts, [c]);
    assert DataStr(PacketOf(VStr(joined))) == joined;
    SplitJoin(parts, c);
  }

  // =====================================================================
  // Peek

  /**
   * Peek: each packet is held back until the next one arrives, and is then
   * sent on with the first `peek_ahead` chars of the next packet's data as
   * its attribute `peek`; at close the last packet goes on with an empty
   * `peek`.
   */
  class Peek {
    /** The `peek_ahead` key. */
    var peekAhead: int
    /** `prev_packet`: the packet held back. */
    var prevPacket: Option<Packet>
    /** `packet_in`: the packet last received. */
    var packetIn: Option<Packet>

    constructor(peekAhead: int)
      ensures this.peekAhead == peekAhead && prevPacket == None && packetIn == None
    {
      this.peekAhead := peekAhead;
      prevPacket := None;
      packetIn := None;
    }

    /**
     * filter_data: the packet held back, if any, goes on peeking into p,
     * and p is held back instead. Data that cannot be sliced is a TypeError.
     */
    method FilterData(p: Packet) returns (r: Result<seq<Send>>)
      modifies this`prevPacket, this`packetIn
      ensures packetIn == Some(p)
      ensures HeadValue(Data(p), peekAhead).None? ==> r == Err(TypeError) && prevPacket == old(prevPacket)
      ensures HeadValue(Data(p), peekAhead).Some? ==>
        prevPacket == Some(p) &&
        r == Ok(if old(prevPacket).Some?
                then [Send("main", Set(old(prevPacket).value, "peek", HeadValue(Data(p), peekAhead).value))]
                else [])
    {
      packetIn := Some(p);
      var peeked := HeadValue(Data(p), peekAhead);
      if peeked.None? {
        return Err(TypeError);
      }
      r := Ok([]);
      if prevPacket.Some? {
        r := Ok([Send("main", Set(prevPacket.value, "peek", peeked.value))]);
      }
      prevPacket := packetIn;
    }

    /**
     * close_filter: the last packet goes on with an empty `peek`; with no
     * packet received this is an AttributeError.
     */
    function CloseFilter(): (r: Result<seq<Send>>)
      reads this
      ensures packetIn.None? <==> r == Err(AttributeError)
      ensures packetIn.Some? ==> r.Ok? && |r.value| == 1 && r.value[0].forkDest == "main"
      ensures packetIn.Some? ==> var q := r.value[0].packet;
        "peek" in q.fields && q.fields["peek"] == VStr("") &&
        forall k :: k in packetIn.value.fields && k != "peek" ==> k in q.fields && q.fields[k] == packetIn.value.fields[k]
    {
      if packetIn.None? then Err(AttributeError)
      else Ok([Send("main", Set(packetIn.value, "peek", VStr("")))])
    }
  }

  /**
   * What Peek sends for a held packet: the packet unchanged but for `peek`,
   * which holds the head of the next packet's string data.
   */
  lemma PeekSees(prev: Packet, next: Packet, k: int)
    requires Data(next).VStr?
    ensures var q := Set(prev, "peek", HeadValue(Data(next), k).value);
      q.fields["peek"] == VStr(Head(DataStr(next), k)) &&
      forall f :: f in prev.fields && f != "peek" ==> f in q.fields && q.fields[f] == prev.fields[f]
  {
  }

  // =====================================================================
  // CollectData

  /** The lists in xss, one after another. */
  function Flatten<T>(xss: seq<seq<T>>): (r: seq<T>)
  {
    if |xss| == 0 then [] else xss[0] + Flatten(xss[1..])
  }

  lemma {:induction false} FlattenAppend<T>(xss: seq<seq<T>>, xs: seq<T>)
    ensures Flatten(xss + [xs]) == Flatten(xss) + xs
    decreases |xss|
  {
    if |xss| == 0 {
      assert [xs][1..] == [];
    } else {
      assert (xss + [xs])[1..] == xss[1..] + [xs];
      FlattenAppend(xss[1..], xs);
    }
  }

  /**
   * CollectData: the data of passing packets is collected; when
   * `collection_size` values are held they go to the branch as a list, in a
   * clone of the packet that completed them. Every packet goes on to main.
   */
  class CollectData {
    /** The `collection_size` key. */
    var collectionSize: int
    /** `data_collection` */
    var dataCollection: seq<Value>
    /** Every data value seen. */
    ghost var seen: seq<Value>
    /** Every collection sent to the branch. */
    ghost var sent: seq<seq<Value>>

    /** The size of a collection: `collection_size`, and at least one. */
    function Need(): (n: int)
      reads this
      ensures n >= 1 && n >= collectionSize
    {
      if collectionSize < 1 then 1 else collectionSize
    }

    /**
     * The collections sent and the values held are the values seen, every
     * collection sent is whole and fewer values than that are held.
     */
    ghost predicate Valid()
      reads this
    {
      Flatten(sent) + dataCollection == seen &&
      |dataCollection| < Need() &&
      forall i :: 0 <= i < |sent| ==> |sent[i]| == Need()
    }

    constructor(collectionSize: int)
      ensures Valid() && this.collectionSize == collectionSize
      ensures dataCollection == [] && seen == [] && sent == []
    {
      this.collectionSize := collectionSize;
      dataCollection := [];
      seen := [];
      sent := [];
    }

    /** filter_data */
    method FilterData(p: Packet) returns (r: seq<Send>)
      requires Valid()
      modifies this`dataCollection, this`seen, this`sent
      ensures Valid()
      ensures seen == old(seen) + [Data(p)]
      ensures |old(dataCollection)| + 1 < collectionSize ==>
        r == [Send("main", p)] && dataCollection == old(dataCollection) + [Data(p)] && sent == old(sent)
      ensures |old(dataCollection)| + 1 >= collectionSize ==>
        var c := old(dataCollection) + [Data(p)];
        r == [Send("branch", Clone(p, VList(c), map[])), Send("main", p)] &&
        dataCollection == [] && sent == old(sent) + [c]
    {
      var c := dataCollection + [Data(p)];
      seen := seen + [Data(p)];
      r := [];
      if |c| >= collectionSize {
        FlattenAppend(sent, c);
        r := [Send("branch", Clone(p, VList(c), map[]))];
        sent := sent + [c];
        dataCollection := [];
      } else {
        dataCollection := c;
      }
      r := r + [Send("main", p)];
    }
  }

  /** The branch packet of CollectData carries the collection as its data. */
  lemma CollectionSent(p: Packet, c: seq<Value>)
    requires c != []
    ensures Data(Clone(p, VList(c), map[])) == VList(c)
  {
  }
}
