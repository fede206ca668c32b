/** What the reader of a file puts on the job queue, as functions on values. */
module ReaderSpec {
  import opened Bytes
  import opened Chunks

  type Packet = p: seq<Byte> | |p| == PACKET_SIZE witness seq(PACKET_SIZE, _ => 0)

  datatype Job = Job(data: Packet, key: Key)

  /** The packet buffer before the first chunk: the id, then zeros. */
  function FirstBuffer(id: nat): Packet {
    ToBE(id, ID_SIZE) + seq(PACKET_SIZE - ID_SIZE, _ => 0)
  }

  /** The buffer after the chunk at `index` was read and encrypted: what lies behind a short chunk is
      left from the chunk before. */
  function FillBuffer(f: File, index: nat, buffer: Packet): Packet
    requires index <= f.Size()
  {
    var len := ChunkLength(f.Size(), index);
    buffer[..ID_SIZE] + ToBE(index, INDEX_SIZE) + CipherText(f, index) + buffer[HEADER_SIZE + len..]
  }

  /** The jobs queued from `index` on when `permits` permits can be acquired. */
  function Cut(f: File, id: nat, index: nat, buffer: Packet, permits: nat): seq<Job>
    requires index <= f.Size()
    decreases permits
  {
    if permits == 0 || index == f.Size() then []
    else
      var filled := FillBuffer(f, index, buffer);
      [Job(filled, Key(id, index))] + Cut(f, id, index + ChunkLength(f.Size(), index), filled, permits - 1)
  }

  /** One round of the loop; the jobs before it do not matter. */
  lemma CutStep(f: File, id: nat, index: nat, buffer: Packet, permits: nat, sent: seq<Job>)
    requires index <= f.Size() && permits > 0
    ensures var n, filled := ChunkLength(f.Size(), index), FillBuffer(f, index, buffer);
            sent + Cut(f, id, index, buffer, permits) ==
            if n == 0 then sent
            else sent + [Job(filled, Key(id, index))] + Cut(f, id, index + n, filled, permits - 1)
  {
    hide FillBuffer;
  }

  lemma CutNothing(f: File, id: nat, index: nat, buffer: Packet, sent: seq<Job>)
    requires index <= f.Size()
    ensures sent + Cut(f, id, index, buffer, 0) == sent
  {
  }

  function ChunkCount(size: nat, index: nat): nat
    requires index <= size
  {
    (size - index + TRANSFER_BUFFER_SIZE - 1) / TRANSFER_BUFFER_SIZE
  }

  lemma CountOneMore(size: nat, index: nat)
    requires index < size
    ensures ChunkCount(size, index) == 1 + ChunkCount(size, index + ChunkLength(size, index))
  {
  }

  lemma FillBufferGood(f: File, id: nat, index: nat, buffer: Packet)
    requires f.Valid() && IsChunk(f.start, f.Size(), index)
    requires buffer[..ID_SIZE] == ToBE(id, ID_SIZE)
    ensures var filled := FillBuffer(f, index, buffer);
            && GoodPacket(f, Key(id, index), filled) && filled[..ID_SIZE] == ToBE(id, ID_SIZE)
            && var behind := HEADER_SIZE + ChunkLength(f.Size(), index); filled[behind..] == buffer[behind..]
  {
    var filled := FillBuffer(f, index, buffer);
    var len := ChunkLength(f.Size(), index);
    assert filled[..HEADER_SIZE] == Header(Key(id, index));
    assert filled[HEADER_SIZE..][..len] == CipherText(f, index);
  }

  /** The j-th job is the good packet of the j-th chunk from `index` on. */
  predicate PacketsFrom(f: File, id: nat, index: nat, jobs: seq<Job>) {
    forall j | 0 <= j < |jobs| ::
      jobs[j].key == Key(id, index + TRANSFER_BUFFER_SIZE * j) && GoodPacket(f, jobs[j].key, jobs[j].data)
  }

  lemma OneMorePacket(f: File, id: nat, index: nat, job: Job, rest: seq<Job>)
    requires job.key == Key(id, index) && GoodPacket(f, job.key, job.data)
    requires PacketsFrom(f, id, index + TRANSFER_BUFFER_SIZE, rest)
    ensures PacketsFrom(f, id, index, [job] + rest)
  {
    hide GoodPacket;
  }

  /** The j-th job is the good packet of the j-th chunk; there are as many as permits and chunks allow. */
  lemma {:induction false} CutJobs(f: File, id: nat, index: nat, buffer: Packet, permits: nat)
    requires f.Valid() && f.start <= index <= f.Size() && IsBoundary(f.start, f.Size(), index)
    requires buffer[..ID_SIZE] == ToBE(id, ID_SIZE)
    ensures var jobs := Cut(f, id, index, buffer, permits);
            && |jobs| == (if permits < ChunkCount(f.Size(), index) then permits else ChunkCount(f.Size(), index))
            && PacketsFrom(f, id, index, jobs)
    decreases permits
  {
    hide FillBuffer, GoodPacket, PacketsFrom;
    if permits > 0 && index < f.Size() {
      FillBufferGood(f, id, index, buffer);
      NextBoundary(f.start, f.Size(), index);
      CountOneMore(f.Size(), index);
      var len, filled := ChunkLength(f.Size(), index), FillBuffer(f, index, buffer);
      CutJobs(f, id, index + len, filled, permits - 1);
      var rest := Cut(f, id, index + len, filled, permits - 1);
      if len < TRANSFER_BUFFER_SIZE {
        assert rest == [];
        NoPackets(f, id, index + TRANSFER_BUFFER_SIZE);
      }
      OneMorePacket(f, id, index, Job(filled, Key(id, index)), rest);
    } else {
      NoPackets(f, id, index);
    }
  }

  lemma NoPackets(f: File, id: nat, index: nat)
    ensures PacketsFrom(f, id, index, [])
  {
  }

  /** With permits to spare the jobs cover every chunk from the start index on exactly once, in order. */
  lemma CutCovers(f: File, id: nat, permits: nat)
    requires f.Valid() && permits >= ChunkCount(f.Size(), f.start)
    ensures var jobs := Cut(f, id, f.start, FirstBuffer(id), permits);
            && (forall i: nat :: IsChunk(f.start, f.Size(), i)
                                 <==> exists j: nat :: j < |jobs| && jobs[j].key.index == i)
            && (forall j, k | 0 <= j < k < |jobs| :: jobs[j].key.index < jobs[k].key.index)
  {
    var jobs := Cut(f, id, f.start, FirstBuffer(id), permits);
    if f.start == f.Size() {
      assert |jobs| == 0;
    } else {
      assert IsChunk(f.start, f.Size(), f.start);
      CutJobs(f, id, f.start, FirstBuffer(id), permits);
      forall i: nat | IsChunk(f.start, f.Size(), i)
        ensures exists j: nat :: j < |jobs| && jobs[j].key.index == i
      {
        var j := (i - f.start) / TRANSFER_BUFFER_SIZE;
        assert j < |jobs| && jobs[j].key.index == i;
      }
    }
  }

  /** A reader that started with `permits` permits has one left at its end, and only then, when they
      outnumber the chunks of the file: noticing the end needs a permit of its own. */
  lemma FinishCost(f: File, id: nat, permits: nat)
    requires f.Valid()
    ensures |Cut(f, id, f.start, FirstBuffer(id), permits)| < permits <==> permits > ChunkCount(f.Size(), f.start)
  {
    assert f.start == f.Size() || IsChunk(f.start, f.Size(), f.start);
    CutJobs(f, id, f.start, FirstBuffer(id), permits);
  }

  // ---- why the read buffer has to be a multiple of the chunk size ----

  /** The lengths of successive reads of 1024 bytes through a read buffer of `capacity` bytes that holds
      `buffered` bytes, with `rest` more in the file. A read at least as large as the buffer goes past it
      when it is empty. */
  function ReadLengths(capacity: nat, buffered: nat, rest: nat): seq<nat>
    decreases buffered + rest
  {
    if buffered + rest == 0 then []
    else if buffered == 0 && capacity <= TRANSFER_BUFFER_SIZE then
      var n := if rest < TRANSFER_BUFFER_SIZE then rest else TRANSFER_BUFFER_SIZE;
      [n] + ReadLengths(capacity, 0, rest - n)
    else
      var filled := if buffered > 0 then buffered else if rest < capacity then rest else capacity;
      var left := buffered + rest - filled;
      var n := if filled < TRANSFER_BUFFER_SIZE then filled else TRANSFER_BUFFER_SIZE;
      [n] + ReadLengths(capacity, filled - n, left)
  }

  predicate OnlyLastShort(lengths: seq<nat>) {
    forall i | 0 <= i < |lengths| - 1 :: lengths[i] == TRANSFER_BUFFER_SIZE
  }

  lemma PrependAligned(n: nat, tail: seq<nat>)
    requires OnlyLastShort(tail) && (n == TRANSFER_BUFFER_SIZE || tail == [])
    ensures OnlyLastShort([n] + tail)
  {
  }

  lemma {:induction false} DirectAligned(capacity: nat, rest: nat)
    requires capacity <= TRANSFER_BUFFER_SIZE
    ensures OnlyLastShort(ReadLengths(capacity, 0, rest))
    decreases rest
  {
    if rest > 0 {
      var n := if rest < TRANSFER_BUFFER_SIZE then rest else TRANSFER_BUFFER_SIZE;
      DirectAligned(capacity, rest - n);
      PrependAligned(n, ReadLengths(capacity, 0, rest - n));
    }
  }

  lemma {:induction false} MultipleKeepsAligned(capacity: nat, buffered: nat, rest: nat)
    requires capacity > TRANSFER_BUFFER_SIZE && capacity % TRANSFER_BUFFER_SIZE == 0
    requires buffered % TRANSFER_BUFFER_SIZE == 0 || rest == 0
    ensures OnlyLastShort(ReadLengths(capacity, buffered, rest))
    decreases buffered + rest
  {
    if buffered + rest > 0 {
      var filled := if buffered > 0 then buffered else if rest < capacity then rest else capacity;
      var left := buffered + rest - filled;
      var n := if filled < TRANSFER_BUFFER_SIZE then filled else TRANSFER_BUFFER_SIZE;
      assert left == 0 || (filled >= TRANSFER_BUFFER_SIZE && filled % TRANSFER_BUFFER_SIZE == 0);
      MultipleKeepsAligned(capacity, filled - n, left);
      PrependAligned(n, ReadLengths(capacity, filled - n, left));
    }
  }

  lemma {:induction false} RemainderBreaksAlignment(capacity: nat, buffered: nat)
    requires capacity > TRANSFER_BUFFER_SIZE && buffered % TRANSFER_BUFFER_SIZE != 0
    ensures !OnlyLastShort(ReadLengths(capacity, buffered, 1))
    decreases buffered
  {
    var lengths := ReadLengths(capacity, buffered, 1);
    if buffered < TRANSFER_BUFFER_SIZE {
      assert ReadLengths(capacity, 0, 1) != [];
      assert lengths[0] == buffered && |lengths| > 1;
    } else {
      RemainderBreaksAlignment(capacity, buffered - TRANSFER_BUFFER_SIZE);
      var tail := ReadLengths(capacity, buffered - TRANSFER_BUFFER_SIZE, 1);
      assert lengths == [TRANSFER_BUFFER_SIZE] + tail;
      var i :| 0 <= i < |tail| - 1 && tail[i] != TRANSFER_BUFFER_SIZE;
      assert lengths[i + 1] == tail[i];
    }
  }

  /** Files of every size are cut into full chunks and one last chunk exactly when the capacity of the
      read buffer is a multiple of the chunk size, or so small that every read goes past the buffer. */
  lemma AlignedIffMultiple(capacity: nat)
    ensures (forall size: nat :: OnlyLastShort(ReadLengths(capacity, 0, size)))
       <==> capacity % TRANSFER_BUFFER_SIZE == 0 || capacity < TRANSFER_BUFFER_SIZE
  {
    if capacity <= TRANSFER_BUFFER_SIZE {
      forall size: nat
        ensures OnlyLastShort(ReadLengths(capacity, 0, size))
      {
        DirectAligned(capacity, size);
      }
    } else if capacity % TRANSFER_BUFFER_SIZE == 0 {
      forall size: nat
        ensures OnlyLastShort(ReadLengths(capacity, 0, size))
      {
        MultipleKeepsAligned(capacity, 0, size);
      }
    } else {
      RemainderBreaksAlignment(capacity, capacity);
      assert ReadLengths(capacity, 0, capacity + 1) == ReadLengths(capacity, capacity, 1);
      assert !OnlyLastShort(ReadLengths(capacity, 0, capacity + 1));
    }
  }
}
