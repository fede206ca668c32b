/** The reader task of one file, as the loop it is. */
module FileReader {
  import opened Bytes
  import opened Chunks
  import opened Channels
  import opened ReaderSpec
  import Ciphers = StreamCipher

  class Semaphore {
    var permits: nat

    constructor (permits: nat)
      ensures this.permits == permits
    {
      this.permits := permits;
    }
  }

  /** Overwrites `packet[lo..]` with `bytes`, as `copy_from_slice` does. */
  method CopyInto(packet: array<Byte>, lo: nat, bytes: seq<Byte>)
    requires lo + |bytes| <= packet.Length
    modifies packet
    ensures packet[..] == old(packet[..lo]) + bytes + old(packet[lo + |bytes|..])
  {
    forall i | 0 <= i < |bytes| {
      packet[lo + i] := bytes[i];
    }
  }

  /** A file behind a read buffer. Refilling the buffer takes as many bytes as fit, or all that are left. */
  class BufferedSource {
    const content: seq<Byte>
    const capacity: nat
    var offset: nat
    var buffered: nat

    constructor (content: seq<Byte>, capacity: nat)
      ensures this.content == content && this.capacity == capacity
      ensures offset == 0 && buffered == 0
    {
      this.content := content;
      this.capacity := capacity;
      offset, buffered := 0, 0;
    }

    /** `offset` is the next byte handed out; the buffer holds whole chunks or reaches to the end of the file. */
    predicate Aligned()
      reads this
    {
      && capacity > TRANSFER_BUFFER_SIZE && capacity % TRANSFER_BUFFER_SIZE == 0
      && offset + buffered <= |content|
      && (offset + buffered == |content| || buffered % TRANSFER_BUFFER_SIZE == 0)
    }

    method Seek(index: nat)
      requires index <= |content|
      modifies this
      ensures offset == index && buffered == 0
    {
      offset, buffered := index, 0;
    }

    /** Hands out what the buffer holds, at most `TRANSFER_BUFFER_SIZE` bytes, refilling it first when it is empty. */
    method Read(packet: array<Byte>) returns (n: nat)
      requires Aligned() && packet.Length == PACKET_SIZE
      modifies this, packet
      ensures Aligned()
      ensures n == ChunkLength(|content|, old(offset)) && offset == old(offset) + n
      ensures packet[..] == old(packet[..HEADER_SIZE]) + content[old(offset)..old(offset) + n]
                            + old(packet[HEADER_SIZE + n..])
    {
      if buffered == 0 {
        buffered := if |content| - offset < capacity then |content| - offset else capacity;
      }
      n := if buffered < TRANSFER_BUFFER_SIZE then buffered else TRANSFER_BUFFER_SIZE;
      CopyInto(packet, HEADER_SIZE, content[offset..offset + n]);
      offset, buffered := offset + n, buffered - n;
    }
  }

  /** Overwriting the index, then the chunk, then encrypting the chunk leaves the filled buffer. */
  lemma Assembled(f: File, index: nat, before: Packet, headed: seq<Byte>, plain: seq<Byte>, read: seq<Byte>,
                  after: seq<Byte>)
    requires index <= f.Size() && plain == f.source[index..index + ChunkLength(f.Size(), index)]
    requires headed == before[..ID_SIZE] + ToBE(index, INDEX_SIZE) + before[HEADER_SIZE..]
    requires read == headed[..HEADER_SIZE] + plain + headed[HEADER_SIZE + |plain|..]
    requires |after| == PACKET_SIZE && after[..HEADER_SIZE] == read[..HEADER_SIZE]
    requires after[HEADER_SIZE..HEADER_SIZE + |plain|] == Crypt(read[HEADER_SIZE..HEADER_SIZE + |plain|], index, f.ks)
    requires after[HEADER_SIZE + |plain|..] == read[HEADER_SIZE + |plain|..]
    ensures after == FillBuffer(f, index, before)
  {
    hide Crypt, ToBE;
    var n := |plain|;
    ThreeParts(headed[..HEADER_SIZE], plain, headed[HEADER_SIZE + n..], read);
    ThreeParts(before[..ID_SIZE], ToBE(index, INDEX_SIZE), before[HEADER_SIZE..], headed);
    Dropped(headed, HEADER_SIZE, n);
    Dropped(before, HEADER_SIZE, n);
    Joined(after, HEADER_SIZE, n);
  }

  lemma Joined(whole: seq<Byte>, lo: nat, n: nat)
    requires lo + n <= |whole|
    ensures whole == whole[..lo] + whole[lo..lo + n] + whole[lo + n..]
  {
  }

  lemma Dropped(whole: seq<Byte>, lo: nat, n: nat)
    requires lo + n <= |whole|
    ensures whole[lo + n..] == whole[lo..][n..]
  {
  }

  lemma ThreeParts(a: seq<Byte>, b: seq<Byte>, c: seq<Byte>, whole: seq<Byte>)
    requires whole == a + b + c
    ensures |whole| == |a| + |b| + |c| && whole[..|a|] == a && whole[|a|..|a| + |b|] == b && whole[|a| + |b|..] == c
    ensures whole[..|a| + |b|] == a + b
  {
  }

  /** Reads and encrypts the chunk at `index` into the packet buffer; `n == 0` is the end of the file. */
  method FillPacket(f: File, packet: array<Byte>, source: BufferedSource, cipher: Ciphers.StreamCipher, index: nat)
    returns (n: nat)
    requires packet.Length == PACKET_SIZE && source.content == f.source && source.Aligned()
    requires source.offset == index == cipher.pos && index <= f.Size() && cipher.ks == f.ks
    modifies packet, source, cipher
    ensures source.Aligned()
    ensures n == ChunkLength(f.Size(), index) && source.offset == index + n == cipher.pos
    ensures packet[..] == FillBuffer(f, index, old(packet[..]))
  {
    hide Crypt, ToBE, FillBuffer, BufferedSource.Aligned;
    ghost var before := packet[..];
    CopyInto(packet, ID_SIZE, ToBE(index, INDEX_SIZE));
    ghost var headed := packet[..];
    n := source.Read(packet);
    ghost var read := packet[..];
    cipher.ApplyKeystream(packet, HEADER_SIZE, HEADER_SIZE + n);
    ghost var after := packet[..];
    Assembled(f, index, before, headed, f.source[index..index + n], read, after);
  }

  method NewPacket(id: nat) returns (packet: array<Byte>)
    ensures fresh(packet) && packet[..] == FirstBuffer(id)
    ensures packet[..ID_SIZE] == ToBE(id, ID_SIZE) && forall i | ID_SIZE <= i < PACKET_SIZE :: packet[i] == 0
  {
    packet := new Byte[PACKET_SIZE](_ => 0);
    CopyInto(packet, 0, ToBE(id, ID_SIZE));
  }

  /** The loop. It waits when no permit is left; a permit is used up per queued job; noticing the end
      of the file takes one more, which is given back. `FinishCost` counts them. */
  method Read(f: File, id: nat, source: BufferedSource, queue: Channel<Job>, read: Semaphore,
              cipher: Ciphers.StreamCipher)
    returns (finished: bool, index: nat)
    requires f.Valid() && id < U32_LIMIT
    requires source.content == f.source && source.capacity == READ_BUFFER_SIZE && cipher.ks == f.ks
    modifies source, queue, read, cipher
    ensures queue.items == old(queue.items) + Cut(f, id, f.start, FirstBuffer(id), old(read.permits))
    ensures |queue.items| - |old(queue.items)| == old(read.permits) - read.permits
    ensures finished <==> read.permits > 0
    ensures finished ==> index == f.Size()
  {
    hide Cut, FillBuffer, FirstBuffer, BufferedSource.Aligned;
    index := f.start;
    source.Seek(index);
    cipher.Seek(index);
    var packet := NewPacket(id);
    SoughtAligned(source);
    finished := false;
    ghost var initial, sent: seq<Job> := read.permits, [];
    ghost var jobs := sent + Cut(f, id, index, packet[..], initial);
    assert jobs == Cut(f, id, f.start, FirstBuffer(id), initial);
    while read.permits > 0 && !finished
      invariant packet.Length == PACKET_SIZE && fresh(packet)
      invariant source.Aligned() && source.offset == index == cipher.pos
      invariant f.start <= index <= f.Size()
      invariant finished ==> index == f.Size() && read.permits > 0
      invariant queue.items == old(queue.items) + sent && |sent| == initial - read.permits
      invariant jobs == if finished then sent else sent + Cut(f, id, index, packet[..], read.permits)
      decreases !finished, read.permits
    {
      CutStep(f, id, index, packet[..], read.permits, sent);
      read.permits := read.permits - 1;
      var n := FillPacket(f, packet, source, cipher, index);
      if n == 0 {
        read.permits := read.permits + 1;
        finished := true;
      } else {
        var job := Job(packet[..], Key(id, index));
        queue.Send(job);
        sent := sent + [job];
        index := index + n;
      }
    }
    if !finished {
      CutNothing(f, id, index, packet[..], sent);
    }
  }

  lemma SoughtAligned(source: BufferedSource)
    requires source.capacity == READ_BUFFER_SIZE && source.offset <= |source.content| && source.buffered == 0
    ensures source.Aligned()
  {
  }
}
