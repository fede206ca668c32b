/** How a file is cut into chunks and how a chunk travels in a packet. */
module Chunks {
  import opened Bytes

  const TRANSFER_BUFFER_SIZE := 1024
  const READ_BUFFER_SIZE := TRANSFER_BUFFER_SIZE * 100
  const WRITE_BUFFER_SIZE := TRANSFER_BUFFER_SIZE * 100
  const WRITER_QUEUE_SIZE := 1000
  const ID_SIZE := 4
  const INDEX_SIZE := 8
  const HEADER_SIZE := ID_SIZE + INDEX_SIZE
  const PACKET_SIZE := HEADER_SIZE + TRANSFER_BUFFER_SIZE

  /** A file of the transfer: its bytes on the sending host, the index the receiver asked to start
      at, and the keystream both hosts derive from its `Crypto`. */
  datatype File = File(source: seq<Byte>, start: nat, ks: Keystream) {
    function Size(): nat { |source| }

    predicate Valid() {
      start <= Size() < U64_LIMIT
    }
  }

  // ---- geometry ----

  /** `i` is the index of a chunk of a file of `size` bytes transferred from `start` on. */
  predicate IsChunk(start: nat, size: nat, i: nat) {
    start <= i < size && (i - start) % TRANSFER_BUFFER_SIZE == 0
  }

  /** A place where the next chunk begins, or the end of the file. */
  predicate IsBoundary(start: nat, size: nat, p: nat) {
    p == size || IsChunk(start, size, p)
  }

  function ChunkLength(size: nat, i: nat): nat
    requires i <= size
  {
    if size - i < TRANSFER_BUFFER_SIZE then size - i else TRANSFER_BUFFER_SIZE
  }

  lemma NextBoundary(start: nat, size: nat, i: nat)
    requires IsChunk(start, size, i)
    ensures i < i + ChunkLength(size, i) && IsBoundary(start, size, i + ChunkLength(size, i))
    ensures forall j | IsChunk(start, size, j) && i < j :: i + ChunkLength(size, i) <= j
  {
  }

  // ---- contents ----

  function CipherText(f: File, i: nat): (r: seq<Byte>)
    requires i <= f.Size()
    ensures |r| == ChunkLength(f.Size(), i)
  {
    Crypt(f.source[i..i + ChunkLength(f.Size(), i)], i, f.ks)
  }

  type Payload = data: seq<Byte> | |data| == TRANSFER_BUFFER_SIZE witness seq(TRANSFER_BUFFER_SIZE, _ => 0)

  /** The data part of a packet: the encrypted chunk; behind a short last chunk anything may follow. */
  predicate GoodPayload(f: File, i: nat, data: Payload) {
    && IsChunk(f.start, f.Size(), i)
    && data[..ChunkLength(f.Size(), i)] == CipherText(f, i)
  }

  lemma DecryptPayload(f: File, i: nat, data: Payload)
    requires GoodPayload(f, i, data)
    ensures Crypt(data[..ChunkLength(f.Size(), i)], i, f.ks) == f.source[i..i + ChunkLength(f.Size(), i)]
  {
    CryptTwice(f.source[i..i + ChunkLength(f.Size(), i)], i, f.ks);
  }

  // ---- packets ----

  datatype Key = Key(id: nat, index: nat)

  predicate KeyInRange(k: Key) {
    k.id < U32_LIMIT && k.index < U64_LIMIT
  }

  function Header(k: Key): (r: seq<Byte>)
    ensures |r| == HEADER_SIZE
  {
    ToBE(k.id, ID_SIZE) + ToBE(k.index, INDEX_SIZE)
  }

  function ParseKey(packet: seq<Byte>): Key
    requires |packet| == PACKET_SIZE
  {
    Key(FromBE(packet[..ID_SIZE]), FromBE(packet[ID_SIZE..HEADER_SIZE]))
  }

  /** Cutting the first twelve bytes back into id and index inverts writing them, in both directions. */
  lemma HeaderRoundTrip(k: Key, packet: seq<Byte>)
    requires KeyInRange(k) && |packet| == PACKET_SIZE
    ensures packet[..HEADER_SIZE] == Header(k) <==> ParseKey(packet) == k
  {
    Pow256Widths();
    FromToBE(k.id, ID_SIZE);
    FromToBE(k.index, INDEX_SIZE);
    var idPart, indexPart := packet[..ID_SIZE], packet[ID_SIZE..HEADER_SIZE];
    assert packet[..HEADER_SIZE] == idPart + indexPart;
    ToFromBE(idPart);
    ToFromBE(indexPart);
    if packet[..HEADER_SIZE] == Header(k) {
      assert idPart == packet[..HEADER_SIZE][..ID_SIZE] == ToBE(k.id, ID_SIZE);
      assert indexPart == packet[..HEADER_SIZE][ID_SIZE..] == ToBE(k.index, INDEX_SIZE);
    }
  }

  /** The header is four bytes of id and then eight of index, each with the most significant byte first. */
  lemma HeaderLayout(k: Key, i: nat)
    ensures |Header(k)| == 12
    ensures i < 4 ==> Header(k)[i] == k.id / Pow256(3 - i) % 256
    ensures i < 8 ==> Header(k)[4 + i] == k.index / Pow256(7 - i) % 256
  {
    if i < 4 {
      BigEndian(k.id, 4, i);
    }
    if i < 8 {
      BigEndian(k.index, 8, i);
    }
  }

  /** Every packet parses to an id of four bytes and an index of eight, and its first twelve bytes are their header. */
  lemma ParsedHeader(packet: seq<Byte>)
    requires |packet| == PACKET_SIZE
    ensures KeyInRange(ParseKey(packet)) && packet[..12] == Header(ParseKey(packet))
  {
    Pow256Widths();
    ToFromBE(packet[..ID_SIZE]);
    ToFromBE(packet[ID_SIZE..HEADER_SIZE]);
    assert packet[..HEADER_SIZE] == packet[..ID_SIZE] + packet[ID_SIZE..HEADER_SIZE];
  }

  /** A packet of the transfer: header of `k`, then the encrypted chunk of `f` at `k.index`. */
  predicate GoodPacket(f: File, k: Key, packet: seq<Byte>) {
    && |packet| == PACKET_SIZE
    && packet[..HEADER_SIZE] == Header(k)
    && GoodPayload(f, k.index, packet[HEADER_SIZE..])
  }
}
