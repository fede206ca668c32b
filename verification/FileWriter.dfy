/** The writer task of one file, as the loop it is. */
module FileWriter {
  import opened Bytes
  import opened Chunks
  import opened Channels
  import opened Confirmations
  import opened WriterSpec
  import Ciphers = StreamCipher

  class PartialFile {
    var disk: seq<Byte>
    var pending: seq<Byte>

    constructor (existing: seq<Byte>)
      ensures View() == Buffered(existing, [])
    {
      disk := existing;
      pending := [];
    }

    function View(): Buffered
      reads this
    {
      Buffered(disk, pending)
    }

    method WriteAll(data: seq<Byte>)
      requires |data| <= TRANSFER_BUFFER_SIZE
      modifies this
      ensures View() == old(View()).Put(data)
    {
      if |pending| + |data| > WRITE_BUFFER_SIZE {
        Flush();
      }
      pending := pending + data;
    }

    method Flush()
      modifies this
      ensures View() == old(View()).Flush()
    {
      disk := disk + pending;
      pending := [];
    }
  }

  /** Decrypts the part of the chunk that lies in the file and writes it. */
  method WriteData(file: PartialFile, data: Payload, position: nat, size: nat, cipher: Ciphers.StreamCipher)
    returns (next: nat)
    requires position <= size && cipher.pos == position
    modifies file, cipher
    ensures next == position + ChunkLength(size, position) == cipher.pos
    ensures file.View() == old(file.View()).Put(Crypt(data[..ChunkLength(size, position)], position, cipher.ks))
  {
    var buffer := new Byte[TRANSFER_BUFFER_SIZE](i requires 0 <= i < TRANSFER_BUFFER_SIZE => data[i]);
    assert buffer[..] == data;
    var len := if size - position < TRANSFER_BUFFER_SIZE then size - position else TRANSFER_BUFFER_SIZE;
    assert buffer[0..len] == data[..len];
    cipher.ApplyKeystream(buffer, 0, len);
    next := position + len;
    assert buffer[..len] == buffer[0..len];
    file.WriteAll(buffer[..len]);
  }

  lemma DrainOne(size: nat, ks: Keystream, w: Writer)
    requires w.position <= size && w.position in w.cache
    ensures |w.cache - {w.position}| < |w.cache|
    ensures var len := ChunkLength(size, w.position);
            Drain(size, ks, w) ==
            Drain(size, ks, Writer(w.position + len, w.cache - {w.position},
                                   w.file.Put(Crypt(w.cache[w.position][..len], w.position, ks)), w.issued))
  {
    hide Crypt, WriterSpec.WriteData;
    assert (w.cache - {w.position}).Keys == w.cache.Keys - {w.position};
    assert |w.cache.Keys - {w.position}| < |w.cache.Keys|;
    WrittenIs(size, ks, w.(cache := w.cache - {w.position}), w.cache[w.position]);
  }

  lemma WrittenIs(size: nat, ks: Keystream, w: Writer, data: Payload)
    requires w.position <= size
    ensures var len := ChunkLength(size, w.position);
            WriterSpec.WriteData(size, ks, w, data) ==
            Writer(w.position + len, w.cache, w.file.Put(Crypt(data[..len], w.position, ks)), w.issued)
  {
    hide Crypt;
  }

  lemma DrainNothing(size: nat, ks: Keystream, w: Writer)
    requires w.position <= size && w.position !in w.cache
    ensures Drain(size, ks, w) == w
  {
  }

  /** Writes all chunks that follow the position without a gap from the cache. */
  method WriteCached(file: PartialFile, waiting: map<nat, Payload>, from: nat, size: nat,
                     cipher: Ciphers.StreamCipher, ghost issued: seq<nat>)
    returns (position: nat, cache: map<nat, Payload>)
    requires from <= size && cipher.pos == from
    modifies file, cipher
    ensures position <= size && cipher.pos == position
    ensures Writer(position, cache, file.View(), issued)
         == Drain(size, cipher.ks, Writer(from, waiting, old(file.View()), issued))
  {
    hide Drain, Crypt;
    position, cache := from, waiting;
    while position in cache
      invariant position <= size && cipher.pos == position
      invariant Drain(size, cipher.ks, Writer(from, waiting, old(file.View()), issued))
             == Drain(size, cipher.ks, Writer(position, cache, file.View(), issued))
      decreases |cache|
    {
      var data := cache[position];
      DrainOne(size, cipher.ks, Writer(position, cache, file.View(), issued));
      cache := cache - {position};
      position := WriteData(file, data, position, size, cipher);
    }
    DrainNothing(size, cipher.ks, Writer(position, cache, file.View(), issued));
  }

  /** Handles one arrival: late chunks are ignored, early ones confirmed and cached, the chunk at the
      position is written, confirmed, and followed by everything the cache can add. */
  method TakeArrival(id: nat, a: Arrival, from: nat, waiting: map<nat, Payload>, size: nat, file: PartialFile,
                     cipher: Ciphers.StreamCipher, confirmations: Channel<Key>, ghost issuedBefore: seq<nat>)
    returns (position: nat, cache: map<nat, Payload>, ghost issued: seq<nat>)
    requires from <= size && cipher.pos == from
    modifies file, cipher, confirmations
    ensures position <= size && cipher.pos == position
    ensures Writer(position, cache, file.View(), issued)
         == Arrive(size, cipher.ks, Writer(from, waiting, old(file.View()), issuedBefore), a)
    ensures confirmations.items == old(confirmations.items) + (if a.index < from then [] else [Key(id, a.index)])
    ensures issued == issuedBefore + (if a.index < from then [] else [a.index])
  {
    position, cache, issued := from, waiting, issuedBefore;
    if a.index > position {
      confirmations.Send(Key(id, a.index));
      cache := cache[a.index := a.data];
      issued := issued + [a.index];
    } else if a.index == position {
      position := WriteData(file, a.data, position, size, cipher);
      confirmations.Send(Key(id, a.index));
      issued := issued + [a.index];
      position, cache := WriteCached(file, cache, position, size, cipher, issued);
    }
  }

  /** The loop over arrivals. It ends when the file is complete or nothing more has arrived; either
      way file, position, cache and confirmations are those of `Feed`. */
  method WriteLoop(id: nat, size: nat, start: nat, file: PartialFile, cipher: Ciphers.StreamCipher,
                   arrivals: seq<Arrival>, confirmations: Channel<Key>)
    returns (position: nat, cache: map<nat, Payload>, taken: nat, ghost issued: seq<nat>)
    requires start <= size && file.pending == []
    modifies file, cipher, confirmations
    ensures Feed(size, cipher.ks, Begin(start, old(file.disk)), arrivals)
         == Writer(position, cache, file.View(), issued)
    ensures confirmations.items == old(confirmations.items) + Tagged(id, issued)
    ensures taken <= |arrivals| && (position == size || taken == |arrivals|)
    ensures Feed(size, cipher.ks, Begin(start, old(file.disk)), arrivals)
         == Feed(size, cipher.ks, Begin(start, old(file.disk)), arrivals[..taken])
  {
    position, cache, taken, issued := start, map[], 0, [];
    cipher.Seek(position);
    var ks := cipher.ks;
    ghost var begin := Begin(start, file.disk);
    while position != size && taken < |arrivals|
      invariant taken <= |arrivals| && position <= size && cipher.pos == position
      invariant Feed(size, ks, begin, arrivals[..taken]) == Writer(position, cache, file.View(), issued)
      invariant confirmations.items == old(confirmations.items) + Tagged(id, issued)
      decreases |arrivals| - taken
    {
      var a := arrivals[taken];
      FeedLast(size, ks, begin, arrivals[..taken], a);
      assert arrivals[..taken] + [a] == arrivals[..taken + 1];
      TaggedOneMore(id, issued, a.index);
      position, cache, issued := TakeArrival(id, a, position, cache, size, file, cipher, confirmations, issued);
      taken := taken + 1;
    }
    if position == size {
      assert arrivals[..taken] + arrivals[taken..] == arrivals;
      FeedStops(size, ks, begin, arrivals[..taken], arrivals[taken..]);
    } else {
      assert arrivals[..taken] == arrivals;
    }
  }

  /** The hash tells this content and that one apart, if they differ. */
  predicate TellsApart(hash: seq<Byte> -> seq<Byte>, content: seq<Byte>, other: seq<Byte>) {
    hash(content) == hash(other) ==> content == other
  }

  /** The whole task with the wrapper that reports its error: a complete file is flushed, checked
      and announced with End; a wrong signature removes it and sends Failure 0 and then Failure 2. */
  method Write(id: nat, size: nat, start: nat, signature: Option<seq<Byte>>, hash: seq<Byte> -> seq<Byte>,
               file: PartialFile, cipher: Ciphers.StreamCipher, arrivals: seq<Arrival>,
               confirmations: Channel<Key>, messages: Channel<Report>)
    returns (complete: bool, renamed: bool)
    requires start <= size && file.pending == []
    modifies file, cipher, confirmations, messages
    ensures var w := Feed(size, cipher.ks, Begin(start, old(file.disk)), arrivals);
            && complete == (w.position == size)
            && renamed == (complete && (signature.None? || hash(w.Output()) == signature.value))
            && confirmations.items == old(confirmations.items) + Tagged(id, w.issued)
            && file.View() == (if !complete then w.file else if renamed then w.file.Flush() else Buffered([], []))
            && messages.items == old(messages.items)
               + (if !complete then [] else if renamed then [End(id)] else [Failure(id, 0), Failure(id, 2)])
    ensures var content := Feed(size, cipher.ks, Begin(start, old(file.disk)), arrivals).Output();
            forall source: seq<Byte> | signature == Some(hash(source)) && TellsApart(hash, content, source) ::
              renamed <==> complete && content == source
  {
    var position, _, _, _ := WriteLoop(id, size, start, file, cipher, arrivals, confirmations);
    complete, renamed := position == size, false;
    if complete {
      file.Flush();
      if signature.Some? && hash(file.disk) != signature.value {
        messages.Send(Failure(id, 0));
        file.disk := [];
        messages.Send(Failure(id, 2));
      } else {
        renamed := true;
        messages.Send(End(id));
      }
    }
  }

  /** Fed with chunks of the file only, in any order and any number of times, the task leaves on disk
      a prefix of the source and, once it is complete, the source itself. */
  method WriteFile(f: File, id: nat, signature: Option<seq<Byte>>, hash: seq<Byte> -> seq<Byte>,
                   file: PartialFile, cipher: Ciphers.StreamCipher, arrivals: seq<Arrival>,
                   confirmations: Channel<Key>, messages: Channel<Report>)
    returns (complete: bool, renamed: bool)
    requires f.Valid() && GoodArrivals(f, arrivals)
    requires file.View() == Buffered(f.source[..f.start], []) && cipher.ks == f.ks
    modifies file, cipher, confirmations, messages
    ensures complete <==> forall i: nat | IsChunk(f.start, f.Size(), i) :: i in Indexes(arrivals)
    ensures renamed <==> complete && (signature.None? || hash(f.source) == signature.value)
    ensures renamed ==> file.disk == f.source && file.pending == []
    ensures !complete ==> file.disk + file.pending == f.source[..Frontier(f.Size(), f.start, Indexes(arrivals))]
  {
    BeginInv(f);
    FeedKeepsInv(f, Begin(f.start, file.disk), arrivals);
    FeedPosition(f.start, f.Size(), f.ks, file.disk, arrivals);
    CompleteIffAllReceived(f, arrivals);
    ExitState(f, Feed(f.Size(), f.ks, Begin(f.start, file.disk), arrivals));
    complete, renamed := Write(id, f.Size(), f.start, signature, hash, file, cipher, arrivals, confirmations, messages);
  }
}
