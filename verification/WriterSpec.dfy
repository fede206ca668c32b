/** What the reorder loop of a file writer computes, as functions on values. */
module WriterSpec {
  import opened Bytes
  import opened Chunks

  /** A chunk handed to the writer of one file. */
  datatype Arrival = Arrival(data: Payload, index: nat)

  /** The partial file behind its write buffer: what the disk holds and what is still in memory. */
  datatype Buffered = Buffered(disk: seq<Byte>, pending: seq<Byte>) {
    function Content(): seq<Byte> { disk + pending }

    /** The buffer is emptied to the disk before it would overflow. */
    function Put(data: seq<Byte>): Buffered {
      if |pending| + |data| > WRITE_BUFFER_SIZE then Buffered(disk + pending, data)
      else Buffered(disk, pending + data)
    }

    function Flush(): Buffered {
      Buffered(disk + pending, [])
    }
  }

  /** `cache` holds the chunks that came too early, `issued` the indexes confirmed so far. */
  datatype Writer = Writer(position: nat, cache: map<nat, Payload>, file: Buffered, issued: seq<nat>) {
    function Output(): seq<Byte> { file.Content() }
  }

  function Begin(start: nat, existing: seq<Byte>): Writer {
    Writer(start, map[], Buffered(existing, []), [])
  }

  /** Decrypts what fits into the file, appends it and advances; the cipher stands at `position`. */
  function WriteData(size: nat, ks: Keystream, w: Writer, data: Payload): (r: Writer)
    requires w.position <= size
    ensures r.position <= size
  {
    var len := ChunkLength(size, w.position);
    w.(position := w.position + len, file := w.file.Put(Crypt(data[..len], w.position, ks)))
  }

  function Drain(size: nat, ks: Keystream, w: Writer): (r: Writer)
    requires w.position <= size
    ensures r.position <= size
    decreases |w.cache|
  {
    if w.position in w.cache then
      var data := w.cache[w.position];
      var rest := w.(cache := w.cache - {w.position});
      assert rest.cache.Keys == w.cache.Keys - {w.position};
      assert |rest.cache.Keys| < |w.cache.Keys|;
      Drain(size, ks, WriteData(size, ks, rest, data))
    else w
  }

  function Arrive(size: nat, ks: Keystream, w: Writer, a: Arrival): (r: Writer)
    requires w.position <= size
    ensures r.position <= size
  {
    if a.index < w.position then w
    else if a.index > w.position then w.(issued := w.issued + [a.index], cache := w.cache[a.index := a.data])
    else
      var written := WriteData(size, ks, w, a.data);
      Drain(size, ks, written.(issued := written.issued + [a.index]))
  }

  /** Nothing is lost on the way, and the disk moves exactly when the data do not fit into the buffer; then it
      holds everything that came before them. */
  lemma PutMeans(b: Buffered, data: seq<Byte>)
    ensures b.Put(data).Content() == b.Content() + data && b.Flush().Content() == b.Content() == b.Flush().disk
    ensures b.pending != [] ==> (b.Put(data).disk != b.disk <==> |b.pending| + |data| > 1024 * 100)
    ensures b.Put(data).disk == b.disk || b.Put(data).disk == b.Content()
  {
  }

  lemma {:induction false} DrainIssues(size: nat, ks: Keystream, w: Writer)
    requires w.position <= size
    ensures Drain(size, ks, w).issued == w.issued
    decreases |w.cache|
  {
    if w.position in w.cache {
      var data := w.cache[w.position];
      var rest := w.(cache := w.cache - {w.position});
      assert rest.cache.Keys == w.cache.Keys - {w.position};
      assert |rest.cache.Keys| < |w.cache.Keys|;
      DrainIssues(size, ks, WriteData(size, ks, rest, data));
    }
  }

  /** Every arrival that is not behind the position is confirmed once, a repeated one again. */
  lemma ArriveIssues(size: nat, ks: Keystream, w: Writer, a: Arrival)
    requires w.position <= size
    ensures Arrive(size, ks, w, a).issued == w.issued + (if a.index < w.position then [] else [a.index])
  {
    if a.index == w.position {
      var written := WriteData(size, ks, w, a.data);
      DrainIssues(size, ks, written.(issued := written.issued + [a.index]));
    }
  }

  /** The loop: it stops once the position is the size of the file, whatever else has arrived. */
  function Feed(size: nat, ks: Keystream, w: Writer, arrivals: seq<Arrival>): (r: Writer)
    requires w.position <= size
    ensures r.position <= size
    decreases |arrivals|
  {
    if |arrivals| == 0 || w.position == size then w
    else Feed(size, ks, Arrive(size, ks, w, arrivals[0]), arrivals[1..])
  }

  lemma {:induction false} FeedLast(size: nat, ks: Keystream, w: Writer, arrivals: seq<Arrival>, a: Arrival)
    requires w.position <= size
    ensures Feed(size, ks, w, arrivals + [a])
         == var r := Feed(size, ks, w, arrivals); if r.position == size then r else Arrive(size, ks, r, a)
    decreases |arrivals|
  {
    if |arrivals| == 0 || w.position == size {
      if w.position != size {
        assert (arrivals + [a])[1..] == [];
      }
    } else {
      assert (arrivals + [a])[1..] == arrivals[1..] + [a];
      FeedLast(size, ks, Arrive(size, ks, w, arrivals[0]), arrivals[1..], a);
    }
  }

  /** What arrives after completion changes nothing. */
  lemma {:induction false} FeedStops(size: nat, ks: Keystream, w: Writer, arrivals: seq<Arrival>, late: seq<Arrival>)
    requires w.position <= size && Feed(size, ks, w, arrivals).position == size
    ensures Feed(size, ks, w, arrivals + late) == Feed(size, ks, w, arrivals)
    decreases |arrivals|
  {
    if |arrivals| > 0 && w.position != size {
      assert (arrivals + late)[1..] == arrivals[1..] + late;
      FeedStops(size, ks, Arrive(size, ks, w, arrivals[0]), arrivals[1..], late);
    }
  }

  function Indexes(arrivals: seq<Arrival>): set<nat> {
    set i | 0 <= i < |arrivals| :: arrivals[i].index
  }

  /** The independent reference: from `p` on, the first chunk boundary that was not received. */
  function Frontier(size: nat, p: nat, received: set<nat>): (r: nat)
    requires p <= size
    ensures p <= r <= size
    decreases size - p
  {
    if p == size || p !in received then p
    else Frontier(size, p + ChunkLength(size, p), received)
  }

  lemma {:induction false} FrontierMeaning(start: nat, size: nat, p: nat, received: set<nat>, r: nat)
    requires IsBoundary(start, size, p) && p <= size
    requires p <= r && IsBoundary(start, size, r)
    requires r == size || r !in received
    requires forall i: nat | IsChunk(start, size, i) && p <= i < r :: i in received
    ensures Frontier(size, p, received) == r
    decreases size - p
  {
    if p < r {
      NextBoundary(start, size, p);
      assert p + ChunkLength(size, p) <= r;
      FrontierMeaning(start, size, p + ChunkLength(size, p), received, r);
    }
  }

  // ---- position: for arrivals with any index at all ----

  /** Everything received is behind the position or kept in the cache. */
  ghost predicate Tracks(start: nat, size: nat, w: Writer, received: set<nat>) {
    && start <= w.position <= size && IsBoundary(start, size, w.position)
    && w.cache.Keys <= received
    && (forall i | i in received :: i < w.position || i in w.cache || w.position == size)
    && (forall i: nat | IsChunk(start, size, i) && i < w.position :: i in received)
  }

  lemma {:induction false} DrainTracks(start: nat, size: nat, ks: Keystream, w: Writer, received: set<nat>)
    requires Tracks(start, size, w, received)
    ensures var r := Drain(size, ks, w);
            Tracks(start, size, r, received) && r.position !in r.cache && w.position <= r.position
    decreases |w.cache|
  {
    hide Tracks, WriteData;
    TracksWithin(start, size, w, received);
    if w.position in w.cache {
      DrainOneTracks(start, size, ks, w, received);
      var rest := w.(cache := w.cache - {w.position});
      DrainTracks(start, size, ks, WriteData(size, ks, rest, w.cache[w.position]), received);
    }
  }

  lemma TracksWithin(start: nat, size: nat, w: Writer, received: set<nat>)
    requires Tracks(start, size, w, received)
    ensures w.position <= size
  {
  }

  lemma DrainOneTracks(start: nat, size: nat, ks: Keystream, w: Writer, received: set<nat>)
    requires Tracks(start, size, w, received) && w.position in w.cache
    ensures |w.cache - {w.position}| < |w.cache|
    ensures var next := WriteData(size, ks, w.(cache := w.cache - {w.position}), w.cache[w.position]);
            && Tracks(start, size, next, received) && w.position <= next.position
            && next.cache == w.cache - {w.position}
  {
    hide Crypt;
    var rest := w.(cache := w.cache - {w.position});
    assert rest.cache.Keys == w.cache.Keys - {w.position};
    assert |rest.cache.Keys| < |w.cache.Keys|;
    if w.position < size {
      NextBoundary(start, size, w.position);
    }
  }

  lemma ArriveTracks(start: nat, size: nat, ks: Keystream, w: Writer, received: set<nat>, a: Arrival)
    requires Tracks(start, size, w, received) && w.position !in w.cache && w.position != size
    ensures var r := Arrive(size, ks, w, a);
            Tracks(start, size, r, received + {a.index}) && r.position !in r.cache && w.position <= r.position
  {
    if a.index == w.position {
      var written := WriteData(size, ks, w, a.data);
      NextBoundary(start, size, w.position);
      DrainTracks(start, size, ks, written.(issued := written.issued + [a.index]), received + {a.index});
    }
  }

  lemma {:induction false} FeedTracks(start: nat, size: nat, ks: Keystream, existing: seq<Byte>, arrivals: seq<Arrival>)
    requires start <= size
    ensures var r := Feed(size, ks, Begin(start, existing), arrivals);
            Tracks(start, size, r, Indexes(arrivals)) && r.position !in r.cache
  {
    if |arrivals| > 0 {
      var front, a := arrivals[..|arrivals| - 1], arrivals[|arrivals| - 1];
      assert arrivals == front + [a];
      FeedTracks(start, size, ks, existing, front);
      FeedLast(size, ks, Begin(start, existing), front, a);
      assert Indexes(arrivals) == Indexes(front) + {a.index};
      var before := Feed(size, ks, Begin(start, existing), front);
      if before.position != size {
        ArriveTracks(start, size, ks, before, Indexes(front), a);
      }
    }
  }

  /** After any sequence of arrivals the position is the first missing boundary of the set received. */
  lemma FeedPosition(start: nat, size: nat, ks: Keystream, existing: seq<Byte>, arrivals: seq<Arrival>)
    requires start <= size
    ensures Feed(size, ks, Begin(start, existing), arrivals).position == Frontier(size, start, Indexes(arrivals))
  {
    FeedTracks(start, size, ks, existing, arrivals);
    var r := Feed(size, ks, Begin(start, existing), arrivals);
    FrontierMeaning(start, size, start, Indexes(arrivals), r.position);
  }

  // ---- contents: for arrivals that carry chunks of the file ----

  ghost predicate GoodArrivals(f: File, arrivals: seq<Arrival>) {
    forall i | 0 <= i < |arrivals| :: GoodPayload(f, arrivals[i].index, arrivals[i].data)
  }

  ghost predicate Confirmed(w: Writer, i: nat) {
    i in w.issued
  }

  /** The file is a source prefix up to the position, and what reached the disk is a whole number of
      chunks behind the start. */
  ghost predicate FileInv(f: File, w: Writer) {
    && f.start <= w.position <= f.Size() && IsBoundary(f.start, f.Size(), w.position)
    && w.Output() == f.source[..w.position]
    && f.start <= |w.file.disk| && (|w.file.disk| - f.start) % TRANSFER_BUFFER_SIZE == 0
  }

  /** The writer's standing while it is fed chunks of `f`: the file is a prefix of the source up to
      `position`, the cache holds later chunks only, and exactly the chunks written or cached were confirmed. */
  ghost predicate WriterInv(f: File, w: Writer) {
    && FileInv(f, w)
    && (forall i | i in w.cache :: w.position < i && GoodPayload(f, i, w.cache[i]))
    && (forall i :: Confirmed(w, i) <==> Accepted(f, w, i))
  }

  /** Chunk `i` of `f` is in the file or in the cache. */
  predicate Accepted(f: File, w: Writer, i: nat) {
    IsChunk(f.start, f.Size(), i) && (i < w.position || i in w.cache)
  }

  lemma BeginInv(f: File)
    requires f.Valid()
    ensures WriterInv(f, Begin(f.start, f.source[..f.start]))
  {
  }

  /** As `WriterInv`, in the middle of draining: the chunk at the position may still be cached. */
  ghost predicate DrainInv(f: File, w: Writer) {
    && FileInv(f, w)
    && (forall i | i in w.cache :: w.position <= i && GoodPayload(f, i, w.cache[i]))
    && (forall i :: Confirmed(w, i) <==> Accepted(f, w, i))
  }

  lemma WriteChunkInv(f: File, w: Writer, data: Payload)
    requires FileInv(f, w) && w.position < f.Size()
    requires GoodPayload(f, w.position, data)
    requires forall i | i in w.cache :: w.position < i && GoodPayload(f, i, w.cache[i])
    requires forall i :: Confirmed(w, i) <==> Accepted(f, w, i) || i == w.position
    ensures DrainInv(f, WriteData(f.Size(), f.ks, w, data))
  {
    hide GoodPayload, FileInv, WriteData, Accepted, Confirmed;
    PayloadChunk(f, w.position, data);
    WrittenFile(f, w, data);
    WriteAccepts(f, w, data);
    WrittenRest(f.Size(), f.ks, w, data);
    LaterChunks(f, w, data);
    ConfirmedOf(w, WriteData(f.Size(), f.ks, w, data));
  }

  lemma PayloadChunk(f: File, i: nat, data: Payload)
    requires GoodPayload(f, i, data)
    ensures IsChunk(f.start, f.Size(), i)
  {
  }

  /** What writing a chunk leaves alone, and where it goes. */
  lemma WrittenRest(size: nat, ks: Keystream, w: Writer, data: Payload)
    requires w.position < size
    ensures var r := WriteData(size, ks, w, data);
            r.cache == w.cache && r.issued == w.issued
  {
    hide Crypt;
  }

  /** Cached chunks are not before the next position. */
  lemma LaterChunks(f: File, w: Writer, data: Payload)
    requires w.position < f.Size() && IsChunk(f.start, f.Size(), w.position)
    requires forall i | i in w.cache :: w.position < i && GoodPayload(f, i, w.cache[i])
    ensures forall i | i in w.cache :: WriteData(f.Size(), f.ks, w, data).position <= i
  {
    hide Crypt, CipherText;
    NextBoundary(f.start, f.Size(), w.position);
  }

  lemma ConfirmedOf(w: Writer, r: Writer)
    requires r.issued == w.issued
    ensures forall i :: Confirmed(r, i) <==> Confirmed(w, i)
  {
  }

  /** The file grows by the chunk of the source at the position. */
  lemma WrittenFile(f: File, w: Writer, data: Payload)
    requires FileInv(f, w) && w.position < f.Size() && GoodPayload(f, w.position, data)
    ensures FileInv(f, WriteData(f.Size(), f.ks, w, data))
  {
    hide Crypt, GoodPayload;
    var len := ChunkLength(f.Size(), w.position);
    var r := WriteData(f.Size(), f.ks, w, data);
    NextBoundary(f.start, f.Size(), w.position);
    DecryptPayload(f, w.position, data);
    assert r.Output() == w.Output() + Crypt(data[..len], w.position, f.ks);
    assert f.source[..w.position] + f.source[w.position..w.position + len] == f.source[..w.position + len];
  }

  lemma {:induction false} DrainKeepsInv(f: File, w: Writer)
    requires DrainInv(f, w)
    ensures WriterInv(f, Drain(f.Size(), f.ks, w))
    ensures forall i :: Accepted(f, Drain(f.Size(), f.ks, w), i) <==> Accepted(f, w, i)
    decreases |w.cache|
  {
    hide WriteData, FileInv, Accepted, Confirmed, GoodPayload;
    if w.position in w.cache {
      DrainOneInv(f, w);
      DrainKeepsInv(f, WriteData(f.Size(), f.ks, w.(cache := w.cache - {w.position}), w.cache[w.position]));
    }
  }

  /** One chunk is taken out of the cache and written. */
  lemma DrainOneInv(f: File, w: Writer)
    requires DrainInv(f, w) && w.position in w.cache
    ensures w.position <= f.Size() && |w.cache - {w.position}| < |w.cache|
    ensures var next := WriteData(f.Size(), f.ks, w.(cache := w.cache - {w.position}), w.cache[w.position]);
            && DrainInv(f, next) && next.cache == w.cache - {w.position}
            && forall i :: Accepted(f, next, i) <==> Accepted(f, w, i)
  {
    hide DrainInv, Crypt, GoodPayload;
    TakenOutInv(f, w);
    var rest := w.(cache := w.cache - {w.position});
    WriteChunkInv(f, rest, w.cache[w.position]);
    WriteAccepts(f, rest, w.cache[w.position]);
  }

  lemma TakenOutInv(f: File, w: Writer)
    requires DrainInv(f, w) && w.position in w.cache
    ensures var rest := w.(cache := w.cache - {w.position});
            && FileInv(f, rest) && |rest.cache| < |w.cache| && w.position < f.Size()
            && IsChunk(f.start, f.Size(), w.position) && GoodPayload(f, w.position, w.cache[w.position])
            && (forall i | i in rest.cache :: w.position < i && GoodPayload(f, i, rest.cache[i]))
            && (forall i :: Confirmed(rest, i) <==> Accepted(f, rest, i) || i == rest.position)
            && (forall i :: Accepted(f, w, i) <==> Accepted(f, rest, i) || i == rest.position)
  {
    hide FileInv, Accepted, Confirmed;
    var rest := w.(cache := w.cache - {w.position});
    assert rest.cache.Keys == w.cache.Keys - {w.position};
    assert |rest.cache.Keys| < |w.cache.Keys|;
    SameFileInv(f, w, rest);
    TakenOutAccepted(f, w);
  }

  lemma SameFileInv(f: File, w: Writer, r: Writer)
    requires FileInv(f, w) && r.position == w.position && r.file == w.file
    ensures FileInv(f, r)
  {
  }

  lemma TakenOutAccepted(f: File, w: Writer)
    requires w.position in w.cache && IsChunk(f.start, f.Size(), w.position)
    requires forall i :: Confirmed(w, i) <==> Accepted(f, w, i)
    ensures var rest := w.(cache := w.cache - {w.position});
            && (forall i :: Confirmed(rest, i) <==> Accepted(f, rest, i) || i == rest.position)
            && (forall i :: Accepted(f, w, i) <==> Accepted(f, rest, i) || i == rest.position)
  {
    var rest := w.(cache := w.cache - {w.position});
    forall i
      ensures Confirmed(rest, i) <==> Accepted(f, rest, i) || i == rest.position
    {
      assert Confirmed(rest, i) == Confirmed(w, i);
    }
  }

  lemma AheadKeepsInv(f: File, w: Writer, a: Arrival)
    requires WriterInv(f, w) && GoodPayload(f, a.index, a.data) && w.position < a.index
    ensures WriterInv(f, Arrive(f.Size(), f.ks, w, a))
  {
    var r := Arrive(f.Size(), f.ks, w, a);
    forall i
      ensures Confirmed(r, i) <==> Accepted(f, r, i)
    {
      assert Confirmed(r, i) <==> Confirmed(w, i) || i == a.index;
    }
  }

  lemma ConfirmOne(f: File, w: Writer, index: nat)
    requires forall i :: Confirmed(w, i) <==> Accepted(f, w, i)
    ensures forall i :: Confirmed(w.(issued := w.issued + [index]), i) <==> Accepted(f, w, i) || i == index
  {
    forall i
      ensures Confirmed(w.(issued := w.issued + [index]), i) <==> Confirmed(w, i) || i == index
    {
    }
  }

  lemma WriteAccepts(f: File, w: Writer, data: Payload)
    requires w.position <= f.Size() && IsChunk(f.start, f.Size(), w.position)
    ensures forall i :: Accepted(f, WriteData(f.Size(), f.ks, w, data), i) <==> Accepted(f, w, i) || i == w.position
  {
    NextBoundary(f.start, f.Size(), w.position);
  }

  lemma AtPositionKeepsInv(f: File, w: Writer, a: Arrival)
    requires WriterInv(f, w) && GoodPayload(f, a.index, a.data) && a.index == w.position
    ensures WriterInv(f, Arrive(f.Size(), f.ks, w, a))
    ensures forall i :: Accepted(f, Arrive(f.Size(), f.ks, w, a), i) <==> Accepted(f, w, i) || i == a.index
  {
    hide WriterInv, DrainInv, WriteData, Drain, Accepted, GoodPayload;
    WrittenInv(f, w, a);
    var written := WriteData(f.Size(), f.ks, w.(issued := w.issued + [a.index]), a.data);
    DrainKeepsInv(f, written);
    ArriveIsDrain(f.Size(), f.ks, w, a);
  }

  lemma ArriveIsDrain(size: nat, ks: Keystream, w: Writer, a: Arrival)
    requires w.position <= size && a.index == w.position
    ensures Arrive(size, ks, w, a) == Drain(size, ks, WriteData(size, ks, w.(issued := w.issued + [a.index]), a.data))
  {
    hide Drain, Crypt;
  }

  /** The chunk at the position has been confirmed and written, and the cache not yet looked at. */
  lemma WrittenInv(f: File, w: Writer, a: Arrival)
    requires WriterInv(f, w) && GoodPayload(f, a.index, a.data) && a.index == w.position
    ensures w.position < f.Size()
    ensures var written := WriteData(f.Size(), f.ks, w.(issued := w.issued + [a.index]), a.data);
            && DrainInv(f, written)
            && forall i :: Accepted(f, written, i) <==> Accepted(f, w, i) || i == a.index
  {
    hide WriteData, DrainInv;
    var confirmed := w.(issued := w.issued + [a.index]);
    ConfirmOne(f, w, a.index);
    WriteChunkInv(f, confirmed, a.data);
    WriteAccepts(f, confirmed, a.data);
  }

  /** One arrival of a chunk of the file: the standing is kept and exactly that chunk is accepted. */
  lemma ArriveKeepsInv(f: File, w: Writer, a: Arrival)
    requires WriterInv(f, w) && GoodPayload(f, a.index, a.data)
    ensures WriterInv(f, Arrive(f.Size(), f.ks, w, a))
    ensures forall i :: Accepted(f, Arrive(f.Size(), f.ks, w, a), i) <==> Accepted(f, w, i) || i == a.index
  {
    if a.index > w.position {
      AheadKeepsInv(f, w, a);
    } else if a.index == w.position {
      AtPositionKeepsInv(f, w, a);
    }
  }

  lemma {:induction false} FeedKeepsInv(f: File, w: Writer, arrivals: seq<Arrival>)
    requires WriterInv(f, w) && GoodArrivals(f, arrivals)
    ensures WriterInv(f, Feed(f.Size(), f.ks, w, arrivals))
    decreases |arrivals|
  {
    if |arrivals| > 0 && w.position != f.Size() {
      ArriveKeepsInv(f, w, arrivals[0]);
      FeedKeepsInv(f, Arrive(f.Size(), f.ks, w, arrivals[0]), arrivals[1..]);
    }
  }

  /** Once the loop exits nothing is left in the cache and the file is complete. */
  lemma ExitState(f: File, w: Writer)
    requires WriterInv(f, w)
    ensures w.position == f.Size() ==> w.cache == map[] && w.Output() == f.source
  {
    if w.position == f.Size() {
      assert w.cache.Keys == {};
    }
  }

  /** The file depends on the set of chunks received only: not on order, not on repetition. */
  lemma SameChunksSameFile(f: File, one: seq<Arrival>, two: seq<Arrival>)
    requires f.Valid() && GoodArrivals(f, one) && GoodArrivals(f, two)
    requires Indexes(one) == Indexes(two)
    ensures var w := Begin(f.start, f.source[..f.start]);
            var r, q := Feed(f.Size(), f.ks, w, one), Feed(f.Size(), f.ks, w, two);
            r.position == q.position && r.Output() == q.Output()
            && r.Output() == f.source[..Frontier(f.Size(), f.start, Indexes(one))]
  {
    var existing := f.source[..f.start];
    BeginInv(f);
    FeedKeepsInv(f, Begin(f.start, existing), one);
    FeedKeepsInv(f, Begin(f.start, existing), two);
    FeedPosition(f.start, f.Size(), f.ks, existing, one);
    FeedPosition(f.start, f.Size(), f.ks, existing, two);
  }

  /** The loop exits exactly when every chunk from the start index on has arrived. */
  lemma CompleteIffAllReceived(f: File, arrivals: seq<Arrival>)
    requires f.Valid()
    ensures Feed(f.Size(), f.ks, Begin(f.start, f.source[..f.start]), arrivals).position == f.Size()
       <==> forall i: nat | IsChunk(f.start, f.Size(), i) :: i in Indexes(arrivals)
  {
    FeedTracks(f.start, f.Size(), f.ks, f.source[..f.start], arrivals);
    var r := Feed(f.Size(), f.ks, Begin(f.start, f.source[..f.start]), arrivals);
    if r.position != f.Size() {
      assert IsChunk(f.start, f.Size(), r.position);
    }
  }

  // ---- the write buffer ----

  /** The buffer holds no more than its capacity, and what reached the disk stays there. */
  predicate Grown(before: Buffered, after: Buffered) {
    before.disk <= after.disk && |after.pending| <= WRITE_BUFFER_SIZE
  }

  lemma {:induction false} DrainGrows(size: nat, ks: Keystream, w: Writer)
    requires w.position <= size && |w.file.pending| <= WRITE_BUFFER_SIZE
    ensures Grown(w.file, Drain(size, ks, w).file)
    decreases |w.cache|
  {
    if w.position in w.cache {
      var data := w.cache[w.position];
      var rest := w.(cache := w.cache - {w.position});
      assert rest.cache.Keys == w.cache.Keys - {w.position};
      assert |rest.cache.Keys| < |w.cache.Keys|;
      DrainGrows(size, ks, WriteData(size, ks, rest, data));
    }
  }

  /** Whatever arrives, the write buffer never overflows and the disk is only appended to. */
  lemma {:induction false} FeedGrows(size: nat, ks: Keystream, w: Writer, arrivals: seq<Arrival>)
    requires w.position <= size && |w.file.pending| <= WRITE_BUFFER_SIZE
    ensures Grown(w.file, Feed(size, ks, w, arrivals).file)
    decreases |arrivals|
  {
    if |arrivals| > 0 && w.position != size {
      var a := arrivals[0];
      if a.index == w.position {
        var written := WriteData(size, ks, w, a.data);
        DrainGrows(size, ks, written.(issued := written.issued + [a.index]));
      }
      FeedGrows(size, ks, Arrive(size, ks, w, a), arrivals[1..]);
    }
  }
}
