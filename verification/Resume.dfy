/** Interrupted transfers: the receiving host may stop at any moment and start again from what the disk
    holds, with a new keystream, any number of times. */
module Resume {
  import opened Bytes
  import opened Chunks
  import opened WriterSpec

  /** Where a transfer starts when the partial file has `length` bytes. */
  function StartIndex(length: nat): nat {
    length / TRANSFER_BUFFER_SIZE * TRANSFER_BUFFER_SIZE
  }

  /** The start index is the last chunk boundary that the partial file reaches. */
  lemma LastBoundary(length: nat)
    ensures StartIndex(length) % 1024 == 0 && StartIndex(length) <= length < StartIndex(length) + 1024
  {
  }

  /** An attempt: the writer at work, the index it started at, and the keystream of the attempt. */
  datatype Attempt = Attempt(w: Writer, start: nat, ks: Keystream)

  /** What can happen next. A chunk is taken in only after everything that follows the position has been
      written from the cache, one chunk at a time; the host can stop between any two of these, with `written` more
      bytes of the write buffer on the disk. */
  datatype Event = Chunk(a: Arrival) | WriteNext | Stop(written: nat, ks: Keystream)

  function FileOf(source: seq<Byte>, t: Attempt): File {
    File(source, t.start, t.ks)
  }

  /** What the disk holds when `written` bytes of the write buffer have reached it. */
  function Torn(t: Attempt, written: nat): seq<Byte>
    requires written <= |t.w.file.pending|
  {
    t.w.file.disk + t.w.file.pending[..written]
  }

  function Resumed(disk: seq<Byte>, ks: Keystream): Attempt {
    Attempt(Begin(StartIndex(|disk|), disk), StartIndex(|disk|), ks)
  }

  ghost predicate CanHappen(source: seq<Byte>, t: Attempt, e: Event) {
    match e
    case Chunk(a) =>
      t.w.position < |source| && t.w.position !in t.w.cache && GoodPayload(FileOf(source, t), a.index, a.data)
    case WriteNext => t.w.position in t.w.cache && t.w.position <= |source|
    case Stop(written, _) => written <= |t.w.file.pending| && written % TRANSFER_BUFFER_SIZE == 0
  }

  function Happen(source: seq<Byte>, t: Attempt, e: Event): Attempt
    requires t.w.position <= |source| && (e.WriteNext? ==> t.w.position in t.w.cache)
  {
    var w, size := t.w, |source|;
    match e
    case Chunk(a) =>
      if a.index < w.position then t
      else if a.index > w.position then t.(w := w.(issued := w.issued + [a.index], cache := w.cache[a.index := a.data]))
      else t.(w := WriteData(size, t.ks, w.(issued := w.issued + [a.index]), a.data))
    case WriteNext =>
      t.(w := WriteData(size, t.ks, w.(cache := w.cache - {w.position}), w.cache[w.position]))
    case Stop(written, ks) => if written <= |w.file.pending| then Resumed(Torn(t, written), ks) else t
  }

  /** The disk holds a prefix of the source in whole chunks, so the start index is its length. */
  ghost predicate Resumable(source: seq<Byte>, disk: seq<Byte>) {
    |disk| <= |source| && disk == source[..|disk|] && StartIndex(|disk|) == |disk|
  }

  ghost predicate AttemptInv(source: seq<Byte>, t: Attempt) {
    t.start % TRANSFER_BUFFER_SIZE == 0 && DrainInv(FileOf(source, t), t.w)
  }

  lemma AttemptResumable(source: seq<Byte>, t: Attempt)
    requires AttemptInv(source, t)
    ensures Resumable(source, t.w.file.disk)
  {
    var disk := t.w.file.disk;
    assert disk == t.w.Output()[..|disk|] == source[..t.w.position][..|disk|];
    assert |disk| % TRANSFER_BUFFER_SIZE == 0;
  }

  /** A stop in the middle of emptying the write buffer leaves a file to resume from exactly when whole
      chunks had been written. */
  lemma TornIff(source: seq<Byte>, t: Attempt, written: nat)
    requires AttemptInv(source, t) && written <= |t.w.file.pending|
    ensures Resumable(source, Torn(t, written)) <==> written % TRANSFER_BUFFER_SIZE == 0
  {
    TornPrefix(source, t, written);
    WholeChunks(|t.w.file.disk|, written);
  }

  lemma TornPrefix(source: seq<Byte>, t: Attempt, written: nat)
    requires AttemptInv(source, t) && written <= |t.w.file.pending|
    ensures var disk := Torn(t, written);
            && |disk| == |t.w.file.disk| + written && |disk| <= |source| && disk == source[..|disk|]
            && |t.w.file.disk| % TRANSFER_BUFFER_SIZE == 0
  {
    hide Crypt, GoodPayload, Accepted, Confirmed;
    var disk := Torn(t, written);
    assert disk == t.w.Output()[..|disk|] == source[..t.w.position][..|disk|];
    WholeSum(t.start, |t.w.file.disk|);
  }

  lemma WholeSum(start: nat, length: nat)
    requires start % TRANSFER_BUFFER_SIZE == 0 && (length - start) % TRANSFER_BUFFER_SIZE == 0
    ensures length % TRANSFER_BUFFER_SIZE == 0
  {
  }

  lemma WholeChunks(length: nat, written: nat)
    requires length % TRANSFER_BUFFER_SIZE == 0
    ensures StartIndex(length + written) == length + written <==> written % TRANSFER_BUFFER_SIZE == 0
  {
    hide StartIndex;
    WholeIndex(length + written);
    assert (length + written) % TRANSFER_BUFFER_SIZE == written % TRANSFER_BUFFER_SIZE;
  }

  lemma WholeIndex(length: nat)
    ensures StartIndex(length) == length <==> length % TRANSFER_BUFFER_SIZE == 0
  {
  }

  lemma ResumedInv(source: seq<Byte>, disk: seq<Byte>, ks: Keystream)
    requires Resumable(source, disk) && |source| < U64_LIMIT
    ensures AttemptInv(source, Resumed(disk, ks))
  {
    var t := Resumed(disk, ks);
    assert t.w == Begin(t.start, source[..t.start]);
    BeginInv(FileOf(source, t));
  }

  lemma ChunkKeepsInv(source: seq<Byte>, t: Attempt, a: Arrival)
    requires AttemptInv(source, t) && CanHappen(source, t, Chunk(a))
    ensures AttemptInv(source, Happen(source, t, Chunk(a)))
  {
    var f, w := FileOf(source, t), t.w;
    assert WriterInv(f, w);
    if a.index > w.position {
      AheadKeepsInv(f, w, a);
    } else if a.index == w.position {
      ConfirmOne(f, w, a.index);
      WriteChunkInv(f, w.(issued := w.issued + [a.index]), a.data);
    }
  }

  lemma WriteNextKeepsInv(source: seq<Byte>, t: Attempt)
    requires AttemptInv(source, t) && CanHappen(source, t, WriteNext)
    ensures AttemptInv(source, Happen(source, t, WriteNext))
  {
    var f, w := FileOf(source, t), t.w;
    var rest := w.(cache := w.cache - {w.position});
    forall i
      ensures Confirmed(rest, i) <==> Accepted(f, rest, i) || i == rest.position
    {
      assert Confirmed(rest, i) == Confirmed(w, i);
    }
    WriteChunkInv(f, rest, w.cache[w.position]);
  }

  /** Taking in a chunk and then writing what follows it from the cache is what the writer's loop does with it; nothing
      but a chunk at the position is written at once. */
  lemma EventsAreArrival(source: seq<Byte>, t: Attempt, a: Arrival)
    requires CanHappen(source, t, Chunk(a))
    ensures Happen(source, t, Chunk(a)).w.position <= |source|
    ensures Drain(|source|, t.ks, Happen(source, t, Chunk(a)).w) == Arrive(|source|, t.ks, t.w, a)
    ensures Happen(source, t, Chunk(a)).w.position
         == t.w.position + if a.index == t.w.position then ChunkLength(|source|, a.index) else 0
  {
    hide Crypt;
    if a.index == t.w.position {
      var w := t.w.(issued := t.w.issued + [a.index]);
      assert WriteData(|source|, t.ks, w, a.data)
          == WriteData(|source|, t.ks, t.w, a.data).(issued := t.w.issued + [a.index]);
    }
  }

  /** One chunk is written from the cache, and what follows it is left to the events after it. */
  lemma EventDrains(source: seq<Byte>, t: Attempt)
    requires CanHappen(source, t, WriteNext)
    ensures Happen(source, t, WriteNext).w.position <= |source|
    ensures Drain(|source|, t.ks, Happen(source, t, WriteNext).w) == Drain(|source|, t.ks, t.w)
    ensures Happen(source, t, WriteNext).w.position == t.w.position + ChunkLength(|source|, t.w.position)
    ensures Happen(source, t, WriteNext).w.cache == t.w.cache - {t.w.position}
  {
    hide Crypt;
  }

  lemma EventKeepsInv(source: seq<Byte>, t: Attempt, e: Event)
    requires |source| < U64_LIMIT && AttemptInv(source, t) && CanHappen(source, t, e)
    ensures AttemptInv(source, Happen(source, t, e))
  {
    match e
    case Chunk(a) => ChunkKeepsInv(source, t, a);
    case WriteNext => WriteNextKeepsInv(source, t);
    case Stop(written, ks) =>
      TornIff(source, t, written);
      ResumedInv(source, Torn(t, written), ks);
  }

  ghost predicate CanHappenAll(source: seq<Byte>, t: Attempt, events: seq<Event>)
    decreases |events|
  {
    |events| == 0
    || (t.w.position <= |source| && CanHappen(source, t, events[0])
        && CanHappenAll(source, Happen(source, t, events[0]), events[1..]))
  }

  ghost function HappenAll(source: seq<Byte>, t: Attempt, events: seq<Event>): Attempt
    requires CanHappenAll(source, t, events)
    decreases |events|
  {
    if |events| == 0 then t else HappenAll(source, Happen(source, t, events[0]), events[1..])
  }

  lemma {:induction false} EventsKeepInv(source: seq<Byte>, t: Attempt, events: seq<Event>)
    requires |source| < U64_LIMIT && AttemptInv(source, t) && CanHappenAll(source, t, events)
    ensures AttemptInv(source, HappenAll(source, t, events))
    decreases |events|
  {
    hide AttemptInv;
    if |events| > 0 {
      EventKeepsInv(source, t, events[0]);
      EventsKeepInv(source, Happen(source, t, events[0]), events[1..]);
    }
  }

  /** A stop loses what was still in memory and nothing else: the next attempt, under its own keystream, begins with
      an empty cache behind what the disk holds. */
  lemma StopLosesMemory(source: seq<Byte>, t: Attempt, written: nat, ks: Keystream)
    requires |source| < U64_LIMIT && AttemptInv(source, t) && CanHappen(source, t, Stop(written, ks))
    ensures var r := Happen(source, t, Stop(written, ks));
            && r.ks == ks && r.start == r.w.position == |t.w.file.disk| + written && r.w.cache == map[]
            && r.w.Output() == r.w.file.disk == t.w.file.disk + t.w.file.pending[..written]
  {
    TornIff(source, t, written);
  }

  lemma EventGrows(source: seq<Byte>, t: Attempt, e: Event)
    requires |source| < U64_LIMIT && AttemptInv(source, t) && CanHappen(source, t, e)
    ensures t.w.file.disk <= Happen(source, t, e).w.file.disk
  {
    hide Crypt, GoodPayload, Accepted, Confirmed;
    if e.Stop? {
      hide AttemptInv, Happen;
      StopLosesMemory(source, t, e.written, e.ks);
    }
  }

  /** Through any number of stops, what has once reached the disk stays there. */
  lemma {:induction false} DiskGrows(source: seq<Byte>, t: Attempt, events: seq<Event>)
    requires |source| < U64_LIMIT && AttemptInv(source, t) && CanHappenAll(source, t, events)
    ensures t.w.file.disk <= HappenAll(source, t, events).w.file.disk
    decreases |events|
  {
    hide AttemptInv, Happen;
    if |events| > 0 {
      EventKeepsInv(source, t, events[0]);
      EventGrows(source, t, events[0]);
      DiskGrows(source, Happen(source, t, events[0]), events[1..]);
    }
  }

  /** Through any number of stops before the final flush, between any two chunks that reach the disk, the
      disk stays a source prefix in whole chunks from which the transfer can resume exactly, and a complete
      file flushes to the source. */
  lemma StopsAreHarmless(source: seq<Byte>, ks: Keystream, events: seq<Event>)
    requires |source| < U64_LIMIT && CanHappenAll(source, Resumed([], ks), events)
    ensures var t := HappenAll(source, Resumed([], ks), events);
            && Resumable(source, t.w.file.disk)
            && (t.w.position == |source| ==> t.w.file.Flush().disk == source)
  {
    ResumedInv(source, [], ks);
    EventsKeepInv(source, Resumed([], ks), events);
    var t := HappenAll(source, Resumed([], ks), events);
    AttemptResumable(source, t);
  }

  // ---- resuming from a file of any length ----

  /** Two writers that differ in what their files held at first: they append the same bytes. */
  ghost predicate Parallel(one: Writer, two: Writer, first: seq<Byte>, second: seq<Byte>) {
    && one.position == two.position && one.cache == two.cache
    && exists d :: Appended(one, first, d) && Appended(two, second, d)
  }

  predicate Appended(w: Writer, base: seq<Byte>, d: seq<Byte>) {
    w.Output() == base + d
  }

  lemma WriteAppends(size: nat, ks: Keystream, w: Writer, data: Payload, base: seq<Byte>, d: seq<Byte>)
    requires w.position <= size && Appended(w, base, d)
    ensures Appended(WriteData(size, ks, w, data), base,
                     d + Crypt(data[..ChunkLength(size, w.position)], w.position, ks))
  {
    var plain := Crypt(data[..ChunkLength(size, w.position)], w.position, ks);
    assert WriteData(size, ks, w, data).Output() == w.Output() + plain;
    assert (base + d) + plain == base + (d + plain);
  }

  lemma WriteParallel(size: nat, ks: Keystream, one: Writer, two: Writer, data: Payload, first: seq<Byte>,
                      second: seq<Byte>)
    requires Parallel(one, two, first, second) && one.position <= size
    ensures Parallel(WriteData(size, ks, one, data), WriteData(size, ks, two, data), first, second)
  {
    hide Appended;
    var d :| Appended(one, first, d) && Appended(two, second, d);
    WriteAppends(size, ks, one, data, first, d);
    WriteAppends(size, ks, two, data, second, d);
  }

  lemma {:induction false} DrainParallel(size: nat, ks: Keystream, one: Writer, two: Writer, first: seq<Byte>,
                                         second: seq<Byte>)
    requires Parallel(one, two, first, second) && one.position <= size
    ensures Parallel(Drain(size, ks, one), Drain(size, ks, two), first, second)
    decreases |one.cache|
  {
    hide Parallel, WriteData;
    if one.position in one.cache {
      ParallelMeaning(one, two, first, second);
      var data := one.cache[one.position];
      var p, q := one.(cache := one.cache - {one.position}), two.(cache := two.cache - {two.position});
      assert p.cache.Keys == one.cache.Keys - {one.position};
      assert |p.cache.Keys| < |one.cache.Keys|;
      ParallelCache(one, two, first, second, p.cache);
      WriteParallel(size, ks, p, q, data, first, second);
      WriteKeepsCache(size, ks, p, data);
      DrainParallel(size, ks, WriteData(size, ks, p, data), WriteData(size, ks, q, data), first, second);
    } else {
      ParallelMeaning(one, two, first, second);
    }
  }

  lemma WriteKeepsCache(size: nat, ks: Keystream, w: Writer, data: Payload)
    requires w.position <= size
    ensures WriteData(size, ks, w, data).cache == w.cache
  {
  }

  lemma ParallelMeaning(one: Writer, two: Writer, first: seq<Byte>, second: seq<Byte>)
    requires Parallel(one, two, first, second)
    ensures one.position == two.position && one.cache == two.cache
  {
  }

  lemma ParallelCache(one: Writer, two: Writer, first: seq<Byte>, second: seq<Byte>, cache: map<nat, Payload>)
    requires Parallel(one, two, first, second)
    ensures Parallel(one.(cache := cache), two.(cache := cache), first, second)
  {
    var d :| Appended(one, first, d) && Appended(two, second, d);
    assert Appended(one.(cache := cache), first, d) && Appended(two.(cache := cache), second, d);
  }

  lemma ParallelIssued(one: Writer, two: Writer, first: seq<Byte>, second: seq<Byte>, i: seq<nat>, j: seq<nat>)
    requires Parallel(one, two, first, second)
    ensures Parallel(one.(issued := i), two.(issued := j), first, second)
  {
    var d :| Appended(one, first, d) && Appended(two, second, d);
    assert Appended(one.(issued := i), first, d) && Appended(two.(issued := j), second, d);
  }

  lemma ArriveParallel(size: nat, ks: Keystream, one: Writer, two: Writer, a: Arrival, first: seq<Byte>,
                       second: seq<Byte>)
    requires Parallel(one, two, first, second) && one.position <= size
    ensures Parallel(Arrive(size, ks, one, a), Arrive(size, ks, two, a), first, second)
  {
    hide Parallel, WriteData, Drain;
    ParallelMeaning(one, two, first, second);
    if a.index > one.position {
      var cache := one.cache[a.index := a.data];
      ParallelCache(one, two, first, second, cache);
      ParallelIssued(one.(cache := cache), two.(cache := cache), first, second,
                     one.issued + [a.index], two.issued + [a.index]);
    } else if a.index == one.position {
      var p, q := WriteData(size, ks, one, a.data), WriteData(size, ks, two, a.data);
      WriteParallel(size, ks, one, two, a.data, first, second);
      ParallelIssued(p, q, first, second, p.issued + [a.index], q.issued + [a.index]);
      DrainParallel(size, ks, p.(issued := p.issued + [a.index]), q.(issued := q.issued + [a.index]), first, second);
    }
  }

  lemma {:induction false} FeedParallel(size: nat, ks: Keystream, one: Writer, two: Writer, arrivals: seq<Arrival>,
                                        first: seq<Byte>, second: seq<Byte>)
    requires Parallel(one, two, first, second) && one.position <= size
    ensures Parallel(Feed(size, ks, one, arrivals), Feed(size, ks, two, arrivals), first, second)
    decreases |arrivals|
  {
    hide Parallel, Arrive;
    ParallelMeaning(one, two, first, second);
    if |arrivals| > 0 && one.position != size {
      ArriveParallel(size, ks, one, two, arrivals[0], first, second);
      FeedParallel(size, ks, Arrive(size, ks, one, arrivals[0]), Arrive(size, ks, two, arrivals[0]),
                   arrivals[1..], first, second);
    }
  }

  /** A complete attempt on top of a file of any content: everything from the start index on is appended
      behind it, since the file is opened for appending. */
  lemma CompleteAppends(f: File, existing: seq<Byte>, arrivals: seq<Arrival>)
    requires f.Valid() && GoodArrivals(f, arrivals)
    requires Feed(f.Size(), f.ks, Begin(f.start, existing), arrivals).position == f.Size()
    ensures Feed(f.Size(), f.ks, Begin(f.start, existing), arrivals).Output() == existing + f.source[f.start..]
  {
    hide Feed;
    var prefix := f.source[..f.start];
    var one, two := Begin(f.start, existing), Begin(f.start, prefix);
    assert Appended(one, existing, []) && Appended(two, prefix, []);
    assert Parallel(one, two, existing, prefix);
    FeedParallel(f.Size(), f.ks, one, two, arrivals, existing, prefix);
    BeginInv(f);
    FeedKeepsInv(f, two, arrivals);
    var r, q := Feed(f.Size(), f.ks, one, arrivals), Feed(f.Size(), f.ks, two, arrivals);
    var d :| Appended(r, existing, d) && Appended(q, prefix, d);
    assert q.Output() == f.source;
    assert d == f.source[f.start..] by {
      assert (prefix + d)[|prefix|..] == d;
    }
  }

  /** A partial file that is a prefix of the source resumes to the source exactly when its length is a
      multiple of the chunk size. A stop between the final flush and the rename can leave another length. */
  lemma ResumeExactIff(source: seq<Byte>, length: nat, ks: Keystream, arrivals: seq<Arrival>)
    requires length <= |source| < U64_LIMIT
    requires GoodArrivals(File(source, StartIndex(length), ks), arrivals)
    requires Feed(|source|, ks, Begin(StartIndex(length), source[..length]), arrivals).position == |source|
    ensures Feed(|source|, ks, Begin(StartIndex(length), source[..length]), arrivals).Output() == source
       <==> length % TRANSFER_BUFFER_SIZE == 0
  {
    hide Feed;
    var f := File(source, StartIndex(length), ks);
    CompleteAppends(f, source[..length], arrivals);
    if length % TRANSFER_BUFFER_SIZE == 0 {
      assert StartIndex(length) == length;
      assert source[..length] + source[length..] == source;
    } else {
      assert |source[..length] + source[StartIndex(length)..]| > |source|;
    }
  }
}
