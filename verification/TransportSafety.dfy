/** What holds in every reachable state of the transport. */
module TransportSafety {
  import opened Bytes
  import opened Chunks
  import opened ReaderSpec
  import opened WriterSpec
  import opened Confirmations
  import opened SenderState
  import opened Transport
  import opened Ledger

  // ---- data: everything that moves is a chunk of its file ----

  ghost predicate GoodFor(c: Config, k: Key, packet: Packet) {
    k.id in c.files && GoodPacket(c.files[k.id], k, packet)
  }

  ghost predicate ReaderOk(c: Config, id: nat, r: Reader) {
    && id in c.files
    && c.files[id].start <= r.index <= c.files[id].Size()
    && IsBoundary(c.files[id].start, c.files[id].Size(), r.index)
    && r.packet[..ID_SIZE] == ToBE(id, ID_SIZE)
  }

  ghost predicate SlotOk(c: Config, id: nat, slot: Slot) {
    && id in c.files
    && WriterInv(c.files[id], slot.w)
    && |slot.queue| <= WRITER_QUEUE_SIZE
    && (forall i | 0 <= i < |slot.queue| :: GoodPayload(c.files[id], slot.queue[i].index, slot.queue[i].data))
    && (slot.mode.Closed? ==> slot.w.position == c.files[id].Size() && slot.queue == [])
  }

  ghost predicate ReadersOk(c: Config, readers: map<nat, Reader>, holders: set<nat>) {
    && (forall id | id in readers :: ReaderOk(c, id, readers[id]))
    && (forall id | id in holders :: id in readers && !readers[id].exited)
  }

  ghost predicate SlotsOk(c: Config, slots: map<nat, Slot>) {
    forall id | id in slots :: SlotOk(c, id, slots[id])
  }

  ghost predicate QueueOk(c: Config, queue: seq<Job>) {
    forall i | 0 <= i < |queue| :: GoodFor(c, queue[i].key, queue[i].data)
  }

  ghost predicate HandOk(c: Config, h: Hand) {
    h.Taken? || h.Sent? ==> GoodFor(c, h.job.key, h.job.data)
  }

  ghost predicate HandsOk(c: Config, hands: seq<Hand>) {
    |hands| == c.tasks && forall t | 0 <= t < |hands| :: HandOk(c, hands[t])
  }

  ghost predicate CachedOk(c: Config, k: Key, job: Job) {
    job.key == k && GoodFor(c, k, job.data)
  }

  ghost predicate CacheOk(c: Config, cache: map<Key, Job>) {
    forall k | k in cache :: CachedOk(c, k, cache[k])
  }

  ghost predicate SentOk(c: Config, produced: set<Key>, p: Packet) {
    GoodFor(c, ParseKey(p), p) && ParseKey(p) in produced
  }

  /** Every packet sent parses to a chunk that a reader has cut. */
  ghost predicate NetOk(c: Config, produced: set<Key>, net: set<Datagram>) {
    forall d | d in net :: SentOk(c, produced, d.packet)
  }

  ghost predicate InletOk(c: Config, produced: set<Key>, inlet: Inlet) {
    inlet.Holding? ==> SentOk(c, produced, inlet.packet)
  }

  ghost predicate InletsOk(c: Config, produced: set<Key>, inlets: seq<Inlet>) {
    |inlets| == c.tasks && forall t | 0 <= t < |inlets| :: InletOk(c, produced, inlets[t])
  }

  ghost predicate ArrivalsOk(produced: set<Key>, id: nat, queue: seq<Arrival>) {
    forall i | 0 <= i < |queue| :: Key(id, queue[i].index) in produced
  }

  ghost predicate QueuesOk(produced: set<Key>, slots: map<nat, Slot>) {
    forall id | id in slots :: ArrivalsOk(produced, id, slots[id].queue)
  }

  // ---- books ----

  ghost function Books(c: Config, s: State): Ledger {
    Ledger(LiveKeys(s.shared.queue, s.hands, s.shared.cache), ProducedKeys(c, s.readers), AcceptedKeys(c, s.slots),
           InTransit(s.conf), s.shared.lost, s.shared.permits, |s.holders|, s.shared.confirmed)
  }

  ghost predicate Inv(c: Config, s: State) {
    && ReadersOk(c, s.readers, s.holders)
    && SlotsOk(c, s.slots)
    && QueueOk(c, s.shared.queue)
    && HandsOk(c, s.hands)
    && CacheOk(c, s.shared.cache)
    && NetOk(c, ProducedKeys(c, s.readers), s.net)
    && InletsOk(c, ProducedKeys(c, s.readers), s.inlets)
    && QueuesOk(ProducedKeys(c, s.readers), s.slots)
    && s.sendPermits <= MAX_SEND_PERMITS
    && Balanced(c.jobLimit, Books(c, s))
    && Conserved(s.conf)
  }

  lemma ProducedMeaning(c: Config, readers: map<nat, Reader>, k: Key)
    ensures k in ProducedKeys(c, readers)
       <==> k.id in readers && k.id in c.files && k.index < readers[k.id].index
            && IsChunk(c.files[k.id].start, c.files[k.id].Size(), k.index)
  {
    assert k == Key(k.id, k.index);
  }

  lemma AcceptedMeaning(c: Config, slots: map<nat, Slot>, k: Key)
    ensures k in AcceptedKeys(c, slots)
       <==> k.id in slots && k.id in c.files && Accepted(c.files[k.id], slots[k.id].w, k.index)
  {
    assert k == Key(k.id, k.index);
  }

  lemma {:induction false} HandKeysMember(hands: seq<Hand>, t: nat)
    requires t < |hands|
    ensures HandKey(hands[t]) <= HandKeys(hands)
  {
    if t > 0 {
      HandKeysMember(hands[1..], t - 1);
    }
  }

  // ---- the initial state ----

  lemma {:induction false} IdleHands(n: nat)
    ensures HandKeys(seq(n, _ => Idle)) == multiset{}
  {
    if n > 0 {
      var hands: seq<Hand> := seq(n, _ => Idle);
      assert hands[1..] == seq(n - 1, _ => Idle);
      IdleHands(n - 1);
    }
  }

  lemma InitBooks(c: Config)
    ensures Books(c, Init(c)) == Ledger(multiset{}, {}, {}, multiset{}, {}, c.jobLimit, 0, 0)
  {
    IdleHands(c.tasks);
    assert LiveKeys([], Init(c).hands, map[]) == multiset{};
    assert ProducedKeys(c, map[]) == {} && AcceptedKeys(c, map[]) == {};
  }

  lemma NothingBalanced(limit: nat)
    ensures Balanced(limit, Ledger(multiset{}, {}, {}, multiset{}, {}, limit, 0, 0))
  {
  }

  lemma InitData(c: Config)
    ensures var s := Init(c);
            && ReadersOk(c, s.readers, s.holders) && SlotsOk(c, s.slots) && QueueOk(c, s.shared.queue)
            && HandsOk(c, s.hands) && CacheOk(c, s.shared.cache) && Conserved(s.conf)
  {
  }

  lemma InitArrivals(c: Config, produced: set<Key>)
    ensures NetOk(c, produced, {}) && InletsOk(c, produced, seq(c.tasks, _ => Vacant)) && QueuesOk(produced, map[])
  {
  }

  lemma InitInv(c: Config)
    requires ValidConfig(c)
    ensures Inv(c, Init(c))
  {
    hide Books, ProducedKeys, Balanced, Conserved, ReadersOk, SlotsOk, QueueOk, HandsOk, CacheOk, NetOk, InletsOk,
         QueuesOk;
    InitBooks(c);
    NothingBalanced(c.jobLimit);
    InitData(c);
    InitArrivals(c, ProducedKeys(c, map[]));
  }

  // ---- readers ----

  lemma StartedReader(c: Config, readers: map<nat, Reader>, holders: set<nat>, id: nat)
    requires ValidConfig(c) && ReadersOk(c, readers, holders) && id in c.files && id !in readers
    ensures var r := readers[id := Reader(c.files[id].start, FirstBuffer(id), false)];
            ReadersOk(c, r, holders) && ProducedKeys(c, r) == ProducedKeys(c, readers)
  {
    var f := c.files[id];
    var r := readers[id := Reader(f.start, FirstBuffer(id), false)];
    assert f.start == f.Size() || IsChunk(f.start, f.Size(), f.start);
    assert ReaderOk(c, id, r[id]);
    forall k: Key
      ensures k in ProducedKeys(c, r) <==> k in ProducedKeys(c, readers)
    {
      ProducedMeaning(c, readers, k);
      ProducedMeaning(c, r, k);
    }
  }

  lemma StartReaderInv(c: Config, s: State, id: nat)
    requires ValidConfig(c) && Inv(c, s) && Enabled(c, s, StartReader(id))
    ensures Inv(c, Apply(c, s, StartReader(id)))
  {
    hide ProducedKeys, AcceptedKeys, LiveKeys, InTransit, Balanced, Conserved, ReadersOk,
         SlotsOk, QueueOk, HandsOk, CacheOk, NetOk, InletsOk, QueuesOk;
    StartedReader(c, s.readers, s.holders, id);
    assert Books(c, Apply(c, s, StartReader(id))) == Books(c, s);
  }

  lemma HolderJoins(c: Config, readers: map<nat, Reader>, holders: set<nat>, id: nat)
    requires ReadersOk(c, readers, holders) && id in readers && !readers[id].exited
    ensures ReadersOk(c, readers, holders + {id})
  {
  }

  lemma AcquireReadInv(c: Config, s: State, id: nat)
    requires ValidConfig(c) && Inv(c, s) && Enabled(c, s, AcquireRead(id))
    ensures Inv(c, Apply(c, s, AcquireRead(id)))
  {
    hide ProducedKeys, AcceptedKeys, LiveKeys, InTransit, Balanced, Conserved, ReadersOk,
         SlotsOk, QueueOk, HandsOk, CacheOk, NetOk, InletsOk, QueuesOk;
    AcquireBalanced(c.jobLimit, Books(c, s));
    HolderJoins(c, s.readers, s.holders, id);
    assert |s.holders + {id}| == |s.holders| + 1;
    assert Books(c, Apply(c, s, AcquireRead(id))) == Acquire(Books(c, s));
  }

  lemma EndedReader(c: Config, readers: map<nat, Reader>, holders: set<nat>, id: nat)
    requires ReadersOk(c, readers, holders) && id in readers
    ensures var r := readers[id := readers[id].(exited := true)];
            ReadersOk(c, r, holders - {id}) && ProducedKeys(c, r) == ProducedKeys(c, readers)
  {
    var r := readers[id := readers[id].(exited := true)];
    assert ReaderOk(c, id, readers[id]);
    forall k: Key
      ensures k in ProducedKeys(c, r) <==> k in ProducedKeys(c, readers)
    {
      ProducedMeaning(c, readers, k);
      ProducedMeaning(c, r, k);
    }
  }

  lemma EndOfFileInv(c: Config, s: State, id: nat)
    requires ValidConfig(c) && Inv(c, s) && Enabled(c, s, ReadChunk(id))
    requires s.readers[id].index == c.files[id].Size()
    ensures Inv(c, Apply(c, s, ReadChunk(id)))
  {
    hide ProducedKeys, AcceptedKeys, LiveKeys, InTransit, Balanced, Conserved,
         SlotsOk, QueueOk, HandsOk, CacheOk, NetOk, InletsOk, QueuesOk;
    EndedReader(c, s.readers, s.holders, id);
    assert |s.holders - {id}| == |s.holders| - 1;
    GiveBackBalanced(c.jobLimit, Books(c, s));
    assert Books(c, Apply(c, s, ReadChunk(id))) == GiveBack(Books(c, s));
  }

  lemma FailReaderInv(c: Config, s: State, id: nat)
    requires Inv(c, s) && Enabled(c, s, FailReader(id))
    ensures Inv(c, Apply(c, s, FailReader(id)))
  {
    hide ProducedKeys, AcceptedKeys, LiveKeys, InTransit, Balanced, Conserved, ReadersOk,
         SlotsOk, QueueOk, HandsOk, CacheOk, NetOk, InletsOk, QueuesOk;
    var r := Apply(c, s, FailReader(id));
    EndedReader(c, s.readers, s.holders, id);
    if id in s.holders {
      assert |s.holders - {id}| == |s.holders| - 1;
      GiveBackBalanced(c.jobLimit, Books(c, s));
      assert Books(c, r) == GiveBack(Books(c, s));
    } else {
      assert s.holders - {id} == s.holders;
      assert Books(c, r) == Books(c, s);
    }
  }

  lemma AdvancedReader(c: Config, readers: map<nat, Reader>, holders: set<nat>, id: nat)
    requires ValidConfig(c) && ReadersOk(c, readers, holders) && id in holders
    requires readers[id].index < c.files[id].Size()
    ensures var f, reader := c.files[id], readers[id];
            var packet := FillBuffer(f, reader.index, reader.packet);
            var index := reader.index + ChunkLength(f.Size(), reader.index);
            var r := readers[id := reader.(index := index, packet := packet)];
            && ReadersOk(c, r, holders - {id})
            && GoodFor(c, Key(id, reader.index), packet)
            && Key(id, reader.index) !in ProducedKeys(c, readers)
            && ProducedKeys(c, r) == ProducedKeys(c, readers) + {Key(id, reader.index)}
  {
    hide ReadersOk, ReaderOk, FillBuffer, ProducedKeys;
    HolderOk(c, readers, holders, id);
    NextReader(c, readers[id], id);
    var f, reader := c.files[id], readers[id];
    var packet := FillBuffer(f, reader.index, reader.packet);
    var next := reader.(index := reader.index + ChunkLength(f.Size(), reader.index), packet := packet);
    ReaderReplaced(c, readers, holders, id, next);
    AdvancedKeys(c, readers, id, next);
  }

  lemma HolderOk(c: Config, readers: map<nat, Reader>, holders: set<nat>, id: nat)
    requires ReadersOk(c, readers, holders) && id in holders
    ensures id in readers && ReaderOk(c, id, readers[id])
  {
    hide ReaderOk;
  }

  lemma NextReader(c: Config, reader: Reader, id: nat)
    requires ValidConfig(c) && ReaderOk(c, id, reader) && reader.index < c.files[id].Size()
    ensures var f := c.files[id];
            var packet := FillBuffer(f, reader.index, reader.packet);
            && ReaderOk(c, id, reader.(index := reader.index + ChunkLength(f.Size(), reader.index), packet := packet))
            && GoodFor(c, Key(id, reader.index), packet) && IsChunk(f.start, f.Size(), reader.index)
            && forall i: nat :: IsChunk(f.start, f.Size(), i) ==>
                 (i < reader.index + ChunkLength(f.Size(), reader.index) <==> i <= reader.index)
  {
    var f := c.files[id];
    FillBufferGood(f, id, reader.index, reader.packet);
    NextBoundary(f.start, f.Size(), reader.index);
  }

  lemma ReaderReplaced(c: Config, readers: map<nat, Reader>, holders: set<nat>, id: nat, reader: Reader)
    requires ReadersOk(c, readers, holders) && ReaderOk(c, id, reader)
    ensures ReadersOk(c, readers[id := reader], holders - {id})
  {
    hide ReaderOk;
  }

  lemma AdvancedKeys(c: Config, readers: map<nat, Reader>, id: nat, reader: Reader)
    requires id in readers && id in c.files && IsChunk(c.files[id].start, c.files[id].Size(), readers[id].index)
    requires forall i: nat :: IsChunk(c.files[id].start, c.files[id].Size(), i) ==>
                                (i < reader.index <==> i <= readers[id].index)
    ensures Key(id, readers[id].index) !in ProducedKeys(c, readers)
    ensures ProducedKeys(c, readers[id := reader]) == ProducedKeys(c, readers) + {Key(id, readers[id].index)}
  {
    hide ProducedKeys, IsChunk;
    var r := readers[id := reader];
    ProducedMeaning(c, readers, Key(id, readers[id].index));
    forall k: Key
      ensures k in ProducedKeys(c, r) <==> k in ProducedKeys(c, readers) + {Key(id, readers[id].index)}
    {
      ProducedMeaning(c, readers, k);
      ProducedMeaning(c, r, k);
    }
  }

  lemma MoreProduced(c: Config, few: set<Key>, many: set<Key>, net: set<Datagram>, inlets: seq<Inlet>,
                     slots: map<nat, Slot>)
    requires few <= many && NetOk(c, few, net) && InletsOk(c, few, inlets) && QueuesOk(few, slots)
    ensures NetOk(c, many, net) && InletsOk(c, many, inlets) && QueuesOk(many, slots)
  {
    forall d | d in net
      ensures SentOk(c, many, d.packet)
    {
      assert SentOk(c, few, d.packet);
    }
    forall t | 0 <= t < |inlets|
      ensures InletOk(c, many, inlets[t])
    {
      assert InletOk(c, few, inlets[t]);
    }
    forall id | id in slots
      ensures ArrivalsOk(many, id, slots[id].queue)
    {
      assert ArrivalsOk(few, id, slots[id].queue);
    }
  }

  lemma QueueOkAppend(c: Config, queue: seq<Job>, job: Job)
    requires QueueOk(c, queue) && GoodFor(c, job.key, job.data)
    ensures QueueOk(c, queue + [job])
  {
  }

  lemma LiveAppend(queue: seq<Job>, hands: seq<Hand>, cache: map<Key, Job>, job: Job)
    ensures LiveKeys(queue + [job], hands, cache) == LiveKeys(queue, hands, cache) + multiset{job.key}
  {
    QueueKeysAppend(queue, job);
  }

  lemma ReadJobInv(c: Config, s: State, id: nat)
    requires ValidConfig(c) && Inv(c, s) && Enabled(c, s, ReadChunk(id))
    requires s.readers[id].index < c.files[id].Size()
    ensures Inv(c, Apply(c, s, ReadChunk(id)))
  {
    hide ProducedKeys, AcceptedKeys, LiveKeys, InTransit, Balanced, Conserved,
         SlotsOk, QueueOk, HandsOk, CacheOk, NetOk, InletsOk, QueuesOk;
    var f, reader := c.files[id], s.readers[id];
    var r := Apply(c, s, ReadChunk(id));
    var k := Key(id, reader.index);
    var job := Job(FillBuffer(f, reader.index, reader.packet), k);
    AdvancedReader(c, s.readers, s.holders, id);
    MoreProduced(c, ProducedKeys(c, s.readers), ProducedKeys(c, r.readers), s.net, s.inlets, s.slots);
    QueueOkAppend(c, s.shared.queue, job);
    LiveAppend(s.shared.queue, s.hands, s.shared.cache, job);
    assert |s.holders - {id}| == |s.holders| - 1;
    ProduceBalanced(c.jobLimit, Books(c, s), k);
    assert Books(c, r) == Produce(Books(c, s), k);
  }

  // ---- sender tasks ----

  lemma HandsOkUpdate(c: Config, hands: seq<Hand>, t: nat, h: Hand)
    requires HandsOk(c, hands) && t < |hands| && HandOk(c, h)
    ensures HandsOk(c, hands[t := h])
  {
  }

  lemma LiveRest(queue: seq<Job>, hands: seq<Hand>, cache: map<Key, Job>, t: nat, h: Hand)
    requires t < |hands| && HandKey(hands[t]) == HandKey(h)
    ensures LiveKeys(queue, hands[t := h], cache) == LiveKeys(queue, hands, cache)
  {
    HandKeysUpdate(hands, t, h);
    SameSums(HandKeys(hands[t := h]), HandKeys(hands), HandKey(h));
  }

  lemma SameSums(a: multiset<Key>, b: multiset<Key>, c: multiset<Key>)
    requires a + c == b + c
    ensures a == b
  {
    forall k
      ensures a[k] == b[k]
    {
      assert (a + c)[k] == (b + c)[k];
    }
  }

  lemma LiveTake(queue: seq<Job>, hands: seq<Hand>, cache: map<Key, Job>, t: nat)
    requires t < |hands| && hands[t].Ready? && |queue| > 0
    ensures LiveKeys(queue[1..], hands[t := Taken(queue[0])], cache) == LiveKeys(queue, hands, cache)
  {
    HandKeysUpdate(hands, t, Taken(queue[0]));
    assert HandKeys(hands[t := Taken(queue[0])]) == HandKeys(hands) + multiset{queue[0].key};
  }

  lemma LiveFail(queue: seq<Job>, hands: seq<Hand>, cache: map<Key, Job>, t: nat)
    requires t < |hands| && hands[t].Taken?
    ensures LiveKeys(queue + [hands[t].job], hands[t := Idle], cache) == LiveKeys(queue, hands, cache)
  {
    HandKeysUpdate(hands, t, Idle);
    QueueKeysAppend(queue, hands[t].job);
    assert HandKeys(hands[t := Idle]) + multiset{hands[t].job.key} == HandKeys(hands);
  }

  /** Caching a sent job never overwrites another one: its key is live once, in the hand of the task. */
  lemma LiveCache(queue: seq<Job>, hands: seq<Hand>, cache: map<Key, Job>, t: nat)
    requires t < |hands| && hands[t].Sent?
    requires LiveKeys(queue, hands, cache)[hands[t].job.key] <= 1
    ensures hands[t].job.key !in cache
    ensures LiveKeys(queue, hands[t := Idle], cache[hands[t].job.key := hands[t].job]) == LiveKeys(queue, hands, cache)
  {
    var k := hands[t].job.key;
    HandKeysUpdate(hands, t, Idle);
    assert HandKeys(hands[t := Idle]) + multiset{k} == HandKeys(hands);
    assert HandKeys(hands)[k] >= 1;
    assert multiset(cache.Keys)[k] == 0;
    assert k !in cache;
    CacheKeysInsert(cache, k, hands[t].job);
  }

  lemma RefillSendInv(c: Config, s: State)
    requires Inv(c, s) && Enabled(c, s, RefillSend)
    ensures Inv(c, Apply(c, s, RefillSend))
  {
    hide ProducedKeys, AcceptedKeys, LiveKeys, InTransit, Balanced, Conserved, ReadersOk,
         SlotsOk, QueueOk, HandsOk, CacheOk, NetOk, InletsOk, QueuesOk;
    assert Books(c, Apply(c, s, RefillSend)) == Books(c, s);
  }

  lemma AcquireSendInv(c: Config, s: State, t: nat)
    requires Inv(c, s) && Enabled(c, s, AcquireSend(t))
    ensures Inv(c, Apply(c, s, AcquireSend(t)))
  {
    hide ProducedKeys, AcceptedKeys, LiveKeys, InTransit, Balanced, Conserved, ReadersOk,
         SlotsOk, QueueOk, HandsOk, CacheOk, NetOk, InletsOk, QueuesOk;
    HandsOkUpdate(c, s.hands, t, Ready);
    LiveRest(s.shared.queue, s.hands, s.shared.cache, t, Ready);
    assert Books(c, Apply(c, s, AcquireSend(t))) == Books(c, s);
  }

  lemma TakeJobInv(c: Config, s: State, t: nat)
    requires Inv(c, s) && Enabled(c, s, TakeJob(t))
    ensures Inv(c, Apply(c, s, TakeJob(t)))
  {
    hide ProducedKeys, AcceptedKeys, LiveKeys, InTransit, Balanced, Conserved,
         ReadersOk, SlotsOk, HandsOk, CacheOk, NetOk, InletsOk, QueuesOk;
    HandsOkUpdate(c, s.hands, t, Taken(s.shared.queue[0]));
    LiveTake(s.shared.queue, s.hands, s.shared.cache, t);
    assert Books(c, Apply(c, s, TakeJob(t))) == Books(c, s);
  }

  lemma ParseGood(c: Config, k: Key, p: Packet)
    requires ValidConfig(c) && GoodFor(c, k, p)
    ensures ParseKey(p) == k
  {
    HeaderRoundTrip(k, p);
  }

  lemma NetOkAdd(c: Config, produced: set<Key>, net: set<Datagram>, d: Datagram)
    requires NetOk(c, produced, net) && SentOk(c, produced, d.packet)
    ensures NetOk(c, produced, net + {d})
  {
  }

  lemma HandIsLive(queue: seq<Job>, hands: seq<Hand>, cache: map<Key, Job>, t: nat)
    requires t < |hands| && (hands[t].Taken? || hands[t].Sent?)
    ensures hands[t].job.key in LiveKeys(queue, hands, cache)
  {
    HandKeysMember(hands, t);
    assert hands[t].job.key in HandKey(hands[t]);
  }

  lemma LiveIsProduced(limit: nat, b: Ledger, k: Key)
    requires Balanced(limit, b) && k in b.live
    ensures k in b.produced && b.live[k] <= 1
  {
  }

  lemma SendJobInv(c: Config, s: State, t: nat)
    requires ValidConfig(c) && Inv(c, s) && Enabled(c, s, SendJob(t))
    ensures Inv(c, Apply(c, s, SendJob(t)))
  {
    hide ProducedKeys, AcceptedKeys, LiveKeys, InTransit, Balanced, Conserved, ReadersOk,
         SlotsOk, QueueOk, HandsOk, CacheOk, NetOk, InletsOk, QueuesOk;
    var job := s.hands[t].job;
    HandFacts(c, s.hands, t);
    HandIsLive(s.shared.queue, s.hands, s.shared.cache, t);
    LiveIsProduced(c.jobLimit, Books(c, s), job.key);
    ParseGood(c, job.key, job.data);
    NetOkAdd(c, ProducedKeys(c, s.readers), s.net, Datagram(t, job.data));
    HandsOkUpdate(c, s.hands, t, Sent(job));
    LiveRest(s.shared.queue, s.hands, s.shared.cache, t, Sent(job));
    assert Books(c, Apply(c, s, SendJob(t))) == Books(c, s);
  }

  lemma FailSendInv(c: Config, s: State, t: nat)
    requires Inv(c, s) && Enabled(c, s, FailSend(t))
    ensures Inv(c, Apply(c, s, FailSend(t)))
  {
    hide ProducedKeys, AcceptedKeys, LiveKeys, InTransit, Balanced, Conserved, ReadersOk,
         SlotsOk, QueueOk, HandsOk, CacheOk, NetOk, InletsOk, QueuesOk;
    HandFacts(c, s.hands, t);
    QueueOkAppend(c, s.shared.queue, s.hands[t].job);
    HandsOkUpdate(c, s.hands, t, Idle);
    LiveFail(s.shared.queue, s.hands, s.shared.cache, t);
    assert Books(c, Apply(c, s, FailSend(t))) == Books(c, s);
  }

  lemma HandFacts(c: Config, hands: seq<Hand>, t: nat)
    requires HandsOk(c, hands) && t < |hands|
    ensures HandOk(c, hands[t])
  {
  }

  lemma CacheOkInsert(c: Config, cache: map<Key, Job>, job: Job)
    requires CacheOk(c, cache) && CachedOk(c, job.key, job)
    ensures CacheOk(c, cache[job.key := job])
  {
  }

  lemma CacheJobInv(c: Config, s: State, t: nat)
    requires Inv(c, s) && Enabled(c, s, CacheJob(t))
    ensures Inv(c, Apply(c, s, CacheJob(t)))
  {
    hide ProducedKeys, AcceptedKeys, LiveKeys, InTransit, Balanced, Conserved, ReadersOk,
         SlotsOk, QueueOk, HandsOk, CacheOk, NetOk, InletsOk, QueuesOk;
    var job := s.hands[t].job;
    HandFacts(c, s.hands, t);
    CacheOkInsert(c, s.shared.cache, job);
    HandsOkUpdate(c, s.hands, t, Idle);
    HandIsLive(s.shared.queue, s.hands, s.shared.cache, t);
    LiveIsProduced(c.jobLimit, Books(c, s), job.key);
    LiveCache(s.shared.queue, s.hands, s.shared.cache, t);
    assert Books(c, Apply(c, s, CacheJob(t))) == Books(c, s);
  }

  // ---- the receiving host ----

  lemma SlotChanged(c: Config, slots: map<nat, Slot>, produced: set<Key>, id: nat, slot: Slot)
    requires SlotsOk(c, slots) && QueuesOk(produced, slots)
    requires SlotOk(c, id, slot) && ArrivalsOk(produced, id, slot.queue)
    ensures SlotsOk(c, slots[id := slot]) && QueuesOk(produced, slots[id := slot])
  {
  }

  lemma SameWriterSameAccepted(c: Config, slots: map<nat, Slot>, id: nat, slot: Slot)
    requires id in slots && slot.w == slots[id].w
    ensures AcceptedKeys(c, slots[id := slot]) == AcceptedKeys(c, slots)
  {
    forall k: Key
      ensures k in AcceptedKeys(c, slots[id := slot]) <==> k in AcceptedKeys(c, slots)
    {
      AcceptedMeaning(c, slots, k);
      AcceptedMeaning(c, slots[id := slot], k);
    }
  }

  lemma FreshWriter(c: Config, slots: map<nat, Slot>, id: nat)
    requires ValidConfig(c) && id in c.files && id !in slots
    ensures var f := c.files[id];
            var slot := Slot(Begin(f.start, f.source[..f.start]), [], Writing);
            SlotOk(c, id, slot) && AcceptedKeys(c, slots[id := slot]) == AcceptedKeys(c, slots)
  {
    var f := c.files[id];
    var slot := Slot(Begin(f.start, f.source[..f.start]), [], Writing);
    BeginInv(f);
    forall k: Key
      ensures k in AcceptedKeys(c, slots[id := slot]) <==> k in AcceptedKeys(c, slots)
    {
      AcceptedMeaning(c, slots, k);
      AcceptedMeaning(c, slots[id := slot], k);
    }
  }

  lemma StartWriterInv(c: Config, s: State, id: nat)
    requires ValidConfig(c) && Inv(c, s) && Enabled(c, s, StartWriter(id))
    ensures Inv(c, Apply(c, s, StartWriter(id)))
  {
    hide ProducedKeys, AcceptedKeys, LiveKeys, InTransit, Balanced, Conserved, ReadersOk,
         SlotsOk, QueueOk, HandsOk, CacheOk, NetOk, InletsOk, QueuesOk, WriterInv;
    var r := Apply(c, s, StartWriter(id));
    FreshWriter(c, s.slots, id);
    SlotChanged(c, s.slots, ProducedKeys(c, s.readers), id, r.slots[id]);
    assert Books(c, r) == Books(c, s);
  }

  lemma QueuedOk(c: Config, id: nat, slot: Slot, produced: set<Key>, a: Arrival)
    requires SlotOk(c, id, slot) && ArrivalsOk(produced, id, slot.queue) && !slot.mode.Closed?
    requires |slot.queue| < WRITER_QUEUE_SIZE
    requires GoodPayload(c.files[id], a.index, a.data) && Key(id, a.index) in produced
    ensures var r := slot.(queue := slot.queue + [a]); SlotOk(c, id, r) && ArrivalsOk(produced, id, r.queue)
  {
  }

  lemma QueuedInv(c: Config, s: State, p: Packet)
    requires Inv(c, s) && SentOk(c, ProducedKeys(c, s.readers), p) && !Full(s, ParseKey(p).id)
    ensures Inv(c, Queued(s, p))
  {
    hide ProducedKeys, AcceptedKeys, LiveKeys, InTransit, Balanced, WriterInv, Conserved,
         ReadersOk, QueueOk, HandsOk, CacheOk, NetOk, InletsOk;
    var k := ParseKey(p);
    if Listening(s, k.id) {
      var slot, a := s.slots[k.id], Arrival(p[HEADER_SIZE..], k.index);
      assert SlotOk(c, k.id, slot) && ArrivalsOk(ProducedKeys(c, s.readers), k.id, slot.queue);
      QueuedOk(c, k.id, slot, ProducedKeys(c, s.readers), a);
      SlotChanged(c, s.slots, ProducedKeys(c, s.readers), k.id, slot.(queue := slot.queue + [a]));
      SameWriterSameAccepted(c, s.slots, k.id, slot.(queue := slot.queue + [a]));
    }
    assert Books(c, Queued(s, p)) == Books(c, s);
  }

  lemma InletChanged(c: Config, produced: set<Key>, inlets: seq<Inlet>, t: nat, inlet: Inlet)
    requires InletsOk(c, produced, inlets) && t < |inlets| && InletOk(c, produced, inlet)
    ensures InletsOk(c, produced, inlets[t := inlet])
    ensures InletOk(c, produced, inlets[t])
  {
  }

  /** A receiver starts or stops holding a packet. */
  lemma InletInv(c: Config, s: State, t: nat, inlet: Inlet)
    requires Inv(c, s) && t < |s.inlets| && InletOk(c, ProducedKeys(c, s.readers), inlet)
    ensures Inv(c, s.(inlets := s.inlets[t := inlet]))
  {
    hide ProducedKeys, AcceptedKeys, LiveKeys, InTransit, Balanced, Conserved,
         ReadersOk, SlotsOk, QueueOk, HandsOk, CacheOk, NetOk, InletsOk, QueuesOk;
    InletChanged(c, ProducedKeys(c, s.readers), s.inlets, t, inlet);
    assert Books(c, s.(inlets := s.inlets[t := inlet])) == Books(c, s);
  }

  lemma DeliverInv(c: Config, s: State, d: Datagram)
    requires Inv(c, s) && Enabled(c, s, Deliver(d))
    ensures Inv(c, Apply(c, s, Deliver(d)))
  {
    hide Inv, Queued, Full, SentOk;
    InvNet(c, s, d);
    if Full(s, ParseKey(d.packet).id) {
      InletInv(c, s, d.socket, Holding(d.packet));
    } else {
      QueuedInv(c, s, d.packet);
    }
  }

  lemma InvNet(c: Config, s: State, d: Datagram)
    requires Inv(c, s) && d in s.net
    ensures SentOk(c, ProducedKeys(c, s.readers), d.packet)
  {
    hide ProducedKeys, Books, Balanced, Conserved, ReadersOk, SlotsOk, QueueOk, HandsOk, CacheOk, InletsOk, QueuesOk,
         SentOk;
  }

  lemma InvInlet(c: Config, s: State, t: nat)
    requires Inv(c, s) && t < |s.inlets| && s.inlets[t].Holding?
    ensures SentOk(c, ProducedKeys(c, s.readers), s.inlets[t].packet)
  {
    hide ProducedKeys, Books, Balanced, Conserved, ReadersOk, SlotsOk, QueueOk, HandsOk, CacheOk, NetOk, InletsOk,
         QueuesOk, SentOk;
    InletChanged(c, ProducedKeys(c, s.readers), s.inlets, t, Vacant);
  }

  lemma ReleaseInv(c: Config, s: State, t: nat)
    requires Inv(c, s) && Enabled(c, s, Release(t))
    ensures Inv(c, Apply(c, s, Release(t)))
  {
    hide Inv, Queued, SentOk;
    InvInlet(c, s, t);
    InletInv(c, s, t, Vacant);
    QueuedInv(c, s.(inlets := s.inlets[t := Vacant]), s.inlets[t].packet);
  }

  lemma AcceptedOne(c: Config, slots: map<nat, Slot>, id: nat, slot: Slot, index: nat)
    requires id in slots && id in c.files
    requires forall i: nat :: Accepted(c.files[id], slot.w, i) <==> Accepted(c.files[id], slots[id].w, i) || i == index
    requires IsChunk(c.files[id].start, c.files[id].Size(), index)
    ensures AcceptedKeys(c, slots[id := slot]) == AcceptedKeys(c, slots) + {Key(id, index)}
  {
    forall k: Key
      ensures k in AcceptedKeys(c, slots[id := slot]) <==> k in AcceptedKeys(c, slots) + {Key(id, index)}
    {
      AcceptedMeaning(c, slots, k);
      AcceptedMeaning(c, slots[id := slot], k);
    }
  }

  lemma WrittenOk(c: Config, slots: map<nat, Slot>, produced: set<Key>, id: nat)
    requires id in slots && SlotOk(c, id, slots[id]) && ArrivalsOk(produced, id, slots[id].queue)
    requires slots[id].mode.Writing? && |slots[id].queue| > 0
    ensures var f, slot := c.files[id], slots[id];
            var a := slot.queue[0];
            var r := slot.(w := Arrive(f.Size(), f.ks, slot.w, a), queue := slot.queue[1..]);
            && SlotOk(c, id, r) && ArrivalsOk(produced, id, r.queue) && Key(id, a.index) in produced
            && AcceptedKeys(c, slots[id := r]) == AcceptedKeys(c, slots) + {Key(id, a.index)}
  {
    var f, slot := c.files[id], slots[id];
    var a := slot.queue[0];
    var r := slot.(w := Arrive(f.Size(), f.ks, slot.w, a), queue := slot.queue[1..]);
    ArriveKeepsInv(f, slot.w, a);
    AcceptedOne(c, slots, id, r, a.index);
  }

  lemma LateIsAccepted(c: Config, slots: map<nat, Slot>, id: nat)
    requires id in slots && SlotOk(c, id, slots[id]) && |slots[id].queue| > 0
    requires slots[id].queue[0].index < slots[id].w.position
    ensures Key(id, slots[id].queue[0].index) in AcceptedKeys(c, slots)
  {
    AcceptedMeaning(c, slots, Key(id, slots[id].queue[0].index));
  }

  lemma WriteArrivalInv(c: Config, s: State, id: nat)
    requires Inv(c, s) && Enabled(c, s, WriteArrival(id))
    ensures Inv(c, Apply(c, s, WriteArrival(id)))
  {
    hide ProducedKeys, AcceptedKeys, LiveKeys, InTransit, Balanced, Conserved, ReadersOk,
         QueueOk, HandsOk, CacheOk, NetOk, InletsOk, WriterInv, Arrive;
    var r := Apply(c, s, WriteArrival(id));
    var produced, a := ProducedKeys(c, s.readers), s.slots[id].queue[0];
    var k := Key(id, a.index);
    assert SlotOk(c, id, s.slots[id]) && ArrivalsOk(produced, id, s.slots[id].queue);
    WrittenOk(c, s.slots, produced, id);
    SlotChanged(c, s.slots, produced, id, r.slots[id]);
    if a.index < s.slots[id].w.position {
      LateIsAccepted(c, s.slots, id);
      assert AcceptedKeys(c, s.slots) + {k} == AcceptedKeys(c, s.slots);
      assert Books(c, r) == Books(c, s);
    } else {
      IssueTransit(s.conf, k);
      AcceptBalanced(c.jobLimit, Books(c, s), k);
      assert Books(c, r) == Accept(Books(c, s), k);
    }
  }

  lemma CloseWriterInv(c: Config, s: State, id: nat)
    requires Inv(c, s) && Enabled(c, s, CloseWriter(id))
    ensures Inv(c, Apply(c, s, CloseWriter(id)))
  {
    hide ProducedKeys, AcceptedKeys, LiveKeys, InTransit, Balanced, Conserved,
         ReadersOk, QueueOk, HandsOk, CacheOk, NetOk, InletsOk, WriterInv;
    var r := Apply(c, s, CloseWriter(id));
    assert SlotOk(c, id, s.slots[id]);
    SlotChanged(c, s.slots, ProducedKeys(c, s.readers), id, r.slots[id]);
    SameWriterSameAccepted(c, s.slots, id, r.slots[id]);
    assert Books(c, r) == Books(c, s);
  }

  lemma FailedOk(c: Config, id: nat, slot: Slot, produced: set<Key>, taken: bool)
    requires SlotOk(c, id, slot) && ArrivalsOk(produced, id, slot.queue) && (taken ==> |slot.queue| > 0)
    ensures var r := slot.(queue := if taken then slot.queue[1..] else slot.queue, mode := Failed);
            SlotOk(c, id, r) && ArrivalsOk(produced, id, r.queue)
  {
    hide WriterInv;
  }

  lemma FailWriterInv(c: Config, s: State, id: nat, taken: bool)
    requires Inv(c, s) && Enabled(c, s, FailWriter(id, taken))
    ensures Inv(c, Apply(c, s, FailWriter(id, taken)))
  {
    hide ProducedKeys, AcceptedKeys, LiveKeys, InTransit, Balanced, WriterInv, Conserved,
         ReadersOk, QueueOk, HandsOk, CacheOk, NetOk, InletsOk;
    var r := Apply(c, s, FailWriter(id, taken));
    var produced := ProducedKeys(c, s.readers);
    assert SlotOk(c, id, s.slots[id]) && ArrivalsOk(produced, id, s.slots[id].queue);
    FailedOk(c, id, s.slots[id], produced, taken);
    SlotChanged(c, s.slots, produced, id, r.slots[id]);
    SameWriterSameAccepted(c, s.slots, id, r.slots[id]);
    assert Books(c, r) == Books(c, s);
  }

  // ---- requeueing and confirmations ----

  lemma CacheOkRemove(c: Config, cache: map<Key, Job>, k: Key)
    requires CacheOk(c, cache)
    ensures CacheOk(c, cache - {k})
    ensures k in cache ==> CachedOk(c, k, cache[k])
  {
  }

  lemma LiveSettle(queue: seq<Job>, hands: seq<Hand>, cache: map<Key, Job>, k: Key)
    requires k in cache
    ensures k in LiveKeys(queue, hands, cache)
    ensures LiveKeys(queue, hands, cache - {k}) == LiveKeys(queue, hands, cache) - multiset{k}
  {
    CacheKeysRemove(cache, k);
    assert k in multiset(cache.Keys);
  }

  lemma LiveRequeue(queue: seq<Job>, hands: seq<Hand>, cache: map<Key, Job>, k: Key)
    requires k in cache && cache[k].key == k
    ensures LiveKeys(queue + [cache[k]], hands, cache - {k}) == LiveKeys(queue, hands, cache)
  {
    CacheKeysRemove(cache, k);
    assert k in multiset(cache.Keys);
    QueueKeysAppend(queue, cache[k]);
  }

  lemma ExpireLostInv(c: Config, s: State, k: Key)
    requires Inv(c, s) && k in s.shared.cache && k in s.shared.lost
    ensures Inv(c, s.(shared := Requeue(s.shared, k)))
  {
    hide ProducedKeys, AcceptedKeys, LiveKeys, InTransit, Balanced, Conserved, ReadersOk,
         SlotsOk, QueueOk, HandsOk, CacheOk, NetOk, InletsOk, QueuesOk;
    CacheOkRemove(c, s.shared.cache, k);
    LiveSettle(s.shared.queue, s.hands, s.shared.cache, k);
    SettleLateBalanced(c.jobLimit, Books(c, s), k);
    assert Books(c, s.(shared := Requeue(s.shared, k))) == SettleLate(Books(c, s), k);
  }

  lemma ExpireAgainInv(c: Config, s: State, k: Key)
    requires Inv(c, s) && k in s.shared.cache && k !in s.shared.lost
    ensures Inv(c, s.(shared := Requeue(s.shared, k)))
  {
    hide ProducedKeys, AcceptedKeys, LiveKeys, InTransit, Balanced, Conserved, ReadersOk,
         SlotsOk, QueueOk, HandsOk, CacheOk, NetOk, InletsOk, QueuesOk;
    CacheOkRemove(c, s.shared.cache, k);
    QueueOkAppend(c, s.shared.queue, s.shared.cache[k]);
    LiveRequeue(s.shared.queue, s.hands, s.shared.cache, k);
    assert Books(c, s.(shared := Requeue(s.shared, k))) == Books(c, s);
  }

  lemma ForwardOneInv(c: Config, s: State)
    requires Inv(c, s) && Enabled(c, s, ForwardOne)
    ensures Inv(c, Apply(c, s, ForwardOne))
  {
    hide ProducedKeys, AcceptedKeys, LiveKeys, InTransit, Balanced, Conserved, ReadersOk,
         SlotsOk, QueueOk, HandsOk, CacheOk, NetOk, InletsOk, QueuesOk;
    ForwardTransit(s.conf);
    assert Books(c, Apply(c, s, ForwardOne)) == Books(c, s);
  }

  lemma SendBatchInv(c: Config, s: State)
    requires Inv(c, s) && Enabled(c, s, SendBatch)
    ensures Inv(c, Apply(c, s, SendBatch))
  {
    hide ProducedKeys, AcceptedKeys, LiveKeys, InTransit, Balanced, Conserved, ReadersOk,
         SlotsOk, QueueOk, HandsOk, CacheOk, NetOk, InletsOk, QueuesOk;
    TickTransit(s.conf);
    assert Books(c, Apply(c, s, SendBatch)) == Books(c, s);
  }

  lemma ReceiveBatchInv(c: Config, s: State)
    requires Inv(c, s) && Enabled(c, s, ReceiveBatch)
    ensures Inv(c, Apply(c, s, ReceiveBatch))
  {
    hide ProducedKeys, AcceptedKeys, LiveKeys, InTransit, Balanced, Conserved, ReadersOk,
         SlotsOk, QueueOk, HandsOk, CacheOk, NetOk, InletsOk, QueuesOk;
    ReceiveTransit(s.conf);
    assert Books(c, Apply(c, s, ReceiveBatch)) == Books(c, s);
  }

  lemma HandleHitInv(c: Config, s: State, k: Key)
    requires Inv(c, s) && k in s.conf.current && k in s.shared.cache
    ensures Inv(c, s.(conf := Handle(s.conf, k), shared := Confirm(s.shared, k)))
  {
    hide ProducedKeys, AcceptedKeys, LiveKeys, InTransit, Balanced, Conserved, ReadersOk,
         SlotsOk, QueueOk, HandsOk, CacheOk, NetOk, InletsOk, QueuesOk;
    HandleTransit(s.conf, k);
    CacheOkRemove(c, s.shared.cache, k);
    LiveSettle(s.shared.queue, s.hands, s.shared.cache, k);
    SettleBalanced(c.jobLimit, Books(c, s), k);
    assert Books(c, s.(conf := Handle(s.conf, k), shared := Confirm(s.shared, k))) == Settle(Books(c, s), k);
  }

  lemma HandleMissInv(c: Config, s: State, k: Key)
    requires Inv(c, s) && k in s.conf.current && k !in s.shared.cache
    ensures Inv(c, s.(conf := Handle(s.conf, k), shared := Confirm(s.shared, k)))
  {
    hide ProducedKeys, AcceptedKeys, LiveKeys, InTransit, Balanced, Conserved, ReadersOk,
         SlotsOk, QueueOk, HandsOk, CacheOk, NetOk, InletsOk, QueuesOk;
    HandleTransit(s.conf, k);
    MissBalanced(c.jobLimit, Books(c, s), k);
    assert Books(c, s.(conf := Handle(s.conf, k), shared := Confirm(s.shared, k))) == Miss(Books(c, s), k);
  }

  // ---- every step, every run ----

  lemma StepInv(c: Config, s: State, e: Step)
    requires ValidConfig(c) && Inv(c, s) && Enabled(c, s, e)
    ensures Inv(c, Apply(c, s, e))
  {
    hide Inv, ValidConfig;
    match e
    case StartReader(id) => StartReaderInv(c, s, id);
    case StartWriter(id) => StartWriterInv(c, s, id);
    case AcquireRead(id) => AcquireReadInv(c, s, id);
    case ReadChunk(id) =>
      if s.readers[id].index == c.files[id].Size() {
        EndOfFileInv(c, s, id);
      } else {
        ReadJobInv(c, s, id);
      }
    case FailReader(id) => FailReaderInv(c, s, id);
    case RefillSend => RefillSendInv(c, s);
    case AcquireSend(t) => AcquireSendInv(c, s, t);
    case TakeJob(t) => TakeJobInv(c, s, t);
    case SendJob(t) => SendJobInv(c, s, t);
    case FailSend(t) => FailSendInv(c, s, t);
    case CacheJob(t) => CacheJobInv(c, s, t);
    case Deliver(d) => DeliverInv(c, s, d);
    case Release(t) => ReleaseInv(c, s, t);
    case FailWriter(id, taken) => FailWriterInv(c, s, id, taken);
    case WriteArrival(id) => WriteArrivalInv(c, s, id);
    case CloseWriter(id) => CloseWriterInv(c, s, id);
    case Expire(k) =>
      if k in s.shared.lost {
        ExpireLostInv(c, s, k);
      } else {
        ExpireAgainInv(c, s, k);
      }
    case ForwardOne => ForwardOneInv(c, s);
    case SendBatch => SendBatchInv(c, s);
    case ReceiveBatch => ReceiveBatchInv(c, s);
    case HandleOne(k) =>
      if k in s.shared.cache {
        HandleHitInv(c, s, k);
      } else {
        HandleMissInv(c, s, k);
      }
  }

  lemma {:induction false} RunInv(c: Config, s: State, steps: seq<Step>)
    requires ValidConfig(c) && Inv(c, s) && CanRun(c, s, steps)
    ensures Inv(c, After(c, s, steps))
    decreases |steps|
  {
    hide Inv, ValidConfig, Enabled, Apply;
    if |steps| > 0 {
      StepInv(c, s, steps[0]);
      RunInv(c, Apply(c, s, steps[0]), steps[1..]);
    }
  }
}
