/** Progress of the transport: unless failed writers hold every permit or every packet receiver, all files
    whose writers and readers have not failed still arrive completely, by ordinary steps only. */
module TransportProgress {
  import opened Chunks
  import opened ReaderSpec
  import opened WriterSpec
  import opened Confirmations
  import opened Transport
  import opened TransportSafety
  import opened TransportTheorems
  import opened TransportFlow
  import opened Ledger

  // ---- the sending host empties its queue into the cache ----

  predicate Busy(h: Hand) {
    h.Taken? || h.Sent?
  }

  predicate NoneBusy(hands: seq<Hand>) {
    forall t | 0 <= t < |hands| :: !Busy(hands[t])
  }

  /** Only sender tasks have moved. */
  ghost predicate SendersMoved(s: State, r: State) {
    && r.readers == s.readers && r.holders == s.holders && r.slots == s.slots && r.conf == s.conf
    && r.shared.permits == s.shared.permits && r.shared.lost == s.shared.lost
    && |r.hands| == |s.hands| && r.inlets == s.inlets && s.net <= r.net
  }

  lemma {:induction false} ClearHands(c: Config, s: State, t: nat) returns (r: State)
    requires ValidConfig(c) && Inv(c, s) && t <= |s.hands| && NoneBusy(s.hands[..t])
    ensures Flows(c, s, r) && Inv(c, r) && SendersMoved(s, r)
    ensures NoneBusy(r.hands) && r.shared.queue == s.shared.queue
    decreases |s.hands| - t,
              if t < |s.hands| && s.hands[t].Taken? then 2 else if t < |s.hands| && s.hands[t].Sent? then 1 else 0
  {
    hide Inv, ValidConfig, Flows;
    if t == |s.hands| {
      FlowsNowhere(c, s);
      assert s.hands[..t] == s.hands;
      r := s;
    } else if Busy(s.hands[t]) {
      var e := if s.hands[t].Taken? then SendJob(t) else CacheJob(t);
      FlowsStep(c, s, e);
      var q := Apply(c, s, e);
      assert q.hands[..t] == s.hands[..t];
      r := ClearHands(c, q, t);
      FlowsOn(c, s, q, r);
    } else {
      assert s.hands[..t + 1] == s.hands[..t] + [s.hands[t]];
      r := ClearHands(c, s, t + 1);
    }
  }

  /** A task that is not busy gets a send permit. */
  lemma ArmTask(c: Config, s: State, t: nat) returns (r: State)
    requires ValidConfig(c) && Inv(c, s) && t < |s.hands| && NoneBusy(s.hands)
    ensures Flows(c, s, r) && Inv(c, r) && SendersMoved(s, r)
    ensures r.shared == s.shared && NoneBusy(r.hands) && r.hands[t].Ready?
  {
    hide Inv, ValidConfig, Flows;
    assert !Busy(s.hands[t]);
    if s.hands[t].Ready? {
      FlowsNowhere(c, s);
      r := s;
    } else {
      FlowsStep(c, s, RefillSend);
      var q := Apply(c, s, RefillSend);
      FlowsStep(c, q, AcquireSend(t));
      r := Apply(c, q, AcquireSend(t));
      FlowsOn(c, s, q, r);
    }
  }

  /** The first job of the queue is sent on socket `t` and cached. */
  lemma SendFirst(c: Config, s: State, t: nat) returns (r: State)
    requires ValidConfig(c) && Inv(c, s) && t < |s.hands| && NoneBusy(s.hands) && s.hands[t].Ready?
    requires |s.shared.queue| > 0
    ensures Flows(c, s, r) && Inv(c, r) && SendersMoved(s, r)
    ensures NoneBusy(r.hands) && r.shared.queue == s.shared.queue[1..]
    ensures r.shared.cache == s.shared.cache[s.shared.queue[0].key := s.shared.queue[0]]
    ensures Datagram(t, s.shared.queue[0].data) in r.net
  {
    hide Inv, ValidConfig, Flows;
    FlowsStep(c, s, TakeJob(t));
    var p := Apply(c, s, TakeJob(t));
    FlowsStep(c, p, SendJob(t));
    var q := Apply(c, p, SendJob(t));
    FlowsStep(c, q, CacheJob(t));
    r := Apply(c, q, CacheJob(t));
    FlowsOn(c, s, p, q);
    FlowsOn(c, s, q, r);
    forall i | 0 <= i < |r.hands|
      ensures !Busy(r.hands[i])
    {
      assert !Busy(s.hands[i]);
    }
  }

  lemma {:induction false} FlushQueue(c: Config, s: State, t: nat) returns (r: State)
    requires ValidConfig(c) && Inv(c, s) && t < |s.hands| && NoneBusy(s.hands)
    ensures Flows(c, s, r) && Inv(c, r) && SendersMoved(s, r)
    ensures NoneBusy(r.hands) && r.shared.queue == []
    decreases |s.shared.queue|
  {
    hide Inv, ValidConfig, Flows, NoneBusy, Apply;
    if |s.shared.queue| == 0 {
      FlowsNowhere(c, s);
      r := s;
    } else {
      var p := ArmTask(c, s, t);
      var q := SendFirst(c, p, t);
      r := FlushQueue(c, q, t);
      FlowsOn(c, s, p, q);
      FlowsOn(c, s, q, r);
    }
  }

  // ---- the receiving host takes in a chunk ----

  /** Writers and confirmations have moved, and of the rest at most receivers. */
  ghost predicate WritersMoved(c: Config, s: State, r: State) {
    && Kept(c, s, r)
    && r.shared == s.shared && r.hands == s.hands && r.net == s.net
  }

  lemma SlotFacts(c: Config, s: State, id: nat)
    requires Inv(c, s) && id in s.slots
    ensures SlotOk(c, id, s.slots[id]) && ArrivalsOk(ProducedKeys(c, s.readers), id, s.slots[id].queue)
  {
    hide Balanced, Conserved, NetOk, CacheOk, HandsOk, QueueOk, ReadersOk, InletsOk, ProducedKeys, Books, SlotOk;
  }

  lemma FileFacts(c: Config, id: nat, slot: Slot)
    requires SlotOk(c, id, slot)
    ensures slot.w.position <= c.files[id].Size() && IsBoundary(c.files[id].start, c.files[id].Size(), slot.w.position)
    ensures forall i | i in slot.w.cache :: slot.w.position < i
  {
  }

  /** The first queued arrival of writer `id` was taken in. */
  ghost predicate HeadWritten(c: Config, s: State, r: State, id: nat) {
    && id in s.slots && id in r.slots && |s.slots[id].queue| > 0
    && r.slots[id].mode.Writing? && r.slots[id].queue == s.slots[id].queue[1..]
    && Key(id, s.slots[id].queue[0].index) in AcceptedKeys(c, r.slots)
    && r.inlets == s.inlets && OthersSame(s, r, id)
  }

  ghost predicate OthersSame(s: State, r: State, id: nat) {
    forall j | j in s.slots && j != id :: j in r.slots && r.slots[j] == s.slots[j]
  }

  lemma WriteOne(c: Config, s: State, id: nat) returns (r: State)
    requires ValidConfig(c) && Inv(c, s) && Enabled(c, s, WriteArrival(id))
    ensures Flows(c, s, r) && Inv(c, r) && WritersMoved(c, s, r)
    ensures HeadWritten(c, s, r, id)
  {
    hide Inv, ValidConfig, Flows, AcceptedKeys, ProducedKeys, Arrive, Issue;
    FlowsStep(c, s, WriteArrival(id));
    SlotFacts(c, s, id);
    WrittenOk(c, s.slots, ProducedKeys(c, s.readers), id);
    r := Apply(c, s, WriteArrival(id));
  }

  /** The writer takes in all that is queued, or all that it needs. */
  lemma {:induction false} EmptyWriter(c: Config, s: State, id: nat) returns (r: State)
    requires ValidConfig(c) && Inv(c, s) && AtWork(s, id) && id in c.files
    ensures Flows(c, s, r) && Inv(c, r) && WritersMoved(c, s, r) && AtWork(r, id) && r.inlets == s.inlets
    ensures OthersSame(s, r, id)
    ensures r.slots[id].queue == [] || r.slots[id].w.position == c.files[id].Size()
    ensures r.slots[id].w.position == c.files[id].Size()
            || forall a | a in s.slots[id].queue :: Key(id, a.index) in AcceptedKeys(c, r.slots)
    decreases |s.slots[id].queue|
  {
    hide Inv, ValidConfig, Flows, AcceptedKeys, WriterInv;
    SlotFacts(c, s, id);
    FileFacts(c, id, s.slots[id]);
    if |s.slots[id].queue| == 0 || s.slots[id].w.position == c.files[id].Size() {
      FlowsNowhere(c, s);
      KeptSelf(c, s);
      r := s;
    } else {
      var q := WriteOne(c, s, id);
      r := EmptyWriter(c, q, id);
      FlowsOn(c, s, q, r);
      KeptOn(c, s, q, r);
      if r.slots[id].w.position != c.files[id].Size() {
        HeadAndTail(c, s, q, r, id);
      }
    }
  }

  lemma HeadAndTail(c: Config, s: State, q: State, r: State, id: nat)
    requires HeadWritten(c, s, q, id) && Kept(c, q, r)
    requires forall a | a in q.slots[id].queue :: Key(id, a.index) in AcceptedKeys(c, r.slots)
    ensures forall a | a in s.slots[id].queue :: Key(id, a.index) in AcceptedKeys(c, r.slots)
  {
    hide AcceptedKeys;
    var queue := s.slots[id].queue;
    assert queue == [queue[0]] + queue[1..];
  }

  lemma CachedFacts(c: Config, s: State, k: Key)
    requires ValidConfig(c) && Inv(c, s) && k in s.shared.cache
    ensures var job := s.shared.cache[k]; job.key == k && ParseKey(job.data) == k
    ensures k in Live(s) && k in ProducedKeys(c, s.readers)
    ensures k.id in c.files && k.id in s.readers && IsChunk(c.files[k.id].start, c.files[k.id].Size(), k.index)
  {
    hide Conserved, NetOk, InletsOk, SlotsOk, HandsOk, QueueOk, ReadersOk, QueuesOk, ProducedKeys, AcceptedKeys,
         LiveKeys, InTransit, Balanced;
    assert CachedOk(c, k, s.shared.cache[k]);
    ParseGood(c, k, s.shared.cache[k].data);
    LiveSettle(s.shared.queue, s.hands, s.shared.cache, k);
    LiveIsProduced(c.jobLimit, Books(c, s), k);
    ProducedMeaning(c, s.readers, k);
  }

  /** A chunk of a complete file has been accepted. */
  lemma CompleteAccepts(c: Config, s: State, k: Key)
    requires k.id in s.slots && k.id in c.files && s.slots[k.id].w.position == c.files[k.id].Size()
    requires IsChunk(c.files[k.id].start, c.files[k.id].Size(), k.index)
    ensures k in AcceptedKeys(c, s.slots)
  {
    AcceptedMeaning(c, s.slots, k);
  }

  /** A packet for a writer with an empty queue is delivered and taken in. */
  lemma DeliverOne(c: Config, s: State, d: Datagram) returns (r: State)
    requires ValidConfig(c) && Inv(c, s) && d in s.net && d.socket < |s.inlets| && s.inlets[d.socket].Vacant?
    requires var id := ParseKey(d.packet).id;
             AtWork(s, id) && s.slots[id].queue == [] && id in c.files && s.slots[id].w.position < c.files[id].Size()
    ensures Flows(c, s, r) && Inv(c, r) && WritersMoved(c, s, r) && r.inlets == s.inlets
    ensures ParseKey(d.packet) in AcceptedKeys(c, r.slots)
  {
    hide Inv, ValidConfig, Flows, AcceptedKeys, ParseKey;
    var id := ParseKey(d.packet).id;
    FlowsStep(c, s, Deliver(d));
    var q := Apply(c, s, Deliver(d));
    SameWriterSameAccepted(c, s.slots, id, q.slots[id]);
    r := WriteOne(c, q, id);
    FlowsOn(c, s, q, r);
    KeptOn(c, s, q, r);
  }

  // ---- a packet receiver becomes free ----

  /** A receiver that is not stuck for good gets rid of the packet it holds. */
  lemma FreeInlet(c: Config, s: State, t: nat) returns (r: State)
    requires ValidConfig(c) && Inv(c, s) && t < |s.inlets| && !Stuck(s, t)
    ensures Flows(c, s, r) && Inv(c, r) && WritersMoved(c, s, r) && t < |r.inlets| && r.inlets[t].Vacant?
  {
    hide Inv, ValidConfig, Flows, AcceptedKeys, WriterInv, ParseKey, Kept;
    if s.inlets[t].Vacant? {
      FlowsNowhere(c, s);
      KeptSelf(c, s);
      r := s;
    } else {
      var id := ParseKey(s.inlets[t].packet).id;
      if !Full(s, id) {
        r := ReleaseOne(c, s, t);
      } else {
        SlotFacts(c, s, id);
        FileFacts(c, id, s.slots[id]);
        if s.slots[id].w.position == c.files[id].Size() {
          var q := CloseOne(c, s, id);
          r := ReleaseOne(c, q, t);
          FlowsOn(c, s, q, r);
          KeptOn(c, s, q, r);
        } else {
          var q := WriteOne(c, s, id);
          r := ReleaseOne(c, q, t);
          FlowsOn(c, s, q, r);
          KeptOn(c, s, q, r);
        }
      }
    }
  }

  lemma ReleaseOne(c: Config, s: State, t: nat) returns (r: State)
    requires ValidConfig(c) && Inv(c, s) && Enabled(c, s, Release(t))
    ensures Flows(c, s, r) && Inv(c, r) && WritersMoved(c, s, r) && t < |r.inlets| && r.inlets[t].Vacant?
  {
    hide Inv, ValidConfig, Flows, AcceptedKeys, ParseKey;
    FlowsStep(c, s, Release(t));
    r := Apply(c, s, Release(t));
    var id := ParseKey(s.inlets[t].packet).id;
    if Listening(s, id) {
      SameWriterSameAccepted(c, s.slots, id, r.slots[id]);
    }
  }

  lemma CloseOne(c: Config, s: State, id: nat) returns (r: State)
    requires ValidConfig(c) && Inv(c, s) && id in s.slots && Enabled(c, s, CloseWriter(id))
    ensures r.slots == s.slots[id := s.slots[id].(queue := [], mode := Closed)]
    ensures r.conf == s.conf && r.inlets == s.inlets
    ensures Flows(c, s, r) && Inv(c, r) && WritersMoved(c, s, r)
  {
    hide Inv, ValidConfig, Flows, AcceptedKeys, SlotsKept;
    FlowsStep(c, s, CloseWriter(id));
    r := Apply(c, s, CloseWriter(id));
    ClosedKept(c, s.slots, id, r.slots[id]);
  }

  lemma ClosedKept(c: Config, slots: map<nat, Slot>, id: nat, slot: Slot)
    requires id in slots && slots[id].mode.Writing? && slot.mode.Closed? && slot.w == slots[id].w
    ensures SlotsKept(c, slots, slots[id := slot])
  {
    hide AcceptedKeys;
    SameWriterSameAccepted(c, slots, id, slot);
  }

  // ---- confirmations come home ----

  /** Only confirmations have moved; jobs may have been confirmed and removed from the cache. */
  ghost predicate ConfirmationsMoved(s: State, r: State) {
    && r.readers == s.readers && r.holders == s.holders && r.slots == s.slots && r.hands == s.hands
    && r.net == s.net && r.inlets == s.inlets
    && r.shared.queue == s.shared.queue && r.shared.cache.Keys <= s.shared.cache.Keys
  }

  lemma {:induction false} DrainChannel(c: Config, s: State) returns (r: State)
    requires ValidConfig(c) && Inv(c, s)
    ensures Flows(c, s, r) && Inv(c, r) && ConfirmationsMoved(s, r) && r.conf.channel == []
    decreases |s.conf.channel|
  {
    hide Inv, ValidConfig, Flows;
    if |s.conf.channel| == 0 {
      FlowsNowhere(c, s);
      r := s;
    } else {
      FlowsStep(c, s, ForwardOne);
      var q := Apply(c, s, ForwardOne);
      r := DrainChannel(c, q);
      FlowsOn(c, s, q, r);
    }
  }

  lemma {:induction false} DrainCurrent(c: Config, s: State) returns (r: State)
    requires ValidConfig(c) && Inv(c, s)
    ensures Flows(c, s, r) && Inv(c, r) && ConfirmationsMoved(s, r) && r.conf.current == multiset{}
    ensures r.conf.channel == s.conf.channel && r.conf.pending == s.conf.pending && r.conf.wire == s.conf.wire
    decreases |s.conf.current|
  {
    hide Inv, ValidConfig, Flows;
    if s.conf.current == multiset{} {
      FlowsNowhere(c, s);
      r := s;
    } else {
      var k :| k in s.conf.current;
      FlowsStep(c, s, HandleOne(k));
      var q := Apply(c, s, HandleOne(k));
      assert |q.conf.current| == |s.conf.current| - 1;
      r := DrainCurrent(c, q);
      FlowsOn(c, s, q, r);
    }
  }

  lemma {:induction false} DrainWire(c: Config, s: State) returns (r: State)
    requires ValidConfig(c) && Inv(c, s) && s.conf.current == multiset{}
    ensures Flows(c, s, r) && Inv(c, r) && ConfirmationsMoved(s, r) && r.conf.current == multiset{} && r.conf.wire == []
    ensures r.conf.channel == s.conf.channel && r.conf.pending == s.conf.pending
    decreases |s.conf.wire|
  {
    hide Inv, ValidConfig, Flows;
    if |s.conf.wire| == 0 {
      FlowsNowhere(c, s);
      r := s;
    } else {
      FlowsStep(c, s, ReceiveBatch);
      var p := Apply(c, s, ReceiveBatch);
      var q := DrainCurrent(c, p);
      r := DrainWire(c, q);
      FlowsOn(c, s, p, q);
      FlowsOn(c, s, q, r);
    }
  }

  lemma DrainTransit(c: Config, s: State) returns (r: State)
    requires ValidConfig(c) && Inv(c, s)
    ensures Flows(c, s, r) && Inv(c, r) && ConfirmationsMoved(s, r) && InTransit(r.conf) == multiset{}
  {
    hide Inv, ValidConfig, Flows, BatchKeys, Group;
    var o := DrainChannel(c, s);
    FlowsStep(c, o, SendBatch);
    var p := Apply(c, o, SendBatch);
    var q := DrainCurrent(c, p);
    r := DrainWire(c, q);
    FlowsOn(c, s, o, p);
    FlowsOn(c, s, p, q);
    FlowsOn(c, s, q, r);
  }

  // ---- a cached job is retired ----

  ghost predicate Calm(s: State) {
    NoneBusy(s.hands) && s.shared.queue == []
  }

  lemma AcceptedLiveIsLost(c: Config, s: State, k: Key)
    requires Inv(c, s) && InTransit(s.conf) == multiset{}
    requires k in s.shared.cache && k in AcceptedKeys(c, s.slots)
    ensures k in s.shared.lost
  {
    hide ProducedKeys, AcceptedKeys, LiveKeys, InTransit, ReadersOk, SlotsOk, QueueOk, HandsOk, CacheOk, NetOk,
         InletsOk, QueuesOk;
    LiveSettle(s.shared.queue, s.hands, s.shared.cache, k);
  }

  lemma LostIsAccepted(c: Config, s: State, k: Key)
    requires Inv(c, s) && k in s.shared.lost
    ensures k in AcceptedKeys(c, s.slots)
  {
    hide ProducedKeys, AcceptedKeys, LiveKeys, InTransit, ReadersOk, SlotsOk, QueueOk, HandsOk, CacheOk, NetOk,
         InletsOk, QueuesOk;
  }

  /** A cached job that is not known to be confirmed expires and is sent again, on socket `t`. */
  lemma Resend(c: Config, s: State, k: Key, t: nat) returns (r: State)
    requires ValidConfig(c) && Inv(c, s) && Calm(s) && k in s.shared.cache && t < |s.hands|
    requires k !in AcceptedKeys(c, s.slots)
    ensures Flows(c, s, r) && Inv(c, r) && Calm(r) && SendersMoved(s, r)
    ensures r.shared.cache.Keys == s.shared.cache.Keys && Datagram(t, s.shared.cache[k].data) in r.net
  {
    hide Inv, ValidConfig, Flows, NoneBusy, AcceptedKeys;
    if k in s.shared.lost {
      LostIsAccepted(c, s, k);
    }
    CachedFacts(c, s, k);
    FlowsStep(c, s, Expire(k));
    var p := Apply(c, s, Expire(k));
    assert p.shared.queue == [s.shared.cache[k]];
    var q := ArmTask(c, p, t);
    r := SendFirst(c, q, t);
    FlowsOn(c, s, p, q);
    FlowsOn(c, s, q, r);
    assert r.shared.cache.Keys == (s.shared.cache.Keys - {k}) + {k};
  }

  /** The chunk of a job that is not doomed can be brought to its writer. */
  lemma AcceptKey(c: Config, s: State, k: Key, t: nat) returns (r: State)
    requires ValidConfig(c) && Inv(c, s) && Calm(s) && k in s.shared.cache && k.id in s.slots && k !in Doomed(c, s)
    requires t < |s.hands| && t < |s.inlets| && s.inlets[t].Vacant?
    ensures Flows(c, s, r) && Inv(c, r) && Calm(r) && Kept(c, s, r) && r.inlets == s.inlets
    ensures k in AcceptedKeys(c, r.slots) && r.shared.cache.Keys == s.shared.cache.Keys
  {
    hide Inv, ValidConfig, Flows, AcceptedKeys, WriterInv, NoneBusy, ParseKey, Kept, Doomed;
    if k in AcceptedKeys(c, s.slots) {
      FlowsNowhere(c, s);
      KeptSelf(c, s);
      r := s;
    } else {
      CachedFacts(c, s, k);
      CanTake(c, s, k);
      var p := Resend(c, s, k, t);
      SendersKept(c, s, p);
      var q := EmptyWriter(c, p, k.id);
      FlowsOn(c, s, p, q);
      KeptOn(c, s, p, q);
      SlotFacts(c, q, k.id);
      FileFacts(c, k.id, q.slots[k.id]);
      if q.slots[k.id].w.position == c.files[k.id].Size() {
        CompleteAccepts(c, q, k);
        r := q;
      } else {
        r := DeliverOne(c, q, Datagram(t, s.shared.cache[k].data));
        FlowsOn(c, s, q, r);
        KeptOn(c, s, q, r);
      }
    }
  }

  lemma SendersKept(c: Config, s: State, r: State)
    requires SendersMoved(s, r)
    ensures Kept(c, s, r)
  {
    hide AcceptedKeys;
  }

  /** The writer of a chunk that is live, not accepted and not doomed is at work. */
  lemma CanTake(c: Config, s: State, k: Key)
    requires ValidConfig(c) && Inv(c, s) && k in s.shared.cache && k.id in s.slots
    requires k !in Doomed(c, s) && k !in AcceptedKeys(c, s.slots)
    ensures AtWork(s, k.id)
  {
    hide Inv, ValidConfig, Doomed, AcceptedKeys, WriterInv;
    CachedFacts(c, s, k);
    DoomedLive(c, s, k);
    SlotFacts(c, s, k.id);
    if s.slots[k.id].mode.Closed? {
      CompleteAccepts(c, s, k);
    }
  }

  lemma ConfirmationsKept(c: Config, s: State, r: State)
    requires ConfirmationsMoved(s, r)
    ensures Kept(c, s, r)
  {
    hide AcceptedKeys;
  }

  lemma RetireOne(c: Config, s: State, k: Key, t: nat) returns (r: State)
    requires ValidConfig(c) && Inv(c, s) && Calm(s) && k in s.shared.cache && k.id in s.slots && k !in Doomed(c, s)
    requires t < |s.hands| && t < |s.inlets| && s.inlets[t].Vacant?
    ensures Flows(c, s, r) && Inv(c, r) && Calm(r) && Kept(c, s, r) && r.inlets == s.inlets
    ensures r.shared.cache.Keys < s.shared.cache.Keys
  {
    hide Inv, ValidConfig, Flows, NoneBusy, AcceptedKeys, InTransit, Kept, Doomed;
    var p := AcceptKey(c, s, k, t);
    var q := DrainTransit(c, p);
    FlowsOn(c, s, p, q);
    ConfirmationsKept(c, p, q);
    KeptOn(c, s, p, q);
    if k in q.shared.cache {
      AcceptedLiveIsLost(c, q, k);
      FlowsStep(c, q, Expire(k));
      r := Apply(c, q, Expire(k));
      FlowsOn(c, s, q, r);
      SharedKept(c, q, r);
      KeptOn(c, s, q, r);
      assert r.shared.cache.Keys == q.shared.cache.Keys - {k};
    } else {
      r := q;
    }
    assert k !in r.shared.cache.Keys;
  }

  lemma SharedKept(c: Config, s: State, r: State)
    requires r == s.(shared := r.shared)
    ensures Kept(c, s, r)
  {
    hide AcceptedKeys;
  }

  /** Every reader of a writer that has not failed has a writer. */
  ghost predicate Paired(s: State) {
    forall id | id in s.readers :: id in s.slots
  }

  lemma PairedKept(c: Config, s: State, r: State)
    requires Paired(s) && Kept(c, s, r)
    ensures Paired(r)
  {
    hide AcceptedKeys;
  }

  lemma {:induction false} RetireCached(c: Config, s: State, t: nat) returns (r: State)
    requires ValidConfig(c) && Inv(c, s) && Calm(s) && Paired(s)
    requires t < |s.hands| && t < |s.inlets| && s.inlets[t].Vacant?
    ensures Flows(c, s, r) && Inv(c, r) && Calm(r) && Kept(c, s, r) && r.inlets == s.inlets
    ensures r.shared.cache.Keys <= Doomed(c, r)
    decreases s.shared.cache.Keys
  {
    hide Inv, ValidConfig, Flows, Calm, Kept, Doomed, Paired;
    if s.shared.cache.Keys <= Doomed(c, s) {
      FlowsNowhere(c, s);
      KeptSelf(c, s);
      r := s;
    } else {
      var k :| k in s.shared.cache && k !in Doomed(c, s);
      CachedFacts(c, s, k);
      HasWriter(s, k.id);
      var q := RetireOne(c, s, k, t);
      PairedKept(c, s, q);
      KeptSizes(c, s, q);
      r := RetireCached(c, q, t);
      FlowsOn(c, s, q, r);
      KeptOn(c, s, q, r);
    }
  }

  lemma HasWriter(s: State, id: nat)
    requires Paired(s) && id in s.readers
    ensures id in s.slots
  {
  }

  lemma KeptSizes(c: Config, s: State, r: State)
    requires Kept(c, s, r)
    ensures |r.hands| == |s.hands| && |r.inlets| == |s.inlets| && r.readers == s.readers && r.holders == s.holders
    ensures r.slots.Keys == s.slots.Keys
  {
    hide AcceptedKeys;
  }

  lemma {:induction false} NoHandKeys(hands: seq<Hand>)
    requires NoneBusy(hands)
    ensures HandKeys(hands) == multiset{}
  {
    if |hands| > 0 {
      assert !Busy(hands[0]);
      forall t | 0 <= t < |hands[1..]|
        ensures !Busy(hands[1..][t])
      {
        assert !Busy(hands[t + 1]);
      }
      NoHandKeys(hands[1..]);
    }
  }

  lemma TaskCount(c: Config, s: State)
    requires ValidConfig(c) && Inv(c, s)
    ensures |s.hands| == c.tasks && |s.inlets| == c.tasks && c.tasks > 0
  {
    hide Balanced, Conserved, NetOk, SlotsOk, CacheOk, QueueOk, ReadersOk, QueuesOk, Books;
  }

  lemma OnlyCached(c: Config, s: State)
    requires NoneBusy(s.hands) && s.shared.queue == [] && s.shared.cache.Keys <= Doomed(c, s)
    ensures forall k | k in Live(s) :: k in Doomed(c, s)
  {
    hide Doomed;
    NoHandKeys(s.hands);
    assert Live(s) == multiset(s.shared.cache.Keys);
  }

  /** Every live job that is not doomed can be retired without moving a reader. */
  lemma RetireAll(c: Config, s: State, t: nat) returns (r: State)
    requires ValidConfig(c) && Inv(c, s) && Paired(s) && t < |s.inlets| && s.inlets[t].Vacant?
    ensures Flows(c, s, r) && Inv(c, r) && Kept(c, s, r) && r.inlets == s.inlets
    ensures forall k | k in Live(r) :: k in Doomed(c, r)
  {
    hide Inv, ValidConfig, Flows, NoneBusy, Kept, Doomed, Paired, Live;
    TaskCount(c, s);
    assert NoneBusy(s.hands[..0]) by { assert s.hands[..0] == []; NoneOfNone(); }
    var p := ClearHands(c, s, 0);
    var q := FlushQueue(c, p, t);
    FlowsOn(c, s, p, q);
    SendersKept(c, s, q);
    PairedKept(c, s, q);
    r := RetireCached(c, q, t);
    FlowsOn(c, s, q, r);
    KeptOn(c, s, q, r);
    OnlyCached(c, r);
  }

  lemma NoneOfNone()
    ensures NoneBusy([])
  {
  }

  // ---- readers run to the end ----

  ghost function Unread(c: Config, readers: map<nat, Reader>): set<Key> {
    set id, i | id in readers && id in c.files && 0 <= i < c.files[id].Size() && readers[id].index <= i
                && IsChunk(c.files[id].start, c.files[id].Size(), i) :: Key(id, i)
  }

  ghost function Running(readers: map<nat, Reader>): set<nat> {
    set id | id in readers && !readers[id].exited
  }

  lemma UnreadMeaning(c: Config, readers: map<nat, Reader>, k: Key)
    ensures k in Unread(c, readers)
       <==> k.id in readers && k.id in c.files && readers[k.id].index <= k.index
            && IsChunk(c.files[k.id].start, c.files[k.id].Size(), k.index)
  {
    assert k == Key(k.id, k.index);
  }

  /** Less is left to read, or as much by fewer readers. */
  ghost predicate Closer(c: Config, s: State, r: State) {
    || Unread(c, r.readers) < Unread(c, s.readers)
    || (Unread(c, r.readers) == Unread(c, s.readers) && Running(r.readers) < Running(s.readers))
  }

  lemma EndCloser(c: Config, readers: map<nat, Reader>, id: nat)
    requires id in readers && !readers[id].exited
    ensures var r := readers[id := readers[id].(exited := true)];
            Unread(c, r) == Unread(c, readers) && Running(r) < Running(readers)
  {
    var r := readers[id := readers[id].(exited := true)];
    forall k: Key
      ensures k in Unread(c, r) <==> k in Unread(c, readers)
    {
      UnreadMeaning(c, readers, k);
      UnreadMeaning(c, r, k);
    }
    assert id in Running(readers) && id !in Running(r);
  }

  lemma ChunkCloser(c: Config, readers: map<nat, Reader>, id: nat, reader: Reader)
    requires id in readers && id in c.files && readers[id].index < reader.index
    requires IsChunk(c.files[id].start, c.files[id].Size(), readers[id].index)
    ensures Unread(c, readers[id := reader]) < Unread(c, readers)
  {
    var r := readers[id := reader];
    forall k: Key | k in Unread(c, r)
      ensures k in Unread(c, readers)
    {
      UnreadMeaning(c, readers, k);
      UnreadMeaning(c, r, k);
    }
    var first := Key(id, readers[id].index);
    UnreadMeaning(c, readers, first);
    UnreadMeaning(c, r, first);
  }

  lemma ReaderFacts(c: Config, s: State, id: nat)
    requires Inv(c, s) && id in s.readers
    ensures ReaderOk(c, id, s.readers[id])
    ensures s.holders <= Running(s.readers)
  {
    hide Balanced, Conserved, NetOk, InletsOk, SlotsOk, CacheOk, HandsOk, QueueOk, QueuesOk, Books, ReaderOk;
  }

  /** Readers have moved, but none that is held back, and none of a failed writer has read a chunk. */
  ghost predicate ReadersMoved(c: Config, s: State, r: State) {
    && r.slots == s.slots && r.inlets == s.inlets && |r.hands| == |s.hands|
    && r.readers.Keys == s.readers.Keys
    && (forall id | id in s.readers && id in FailedIds(s.slots) :: r.readers[id].index == s.readers[id].index)
    && HeldBack(c, r) <= HeldBack(c, s) && CutShort(c, r.readers) == CutShort(c, s.readers)
  }

  lemma StillDoomed(c: Config, s: State, r: State)
    requires ReadersMoved(c, s, r)
    ensures Doomed(c, r) == Doomed(c, s)
  {
    hide AcceptedKeys, ProducedKeys, HeldBack, CutShort;
    forall k: Key | k.id in FailedIds(s.slots)
      ensures k in ProducedKeys(c, r.readers) <==> k in ProducedKeys(c, s.readers)
    {
      ProducedMeaning(c, s.readers, k);
      ProducedMeaning(c, r.readers, k);
    }
  }

  /** A reader that has a permit and is not held back reads on. */
  lemma ReadHeld(c: Config, s: State, id: nat) returns (r: State)
    requires ValidConfig(c) && Inv(c, s) && id in s.holders && id in s.readers && id !in HeldBack(c, s)
    ensures Flows(c, s, r) && Inv(c, r) && Closer(c, s, r) && ReadersMoved(c, s, r)
  {
    hide Inv, ValidConfig, Flows, Unread, FailedIds, FillBuffer;
    ReaderFacts(c, s, id);
    FlowsStep(c, s, ReadChunk(id));
    r := Apply(c, s, ReadChunk(id));
    var f, reader := c.files[id], s.readers[id];
    if reader.index == f.Size() {
      EndCloser(c, s.readers, id);
    } else {
      NextBoundary(f.start, f.Size(), reader.index);
      ChunkCloser(c, s.readers, id, r.readers[id]);
    }
  }

  /** With nothing live but doomed jobs, some reader that is not done can read on. */
  lemma ReadOn(c: Config, s: State, id: nat) returns (r: State)
    requires ValidConfig(c) && Inv(c, s) && !Starved(c, s) && forall k | k in Live(s) :: k in Doomed(c, s)
    requires id in Running(s.readers) && id !in FailedIds(s.slots)
    ensures Flows(c, s, r) && Inv(c, r) && Closer(c, s, r) && ReadersMoved(c, s, r)
  {
    hide Inv, ValidConfig, Flows, Unread, Live, Starved, Doomed, ReaderOk, Closer;
    PermitLeft(c, s);
    ReaderFacts(c, s, id);
    if s.holders - HeldBack(c, s) != {} {
      var h :| h in s.holders - HeldBack(c, s);
      assert h in Running(s.readers);
      r := ReadHeld(c, s, h);
    } else if id in s.holders {
      assert id in s.holders - HeldBack(c, s);
      r := ReadHeld(c, s, id);
    } else {
      FlowsStep(c, s, AcquireRead(id));
      var q := Apply(c, s, AcquireRead(id));
      HealthyHolds(c, s, q, id);
      r := ReadHeld(c, q, id);
      FlowsOn(c, s, q, r);
      SameReadersCloser(c, s, q, r);
    }
  }

  lemma HealthyHolds(c: Config, s: State, q: State, id: nat)
    requires id !in FailedIds(s.slots) && q.readers == s.readers && q.slots == s.slots && q.holders == s.holders + {id}
    ensures id !in HeldBack(c, q) && HeldBack(c, q) == HeldBack(c, s)
  {
  }

  lemma SameReadersCloser(c: Config, s: State, q: State, r: State)
    requires q.readers == s.readers && Closer(c, q, r)
    ensures Closer(c, s, r)
  {
  }

  lemma CloserMeasure(c: Config, s: State, r: State)
    requires Closer(c, s, r)
    ensures |Unread(c, r.readers)| < |Unread(c, s.readers)|
         || (|Unread(c, r.readers)| == |Unread(c, s.readers)| && |Running(r.readers)| < |Running(s.readers)|)
  {
    hide Unread, Running;
    SmallerSet(Unread(c, r.readers), Unread(c, s.readers));
    SmallerSet(Running(r.readers), Running(s.readers));
  }

  lemma SmallerSet<T>(a: set<T>, b: set<T>)
    ensures a < b ==> |a| < |b|
  {
    if a < b {
      SubsetSize(a, b);
    }
  }

  /** What the strategy keeps from beginning to end. */
  ghost predicate OnCourse(c: Config, s: State, r: State) {
    && r.readers.Keys == s.readers.Keys && r.slots.Keys == s.slots.Keys
    && FailedIds(r.slots) == FailedIds(s.slots) && WritingIds(r.slots) <= WritingIds(s.slots)
    && Doomed(c, r) == Doomed(c, s) && HeldBack(c, r) <= HeldBack(c, s)
    && CutShort(c, r.readers) == CutShort(c, s.readers)
  }

  lemma KeptOnCourse(c: Config, s: State, r: State)
    requires Kept(c, s, r)
    ensures OnCourse(c, s, r)
  {
    SameDoomed(c, s, r);
  }

  lemma ReadersOnCourse(c: Config, s: State, r: State)
    requires ReadersMoved(c, s, r)
    ensures OnCourse(c, s, r)
  {
    StillDoomed(c, s, r);
  }

  lemma OnCourseOn(c: Config, s: State, q: State, r: State)
    requires OnCourse(c, s, q) && OnCourse(c, q, r)
    ensures OnCourse(c, s, r)
  {
    hide FailedIds, WritingIds, Doomed, HeldBack, CutShort;
  }

  lemma OnCourseFed(c: Config, s: State, r: State)
    requires OnCourse(c, s, r) && !Starved(c, s)
    ensures !Starved(c, r)
  {
    hide FailedIds, Doomed, HeldBack;
    SubsetSize(HeldBack(c, r), HeldBack(c, s));
  }

  lemma PairedOnCourse(c: Config, s: State, r: State)
    requires OnCourse(c, s, r) && Paired(s)
    ensures Paired(r)
  {
    hide FailedIds, Doomed, HeldBack;
    forall id | id in r.readers
      ensures id in r.slots
    {
      assert id in r.readers.Keys && id in s.readers;
      assert id in s.slots.Keys;
    }
  }

  /** The readers of the writers that have not failed have read everything. */
  ghost predicate HealthyRead(s: State) {
    forall id | id in s.readers && id !in FailedIds(s.slots) :: s.readers[id].exited
  }

  lemma {:induction false} ReadAll(c: Config, s: State, t: nat) returns (r: State)
    requires ValidConfig(c) && Inv(c, s) && Paired(s) && !Starved(c, s) && t < |s.inlets| && s.inlets[t].Vacant?
    ensures Flows(c, s, r) && Inv(c, r) && OnCourse(c, s, r) && HealthyRead(r) && r.inlets == s.inlets
    ensures forall k | k in Live(r) :: k in Doomed(c, r)
    decreases |Unread(c, s.readers)|, |Running(s.readers)|
  {
    hide Inv, ValidConfig, Flows, Unread, Live, Running, Closer, Kept, Doomed, Paired, Starved, OnCourse, HealthyRead,
         ReadersMoved;
    var p := RetireAll(c, s, t);
    KeptSizes(c, s, p);
    KeptOnCourse(c, s, p);
    OnCourseFed(c, s, p);
    PairedOnCourse(c, s, p);
    if HealthyRead(p) {
      r := p;
    } else {
      var id := NotYetRead(p);
      var q := ReadOn(c, p, id);
      CloserMeasure(c, p, q);
      ReadersOnCourse(c, p, q);
      OnCourseFed(c, p, q);
      PairedOnCourse(c, p, q);
      InletsAsBefore(c, p, q);
      r := ReadAll(c, q, t);
      FlowsOn(c, s, p, q);
      FlowsOn(c, s, q, r);
      OnCourseOn(c, s, p, q);
      OnCourseOn(c, s, q, r);
    }
  }

  lemma InletsAsBefore(c: Config, s: State, r: State)
    requires ReadersMoved(c, s, r)
    ensures r.inlets == s.inlets
  {
  }

  lemma NotYetRead(s: State) returns (id: nat)
    requires !HealthyRead(s)
    ensures id in Running(s.readers) && id !in FailedIds(s.slots)
  {
    id :| id in s.readers && id !in FailedIds(s.slots) && !s.readers[id].exited;
  }

  // ---- writers close ----

  /** The chunk that a healthy writer waits for is live once its reader has read all. */
  lemma LiveGap(c: Config, s: State, id: nat)
    requires Inv(c, s) && id in s.slots && id in s.readers && s.readers[id].exited && id !in FailedIds(s.slots)
    requires id !in CutShort(c, s.readers)
    requires id in c.files && s.slots[id].w.position < c.files[id].Size()
    ensures var k := Key(id, s.slots[id].w.position); k in Live(s) && k !in Doomed(c, s)
  {
    hide Inv, WriterInv, ProducedKeys, AcceptedKeys, LiveKeys, InTransit;
    SlotFacts(c, s, id);
    FileFacts(c, id, s.slots[id]);
    ReaderFacts(c, s, id);
    var k := Key(id, s.slots[id].w.position);
    InvBalanced(c, s);
    ProducedMeaning(c, s.readers, k);
    AcceptedMeaning(c, s.slots, k);
  }

  /** Once its reader has read all and no job of it is live, a writer has all of its file. */
  lemma WriterComplete(c: Config, s: State, id: nat)
    requires Inv(c, s) && id in s.slots && id in s.readers && s.readers[id].exited && id !in FailedIds(s.slots)
    requires id !in CutShort(c, s.readers)
    requires forall k | k in Live(s) :: k in Doomed(c, s)
    ensures id in c.files && s.slots[id].w.position == c.files[id].Size()
  {
    hide Inv, WriterInv, Live, Doomed, FailedIds, CutShort;
    SlotFacts(c, s, id);
    FileFacts(c, id, s.slots[id]);
    if s.slots[id].w.position < c.files[id].Size() {
      LiveGap(c, s, id);
    }
  }

  /** Every writer at work has a reader that has ended. */
  ghost predicate Served(s: State) {
    forall id | id in WritingIds(s.slots) :: id in s.readers && s.readers[id].exited
  }

  lemma {:induction false} CloseAll(c: Config, s: State) returns (r: State)
    requires ValidConfig(c) && Inv(c, s) && Served(s) && forall k | k in Live(s) :: k in Doomed(c, s)
    ensures Flows(c, s, r) && Inv(c, r) && Kept(c, s, r)
    ensures WritingIds(r.slots) <= CutShort(c, r.readers) && Live(r) == Live(s) && r.inlets == s.inlets
    decreases WritingIds(s.slots)
  {
    hide Inv, ValidConfig, Flows, LiveKeys, Doomed, Kept, CutShort;
    if WritingIds(s.slots) <= CutShort(c, s.readers) {
      FlowsNowhere(c, s);
      KeptSelf(c, s);
      r := s;
    } else {
      var id :| id in WritingIds(s.slots) && id !in CutShort(c, s.readers);
      WriterComplete(c, s, id);
      var q := CloseOne(c, s, id);
      assert id !in WritingIds(q.slots);
      SameDoomed(c, s, q);
      KeptSizes(c, s, q);
      r := CloseAll(c, q);
      FlowsOn(c, s, q, r);
      KeptOn(c, s, q, r);
    }
  }

  /** Every file that was started is done, unless its writer failed or its reader before the end of the file,
      and no job is live that is not doomed. */
  ghost predicate Settled(c: Config, s: State) {
    && HealthyRead(s)
    && (forall id | id in s.slots && id !in FailedIds(s.slots) && id !in CutShort(c, s.readers) :: Done(s, id))
    && forall k | k in Live(s) :: k in Doomed(c, s)
  }

  /** Every writer at work has a reader. */
  ghost predicate Fed(s: State) {
    forall id | id in WritingIds(s.slots) :: id in s.readers
  }

  /** While the files flow, all that were started and have not failed can be finished by the tasks at work. */
  lemma FinishStarted(c: Config, s: State) returns (r: State)
    requires ValidConfig(c) && Inv(c, s) && Paired(s) && Fed(s) && Flowing(c, s)
    ensures Flows(c, s, r) && Inv(c, r) && OnCourse(c, s, r) && Settled(c, r) && Flowing(c, r)
  {
    hide Inv, ValidConfig, Flows, Doomed, Kept, Starved, OnCourse, Live, Paired, Stuck, CutShort;
    var t :| 0 <= t < |s.inlets| && !Stuck(s, t);
    var o := FreeInlet(c, s, t);
    KeptOnCourse(c, s, o);
    PairedKept(c, s, o);
    OnCourseFed(c, s, o);
    var p := ReadAll(c, o, t);
    FlowsOn(c, s, o, p);
    OnCourseOn(c, s, o, p);
    AllServed(c, s, p);
    r := CloseAll(c, p);
    FlowsOn(c, s, p, r);
    KeptOnCourse(c, p, r);
    OnCourseOn(c, s, p, r);
    OnCourseFed(c, s, r);
    AllSettled(c, p, r);
    VacantNotStuck(r, t);
  }

  lemma VacantNotStuck(s: State, t: nat)
    requires t < |s.inlets| && s.inlets[t].Vacant?
    ensures !Stuck(s, t) && !Blocked(s)
  {
    assert !Stuck(s, t);
  }

  lemma AllServed(c: Config, s: State, p: State)
    requires Fed(s) && OnCourse(c, s, p) && HealthyRead(p)
    ensures Served(p)
  {
    hide Doomed, HeldBack;
    forall id | id in WritingIds(p.slots)
      ensures id in p.readers && p.readers[id].exited
    {
      assert id in WritingIds(s.slots) && id in s.readers.Keys;
      assert id !in FailedIds(p.slots);
    }
  }

  lemma AllSettled(c: Config, p: State, r: State)
    requires Kept(c, p, r) && HealthyRead(p) && WritingIds(r.slots) <= CutShort(c, r.readers) && Live(r) == Live(p)
    requires forall k | k in Live(p) :: k in Doomed(c, p)
    ensures Settled(c, r)
  {
    hide Doomed, Live, CutShort;
    SameDoomed(c, p, r);
    forall id | id in r.slots && id !in FailedIds(r.slots) && id !in CutShort(c, r.readers)
      ensures Done(r, id)
    {
      assert id !in WritingIds(r.slots);
    }
  }

  // ---- what was not started yet ----

  /** Readers and writers were added, and nothing else has changed. */
  ghost predicate OnlyStarted(s: State, r: State) {
    && r == s.(readers := r.readers, slots := r.slots)
    && (forall id | id in s.readers :: id in r.readers && r.readers[id] == s.readers[id])
    && (forall id | id in s.slots :: id in r.slots && r.slots[id] == s.slots[id])
    && (forall id | id in r.slots && id !in s.slots :: r.slots[id].mode.Writing?)
    && (forall id | id in r.readers && id !in s.readers :: !r.readers[id].exited)
  }

  lemma InvReaders(c: Config, s: State)
    requires Inv(c, s)
    ensures ReadersOk(c, s.readers, s.holders)
  {
    hide ReadersOk, Balanced, Conserved, NetOk, InletsOk, SlotsOk, CacheOk, HandsOk, QueueOk, QueuesOk, Books;
  }

  lemma StartedSame(c: Config, s: State, e: Step)
    requires ValidConfig(c) && Inv(c, s) && Enabled(c, s, e) && (e.StartReader? || e.StartWriter?)
    ensures OnlyStarted(s, Apply(c, s, e))
    ensures ProducedKeys(c, Apply(c, s, e).readers) == ProducedKeys(c, s.readers)
    ensures AcceptedKeys(c, Apply(c, s, e).slots) == AcceptedKeys(c, s.slots)
  {
    hide ValidConfig, Inv, ReadersOk, ProducedKeys, AcceptedKeys, FirstBuffer;
    if e.StartReader? {
      InvReaders(c, s);
      StartedReader(c, s.readers, s.holders, e.id);
    } else {
      FreshWriter(c, s.slots, e.id);
    }
  }

  lemma StartedFlow(c: Config, s: State, r: State)
    requires OnlyStarted(s, r) && ReadersFirm(c, s)
    requires ProducedKeys(c, r.readers) == ProducedKeys(c, s.readers)
    requires AcceptedKeys(c, r.slots) == AcceptedKeys(c, s.slots)
    ensures FailedIds(r.slots) == FailedIds(s.slots) && Doomed(c, r) == Doomed(c, s) && HeldBack(c, r) == HeldBack(c, s)
    ensures forall t :: Stuck(r, t) <==> Stuck(s, t)
  {
    hide ProducedKeys, AcceptedKeys, ParseKey;
    assert FailedIds(r.slots) == FailedIds(s.slots);
  }

  ghost predicate ReadersFirm(c: Config, s: State) {
    s.holders <= s.readers.Keys
  }

  lemma HoldersRead(c: Config, s: State)
    requires Inv(c, s)
    ensures ReadersFirm(c, s)
  {
    hide Balanced, Conserved, NetOk, InletsOk, SlotsOk, CacheOk, HandsOk, QueueOk, QueuesOk, Books;
  }

  /** What starting more files leaves alone. */
  ghost predicate SameFlow(c: Config, s: State, r: State) {
    && FailedIds(r.slots) == FailedIds(s.slots)
    && CutShort(c, r.readers) == CutShort(c, s.readers)
    && (Flowing(c, s) <==> Flowing(c, r)) && |r.inlets| == |s.inlets|
  }

  lemma StartOne(c: Config, s: State, e: Step)
    requires ValidConfig(c) && Inv(c, s) && Enabled(c, s, e) && (e.StartReader? || e.StartWriter?)
    ensures Leads(c, s, Apply(c, s, e)) && Inv(c, Apply(c, s, e)) && SameFlow(c, s, Apply(c, s, e))
  {
    hide Inv, ValidConfig, Leads, Apply, Enabled, OnlyStarted, Doomed, HeldBack, Stuck, CutShort;
    LeadsStep(c, s, e);
    StartedSame(c, s, e);
    HoldersRead(c, s);
    StartedFlow(c, s, Apply(c, s, e));
    StartedKeeps(c, s, Apply(c, s, e));
  }

  lemma StartedKeeps(c: Config, s: State, r: State)
    requires OnlyStarted(s, r)
    ensures r.inlets == s.inlets && CutShort(c, r.readers) == CutShort(c, s.readers)
  {
  }

  /** Every id of `ids`, and every file with a reader or a writer, gets both. */
  lemma {:induction false} StartBoth(c: Config, s: State, ids: set<nat>) returns (r: State)
    requires ValidConfig(c) && Inv(c, s) && ids <= c.files.Keys && s.readers.Keys <= ids && s.slots.Keys <= ids
    ensures Leads(c, s, r) && Inv(c, r) && SameFlow(c, s, r)
    ensures r.readers.Keys == ids && r.slots.Keys == ids
    decreases (ids - s.readers.Keys), (ids - s.slots.Keys)
  {
    hide Inv, ValidConfig, Leads, SameFlow;
    if ids - s.readers.Keys != {} {
      var id :| id in ids - s.readers.Keys;
      StartOne(c, s, StartReader(id));
      var q := Apply(c, s, StartReader(id));
      assert ids - q.readers.Keys == ids - s.readers.Keys - {id};
      r := StartBoth(c, q, ids);
      LeadsOn(c, s, q, r);
      SameFlowOn(c, s, q, r);
    } else if ids - s.slots.Keys != {} {
      var id :| id in ids - s.slots.Keys;
      StartOne(c, s, StartWriter(id));
      var q := Apply(c, s, StartWriter(id));
      assert ids - q.slots.Keys == ids - s.slots.Keys - {id};
      r := StartBoth(c, q, ids);
      LeadsOn(c, s, q, r);
      SameFlowOn(c, s, q, r);
    } else {
      FlowsNowhere(c, s);
      FlowsLeads(c, s, s);
      SameFlowSelf(c, s);
      r := s;
      assert forall id | id in ids :: id in s.readers.Keys || id in ids - s.readers.Keys;
      assert forall id | id in ids :: id in s.slots.Keys || id in ids - s.slots.Keys;
    }
  }

  lemma SameFlowOn(c: Config, s: State, q: State, r: State)
    requires SameFlow(c, s, q) && SameFlow(c, q, r)
    ensures SameFlow(c, s, r)
  {
    hide Flowing, FailedIds, CutShort;
  }

  lemma SameFlowSelf(c: Config, s: State)
    ensures SameFlow(c, s, s)
  {
    hide Flowing, FailedIds, CutShort;
  }

  lemma StartedFiles(c: Config, s: State)
    requires Inv(c, s)
    ensures s.readers.Keys <= c.files.Keys && s.slots.Keys <= c.files.Keys
  {
    hide Inv;
    forall id | id in s.readers
      ensures id in c.files
    {
      ReaderFacts(c, s, id);
    }
    forall id | id in s.slots
      ensures id in c.files
    {
      SlotFacts(c, s, id);
    }
  }

  /** While the files flow, all that were started, and any others, can be finished without another failure. */
  lemma FinishAll(c: Config, s: State, ids: set<nat>) returns (r: State)
    requires ValidConfig(c) && Inv(c, s) && Flowing(c, s) && ids <= c.files.Keys
    ensures Leads(c, s, r) && Inv(c, r) && Settled(c, r)
    ensures r.readers.Keys == s.readers.Keys + s.slots.Keys + ids
    ensures r.slots.Keys == s.readers.Keys + s.slots.Keys + ids
    ensures FailedIds(r.slots) == FailedIds(s.slots) && CutShort(c, r.readers) == CutShort(c, s.readers)
  {
    hide Inv, ValidConfig, Leads, Flows, Flowing, Settled, FailedIds, CutShort;
    StartedFiles(c, s);
    var p := StartBoth(c, s, s.readers.Keys + s.slots.Keys + ids);
    BothMeans(p);
    r := FinishStarted(c, p);
    FlowsLeads(c, p, r);
    LeadsOn(c, s, p, r);
  }

  lemma BothMeans(s: State)
    requires s.readers.Keys == s.slots.Keys
    ensures Paired(s) && Fed(s)
  {
    forall id | id in s.readers
      ensures id in s.slots
    {
      assert id in s.readers.Keys;
    }
    forall id | id in WritingIds(s.slots)
      ensures id in s.readers
    {
      assert id in s.slots.Keys;
    }
  }

  // ---- the theorem without failures ----

  /** Every started file is on the disk of the receiving host, no job is left, every permit is back. */
  ghost predicate Finished(c: Config, s: State) {
    && s.readers.Keys == s.slots.Keys
    && (forall id | id in s.readers :: s.readers[id].exited)
    && (forall id | id in s.slots :: Done(s, id) && id in c.files && s.slots[id].w.Output() == c.files[id].source)
    && Live(s) == multiset{}
    && s.holders == {}
    && s.shared.permits == c.jobLimit
  }

  lemma NoneFailedFlows(c: Config, s: State)
    requires ValidConfig(c) && Inv(c, s) && FailedIds(s.slots) == {}
    ensures Flowing(c, s)
  {
    hide Inv;
    TaskCount(c, s);
    assert Doomed(c, s) == {} && HeldBack(c, s) == {};
    assert !Stuck(s, 0);
  }

  lemma SettledFinished(c: Config, s: State)
    requires ValidConfig(c) && Inv(c, s) && Settled(c, s) && s.readers.Keys == s.slots.Keys
    requires FailedIds(s.slots) == {} && CutShort(c, s.readers) == {}
    ensures Finished(c, s)
  {
    hide Inv, LiveKeys, InTransit, ProducedKeys, AcceptedKeys, Balanced;
    assert Doomed(c, s) == {};
    assert Live(s) == multiset{};
    InvBalanced(c, s);
    LimitSplit(c, s);
    forall id | id in s.slots
      ensures Done(s, id) && id in c.files && s.slots[id].w.Output() == c.files[id].source
    {
      SlotFacts(c, s, id);
      OutputOf(c, id, s.slots[id]);
    }
    if h :| h in s.holders {
      HolderRuns(c, s, h);
    }
  }

  lemma LimitSplit(c: Config, s: State)
    requires Balanced(c.jobLimit, Books(c, s))
    ensures s.shared.permits + |s.holders| + |Live(s)| == c.jobLimit
  {
    hide ProducedKeys, AcceptedKeys, LiveKeys, InTransit;
  }

  lemma OutputOf(c: Config, id: nat, slot: Slot)
    requires SlotOk(c, id, slot) && slot.mode.Closed?
    ensures slot.w.Output() == c.files[id].source
  {
  }

  lemma HolderRuns(c: Config, s: State, h: nat)
    requires Inv(c, s) && h in s.holders
    ensures h in Running(s.readers)
  {
    hide Balanced, Conserved, NetOk, InletsOk, SlotsOk, CacheOk, HandsOk, QueueOk, QueuesOk, Books, ReaderOk;
  }

  /** No dead state while no writer has failed and no reader before the end of its file: some continuation
      finishes every file that was started, whatever the network has dropped, repeated or delayed so far. */
  lemma NoDeadState(c: Config, steps: seq<Step>) returns (rest: seq<Step>)
    requires ValidConfig(c) && CanRun(c, Init(c), steps) && FailedIds(After(c, Init(c), steps).slots) == {}
    requires CutShort(c, After(c, Init(c), steps).readers) == {}
    ensures var s := After(c, Init(c), steps);
            && CanRun(c, s, rest) && NoFailure(rest)
            && Finished(c, After(c, s, rest))
            && After(c, s, rest).readers.Keys == s.readers.Keys + s.slots.Keys
  {
    hide Inv, ValidConfig, CanRun, After, Finished, Flowing, FailedIds, Settled, CutShort;
    ReachableInv(c, steps);
    var s := After(c, Init(c), steps);
    NoneFailedFlows(c, s);
    var r := FinishAll(c, s, {});
    SettledFinished(c, r);
    rest :| CanRun(c, s, rest) && NoFailure(rest) && After(c, s, rest) == r;
  }
}
