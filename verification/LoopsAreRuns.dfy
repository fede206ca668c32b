/** The loops of the tasks, left alone, are runs of the step system: what holds in every run of the
    steps holds for the loops. */
module LoopsAreRuns {
  import opened Chunks
  import opened ReaderSpec
  import opened WriterSpec
  import opened Confirmations
  import opened SenderState
  import opened SenderTask
  import opened Transport
  import R = Receiver

  lemma RunOneMore(c: Config, s: State, steps: seq<Step>, e: Step)
    requires CanRun(c, s, steps) && Enabled(c, After(c, s, steps), e)
    ensures CanRun(c, s, steps + [e]) && After(c, s, steps + [e]) == Apply(c, After(c, s, steps), e)
  {
    hide Enabled, Apply;
    var q := After(c, s, steps);
    assert [e][1..] == [];
    assert CanRun(c, Apply(c, q, e), []);
    assert CanRun(c, q, [e]) && After(c, q, [e]) == Apply(c, q, e);
    RunAppend(c, s, steps, [e]);
  }

  function Handled(s: State, keys: seq<Key>): State {
    s.(shared := ConfirmAll(s.shared, keys),
       conf := s.conf.(current := s.conf.current - multiset(keys), handled := s.conf.handled + multiset(keys)))
  }

  lemma HandledOneMore(p: Pipeline, front: seq<Key>, last: Key)
    requires multiset(front + [last]) <= p.current
    ensures last in p.current - multiset(front)
    ensures p.current - multiset(front) - multiset{last} == p.current - multiset(front + [last])
    ensures p.handled + multiset(front) + multiset{last} == p.handled + multiset(front + [last])
    ensures multiset(front) <= p.current
  {
    assert multiset(front + [last]) == multiset(front) + multiset{last};
    assert p.current[last] >= multiset(front)[last] + 1;
  }

  lemma HandledNone(s: State)
    ensures Handled(s, []) == s
  {
  }

  lemma HandledStep(c: Config, s: State, front: seq<Key>, last: Key)
    requires multiset(front + [last]) <= s.conf.current
    ensures Enabled(c, Handled(s, front), HandleOne(last))
    ensures Apply(c, Handled(s, front), HandleOne(last)) == Handled(s, front + [last])
  {
    hide Confirm;
    HandledOneMore(s.conf, front, last);
    assert (front + [last])[..|front|] == front;
  }

  /** Handling the indexes of a message one by one is `ConfirmAll`. */
  lemma {:induction false} HandlingIsRun(c: Config, s: State, keys: seq<Key>) returns (steps: seq<Step>)
    requires multiset(keys) <= s.conf.current
    ensures CanRun(c, s, steps) && After(c, s, steps) == Handled(s, keys)
  {
    hide CanRun, After, Handled, Enabled, Apply;
    if |keys| == 0 {
      steps := [];
      EmptyRun(c, s);
      HandledNone(s);
    } else {
      var front, last := keys[..|keys| - 1], keys[|keys| - 1];
      assert keys == front + [last];
      HandledOneMore(s.conf, front, last);
      HandledStep(c, s, front, last);
      steps := HandlingIsRun(c, s, front);
      RunOneMore(c, s, steps, HandleOne(last));
      steps := steps + [HandleOne(last)];
    }
  }

  /** A requeue pass over any keys, present or gone, is `RequeueAll`. */
  lemma {:induction false} RequeueingIsRun(c: Config, s: State, keys: seq<Key>) returns (steps: seq<Step>)
    ensures CanRun(c, s, steps) && After(c, s, steps) == s.(shared := RequeueAll(s.shared, keys))
  {
    if |keys| == 0 {
      steps := [];
    } else {
      var front, last := keys[..|keys| - 1], keys[|keys| - 1];
      steps := RequeueingIsRun(c, s, front);
      var q := After(c, s, steps);
      if last in q.shared.cache {
        RunOneMore(c, s, steps, Expire(last));
        steps := steps + [Expire(last)];
      }
    }
  }

  /** What is left of a state when one reader has read on. */
  ghost predicate OnlyReader(s: State, r: State, id: nat) {
    && id in r.readers
    && r == s.(readers := s.readers[id := r.readers[id]], shared := r.shared)
    && r.shared == s.shared.(queue := r.shared.queue, permits := r.shared.permits)
  }

  lemma ReadOneIsRun(c: Config, s: State, id: nat) returns (steps: seq<Step>, r: State)
    requires id in s.readers && id in c.files && id !in s.holders && !s.readers[id].exited
    requires s.readers[id].index < c.files[id].Size() && s.shared.permits > 0
    ensures CanRun(c, s, steps) && After(c, s, steps) == r && OnlyReader(s, r, id)
    ensures var f, reader := c.files[id], s.readers[id];
            var packet := FillBuffer(f, reader.index, reader.packet);
            && r.shared.queue == s.shared.queue + [Job(packet, Key(id, reader.index))]
            && r.shared.permits == s.shared.permits - 1
            && r.readers[id] == Reader(reader.index + ChunkLength(f.Size(), reader.index), packet, false)
  {
    hide FillBuffer;
    var p := Apply(c, s, AcquireRead(id));
    r := Apply(c, p, ReadChunk(id));
    steps := [AcquireRead(id)] + [ReadChunk(id)];
    assert CanRun(c, s, []) && After(c, s, []) == s;
    RunOneMore(c, s, [], AcquireRead(id));
    assert [] + [AcquireRead(id)] == [AcquireRead(id)];
    RunOneMore(c, s, [AcquireRead(id)], ReadChunk(id));
    assert s.holders + {id} - {id} == s.holders;
    assert r.readers[id].exited == false;
  }

  /** A reader that reads on with `permits` permits queues `Cut`. */
  lemma {:induction false} ReadingIsRun(c: Config, s: State, id: nat, permits: nat) returns (steps: seq<Step>, r: State)
    requires id in s.readers && id in c.files && id !in s.holders && !s.readers[id].exited
    requires s.readers[id].index <= c.files[id].Size() && permits <= s.shared.permits
    ensures CanRun(c, s, steps) && After(c, s, steps) == r && OnlyReader(s, r, id)
    ensures var jobs := Cut(c.files[id], id, s.readers[id].index, s.readers[id].packet, permits);
            r.shared.queue == s.shared.queue + jobs && r.shared.permits + |jobs| == s.shared.permits
    decreases permits
  {
    hide FillBuffer, CanRun, After, Apply, Enabled;
    if permits == 0 || s.readers[id].index == c.files[id].Size() {
      steps, r := [], s;
      EmptyRun(c, s);
      assert s.readers[id := s.readers[id]] == s.readers;
    } else {
      var first, q := ReadOneIsRun(c, s, id);
      var rest;
      rest, r := ReadingIsRun(c, q, id, permits - 1);
      RunAppend(c, s, first, rest);
      steps := first + rest;
      assert q.readers[id := r.readers[id]] == s.readers[id := r.readers[id]];
    }
  }

  lemma EmptyRun(c: Config, s: State)
    ensures CanRun(c, s, []) && After(c, s, []) == s
  {
  }

  /** What is left of a state when one writer has taken in arrivals. */
  ghost predicate OnlyWriter(s: State, r: State, id: nat) {
    && id in r.slots
    && r == s.(slots := s.slots[id := r.slots[id]], conf := r.conf)
    && r.conf == s.conf.(channel := r.conf.channel, issued := r.conf.issued)
  }

  /** A writer that takes in all that is queued for it computes `Feed` on its queue. */
  lemma {:induction false} WritingIsRun(c: Config, s: State, id: nat) returns (steps: seq<Step>, r: State)
    requires id in c.files && AtWork(s, id) && s.slots[id].w.position <= c.files[id].Size()
    ensures CanRun(c, s, steps) && After(c, s, steps) == r && OnlyWriter(s, r, id)
    ensures r.slots[id].w == Feed(c.files[id].Size(), c.files[id].ks, s.slots[id].w, s.slots[id].queue)
    decreases |s.slots[id].queue|
  {
    hide CanRun, After, Arrive;
    var f, slot := c.files[id], s.slots[id];
    EmptyRun(c, s);
    if |slot.queue| == 0 || slot.w.position == f.Size() {
      steps, r := [], s;
      assert s.slots[id := s.slots[id]] == s.slots;
    } else {
      var e := WriteArrival(id);
      RunOneMore(c, s, [], e);
      assert [] + [e] == [e];
      var q := Apply(c, s, e);
      var rest;
      rest, r := WritingIsRun(c, q, id);
      RunAppend(c, s, [e], rest);
      steps := [e] + rest;
      assert q.slots[id := r.slots[id]] == s.slots[id := r.slots[id]];
    }
  }

  // ---- the packet receiver ----

  /** What is queued for a file while its writer has not closed. */
  function Fed(slot: Slot, arrivals: seq<Arrival>): Slot {
    if slot.mode.Closed? then slot else slot.(queue := slot.queue + arrivals)
  }

  /** All that the events bring can be queued. */
  ghost predicate Room(s: State, events: seq<R.Event>) {
    forall id | id in s.slots :: |s.slots[id].queue| + |events| <= WRITER_QUEUE_SIZE
  }

  lemma {:induction false} FewArrivals(id: nat, events: seq<R.Event>)
    ensures |R.ArrivalsOf(id, events)| <= |events|
  {
    if |events| > 0 {
      FewArrivals(id, events[..|events| - 1]);
    }
  }

  ghost predicate OnlyFed(s: State, r: State, events: seq<R.Event>) {
    && r == s.(slots := r.slots) && r.slots.Keys == s.slots.Keys
    && forall id | id in s.slots :: r.slots[id] == Fed(s.slots[id], R.ArrivalsOf(id, events))
  }

  lemma DeliverOneMore(c: Config, s: State, q: State, t: nat, front: seq<R.Event>, p: Packet)
    requires OnlyFed(s, q, front) && Room(s, front + [R.Packet(p)])
    requires t < |q.inlets| && q.inlets[t].Vacant? && Datagram(t, p) in q.net
    ensures Enabled(c, q, Deliver(Datagram(t, p)))
    ensures OnlyFed(s, Apply(c, q, Deliver(Datagram(t, p))), front + [R.Packet(p)])
  {
    hide ParseKey, Queued, Fed, R.ArrivalsOf, Room;
    assert !Full(q, ParseKey(p).id) by {
      StillRoom(s, q, front, p);
    }
    QueuedKeys(q, p);
    forall id | id in s.slots
      ensures Queued(q, p).slots[id] == Fed(s.slots[id], R.ArrivalsOf(id, front + [R.Packet(p)]))
    {
      QueuedIs(q, p, id);
      R.ArrivalsInOrder(id, front, [R.Packet(p)]);
      FedTwice(s.slots[id], R.ArrivalsOf(id, front), R.ArrivalsOf(id, [R.Packet(p)]));
    }
  }

  lemma StillRoom(s: State, q: State, front: seq<R.Event>, p: Packet)
    requires OnlyFed(s, q, front) && Room(s, front + [R.Packet(p)])
    ensures !Full(q, ParseKey(p).id)
  {
    hide ParseKey, R.ArrivalsOf;
    FewArrivals(ParseKey(p).id, front);
  }

  lemma QueuedKeys(q: State, p: Packet)
    ensures Queued(q, p) == q.(slots := Queued(q, p).slots) && Queued(q, p).slots.Keys == q.slots.Keys
  {
    hide ParseKey;
  }

  lemma QueuedIs(q: State, p: Packet, id: nat)
    requires id in q.slots
    ensures id in Queued(q, p).slots && Queued(q, p).slots[id] == Fed(q.slots[id], R.ArrivalsOf(id, [R.Packet(p)]))
  {
    hide ParseKey;
    assert [R.Packet(p)][..0] == [];
    assert q.slots[id].queue + [] == q.slots[id].queue;
  }

  lemma FedTwice(slot: Slot, one: seq<Arrival>, two: seq<Arrival>)
    ensures Fed(Fed(slot, one), two) == Fed(slot, one + two)
  {
    assert slot.queue + one + two == slot.queue + (one + two);
  }

  lemma NothingFed(s: State)
    ensures OnlyFed(s, s, [])
  {
  }

  lemma QuietFed(s: State, q: State, front: seq<R.Event>, event: R.Event)
    requires OnlyFed(s, q, front) && !event.Packet?
    ensures OnlyFed(s, q, front + [event])
  {
    assert (front + [event])[..|front|] == front;
  }

  /** What the loop of a packet receiver hands to the queues of the files is what the deliveries of the same packets
      on its socket put there, as long as no queue is full. */
  lemma {:induction false} ReceivingIsRun(c: Config, s: State, t: nat, events: seq<R.Event>)
    returns (steps: seq<Step>, r: State)
    requires t < |s.inlets| && s.inlets[t].Vacant? && Room(s, events)
    requires forall event | event in events && event.Packet? :: Datagram(t, event.data) in s.net
    ensures CanRun(c, s, steps) && After(c, s, steps) == r && OnlyFed(s, r, events)
  {
    hide CanRun, After, Enabled, Apply, OnlyFed;
    if |events| == 0 {
      EmptyRun(c, s);
      NothingFed(s);
      steps, r := [], s;
    } else {
      var front, last := events[..|events| - 1], events[|events| - 1];
      assert events == front + [last];
      steps, r := ReceivingIsRun(c, s, t, front);
      FedOnly(s, r, front);
      if last.Packet? {
        DeliverOneMore(c, s, r, t, front, last.data);
        RunOneMore(c, s, steps, Deliver(Datagram(t, last.data)));
        r := Apply(c, r, Deliver(Datagram(t, last.data)));
        steps := steps + [Deliver(Datagram(t, last.data))];
      } else {
        QuietFed(s, r, front, last);
      }
    }
  }

  lemma FedOnly(s: State, r: State, events: seq<R.Event>)
    requires OnlyFed(s, r, events)
    ensures r.inlets == s.inlets && r.net == s.net
  {
  }

  // ---- the sender task ----

  function JobKey(job: Job): Key {
    job.key
  }

  ghost function Packets(jobs: seq<Job>, t: nat): set<Datagram> {
    set job | job in jobs :: Datagram(t, job.data)
  }

  lemma PacketsOneMore(jobs: seq<Job>, job: Job, t: nat)
    ensures Packets(jobs + [job], t) == Packets(jobs, t) + {Datagram(t, job.data)}
  {
    assert forall j :: j in jobs + [job] <==> j in jobs || j == job;
  }

  /** `r` is `s` after the sender task has got from `a` to `b`. */
  ghost predicate OnlySent(s: State, r: State, t: nat, a: Task<Job>, b: Task<Job>) {
    && a.tried <= b.tried <= a.tried + s.sendPermits
    && r == s.(shared := b.shared, sendPermits := s.sendPermits - (b.tried - a.tried),
               net := s.net + Packets(b.sent, t))
  }

  lemma SentIsRun(c: Config, s: State, t: nat, a: Task<Job>) returns (steps: seq<Step>, r: State)
    requires t < |s.hands| && s.hands[t].Idle? && s.sendPermits > 0 && |s.shared.queue| > 0
    requires a.shared == s.shared && Packets(a.sent, t) <= s.net
    ensures CanRun(c, s, steps) && After(c, s, steps) == r && OnlySent(s, r, t, a, Attempt(a, true, JobKey))
  {
    hide CanRun, After, Packets;
    var p: State;
    steps, p := TakenIsRun(c, s, t);
    RunOneMore(c, s, steps, SendJob(t));
    RunOneMore(c, s, steps + [SendJob(t)], CacheJob(t));
    steps := steps + [SendJob(t)] + [CacheJob(t)];
    r := After(c, s, steps);
    PacketsOneMore(a.sent, s.shared.queue[0], t);
    assert r.hands == s.hands;
  }

  /** The task gets a send permit and takes the first job. */
  lemma TakenIsRun(c: Config, s: State, t: nat) returns (steps: seq<Step>, r: State)
    requires t < |s.hands| && s.hands[t].Idle? && s.sendPermits > 0 && |s.shared.queue| > 0
    ensures CanRun(c, s, steps) && After(c, s, steps) == r
    ensures r == s.(sendPermits := s.sendPermits - 1, hands := s.hands[t := Taken(s.shared.queue[0])],
                    shared := s.shared.(queue := s.shared.queue[1..]))
  {
    hide CanRun, After;
    EmptyRun(c, s);
    RunOneMore(c, s, [], AcquireSend(t));
    RunOneMore(c, s, [] + [AcquireSend(t)], TakeJob(t));
    steps := [] + [AcquireSend(t)] + [TakeJob(t)];
    r := After(c, s, steps);
    assert r.hands == s.hands[t := Taken(s.shared.queue[0])];
  }

  lemma FailedIsRun(c: Config, s: State, t: nat, a: Task<Job>) returns (steps: seq<Step>, r: State)
    requires t < |s.hands| && s.hands[t].Idle? && s.sendPermits > 0 && |s.shared.queue| > 0
    requires a.shared == s.shared && Packets(a.sent, t) <= s.net
    ensures CanRun(c, s, steps) && After(c, s, steps) == r && OnlySent(s, r, t, a, Attempt(a, false, JobKey))
  {
    hide CanRun, After, Packets;
    var p: State;
    steps, p := TakenIsRun(c, s, t);
    RunOneMore(c, s, steps, FailSend(t));
    steps := steps + [FailSend(t)];
    r := After(c, s, steps);
    assert r.hands == s.hands;
  }

  /** A sender task that is left to make its attempts does `Attempts`, one send permit for each. */
  lemma {:induction false} SendingIsRun(c: Config, s: State, t: nat, a: Task<Job>, outcomes: seq<bool>, max: nat)
    returns (steps: seq<Step>, r: State)
    requires t < |s.hands| && s.hands[t].Idle? && s.sendPermits >= |outcomes|
    requires a.shared == s.shared && Packets(a.sent, t) <= s.net
    ensures CanRun(c, s, steps) && After(c, s, steps) == r && OnlySent(s, r, t, a, Attempts(a, outcomes, max, JobKey))
    decreases |outcomes|
  {
    hide CanRun, After, Packets, Attempt;
    if |outcomes| == 0 || Stops(a, max) {
      steps, r := [], s;
      EmptyRun(c, s);
      assert s.net + Packets(a.sent, t) == s.net;
    } else {
      var first, q;
      if outcomes[0] {
        first, q := SentIsRun(c, s, t, a);
      } else {
        first, q := FailedIsRun(c, s, t, a);
      }
      var b, rest := Attempt(a, outcomes[0], JobKey), [];
      AttemptCounts(a, outcomes[0]);
      rest, r := SendingIsRun(c, q, t, b, outcomes[1..], max);
      SentOnce(b, outcomes[1..], max, t);
      RunAppend(c, s, first, rest);
      steps := first + rest;
    }
  }

  lemma AttemptCounts(a: Task<Job>, ok: bool)
    requires |a.shared.queue| > 0
    ensures Attempt(a, ok, JobKey).tried == a.tried + 1
  {
  }

  lemma {:induction false} SentOnce(a: Task<Job>, outcomes: seq<bool>, max: nat, t: nat)
    ensures Packets(a.sent, t) <= Packets(Attempts(a, outcomes, max, JobKey).sent, t)
    decreases |outcomes|
  {
    if |outcomes| > 0 && !Stops(a, max) {
      PacketsOneMore(a.sent, a.shared.queue[0], t);
      SentOnce(Attempt(a, outcomes[0], JobKey), outcomes[1..], max, t);
    }
  }
}
