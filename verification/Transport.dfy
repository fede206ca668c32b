/** The chunk transport between the two hosts as one system of steps: readers, sender tasks, the
    network, packet receivers, writers, and the way of confirmations back to the requeue and confirmation tasks. */
module Transport {
  import opened Bytes
  import opened Chunks
  import opened ReaderSpec
  import opened WriterSpec
  import opened Confirmations
  import opened SenderState

  const MAX_SEND_PERMITS := 1000

  /** `tasks` is the number of pairs of connected sockets, each with a sender task on one host and a packet
      receiver on the other. */
  datatype Config = Config(files: map<nat, File>, jobLimit: nat, tasks: nat)

  ghost predicate ValidConfig(c: Config) {
    && c.jobLimit >= 1 && c.tasks >= 1
    && forall id | id in c.files :: id < U32_LIMIT && c.files[id].Valid()
  }

  datatype Reader = Reader(index: nat, packet: Packet, exited: bool)

  /** A sender task: without a send permit, waiting for a job with one, holding a job it has not sent
      yet, or holding a job that is sent and not cached yet. */
  datatype Hand = Idle | Ready | Taken(job: Job) | Sent(job: Job)

  datatype Mode = Writing | Failed | Closed

  /** A writer with its queue. The queue is removed when the writer is done; a writer that fails leaves it
      behind, with nobody to take anything out. */
  datatype Slot = Slot(w: Writer, queue: seq<Arrival>, mode: Mode)

  /** A packet receiver: waiting at its socket, or waiting for room in the queue of its packet's file. */
  datatype Inlet = Vacant | Holding(packet: Packet)

  datatype Datagram = Datagram(socket: nat, packet: Packet)

  /** `holders` are the readers that hold a read permit; `net` is every packet ever sent, any of which
      the network may deliver at its socket any number of times, in any order, or never. */
  datatype State = State(readers: map<nat, Reader>, holders: set<nat>, shared: Shared<Job>, sendPermits: nat,
                         hands: seq<Hand>, net: set<Datagram>, inlets: seq<Inlet>, slots: map<nat, Slot>,
                         conf: Pipeline)

  ghost function Init(c: Config): State {
    State(map[], {}, Shared([], map[], {}, c.jobLimit, 0), 0, seq(c.tasks, _ => Idle), {}, seq(c.tasks, _ => Vacant),
          map[], EMPTY)
  }

  datatype Step =
    | StartReader(id: nat) | StartWriter(id: nat)
    | AcquireRead(id: nat) | ReadChunk(id: nat) | FailReader(id: nat)
    | RefillSend | AcquireSend(task: nat) | TakeJob(task: nat)
    | SendJob(task: nat) | FailSend(task: nat) | CacheJob(task: nat)
    | Deliver(datagram: Datagram) | Release(socket: nat)
    | WriteArrival(id: nat) | CloseWriter(id: nat) | FailWriter(id: nat, taken: bool)
    | Expire(key: Key)
    | ForwardOne | SendBatch | ReceiveBatch | HandleOne(key: Key)

  ghost predicate Enabled(c: Config, s: State, e: Step) {
    match e
    case StartReader(id) => id in c.files && id !in s.readers
    case StartWriter(id) => id in c.files && id !in s.slots
    case AcquireRead(id) => id in s.readers && !s.readers[id].exited && id !in s.holders && s.shared.permits > 0
    case ReadChunk(id) =>
      id in s.holders && id in s.readers && id in c.files && s.readers[id].index <= c.files[id].Size()
    case FailReader(id) => CanFail(c, s, id)
    case RefillSend => true
    case AcquireSend(t) => t < |s.hands| && s.hands[t].Idle? && s.sendPermits > 0
    case TakeJob(t) => t < |s.hands| && s.hands[t].Ready? && |s.shared.queue| > 0
    case SendJob(t) => t < |s.hands| && s.hands[t].Taken?
    case FailSend(t) => t < |s.hands| && s.hands[t].Taken?
    case CacheJob(t) => t < |s.hands| && s.hands[t].Sent?
    case Deliver(d) => d in s.net && d.socket < |s.inlets| && s.inlets[d.socket].Vacant?
    case Release(t) => t < |s.inlets| && s.inlets[t].Holding? && !Full(s, ParseKey(s.inlets[t].packet).id)
    case WriteArrival(id) =>
      AtWork(s, id) && id in c.files && s.slots[id].w.position < c.files[id].Size() && |s.slots[id].queue| > 0
    case CloseWriter(id) => AtWork(s, id) && id in c.files && s.slots[id].w.position == c.files[id].Size()
    case FailWriter(id, taken) => AtWork(s, id) && (taken ==> |s.slots[id].queue| > 0)
    case Expire(k) => k in s.shared.cache
    case ForwardOne => |s.conf.channel| > 0
    case SendBatch => true
    case ReceiveBatch => |s.conf.wire| > 0 && s.conf.current == multiset{}
    case HandleOne(k) => k in s.conf.current
  }

  /** A reader fails when its file cannot be opened or read: before its first read, or at one. */
  predicate CanFail(c: Config, s: State, id: nat) {
    && id in s.readers && !s.readers[id].exited
    && (id in s.holders || (id in c.files && s.readers[id].index == c.files[id].start))
  }

  /** The receiving host has a queue for the file. */
  predicate Listening(s: State, id: nat) {
    id in s.slots && !s.slots[id].mode.Closed?
  }

  predicate AtWork(s: State, id: nat) {
    id in s.slots && s.slots[id].mode.Writing?
  }

  predicate Full(s: State, id: nat) {
    Listening(s, id) && |s.slots[id].queue| >= WRITER_QUEUE_SIZE
  }

  /** At the end of the file the permit goes back; otherwise the next job is queued and the permit used up. */
  ghost function AfterRead(c: Config, s: State, id: nat): State
    requires Enabled(c, s, ReadChunk(id))
  {
    var f, r := c.files[id], s.readers[id];
    if r.index == f.Size() then
      s.(readers := s.readers[id := r.(exited := true)], holders := s.holders - {id},
         shared := s.shared.(permits := s.shared.permits + 1))
    else
      var packet := FillBuffer(f, r.index, r.packet);
      s.(readers := s.readers[id := r.(index := r.index + ChunkLength(f.Size(), r.index), packet := packet)],
         holders := s.holders - {id},
         shared := s.shared.(queue := s.shared.queue + [Job(packet, Key(id, r.index))]))
  }

  /** A reader that fails just ends; the permit it may hold goes back. */
  ghost function AfterReadError(s: State, id: nat): State
    requires id in s.readers
  {
    s.(readers := s.readers[id := s.readers[id].(exited := true)], holders := s.holders - {id},
       shared := s.shared.(permits := s.shared.permits + if id in s.holders then 1 else 0))
  }

  /** The packet is cut into id, index and data and queued for the writer of the id, if there is a queue. */
  ghost function Queued(s: State, p: Packet): State {
    var k := ParseKey(p);
    if Listening(s, k.id) then
      var slot := s.slots[k.id];
      s.(slots := s.slots[k.id := slot.(queue := slot.queue + [Arrival(p[HEADER_SIZE..], k.index)])])
    else s
  }

  /** With a full queue the receiver holds on to the packet and takes in nothing more. */
  ghost function AfterDelivery(s: State, d: Datagram): State
    requires d.socket < |s.inlets|
  {
    if Full(s, ParseKey(d.packet).id) then s.(inlets := s.inlets[d.socket := Holding(d.packet)])
    else Queued(s, d.packet)
  }

  ghost function AfterWrite(c: Config, s: State, id: nat): State
    requires Enabled(c, s, WriteArrival(id))
  {
    var f, slot := c.files[id], s.slots[id];
    var a := slot.queue[0];
    s.(slots := s.slots[id := slot.(w := Arrive(f.Size(), f.ks, slot.w, a), queue := slot.queue[1..])],
       conf := if a.index < slot.w.position then s.conf else Issue(s.conf, Key(id, a.index)))
  }

  ghost function Apply(c: Config, s: State, e: Step): State
    requires Enabled(c, s, e)
  {
    match e
    case StartReader(id) => s.(readers := s.readers[id := Reader(c.files[id].start, FirstBuffer(id), false)])
    case StartWriter(id) =>
      var f := c.files[id];
      var existing := if f.start <= f.Size() then f.source[..f.start] else [];
      s.(slots := s.slots[id := Slot(Begin(f.start, existing), [], Writing)])
    case AcquireRead(id) => s.(holders := s.holders + {id}, shared := s.shared.(permits := s.shared.permits - 1))
    case ReadChunk(id) => AfterRead(c, s, id)
    case FailReader(id) => AfterReadError(s, id)
    case RefillSend => if s.sendPermits < MAX_SEND_PERMITS then s.(sendPermits := s.sendPermits + 1) else s
    case AcquireSend(t) => s.(sendPermits := s.sendPermits - 1, hands := s.hands[t := Ready])
    case TakeJob(t) =>
      s.(hands := s.hands[t := Taken(s.shared.queue[0])], shared := s.shared.(queue := s.shared.queue[1..]))
    case SendJob(t) =>
      s.(hands := s.hands[t := Sent(s.hands[t].job)], net := s.net + {Datagram(t, s.hands[t].job.data)})
    case FailSend(t) =>
      s.(hands := s.hands[t := Idle], shared := s.shared.(queue := s.shared.queue + [s.hands[t].job]))
    case CacheJob(t) =>
      var job := s.hands[t].job;
      s.(hands := s.hands[t := Idle], shared := s.shared.(cache := s.shared.cache[job.key := job]))
    case Deliver(d) => AfterDelivery(s, d)
    case Release(t) => Queued(s.(inlets := s.inlets[t := Vacant]), s.inlets[t].packet)
    case WriteArrival(id) => AfterWrite(c, s, id)
    case CloseWriter(id) => s.(slots := s.slots[id := s.slots[id].(queue := [], mode := Closed)])
    case FailWriter(id, taken) =>
      var slot := s.slots[id];
      s.(slots := s.slots[id := slot.(queue := if taken then slot.queue[1..] else slot.queue, mode := Failed)])
    case Expire(k) => s.(shared := Requeue(s.shared, k))
    case ForwardOne => s.(conf := Forward(s.conf))
    case SendBatch => s.(conf := Tick(s.conf))
    case ReceiveBatch => s.(conf := Receive(s.conf))
    case HandleOne(k) => s.(conf := Handle(s.conf, k), shared := Confirm(s.shared, k))
  }

  // ---- runs ----

  ghost predicate CanRun(c: Config, s: State, steps: seq<Step>)
    decreases |steps|
  {
    |steps| == 0 || (Enabled(c, s, steps[0]) && CanRun(c, Apply(c, s, steps[0]), steps[1..]))
  }

  ghost function After(c: Config, s: State, steps: seq<Step>): State
    requires CanRun(c, s, steps)
    decreases |steps|
  {
    if |steps| == 0 then s else After(c, Apply(c, s, steps[0]), steps[1..])
  }

  lemma {:induction false} RunAppend(c: Config, s: State, a: seq<Step>, b: seq<Step>)
    requires CanRun(c, s, a) && CanRun(c, After(c, s, a), b)
    ensures CanRun(c, s, a + b) && After(c, s, a + b) == After(c, After(c, s, a), b)
    decreases |a|
  {
    hide Enabled, Apply;
    if |a| == 0 {
      assert a + b == b;
    } else {
      assert (a + b)[1..] == a[1..] + b;
      RunAppend(c, Apply(c, s, a[0]), a[1..], b);
    }
  }

  // ---- what steps leave alone ----

  predicate MovesReaders(e: Step) {
    e.StartReader? || e.AcquireRead? || e.ReadChunk? || e.FailReader?
  }

  predicate MovesHands(e: Step) {
    e.AcquireSend? || e.TakeJob? || e.SendJob? || e.FailSend? || e.CacheJob?
  }

  predicate MovesWriters(e: Step) {
    e.StartWriter? || e.WriteArrival? || e.CloseWriter? || e.FailWriter?
  }

  predicate Delivers(e: Step) {
    e.Deliver? || e.Release?
  }

  /** At most the queues of writers have changed. */
  ghost predicate QueuesMoved(slots: map<nat, Slot>, more: map<nat, Slot>) {
    more.Keys == slots.Keys && forall id | id in slots :: more[id].w == slots[id].w && more[id].mode == slots[id].mode
  }

  lemma QueuedMoves(s: State, p: Packet)
    ensures var r := Queued(s, p); r == s.(slots := r.slots) && QueuesMoved(s.slots, r.slots)
  {
    hide ParseKey;
  }

  lemma DeliversMoves(c: Config, s: State, e: Step)
    requires Enabled(c, s, e) && Delivers(e)
    ensures var r := Apply(c, s, e); r == s.(slots := r.slots, inlets := r.inlets) && QueuesMoved(s.slots, r.slots)
  {
    hide Queued, Full, QueuesMoved;
    if e.Release? {
      QueuedMoves(s.(inlets := s.inlets[e.socket := Vacant]), s.inlets[e.socket].packet);
    } else if Full(s, ParseKey(e.datagram.packet).id) {
      SameQueues(s.slots);
    } else {
      QueuedMoves(s, e.datagram.packet);
    }
  }

  lemma SameQueues(slots: map<nat, Slot>)
    ensures QueuesMoved(slots, slots)
  {
  }

  lemma ReadersStay(c: Config, s: State, e: Step)
    requires Enabled(c, s, e) && !MovesReaders(e)
    ensures Apply(c, s, e).readers == s.readers && Apply(c, s, e).holders == s.holders
  {
    hide Queued, Full, Arrive, Issue, Requeue, Forward, Tick, Receive, Handle, Confirm;
    if Delivers(e) {
      DeliversMoves(c, s, e);
    }
  }

  lemma WritersStay(c: Config, s: State, e: Step)
    requires Enabled(c, s, e) && !MovesWriters(e) && !Delivers(e)
    ensures Apply(c, s, e).slots == s.slots && Apply(c, s, e).inlets == s.inlets
  {
    hide FillBuffer, FirstBuffer, Requeue, Forward, Tick, Receive, Handle, Confirm;
  }

  lemma HandsStay(c: Config, s: State, e: Step)
    requires Enabled(c, s, e) && !MovesHands(e) && !e.RefillSend?
    ensures Apply(c, s, e).hands == s.hands && Apply(c, s, e).sendPermits == s.sendPermits
  {
    hide Queued, Full, Arrive, Issue, FillBuffer, FirstBuffer, Requeue, Forward, Tick, Receive, Handle, Confirm;
    if Delivers(e) {
      DeliversMoves(c, s, e);
    }
  }

  // ---- what is where ----

  function QueueKeys(queue: seq<Job>): multiset<Key> {
    if |queue| == 0 then multiset{} else multiset{queue[0].key} + QueueKeys(queue[1..])
  }

  function HandKey(h: Hand): multiset<Key> {
    if h.Taken? || h.Sent? then multiset{h.job.key} else multiset{}
  }

  function HandKeys(hands: seq<Hand>): multiset<Key> {
    if |hands| == 0 then multiset{} else HandKey(hands[0]) + HandKeys(hands[1..])
  }

  /** The jobs the sending host still has: in the queue, in the hand of a task, or in the cache. */
  ghost function LiveKeys(queue: seq<Job>, hands: seq<Hand>, cache: map<Key, Job>): multiset<Key> {
    QueueKeys(queue) + HandKeys(hands) + multiset(cache.Keys)
  }

  /** The chunks readers have cut so far. */
  ghost function ProducedKeys(c: Config, readers: map<nat, Reader>): set<Key> {
    set id, i | id in readers && id in c.files && 0 <= i < readers[id].index
                && IsChunk(c.files[id].start, c.files[id].Size(), i) :: Key(id, i)
  }

  /** The chunks writers have written or cached so far. */
  ghost function AcceptedKeys(c: Config, slots: map<nat, Slot>): set<Key> {
    set id, i | id in slots && id in c.files && 0 <= i < c.files[id].Size()
                && Accepted(c.files[id], slots[id].w, i) :: Key(id, i)
  }

  lemma {:induction false} QueueKeysAppend(queue: seq<Job>, job: Job)
    ensures QueueKeys(queue + [job]) == QueueKeys(queue) + multiset{job.key}
  {
    if |queue| == 0 {
      assert (queue + [job])[1..] == [];
    } else {
      assert (queue + [job])[1..] == queue[1..] + [job];
      QueueKeysAppend(queue[1..], job);
    }
  }

  lemma SumsAgree(a: multiset<Key>, b: multiset<Key>, c: multiset<Key>, d: multiset<Key>, e: multiset<Key>)
    requires b + c == d + e
    ensures (a + b) + c == (a + d) + e
  {
    assert (a + b) + c == a + (b + c);
  }

  lemma {:induction false} HandKeysUpdate(hands: seq<Hand>, t: nat, h: Hand)
    requires t < |hands|
    ensures HandKeys(hands[t := h]) + HandKey(hands[t]) == HandKeys(hands) + HandKey(h)
  {
    var tail := hands[1..];
    if t == 0 {
      assert hands[0 := h][1..] == tail;
    } else {
      HandKeysUpdate(tail, t - 1, h);
      assert hands[t := h][1..] == tail[t - 1 := h];
      SumsAgree(HandKey(hands[0]), HandKeys(tail[t - 1 := h]), HandKey(hands[t]), HandKeys(tail), HandKey(h));
    }
  }

  lemma CacheKeysInsert(cache: map<Key, Job>, k: Key, job: Job)
    requires k !in cache
    ensures multiset(cache[k := job].Keys) == multiset(cache.Keys) + multiset{k}
  {
    assert cache[k := job].Keys == cache.Keys + {k};
  }

  lemma CacheKeysRemove(cache: map<Key, Job>, k: Key)
    requires k in cache
    ensures multiset((cache - {k}).Keys) == multiset(cache.Keys) - multiset{k}
  {
    assert (cache - {k}).Keys == cache.Keys - {k};
  }
}
