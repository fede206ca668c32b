/** What failed writers and readers do: exactly when given files can still finish, with and without further
    failures. */
module TransportFailures {
  import opened Chunks
  import opened ReaderSpec
  import opened WriterSpec
  import opened Confirmations
  import opened Transport
  import opened TransportSafety
  import opened TransportTheorems
  import opened TransportFlow
  import opened TransportProgress
  import opened Ledger

  // ---- starved files stay starved ----

  /** A chunk of the file is still to be read. */
  ghost predicate ReadGap(c: Config, s: State, id: nat) {
    && id in c.files && id !in s.holders
    && (if id in s.readers then s.readers[id].index < c.files[id].Size() else c.files[id].start < c.files[id].Size())
  }

  /** Nothing that is doomed or held back is ever given back. */
  ghost predicate Grows(c: Config, s: State, r: State) {
    && (forall k | k in Doomed(c, s) :: k in Doomed(c, r))
    && (forall id | id in HeldBack(c, s) :: id in HeldBack(c, r))
  }

  /** Readers only start, writers only start, are fed or fail, and the failed ones stand still. */
  ghost predicate FailuresStand(c: Config, s: State, r: State) {
    && (forall id | id in s.readers :: id in r.readers && r.readers[id] == s.readers[id]) && r.holders == s.holders
    && ProducedKeys(c, r.readers) == ProducedKeys(c, s.readers)
    && WritersStand(s.slots, r.slots)
  }

  ghost predicate WritersStand(slots: map<nat, Slot>, more: map<nat, Slot>) {
    forall id | id in slots && slots[id].mode.Failed? ::
      id in more && more[id].mode.Failed? && more[id].w == slots[id].w
  }

  lemma StandingGrows(c: Config, s: State, r: State)
    requires FailuresStand(c, s, r)
    ensures Grows(c, s, r)
  {
    hide ProducedKeys, AcceptedKeys;
    forall k | k in Doomed(c, s)
      ensures k in Doomed(c, r)
    {
      AcceptedMeaning(c, s.slots, k);
      AcceptedMeaning(c, r.slots, k);
    }
  }

  lemma MovedStand(slots: map<nat, Slot>, more: map<nat, Slot>)
    requires QueuesMoved(slots, more)
    ensures WritersStand(slots, more)
  {
  }

  lemma OneStands(c: Config, s: State, e: Step)
    requires Enabled(c, s, e) && MovesWriters(e)
    ensures WritersStand(s.slots, Apply(c, s, e).slots)
  {
    hide Arrive, Issue;
  }

  lemma StepStands(c: Config, s: State, e: Step)
    requires ValidConfig(c) && Inv(c, s) && Enabled(c, s, e) && !e.ReadChunk? && !e.AcquireRead? && !e.FailReader?
    ensures FailuresStand(c, s, Apply(c, s, e))
  {
    hide ValidConfig, Inv, ProducedKeys, Enabled, Apply, WritersStand;
    var r := Apply(c, s, e);
    if e.StartReader? {
      StartedSame(c, s, e);
      ReadersJoin(c, s, e);
    } else {
      ReadersStay(c, s, e);
    }
    if MovesWriters(e) {
      OneStands(c, s, e);
    } else {
      if Delivers(e) {
        DeliversMoves(c, s, e);
      } else {
        WritersStay(c, s, e);
        SameQueues(s.slots);
      }
      MovedStand(s.slots, r.slots);
    }
  }

  lemma ReadersJoin(c: Config, s: State, e: Step)
    requires Enabled(c, s, e) && e.StartReader?
    ensures Apply(c, s, e).holders == s.holders
    ensures forall id | id in s.readers :: id in Apply(c, s, e).readers && Apply(c, s, e).readers[id] == s.readers[id]
  {
    hide FirstBuffer;
  }

  /** A starved reader that holds a permit turns it into a doomed job. */
  lemma StarvedRead(c: Config, s: State, id: nat)
    requires ValidConfig(c) && Inv(c, s) && id in HeldBack(c, s) && Enabled(c, s, ReadChunk(id))
    ensures var r := Apply(c, s, ReadChunk(id));
            |Doomed(c, r)| >= |Doomed(c, s)| + 1 && |HeldBack(c, r)| >= |HeldBack(c, s)| - 1
  {
    hide Inv, ProducedKeys, AcceptedKeys, FillBuffer, Doomed, HeldBack;
    var r := Apply(c, s, ReadChunk(id));
    var k := Key(id, s.readers[id].index);
    StarvedReadSets(c, s, id);
    SubsetSize(Doomed(c, s) + {k}, Doomed(c, r));
    SubsetSize(HeldBack(c, s) - {id}, HeldBack(c, r));
  }

  lemma StarvedReadSets(c: Config, s: State, id: nat)
    requires ValidConfig(c) && Inv(c, s) && id in HeldBack(c, s) && Enabled(c, s, ReadChunk(id))
    ensures var r, k := Apply(c, s, ReadChunk(id)), Key(id, s.readers[id].index);
            && k !in Doomed(c, s) && Doomed(c, s) + {k} <= Doomed(c, r)
            && HeldBack(c, s) - {id} <= HeldBack(c, r)
  {
    hide Inv, ProducedKeys, AcceptedKeys, FillBuffer;
    ReadProduces(c, s, id);
    AcceptedProduced(c, s, Key(id, s.readers[id].index));
  }

  lemma ReadProduces(c: Config, s: State, id: nat)
    requires ValidConfig(c) && Inv(c, s) && Enabled(c, s, ReadChunk(id)) && s.readers[id].index < c.files[id].Size()
    ensures var r, k := Apply(c, s, ReadChunk(id)), Key(id, s.readers[id].index);
            k !in ProducedKeys(c, s.readers) && ProducedKeys(c, r.readers) == ProducedKeys(c, s.readers) + {k}
  {
    hide Balanced, Conserved, NetOk, InletsOk, SlotsOk, CacheOk, HandsOk, QueueOk, QueuesOk, Books, ProducedKeys,
         FillBuffer;
    AdvancedReader(c, s.readers, s.holders, id);
  }

  lemma AcceptedProduced(c: Config, s: State, k: Key)
    requires Inv(c, s)
    ensures k in AcceptedKeys(c, s.slots) ==> k in ProducedKeys(c, s.readers)
  {
    hide Inv, ProducedKeys, AcceptedKeys, LiveKeys, InTransit;
    InvBalanced(c, s);
  }

  lemma GrownStarved(c: Config, s: State, r: State)
    requires Starved(c, s) && Grows(c, s, r)
    ensures Starved(c, r)
  {
    hide Doomed, HeldBack;
    SubsetSize(Doomed(c, s), Doomed(c, r));
    SubsetSize(HeldBack(c, s), HeldBack(c, r));
  }

  lemma StarvedStep(c: Config, s: State, e: Step, id: nat)
    requires ValidConfig(c) && Inv(c, s) && Enabled(c, s, e) && Starved(c, s) && ReadGap(c, s, id) && !e.FailReader?
    ensures Starved(c, Apply(c, s, e)) && ReadGap(c, Apply(c, s, e), id)
  {
    hide Inv, Doomed, HeldBack, ProducedKeys, ParseKey, Arrive, Group, BatchKeys, FirstBuffer, FillBuffer, Queued, Full;
    StarvedMeans(c, s);
    if e.ReadChunk? {
      assert e.id in HeldBack(c, s);
      StarvedRead(c, s, e.id);
    } else if !e.AcquireRead? {
      StepStands(c, s, e);
      StandingGrows(c, s, Apply(c, s, e));
      GrownStarved(c, s, Apply(c, s, e));
      GapStays(c, s, e, id);
    }
  }

  lemma GapStays(c: Config, s: State, e: Step, id: nat)
    requires Enabled(c, s, e) && !(e.ReadChunk? && e.id == id) && !(e.AcquireRead? && e.id == id) && ReadGap(c, s, id)
    ensures ReadGap(c, Apply(c, s, e), id)
  {
    hide FirstBuffer, FillBuffer, Queued, Full, Arrive, Issue;
    if !MovesReaders(e) {
      hide Apply, Enabled;
      ReadersStay(c, s, e);
    }
  }

  lemma {:induction false} StarvedRun(c: Config, s: State, steps: seq<Step>, id: nat)
    requires ValidConfig(c) && Inv(c, s) && CanRun(c, s, steps) && Starved(c, s) && ReadGap(c, s, id)
    requires ReadersHold(steps)
    ensures Inv(c, After(c, s, steps)) && ReadGap(c, After(c, s, steps), id)
    decreases |steps|
  {
    hide Inv, ValidConfig, Enabled, Apply, Starved, ReadGap;
    if |steps| > 0 {
      StepInv(c, s, steps[0]);
      StarvedStep(c, s, steps[0], id);
      assert ReadersHold(steps[1..]) by {
        assert forall i | 0 <= i < |steps| - 1 :: steps[1..][i] == steps[i + 1];
      }
      StarvedRun(c, Apply(c, s, steps[0]), steps[1..], id);
    }
  }

  // ---- the queue of a failed writer ----

  /** Its writer has failed, and its queue begins with these arrivals. */
  ghost predicate LeftBehind(s: State, id: nat, arrivals: seq<Arrival>) {
    id in s.slots && s.slots[id].mode.Failed? && arrivals <= s.slots[id].queue
  }

  lemma StaysBehind(c: Config, s: State, e: Step, id: nat, arrivals: seq<Arrival>)
    requires Enabled(c, s, e) && LeftBehind(s, id, arrivals)
    ensures LeftBehind(Apply(c, s, e), id, arrivals)
  {
    hide Arrive, Issue, ParseKey;
    if !MovesWriters(e) && !Delivers(e) {
      hide Apply, Enabled;
      WritersStay(c, s, e);
    }
  }

  lemma {:induction false} RunStaysBehind(c: Config, s: State, steps: seq<Step>, id: nat, arrivals: seq<Arrival>)
    requires CanRun(c, s, steps) && LeftBehind(s, id, arrivals)
    ensures LeftBehind(After(c, s, steps), id, arrivals)
    decreases |steps|
  {
    hide Enabled, Apply, LeftBehind;
    if |steps| > 0 {
      StaysBehind(c, s, steps[0], id, arrivals);
      RunStaysBehind(c, Apply(c, s, steps[0]), steps[1..], id, arrivals);
    }
  }

  /** What was queued for a writer that fails, but for the arrival it was handling, stays queued for good. */
  lemma QueueStays(c: Config, s: State, id: nat, taken: bool, rest: seq<Step>)
    requires Enabled(c, s, FailWriter(id, taken)) && CanRun(c, Apply(c, s, FailWriter(id, taken)), rest)
    ensures var r := After(c, Apply(c, s, FailWriter(id, taken)), rest);
            LeftBehind(r, id, if taken then s.slots[id].queue[1..] else s.slots[id].queue)
  {
    hide CanRun, After;
    var arrivals := if taken then s.slots[id].queue[1..] else s.slots[id].queue;
    RunStaysBehind(c, Apply(c, s, FailWriter(id, taken)), rest, id, arrivals);
  }

  // ---- without a doomed job to spare, failing readers do not help ----

  lemma DrainedStarves(c: Config, s: State)
    requires ValidConfig(c) && Inv(c, s) && Drained(c, s)
    ensures Starved(c, s) && s.shared.permits == 0 && s.holders == {}
  {
    hide Inv, Doomed, HeldBack;
    StarvedMeans(c, s);
  }

  lemma ReadErrorDooms(c: Config, s: State, id: nat)
    requires Enabled(c, s, FailReader(id))
    ensures Doomed(c, Apply(c, s, FailReader(id))) == Doomed(c, s)
  {
    hide AcceptedKeys, ProducedKeys;
    var r := Apply(c, s, FailReader(id));
    forall k: Key
      ensures k in ProducedKeys(c, r.readers) <==> k in ProducedKeys(c, s.readers)
    {
      ProducedMeaning(c, s.readers, k);
      ProducedMeaning(c, r.readers, k);
    }
  }

  lemma DrainedStep(c: Config, s: State, e: Step, id: nat)
    requires ValidConfig(c) && Inv(c, s) && Enabled(c, s, e) && Drained(c, s) && ReadGap(c, s, id)
    ensures Drained(c, Apply(c, s, e)) && ReadGap(c, Apply(c, s, e), id)
  {
    hide Inv, Doomed, Apply, ReadGap;
    DrainedStarves(c, s);
    GapStays(c, s, e, id);
    if e.FailReader? {
      ReadErrorDooms(c, s, e.id);
    } else {
      StepStands(c, s, e);
      StandingGrows(c, s, Apply(c, s, e));
      SubsetSize(Doomed(c, s), Doomed(c, Apply(c, s, e)));
    }
  }

  lemma {:induction false} DrainedRun(c: Config, s: State, steps: seq<Step>, id: nat)
    requires ValidConfig(c) && Inv(c, s) && CanRun(c, s, steps) && Drained(c, s) && ReadGap(c, s, id)
    ensures Inv(c, After(c, s, steps)) && ReadGap(c, After(c, s, steps), id)
    decreases |steps|
  {
    hide Inv, ValidConfig, Enabled, Apply, Drained, ReadGap;
    if |steps| > 0 {
      StepInv(c, s, steps[0]);
      DrainedStep(c, s, steps[0], id);
      DrainedRun(c, Apply(c, s, steps[0]), steps[1..], id);
    }
  }

  // ---- a file whose reader has failed stays as it is ----

  lemma CutIsGap(c: Config, s: State, id: nat)
    requires Inv(c, s) && id in CutShort(c, s.readers)
    ensures ReadGap(c, s, id)
  {
    hide Inv;
    ReaderFacts(c, s, id);
  }

  lemma CutStays(c: Config, s: State, e: Step, id: nat)
    requires ValidConfig(c) && Inv(c, s) && Enabled(c, s, e) && id in CutShort(c, s.readers)
    ensures id in CutShort(c, Apply(c, s, e).readers)
  {
    hide ValidConfig, Inv, ReaderOk, FirstBuffer, FillBuffer, Queued, Full, Arrive, Issue;
    ReaderFacts(c, s, id);
    if !MovesReaders(e) {
      hide Apply, Enabled;
      ReadersStay(c, s, e);
    }
  }

  lemma {:induction false} CutRun(c: Config, s: State, steps: seq<Step>, id: nat)
    requires ValidConfig(c) && Inv(c, s) && CanRun(c, s, steps) && id in CutShort(c, s.readers)
    ensures Inv(c, After(c, s, steps)) && id in CutShort(c, After(c, s, steps).readers)
    decreases |steps|
  {
    hide Inv, ValidConfig, Enabled, Apply, CutShort;
    if |steps| > 0 {
      StepInv(c, s, steps[0]);
      CutStays(c, s, steps[0], id);
      CutRun(c, Apply(c, s, steps[0]), steps[1..], id);
    }
  }

  /** A file whose reader failed before its end is never done, whatever happens. */
  lemma CutNeverDone(c: Config, s: State, steps: seq<Step>, id: nat)
    requires ValidConfig(c) && Inv(c, s) && CanRun(c, s, steps) && id in CutShort(c, s.readers)
    ensures !Done(After(c, s, steps), id)
  {
    hide Inv, ValidConfig, CanRun, After, CutShort, Done, ReadGap;
    CutRun(c, s, steps, id);
    CutIsGap(c, After(c, s, steps), id);
    GapNotDone(c, After(c, s, steps), id);
  }

  lemma GapNotDone(c: Config, s: State, id: nat)
    requires ValidConfig(c) && Inv(c, s) && ReadGap(c, s, id)
    ensures !Done(s, id)
  {
    hide Inv, ProducedKeys, AcceptedKeys, WriterInv;
    if Done(s, id) {
      SlotFacts(c, s, id);
      if id in s.readers {
        ReaderFacts(c, s, id);
      }
      var k := Key(id, if id in s.readers then s.readers[id].index else c.files[id].start);
      AcceptedMeaning(c, s.slots, k);
      AcceptedProduced(c, s, k);
      ProducedMeaning(c, s.readers, k);
    }
  }

  // ---- blocked receivers stay blocked ----

  ghost predicate ArrivalGap(c: Config, s: State, id: nat, i: nat) {
    id in c.files && IsChunk(c.files[id].start, c.files[id].Size(), i) && !ChunkArrived(c, s, id, i)
  }

  lemma SlotsBlocked(s: State, r: State)
    requires Blocked(s) && r.inlets == s.inlets
    requires forall id | id in FailedIds(s.slots) :: id in r.slots && r.slots[id] == s.slots[id]
    ensures Blocked(r)
  {
    hide ParseKey;
    forall t | 0 <= t < |r.inlets|
      ensures Stuck(r, t)
    {
      assert Stuck(s, t);
    }
  }

  lemma BlockedNoDelivery(c: Config, s: State, e: Step)
    requires Blocked(s) && Enabled(c, s, e)
    ensures !e.Deliver? && !e.Release?
  {
    hide ParseKey, Blocked;
    if e.Deliver? {
      StuckAt(s, e.datagram.socket);
    } else if e.Release? {
      StuckAt(s, e.socket);
    }
  }

  lemma StuckAt(s: State, t: nat)
    requires Blocked(s) && t < |s.inlets|
    ensures s.inlets[t].Holding? && Full(s, ParseKey(s.inlets[t].packet).id)
  {
    hide ParseKey, Full;
    assert Stuck(s, t);
  }

  /** What a blocked step does to the slots. */
  ghost predicate NothingArrives(c: Config, s: State, r: State) {
    && r.inlets == s.inlets
    && (forall id | id in FailedIds(s.slots) :: id in r.slots && r.slots[id] == s.slots[id])
    && forall id, i | ChunkArrived(c, r, id, i) && IsChunk(c.files[id].start, c.files[id].Size(), i) ::
         ChunkArrived(c, s, id, i)
  }

  lemma SlotArrives(c: Config, s: State, r: State, j: nat)
    requires r.slots.Keys == s.slots.Keys && j in s.slots
    requires forall id | id in s.slots && id != j :: r.slots[id] == s.slots[id]
    requires j in c.files ==> forall i | Accepted(c.files[j], r.slots[j].w, i) || QueuedAt(r.slots[j].queue, i) ::
                                Accepted(c.files[j], s.slots[j].w, i) || QueuedAt(s.slots[j].queue, i)
    ensures forall id, i | ChunkArrived(c, r, id, i) :: ChunkArrived(c, s, id, i)
  {
    hide Accepted, QueuedAt;
  }

  lemma WriteNothingArrives(c: Config, s: State, j: nat)
    requires Inv(c, s) && Enabled(c, s, WriteArrival(j))
    ensures NothingArrives(c, s, Apply(c, s, WriteArrival(j)))
  {
    hide Inv, ProducedKeys, AcceptedKeys, WriterInv, Arrive, ParseKey, Issue, Accepted;
    SlotFacts(c, s, j);
    var f, slot := c.files[j], s.slots[j];
    var a := slot.queue[0];
    ArriveKeepsInv(f, slot.w, a);
    var r := Apply(c, s, WriteArrival(j));
    TailQueued(slot.queue);
    SlotArrives(c, s, r, j);
  }

  lemma TailQueued(queue: seq<Arrival>)
    requires |queue| > 0
    ensures QueuedAt(queue, queue[0].index)
    ensures forall i | QueuedAt(queue[1..], i) :: QueuedAt(queue, i)
  {
    forall i | QueuedAt(queue[1..], i)
      ensures QueuedAt(queue, i)
    {
      var j :| 0 <= j < |queue[1..]| && queue[1..][j].index == i;
      assert queue[j + 1].index == i;
    }
  }

  lemma CloseNothingArrives(c: Config, s: State, e: Step)
    requires Enabled(c, s, e) && (e.CloseWriter? || e.FailWriter?)
    ensures NothingArrives(c, s, Apply(c, s, e))
  {
    hide ParseKey, Accepted;
    if e.FailWriter? && e.taken {
      TailQueued(s.slots[e.id].queue);
    }
    SlotArrives(c, s, Apply(c, s, e), e.id);
  }

  lemma StartNothingArrives(c: Config, s: State, j: nat)
    requires ValidConfig(c) && Enabled(c, s, StartWriter(j))
    ensures NothingArrives(c, s, Apply(c, s, StartWriter(j)))
  {
    hide ParseKey;
    var r := Apply(c, s, StartWriter(j));
    assert r.slots[j].queue == [] && r.slots[j].w.cache == map[] && r.slots[j].w.position == c.files[j].start;
  }

  lemma BlockedStep(c: Config, s: State, e: Step, id: nat, i: nat)
    requires ValidConfig(c) && Inv(c, s) && Enabled(c, s, e) && Blocked(s) && ArrivalGap(c, s, id, i)
    ensures Blocked(Apply(c, s, e)) && ArrivalGap(c, Apply(c, s, e), id, i)
  {
    hide Inv, ValidConfig, Blocked, ChunkArrived, Group, BatchKeys, FirstBuffer, FillBuffer, Arrive;
    BlockedNoDelivery(c, s, e);
    var r := Apply(c, s, e);
    match e {
      case StartWriter(j) => StartNothingArrives(c, s, j);
      case WriteArrival(j) => WriteNothingArrives(c, s, j);
      case CloseWriter(_) => CloseNothingArrives(c, s, e);
      case FailWriter(_, _) => CloseNothingArrives(c, s, e);
      case _ => SameSlotsSameArrivals(c, s, r);
    }
    SlotsBlocked(s, r);
  }

  lemma SameSlotsSameArrivals(c: Config, s: State, r: State)
    requires r.slots == s.slots && r.inlets == s.inlets
    ensures NothingArrives(c, s, r)
  {
  }

  lemma {:induction false} BlockedRun(c: Config, s: State, steps: seq<Step>, id: nat, i: nat)
    requires ValidConfig(c) && Inv(c, s) && CanRun(c, s, steps) && Blocked(s) && ArrivalGap(c, s, id, i)
    ensures Inv(c, After(c, s, steps)) && ArrivalGap(c, After(c, s, steps), id, i)
    decreases |steps|
  {
    hide Inv, ValidConfig, Enabled, Apply, Blocked, ArrivalGap;
    if |steps| > 0 {
      StepInv(c, s, steps[0]);
      BlockedStep(c, s, steps[0], id, i);
      BlockedRun(c, Apply(c, s, steps[0]), steps[1..], id, i);
    }
  }

  lemma ArrivalGapNotDone(c: Config, s: State, id: nat, i: nat)
    requires Inv(c, s) && ArrivalGap(c, s, id, i)
    ensures !Done(s, id)
  {
    hide Inv, ProducedKeys, WriterInv;
    if Done(s, id) {
      SlotFacts(c, s, id);
    }
  }

  // ---- files that have arrived finish on their own ----

  ghost predicate AllDone(s: State, ids: set<nat>) {
    forall id | id in ids :: Done(s, id)
  }

  /** In a starved state a chunk that has not arrived was not even read, unless its writer failed. */
  lemma StarvedGap(c: Config, s: State, id: nat, i: nat)
    requires ValidConfig(c) && Inv(c, s) && Starved(c, s) && ArrivalGap(c, s, id, i) && id !in FailedIds(s.slots)
    ensures ReadGap(c, s, id)
  {
    hide Inv, ProducedKeys, AcceptedKeys, Live, FailedIds, Starved;
    StarvedMeans(c, s);
    var k := Key(id, i);
    AcceptedMeaning(c, s.slots, k);
    ProducedMeaning(c, s.readers, k);
    if k in ProducedKeys(c, s.readers) {
      ProducedIsLive(c, s, k);
    }
  }

  lemma ProducedIsLive(c: Config, s: State, k: Key)
    requires Inv(c, s) && k in ProducedKeys(c, s.readers) && k !in AcceptedKeys(c, s.slots)
    ensures k in Live(s)
  {
    hide Inv, ProducedKeys, AcceptedKeys, LiveKeys, InTransit;
    InvBalanced(c, s);
  }

  /** Where files do not flow, a file that has not arrived is never done, whatever happens, unless readers of
      failed writers fail as well and give back the permits they hold. */
  lemma NeverDone(c: Config, s: State, steps: seq<Step>, id: nat)
    requires ValidConfig(c) && Inv(c, s) && CanRun(c, s, steps) && id in c.files && id !in FailedIds(s.slots)
    requires !Flowing(c, s) && !Arrived(c, s, id) && (Blocked(s) || Drained(c, s) || ReadersHold(steps))
    ensures !Done(After(c, s, steps), id)
  {
    hide Inv, ValidConfig, CanRun, After, Starved, Drained, Blocked, ChunkArrived, Done, ReadGap, FailedIds;
    var i: nat :| IsChunk(c.files[id].start, c.files[id].Size(), i) && !ChunkArrived(c, s, id, i);
    if Blocked(s) {
      BlockedRun(c, s, steps, id, i);
      ArrivalGapNotDone(c, After(c, s, steps), id, i);
    } else {
      StarvedGap(c, s, id, i);
      if Drained(c, s) {
        DrainedRun(c, s, steps, id);
      } else {
        StarvedRun(c, s, steps, id);
      }
      GapNotDone(c, After(c, s, steps), id);
    }
  }

  /** A writer at work whose chunks have all arrived finishes on its own. */
  lemma FinishHere(c: Config, s: State, id: nat) returns (r: State)
    requires ValidConfig(c) && Inv(c, s) && Arrived(c, s, id) && AtWork(s, id)
    ensures Flows(c, s, r) && Inv(c, r) && Done(r, id) && r.readers == s.readers
    ensures r.slots.Keys == s.slots.Keys && OthersSame(s, r, id)
  {
    hide Inv, ValidConfig, Flows, Arrived, Kept;
    ArrivedFile(c, s, id);
    var q := EmptyWriter(c, s, id);
    EmptiedComplete(c, s, q, id);
    r := CloseOne(c, q, id);
    FlowsOn(c, s, q, r);
    KeptSizes(c, s, q);
    KeptSizes(c, q, r);
  }

  /** A file whose chunks have all arrived finishes on its own. */
  lemma FinishArrived(c: Config, s: State, id: nat) returns (r: State)
    requires ValidConfig(c) && Inv(c, s) && Arrived(c, s, id) && id !in FailedIds(s.slots)
    ensures Leads(c, s, r) && Inv(c, r) && Done(r, id)
    ensures forall j | j in s.slots && j != id :: j in r.slots && r.slots[j] == s.slots[j]
    ensures forall j | j in r.slots :: j in s.slots || j == id
  {
    hide Inv, ValidConfig, Leads, Flows, Arrived;
    ArrivedFile(c, s, id);
    var p := s;
    FlowsNowhere(c, s);
    FlowsLeads(c, s, s);
    if id !in s.slots {
      LeadsStep(c, s, StartWriter(id));
      p := Apply(c, s, StartWriter(id));
      StartedArrived(c, s, p, id);
    }
    r := p;
    if !Done(p, id) {
      r := FinishHere(c, p, id);
      FlowsLeads(c, p, r);
      LeadsOn(c, s, p, r);
      assert forall j | j in r.slots :: j in p.slots.Keys;
    }
  }

  lemma ArrivedFile(c: Config, s: State, id: nat)
    requires Arrived(c, s, id)
    ensures id in c.files
  {
  }

  lemma StartedArrived(c: Config, s: State, p: State, id: nat)
    requires Arrived(c, s, id) && id !in s.slots && id in p.slots
    ensures Arrived(c, p, id)
  {
  }

  lemma EmptiedComplete(c: Config, p: State, q: State, id: nat)
    requires Inv(c, q) && Arrived(c, p, id) && AtWork(p, id) && AtWork(q, id) && Kept(c, p, q)
    requires q.slots[id].w.position == c.files[id].Size()
             || forall a | a in p.slots[id].queue :: Key(id, a.index) in AcceptedKeys(c, q.slots)
    ensures q.slots[id].w.position == c.files[id].Size()
  {
    hide Inv, AcceptedKeys, ProducedKeys, WriterInv;
    SlotFacts(c, q, id);
    FileFacts(c, id, q.slots[id]);
    var i := q.slots[id].w.position;
    if i < c.files[id].Size() {
      assert ChunkArrived(c, p, id, i);
      AcceptedMeaning(c, p.slots, Key(id, i));
      AcceptedMeaning(c, q.slots, Key(id, i));
    }
  }

  lemma ArrivedElsewhere(c: Config, s: State, r: State, id: nat)
    requires Arrived(c, s, id) && (id in s.slots ==> id in r.slots && r.slots[id] == s.slots[id])
    ensures Arrived(c, r, id)
  {
    forall i: nat | IsChunk(c.files[id].start, c.files[id].Size(), i)
      ensures ChunkArrived(c, r, id, i)
    {
      assert ChunkArrived(c, s, id, i);
    }
  }

  lemma {:induction false} FinishAllArrived(c: Config, s: State, ids: set<nat>) returns (r: State)
    requires ValidConfig(c) && Inv(c, s) && ids !! FailedIds(s.slots) && forall id | id in ids :: Arrived(c, s, id)
    ensures Leads(c, s, r) && Inv(c, r) && AllDone(r, ids)
    ensures forall id | Done(s, id) :: Done(r, id)
    decreases ids
  {
    hide Inv, ValidConfig, Leads, Arrived;
    if ids == {} {
      FlowsNowhere(c, s);
      FlowsLeads(c, s, s);
      r := s;
    } else {
      var id :| id in ids;
      var q := FinishArrived(c, s, id);
      forall j | j in ids - {id}
        ensures Arrived(c, q, j) && j !in FailedIds(q.slots)
      {
        ArrivedElsewhere(c, s, q, j);
      }
      r := FinishAllArrived(c, q, ids - {id});
      LeadsOn(c, s, q, r);
    }
  }

  // ---- readers that fail can give permits back ----

  lemma Released(c: Config, s: State, id: nat)
    requires ValidConfig(c) && Inv(c, s) && id in HeldBack(c, s)
    ensures Enabled(c, s, FailReader(id))
    ensures var r := Apply(c, s, FailReader(id));
            && Inv(c, r) && HeldBack(c, r) == HeldBack(c, s) - {id} && Doomed(c, r) == Doomed(c, s)
            && CutShort(c, r.readers) == CutShort(c, s.readers) + {id}
            && FailedIds(r.slots) == FailedIds(s.slots) && r.slots == s.slots && r.inlets == s.inlets
  {
    hide Inv, Doomed;
    ReaderFacts(c, s, id);
    assert Enabled(c, s, FailReader(id));
    ReadErrorDooms(c, s, id);
    StepInv(c, s, FailReader(id));
  }

  /** The readers that are held back fail and give their permits back. */
  lemma {:induction false} ReleaseAll(c: Config, s: State) returns (steps: seq<Step>)
    requires ValidConfig(c) && Inv(c, s)
    ensures CanRun(c, s, steps)
    ensures var r := After(c, s, steps);
            && Inv(c, r) && HeldBack(c, r) == {} && Doomed(c, r) == Doomed(c, s)
            && CutShort(c, r.readers) <= CutShort(c, s.readers) + FailedIds(s.slots)
            && r.slots == s.slots && r.inlets == s.inlets
    decreases HeldBack(c, s)
  {
    hide Inv, ValidConfig, Enabled, Apply, HeldBack, Doomed, CutShort, FailedIds;
    if HeldBack(c, s) == {} {
      steps := [];
    } else {
      var id :| id in HeldBack(c, s);
      HeldBackFailed(c, s, id);
      Released(c, s, id);
      OneStep(c, s, FailReader(id));
      var rest := ReleaseAll(c, Apply(c, s, FailReader(id)));
      RunAppend(c, s, [FailReader(id)], rest);
      steps := [FailReader(id)] + rest;
    }
  }

  lemma HeldBackFailed(c: Config, s: State, id: nat)
    requires id in HeldBack(c, s)
    ensures id in FailedIds(s.slots)
  {
  }

  lemma SameBlocked(s: State, r: State)
    requires r.slots == s.slots && r.inlets == s.inlets
    ensures Blocked(r) <==> Blocked(s)
  {
    hide ParseKey;
    forall t
      ensures Stuck(r, t) <==> Stuck(s, t)
    {
    }
  }

  lemma ReleasedFlows(c: Config, s: State, r: State)
    requires ValidConfig(c) && !Drained(c, s) && !Blocked(s)
    requires HeldBack(c, r) == {} && Doomed(c, r) == Doomed(c, s) && r.slots == s.slots && r.inlets == s.inlets
    ensures Flowing(c, r)
  {
    hide Doomed, HeldBack, Blocked;
    SameBlocked(s, r);
  }

  // ---- exactly when files can still finish ----

  /** All of `ids` can be finished from `s` on. */
  ghost predicate Finishable(c: Config, s: State, ids: set<nat>) {
    exists rest :: CanRun(c, s, rest) && AllDone(After(c, s, rest), ids)
  }

  /** All of `ids` can be finished from `s` on without another failure. */
  ghost predicate Healable(c: Config, s: State, ids: set<nat>) {
    exists rest :: CanRun(c, s, rest) && NoFailure(rest) && AllDone(After(c, s, rest), ids)
  }

  ghost predicate AllArrived(c: Config, s: State, ids: set<nat>) {
    forall id | id in ids :: Arrived(c, s, id)
  }

  /** From any state, files whose writers have not failed can all be finished without another failure, whatever
      the other files do, exactly when none of their readers has failed before its end, and a read permit and a
      packet receiver are left to them or their chunks have arrived. */
  lemma CanFinishIff(c: Config, steps: seq<Step>, ids: set<nat>)
    requires ValidConfig(c) && CanRun(c, Init(c), steps) && ids <= c.files.Keys
    requires ids !! FailedIds(After(c, Init(c), steps).slots)
    ensures var s := After(c, Init(c), steps);
            Healable(c, s, ids) <==> ids !! CutShort(c, s.readers) && (Flowing(c, s) || AllArrived(c, s, ids))
  {
    hide Inv, ValidConfig, CanRun, After, Flowing, Arrived, AllDone, FailedIds, CutShort;
    ReachableInv(c, steps);
    var s := After(c, Init(c), steps);
    if ids !! CutShort(c, s.readers) && (Flowing(c, s) || AllArrived(c, s, ids)) {
      var rest := FinishThem(c, s, ids);
    } else if rest :| CanRun(c, s, rest) && NoFailure(rest) && AllDone(After(c, s, rest), ids) {
      NeverAllDone(c, s, rest, ids);
    }
  }

  lemma NeverAllDone(c: Config, s: State, rest: seq<Step>, ids: set<nat>)
    requires ValidConfig(c) && Inv(c, s) && CanRun(c, s, rest) && ids <= c.files.Keys && ids !! FailedIds(s.slots)
    requires || !(ids !! CutShort(c, s.readers))
             || (!Flowing(c, s) && !AllArrived(c, s, ids) && (Blocked(s) || Drained(c, s) || ReadersHold(rest)))
    ensures !AllDone(After(c, s, rest), ids)
  {
    hide Inv, ValidConfig, CanRun, After, Flowing, Blocked, Drained, Arrived, Done, FailedIds, CutShort;
    var id;
    if !(ids !! CutShort(c, s.readers)) {
      id :| id in ids && id in CutShort(c, s.readers);
      CutNeverDone(c, s, rest, id);
    } else {
      id :| id in ids && !Arrived(c, s, id);
      NeverDone(c, s, rest, id);
    }
  }

  /** If further failures may happen, readers of failed writers can still give back the permits they hold: the
      files can be finished exactly when no reader of theirs has failed before its end, and jobs of failed writers
      have not taken all permits nor their queues all receivers, or their chunks have arrived. */
  lemma CanFinishAnyhowIff(c: Config, steps: seq<Step>, ids: set<nat>)
    requires ValidConfig(c) && CanRun(c, Init(c), steps) && ids <= c.files.Keys
    requires ids !! FailedIds(After(c, Init(c), steps).slots)
    ensures var s := After(c, Init(c), steps);
            Finishable(c, s, ids)
            <==> ids !! CutShort(c, s.readers) && ((!Drained(c, s) && !Blocked(s)) || AllArrived(c, s, ids))
  {
    hide Inv, ValidConfig, CanRun, After, Drained, Blocked, Starved, Arrived, AllDone, FailedIds, CutShort;
    ReachableInv(c, steps);
    var s := After(c, Init(c), steps);
    if ids !! CutShort(c, s.readers) && ((!Drained(c, s) && !Blocked(s)) || AllArrived(c, s, ids)) {
      var rest := FinishAnyhow(c, s, ids);
    } else if rest :| CanRun(c, s, rest) && AllDone(After(c, s, rest), ids) {
      if Drained(c, s) {
        DrainedStarves(c, s);
      }
      NeverAllDone(c, s, rest, ids);
    }
  }

  lemma FinishAnyhow(c: Config, s: State, ids: set<nat>) returns (rest: seq<Step>)
    requires ValidConfig(c) && Inv(c, s) && ids <= c.files.Keys && ids !! FailedIds(s.slots)
    requires ids !! CutShort(c, s.readers) && ((!Drained(c, s) && !Blocked(s)) || AllArrived(c, s, ids))
    ensures CanRun(c, s, rest) && AllDone(After(c, s, rest), ids)
  {
    hide Inv, ValidConfig, CanRun, After, Drained, Blocked, Starved, Arrived, AllDone, FailedIds, CutShort, Doomed,
         HeldBack;
    if AllArrived(c, s, ids) {
      rest := FinishThem(c, s, ids);
    } else {
      var a := ReleaseAll(c, s);
      var r := After(c, s, a);
      ReleasedFlows(c, s, r);
      var b := FinishThem(c, r, ids);
      RunAppend(c, s, a, b);
      rest := a + b;
    }
  }

  lemma FinishThem(c: Config, s: State, ids: set<nat>) returns (rest: seq<Step>)
    requires ValidConfig(c) && Inv(c, s) && ids <= c.files.Keys && ids !! FailedIds(s.slots)
    requires ids !! CutShort(c, s.readers) && (Flowing(c, s) || AllArrived(c, s, ids))
    ensures CanRun(c, s, rest) && NoFailure(rest) && AllDone(After(c, s, rest), ids)
  {
    hide Inv, ValidConfig, CanRun, After, Flowing, Arrived, CutShort;
    var r;
    if Flowing(c, s) {
      r := FinishAll(c, s, ids);
      SettledDone(c, s, r, ids);
    } else {
      r := FinishAllArrived(c, s, ids);
    }
    rest :| CanRun(c, s, rest) && NoFailure(rest) && After(c, s, rest) == r;
  }

  lemma SettledDone(c: Config, s: State, r: State, ids: set<nat>)
    requires Settled(c, r) && ids <= r.slots.Keys
    requires ids !! FailedIds(s.slots) && FailedIds(r.slots) == FailedIds(s.slots)
    requires ids !! CutShort(c, s.readers) && CutShort(c, r.readers) == CutShort(c, s.readers)
    ensures AllDone(r, ids)
  {
    hide Doomed, CutShort;
  }
}
