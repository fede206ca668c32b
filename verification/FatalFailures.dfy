/** Which failures can be fatal to other files: the runs that get there. */
module FatalFailures {
  import opened Chunks
  import opened ReaderSpec
  import opened WriterSpec
  import opened Confirmations
  import opened Transport
  import opened TransportSafety
  import opened TransportTheorems
  import opened TransportFlow
  import opened TransportProgress
  import opened TransportFailures

  /** No reader and only writers of `files` fail. */
  predicate FailuresIn(steps: seq<Step>, files: set<nat>) {
    forall i | 0 <= i < |steps| && Failure(steps[i]) :: steps[i].FailWriter? && steps[i].id in files
  }

  // ---- which writers have failed ----

  lemma FailedStep(c: Config, s: State, e: Step)
    requires Enabled(c, s, e)
    ensures FailedIds(Apply(c, s, e).slots) <= FailedIds(s.slots) + (if e.FailWriter? then {e.id} else {})
  {
    hide Arrive, Issue, Queued, Full;
    if !MovesWriters(e) {
      hide Apply, Enabled;
      if Delivers(e) {
        DeliversMoves(c, s, e);
      } else {
        WritersStay(c, s, e);
      }
    }
  }

  lemma {:induction false} FailedRun(c: Config, s: State, steps: seq<Step>, files: set<nat>)
    requires CanRun(c, s, steps) && FailuresIn(steps, files)
    ensures FailedIds(After(c, s, steps).slots) <= FailedIds(s.slots) + files
    decreases |steps|
  {
    hide Enabled, Apply, FailedIds;
    if |steps| > 0 {
      FailedStep(c, s, steps[0]);
      assert FailuresIn(steps[1..], files) by {
        assert forall i | 0 <= i < |steps| - 1 :: steps[1..][i] == steps[i + 1];
      }
      FailedRun(c, Apply(c, s, steps[0]), steps[1..], files);
    }
  }

  /** Without a reader that fails no file is cut short. */
  lemma UncutStep(c: Config, s: State, e: Step)
    requires ValidConfig(c) && Inv(c, s) && Enabled(c, s, e) && !e.FailReader? && CutShort(c, s.readers) == {}
    ensures CutShort(c, Apply(c, s, e).readers) == {}
  {
    hide ValidConfig, Inv, FirstBuffer, FillBuffer, Queued, Full, Arrive, Issue;
    if !MovesReaders(e) {
      hide Apply, Enabled;
      ReadersStay(c, s, e);
    }
  }

  lemma {:induction false} UncutRun(c: Config, s: State, steps: seq<Step>)
    requires ValidConfig(c) && Inv(c, s) && CanRun(c, s, steps) && ReadersHold(steps) && CutShort(c, s.readers) == {}
    ensures CutShort(c, After(c, s, steps).readers) == {}
    decreases |steps|
  {
    hide Inv, ValidConfig, Enabled, Apply, CutShort;
    if |steps| > 0 {
      UncutStep(c, s, steps[0]);
      StepInv(c, s, steps[0]);
      assert ReadersHold(steps[1..]) by {
        assert forall i | 0 <= i < |steps| - 1 :: steps[1..][i] == steps[i + 1];
      }
      UncutRun(c, Apply(c, s, steps[0]), steps[1..]);
    }
  }

  lemma NoReadersYet(c: Config)
    ensures CutShort(c, Init(c).readers) == {}
  {
  }

  // ---- runs from the beginning ----

  ghost predicate Runs(c: Config, files: set<nat>, r: State) {
    && Inv(c, r)
    && exists steps :: CanRun(c, Init(c), steps) && FailuresIn(steps, files) && After(c, Init(c), steps) == r
  }

  lemma RunsInit(c: Config, files: set<nat>)
    requires ValidConfig(c)
    ensures Runs(c, files, Init(c))
  {
    hide Inv, ValidConfig;
    InitInv(c);
    assert CanRun(c, Init(c), []) && FailuresIn([], files) && After(c, Init(c), []) == Init(c);
  }

  lemma RunsStep(c: Config, files: set<nat>, s: State, e: Step)
    requires ValidConfig(c) && Runs(c, files, s) && Enabled(c, s, e)
    requires Failure(e) ==> e.FailWriter? && e.id in files
    ensures Runs(c, files, Apply(c, s, e))
  {
    hide Inv, ValidConfig, Enabled, Apply, CanRun, After;
    var a :| CanRun(c, Init(c), a) && FailuresIn(a, files) && After(c, Init(c), a) == s;
    StepInv(c, s, e);
    OneStep(c, s, e);
    RunAppend(c, Init(c), a, [e]);
    assert FailuresIn(a + [e], files);
  }

  lemma RunsFlows(c: Config, files: set<nat>, s: State, r: State)
    requires Runs(c, files, s) && Flows(c, s, r) && Inv(c, r)
    ensures Runs(c, files, r)
  {
    hide Inv, CanRun, After;
    var a :| CanRun(c, Init(c), a) && FailuresIn(a, files) && After(c, Init(c), a) == s;
    var b :| CanRun(c, s, b) && AllInner(b) && After(c, s, b) == r;
    RunAppend(c, Init(c), a, b);
    assert FailuresIn(a + b, files);
  }

  // ---- exactly when failed writers can take every permit ----

  ghost function ChunkKeys(c: Config, files: set<nat>): set<Key> {
    set id, i | id in files && id in c.files && 0 <= i < c.files[id].Size()
                && IsChunk(c.files[id].start, c.files[id].Size(), i) :: Key(id, i)
  }

  lemma ChunkKeysMeaning(c: Config, files: set<nat>, k: Key)
    ensures k in ChunkKeys(c, files)
       <==> k.id in files && k.id in c.files && IsChunk(c.files[k.id].start, c.files[k.id].Size(), k.index)
  {
    assert k == Key(k.id, k.index);
  }

  ghost function NextKeys(ids: set<nat>, readers: map<nat, Reader>): set<Key> {
    set id | id in ids && id in readers :: Key(id, readers[id].index)
  }

  lemma {:induction false} NextKeysSize(ids: set<nat>, readers: map<nat, Reader>)
    requires ids <= readers.Keys
    ensures |NextKeys(ids, readers)| == |ids|
    decreases ids
  {
    if ids == {} {
      assert NextKeys(ids, readers) == {};
    } else {
      var id :| id in ids;
      NextKeysSize(ids - {id}, readers);
      assert NextKeys(ids, readers) == NextKeys(ids - {id}, readers) + {Key(id, readers[id].index)};
      assert Key(id, readers[id].index) !in NextKeys(ids - {id}, readers);
    }
  }

  /** The permits failed writers keep are no more than the chunks of their files. */
  lemma LostChunks(c: Config, s: State, files: set<nat>)
    requires Inv(c, s) && FailedIds(s.slots) <= files
    ensures |Doomed(c, s)| + |HeldBack(c, s)| <= |ChunkKeys(c, files)|
  {
    hide Inv, ProducedKeys, AcceptedKeys, ChunkKeys;
    var next := NextKeys(HeldBack(c, s), s.readers);
    NextKeysSize(HeldBack(c, s), s.readers);
    forall k | k in Doomed(c, s) || k in next
      ensures k in ChunkKeys(c, files) && !(k in Doomed(c, s) && k in next)
    {
      ProducedMeaning(c, s.readers, k);
      ChunkKeysMeaning(c, files, k);
      if k in next {
        ReaderFacts(c, s, k.id);
      }
    }
    assert |Doomed(c, s) + next| == |Doomed(c, s)| + |next|;
    SubsetSize(Doomed(c, s) + next, ChunkKeys(c, files));
  }

  /** All writers have failed before they took anything in, and the readers are on their way. */
  ghost predicate Barren(c: Config, s: State) {
    && s.holders == {} && AcceptedKeys(c, s.slots) == {}
    && (forall id | id in s.slots :: s.slots[id].mode.Failed?)
    && s.readers.Keys == s.slots.Keys && forall id | id in s.readers :: !s.readers[id].exited
  }

  lemma BarrenInit(c: Config)
    ensures Barren(c, Init(c))
  {
    assert AcceptedKeys(c, map[]) == {};
  }

  lemma FailOne(c: Config, files: set<nat>, s: State, id: nat) returns (r: State)
    requires ValidConfig(c) && Runs(c, files, s) && Barren(c, s) && id in files && id in c.files && id !in s.slots
    ensures Runs(c, files, r) && Barren(c, r) && r.readers.Keys == s.readers.Keys + {id}
    ensures r == s.(readers := r.readers, slots := r.slots)
    ensures r.slots ==
            s.slots[id := Slot(Begin(c.files[id].start, c.files[id].source[..c.files[id].start]), [], Failed)]
    ensures r.readers == s.readers[id := Reader(c.files[id].start, FirstBuffer(id), false)]
  {
    hide Inv, ValidConfig, Runs, AcceptedKeys, ProducedKeys, FirstBuffer;
    assert id !in s.readers.Keys;
    ValidStart(c, id);
    RunsStep(c, files, s, StartWriter(id));
    var p := Apply(c, s, StartWriter(id));
    StartWriterAccepts(c, files, s, id);
    RunsStep(c, files, p, FailWriter(id, false));
    var q := Apply(c, p, FailWriter(id, false));
    SameWriterSameAccepted(c, p.slots, id, q.slots[id]);
    RunsStep(c, files, q, StartReader(id));
    r := Apply(c, q, StartReader(id));
    assert r.slots == s.slots[id := r.slots[id]];
  }

  lemma ValidStart(c: Config, id: nat)
    requires ValidConfig(c) && id in c.files
    ensures c.files[id].start <= c.files[id].Size()
  {
  }

  lemma StartWriterAccepts(c: Config, files: set<nat>, s: State, id: nat)
    requires ValidConfig(c) && Runs(c, files, s) && Enabled(c, s, StartWriter(id))
    ensures AcceptedKeys(c, Apply(c, s, StartWriter(id)).slots) == AcceptedKeys(c, s.slots)
  {
    hide Inv, ValidConfig, AcceptedKeys;
    StartedSame(c, s, StartWriter(id));
  }

  lemma {:induction false} FailThem(c: Config, files: set<nat>, s: State, todo: set<nat>) returns (r: State)
    requires ValidConfig(c) && Runs(c, files, s) && Barren(c, s) && todo <= files && todo <= c.files.Keys
    requires todo !! s.slots.Keys
    ensures Runs(c, files, r) && Barren(c, r) && r.readers.Keys == s.readers.Keys + todo
    decreases todo
  {
    hide ValidConfig, Runs, Barren;
    if todo == {} {
      r := s;
    } else {
      var id :| id in todo;
      var q := FailOne(c, files, s, id);
      r := FailThem(c, files, q, todo - {id});
    }
  }

  lemma BarrenDoomed(c: Config, s: State)
    requires Inv(c, s) && Barren(c, s)
    ensures forall k | k in Live(s) :: k in Doomed(c, s)
    ensures |Live(s)| == |ProducedKeys(c, s.readers)| && s.shared.permits + |Live(s)| == c.jobLimit
  {
    hide Inv, ProducedKeys, AcceptedKeys, LiveKeys, InTransit;
    InvBalanced(c, s);
    LimitSplit(c, s);
    forall k | k in Live(s)
      ensures k in Doomed(c, s)
    {
      ProducedMeaning(c, s.readers, k);
      assert k.id in s.slots.Keys;
    }
    DistinctSize(Live(s), ProducedKeys(c, s.readers));
    DistinctAtLeast(Live(s), ProducedKeys(c, s.readers));
  }

  lemma BarrenRead(c: Config, files: set<nat>, s: State, id: nat) returns (r: State)
    requires ValidConfig(c) && Runs(c, files, s) && Barren(c, s) && s.shared.permits > 0
    requires id in s.readers && id in c.files && s.readers[id].index < c.files[id].Size()
    ensures Runs(c, files, r) && Barren(c, r) && r.readers.Keys == s.readers.Keys
    ensures r.shared.permits == s.shared.permits - 1
  {
    hide Inv, ValidConfig, Runs, AcceptedKeys, ProducedKeys, FillBuffer;
    RunsStep(c, files, s, AcquireRead(id));
    var q := Apply(c, s, AcquireRead(id));
    RunsStep(c, files, q, ReadChunk(id));
    r := Apply(c, q, ReadChunk(id));
    assert r.holders == {};
  }

  lemma SomeUnread(c: Config, files: set<nat>, s: State) returns (id: nat)
    requires Inv(c, s) && |ProducedKeys(c, s.readers)| < |ChunkKeys(c, files)| && s.readers.Keys == files * c.files.Keys
    ensures id in s.readers && id in c.files && s.readers[id].index < c.files[id].Size()
  {
    hide Inv, ProducedKeys, ChunkKeys;
    if ChunkKeys(c, files) <= ProducedKeys(c, s.readers) {
      SubsetSize(ChunkKeys(c, files), ProducedKeys(c, s.readers));
    }
    var k :| k in ChunkKeys(c, files) && k !in ProducedKeys(c, s.readers);
    ChunkKeysMeaning(c, files, k);
    assert k.id in s.readers.Keys;
    ProducedMeaning(c, s.readers, k);
    id := k.id;
  }

  lemma {:induction false} ReadUntilStarved(c: Config, files: set<nat>, s: State) returns (r: State)
    requires ValidConfig(c) && Runs(c, files, s) && Barren(c, s) && s.readers.Keys == files * c.files.Keys
    requires |ChunkKeys(c, files)| >= c.jobLimit
    ensures Runs(c, files, r) && Drained(c, r)
    decreases s.shared.permits
  {
    hide Inv, ValidConfig, Barren, ChunkKeys, ProducedKeys, Doomed, HeldBack, Live;
    BarrenDoomed(c, s);
    if s.shared.permits == 0 {
      AllDoomed(c, s);
      r := s;
    } else {
      var id := SomeUnread(c, files, s);
      var q := BarrenRead(c, files, s, id);
      r := ReadUntilStarved(c, files, q);
    }
  }

  lemma AllDoomed(c: Config, s: State)
    requires Inv(c, s) && |Live(s)| == c.jobLimit && forall k | k in Live(s) :: k in Doomed(c, s)
    ensures Drained(c, s)
  {
    hide Inv, Doomed, LiveKeys, ProducedKeys, AcceptedKeys, InTransit;
    InvBalanced(c, s);
    DistinctSize(Live(s), Doomed(c, s));
  }

  /** Writers of `files` that fail can leave the other files without a permit, for good or as long as no reader
      fails, exactly when their files have at least as many chunks as there are permits. */
  lemma StarvesIff(c: Config, files: set<nat>)
    requires ValidConfig(c)
    ensures (exists steps :: CanRun(c, Init(c), steps)
                             && FailuresIn(steps, files) && Starved(c, After(c, Init(c), steps)))
       <==> |ChunkKeys(c, files)| >= c.jobLimit
    ensures (exists steps :: CanRun(c, Init(c), steps)
                             && FailuresIn(steps, files) && Drained(c, After(c, Init(c), steps)))
       <==> |ChunkKeys(c, files)| >= c.jobLimit
  {
    hide ValidConfig, Inv, CanRun, After, Starved, Drained, ChunkKeys, FailedIds, Barren;
    if |ChunkKeys(c, files)| >= c.jobLimit {
      RunsInit(c, files);
      BarrenInit(c);
      var s := FailThem(c, files, Init(c), files * c.files.Keys);
      var r := ReadUntilStarved(c, files, s);
      DrainedStarved(c, r);
      var steps :| CanRun(c, Init(c), steps) && FailuresIn(steps, files) && After(c, Init(c), steps) == r;
    } else if steps :| CanRun(c, Init(c), steps) && FailuresIn(steps, files)
                         && (Starved(c, After(c, Init(c), steps)) || Drained(c, After(c, Init(c), steps))) {
      ReachableInv(c, steps);
      FailedRun(c, Init(c), steps, files);
      NoneFailedYet(c);
      LostChunks(c, After(c, Init(c), steps), files);
      DrainedStarved(c, After(c, Init(c), steps));
      StarvedCount(c, After(c, Init(c), steps));
    }
  }

  lemma NoneFailedYet(c: Config)
    ensures FailedIds(Init(c).slots) == {}
  {
  }

  lemma DrainedStarved(c: Config, s: State)
    ensures Drained(c, s) ==> Starved(c, s)
  {
    hide Doomed, HeldBack;
  }

  lemma StarvedCount(c: Config, s: State)
    requires Starved(c, s)
    ensures |Doomed(c, s)| + |HeldBack(c, s)| >= c.jobLimit
  {
  }

  // ---- exactly when a failure can be fatal to another file ----

  predicate HasChunk(c: Config, id: nat) {
    id in c.files && c.files[id].start < c.files[id].Size()
  }

  /** Nothing that can still happen finishes the file. */
  ghost predicate Dead(c: Config, s: State, id: nat) {
    forall rest | CanRun(c, s, rest) :: !Done(After(c, s, rest), id)
  }

  /** Where files do not flow, some failed writer's file has chunks. */
  lemma FailedChunk(c: Config, s: State) returns (id: nat)
    requires ValidConfig(c) && Inv(c, s) && !Flowing(c, s)
    ensures id in FailedIds(s.slots) && HasChunk(c, id)
  {
    hide Inv, ProducedKeys, AcceptedKeys, ParseKey, FailedIds;
    if Starved(c, s) {
      if Doomed(c, s) != {} {
        var k :| k in Doomed(c, s);
        ProducedMeaning(c, s.readers, k);
        id := k.id;
      } else {
        id :| id in HeldBack(c, s);
        ReaderFacts(c, s, id);
      }
    } else {
      TaskCount(c, s);
      assert Stuck(s, 0);
      InvInlet(c, s, 0);
      var k := ParseKey(s.inlets[0].packet);
      ProducedMeaning(c, s.readers, k);
      id := k.id;
    }
  }

  /** A packet of the file has been sent on the socket. */
  ghost predicate Heard(s: State, t: nat, id: nat) {
    exists d :: d in s.net && d.socket == t && ParseKey(d.packet).id == id
  }

  ghost predicate HeardUpTo(s: State, t: nat, id: nat) {
    forall i | 0 <= i < t :: Heard(s, i, id)
  }

  ghost predicate AllVacant(s: State) {
    forall i | 0 <= i < |s.inlets| :: s.inlets[i].Vacant?
  }

  /** Nothing has been read or sent yet: readers stand at their start indexes, writers are fresh or have failed. */
  ghost predicate Quiescent(c: Config, s: State) {
    && s.holders == {} && s.shared.queue == [] && s.shared.cache == map[]
    && NoneBusy(s.hands) && AllVacant(s) && AcceptedKeys(c, s.slots) == {}
    && (forall id | id in s.readers :: AtStart(c, id, s.readers[id]))
    && (forall id | id in s.slots :: s.slots[id].queue == [] && !s.slots[id].mode.Closed?)
  }

  ghost predicate AtStart(c: Config, id: nat, reader: Reader) {
    id in c.files && reader.index == c.files[id].start && !reader.exited
  }

  lemma QuiescentInit(c: Config)
    ensures Quiescent(c, Init(c))
  {
    assert AcceptedKeys(c, map[]) == {};
  }

  lemma QuiescentStart(c: Config, s: State, e: Step)
    requires ValidConfig(c) && Inv(c, s) && Quiescent(c, s) && Enabled(c, s, e) && (e.StartReader? || e.StartWriter?)
    ensures Quiescent(c, Apply(c, s, e))
  {
    hide Inv, ValidConfig, AcceptedKeys, FirstBuffer;
    StartedSame(c, s, e);
  }

  lemma QuiescentFail(c: Config, s: State, id: nat)
    requires Quiescent(c, s) && Enabled(c, s, FailWriter(id, false))
    ensures Quiescent(c, Apply(c, s, FailWriter(id, false)))
  {
    hide AcceptedKeys;
    SameWriterSameAccepted(c, s.slots, id, Apply(c, s, FailWriter(id, false)).slots[id]);
  }

  lemma QuiescentPermits(c: Config, s: State)
    requires ValidConfig(c) && Inv(c, s) && Quiescent(c, s)
    ensures s.shared.permits > 0
  {
    hide Inv, LiveKeys, ProducedKeys, AcceptedKeys, InTransit;
    InvBalanced(c, s);
    LimitSplit(c, s);
    NothingLive(s);
  }

  lemma NothingLive(s: State)
    requires NoneBusy(s.hands) && s.shared.queue == [] && s.shared.cache == map[]
    ensures Live(s) == multiset{}
  {
    NoHandKeys(s.hands);
    assert multiset(s.shared.cache.Keys) == multiset{};
  }

  /** The first chunk of a file becomes the only job. */
  lemma FirstChunk(c: Config, s: State, id: nat) returns (r: State)
    requires ValidConfig(c) && Inv(c, s) && Quiescent(c, s) && id in s.readers && HasChunk(c, id)
    ensures Flows(c, s, r) && Inv(c, r) && r.slots == s.slots && AllVacant(r) && NoneBusy(r.hands)
    ensures |r.shared.queue| == 1 && r.shared.queue[0].key == Key(id, c.files[id].start)
    ensures |r.inlets| == |s.inlets|
  {
    hide Inv, ValidConfig, Flows, AcceptedKeys, FillBuffer;
    QuiescentPermits(c, s);
    FlowsStep(c, s, AcquireRead(id));
    var p := Apply(c, s, AcquireRead(id));
    FlowsStep(c, p, ReadChunk(id));
    r := Apply(c, p, ReadChunk(id));
    FlowsOn(c, s, p, r);
  }

  lemma SentHeard(c: Config, s: State, k: Key, t: nat)
    requires ValidConfig(c) && Inv(c, s) && k in s.shared.cache && Datagram(t, s.shared.cache[k].data) in s.net
    ensures Heard(s, t, k.id)
  {
    hide Inv, ValidConfig, ParseKey;
    CachedFacts(c, s, k);
  }

  /** The job goes out on the first socket. */
  lemma FirstSent(c: Config, s: State, k: Key) returns (r: State)
    requires ValidConfig(c) && Inv(c, s) && NoneBusy(s.hands) && |s.shared.queue| == 1 && s.shared.queue[0].key == k
    ensures Flows(c, s, r) && Inv(c, r) && Calm(r) && SendersMoved(s, r) && k in r.shared.cache && HeardUpTo(r, 1, k.id)
  {
    hide Inv, ValidConfig, Flows, NoneBusy, Heard;
    TaskCount(c, s);
    var p := ArmTask(c, s, 0);
    r := SendFirst(c, p, 0);
    FlowsOn(c, s, p, r);
    SentHeard(c, r, k, 0);
  }

  lemma HeardMore(s: State, r: State, t: nat, id: nat)
    requires HeardUpTo(s, t, id) && s.net <= r.net && Heard(r, t, id)
    ensures HeardUpTo(r, t + 1, id)
  {
    hide ParseKey;
    forall i | 0 <= i < t + 1
      ensures Heard(r, i, id)
    {
      if i < t {
        assert Heard(s, i, id);
      }
    }
  }

  /** It expires and goes out on the next socket, until all have carried it. */
  lemma {:induction false} SendAround(c: Config, s: State, k: Key, t: nat) returns (r: State)
    requires ValidConfig(c) && Inv(c, s) && Calm(s) && k in s.shared.cache && HeardUpTo(s, t, k.id)
    requires t <= |s.hands| && k !in AcceptedKeys(c, s.slots)
    ensures Flows(c, s, r) && Inv(c, r) && SendersMoved(s, r) && HeardUpTo(r, |r.hands|, k.id)
    decreases |s.hands| - t
  {
    hide Inv, ValidConfig, Flows, Calm, Heard, HeardUpTo, AcceptedKeys;
    if t == |s.hands| {
      FlowsNowhere(c, s);
      r := s;
    } else {
      var q := Resend(c, s, k, t);
      ResentHeard(c, s, q, k, t);
      HeardMore(s, q, t, k.id);
      r := SendAround(c, q, k, t + 1);
      FlowsOn(c, s, q, r);
    }
  }

  lemma ResentHeard(c: Config, s: State, q: State, k: Key, t: nat)
    requires ValidConfig(c) && Inv(c, s) && k in s.shared.cache && Datagram(t, s.shared.cache[k].data) in q.net
    ensures Heard(q, t, k.id)
  {
    hide Inv, ValidConfig, ParseKey;
    CachedFacts(c, s, k);
  }

  /** Repeated deliveries fill the queue nobody reads. */
  lemma {:induction false} FillQueue(c: Config, s: State, id: nat) returns (r: State)
    requires ValidConfig(c) && Inv(c, s) && id in FailedIds(s.slots) && AllVacant(s) && |s.inlets| > 0
    requires Heard(s, 0, id)
    ensures Flows(c, s, r) && Inv(c, r) && id in FailedIds(r.slots) && AllVacant(r) && Full(r, id) && r.net == s.net
    ensures r.slots.Keys == s.slots.Keys && |r.inlets| == |s.inlets| && OthersSame(s, r, id)
    decreases WRITER_QUEUE_SIZE - |s.slots[id].queue|
  {
    hide Inv, ValidConfig, Flows, ParseKey;
    if Full(s, id) {
      FlowsNowhere(c, s);
      r := s;
    } else {
      var d :| d in s.net && d.socket == 0 && ParseKey(d.packet).id == id;
      FlowsStep(c, s, Deliver(d));
      var q := Apply(c, s, Deliver(d));
      assert q.slots[id].queue[|s.slots[id].queue|..] != [];
      r := FillQueue(c, q, id);
      FlowsOn(c, s, q, r);
    }
  }

  /** The receivers before `t` hold a packet of the file. */
  ghost predicate HeldUpTo(s: State, t: nat, id: nat) {
    && t <= |s.inlets|
    && (forall i | 0 <= i < t :: s.inlets[i].Holding? && ParseKey(s.inlets[i].packet).id == id)
    && (forall i | t <= i < |s.inlets| :: s.inlets[i].Vacant?)
  }

  lemma {:induction false} BlockAll(c: Config, s: State, t: nat, id: nat) returns (r: State)
    requires ValidConfig(c) && Inv(c, s) && id in FailedIds(s.slots) && Full(s, id) && HeldUpTo(s, t, id)
    requires HeardUpTo(s, |s.inlets|, id)
    ensures Flows(c, s, r) && Inv(c, r) && Blocked(r) && r.slots == s.slots
    decreases |s.inlets| - t
  {
    hide Inv, ValidConfig, Flows, ParseKey;
    if t == |s.inlets| {
      FlowsNowhere(c, s);
      r := s;
    } else {
      assert Heard(s, t, id);
      var d :| d in s.net && d.socket == t && ParseKey(d.packet).id == id;
      FlowsStep(c, s, Deliver(d));
      var q := Apply(c, s, Deliver(d));
      SameNetHeard(s, q, |q.inlets|, id);
      r := BlockAll(c, q, t + 1, id);
      FlowsOn(c, s, q, r);
    }
  }

  /** One chunk of one failed writer is enough to block every packet receiver, by steps of the tasks alone. */
  lemma CanBlockFrom(c: Config, s: State, id: nat) returns (r: State)
    requires ValidConfig(c) && Inv(c, s) && Quiescent(c, s) && HasChunk(c, id)
    requires id in s.readers && id in FailedIds(s.slots)
    ensures Flows(c, s, r) && Inv(c, r) && Blocked(r) && r.slots.Keys == s.slots.Keys && OthersSame(s, r, id)
  {
    hide ValidConfig, Inv, Flows, Calm, NoneBusy, AcceptedKeys, ParseKey, Heard;
    var k := Key(id, c.files[id].start);
    var o := FirstChunk(c, s, id);
    var p := FirstSent(c, o, k);
    TaskCount(c, p);
    var q := SendAround(c, p, k, 1);
    TaskCount(c, q);
    assert Heard(q, 0, id);
    var f := FillQueue(c, q, id);
    SameNetHeard(q, f, |f.inlets|, id);
    r := BlockAll(c, f, 0, id);
    FlowsOn(c, s, o, p);
    FlowsOn(c, s, p, q);
    FlowsOn(c, s, q, f);
    FlowsOn(c, s, f, r);
  }

  lemma CanBlock(c: Config, files: set<nat>, id: nat) returns (r: State)
    requires ValidConfig(c) && id in files && HasChunk(c, id)
    ensures Runs(c, files, r) && Blocked(r) && r.slots.Keys == {id}
  {
    hide ValidConfig, Inv, Blocked, Barren, Flows;
    RunsInit(c, files);
    BarrenInit(c);
    var q := FailOne(c, files, Init(c), id);
    LoneQuiescent(c, q, id);
    r := CanBlockFrom(c, q, id);
    RunsFlows(c, files, q, r);
  }

  lemma LoneQuiescent(c: Config, q: State, id: nat)
    requires Barren(c, q) && HasChunk(c, id) && q == Init(c).(readers := q.readers, slots := q.slots)
    requires q.slots == map[id := Slot(Begin(c.files[id].start, c.files[id].source[..c.files[id].start]), [], Failed)]
    requires q.readers == map[id := Reader(c.files[id].start, FirstBuffer(id), false)]
    ensures Quiescent(c, q) && id in FailedIds(q.slots)
  {
    hide FirstBuffer, AcceptedKeys;
  }

  lemma SameNetHeard(s: State, r: State, t: nat, id: nat)
    requires HeardUpTo(s, t, id) && r.net == s.net
    ensures HeardUpTo(r, t, id)
  {
    hide ParseKey;
    forall i | 0 <= i < t
      ensures Heard(r, i, id)
    {
      assert Heard(s, i, id);
    }
  }

  lemma BlockedDead(c: Config, files: set<nat>, s: State, a: nat, b: nat)
    requires ValidConfig(c) && Runs(c, files, s) && Blocked(s) && s.slots.Keys == {a} && b != a && HasChunk(c, b)
    ensures Dead(c, s, b) && b !in FailedIds(s.slots)
  {
    hide ValidConfig, Inv, CanRun, After, Blocked, Done;
    assert b !in s.slots.Keys;
    assert !Arrived(c, s, b) by {
      assert IsChunk(c.files[b].start, c.files[b].Size(), c.files[b].start);
      assert !ChunkArrived(c, s, b, c.files[b].start);
    }
    forall rest | CanRun(c, s, rest)
      ensures !Done(After(c, s, rest), b)
    {
      NeverDone(c, s, rest, b);
    }
  }

  /** `steps` lead to a state in which file `b`, whose writer has not failed, can never be finished. */
  ghost predicate Kills(c: Config, files: set<nat>, steps: seq<Step>, b: nat) {
    && CanRun(c, Init(c), steps) && FailuresIn(steps, files)
    && b in c.files && b !in FailedIds(After(c, Init(c), steps).slots) && Dead(c, After(c, Init(c), steps), b)
  }

  /** Failures of writers of `files` can be fatal to another file exactly when one of their files and
      another one both have a chunk to send. */
  lemma FailureFatalIff(c: Config, files: set<nat>)
    requires ValidConfig(c)
    ensures (exists steps, b :: Kills(c, files, steps, b))
       <==> exists a, b :: a in files && a != b && HasChunk(c, a) && HasChunk(c, b)
  {
    hide ValidConfig, Inv, CanRun, After, Blocked, FailedIds, Dead;
    if a, b :| a in files && a != b && HasChunk(c, a) && HasChunk(c, b) {
      var r := CanBlock(c, files, a);
      BlockedDead(c, files, r, a, b);
      var steps :| CanRun(c, Init(c), steps) && FailuresIn(steps, files) && After(c, Init(c), steps) == r;
      assert Kills(c, files, steps, b);
    }
    if steps, b :| Kills(c, files, steps, b) {
      var a := KilledBy(c, files, steps, b);
    }
  }

  lemma KilledBy(c: Config, files: set<nat>, steps: seq<Step>, b: nat) returns (a: nat)
    requires ValidConfig(c) && Kills(c, files, steps, b)
    ensures a in files && a != b && HasChunk(c, a) && HasChunk(c, b)
  {
    hide ValidConfig, Inv, CanRun, After, Flowing, Drained, Blocked, Starved, FailedIds, CutShort, Arrived, AllDone;
    var s := After(c, Init(c), steps);
    ReachableInv(c, steps);
    FailedRun(c, Init(c), steps, files);
    NoneFailedYet(c);
    NoReadersYet(c);
    InitInv(c);
    UncutRun(c, Init(c), steps);
    CanFinishIff(c, steps, {b});
    if Flowing(c, s) || Arrived(c, s, b) {
      var rest :| CanRun(c, s, rest) && NoFailure(rest) && AllDone(After(c, s, rest), {b});
      OneDone(After(c, s, rest), b);
    }
    a := FailedChunk(c, s);
    MissingChunk(c, s, b);
  }

  lemma OneDone(s: State, b: nat)
    requires AllDone(s, {b})
    ensures Done(s, b)
  {
    assert b in {b};
  }

  lemma MissingChunk(c: Config, s: State, b: nat)
    requires ValidConfig(c) && b in c.files && !Arrived(c, s, b)
    ensures HasChunk(c, b)
  {
  }
}
