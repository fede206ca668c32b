/** What writers and readers that fail take out of circulation, and what is left for the other files. */
module TransportFlow {
  import opened Chunks
  import opened WriterSpec
  import opened Confirmations
  import opened Transport
  import opened TransportSafety
  import opened TransportTheorems

  ghost function FailedIds(slots: map<nat, Slot>): set<nat> {
    set id | id in slots && slots[id].mode.Failed?
  }

  ghost function WritingIds(slots: map<nat, Slot>): set<nat> {
    set id | id in slots && slots[id].mode.Writing?
  }

  /** The readers that failed before the end of their file. */
  ghost function CutShort(c: Config, readers: map<nat, Reader>): set<nat> {
    set id | id in readers && id in c.files && readers[id].exited && readers[id].index < c.files[id].Size()
  }

  /** The chunks that were cut and that a failed writer did not take in: their jobs stay live for good, each
      with a read permit. */
  ghost function Doomed(c: Config, s: State): set<Key> {
    set k | k in ProducedKeys(c, s.readers) && k.id in FailedIds(s.slots) && k !in AcceptedKeys(c, s.slots)
  }

  /** The readers of failed writers that hold a permit for a chunk nobody will take in. */
  ghost function HeldBack(c: Config, s: State): set<nat> {
    set id | id in s.holders && id in FailedIds(s.slots) && id in s.readers && id in c.files
             && s.readers[id].index < c.files[id].Size()
  }

  /** No read permit is left for the files whose writers have not failed. */
  ghost predicate Starved(c: Config, s: State) {
    |Doomed(c, s)| + |HeldBack(c, s)| >= c.jobLimit
  }

  /** Not even a reader that fails and gives its permit back leaves one to them. */
  ghost predicate Drained(c: Config, s: State) {
    |Doomed(c, s)| >= c.jobLimit
  }

  /** The receiver waits for room that nobody will make. */
  ghost predicate Stuck(s: State, t: nat) {
    && t < |s.inlets| && s.inlets[t].Holding?
    && ParseKey(s.inlets[t].packet).id in FailedIds(s.slots) && Full(s, ParseKey(s.inlets[t].packet).id)
  }

  ghost predicate Blocked(s: State) {
    forall t | 0 <= t < |s.inlets| :: Stuck(s, t)
  }

  ghost predicate Flowing(c: Config, s: State) {
    !Starved(c, s) && !Blocked(s)
  }

  /** Every chunk of the file is written, cached or queued at its writer. */
  ghost predicate Arrived(c: Config, s: State, id: nat) {
    && id in c.files
    && forall i: nat | IsChunk(c.files[id].start, c.files[id].Size(), i) :: ChunkArrived(c, s, id, i)
  }

  ghost predicate ChunkArrived(c: Config, s: State, id: nat, i: nat) {
    id in c.files && id in s.slots && (Accepted(c.files[id], s.slots[id].w, i) || QueuedAt(s.slots[id].queue, i))
  }

  predicate QueuedAt(queue: seq<Arrival>, i: nat) {
    exists j :: 0 <= j < |queue| && queue[j].index == i
  }

  predicate Done(s: State, id: nat) {
    id in s.slots && s.slots[id].mode.Closed?
  }

  // ---- continuations ----

  /** Steps of tasks at work and of the network: nothing is started and nothing fails. */
  predicate Inner(e: Step) {
    !e.StartReader? && !e.StartWriter? && !Failure(e)
  }

  predicate AllInner(steps: seq<Step>) {
    forall i | 0 <= i < |steps| :: Inner(steps[i])
  }

  predicate Failure(e: Step) {
    e.FailWriter? || e.FailReader?
  }

  predicate NoFailure(steps: seq<Step>) {
    forall i | 0 <= i < |steps| :: !Failure(steps[i])
  }

  predicate ReadersHold(steps: seq<Step>) {
    forall i | 0 <= i < |steps| :: !steps[i].FailReader?
  }

  ghost predicate Flows(c: Config, s: State, r: State) {
    exists steps :: CanRun(c, s, steps) && AllInner(steps) && After(c, s, steps) == r
  }

  ghost predicate Leads(c: Config, s: State, r: State) {
    exists steps :: CanRun(c, s, steps) && NoFailure(steps) && After(c, s, steps) == r
  }

  lemma OneStep(c: Config, s: State, e: Step)
    requires Enabled(c, s, e)
    ensures CanRun(c, s, [e]) && After(c, s, [e]) == Apply(c, s, e)
  {
    hide Enabled, Apply;
    assert [e][1..] == [];
    assert CanRun(c, Apply(c, s, e), []);
  }

  lemma FlowsNowhere(c: Config, s: State)
    ensures Flows(c, s, s)
  {
    assert CanRun(c, s, []) && AllInner([]) && After(c, s, []) == s;
  }

  lemma FlowsStep(c: Config, s: State, e: Step)
    requires ValidConfig(c) && Inv(c, s) && Enabled(c, s, e) && Inner(e)
    ensures Flows(c, s, Apply(c, s, e)) && Inv(c, Apply(c, s, e))
  {
    hide Inv, ValidConfig, Enabled, Apply, CanRun, After;
    StepInv(c, s, e);
    OneStep(c, s, e);
    assert AllInner([e]);
  }

  lemma FlowsOn(c: Config, s: State, q: State, r: State)
    requires Flows(c, s, q) && Flows(c, q, r)
    ensures Flows(c, s, r)
  {
    hide CanRun, After;
    var a :| CanRun(c, s, a) && AllInner(a) && After(c, s, a) == q;
    var b :| CanRun(c, q, b) && AllInner(b) && After(c, q, b) == r;
    RunAppend(c, s, a, b);
    assert AllInner(a + b);
  }

  lemma FlowsLeads(c: Config, s: State, r: State)
    requires Flows(c, s, r)
    ensures Leads(c, s, r)
  {
    hide CanRun, After;
    var a :| CanRun(c, s, a) && AllInner(a) && After(c, s, a) == r;
    assert NoFailure(a);
  }

  lemma LeadsStep(c: Config, s: State, e: Step)
    requires ValidConfig(c) && Inv(c, s) && Enabled(c, s, e) && !Failure(e)
    ensures Leads(c, s, Apply(c, s, e)) && Inv(c, Apply(c, s, e))
  {
    hide Inv, ValidConfig, Enabled, Apply, CanRun, After;
    StepInv(c, s, e);
    OneStep(c, s, e);
    assert NoFailure([e]);
  }

  lemma LeadsOn(c: Config, s: State, q: State, r: State)
    requires Leads(c, s, q) && Leads(c, q, r)
    ensures Leads(c, s, r)
  {
    hide CanRun, After;
    var a :| CanRun(c, s, a) && NoFailure(a) && After(c, s, a) == q;
    var b :| CanRun(c, q, b) && NoFailure(b) && After(c, q, b) == r;
    RunAppend(c, s, a, b);
    assert NoFailure(a + b);
  }

  // ---- what the strategies below leave alone ----

  /** Readers have not moved, no writer was added or removed or has failed, the failed ones stand as they
      stood, and what was accepted still is. */
  ghost predicate Kept(c: Config, s: State, r: State) {
    && r.readers == s.readers && r.holders == s.holders
    && |r.hands| == |s.hands| && |r.inlets| == |s.inlets|
    && SlotsKept(c, s.slots, r.slots)
  }

  ghost predicate SlotsKept(c: Config, slots: map<nat, Slot>, more: map<nat, Slot>) {
    && more.Keys == slots.Keys
    && (forall id | id in slots :: slots[id].mode.Failed? <==> more[id].mode.Failed?)
    && (forall id | id in slots && slots[id].mode.Closed? :: more[id].mode.Closed?)
    && (forall id | id in slots && slots[id].mode.Failed? :: more[id].w == slots[id].w)
    && AcceptedKeys(c, slots) <= AcceptedKeys(c, more)
  }

  lemma KeptSelf(c: Config, s: State)
    ensures Kept(c, s, s)
  {
  }

  lemma KeptOn(c: Config, s: State, q: State, r: State)
    requires Kept(c, s, q) && Kept(c, q, r)
    ensures Kept(c, s, r)
  {
    hide AcceptedKeys;
  }

  lemma SameDoomed(c: Config, s: State, r: State)
    requires Kept(c, s, r)
    ensures FailedIds(r.slots) == FailedIds(s.slots)
    ensures Doomed(c, r) == Doomed(c, s) && HeldBack(c, r) == HeldBack(c, s)
  {
    hide AcceptedKeys, ProducedKeys;
    forall id
      ensures id in FailedIds(r.slots) <==> id in FailedIds(s.slots)
    {
    }
    forall k: Key | k.id in FailedIds(s.slots)
      ensures k in AcceptedKeys(c, r.slots) <==> k in AcceptedKeys(c, s.slots)
    {
      AcceptedMeaning(c, s.slots, k);
      AcceptedMeaning(c, r.slots, k);
    }
  }

  // ---- what the invariant says, in these words ----

  /** A live job is doomed or its chunk was accepted or its writer can still take it in. */
  lemma DoomedLive(c: Config, s: State, k: Key)
    requires Inv(c, s)
    ensures k in Doomed(c, s) ==> k in Live(s)
    ensures k in Live(s) && k.id in FailedIds(s.slots) && k !in AcceptedKeys(c, s.slots) ==> k in Doomed(c, s)
  {
    hide Inv, ProducedKeys, AcceptedKeys, LiveKeys, InTransit, FailedIds;
    InvBalanced(c, s);
  }

  lemma {:induction false} DistinctSize(keys: multiset<Key>, names: set<Key>)
    requires (forall k :: keys[k] <= 1) && (forall k | k in keys :: k in names)
    ensures |keys| <= |names|
    decreases names
  {
    if names == {} {
      assert keys == multiset{};
    } else {
      var k :| k in names;
      var fewer := keys[k := 0];
      assert keys == fewer + (if keys[k] == 0 then multiset{} else multiset{k});
      DistinctSize(fewer, names - {k});
      assert |names - {k}| == |names| - 1;
    }
  }

  lemma {:induction false} DistinctAtLeast(keys: multiset<Key>, names: set<Key>)
    requires forall k | k in names :: k in keys
    ensures |names| <= |keys|
    decreases names
  {
    if names != {} {
      var k :| k in names;
      assert keys == (keys - multiset{k}) + multiset{k};
      forall j | j in names - {k}
        ensures j in keys - multiset{k}
      {
        assert (keys - multiset{k})[j] == keys[j];
      }
      DistinctAtLeast(keys - multiset{k}, names - {k});
      assert |names - {k}| == |names| - 1;
    }
  }

  lemma {:induction false} SubsetSize<T>(a: set<T>, b: set<T>)
    requires a <= b
    ensures |a| <= |b| && (|a| == |b| ==> a == b)
  {
    assert b == a + (b - a);
    assert |b| == |a| + |b - a|;
    if |a| == |b| {
      assert b - a == {};
    }
  }

  /** The permits a failed writer keeps are among those in use, so they never exceed the limit; and when
      they reach it, nothing else is in use and no permit is free. */
  lemma StarvedMeans(c: Config, s: State)
    requires Inv(c, s)
    ensures |Doomed(c, s)| + |HeldBack(c, s)| <= c.jobLimit
    ensures Starved(c, s) ==> s.shared.permits == 0 && s.holders == HeldBack(c, s)
                              && forall k | k in Live(s) :: k in Doomed(c, s)
  {
    hide Inv, ProducedKeys, AcceptedKeys, LiveKeys, InTransit, Doomed, HeldBack;
    InvBalanced(c, s);
    forall k | k in Doomed(c, s)
      ensures k in Live(s)
    {
      DoomedLive(c, s, k);
    }
    DistinctAtLeast(Live(s), Doomed(c, s));
    HeldBackHolds(c, s);
    SubsetSize(HeldBack(c, s), s.holders);
    if Starved(c, s) {
      forall k | k in Live(s)
        ensures k in Doomed(c, s)
      {
        if k !in Doomed(c, s) {
          DistinctAtLeast(Live(s), Doomed(c, s) + {k});
        }
      }
    }
  }

  lemma HeldBackHolds(c: Config, s: State)
    ensures HeldBack(c, s) <= s.holders
  {
  }

  /** Where all live jobs are doomed and the files are not starved, a permit is free, or a reader that is
      not held back has one. */
  lemma PermitLeft(c: Config, s: State)
    requires Inv(c, s) && !Starved(c, s) && forall k | k in Live(s) :: k in Doomed(c, s)
    ensures s.shared.permits > 0 || s.holders - HeldBack(c, s) != {}
  {
    hide Inv, ProducedKeys, AcceptedKeys, LiveKeys, InTransit, Doomed, HeldBack;
    InvBalanced(c, s);
    DistinctSize(Live(s), Doomed(c, s));
    if s.holders - HeldBack(c, s) == {} {
      assert forall h | h in s.holders :: h in HeldBack(c, s) || h in s.holders - HeldBack(c, s);
      SubsetSize(s.holders, HeldBack(c, s));
    }
  }
}
