/** The safety of whole runs: what the transport guarantees after any sequence of steps. */
module TransportTheorems {
  import opened Chunks
  import opened ReaderSpec
  import opened WriterSpec
  import opened Confirmations
  import opened Transport
  import opened TransportSafety
  import opened Ledger

  lemma ReachableInv(c: Config, steps: seq<Step>)
    requires ValidConfig(c) && CanRun(c, Init(c), steps)
    ensures Inv(c, After(c, Init(c), steps))
  {
    hide Inv, ValidConfig, Enabled, Apply;
    InitInv(c);
    RunInv(c, Init(c), steps);
  }

  /** In every run, over all files at once, each partial file is the source up to the writer's position,
      and the whole source once its writer is done, whichever writers fail. */
  lemma Exactness(c: Config, steps: seq<Step>)
    requires ValidConfig(c) && CanRun(c, Init(c), steps)
    ensures var s := After(c, Init(c), steps);
            forall id | id in s.slots ::
              && id in c.files
              && s.slots[id].w.position <= c.files[id].Size()
              && s.slots[id].w.Output() == c.files[id].source[..s.slots[id].w.position]
              && (s.slots[id].mode.Closed? ==> s.slots[id].w.Output() == c.files[id].source)
  {
    hide ValidConfig, CanRun, After, Balanced, NetOk, InletsOk, QueuesOk, CacheOk, HandsOk, QueueOk, ReadersOk;
    ReachableInv(c, steps);
    var s := After(c, Init(c), steps);
    forall id | id in s.slots
      ensures id in c.files && s.slots[id].w.position <= c.files[id].Size()
      ensures s.slots[id].w.Output() == c.files[id].source[..s.slots[id].w.position]
      ensures s.slots[id].mode.Closed? ==> s.slots[id].w.Output() == c.files[id].source
    {
      assert SlotOk(c, id, s.slots[id]);
    }
  }

  ghost function Live(s: State): multiset<Key> {
    LiveKeys(s.shared.queue, s.hands, s.shared.cache)
  }

  /** `k` is a chunk of a file whose reader has been started. */
  ghost predicate ChunkOfStarted(c: Config, s: State, k: Key) {
    k.id in s.readers && k.id in c.files && IsChunk(c.files[k.id].start, c.files[k.id].Size(), k.index)
  }

  /** No chunk is lost: a chunk of a started file is not read yet, or is live in exactly one place, or
      was written or cached by its writer. In particular a job is only given up once its chunk arrived. */
  lemma NoChunkLost(c: Config, steps: seq<Step>)
    requires ValidConfig(c) && CanRun(c, Init(c), steps)
    ensures var s := After(c, Init(c), steps);
            forall k | ChunkOfStarted(c, s, k) ::
              && (k.index >= s.readers[k.id].index <==> k !in ProducedKeys(c, s.readers))
              && (k in Live(s) ==> Live(s)[k] == 1 && k.index < s.readers[k.id].index)
              && (k.index < s.readers[k.id].index ==> k in Live(s) || k in AcceptedKeys(c, s.slots))
              && (k in AcceptedKeys(c, s.slots) ==> k.index < s.readers[k.id].index)
  {
    hide ValidConfig, CanRun, After, Inv, ProducedKeys, AcceptedKeys, LiveKeys, InTransit;
    ReachableInv(c, steps);
    var s := After(c, Init(c), steps);
    InvBalanced(c, s);
    forall k | ChunkOfStarted(c, s, k)
      ensures k.index >= s.readers[k.id].index <==> k !in ProducedKeys(c, s.readers)
    {
      ProducedMeaning(c, s.readers, k);
    }
  }

  lemma InvBalanced(c: Config, s: State)
    requires Inv(c, s)
    ensures Balanced(c.jobLimit, Books(c, s))
  {
    hide Balanced;
  }

  /** No job circulates forever: while the job of an arrived chunk is live, a confirmation for it is on
      its way or was kept for the next time the job expires. */
  lemma NoJobCirculates(c: Config, steps: seq<Step>)
    requires ValidConfig(c) && CanRun(c, Init(c), steps)
    ensures var s := After(c, Init(c), steps);
            && (forall k | k in AcceptedKeys(c, s.slots) && k in Live(s) ::
                  k in InTransit(s.conf) || k in s.shared.lost)
            && (forall k | k in InTransit(s.conf) || k in s.shared.lost :: k in AcceptedKeys(c, s.slots))
  {
    hide ValidConfig, CanRun, After, Inv, ProducedKeys, AcceptedKeys, LiveKeys, InTransit;
    ReachableInv(c, steps);
    InvBalanced(c, After(c, Init(c), steps));
  }

  /** Permits are conserved, no more jobs are live than the limit, and the confirmed counter is the number
      of chunks cut that are not live any more. */
  lemma PermitConservation(c: Config, steps: seq<Step>)
    requires ValidConfig(c) && CanRun(c, Init(c), steps)
    ensures var s := After(c, Init(c), steps);
            && s.shared.permits + |s.holders| + |Live(s)| == c.jobLimit
            && s.shared.confirmed + |Live(s)| == |ProducedKeys(c, s.readers)|
            && forall k :: Live(s)[k] <= 1
  {
    hide ValidConfig, CanRun, After, Inv, ProducedKeys, AcceptedKeys, LiveKeys, InTransit;
    ReachableInv(c, steps);
    InvBalanced(c, After(c, Init(c), steps));
  }

  /** A sender task that caches a job never overwrites another entry. */
  lemma CacheInsertIsNew(c: Config, steps: seq<Step>, t: nat)
    requires ValidConfig(c) && CanRun(c, Init(c), steps)
    requires Enabled(c, After(c, Init(c), steps), CacheJob(t))
    ensures var s := After(c, Init(c), steps);
            s.hands[t].job.key !in s.shared.cache
  {
    hide ValidConfig, CanRun, After, Inv, ProducedKeys, AcceptedKeys, LiveKeys, InTransit;
    PermitConservation(c, steps);
    var s := After(c, Init(c), steps);
    LiveCache(s.shared.queue, s.hands, s.shared.cache, t);
  }

  // ---- confirmations, counted with repetition ----

  /** The confirmations on record are those the writers issued, file by file, repetitions included. */
  ghost predicate IssuedByWriters(slots: map<nat, Slot>, issued: multiset<Key>) {
    forall id, i ::
      issued[Key(id, i)] == if id in slots then multiset(slots[id].w.issued)[i] else 0
  }

  lemma IssuedUnchanged(slots: map<nat, Slot>, issued: multiset<Key>, id: nat, slot: Slot)
    requires IssuedByWriters(slots, issued)
    requires slot.w.issued == if id in slots then slots[id].w.issued else []
    ensures IssuedByWriters(slots[id := slot], issued)
  {
    var r := slots[id := slot];
    forall j, i
      ensures issued[Key(j, i)] == if j in r then multiset(r[j].w.issued)[i] else 0
    {
      assert issued[Key(j, i)] == if j in slots then multiset(slots[j].w.issued)[i] else 0;
    }
  }

  lemma IssuedOneMore(slots: map<nat, Slot>, issued: multiset<Key>, id: nat, slot: Slot, index: nat)
    requires IssuedByWriters(slots, issued) && id in slots
    requires slot.w.issued == slots[id].w.issued + [index]
    ensures IssuedByWriters(slots[id := slot], issued + multiset{Key(id, index)})
  {
    var r, before := slots[id := slot], multiset(slots[id].w.issued);
    assert multiset(slot.w.issued) == before + multiset{index};
    forall j, i
      ensures (issued + multiset{Key(id, index)})[Key(j, i)] == if j in r then multiset(r[j].w.issued)[i] else 0
    {
      assert issued[Key(j, i)] == if j in slots then multiset(slots[j].w.issued)[i] else 0;
      if j == id {
        assert (before + multiset{index})[i] == before[i] + (if i == index then 1 else 0);
      }
    }
  }

  lemma IssuedQueued(slots: map<nat, Slot>, more: map<nat, Slot>, issued: multiset<Key>)
    requires IssuedByWriters(slots, issued) && QueuesMoved(slots, more)
    ensures IssuedByWriters(more, issued)
  {
    forall id, i
      ensures issued[Key(id, i)] == if id in more then multiset(more[id].w.issued)[i] else 0
    {
      assert issued[Key(id, i)] == if id in slots then multiset(slots[id].w.issued)[i] else 0;
    }
  }

  lemma IssuedStays(c: Config, s: State, e: Step)
    requires Enabled(c, s, e) && !e.WriteArrival?
    ensures Apply(c, s, e).conf.issued == s.conf.issued
  {
    hide Queued, Full, FillBuffer, FirstBuffer, BatchKeys, Group;
    if Delivers(e) {
      hide Apply, Enabled;
      DeliversMoves(c, s, e);
    }
  }

  lemma IssuedWriter(c: Config, s: State, e: Step)
    requires Enabled(c, s, e) && MovesWriters(e) && IssuedByWriters(s.slots, s.conf.issued)
    ensures var r := Apply(c, s, e); IssuedByWriters(r.slots, r.conf.issued)
  {
    hide IssuedByWriters, Arrive;
    var r := Apply(c, s, e);
    if e.WriteArrival? {
      var a := s.slots[e.id].queue[0];
      ArriveIssues(c.files[e.id].Size(), c.files[e.id].ks, s.slots[e.id].w, a);
      if a.index < s.slots[e.id].w.position {
        IssuedUnchanged(s.slots, s.conf.issued, e.id, r.slots[e.id]);
      } else {
        IssuedOneMore(s.slots, s.conf.issued, e.id, r.slots[e.id], a.index);
      }
    } else {
      IssuedUnchanged(s.slots, s.conf.issued, e.id, r.slots[e.id]);
    }
  }

  lemma IssuedStep(c: Config, s: State, e: Step)
    requires Enabled(c, s, e) && IssuedByWriters(s.slots, s.conf.issued)
    ensures var r := Apply(c, s, e); IssuedByWriters(r.slots, r.conf.issued)
  {
    hide IssuedByWriters, Apply, Enabled;
    if MovesWriters(e) {
      IssuedWriter(c, s, e);
    } else {
      IssuedStays(c, s, e);
      if Delivers(e) {
        DeliversMoves(c, s, e);
        IssuedQueued(s.slots, Apply(c, s, e).slots, s.conf.issued);
      } else {
        WritersStay(c, s, e);
      }
    }
  }

  lemma {:induction false} IssuedRun(c: Config, s: State, steps: seq<Step>)
    requires CanRun(c, s, steps) && IssuedByWriters(s.slots, s.conf.issued)
    ensures var r := After(c, s, steps); IssuedByWriters(r.slots, r.conf.issued)
    decreases |steps|
  {
    hide IssuedByWriters, Enabled, Apply;
    if |steps| > 0 {
      IssuedStep(c, s, steps[0]);
      IssuedRun(c, Apply(c, s, steps[0]), steps[1..]);
    }
  }

  /** Every (id, index) pair a writer issued is in the channel, in the pending vector, in a message on
      the stream or being handled, or was handled: nothing is dropped and nothing is repeated. */
  lemma ConfirmationConservation(c: Config, steps: seq<Step>)
    requires ValidConfig(c) && CanRun(c, Init(c), steps)
    ensures var s := After(c, Init(c), steps);
            && IssuedByWriters(s.slots, s.conf.issued)
            && s.conf.issued == multiset(s.conf.channel) + multiset(s.conf.pending) + WireKeys(s.conf.wire)
                                + s.conf.current + s.conf.handled
  {
    hide ValidConfig, CanRun, After, Balanced, NetOk, InletsOk, QueuesOk, CacheOk, HandsOk, QueueOk, ReadersOk, SlotsOk;
    ReachableInv(c, steps);
    IssuedRun(c, Init(c), steps);
  }

  // ---- the send rate ----

  function Attempts(steps: seq<Step>): nat {
    if |steps| == 0 then 0 else (if steps[0].SendJob? || steps[0].FailSend? then 1 else 0) + Attempts(steps[1..])
  }

  function Refills(steps: seq<Step>): nat {
    if |steps| == 0 then 0 else (if steps[0].RefillSend? then 1 else 0) + Refills(steps[1..])
  }

  /** The tasks that hold a send permit they have not sent with. */
  function Armed(hands: seq<Hand>): nat {
    if |hands| == 0 then 0 else (if hands[0].Ready? || hands[0].Taken? then 1 else 0) + Armed(hands[1..])
  }

  lemma {:induction false} ArmedUpdate(hands: seq<Hand>, t: nat, h: Hand)
    requires t < |hands|
    ensures Armed(hands) <= |hands|
    ensures Armed(hands[t := h]) + (if hands[t].Ready? || hands[t].Taken? then 1 else 0)
         == Armed(hands) + (if h.Ready? || h.Taken? then 1 else 0)
  {
    if t == 0 {
      assert hands[0 := h][1..] == hands[1..];
      if |hands| > 1 {
        ArmedUpdate(hands[1..], 0, h);
      }
    } else {
      assert hands[t := h][1..] == hands[1..][t - 1 := h];
      ArmedUpdate(hands[1..], t - 1, h);
    }
  }

  lemma ArmedStep(c: Config, s: State, e: Step)
    requires Enabled(c, s, e)
    ensures var r := Apply(c, s, e);
            Attempts([e]) + r.sendPermits + Armed(r.hands) <= s.sendPermits + Armed(s.hands) + Refills([e])
  {
    if MovesHands(e) {
      ArmedHand(c, s, e);
    } else if !e.RefillSend? {
      hide Apply, Enabled;
      HandsStay(c, s, e);
    }
  }

  lemma ArmedHand(c: Config, s: State, e: Step)
    requires Enabled(c, s, e) && MovesHands(e)
    ensures var r := Apply(c, s, e);
            Attempts([e]) + r.sendPermits + Armed(r.hands) <= s.sendPermits + Armed(s.hands)
  {
    match e
    case AcquireSend(t) => ArmedUpdate(s.hands, t, Ready);
    case TakeJob(t) => ArmedUpdate(s.hands, t, Taken(s.shared.queue[0]));
    case SendJob(t) => ArmedUpdate(s.hands, t, Sent(s.hands[t].job));
    case FailSend(t) => ArmedUpdate(s.hands, t, Idle);
    case CacheJob(t) => ArmedUpdate(s.hands, t, Idle);
    case _ =>
  }

  lemma {:induction false} ArmedRun(c: Config, s: State, steps: seq<Step>)
    requires CanRun(c, s, steps)
    ensures Attempts(steps) <= s.sendPermits + Armed(s.hands) + Refills(steps)
    decreases |steps|
  {
    hide Enabled, Apply;
    if |steps| > 0 {
      ArmedStep(c, s, steps[0]);
      assert [steps[0]][1..] == [];
      ArmedRun(c, Apply(c, s, steps[0]), steps[1..]);
    }
  }

  /** In any stretch of any run the packets sent, or tried, are at most the refills of that stretch, plus
      the permits that may have built up, plus one per sender task. */
  lemma RateBound(c: Config, before: seq<Step>, stretch: seq<Step>)
    requires ValidConfig(c) && CanRun(c, Init(c), before) && CanRun(c, After(c, Init(c), before), stretch)
    ensures Attempts(stretch) <= 1000 + c.tasks + Refills(stretch)
  {
    hide ValidConfig, CanRun, After, Balanced, NetOk, InletsOk, QueuesOk, CacheOk, QueueOk, ReadersOk, SlotsOk;
    var s := After(c, Init(c), before);
    ReachableInv(c, before);
    ArmedRun(c, s, stretch);
    if |s.hands| > 0 {
      ArmedUpdate(s.hands, 0, s.hands[0]);
    }
  }

  /** While nothing is sent every tick brings one more permit, up to a thousand. */
  lemma {:induction false} PermitsBuildUp(c: Config, s: State, n: nat)
    requires s.sendPermits <= 1000
    ensures var ticks := seq(n, _ => RefillSend);
            && CanRun(c, s, ticks)
            && After(c, s, ticks) == s.(sendPermits := if s.sendPermits + n < 1000 then s.sendPermits + n else 1000)
    decreases n
  {
    if n > 0 {
      assert seq(n, _ => RefillSend)[1..] == seq(n - 1, _ => RefillSend);
      PermitsBuildUp(c, Apply(c, s, RefillSend), n - 1);
    }
  }
}
