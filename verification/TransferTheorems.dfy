/** What a whole transfer delivers, and exactly when it can still come to its end. */
module TransferTheorems {
  import opened Channels
  import opened Transfer
  import RS = ReaderSpec
  import WS = WriterSpec
  import S = Session
  import SI = SessionSafety
  import ST = SessionTheorems
  import SF = SessionFiles
  import SP = SessionProgress
  import T = Transport
  import TI = TransportSafety
  import TF = TransportFlow
  import TP = TransportProgress
  import TD = TransportFailures

  lemma ReachableInv(c: Config, steps: seq<Step>)
    requires ValidConfig(c) && CanRun(c, Init(c), steps)
    ensures Inv(c, After(c, Init(c), steps))
  {
    hide Inv, ValidConfig, Enabled, Apply;
    InitInv(c);
    RunInv(c, Init(c), steps);
  }

  // ---- which writers have failed ----

  ghost function Failed(s: State): set<nat> {
    TF.FailedIds(s.transport.slots)
  }

  lemma DataFails(c: Config, t: T.State, e: T.Step)
    requires T.Enabled(c.transport, t, e) && TF.Inner(e)
    ensures TF.FailedIds(T.Apply(c.transport, t, e).slots) == TF.FailedIds(t.slots)
  {
    hide T.Enabled, T.Apply;
    DataModes(c.transport, t, e);
    var u := T.Apply(c.transport, t, e);
    forall id
      ensures id in TF.FailedIds(u.slots) <==> id in TF.FailedIds(t.slots)
    {
      assert id in u.slots.Keys <==> id in t.slots.Keys;
    }
  }

  lemma OpenFails(c: Config, t: T.State, id: nat)
    ensures TF.FailedIds(OpenWriter(c, t, id).slots) == TF.FailedIds(t.slots)
    ensures TF.FailedIds(OpenReader(c, t, id).slots) == TF.FailedIds(t.slots)
  {
  }

  lemma ReadErrorFails(c: Config, t: T.State, id: nat)
    requires T.Enabled(c.transport, t, T.FailReader(id))
    ensures T.Apply(c.transport, t, T.FailReader(id)).slots == t.slots
  {
  }

  lemma StepFails(c: Config, s: State, e: Step)
    requires Enabled(c, s, e) && !e.BreakWriter?
    ensures Failed(Apply(c, s, e)) == Failed(s)
  {
    hide S.Enabled, S.Apply, T.Enabled, T.Apply, TF.FailedIds, OpenWriter, OpenReader;
    if e.BreakReader? {
      ReadErrorFails(c, s.transport, e.id);
    } else if e.Data? {
      DataFails(c, s.transport, e.data);
    } else if e.control.DownBody? && s.session.flight.Down? && s.session.flight.m.Start? {
      OpenFails(c, s.transport, s.session.flight.m.id);
    } else if e.control.UpBody? && s.session.sp.WaitIndex? {
      OpenFails(c, s.transport, s.session.sp.id);
    }
  }

  lemma {:induction false} RunFails(c: Config, s: State, steps: seq<Step>)
    requires CanRun(c, s, steps) && NoBreak(steps)
    ensures Failed(After(c, s, steps)) == Failed(s)
    decreases |steps|
  {
    hide Enabled, Apply, Failed;
    if |steps| > 0 {
      StepFails(c, s, steps[0]);
      assert NoBreak(steps[1..]) by {
        assert forall i | 0 <= i < |steps| - 1 :: steps[1..][i] == steps[i + 1];
      }
      RunFails(c, Apply(c, s, steps[0]), steps[1..]);
    }
  }

  // ---- which readers have failed before the end of their file ----

  ghost function Cut(c: Config, s: State): set<nat> {
    TF.CutShort(c.transport, s.transport.readers)
  }

  lemma OpenCuts(c: Config, t: T.State, id: nat)
    ensures TF.CutShort(c.transport, OpenWriter(c, t, id).readers) == TF.CutShort(c.transport, t.readers)
    ensures TF.CutShort(c.transport, OpenReader(c, t, id).readers) == TF.CutShort(c.transport, t.readers)
  {
  }

  lemma DataCuts(c: Config, t: T.State, e: T.Step)
    requires T.Enabled(c.transport, t, e) && TF.Inner(e)
    ensures TF.CutShort(c.transport, T.Apply(c.transport, t, e).readers) <= TF.CutShort(c.transport, t.readers)
  {
    hide RS.FillBuffer, T.Queued, T.Full;
    if !T.MovesReaders(e) {
      hide T.Apply, T.Enabled;
      T.ReadersStay(c.transport, t, e);
    }
  }

  lemma StepCuts(c: Config, s: State, e: Step)
    requires Enabled(c, s, e) && !e.BreakReader?
    ensures Cut(c, Apply(c, s, e)) <= Cut(c, s)
  {
    hide S.Enabled, S.Apply, T.Enabled, T.Apply, TF.CutShort, OpenWriter, OpenReader;
    if e.BreakWriter? {
      WriterErrorCuts(c, s.transport, e.id, e.taken);
    } else if e.Data? {
      DataCuts(c, s.transport, e.data);
    } else if e.control.DownBody? && s.session.flight.Down? && s.session.flight.m.Start? {
      OpenCuts(c, s.transport, s.session.flight.m.id);
    } else if e.control.UpBody? && s.session.sp.WaitIndex? {
      OpenCuts(c, s.transport, s.session.sp.id);
    }
  }

  lemma WriterErrorCuts(c: Config, t: T.State, id: nat, taken: bool)
    ensures T.Enabled(c.transport, t, T.FailWriter(id, taken)) ==>
              T.Apply(c.transport, t, T.FailWriter(id, taken)).readers == t.readers
  {
  }

  predicate ReadersHold(steps: seq<Step>) {
    forall i | 0 <= i < |steps| :: !steps[i].BreakReader?
  }

  lemma {:induction false} RunCuts(c: Config, s: State, steps: seq<Step>)
    requires CanRun(c, s, steps) && ReadersHold(steps)
    ensures Cut(c, After(c, s, steps)) <= Cut(c, s)
    decreases |steps|
  {
    hide Enabled, Apply, Cut;
    if |steps| > 0 {
      StepCuts(c, s, steps[0]);
      assert ReadersHold(steps[1..]) by {
        assert forall i | 0 <= i < |steps| - 1 :: steps[1..][i] == steps[i + 1];
      }
      RunCuts(c, Apply(c, s, steps[0]), steps[1..]);
    }
  }

  lemma NoneCut(c: Config)
    ensures Cut(c, Init(c)) == {}
  {
  }

  // ---- what is delivered ----

  ghost predicate Delivered(c: Config, t: T.State, id: nat) {
    TF.Done(t, id) && id in c.transport.files && t.slots[id].w.Output() == c.transport.files[id].source
  }

  lemma DoneDelivers(c: Config, s: State, id: nat)
    requires Inv(c, s) && TF.Done(s.transport, id)
    ensures Delivered(c, s.transport, id)
  {
    hide SessionOk, TI.Inv, Matched;
    TP.SlotFacts(c.transport, s.transport, id);
    TP.OutputOf(c.transport, id, s.transport.slots[id]);
    SlotFile(c, id, s.transport.slots[id]);
  }

  lemma SlotFile(c: Config, id: nat, slot: T.Slot)
    requires TI.SlotOk(c.transport, id, slot)
    ensures id in c.transport.files
  {
  }

  /** A session that has ended has no writer at work, so every file that was started is done or failed. */
  lemma IdleMeans(c: Config, s: State, id: nat)
    requires Inv(c, s) && ST.InCharge(s.session) == {} && id in s.session.ended
    ensures TF.Done(s.transport, id) || id in Failed(s)
  {
    hide SI.Inv, ST.Owed, SF.Pristine, TI.Inv, ST.InCharge;
    ST.NobodyOwed(s.session);
    assert id in s.session.openings.Keys;
    assert id in s.transport.slots.Keys;
  }

  lemma FinishedEnded(c: Config, s: State)
    requires Inv(c, s) && s.session.rp == S.Closed(2)
    ensures ST.InCharge(s.session) == {} && s.session.ended == c.session.Remaining()
  {
    hide ST.Owed, SF.Pristine, SF.Covered, TI.Inv, Matched, SI.LinkOk, SI.Plan, S.Config.Remaining, ST.InCharge;
    ST.FinishedIdle(c.session, s.session);
    SP.ClosedEnded(c.session, s.session);
  }

  /** When the receiving host has closed after Done, every remaining file whose writer did not fail is on its
      disk, byte for byte; if no writer failed, every remaining file is. */
  lemma ClosedDelivers(c: Config, steps: seq<Step>, id: nat)
    requires ValidConfig(c) && CanRun(c, Init(c), steps) && After(c, Init(c), steps).session.rp == S.Closed(2)
    requires id in c.session.Remaining()
    ensures id in c.session.sources
    ensures var s := After(c, Init(c), steps);
            && (id !in Failed(s) ==> id in s.transport.slots
                                     && s.transport.slots[id].w.Output() == c.session.sources[id])
            && (NoBreak(steps) ==> id !in Failed(s))
  {
    hide Inv, CanRun, After, Failed, S.ValidConfig, T.ValidConfig, S.Config.Remaining;
    ReachableInv(c, steps);
    var s := After(c, Init(c), steps);
    SoundFile(c, id);
    FinishedEnded(c, s);
    IdleMeans(c, s, id);
    if TF.Done(s.transport, id) {
      DoneDelivers(c, s, id);
    }
    if NoBreak(steps) {
      RunFails(c, Init(c), steps);
      NoneFailed(c);
    }
  }

  lemma NoneFailed(c: Config)
    ensures Failed(Init(c)) == {}
  {
  }

  // ---- what the transport sees of a run ----

  lemma OneMore(c: T.Config, t: T.State, e: T.Step, u: T.State, rest: seq<T.Step>)
    requires T.Enabled(c, t, e) && u == T.Apply(c, t, e) && T.CanRun(c, u, rest)
    ensures T.CanRun(c, t, [e] + rest) && T.After(c, t, [e] + rest) == T.After(c, u, rest)
  {
    hide T.Enabled, T.Apply;
    assert ([e] + rest)[1..] == rest;
  }

  /** The step of the transport in a step of the transfer, if there is one. */
  ghost function Seen(c: Config, s: State, e: Step): Option<T.Step>
    requires Enabled(c, s, e)
  {
    match e
    case Control(e) =>
      if e.DownBody? && s.session.flight.Down? && s.session.flight.m.Start?
         && s.session.flight.m.id in c.transport.files && s.session.flight.m.id !in s.transport.slots
      then Some(T.StartWriter(s.session.flight.m.id))
      else if e.UpBody? && s.session.sp.WaitIndex? && s.session.sp.id in c.transport.files
              && s.session.sp.id !in s.transport.readers
      then Some(T.StartReader(s.session.sp.id))
      else None
    case Data(e) => Some(e)
    case BreakWriter(id, taken) => if T.AtWork(s.transport, id) then Some(T.FailWriter(id, taken)) else None
    case BreakReader(id) => Some(T.FailReader(id))
  }

  lemma SeenStep(c: Config, s: State, e: Step)
    requires Enabled(c, s, e)
    ensures var r := Apply(c, s, e).transport;
            match Seen(c, s, e)
            case None => r == s.transport
            case Some(d) =>
              && T.Enabled(c.transport, s.transport, d) && r == T.Apply(c.transport, s.transport, d)
              && (d.FailReader? ==> e.BreakReader?)
  {
    hide S.Enabled, S.Apply, TI.Inv;
  }

  lemma {:induction false} RunSeen(c: Config, s: State, steps: seq<Step>) returns (seen: seq<T.Step>)
    requires CanRun(c, s, steps)
    ensures T.CanRun(c.transport, s.transport, seen)
    ensures T.After(c.transport, s.transport, seen) == After(c, s, steps).transport
    ensures ReadersHold(steps) ==> TF.ReadersHold(seen)
    decreases |steps|
  {
    hide Enabled, Apply, Seen, T.Enabled, T.Apply;
    if |steps| == 0 {
      seen := [];
    } else {
      var q := Apply(c, s, steps[0]);
      SeenStep(c, s, steps[0]);
      var rest := RunSeen(c, q, steps[1..]);
      if ReadersHold(steps) {
        assert ReadersHold(steps[1..]) by {
          assert forall i | 0 <= i < |steps| - 1 :: steps[1..][i] == steps[i + 1];
        }
        assert !steps[0].BreakReader?;
      }
      if Seen(c, s, steps[0]).Some? {
        var d := Seen(c, s, steps[0]).value;
        OneMore(c.transport, s.transport, d, q.transport, rest);
        seen := [d] + rest;
      } else {
        seen := rest;
      }
    }
  }

  // ---- transfers that cannot end ----

  /** What remains to be delivered was not cut short by its reader, and either a read permit and a packet
      receiver are left to it, or it has arrived. */
  ghost predicate Healthy(c: Config, s: State) {
    Uncut(c, s) && (TF.Flowing(c.transport, s.transport) || AllArrived(c, s))
  }

  ghost predicate Uncut(c: Config, s: State) {
    forall id | id in c.session.Remaining() && id !in Failed(s) :: id !in Cut(c, s)
  }

  ghost predicate AllArrived(c: Config, s: State) {
    forall id | id in c.session.Remaining() && id !in Failed(s) :: TF.Arrived(c.transport, s.transport, id)
  }

  lemma OverCases(c: Config, s: State)
    requires Inv(c, s) && SP.Over(s.session)
    ensures s.session.rp == S.Closed(2) || c.session.Remaining() == {} || !c.session.enoughSpace
  {
    hide ST.Owed, SF.Pristine, SF.Covered, TI.Inv, Matched, SI.LinkOk, SI.Shares, SI.Numbered, SI.Logged;
  }

  lemma NothingEnded(c: S.Config, s: S.State)
    requires SI.Inv(c, s) && !c.enoughSpace
    ensures ST.InCharge(s) == {} && s.ended == {}
  {
    hide SI.LinkOk, SI.Numbered, SI.Logged;
    if s.sp.Finished? {
      assert c.Remaining() == {};
    }
  }

  /** Without space nothing is ever started. */
  lemma NoSpaceNothing(c: Config, s: State)
    requires ValidConfig(c) && Inv(c, s) && !c.session.enoughSpace
    ensures Healthy(c, s)
  {
    hide S.ValidConfig, T.ValidConfig, SameFile, SI.Inv, ST.Owed, SF.Pristine, TI.Inv, TF.Flowing, AllArrived;
    NothingEnded(c.session, s.session);
    assert s.transport.slots.Keys == {};
    assert s.session.active == {};
    assert s.transport.readers.Keys == {};
    assert Cut(c, s) == {};
    assert TF.FailedIds(s.transport.slots) == {};
    TP.NoneFailedFlows(c.transport, s.transport);
  }

  lemma StuckNeverEnds(c: Config, s: State, rest: seq<Step>)
    requires ValidConfig(c) && Inv(c, s) && CanRun(c, s, rest) && NoBreak(rest) && !Healthy(c, s)
    ensures !SP.Over(After(c, s, rest).session)
  {
    hide S.ValidConfig, T.ValidConfig, SameFile, Inv, CanRun, After, TF.Flowing, TF.Arrived, SP.Over, T.CanRun, T.After,
         S.Config.Remaining, Failed, Healthy;
    var r := After(c, s, rest);
    RunInv(c, s, rest);
    RunFails(c, s, rest);
    var id := StuckNeverDone(c, s, rest);
    if SP.Over(r.session) {
      OverCases(c, r);
      if r.session.rp == S.Closed(2) {
        FinishedEnded(c, r);
        IdleMeans(c, r, id);
      } else if !c.session.enoughSpace {
        NoSpaceNothing(c, s);
      }
    }
  }

  lemma StuckNeverDone(c: Config, s: State, rest: seq<Step>) returns (id: nat)
    requires ValidConfig(c) && Inv(c, s) && CanRun(c, s, rest) && NoBreak(rest) && !Healthy(c, s)
    ensures id in c.session.Remaining() && id !in Failed(s) && !TF.Done(After(c, s, rest).transport, id)
  {
    hide S.ValidConfig, T.ValidConfig, SameFile, Inv, CanRun, After, TF.Flowing, TF.Arrived, T.CanRun, T.After, TF.Done,
         S.Config.Remaining, Failed, Cut;
    var seen := RunSeen(c, s, rest);
    InvParts(c, s);
    if !Uncut(c, s) {
      id :| id in c.session.Remaining() && id !in Failed(s) && id in Cut(c, s);
      IsCut(c, s, id);
      TD.CutNeverDone(c.transport, s.transport, seen, id);
    } else {
      id :| id in c.session.Remaining() && id !in Failed(s) && !TF.Arrived(c.transport, s.transport, id);
      SoundFile(c, id);
      NotFailed(s, id);
      TD.NeverDone(c.transport, s.transport, seen, id);
    }
  }

  lemma IsCut(c: Config, s: State, id: nat)
    requires id in Cut(c, s)
    ensures id in TF.CutShort(c.transport, s.transport.readers)
  {
  }

  lemma InvParts(c: Config, s: State)
    requires Inv(c, s)
    ensures TI.Inv(c.transport, s.transport) && SessionOk(c.session, s.session)
  {
  }

  lemma NotFailed(s: State, id: nat)
    requires id !in Failed(s)
    ensures id !in TF.FailedIds(s.transport.slots)
  {
  }

  // ---- continuations of a transfer ----

  ghost predicate Leads(c: Config, s: State, r: State) {
    exists steps :: CanRun(c, s, steps) && NoBreak(steps) && After(c, s, steps) == r
  }

  lemma LeadsNowhere(c: Config, s: State)
    ensures Leads(c, s, s)
  {
    assert CanRun(c, s, []) && NoBreak([]) && After(c, s, []) == s;
  }

  lemma OneStep(c: Config, s: State, e: Step)
    requires Enabled(c, s, e)
    ensures CanRun(c, s, [e]) && After(c, s, [e]) == Apply(c, s, e)
  {
    hide Enabled, Apply;
    assert [e][1..] == [];
    assert CanRun(c, Apply(c, s, e), []);
  }

  lemma LeadsStep(c: Config, s: State, e: Step)
    requires ValidConfig(c) && Inv(c, s) && Enabled(c, s, e) && !e.BreakWriter? && !e.BreakReader?
    ensures Leads(c, s, Apply(c, s, e)) && Inv(c, Apply(c, s, e)) && Failed(Apply(c, s, e)) == Failed(s)
  {
    hide Inv, ValidConfig, Enabled, Apply, CanRun, After, Failed;
    StepInv(c, s, e);
    StepFails(c, s, e);
    OneStep(c, s, e);
    assert NoBreak([e]);
  }

  lemma LeadsOn(c: Config, s: State, q: State, r: State)
    requires Leads(c, s, q) && Leads(c, q, r)
    ensures Leads(c, s, r)
  {
    hide CanRun, After;
    var a :| CanRun(c, s, a) && NoBreak(a) && After(c, s, a) == q;
    var b :| CanRun(c, q, b) && NoBreak(b) && After(c, q, b) == r;
    RunAppend(c, s, a, b);
    assert NoBreak(a + b);
  }

  /** What the tasks of the transport do on their own is a run of the transfer. */
  lemma {:induction false} LiftData(c: Config, s: State, steps: seq<T.Step>) returns (r: State)
    requires ValidConfig(c) && Inv(c, s) && T.CanRun(c.transport, s.transport, steps) && TF.AllInner(steps)
    ensures Leads(c, s, r) && Inv(c, r) && Failed(r) == Failed(s)
    ensures r == s.(transport := T.After(c.transport, s.transport, steps))
    decreases |steps|
  {
    hide ValidConfig, Inv, Leads, Failed, T.Enabled, T.Apply, TF.Inner;
    if |steps| == 0 {
      LeadsNowhere(c, s);
      r := s;
    } else {
      LeadsStep(c, s, Data(steps[0]));
      var q := Apply(c, s, Data(steps[0]));
      assert TF.AllInner(steps[1..]) by {
        assert forall i | 0 <= i < |steps| - 1 :: steps[1..][i] == steps[i + 1];
      }
      r := LiftData(c, q, steps[1..]);
      LeadsOn(c, s, q, r);
    }
  }

  lemma LiftFlows(c: Config, s: State, t: T.State) returns (r: State)
    requires ValidConfig(c) && Inv(c, s) && TF.Flows(c.transport, s.transport, t)
    ensures Leads(c, s, r) && Inv(c, r) && Failed(r) == Failed(s) && r == s.(transport := t)
  {
    hide ValidConfig, Inv, Leads, Failed, T.CanRun, T.After;
    var steps :| T.CanRun(c.transport, s.transport, steps) && TF.AllInner(steps)
                 && T.After(c.transport, s.transport, steps) == t;
    r := LiftData(c, s, steps);
  }

  lemma OpenedHealthy(c: Config, s: State, r: State, id: nat)
    requires ValidConfig(c) && Inv(c, s) && Healthy(c, s) && Failed(r) == Failed(s)
    requires r.transport == OpenWriter(c, s.transport, id) || r.transport == OpenReader(c, s.transport, id)
    ensures Healthy(c, r)
  {
    hide S.ValidConfig, SameFile, SessionOk, Matched, TI.Inv, T.ValidConfig, T.Apply, TF.Flowing, TF.Arrived, Failed,
         S.Config.Remaining;
    var t, u := s.transport, r.transport;
    if u != t {
      var e := if u == OpenWriter(c, t, id) && id in c.transport.files && id !in t.slots then T.StartWriter(id)
               else T.StartReader(id);
      TP.StartOne(c.transport, t, e);
      TP.StartedSame(c.transport, t, e);
      if AllArrived(c, s) {
        forall j | j in c.session.Remaining() && j !in Failed(r)
          ensures TF.Arrived(c.transport, u, j)
        {
          StillArrived(c, t, u, j);
        }
      }
    }
  }

  lemma StillArrived(c: Config, t: T.State, u: T.State, id: nat)
    requires TF.Arrived(c.transport, t, id) && TP.OnlyStarted(t, u)
    ensures TF.Arrived(c.transport, u, id)
  {
    if id in t.slots || id !in u.slots {
      TD.ArrivedElsewhere(c.transport, t, u, id);
    } else {
      TD.StartedArrived(c.transport, t, u, id);
    }
  }

  lemma SameHealthy(c: Config, s: State, r: State)
    requires Healthy(c, s) && r.transport == s.transport
    ensures Healthy(c, r)
  {
    hide TF.Flowing, TF.Arrived, S.Config.Remaining;
  }

  lemma ControlHealthy(c: Config, s: State, e: S.Step)
    requires ValidConfig(c) && Inv(c, s) && Healthy(c, s) && Enabled(c, s, Control(e))
    ensures Healthy(c, Apply(c, s, Control(e)))
  {
    hide ValidConfig, Inv, Healthy, S.Enabled, S.Apply, Failed, OpenWriter, OpenReader;
    StepFails(c, s, Control(e));
    var r := Apply(c, s, Control(e));
    if e.DownBody? && s.session.flight.Down? && s.session.flight.m.Start? {
      OpenedHealthy(c, s, r, s.session.flight.m.id);
    } else if e.UpBody? && s.session.sp.WaitIndex? {
      OpenedHealthy(c, s, r, s.session.sp.id);
    } else {
      SameHealthy(c, s, r);
    }
  }

  /** What the controllers say to each other is a run of the transfer. */
  lemma {:induction false} LiftControl(c: Config, s: State, steps: seq<S.Step>) returns (r: State)
    requires ValidConfig(c) && Inv(c, s) && Healthy(c, s) && S.CanRun(c.session, s.session, steps) && SP.AllTalk(steps)
    ensures Leads(c, s, r) && Inv(c, r) && Healthy(c, r) && r.session == S.After(c.session, s.session, steps)
    decreases |steps|
  {
    hide ValidConfig, Inv, Leads, Healthy, S.Enabled, S.Apply;
    if |steps| == 0 {
      LeadsNowhere(c, s);
      r := s;
    } else {
      assert ST.Talk(steps[0]);
      LeadsStep(c, s, Control(steps[0]));
      ControlHealthy(c, s, steps[0]);
      var q := Apply(c, s, Control(steps[0]));
      assert SP.AllTalk(steps[1..]) by {
        assert forall i | 0 <= i < |steps| - 1 :: steps[1..][i] == steps[i + 1];
      }
      r := LiftControl(c, q, steps[1..]);
      LeadsOn(c, s, q, r);
    }
  }

  lemma LiftTalks(c: Config, s: State, l: S.State) returns (r: State)
    requires ValidConfig(c) && Inv(c, s) && Healthy(c, s) && SP.Talks(c.session, s.session, l)
    ensures Leads(c, s, r) && Inv(c, r) && Healthy(c, r) && r.session == l
  {
    hide ValidConfig, Inv, Leads, Healthy, S.CanRun, S.After;
    var steps :| S.CanRun(c.session, s.session, steps) && SP.AllTalk(steps)
                 && S.After(c.session, s.session, steps) == l;
    r := LiftControl(c, s, steps);
  }

  // ---- a file is finished ----

  lemma WaitingPaired(c: Config, s: State)
    requires Inv(c, s) && s.session.sp.WaitReport?
    ensures s.transport.slots.Keys == s.transport.readers.Keys
  {
    hide SI.Inv, ST.Owed, SF.Pristine, TI.Inv;
    assert ST.InCharge(s.session) == s.session.active;
  }

  lemma DoneArrived(c: Config, s: State, id: nat)
    requires Inv(c, s) && TF.Done(s.transport, id)
    ensures TF.Arrived(c.transport, s.transport, id)
  {
    hide SessionOk, Matched, TI.Inv, WS.WriterInv;
    TP.SlotFacts(c.transport, s.transport, id);
  }

  lemma FlowingFinishes(c: Config, s: State, id: nat) returns (r: State)
    requires ValidConfig(c) && Inv(c, s) && s.session.sp.WaitReport? && TF.Flowing(c.transport, s.transport)
    requires id in s.transport.slots && id !in Failed(s) && id !in Cut(c, s)
    ensures Leads(c, s, r) && Inv(c, r) && r.session == s.session && TF.Flowing(c.transport, r.transport)
    ensures TF.Done(r.transport, id) && Failed(r) == Failed(s) && Cut(c, r) == Cut(c, s)
  {
    hide S.ValidConfig, T.ValidConfig, SameFile, SessionOk, Matched, TI.Inv, Leads, TF.Flowing, TF.Flows, TP.Paired,
         TP.Fed, TF.CutShort;
    WaitingPaired(c, s);
    TP.BothMeans(s.transport);
    var t := TP.FinishStarted(c.transport, s.transport);
    r := LiftFlows(c, s, t);
    SettledDone(c, s, r, id);
  }

  lemma SettledDone(c: Config, s: State, r: State, id: nat)
    requires TP.Settled(c.transport, r.transport) && TP.OnCourse(c.transport, s.transport, r.transport)
    requires id in s.transport.slots && id !in Failed(s) && id !in Cut(c, s)
    ensures TF.Done(r.transport, id) && Cut(c, r) == Cut(c, s)
  {
    hide TF.Doomed, TF.HeldBack, TF.CutShort;
    assert id in r.transport.slots.Keys;
  }

  lemma ArrivedFinishes(c: Config, s: State, id: nat) returns (r: State)
    requires ValidConfig(c) && Inv(c, s) && AllArrived(c, s) && T.AtWork(s.transport, id)
    requires id in c.session.Remaining()
    ensures Leads(c, s, r) && Inv(c, r) && r.session == s.session && AllArrived(c, r)
    ensures TF.Done(r.transport, id) && Failed(r) == Failed(s) && Cut(c, r) == Cut(c, s)
  {
    hide S.ValidConfig, T.ValidConfig, SameFile, SessionOk, Matched, TI.Inv, Leads, TF.CutShort, TF.Arrived, TF.Flows,
         S.Config.Remaining;
    assert id !in Failed(s);
    var t := TD.FinishHere(c.transport, s.transport, id);
    r := LiftFlows(c, s, t);
    forall j | j in c.session.Remaining() && j !in Failed(r)
      ensures TF.Arrived(c.transport, r.transport, j)
    {
      if j == id {
        DoneArrived(c, r, id);
      } else {
        SameElsewhere(c, s, r, id, j);
      }
    }
  }

  lemma SameElsewhere(c: Config, s: State, r: State, id: nat, j: nat)
    requires TP.OthersSame(s.transport, r.transport, id) && r.transport.slots.Keys == s.transport.slots.Keys && j != id
    requires TF.Arrived(c.transport, s.transport, j)
    ensures TF.Arrived(c.transport, r.transport, j)
  {
    hide TF.Arrived;
    assert j in s.transport.slots.Keys <==> j in r.transport.slots.Keys;
    TD.ArrivedElsewhere(c.transport, s.transport, r.transport, j);
  }

  /** A file whose writer is at work in the session can be finished. */
  lemma FinishFile(c: Config, s: State, id: nat) returns (r: State)
    requires ValidConfig(c) && Inv(c, s) && Healthy(c, s) && s.session.sp.WaitReport? && S.Work(id) in s.session.writers
    ensures Leads(c, s, r) && Inv(c, r) && Healthy(c, r) && r.session == s.session && TF.Done(r.transport, id)
  {
    hide ValidConfig, SessionOk, TI.Inv, Leads, TF.Flowing, AllArrived, Cut, S.Config.Remaining;
    WorkRemains(c.session, s.session, id);
    assert id in s.transport.slots && id !in Failed(s);
    if TF.Done(s.transport, id) {
      LeadsNowhere(c, s);
      r := s;
    } else if TF.Flowing(c.transport, s.transport) {
      r := FlowingFinishes(c, s, id);
    } else {
      r := ArrivedFinishes(c, s, id);
    }
  }

  // ---- to the end ----

  lemma EndOne(c: Config, s: State, bound: nat) returns (r: State)
    requires ValidConfig(c) && Inv(c, s) && Healthy(c, s) && s.session.sp.WaitReport? && s.session.reports == []
    ensures Leads(c, s, r) && Inv(c, r) && Healthy(c, r) && SP.Less(r.session, s.session, bound)
  {
    hide ValidConfig, Inv, Leads, Healthy, ST.Owed, S.Wrong, S.FinalContent, SP.Less, S.Complete, TF.Done;
    var id := ActiveOne(c, s);
    var q := FinishFile(c, s, id);
    LeadsNoMore(c, q, id);
    LeadsStep(c, q, Control(S.EndWriter(id)));
    ControlHealthy(c, q, S.EndWriter(id));
    r := Apply(c, q, Control(S.EndWriter(id)));
    LeadsOn(c, s, q, r);
    SP.EndLess(s.session, r.session, bound);
  }

  lemma ActiveOne(c: Config, s: State) returns (id: nat)
    requires Inv(c, s) && s.session.sp.WaitReport? && s.session.reports == []
    ensures S.Work(id) in s.session.writers
  {
    hide SI.Inv, ST.Owed, SF.Pristine, SF.Covered, TI.Inv, Matched;
    SP.WaitingActive(c.session, s.session);
    id :| id in s.session.active;
    SP.ActiveWorks(s.session, id, {});
  }

  lemma LeadsNoMore(c: Config, s: State, id: nat)
    requires ValidConfig(c) && Inv(c, s) && S.Work(id) in s.session.writers && TF.Done(s.transport, id)
    ensures Enabled(c, s, Control(S.EndWriter(id)))
  {
    hide ValidConfig, SessionOk, TI.Inv, Matched, S.Wrong, S.Complete, TF.Done;
    NeverWrong(c, s, id);
  }

  lemma TakeOne(c: Config, s: State, bound: nat) returns (r: State)
    requires ValidConfig(c) && Inv(c, s) && Healthy(c, s) && s.session.sp.WaitReport? && |s.session.reports| > 0
    ensures Leads(c, s, r) && Inv(c, r) && Healthy(c, r) && SP.Less(r.session, s.session, bound)
  {
    hide ValidConfig, SI.Inv, ST.Owed, SF.Pristine, SF.Covered, TI.Inv, Matched, Leads, Healthy, SP.Less,
         S.TakeReport, SP.Spared;
    SP.WaitingActive(c.session, s.session);
    SP.NoneSpared(s.session);
    SP.ReportStep(c.session, s.session, {}, bound, {});
    LeadsStep(c, s, Control(S.HandleReport));
    ControlHealthy(c, s, S.HandleReport);
    r := Apply(c, s, Control(S.HandleReport));
  }

  lemma TalkOn(c: Config, s: State, bound: nat) returns (r: State)
    requires ValidConfig(c) && Inv(c, s) && Healthy(c, s) && !s.session.sp.WaitReport? && !SP.Over(s.session)
    requires SP.Below(c.session, bound)
    ensures Leads(c, s, r) && Inv(c, r) && Healthy(c, r) && SP.Less(r.session, s.session, bound)
  {
    hide S.ValidConfig, T.ValidConfig, SameFile, SI.Inv, ST.Counted, ST.Apart, SF.Pristine, SF.Covered, TI.Inv, Matched,
         Leads, Healthy, SP.Less, SP.Over, SP.Below, SP.Talks;
    var l := SP.TalkOn(c.session, s.session, {}, bound);
    r := LiftTalks(c, s, l);
  }

  lemma {:induction false} FinishTransfer(c: Config, s: State, bound: nat) returns (r: State)
    requires ValidConfig(c) && Inv(c, s) && Healthy(c, s) && SP.Below(c.session, bound)
    ensures Leads(c, s, r) && Inv(c, r) && SP.Over(r.session)
    decreases SP.Stage(s.session), SP.Todo(s.session), SP.Detail(s.session, bound)
  {
    hide ValidConfig, Inv, Healthy, Leads, SP.Over, SP.Below;
    if SP.Over(s.session) {
      LeadsNowhere(c, s);
      r := s;
    } else {
      var q;
      if !s.session.sp.WaitReport? {
        q := TalkOn(c, s, bound);
      } else if |s.session.reports| > 0 {
        q := TakeOne(c, s, bound);
      } else {
        q := EndOne(c, s, bound);
      }
      r := FinishTransfer(c, q, bound);
      LeadsOn(c, s, q, r);
    }
  }

  /** Whatever has happened, and whichever writers and readers have failed, the transfer can still end on both
      hosts, without another failure, exactly when no reader has cut short a file whose writer has not failed, and
      failed writers have left a read permit and a packet receiver to the other files, or all chunks of the other
      files have arrived. */
  lemma CanEndIff(c: Config, steps: seq<Step>)
    requires ValidConfig(c) && CanRun(c, Init(c), steps)
    ensures var s := After(c, Init(c), steps);
            (exists rest :: CanRun(c, s, rest) && NoBreak(rest) && SP.Over(After(c, s, rest).session))
            <==> Healthy(c, s)
  {
    hide ValidConfig, Inv, CanRun, After, Healthy, SP.Over, SP.Below;
    ReachableInv(c, steps);
    var s := After(c, Init(c), steps);
    if Healthy(c, s) {
      var bound := SP.BoundOf(c.session);
      var r := FinishTransfer(c, s, bound);
      var rest :| CanRun(c, s, rest) && NoBreak(rest) && After(c, s, rest) == r;
    } else if rest :| CanRun(c, s, rest) && NoBreak(rest) && SP.Over(After(c, s, rest).session) {
      StuckNeverEnds(c, s, rest);
    }
  }

  lemma UnbrokenHealthy(c: Config, s: State)
    requires ValidConfig(c) && Inv(c, s) && Failed(s) == {} && Cut(c, s) == {}
    ensures Healthy(c, s)
  {
    hide S.ValidConfig, T.ValidConfig, SameFile, SessionOk, Matched, TI.Inv, TF.Flowing, AllArrived, Cut;
    TP.NoneFailedFlows(c.transport, s.transport);
  }

  /** No dead state while nothing has failed: the transfer can end on both hosts, with every remaining file
      on the receiving host's disk, unless there was no space. */
  lemma NoDeadTransfer(c: Config, steps: seq<Step>) returns (rest: seq<Step>)
    requires ValidConfig(c) && CanRun(c, Init(c), steps) && NoBreak(steps)
    ensures CanRun(c, Init(c), steps + rest) && NoBreak(steps + rest)
    ensures var r := After(c, Init(c), steps + rest);
            && SP.Over(r.session)
            && (c.session.enoughSpace ==> forall id | id in c.session.Remaining() :: Delivered(c, r.transport, id))
  {
    hide ValidConfig, Inv, CanRun, After, Healthy, SP.Over, SP.Below, Failed, Cut, Delivered, S.Config.Remaining;
    ReachableInv(c, steps);
    var s := After(c, Init(c), steps);
    RunFails(c, Init(c), steps);
    NoneFailed(c);
    RunCuts(c, Init(c), steps);
    NoneCut(c);
    UnbrokenHealthy(c, s);
    var bound := SP.BoundOf(c.session);
    var r := FinishTransfer(c, s, bound);
    rest :| CanRun(c, s, rest) && NoBreak(rest) && After(c, s, rest) == r;
    RunAppend(c, Init(c), steps, rest);
    RunFails(c, s, rest);
    OverCases(c, r);
    if c.session.enoughSpace {
      forall id | id in c.session.Remaining()
        ensures Delivered(c, r.transport, id)
      {
        FinishedEnded(c, r);
        IdleMeans(c, r, id);
        DoneDelivers(c, r, id);
      }
    }
  }
}
