/** Which transfers can get into a state from which they cannot end. */
module FatalTransfers {
  import opened Chunks
  import opened Channels
  import opened Transfer
  import opened TransferTheorems
  import S = Session
  import SI = SessionSafety
  import ST = SessionTheorems
  import SF = SessionFiles
  import SP = SessionProgress
  import T = Transport
  import TI = TransportSafety
  import TF = TransportFlow
  import TP = TransportProgress
  import FF = FatalFailures
  import SR = SignatureRetry

  /** Some run without a reader that fails gets there. */
  ghost predicate Possible(c: Config, s: State) {
    Inv(c, s) && exists steps :: CanRun(c, Init(c), steps) && ReadersHold(steps) && After(c, Init(c), steps) == s
  }

  lemma PossibleInit(c: Config)
    requires ValidConfig(c)
    ensures Possible(c, Init(c))
  {
    hide ValidConfig, Inv;
    InitInv(c);
    assert CanRun(c, Init(c), []) && ReadersHold([]) && After(c, Init(c), []) == Init(c);
  }

  lemma PossibleStep(c: Config, s: State, e: Step)
    requires ValidConfig(c) && Possible(c, s) && Enabled(c, s, e) && !e.BreakReader?
    ensures Possible(c, Apply(c, s, e))
  {
    hide ValidConfig, Inv, Enabled, Apply, CanRun, After;
    var a :| CanRun(c, Init(c), a) && ReadersHold(a) && After(c, Init(c), a) == s;
    StepInv(c, s, e);
    OneStep(c, s, e);
    RunAppend(c, Init(c), a, [e]);
    assert ReadersHold(a + [e]);
  }

  lemma PossibleLead(c: Config, s: State, r: State)
    requires Possible(c, s) && Leads(c, s, r) && Inv(c, r)
    ensures Possible(c, r)
  {
    hide Inv, CanRun, After;
    var a :| CanRun(c, Init(c), a) && ReadersHold(a) && After(c, Init(c), a) == s;
    var b :| CanRun(c, s, b) && NoBreak(b) && After(c, s, b) == r;
    RunAppend(c, Init(c), a, b);
    assert ReadersHold(a + b);
  }

  // ---- writers fail before anything is read ----

  lemma OpenedQuiescent(c: Config, t: T.State, id: nat)
    requires ValidConfig(c) && TI.Inv(c.transport, t) && FF.Quiescent(c.transport, t)
    ensures FF.Quiescent(c.transport, OpenWriter(c, t, id)) && FF.Quiescent(c.transport, OpenReader(c, t, id))
  {
    hide S.ValidConfig, T.ValidConfig, SameFile, TI.Inv, FF.Quiescent;
    if id in c.transport.files && id !in t.slots {
      FF.QuiescentStart(c.transport, t, T.StartWriter(id));
    }
    if id in c.transport.files && id !in t.readers {
      FF.QuiescentStart(c.transport, t, T.StartReader(id));
    }
  }

  lemma ControlQuiescent(c: Config, s: State, e: S.Step)
    requires ValidConfig(c) && Inv(c, s) && FF.Quiescent(c.transport, s.transport) && Enabled(c, s, Control(e))
    ensures FF.Quiescent(c.transport, Apply(c, s, Control(e)).transport)
  {
    hide ValidConfig, SessionOk, Matched, TI.Inv, FF.Quiescent, S.Enabled, S.Apply, OpenWriter, OpenReader;
    if e.DownBody? && s.session.flight.Down? && s.session.flight.m.Start? {
      OpenedQuiescent(c, s.transport, s.session.flight.m.id);
    } else if e.UpBody? && s.session.sp.WaitIndex? {
      OpenedQuiescent(c, s.transport, s.session.sp.id);
    }
  }

  /** What the controllers say to each other moves no data. */
  lemma {:induction false} QuietControl(c: Config, s: State, steps: seq<S.Step>) returns (r: State)
    requires ValidConfig(c) && Possible(c, s) && FF.Quiescent(c.transport, s.transport)
    requires S.CanRun(c.session, s.session, steps) && SP.AllTalk(steps)
    ensures Possible(c, r) && FF.Quiescent(c.transport, r.transport) && Failed(r) == Failed(s)
    ensures r.session == S.After(c.session, s.session, steps)
    decreases |steps|
  {
    hide ValidConfig, Inv, Failed, FF.Quiescent, S.Enabled, S.Apply;
    if |steps| == 0 {
      r := s;
    } else {
      assert ST.Talk(steps[0]);
      PossibleStep(c, s, Control(steps[0]));
      ControlQuiescent(c, s, steps[0]);
      StepFails(c, s, Control(steps[0]));
      var q := Apply(c, s, Control(steps[0]));
      assert SP.AllTalk(steps[1..]) by {
        assert forall i | 0 <= i < |steps| - 1 :: steps[1..][i] == steps[i + 1];
      }
      r := QuietControl(c, q, steps[1..]);
    }
  }

  /** Nothing was read, nothing has ended from this file on, and only writers of files before it have failed. */
  ghost predicate ToCome(c: Config, s: State, a: nat) {
    && Possible(c, s) && FF.Quiescent(c.transport, s.transport)
    && a in c.session.Remaining() && FailedBefore(s, a) && SP.Spared(s.session, {a}) && c.session.enoughSpace
  }

  lemma ParsedParts(c: Config, s: State)
    requires Possible(c, s)
    ensures SI.Inv(c.session, s.session) && ST.Owed(s.session, {}) && Inv(c, s)
  {
    hide SI.Inv, ST.Owed, SF.Pristine, SF.Covered, TI.Inv, Matched, CanRun, After;
  }

  ghost predicate FailedBefore(s: State, a: nat) {
    forall id | id in Failed(s) :: id < a
  }

  lemma TalkToCome(c: Config, s: State, a: nat, bound: nat) returns (r: State)
    requires ValidConfig(c) && ToCome(c, s, a) && !s.session.sp.WaitReport? && !SP.Over(s.session)
    requires SP.Below(c.session, bound)
    ensures ToCome(c, r, a) && SP.Less(r.session, s.session, bound)
  {
    hide S.ValidConfig, T.ValidConfig, SameFile, SI.Inv, ST.Counted, ST.Apart, Inv, Possible, FF.Quiescent, SP.Less,
         SP.Over, SP.Below, S.CanRun, S.After, SP.Spared, Failed, S.Config.Remaining;
    ParsedParts(c, s);
    var l := SP.TalkOn(c.session, s.session, {}, bound);
    SP.TalksKeeps(c.session, s.session, l, {});
    var steps :| S.CanRun(c.session, s.session, steps) && SP.AllTalk(steps)
                 && S.After(c.session, s.session, steps) == l;
    r := QuietControl(c, s, steps);
    SP.SameSpared(s.session, l, {a});
  }

  lemma ReportToCome(c: Config, s: State, a: nat, bound: nat) returns (r: State)
    requires ValidConfig(c) && ToCome(c, s, a) && s.session.sp.WaitReport? && |s.session.reports| > 0
    ensures ToCome(c, r, a) && SP.Less(r.session, s.session, bound)
  {
    hide ValidConfig, SI.Inv, ST.Owed, Inv, Possible, FF.Quiescent, SP.Less, SP.Spared, Failed, S.TakeReport,
         S.Config.Remaining;
    ParsedParts(c, s);
    SP.WaitingActive(c.session, s.session);
    SP.ReportStep(c.session, s.session, {}, bound, {a});
    PossibleStep(c, s, Control(S.HandleReport));
    ControlQuiescent(c, s, S.HandleReport);
    StepFails(c, s, Control(S.HandleReport));
    r := Apply(c, s, Control(S.HandleReport));
  }

  /** What the failure of a writer at work changes. */
  lemma BreakShape(c: Config, s: State, id: nat)
    requires S.Work(id) in s.session.writers && T.AtWork(s.transport, id)
    ensures Enabled(c, s, BreakWriter(id, false)) && T.Enabled(c.transport, s.transport, T.FailWriter(id, false))
    ensures var r := Apply(c, s, BreakWriter(id, false));
            && r.transport == T.Apply(c.transport, s.transport, T.FailWriter(id, false))
            && r.session == s.session.(writers := r.session.writers, reports := s.session.reports + [Failure(id, 2)])
            && r.transport.slots.Keys == s.transport.slots.Keys && r.transport.readers == s.transport.readers
            && Failed(r) == Failed(s) + {id}
  {
  }

  lemma ActiveFresh(c: Config, s: State, id: nat)
    requires Inv(c, s) && FF.Quiescent(c.transport, s.transport)
    requires s.session.sp.WaitReport? && s.session.reports == [] && id in s.session.active
    ensures S.Work(id) in s.session.writers && T.AtWork(s.transport, id) && id in s.transport.readers
  {
    hide SI.Inv, ST.Owed, SF.Pristine, TI.Inv, FF.Quiescent;
    SP.ActiveWorks(s.session, id, {});
    FreshAtWork(c, s.transport, id);
    assert id in s.session.reading.Keys && id in s.transport.readers.Keys;
  }

  /** The writer of an active file fails. */
  lemma BreakActive(c: Config, s: State, id: nat, bound: nat) returns (r: State)
    requires ValidConfig(c) && Possible(c, s) && FF.Quiescent(c.transport, s.transport)
    requires s.session.sp.WaitReport? && s.session.reports == [] && id in s.session.active
    ensures Possible(c, r) && FF.Quiescent(c.transport, r.transport) && Failed(r) == Failed(s) + {id}
    ensures r.session.reports == [Failure(id, 2)] && r.session.ended == s.session.ended
    ensures id in r.transport.readers && SP.Less(r.session, s.session, bound)
    ensures r.transport.slots.Keys == s.transport.slots.Keys
  {
    hide ValidConfig, Inv, Possible, Enabled, Apply, T.Enabled, T.Apply, SP.Less, FF.Quiescent, Failed;
    ParsedParts(c, s);
    ActiveFresh(c, s, id);
    BreakShape(c, s, id);
    PossibleStep(c, s, BreakWriter(id, false));
    FF.QuiescentFail(c.transport, s.transport, id);
    r := Apply(c, s, BreakWriter(id, false));
    SP.EndLess(s.session, r.session, bound);
  }

  lemma FreshAtWork(c: Config, t: T.State, id: nat)
    requires FF.Quiescent(c.transport, t) && id in t.slots && !t.slots[id].mode.Failed?
    ensures T.AtWork(t, id)
  {
    hide T.AcceptedKeys;
  }

  lemma BreakToCome(c: Config, s: State, a: nat, bound: nat) returns (r: State)
    requires ValidConfig(c) && ToCome(c, s, a) && s.session.sp.WaitReport? && s.session.reports == []
    requires a !in s.session.active
    ensures ToCome(c, r, a) && SP.Less(r.session, s.session, bound)
  {
    hide ValidConfig, SI.Inv, ST.Owed, Inv, Possible, FF.Quiescent, SP.Less, Failed, S.Config.Remaining;
    ParsedParts(c, s);
    SP.WaitingActive(c.session, s.session);
    var id :| id in s.session.active;
    EarlierActive(c.session, s.session, a, id);
    r := BreakActive(c, s, id, bound);
    OneReport(r.session, id, a);
  }

  lemma OneReport(s: S.State, id: nat, a: nat)
    requires s.reports == [Failure(id, 2)] && a != id
    ensures ST.Owing(s.reports, a) == 0
  {
    assert s.reports[1..] == [];
  }

  /** Files are started in order: while one is neither active nor ended, the active ones come before it. */
  lemma EarlierActive(c: S.Config, s: S.State, a: nat, id: nat)
    requires SI.Inv(c, s) && s.sp.WaitReport? && a in c.Remaining() && a !in s.ended && a !in s.active && id in s.active
    ensures id < a
  {
    hide SI.LinkOk, SI.Turn, SI.Logged;
    assert a in s.files;
  }

  lemma {:induction false} UntilActive(c: Config, s: State, a: nat, bound: nat) returns (r: State)
    requires ValidConfig(c) && ToCome(c, s, a) && SP.Below(c.session, bound)
    ensures ToCome(c, r, a) && r.session.sp.WaitReport? && r.session.reports == [] && a in r.session.active
    decreases SP.Stage(s.session), SP.Todo(s.session), SP.Detail(s.session, bound)
  {
    hide ValidConfig, ToCome, SP.Below, SP.Over;
    StillToCome(c, s, a);
    if s.session.sp.WaitReport? && s.session.reports == [] && a in s.session.active {
      r := s;
    } else {
      var q;
      if !s.session.sp.WaitReport? {
        q := TalkToCome(c, s, a, bound);
      } else if |s.session.reports| > 0 {
        q := ReportToCome(c, s, a, bound);
      } else {
        q := BreakToCome(c, s, a, bound);
      }
      r := UntilActive(c, q, a, bound);
    }
  }

  lemma StillToCome(c: Config, s: State, a: nat)
    requires ToCome(c, s, a)
    ensures !SP.Over(s.session)
  {
    hide SI.Inv, ST.Owed, SF.Pristine, SF.Covered, TI.Inv, Matched, Failed, FF.Quiescent, S.Config.Remaining;
    SR.NotOverYet(c.session, s.session, a);
  }

  // ---- from there the receivers block ----

  lemma BlockedUnhealthy(c: Config, s: State, r: State, a: nat, b: nat)
    requires ValidConfig(c) && FF.Quiescent(c.transport, s.transport) && TF.Blocked(r.transport)
    requires r.transport.slots.Keys == s.transport.slots.Keys && TP.OthersSame(s.transport, r.transport, a)
    requires a != b && FF.HasChunk(c.transport, b) && b in c.session.Remaining() && b !in Failed(r)
    ensures !Healthy(c, r)
  {
    hide S.ValidConfig, T.ValidConfig, SameFile, T.AcceptedKeys, TF.Blocked, S.Config.Remaining, Failed;
    var f := c.transport.files[b];
    assert IsChunk(f.start, f.Size(), f.start);
    assert !TF.ChunkArrived(c.transport, r.transport, b, f.start) by {
      if b in r.transport.slots {
        assert b in s.transport.slots.Keys;
        TI.AcceptedMeaning(c.transport, s.transport.slots, Key(b, f.start));
      }
    }
    assert !TF.Arrived(c.transport, r.transport, b);
  }

  lemma StartUntouched(c: Config)
    requires ValidConfig(c)
    ensures FF.Quiescent(c.transport, Init(c).transport) && Failed(Init(c)) == {}
    ensures forall a :: SP.Spared(Init(c).session, {a})
  {
    hide FF.Quiescent;
    FF.QuiescentInit(c.transport);
  }

  lemma CanGetStuck(c: Config, a: nat, b: nat) returns (steps: seq<Step>)
    requires ValidConfig(c) && c.session.enoughSpace && ToSend(c, a) && ToSend(c, b) && a < b
    ensures GetsStuck(c, steps) && ReadersHold(steps)
  {
    hide ValidConfig, Inv, Possible, FF.Quiescent, FF.HasChunk, Failed, Healthy, CanRun, After, Leads, TF.Flows,
         S.Config.Remaining, TF.Blocked;
    var q := BreakFirst(c, a);
    BrokenParts(c, q, a);
    var t := FF.CanBlockFrom(c.transport, q.transport, a);
    var r := LiftFlows(c, q, t);
    PossibleLead(c, q, r);
    BlockedUnhealthy(c, q, r, a, b);
    steps := RunTo(c, r);
  }

  lemma RunTo(c: Config, r: State) returns (steps: seq<Step>)
    requires Possible(c, r)
    ensures CanRun(c, Init(c), steps) && ReadersHold(steps) && After(c, Init(c), steps) == r
  {
    hide Inv, CanRun, After;
    steps :| CanRun(c, Init(c), steps) && ReadersHold(steps) && After(c, Init(c), steps) == r;
  }

  /** Its writer fails, and no writer of a later file. */
  lemma BreakFirst(c: Config, a: nat) returns (q: State)
    requires ValidConfig(c) && c.session.enoughSpace && a in c.session.Remaining()
    ensures Possible(c, q) && FF.Quiescent(c.transport, q.transport) && a in Failed(q) && a in q.transport.readers
    ensures forall id | id in Failed(q) :: id <= a
  {
    hide ValidConfig, Possible, FF.Quiescent, SP.Below, SP.Spared, SP.Less, Failed, S.Config.Remaining;
    FirstToCome(c, a);
    var bound := SP.BoundOf(c.session);
    var s := UntilActive(c, Init(c), a, bound);
    q := BreakActive(c, s, a, bound);
  }

  lemma FirstToCome(c: Config, a: nat)
    requires ValidConfig(c) && c.session.enoughSpace && a in c.session.Remaining()
    ensures ToCome(c, Init(c), a)
  {
    hide ValidConfig, Possible, FF.Quiescent, SP.Spared, Failed, S.Config.Remaining;
    PossibleInit(c);
    StartUntouched(c);
  }

  lemma BrokenParts(c: Config, s: State, a: nat)
    requires ValidConfig(c) && Possible(c, s) && a in Failed(s)
    ensures T.ValidConfig(c.transport) && TI.Inv(c.transport, s.transport) && a in TF.FailedIds(s.transport.slots)
    ensures Inv(c, s)
  {
    hide S.ValidConfig, T.ValidConfig, SameFile, TI.Inv, SessionOk, Matched, CanRun, After;
  }

  /** Two different remaining files that both have a chunk to send. */
  ghost predicate TwoChunks(c: Config, a: nat, b: nat) {
    a != b && ToSend(c, a) && ToSend(c, b)
  }

  /** After `steps` the transfer cannot end on both hosts without another failure. */
  ghost predicate GetsStuck(c: Config, steps: seq<Step>) {
    CanRun(c, Init(c), steps) && !Healthy(c, After(c, Init(c), steps))
  }

  ghost predicate ToSend(c: Config, id: nat) {
    id in c.session.Remaining() && FF.HasChunk(c.transport, id)
  }

  /** Writers that fail can leave a transfer in a state from which it cannot end on both hosts without another
      failure exactly when there is space and two remaining files have a chunk to send. */
  lemma TransferFatalIff(c: Config)
    requires ValidConfig(c)
    ensures (exists steps :: ReadersHold(steps) && GetsStuck(c, steps))
       <==> c.session.enoughSpace && exists a, b :: TwoChunks(c, a, b)
  {
    hide ValidConfig, Inv, CanRun, After, Healthy, Cut;
    if c.session.enoughSpace && exists a, b :: TwoChunks(c, a, b) {
      var a, b :| TwoChunks(c, a, b);
      var steps;
      if a < b {
        steps := CanGetStuck(c, a, b);
      } else {
        steps := CanGetStuck(c, b, a);
      }
    }
    if steps :| ReadersHold(steps) && GetsStuck(c, steps) {
      ReachableInv(c, steps);
      RunCuts(c, Init(c), steps);
      NoneCut(c);
      var a, b := StuckFiles(c, After(c, Init(c), steps));
    }
  }

  lemma StuckFiles(c: Config, s: State) returns (a: nat, b: nat)
    requires ValidConfig(c) && Inv(c, s) && !Healthy(c, s) && Cut(c, s) == {}
    ensures c.session.enoughSpace && TwoChunks(c, a, b)
  {
    hide S.ValidConfig, T.ValidConfig, SameFile, SessionOk, TI.Inv, Matched, TF.Flowing, TF.Arrived, FF.HasChunk, Cut,
         S.Config.Remaining;
    b := MissingFile(c, s);
    a := FF.FailedChunk(c.transport, s.transport);
    ChunkFile(c, a);
    if !c.session.enoughSpace {
      NoSpaceNothing(c, s);
    }
  }

  lemma MissingFile(c: Config, s: State) returns (b: nat)
    requires ValidConfig(c) && !AllArrived(c, s)
    ensures b !in Failed(s) && ToSend(c, b)
  {
    hide S.ValidConfig, T.ValidConfig, SameFile, TF.Arrived, FF.HasChunk, S.Config.Remaining;
    b :| b in c.session.Remaining() && b !in Failed(s) && !TF.Arrived(c.transport, s.transport, b);
    SoundFile(c, b);
    FF.MissingChunk(c.transport, s.transport, b);
  }

  lemma ChunkFile(c: Config, a: nat)
    requires FF.HasChunk(c.transport, a)
    ensures a in c.transport.files
  {
  }

  // ---- a reader fails ----

  lemma ReaderBreaks(c: Config, s: State, a: nat)
    requires FF.Quiescent(c.transport, s.transport) && a in s.transport.readers && a !in Failed(s) && ToSend(c, a)
    ensures Enabled(c, s, BreakReader(a)) && !Healthy(c, Apply(c, s, BreakReader(a)))
  {
    hide T.AcceptedKeys, TF.Flowing, AllArrived, S.Config.Remaining;
    assert FF.AtStart(c.transport, a, s.transport.readers[a]);
    var r := Apply(c, s, BreakReader(a));
    assert a in Cut(c, r) && a !in Failed(r);
  }

  lemma CanCutShort(c: Config, a: nat) returns (steps: seq<Step>)
    requires ValidConfig(c) && c.session.enoughSpace && ToSend(c, a)
    ensures GetsStuck(c, steps)
  {
    hide ValidConfig, Inv, Possible, FF.Quiescent, FF.HasChunk, SP.Below, SP.Spared, Failed, Healthy, CanRun, After,
         Enabled, Apply, S.Config.Remaining;
    FirstToCome(c, a);
    var bound := SP.BoundOf(c.session);
    var s := UntilActive(c, Init(c), a, bound);
    ParsedParts(c, s);
    ActiveFresh(c, s, a);
    ReaderBreaks(c, s, a);
    var up := RunTo(c, s);
    OneStep(c, s, BreakReader(a));
    RunAppend(c, Init(c), up, [BreakReader(a)]);
    steps := up + [BreakReader(a)];
  }

  lemma CutHasChunk(c: Config, s: State, id: nat)
    requires Inv(c, s) && id in Cut(c, s)
    ensures FF.HasChunk(c.transport, id)
  {
    hide SessionOk, TI.Inv, Matched;
    TP.ReaderFacts(c.transport, s.transport, id);
  }

  lemma StuckFile(c: Config, s: State) returns (id: nat)
    requires ValidConfig(c) && Inv(c, s) && !Healthy(c, s)
    ensures c.session.enoughSpace && ToSend(c, id)
  {
    hide ValidConfig, Inv, TF.Flowing, AllArrived, FF.HasChunk, Failed, Cut, S.Config.Remaining;
    if !Uncut(c, s) {
      id :| id in c.session.Remaining() && id !in Failed(s) && id in Cut(c, s);
      CutHasChunk(c, s, id);
    } else {
      id := MissingFile(c, s);
    }
    if !c.session.enoughSpace {
      NoSpaceNothing(c, s);
    }
  }

  /** With readers that fail as well, one remaining file with a chunk to send is enough: nobody tells its writer. */
  lemma FailureFatalIff(c: Config)
    requires ValidConfig(c)
    ensures (exists steps :: GetsStuck(c, steps)) <==> c.session.enoughSpace && exists id :: ToSend(c, id)
  {
    hide ValidConfig, Inv, CanRun, After, Healthy, ToSend;
    if c.session.enoughSpace && exists id :: ToSend(c, id) {
      var id :| ToSend(c, id);
      var steps := CanCutShort(c, id);
    }
    if steps :| GetsStuck(c, steps) {
      ReachableInv(c, steps);
      var id := StuckFile(c, After(c, Init(c), steps));
    }
  }
}
