/** A whole transfer: the control session and the chunk transport as one system. A Start that is handled
    starts the writer, a StartIndex that is handled starts the reader, a writer is reported ended only after
    its file is complete, a writer that fails fails in both, and of a reader that fails the session hears nothing. */
module Transfer {
  import CS = ControlStream
  import RS = ReaderSpec
  import WS = WriterSpec
  import S = Session
  import SI = SessionSafety
  import ST = SessionTheorems
  import SF = SessionFiles
  import SR = SignatureRetry
  import T = Transport
  import TI = TransportSafety
  import TF = TransportFlow

  datatype Config = Config(session: S.Config, transport: T.Config)

  /** Both sides speak of the same files, a partial file is a source prefix in whole chunks, and signatures
      are those of the sources. */
  ghost predicate ValidConfig(c: Config) {
    && S.ValidConfig(c.session) && T.ValidConfig(c.transport)
    && c.transport.files.Keys == c.session.Remaining()
    && forall id | id in c.session.Remaining() :: SameFile(c, id)
  }

  ghost predicate SameFile(c: Config, id: nat) {
    && id in c.transport.files && id in c.session.sources && id in c.session.starts
    && var f := c.transport.files[id];
       && f.source == c.session.sources[id] && f.start == c.session.starts[id] <= f.Size()
       && SF.First(c.session, id).base == f.source[..f.start]
       && (id in c.session.signatures ==> c.session.signatures[id] == c.session.hash(f.source))
  }

  datatype State = State(session: S.State, transport: T.State)

  ghost function Init(c: Config): State {
    State(S.Init(c.session), T.Init(c.transport))
  }

  /** A writer that fails reports it, a reader that fails does not. */
  datatype Step =
    | Control(control: S.Step) | Data(data: T.Step)
    | BreakWriter(id: nat, taken: bool) | BreakReader(id: nat)

  ghost predicate Enabled(c: Config, s: State, e: Step) {
    match e
    case Control(e) =>
      && S.Enabled(c.session, s.session, e) && !e.FailWriter?
      && (e.EndWriter? ==> TF.Done(s.transport, e.id))
    case Data(e) => TF.Inner(e) && T.Enabled(c.transport, s.transport, e)
    case BreakWriter(id, taken) =>
      && S.Enabled(c.session, s.session, S.FailWriter(id))
      && (T.AtWork(s.transport, id) ==> T.Enabled(c.transport, s.transport, T.FailWriter(id, taken)))
    case BreakReader(id) => T.Enabled(c.transport, s.transport, T.FailReader(id))
  }

  /** What a step of the session starts. */
  ghost function Follow(c: Config, s: State, e: S.Step): T.State {
    match e
    case DownBody =>
      if s.session.flight.Down? && s.session.flight.m.Start? then OpenWriter(c, s.transport, s.session.flight.m.id)
      else s.transport
    case UpBody =>
      if s.session.sp.WaitIndex? then OpenReader(c, s.transport, s.session.sp.id) else s.transport
    case _ => s.transport
  }

  ghost function OpenWriter(c: Config, t: T.State, id: nat): T.State {
    if id in c.transport.files && id !in t.slots then T.Apply(c.transport, t, T.StartWriter(id)) else t
  }

  ghost function OpenReader(c: Config, t: T.State, id: nat): T.State {
    if id in c.transport.files && id !in t.readers then T.Apply(c.transport, t, T.StartReader(id)) else t
  }

  ghost function Apply(c: Config, s: State, e: Step): State
    requires Enabled(c, s, e)
  {
    match e
    case Control(e) => State(S.Apply(c.session, s.session, e), Follow(c, s, e))
    case Data(e) => s.(transport := T.Apply(c.transport, s.transport, e))
    case BreakWriter(id, taken) =>
      State(S.Apply(c.session, s.session, S.FailWriter(id)),
            if T.AtWork(s.transport, id) then T.Apply(c.transport, s.transport, T.FailWriter(id, taken))
            else s.transport)
    case BreakReader(id) => s.(transport := T.Apply(c.transport, s.transport, T.FailReader(id)))
  }

  ghost predicate CanRun(c: Config, s: State, steps: seq<Step>)
    decreases |steps|
  {
    |steps| == 0 || (Enabled(c, s, steps[0]) && CanRun(c, Apply(c, s, steps[0]), steps[1..]))
  }

  ghost function After(c: Config, s: State, steps: seq<Step>): State
    requires CanRun(c, s, steps)
    decreases |steps|
  {
    if |steps| == 0 then s else After(c, Apply(c, s, steps[0]), steps[1..])
  }

  lemma {:induction false} RunAppend(c: Config, s: State, a: seq<Step>, b: seq<Step>)
    requires CanRun(c, s, a) && CanRun(c, After(c, s, a), b)
    ensures CanRun(c, s, a + b) && After(c, s, a + b) == After(c, After(c, s, a), b)
    decreases |a|
  {
    hide Enabled, Apply;
    if |a| == 0 {
      assert a + b == b;
    } else {
      assert (a + b)[1..] == a[1..] + b;
      RunAppend(c, Apply(c, s, a[0]), a[1..], b);
    }
  }

  predicate NoBreak(steps: seq<Step>) {
    forall i | 0 <= i < |steps| :: !steps[i].BreakWriter? && !steps[i].BreakReader?
  }

  // ---- what holds in every reachable state ----

  /** The writers and readers of both sides are the same, and a writer is at work in the session exactly
      while it may still be at work in the transport. */
  ghost predicate Matched(s: S.State, t: T.State) {
    && t.slots.Keys == s.openings.Keys && t.readers.Keys == s.reading.Keys
    && (forall id | S.Work(id) in s.writers :: id in t.slots && !t.slots[id].mode.Failed?)
    && (forall id | id in t.slots && t.slots[id].mode.Writing? :: S.Work(id) in s.writers)
  }

  ghost predicate SessionOk(c: S.Config, s: S.State) {
    SI.Inv(c, s) && ST.Owed(s, {}) && SF.Pristine(c, s) && SF.Covered(s)
  }

  ghost predicate Inv(c: Config, s: State) {
    && SessionOk(c.session, s.session) && TI.Inv(c.transport, s.transport) && Matched(s.session, s.transport)
  }

  lemma InitInv(c: Config)
    requires ValidConfig(c)
    ensures Inv(c, Init(c))
  {
    hide SI.Inv, ST.Owed, SF.Pristine, TI.Inv, S.ValidConfig, T.ValidConfig, SameFile;
    SI.InitInv(c.session);
    ST.InitOwed(c.session);
    SF.InitPristine(c.session);
    TI.InitInv(c.transport);
  }

  // ---- no signature is wrong ----

  lemma FirstIsSource(c: Config, id: nat)
    requires SameFile(c, id)
    ensures !SF.BadStart(c.session, id)
  {
    var f := c.transport.files[id];
    assert f.source[..f.start] + f.source[f.start..] == f.source;
  }

  lemma SoundFile(c: Config, id: nat)
    requires ValidConfig(c) && id in c.session.Remaining()
    ensures SameFile(c, id) && id in c.transport.files
  {
    hide SameFile, S.ValidConfig, T.ValidConfig, S.Config.Remaining;
  }

  lemma WorkRemains(c: S.Config, s: S.State, id: nat)
    requires SessionOk(c, s) && S.Work(id) in s.writers
    ensures id in c.Remaining() && SF.First(c, id) == s.openings[id] && S.Complete(s, id)
  {
    hide SI.Inv, ST.Owed, S.Config.Remaining, SF.First, SF.Untouched, SF.Unopened;
    SR.WorksInCharge(s, id);
    SR.InChargeRemains(c, s, id);
  }

  lemma NeverWrong(c: Config, s: State, id: nat)
    requires ValidConfig(c) && SessionOk(c.session, s.session) && S.Work(id) in s.session.writers
    ensures S.Complete(s.session, id) && !S.Wrong(c.session, id, s.session.openings[id])
  {
    hide ValidConfig, SessionOk, SameFile, S.Config.Remaining;
    WorkRemains(c.session, s.session, id);
    SoundFile(c, id);
    FirstIsSource(c, id);
  }

  lemma NeverMismatch(c: Config, s: State, e: S.Step)
    requires ValidConfig(c) && SessionOk(c.session, s.session) && S.Enabled(c.session, s.session, e)
    ensures !e.MismatchWriter?
  {
    hide ValidConfig, SessionOk, S.Wrong;
    if e.MismatchWriter? {
      NeverWrong(c, s, e.id);
    }
  }

  // ---- every step ----

  lemma SessionStep(c: Config, s: State, e: S.Step)
    requires ValidConfig(c) && SessionOk(c.session, s.session) && S.Enabled(c.session, s.session, e)
    ensures SessionOk(c.session, S.Apply(c.session, s.session, e)) && !e.MismatchWriter?
  {
    hide SI.Inv, ST.Counted, ST.Apart, SF.Pristine, SF.Covered, S.Enabled, S.Apply, S.ValidConfig, T.ValidConfig,
         SameFile;
    NeverMismatch(c, s, e);
    SI.StepInv(c.session, s.session, e);
    ST.StepOwed(c.session, s.session, e, {});
    SF.StepPristine(c.session, s.session, e);
    SF.StepCovered(c.session, s.session, e);
  }

  /** Only the sender's controller or the stream has moved. */
  lemma StillMatched(s: S.State, r: S.State, t: T.State)
    requires Matched(s, t) && r.openings == s.openings && r.reading == s.reading && r.writers == s.writers
    ensures Matched(r, t)
  {
  }

  /** What a message does on the receiving host, as far as the transport can see. */
  lemma DownOpens(c: Config, s: State)
    requires ValidConfig(c) && SI.Inv(c.session, s.session) && S.Enabled(c.session, s.session, S.DownBody)
    ensures var r, f := S.Apply(c.session, s.session, S.DownBody), s.session.flight;
            && r.reading == s.session.reading && f.Down?
            && (if f.m.Start? then
                  && r.openings.Keys == s.session.openings.Keys + {f.m.id} && f.m.id in c.transport.files
                  && r.writers == s.session.writers + multiset{S.Work(f.m.id)}
                else r.openings == s.session.openings && r.writers == s.session.writers)
  {
    hide S.ValidConfig, T.ValidConfig, SI.Plan, SI.LinkOk, S.Speaks, S.SendUp, S.Config.Remaining, SameFile,
         S.StartWriter;
    var l := c.session;
    SI.DownBodyIs(l, s.session);
    SI.DownIsOneOf(l, s.session);
    SI.SpeaksEncodes(l, s.session.flight.m);
    var q := s.session.(link := s.session.link.(b := CS.ReadBody(s.session.link.b)), flight := S.Nothing);
    if s.session.flight.m.Start? {
      SI.KnownHasStart(l, s.session);
      StartKnown(l, s.session);
      StartOpens(l, q, s.session.flight.m.id);
    } else {
      OthersOpenNothing(l, q, s.session.flight.m);
    }
  }

  lemma StartKnown(c: S.Config, s: S.State)
    requires SI.Turn(c, s) && s.flight.Down? && s.flight.m.Start?
    ensures s.flight.m.id in c.Remaining()
  {
  }

  lemma StartOpens(c: S.Config, q: S.State, id: nat)
    requires id in c.starts
    ensures var r := S.StartWriter(c, q, id);
            && r.reading == q.reading && r.openings.Keys == q.openings.Keys + {id}
            && r.writers == q.writers + multiset{S.Work(id)}
  {
    hide CS.Write;
  }

  lemma OthersOpenNothing(c: S.Config, q: S.State, m: S.Message)
    requires S.Encodes(c, m) && (m.Manifest? || m.Done?)
    ensures var r := S.ReceiverHandles(c, q, c.codec.write(m));
            r.reading == q.reading && r.openings == q.openings && r.writers == q.writers
  {
    hide S.ReceiverHandles;
    S.ReplyShape(c, q, m);
  }

  lemma OpenedMatched(c: Config, s: S.State, r: S.State, t: T.State, id: nat)
    requires Matched(s, t) && id in c.transport.files && id !in s.openings && r.reading == s.reading
    requires r.openings.Keys == s.openings.Keys + {id} && r.writers == s.writers + multiset{S.Work(id)}
    ensures Matched(r, OpenWriter(c, t, id))
  {
    var u := OpenWriter(c, t, id);
    assert id !in t.slots.Keys;
    forall j | S.Work(j) in r.writers
      ensures j in u.slots && !u.slots[j].mode.Failed?
    {
      assert j == id || S.Work(j) in s.writers;
    }
  }

  lemma FirstStart(c: Config, s: State)
    requires SessionOk(c.session, s.session) && s.session.flight.Down? && s.session.flight.m.Start?
    ensures s.session.flight.m.id !in s.session.openings
  {
    hide SI.LinkOk, SI.Plan, S.Config.Remaining, ST.Apart;
  }

  lemma DownMatched(c: Config, s: State)
    requires ValidConfig(c) && Inv(c, s) && Enabled(c, s, Control(S.DownBody))
    ensures var r := Apply(c, s, Control(S.DownBody)); Matched(r.session, r.transport)
  {
    hide S.ValidConfig, T.ValidConfig, SI.Inv, ST.Owed, SF.Pristine, SF.Covered, TI.Inv, Matched, SameFile, S.Apply,
         OpenWriter;
    DownOpens(c, s);
    var r := S.Apply(c.session, s.session, S.DownBody);
    if s.session.flight.m.Start? {
      FirstStart(c, s);
      OpenedMatched(c, s.session, r, s.transport, s.session.flight.m.id);
    } else {
      StillMatched(s.session, r, s.transport);
    }
  }

  lemma UpReads(c: Config, s: State)
    requires ValidConfig(c) && SI.Inv(c.session, s.session) && S.Enabled(c.session, s.session, S.UpBody)
    ensures var r, sp := S.Apply(c.session, s.session, S.UpBody), s.session.sp;
            && r.openings == s.session.openings && r.writers == s.session.writers
            && (if sp.WaitIndex? then
                  r.reading.Keys == s.session.reading.Keys + {sp.id} && sp.id in c.session.Remaining()
                else r.reading == s.session.reading)
  {
    hide S.ValidConfig, T.ValidConfig, SI.Plan, SI.LinkOk, S.SenderHandles, S.Config.Remaining, SameFile;
    var link := s.session.link;
    S.SenderShape(c.session, s.session.(link := link.(a := CS.ReadBody(link.a)), flight := S.Nothing),
                  CS.BodyOf(link.a, c.session.ks));
  }

  lemma ReadMatched(c: Config, s: S.State, r: S.State, t: T.State, id: nat)
    requires Matched(s, t) && id in c.transport.files && r.openings == s.openings && r.writers == s.writers
    requires r.reading.Keys == s.reading.Keys + {id}
    ensures Matched(r, OpenReader(c, t, id))
  {
    if id in t.readers {
      assert id in t.readers.Keys;
      assert s.reading.Keys + {id} == s.reading.Keys;
    }
  }

  lemma UpMatched(c: Config, s: State)
    requires ValidConfig(c) && Inv(c, s) && Enabled(c, s, Control(S.UpBody))
    ensures var r := Apply(c, s, Control(S.UpBody)); Matched(r.session, r.transport)
  {
    hide ValidConfig, SI.Inv, ST.Owed, SF.Pristine, SF.Covered, TI.Inv, Matched, SameFile, S.Apply, OpenReader,
         S.Config.Remaining;
    UpReads(c, s);
    var r := S.Apply(c.session, s.session, S.UpBody);
    if s.session.sp.WaitIndex? {
      SoundFile(c, s.session.sp.id);
      ReadMatched(c, s.session, r, s.transport, s.session.sp.id);
    } else {
      StillMatched(s.session, r, s.transport);
    }
  }

  /** Steps of the session that neither open nor end anything. */
  lemma TalkMatched(c: Config, s: State, e: S.Step)
    requires Matched(s.session, s.transport) && S.Enabled(c.session, s.session, e)
    requires !e.DownBody? && !e.UpBody? && !e.EndWriter? && !e.FailWriter? && !e.MismatchWriter? && !e.AbandonWriter?
    ensures Matched(S.Apply(c.session, s.session, e), s.transport)
  {
    hide Matched, CS.Write, CS.Arrive, CS.ReadLength, S.Wrong, S.FinalContent;
    TalkOnly(c.session, s.session, e);
    StillMatched(s.session, S.Apply(c.session, s.session, e), s.transport);
  }

  lemma TalkOnly(c: S.Config, s: S.State, e: S.Step)
    requires S.Enabled(c, s, e)
    requires !e.DownBody? && !e.UpBody? && !e.EndWriter? && !e.FailWriter? && !e.MismatchWriter? && !e.AbandonWriter?
    ensures var r := S.Apply(c, s, e); r.openings == s.openings && r.reading == s.reading && r.writers == s.writers
  {
    hide S.Greet, S.Schedule, S.TakeReport;
    match e
    case SayHello => S.GreetShape(c, s);
    case ScheduleNext => S.ScheduleShape(c, s);
    case HandleReport => SI.ReportShape(c, s);
    case _ =>
      hide S.Apply, S.Enabled;
      S.BytesShape(c, s, e);
  }

  /** A writer leaves the session: its slot is no longer at work. */
  lemma LeftMatched(s: S.State, r: S.State, t: T.State, u: T.State, id: nat)
    requires Matched(s, t) && r.openings == s.openings && r.reading == s.reading
    requires r.writers == s.writers - multiset{S.Work(id)} && s.writers[S.Work(id)] == 1
    requires u.readers == t.readers && u.slots.Keys == t.slots.Keys
    requires forall j | j in t.slots && j != id :: u.slots[j] == t.slots[j]
    requires id in u.slots ==> !u.slots[id].mode.Writing?
    ensures Matched(r, u)
  {
    forall j | S.Work(j) in r.writers
      ensures j in u.slots && !u.slots[j].mode.Failed?
    {
      assert j != id && S.Work(j) in s.writers;
      assert j in t.slots.Keys;
    }
    forall j | j in u.slots && u.slots[j].mode.Writing?
      ensures S.Work(j) in r.writers
    {
      assert j != id && j in t.slots.Keys;
    }
  }

  lemma OnceAtWork(s: S.State, id: nat)
    requires ST.Owed(s, {}) && S.Work(id) in s.writers
    ensures s.writers[S.Work(id)] == 1
  {
    hide ST.Apart;
    SF.AtMostOnce(s, id);
  }

  lemma EndMatched(c: Config, s: State, id: nat)
    requires Inv(c, s) && Enabled(c, s, Control(S.EndWriter(id)))
    ensures Matched(S.Apply(c.session, s.session, S.EndWriter(id)), s.transport)
  {
    hide SI.Inv, ST.Owed, SF.Pristine, SF.Covered, TI.Inv, Matched, S.Wrong;
    OnceAtWork(s.session, id);
    LeftMatched(s.session, S.Apply(c.session, s.session, S.EndWriter(id)), s.transport, s.transport, id);
  }

  lemma BreakMatched(c: Config, s: State, id: nat, taken: bool)
    requires Inv(c, s) && Enabled(c, s, BreakWriter(id, taken))
    ensures var r := Apply(c, s, BreakWriter(id, taken)); Matched(r.session, r.transport)
  {
    hide SI.Inv, ST.Owed, SF.Pristine, SF.Covered, TI.Inv, Matched, S.Apply;
    OnceAtWork(s.session, id);
    S.TaskShape(c.session, s.session, S.FailWriter(id));
    WorkLeaves(c.session, s.session, id);
    var r := Apply(c, s, BreakWriter(id, taken));
    LeftMatched(s.session, r.session, s.transport, r.transport, id);
  }

  lemma WorkLeaves(c: S.Config, s: S.State, id: nat)
    requires S.Enabled(c, s, S.FailWriter(id))
    ensures S.Apply(c, s, S.FailWriter(id)).writers == s.writers - multiset{S.Work(id)}
  {
  }

  lemma ReaderBreakMatched(c: Config, s: State, id: nat)
    requires Matched(s.session, s.transport) && Enabled(c, s, BreakReader(id))
    ensures Matched(s.session, T.Apply(c.transport, s.transport, T.FailReader(id)))
  {
    assert s.transport.readers.Keys + {id} == s.transport.readers.Keys;
  }

  lemma ReaderKeysStay(c: T.Config, t: T.State, e: T.Step)
    requires T.Enabled(c, t, e) && TF.Inner(e)
    ensures T.Apply(c, t, e).readers.Keys == t.readers.Keys
  {
    hide RS.FillBuffer, T.Queued, T.Full;
    if !T.MovesReaders(e) {
      hide T.Apply, T.Enabled;
      T.ReadersStay(c, t, e);
    }
  }

  /** Inner steps start nothing, and at most close a writer. */
  lemma DataModes(c: T.Config, t: T.State, e: T.Step)
    requires T.Enabled(c, t, e) && TF.Inner(e)
    ensures var u := T.Apply(c, t, e);
            && u.readers.Keys == t.readers.Keys && u.slots.Keys == t.slots.Keys
            && forall id | id in t.slots ::
                 u.slots[id].mode == t.slots[id].mode || (t.slots[id].mode.Writing? && u.slots[id].mode.Closed?)
  {
    hide T.Queued, T.Full, WS.Arrive;
    ReaderKeysStay(c, t, e);
    if !T.MovesWriters(e) {
      hide T.Apply, T.Enabled;
      if T.Delivers(e) {
        T.DeliversMoves(c, t, e);
      } else {
        T.WritersStay(c, t, e);
      }
    }
  }

  lemma DataMatched(c: Config, s: State, e: T.Step)
    requires Matched(s.session, s.transport) && Enabled(c, s, Data(e))
    ensures Matched(s.session, T.Apply(c.transport, s.transport, e))
  {
    hide T.Enabled, T.Apply;
    DataModes(c.transport, s.transport, e);
    var u := T.Apply(c.transport, s.transport, e);
    forall id | id in u.slots && u.slots[id].mode.Writing?
      ensures S.Work(id) in s.session.writers
    {
      assert id in s.transport.slots.Keys;
    }
  }

  lemma FollowOk(c: Config, s: State, e: S.Step)
    requires ValidConfig(c) && TI.Inv(c.transport, s.transport)
    ensures TI.Inv(c.transport, Follow(c, s, e))
  {
    hide TI.Inv, S.ValidConfig, T.ValidConfig, SameFile, T.Apply;
    if e.DownBody? && s.session.flight.Down? && s.session.flight.m.Start? {
      OpenWriterOk(c, s.transport, s.session.flight.m.id);
    } else if e.UpBody? && s.session.sp.WaitIndex? {
      OpenReaderOk(c, s.transport, s.session.sp.id);
    }
  }

  lemma OpenWriterOk(c: Config, t: T.State, id: nat)
    requires ValidConfig(c) && TI.Inv(c.transport, t)
    ensures TI.Inv(c.transport, OpenWriter(c, t, id))
  {
    hide TI.Inv, S.ValidConfig, T.ValidConfig, SameFile;
    if id in c.transport.files && id !in t.slots {
      TI.StepInv(c.transport, t, T.StartWriter(id));
    }
  }

  lemma OpenReaderOk(c: Config, t: T.State, id: nat)
    requires ValidConfig(c) && TI.Inv(c.transport, t)
    ensures TI.Inv(c.transport, OpenReader(c, t, id))
  {
    hide TI.Inv, S.ValidConfig, T.ValidConfig, SameFile;
    if id in c.transport.files && id !in t.readers {
      TI.StepInv(c.transport, t, T.StartReader(id));
    }
  }

  lemma ControlMatched(c: Config, s: State, e: S.Step)
    requires ValidConfig(c) && Inv(c, s) && Enabled(c, s, Control(e)) && !e.MismatchWriter?
    ensures var r := Apply(c, s, Control(e)); Matched(r.session, r.transport)
  {
    hide ValidConfig, SI.Inv, ST.Counted, ST.Apart, SF.Pristine, SF.Covered, TI.Inv, Matched, S.Apply, OpenWriter,
         OpenReader;
    if e.DownBody? {
      DownMatched(c, s);
    } else if e.UpBody? {
      UpMatched(c, s);
    } else if e.EndWriter? {
      EndMatched(c, s, e.id);
    } else if e.AbandonWriter? {
      ST.NoneFailing(s.session, e.id, {});
    } else {
      TalkMatched(c, s, e);
    }
  }

  lemma StepInv(c: Config, s: State, e: Step)
    requires ValidConfig(c) && Inv(c, s) && Enabled(c, s, e)
    ensures Inv(c, Apply(c, s, e))
  {
    hide S.ValidConfig, T.ValidConfig, SameFile, SessionOk, TI.Inv, Matched, S.Enabled, T.Enabled, S.Apply, T.Apply,
         Follow;
    match e
    case Control(e) =>
      SessionStep(c, s, e);
      FollowOk(c, s, e);
      ControlMatched(c, s, e);
    case Data(e) =>
      TI.StepInv(c.transport, s.transport, e);
      DataMatched(c, s, e);
    case BreakWriter(id, taken) =>
      SessionStep(c, s, S.FailWriter(id));
      if T.AtWork(s.transport, id) {
        TI.StepInv(c.transport, s.transport, T.FailWriter(id, taken));
      }
      BreakMatched(c, s, id, taken);
    case BreakReader(id) =>
      TI.StepInv(c.transport, s.transport, T.FailReader(id));
      ReaderBreakMatched(c, s, id);
  }

  lemma {:induction false} RunInv(c: Config, s: State, steps: seq<Step>)
    requires ValidConfig(c) && Inv(c, s) && CanRun(c, s, steps)
    ensures Inv(c, After(c, s, steps))
    decreases |steps|
  {
    hide Inv, ValidConfig, Enabled, Apply;
    if |steps| > 0 {
      StepInv(c, s, steps[0]);
      RunInv(c, Apply(c, s, steps[0]), steps[1..]);
    }
  }
}
