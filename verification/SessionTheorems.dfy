/** What the control session guarantees in every run. */
module SessionTheorems {
  import opened Channels
  import opened ControlStream
  import opened Session
  import opened SessionSafety

  lemma ReachableInv(c: Config, steps: seq<Step>)
    requires ValidConfig(c) && CanRun(c, Init(c), steps)
    ensures Inv(c, After(c, Init(c), steps))
  {
    hide Inv, ValidConfig, Enabled, Apply;
    InitInv(c);
    RunInv(c, Init(c), steps);
  }

  /** The two ends stay in lock-step: bytes are on their way in one direction at most, and the keystream
      positions differ by exactly those bytes, wherever the network cuts the stream. */
  lemma LockStep(c: Config, steps: seq<Step>)
    requires ValidConfig(c) && CanRun(c, Init(c), steps)
    ensures var l := After(c, Init(c), steps).link;
            && l.a.pos + |l.a.inbox| + |l.ba| == l.b.pos + |l.b.inbox| + |l.ab|
            && (|l.a.inbox| + |l.ba| == 0 || |l.b.inbox| + |l.ab| == 0)
  {
    hide ValidConfig, CanRun, After, Turn, Plan, Speaks;
    ReachableInv(c, steps);
  }

  /** Every message that can be read is the one that was written, on both ends. */
  lemma MessagesReadBack(c: Config, steps: seq<Step>)
    requires ValidConfig(c) && CanRun(c, Init(c), steps)
    ensures var s := After(c, Init(c), steps);
            && (BodyReady(s.link.b) ==> s.flight.Down? && c.codec.read(BodyOf(s.link.b, c.ks)) == s.flight.m)
            && (BodyReady(s.link.a) ==>
                  && s.flight.Up?
                  && (if s.sp.WaitIndex? then
                        s.flight.m.StartIndex? && c.codec.readIndex(BodyOf(s.link.a, c.ks)) == s.flight.m.index
                      else c.codec.read(BodyOf(s.link.a, c.ks)) == s.flight.m))
  {
    hide ValidConfig, CanRun, After, Plan, Speaks;
    ReachableInv(c, steps);
    var s := After(c, Init(c), steps);
    if BodyReady(s.link.b) {
      DownBodyIs(c, s);
      DownIsOneOf(c, s);
      SpeaksEncodes(c, s.flight.m);
    }
    if BodyReady(s.link.a) {
      UpBodyIs(c, s);
      SpeaksEncodes(c, s.flight.m);
      UpIsOneOf(c, s);
    }
  }

  lemma UpIsOneOf(c: Config, s: State)
    requires Turn(c, s) && s.flight.Up?
    ensures s.sp.WaitIndex? <==> s.flight.m.StartIndex?
  {
  }

  /** After the exchange both hosts work on the same files: every Start names a file the receiving host
      knows, so it is answered, and nobody meets a message it does not expect, unless there was no space. */
  lemma HandshakeAgreement(c: Config, steps: seq<Step>)
    requires ValidConfig(c) && CanRun(c, Init(c), steps)
    ensures var s := After(c, Init(c), steps);
            && (s.rp.WaitStart? ==> s.known == c.Remaining())
            && (s.flight.Down? && s.flight.m.Start? ==> s.rp.WaitStart? && s.flight.m.id in s.known)
            && (Greeted(s) ==> s.files + s.active <= c.Remaining())
            && (s.sp.SenderError? || s.rp.ReceiverError? ==> !c.enoughSpace)
  {
    hide ValidConfig, CanRun, After, LinkOk, Turn, Plan, Config.Remaining;
    ReachableInv(c, steps);
    TurnAgrees(c, After(c, Init(c), steps));
    PlanAgrees(c, After(c, Init(c), steps));
  }

  lemma TurnAgrees(c: Config, s: State)
    requires Turn(c, s)
    ensures s.rp.WaitStart? ==> s.known == c.Remaining()
    ensures s.flight.Down? && s.flight.m.Start? ==> s.rp.WaitStart? && s.flight.m.id in s.known
    ensures s.sp.SenderError? || s.rp.ReceiverError? ==> !c.enoughSpace
  {
    hide Config.Remaining;
  }

  lemma PlanAgrees(c: Config, s: State)
    requires Plan(c, s)
    ensures Greeted(s) ==> s.files + s.active <= c.Remaining()
  {
    hide Shares, Numbered, Logged, Config.Remaining;
    if Greeted(s) {
      SharesRemaining(c.Remaining(), s.files, s.active, Pending(s), s.ended);
    }
  }

  /** Every Start is answered by exactly one StartIndex: the answer is the only thing that can follow it,
      and it is the index found at first until the partial file has once been missing. */
  lemma StartIsAnswered(c: Config, steps: seq<Step>)
    requires ValidConfig(c) && CanRun(c, Init(c), steps)
    requires var s := After(c, Init(c), steps); Enabled(c, s, DownBody) && s.flight.Down? && s.flight.m.Start?
    ensures var s := After(c, Init(c), steps);
            var r := Apply(c, s, DownBody);
            && s.flight.m.id in c.starts
            && r.flight == Up(StartIndex(if s.flight.m.id !in s.partials || s.flight.m.id in s.reset then 0
                                         else c.starts[s.flight.m.id]))
            && r.reset == (if s.flight.m.id in s.partials then s.reset else s.reset + {s.flight.m.id})
            && r.writers == s.writers + multiset{Work(s.flight.m.id)}
            && var base := if s.flight.m.id in s.partials then s.partials[s.flight.m.id] else [];
               && r.partials == s.partials[s.flight.m.id := base]
               && r.openings == s.openings[s.flight.m.id := Opening(r.flight.m.index, base)]
  {
    hide ValidConfig, CanRun, After, Plan, Speaks, Write;
    ReachableInv(c, steps);
    var s := After(c, Init(c), steps);
    DownBodyIs(c, s);
    SpeaksEncodes(c, s.flight.m);
    KnownHasStart(c, s);
  }

  // ---- what there is to send ----

  predicate NothingToSend(c: Config) {
    c.manifest == {} && !c.hasDirectories
  }

  ghost predicate Dismissed(s: State) {
    s.sp.Greeting? || s.sp == Finished(0)
  }

  lemma StepDismissed(c: Config, s: State, e: Step)
    requires NothingToSend(c) && Dismissed(s) && Enabled(c, s, e)
    ensures Dismissed(Apply(c, s, e))
  {
    hide Write, StartWriter, SendUp, ReceiverHandles, Wrong, FinalContent;
    if e.DownBody? {
      DownKeepsSender(c, s);
    }
  }

  lemma DownKeepsSender(c: Config, s: State)
    requires Enabled(c, s, DownBody)
    ensures Apply(c, s, DownBody).sp == s.sp
  {
    hide Write;
  }

  lemma {:induction false} RunDismissed(c: Config, s: State, steps: seq<Step>)
    requires NothingToSend(c) && Dismissed(s) && CanRun(c, s, steps)
    ensures Dismissed(After(c, s, steps))
    decreases |steps|
  {
    hide Enabled, Apply, Dismissed;
    if |steps| > 0 {
      StepDismissed(c, s, steps[0]);
      RunDismissed(c, Apply(c, s, steps[0]), steps[1..]);
    }
  }

  /** The first message the receiving host gets, whatever it is: a manifest goes on if there is space and is refused
      otherwise, Done 0 closes, and anything else is an error. */
  lemma FirstMessage(c: Config, s: State, m: Message)
    requires s.rp.WaitManifest? && Encodes(c, m) && !m.StartIndex?
    ensures var r := ReceiverHandles(c, s, c.codec.write(m));
            && (r.rp.WaitStart? <==> m.Manifest? && c.enoughSpace)
            && (r.rp.WaitStart? ==> r.known == m.ids - c.existing && r.flight == Up(Completed(m.ids * c.existing)))
            && (r.rp.Closed? <==> m == Done(0)) && (r.rp.Closed? ==> r.rp == Closed(0))
            && (m.Manifest? && !c.enoughSpace ==> r.rp.ReceiverError? && r.flight == Up(Refused))
            && (!m.Manifest? && m != Done(0) ==> r.rp.ReceiverError? && r.flight == s.flight)
  {
    hide Write;
  }

  /** The answer to the manifest, whatever it is: completed files are struck, with Done 1 if they are all; anything
      else is an error. */
  lemma FirstAnswer(c: Config, s: State, m: Message)
    requires s.sp.WaitCompleted? && Encodes(c, m) && !m.StartIndex?
    ensures var r := SenderHandles(c, s, c.codec.write(m));
            && (r.sp.SenderError? <==> !m.Completed?)
            && (m.Completed? ==> forall id :: id in r.files <==> id in s.files && id !in m.ids)
            && (r.sp == Finished(1) <==> m.Completed? && s.files <= m.ids)
            && (r.sp == Finished(1) ==> r.flight == Down(Done(1)))
            && (m.Completed? && r.sp != Finished(1) ==> r.sp == Scheduling && r.flight == s.flight)
            && (!m.Completed? ==> r.files == s.files && r.flight == s.flight)
  {
    hide Write;
  }

  /** The session ends with Done 0 exactly when there is neither a file nor a directory to send: then with its first
      message, and otherwise never. */
  lemma DoneZeroIff(c: Config, steps: seq<Step>)
    requires ValidConfig(c) && CanRun(c, Init(c), steps)
    ensures var s := After(c, Init(c), steps);
            && (s.sp == Finished(0) <==> NothingToSend(c) && !s.sp.Greeting?)
            && (s.flight == Down(Done(0)) || s.rp == Closed(0) ==> NothingToSend(c))
  {
    hide ValidConfig, CanRun, After, LinkOk, Turn, Plan, NothingToSend;
    ReachableInv(c, steps);
    ZeroMeans(c, After(c, Init(c), steps));
    if NothingToSend(c) {
      RunDismissed(c, Init(c), steps);
    }
  }

  lemma ZeroMeans(c: Config, s: State)
    requires Turn(c, s) && Plan(c, s)
    ensures s.sp == Finished(0) || s.flight == Down(Done(0)) || s.rp == Closed(0) ==> NothingToSend(c)
  {
    hide Shares, Numbered, Logged, Config.Remaining;
  }

  // ---- readers start where writers start ----

  /** The answer to a Start of the file is on its way. */
  predicate Answering(s: State, id: nat) {
    s.sp.WaitIndex? && s.sp.id == id && s.flight.Up?
  }

  /** The index on its way is that of the writer it answers for, and every reader was given the index of the
      writer of its file, unless that file has just been started again. */
  ghost predicate IndexesAgree(s: State) {
    && (s.flight.Up? && s.sp.WaitIndex? ==>
          s.flight.m.StartIndex? && s.sp.id in s.openings && s.flight.m.index == s.openings[s.sp.id].index)
    && (forall id | id in s.reading ::
          id in s.openings && (Answering(s, id) || s.reading[id] == s.openings[id].index))
  }

  lemma SameIndexes(s: State, r: State)
    requires IndexesAgree(s) && r.openings == s.openings && r.reading == s.reading
    requires if s.flight.Up? && s.sp.WaitIndex? then r.flight == s.flight && r.sp == s.sp
             else !(r.flight.Up? && r.sp.WaitIndex?)
    ensures IndexesAgree(r)
  {
  }

  lemma StartIndexes(c: Config, s: State, q: State)
    requires Turn(c, s) && s.flight.Down? && s.flight.m.Start? && Encodes(c, s.flight.m) && IndexesAgree(s)
    requires s.rp.WaitStart? && s.flight.m.id in s.known && s.flight.m.id in c.starts
    requires q == s.(link := q.link, flight := Nothing)
    ensures IndexesAgree(ReceiverHandles(c, q, c.codec.write(s.flight.m)))
  {
    hide Write, Config.Remaining;
    var id, r := s.flight.m.id, ReceiverHandles(c, q, c.codec.write(s.flight.m));
    assert s.sp.WaitIndex? && s.sp.id == id && r.sp == s.sp && r.flight.Up?;
    assert forall j | j in r.reading && j != id :: r.openings[j] == s.openings[j];
  }

  lemma DownIndexes(c: Config, s: State)
    requires ValidConfig(c) && Inv(c, s) && IndexesAgree(s) && Enabled(c, s, DownBody)
    ensures IndexesAgree(Apply(c, s, DownBody))
  {
    hide ValidConfig, Plan, Speaks, Write, Config.Remaining, IndexesAgree, StartWriter;
    DownBodyIs(c, s);
    DownIsOneOf(c, s);
    SpeaksEncodes(c, s.flight.m);
    var q := s.(link := s.link.(b := ReadBody(s.link.b)), flight := Nothing);
    if s.flight.m.Start? {
      KnownHasStart(c, s);
      StartIndexes(c, s, q);
    } else {
      SameIndexes(s, Apply(c, s, DownBody));
    }
  }

  lemma UpIndexes(c: Config, s: State)
    requires ValidConfig(c) && Inv(c, s) && IndexesAgree(s) && Enabled(c, s, UpBody)
    ensures IndexesAgree(Apply(c, s, UpBody))
  {
    hide ValidConfig, Plan, Speaks, Write, Config.Remaining;
    UpBodyIs(c, s);
    SpeaksEncodes(c, s.flight.m);
    UpIsOneOf(c, s);
  }

  lemma StepIndexes(c: Config, s: State, e: Step)
    requires ValidConfig(c) && Inv(c, s) && IndexesAgree(s) && Enabled(c, s, e)
    ensures IndexesAgree(Apply(c, s, e))
  {
    hide ValidConfig, Inv, Enabled, Apply, IndexesAgree;
    if e.DownBody? {
      DownIndexes(c, s);
    } else if e.UpBody? {
      UpIndexes(c, s);
    } else if e.SayHello? || e.ScheduleNext? || e.HandleReport? {
      SenderIndexes(c, s, e);
    } else {
      if MovesBytes(e) {
        BytesShape(c, s, e);
      } else {
        TaskShape(c, s, e);
      }
      SameIndexes(s, Apply(c, s, e));
    }
  }

  lemma SenderIndexes(c: Config, s: State, e: Step)
    requires Inv(c, s) && IndexesAgree(s) && Enabled(c, s, e) && (e.SayHello? || e.ScheduleNext? || e.HandleReport?)
    ensures IndexesAgree(Apply(c, s, e))
  {
    hide LinkOk, Plan, Greet, Schedule, TakeReport, Config.Remaining, IndexesAgree;
    assert s.flight.Nothing?;
    if e.SayHello? {
      GreetIndexes(c, s);
    } else if e.ScheduleNext? {
      ScheduleIndexes(c, s);
    } else {
      ReportIndexes(c, s);
    }
  }

  lemma GreetIndexes(c: Config, s: State)
    requires s.flight.Nothing? && IndexesAgree(s)
    ensures IndexesAgree(Greet(c, s))
  {
    hide Greet, IndexesAgree;
    GreetShape(c, s);
    SameIndexes(s, Greet(c, s));
  }

  lemma ScheduleIndexes(c: Config, s: State)
    requires s.flight.Nothing? && IndexesAgree(s)
    ensures IndexesAgree(Schedule(c, s))
  {
    hide Schedule, IndexesAgree;
    ScheduleShape(c, s);
    SameIndexes(s, Schedule(c, s));
  }

  lemma ReportIndexes(c: Config, s: State)
    requires s.flight.Nothing? && IndexesAgree(s) && |s.reports| > 0
    ensures IndexesAgree(TakeReport(c, s))
  {
    hide IndexesAgree, TakeReport;
    ReportShape(c, s);
    SameIndexes(s, TakeReport(c, s));
  }

  lemma {:induction false} RunIndexes(c: Config, s: State, steps: seq<Step>)
    requires ValidConfig(c) && Inv(c, s) && IndexesAgree(s) && CanRun(c, s, steps)
    ensures IndexesAgree(After(c, s, steps))
    decreases |steps|
  {
    hide Inv, ValidConfig, Enabled, Apply, IndexesAgree;
    if |steps| > 0 {
      StepInv(c, s, steps[0]);
      StepIndexes(c, s, steps[0]);
      RunIndexes(c, Apply(c, s, steps[0]), steps[1..]);
    }
  }

  /** A reader starts at the index the writer of its file starts at, in the first attempt and in any other. */
  lemma ReadersFollowWriters(c: Config, steps: seq<Step>, id: nat)
    requires ValidConfig(c) && CanRun(c, Init(c), steps) && id in After(c, Init(c), steps).reading
    ensures var s := After(c, Init(c), steps);
            id in s.openings && (!Answering(s, id) ==> s.reading[id] == s.openings[id].index)
  {
    hide ValidConfig, Inv, CanRun, After;
    InitInv(c);
    RunIndexes(c, Init(c), steps);
  }

  /** The scheduler starts every remaining file once, in ascending order, with at most `max` at a time,
      and waits for a report only while a file is active. */
  lemma SchedulerOrder(c: Config, steps: seq<Step>)
    requires ValidConfig(c) && CanRun(c, Init(c), steps)
    ensures var s := After(c, Init(c), steps);
            Greeted(s) ==>
              && Ascending(s.started) && IdSet(s.started) == c.Remaining() - s.files
              && |s.active| <= c.max && s.active !! s.files
              && (s.sp.WaitReport? ==> s.active != {})
              && (s.sp.Finished? && s.sp.reason != 0 ==> s.ended == c.Remaining())
  {
    hide ValidConfig, CanRun, After, LinkOk, Turn;
    ReachableInv(c, steps);
    var s := After(c, Init(c), steps);
    if Greeted(s) {
      StartedAreGone(c, s);
      EndedIsAll(c, s);
    }
  }

  lemma StartedAreGone(c: Config, s: State)
    requires Plan(c, s) && Greeted(s)
    ensures IdSet(s.started) == c.Remaining() - s.files && s.active !! s.files
  {
    forall id
      ensures id in IdSet(s.started) <==> id in c.Remaining() && id !in s.files
    {
      assert id in c.Remaining() <==> id in s.files || id in s.active || id in Pending(s) || id in s.ended;
      assert id in IdSet(s.started) <==> id in s.active || id in Pending(s) || id in s.ended;
    }
  }

  lemma EndedIsAll(c: Config, s: State)
    requires Plan(c, s) && Greeted(s)
    ensures s.sp.Finished? && s.sp.reason != 0 ==> s.ended == c.Remaining()
  {
    hide Numbered, Logged;
    if s.sp.Finished? && s.sp.reason != 0 {
      assert Pending(s) == {};
    }
  }

  // ---- writers and their reports ----

  /** The reports that end file `id`. */
  function Owing(reports: seq<Report>, id: nat): nat {
    if |reports| == 0 then 0 else (if reports[0].id == id then 1 else 0) + Owing(reports[1..], id)
  }

  lemma {:induction false} OwingAppend(reports: seq<Report>, r: Report, id: nat)
    ensures Owing(reports + [r], id) == Owing(reports, id) + (if r.id == id then 1 else 0)
  {
    if |reports| == 0 {
      assert (reports + [r])[1..] == [];
    } else {
      assert (reports + [r])[1..] == reports[1..] + [r];
      OwingAppend(reports[1..], r, id);
    }
  }

  /** The files the receiving host is in charge of: active ones, and one whose StartIndex is on its way. */
  function InCharge(s: State): set<nat> {
    s.active + (if s.sp.WaitIndex? && s.flight.Up? then {s.sp.id} else {})
  }

  predicate Final(r: Report) {
    r.End? || r.reason == 2
  }

  /** The number of writers of a file at work and of its reports outstanding. */
  function Count(s: State, id: nat): nat {
    s.writers[Work(id)] + Owing(s.reports, id)
  }

  /** Every file in charge has one writer at work or one report outstanding, no other file has either,
      except that each of the `orphans` has one more. */
  ghost predicate Counted(s: State, orphans: set<nat>) {
    && (forall id :: s.writers[Failing(id)] == 0)
    && (forall i | 0 <= i < |s.reports| :: Final(s.reports[i]))
    && !(s.sp.WaitIndex? && s.sp.retry)
    && (forall id :: Count(s, id) == (if id in InCharge(s) then 1 else 0) + (if id in orphans then 1 else 0))
  }

  /** What the orphans have more is a writer at work that nobody waits for. */
  ghost predicate Apart(s: State, orphans: set<nat>) {
    forall id | id in orphans :: id !in s.files && id !in InCharge(s) && id !in Pending(s) && Owing(s.reports, id) == 0
  }

  ghost predicate Owed(s: State, orphans: set<nat>) {
    Counted(s, orphans) && Apart(s, orphans)
  }

  lemma SameCounted(s: State, r: State, orphans: set<nat>)
    requires Counted(s, orphans) && r.writers == s.writers && r.reports == s.reports
    requires InCharge(r) == InCharge(s) && !(r.sp.WaitIndex? && r.sp.retry)
    ensures Counted(r, orphans)
  {
    forall id
      ensures Count(r, id) == (if id in InCharge(r) then 1 else 0) + (if id in orphans then 1 else 0)
    {
      assert Count(s, id) == Count(r, id);
    }
  }

  lemma SameApart(s: State, r: State, orphans: set<nat>)
    requires Apart(s, orphans) && r.reports == s.reports
    requires InCharge(r) <= InCharge(s) + s.files + Pending(s)
    requires r.files <= s.files && Pending(r) <= s.files + Pending(s)
    ensures Apart(r, orphans)
  {
  }

  lemma WorkEnds(s: State, id: nat, report: Report, orphans: set<nat>)
    requires Owed(s, orphans) && Work(id) in s.writers && id !in orphans && report.id == id && Final(report)
    ensures Owed(s.(writers := s.writers - multiset{Work(id)}, reports := s.reports + [report]), orphans)
  {
    var r := s.(writers := s.writers - multiset{Work(id)}, reports := s.reports + [report]);
    forall j
      ensures Count(r, j) == (if j in InCharge(r) then 1 else 0) + (if j in orphans then 1 else 0)
      ensures Owing(r.reports, j) == Owing(s.reports, j) + (if j == id then 1 else 0)
    {
      OwingAppend(s.reports, report, j);
      assert Count(s, j) == (if j in InCharge(s) then 1 else 0) + (if j in orphans then 1 else 0);
      assert r.writers[Work(j)] == s.writers[Work(j)] - (if j == id then 1 else 0);
    }
    forall j
      ensures r.writers[Failing(j)] == 0
    {
      assert s.writers[Failing(j)] == 0;
    }
  }

  lemma WorkStarts(s: State, r: State, id: nat, orphans: set<nat>)
    requires Counted(s, orphans) && r.writers == s.writers + multiset{Work(id)} && r.reports == s.reports
    requires s.sp == WaitIndex(id, false) && r.sp == s.sp && !s.flight.Up? && r.flight.Up?
    requires r.active == s.active && id !in s.active
    ensures Counted(r, orphans) && InCharge(r) == InCharge(s) + {id}
  {
    assert InCharge(s) == s.active && InCharge(r) == s.active + {id};
    forall j
      ensures Count(r, j) == (if j in InCharge(r) then 1 else 0) + (if j in orphans then 1 else 0)
    {
      assert Count(s, j) == (if j in InCharge(s) then 1 else 0) + (if j in orphans then 1 else 0);
      assert r.writers[Work(j)] == s.writers[Work(j)] + (if j == id then 1 else 0);
    }
    forall j
      ensures r.writers[Failing(j)] == 0
    {
      assert s.writers[Failing(j)] == 0;
    }
  }

  lemma SameOwed(s: State, r: State, orphans: set<nat>)
    requires Owed(s, orphans) && r == s.(partials := r.partials)
    ensures Owed(r, orphans)
  {
    hide Counted, Apart;
    NoRetry(s, orphans);
    SameCounted(s, r, orphans);
    SameApart(s, r, orphans);
  }

  /** The first report names an active file, which it ends. */
  lemma FirstReport(s: State, orphans: set<nat>)
    requires Owed(s, orphans) && s.sp.WaitReport? && |s.reports| > 0
    ensures Final(s.reports[0]) && s.reports[0].id in s.active
    ensures Owed(Remove(s.(reports := s.reports[1..]), s.reports[0].id), orphans)
  {
    var id := s.reports[0].id;
    assert Owing(s.reports, id) >= 1;
    assert Count(s, id) == (if id in InCharge(s) then 1 else 0) + (if id in orphans then 1 else 0);
    assert InCharge(s) == s.active;
    var r := Remove(s.(reports := s.reports[1..]), id);
    assert InCharge(r) == s.active - {id};
    forall j
      ensures Count(r, j) == (if j in InCharge(r) then 1 else 0) + (if j in orphans then 1 else 0)
      ensures Owing(r.reports, j) <= Owing(s.reports, j)
    {
      assert Count(s, j) == (if j in InCharge(s) then 1 else 0) + (if j in orphans then 1 else 0);
    }
  }

  lemma HandleReportOwed(c: Config, s: State, orphans: set<nat>)
    requires Owed(s, orphans) && s.sp.WaitReport? && |s.reports| > 0
    ensures Owed(TakeReport(c, s), orphans)
  {
    hide Write;
    FirstReport(s, orphans);
    var q := Remove(s.(reports := s.reports[1..]), s.reports[0].id);
    OwedAcross(q, EndOfRound(c, q), orphans);
  }

  lemma OwedAcross(s: State, r: State, orphans: set<nat>)
    requires Owed(s, orphans) && r.writers == s.writers && r.reports == s.reports
    requires r.active == s.active && r.files == s.files
    requires !s.sp.WaitIndex? && !r.sp.WaitIndex?
    ensures Owed(r, orphans)
  {
    SameCounted(s, r, orphans);
    SameApart(s, r, orphans);
  }

  /** The steps of the two controllers and of the network, other than handling a report. */
  predicate Talk(e: Step) {
    !e.HandleReport? && !e.EndWriter? && !e.FailWriter? && !e.MismatchWriter? && !e.AbandonWriter?
  }

  lemma StartIs(c: Config, s: State)
    requires Turn(c, s) && Plan(c, s) && s.flight.Down? && s.flight.m.Start?
    ensures s.sp.WaitIndex? && s.sp.id == s.flight.m.id
    ensures !s.sp.retry ==> s.flight.m.id !in s.active
  {
    hide Shares, Logged;
    if !s.sp.retry {
      PendingIsNext(c, s);
    }
  }

  /** What a talk step does to the files and the writers. */
  ghost predicate Talked(s: State, r: State) {
    && r.reports == s.reports && r.ended == s.ended
    && InCharge(r) <= InCharge(s) + s.files + Pending(s)
    && r.files <= s.files && Pending(r) <= s.files + Pending(s)
    && s.active <= r.active
  }

  lemma DownBodyCounted(c: Config, s: State, orphans: set<nat>)
    requires ValidConfig(c) && Inv(c, s) && Counted(s, orphans) && Enabled(c, s, DownBody)
    ensures Counted(Apply(c, s, DownBody), orphans) && Talked(s, Apply(c, s, DownBody))
  {
    hide Counted, Write, Speaks, Plan;
    DownBodyIs(c, s);
    DownIsOneOf(c, s);
    SpeaksEncodes(c, s.flight.m);
    var q := s.(link := s.link.(b := ReadBody(s.link.b)), flight := Nothing);
    if s.flight.m.Start? {
      KnownHasStart(c, s);
      NoRetry(s, orphans);
      StartIs(c, s);
      StartCounted(c, s, q, orphans);
    } else {
      OtherDownCounted(c, s, q, orphans);
    }
  }

  lemma StartCounted(c: Config, s: State, q: State, orphans: set<nat>)
    requires s.sp.WaitIndex? && !s.sp.retry && s.sp.id !in s.active
    requires Counted(s, orphans) && s.flight == Down(Start(s.sp.id)) && q == s.(link := q.link, flight := Nothing)
    requires s.rp.WaitStart? && s.sp.id in s.known && s.sp.id in c.starts && Encodes(c, s.flight.m)
    ensures var r := ReceiverHandles(c, q, c.codec.write(s.flight.m)); Counted(r, orphans) && Talked(s, r)
  {
    hide Counted, Write;
    WorkStarts(s, ReceiverHandles(c, q, c.codec.write(s.flight.m)), s.sp.id, orphans);
  }

  lemma OtherDownCounted(c: Config, s: State, q: State, orphans: set<nat>)
    requires Counted(s, orphans) && s.flight.Down? && q == s.(link := q.link, flight := Nothing)
    requires Turn(c, s) && (s.flight.m.Manifest? || s.flight.m.Done?) && Encodes(c, s.flight.m)
    ensures var r := ReceiverHandles(c, q, c.codec.write(s.flight.m)); Counted(r, orphans) && Talked(s, r)
  {
    hide Counted, ReceiverHandles;
    ReplyShape(c, q, s.flight.m);
    SameCounted(s, ReceiverHandles(c, q, c.codec.write(s.flight.m)), orphans);
  }

  lemma NoRetry(s: State, orphans: set<nat>)
    requires Counted(s, orphans)
    ensures !(s.sp.WaitIndex? && s.sp.retry)
  {
  }

  lemma UpBodyCounted(c: Config, s: State, orphans: set<nat>)
    requires ValidConfig(c) && Inv(c, s) && Counted(s, orphans) && Enabled(c, s, UpBody)
    ensures Counted(Apply(c, s, UpBody), orphans) && Talked(s, Apply(c, s, UpBody))
  {
    hide ValidConfig, Counted, Write, Speaks, Plan, SenderHandles;
    UpBodyIs(c, s);
    SpeaksEncodes(c, s.flight.m);
    UpHandledCounted(c, s, s.(link := s.link.(a := ReadBody(s.link.a)), flight := Nothing), orphans);
  }

  lemma UpHandledCounted(c: Config, s: State, q: State, orphans: set<nat>)
    requires Counted(s, orphans) && s.flight.Up? && q == s.(link := q.link, flight := Nothing)
    requires Turn(c, s) && Encodes(c, s.flight.m)
    ensures var r := SenderHandles(c, q, c.codec.write(s.flight.m)); Counted(r, orphans) && Talked(s, r)
  {
    hide Counted, SenderHandles, Config.Remaining;
    NoRetry(s, orphans);
    SenderShape(c, q, c.codec.write(s.flight.m));
    SameCounted(s, SenderHandles(c, q, c.codec.write(s.flight.m)), orphans);
  }

  lemma ScheduleCounted(c: Config, s: State, orphans: set<nat>)
    requires s.sp.Scheduling? && s.flight.Nothing? && Counted(s, orphans)
    ensures Counted(Schedule(c, s), orphans)
  {
    hide Counted, Write;
    var r := Schedule(c, s);
    assert r.active == s.active && !r.flight.Up?;
    SameCounted(s, r, orphans);
  }

  lemma TalkedBy(s: State, r: State, waiting: set<nat>)
    requires r.reports == s.reports && r.ended == s.ended && r.active == s.active && !r.flight.Up?
    requires r.files <= s.files && waiting == Pending(r) && waiting <= s.files
    ensures Talked(s, r)
  {
  }

  lemma ScheduleTalked(c: Config, s: State)
    requires s.sp.Scheduling? && s.flight.Nothing?
    ensures Talked(s, Schedule(c, s))
  {
    hide Write, Talked;
    if |s.active| < c.max && s.files != {} && s.next in s.files {
      TalkedBy(s, Schedule(c, s), {s.next});
    } else {
      TalkedBy(s, Schedule(c, s), {});
    }
  }

  lemma StepCounted(c: Config, s: State, e: Step, orphans: set<nat>)
    requires ValidConfig(c) && Inv(c, s) && Counted(s, orphans) && Enabled(c, s, e) && Talk(e)
    ensures Counted(Apply(c, s, e), orphans) && Talked(s, Apply(c, s, e))
  {
    hide ValidConfig, LinkOk, Plan, Schedule, ReceiverHandles, SenderHandles, Write, Counted, Wrong, FinalContent;
    if e.ScheduleNext? {
      ScheduleCounted(c, s, orphans);
      ScheduleTalked(c, s);
    } else if e.DownBody? {
      DownBodyCounted(c, s, orphans);
    } else if e.UpBody? {
      UpBodyCounted(c, s, orphans);
    } else {
      hide Apply, Enabled, Greet, Talked;
      NoRetry(s, orphans);
      QuietCounted(c, s, e);
      SameCounted(s, Apply(c, s, e), orphans);
    }
  }

  lemma QuietCounted(c: Config, s: State, e: Step)
    requires Turn(c, s) && Enabled(c, s, e) && (e.SayHello? || MovesBytes(e))
    ensures var r := Apply(c, s, e);
            && r.writers == s.writers && r.reports == s.reports && InCharge(r) == InCharge(s) && Talked(s, r)
            && (r.sp.WaitIndex? ==> r.sp == s.sp)
  {
    hide Greet;
    if e.SayHello? {
      GreetShape(c, s);
    } else {
      hide Apply, Enabled;
      BytesShape(c, s, e);
    }
  }

  /** Steps that neither mismatch a signature nor end an orphan keep the count. */
  predicate Ordinary(e: Step, orphans: set<nat>) {
    && !e.MismatchWriter?
    && (e.EndWriter? || e.FailWriter? ==> e.id !in orphans)
  }

  lemma NoneFailing(s: State, id: nat, orphans: set<nat>)
    requires Counted(s, orphans)
    ensures Failing(id) !in s.writers
  {
    assert s.writers[Failing(id)] == 0;
  }

  lemma StepOwed(c: Config, s: State, e: Step, orphans: set<nat>)
    requires ValidConfig(c) && Inv(c, s) && Owed(s, orphans) && Enabled(c, s, e) && Ordinary(e, orphans)
    ensures Owed(Apply(c, s, e), orphans)
  {
    hide ValidConfig, Inv, Schedule, TakeReport, ReceiverHandles, SenderHandles, Write, Counted, Apart, Wrong,
         FinalContent;
    if Talk(e) {
      StepCounted(c, s, e, orphans);
      SameApart(s, Apply(c, s, e), orphans);
    } else if e.HandleReport? {
      HandleReportOwed(c, s, orphans);
    } else if e.EndWriter? {
      WorkEnds(s, e.id, Report.End(e.id), orphans);
      SameOwed(s.(writers := s.writers - multiset{Work(e.id)}, reports := s.reports + [Report.End(e.id)]),
               Apply(c, s, e), orphans);
    } else if e.FailWriter? {
      WorkEnds(s, e.id, Failure(e.id, 2), orphans);
    } else {
      NoneFailing(s, e.id, orphans);
    }
  }

  // ---- completion ----

  predicate NoMismatch(steps: seq<Step>) {
    forall i | 0 <= i < |steps| :: !steps[i].MismatchWriter?
  }

  lemma InitOwed(c: Config)
    ensures Owed(Init(c), {})
  {
  }

  lemma {:induction false} RunOwed(c: Config, s: State, steps: seq<Step>)
    requires ValidConfig(c) && Inv(c, s) && Owed(s, {}) && CanRun(c, s, steps) && NoMismatch(steps)
    ensures Inv(c, After(c, s, steps)) && Owed(After(c, s, steps), {})
    decreases |steps|
  {
    hide Inv, ValidConfig, Enabled, Apply, Owed;
    if |steps| > 0 {
      StepInv(c, s, steps[0]);
      StepOwed(c, s, steps[0], {});
      forall i | 0 <= i < |steps[1..]|
        ensures !steps[1..][i].MismatchWriter?
      {
        assert steps[1..][i] == steps[i + 1];
      }
      RunOwed(c, Apply(c, s, steps[0]), steps[1..]);
    }
  }

  lemma NobodyOwed(s: State)
    requires Owed(s, {}) && InCharge(s) == {}
    ensures s.writers == multiset{} && s.reports == []
  {
    forall t: Task
      ensures s.writers[t] == 0
    {
      match t
      case Work(id) => assert Count(s, id) == 0;
      case Failing(id) =>
    }
    var id := if |s.reports| > 0 then s.reports[0].id else 0;
    assert Count(s, id) == 0;
  }

  /** Without a wrong signature, a file is active exactly while its writer or its last report is
      outstanding; Done is sent only after every remaining file has ended or failed, and no writer is at
      work and no report is left when the receiving host handles it. */
  lemma SessionCompletion(c: Config, steps: seq<Step>)
    requires ValidConfig(c) && CanRun(c, Init(c), steps) && NoMismatch(steps)
    ensures var s := After(c, Init(c), steps);
            && (forall id :: Count(s, id) == if id in InCharge(s) then 1 else 0)
            && (s.sp == Finished(2) ==> s.ended == c.Remaining() && s.active == {} && s.files == {})
            && (s.sp.Finished? || s.rp.Closed? ==> s.writers == multiset{} && s.reports == [])
  {
    hide ValidConfig, CanRun, After, LinkOk;
    InitInv(c);
    InitOwed(c);
    RunOwed(c, Init(c), steps);
    var s := After(c, Init(c), steps);
    if s.sp.Finished? {
      FinishedIdle(c, s);
      NobodyOwed(s);
      EndedIsAll(c, s);
    }
  }

  lemma FinishedIdle(c: Config, s: State)
    requires Plan(c, s) && s.sp.Finished?
    ensures s.active == {} && InCharge(s) == {}
  {
    hide Numbered, Logged;
    if s.sp.reason == 0 {
      assert s.active <= c.Remaining();
    }
  }
}
