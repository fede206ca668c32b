/** What a file that is started again is opened with, and in which order the reports of writers are handled. */
module SessionRetries {
  import opened Bytes
  import opened Chunks
  import opened Channels
  import opened ControlStream
  import opened WriterSpec
  import opened Session
  import opened SessionSafety
  import opened SessionTheorems
  import Resume

  // ---- a partial file that was renamed or removed ----

  /** The step handles a Start of the file, whose writer opens the partial file or creates it. */
  predicate Opens(s: State, e: Step, id: nat) {
    e.DownBody? && s.flight == Down(Start(id))
  }

  /** The last report of a writer that is done: the partial file was renamed, or removed for its wrong signature. */
  predicate TakesAway(e: Step, id: nat) {
    e == Step.EndWriter(id) || e == AbandonWriter(id)
  }

  predicate NoneOpens(c: Config, s: State, steps: seq<Step>, id: nat)
    requires CanRun(c, s, steps)
    decreases |steps|
  {
    |steps| == 0 || (!Opens(s, steps[0], id) && NoneOpens(c, Apply(c, s, steps[0]), steps[1..], id))
  }

  /** What a message on the receiving host opens. */
  lemma DownPartials(c: Config, s: State)
    requires ValidConfig(c) && Inv(c, s) && Enabled(c, s, DownBody)
    ensures s.flight.Down?
    ensures var r := Apply(c, s, DownBody);
            if s.flight.m.Start? then
              && s.flight.m.id in c.starts
              && var id := s.flight.m.id;
                 var index := if id !in s.partials || id in s.reset then 0 else c.starts[id];
                 var base := if id in s.partials then s.partials[id] else [];
                 && r.flight == Up(StartIndex(index)) && r.openings == s.openings[id := Opening(index, base)]
                 && r.partials == s.partials[id := base] && r.writers == s.writers + multiset{Work(id)}
                 && r.reset == (if id in s.partials then s.reset else s.reset + {id})
            else r.openings == s.openings && r.partials == s.partials && r.writers == s.writers && r.reset == s.reset
  {
    hide ValidConfig, Turn, Plan, Speaks, SendUp, Config.Remaining;
    DownBodyIs(c, s);
    DownIsOneOf(c, s);
    SpeaksEncodes(c, s.flight.m);
    var q := s.(link := s.link.(b := ReadBody(s.link.b)), flight := Nothing);
    if s.flight.m.Start? {
      KnownHasStart(c, s);
      StartedPartials(c, q, s.flight.m.id);
    } else {
      hide ReceiverHandles;
      ReplyShape(c, q, s.flight.m);
    }
  }

  lemma StartedPartials(c: Config, q: State, id: nat)
    requires id in c.starts
    ensures var r := StartWriter(c, q, id);
            var index := if id !in q.partials || id in q.reset then 0 else c.starts[id];
            var base := if id in q.partials then q.partials[id] else [];
            && r.flight == Up(StartIndex(index)) && r.openings == q.openings[id := Opening(index, base)]
            && r.partials == q.partials[id := base] && r.writers == q.writers + multiset{Work(id)}
            && r.reset == (if id in q.partials then q.reset else q.reset + {id})
  {
    hide Write;
  }

  /** Only a message that is handled opens anything. */
  lemma OtherPartials(c: Config, s: State, e: Step)
    requires Enabled(c, s, e) && !e.DownBody? && !EndsTask(e)
    ensures var r := Apply(c, s, e); r.partials == s.partials && r.openings == s.openings && r.reset == s.reset
  {
    hide Greet, Schedule, TakeReport, SenderHandles;
    match e
    case SayHello => GreetShape(c, s);
    case ScheduleNext => ScheduleShape(c, s);
    case HandleReport => ReportShape(c, s);
    case UpBody =>
      var q := s.(link := s.link.(a := ReadBody(s.link.a)), flight := Nothing);
      SenderShape(c, q, BodyOf(s.link.a, c.ks));
    case _ =>
      hide Apply, Enabled;
      BytesShape(c, s, e);
  }

  lemma StaysAway(c: Config, s: State, e: Step, id: nat)
    requires ValidConfig(c) && Inv(c, s) && Enabled(c, s, e) && id !in s.partials && !Opens(s, e, id)
    ensures id !in Apply(c, s, e).partials
  {
    hide ValidConfig, Inv, Enabled, Apply;
    if e.DownBody? {
      DownPartials(c, s);
    } else if EndsTask(e) {
      TaskPartials(c, s, e);
    } else {
      OtherPartials(c, s, e);
    }
  }

  /** What a writer that ends does to the partial files. */
  lemma TaskPartials(c: Config, s: State, e: Step)
    requires Enabled(c, s, e) && EndsTask(e)
    ensures e.MismatchWriter? ==> e.id in s.openings && e.id in s.partials
    ensures var r := Apply(c, s, e);
            && r.reset == s.reset
            && r.partials == match e
                             case EndWriter(id) => s.partials - {id}
                             case FailWriter(_) => s.partials
                             case MismatchWriter(id) => s.partials[id := FinalContent(c, id, s.openings[id])]
                             case AbandonWriter(id) => s.partials - {id}
  {
    hide Enabled, Apply, FinalContent;
    match e
    case EndWriter(id) => EndPartials(c, s, id);
    case FailWriter(id) => FailPartials(c, s, id);
    case MismatchWriter(id) => Mismatched(c, s, id);
    case AbandonWriter(id) => AbandonPartials(c, s, id);
  }

  lemma EndPartials(c: Config, s: State, id: nat)
    requires Enabled(c, s, Step.EndWriter(id))
    ensures var r := Apply(c, s, Step.EndWriter(id)); r.partials == s.partials - {id} && r.reset == s.reset
  {
    hide Wrong;
  }

  lemma FailPartials(c: Config, s: State, id: nat)
    requires Enabled(c, s, FailWriter(id))
    ensures var r := Apply(c, s, FailWriter(id)); r.partials == s.partials && r.reset == s.reset
  {
  }

  lemma AbandonPartials(c: Config, s: State, id: nat)
    requires Enabled(c, s, AbandonWriter(id))
    ensures var r := Apply(c, s, AbandonWriter(id)); r.partials == s.partials - {id} && r.reset == s.reset
  {
  }

  lemma {:induction false} RunStaysAway(c: Config, s: State, steps: seq<Step>, id: nat)
    requires ValidConfig(c) && Inv(c, s) && CanRun(c, s, steps) && id !in s.partials && NoneOpens(c, s, steps, id)
    ensures Inv(c, After(c, s, steps)) && id !in After(c, s, steps).partials
    decreases |steps|
  {
    hide Inv, ValidConfig, Enabled, Apply, Opens;
    if |steps| > 0 {
      StepInv(c, s, steps[0]);
      StaysAway(c, s, steps[0], id);
      RunStaysAway(c, Apply(c, s, steps[0]), steps[1..], id);
    }
  }

  lemma TakenAway(c: Config, s: State, e: Step, id: nat)
    requires Enabled(c, s, e) && TakesAway(e, id)
    ensures id !in Apply(c, s, e).partials
  {
    hide Enabled, Apply;
    TaskPartials(c, s, e);
  }

  /** Once the last report of a writer is out its partial file is gone, and stays gone until the file is started
      again. A Start handled then is answered with zero, and its writer begins with an empty file, so that it ends
      with the source, whatever the partial file held before. */
  lemma RetryStartsAfresh(c: Config, steps: seq<Step>, e: Step, between: seq<Step>, id: nat)
    requires ValidConfig(c) && CanRun(c, Init(c), steps) && id in c.manifest && TakesAway(e, id)
    requires Enabled(c, After(c, Init(c), steps), e)
    requires var s := Apply(c, After(c, Init(c), steps), e); CanRun(c, s, between) && NoneOpens(c, s, between, id)
    ensures id in c.sources
    ensures var r := After(c, Apply(c, After(c, Init(c), steps), e), between);
            && id !in r.partials
            && (Enabled(c, r, DownBody) && r.flight == Down(Start(id)) ==>
                  var q := Apply(c, r, DownBody);
                  && q.flight == Up(StartIndex(0)) && q.openings == r.openings[id := Opening(0, [])]
                  && q.partials == r.partials[id := []] && q.writers == r.writers + multiset{Work(id)}
                  && FinalContent(c, id, q.openings[id]) == c.sources[id])
  {
    hide Inv, CanRun, After, Enabled, Apply, Encodes, Speaks, NoneOpens;
    ReachableInv(c, steps);
    var s := After(c, Init(c), steps);
    StepInv(c, s, e);
    TakenAway(c, s, e, id);
    RunStaysAway(c, Apply(c, s, e), between, id);
    var r := After(c, Apply(c, s, e), between);
    if Enabled(c, r, DownBody) && r.flight == Down(Start(id)) {
      DownPartials(c, r);
    }
  }

  // ---- a partial file with a wrong signature that is still there ----

  /** No task of the file ends, and none is started for it. */
  predicate Leaves(s: State, e: Step, id: nat) {
    !Opens(s, e, id) && !(EndsTask(e) && e.id == id)
  }

  predicate AllLeave(c: Config, s: State, steps: seq<Step>, id: nat)
    requires CanRun(c, s, steps)
    decreases |steps|
  {
    |steps| == 0 || (Leaves(s, steps[0], id) && AllLeave(c, Apply(c, s, steps[0]), steps[1..], id))
  }

  /** The partial file of `id` is the same before and after, and so is what the receiving host knows of it. */
  predicate SamePartial(s: State, r: State, id: nat) {
    && (id in r.partials <==> id in s.partials)
    && (id in s.partials && id in r.partials ==> r.partials[id] == s.partials[id])
    && (id in r.reset <==> id in s.reset)
  }

  lemma StaysSame(c: Config, s: State, e: Step, id: nat)
    requires ValidConfig(c) && Inv(c, s) && Enabled(c, s, e) && Leaves(s, e, id)
    ensures SamePartial(s, Apply(c, s, e), id)
  {
    hide ValidConfig, Inv, Enabled, Apply;
    if e.DownBody? {
      DownPartials(c, s);
    } else if EndsTask(e) {
      EndsElsewhere(c, s, e, id);
    } else {
      OtherPartials(c, s, e);
    }
  }

  lemma EndsElsewhere(c: Config, s: State, e: Step, id: nat)
    requires Enabled(c, s, e) && EndsTask(e) && e.id != id
    ensures SamePartial(s, Apply(c, s, e), id)
  {
    hide Enabled, Apply;
    TaskPartials(c, s, e);
  }

  lemma {:induction false} RunStaysSame(c: Config, s: State, steps: seq<Step>, id: nat)
    requires ValidConfig(c) && Inv(c, s) && CanRun(c, s, steps) && AllLeave(c, s, steps, id)
    ensures Inv(c, After(c, s, steps)) && SamePartial(s, After(c, s, steps), id)
    decreases |steps|
  {
    hide Inv, ValidConfig, Enabled, Apply, Leaves;
    if |steps| > 0 {
      StepInv(c, s, steps[0]);
      StaysSame(c, s, steps[0], id);
      RunStaysSame(c, Apply(c, s, steps[0]), steps[1..], id);
    }
  }

  lemma Mismatched(c: Config, s: State, id: nat)
    requires Enabled(c, s, MismatchWriter(id))
    ensures id in s.openings && id in s.partials && id in c.signatures
    ensures var r, content := Apply(c, s, MismatchWriter(id)), FinalContent(c, id, s.openings[id]);
            && r.partials == s.partials[id := content] && r.reset == s.reset && c.hash(content) != c.signatures[id]
  {
    hide FinalContent;
  }

  /** Between its two reports the file with the wrong signature is still there: a Start handled then opens the
      very content that did not have it, and appends to it. */
  lemma RetryTooEarly(c: Config, steps: seq<Step>, between: seq<Step>, id: nat)
    requires ValidConfig(c) && CanRun(c, Init(c), steps)
    requires Enabled(c, After(c, Init(c), steps), MismatchWriter(id))
    requires var s := Apply(c, After(c, Init(c), steps), MismatchWriter(id));
             CanRun(c, s, between) && AllLeave(c, s, between, id)
    ensures id in After(c, Init(c), steps).openings && id in c.signatures
    ensures var s := After(c, Init(c), steps);
            var r := After(c, Apply(c, s, MismatchWriter(id)), between);
            Enabled(c, r, DownBody) && r.flight == Down(Start(id)) ==>
              var q := Apply(c, r, DownBody);
              && id in c.starts && id in q.openings
              && q.openings[id].index == (if id in s.reset then 0 else c.starts[id])
              && q.openings[id].base == FinalContent(c, id, s.openings[id])
              && c.hash(q.openings[id].base) != c.signatures[id]
  {
    hide ValidConfig, Inv, CanRun, After, Enabled, Apply, AllLeave, FinalContent;
    ReachableInv(c, steps);
    var s := After(c, Init(c), steps);
    StepInv(c, s, MismatchWriter(id));
    Mismatched(c, s, id);
    RunStaysSame(c, Apply(c, s, MismatchWriter(id)), between, id);
    var r := After(c, Apply(c, s, MismatchWriter(id)), between);
    if Enabled(c, r, DownBody) && r.flight == Down(Start(id)) {
      DownPartials(c, r);
    }
  }

  // ---- the signature in the session and in the writer ----

  /** What the session holds against a file is what its writer does: once all has been written, the file that was
      opened at `o` has the content of the session, and is kept exactly if the session finds nothing wrong. */
  lemma WrongIsNotRenamed(c: Config, id: nat, o: Opening, ks: Keystream, arrivals: seq<Arrival>)
    requires id in c.sources
    requires var f := File(c.sources[id], o.index, ks);
             && f.Valid() && GoodArrivals(f, arrivals)
             && Feed(f.Size(), ks, Begin(o.index, o.base), arrivals).position == f.Size()
    ensures var content := Feed(|c.sources[id]|, ks, Begin(o.index, o.base), arrivals).Output();
            && content == FinalContent(c, id, o)
            && (Wrong(c, id, o) <==> !(id !in c.signatures || c.hash(content) == c.signatures[id]))
  {
    hide Feed;
    Resume.CompleteAppends(File(c.sources[id], o.index, ks), o.base, arrivals);
  }

  /** What the session does with a writer that has written everything is what `FileWriter.Write` does at its end: it
      ends exactly if the content on disk has the signature, or needs none; otherwise it reports the mismatch, and
      the failure once the file is removed. */
  lemma WriterOutcome(c: Config, s: State, id: nat, ks: Keystream, arrivals: seq<Arrival>)
    requires Work(id) in s.writers && Complete(s, id) && id in c.sources
    requires var f := File(c.sources[id], s.openings[id].index, ks);
             && f.Valid() && GoodArrivals(f, arrivals)
             && Feed(f.Size(), ks, Begin(f.start, s.openings[id].base), arrivals).position == f.Size()
    ensures var o := s.openings[id];
            var content := Feed(|c.sources[id]|, ks, Begin(o.index, o.base), arrivals).Output();
            var signed := id !in c.signatures || c.hash(content) == c.signatures[id];
            && (Enabled(c, s, Step.EndWriter(id)) <==> signed) && (Enabled(c, s, MismatchWriter(id)) <==> !signed)
            && (signed ==> Finishes(s, Apply(c, s, Step.EndWriter(id)), id, [Report.End(id)]))
            && (!signed ==>
                  var q := Apply(c, s, MismatchWriter(id));
                  && q.reports == s.reports + [Failure(id, 0)] && q.partials == s.partials[id := content]
                  && Enabled(c, q, AbandonWriter(id))
                  && Finishes(s, Apply(c, q, AbandonWriter(id)), id, [Failure(id, 0), Failure(id, 2)]))
  {
    hide Feed, FinalContent, Apply, Finishes;
    WrongIsNotRenamed(c, id, s.openings[id], ks, arrivals);
    if Wrong(c, id, s.openings[id]) {
      MismatchFinishes(c, s, id);
    } else {
      EndFinishes(c, s, id);
    }
  }

  lemma EndFinishes(c: Config, s: State, id: nat)
    requires Enabled(c, s, Step.EndWriter(id))
    ensures Finishes(s, Apply(c, s, Step.EndWriter(id)), id, [Report.End(id)])
  {
    hide Wrong;
  }

  lemma MismatchFinishes(c: Config, s: State, id: nat)
    requires Enabled(c, s, MismatchWriter(id))
    ensures id in s.openings
    ensures var q := Apply(c, s, MismatchWriter(id));
            && q.reports == s.reports + [Failure(id, 0)]
            && q.partials == s.partials[id := FinalContent(c, id, s.openings[id])]
            && Enabled(c, q, AbandonWriter(id))
            && Finishes(s, Apply(c, q, AbandonWriter(id)), id, [Failure(id, 0), Failure(id, 2)])
  {
    hide FinalContent, Finishes;
    Mismatched(c, s, id);
    assert Failing(id) in Apply(c, s, MismatchWriter(id)).writers;
    AbandonFinishes(c, s, Apply(c, s, MismatchWriter(id)), id);
  }

  lemma AbandonFinishes(c: Config, s: State, q: State, id: nat)
    requires q.writers == s.writers - multiset{Work(id)} + multiset{Failing(id)} && id in q.partials
    requires q.reports == s.reports + [Failure(id, 0)] && q.openings == s.openings
    requires q.partials == s.partials[id := q.partials[id]]
    ensures Enabled(c, q, AbandonWriter(id))
    ensures Finishes(s, Apply(c, q, AbandonWriter(id)), id, [Failure(id, 0), Failure(id, 2)])
  {
    assert s.writers - multiset{Work(id)} + multiset{Failing(id)} - multiset{Failing(id)}
        == s.writers - multiset{Work(id)};
    assert s.partials[id := q.partials[id]] - {id} == s.partials - {id};
  }

  /** The writer is gone with its partial file, and has sent the reports. */
  predicate Finishes(s: State, r: State, id: nat, reports: seq<Report>) {
    && r.writers == s.writers - multiset{Work(id)} && r.reports == s.reports + reports
    && r.partials == s.partials - {id} && r.openings == s.openings
  }

  // ---- the order of the reports ----

  /** The reports of the writers in a run, in the order in which they are sent. */
  function Sent(steps: seq<Step>): seq<Report> {
    if |steps| == 0 then [] else SentBy(steps[0]) + Sent(steps[1..])
  }

  /** End for a file that is renamed, Failure 0 for a wrong signature, and Failure 2 for every task that fails. */
  function SentBy(e: Step): seq<Report> {
    match e
    case EndWriter(id) => [Report.End(id)]
    case FailWriter(id) => [Failure(id, 2)]
    case MismatchWriter(id) => [Failure(id, 0)]
    case AbandonWriter(id) => [Failure(id, 2)]
    case _ => []
  }

  function Taken(steps: seq<Step>): nat {
    if |steps| == 0 then 0 else (if steps[0].HandleReport? then 1 else 0) + Taken(steps[1..])
  }

  lemma OtherReports(c: Config, s: State, e: Step)
    requires Enabled(c, s, e) && !EndsTask(e) && !e.HandleReport?
    ensures Apply(c, s, e).reports == s.reports
  {
    hide Greet, Schedule, SenderHandles, SendUp, StartWriter;
    match e
    case SayHello => GreetShape(c, s);
    case ScheduleNext => ScheduleShape(c, s);
    case DownBody => DownReports(c, s);
    case UpBody =>
      var q := s.(link := s.link.(a := ReadBody(s.link.a)), flight := Nothing);
      SenderShape(c, q, BodyOf(s.link.a, c.ks));
    case _ =>
      hide Apply, Enabled;
      BytesShape(c, s, e);
  }

  lemma DownReports(c: Config, s: State)
    requires Enabled(c, s, DownBody)
    ensures Apply(c, s, DownBody).reports == s.reports
  {
    hide Write;
  }

  lemma StepReports(c: Config, s: State, e: Step)
    requires Enabled(c, s, e)
    ensures Apply(c, s, e).reports == if e.HandleReport? then s.reports[1..] else s.reports + SentBy(e)
  {
    hide TakeReport, Wrong, FinalContent;
    if e.HandleReport? {
      ReportShape(c, s);
    } else if !EndsTask(e) {
      hide Apply, Enabled;
      OtherReports(c, s, e);
    }
  }

  lemma {:induction false} RunReports(c: Config, s: State, steps: seq<Step>)
    requires CanRun(c, s, steps)
    ensures Taken(steps) <= |s.reports + Sent(steps)|
    ensures After(c, s, steps).reports == (s.reports + Sent(steps))[Taken(steps)..]
    decreases |steps|
  {
    hide Enabled, Apply, SentBy;
    if |steps| == 0 {
      assert s.reports + [] == s.reports;
    } else {
      var q := Apply(c, s, steps[0]);
      StepReports(c, s, steps[0]);
      RunReports(c, q, steps[1..]);
      if steps[0].HandleReport? {
        SomeReport(c, s, steps[0]);
        assert [] + Sent(steps[1..]) == Sent(steps[1..]);
        DropOneMore(s.reports, Sent(steps[1..]), Taken(steps[1..]));
      } else {
        Associate(s.reports, SentBy(steps[0]), Sent(steps[1..]));
      }
    }
  }

  lemma DropOneMore(first: seq<Report>, rest: seq<Report>, n: nat)
    requires |first| > 0 && n <= |first[1..] + rest|
    ensures n + 1 <= |first + rest| && (first[1..] + rest)[n..] == (first + rest)[n + 1..]
  {
    assert first[1..] + rest == (first + rest)[1..];
  }

  lemma Associate(a: seq<Report>, b: seq<Report>, c: seq<Report>)
    ensures (a + b) + c == a + (b + c)
  {
  }

  lemma SomeReport(c: Config, s: State, e: Step)
    requires Enabled(c, s, e) && e.HandleReport?
    ensures |s.reports| > 0 && SentBy(e) == []
  {
  }

  /** The sender handles the reports in the order in which the writers sent them, each once: what is still to be
      handled is what was sent without the part that was. */
  lemma ReportsInOrder(c: Config, steps: seq<Step>)
    requires CanRun(c, Init(c), steps)
    ensures Taken(steps) <= |Sent(steps)|
    ensures After(c, Init(c), steps).reports == Sent(steps)[Taken(steps)..]
  {
    hide CanRun, After;
    RunReports(c, Init(c), steps);
    assert [] + Sent(steps) == Sent(steps);
  }
}
