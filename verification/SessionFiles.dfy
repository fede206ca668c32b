/** What the writers of a session find in their partial files, and which signatures can be wrong. */
module SessionFiles {
  import opened Bytes
  import opened Chunks
  import opened ControlStream
  import opened Session
  import opened SessionSafety
  import opened SessionTheorems
  import Resume

  /** What the first writer of a file finds. */
  function First(c: Config, id: nat): Opening {
    Opening(if id in c.starts then c.starts[id] else 0, if id in c.partials then c.partials[id] else [])
  }

  /** The first attempt at the file ends with another content than the one that was signed. */
  predicate BadStart(c: Config, id: nat) {
    Wrong(c, id, First(c, id))
  }

  predicate Untouched(c: Config, s: State, id: nat) {
    && id !in s.reset && (id in s.partials <==> id in c.partials)
    && (id in c.partials && id in s.partials ==> s.partials[id] == c.partials[id])
  }

  /** Every file was opened once at most, by a writer that found what was there in the beginning. */
  ghost predicate Pristine(c: Config, s: State) {
    && (forall id | id in c.manifest && id !in s.openings :: Untouched(c, s, id))
    && (forall id | id in s.openings :: s.openings[id] == First(c, id))
    && (forall id | Work(id) in s.writers :: Complete(s, id))
    && Unopened(s)
  }

  /** Files that were not started, or whose Start is on its way, have not been opened. */
  ghost predicate Unopened(s: State) {
    && (forall id | id in s.files :: id !in s.openings)
    && (s.sp.WaitIndex? && !s.sp.retry && s.flight.Down? ==> s.sp.id !in s.openings)
  }

  lemma SamePristine(c: Config, s: State, r: State)
    requires Pristine(c, s) && r.openings == s.openings && r.partials == s.partials && r.reset == s.reset
    requires forall id | Work(id) in r.writers :: Work(id) in s.writers
    requires Unopened(r)
    ensures Pristine(c, r)
  {
  }

  lemma InitPristine(c: Config)
    ensures Pristine(c, Init(c))
  {
  }

  lemma SchedulePristine(c: Config, s: State)
    requires Pristine(c, s) && s.sp.Scheduling? && s.flight.Nothing?
    ensures Pristine(c, Schedule(c, s))
  {
    hide Write, Pristine;
    PristineUnopened(c, s);
    ScheduleShape(c, s);
    SamePristine(c, s, Schedule(c, s));
  }

  lemma PristineUnopened(c: Config, s: State)
    requires Pristine(c, s)
    ensures Unopened(s)
  {
  }

  lemma ReportPristine(c: Config, s: State)
    requires Pristine(c, s) && s.sp.WaitReport? && |s.reports| > 0
    ensures Pristine(c, TakeReport(c, s))
  {
    hide Write, Pristine, Unopened, TakeReport, Complete;
    PristineUnopened(c, s);
    ReportShape(c, s);
    StillUnopened(s, TakeReport(c, s));
    SamePristine(c, s, TakeReport(c, s));
  }

  lemma StillUnopened(s: State, r: State)
    requires Unopened(s) && r.files <= s.files && r.openings == s.openings && !(r.sp.WaitIndex? && !r.sp.retry)
    ensures Unopened(r)
  {
  }

  /** A first Start opens the file as it was found. */
  lemma StartPristine(c: Config, s: State, q: State, id: nat)
    requires Pristine(c, s) && StartsFound(c) && q == s.(link := q.link, flight := Nothing)
    requires id in c.manifest && id in c.starts && id !in s.openings && id !in s.files
    requires s.sp == WaitIndex(id, false)
    ensures Pristine(c, StartWriter(c, q, id))
  {
    hide Write;
    var r := StartWriter(c, q, id);
    assert Untouched(c, s, id);
    assert r.openings[id] == First(c, id);
    forall j | j in c.manifest && j !in r.openings
      ensures Untouched(c, r, j)
    {
      assert Untouched(c, s, j);
    }
    forall j | Work(j) in r.writers
      ensures Complete(r, j)
    {
      assert j == id || Work(j) in s.writers;
    }
  }

  lemma PendingGone(c: Config, s: State)
    requires Plan(c, s) && s.sp.WaitIndex? && !s.sp.retry
    ensures s.sp.id !in s.files
  {
    hide Numbered, Logged;
    assert s.sp.id in Pending(s);
  }

  lemma StartSubject(c: Config, s: State)
    requires ValidConfig(c) && Turn(c, s) && s.flight.Down? && s.flight.m.Start?
    ensures s.sp.WaitIndex? && s.sp.id == s.flight.m.id && s.sp.id in c.manifest
  {
    hide StartsFound;
  }

  lemma DownPristine(c: Config, s: State)
    requires ValidConfig(c) && Inv(c, s) && Counted(s, {}) && Pristine(c, s) && Enabled(c, s, DownBody)
    ensures Pristine(c, Apply(c, s, DownBody))
  {
    hide ValidConfig, Turn, Plan, Speaks, Write, SendUp, Config.Remaining, Pristine, StartWriter, Counted, StartsFound;
    DownBodyIs(c, s);
    DownIsOneOf(c, s);
    SpeaksEncodes(c, s.flight.m);
    PristineUnopened(c, s);
    var q := s.(link := s.link.(b := ReadBody(s.link.b)), flight := Nothing);
    if s.flight.m.Start? {
      KnownHasStart(c, s);
      StartSubject(c, s);
      NoRetry(s, {});
      PendingGone(c, s);
      StartsAreFound(c);
      StartPristine(c, s, q, s.flight.m.id);
    } else {
      hide ReceiverHandles;
      ReplyShape(c, q, s.flight.m);
      SamePristine(c, s, Apply(c, s, DownBody));
    }
  }

  lemma StartsAreFound(c: Config)
    requires ValidConfig(c)
    ensures StartsFound(c)
  {
  }

  lemma UpPristine(c: Config, s: State)
    requires ValidConfig(c) && Inv(c, s) && Pristine(c, s) && Enabled(c, s, UpBody)
    ensures Pristine(c, Apply(c, s, UpBody))
  {
    hide ValidConfig, Turn, Plan, Speaks, SenderHandles, Pristine;
    UpBodyIs(c, s);
    PristineUnopened(c, s);
    SenderShape(c, s.(link := s.link.(a := ReadBody(s.link.a)), flight := Nothing), BodyOf(s.link.a, c.ks));
    SamePristine(c, s, Apply(c, s, UpBody));
  }

  lemma AtMostOnce(s: State, id: nat)
    requires Counted(s, {})
    ensures s.writers[Work(id)] <= 1
  {
    assert Count(s, id) <= 1;
  }

  lemma EndPristine(c: Config, s: State, id: nat)
    requires Counted(s, {}) && Pristine(c, s) && Enabled(c, s, EndWriter(id))
    ensures Pristine(c, Apply(c, s, EndWriter(id)))
  {
    hide Counted, Wrong;
    AtMostOnce(s, id);
    var r := Apply(c, s, EndWriter(id));
    forall j | Work(j) in r.writers
      ensures Complete(r, j)
    {
      assert Work(j) in s.writers && j != id;
    }
    forall j | j in c.manifest && j !in r.openings
      ensures Untouched(c, r, j)
    {
      assert Untouched(c, s, j);
    }
  }

  lemma FailPristine(c: Config, s: State, id: nat)
    requires Pristine(c, s) && Enabled(c, s, FailWriter(id))
    ensures Pristine(c, Apply(c, s, FailWriter(id)))
  {
    hide Pristine;
    PristineUnopened(c, s);
    SamePristine(c, s, Apply(c, s, FailWriter(id)));
  }

  lemma QuietPristine(c: Config, s: State, r: State)
    requires Pristine(c, s) && r == s.(link := r.link)
    ensures Pristine(c, r)
  {
    hide Pristine;
    PristineUnopened(c, s);
    SamePristine(c, s, r);
  }

  lemma GreetPristine(c: Config, s: State)
    requires Pristine(c, s)
    ensures Pristine(c, Greet(c, s))
  {
    hide Pristine, Write;
    PristineUnopened(c, s);
    SamePristine(c, s, Greet(c, s));
  }

  lemma NothingOnItsWay(c: Config, s: State)
    requires Turn(c, s) && (s.sp.Scheduling? || s.sp.WaitReport?)
    ensures s.flight.Nothing?
  {
  }

  lemma StepPristine(c: Config, s: State, e: Step)
    requires ValidConfig(c) && Inv(c, s) && Counted(s, {}) && Pristine(c, s) && Enabled(c, s, e) && !e.MismatchWriter?
    ensures Pristine(c, Apply(c, s, e))
  {
    hide ValidConfig, LinkOk, Turn, Plan, Counted, Pristine, Greet, Schedule, TakeReport, ReceiverHandles,
         SenderHandles, Arrive, ReadLength, ReadBody, Wrong, FinalContent;
    match e
    case SayHello => GreetPristine(c, s);
    case ScheduleNext =>
      NothingOnItsWay(c, s);
      SchedulePristine(c, s);
    case HandleReport =>
      NothingOnItsWay(c, s);
      ReportPristine(c, s);
    case DownBody => DownPristine(c, s);
    case UpBody => UpPristine(c, s);
    case EndWriter(id) => EndPristine(c, s, id);
    case FailWriter(id) => FailPristine(c, s, id);
    case AbandonWriter(id) => NoneFailing(s, id, {});
    case MismatchWriter(_) =>
    case _ => QuietPristine(c, s, Apply(c, s, e));
  }

  lemma {:induction false} RunPristine(c: Config, s: State, steps: seq<Step>)
    requires ValidConfig(c) && Inv(c, s) && Owed(s, {}) && Pristine(c, s) && CanRun(c, s, steps) && NoMismatch(steps)
    ensures Pristine(c, After(c, s, steps))
    decreases |steps|
  {
    hide Inv, ValidConfig, Enabled, Apply, Counted, Apart, Pristine;
    if |steps| > 0 {
      StepInv(c, s, steps[0]);
      StepOwed(c, s, steps[0], {});
      StepPristine(c, s, steps[0]);
      assert NoMismatch(steps[1..]) by {
        assert forall i | 0 <= i < |steps| - 1 :: steps[1..][i] == steps[i + 1];
      }
      RunPristine(c, Apply(c, s, steps[0]), steps[1..]);
    }
  }

  // ---- which files have a writer and a reader ----

  /** The files in charge or ended are those whose writer was started, and the active or ended ones those
      whose reader was. */
  ghost predicate Covered(s: State) {
    s.openings.Keys == InCharge(s) + s.ended && s.reading.Keys == s.active + s.ended
  }

  lemma SameCovered(s: State, r: State)
    requires Covered(s) && r.openings == s.openings && r.reading == s.reading
    requires InCharge(s) == s.active && InCharge(r) == r.active && r.active + r.ended == s.active + s.ended
    ensures Covered(r)
  {
  }

  lemma ScheduleCovered(c: Config, s: State)
    requires Covered(s) && s.sp.Scheduling? && s.flight.Nothing?
    ensures Covered(Schedule(c, s))
  {
    hide Write, Covered, InCharge;
    var r := Schedule(c, s);
    NobodyAnswered(s);
    NobodyAnswered(r);
    SameCovered(s, r);
  }

  lemma NobodyAnswered(s: State)
    requires !s.flight.Up? || !s.sp.WaitIndex?
    ensures InCharge(s) == s.active
  {
  }

  lemma RemoveCovers(s: State, id: nat)
    ensures Remove(s, id).active + Remove(s, id).ended == s.active + s.ended
  {
  }

  lemma ReportCovered(c: Config, s: State)
    requires Covered(s) && s.sp.WaitReport? && |s.reports| > 0 && s.flight.Nothing?
    ensures Covered(TakeReport(c, s))
  {
    hide Write, Covered, Remove, InCharge;
    var rest := s.(reports := s.reports[1..]);
    RemoveCovers(rest, s.reports[0].id);
    RemoveShape(rest, s.reports[0].id);
    NobodyAnswered(s);
    NobodyAnswered(TakeReport(c, s));
    SameCovered(s, TakeReport(c, s));
  }

  lemma StartCovered(c: Config, s: State, q: State, id: nat)
    requires Covered(s) && id in c.starts && q == s.(link := q.link, flight := Nothing) && s.flight.Down?
    requires s.sp == WaitIndex(id, false)
    ensures Covered(StartWriter(c, q, id))
  {
    hide Write;
    var r := StartWriter(c, q, id);
    assert InCharge(s) == s.active && InCharge(r) == s.active + {id};
    assert r.openings.Keys == s.openings.Keys + {id};
  }

  lemma DownCovered(c: Config, s: State)
    requires ValidConfig(c) && Inv(c, s) && Counted(s, {}) && Covered(s) && Enabled(c, s, DownBody)
    ensures Covered(Apply(c, s, DownBody))
  {
    hide ValidConfig, Turn, Plan, Speaks, Write, Config.Remaining, Covered, StartWriter, Counted;
    DownBodyIs(c, s);
    DownIsOneOf(c, s);
    SpeaksEncodes(c, s.flight.m);
    NoRetry(s, {});
    var q := s.(link := s.link.(b := ReadBody(s.link.b)), flight := Nothing);
    if s.flight.m.Start? {
      KnownHasStart(c, s);
      StartSubject(c, s);
      StartCovered(c, s, q, s.flight.m.id);
    } else {
      hide ReceiverHandles;
      NoIndexOnItsWay(c, s);
      ReplyShape(c, q, s.flight.m);
      SameCovered(s, Apply(c, s, DownBody));
    }
  }

  /** A manifest or Done is not sent while an index is awaited. */
  lemma NoIndexOnItsWay(c: Config, s: State)
    requires Turn(c, s) && s.flight.Down? && !s.flight.m.Start?
    ensures !s.sp.WaitIndex?
  {
  }

  lemma UpCovered(c: Config, s: State)
    requires ValidConfig(c) && Inv(c, s) && Counted(s, {}) && Covered(s) && Enabled(c, s, UpBody)
    ensures Covered(Apply(c, s, UpBody))
  {
    hide ValidConfig, Turn, Plan, Speaks, SenderHandles, Counted;
    UpBodyIs(c, s);
    NoRetry(s, {});
    SenderShape(c, s.(link := s.link.(a := ReadBody(s.link.a)), flight := Nothing), BodyOf(s.link.a, c.ks));
    var r := Apply(c, s, UpBody);
    if s.sp.WaitIndex? {
      assert InCharge(s) == s.active + {s.sp.id} && InCharge(r) == s.active + {s.sp.id};
      assert r.reading.Keys == s.reading.Keys + {s.sp.id};
    }
  }

  lemma GreetCovered(c: Config, s: State)
    requires Covered(s) && s.sp.Greeting?
    ensures Covered(Greet(c, s))
  {
    hide Covered, Write;
    SameCovered(s, Greet(c, s));
  }

  lemma StillCovered(s: State, r: State)
    requires Covered(s) && r == s.(link := r.link, writers := r.writers, reports := r.reports, partials := r.partials)
    ensures Covered(r)
  {
  }

  lemma StepCovered(c: Config, s: State, e: Step)
    requires ValidConfig(c) && Inv(c, s) && Counted(s, {}) && Covered(s) && Enabled(c, s, e) && !e.MismatchWriter?
    ensures Covered(Apply(c, s, e))
  {
    hide ValidConfig, LinkOk, Turn, Plan, Counted, Covered, Greet, Schedule, TakeReport, ReceiverHandles, SenderHandles,
         Arrive, ReadLength, ReadBody, Wrong, FinalContent;
    match e
    case SayHello => GreetCovered(c, s);
    case ScheduleNext =>
      NothingOnItsWay(c, s);
      ScheduleCovered(c, s);
    case HandleReport =>
      NothingOnItsWay(c, s);
      ReportCovered(c, s);
    case DownBody => DownCovered(c, s);
    case UpBody => UpCovered(c, s);
    case MismatchWriter(_) =>
    case _ => StillCovered(s, Apply(c, s, e));
  }

  // ---- which files start badly ----

  /** A file without a partial file does not start badly; a partial file that is a prefix of the source,
      under a hash that tells the two contents apart, starts badly exactly when it ends inside a chunk. */
  lemma BadStartIff(c: Config, id: nat)
    requires StartsFound(c) && id in c.manifest && id in c.signatures && c.signatures[id] == c.hash(c.sources[id])
    requires id in c.partials ==> c.partials[id] <= c.sources[id]
    requires var content := FinalContent(c, id, First(c, id));
             c.hash(content) == c.hash(c.sources[id]) ==> content == c.sources[id]
    ensures BadStart(c, id) <==> id in c.partials && |c.partials[id]| % TRANSFER_BUFFER_SIZE != 0
  {
    var source, o := c.sources[id], First(c, id);
    if id in c.partials {
      var length := |c.partials[id]|;
      assert o.index == Resume.StartIndex(length) && o.base == source[..length];
      if length % TRANSFER_BUFFER_SIZE == 0 {
        assert source[..length] + source[length..] == source;
      } else {
        assert |o.base + source[o.index..]| > |source|;
      }
    } else {
      assert [] + source[0..] == source;
    }
  }

  /** A stop between the final flush and the rename leaves a partial file as long as the source. Here the
      file is a single byte: its next attempt appends the byte again. */
  lemma OneByteTwice(c: Config, id: nat, b: Byte)
    requires StartsFound(c) && id in c.manifest && c.sources[id] == [b] && id in c.partials && c.partials[id] == [b]
    requires id in c.signatures && c.signatures[id] == c.hash([b]) && c.hash([b, b]) != c.hash([b])
    ensures FinalContent(c, id, First(c, id)) == [b, b] && BadStart(c, id)
  {
    assert First(c, id) == Opening(0, [b]);
    assert [b] + [b][0..] == [b, b];
  }
}
