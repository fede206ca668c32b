/** As far as messages go, both hosts can come to an end from every reachable state of the session, if its
    writers end or fail when it is their turn. */
module SessionProgress {
  import opened Channels
  import opened ControlStream
  import opened Session
  import opened SessionSafety
  import opened SessionTheorems
  import Scheduler

  // ---- continuations ----

  ghost predicate Leads(c: Config, s: State, r: State) {
    exists steps :: CanRun(c, s, steps) && NoMismatch(steps) && After(c, s, steps) == r
  }

  predicate AllTalk(steps: seq<Step>) {
    forall i | 0 <= i < |steps| :: Talk(steps[i])
  }

  /** `r` can be reached by steps of the controllers and the network alone. */
  ghost predicate Talks(c: Config, s: State, r: State) {
    exists steps :: CanRun(c, s, steps) && AllTalk(steps) && After(c, s, steps) == r
  }

  lemma OneStep(c: Config, s: State, e: Step)
    requires Enabled(c, s, e)
    ensures CanRun(c, s, [e]) && After(c, s, [e]) == Apply(c, s, e)
  {
    hide Enabled, Apply;
    assert [e][1..] == [];
    assert CanRun(c, Apply(c, s, e), []);
  }

  lemma TalksStep(c: Config, s: State, e: Step)
    requires Enabled(c, s, e) && Talk(e)
    ensures Talks(c, s, Apply(c, s, e))
  {
    hide Enabled, Apply, CanRun, After, Talk;
    OneStep(c, s, e);
    assert AllTalk([e]);
  }

  lemma TalksOn(c: Config, s: State, q: State, r: State)
    requires Talks(c, s, q) && Talks(c, q, r)
    ensures Talks(c, s, r)
  {
    hide CanRun, After;
    var a :| CanRun(c, s, a) && AllTalk(a) && After(c, s, a) == q;
    var b :| CanRun(c, q, b) && AllTalk(b) && After(c, q, b) == r;
    RunAppend(c, s, a, b);
  }

  lemma TalksLeads(c: Config, s: State, r: State)
    requires Talks(c, s, r)
    ensures Leads(c, s, r)
  {
    hide CanRun, After;
    var a :| CanRun(c, s, a) && AllTalk(a) && After(c, s, a) == r;
    assert NoMismatch(a);
  }

  lemma LeadsStep(c: Config, s: State, e: Step)
    requires Enabled(c, s, e) && !e.MismatchWriter?
    ensures Leads(c, s, Apply(c, s, e))
  {
    hide Enabled, Apply, CanRun, After;
    OneStep(c, s, e);
    assert NoMismatch([e]);
  }

  lemma LeadsNowhere(c: Config, s: State)
    ensures Leads(c, s, s) && Talks(c, s, s)
  {
    assert CanRun(c, s, []) && After(c, s, []) == s && NoMismatch([]) && AllTalk([]);
  }

  lemma LeadsOn(c: Config, s: State, q: State, r: State)
    requires Leads(c, s, q) && Leads(c, q, r)
    ensures Leads(c, s, r)
  {
    hide CanRun, After;
    var a :| CanRun(c, s, a) && NoMismatch(a) && After(c, s, a) == q;
    var b :| CanRun(c, q, b) && NoMismatch(b) && After(c, q, b) == r;
    RunAppend(c, s, a, b);
  }

  /** `r` can be reached by any steps. */
  ghost predicate Reaches(c: Config, s: State, r: State) {
    exists steps :: CanRun(c, s, steps) && After(c, s, steps) == r
  }

  lemma ReachesSelf(c: Config, s: State)
    ensures Reaches(c, s, s)
  {
    assert CanRun(c, s, []) && After(c, s, []) == s;
  }

  lemma ReachesOn(c: Config, s: State, q: State, r: State)
    requires Reaches(c, s, q) && Reaches(c, q, r)
    ensures Reaches(c, s, r)
  {
    hide CanRun, After;
    var a :| CanRun(c, s, a) && After(c, s, a) == q;
    var b :| CanRun(c, q, b) && After(c, q, b) == r;
    RunAppend(c, s, a, b);
  }

  lemma ReachesStep(c: Config, s: State, q: State, e: Step)
    requires Reaches(c, s, q) && Enabled(c, q, e)
    ensures Reaches(c, s, Apply(c, q, e))
  {
    hide Enabled, Apply;
    var a :| CanRun(c, s, a) && After(c, s, a) == q;
    assert [e][1..] == [];
    assert CanRun(c, Apply(c, q, e), []);
    assert CanRun(c, q, [e]) && After(c, q, [e]) == Apply(c, q, e);
    RunAppend(c, s, a, [e]);
  }

  lemma ReachesTalk(c: Config, s: State, q: State, r: State)
    requires Reaches(c, s, q) && Talks(c, q, r)
    ensures Reaches(c, s, r)
  {
    hide CanRun, After;
    var a :| CanRun(c, s, a) && After(c, s, a) == q;
    var b :| CanRun(c, q, b) && AllTalk(b) && After(c, q, b) == r;
    RunAppend(c, s, a, b);
  }

  lemma ReachesLead(c: Config, s: State, q: State, r: State)
    requires Reaches(c, s, q) && Leads(c, q, r)
    ensures Reaches(c, s, r)
  {
    hide CanRun, After;
    var a :| CanRun(c, s, a) && After(c, s, a) == q;
    var b :| CanRun(c, q, b) && NoMismatch(b) && After(c, q, b) == r;
    RunAppend(c, s, a, b);
  }

  lemma {:induction false} TalkRunKeeps(c: Config, s: State, steps: seq<Step>, orphans: set<nat>)
    requires ValidConfig(c) && Inv(c, s) && Counted(s, orphans) && CanRun(c, s, steps) && AllTalk(steps)
    ensures Inv(c, After(c, s, steps)) && Counted(After(c, s, steps), orphans) && Talked(s, After(c, s, steps))
    decreases |steps|
  {
    hide Inv, ValidConfig, Enabled, Apply, Counted, Talk;
    if |steps| > 0 {
      var q := Apply(c, s, steps[0]);
      StepInv(c, s, steps[0]);
      StepCounted(c, s, steps[0], orphans);
      forall i | 0 <= i < |steps[1..]|
        ensures Talk(steps[1..][i])
      {
        assert steps[1..][i] == steps[i + 1];
      }
      TalkRunKeeps(c, q, steps[1..], orphans);
    }
  }

  lemma TalksKeeps(c: Config, s: State, r: State, orphans: set<nat>)
    requires ValidConfig(c) && Inv(c, s) && Counted(s, orphans) && Talks(c, s, r)
    ensures Inv(c, r) && Counted(r, orphans) && Talked(s, r)
  {
    hide CanRun, After, Inv, ValidConfig, Counted, Talked;
    var a :| CanRun(c, s, a) && AllTalk(a) && After(c, s, a) == r;
    TalkRunKeeps(c, s, a, orphans);
  }

  // ---- a message is brought and handled ----

  lemma HearDown(c: Config, s: State) returns (link: Link)
    requires ValidConfig(c) && Inv(c, s) && s.flight.Down?
    ensures Speaks(c, s.flight.m)
    ensures Talks(c, s, ReceiverHandles(c, s.(link := link, flight := Nothing), c.codec.write(s.flight.m)))
  {
    hide ValidConfig, Turn, Plan, Talks, ReceiverHandles, Speaks, BodyOf;
    DownHeard(c, s);
    var q := DownReady(c, s);
    DownBodyIs(c, q);
    TalksStep(c, q, DownBody);
    TalksOn(c, s, q, Apply(c, q, DownBody));
    link := q.link.(b := ReadBody(q.link.b));
  }

  /** The rest of the message arrives and its length is read, if it was not. */
  lemma DownReady(c: Config, s: State) returns (q: State)
    requires ValidConfig(c) && Inv(c, s) && s.flight.Down? && ReceiverReads(s)
    ensures Talks(c, s, q) && Inv(c, q) && q == s.(link := q.link) && BodyReady(q.link.b)
  {
    hide ValidConfig, Turn, Plan, Talks, Speaks;
    var e := DownArrives(|s.link.ab|);
    q := Apply(c, s, e);
    TalksStep(c, s, e);
    StepInv(c, s, e);
    ArrivedReady(q.link, c.codec.write(s.flight.m), c.ks);
    if LengthReady(q.link.b) {
      var p := Apply(c, q, DownLength);
      TalksStep(c, q, DownLength);
      StepInv(c, q, DownLength);
      DownLengthInv(c, q);
      ArrivedReady(p.link, c.codec.write(s.flight.m), c.ks);
      TalksOn(c, s, q, p);
      q := p;
    }
  }

  lemma DownHeard(c: Config, s: State)
    requires Turn(c, s) && s.flight.Down?
    ensures ReceiverReads(s)
  {
  }

  lemma HearUp(c: Config, s: State) returns (link: Link)
    requires ValidConfig(c) && Inv(c, s) && s.flight.Up?
    ensures Speaks(c, s.flight.m)
    ensures Talks(c, s, SenderHandles(c, s.(link := link, flight := Nothing), c.codec.write(s.flight.m)))
  {
    hide ValidConfig, Turn, Plan, Talks, SenderHandles, Speaks, BodyOf;
    UpHeard(c, s);
    var q := UpReady(c, s);
    UpBodyIs(c, q);
    TalksStep(c, q, UpBody);
    TalksOn(c, s, q, Apply(c, q, UpBody));
    link := q.link.(a := ReadBody(q.link.a));
  }

  lemma UpReady(c: Config, s: State) returns (q: State)
    requires ValidConfig(c) && Inv(c, s) && s.flight.Up? && SenderReads(s)
    ensures Talks(c, s, q) && Inv(c, q) && q == s.(link := q.link) && BodyReady(q.link.a)
  {
    hide ValidConfig, Turn, Plan, Talks, Speaks;
    var e := UpArrives(|s.link.ba|);
    q := Apply(c, s, e);
    TalksStep(c, s, e);
    StepInv(c, s, e);
    ArrivedReady(q.link.Flip(), c.codec.write(s.flight.m), c.ks);
    if LengthReady(q.link.a) {
      var p := Apply(c, q, UpLength);
      TalksStep(c, q, UpLength);
      StepInv(c, q, UpLength);
      UpLengthInv(c, q);
      ArrivedReady(p.link.Flip(), c.codec.write(s.flight.m), c.ks);
      TalksOn(c, s, q, p);
      q := p;
    }
  }

  lemma UpHeard(c: Config, s: State)
    requires Turn(c, s) && s.flight.Up?
    ensures SenderReads(s)
  {
  }

  /** A Start that is on its way is answered. */
  lemma Answered(c: Config, s: State) returns (r: State)
    requires ValidConfig(c) && Inv(c, s) && s.sp.WaitIndex? && s.flight.Down?
    ensures Talks(c, s, r) && Inv(c, r) && r.flight.Up?
    ensures r == s.(link := r.link, flight := r.flight, writers := s.writers + multiset{Work(s.sp.id)},
                    reset := r.reset, partials := r.partials, openings := r.openings)
  {
    hide ValidConfig, Write, LinkOk, Plan, Talks, Speaks;
    var link := HearDown(c, s);
    SpeaksEncodes(c, s.flight.m);
    KnownHasStart(c, s);
    r := ReceiverHandles(c, s.(link := link, flight := Nothing), c.codec.write(s.flight.m));
    TalksInv(c, s, r);
  }

  /** The answer takes the sender back to its start loop. */
  lemma Indexed(c: Config, s: State) returns (r: State)
    requires ValidConfig(c) && Inv(c, s) && s.sp.WaitIndex? && s.flight.Up?
    ensures Talks(c, s, r) && Inv(c, r)
    ensures var q := s.(link := r.link, flight := Nothing, sp := Scheduling, reading := r.reading);
            r == if s.sp.retry then q else q.(active := s.active + {s.sp.id}, next := s.next + 1)
  {
    hide ValidConfig, Write, LinkOk, Plan, Talks, Speaks;
    var link := HearUp(c, s);
    SpeaksEncodes(c, s.flight.m);
    r := SenderHandles(c, s.(link := link, flight := Nothing), c.codec.write(s.flight.m));
    TalksInv(c, s, r);
  }

  lemma TalksInv(c: Config, s: State, r: State)
    requires ValidConfig(c) && Inv(c, s) && Talks(c, s, r)
    ensures Inv(c, r)
  {
    hide CanRun, After, Inv, ValidConfig;
    var a :| CanRun(c, s, a) && AllTalk(a) && After(c, s, a) == r;
    RunInv(c, s, a);
  }

  // ---- the measure ----

  predicate Over(s: State) {
    s.flight.Nothing? && ((s.sp.Finished? && s.rp == Closed(s.sp.reason)) || (s.sp.SenderError? && s.rp.ReceiverError?))
  }

  function Stage(s: State): nat {
    match s.sp
    case Greeting => 5
    case WaitCompleted => if s.flight.Down? then 4 else 3
    case Finished(_) => if s.flight.Down? then 1 else 0
    case SenderError => 0
    case _ => 2
  }

  /** Files still to be started, files being started and active files, in this order of weight. */
  function Todo(s: State): nat {
    3 * |s.files| + 2 * |Pending(s)| + |s.active|
  }

  /** How far the scheduler's counter is from `bound`, and how far a message or a report has come. */
  function Detail(s: State, bound: nat): nat {
    match s.sp
    case Scheduling => 2 + (if s.next < bound then bound - s.next else 0)
    case WaitIndex(_, _) => if s.flight.Down? then 1 else 0
    case WaitReport => if |s.reports| == 0 then 1 else 0
    case _ => 0
  }

  predicate Less(r: State, s: State, bound: nat) {
    || Stage(r) < Stage(s)
    || (Stage(r) == Stage(s) && Todo(r) < Todo(s))
    || (Stage(r) == Stage(s) && Todo(r) == Todo(s) && Detail(r, bound) < Detail(s, bound))
  }

  predicate Below(c: Config, bound: nat) {
    forall id | id in c.manifest :: id < bound
  }

  lemma BoundOf(c: Config) returns (bound: nat)
    ensures Below(c, bound)
  {
    bound := if c.manifest == {} then 0 else Scheduler.Highest(c.manifest) + 1;
  }

  lemma ScheduleLess(c: Config, s: State, bound: nat)
    requires Plan(c, s) && s.sp.Scheduling? && Below(c, bound)
    ensures Less(Schedule(c, s), s, bound)
  {
    hide Plan, Below, Write;
    if |s.active| < c.max && s.files != {} {
      if s.next in s.files {
        assert |s.files - {s.next}| == |s.files| - 1;
      } else {
        NextBelow(c, s, bound);
      }
    }
  }

  lemma NextBelow(c: Config, s: State, bound: nat)
    requires Plan(c, s) && s.sp.Scheduling? && Below(c, bound) && s.files != {}
    ensures s.next < bound
  {
    hide Logged;
    var id :| id in s.files;
    assert id in c.Remaining();
  }

  lemma HearDownLess(c: Config, s: State, link: Link, bound: nat)
    requires Turn(c, s) && s.flight.Down? && Encodes(c, s.flight.m)
    requires s.sp.WaitIndex? ==> s.sp.id in c.starts
    ensures Less(ReceiverHandles(c, s.(link := link, flight := Nothing), c.codec.write(s.flight.m)), s, bound)
  {
    hide SendUp, StartWriter, Config.Remaining;
    var q := s.(link := link, flight := Nothing);
    if s.flight.m.Start? {
      StartShape(c, q, s.flight.m.id);
    } else if s.flight.m.Manifest? {
      SendShape(c, q.(rp := ReceiverError), Refused);
      SendShape(c, q.(known := c.manifest - c.existing, rp := WaitStart), Completed(c.manifest * c.existing));
    }
  }

  lemma HearUpLess(c: Config, s: State, link: Link, bound: nat)
    requires Turn(c, s) && s.flight.Up? && Encodes(c, s.flight.m) && !(s.sp.WaitIndex? && s.sp.retry)
    ensures Less(SenderHandles(c, s.(link := link, flight := Nothing), c.codec.write(s.flight.m)), s, bound)
  {
    hide Write, Config.Remaining;
    if s.sp.WaitIndex? {
      assert |s.active + {s.sp.id}| <= |s.active| + 1;
      assert |Pending(s)| == 1;
    }
  }

  /** Unless the sender waits for a report or all is over, the two controllers get closer to the end. */
  lemma TalkOn(c: Config, s: State, orphans: set<nat>, bound: nat) returns (r: State)
    requires ValidConfig(c) && Inv(c, s) && Counted(s, orphans) && Below(c, bound)
    requires !s.sp.WaitReport? && !Over(s)
    ensures Talks(c, s, r) && Less(r, s, bound)
  {
    hide ValidConfig, LinkOk, Plan, Counted, Talks, Less, ReceiverHandles, SenderHandles, Schedule, Below,
         Config.Remaining, Speaks;
    NoRetry(s, orphans);
    if s.sp.Greeting? {
      TalksStep(c, s, SayHello);
      r := Greet(c, s);
      HelloLess(c, s, bound);
    } else if s.sp.Scheduling? {
      TalksStep(c, s, ScheduleNext);
      r := Schedule(c, s);
      ScheduleLess(c, s, bound);
    } else if s.flight.Down? {
      var link := HearDown(c, s);
      SpeaksEncodes(c, s.flight.m);
      if s.sp.WaitIndex? {
        StartsKnown(c, s);
      }
      HearDownLess(c, s, link, bound);
      r := ReceiverHandles(c, s.(link := link, flight := Nothing), c.codec.write(s.flight.m));
    } else {
      NotOver(c, s);
      var link := HearUp(c, s);
      SpeaksEncodes(c, s.flight.m);
      HearUpLess(c, s, link, bound);
      r := SenderHandles(c, s.(link := link, flight := Nothing), c.codec.write(s.flight.m));
    }
  }

  lemma HelloLess(c: Config, s: State, bound: nat)
    requires s.sp.Greeting?
    ensures Less(Greet(c, s), s, bound)
  {
    hide Write;
  }

  lemma StartsKnown(c: Config, s: State)
    requires ValidConfig(c) && Turn(c, s) && s.sp.WaitIndex?
    ensures s.sp.id in c.starts
  {
  }

  lemma NotOver(c: Config, s: State)
    requires Turn(c, s) && !s.sp.Greeting? && !s.sp.Scheduling? && !s.sp.WaitReport? && !s.flight.Down? && !Over(s)
    ensures s.flight.Up?
  {
  }

  // ---- to the end ----

  /** The files of `watch` have not ended and no report of theirs is outstanding. */
  predicate Spared(s: State, watch: set<nat>) {
    watch !! s.ended && forall id | id in watch :: Owing(s.reports, id) == 0
  }

  predicate Resting(s: State, watch: set<nat>) {
    Over(s) || (s.sp.WaitReport? && s.reports == [] && s.active * watch != {})
  }

  lemma ActiveWorks(s: State, id: nat, orphans: set<nat>)
    requires Owed(s, orphans) && id in s.active && Owing(s.reports, id) == 0
    ensures id !in orphans && Work(id) in s.writers
  {
    assert Count(s, id) == 1;
  }

  /** A writer at work ends, if its file allows it, and otherwise fails. */
  function Finisher(c: Config, s: State, id: nat): Step {
    if Enabled(c, s, Step.EndWriter(id)) then Step.EndWriter(id) else Step.FailWriter(id)
  }

  lemma EndSpares(c: Config, s: State, id: nat, watch: set<nat>)
    requires Spared(s, watch) && id !in watch && Work(id) in s.writers
    ensures Spared(Apply(c, s, Finisher(c, s, id)), watch)
  {
    hide Wrong, FinalContent;
    var r := Apply(c, s, Finisher(c, s, id));
    var report := if Enabled(c, s, Step.EndWriter(id)) then Report.End(id) else Failure(id, 2);
    assert r.reports == s.reports + [report];
    forall j | j in watch
      ensures Owing(r.reports, j) == 0
    {
      OwingAppend(s.reports, report, j);
    }
  }

  /** A final report of an active file ends it, and the round with it. */
  lemma FinalRound(c: Config, s: State)
    requires s.sp.WaitReport? && |s.reports| > 0 && Final(s.reports[0]) && s.reports[0].id in s.active
    ensures var r, id := TakeReport(c, s), s.reports[0].id;
            && r == s.(link := r.link, flight := r.flight, sp := r.sp, active := s.active - {id},
                       ended := s.ended + {id}, reports := s.reports[1..])
            && (r.sp.Scheduling? || r.sp.Finished?)
  {
    hide Write;
  }

  lemma ReportStep(c: Config, s: State, orphans: set<nat>, bound: nat, watch: set<nat>)
    requires Owed(s, orphans) && s.sp.WaitReport? && |s.reports| > 0 && Spared(s, watch) && s.active !! s.ended
    ensures Less(TakeReport(c, s), s, bound) && Spared(TakeReport(c, s), watch)
  {
    hide TakeReport, Owed;
    FirstReport(s, orphans);
    FinalRound(c, s);
    var id := s.reports[0].id;
    assert Owing(s.reports, id) >= 1;
    assert |s.active - {id}| == |s.active| - 1;
    forall j | j in watch
      ensures Owing(s.reports[1..], j) == 0 && j != id
    {
      assert Owing(s.reports, j) == 0;
    }
  }

  /** From every state the session can come to rest by ordinary steps: it is over, or the sender waits for
      a watched file whose writer is at work. */
  lemma {:induction false} Finish(c: Config, s: State, orphans: set<nat>, bound: nat, watch: set<nat>)
    returns (r: State)
    requires ValidConfig(c) && Inv(c, s) && Owed(s, orphans) && Below(c, bound) && Spared(s, watch)
    ensures Leads(c, s, r) && Inv(c, r) && Owed(r, orphans) && Spared(r, watch) && Resting(r, watch)
    decreases Stage(s), Todo(s), Detail(s, bound)
  {
    hide ValidConfig, Inv, Owed, Below, Spared, Leads, Talks, Apply, Counted;
    if Resting(s, watch) {
      LeadsNowhere(c, s);
      r := s;
    } else {
      var q := Closer(c, s, orphans, bound, watch);
      r := Finish(c, q, orphans, bound, watch);
      LeadsOn(c, s, q, r);
    }
  }

  lemma Closer(c: Config, s: State, orphans: set<nat>, bound: nat, watch: set<nat>) returns (r: State)
    requires ValidConfig(c) && Inv(c, s) && Owed(s, orphans) && Below(c, bound) && Spared(s, watch)
    requires !Resting(s, watch)
    ensures Leads(c, s, r) && Inv(c, r) && Owed(r, orphans) && Spared(r, watch) && Less(r, s, bound)
  {
    hide ValidConfig, Inv, Below, Leads, Talks, Counted, Apart, Less, Spared, TakeReport, Schedule, SenderHandles,
         ReceiverHandles, Wrong, FinalContent;
    if !s.sp.WaitReport? {
      r := TalkOn(c, s, orphans, bound);
      TalksKeeps(c, s, r, orphans);
      SameApart(s, r, orphans);
      SameSpared(s, r, watch);
      TalksLeads(c, s, r);
    } else if |s.reports| > 0 {
      WaitingActive(c, s);
      ReportStep(c, s, orphans, bound, watch);
      LeadsStep(c, s, HandleReport);
      StepInv(c, s, HandleReport);
      StepOwed(c, s, HandleReport, orphans);
      r := TakeReport(c, s);
    } else {
      WaitingActive(c, s);
      var id :| id in s.active;
      assert id !in s.active * watch;
      ActiveWorks(s, id, orphans);
      var e := Finisher(c, s, id);
      LeadsStep(c, s, e);
      StepInv(c, s, e);
      StepOwed(c, s, e, orphans);
      EndSpares(c, s, id, watch);
      r := Apply(c, s, e);
      EndLess(s, r, bound);
    }
  }

  lemma EndLess(s: State, r: State, bound: nat)
    requires s.sp.WaitReport? && s.reports == [] && |r.reports| > 0
    requires r == s.(writers := r.writers, reports := r.reports, partials := r.partials)
    ensures Less(r, s, bound)
  {
  }

  lemma WaitingActive(c: Config, s: State)
    requires Inv(c, s) && s.sp.WaitReport?
    ensures s.active != {} && s.active !! s.ended
  {
    hide LinkOk, Turn, Numbered, Logged;
  }

  lemma SameSpared(s: State, r: State, watch: set<nat>)
    requires Spared(s, watch) && r.ended == s.ended && r.reports == s.reports
    ensures Spared(r, watch)
  {
  }

  lemma NoneSpared(s: State)
    ensures Spared(s, {})
  {
  }

  /** As far as messages go there is no dead state: whatever has happened, short of a wrong signature, and
      with writers that end or fail when it is their turn, the session ends on both hosts, with every
      remaining file ended, no writer at work and no report left. Whether writers can end is a matter of the
      transport; a session together with its transport is the subject of `TransferTheorems`. */
  lemma NoDeadSession(c: Config, steps: seq<Step>) returns (rest: seq<Step>)
    requires ValidConfig(c) && CanRun(c, Init(c), steps) && NoMismatch(steps)
    ensures NoMismatch(rest) && CanRun(c, Init(c), steps + rest)
    ensures var r := After(c, Init(c), steps + rest);
            && Over(r) && r.writers == multiset{} && r.reports == []
            && (r.rp.Closed? ==> r.ended == if r.sp == Finished(0) then {} else c.Remaining())
            && (r.rp.ReceiverError? ==> !c.enoughSpace)
  {
    hide ValidConfig, CanRun, After, LinkOk, Owed, Spared, Config.Remaining;
    InitInv(c);
    InitOwed(c);
    RunOwed(c, Init(c), steps);
    var s := After(c, Init(c), steps);
    var bound := BoundOf(c);
    NoneSpared(s);
    var r := Finish(c, s, {}, bound, {});
    rest :| CanRun(c, s, rest) && NoMismatch(rest) && After(c, s, rest) == r;
    RunAppend(c, Init(c), steps, rest);
    OverIdle(c, r);
    NobodyOwed(r);
  }

  lemma OverIdle(c: Config, s: State)
    requires Inv(c, s) && Over(s)
    ensures InCharge(s) == {}
    ensures s.rp.Closed? ==> s.ended == if s.sp == Finished(0) then {} else c.Remaining()
    ensures s.rp.ReceiverError? ==> !c.enoughSpace
  {
    hide Plan, Turn, LinkOk, Config.Remaining;
    if s.sp.Finished? {
      FinishedIdle(c, s);
      ClosedEnded(c, s);
    } else {
      ErrorIdle(c, s);
    }
  }

  lemma ClosedEnded(c: Config, s: State)
    requires Plan(c, s) && s.sp.Finished?
    ensures s.ended == if s.sp == Finished(0) then {} else c.Remaining()
  {
    hide Numbered, Logged;
    EndedIsAll(c, s);
  }

  lemma ErrorIdle(c: Config, s: State)
    requires Inv(c, s) && s.sp.SenderError?
    ensures InCharge(s) == {} && !c.enoughSpace
  {
    hide LinkOk;
  }
}
