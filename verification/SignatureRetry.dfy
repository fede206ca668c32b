/** A file with a wrong signature is reported twice, and the second report ends the file while its second
    writer is at work: exactly which sessions can close on a writer at work. */
module SignatureRetry {
  import opened Channels
  import opened ControlStream
  import opened Session
  import opened SessionSafety
  import opened SessionTheorems
  import opened SessionFiles
  import opened SessionProgress

  // ---- sessions that never do ----

  lemma InChargeRemains(c: Config, s: State, id: nat)
    requires Inv(c, s) && id in InCharge(s)
    ensures id in c.Remaining() && c.enoughSpace
  {
    hide LinkOk, Numbered, Logged;
    if id in s.active {
      assert Greeted(s);
    }
  }

  lemma WorksInCharge(s: State, id: nat)
    requires Owed(s, {}) && Work(id) in s.writers
    ensures id in InCharge(s)
  {
    assert Count(s, id) >= 1;
  }

  /** There is space, and a remaining file's first attempt ends with another content than the signed one. */
  ghost predicate Troubled(c: Config) {
    c.enoughSpace && exists id :: id in c.Remaining() && BadStart(c, id)
  }

  lemma MismatchNeeds(c: Config, s: State, id: nat)
    requires Inv(c, s) && Owed(s, {}) && Pristine(c, s) && Enabled(c, s, MismatchWriter(id))
    ensures Troubled(c)
  {
    hide Inv, Owed, InCharge, Config.Remaining, Wrong;
    WorksInCharge(s, id);
    InChargeRemains(c, s, id);
    assert id in c.Remaining() && BadStart(c, id);
  }

  lemma {:induction false} NothingToMismatch(c: Config, s: State, steps: seq<Step>)
    requires ValidConfig(c) && Inv(c, s) && Owed(s, {}) && Pristine(c, s) && CanRun(c, s, steps)
    requires !Troubled(c)
    ensures NoMismatch(steps)
    decreases |steps|
  {
    hide Inv, ValidConfig, Enabled, Apply, Counted, Apart, Pristine, Troubled;
    if |steps| > 0 {
      var e := steps[0];
      assert !e.MismatchWriter? by {
        if e.MismatchWriter? {
          MismatchNeeds(c, s, e.id);
        }
      }
      StepInv(c, s, e);
      StepOwed(c, s, e, {});
      StepPristine(c, s, e);
      NothingToMismatch(c, Apply(c, s, e), steps[1..]);
      assert forall i | 0 < i < |steps| :: steps[i] == steps[1..][i - 1];
    }
  }

  // ---- sessions that can ----

  ghost predicate Possible(c: Config, s: State) {
    Reaches(c, Init(c), s) && Inv(c, s)
  }

  lemma PossibleStep(c: Config, s: State, e: Step)
    requires ValidConfig(c) && Possible(c, s) && Enabled(c, s, e)
    ensures Possible(c, Apply(c, s, e))
  {
    hide Reaches, Inv, ValidConfig, Enabled, Apply;
    ReachesStep(c, Init(c), s, e);
    StepInv(c, s, e);
  }

  lemma PossibleTalk(c: Config, s: State, r: State)
    requires ValidConfig(c) && Possible(c, s) && Talks(c, s, r)
    ensures Possible(c, r)
  {
    hide CanRun, After, Inv, ValidConfig, Reaches;
    ReachesTalk(c, Init(c), s, r);
    var a :| CanRun(c, s, a) && AllTalk(a) && After(c, s, a) == r;
    RunInv(c, s, a);
  }

  /** A file at work, opened as it was found, and nothing else for the sender to hear of. */
  lemma AtWork(c: Config, id: nat, bound: nat) returns (s: State)
    requires ValidConfig(c) && c.enoughSpace && id in c.Remaining() && Below(c, bound)
    ensures Possible(c, s) && Owed(s, {}) && s.sp.WaitReport? && s.reports == [] && id in s.active
    ensures Pristine(c, s)
  {
    hide ValidConfig, Inv, Owed, Below, Leads, Reaches, Config.Remaining, Over, Pristine;
    InitInv(c);
    InitOwed(c);
    s := Finish(c, Init(c), {}, bound, {id});
    ReachesSelf(c, Init(c));
    ReachesLead(c, Init(c), Init(c), s);
    NotOverYet(c, s, id);
    assert s.active * {id} != {};
    LeadsPristine(c, s);
  }

  lemma LeadsPristine(c: Config, s: State)
    requires ValidConfig(c) && Leads(c, Init(c), s)
    ensures Pristine(c, s)
  {
    hide ValidConfig, Inv, Owed, CanRun, After, Pristine;
    InitInv(c);
    InitOwed(c);
    InitPristine(c);
    var steps :| CanRun(c, Init(c), steps) && NoMismatch(steps) && After(c, Init(c), steps) == s;
    RunPristine(c, Init(c), steps);
  }

  lemma CanMismatch(c: Config, s: State, id: nat)
    requires Pristine(c, s) && Work(id) in s.writers && BadStart(c, id)
    ensures Enabled(c, s, MismatchWriter(id))
  {
    hide Wrong;
    assert Complete(s, id);
  }

  lemma NotOverYet(c: Config, s: State, id: nat)
    requires Inv(c, s) && c.enoughSpace && id in c.Remaining() && id !in s.ended
    ensures !Over(s)
  {
    hide LinkOk, Shares, Numbered, Logged;
    if Over(s) {
      OverIdle(c, s);
    }
  }

  /** The wrong signature, its two reports, and the first of them handled. */
  lemma Reported(c: Config, s: State, id: nat) returns (r: State)
    requires ValidConfig(c) && Possible(c, s) && Enabled(c, s, MismatchWriter(id))
    requires s.sp.WaitReport? && s.reports == [] && id in s.active
    ensures Possible(c, r) && r.sp == WaitIndex(id, true) && r.flight == Down(Start(id))
    ensures r.active == s.active && r.reports == [Failure(id, 2)] && r.writers == s.writers - multiset{Work(id)}
  {
    hide ValidConfig, Possible, Write, Wrong, FinalContent, EndOfRound, Remove, Greet, Schedule, ReceiverHandles,
         SenderHandles, Arrive;
    PossibleStep(c, s, MismatchWriter(id));
    var q := Apply(c, s, MismatchWriter(id));
    PossibleStep(c, q, AbandonWriter(id));
    var p := Apply(c, q, AbandonWriter(id));
    assert p.reports == [Failure(id, 0), Failure(id, 2)];
    PossibleStep(c, p, HandleReport);
    r := Apply(c, p, HandleReport);
    assert p.reports[1..] == [Failure(id, 2)];
  }

  /** The file is started again while the second report is outstanding. */
  lemma Restarted(c: Config, s: State, id: nat) returns (r: State)
    requires ValidConfig(c) && Possible(c, s) && Enabled(c, s, MismatchWriter(id))
    requires s.sp.WaitReport? && s.reports == [] && id in s.active
    ensures Possible(c, r) && r.sp.Scheduling? && r.active == s.active
    ensures r.reports == [Failure(id, 2)] && r.writers == s.writers
  {
    hide ValidConfig, Reaches, Talks, Inv;
    var q := Reported(c, s, id);
    var p := Answered(c, q);
    PossibleTalk(c, q, p);
    r := Indexed(c, p);
    PossibleTalk(c, p, r);
  }

  lemma OneTooMany(s: State, r: State, id: nat)
    requires Owed(s, {}) && s.sp.WaitReport? && s.reports == [] && id in s.active
    requires r.sp.Scheduling? && r.active == s.active && r.reports == [Failure(id, 2)] && r.writers == s.writers
    ensures Counted(r, {id})
  {
    assert InCharge(r) == s.active && InCharge(s) == s.active;
    assert r.reports[1..] == [];
    forall j
      ensures Count(r, j) == (if j in InCharge(r) then 1 else 0) + (if j in {id} then 1 else 0)
      ensures r.writers[Failing(j)] == 0
    {
      assert Count(s, j) == if j in InCharge(s) then 1 else 0;
      assert s.writers[Failing(j)] == 0;
    }
  }

  /** The two controllers talk until the sender waits for a report. */
  lemma {:induction false} ToReport(c: Config, s: State, orphans: set<nat>, bound: nat) returns (r: State)
    requires ValidConfig(c) && Inv(c, s) && Counted(s, orphans) && Below(c, bound)
    ensures Talks(c, s, r) && Inv(c, r) && Counted(r, orphans) && Talked(s, r) && (r.sp.WaitReport? || Over(r))
    decreases Stage(s), Todo(s), Detail(s, bound)
  {
    hide ValidConfig, Inv, Below, Talks, Counted, Over;
    if s.sp.WaitReport? || Over(s) {
      LeadsNowhere(c, s);
      r := s;
    } else {
      var q := TalkOn(c, s, orphans, bound);
      TalksKeeps(c, s, q, orphans);
      r := ToReport(c, q, orphans, bound);
      TalksOn(c, s, q, r);
    }
    TalksKeeps(c, s, r, orphans);
  }

  /** The second report ends the file, and nobody waits for its second writer any more. */
  lemma Orphaned(c: Config, s: State, id: nat)
    requires Inv(c, s) && Counted(s, {id}) && s.sp.WaitReport? && s.reports == [Failure(id, 2)] && id in s.active
    ensures Owed(TakeReport(c, s), {id})
  {
    hide Write, Inv, Owed;
    NoLongerStarted(c, s, id);
    var q := Remove(s.(reports := s.reports[1..]), id);
    LeftBehind(s, q, id);
    OwedAcross(q, EndOfRound(c, q), {id});
  }

  lemma LeftBehind(s: State, q: State, id: nat)
    requires Counted(s, {id}) && s.sp.WaitReport? && s.reports == [Failure(id, 2)] && id in s.active && id !in s.files
    requires q.sp == s.sp && q.writers == s.writers && q.files == s.files
    requires q.active == s.active - {id} && q.reports == []
    ensures Owed(q, {id})
  {
    assert s.reports[1..] == [] && InCharge(s) == s.active && InCharge(q) == s.active - {id};
    forall j
      ensures Count(q, j) == (if j in InCharge(q) then 1 else 0) + (if j in {id} then 1 else 0)
    {
      assert Count(s, j) == (if j in InCharge(s) then 1 else 0) + (if j in {id} then 1 else 0);
    }
  }

  lemma NoLongerStarted(c: Config, s: State, id: nat)
    requires Inv(c, s) && s.sp.WaitReport? && id in s.active
    ensures id !in s.files
  {
    hide LinkOk, Turn, Shares, Logged;
  }

  ghost predicate ClosesEarly(c: Config, steps: seq<Step>) {
    && CanRun(c, Init(c), steps)
    && After(c, Init(c), steps).rp.Closed? && After(c, Init(c), steps).writers != multiset{}
  }

  lemma OrphanWorks(s: State, id: nat)
    requires Owed(s, {id})
    ensures Work(id) in s.writers
  {
    assert Count(s, id) == 1;
  }

  lemma CanCloseEarly(c: Config, id: nat) returns (steps: seq<Step>)
    requires ValidConfig(c) && c.enoughSpace && id in c.Remaining() && BadStart(c, id)
    ensures ClosesEarly(c, steps)
  {
    hide ValidConfig, Inv, Owed, Below, Counted, Leads, Talks, Config.Remaining, TakeReport, CanRun, After, Talked,
         Over, Pristine, Wrong;
    var bound := BoundOf(c);
    var s := AtWork(c, id, bound);
    ActiveWorks(s, id, {});
    CanMismatch(c, s, id);
    var q := Restarted(c, s, id);
    OneTooMany(s, q, id);
    var p := ToReport(c, q, {id}, bound);
    PossibleTalk(c, q, p);
    StillActive(c, q, p, id);
    Orphaned(c, p, id);
    PossibleStep(c, p, HandleReport);
    var o := TakeReport(c, p);
    NoneSpared(o);
    var r := Finish(c, o, {id}, bound, {});
    ReachesLead(c, Init(c), o, r);
    OrphanWorks(r, id);
    OverCloses(c, r);
    steps :| CanRun(c, Init(c), steps) && After(c, Init(c), steps) == r;
  }

  lemma StillActive(c: Config, s: State, r: State, id: nat)
    requires Talked(s, r) && Inv(c, r) && (r.sp.WaitReport? || Over(r)) && id in s.active
    ensures r.sp.WaitReport? && id in r.active && r.reports == s.reports
  {
    hide Inv;
    if Over(r) {
      OverIdle(c, r);
    }
  }

  lemma OverCloses(c: Config, s: State)
    requires Inv(c, s) && Resting(s, {}) && c.enoughSpace
    ensures s.rp.Closed?
  {
    hide Inv;
    if Over(s) {
      OverIdle(c, s);
    }
  }

  /** The receiving host can close while a writer is at work exactly when there is space and a remaining
      file starts badly, that is, its partial file with the source from its start index on behind it does
      not have the signature: the retry after a wrong signature is the one way. */
  lemma ClosesEarlyIff(c: Config)
    requires ValidConfig(c)
    ensures (exists steps :: ClosesEarly(c, steps)) <==>
            c.enoughSpace && exists id :: id in c.Remaining() && BadStart(c, id)
  {
    hide ValidConfig, Inv, Owed, CanRun, After, Config.Remaining, BadStart, Pristine;
    if Troubled(c) {
      var id :| id in c.Remaining() && BadStart(c, id);
      var steps := CanCloseEarly(c, id);
    } else if steps :| ClosesEarly(c, steps) {
      InitInv(c);
      InitOwed(c);
      InitPristine(c);
      NothingToMismatch(c, Init(c), steps);
      SessionCompletion(c, steps);
    }
  }
}
