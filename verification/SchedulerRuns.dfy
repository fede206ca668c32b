/** The controller's loop is a run of the control session. */
module SchedulerRuns {
  import opened Channels
  import opened Session
  import opened SessionSafety
  import opened SessionProgress
  import opened Scheduler

  function BookOf(s: State): Book {
    Book(s.files, s.active, s.next, s.started)
  }

  lemma BookAhead(c: Config, s: State)
    requires Inv(c, s) && Greeted(s)
    ensures Ahead(BookOf(s))
  {
    hide LinkOk, Turn, Shares, Logged;
  }

  lemma RoundIsRun(c: Config, s: State) returns (r: State)
    requires ValidConfig(c) && Inv(c, s) && s.sp.Scheduling? && Room(BookOf(s), c.max)
    ensures Talks(c, s, r) && Inv(c, r) && r.sp.Scheduling? && r.reports == s.reports
    ensures BookOf(r) == Round(BookOf(s))
  {
    hide ValidConfig, Inv, Talks, ControlStream.Write;
    TalksStep(c, s, ScheduleNext);
    StepInv(c, s, ScheduleNext);
    r := Schedule(c, s);
    if s.next in s.files {
      var q := Answered(c, r);
      var p := Indexed(c, q);
      TalksOn(c, s, r, q);
      TalksOn(c, s, q, p);
      r := p;
    }
  }

  /** The start loop, each of its starts answered. */
  lemma {:induction false} StartLoopIsRun(c: Config, s: State) returns (r: State)
    requires ValidConfig(c) && Inv(c, s) && s.sp.Scheduling? && Ahead(BookOf(s))
    ensures Talks(c, s, r) && Inv(c, r) && r.sp.WaitReport? && r.reports == s.reports
    ensures BookOf(r) == StartAll(BookOf(s), c.max)
    decreases Gap(BookOf(s))
  {
    hide ValidConfig, Inv, Talks, Gap, Round, Ahead, ControlStream.Write;
    if Room(BookOf(s), c.max) {
      RoundCloser(BookOf(s), c.max);
      var q := RoundIsRun(c, s);
      r := StartLoopIsRun(c, q);
      TalksOn(c, s, q, r);
    } else {
      TalksStep(c, s, ScheduleNext);
      StepInv(c, s, ScheduleNext);
      r := Schedule(c, s);
    }
  }

  lemma ReportShape(c: Config, s: State)
    requires s.sp.WaitReport? && |s.reports| > 0
    ensures var r := TakeReport(c, s);
            && r.reports == s.reports[1..] && BookOf(r) == Reported(BookOf(s), s.reports[0])
            && (if Restarts(BookOf(s), s.reports[0]) then r.sp == WaitIndex(s.reports[0].id, true) && r.flight.Down?
                else if NothingLeft(BookOf(r)) then r.sp == Finished(2) else r.sp.Scheduling?)
  {
    hide ControlStream.Write;
    var id := s.reports[0].id;
    assert id !in s.active ==> s.active - {id} == s.active;
  }

  lemma RestartNotLeft(b: Book, report: Report)
    requires Restarts(b, report)
    ensures !NothingLeft(Reported(b, report))
  {
  }

  /** A restart that is answered leaves the books as they were. */
  lemma AnsweredIsRun(c: Config, s: State) returns (r: State)
    requires ValidConfig(c) && Inv(c, s) && s.sp.WaitIndex? && s.sp.retry && s.flight.Down?
    ensures Talks(c, s, r) && Inv(c, r) && r.reports == s.reports && BookOf(r) == BookOf(s) && r.sp.Scheduling?
  {
    hide ValidConfig, Inv, Talks;
    var q := Answered(c, s);
    r := Indexed(c, q);
    TalksOn(c, s, q, r);
  }

  /** Handling a report, with the answer to a restart. */
  lemma ReportIsRun(c: Config, s: State) returns (r: State)
    requires ValidConfig(c) && Inv(c, s) && s.sp.WaitReport? && |s.reports| > 0
    ensures Reaches(c, s, r) && Inv(c, r) && r.reports == s.reports[1..]
    ensures BookOf(r) == Reported(BookOf(s), s.reports[0])
    ensures if NothingLeft(BookOf(r)) then r.sp == Finished(2) else r.sp.Scheduling?
  {
    hide ValidConfig, Inv, Talks, Reaches, TakeReport, Reported, Restarts, NothingLeft, BookOf;
    ReachesSelf(c, s);
    ReachesStep(c, s, s, HandleReport);
    StepInv(c, s, HandleReport);
    r := TakeReport(c, s);
    ReportShape(c, s);
    if Restarts(BookOf(s), s.reports[0]) {
      RestartNotLeft(BookOf(s), s.reports[0]);
      var p := AnsweredIsRun(c, r);
      ReachesTalk(c, s, r, p);
      r := p;
    }
  }

  lemma StillGreeted(c: Config, s: State)
    requires Inv(c, s) && s.sp.Scheduling?
    ensures Ahead(BookOf(s))
  {
    BookAhead(c, s);
  }

  /** The main loop on the reports that have come: the same files are started and ended in the same order
      by the steps of the session, up to Done or to waiting for the next report. */
  lemma {:induction false} ServingIsRun(c: Config, s: State) returns (r: State)
    requires ValidConfig(c) && Inv(c, s) && s.sp.Scheduling? && Ahead(BookOf(s))
    ensures var o := Served(BookOf(s), s.reports, c.max);
            && Reaches(c, s, r) && Inv(c, r) && BookOf(r) == o.book
            && o.taken <= |s.reports| && r.reports == s.reports[o.taken..]
            && (if o.done then r.sp == Finished(2) else r.sp.WaitReport? && r.reports == [])
    decreases |s.reports|
  {
    hide ValidConfig, Inv, Talks, Reaches, Ahead, StartAll, Reported, Restarts, NothingLeft;
    var q := StartLoopIsRun(c, s);
    StartAllAhead(BookOf(s), c.max);
    ReachesSelf(c, s);
    ReachesTalk(c, s, s, q);
    if |s.reports| == 0 {
      r := q;
    } else {
      var p := ReportIsRun(c, q);
      ReachesOn(c, s, q, p);
      if p.sp.Scheduling? {
        StillGreeted(c, p);
        r := ServingIsRun(c, p);
        ReachesOn(c, s, p, r);
      } else {
        r := p;
      }
    }
  }
}
