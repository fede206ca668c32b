/** What holds in every reachable state of the control session. */
module SessionSafety {
  import opened Channels
  import opened ControlStream
  import opened Session

  // ---- the stream ----

  ghost predicate LinkOk(c: Config, link: Link, flight: Flight) {
    match flight
    case Nothing => Quiet(link)
    case Down(m) => Speaks(c, m) && Carrying(link, c.codec.write(m), c.ks)
    case Up(m) => Speaks(c, m) && Carrying(link.Flip(), c.codec.write(m), c.ks)
  }

  // ---- whose turn it is ----

  ghost predicate IndexFor(c: Config, m: Message, id: nat) {
    m.StartIndex? && id in c.starts && (m.index == 0 || m.index == c.starts[id])
  }

  /** At most one message is on its way, it is the one the phases of both ends call for, and both ends
      agree on the files that remain. */
  ghost predicate Turn(c: Config, s: State) {
    match s.sp
    case Greeting => s.flight.Nothing? && s.rp.WaitManifest?
    case WaitCompleted =>
      || (s.flight == Down(Manifest(c.manifest)) && s.rp.WaitManifest?)
      || (s.flight == Up(Completed(c.manifest * c.existing)) && Agreed(c, s))
      || (s.flight == Up(Refused) && s.rp.ReceiverError? && !c.enoughSpace)
    case Scheduling => s.flight.Nothing? && Agreed(c, s)
    case WaitReport => s.flight.Nothing? && Agreed(c, s)
    case WaitIndex(id, retry) =>
      && Agreed(c, s) && id in s.known
      && (s.flight == Down(Start(id)) || (s.flight.Up? && IndexFor(c, s.flight.m, id)))
    case Finished(reason) =>
      && reason <= 2
      && (if reason == 0 then s.rp.WaitManifest? || s.rp == Closed(0)
          else Agreed(c, s) || (s.rp == Closed(reason) && c.enoughSpace))
      && (if s.rp.Closed? then s.flight.Nothing? else s.flight == Down(Done(reason)))
    case SenderError => s.flight.Nothing? && s.rp.ReceiverError? && !c.enoughSpace
  }

  predicate Agreed(c: Config, s: State) {
    s.rp.WaitStart? && s.known == c.Remaining() && c.enoughSpace
  }

  // ---- which file is where ----

  /** The file whose first Start is out and that is not active yet. */
  function Pending(s: State): set<nat> {
    if s.sp.WaitIndex? && !s.sp.retry then {s.sp.id} else {}
  }

  predicate Ascending(ids: seq<nat>) {
    forall i, j | 0 <= i < j < |ids| :: ids[i] < ids[j]
  }

  function IdSet(ids: seq<nat>): set<nat> {
    set id | id in ids
  }

  predicate Greeted(s: State) {
    !s.sp.Greeting? && !s.sp.WaitCompleted? && !s.sp.SenderError?
  }

  /** The remaining files are shared out between waiting, pending, active and ended. */
  predicate Shares(remaining: set<nat>, files: set<nat>, active: set<nat>, pending: set<nat>, ended: set<nat>) {
    files + active + pending + ended == remaining && files !! pending && active !! ended
  }

  /** Waiting files are at or above the counter, active and ended ones below, a pending one at it. */
  predicate Numbered(next: nat, files: set<nat>, active: set<nat>, pending: set<nat>, ended: set<nat>) {
    && (forall id | id in files :: id >= next)
    && (forall id | id in active :: id < next)
    && (forall id | id in ended :: id < next)
    && (forall id | id in pending :: id == next)
  }

  /** Every file that left `files` was started once, in ascending order. */
  predicate Logged(started: seq<nat>, active: set<nat>, pending: set<nat>, ended: set<nat>) {
    Ascending(started) && IdSet(started) == active + pending + ended
  }

  predicate InPhase(c: Config, sp: SenderPhase, files: set<nat>, active: set<nat>) {
    && (sp.WaitIndex? && sp.retry ==> sp.id in active)
    && (sp.Scheduling? ==> files != {} || active != {})
    && (sp.WaitReport? ==> active != {})
    && (sp == Finished(0) ==> c.manifest == {} && !c.hasDirectories)
    && (sp.Finished? && sp.reason != 0 ==> files == {} && active == {})
    && (sp == Finished(1) ==> c.Remaining() == {})
  }

  ghost predicate Plan(c: Config, s: State) {
    if !Greeted(s) then
      s.files == c.manifest && s.active == {} && s.next == 0 && s.started == [] && s.ended == {}
    else
      && Shares(c.Remaining(), s.files, s.active, Pending(s), s.ended)
      && Numbered(s.next, s.files, s.active, Pending(s), s.ended)
      && Logged(s.started, s.active, Pending(s), s.ended)
      && |s.active| + |Pending(s)| <= c.max
      && InPhase(c, s.sp, s.files, s.active)
  }

  ghost predicate Inv(c: Config, s: State) {
    LinkOk(c, s.link, s.flight) && Turn(c, s) && Plan(c, s)
  }

  // ---- how the shares change ----

  lemma StartShare(remaining: set<nat>, files: set<nat>, active: set<nat>, ended: set<nat>, next: nat,
                   started: seq<nat>)
    requires Shares(remaining, files, active, {}, ended) && Numbered(next, files, active, {}, ended)
    requires Logged(started, active, {}, ended) && next in files
    ensures Shares(remaining, files - {next}, active, {next}, ended)
    ensures Numbered(next, files - {next}, active, {next}, ended)
    ensures Logged(started + [next], active, {next}, ended)
  {
    assert files - {next} + active + {next} + ended == files + active + {} + ended;
    AppendAscending(started, next);
    assert active + {next} + ended == active + {} + ended + {next};
  }

  lemma ActivateShare(remaining: set<nat>, files: set<nat>, active: set<nat>, ended: set<nat>, next: nat,
                      started: seq<nat>)
    requires Shares(remaining, files, active, {next}, ended) && Numbered(next, files, active, {next}, ended)
    requires Logged(started, active, {next}, ended)
    ensures Shares(remaining, files, active + {next}, {}, ended)
    ensures Numbered(next + 1, files, active + {next}, {}, ended)
    ensures Logged(started, active + {next}, {}, ended)
    ensures |active + {next}| == |active| + 1
  {
    hide Shares, Numbered, Logged;
    ActivateShares(remaining, files, active, ended, next);
    ActivateNumbers(files, active, ended, next);
    ActivateLog(started, active, ended, next);
  }

  lemma ActivateShares(remaining: set<nat>, files: set<nat>, active: set<nat>, ended: set<nat>, next: nat)
    requires Shares(remaining, files, active, {next}, ended) && Numbered(next, files, active, {next}, ended)
    ensures Shares(remaining, files, active + {next}, {}, ended) && |active + {next}| == |active| + 1
    ensures next !in files
  {
    assert files + (active + {next}) + {} + ended == files + active + {next} + ended;
    assert next !in active && next !in ended;
  }

  lemma ActivateNumbers(files: set<nat>, active: set<nat>, ended: set<nat>, next: nat)
    requires Numbered(next, files, active, {next}, ended) && next !in files
    ensures Numbered(next + 1, files, active + {next}, {}, ended)
  {
  }

  lemma ActivateLog(started: seq<nat>, active: set<nat>, ended: set<nat>, next: nat)
    requires Logged(started, active, {next}, ended)
    ensures Logged(started, active + {next}, {}, ended)
  {
    hide Ascending, IdSet;
    assert (active + {next}) + {} + ended == active + {next} + ended;
  }

  lemma RemoveShare(remaining: set<nat>, files: set<nat>, active: set<nat>, ended: set<nat>, id: nat)
    requires Shares(remaining, files, active, {}, ended) && id in active
    ensures Shares(remaining, files, active - {id}, {}, ended + {id})
    ensures |active - {id}| == |active| - 1
  {
    assert (active - {id}) + {} + (ended + {id}) == active + {} + ended;
    assert files + (active - {id}) + {} + (ended + {id}) == files + ((active - {id}) + {} + (ended + {id}));
    assert files + active + {} + ended == files + (active + {} + ended);
  }

  lemma RemoveNumber(files: set<nat>, active: set<nat>, ended: set<nat>, next: nat, started: seq<nat>, id: nat)
    requires Numbered(next, files, active, {}, ended) && Logged(started, active, {}, ended) && id in active
    ensures Numbered(next, files, active - {id}, {}, ended + {id})
    ensures Logged(started, active - {id}, {}, ended + {id})
  {
    hide Ascending, IdSet;
    assert (active - {id}) + {} + (ended + {id}) == active + {} + ended;
  }

  lemma FreshShare(remaining: set<nat>)
    ensures Shares(remaining, remaining, {}, {}, {}) && Numbered(0, remaining, {}, {}, {}) && Logged([], {}, {}, {})
  {
  }

  lemma InitInv(c: Config)
    ensures Inv(c, Init(c))
  {
  }

  // ---- sending ----

  lemma SendDownOk(c: Config, s: State, m: Message)
    requires LinkOk(c, s.link, s.flight) && s.flight.Nothing? && Speaks(c, m)
    ensures LinkOk(c, SendDown(c, s, m).link, Down(m))
  {
    WriteCarries(s.link, c.codec.write(m), c.ks);
  }

  lemma SendUpOk(c: Config, s: State, m: Message)
    requires Quiet(s.link) && Speaks(c, m)
    ensures LinkOk(c, SendUp(c, s, m).link, Up(m))
  {
    assert Quiet(s.link.Flip());
    WriteCarries(s.link.Flip(), c.codec.write(m), c.ks);
    assert SendUp(c, s, m).link.Flip() == Write(s.link.Flip(), c.codec.write(m), c.ks);
  }

  lemma SayHelloInv(c: Config, s: State)
    requires Inv(c, s) && s.sp.Greeting?
    ensures Inv(c, Greet(c, s))
  {
    if c.manifest == {} && !c.hasDirectories {
      SendDownOk(c, s, Done(0));
    } else {
      SendDownOk(c, s, Manifest(c.manifest));
    }
  }

  lemma AppendAscending(ids: seq<nat>, id: nat)
    requires Ascending(ids) && forall i | i in IdSet(ids) :: i < id
    ensures Ascending(ids + [id]) && IdSet(ids + [id]) == IdSet(ids) + {id}
  {
    forall i, j | 0 <= i < j < |ids + [id]|
      ensures (ids + [id])[i] < (ids + [id])[j]
    {
      if j == |ids| {
        assert ids[i] in IdSet(ids);
      }
    }
  }

  lemma StartPlan(c: Config, s: State, r: State)
    requires Plan(c, s) && s.sp.Scheduling? && |s.active| < c.max && s.next in s.files
    requires r.files == s.files - {s.next} && r.started == s.started + [s.next] && r.sp == WaitIndex(s.next, false)
    requires r.active == s.active && r.ended == s.ended && r.next == s.next
    ensures Plan(c, r) && s.next in c.Remaining()
  {
    hide Plan, Pending, Shares, Numbered, Logged, InPhase, Greeted, Config.Remaining;
    GreetedBy(s);
    GreetedBy(r);
    PlanParts(c, s, {});
    IndexPhase(c, r.sp, r.files, r.active);
    StartShare(c.Remaining(), s.files, s.active, s.ended, s.next, s.started);
    SharesRemaining(c.Remaining(), s.files, s.active, {}, s.ended);
    PlanOf(c, r, {s.next});
  }

  lemma StartFileInv(c: Config, s: State)
    requires Inv(c, s) && s.sp.Scheduling? && |s.active| < c.max && s.next in s.files
    ensures Inv(c, Schedule(c, s))
  {
    hide LinkOk, Plan, Turn, Speaks, Write, Config.Remaining;
    var q := s.(files := s.files - {s.next}, started := s.started + [s.next], sp := WaitIndex(s.next, false));
    var r := SendDown(c, q, Start(s.next));
    NothingOut(c, s);
    StartPlan(c, s, r);
    StartSpeaks(c, s.next);
    SendDownOk(c, q, Start(s.next));
    StartTurn(c, s, r, s.next);
    assert Schedule(c, s) == r;
  }

  lemma NothingOut(c: Config, s: State)
    requires Turn(c, s) && (s.sp.Scheduling? || s.sp.WaitReport?)
    ensures s.flight.Nothing? && Agreed(c, s)
  {
  }

  lemma StartTurn(c: Config, s: State, r: State, id: nat)
    requires Agreed(c, s) && id in s.known
    requires r.sp == WaitIndex(id, false) && r.flight == Down(Start(id)) && r.rp == s.rp && r.known == s.known
    ensures Turn(c, r)
  {
  }

  lemma StartSpeaks(c: Config, id: nat)
    requires id in c.Remaining()
    ensures Speaks(c, Start(id))
  {
  }

  lemma SharesRemaining(remaining: set<nat>, files: set<nat>, active: set<nat>, pending: set<nat>, ended: set<nat>)
    requires Shares(remaining, files, active, pending, ended)
    ensures files <= remaining && active <= remaining
  {
  }

  lemma ScheduleInv(c: Config, s: State)
    requires ValidConfig(c) && Inv(c, s) && s.sp.Scheduling?
    ensures Inv(c, Schedule(c, s))
  {
    hide LinkOk, Shares, Logged;
    if |s.active| < c.max && s.files != {} {
      if s.next in s.files {
        StartFileInv(c, s);
      }
    } else if s.files != {} {
      assert |s.active| >= 1;
    }
  }

  lemma EndOfRoundInv(c: Config, s: State)
    requires LinkOk(c, s.link, s.flight) && s.flight.Nothing? && Agreed(c, s) && s.sp.WaitReport?
    requires Shares(c.Remaining(), s.files, s.active, {}, s.ended)
    requires Numbered(s.next, s.files, s.active, {}, s.ended)
    requires Logged(s.started, s.active, {}, s.ended) && |s.active| <= c.max
    ensures Inv(c, EndOfRound(c, s))
  {
    hide LinkOk, Shares, Numbered, Logged;
    if s.files == {} && s.active == {} {
      SendDownOk(c, s, Done(2));
    }
  }

  lemma RemoveInv(c: Config, s: State, id: nat)
    requires Inv(c, s) && s.sp.WaitReport?
    ensures Inv(c, EndOfRound(c, Remove(s, id)))
  {
    hide LinkOk, Shares, Numbered, Logged, EndOfRound;
    if id in s.active {
      RemoveShare(c.Remaining(), s.files, s.active, s.ended, id);
      RemoveNumber(s.files, s.active, s.ended, s.next, s.started, id);
    }
    EndOfRoundInv(c, Remove(s, id));
  }

  lemma RetryInv(c: Config, s: State, id: nat)
    requires Inv(c, s) && s.sp.WaitReport? && id in s.active
    ensures Inv(c, SendDown(c, s.(sp := WaitIndex(id, true)), Start(id)))
  {
    hide LinkOk, Shares, Numbered, Logged, Speaks, Config.Remaining;
    SharesRemaining(c.Remaining(), s.files, s.active, Pending(s), s.ended);
    StartSpeaks(c, id);
    SendDownOk(c, s, Start(id));
  }

  lemma IgnoreInv(c: Config, s: State, reports: seq<Report>)
    requires Inv(c, s) && s.sp.WaitReport?
    ensures Inv(c, s.(reports := reports)) && Inv(c, EndOfRound(c, s.(reports := reports)))
  {
    hide LinkOk, Shares, Numbered, Logged, EndOfRound;
    EndOfRoundInv(c, s.(reports := reports));
  }

  lemma RemoveShape(s: State, id: nat)
    ensures Remove(s, id) == s.(active := Remove(s, id).active, ended := Remove(s, id).ended)
  {
  }

  lemma RoundShape(c: Config, s: State)
    ensures var r := EndOfRound(c, s);
            r == s.(link := r.link, flight := r.flight, sp := r.sp) && !r.sp.WaitIndex?
            && (r.flight.Down? || r.flight == s.flight)
  {
    hide Write;
  }

  lemma RestartShape(c: Config, s: State, id: nat)
    ensures var r := SendDown(c, s.(sp := WaitIndex(id, true)), Start(id));
            r == s.(link := r.link, flight := r.flight, sp := r.sp) && r.sp.retry && r.flight.Down?
  {
    hide Write;
  }

  /** Handling a report changes the sender's controller only. */
  lemma ReportShape(c: Config, s: State)
    requires |s.reports| > 0
    ensures var r := TakeReport(c, s);
            && r == s.(link := r.link, flight := r.flight, sp := r.sp, active := r.active, ended := r.ended,
                       reports := s.reports[1..])
            && (r.sp.WaitIndex? ==> r.sp.retry) && (r.flight.Down? || r.flight == s.flight)
  {
    hide EndOfRound, SendDown, Remove;
    var rest, id := s.(reports := s.reports[1..]), s.reports[0].id;
    RemoveShape(rest, id);
    RoundShape(c, Remove(rest, id));
    RoundShape(c, rest);
    RestartShape(c, rest, id);
  }

  lemma HandleReportInv(c: Config, s: State)
    requires Inv(c, s) && s.sp.WaitReport? && |s.reports| > 0
    ensures Inv(c, TakeReport(c, s))
  {
    hide Inv, EndOfRound, Remove;
    var rest := s.(reports := s.reports[1..]);
    IgnoreInv(c, s, s.reports[1..]);
    match s.reports[0]
    case End(id) => RemoveInv(c, rest, id);
    case Failure(id, reason) =>
      if reason == 0 && id in s.active {
        RetryInv(c, rest, id);
      } else if reason == 2 {
        RemoveInv(c, rest, id);
      }
  }

  // ---- the bytes move ----

  lemma DownArrivesInv(c: Config, s: State, n: nat)
    requires Inv(c, s) && n <= |s.link.ab|
    ensures Inv(c, s.(link := Arrive(s.link, n)))
  {
    hide Turn, Plan, Speaks;
    var r := s.(link := Arrive(s.link, n));
    OnlyLink(c, s, r);
    match s.flight
    case Nothing =>
    case Down(m) => ArriveCarries(s.link, n, c.codec.write(m), c.ks);
    case Up(m) =>
      assert s.link.ab == [];
      assert s.link.b.inbox + [] == s.link.b.inbox;
  }

  lemma OnlyLink(c: Config, s: State, r: State)
    requires Turn(c, s) && Plan(c, s) && r == s.(link := r.link)
    ensures Turn(c, r) && Plan(c, r)
  {
  }

  lemma UpArrivesInv(c: Config, s: State, n: nat)
    requires Inv(c, s) && n <= |s.link.ba|
    ensures Inv(c, s.(link := Arrive(s.link.Flip(), n).Flip()))
  {
    hide Turn, Plan, Speaks;
    var r := s.(link := Arrive(s.link.Flip(), n).Flip());
    OnlyLink(c, s, r);
    match s.flight
    case Nothing =>
    case Up(m) =>
      ArriveCarries(s.link.Flip(), n, c.codec.write(m), c.ks);
      assert r.link.Flip() == Arrive(s.link.Flip(), n);
    case Down(m) =>
      assert s.link.ba == [];
      assert s.link.a.inbox + [] == s.link.a.inbox;
  }

  lemma SpeaksEncodes(c: Config, m: Message)
    requires ValidConfig(c) && Speaks(c, m)
    ensures Encodes(c, m)
  {
  }

  lemma DownLengthInv(c: Config, s: State)
    requires ValidConfig(c) && Inv(c, s) && LengthReady(s.link.b)
    ensures s.flight.Down? && Inv(c, s.(link := s.link.(b := ReadLength(s.link.b, c.ks))))
  {
    hide Turn, Plan, Speaks, ValidConfig;
    OnlyLink(c, s, s.(link := s.link.(b := ReadLength(s.link.b, c.ks))));
    var Down(m) := s.flight;
    SpeaksEncodes(c, m);
    LengthCarries(s.link, c.codec.write(m), c.ks);
  }

  lemma UpLengthInv(c: Config, s: State)
    requires ValidConfig(c) && Inv(c, s) && LengthReady(s.link.a)
    ensures s.flight.Up? && Inv(c, s.(link := s.link.(a := ReadLength(s.link.a, c.ks))))
  {
    hide Turn, Plan, Speaks, ValidConfig;
    OnlyLink(c, s, s.(link := s.link.(a := ReadLength(s.link.a, c.ks))));
    var Up(m) := s.flight;
    SpeaksEncodes(c, m);
    LengthCarries(s.link.Flip(), c.codec.write(m), c.ks);
  }

  /** A body that is ready is that of the message on its way, and after it the stream is quiet. */
  lemma DownBodyIs(c: Config, s: State)
    requires LinkOk(c, s.link, s.flight) && BodyReady(s.link.b)
    ensures s.flight.Down? && Speaks(c, s.flight.m)
    ensures BodyOf(s.link.b, c.ks) == c.codec.write(s.flight.m)
    ensures Quiet(s.link.(b := ReadBody(s.link.b)))
  {
    var Down(m) := s.flight;
    BodyCarries(s.link, c.codec.write(m), c.ks);
  }

  lemma UpBodyIs(c: Config, s: State)
    requires LinkOk(c, s.link, s.flight) && BodyReady(s.link.a)
    ensures s.flight.Up? && Speaks(c, s.flight.m)
    ensures BodyOf(s.link.a, c.ks) == c.codec.write(s.flight.m)
    ensures Quiet(s.link.(a := ReadBody(s.link.a)))
  {
    var Up(m) := s.flight;
    BodyCarries(s.link.Flip(), c.codec.write(m), c.ks);
  }

  // ---- a message is handled ----

  /** `q` is `s` with the message taken off the stream. */
  ghost predicate Taken(s: State, q: State) {
    q == s.(link := q.link, flight := Nothing) && Quiet(q.link)
  }

  /** The manifest is answered with the completed ids, or refused. */
  lemma ManifestIs(c: Config, s: State, q: State)
    requires Turn(c, s) && s.flight.Down? && s.flight.m.Manifest? && Encodes(c, s.flight.m)
    requires q == s.(link := q.link, flight := Nothing)
    ensures s.sp.WaitCompleted? && s.flight.m == Manifest(c.manifest)
    ensures ReceiverHandles(c, q, c.codec.write(s.flight.m)) ==
            if c.enoughSpace then
              SendUp(c, q.(known := c.Remaining(), rp := WaitStart), Completed(c.manifest * c.existing))
            else SendUp(c, q.(rp := ReceiverError), Refused)
  {
    hide Write, Agreed;
  }

  lemma AnsweredManifest(c: Config, s: State, r: State)
    requires s.sp.WaitCompleted?
    requires r == s.(link := r.link, flight := r.flight, rp := r.rp, known := r.known)
    requires if c.enoughSpace then
               r.flight == Up(Completed(c.manifest * c.existing)) && r.rp.WaitStart? && r.known == c.Remaining()
             else r.flight == Up(Refused) && r.rp.ReceiverError?
    ensures Turn(c, r) && (Plan(c, s) ==> Plan(c, r))
  {
    hide Config.Remaining;
  }

  lemma ManifestInv(c: Config, s: State, q: State)
    requires ValidConfig(c) && Turn(c, s) && Plan(c, s) && s.flight.Down? && Taken(s, q)
    requires s.flight.m.Manifest? && Speaks(c, s.flight.m)
    ensures Inv(c, ReceiverHandles(c, q, c.codec.write(s.flight.m)))
  {
    hide ValidConfig, Quiet, Write, Turn, Plan, ReceiverHandles, LinkOk, Config.Remaining;
    SpeaksEncodes(c, s.flight.m);
    ManifestIs(c, s, q);
    AnsweredManifest(c, s, ReceiverHandles(c, q, c.codec.write(s.flight.m)));
    if c.enoughSpace {
      SendUpOk(c, q.(known := c.Remaining(), rp := WaitStart), Completed(c.manifest * c.existing));
    } else {
      SendUpOk(c, q.(rp := ReceiverError), Refused);
    }
  }

  lemma KnownHasStart(c: Config, s: State)
    requires ValidConfig(c) && Turn(c, s) && s.flight.Down? && s.flight.m.Start?
    ensures s.rp.WaitStart? && s.flight.m.id in s.known && s.flight.m.id in c.starts
  {
    hide StartsFound;
  }

  lemma StartInv(c: Config, s: State, q: State)
    requires ValidConfig(c) && Turn(c, s) && Plan(c, s) && s.flight.Down? && Taken(s, q)
    requires s.flight.m.Start? && Speaks(c, s.flight.m)
    ensures Inv(c, ReceiverHandles(c, q, c.codec.write(s.flight.m)))
  {
    hide ValidConfig, Quiet, Write, Shares, Numbered, Logged, Config.Remaining;
    SpeaksEncodes(c, s.flight.m);
    var id := s.flight.m.id;
    KnownHasStart(c, s);
    SendUpOk(c, q, StartIndex(if id !in s.partials || id in s.reset then 0 else c.starts[id]));
  }

  lemma DoneInv(c: Config, s: State, q: State)
    requires ValidConfig(c) && Turn(c, s) && Plan(c, s) && s.flight.Down? && Taken(s, q)
    requires s.flight.m.Done? && Speaks(c, s.flight.m)
    ensures Inv(c, ReceiverHandles(c, q, c.codec.write(s.flight.m)))
  {
    hide ValidConfig, Quiet, Write, Shares, Numbered, Logged;
    SpeaksEncodes(c, s.flight.m);
  }

  /** What the sender keeps after the exchange is what the receiving host expects. */
  lemma CompletedLeaves(c: Config)
    ensures c.manifest - c.manifest * c.existing == c.Remaining()
  {
  }

  lemma CompletedIs(c: Config, s: State, q: State)
    requires Plan(c, s) && s.flight.Up? && s.sp.WaitCompleted? && q == s.(link := q.link, flight := Nothing)
    requires s.flight.m == Completed(c.manifest * c.existing) && Encodes(c, s.flight.m)
    ensures SenderHandles(c, q, c.codec.write(s.flight.m)) ==
            if c.Remaining() == {} then SendDown(c, q.(files := {}, sp := Finished(1)), Done(1))
            else q.(files := c.Remaining(), sp := Scheduling)
    ensures q.active == {} && q.next == 0 && q.started == [] && q.ended == {}
  {
    hide Write, Config.Remaining;
    CompletedLeaves(c);
  }

  lemma FreshPlan(c: Config, r: State)
    requires r.files == c.Remaining() && r.active == {} && r.next == 0 && r.started == [] && r.ended == {}
    requires if r.files == {} then r.sp == Finished(1) else r.sp.Scheduling?
    ensures Plan(c, r)
  {
    hide Plan, Shares, Numbered, Logged, Config.Remaining;
    FreshShare(c.Remaining());
    PlanOf(c, r, {});
  }

  lemma CompletedInv(c: Config, s: State, q: State)
    requires ValidConfig(c) && Turn(c, s) && Plan(c, s) && s.flight.Up? && Taken(s, q) && Speaks(c, s.flight.m)
    requires s.sp.WaitCompleted? && s.flight.m.Completed?
    ensures Inv(c, SenderHandles(c, q, c.codec.write(s.flight.m)))
  {
    hide ValidConfig, Quiet, Write, Plan, SenderHandles, Config.Remaining;
    SpeaksEncodes(c, s.flight.m);
    CompletedIs(c, s, q);
    var r := SenderHandles(c, q, c.codec.write(s.flight.m));
    FreshPlan(c, r);
    if c.Remaining() == {} {
      SendDownOk(c, q.(files := {}, sp := Finished(1)), Done(1));
    }
  }

  lemma RefusedInv(c: Config, s: State, q: State)
    requires ValidConfig(c) && Turn(c, s) && Plan(c, s) && s.flight.Up? && Taken(s, q) && Speaks(c, s.flight.m)
    requires s.sp.WaitCompleted? && s.flight.m.Refused?
    ensures Inv(c, SenderHandles(c, q, c.codec.write(s.flight.m)))
  {
    hide ValidConfig, Quiet, Write;
    SpeaksEncodes(c, s.flight.m);
  }

  lemma IndexInv(c: Config, s: State, q: State)
    requires Turn(c, s) && Plan(c, s) && s.flight.Up? && Taken(s, q) && s.sp.WaitIndex?
    ensures Inv(c, SenderHandles(c, q, c.codec.write(s.flight.m)))
  {
    hide Quiet, Plan, Config.Remaining;
    IndexPlan(c, s, SenderHandles(c, q, c.codec.write(s.flight.m)));
  }

  lemma IndexPlan(c: Config, s: State, r: State)
    requires Plan(c, s) && s.sp.WaitIndex? && r.sp.Scheduling?
    requires r.files == s.files && r.started == s.started && r.ended == s.ended
    requires if s.sp.retry then r.active == s.active && r.next == s.next
             else r.active == s.active + {s.sp.id} && r.next == s.next + 1
    ensures Plan(c, r)
  {
    hide Shares, Numbered, Logged, Config.Remaining;
    if s.sp.retry {
      assert Pending(s) == Pending(r);
    } else {
      PendingIsNext(c, s);
      IndexedPlan(c, s, r);
    }
  }

  lemma IndexedPlan(c: Config, s: State, r: State)
    requires Plan(c, s) && s.sp == WaitIndex(s.next, false) && r.sp.Scheduling?
    requires r.files == s.files && r.started == s.started && r.ended == s.ended
    requires r.active == s.active + {s.next} && r.next == s.next + 1
    ensures Plan(c, r)
  {
    hide Plan, Pending, Shares, Numbered, Logged, InPhase, Greeted, Config.Remaining;
    assert Greeted(s) && Greeted(r) by { GreetedBy(s); GreetedBy(r); }
    PlanParts(c, s, {s.next});
    ActivateShare(c.Remaining(), s.files, s.active, s.ended, s.next, s.started);
    SchedulingPhase(c, r.files, r.active, s.next);
    PlanOf(c, r, {});
  }

  lemma GreetedBy(s: State)
    requires s.sp.WaitIndex? || s.sp.Scheduling?
    ensures Greeted(s)
  {
  }

  lemma IndexPhase(c: Config, sp: SenderPhase, files: set<nat>, active: set<nat>)
    requires sp.WaitIndex? && !sp.retry
    ensures InPhase(c, sp, files, active)
  {
  }

  lemma SchedulingPhase(c: Config, files: set<nat>, active: set<nat>, id: nat)
    requires id in active
    ensures InPhase(c, Scheduling, files, active)
  {
  }

  lemma PlanParts(c: Config, s: State, pending: set<nat>)
    requires Plan(c, s) && Greeted(s)
    requires pending == if s.sp.WaitIndex? && !s.sp.retry then {s.sp.id} else {}
    ensures Shares(c.Remaining(), s.files, s.active, pending, s.ended)
    ensures Numbered(s.next, s.files, s.active, pending, s.ended)
    ensures Logged(s.started, s.active, pending, s.ended)
    ensures |s.active| + |pending| <= c.max && InPhase(c, s.sp, s.files, s.active)
  {
    hide Shares, Numbered, Logged, InPhase, Config.Remaining;
  }

  lemma PlanOf(c: Config, s: State, pending: set<nat>)
    requires Greeted(s) && pending == if s.sp.WaitIndex? && !s.sp.retry then {s.sp.id} else {}
    requires Shares(c.Remaining(), s.files, s.active, pending, s.ended)
    requires Numbered(s.next, s.files, s.active, pending, s.ended)
    requires Logged(s.started, s.active, pending, s.ended)
    requires |s.active| + |pending| <= c.max && InPhase(c, s.sp, s.files, s.active)
    ensures Plan(c, s)
  {
    hide Shares, Numbered, Logged, InPhase, Config.Remaining;
  }

  lemma PendingIsNext(c: Config, s: State)
    requires Plan(c, s) && s.sp.WaitIndex? && !s.sp.retry
    ensures s.sp.id == s.next
  {
    hide Shares, Logged;
    assert s.sp.id in Pending(s);
  }

  lemma DownBodyInv(c: Config, s: State)
    requires ValidConfig(c) && Inv(c, s) && Enabled(c, s, DownBody)
    ensures Inv(c, Apply(c, s, DownBody))
  {
    hide Turn, Plan, ValidConfig, ReceiverHandles, Quiet, Speaks;
    DownBodyIs(c, s);
    DownIsOneOf(c, s);
    var q := s.(link := s.link.(b := ReadBody(s.link.b)), flight := Nothing);
    match s.flight.m
    case Manifest(_) => ManifestInv(c, s, q);
    case Start(_) => StartInv(c, s, q);
    case Done(_) => DoneInv(c, s, q);
  }

  lemma DownIsOneOf(c: Config, s: State)
    requires Turn(c, s) && s.flight.Down?
    ensures s.flight.m.Manifest? || s.flight.m.Start? || s.flight.m.Done?
  {
  }

  lemma UpBodyInv(c: Config, s: State)
    requires ValidConfig(c) && Inv(c, s) && Enabled(c, s, UpBody)
    ensures Inv(c, Apply(c, s, UpBody))
  {
    hide Plan, ValidConfig, SenderHandles, Quiet;
    UpBodyIs(c, s);
    var q := s.(link := s.link.(a := ReadBody(s.link.a)), flight := Nothing);
    if s.sp.WaitCompleted? {
      if s.flight.m.Completed? {
        CompletedInv(c, s, q);
      } else {
        RefusedInv(c, s, q);
      }
    } else {
      IndexInv(c, s, q);
    }
  }

  lemma WriterStepInv(c: Config, s: State, r: State)
    requires Inv(c, s) && r == s.(writers := r.writers, reports := r.reports, partials := r.partials)
    ensures Inv(c, r)
  {
  }

  lemma StepInv(c: Config, s: State, e: Step)
    requires ValidConfig(c) && Inv(c, s) && Enabled(c, s, e)
    ensures Inv(c, Apply(c, s, e))
  {
    hide Inv, ValidConfig, Greet, Schedule, TakeReport, ReceiverHandles, SenderHandles;
    match e
    case SayHello => SayHelloInv(c, s);
    case ScheduleNext => ScheduleInv(c, s);
    case HandleReport => HandleReportInv(c, s);
    case DownArrives(n) => DownArrivesInv(c, s, n);
    case DownLength => DownLengthInv(c, s);
    case DownBody => DownBodyInv(c, s);
    case UpArrives(n) => UpArrivesInv(c, s, n);
    case UpLength => UpLengthInv(c, s);
    case UpBody => UpBodyInv(c, s);
    case EndWriter(id) => WriterStepInv(c, s, Apply(c, s, e));
    case FailWriter(id) => WriterStepInv(c, s, Apply(c, s, e));
    case MismatchWriter(id) => WriterStepInv(c, s, Apply(c, s, e));
    case AbandonWriter(id) => WriterStepInv(c, s, Apply(c, s, e));
  }

  lemma {:induction false} RunInv(c: Config, s: State, steps: seq<Step>)
    requires ValidConfig(c) && Inv(c, s) && CanRun(c, s, steps)
    ensures Inv(c, After(c, s, steps))
    decreases |steps|
  {
    hide Inv, ValidConfig, Enabled, Apply;
    if |steps| > 0 {
      StepInv(c, s, steps[0]);
      RunInv(c, Apply(c, s, steps[0]), steps[1..]);
    }
  }
}
