/** The control session of a transfer: the handshake and the Start/StartIndex exchange on the
    sender-to-receiver stream, byte by byte, and the reports of the writers on the other stream. */
module Session {
  import opened Bytes
  import opened Channels
  import opened ControlStream
  import Resume

  datatype Message =
    | Manifest(ids: set<nat>)
    | Completed(ids: set<nat>)
    | Refused
    | Start(id: nat)
    | StartIndex(index: nat)
    | Done(reason: nat)

  /** The message encoding. A start index travels as a type of its own, the rest as one of alternatives. */
  datatype Codec = Codec(write: Message -> seq<Byte>, read: seq<Byte> -> Message, readIndex: seq<Byte> -> nat)

  /** `manifest` are the ids of the files to send, `existing` those whose destination exists and is not to
      be overwritten, `max` the limit of concurrent transfers. `sources` are the contents of the files,
      `signatures` those that came with the manifest, `partials` the partial files the receiving host found,
      and `starts` the start indexes it computed from them. */
  datatype Config = Config(manifest: set<nat>, hasDirectories: bool, existing: set<nat>, enoughSpace: bool,
                           max: nat, sources: map<nat, seq<Byte>>, signatures: map<nat, seq<Byte>>,
                           partials: map<nat, seq<Byte>>, starts: map<nat, nat>, hash: seq<Byte> -> seq<Byte>,
                           codec: Codec, ks: Keystream) {
    function Remaining(): set<nat> { manifest - existing }
  }

  /** What a writer found when it opened its partial file: the index it was told and the content. */
  datatype Opening = Opening(index: nat, base: seq<Byte>)

  /** What the partial file holds once its writer has written everything: it appends behind the base. */
  function FinalContent(c: Config, id: nat, o: Opening): seq<Byte> {
    if id in c.sources && o.index <= |c.sources[id]| then o.base + c.sources[id][o.index..] else o.base
  }

  /** The file does not have the signature of its manifest entry. */
  predicate Wrong(c: Config, id: nat, o: Opening) {
    id in c.signatures && c.hash(FinalContent(c, id, o)) != c.signatures[id]
  }

  /** Where a file starts: at the last chunk boundary of its partial file, if there is one. */
  function IndexOf(id: nat, partials: map<nat, seq<Byte>>): nat {
    if id in partials then Resume.StartIndex(|partials[id]|) else 0
  }

  predicate StartsFound(c: Config) {
    forall id | id in c.manifest ::
      id in c.sources && id in c.starts && c.starts[id] == IndexOf(id, c.partials) && c.starts[id] <= |c.sources[id]|
  }

  /** The messages this session can come to send. */
  predicate Speaks(c: Config, m: Message) {
    match m
    case Manifest(ids) => ids == c.manifest
    case Completed(ids) => ids == c.manifest * c.existing
    case Refused => true
    case Start(id) => id in c.manifest
    case StartIndex(index) => index == 0 || index in c.starts.Values
    case Done(reason) => reason <= 2
  }

  ghost predicate Encodes(c: Config, m: Message) {
    && |c.codec.write(m)| < U32_LIMIT
    && (if m.StartIndex? then c.codec.readIndex(c.codec.write(m)) == m.index else c.codec.read(c.codec.write(m)) == m)
  }

  ghost predicate ValidConfig(c: Config) {
    && c.max >= 1
    && c.manifest <= c.starts.Keys && StartsFound(c)
    && forall m | Speaks(c, m) :: Encodes(c, m)
  }

  // ---- state ----

  datatype SenderPhase =
    | Greeting | WaitCompleted | Scheduling | WaitIndex(id: nat, retry: bool) | WaitReport
    | Finished(reason: nat) | SenderError

  datatype ReceiverPhase = WaitManifest | WaitStart | Closed(reason: nat) | ReceiverError

  /** A writer task: at work, or past a wrong signature with its second report still to come. */
  datatype Task = Work(id: nat) | Failing(id: nat)

  /** The message that is on its way, as a record beside the bytes. */
  datatype Flight = Nothing | Down(m: Message) | Up(m: Message)

  /** `files`, `active` and `next` belong to the sender's controller, `known` and `writers` to the receiving
      host, `reset` are the files it has gone back to index zero for, and `partials` its partial files, as of
      the last time they were opened, finished or removed; `reports` are the writers' reports in order.
      `openings` (of the last writer of a file), `reading` (the index its last reader was given), `started` and
      `ended` are history. */
  datatype State = State(link: Link, flight: Flight, sp: SenderPhase, files: set<nat>, active: set<nat>, next: nat,
                         rp: ReceiverPhase, known: set<nat>, writers: multiset<Task>, reports: seq<Report>,
                         reset: set<nat>, partials: map<nat, seq<Byte>>, openings: map<nat, Opening>,
                         reading: map<nat, nat>, started: seq<nat>, ended: set<nat>)

  function Init(c: Config): State {
    State(OPENED, Nothing, Greeting, c.manifest, {}, 0, WaitManifest, {}, multiset{}, [], {}, c.partials, map[], map[],
          [], {})
  }

  function SendDown(c: Config, s: State, m: Message): State {
    s.(link := Write(s.link, c.codec.write(m), c.ks), flight := Down(m))
  }

  function SendUp(c: Config, s: State, m: Message): State {
    s.(link := Write(s.link.Flip(), c.codec.write(m), c.ks).Flip(), flight := Up(m))
  }

  // ---- the sender's controller ----

  function Greet(c: Config, s: State): State {
    if c.manifest == {} && !c.hasDirectories then SendDown(c, s.(sp := Finished(0)), Done(0))
    else SendDown(c, s.(sp := WaitCompleted), Manifest(c.manifest))
  }

  /** One round of the loop that starts files while there is room. */
  function Schedule(c: Config, s: State): State {
    if |s.active| < c.max && s.files != {} then
      if s.next in s.files then
        SendDown(c, s.(files := s.files - {s.next}, started := s.started + [s.next], sp := WaitIndex(s.next, false)),
                 Start(s.next))
      else s.(next := s.next + 1)
    else s.(sp := WaitReport)
  }

  /** The end of a round of the main loop. */
  function EndOfRound(c: Config, s: State): State {
    if s.files == {} && s.active == {} then SendDown(c, s.(sp := Finished(2)), Done(2))
    else s.(sp := Scheduling)
  }

  function Remove(s: State, id: nat): State {
    if id in s.active then s.(active := s.active - {id}, ended := s.ended + {id}) else s
  }

  function TakeReport(c: Config, s: State): State
    requires |s.reports| > 0
  {
    var rest := s.(reports := s.reports[1..]);
    match s.reports[0]
    case End(id) => EndOfRound(c, Remove(rest, id))
    case Failure(id, reason) =>
      if reason == 0 && id in s.active then SendDown(c, rest.(sp := WaitIndex(id, true)), Start(id))
      else if reason == 2 then EndOfRound(c, Remove(rest, id))
      else EndOfRound(c, rest)
  }

  /** What the sender does with a message of the receiving host, given the bytes of its body. */
  function SenderHandles(c: Config, s: State, body: seq<Byte>): State {
    match s.sp
    case WaitCompleted =>
      (match c.codec.read(body)
       case Completed(ids) =>
         var left := s.files - ids;
         if left == {} then SendDown(c, s.(files := left, sp := Finished(1)), Done(1))
         else s.(files := left, sp := Scheduling)
       case _ => s.(sp := SenderError))
    case WaitIndex(id, retry) =>
      var reading := s.reading[id := c.codec.readIndex(body)];
      if retry then s.(reading := reading, sp := Scheduling)
      else s.(reading := reading, active := s.active + {id}, next := s.next + 1, sp := Scheduling)
    case _ => s
  }

  // ---- the receiving host ----

  /** A file is started: without a partial file it goes back to index zero for good; its writer opens the
      partial file, or creates it. */
  function StartWriter(c: Config, s: State, id: nat): State
    requires id in c.starts
  {
    var reset := if id in s.partials then s.reset else s.reset + {id};
    var index := if id in reset then 0 else c.starts[id];
    var base := if id in s.partials then s.partials[id] else [];
    SendUp(c, s.(reset := reset, partials := s.partials[id := base], openings := s.openings[id := Opening(index, base)],
                 writers := s.writers + multiset{Work(id)}),
           StartIndex(index))
  }

  /** What the receiving host does with a message. */
  function ReceiverHandles(c: Config, s: State, body: seq<Byte>): State {
    match s.rp
    case WaitManifest =>
      (match c.codec.read(body)
       case Manifest(ids) =>
         if !c.enoughSpace then SendUp(c, s.(rp := ReceiverError), Refused)
         else SendUp(c, s.(known := ids - c.existing, rp := WaitStart), Completed(ids * c.existing))
       case Done(reason) => if reason == 0 then s.(rp := Closed(0)) else s.(rp := ReceiverError)
       case _ => s.(rp := ReceiverError))
    case WaitStart =>
      (match c.codec.read(body)
       case Start(id) =>
         if id in s.known && id in c.starts then StartWriter(c, s, id) else s
       case Done(reason) => if reason == 1 || reason == 2 then s.(rp := Closed(reason)) else s.(rp := ReceiverError)
       case _ => s.(rp := ReceiverError))
    case _ => s
  }

  // ---- steps ----

  datatype Step =
    | SayHello | ScheduleNext | HandleReport
    | DownArrives(n: nat) | DownLength | DownBody
    | UpArrives(n: nat) | UpLength | UpBody
    | EndWriter(id: nat) | FailWriter(id: nat) | MismatchWriter(id: nat) | AbandonWriter(id: nat)

  /** The sender is waiting for a message on the stream. */
  predicate SenderReads(s: State) {
    s.sp.WaitCompleted? || s.sp.WaitIndex?
  }

  predicate ReceiverReads(s: State) {
    s.rp.WaitManifest? || s.rp.WaitStart?
  }

  /** The partial file of a writer that is done is still there to be checked and renamed. */
  predicate Complete(s: State, id: nat) {
    id in s.openings && id in s.partials
  }

  predicate Enabled(c: Config, s: State, e: Step) {
    match e
    case SayHello => s.sp.Greeting?
    case ScheduleNext => s.sp.Scheduling?
    case HandleReport => s.sp.WaitReport? && |s.reports| > 0
    case DownArrives(n) => n <= |s.link.ab|
    case DownLength => ReceiverReads(s) && LengthReady(s.link.b)
    case DownBody => ReceiverReads(s) && BodyReady(s.link.b)
    case UpArrives(n) => n <= |s.link.ba|
    case UpLength => SenderReads(s) && LengthReady(s.link.a)
    case UpBody => SenderReads(s) && BodyReady(s.link.a)
    case EndWriter(id) => Work(id) in s.writers && Complete(s, id) && !Wrong(c, id, s.openings[id])
    case FailWriter(id) => Work(id) in s.writers
    case MismatchWriter(id) => Work(id) in s.writers && Complete(s, id) && Wrong(c, id, s.openings[id])
    case AbandonWriter(id) => Failing(id) in s.writers
  }

  function Apply(c: Config, s: State, e: Step): State
    requires Enabled(c, s, e)
  {
    match e
    case SayHello => Greet(c, s)
    case ScheduleNext => Schedule(c, s)
    case HandleReport => TakeReport(c, s)
    case DownArrives(n) => s.(link := Arrive(s.link, n))
    case DownLength => s.(link := s.link.(b := ReadLength(s.link.b, c.ks)))
    case DownBody =>
      ReceiverHandles(c, s.(link := s.link.(b := ReadBody(s.link.b)), flight := Nothing), BodyOf(s.link.b, c.ks))
    case UpArrives(n) => s.(link := Arrive(s.link.Flip(), n).Flip())
    case UpLength => s.(link := s.link.(a := ReadLength(s.link.a, c.ks)))
    case UpBody =>
      SenderHandles(c, s.(link := s.link.(a := ReadBody(s.link.a)), flight := Nothing), BodyOf(s.link.a, c.ks))
    case EndWriter(id) =>
      s.(writers := s.writers - multiset{Work(id)}, reports := s.reports + [End(id)], partials := s.partials - {id})
    case FailWriter(id) => s.(writers := s.writers - multiset{Work(id)}, reports := s.reports + [Failure(id, 2)])
    case MismatchWriter(id) =>
      s.(writers := s.writers - multiset{Work(id)} + multiset{Failing(id)}, reports := s.reports + [Failure(id, 0)],
         partials := s.partials[id := FinalContent(c, id, s.openings[id])])
    case AbandonWriter(id) =>
      s.(writers := s.writers - multiset{Failing(id)}, reports := s.reports + [Failure(id, 2)],
         partials := s.partials - {id})
  }

  // ---- what steps leave alone ----

  /** Bytes of the message that is on its way move. */
  predicate MovesBytes(e: Step) {
    e.DownArrives? || e.DownLength? || e.UpArrives? || e.UpLength?
  }

  predicate EndsTask(e: Step) {
    e.EndWriter? || e.FailWriter? || e.MismatchWriter? || e.AbandonWriter?
  }

  lemma BytesShape(c: Config, s: State, e: Step)
    requires Enabled(c, s, e) && MovesBytes(e)
    ensures Apply(c, s, e) == s.(link := Apply(c, s, e).link)
  {
    hide Arrive, ReadLength;
  }

  lemma TaskShape(c: Config, s: State, e: Step)
    requires Enabled(c, s, e) && EndsTask(e)
    ensures var r := Apply(c, s, e); r == s.(writers := r.writers, reports := r.reports, partials := r.partials)
  {
    hide Wrong, FinalContent;
  }

  lemma GreetShape(c: Config, s: State)
    ensures var r := Greet(c, s);
            r == s.(link := r.link, flight := r.flight, sp := r.sp) && r.flight.Down? && !r.sp.WaitIndex?
  {
    hide Write;
  }

  lemma ScheduleShape(c: Config, s: State)
    ensures var r := Schedule(c, s);
            && r == s.(link := r.link, flight := r.flight, sp := r.sp, files := r.files, next := r.next,
                       started := r.started)
            && (r.flight.Down? || r.flight == s.flight)
  {
    hide Write;
  }

  lemma SendShape(c: Config, s: State, m: Message)
    ensures SendUp(c, s, m) == s.(link := SendUp(c, s, m).link, flight := Up(m))
  {
    hide Write;
  }

  lemma StartShape(c: Config, s: State, id: nat)
    requires id in c.starts
    ensures var r := StartWriter(c, s, id);
            r == s.(link := r.link, flight := r.flight, writers := r.writers, reset := r.reset, partials := r.partials,
                    openings := r.openings) && r.flight.Up?
  {
    hide Write;
  }

  /** A manifest or Done opens nothing. */
  lemma ReplyShape(c: Config, s: State, m: Message)
    requires Encodes(c, m) && (m.Manifest? || m.Done?)
    ensures var r := ReceiverHandles(c, s, c.codec.write(m));
            r == s.(link := r.link, flight := r.flight, rp := r.rp, known := r.known)
  {
    hide SendUp, StartWriter;
    SendShape(c, s.(rp := ReceiverError), Refused);
    if m.Manifest? {
      SendShape(c, s.(known := m.ids - c.existing, rp := WaitStart), Completed(m.ids * c.existing));
    }
  }

  /** What comes back changes the sender's controller only. */
  lemma SenderShape(c: Config, s: State, body: seq<Byte>)
    ensures var r := SenderHandles(c, s, body);
            && r == s.(link := r.link, flight := r.flight, sp := r.sp, files := r.files, active := r.active,
                       next := r.next, reading := r.reading)
            && (r.flight.Down? || r.flight == s.flight) && r.files <= s.files
            && (SenderReads(s) ==> !r.sp.WaitIndex?)
            && (if s.sp.WaitIndex? then
                  && r.reading == s.reading[s.sp.id := c.codec.readIndex(body)] && r.files == s.files
                  && r.active == (if s.sp.retry then s.active else s.active + {s.sp.id})
                else r.reading == s.reading && r.active == s.active)
  {
    hide SendDown;
    if s.sp.WaitCompleted? {
      CompletedShape(c, s, body);
    }
  }

  lemma CompletedShape(c: Config, s: State, body: seq<Byte>)
    requires s.sp.WaitCompleted?
    ensures var r := SenderHandles(c, s, body);
            && r == s.(link := r.link, flight := r.flight, sp := r.sp, files := r.files)
            && (r.flight.Down? || r.flight == s.flight) && r.files <= s.files && !r.sp.WaitIndex?
  {
    hide Write;
  }

  predicate CanRun(c: Config, s: State, steps: seq<Step>)
    decreases |steps|
  {
    |steps| == 0 || (Enabled(c, s, steps[0]) && CanRun(c, Apply(c, s, steps[0]), steps[1..]))
  }

  function After(c: Config, s: State, steps: seq<Step>): State
    requires CanRun(c, s, steps)
    decreases |steps|
  {
    if |steps| == 0 then s else After(c, Apply(c, s, steps[0]), steps[1..])
  }

  lemma {:induction false} RunAppend(c: Config, s: State, a: seq<Step>, b: seq<Step>)
    requires CanRun(c, s, a) && CanRun(c, After(c, s, a), b)
    ensures CanRun(c, s, a + b) && After(c, s, a + b) == After(c, After(c, s, a), b)
    decreases |a|
  {
    hide Enabled, Apply;
    if |a| == 0 {
      assert a + b == b;
    } else {
      assert (a + b)[1..] == a[1..] + b;
      RunAppend(c, Apply(c, s, a[0]), a[1..], b);
    }
  }
}
