/** The receiving host's part of the control session as the loops it is: sorting the manifest, and
    answering the messages that follow. */
module ReceiverControl {
  import opened Bytes
  import opened ControlStream
  import opened Session
  import opened SessionSafety
  import opened SessionTheorems
  import Resume

  // ---- the manifest ----

  predicate NoRepeats(ids: seq<nat>) {
    forall i, j | 0 <= i < j < |ids| :: ids[i] != ids[j]
  }

  /** The start index of every id of `ids` that is not there yet. */
  function StartIndexes(ids: set<nat>, existing: set<nat>, partials: map<nat, seq<Byte>>): map<nat, nat> {
    map id | id in ids - existing :: IndexOf(id, partials)
  }

  /** Walks through the manifest in any order: files that exist are completed, the others get a start
      index from their partial file, if there is one. */
  method SortManifest(manifest: seq<nat>, existing: set<nat>, partials: map<nat, seq<Byte>>)
    returns (completed: seq<nat>, files: map<nat, nat>)
    requires NoRepeats(manifest)
    ensures IdSet(completed) == IdSet(manifest) * existing && NoRepeats(completed)
    ensures files == StartIndexes(IdSet(manifest), existing, partials)
    ensures files.Keys == IdSet(manifest) - existing
    ensures forall id | id in files :: LastChunkStart(files[id], if id in partials then |partials[id]| else 0)
  {
    hide StartIndexes, IdSet, NoRepeats;
    completed, files := [], map[];
    NothingSorted(existing, partials);
    assert manifest[..0] == [];
    for i := 0 to |manifest|
      invariant IdSet(completed) == IdSet(manifest[..i]) * existing && NoRepeats(completed)
      invariant files == StartIndexes(IdSet(manifest[..i]), existing, partials)
    {
      var id := manifest[i];
      TakeOneMore(manifest, i);
      SortOneMore(IdSet(manifest[..i]), id, existing, partials);
      if id in existing {
        AppendNew(completed, id);
        completed := completed + [id];
      } else {
        files := files[id := IndexOf(id, partials)];
      }
    }
    assert manifest[..|manifest|] == manifest;
    StartsAtBoundaries(IdSet(manifest), existing, partials);
  }

  /** `index` is the last multiple of the chunk size that is not beyond `length`. */
  predicate LastChunkStart(index: nat, length: nat) {
    index % 1024 == 0 && index <= length < index + 1024
  }

  lemma StartsAtBoundaries(ids: set<nat>, existing: set<nat>, partials: map<nat, seq<Byte>>)
    ensures var files := StartIndexes(ids, existing, partials);
            && files.Keys == ids - existing
            && forall id | id in files :: LastChunkStart(files[id], if id in partials then |partials[id]| else 0)
  {
    hide Resume.StartIndex;
    forall id | id in ids - existing && id in partials
      ensures LastChunkStart(Resume.StartIndex(|partials[id]|), |partials[id]|)
    {
      Resume.LastBoundary(|partials[id]|);
    }
  }

  lemma NothingSorted(existing: set<nat>, partials: map<nat, seq<Byte>>)
    ensures IdSet([]) == {} && NoRepeats([]) && StartIndexes({}, existing, partials) == map[]
  {
  }

  lemma SortOneMore(ids: set<nat>, id: nat, existing: set<nat>, partials: map<nat, seq<Byte>>)
    ensures (ids + {id}) * existing == ids * existing + (if id in existing then {id} else {})
    ensures StartIndexes(ids + {id}, existing, partials)
         == (if id in existing then StartIndexes(ids, existing, partials)
             else StartIndexes(ids, existing, partials)[id := IndexOf(id, partials)])
  {
  }

  lemma TakeOneMore(ids: seq<nat>, i: nat)
    requires NoRepeats(ids) && i < |ids|
    ensures IdSet(ids[..i + 1]) == IdSet(ids[..i]) + {ids[i]} && ids[i] !in IdSet(ids[..i])
  {
    assert ids[..i + 1] == ids[..i] + [ids[i]];
  }

  lemma AppendNew(ids: seq<nat>, id: nat)
    ensures IdSet(ids + [id]) == IdSet(ids) + {id}
    ensures NoRepeats(ids) && id !in IdSet(ids) ==> NoRepeats(ids + [id])
  {
    if NoRepeats(ids) && id !in IdSet(ids) {
      assert forall i | 0 <= i < |ids| :: ids[i] in IdSet(ids);
    }
  }

  /** The sender strikes the completed ids from its files. */
  method Strike<D>(manifest: map<nat, D>, completed: seq<nat>) returns (files: map<nat, D>)
    ensures files == manifest - IdSet(completed)
  {
    files := manifest;
    for i := 0 to |completed|
      invariant files == manifest - IdSet(completed[..i])
    {
      assert completed[..i + 1] == completed[..i] + [completed[i]];
      AppendNew(completed[..i], completed[i]);
      files := files - {completed[i]};
    }
    assert completed[..|completed|] == completed;
  }

  /** Whatever the order of the manifest, both hosts are left with the same files. */
  lemma SameFilesLeft<D>(manifest: map<nat, D>, existing: set<nat>, partials: map<nat, seq<Byte>>, completed: seq<nat>)
    requires IdSet(completed) == manifest.Keys * existing
    ensures (manifest - IdSet(completed)).Keys == StartIndexes(manifest.Keys, existing, partials).Keys
  {
  }

  // ---- the messages that follow ----

  datatype Reply = Answer(m: Message) | Ignored | Close(reason: nat) | Unexpected

  /** The start indexes afterwards, the reply, and the writers started. */
  datatype Outcome = Outcome(files: map<nat, nat>, reply: Reply, writers: multiset<Task>)

  function Handled(files: map<nat, nat>, writers: multiset<Task>, m: Message, gone: bool): Outcome {
    match m
    case Start(id) =>
      if id in files then
        var index := if files[id] > 0 && gone then 0 else files[id];
        Outcome(files[id := index], Answer(StartIndex(index)), writers + multiset{Work(id)})
      else Outcome(files, Ignored, writers)
    case Done(reason) => Outcome(files, if reason == 1 || reason == 2 then Close(reason) else Unexpected, writers)
    case _ => Outcome(files, Unexpected, writers)
  }

  class Controller {
    var files: map<nat, nat>
    var writers: multiset<Task>

    constructor (files: map<nat, nat>)
      ensures this.files == files && writers == multiset{}
    {
      this.files, writers := files, multiset{};
    }

    /** `gone` says whether the partial file of the id is missing. */
    method Handle(m: Message, gone: bool) returns (reply: Reply)
      modifies this
      ensures Outcome(files, reply, writers) == Handled(old(files), old(writers), m, gone)
      ensures m.Start? && m.id in old(files) ==>
                var index := if gone then 0 else old(files)[m.id];
                && reply == Answer(StartIndex(index)) && files == old(files)[m.id := index]
                && writers == old(writers) + multiset{Work(m.id)}
      ensures !(m.Start? && m.id in old(files)) ==> files == old(files) && writers == old(writers)
      ensures reply.Ignored? <==> m.Start? && m.id !in old(files)
      ensures forall reason :: reply == Close(reason) <==> m == Done(reason) && (reason == 1 || reason == 2)
      ensures reply.Unexpected? <==> !m.Start? && m != Done(1) && m != Done(2)
    {
      match m {
        case Start(id) =>
          if id !in files {
            return Ignored;
          }
          if files[id] > 0 && gone {
            files := files[id := 0];
          }
          reply := Answer(StartIndex(files[id]));
          writers := writers + multiset{Work(id)};
          assert files == old(files)[id := files[id]];
        case Done(reason) =>
          reply := if reason == 1 || reason == 2 then Close(reason) else Unexpected;
        case _ =>
          reply := Unexpected;
      }
    }
  }

  /** `files` are the start indexes of the receiving host in state `s`. */
  ghost predicate Holds(c: Config, s: State, files: map<nat, nat>) {
    && files.Keys == s.known
    && forall id | id in files :: id in c.starts && files[id] == if id in s.reset then 0 else c.starts[id]
  }

  /** The message says that the file it starts has no partial file (any more). */
  predicate Gone(s: State, m: Message) {
    m.Start? && m.id !in s.partials
  }

  /** What the session's step does with a message is what the controller does. */
  lemma HandledIsStep(c: Config, s: State, files: map<nat, nat>, m: Message)
    requires s.rp.WaitStart? && Holds(c, s, files) && !m.StartIndex? && Encodes(c, m)
    ensures var r, o := ReceiverHandles(c, s, c.codec.write(m)), Handled(files, s.writers, m, Gone(s, m));
            && Holds(c, r, o.files) && r.writers == o.writers
            && (o.reply.Answer? ==> r == SendUp(c, r.(link := s.link, flight := s.flight), o.reply.m) && r.rp == s.rp)
            && (o.reply.Ignored? ==> r == s)
            && (o.reply.Close? <==> r.rp.Closed?) && (r.rp.Closed? ==> r.rp == Closed(o.reply.reason))
            && (o.reply.Unexpected? <==> r.rp.ReceiverError?)
  {
    hide Write, SendUp, StartWriter;
    if m.Start? && m.id in s.known {
      StartedIsStep(c, s, files, m);
    }
  }

  lemma StartedIsStep(c: Config, s: State, files: map<nat, nat>, m: Message)
    requires Holds(c, s, files) && m.Start? && m.id in s.known
    ensures m.id in c.starts
    ensures var r, o := StartWriter(c, s, m.id), Handled(files, s.writers, m, Gone(s, m));
            && Holds(c, r, o.files) && r.writers == o.writers && r.rp == s.rp && o.reply.Answer?
            && r == SendUp(c, r.(link := s.link, flight := s.flight), o.reply.m)
  {
    hide Write;
  }

  /** The sorted manifest holds the start indexes of a session in which nothing was reset yet. */
  lemma SortedHolds(c: Config, s: State)
    requires StartsFound(c) && s.known == c.Remaining() && s.reset == {}
    ensures Holds(c, s, StartIndexes(c.manifest, c.existing, c.partials))
  {
  }

  /** The start indexes of the receiving host, as the session records them. */
  ghost function FilesOf(c: Config, s: State): map<nat, nat> {
    map id | id in s.known && id in c.starts :: if id in s.reset then 0 else c.starts[id]
  }

  lemma FilesHold(c: Config, s: State)
    requires s.known <= c.starts.Keys
    ensures Holds(c, s, FilesOf(c, s))
  {
  }

  lemma KnownStarts(c: Config, s: State)
    requires ValidConfig(c) && Turn(c, s) && s.rp.WaitStart?
    ensures s.known == c.Remaining() && s.known <= c.starts.Keys && StartsFound(c)
  {
  }

  /** In every run, what the receiving host does with a message is what its controller does, started on the
      sorted manifest and kept up to date by its own handling. */
  lemma ControllerInSession(c: Config, steps: seq<Step>)
    requires ValidConfig(c) && CanRun(c, Init(c), steps)
    requires var s := After(c, Init(c), steps); s.rp.WaitStart? && Enabled(c, s, DownBody)
    ensures var s := After(c, Init(c), steps);
            s.flight.Down?
            && (s.reset == {} ==> FilesOf(c, s) == StartIndexes(c.manifest, c.existing, c.partials))
            && var r, o := Apply(c, s, DownBody), Handled(FilesOf(c, s), s.writers, s.flight.m, Gone(s, s.flight.m));
               && FilesOf(c, r) == o.files && r.writers == o.writers
               && (o.reply.Answer? <==> r.flight.Up?) && (o.reply.Answer? ==> r.flight.m == o.reply.m)
               && (o.reply.Close? <==> r.rp.Closed?) && !o.reply.Unexpected? && !o.reply.Ignored?
  {
    hide ValidConfig, Inv, CanRun, After, FilesOf, StartIndexes, Handled, Apply;
    ReachableInv(c, steps);
    ControllerIsStep(c, After(c, Init(c), steps));
  }

  lemma ControllerIsStep(c: Config, s: State)
    requires ValidConfig(c) && Inv(c, s) && s.rp.WaitStart? && Enabled(c, s, DownBody)
    ensures s.flight.Down?
    ensures s.reset == {} ==> FilesOf(c, s) == StartIndexes(c.manifest, c.existing, c.partials)
    ensures var r, o := Apply(c, s, DownBody), Handled(FilesOf(c, s), s.writers, s.flight.m, Gone(s, s.flight.m));
            && FilesOf(c, r) == o.files && r.writers == o.writers
            && (o.reply.Answer? <==> r.flight.Up?) && (o.reply.Answer? ==> r.flight.m == o.reply.m)
            && (o.reply.Close? <==> r.rp.Closed?) && !o.reply.Unexpected? && !o.reply.Ignored?
  {
    hide ValidConfig, Turn, Plan, Speaks, Write, StartsFound, Holds, FilesOf, StartIndexes, Config.Remaining,
         ReceiverHandles, Handled;
    DownBodyIs(c, s);
    DownIsOneOf(c, s);
    SpeaksEncodes(c, s.flight.m);
    KnownStarts(c, s);
    FilesHold(c, s);
    if s.reset == {} {
      SortedHolds(c, s);
      HoldsOnly(c, s, StartIndexes(c.manifest, c.existing, c.partials));
    }
    ExpectedReply(c, s);
    HandlesExpected(c, s, s.(link := s.link.(b := ReadBody(s.link.b)), flight := Nothing));
  }

  lemma HandlesExpected(c: Config, s: State, q: State)
    requires s.rp.WaitStart? && s.flight.Down? && q == s.(link := q.link, flight := Nothing)
    requires Holds(c, s, FilesOf(c, s)) && Encodes(c, s.flight.m)
    requires (s.flight.m.Start? && s.flight.m.id in s.known) || s.flight.m == Done(1) || s.flight.m == Done(2)
    ensures var r, o := ReceiverHandles(c, q, c.codec.write(s.flight.m)),
                        Handled(FilesOf(c, s), s.writers, s.flight.m, Gone(s, s.flight.m));
            && FilesOf(c, r) == o.files && r.writers == o.writers
            && (o.reply.Answer? <==> r.flight.Up?) && (o.reply.Answer? ==> r.flight.m == o.reply.m)
            && (o.reply.Close? <==> r.rp.Closed?) && !o.reply.Unexpected? && !o.reply.Ignored?
  {
    hide Write, FilesOf;
    SameHolds(c, s, q, FilesOf(c, s));
    HandledIsStep(c, q, FilesOf(c, s), s.flight.m);
    HoldsOnly(c, ReceiverHandles(c, q, c.codec.write(s.flight.m)),
              Handled(FilesOf(c, s), s.writers, s.flight.m, Gone(s, s.flight.m)).files);
  }

  lemma HoldsOnly(c: Config, s: State, files: map<nat, nat>)
    requires Holds(c, s, files)
    ensures files == FilesOf(c, s)
  {
    assert files.Keys == FilesOf(c, s).Keys;
  }

  lemma SameHolds(c: Config, s: State, q: State, files: map<nat, nat>)
    requires Holds(c, s, files) && q.known == s.known && q.reset == s.reset
    ensures Holds(c, q, files)
  {
  }

  /** The message that is on its way is a Start of a known file, or Done. */
  lemma ExpectedReply(c: Config, s: State)
    requires Turn(c, s) && s.flight.Down? && s.rp.WaitStart?
    ensures (s.flight.m.Start? && s.flight.m.id in s.known) || s.flight.m == Done(1) || s.flight.m == Done(2)
  {
  }
}
