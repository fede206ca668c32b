/** The sender's controller: which file is started when, and what a report does to the active files. */
module Scheduler {
  import opened Channels
  import opened SessionSafety

  /** The ids still to be started, the active ones, the counter, and the ids started so far. */
  datatype Book = Book(files: set<nat>, active: set<nat>, next: nat, started: seq<nat>)

  /** The counter has passed no file. */
  predicate Ahead(b: Book) {
    forall id | id in b.files :: id >= b.next
  }

  predicate Room(b: Book, max: nat) {
    |b.active| < max && b.files != {}
  }

  function Round(b: Book): Book {
    if b.next in b.files then
      Book(b.files - {b.next}, b.active + {b.next}, b.next + 1, b.started + [b.next])
    else b.(next := b.next + 1)
  }

  ghost predicate IsHighest(high: nat, ids: set<nat>) {
    high in ids && forall id | id in ids :: id <= high
  }

  lemma {:induction false} HighestExists(ids: set<nat>) returns (high: nat)
    requires ids != {}
    ensures IsHighest(high, ids)
  {
    high :| high in ids;
    var others := ids - {high};
    assert forall id | id in ids :: id == high || id in others;
    if others != {} {
      var rest := HighestExists(others);
      high := if rest < high then high else rest;
    }
  }

  lemma SomeHighest(ids: set<nat>)
    requires ids != {}
    ensures exists high :: IsHighest(high, ids)
  {
    hide IsHighest;
    var _ := HighestExists(ids);
  }

  ghost function Highest(ids: set<nat>): (high: nat)
    requires ids != {}
    ensures IsHighest(high, ids)
  {
    SomeHighest(ids);
    var high :| IsHighest(high, ids);
    high
  }

  /** The largest key minus the counter: what every round of the start loop brings down. */
  ghost function Gap(b: Book): nat
    requires Ahead(b)
  {
    if b.files == {} then 0 else Highest(b.files) + 1 - b.next
  }

  lemma RoundCloser(b: Book, max: nat)
    requires Ahead(b) && Room(b, max)
    ensures Ahead(Round(b)) && Gap(Round(b)) < Gap(b)
  {
    var r := Round(b);
    assert Ahead(r);
    if r.files != {} {
      assert Highest(r.files) in b.files;
    }
  }

  /** The books when the start loop ends. */
  ghost function StartAll(b: Book, max: nat): Book
    requires Ahead(b)
    decreases Gap(b)
  {
    if Room(b, max) then
      RoundCloser(b, max);
      StartAll(Round(b), max)
    else b
  }

  /** `b` has become `r` by starting exactly `ids`, which are the lowest of those waiting. */
  ghost predicate Started(b: Book, r: Book, ids: seq<nat>) {
    && r.started == b.started + ids && Ascending(ids)
    && IdSet(ids) == b.files - r.files && r.files <= b.files
    && r.active == b.active + IdSet(ids)
    && (forall i, j | i in IdSet(ids) && j in r.files :: i < j)
    && (forall i | i in IdSet(ids) :: i < r.next)
    && Ahead(r) && r.next >= b.next
  }

  lemma PrependAscending(id: nat, ids: seq<nat>)
    requires Ascending(ids) && forall i | i in IdSet(ids) :: id < i
    ensures Ascending([id] + ids) && IdSet([id] + ids) == {id} + IdSet(ids)
  {
    var all := [id] + ids;
    assert all[0] == id && forall i | 0 < i < |all| :: all[i] == ids[i - 1] && ids[i - 1] in IdSet(ids);
    forall j | j in ids
      ensures j in all
    {
      var i :| 0 <= i < |ids| && ids[i] == j;
      assert all[i + 1] == j;
    }
  }

  lemma OneStarted(b: Book, q: Book, r: Book, ids: seq<nat>)
    requires Ahead(b) && b.next in b.files && q == Round(b) && Started(q, r, ids)
    ensures Started(b, r, [b.next] + ids)
  {
    hide Ascending, IdSet;
    PrependAscending(b.next, ids);
    assert b.started + ([b.next] + ids) == b.started + [b.next] + ids;
  }

  /** The start loop starts the lowest waiting ids, each once and in ascending order whatever gaps there
      are between them, as many as there is room for. */
  lemma {:induction false} StartsTheLowest(b: Book, max: nat) returns (ids: seq<nat>)
    requires Ahead(b) && b.active !! b.files && |b.active| <= max
    ensures Started(b, StartAll(b, max), ids)
    ensures |ids| == if |b.files| <= max - |b.active| then |b.files| else max - |b.active|
    ensures |StartAll(b, max).active| == |b.active| + |ids|
    decreases Gap(b)
  {
    hide Started, Gap;
    if Room(b, max) {
      RoundCloser(b, max);
      var q := Round(b);
      if b.next in b.files {
        assert |q.active| == |b.active| + 1 && |q.files| == |b.files| - 1;
        var rest := StartsTheLowest(q, max);
        OneStarted(b, q, StartAll(q, max), rest);
        ids := [b.next] + rest;
      } else {
        ids := StartsTheLowest(q, max);
        SkippedStarted(b, q, StartAll(q, max), ids);
      }
    } else {
      ids := [];
      NoneStarted(b);
    }
  }

  lemma SkippedStarted(b: Book, q: Book, r: Book, ids: seq<nat>)
    requires b.next !in b.files && q == Round(b) && Started(q, r, ids)
    ensures Started(b, r, ids)
  {
  }

  lemma NoneStarted(b: Book)
    requires Ahead(b)
    ensures Started(b, b, [])
  {
  }

  // ---- reports ----

  function Reported(b: Book, report: Report): Book {
    if report.End? || report.reason == 2 then b.(active := b.active - {report.id}) else b
  }

  predicate Restarts(b: Book, report: Report) {
    report.Failure? && report.reason == 0 && report.id in b.active
  }

  /** The end of a round with nothing left: the controller breaks out of its loop. */
  predicate NothingLeft(b: Book) {
    b.files == {} && b.active == {}
  }

  datatype Outcome = Outcome(book: Book, restarted: seq<nat>, taken: nat, done: bool)

  /** The outcome after `taken` more reports, before it, that restarted the files `restarted`. */
  function Add(restarted: seq<nat>, taken: nat, o: Outcome): Outcome {
    o.(restarted := restarted + o.restarted, taken := taken + o.taken)
  }

  /** The controller's whole loop on the reports it receives. */
  ghost function Served(b: Book, reports: seq<Report>, max: nat): Outcome
    requires Ahead(b)
    decreases |reports|
  {
    StartAllAhead(b, max);
    var q := StartAll(b, max);
    if |reports| == 0 then Outcome(q, [], 0, false)
    else
      var r := Reported(q, reports[0]);
      var again := if Restarts(q, reports[0]) then [reports[0].id] else [];
      if NothingLeft(r) then Outcome(r, again, 1, true)
      else
        Add(again, 1, Served(r, reports[1..], max))
  }

  lemma {:induction false} StartAllAhead(b: Book, max: nat)
    requires Ahead(b)
    ensures Ahead(StartAll(b, max))
    decreases Gap(b)
  {
    if Room(b, max) {
      RoundCloser(b, max);
      StartAllAhead(Round(b), max);
    }
  }

  /** A book in order: nothing is both waiting and active, `max` is kept to, and the started ids lie below
      the counter in ascending order. */
  ghost predicate Proper(b: Book, max: nat) {
    && Ahead(b) && b.active !! b.files && |b.active| <= max
    && Ascending(b.started) && (forall i | i in IdSet(b.started) :: i < b.next)
  }

  lemma StartAllProper(b: Book, max: nat)
    requires Proper(b, max) && max >= 1
    ensures var q := StartAll(b, max);
            && Proper(q, max) && q.files <= b.files && IdSet(q.started) == IdSet(b.started) + (b.files - q.files)
            && (!NothingLeft(b) ==> q.active != {})
  {
    hide Ascending, StartAll;
    var ids := StartsTheLowest(b, max);
    StartedBook(b, StartAll(b, max), ids);
    if b.active == {} && b.files != {} {
      assert |b.files| >= 1;
    }
  }

  lemma ReportedProper(q: Book, report: Report, max: nat)
    requires Proper(q, max)
    ensures var r := Reported(q, report); Proper(r, max) && r.files == q.files && r.started == q.started
  {
    hide Ascending, IdSet;
    assert |q.active - {report.id}| <= |q.active|;
  }

  lemma StartedBook(b: Book, q: Book, ids: seq<nat>)
    requires Started(b, q, ids) && b.active !! b.files && Ahead(b)
    requires Ascending(b.started) && (forall i | i in IdSet(b.started) :: i < b.next)
    ensures Ascending(q.started) && IdSet(q.started) == IdSet(b.started) + (b.files - q.files)
    ensures q.active !! q.files && forall i | i in IdSet(q.started) :: i < q.next
  {
    forall i, j | 0 <= i < j < |q.started|
      ensures q.started[i] < q.started[j]
    {
      if i < |b.started| <= j {
        assert b.started[i] in IdSet(b.started) && ids[j - |b.started|] in IdSet(ids);
      }
    }
    forall id
      ensures id in IdSet(q.started) <==> id in IdSet(b.started) || id in IdSet(ids)
    {
      assert id in b.started + ids <==> id in b.started || id in ids;
    }
  }

  /** Waiting for a report, the controller always has an active file; done, it has started every file once
      and in ascending order, and nothing is active. */
  lemma {:induction false} ServedOrder(b: Book, reports: seq<Report>, max: nat)
    requires Proper(b, max) && max >= 1 && !NothingLeft(b)
    ensures var o := Served(b, reports, max);
            && o.taken <= |reports| && Proper(o.book, max) && o.book.files <= b.files
            && IdSet(o.book.started) == IdSet(b.started) + (b.files - o.book.files)
            && (o.done <==> NothingLeft(o.book))
            && (!o.done ==> o.taken == |reports| && o.book.active != {})
    decreases |reports|
  {
    hide Proper, StartAll, Reported, Restarts, IdSet;
    ProperAhead(b, max);
    StartAllProper(b, max);
    var q := StartAll(b, max);
    if |reports| > 0 {
      ReportedProper(q, reports[0], max);
      var r := Reported(q, reports[0]);
      if !NothingLeft(r) {
        ProperAhead(r, max);
        ServedOrder(r, reports[1..], max);
      }
    }
  }

  lemma ProperAhead(b: Book, max: nat)
    requires Proper(b, max)
    ensures Ahead(b)
  {
  }

  lemma ServedStep(b: Book, reports: seq<Report>, max: nat)
    requires Ahead(b)
    ensures var q := StartAll(b, max);
            && Ahead(q)
            && (|reports| == 0 ==> Served(b, reports, max) == Outcome(q, [], 0, false))
            && (|reports| > 0 ==>
                  var r, again := Reported(q, reports[0]), if Restarts(q, reports[0]) then [reports[0].id] else [];
                  && Ahead(r)
                  && Served(b, reports, max) ==
                     if NothingLeft(r) then Outcome(r, again, 1, true) else Add(again, 1, Served(r, reports[1..], max)))
  {
    StartAllAhead(b, max);
  }

  lemma AddTwice(restarted: seq<nat>, taken: nat, again: seq<nat>, b: Book, reports: seq<Report>, max: nat)
    requires Ahead(b)
    ensures var o := Served(b, reports, max);
            Add(restarted, taken, Add(again, 1, o)) == Add(restarted + again, taken + 1, o)
    ensures Add(restarted, taken, Outcome(b, again, 1, true)) == Outcome(b, restarted + again, taken + 1, true)
    ensures restarted + [] == restarted
  {
    hide Served;
    var o := Served(b, reports, max);
    assert restarted + (again + o.restarted) == (restarted + again) + o.restarted;
  }

  // ---- the controller itself ----

  /** `moved` holds details of `all`, unchanged. */
  ghost predicate Unchanged<D>(moved: map<nat, D>, all: map<nat, D>) {
    forall k | k in moved :: k in all && moved[k] == all[k]
  }

  lemma TakeDetails<D>(files: map<nat, D>, active: map<nat, D>, id: nat, all: map<nat, D>)
    requires Unchanged(files, all) && Unchanged(active, all) && id in files && files.Keys !! active.Keys
    ensures Unchanged(files - {id}, all) && Unchanged(active[id := files[id]], all)
    ensures (files - {id}).Keys == files.Keys - {id} && active[id := files[id]].Keys == active.Keys + {id}
    ensures (files - {id}).Keys !! active[id := files[id]].Keys
  {
  }

  lemma DropDetails<D>(files: map<nat, D>, active: map<nat, D>, id: nat, all: map<nat, D>)
    requires Unchanged(active, all) && files.Keys !! active.Keys
    ensures Unchanged(active - {id}, all) && (active - {id}).Keys == active.Keys - {id}
    ensures files.Keys !! (active - {id}).Keys
  {
  }

  lemma SameSize<D>(m: map<nat, D>)
    ensures |m| == |m.Keys| && (m == map[] <==> m.Keys == {})
  {
    if m.Keys == {} {
      assert m == map[];
    }
  }

  lemma NothingLeftIsEmpty<D>(files: map<nat, D>, active: map<nat, D>, id: nat, started: seq<nat>)
    ensures NothingLeft(Book(files.Keys, active.Keys, id, started)) <==> files == map[] && active == map[]
  {
    SameSize(files);
    SameSize(active);
  }

  class Controller<D> {
    const max: nat
    ghost const details: map<nat, D>
    var files: map<nat, D>
    var active: map<nat, D>
    var id: nat
    var started: seq<nat>

    constructor (files: map<nat, D>, max: nat)
      ensures Valid() && Contents() == Book(files.Keys, {}, 0, []) && details == files && this.max == max
    {
      this.files, details, this.max := files, files, max;
      active, id, started := map[], 0, [];
    }

    ghost function Contents(): Book
      reads this
    {
      Book(files.Keys, active.Keys, id, started)
    }

    /** No file is both waiting and active, every file has the details it came with, and the counter has
        passed no waiting file. */
    ghost predicate Valid()
      reads this
    {
      files.Keys !! active.Keys && Unchanged(files, details) && Unchanged(active, details) && Ahead(Contents())
    }

    method StartRound()
      requires Valid() && Room(Contents(), max)
      modifies this
      ensures Valid() && Contents() == Round(old(Contents()))
    {
      hide Unchanged;
      RoundCloser(Contents(), max);
      if id in files {
        TakeDetails(files, active, id, details);
        var file := files[id];
        files := files - {id};
        active := active[id := file];
        started := started + [id];
        id := id + 1;
      } else {
        id := id + 1;
      }
    }

    /** Starts files while there is room; it terminates because the counter has passed no file. */
    method StartFiles()
      requires Valid()
      modifies this
      ensures Valid() && Contents() == StartAll(old(Contents()), max)
    {
      hide Unchanged, Round, Gap, Ahead;
      SameSize(files);
      SameSize(active);
      while |active| < max && files != map[]
        invariant Valid() && StartAll(Contents(), max) == StartAll(old(Contents()), max)
        invariant |active| == |active.Keys| && (files == map[] <==> files.Keys == {})
        decreases Gap(Contents())
      {
        RoundCloser(Contents(), max);
        StartRound();
        SameSize(files);
        SameSize(active);
      }
    }

    /** What a report does; `restart` is a file to be started again. */
    method HandleReport(report: Report) returns (restart: Option<nat>)
      requires Valid()
      modifies this`active
      ensures Valid() && Contents() == Reported(old(Contents()), report)
      ensures restart == if Restarts(old(Contents()), report) then Some(report.id) else None
      ensures forall id :: id in active <==> id in old(active) && report != End(id) && report != Failure(id, 2)
      ensures forall id :: restart == Some(id) <==> id in old(active) && report == Failure(id, 0)
    {
      hide Unchanged;
      restart := None;
      DropDetails(files, active, report.id, details);
      match report
      case End(id) => active := active - {id};
      case Failure(id, reason) =>
        if reason == 0 {
          if id in active {
            restart := Some(id);
          }
        } else if reason == 2 {
          active := active - {id};
        }
    }

    /** The main loop, until it breaks or waits for a report after the last of `reports`. */
    method Serve(reports: seq<Report>) returns (restarted: seq<nat>, taken: nat, done: bool)
      requires Valid()
      modifies this
      ensures Valid() && Outcome(Contents(), restarted, taken, done) == Served(old(Contents()), reports, max)
    {
      hide Unchanged, StartAll, Reported, Restarts, Ahead, Served, NothingLeft;
      restarted, taken, done := [], 0, false;
      ghost var o := Served(Contents(), reports, max);
      assert reports[0..] == reports;
      while !done
        invariant Valid() && taken <= |reports|
        invariant done ==> o == Outcome(Contents(), restarted, taken, true)
        invariant !done ==> o == Add(restarted, taken, Served(Contents(), reports[taken..], max))
        decreases |reports| - taken, !done
      {
        ghost var b, rest := Contents(), reports[taken..];
        ServedStep(b, rest, max);
        StartFiles();
        if taken == |reports| {
          return;
        }
        assert rest[0] == reports[taken] && rest[1..] == reports[taken + 1..];
        var restart := HandleReport(reports[taken]);
        AddTwice(restarted, taken, if restart.Some? then [restart.value] else [], Contents(), rest[1..], max);
        if restart.Some? {
          restarted := restarted + [restart.value];
        }
        taken := taken + 1;
        NothingLeftIsEmpty(files, active, id, started);
        done := files == map[] && active == map[];
      }
    }
  }
}
