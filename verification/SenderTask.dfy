/** The task that takes jobs from the queue, sends them and caches them, and gives up after too many
    failures in a row. */
module SenderTask {
  import opened Chunks
  import opened SenderState

  /** The shared state as one task changes it, the failures since its last success, the jobs it sent in
      order, and the attempts it has made. */
  datatype Task<J> = Task(shared: Shared<J>, retries: nat, sent: seq<J>, tried: nat)

  /** One attempt: a job that was sent is cached, one that was not goes back to the end of the queue. */
  function Attempt<J>(t: Task<J>, ok: bool, key: J -> Key): Task<J>
    requires |t.shared.queue| > 0
  {
    var job, queue := t.shared.queue[0], t.shared.queue[1..];
    if ok then
      Task(t.shared.(queue := queue, cache := t.shared.cache[key(job) := job]), 0, t.sent + [job], t.tried + 1)
    else Task(t.shared.(queue := queue + [job]), t.retries + 1, t.sent, t.tried + 1)
  }

  predicate Stops<J>(t: Task<J>, max: nat) {
    t.retries >= max || |t.shared.queue| == 0
  }

  /** `outcomes` says of each attempt whether the socket took the packet. */
  function Attempts<J>(t: Task<J>, outcomes: seq<bool>, max: nat, key: J -> Key): Task<J>
    decreases |outcomes|
  {
    if |outcomes| == 0 || Stops(t, max) then t
    else Attempts(Attempt(t, outcomes[0], key), outcomes[1..], max, key)
  }

  /** The failures at the end of a history. */
  function Trailing(history: seq<bool>): nat {
    if |history| == 0 || history[|history| - 1] then 0 else 1 + Trailing(history[..|history| - 1])
  }

  lemma Shift(history: seq<bool>, outcomes: seq<bool>, n: nat)
    requires n < |outcomes|
    ensures history + outcomes[..n + 1] == history + [outcomes[0]] + outcomes[1..][..n]
    ensures history + outcomes[..0] == history
  {
  }

  lemma {:induction false} AttemptsTrail<J>(t: Task<J>, history: seq<bool>, outcomes: seq<bool>, max: nat,
                                            key: J -> Key)
    requires t.retries == Trailing(history)
    ensures var r := Attempts(t, outcomes, max, key);
            && t.tried <= r.tried <= t.tried + |outcomes|
            && r.retries == Trailing(history + outcomes[..r.tried - t.tried])
            && (r.tried < t.tried + |outcomes| ==> Stops(r, max))
            && (forall n | 0 <= n < r.tried - t.tried :: Trailing(history + outcomes[..n]) < max)
    decreases |outcomes|
  {
    if |outcomes| == 0 || Stops(t, max) {
      assert history + outcomes[..0] == history;
    } else {
      var q, longer := Attempt(t, outcomes[0], key), history + [outcomes[0]];
      assert longer[..|longer| - 1] == history;
      AttemptsTrail(q, longer, outcomes[1..], max, key);
      var r := Attempts(t, outcomes, max, key);
      Shift(history, outcomes, r.tried - q.tried);
      forall n | 0 <= n < r.tried - t.tried
        ensures Trailing(history + outcomes[..n]) < max
      {
        Shift(history, outcomes, if n == 0 then 0 else n - 1);
      }
    }
  }

  /** A task gives up exactly when `max` sends have failed in a row, and not before; short of that it goes
      on as long as there are jobs. */
  lemma GivesUpIff<J>(s: Shared<J>, outcomes: seq<bool>, max: nat, key: J -> Key)
    ensures var r := Attempts(Task(s, 0, [], 0), outcomes, max, key);
            && r.tried <= |outcomes|
            && (r.retries >= max <==> Trailing(outcomes[..r.tried]) >= max)
            && (forall n | 0 <= n < r.tried :: Trailing(outcomes[..n]) < max)
            && (r.tried < |outcomes| && Trailing(outcomes[..r.tried]) < max ==> r.shared.queue == [])
  {
    AttemptsTrail(Task(s, 0, [], 0), [], outcomes, max, key);
    assert forall n | 0 <= n <= |outcomes| :: [] + outcomes[..n] == outcomes[..n];
  }

  /** No job is lost or made up: the queue and what was sent are the same jobs as before, and what was
      sent is cached. */
  lemma {:induction false} AttemptsKeepJobs<J>(t: Task<J>, outcomes: seq<bool>, max: nat, key: J -> Key)
    requires forall job | job in t.sent :: key(job) in t.shared.cache
    ensures var r := Attempts(t, outcomes, max, key);
            && multiset(r.shared.queue) + multiset(r.sent) == multiset(t.shared.queue) + multiset(t.sent)
            && (forall job | job in r.sent :: key(job) in r.shared.cache)
            && (forall k | k in t.shared.cache :: k in r.shared.cache)
            && r.shared == t.shared.(queue := r.shared.queue, cache := r.shared.cache)
    decreases |outcomes|
  {
    if |outcomes| > 0 && !Stops(t, max) {
      var job := t.shared.queue[0];
      assert t.shared.queue == [job] + t.shared.queue[1..];
      AttemptsKeepJobs(Attempt(t, outcomes[0], key), outcomes[1..], max, key);
    }
  }

  /** The jobs of the attempts with the outcome `ok`, in order. */
  function Picked<J>(jobs: seq<J>, outcomes: seq<bool>, ok: bool): seq<J>
    requires |jobs| <= |outcomes|
  {
    if |jobs| == 0 then []
    else (if outcomes[0] == ok then [jobs[0]] else []) + Picked(jobs[1..], outcomes[1..], ok)
  }

  lemma NonePicked<J>(outcomes: seq<bool>)
    ensures Picked<J>([], outcomes, false) == Picked<J>([], outcomes, true) == []
  {
  }

  lemma PickedFirst<J>(job: J, later: seq<J>, outcomes: seq<bool>, ok: bool)
    requires |later| < |outcomes|
    ensures Picked([job] + later, outcomes, ok)
         == (if outcomes[0] == ok then [job] else []) + Picked(later, outcomes[1..], ok)
  {
    assert ([job] + later)[1..] == later;
  }

  lemma TakenFirst<J>(queue: seq<J>, again: seq<J>, back: seq<J>, later: seq<J>, left: seq<J>)
    requires |queue| > 0 && queue[1..] + again + back == later + left
    ensures queue + (again + back) == [queue[0]] + later + left
  {
    assert queue + (again + back) == [queue[0]] + (queue[1..] + again + back);
    assert [queue[0]] + (later + left) == [queue[0]] + later + left;
  }

  lemma Regrouped<J>(a: seq<J>, b: seq<J>, c: seq<J>)
    ensures a + b + c == a + (b + c) && a + [] == a
  {
  }

  /** Jobs are tried first come, first served: the queue with those that were put back behind it is those that were
      tried, in order, with what is left behind them. */
  lemma {:induction false} AttemptsInOrder<J>(t: Task<J>, outcomes: seq<bool>, max: nat, key: J -> Key)
    returns (jobs: seq<J>)
    ensures var r := Attempts(t, outcomes, max, key);
            && |jobs| == r.tried - t.tried && |jobs| <= |outcomes|
            && t.shared.queue + Picked(jobs, outcomes, false) == jobs + r.shared.queue
            && r.sent == t.sent + Picked(jobs, outcomes, true)
    decreases |outcomes|
  {
    hide Picked;
    if |outcomes| == 0 || Stops(t, max) {
      jobs := [];
      NonePicked<J>(outcomes);
      Regrouped(t.shared.queue, [], []);
      Regrouped(t.sent, [], []);
    } else {
      var q := Attempt(t, outcomes[0], key);
      var later := AttemptsInOrder(q, outcomes[1..], max, key);
      var job, left := t.shared.queue[0], Attempts(t, outcomes, max, key).shared.queue;
      jobs := [job] + later;
      PickedFirst(job, later, outcomes, false);
      PickedFirst(job, later, outcomes, true);
      var again := if outcomes[0] then [] else [job];
      Regrouped(t.shared.queue[1..], again, []);
      TakenFirst(t.shared.queue, again, Picked(later, outcomes[1..], false), later, left);
      Regrouped(t.sent, if outcomes[0] then [job] else [], Picked(later, outcomes[1..], true));
    }
  }

  class SendingTask<J> {
    const sender: Sender<J>
    const max: nat
    var retries: nat
    var sent: seq<J>
    var tried: nat

    constructor (sender: Sender<J>, max: nat)
      ensures this.sender == sender && this.max == max
      ensures retries == 0 && sent == [] && tried == 0
    {
      this.sender, this.max := sender, max;
      retries, sent, tried := 0, [], 0;
    }

    function View(): Task<J>
      reads this, sender
    {
      Task(sender.View(), retries, sent, tried)
    }

    /** Runs until it gives up, the queue is empty, or `outcomes` are used up. */
    method Run(outcomes: seq<bool>, key: J -> Key) returns (gaveUp: bool)
      modifies this, sender
      ensures View() == Attempts(old(View()), outcomes, max, key)
      ensures gaveUp <==> retries >= max
    {
      var i := 0;
      assert outcomes[0..] == outcomes;
      while i < |outcomes| && retries < max && |sender.queue| > 0
        invariant i <= |outcomes|
        invariant Attempts(View(), outcomes[i..], max, key) == Attempts(old(View()), outcomes, max, key)
      {
        assert outcomes[i..][0] == outcomes[i] && outcomes[i..][1..] == outcomes[i + 1..];
        ghost var before := View();
        var job := sender.queue[0];
        sender.queue := sender.queue[1..];
        if outcomes[i] {
          sent := sent + [job];
          sender.cache := sender.cache[key(job) := job];
          retries := 0;
        } else {
          sender.queue := sender.queue + [job];
          retries := retries + 1;
        }
        tried := tried + 1;
        assert View() == Attempt(before, outcomes[i], key);
        i := i + 1;
      }
      gaveUp := retries >= max;
    }
  }
}
