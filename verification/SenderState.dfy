/** What the tasks of the sending host share: the job queue, the cache of unconfirmed jobs, the
    confirmations that found no job in the cache, and the permits of the readers. */
module SenderState {
  import opened Chunks
  import opened Confirmations

  datatype Shared<J> = Shared(queue: seq<J>, cache: map<Key, J>, lost: set<Key>, permits: nat, confirmed: nat)

  /** One confirmed index: a cached job is done; otherwise the confirmation is remembered as lost. */
  function Confirm<J>(s: Shared<J>, k: Key): Shared<J> {
    if k in s.cache then s.(cache := s.cache - {k}, permits := s.permits + 1, confirmed := s.confirmed + 1)
    else s.(lost := s.lost + {k})
  }

  /** One expired key: a job whose confirmation was lost is done; any other job is queued again. */
  function Requeue<J>(s: Shared<J>, k: Key): Shared<J> {
    if k !in s.cache then s
    else if k in s.lost then
      s.(cache := s.cache - {k}, lost := s.lost - {k}, permits := s.permits + 1, confirmed := s.confirmed + 1)
    else s.(cache := s.cache - {k}, queue := s.queue + [s.cache[k]])
  }

  function ConfirmAll<J>(s: Shared<J>, keys: seq<Key>): Shared<J> {
    if |keys| == 0 then s else Confirm(ConfirmAll(s, keys[..|keys| - 1]), keys[|keys| - 1])
  }

  lemma {:induction false} ConfirmAllAppend<J>(s: Shared<J>, a: seq<Key>, b: seq<Key>)
    ensures ConfirmAll(s, a + b) == ConfirmAll(ConfirmAll(s, a), b)
    decreases |b|
  {
    if |b| == 0 {
      assert a + b == a;
    } else {
      assert (a + b)[..|a + b| - 1] == a + b[..|b| - 1];
      ConfirmAllAppend(s, a, b[..|b| - 1]);
    }
  }

  function RequeueAll<J>(s: Shared<J>, keys: seq<Key>): Shared<J> {
    if |keys| == 0 then s else Requeue(RequeueAll(s, keys[..|keys| - 1]), keys[|keys| - 1])
  }

  // ---- the effect of a whole message, whatever the order in which it is walked through ----

  ghost function Named(keys: multiset<Key>): set<Key> {
    set k | k in keys
  }

  /** A confirmation is lost when its job is not cached, and the second one for a job always is. */
  ghost function LostBy<J>(s: Shared<J>, keys: multiset<Key>): set<Key> {
    set k | k in keys && (k !in s.cache || keys[k] >= 2)
  }

  ghost function Confirmable<J>(s: Shared<J>, keys: multiset<Key>): set<Key> {
    s.cache.Keys * Named(keys)
  }

  /** `r` is `m` without the entries of `gone`. */
  ghost predicate Without<J>(m: map<Key, J>, gone: set<Key>, r: map<Key, J>) {
    r.Keys == m.Keys - gone && forall k | k in r :: r[k] == m[k]
  }

  lemma WithoutOneMore<J>(m: map<Key, J>, gone: set<Key>, r: map<Key, J>, k: Key)
    requires Without(m, gone, r)
    ensures Without(m, gone + {k}, r - {k})
  {
    assert (r - {k}).Keys == r.Keys - {k};
  }

  lemma WithoutAbsent<J>(m: map<Key, J>, gone: set<Key>, r: map<Key, J>, k: Key)
    requires Without(m, gone, r) && k !in r
    ensures Without(m, gone + {k}, r)
  {
  }

  ghost predicate ConfirmedTogether<J>(s: Shared<J>, keys: multiset<Key>, r: Shared<J>) {
    && r.queue == s.queue
    && Without(s.cache, Named(keys), r.cache)
    && r.lost == s.lost + LostBy(s, keys)
    && r.permits == s.permits + |Confirmable(s, keys)|
    && r.confirmed == s.confirmed + |Confirmable(s, keys)|
  }

  lemma NamedOneMore(keys: multiset<Key>, k: Key)
    ensures Named(keys + multiset{k}) == Named(keys) + {k}
  {
  }

  lemma LostOneMore<J>(s: Shared<J>, keys: multiset<Key>, k: Key)
    ensures s.lost + LostBy(s, keys + multiset{k})
         == (s.lost + LostBy(s, keys)) + (if k in s.cache && k !in keys then {} else {k})
  {
    var more := keys + multiset{k};
    forall j
      ensures more[j] == keys[j] + (if j == k then 1 else 0)
    {
    }
  }

  lemma ConfirmableOneMore<J>(s: Shared<J>, keys: multiset<Key>, k: Key)
    ensures |Confirmable(s, keys + multiset{k})|
         == |Confirmable(s, keys)| + (if k in s.cache && k !in keys then 1 else 0)
  {
    NamedOneMore(keys, k);
    assert forall j :: j in Named(keys) <==> j in keys;
    assert Confirmable(s, keys + multiset{k})
        == Confirmable(s, keys) + (if k in s.cache && k !in keys then {k} else {});
  }

  lemma ConfirmOneMore<J>(s: Shared<J>, keys: multiset<Key>, r: Shared<J>, k: Key)
    requires ConfirmedTogether(s, keys, r)
    ensures ConfirmedTogether(s, keys + multiset{k}, Confirm(r, k))
  {
    NamedOneMore(keys, k);
    LostOneMore(s, keys, k);
    ConfirmableOneMore(s, keys, k);
    assert k in r.cache <==> k in s.cache && k !in keys;
    if k in r.cache {
      WithoutOneMore(s.cache, Named(keys), r.cache, k);
      assert Confirm(r, k).lost == s.lost + LostBy(s, keys + multiset{k});
    } else {
      WithoutAbsent(s.cache, Named(keys), r.cache, k);
      assert Confirm(r, k).lost == s.lost + LostBy(s, keys + multiset{k});
    }
  }

  /** The effect depends on the multiset of keys only. */
  lemma {:induction false} ConfirmAllEffect<J>(s: Shared<J>, keys: seq<Key>)
    ensures ConfirmedTogether(s, multiset(keys), ConfirmAll(s, keys))
  {
    if |keys| == 0 {
      assert Confirmable(s, multiset(keys)) == {};
    } else {
      var front, last := keys[..|keys| - 1], keys[|keys| - 1];
      assert keys == front + [last];
      ConfirmAllEffect(s, front);
      ConfirmOneMore(s, multiset(front), ConfirmAll(s, front), last);
      assert multiset(keys) == multiset(front) + multiset{last};
    }
  }

  // ---- the effect of a requeue pass ----

  predicate Distinct(keys: seq<Key>) {
    forall i, j | 0 <= i < j < |keys| :: keys[i] != keys[j]
  }

  function KeySet(keys: seq<Key>): set<Key> {
    set k | k in keys
  }

  /** The jobs of the expired keys that are still cached and not known to be confirmed, in order. */
  function Resent<J>(s: Shared<J>, keys: seq<Key>): seq<J> {
    if |keys| == 0 then []
    else
      var last := keys[|keys| - 1];
      Resent(s, keys[..|keys| - 1]) + (if last in s.cache && last !in s.lost then [s.cache[last]] else [])
  }

  ghost function ConfirmedMeanwhile<J>(s: Shared<J>, keys: seq<Key>): set<Key> {
    s.cache.Keys * s.lost * KeySet(keys)
  }

  ghost predicate RequeuedTogether<J>(s: Shared<J>, keys: seq<Key>, r: Shared<J>) {
    && r.queue == s.queue + Resent(s, keys)
    && Without(s.cache, KeySet(keys), r.cache)
    && r.lost == s.lost - ConfirmedMeanwhile(s, keys)
    && r.permits == s.permits + |ConfirmedMeanwhile(s, keys)|
    && r.confirmed == s.confirmed + |ConfirmedMeanwhile(s, keys)|
  }

  lemma KeySetOneMore(front: seq<Key>, last: Key)
    ensures KeySet(front + [last]) == KeySet(front) + {last}
  {
    assert forall j :: j in KeySet(front) <==> j in front;
  }

  lemma MeanwhileOneMore<J>(s: Shared<J>, front: seq<Key>, last: Key)
    requires last !in front
    ensures var more, gone := ConfirmedMeanwhile(s, front + [last]), last in s.cache && last in s.lost;
            && s.lost - more == (s.lost - ConfirmedMeanwhile(s, front)) - (if gone then {last} else {})
            && |more| == |ConfirmedMeanwhile(s, front)| + (if gone then 1 else 0)
  {
    KeySetOneMore(front, last);
    assert forall j :: j in KeySet(front) <==> j in front;
    assert ConfirmedMeanwhile(s, front + [last])
        == ConfirmedMeanwhile(s, front) + (if last in s.cache && last in s.lost then {last} else {});
  }

  lemma ResentOneMore<J>(s: Shared<J>, front: seq<Key>, last: Key)
    ensures Resent(s, front + [last])
         == Resent(s, front) + (if last in s.cache && last !in s.lost then [s.cache[last]] else [])
  {
    assert (front + [last])[..|front|] == front;
  }

  lemma StillCached<J>(s: Shared<J>, front: seq<Key>, r: Shared<J>, last: Key)
    requires RequeuedTogether(s, front, r) && last !in front && last in s.cache
    ensures last in r.cache && r.cache[last] == s.cache[last] && (last in r.lost <==> last in s.lost)
  {
    hide Resent;
    assert last !in KeySet(front);
  }

  lemma RequeueLost<J>(s: Shared<J>, front: seq<Key>, r: Shared<J>, last: Key)
    requires RequeuedTogether(s, front, r) && last !in front && last in s.cache && last in s.lost
    ensures RequeuedTogether(s, front + [last], Requeue(r, last))
  {
    hide Resent, ConfirmedMeanwhile, KeySet, Without;
    KeySetOneMore(front, last);
    MeanwhileOneMore(s, front, last);
    ResentOneMore(s, front, last);
    StillCached(s, front, r, last);
    WithoutOneMore(s.cache, KeySet(front), r.cache, last);
  }

  lemma RequeueAgain<J>(s: Shared<J>, front: seq<Key>, r: Shared<J>, last: Key)
    requires RequeuedTogether(s, front, r) && last !in front && last in s.cache && last !in s.lost
    ensures RequeuedTogether(s, front + [last], Requeue(r, last))
  {
    hide Resent, ConfirmedMeanwhile, KeySet, Without;
    KeySetOneMore(front, last);
    MeanwhileOneMore(s, front, last);
    ResentOneMore(s, front, last);
    StillCached(s, front, r, last);
    WithoutOneMore(s.cache, KeySet(front), r.cache, last);
  }

  lemma RequeueGone<J>(s: Shared<J>, front: seq<Key>, r: Shared<J>, last: Key)
    requires RequeuedTogether(s, front, r) && last !in front && last !in s.cache
    ensures RequeuedTogether(s, front + [last], r) && last !in r.cache
  {
    KeySetOneMore(front, last);
    assert ConfirmedMeanwhile(s, front + [last]) == ConfirmedMeanwhile(s, front);
    WithoutAbsent(s.cache, KeySet(front), r.cache, last);
    assert (front + [last])[..|front|] == front;
    assert Resent(s, front + [last]) == Resent(s, front);
  }

  lemma {:induction false} RequeueAllEffect<J>(s: Shared<J>, keys: seq<Key>)
    requires Distinct(keys)
    ensures RequeuedTogether(s, keys, RequeueAll(s, keys))
  {
    if |keys| == 0 {
      assert ConfirmedMeanwhile(s, keys) == {};
    } else {
      var front, last := keys[..|keys| - 1], keys[|keys| - 1];
      assert keys == front + [last];
      RequeueAllEffect(s, front);
      if last in s.cache && last in s.lost {
        RequeueLost(s, front, RequeueAll(s, front), last);
      } else if last in s.cache {
        RequeueAgain(s, front, RequeueAll(s, front), last);
      } else {
        RequeueGone(s, front, RequeueAll(s, front), last);
      }
    }
  }

  // ---- the tasks ----

  class Sender<J> {
    var queue: seq<J>
    var cache: map<Key, J>
    var lost: set<Key>
    var permits: nat
    var confirmed: nat

    constructor (jobLimit: nat)
      ensures View() == Shared([], map[], {}, jobLimit, 0)
    {
      queue, cache, lost, permits, confirmed := [], map[], {}, jobLimit, 0;
    }

    function View(): Shared<J>
      reads this
    {
      Shared(queue, cache, lost, permits, confirmed)
    }

    /** The indexes of one file of a message. */
    method HandleIndexes(id: nat, indexes: seq<nat>)
      modifies this
      ensures View() == ConfirmAll(old(View()), Tagged(id, indexes))
    {
      for i := 0 to |indexes|
        invariant View() == ConfirmAll(old(View()), Tagged(id, indexes[..i]))
      {
        var k := Key(id, indexes[i]);
        assert indexes[..i + 1][..i] == indexes[..i];
        assert Tagged(id, indexes[..i + 1])[..i] == Tagged(id, indexes[..i]);
        if k in cache {
          cache := cache - {k};
          permits := permits + 1;
          confirmed := confirmed + 1;
        } else {
          lost := lost + {k};
        }
      }
      assert indexes[..|indexes|] == indexes;
    }

    /** The confirmation task handles one message, walking through its map in an arbitrary order. */
    method HandleMessage(batch: Batch)
      modifies this
      ensures ConfirmedTogether(old(View()), BatchKeys(batch), View())
    {
      ghost var before := View();
      ghost var done := HandleFiles(batch);
      ConfirmAllEffect(before, done);
    }

    method HandleFiles(batch: Batch) returns (ghost done: seq<Key>)
      modifies this
      ensures View() == ConfirmAll(old(View()), done) && multiset(done) == BatchKeys(batch)
    {
      var rest := batch;
      done := [];
      assert multiset(done) == multiset{};
      while rest != map[]
        invariant View() == ConfirmAll(old(View()), done)
        invariant multiset(done) + BatchKeys(rest) == BatchKeys(batch)
        decreases |rest|
      {
        var id :| id in rest;
        BatchKeysRemove(rest, id);
        HandleIndexes(id, rest[id]);
        ghost var handled := Tagged(id, rest[id]);
        ConfirmAllAppend(old(View()), done, handled);
        RemoveShrinks(rest, id);
        rest := rest - {id};
        done := done + handled;
      }
    }

    /** The requeue task walks through the keys it found expired, some of which may be gone by now. */
    method RequeueExpired(expired: seq<Key>)
      requires Distinct(expired)
      modifies this
      ensures RequeuedTogether(old(View()), expired, View())
    {
      for i := 0 to |expired|
        invariant View() == RequeueAll(old(View()), expired[..i])
      {
        var k := expired[i];
        assert expired[..i + 1][..i] == expired[..i];
        if k in cache {
          var job := cache[k];
          cache := cache - {k};
          if k in lost {
            lost := lost - {k};
            permits := permits + 1;
            confirmed := confirmed + 1;
          } else {
            queue := queue + [job];
          }
        }
      }
      assert expired[..|expired|] == expired;
      RequeueAllEffect(old(View()), expired);
    }
  }
}
