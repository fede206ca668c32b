/** The bookkeeping of chunks, permits and confirmations behind the transport, as sets and counts. */
module Ledger {
  import opened Chunks

  /** `live` are the jobs the sending host still has, `produced` the chunks cut by readers, `accepted` the
      chunks written or cached by writers, `transit` the confirmations on their way, `lost` those that
      found no job, `permits` the free read permits and `holders` the permits readers hold. */
  datatype Ledger = Ledger(live: multiset<Key>, produced: set<Key>, accepted: set<Key>, transit: multiset<Key>,
                           lost: set<Key>, permits: nat, holders: nat, confirmed: nat)

  /** A chunk that was cut and is not live has arrived; a chunk that has arrived and is still live has a
      confirmation on its way or remembered; nothing unarrived is confirmed; permits and jobs add up. */
  ghost predicate Balanced(limit: nat, b: Ledger) {
    && (forall k :: b.live[k] <= 1)
    && (forall k | k in b.live :: k in b.produced)
    && (forall k | k in b.produced :: k in b.live || k in b.accepted)
    && b.accepted <= b.produced
    && (forall k | k in b.accepted && k in b.live :: k in b.transit || k in b.lost)
    && (forall k | k in b.transit :: k in b.accepted)
    && b.lost <= b.accepted
    && b.permits + b.holders + |b.live| == limit
    && b.confirmed + |b.live| == |b.produced|
  }

  function Produce(b: Ledger, k: Key): Ledger
    requires b.holders > 0
  {
    b.(live := b.live + multiset{k}, produced := b.produced + {k}, holders := b.holders - 1)
  }

  function Acquire(b: Ledger): Ledger
    requires b.permits > 0
  {
    b.(permits := b.permits - 1, holders := b.holders + 1)
  }

  function GiveBack(b: Ledger): Ledger
    requires b.holders > 0
  {
    b.(permits := b.permits + 1, holders := b.holders - 1)
  }

  function Accept(b: Ledger, k: Key): Ledger {
    b.(accepted := b.accepted + {k}, transit := b.transit + multiset{k})
  }

  /** A confirmation that meets its job in the cache. */
  function Settle(b: Ledger, k: Key): Ledger {
    b.(live := b.live - multiset{k}, transit := b.transit - multiset{k}, permits := b.permits + 1,
       confirmed := b.confirmed + 1)
  }

  /** A confirmation that misses its job. */
  function Miss(b: Ledger, k: Key): Ledger {
    b.(transit := b.transit - multiset{k}, lost := b.lost + {k})
  }

  /** An expired job whose confirmation had missed it. */
  function SettleLate(b: Ledger, k: Key): Ledger {
    b.(live := b.live - multiset{k}, lost := b.lost - {k}, permits := b.permits + 1, confirmed := b.confirmed + 1)
  }

  lemma AcquireBalanced(limit: nat, b: Ledger)
    requires Balanced(limit, b) && b.permits > 0
    ensures Balanced(limit, Acquire(b))
  {
  }

  lemma GiveBackBalanced(limit: nat, b: Ledger)
    requires Balanced(limit, b) && b.holders > 0
    ensures Balanced(limit, GiveBack(b))
  {
  }

  lemma ProduceBalanced(limit: nat, b: Ledger, k: Key)
    requires Balanced(limit, b) && k !in b.produced && b.holders > 0
    ensures Balanced(limit, Produce(b, k))
  {
    assert k !in b.live;
  }

  lemma AcceptBalanced(limit: nat, b: Ledger, k: Key)
    requires Balanced(limit, b) && k in b.produced
    ensures Balanced(limit, Accept(b, k))
  {
  }

  lemma SettleBalanced(limit: nat, b: Ledger, k: Key)
    requires Balanced(limit, b) && k in b.transit && k in b.live
    ensures Balanced(limit, Settle(b, k))
  {
    var r := Settle(b, k);
    assert b.live[k] == 1;
    assert |r.live| == |b.live| - 1;
  }

  lemma MissBalanced(limit: nat, b: Ledger, k: Key)
    requires Balanced(limit, b) && k in b.transit
    ensures Balanced(limit, Miss(b, k))
  {
  }

  lemma SettleLateBalanced(limit: nat, b: Ledger, k: Key)
    requires Balanced(limit, b) && k in b.lost && k in b.live
    ensures Balanced(limit, SettleLate(b, k))
  {
    var r := SettleLate(b, k);
    assert b.live[k] == 1;
    assert |r.live| == |b.live| - 1;
  }
}
