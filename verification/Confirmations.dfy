/** The way of a confirmation from a writer to the sending host: a channel, a pending vector that is
    taken and grouped by file at every tick, and messages on a reliable ordered stream. */
module Confirmations {
  import opened Chunks
  import opened Channels

  /** Confirmed indexes grouped by file id, as one message carries them. */
  type Batch = map<nat, seq<nat>>

  function PushIndex(b: Batch, k: Key): Batch {
    b[k.id := (if k.id in b then b[k.id] else []) + [k.index]]
  }

  function Group(keys: seq<Key>): Batch {
    if |keys| == 0 then map[] else PushIndex(Group(keys[..|keys| - 1]), keys[|keys| - 1])
  }

  function Tagged(id: nat, indexes: seq<nat>): (r: seq<Key>)
    ensures |r| == |indexes|
  {
    seq(|indexes|, i requires 0 <= i < |indexes| => Key(id, indexes[i]))
  }

  lemma RemoveShrinks(b: Batch, id: nat)
    requires id in b
    ensures |b - {id}| < |b|
  {
    assert (b - {id}).Keys == b.Keys - {id};
    assert |b.Keys - {id}| < |b.Keys|;
  }

  /** All (id, index) pairs of a message, with their multiplicity. */
  ghost function BatchKeys(b: Batch): multiset<Key>
    decreases |b|
  {
    if b == map[] then multiset{}
    else
      var id :| id in b;
      RemoveShrinks(b, id);
      multiset(Tagged(id, b[id])) + BatchKeys(b - {id})
  }

  lemma {:induction false} BatchKeysRemove(b: Batch, id: nat)
    requires id in b
    ensures BatchKeys(b) == multiset(Tagged(id, b[id])) + BatchKeys(b - {id})
    decreases |b|
  {
    var first :| first in b && BatchKeys(b) == multiset(Tagged(first, b[first])) + BatchKeys(b - {first});
    if first != id {
      RemoveShrinks(b, first);
      RemoveShrinks(b, id);
      BatchKeysRemove(b - {first}, id);
      BatchKeysRemove(b - {id}, first);
      assert b - {first} - {id} == b - {id} - {first};
    }
  }

  lemma TaggedOneMore(id: nat, indexes: seq<nat>, index: nat)
    ensures Tagged(id, indexes + [index]) == Tagged(id, indexes) + [Key(id, index)]
  {
  }

  /** A message with the indexes of one file replaced. */
  lemma ReplacedKeys(b: Batch, id: nat, indexes: seq<nat>)
    ensures BatchKeys(b[id := indexes]) == multiset(Tagged(id, indexes)) + BatchKeys(b - {id})
  {
    hide Tagged;
    var r: Batch := b[id := indexes];
    BatchKeysRemove(r, id);
    assert r - {id} == b - {id};
  }

  lemma PushIndexKeys(b: Batch, k: Key)
    ensures BatchKeys(PushIndex(b, k)) == BatchKeys(b) + multiset{k}
  {
    hide BatchKeys, Tagged;
    var indexes := if k.id in b then b[k.id] else [];
    ReplacedKeys(b, k.id, indexes + [k.index]);
    TaggedOneMore(k.id, indexes, k.index);
    assert multiset(Tagged(k.id, indexes) + [k]) == multiset(Tagged(k.id, indexes)) + multiset{k};
    if k.id in b {
      BatchKeysRemove(b, k.id);
    } else {
      assert b - {k.id} == b && Tagged(k.id, []) == [];
    }
  }

  lemma EmptyBatch(b: Batch)
    requires |b| == 0
    ensures BatchKeys(b) == multiset{}
  {
  }

  /** Grouping by file loses and duplicates nothing. */
  lemma {:induction false} GroupKeepsKeys(keys: seq<Key>)
    ensures BatchKeys(Group(keys)) == multiset(keys)
  {
    hide BatchKeys, PushIndex;
    if |keys| == 0 {
      EmptyBatch(Group(keys));
    } else {
      var front, last := keys[..|keys| - 1], keys[|keys| - 1];
      GroupKeepsKeys(front);
      PushIndexKeys(Group(front), last);
      assert keys == front + [last];
    }
  }

  lemma GroupNothing()
    ensures Group([]) == map[]
  {
  }

  lemma GroupOneMore(keys: seq<Key>, i: nat)
    requires i < |keys|
    ensures Group(keys[..i + 1]) == PushIndex(Group(keys[..i]), keys[i])
  {
    assert keys[..i + 1][..i] == keys[..i];
  }

  /** The indexes of one file among the pairs, in order. */
  function IndexesOf(id: nat, keys: seq<Key>): seq<nat> {
    if |keys| == 0 then []
    else
      var last := keys[|keys| - 1];
      IndexesOf(id, keys[..|keys| - 1]) + (if last.id == id then [last.index] else [])
  }

  /** A message has an entry for each file with a confirmation and for no other, and in it the file's indexes in
      the order in which they were confirmed. */
  lemma {:induction false} GroupKeepsOrder(keys: seq<Key>, id: nat)
    ensures id in Group(keys) <==> exists k :: k in keys && k.id == id
    ensures id in Group(keys) ==> Group(keys)[id] == IndexesOf(id, keys)
    ensures id !in Group(keys) ==> IndexesOf(id, keys) == []
  {
    if |keys| > 0 {
      var front, last := keys[..|keys| - 1], keys[|keys| - 1];
      assert keys == front + [last];
      GroupKeepsOrder(front, id);
    }
  }

  // ---- the pipeline as a state ----

  /** `current` is what is left of the message being handled; `issued` and `handled` are its history. */
  datatype Pipeline = Pipeline(channel: seq<Key>, pending: seq<Key>, wire: seq<Batch>, current: multiset<Key>,
                               issued: multiset<Key>, handled: multiset<Key>)

  const EMPTY := Pipeline([], [], [], multiset{}, multiset{}, multiset{})

  ghost function WireKeys(wire: seq<Batch>): multiset<Key> {
    if |wire| == 0 then multiset{} else BatchKeys(wire[0]) + WireKeys(wire[1..])
  }

  ghost function InTransit(p: Pipeline): multiset<Key> {
    multiset(p.channel) + multiset(p.pending) + WireKeys(p.wire) + p.current
  }

  function Issue(p: Pipeline, k: Key): Pipeline {
    p.(channel := p.channel + [k], issued := p.issued + multiset{k})
  }

  function Forward(p: Pipeline): Pipeline
    requires |p.channel| > 0
  {
    p.(channel := p.channel[1..], pending := p.pending + [p.channel[0]])
  }

  function Tick(p: Pipeline): Pipeline {
    if |p.pending| == 0 then p else p.(pending := [], wire := p.wire + [Group(p.pending)])
  }

  ghost function Receive(p: Pipeline): Pipeline
    requires |p.wire| > 0 && p.current == multiset{}
  {
    p.(wire := p.wire[1..], current := BatchKeys(p.wire[0]))
  }

  function Handle(p: Pipeline, k: Key): Pipeline
    requires k in p.current
  {
    p.(current := p.current - multiset{k}, handled := p.handled + multiset{k})
  }

  /** Every confirmation issued is on its way or was handled, with its multiplicity. */
  ghost predicate Conserved(p: Pipeline) {
    p.issued == InTransit(p) + p.handled
  }

  lemma {:induction false} WireKeysAppend(wire: seq<Batch>, b: Batch)
    ensures WireKeys(wire + [b]) == WireKeys(wire) + BatchKeys(b)
  {
    if |wire| > 0 {
      WireKeysAppend(wire[1..], b);
      assert (wire + [b])[1..] == wire[1..] + [b];
    } else {
      assert (wire + [b])[1..] == [];
    }
  }

  lemma IssueTransit(p: Pipeline, k: Key)
    ensures InTransit(Issue(p, k)) == InTransit(p) + multiset{k}
    ensures Conserved(p) ==> Conserved(Issue(p, k))
  {
  }

  lemma ForwardTransit(p: Pipeline)
    requires |p.channel| > 0
    ensures InTransit(Forward(p)) == InTransit(p)
    ensures Conserved(p) ==> Conserved(Forward(p))
  {
    assert p.channel == [p.channel[0]] + p.channel[1..];
  }

  /** Confirmations are taken off the channel in the order in which they were put on it. */
  lemma ForwardInOrder(p: Pipeline, k: Key)
    requires |p.channel| > 0
    ensures Forward(p).pending + Forward(p).channel == p.pending + p.channel
    ensures Issue(p, k).pending + Issue(p, k).channel == p.pending + p.channel + [k]
  {
  }

  lemma TickTransit(p: Pipeline)
    ensures InTransit(Tick(p)) == InTransit(p)
    ensures p.wire <= Tick(p).wire && |Tick(p).wire| == |p.wire| + if p.pending == [] then 0 else 1
    ensures Conserved(p) ==> Conserved(Tick(p))
  {
    GroupKeepsKeys(p.pending);
    WireKeysAppend(p.wire, Group(p.pending));
  }

  /** The messages are handled in the order in which they were sent, each as a whole. */
  lemma ReceiveTransit(p: Pipeline)
    requires |p.wire| > 0 && p.current == multiset{}
    ensures [p.wire[0]] + Receive(p).wire == p.wire && Receive(p).current == BatchKeys(p.wire[0])
    ensures InTransit(Receive(p)) == InTransit(p)
    ensures Conserved(p) ==> Conserved(Receive(p))
  {
  }

  lemma HandleTransit(p: Pipeline, k: Key)
    requires k in p.current
    ensures InTransit(Handle(p, k)) == InTransit(p) - multiset{k} && k in InTransit(p)
    ensures Conserved(p) ==> Conserved(Handle(p, k))
  {
    hide WireKeys;
    LessOne(multiset(p.channel) + multiset(p.pending) + WireKeys(p.wire), p.current, p.handled, k);
  }

  lemma LessOne(rest: multiset<Key>, current: multiset<Key>, handled: multiset<Key>, k: Key)
    requires k in current
    ensures rest + (current - multiset{k}) == rest + current - multiset{k} && k in rest + current
    ensures rest + current + handled == rest + (current - multiset{k}) + (handled + multiset{k})
  {
    assert current == current - multiset{k} + multiset{k};
  }

  // ---- the task that batches confirmations ----

  class Batcher {
    var pending: seq<Key>

    constructor ()
      ensures pending == []
    {
      pending := [];
    }

    method Push(k: Key)
      modifies this
      ensures pending == old(pending) + [k]
    {
      pending := pending + [k];
    }

    /** Takes in what the writers have put on their channel. */
    method Collect(incoming: Channel<Key>)
      modifies this, incoming
      ensures pending == old(pending) + old(incoming.items) && incoming.items == []
    {
      while |incoming.items| > 0
        invariant pending + incoming.items == old(pending) + old(incoming.items)
        decreases |incoming.items|
      {
        var k := incoming.items[0];
        assert incoming.items == [k] + incoming.items[1..];
        incoming.items := incoming.items[1..];
        Push(k);
      }
    }

    /** One tick: nothing happens while no confirmation is pending; otherwise all of them leave in one message. */
    method SendPending(out: Channel<Batch>)
      modifies this, out
      ensures pending == []
      ensures out.items == old(out.items) + (if old(pending) == [] then [] else [Group(old(pending))])
      ensures WireKeys(out.items) == WireKeys(old(out.items)) + multiset(old(pending))
    {
      hide Group, BatchKeys;
      if |pending| != 0 {
        var taken := pending;
        pending := [];
        var grouped: Batch := map[];
        GroupNothing();
        assert taken[..0] == [];
        for i := 0 to |taken|
          invariant grouped == Group(taken[..i])
          invariant pending == [] && out.items == old(out.items)
        {
          GroupOneMore(taken, i);
          var k := taken[i];
          grouped := grouped[k.id := (if k.id in grouped then grouped[k.id] else []) + [k.index]];
        }
        assert taken[..|taken|] == taken;
        GroupKeepsKeys(taken);
        WireKeysAppend(out.items, grouped);
        out.Send(grouped);
      }
    }
  }
}
