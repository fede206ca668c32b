/** The receiving end of the data sockets: packets are parsed and handed to the queue of their file. */
module Receiver {
  import opened Chunks
  import opened ReaderSpec
  import opened WriterSpec

  datatype SendResult = Queued | MissingQueue | Full

  /** The queues of the running writers, by file id. */
  class SplitQueue {
    var queues: map<nat, seq<Arrival>>

    constructor ()
      ensures queues == map[]
    {
      queues := map[];
    }

    method PushQueue(id: nat)
      modifies this
      ensures queues == old(queues)[id := []]
    {
      queues := queues[id := []];
    }

    method PopQueue(id: nat)
      modifies this
      ensures queues == old(queues) - {id}
    {
      queues := queues - {id};
    }

    /** `Full` stands for the wait until the writer takes something out. */
    method Send(id: nat, a: Arrival) returns (r: SendResult)
      modifies this
      ensures r == (if id !in old(queues) then MissingQueue
                    else if |old(queues)[id]| >= 1000 then Full else Queued)
      ensures queues == if r.Queued? then old(queues)[id := old(queues)[id] + [a]] else old(queues)
    {
      if id !in queues {
        return MissingQueue;
      }
      if |queues[id]| >= WRITER_QUEUE_SIZE {
        return Full;
      }
      queues := queues[id := queues[id] + [a]];
      return Queued;
    }
  }

  /** What one wait on the socket can bring: a packet, nothing at all, or an error or timeout. */
  datatype Event = Packet(data: ReaderSpec.Packet) | Empty | Failed

  function Parsed(p: ReaderSpec.Packet): Arrival {
    Arrival(p[HEADER_SIZE..], ParseKey(p).index)
  }

  /** The arrivals of one file among the packets, in order. */
  function ArrivalsOf(id: nat, events: seq<Event>): seq<Arrival> {
    if |events| == 0 then []
    else
      var last := events[|events| - 1];
      ArrivalsOf(id, events[..|events| - 1])
        + (if last.Packet? && ParseKey(last.data).id == id then [Parsed(last.data)] else [])
  }

  /** Failures since the last packet. */
  function FailureRun(events: seq<Event>): nat {
    if |events| == 0 then 0
    else
      var last := events[|events| - 1];
      if last.Packet? then 0 else FailureRun(events[..|events| - 1]) + (if last.Failed? then 1 else 0)
  }

  /** The loop: it ends after `maxRetries` failures without a packet in between, with the events, or at a
      full queue. Every queue has grown by exactly the packets of its file, in order; packets of files
      without a queue are dropped. */
  method Receive(queue: SplitQueue, events: seq<Event>, maxRetries: nat)
    returns (taken: nat, gaveUp: bool, waiting: bool)
    modifies queue
    ensures taken <= |events|
    ensures Received(old(queue.queues), queue.queues, events[..taken])
    ensures gaveUp <==> FailureRun(events[..taken]) == maxRetries
    ensures forall n | 0 <= n < taken :: FailureRun(events[..n]) < maxRetries
    ensures waiting ==> taken < |events| && Waits(queue.queues, events[taken])
    ensures !gaveUp && !waiting ==> taken == |events|
  {
    hide ParseKey, Received;
    var retries := 0;
    taken, waiting := 0, false;
    NothingReceived(queue.queues);
    assert events[..0] == [];
    while retries < maxRetries && taken < |events| && !waiting
      invariant taken <= |events| && retries <= maxRetries
      invariant retries == FailureRun(events[..taken])
      invariant forall n | 0 <= n < taken :: FailureRun(events[..n]) < maxRetries
      invariant Received(old(queue.queues), queue.queues, events[..taken])
      invariant waiting ==> taken < |events| && retries < maxRetries && Waits(queue.queues, events[taken])
      decreases |events| - taken, !waiting
    {
      var event := events[taken];
      assert events[..taken + 1] == events[..taken] + [event];
      ReceivedOneMore(old(queue.queues), queue.queues, events[..taken], event);
      match event {
        case Packet(data) =>
          var key := ParseKey(data);
          var sent := queue.Send(key.id, Arrival(data[HEADER_SIZE..], key.index));
          if sent.Full? {
            waiting := true;
          } else {
            retries, taken := 0, taken + 1;
          }
        case Empty => taken := taken + 1;
        case Failed => retries, taken := retries + 1, taken + 1;
      }
    }
    gaveUp := retries == maxRetries;
  }

  /** Every queue has grown by exactly the packets of its file, in order. */
  ghost predicate Received(before: map<nat, seq<Arrival>>, after: map<nat, seq<Arrival>>, events: seq<Event>) {
    && after.Keys == before.Keys
    && forall id | id in after :: after[id] == before[id] + ArrivalsOf(id, events)
  }

  /** The event is a packet for a full queue. */
  predicate Waits(queues: map<nat, seq<Arrival>>, event: Event) {
    event.Packet? && ParseKey(event.data).id in queues && |queues[ParseKey(event.data).id]| >= 1000
  }

  lemma NothingReceived(queues: map<nat, seq<Arrival>>)
    ensures Received(queues, queues, [])
  {
  }

  /** The queues after one more event that does not have to wait. */
  lemma ReceivedOneMore(before: map<nat, seq<Arrival>>, after: map<nat, seq<Arrival>>, events: seq<Event>, event: Event)
    requires Received(before, after, events)
    ensures event.Packet? && ParseKey(event.data).id in after ==>
              var id := ParseKey(event.data).id;
              Received(before, after[id := after[id] + [Parsed(event.data)]], events + [event])
    ensures !event.Packet? || ParseKey(event.data).id !in after ==> Received(before, after, events + [event])
    ensures FailureRun(events + [event])
         == (if event.Packet? then 0 else FailureRun(events) + (if event.Failed? then 1 else 0))
  {
    hide ParseKey;
    assert (events + [event])[..|events|] == events;
  }

  /** The failures that count are those behind the last packet, all of them when there was none. */
  lemma {:induction false} FailuresCounted(before: seq<Event>, last: seq<Event>)
    requires forall event | event in last :: !event.Packet?
    requires before == [] || before[|before| - 1].Packet?
    ensures FailureRun(before + last) == multiset(last)[Failed]
  {
    if |last| == 0 {
      assert before + last == before;
    } else {
      var front := last[..|last| - 1];
      assert last == front + [last[|last| - 1]];
      assert (before + last)[..|before + last| - 1] == before + front;
      FailuresCounted(before, front);
    }
  }

  /** The arrivals of a file are those of the one stretch and then those of the next. */
  lemma {:induction false} ArrivalsInOrder(id: nat, one: seq<Event>, two: seq<Event>)
    ensures ArrivalsOf(id, one + two) == ArrivalsOf(id, one) + ArrivalsOf(id, two)
  {
    if |two| == 0 {
      assert one + two == one;
    } else {
      var front := two[..|two| - 1];
      assert (one + two)[..|one + two| - 1] == one + front;
      ArrivalsInOrder(id, one, front);
    }
  }

  /** A packet of the transfer is one arrival for its file and none for any other; nothing else is one. */
  lemma ArrivalOfOne(f: File, k: Key, p: ReaderSpec.Packet, id: nat)
    requires KeyInRange(k) && GoodPacket(f, k, p)
    ensures ArrivalsOf(id, [Packet(p)]) == if id == k.id then [Arrival(p[12..], k.index)] else []
    ensures ArrivalsOf(id, [Empty]) == [] && ArrivalsOf(id, [Failed]) == []
  {
    hide ParseKey;
    HeaderRoundTrip(k, p);
    assert [Packet(p)][..0] == [];
  }

  /** A packet of the transfer reaches the writer as the chunk it carries. */
  lemma GoodPacketArrives(f: File, k: Key, p: ReaderSpec.Packet)
    requires KeyInRange(k) && GoodPacket(f, k, p)
    ensures ParseKey(p) == k && GoodPayload(f, Parsed(p).index, Parsed(p).data)
  {
    HeaderRoundTrip(k, p);
  }
}
