/**
 * The retry queue for undelivered log notifications
 * (src/services/websocket_queue.rs): a FIFO of retry entries, and one
 * iteration of the background loop that retries its head.
 */
module RetryQueue {
  import opened Wrappers
  import opened ObjectIds
  import opened Connection

  /** `RetryQueueEntry`: a log that found no live connection in its scope. */
  datatype RetryQueueEntry = RetryQueueEntry(organizationId: ObjectId, applicationId: ObjectId, logId: ObjectId)

  /** The connection lookup `process_queue` is handed. */
  type Lookup = (ObjectId, ObjectId) -> Option<Addr>

  /** `VecDeque::push_back`. */
  function PushBack(q: seq<RetryQueueEntry>, e: RetryQueueEntry): (r: seq<RetryQueueEntry>)
    ensures |r| == |q| + 1 && r[..|q|] == q && r[|q|] == e
  {
    q + [e]
  }

  /** `VecDeque::pop_front`: the head and what remains, or nothing from an empty queue. */
  function PopFront(q: seq<RetryQueueEntry>): (r: (Option<RetryQueueEntry>, seq<RetryQueueEntry>))
    ensures q == [] ==> r == (None, q)
    ensures q != [] ==> r.0 == Some(q[0]) && q == [q[0]] + r.1
  {
    if q == [] then (None, q) else (Some(q[0]), q[1..])
  }

  /** The queue after enqueueing `es` one by one. */
  function EnqueueAll(q: seq<RetryQueueEntry>, es: seq<RetryQueueEntry>): seq<RetryQueueEntry>
    decreases |es|
  {
    if es == [] then q else EnqueueAll(PushBack(q, es[0]), es[1..])
  }

  /** The entries successive dequeues return until the queue is empty. */
  function DrainAll(q: seq<RetryQueueEntry>): seq<RetryQueueEntry>
    decreases |q|
  {
    match PopFront(q)
    case (None, _) => []
    case (Some(e), rest) => [e] + DrainAll(rest)
  }

  lemma {:induction false} EnqueueAllAppends(q: seq<RetryQueueEntry>, es: seq<RetryQueueEntry>)
    ensures EnqueueAll(q, es) == q + es
    decreases |es|
  {
    if es == [] {
      assert q + es == q;
    } else {
      EnqueueAllAppends(PushBack(q, es[0]), es[1..]);
      assert q + [es[0]] + es[1..] == q + es;
    }
  }

  lemma {:induction false} DrainAllInOrder(q: seq<RetryQueueEntry>)
    ensures DrainAll(q) == q
    decreases |q|
  {
    if q != [] {
      DrainAllInOrder(q[1..]);
    }
  }

  /** FIFO: entries enqueued in order come back from successive dequeues in that order, after those already waiting. */
  lemma Fifo(q: seq<RetryQueueEntry>, es: seq<RetryQueueEntry>)
    ensures DrainAll(EnqueueAll(q, es)) == q + es
  {
    EnqueueAllAppends(q, es);
    DrainAllInOrder(q + es);
  }

  /** What one iteration of `process_queue` did with the head of the queue. */
  datatype Outcome = Idle | Delivered(entry: RetryQueueEntry, to: Addr) | Requeued(entry: RetryQueueEntry)

  datatype Step = Step(queue: seq<RetryQueueEntry>, outcome: Outcome)

  /** The envelopes an iteration posts: one SendLogId with the entry's log id on delivery, nothing otherwise. */
  function Sent(outcome: Outcome): seq<Envelope>
  {
    match outcome
    case Delivered(e, to) => [Envelope(to, SendLogId(e.logId))]
    case _ => []
  }

  /** One iteration of the `process_queue` loop, without its sleep: pop the head, deliver it if its scope has a connection, otherwise push it back. */
  function ProcessStep(q: seq<RetryQueueEntry>, lookup: Lookup): (r: Step)
    ensures q == [] ==> r == Step([], Idle)
    ensures q != [] && lookup(q[0].organizationId, q[0].applicationId).Some? ==>
      && r.outcome == Delivered(q[0], lookup(q[0].organizationId, q[0].applicationId).value)
      && r.queue == q[1..] && |r.queue| == |q| - 1
    ensures q != [] && lookup(q[0].organizationId, q[0].applicationId).None? ==>
      && r.outcome == Requeued(q[0])
      && r.queue == q[1..] + q[..1] && |r.queue| == |q|
      && multiset(r.queue) == multiset(q)
  {
    match PopFront(q)
    case (None, rest) => Step(rest, Idle)
    case (Some(e), rest) =>
      match lookup(e.organizationId, e.applicationId)
      case Some(conn) => Step(rest, Delivered(e, conn))
      case None => Step(PushBack(rest, e), Requeued(e))
  }

  /** `n` iterations of the loop against an unchanging lookup: the queue left and the envelopes posted. */
  function Iterate(q: seq<RetryQueueEntry>, lookup: Lookup, n: nat): (r: (seq<RetryQueueEntry>, seq<Envelope>))
    ensures |r.0| + |r.1| == |q|
    decreases n
  {
    if n == 0 then (q, [])
    else
      var s := ProcessStep(q, lookup);
      var rest := Iterate(s.queue, lookup, n - 1);
      (rest.0, Sent(s.outcome) + rest.1)
  }

  /** An entry at position `k` whose scope has a connection is delivered, with its log id, within `k + 1` iterations. */
  lemma {:induction false} DeliveredWithin(q: seq<RetryQueueEntry>, lookup: Lookup, k: nat)
    requires k < |q|
    requires lookup(q[k].organizationId, q[k].applicationId).Some?
    ensures Envelope(lookup(q[k].organizationId, q[k].applicationId).value, SendLogId(q[k].logId))
            in Iterate(q, lookup, k + 1).1
    decreases k
  {
    var s := ProcessStep(q, lookup);
    if k > 0 {
      assert s.queue[k - 1] == q[k];
      DeliveredWithin(s.queue, lookup, k - 1);
    }
  }

  /** `WebSocketQueue`: the shared retry queue under its lock. */
  class WebSocketQueue {
    var queue: seq<RetryQueueEntry>

    /** `WebSocketQueue::new`. */
    constructor ()
      ensures queue == []
    {
      queue := [];
    }

    /** `enqueue`: the entry goes to the tail. */
    method Enqueue(entry: RetryQueueEntry)
      modifies this
      ensures queue == PushBack(old(queue), entry)
    {
      queue := queue + [entry];
    }

    /** `dequeue`: the head is removed and returned; an empty queue yields None and stays empty. */
    method Dequeue() returns (entry: Option<RetryQueueEntry>)
      modifies this
      ensures (entry, queue) == PopFront(old(queue))
    {
      if |queue| == 0 {
        entry := None;
      } else {
        entry := Some(queue[0]);
        queue := queue[1..];
      }
    }

    /** `size`: the current length, read without changing the queue. */
    method Size() returns (n: nat)
      ensures n == |queue|
    {
      n := |queue|;
    }

    /** The body of the `process_queue` loop, run once. */
    method ProcessQueueOnce(lookup: Lookup, outbox: Outbox)
      modifies this, outbox
      ensures queue == ProcessStep(old(queue), lookup).queue
      ensures outbox.sent == old(outbox.sent) + Sent(ProcessStep(old(queue), lookup).outcome)
    {
      var entry := Dequeue();
      if entry.Some? {
        var e := entry.value;
        var conn := lookup(e.organizationId, e.applicationId);
        if conn.Some? {
          outbox.DoSend(conn.value, SendLogId(e.logId));
        } else {
          Enqueue(e);
        }
      }
    }
  }
}
