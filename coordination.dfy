/**
 * The components composed: nothing in the repository calls `push_log_id`
 * and `enqueue` together, so these are lemmas about what the composition
 * "push the log id; on a miss, queue a retry entry; let the retry loop run
 * against the registry" would do, not a model of code.
 */
module Coordination {
  import opened Wrappers
  import opened ObjectIds
  import opened Connection
  import opened Server
  import opened RetryQueue

  /** The lookup the retry loop gets when it is handed the registry's `get_connection`. */
  function RegistryLookup(m: Registry): Lookup
  {
    (org: ObjectId, app: ObjectId) => First(m, org, app)
  }

  /**
   * One delivery attempt: `push_log_id`, then `enqueue` of the retry entry
   * when the push found no connection. The result is the new retry queue and
   * the envelopes posted.
   */
  function Deliver(m: Registry, q: seq<RetryQueueEntry>, org: ObjectId, app: ObjectId, logId: ObjectId)
    : (r: (seq<RetryQueueEntry>, seq<Envelope>))
    ensures Connections(m, org, app) != [] ==>
      r.0 == q && r.1 == [Envelope(Connections(m, org, app)[0], SendLogId(logId))]
    ensures Connections(m, org, app) == [] ==>
      && r.1 == []
      && |r.0| == |q| + 1 && r.0[..|q|] == q && r.0[|q|] == RetryQueueEntry(org, app, logId)
      && multiset(r.0) == multiset(q) + multiset{RetryQueueEntry(org, app, logId)}
  {
    match First(m, org, app)
    case Some(conn) => (q, [Envelope(conn, SendLogId(logId))])
    case None => (PushBack(q, RetryQueueEntry(org, app, logId)), [])
  }

  /**
   * A delivery attempt that finds no connection, followed by registering a
   * connection for that scope and `|q| + 1` iterations of the retry loop,
   * delivers the log id to the new connection.
   */
  lemma {:induction false} MissedPushReachesLaterConnection(
    m: Registry, q: seq<RetryQueueEntry>, org: ObjectId, app: ObjectId, logId: ObjectId, conn: Addr)
    requires Connections(m, org, app) == []
    ensures Envelope(conn, SendLogId(logId))
            in Iterate(Deliver(m, q, org, app, logId).0, RegistryLookup(Added(m, org, app, conn)), |q| + 1).1
  {
    var q' := Deliver(m, q, org, app, logId).0;
    assert q'[|q|] == RetryQueueEntry(org, app, logId);
    var lookup := RegistryLookup(Added(m, org, app, conn));
    FirstAfterAdded(m, org, app, conn);
    assert lookup(org, app) == Some(conn);
    DeliveredWithin(q', lookup, |q|);
  }
}
