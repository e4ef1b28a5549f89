/**
 * The background worker: it takes the records off the channel in order,
 * transforms each, and writes one log entry per record, an error entry when
 * serialising the structured record fails and the record itself otherwise.
 */
module Worker {
  import opened Records
  import opened Transform
  import opened HandOff

  /** One line written to the log sink. */
  datatype LogEntry =
    | Transformed(record: TransformedRequest)  // the serialised structured record
    | MarshalFailed                           // serialisation reported an error

  /** The entry written for one record; `marshals` says whether serialising a
      structured record succeeds. */
  function Entry(o: OriginalRequest, marshals: TransformedRequest -> bool): (e: LogEntry)
    ensures e.Transformed? <==> marshals(TransformRequest(o))
    ensures e.Transformed? ==> e.record == TransformRequest(o)
  {
    var t := TransformRequest(o);
    if marshals(t) then Transformed(t) else MarshalFailed
  }

  /** The log the worker writes for the records it consumes, in order. */
  function WorkerLog(q: seq<OriginalRequest>, marshals: TransformedRequest -> bool): (log: seq<LogEntry>)
    ensures |log| == |q|
    decreases |q|
  {
    if q == [] then []
    else WorkerLog(q[..|q| - 1], marshals) + [Entry(q[|q| - 1], marshals)]
  }

  /** The worker loop, run until the channel holds nothing more: every record
      taken off the channel adds exactly one entry, and a failed serialisation
      does not stop the loop. */
  method RunWorker(ch: Channel, marshals: TransformedRequest -> bool) returns (log: seq<LogEntry>)
    modifies ch
    ensures ch.queue == []
    ensures log == WorkerLog(old(ch.queue), marshals)
  {
    log := [];
    ghost var consumed: seq<OriginalRequest> := [];
    while ch.queue != []
      invariant old(ch.queue) == consumed + ch.queue
      invariant log == WorkerLog(consumed, marshals)
      decreases |ch.queue|
    {
      var original := ch.Receive();
      WorkerLogSnoc(consumed, original, marshals);
      consumed := consumed + [original];
      var transformed := TransformRequest(original);
      if !marshals(transformed) {
        log := log + [MarshalFailed];
        continue;
      }
      log := log + [Transformed(transformed)];
    }
    assert consumed == old(ch.queue);
  }

  /** Consuming one more record appends exactly its entry to the log. */
  lemma WorkerLogSnoc(q: seq<OriginalRequest>, o: OriginalRequest, marshals: TransformedRequest -> bool)
    ensures WorkerLog(q + [o], marshals) == WorkerLog(q, marshals) + [Entry(o, marshals)]
  {
    assert (q + [o])[..|q|] == q;
  }

  /** Entry i of the log is the entry for the i-th record consumed. */
  lemma {:induction false} WorkerLogAt(q: seq<OriginalRequest>, marshals: TransformedRequest -> bool, i: int)
    requires 0 <= i < |q|
    ensures WorkerLog(q, marshals)[i] == Entry(q[i], marshals)
    decreases |q|
  {
    if i < |q| - 1 {
      var init := q[..|q| - 1];
      WorkerLogAt(init, marshals, i);
    }
  }

  /** The log of two batches consumed one after the other is the first
      batch's log followed by the second's. */
  lemma {:induction false} WorkerLogConcat(q1: seq<OriginalRequest>, q2: seq<OriginalRequest>, marshals: TransformedRequest -> bool)
    ensures WorkerLog(q1 + q2, marshals) == WorkerLog(q1, marshals) + WorkerLog(q2, marshals)
  {
    var l := WorkerLog(q1 + q2, marshals);
    var r := WorkerLog(q1, marshals) + WorkerLog(q2, marshals);
    forall i | 0 <= i < |l| ensures l[i] == r[i] {
      WorkerLogAt(q1 + q2, marshals, i);
      if i < |q1| {
        WorkerLogAt(q1, marshals, i);
      } else {
        WorkerLogAt(q2, marshals, i - |q1|);
      }
    }
  }

  /** The entry a record produces depends on that record alone, whatever was
      queued before or after it. */
  lemma EntryIndependentOfQueue(before: seq<OriginalRequest>, o: OriginalRequest, after: seq<OriginalRequest>, marshals: TransformedRequest -> bool)
    ensures WorkerLog(before + [o] + after, marshals)[|before|] == Entry(o, marshals)
  {
    WorkerLogAt(before + [o] + after, marshals, |before|);
  }

  /** Submitting well-formed records, none of whose serialisation fails,
      yields one logged structured record per submission, in submission order. */
  lemma EveryAcceptedSubmissionLogged(subs: seq<Submission>, marshals: TransformedRequest -> bool)
    requires forall i :: 0 <= i < |subs| ==>
      Accepts(subs[i]) && marshals(TransformRequest(subs[i].decoded.value))
    ensures |WorkerLog(Enqueued(subs), marshals)| == |subs|
    ensures forall i :: 0 <= i < |subs| ==>
      subs[i].decoded.Some? &&
      WorkerLog(Enqueued(subs), marshals)[i] == Transformed(TransformRequest(subs[i].decoded.value))
  {
    AllAcceptedAllEnqueued(subs);
    forall i | 0 <= i < |subs|
      ensures WorkerLog(Enqueued(subs), marshals)[i] == Transformed(TransformRequest(subs[i].decoded.value))
    {
      WorkerLogAt(Enqueued(subs), marshals, i);
    }
  }
}
