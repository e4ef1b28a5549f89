/**
 * The hand-off between the /submit handler and the worker: the channel is a
 * FIFO queue of flat records, and the handler decides per request whether a
 * record is enqueued and which status and body the client receives.
 */
module HandOff {
  import opened Wrappers
  import opened Records

  /** The channel carrying flat records from the handler to the worker. */
  class Channel {
    /** Records sent and not yet received, oldest first. */
    var queue: seq<OriginalRequest>

    constructor ()
      ensures queue == []
    {
      queue := [];
    }

    /** Sending appends the record behind every record already waiting. */
    method Send(r: OriginalRequest)
      modifies this
      ensures queue == old(queue) + [r]
    {
      queue := queue + [r];
    }

    /** Receiving takes the oldest waiting record. A receive on an empty
        channel blocks until a record arrives; here it is taken only once one
        is waiting. */
    method Receive() returns (r: OriginalRequest)
      requires queue != []
      modifies this
      ensures old(queue) == [r] + queue
    {
      r := queue[0];
      queue := queue[1..];
    }
  }

  const MethodPost := "POST"

  const StatusOK: nat := 200
  const StatusBadRequest: nat := 400
  const StatusMethodNotAllowed: nat := 405

  /** The status and body written back to the client. */
  datatype Response = Response(status: nat, body: string)

  /** One request to /submit: its method, and the outcome of decoding its
      body as a flat record (None when the body is not valid for it). */
  datatype Submission = Submission(httpMethod: string, decoded: Option<OriginalRequest>)

  /** A submission is accepted when it is a POST whose body decoded. */
  predicate Accepts(s: Submission)
  {
    s.httpMethod == MethodPost && s.decoded.Some?
  }

  /** The reply to one submission: 405 for a method other than POST, 400 for
      a body that failed to decode, and 200 otherwise. Error replies carry
      the message followed by a newline. */
  function Reply(s: Submission): Response
  {
    if s.httpMethod != MethodPost then Response(StatusMethodNotAllowed, "Invalid request method\n")
    else if s.decoded.None? then Response(StatusBadRequest, "Invalid request body\n")
    else Response(StatusOK, "Request received")
  }

  /** The records a run of submissions hands to the channel, in order. */
  function Enqueued(subs: seq<Submission>): (q: seq<OriginalRequest>)
    ensures |q| <= |subs|
    decreases |subs|
  {
    if subs == [] then []
    else
      var init, last := subs[..|subs| - 1], subs[|subs| - 1];
      Enqueued(init) + (if Accepts(last) then [last.decoded.value] else [])
  }

  /** The /submit handler. A method other than POST is refused with 405 and a
      body that failed to decode with 400, and neither touches the channel;
      otherwise the record is sent once and the reply is 200. */
  method HandleSubmit(ch: Channel, s: Submission) returns (resp: Response)
    modifies ch
    ensures s.httpMethod != MethodPost ==>
      resp == Response(StatusMethodNotAllowed, "Invalid request method\n") &&
      ch.queue == old(ch.queue)
    ensures s.httpMethod == MethodPost && s.decoded.None? ==>
      resp == Response(StatusBadRequest, "Invalid request body\n") &&
      ch.queue == old(ch.queue)
    ensures Accepts(s) ==>
      resp == Response(StatusOK, "Request received") &&
      ch.queue == old(ch.queue) + [s.decoded.value]
    ensures resp == Reply(s)
    ensures ch.queue == old(ch.queue) + Enqueued([s])
  {
    if s.httpMethod != MethodPost {
      // an error reply is the message followed by a newline
      resp := Response(StatusMethodNotAllowed, "Invalid request method\n");
      return;
    }
    if s.decoded.None? {
      resp := Response(StatusBadRequest, "Invalid request body\n");
      return;
    }
    ch.Send(s.decoded.value);
    resp := Response(StatusOK, "Request received");
  }

  /** Handling submissions one after another leaves their accepted records
      on the channel in submission order. */
  lemma {:induction false} EnqueuedAppend(subs: seq<Submission>, s: Submission)
    ensures Enqueued(subs + [s]) == Enqueued(subs) + Enqueued([s])
  {
    assert (subs + [s])[..|subs|] == subs;
    assert [s][..0] == [];
  }

  /** Requests handled one after another in arrival order: the channel ends
      up holding the accepted records behind those already waiting, and each
      request gets its own reply. */
  method HandleInOrder(ch: Channel, subs: seq<Submission>) returns (resps: seq<Response>)
    modifies ch
    ensures |resps| == |subs|
    ensures forall i :: 0 <= i < |subs| ==> resps[i] == Reply(subs[i])
    ensures forall i :: 0 <= i < |subs| ==>
      (resps[i].status == StatusOK <==> Accepts(subs[i]))
    ensures ch.queue == old(ch.queue) + Enqueued(subs)
  {
    resps := [];
    var k := 0;
    while k < |subs|
      invariant 0 <= k <= |subs| && |resps| == k
      invariant forall i :: 0 <= i < k ==> resps[i] == Reply(subs[i])
      invariant ch.queue == old(ch.queue) + Enqueued(subs[..k])
    {
      var resp := HandleSubmit(ch, subs[k]);
      EnqueuedAppend(subs[..k], subs[k]);
      assert subs[..k + 1] == subs[..k] + [subs[k]];
      resps := resps + [resp];
      k := k + 1;
    }
    assert subs[..k] == subs;
  }

  /** When every submission is accepted, the channel receives exactly their
      records, one per submission, in the same order. */
  lemma {:induction false} AllAcceptedAllEnqueued(subs: seq<Submission>)
    requires forall i :: 0 <= i < |subs| ==> Accepts(subs[i])
    ensures |Enqueued(subs)| == |subs|
    ensures forall i :: 0 <= i < |subs| ==> Some(Enqueued(subs)[i]) == subs[i].decoded
    decreases |subs|
  {
    if subs != [] {
      var init := subs[..|subs| - 1];
      forall i | 0 <= i < |init| ensures Accepts(init[i]) {
        assert init[i] == subs[i];
      }
      AllAcceptedAllEnqueued(init);
    }
  }

  /** The channel receives one record per accepted submission and none for a
      rejected one. */
  lemma {:induction false} EnqueuedCountsAccepted(subs: seq<Submission>)
    ensures |Enqueued(subs)| == |set i | 0 <= i < |subs| && Accepts(subs[i])|
    decreases |subs|
  {
    if subs != [] {
      var n := |subs| - 1;
      var init := subs[..n];
      EnqueuedCountsAccepted(init);
      var before := set i | 0 <= i < n && Accepts(init[i]);
      var all := set i | 0 <= i < |subs| && Accepts(subs[i]);
      assert before == set i | 0 <= i < n && Accepts(subs[i]);
      if Accepts(subs[n]) {
        assert all == before + {n};
      } else {
        assert all == before;
      }
    }
  }
}
