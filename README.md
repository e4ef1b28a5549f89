# Event ingestion service: verified model

The service accepts flat, abbreviated-key analytics events on `POST /submit`,
hands each decoded record over a channel to a single background worker, and
the worker remaps it into a structured record (descriptive field names, an
`attributes` mapping built from two positional slots and a `traits` mapping
built from three) and writes it to the log.

This project models, in Dafny:

- the two record shapes (`Records`);
- the transformation literal (`Transform.TransformRequest`), with the map
  literals built as successive map updates, so a later slot with the same key
  overwrites an earlier one and an empty key is kept like any other;
- a reference meaning for those literals: assigning an ordered list of
  (key, entry) slots one after the other (`Slots.Assign`), with the
  last-slot-wins and size results proved once, generically;
- the channel as a class whose `queue` field is a FIFO sequence
  (`HandOff.Channel`), and the `/submit` handler as a method over it
  (`HandOff.HandleSubmit`) with its method check, decode check and send;
- the worker loop as a method that drains the channel and appends one log
  entry per record (`Worker.RunWorker`), specified by `Worker.WorkerLog`.

Decoding the body and serialising the structured record are calls into
the JSON library. They are inputs here: the handler takes the decode outcome
as an `Option<OriginalRequest>`, and the worker takes a function
`marshals` that says whether serialising a given structured record succeeds.

Error replies go through `http.Error`, which writes the message followed by a
newline. The model therefore gives the 405 and 400 bodies as
`"Invalid request method\n"` and `"Invalid request body\n"`. The success body
`"Request received"` is written directly and has no newline.

## Model

| member | source | states |
|---|---|---|
| `Transform.TransformRequest` | project.go:99-118 | the nine scalar fields are copied (Event=Ev, EventType=Et, AppID=ID, UserID=Uid, MessageID=Mid, PageTitle=T, PageURL=P, BrowserLanguage=L, ScreenSize=Sc); the attribute keys are exactly {Atrk1, Atrk2} and the trait keys exactly {Uatrk1, Uatrk2, Uatrk3}, empty keys included |
| `Transform.MapsAreSlotAssignments` | project.go:109-117 | each map literal equals the in-order, last-write-wins assignment of its slots |
| `Transform.MappingSizes` | project.go:109-117 | the attribute mapping has 1 or 2 entries and the trait mapping 1 to 3; neither is ever empty |
| `Transform.AttributesBySlot` | project.go:109-112 | the attribute mapping has one entry iff Atrk1 == Atrk2, and two iff they differ; Atrk2 always maps to {Atrv2, Atrt2} (the later slot wins); with distinct keys Atrk1 maps to {Atrv1, Atrt1} |
| `Transform.TraitFromHighestSlot` | project.go:113-117 | every trait key maps to the entry of the highest-numbered slot that carries it (slot 3 over slot 2 over slot 1) |
| `Transform.TraitsBySlot` | project.go:113-117 | the trait mapping has three entries iff the three keys are pairwise distinct, and then each key maps to its own slot's value and type |
| `Slots.Assign` | project.go:109-117 | the assigned mapping's keys are exactly the slots' keys; it has at most one entry per slot and at least one when there is a slot |
| `Slots.LastSlotWins` | project.go:109-117 | a key maps to the entry of the last slot carrying it |
| `Slots.AssignSizeWhenDistinct` | project.go:109-117 | slots with pairwise distinct keys give one entry per slot |
| `Slots.AssignShrinksOnSharedKey` | project.go:109-117 | two slots sharing a key give fewer entries than slots |
| `Slots.AssignSizeIffDistinct` | project.go:109-117 | one entry per slot exactly when no two slots share a key |
| `HandOff.Channel.constructor` | project.go:66 | a new channel holds no records |
| `HandOff.Channel.Send` | project.go:85 | a sent record is queued behind every record already waiting |
| `HandOff.Channel.Receive` | project.go:97 | a receive yields the oldest waiting record and removes only it |
| `HandOff.HandleSubmit` | project.go:72-90 | the reply is `Reply` of the submission; a non-POST request gets 405 "Invalid request method\n" and a POST whose body failed to decode gets 400 "Invalid request body\n", both leaving the queue unchanged; only a POST that decoded appends exactly that record, once, and gets 200 "Request received" |
| `HandOff.Enqueued` | project.go:72-90 | a run of submissions hands at most one record per submission to the channel |
| `HandOff.HandleInOrder` | project.go:72-90 | handling requests one after another in arrival order gives one reply per request, the i-th being `Reply` of the i-th request (405 "Invalid request method\n", 400 "Invalid request body\n" or 200 "Request received"), so exactly the accepted ones get 200, and leaves the channel holding the waiting records followed by `Enqueued` of the requests |
| `HandOff.EnqueuedAppend` | project.go:72-90 | handling one more submission appends exactly what it hands off, after the earlier records |
| `HandOff.AllAcceptedAllEnqueued` | project.go:72-90 | when every submission is an accepted POST, the channel receives exactly their records, one each, in submission order |
| `HandOff.EnqueuedCountsAccepted` | project.go:72-90 | the number of queued records equals the number of accepted submissions |
| `Worker.Entry` | project.go:99-127 | a record yields a success entry iff serialising its transformed record succeeds, and that entry carries exactly `TransformRequest` of the record; otherwise it yields the error entry |
| `Worker.WorkerLog` | project.go:96-128 | the log has exactly one entry per record consumed |
| `Worker.RunWorker` | project.go:96-128 | the worker drains the channel and its log is exactly `WorkerLog` of the records that were queued: one entry per record in queue order, a serialisation failure giving one error entry and the loop going on |
| `Worker.WorkerLogSnoc` | project.go:97-128 | consuming one more record appends exactly that record's entry |
| `Worker.WorkerLogAt` | project.go:97-128 | log entry i is the entry of the i-th record consumed |
| `Worker.WorkerLogConcat` | project.go:97-128 | consuming two batches one after the other logs the first batch's entries, then the second's |
| `Worker.EntryIndependentOfQueue` | project.go:99-118 | the entry a record produces depends only on that record, not on the records queued before or after it |
| `Worker.EveryAcceptedSubmissionLogged` | project.go:72-128 | N accepted submissions whose transformed records all serialise give exactly N logged structured records, the i-th being the transformation of the i-th submission |

## Left out

- HTTP server setup, routing and listening on port 8081 (project.go:72, 92-93): network I/O. The handler is modelled from the point where it has a request method and a decode outcome.
- JSON decoding of the body (project.go:79): a library call, modelled as an abstract `Option<OriginalRequest>`. Missing keys decoding to "" is therefore not modelled.
- JSON serialisation (project.go:121): a library call, modelled as the abstract `marshals` predicate. For maps of string structs it cannot fail in practice, so the error entry is a modelled possibility only.
- The goroutine, the blocking of the unbuffered channel and concurrent handler instances (project.go:66, 69, 85): concurrency. The channel is one FIFO sequence, and interleaved handlers are modelled as submissions in arrival order.
- HandOff.Channel.Receive: a receive on an empty channel blocks in the source; the model receives only when a record is waiting.
- Worker.RunWorker: the source loop never ends, because the channel is never closed; the model runs it until the channel is empty. `WorkerLogConcat` shows that successive drains produce the same log as one drain of all records.
- Log line formatting and the startup log line (project.go:92, 123, 127): I/O. Log lines are the tagged entries of `Worker.LogEntry`, and the error text carried by a failed serialisation is not modelled.
- Response headers that `http.Error` sets (content type, nosniff): not part of the visible contract modelled here.
