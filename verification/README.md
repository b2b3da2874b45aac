# Verification of the Prebid Cache write and read paths

A Dafny model of Prebid Cache, a service that stores XML and JSON payloads under UUIDs (`POST /cache`) and serves
them back (`GET /cache?uuid=`), with proofs of what its concurrency, its decorators, its metrics, its shutdown and
its metric preloading promise. `dafny verify dfyconfig.toml` checks everything.

## How the project is organised

* `Basics`, `Errors`, `Store`: byte strings, error types and status codes, and the plain write-once map that serves
  as the reference for every backend.
* `JsonString`, `PutObjects`, `Responses`, `Ttl`: the pure parts of the code. JSON string literals and their
  decoding, the formatting of one element, the choice of a response, and the time-to-live limits with Go's
  fixed-width conversions.
* `Metrics`, `Backends`: the recorder, the in-memory backend, a remote service that may fail any call, and the
  decorators, as objects with methods; the stack that `DecorateBackend` builds is proved to behave as the write-once
  map.
* `PutWorker`, `WriteOnce`, `Machine`, `MachineInv`, `MachineTheorems`, `MachineMetrics`, `MachineCounts`,
  `MachinePools`, `MachineProgress`, `MachineBatch`: the server as a transition system. A state holds a store, any number
  of POSTs with one worker per element and a wait group, any number of GETs, the pools and the metric counters. A run is
  any interleaving of their atomic steps, starting from a store with any contents.
* `Batch`, `BatchMetrics`: one POST on its own, compared with storing its elements one after the other, and what it
  samples.
* `GetHandler`, `PutHandler`, `EndToEnd`: the handlers as imperative code over pooled objects, slots, a wait group
  and a decorated backend, under a scheduler that picks any goroutine that can go on, and both routers over one
  shared backend.
* `Shutdown`: the goroutines of `wait`, `sendSignal` and `shutdownAfterSignals` over unbuffered channels.
* `Labels`: the recursion that registers every combination of label values.

The functions `PutWorker.Advance` and `Machine.Apply` are the transition functions for `put` and for the rest of a
request. `PutHandler.Step` is the imperative code for one step of `put`, and its contract ties it to
`PutWorker.Advance`. The contracts of the backend methods speak of the decoded contents of the base store, and
`Backend.SimulatesWriteOnceMap` shows that those behave as the write-once map that the transition system uses.

## Where the code and its documentation differ

* The repository's own `README.md:55` says that no value of a batch with an invalid element is retrievable. The code
  stores the valid ones: `Batch.BatchesAreNotAllOrNothing` gives a batch, and `Batch.LeavesNoTraceIff` says exactly
  when a batch leaves nothing behind.
* `backends/config/config.go:75-82` says that smaller limits of the backend take precedence. With
  `max_ttl_seconds` zero they do not: `Ttl.BackendLimitBypassed` gives an example, and `Ttl.BackendLimitBinds` the exact
  condition. A Redis limit that overflows 64 bits is the one other exception to "the smaller limit wins":
  `Ttl.OverflowLowersTheCap` and `Ttl.CapIsMinimumIff`.
* The comment on `processPutRequest` (`endpoints/put.go:228-230`) says that it exits after the first error. It waits
  for every element; the error it returns is that of the lowest index, not of the first to fail.

## Model

| member | source | states |
|---|---|---|
| PutWorker.AdvanceKeepsWorkerInv | endpoints/put.go:287-329 | At every program point of `put`, under any store contents and any failure of a remote store, the slot holds only what that point allows; at the end an error is a PBCError, a UUID without error means that this element's own write was accepted, and over a store that does not fail the slot is a function of the element and of whether its write won |
| PutWorker.ElementMeaning | endpoints/put.go:287-329 | In terms of the request alone: the key is the client's if that is allowed and given and a generated one otherwise; an element reaches the store exactly if it is well-formed, has a key that is not blank and its type and payload together are within the limit; it then stores those; otherwise the error is a 500 for a key that could not be generated and else a 400 |
| PutWorker.AnswerMeaning | endpoints/put.go:318-327 | A record that exists empties the UUID without an error; a bad size, a missed deadline and any other backend failure become errors with status 400, 597 and 500 |
| WriteOnce.ClaimStepKeepsStore | backends/memory.go:31-42 | A guarded write by one of many writers keeps the store equal to its starting contents plus exactly one writer's value for each new key, and never changes an entry |
| WriteOnce.StoreStep | endpoints/put.go:287-329 | Every step of every worker of every request keeps that property: starting entries are kept, each accepted write is still there, no two accepted writes share a key, each new entry has a writer, and (without remote failures) a key that was tried is present |
| WriteOnce.SingleWinner | endpoints/put.go:318-327 | For a key absent at the start that some worker has tried to store there is exactly one winner: its value is stored, its settled slot carries the key without error, and every other settled contender has an empty UUID and no error |
| MachineTheorems.SingleWinnerForever | endpoints/put.go:263-329 | In every interleaving of any number of POSTs that winner is unique and stays the winner in every later state of the run |
| MachineInv.RequestsStep | endpoints/put.go:231-282 | Every step of any request keeps each request's workers in a block of their own, in the phase the request is in, with the wait group equal to the number of unfinished ones |
| MachineInv.WorkersStep | endpoints/put.go:287-329 | Every step of the system keeps every worker's local property and the store property, and only extends the store |
| MachineInv.GetsStep | endpoints/get.go:47-83 | Every step keeps each GET's intermediate result true of the store it was read from, although the store grows meanwhile |
| MachineInv.InvHolds | endpoints/put.go:231-282 | All of this holds in every state of every run |
| MachineTheorems.JoinCorrect | endpoints/put.go:263-282 | In every reachable state the wait group equals the number of unfinished workers of that request and is not negative; at zero all are done; an answered request has no unfinished worker |
| MachineTheorems.FirstErrorIsLowest | endpoints/put.go:274-281 | The scan finds nothing exactly when no slot has an error, and otherwise the error of the lowest failing index |
| MachineTheorems.PutErrorsArePbc | endpoints/put.go:202-215 | Every error a POST answers with is a PBCError with its own type's status, so the fallback branch of the handler is never taken, even over a remote store that fails with any error |
| MachineTheorems.ErrorIsScheduleIndependent | endpoints/put.go:263-282 | Over a store that does not fail, whether and with which error a POST answers is a function of its input alone: no schedule, no other request and no store contents change it |
| MachineTheorems.RejectionMeaning | endpoints/put.go:77-105 | In terms of the body: a request is turned away without a worker exactly if the body does not decode, or decodes to more elements than allowed, and then with a 400 |
| MachineTheorems.ExpectedErrorMeaning | endpoints/put.go:231-282 | In terms of the body: over a store that does not fail a POST calls for no error exactly if the body decodes, has no more elements than allowed, every element is sound and the response can be marshalled; otherwise the status is that of the first unsound element, 500 only for a key that could not be generated or a response that could not be marshalled |
| MachineTheorems.RunIsLater | endpoints/put.go:287-329 | Along every run the store only grows, and a settled slot never changes again |
| MachineTheorems.AnsweredElements | endpoints/put.go:240-255 | In every run a successful answer has one UUID for each element of the body, in order; one that is not empty is the key that the element named or had generated and leads to its type and payload; over a store that does not fail an empty one stands for a record that was there or a blank key |
| MachineTheorems.PublishThenRead | endpoints/get.go:47-113 | Every GET that arrives after a POST answered with a UUID for element i of its body, in every continuation with any further requests, is served that element's content type and exact payload; a remote store may fail the read but never serves anything else |
| MachineTheorems.EntriesComeFromElements | endpoints/put.go:287-329 | From an empty store, every entry is the formatted value of exactly one element that asked for that key |
| MachineTheorems.StoredValuesAreWellFormed | endpoints/put.go:127-143 | From an empty store, every entry decodes, starts with exactly one of `xml` and `json`, has at least three bytes and, with a positive limit, no more than the limit |
| MachineTheorems.Provenance | endpoints/get.go:47-113 | From an empty store, every 200 returns the type and payload of exactly one element that was put under that key |
| MachineTheorems.ReadsAgree | endpoints/get.go:47-113 | Any two 200 answers for one key, at whatever times, are identical |
| MachineTheorems.GetNeverFails | endpoints/get.go:87-113 | From an empty store that does not fail a GET answers 200, 400 or 404 and never an unknown type or a decoding error; 400 exactly when it names no UUID; a UUID of the wrong length is a 404 unless clients may choose keys |
| MachineTheorems.ServedMeaning | endpoints/get.go:47-113 | In every run and over any store: 400 without a UUID, 404 for one of the wrong length or a missing record, the stored bytes under their type, 500 for a value of no known type or one that does not decode, and the status of a failed remote read |
| MachineProgress.PostCanGo | endpoints/put.go:231-282 | In every state that keeps the invariant a POST that has not been answered has an enabled step of its own, whatever the other requests do |
| MachineProgress.NobodyIsStuck | endpoints/put.go:263-282 | A reachable state in which nothing but arrivals and the dropping of idle objects can happen has answered every POST and served every GET: there is no deadlock on a wait group, a pool or the store |
| MachineProgress.OwnStepDecreases | endpoints/put.go:231-282 | Every step of a POST, launches and worker steps with faults included, strictly decreases the number of steps it has left |
| MachineProgress.WorkNeverGrows | endpoints/put.go:231-282 | Along every run, whatever other requests do, the number of steps a POST has left never grows |
| MachineProgress.CanBeAnswered | endpoints/put.go:186-226 | From every reachable state any POST can be brought to its answer within the number of steps it has left |
| MachineProgress.CanBeServed | endpoints/get.go:47-83 | From every reachable state any GET can be served within four steps |
| MachineBatch.AtRest | endpoints/put.go:263-282 | However many POSTs interleaved: once all are answered, their elements together form one finished batch, every one of them run to its end |
| MachineBatch.StoreAtRest | endpoints/put.go:263-329 | So over a store that does not fail the keys added are exactly those the elements of all POSTs reach it with and, if those are pairwise distinct, the store is that of storing all elements one after the other |
| MachineBatch.LonePost | endpoints/put.go:263-282 | A POST that had the server to itself, apart from GETs, ends as a finished batch of its own elements, or as the rejection its input calls for |
| MachineBatch.LonePostIsSequential | endpoints/put.go:263-329 | Under every schedule such a POST adds exactly the keys its elements reach the store with and, with distinct keys, ends with the store and the UUIDs of the left-to-right loop |
| MachineMetrics.TallyHolds | endpoints/put.go:186-226 | In every reachable state each counter is the sum of what the individual requests and workers have sampled so far |
| MachineMetrics.PutAccounting | endpoints/put.go:186-226 | PutTotal = PutBadRequest + PutError + PutDuration + POSTs in flight, in every reachable state |
| MachineMetrics.ServedOnce | endpoints/get.go:117-142 | Since every error a GET can meet has a status of at least 400, a served GET bumps exactly one of duration, bad request and error |
| MachineMetrics.GetAccounting | endpoints/get.go:47-154 | GetTotal = GetError + GetBadRequest + GetDuration + GETs in flight, in every reachable state, also when a remote store fails reads |
| MachineMetrics.BackendGetAccounting | backends/decorators/metrics.go:19-40 | GetBackendTotal = GetBackendDuration + GetBackendError + reads in progress, in every reachable state |
| MachineMetrics.BackendPutAccounting | backends/decorators/metrics.go:42-63 | Xml and Json equal the numbers of well-formed elements of each type that got a key and went to the backend; Invalid stays 0; Xml + Json = TTL samples; size samples = durations + errors; the difference of TTL and size samples is the number of writes in progress |
| MachineCounts.PostCounts | endpoints/put.go:186-226 | In every reachable state PutTotal is the number of POSTs, PutDuration of those that succeeded, PutBadRequest of those answered with a 4xx error and PutError of those answered with any other |
| MachineCounts.GetCounts | endpoints/get.go:47-154 | In every reachable state the total, duration, bad request and error counters are the numbers of GETs and of those served below 400, in the 400s and from 500 on; the backend's counters are the numbers of reads started, found and failed, and of those failed for a missing record or key |
| MachineCounts.ElementCounts | endpoints/put.go:287-329 | In every reachable state PutKeyProvided is the number of well-formed elements that have taken an allowed key of their own; over a store that does not fail PutBackendDuration is the number of accepted writes that are settled |
| MachinePools.PoolHolds | endpoints/put.go:88-104 | In every reachable state every request object and every response object ever made is in exactly one place: idle in its pool, dropped by the pool, or in the hands of one request; so none is lost, shared, given back twice or given back to the wrong pool |
| MachinePools.PoolOwnership | endpoints/put.go:231-256 | An answered request holds nothing, and a request with an unfinished worker still holds exactly its request object and its response object, which nobody else holds and no pool hands out |
| Batch.KeysAdded | endpoints/put.go:263-329 | Whatever the schedule, over a store that does not fail a batch adds exactly the keys its elements reach the store with |
| Batch.NewEntriesAreSupplied | endpoints/put.go:263-329 | Whatever the schedule and whatever a remote store fails, a batch changes no entry and adds only values of elements that asked for that key |
| Batch.ErrorFound | endpoints/put.go:274-281 | Whatever the schedule, the error found is that of the first element that has one by itself |
| Batch.SlotIsPublished | endpoints/put.go:314-328 | A slot with a UUID and no error is the promise that the element's value is stored under it, also over a store that fails other calls |
| Batch.ScheduleIndependence | endpoints/put.go:263-329 | With pairwise distinct keys every schedule ends in the store and the slots of the sequential left-to-right loop |
| Batch.LeavesNoTraceIff | endpoints/put.go:268-281 | A batch leaves the store unchanged if and only if none of its elements reaches it with a new key, whether or not another element fails |
| Batch.BatchesAreNotAllOrNothing | endpoints/put.go:268-281 | A concrete batch that under every schedule answers with an error and stores its valid element |
| Batch.SplitBatchFinishes | endpoints/put.go:263-282 | That batch does finish: the slots and the store it ends with |
| BatchMetrics.StepTakes | endpoints/put.go:287-329 | The samples a worker has taken grow by exactly what each of its steps samples |
| BatchMetrics.SumTakenIsTally | endpoints/put.go:263-329 | What the workers of a finished batch have sampled is, counter by counter, what the transition system tallies for them |
| BatchMetrics.EntriesAreWrites | endpoints/put.go:314-328 | A batch adds exactly one entry for each write that was accepted |
| BatchMetrics.BatchSamples | backends/decorators/metrics.go:42-63 | Whatever the schedule, a batch samples Xml and Json once for each well-formed element of that type with a key, Invalid never, TTL and size once per call, duration or error once per call, and PutKeyProvided once for each well-formed element with an allowed key of its own; over a store that does not fail the durations are the new entries |
| PutHandler.PutHandler.Step | endpoints/put.go:287-329 | One step of the goroutine of element i, over the in-memory store or a failing remote one, writes to its own program counter and slot only, changes slot, counter and (decoded) store as the transition function says for some fault the store allows, records with a new entry the TTL that the stack makes of the element's own, and takes exactly the samples of that step in every engine |
| PutHandler.PutHandler.TtlStep | endpoints/put.go:318 | Every step of every goroutine keeps this: each entry that an element of the batch has written carries the TTL that the stack makes of that element's `ttlseconds`, and the TTLs of earlier entries are untouched |
| PutHandler.PutHandler.Turn | endpoints/put.go:263-271 | The next launch or any step of any launched goroutine keeps the invariants of the batch, and there is always one to take while the wait group is not zero |
| PutHandler.PutHandler.Schedule | endpoints/put.go:263-271 | For every order of launches and steps and every pattern of faults the loop ends, with all goroutines done, the wait group at zero, the store property intact, each new entry's TTL that of its element, and the workers' samples in every engine |
| PutHandler.FirstFailure | endpoints/put.go:273-281 | The scanning loop returns the error of the lowest failing slot |
| PutHandler.PutHandler.PutElements | endpoints/put.go:263-282 | Under every schedule and every fault the slots are those of a finished batch and the error is the first among them; over a store that does not fail it is that of the first element that has one by itself |
| PutHandler.PutHandler.Unmarshal | endpoints/put.go:90-92 | A body without `puts` leaves the field as it was, which is why the handler empties it first; a malformed body may leave anything |
| PutHandler.PutHandler.ParseRequest | endpoints/put.go:77-105 | Whatever earlier requests left in the pooled object, it holds exactly the elements of a decoded body, none if the body names none; a body that does not decode and one with too many elements are refused with their errors; on failure the object is back in the pool, on success it is out of it |
| PutHandler.PutHandler.ProcessPutRequest | endpoints/put.go:231-256 | The answer is what the slots of a finished batch call for or the rejection of the input, over a store that does not fail an error exactly when the input calls for it; both pools get back every object taken, exactly once, on every path; every engine takes the workers' samples |
| PutHandler.PutHandler.ReplyPromises | endpoints/put.go:263-329 | A finished batch changes no entry and adds only what its elements supply, every UUID answered is published, and every error is a PBCError; over a store that does not fail the keys added are exactly those wanted and, with distinct keys, answer and store are those of the sequential loop |
| PutHandler.PutHandler.BatchMeaning | endpoints/put.go:231-329 | In terms of the body: a successful reply has one UUID per element, in order; each that is not empty leads to an entry with that element's key, type, payload and effective TTL; every new entry is such an element's; earlier entries keep their value and TTL |
| PutHandler.ReplyMeaning | endpoints/put.go:197-225 | A reply is the UUIDs, or the status of a PBCError, or 500 for any other error |
| PutHandler.PutHandler.Answer | endpoints/put.go:197-225 | One reply and, in every engine, one sample chosen by it: duration for success, bad request for a status in the 400s, error for any other |
| PutHandler.PutHandler.Handle | endpoints/put.go:186-226 | Exactly one reply per request, the one the finished batch calls for and, over a store that does not fail, with the status the input calls for; every engine takes exactly the total, one outcome by the status of the reply, and the workers' samples; each new entry has its element's TTL |
| PutHandler.Pool.Get | endpoints/put.go:56-68 | Hands out an object that was given back and neither handed out since nor dropped, or calls for a new one; idle objects may be dropped at any time |
| PutHandler.Pool.Put | endpoints/put.go:92-101 | Takes an object back; giving it back twice is an error |
| PutHandler.ExpectedErrorIsPbc | utils/errors.go:71-94 | The error an input calls for is always a PBCError |
| GetHandler.GetHandler.Handle | endpoints/get.go:47-83 | Sends exactly one response, the one that the stored value, the missing key, the rejected UUID or the failure of a remote store calls for, leaves the store alone, and in every engine takes exactly one total, one outcome by the status sent and, if the store was read, the two or three samples of that read |
| GetHandler.GetHandler.LookedMeaning | endpoints/get.go:58-82 | That response in terms of the bytes in the base store: 400 without a UUID, 404 for one of the wrong length or under no key, the decoded bytes under their type, 500 if they do not decode or have no known type, and the status of a failed read |
| GetHandler.OneOutcome | endpoints/get.go:128-142 | Every error a GET can meet has a status of at least 400, so the handler's outcome is exactly one of duration, bad request and error |
| GetHandler.GetHandler.Respond | endpoints/get.go:69-82 | From the backend's answer on: one response, and the sample that goes with it |
| GetHandler.GetHandler.HandleException | endpoints/get.go:117-154 | An error response with the PBCError's status, or 500 for any other error, and the counter for that status |
| EndToEnd.NewServer | main.go:23-26 | Under every configuration the public and admin routers share one store behind one stack, empty and new unless it is a remote service; the stack compresses exactly if that is configured and hands on the effective TTL of the configured limits; the admin router accepts writes, the public one exactly when allowed, with the configured limits on number and size and the configured choice about keys |
| EndToEnd.NewRouter | endpoints/routing/handler.go:25-46 | A router's handlers share the backend, the metrics and the choice about client keys; the POST handler, if there is one, has the configured limits |
| EndToEnd.IssuedUuidParses | endpoints/get.go:87-98 | Every key a POST can issue, generated or chosen by the client, passes the length filter of a GET under the same setting |
| EndToEnd.PublishedIsServed | endpoints/get.go:69-113 | Through the whole stack of decorators and any later growth of the base store, the response for a published UUID is its element's type and payload, unless a remote service fails the read, which is answered with that error |
| EndToEnd.Post | endpoints/put.go:186-329 | The whole POST in terms of its body: 400 if it does not decode or has too many elements; over a store that does not fail, success exactly if every element is sound and the response can be marshalled; one UUID per element, leading to that element's entry with its effective TTL; no entry changed and every new one an element's; pools and engines stay in step |
| EndToEnd.PostMeaning | endpoints/put.go:231-282 | The same of any finished batch and the reply it calls for |
| EndToEnd.PostThenGet | main.go:24-26 | A POST through one router, any other POST through another, then a GET: if the first returned a UUID for element i of its body, the GET sends exactly that element's type and payload (or the error of a failed remote read), and all engines keep equal counts |
| Backends.MemoryBackend.Get | backends/memory.go:18-28 | The stored value, or KEY_NOT_FOUND |
| Backends.MemoryBackend.Put | backends/memory.go:31-42 | Stores the value, and the TTL that came with it in the record of TTLs, if the key is absent; otherwise RECORD_EXISTS and no change |
| Backends.Backend.DecodesEncoded | compression/snappy.go:22-38 | Through any stack of decorators, what a read decodes from a stored value is the value that was written |
| Backends.Backend.SimulatesWriteOnceMap | backends/config/config.go:24-36 | Under the abstraction that decodes every stored value, a write on any stack, with any fault of a remote base, has the effect of that write on the plain write-once map |
| Backends.Backend.Get | backends/backend.go:9-12 | The decoded value, or the error of the layer that finds one, or the failure of a remote base; the base store is left alone; each metered layer samples the call in every engine |
| Backends.Backend.Put | backends/backend.go:9-12 | The first refusal of any layer, else the base's verdict or a remote base's fault; at most one new encoded entry, recorded with the clamped TTL, exactly if the write is accepted; each metered layer samples the call in every engine |
| Backends.Backend.RemoteGet | backends/backend.go:9-12 | A remote service answers as a set-if-absent table would, or fails with any error |
| Backends.Backend.RemotePut | backends/backend.go:9-12 | A remote service does what a set-if-absent table would, or reports any error, whether or not the write arrived |
| Backends.Backend.SnappyGet | compression/snappy.go:26-38 | Errors of the delegate pass through; a value that does not decode is an error; otherwise the decoded value |
| Backends.Backend.SizeCappedPut | backends/decorators/size_limit.go:28-38 | An empty or oversized value is refused without a call to the delegate; any other call is the delegate's |
| Backends.Backend.MeteredGet | backends/decorators/metrics.go:19-40 | The delegate's result unchanged, with the samples that result calls for in every engine |
| Backends.Backend.MeteredPut | backends/decorators/metrics.go:42-63 | The delegate's error unchanged, with the samples that value and error call for in every engine |
| Backends.Backend.TtlLimitedPut | backends/decorators/limit_ttls.go:32-39 | The delegate's result unchanged; a new entry comes with the clamped TTL |
| Backends.PutIsSilent | backends/decorators/metrics.go:42-63 | No write on any stack bumps a counter of the handlers |
| Backends.GetIsSilent | backends/decorators/metrics.go:19-40 | No read on any stack bumps a counter of the handlers |
| Backends.DecoratedStack | backends/config/config.go:24-36 | Under every configuration and over either base the built stack stores what the codec makes of a value exactly if snappy is configured and the value itself if not, and reads it back so; it guards the uncompressed size and nothing else, hands the base the effective TTL, and takes exactly the samples of one call in every engine, for writes and for reads |
| Backends.DecoratedStackIsWriteOnceMap | backends/config/config.go:24-36 | And so every write on it has the error and the effect of the write on the plain write-once map with that guard |
| Backends.WriteSamples | backends/decorators/metrics.go:42-63 | A write counts once by its first bytes as xml, json or invalid, with one TTL sample, one size sample, and a duration if it was accepted or else an error, and nothing else |
| Backends.ReadSamples | backends/decorators/metrics.go:19-40 | A read counts once, with a duration if it found a value or else an error, a missing record or key also as such, and nothing else |
| Store.WriteRules | backends/memory.go:31-42 | The reference map: a refused write changes nothing; any other stores its value under a free key, unless a remote service loses it, and changes nothing under a taken one; the error is the refusal, else the service's, else RECORD_EXISTS for a taken key |
| Store.ReadRules | backends/memory.go:18-28 | The reference map: the value, KEY_NOT_FOUND, or an error for a value that does not decode |
| Metrics.Recorder.Record | metrics/core.go:17-141 | Every engine of the recorder takes exactly one sample of that metric |
| Errors.NewPBCError | utils/errors.go:31-94 | Every PBCError has status 400, 404, 500 or 597, with exactly the types that get a 4xx, a 404 or a 597 |
| PutObjects.ParsePutObject | endpoints/put.go:114-144 | Every refusal of an element is a PBCError with status 400 |
| PutObjects.StoredForm | endpoints/put.go:114-144 | An element is accepted exactly when it has a payload; its stored form is its type followed by its payload and cannot be mistaken for the other type |
| PutObjects.JsonElement | endpoints/put.go:137-138 | The payload of an element of type `json` is its raw value |
| PutObjects.XmlElement | endpoints/put.go:127-136 | For every text and every legal escaping of it under section 7 of RFC 8259, the payload of the XML element is exactly that text |
| PutObjects.XmlAcceptedIff | endpoints/put.go:147-158 | An XML value is accepted if and only if it is a quoted literal of ordinary bytes, short escapes and `\u` escapes |
| PutObjects.RefusedFor | endpoints/put.go:117-154 | Each error type a refused element can get, with the exact inputs that get it: a missing value, else a negative TTL, else an unknown type, else XML that is no string literal |
| PutObjects.ClassifyBackendError | endpoints/put.go:160-173 | Every backend failure becomes a PBCError: 400 for a bad size, 597 for a missed deadline, 500 otherwise |
| JsonString.DecodeRuneInvertsUtf8 | endpoints/put.go:152-155 | The library decoder's code point and width for the UTF-8 form of every code point, whatever follows |
| JsonString.DecodeRuneReadsUtf8 | endpoints/put.go:152-155 | The converse: what the library decoder takes for a code point is exactly that code point's UTF-8 form, so overlong and surrogate forms are never taken for one |
| JsonString.Utf8Form | endpoints/put.go:152-155 | The UTF-8 form used throughout is that of section 3 of RFC 3629: length by range, marker bits, payload bits in order |
| JsonString.LoneSurrogate | endpoints/put.go:152-155 | An escaped surrogate that is no half of a pair decodes to U+FFFD, and decoding goes on right after it |
| JsonString.IllFormedByte | endpoints/put.go:152-155 | A byte that starts the UTF-8 form of no code point decodes to U+FFFD, and decoding goes on with the next byte |
| JsonString.UnescapeRoundTrip | endpoints/put.go:152-155 | Every legal escaping of every text, including surrogate pairs, scans and decodes to that text |
| JsonString.DecodesToText | endpoints/put.go:152-155 | Whatever is scanned, ill-formed bytes and lone surrogates included, decodes to the UTF-8 form of some text |
| JsonString.ScanAcceptsTokens | endpoints/put.go:152-155 | The scanner accepts every sequence of ordinary bytes, short escapes and `\u` escapes |
| JsonString.TokensOfScan | endpoints/put.go:152-155 | The scanner accepts nothing else |
| Responses.FormatThenServe | endpoints/get.go:102-113 | Serving what was stored for an element restores its type as the content type and its payload as the body |
| Responses.AnswerIs | endpoints/get.go:69-154 | Found data is served with 200 under the type its first bytes name, without them; data of no known type and an error that is no PBCError are a 500, any PBCError has its own status |
| Responses.UuidParsesIff | endpoints/get.go:87-98 | A UUID is accepted exactly if it is there and has 36 bytes or clients may choose keys; otherwise the status is 400 if it is missing and else 404 |
| Responses.JsonEcho | endpoints/put.go:137-138 | The reader of a `json` element gets 200, `application/json` and its raw value |
| Responses.XmlEcho | endpoints/put.go:128-136 | The reader of an `xml` element gets 200, `application/xml` and the UTF-8 form of the text that its string literal spells |
| Ttl.TtlBound | backends/decorators/limit_ttls.go:12-39 | The TTL handed on lies between 1 and the cap, is the requested one exactly when that is in range, and the cap otherwise |
| Ttl.CapIsMinimumIff | backends/config/config.go:83-107 | With a positive request limit the cap is the smaller of it and the backend's own limit, exactly unless the Redis product overflows to a smaller number |
| Ttl.NoRequestLimitIsAnHour | backends/decorators/limit_ttls.go:12-21 | Without a request limit the cap is 3600 seconds, whatever the backend |
| Ttl.CapsByBackend | backends/config/config.go:83-107 | With a request limit the cap is the smaller of it and the backend's: 2400 seconds for Cassandra, the configured seconds for Aerospike and minutes for Redis if positive (and short of overflow), none for the others |
| Ttl.OverflowLowersTheCap | backends/config/config.go:102-103 | A concrete overflow that lowers the cap |
| Ttl.BackendLimitBinds | backends/config/config.go:83-107 | The backend's own limit binds every request if and only if a request limit is configured or that limit is at least an hour |
| Ttl.BackendLimitBypassed | backends/config/config.go:87-92 | With no request limit, a request gets 3000 seconds past Cassandra's 2400 |
| Ttl.AdaptersPreserveIff | backends/memcache.go:38 | A TTL survives the int32, uint32, millisecond and nanosecond conversions of the adapters if and only if it is below 2^31 |
| Ttl.AdaptersPreserveEveryTtl | backends/aerospike.go:179 | Every request's TTL survives the conversions if and only if the effective cap is below 2^31 |
| Shutdown.InvStep | server/server.go:136-164 | Every step, under any wiring of channels, keeps deliveries and receptions balanced on each channel, the done count equal to the finished servers, and one signal for all |
| Shutdown.ReturnsAfterShutdowns | server/server.go:136-160 | When `wait` returns, as many servers have finished as it has channels, and every server that heard a signal heard the one that the operating system sent; with one channel per server, for every server there is an earlier step in which a running `Shutdown` on it returned |
| Shutdown.ReportsAfterShutdown | server/server.go:148-160 | A server that reports, or has reported, was shutting down in an earlier state of the run and reported in the one after |
| Shutdown.DeliveredOnce | server/server.go:148-164 | On each channel as many signals have been sent as servers have received one |
| Shutdown.ReceivesAtMostOnce | server/server.go:148-160 | A server that has received the signal never receives another |
| Shutdown.MeasureDecreases | server/server.go:136-164 | A measure of unsent signals, running shutdowns and undelivered done tokens strictly decreases at every step |
| Shutdown.NeverStuck | server/server.go:136-164 | With channels that pair up, every reachable state after the signal and before the return has an enabled step |
| Shutdown.ShutdownEnds | server/server.go:136-164 | Every run is bounded by the measure, and one that cannot go on has returned |
| Shutdown.ReturnsIffPaired | server/server.go:136-164 | With as many channels as servers, `wait` can return if and only if the channels it is given are, as a multiset, those the servers listen to |
| Shutdown.ListenIsPaired | server/server.go:27-73 | The two wirings in `Listen` are of that kind |
| Labels.StaleEntriesIrrelevant | metrics/prometheus/preload.go:38-53 | Entries that earlier branches leave in the shared map under keys still to be assigned do not change what is emitted |
| Labels.ProductMultiplicity | metrics/prometheus/preload.go:38-53 | Each assignment is emitted as often as the value lists can spell it, and no other assignment is |
| Labels.EmitsCartesianProduct | metrics/prometheus/preload.go:22-53 | Whatever the order of the keys, the multiset emitted is the Cartesian product of the value lists |
| Labels.EmitsAsManyAsTheLengthsSay | metrics/prometheus/preload.go:22-53 | The number emitted is the product of the lengths |
| Labels.RegisteredIff | metrics/prometheus/preload.go:22-53 | An assignment is registered if and only if it gives each label a value from that label's list |
| Labels.RegisteredOnce | metrics/prometheus/preload.go:22-53 | With no repeats in the lists, no assignment is registered twice |
| Labels.CloneLabels | metrics/prometheus/preload.go:55-61 | A new map object with the same entries |
| Labels.RegisterRecursive | metrics/prometheus/preload.go:38-53 | Despite the shared, mutated map, the callback sees exactly the extensions of the map as it was on entry, in order; afterwards the map differs from it only under the remaining keys |
| Labels.Entries | metrics/prometheus/preload.go:27-32 | Each entry of the map once, in any order |
| Labels.RegisterLabelPermutations | metrics/prometheus/preload.go:22-36 | For every iteration order, each assignment is registered exactly as often as the lists can spell it; an empty map registers nothing |

## Left out

- Error messages: a PBCError is its type and status; the texts, and the bodies of error responses, are not modelled.
- HTTP plumbing, CORS, rate limiting, the index, status and version endpoints, and panics: a request arrives as a parsed body or UUID and a response is its status, content type and body.
- Parsing of the whole POST body and marshalling of the response: library code. The body arrives as unreadable, malformed or decoded elements; marshalling may fail or not. Only the string literals inside XML values are decoded in detail.
- Snappy's algorithm: the law that decoding undoes encoding is the only assumption.
- UUID generation: an oracle whose answers are 36 bytes long, as section 3 of RFC 4122 says, or a failure. Uniqueness is not assumed.
- Clients of Aerospike, Cassandra, Memcache, Redis and Ignite: a remote store is set-if-absent, may fail any call with any error, and may have stored the value all the same. Expiry, eviction and the wire protocols are left out; only the TTL conversions are modelled.
- PutHandler.PutHandler.Schedule: goroutines are interleaved at the steps of PutWorker.Advance; the Go memory model and data races below that grain are not modelled.
- Backends.MemoryBackend.Put: the mutex is the atomicity of the method; its lock and unlock are not separate steps. The TTLs are a ghost record of what came with each entry: the in-memory store ignores them, and the transition system does not record them, the handlers do.
- MachinePools.PoolHolds: keeps one pool of requests and one of responses for all POST handlers. Runs with a pair of pools for each handler are runs of this model, so ownership carries over to them; to which handler an idle object belongs is not recorded.
- Metrics.Recorder.Record: stands for all the Record methods, which differ in the engine method they call; sample values such as durations and sizes are not modelled, nor are the Influx and Prometheus engines.
- MachineMetrics.BackendPutAccounting: samples taken next to each other by one goroutine, with no access to shared state between them, are one step.
- BatchMetrics.StepTakes: the imperative worker takes all samples of a backend call in one step, the transition system some before and some after it; they agree once the worker is past the call.
- Shutdown.ShutdownEnds: assumes that `Shutdown` returns within its context, and does not cover the early returns of `Listen` on a listener error.
- Logging, referer sampling, configuration loading and validation, and the connection counters of the listener: no property of the data they touch goes beyond one line of code.
