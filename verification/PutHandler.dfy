/** endpoints/put.go: the POST handler, with its pools and its goroutines, over a decorated backend. */
module PutHandler {
  import opened Basics
  import opened Errors
  import opened Metrics
  import opened PutObjects
  import opened Responses
  import opened Store
  import opened Backends
  import opened WriteOnce
  import opened MachineInv
  import opened MachineTheorems
  import opened Batch
  import opened BatchMetrics
  import W = PutWorker
  import M = Machine

  // ---------- Pooled objects ----------

  class PutRequest {
    var puts: seq<PutObject>

    constructor ()
      ensures puts == []
    {
      puts := [];
    }
  }

  class PutResponse {
    var responses: array<W.Slot>

    constructor ()
      ensures fresh(responses) && responses.Length == 0
    {
      responses := new W.Slot[0];
    }
  }

  // sync.Pool: the objects given back and not handed out since, with whatever they last held. The garbage collector
  // may drop any of them at any time; a dropped object is never handed out.
  class Pool<T(==)> {
    var returned: set<T>
    var dropped: set<T>

    constructor ()
      ensures returned == {}
    {
      returned, dropped := {}, {};
    }

    // None calls for a new object.
    method Get() returns (obj: Option<T>)
      modifies this
      ensures obj.Some? ==> obj.value in old(returned)
      ensures returned == old(returned) - if obj.Some? then {obj.value} else {}
    {
      var lost: set<T>, recycle: bool := *, *;
      dropped := dropped + lost;
      var idle := returned - dropped;
      obj := None;
      if recycle && idle != {} {
        var o :| o in idle;
        returned := returned - {o};
        obj := Some(o);
      }
    }

    // The precondition makes a second return of the same object an error.
    method Put(obj: T)
      requires obj !in returned
      modifies this
      ensures returned == old(returned) + {obj}
    {
      returned := returned + {obj};
    }
  }

  // ---------- Replies ----------

  datatype Reply = Stored(uuids: seq<Bytes>) | Refused(status: int)

  class ReplyWriter {
    var sent: seq<Reply>

    constructor ()
      ensures sent == []
    {
      sent := [];
    }

    method Send(reply: Reply)
      modifies this`sent
      ensures sent == old(sent) + [reply]
    {
      sent := sent + [reply];
    }
  }

  // ---------- Specification ----------

  // The workers a request gets to start.
  function Elements(cfg: W.Config, input: M.Input): seq<W.Worker> {
    if Rejection(cfg, input).Some? then [] else M.NewWorkers(input)
  }

  function Uuids(slots: seq<W.Slot>): (us: seq<Bytes>)
    ensures |us| == |slots| && forall i :: 0 <= i < |slots| ==> us[i] == slots[i].uuid
  {
    seq(|slots|, i requires 0 <= i < |slots| => slots[i].uuid)
  }

  // What processPutRequest comes to, given how its workers ended.
  function Outcome(cfg: W.Config, input: M.Input, ws: seq<W.Worker>): Result<seq<Bytes>, GoError> {
    if Rejection(cfg, input).Some? then Err(Rejection(cfg, input).value) else M.OutcomeOf(input, ws)
  }

  // The result is an error exactly when the input itself calls for one, and then it is that error.
  predicate IsExpected(cfg: W.Config, input: M.Input, r: Result<seq<Bytes>, GoError>) {
    match ExpectedError(cfg, input)
    case None => r.Ok?
    case Some(err) => r == Err(err)
  }

  // The program counters and the response array are those of the workers.
  ghost predicate Tracks(ws: seq<W.Worker>, pcs: seq<W.Pc>, slots: seq<W.Slot>) {
    |ws| == |pcs| == |slots| && forall i :: 0 <= i < |ws| ==> ws[i].pc == pcs[i] && ws[i].slot == slots[i]
  }

  class PutHandler {
    const backend: Backend
    const metrics: Recorder
    const cfg: W.Config
    const requestPool: Pool<PutRequest>
    const responsePool: Pool<PutResponse>

    constructor (backend: Backend, metrics: Recorder, cfg: W.Config)
      ensures this.backend == backend && this.metrics == metrics && this.cfg == cfg
      ensures fresh(requestPool) && fresh(responsePool) && requestPool.returned == {} && responsePool.returned == {}
    {
      this.backend, this.metrics, this.cfg := backend, metrics, cfg;
      requestPool := new Pool();
      responsePool := new Pool();
    }

    // The backend is a stack as DecorateBackend builds it, with the handler's size limit and recorder.
    ghost predicate Valid(frame: set<Engine>) {
      && (backend.IsRemote() ==> cfg.remote) && backend.Valid(frame) && Decorated(backend, metrics, cfg.maxSize)
      && metrics.Distinct() && forall i :: 0 <= i < |metrics.engines| ==> metrics.engines[i] in frame
    }

    ghost function Store(): View
      reads backend.Base()`db
    {
      backend.View(backend.Base().db)
    }

    // A write records the TTL that the stack makes of the element's own.
    ghost function TtlsAfter(ttls: map<Bytes, int>, w: W.Worker, next: W.Worker): map<Bytes, int> {
      if w.pc.Storing? && next.wrote then ttls[w.slot.uuid := backend.BaseTtl(w.po.ttlSeconds)] else ttls
    }

    // One atomic step of the goroutine running put on element i: w is where it stands, fault what a remote service did.
    // It writes to its own slot only, touches the store only through the backend, and samples what the step calls for.
    method Step(i: nat, po: PutObject, id: Option<Bytes>, pcs: array<W.Pc>, slots: array<W.Slot>,
                ghost w: W.Worker, ghost frame: set<Engine>)
      returns (ghost fault: Option<Fault>)
      requires Valid(frame) && i < pcs.Length == slots.Length
      requires w.po == po && w.id == id && w.pc == pcs[i] && w.slot == slots[i] && W.Runnable(w)
      modifies pcs, slots, backend.Base()`db, backend.Base()`ttls, frame`counts
      ensures W.FaultAllowed(cfg, w, fault)
      ensures var step := W.Advance(cfg, old(Store()), w, fault);
              && pcs[..] == old(pcs[..])[i := step.worker.pc] && slots[..] == old(slots[..])[i := step.worker.slot]
              && Store() == step.store
              && backend.Base().ttls == TtlsAfter(old(backend.Base().ttls), w, step.worker)
              && forall f :: f in metrics.engines ==> f.counts == old(f.counts) + StepSamples(cfg, w, step.worker)
    {
      hide ParsePutObject, PutSamples, SizeRefusal, AfterPut, Verdict, Accepts, Decorated, W.SlotAfter;
      ghost var db, ttls := backend.Base().db, backend.Base().ttls;
      fault := None;
      if pcs[i].Storing? {
        fault := StoreElement(i, po, pcs[i].toCache, pcs, slots, frame);
      } else if pcs[i].ChoosingKey? {
        ChooseKey(i, po, id, pcs[i].toCache, pcs, slots, frame);
        assert backend.Base().db == db && backend.Base().ttls == ttls;
      } else {
        SilentStep(i, po, pcs, slots, w);
        assert backend.Base().db == db && backend.Base().ttls == ttls;
      }
    }

    // A step that neither samples nor calls the backend.
    method SilentStep(i: nat, po: PutObject, pcs: array<W.Pc>, slots: array<W.Slot>, ghost w: W.Worker)
      requires i < pcs.Length == slots.Length && w.po == po && w.pc == pcs[i] && w.slot == slots[i]
      requires W.Runnable(w) && !w.pc.Storing? && !w.pc.ChoosingKey?
      modifies pcs, slots
      ensures forall store :: var step := W.Advance(cfg, store, w, None);
                && pcs[..] == old(pcs[..])[i := step.worker.pc] && slots[..] == old(slots[..])[i := step.worker.slot]
                && step.store == store
    {
      hide ParsePutObject, W.SlotAfter;
      if pcs[i].Parsing? {
        ParseElement(i, po, pcs, slots);
      } else if pcs[i].CheckingKey? {
        pcs[i] := if |slots[i].uuid| > 0 then W.Storing(pcs[i].toCache) else W.Exiting;
      } else if pcs[i].Stored? {
        SettleSlot(i, pcs[i].result, pcs, slots);
      } else {
        pcs[i] := W.Done;
      }
    }

    method ParseElement(i: nat, po: PutObject, pcs: array<W.Pc>, slots: array<W.Slot>)
      requires i < pcs.Length == slots.Length
      modifies pcs, slots
      ensures var parsed := ParsePutObject(po);
              && pcs[..] == old(pcs[..])[i := if parsed.Ok? then W.ChoosingKey(parsed.value) else W.Exiting]
              && slots[..] == old(slots[..])[i := if parsed.Ok? then old(slots[i]) else old(slots[i]).(err := Some(parsed.error))]
    {
      var toCache := ParsePutObject(po);
      if toCache.Err? {
        slots[i] := slots[i].(err := Some(toCache.error));
        pcs[i] := W.Exiting;
      } else {
        pcs[i] := W.ChoosingKey(toCache.value);
      }
    }

    method ChooseKey(i: nat, po: PutObject, id: Option<Bytes>, toCache: Bytes, pcs: array<W.Pc>, slots: array<W.Slot>,
                     ghost frame: set<Engine>)
      requires Valid(frame) && i < pcs.Length == slots.Length
      modifies pcs, slots, frame`counts
      ensures var key := if cfg.allowKeys && |po.key| > 0 then Some(po.key) else id;
              && pcs[..] == old(pcs[..])[i := if key.Some? then W.CheckingKey(toCache) else W.Exiting]
              && slots[..] == old(slots[..])[
                   i := if key.Some? then old(slots[i]).(uuid := key.value) else W.Slot([], Some(Fail(PUT_INTERNAL_SERVER)))]
      ensures forall f :: f in metrics.engines ==>
                f.counts == old(f.counts) + if cfg.allowKeys && |po.key| > 0 then multiset{PutKeyProvided} else multiset{}
    {
      if cfg.allowKeys && |po.key| > 0 {
        slots[i] := slots[i].(uuid := po.key);
        metrics.Record(PutKeyProvided);
        pcs[i] := W.CheckingKey(toCache);
      } else if id == None {
        slots[i] := W.Slot([], Some(Fail(PUT_INTERNAL_SERVER)));
        pcs[i] := W.Exiting;
      } else {
        slots[i] := slots[i].(uuid := id.value);
        pcs[i] := W.CheckingKey(toCache);
      }
    }

    method SettleSlot(i: nat, err: Option<GoError>, pcs: array<W.Pc>, slots: array<W.Slot>)
      requires i < pcs.Length == slots.Length
      modifies pcs, slots
      ensures pcs[..] == old(pcs[..])[i := W.Exiting] && slots[..] == old(slots[..])[i := W.SlotAfter(old(slots[i]), err)]
    {
      if err.Some? {
        if err.value.Pbc? && err.value.pbc.kind == RECORD_EXISTS {
          slots[i] := slots[i].(uuid := []);
        } else {
          slots[i] := slots[i].(err := Some(ClassifyBackendError(err.value)));
        }
      }
      pcs[i] := W.Exiting;
    }

    // The backend call.
    method StoreElement(i: nat, po: PutObject, toCache: Bytes, pcs: array<W.Pc>, slots: array<W.Slot>, ghost frame: set<Engine>)
      returns (ghost fault: Option<Fault>)
      requires Valid(frame) && i < pcs.Length == slots.Length
      modifies pcs, backend.Base()`db, backend.Base()`ttls, frame`counts
      ensures fault.Some? ==> cfg.remote
      ensures var refusal := SizeRefusal(cfg.maxSize, toCache);
              var err := Verdict(old(Store()), slots[i].uuid, refusal, fault);
              && pcs[..] == old(pcs[..])[i := W.Stored(toCache, err)]
              && Store() == AfterPut(old(Store()), slots[i].uuid, toCache, refusal, fault)
              && backend.Base().ttls == (if Accepts(old(Store()), slots[i].uuid, refusal, fault)
                                         then old(backend.Base().ttls)[slots[i].uuid := backend.BaseTtl(po.ttlSeconds)]
                                         else old(backend.Base().ttls))
              && forall f :: f in metrics.engines ==> f.counts == old(f.counts) + PutSamples(toCache, err == None)
    {
      ghost var db := backend.Base().db;
      var err;
      err, fault := backend.Put(slots[i].uuid, toCache, po.ttlSeconds, frame);
      backend.SimulatesWriteOnceMap(db, slots[i].uuid, toCache, fault, frame);
      ghost var end, ttls := backend.Base().db, backend.Base().ttls;
      pcs[i] := W.Stored(toCache, err);
      assert backend.Base().db == end && backend.Base().ttls == ttls;
    }

    // go put(...) for element i.
    method Launch(i: nat, pcs: array<W.Pc>, slots: array<W.Slot>, ghost start: View, ghost asked: seq<W.Worker>, ghost ws: seq<W.Worker>,
                  ghost before: map<Bytes, int>)
      returns (ghost next: seq<W.Worker>)
      requires TtlsRecorded(start, before, backend.Base().ttls, ws)
      requires i < |ws| && Running(cfg, start, Store(), asked, ws, i) && Tracks(ws, pcs[..], slots[..])
      modifies pcs
      ensures Running(cfg, start, Store(), asked, next, i + 1) && Tracks(next, pcs[..], slots[..])
      ensures Total(next, Open) == Total(ws, Open) && 0 <= Total(next, W.Remaining) < Total(ws, W.Remaining)
      ensures SumTaken(cfg, next) == SumTaken(cfg, ws)
      ensures TtlsRecorded(start, before, backend.Base().ttls, next)
    {
      hide Running, TtlsRecorded, SumTaken;
      next := ws[i := ws[i].(pc := W.Parsing)];
      LaunchKeepsRunning(cfg, start, Store(), asked, ws, i);
      LaunchTakesNothing(cfg, start, Store(), asked, ws, i);
      TtlsLaunch(start, before, backend.Base().ttls, ws, i);
      ghost var db, ttls := backend.Base().db, backend.Base().ttls;
      pcs[i] := W.Parsing;
      assert backend.Base().db == db && backend.Base().ttls == ttls;
    }

    // One step of goroutine i.
    method Proceed(i: nat, po: PutObject, id: Option<Bytes>, pcs: array<W.Pc>, slots: array<W.Slot>,
                   ghost start: View, ghost asked: seq<W.Worker>, ghost ws: seq<W.Worker>, ghost launched: nat,
                   ghost before: map<Bytes, int>, ghost frame: set<Engine>)
      returns (done: bool, ghost next: seq<W.Worker>, ghost log: multiset<Counter>)
      requires Valid(frame) && i < launched <= |ws| && Running(cfg, start, Store(), asked, ws, launched)
      requires Tracks(ws, pcs[..], slots[..]) && ws[i].po == po && ws[i].id == id && !ws[i].pc.Done?
      requires TtlsRecorded(start, before, backend.Base().ttls, ws)
      modifies pcs, slots, backend.Base()`db, backend.Base()`ttls, frame`counts
      ensures Running(cfg, start, Store(), asked, next, launched) && Tracks(next, pcs[..], slots[..])
      ensures Total(next, Open) == Total(ws, Open) - (if done then 1 else 0)
      ensures 0 <= Total(next, W.Remaining) < Total(ws, W.Remaining)
      ensures SumTaken(cfg, next) == SumTaken(cfg, ws) + log
      ensures forall f :: f in metrics.engines ==> f.counts == old(f.counts) + log
      ensures TtlsRecorded(start, before, backend.Base().ttls, next)
    {
      hide TtlsRecorded, Decorated, W.Advance, W.WorkerInv, StoreInv, Taken, StepSamples;
      ghost var w, store := ws[i], Store();
      assert w.pc == pcs[..][i] && w.slot == slots[..][i];
      done := pcs[i] == W.Exiting;
      ghost var fault := Step(i, po, id, pcs, slots, w, frame);
      StepKeepsRunning(cfg, start, store, asked, ws, launched, i, fault);
      TtlStep(start, store, asked, ws, launched, i, fault, before, old(backend.Base().ttls));
      ghost var after := W.Advance(cfg, store, w, fault).worker;
      log := StepSamples(cfg, w, after);
      StepTakes(cfg, store, w, fault);
      SumTakenUpdate(cfg, ws, i, after, log);
      next := ws[i := after];
    }

    // Goroutines are launched in order, interleave in any way once launched, and are all awaited; then the
    // slots are scanned. Over a store that does not fail the result is the same under every schedule.
    method PutElements(put: PutRequest, resps: PutResponse, input: M.Input, ghost frame: set<Engine>)
      returns (err: Option<GoError>, ghost ws: seq<W.Worker>)
      requires Valid(frame) && put.puts == M.Puts(input) && resps.responses.Length == |put.puts|
      requires forall i :: 0 <= i < resps.responses.Length ==> resps.responses[i] == W.EMPTY_SLOT
      requires put !in requestPool.returned && resps !in responsePool.returned
      modifies resps.responses, backend.Base()`db, backend.Base()`ttls, frame`counts
      ensures Finished(cfg, old(Store()), Store(), M.NewWorkers(input), ws)
      ensures resps.responses[..] == Slots(ws)
      ensures err == M.FirstError(ws)
      ensures !cfg.remote ==> err == FirstElementError(cfg, M.NewWorkers(input))
      ensures TtlsRecorded(old(Store()), old(backend.Base().ttls), backend.Base().ttls, ws)
      ensures forall f :: f in metrics.engines ==> f.counts == old(f.counts) + SumTaken(cfg, ws)
    {
      hide Decorated;
      var slots := resps.responses;
      ws := RunAll(put.puts, slots, input, frame);
      ghost var db := backend.Base().db;
      err := FirstFailure(slots, ws);
      assert backend.Base().db == db;
      if !cfg.remote {
        ErrorFound(cfg, old(Store()), Store(), M.NewWorkers(input), ws);
      }
    }

    // The launching loop and waitGroup.Wait.
    method RunAll(puts: seq<PutObject>, slots: array<W.Slot>, input: M.Input, ghost frame: set<Engine>)
      returns (ghost ws: seq<W.Worker>)
      requires Valid(frame) && puts == M.Puts(input) && slots.Length == |puts|
      requires forall i :: 0 <= i < slots.Length ==> slots[i] == W.EMPTY_SLOT
      modifies slots, backend.Base()`db, backend.Base()`ttls, frame`counts
      ensures Finished(cfg, old(Store()), Store(), M.NewWorkers(input), ws)
      ensures slots[..] == Slots(ws)
      ensures TtlsRecorded(old(Store()), old(backend.Base().ttls), backend.Base().ttls, ws)
      ensures forall f :: f in metrics.engines ==> f.counts == old(f.counts) + SumTaken(cfg, ws)
    {
      hide Decorated, Finished;
      ghost var db := backend.Base().db;
      var pcs := new W.Pc[|puts|](_ => W.Unstarted);
      assert backend.Base().db == db;
      StartsWell(cfg, Store(), M.NewWorkers(input));
      ws := Schedule(puts, pcs, slots, input, frame);
    }

    // Every write so far has left its TTL with its entry; the entries that were there keep theirs.
    ghost predicate TtlsRecorded(start: View, before: map<Bytes, int>, ttls: map<Bytes, int>, ws: seq<W.Worker>) {
      && (forall i :: 0 <= i < |ws| && ws[i].wrote ==>
            && W.Reaches(cfg, ws[i]) && W.Key(cfg, ws[i]) in ttls
            && ttls[W.Key(cfg, ws[i])] == backend.BaseTtl(ws[i].po.ttlSeconds))
      && (forall key :: key in start ==> (key in ttls <==> key in before) && (key in ttls ==> ttls[key] == before[key]))
    }

    lemma NoTtlsYet(start: View, ttls: map<Bytes, int>, ws: seq<W.Worker>)
      requires forall i :: 0 <= i < |ws| ==> !ws[i].wrote
      ensures TtlsRecorded(start, ttls, ttls, ws)
    {
    }

    lemma TtlsLaunch(start: View, before: map<Bytes, int>, ttls: map<Bytes, int>, ws: seq<W.Worker>, i: nat)
      requires TtlsRecorded(start, before, ttls, ws) && i < |ws|
      ensures TtlsRecorded(start, before, ttls, ws[i := ws[i].(pc := W.Parsing)])
    {
      hide ParsePutObject;
    }

    // A write goes to a key that was free, so it touches nobody else's TTL.
    lemma TtlStep(start: View, store: View, asked: seq<W.Worker>, ws: seq<W.Worker>, launched: nat, i: nat, fault: Option<Fault>,
                  before: map<Bytes, int>, ttls: map<Bytes, int>)
      requires i < launched <= |ws| && Running(cfg, start, store, asked, ws, launched)
      requires W.Runnable(ws[i]) && TtlsRecorded(start, before, ttls, ws)
      ensures var next := W.Advance(cfg, store, ws[i], fault).worker;
              TtlsRecorded(start, before, TtlsAfter(ttls, ws[i], next), ws[i := next])
    {
      var next := W.Advance(cfg, store, ws[i], fault).worker;
      FreeKeyWrites(cfg, start, store, asked, ws, launched, i, fault);
      forall j | 0 <= j < |ws| && ws[j].wrote
        ensures W.Reaches(cfg, ws[j]) && W.Key(cfg, ws[j]) in store
      {
        WrittenKeyIsPresent(cfg, start, store, asked, ws, launched, j);
      }
      hide W.Advance, W.Reaches, Running;
    }

    // One turn of the scheduler: the next launch, or a step of any launched goroutine that is not done.
    method Turn(puts: seq<PutObject>, pcs: array<W.Pc>, slots: array<W.Slot>, input: M.Input, launched: nat,
                ghost start: View, ghost ws: seq<W.Worker>, ghost before: map<Bytes, int>, ghost frame: set<Engine>)
      returns (launched': nat, done: bool, ghost next: seq<W.Worker>, ghost log: multiset<Counter>)
      requires Valid(frame) && puts == M.Puts(input) && launched <= |ws| == |puts|
      requires Running(cfg, start, Store(), M.NewWorkers(input), ws, launched) && Tracks(ws, pcs[..], slots[..])
      requires launched < |ws| || Total(ws, Open) > 0
      requires TtlsRecorded(start, before, backend.Base().ttls, ws)
      modifies pcs, slots, backend.Base()`db, backend.Base()`ttls, frame`counts
      ensures launched' <= |next| == |puts|
      ensures Running(cfg, start, Store(), M.NewWorkers(input), next, launched') && Tracks(next, pcs[..], slots[..])
      ensures Total(next, Open) == Total(ws, Open) - (if done then 1 else 0)
      ensures 0 <= Total(next, W.Remaining) < Total(ws, W.Remaining)
      ensures SumTaken(cfg, next) == SumTaken(cfg, ws) + log
      ensures forall f :: f in metrics.engines ==> f.counts == old(f.counts) + log
      ensures TtlsRecorded(start, before, backend.Base().ttls, next)
    {
      hide TtlsRecorded, Decorated;
      ghost var asked := M.NewWorkers(input);
      SomeoneCanGo(cfg, start, Store(), asked, ws, launched);
      var i :| 0 <= i < |puts| && i <= launched && pcs[i] != W.Done;
      launched', done := launched, false;
      if i == launched {
        next := Launch(i, pcs, slots, start, asked, ws, before);
        log := multiset{};
        launched' := launched + 1;
      } else {
        done, next, log := Proceed(i, puts[i], M.IdAt(input, i), pcs, slots, start, asked, ws, launched, before, frame);
      }
    }

    method Schedule(puts: seq<PutObject>, pcs: array<W.Pc>, slots: array<W.Slot>, input: M.Input, ghost frame: set<Engine>)
      returns (ghost ws: seq<W.Worker>)
      requires Valid(frame) && puts == M.Puts(input) && Tracks(M.NewWorkers(input), pcs[..], slots[..])
      requires Running(cfg, Store(), Store(), M.NewWorkers(input), M.NewWorkers(input), 0)
      requires Total(M.NewWorkers(input), Open) == |puts|
      modifies pcs, slots, backend.Base()`db, backend.Base()`ttls, frame`counts
      ensures Finished(cfg, old(Store()), Store(), M.NewWorkers(input), ws) && Tracks(ws, pcs[..], slots[..])
      ensures TtlsRecorded(old(Store()), old(backend.Base().ttls), backend.Base().ttls, ws)
      ensures forall f :: f in metrics.engines ==> f.counts == old(f.counts) + SumTaken(cfg, ws)
    {
      hide Valid, Running, Tracks, Finished, TtlsRecorded;
      ghost var start, asked, before := Store(), M.NewWorkers(input), backend.Base().ttls;
      var waitGroup, launched := |puts|, 0;
      ws := asked;
      NothingTakenYet(cfg, ws);
      NoTtlsYet(start, before, ws);
      while launched < |puts| || waitGroup > 0
        invariant 0 <= launched <= |puts| == |ws| && Running(cfg, start, Store(), asked, ws, launched)
        invariant Tracks(ws, pcs[..], slots[..]) && waitGroup == Total(ws, Open)
        invariant TtlsRecorded(start, before, backend.Base().ttls, ws)
        invariant forall f :: f in metrics.engines ==> f.counts == old(f.counts) + SumTaken(cfg, ws)
        decreases Total(ws, W.Remaining)
      {
        var done;
        ghost var log;
        launched, done, ws, log := Turn(puts, pcs, slots, input, launched, start, ws, before, frame);
        waitGroup := if done then waitGroup - 1 else waitGroup;
      }
      EndsFinished(cfg, start, Store(), asked, ws);
    }

    // json.Unmarshal: fields absent from the body keep their value; after an error anything may be left behind.
    method Unmarshal(body: M.Body, put: PutRequest) returns (ok: bool)
      requires body.Malformed? || body.Decoded?
      modifies put`puts
      ensures ok == body.Decoded?
      ensures ok ==> put.puts == if body.puts.Some? then body.puts.value else old(put.puts)
    {
      ok := body.Decoded?;
      if !ok {
        put.puts := *;
      } else if body.puts.Some? {
        put.puts := body.puts.value;
      }
    }

    // The request object, or the error; an object taken on a failing path is back in the pool.
    method ParseRequest(input: M.Input) returns (put: PutRequest?, err: Option<GoError>)
      modifies requestPool, requestPool.returned`puts
      ensures err == Rejection(cfg, input)
      ensures err.Some? ==> put == null && old(requestPool.returned) <= requestPool.returned
                            && fresh(requestPool.returned - old(requestPool.returned))
      ensures err == None ==> put != null && put.puts == M.Puts(input) && (put in old(requestPool.returned) || fresh(put))
                              && requestPool.returned == old(requestPool.returned) - {put}
      ensures forall ps :: input.body == M.Decoded(Some(ps)) ==>
                if |ps| <= cfg.maxNumValues then err == None && put.puts == ps else err == Some(Pbc(NewPBCError(PUT_MAX_NUM_VALUES)))
      ensures input.body == M.Decoded(None) && err == None ==> put.puts == []
      ensures !input.body.Decoded? ==> err == Some(Pbc(NewPBCError(PUT_BAD_REQUEST)))
    {
      if input.body.NilRequest? || input.body.Unreadable? {
        return null, Some(Fail(PUT_BAD_REQUEST));
      }
      var pooled := requestPool.Get();
      var obj: PutRequest;
      if pooled.Some? {
        obj := pooled.value;
      } else {
        obj := new PutRequest();
      }
      obj.puts := [];
      var ok := Unmarshal(input.body, obj);
      if !ok {
        requestPool.Put(obj);
        return null, Some(Fail(PUT_BAD_REQUEST));
      }
      if |obj.puts| > cfg.maxNumValues {
        requestPool.Put(obj);
        return null, Some(Fail(PUT_MAX_NUM_VALUES));
      }
      put, err := obj, None;
    }

    // The response object.
    method TakeResponse() returns (resp: PutResponse)
      modifies responsePool
      ensures resp in old(responsePool.returned) || fresh(resp)
      ensures responsePool.returned == old(responsePool.returned) - {resp}
    {
      var pooled := responsePool.Get();
      if pooled.Some? {
        resp := pooled.value;
      } else {
        resp := new PutResponse();
      }
    }

    // What a batch has done to the store, whatever the schedule was.
    ghost predicate BatchApplied(start: View, store: View, asked: seq<W.Worker>) {
      && Extends(start, store)
      && (forall key :: key in store && key !in start ==> exists i :: 0 <= i < |asked| && Supplies(cfg, asked[i], key, store[key]))
      && (!cfg.remote ==>
            forall key :: key in store <==> key in start || exists i :: 0 <= i < |asked| && Contends(cfg, asked[i], key))
      && (!cfg.remote && DistinctKeys(cfg, asked) ==> store == Sequentially(cfg, start, asked).0)
    }

    lemma BatchIsApplied(start: View, store: View, asked: seq<W.Worker>, ws: seq<W.Worker>)
      requires Finished(cfg, start, store, asked, ws)
      ensures BatchApplied(start, store, asked)
      ensures !cfg.remote && DistinctKeys(cfg, asked) ==> Slots(ws) == Sequentially(cfg, start, asked).1
    {
      forall key
        ensures key in start ==> key in store && store[key] == start[key]
        ensures key in store && key !in start ==> exists i :: 0 <= i < |asked| && Supplies(cfg, asked[i], key, store[key])
        ensures !cfg.remote ==> (key in store <==> key in start || exists i :: 0 <= i < |asked| && Contends(cfg, asked[i], key))
      {
        NewEntriesAreSupplied(cfg, start, store, asked, ws, key);
        if !cfg.remote {
          KeysAdded(cfg, start, store, asked, ws, key);
        }
      }
      if !cfg.remote && DistinctKeys(cfg, asked) {
        ScheduleIndependence(cfg, start, store, asked, ws);
      }
    }

    // Every UUID that is not empty leads to its element's formatted value.
    ghost predicate Published(store: View, input: M.Input, uuids: seq<Bytes>) {
      |uuids| == |M.Puts(input)| &&
      forall i :: 0 <= i < |uuids| && uuids[i] != [] ==>
        Supplies(cfg, M.NewWorkers(input)[i], uuids[i], if uuids[i] in store then store[uuids[i]] else None)
    }

    lemma UuidsArePublished(start: View, store: View, input: M.Input, ws: seq<W.Worker>)
      requires Finished(cfg, start, store, M.NewWorkers(input), ws) && M.FirstError(ws) == None
      ensures Published(store, input, M.Uuids(ws))
    {
      FirstErrorIsLowest(ws);
      forall i | 0 <= i < |ws| && ws[i].slot.uuid != []
        ensures Supplies(cfg, M.NewWorkers(input)[i], ws[i].slot.uuid, if ws[i].slot.uuid in store then store[ws[i].slot.uuid] else None)
      {
        SlotIsPublished(cfg, start, store, M.NewWorkers(input), ws, i);
      }
    }

    // The part of processPutRequest between taking the response object and giving it back.
    method Respond(put: PutRequest, resp: PutResponse, input: M.Input, ghost frame: set<Engine>)
      returns (r: Result<seq<Bytes>, GoError>, ghost ws: seq<W.Worker>)
      requires Valid(frame) && put.puts == M.Puts(input) && Rejection(cfg, input) == None
      requires put !in requestPool.returned && resp !in responsePool.returned
      modifies resp`responses, backend.Base()`db, backend.Base()`ttls, frame`counts
      ensures Finished(cfg, old(Store()), Store(), M.NewWorkers(input), ws)
      ensures r == M.OutcomeOf(input, ws)
      ensures !cfg.remote ==> IsExpected(cfg, input, r)
      ensures TtlsRecorded(old(Store()), old(backend.Base().ttls), backend.Base().ttls, ws)
      ensures forall f :: f in metrics.engines ==> f.counts == old(f.counts) + SumTaken(cfg, ws)
    {
      hide Decorated, Finished;
      ghost var db := backend.Base().db;
      resp.responses := new W.Slot[|put.puts|](_ => W.EMPTY_SLOT);
      assert backend.Base().db == db;
      var err;
      err, ws := PutElements(put, resp, input, frame);
      if err.Some? {
        r := Err(err.value);
      } else if input.marshalFails {
        r := Err(Fail(MARSHAL_RESPONSE));
      } else {
        r := Ok(Uuids(resp.responses[..]));
        assert r.value == M.Uuids(ws);
      }
    }

    // The life of the response object.
    method Serve(put: PutRequest, input: M.Input, ghost frame: set<Engine>)
      returns (r: Result<seq<Bytes>, GoError>, ghost ws: seq<W.Worker>)
      requires Valid(frame) && put.puts == M.Puts(input) && Rejection(cfg, input) == None
      requires put !in requestPool.returned
      modifies responsePool, responsePool.returned`responses, backend.Base()`db, backend.Base()`ttls, frame`counts
      ensures Finished(cfg, old(Store()), Store(), M.NewWorkers(input), ws)
      ensures r == M.OutcomeOf(input, ws)
      ensures !cfg.remote ==> IsExpected(cfg, input, r)
      ensures old(responsePool.returned) <= responsePool.returned && fresh(responsePool.returned - old(responsePool.returned))
      ensures TtlsRecorded(old(Store()), old(backend.Base().ttls), backend.Base().ttls, ws)
      ensures forall f :: f in metrics.engines ==> f.counts == old(f.counts) + SumTaken(cfg, ws)
    {
      hide Decorated, Finished, IsExpected, M.OutcomeOf;
      ghost var db := backend.Base().db;
      var resp := TakeResponse();
      assert backend.Base().db == db;
      r, ws := Respond(put, resp, input, frame);
      ghost var end := backend.Base().db;
      responsePool.Put(resp);
      assert backend.Base().db == end;
    }

    // The answer is what the workers' slots call for; over a store that does not fail it depends on the input alone, not on
    // the schedule, nor on the store, nor on what earlier requests left in the pools. Both pools end with what had been
    // returned to them plus, at most, new objects.
    method ProcessPutRequest(input: M.Input, ghost frame: set<Engine>)
      returns (r: Result<seq<Bytes>, GoError>, ghost ws: seq<W.Worker>)
      requires Valid(frame)
      modifies requestPool, requestPool.returned`puts, responsePool, responsePool.returned`responses,
               backend.Base()`db, backend.Base()`ttls, frame`counts
      ensures Finished(cfg, old(Store()), Store(), Elements(cfg, input), ws)
      ensures r == Outcome(cfg, input, ws)
      ensures !cfg.remote ==> IsExpected(cfg, input, r)
      ensures old(requestPool.returned) <= requestPool.returned && fresh(requestPool.returned - old(requestPool.returned))
      ensures old(responsePool.returned) <= responsePool.returned && fresh(responsePool.returned - old(responsePool.returned))
      ensures TtlsRecorded(old(Store()), old(backend.Base().ttls), backend.Base().ttls, ws)
      ensures forall f :: f in metrics.engines ==> f.counts == old(f.counts) + SumTaken(cfg, ws)
    {
      hide Decorated, Finished, IsExpected, M.OutcomeOf;
      ghost var db := backend.Base().db;
      var put, err := ParseRequest(input);
      assert backend.Base().db == db;
      if err.Some? {
        NothingDone(cfg, input, Store());
        return Err(err.value), [];
      }
      r, ws := Serve(put, input, frame);
      ghost var end := backend.Base().db;
      requestPool.Put(put);
      assert backend.Base().db == end;
    }

    // One reply per request; and, in every engine, one total, the sample that goes with the reply, and those of the workers.
    method Handle(input: M.Input, w: ReplyWriter, ghost frame: set<Engine>) returns (ghost reply: Reply, ghost ws: seq<W.Worker>)
      requires Valid(frame)
      modifies w`sent, requestPool, requestPool.returned`puts, responsePool, responsePool.returned`responses,
               backend.Base()`db, backend.Base()`ttls, frame`counts
      ensures w.sent == old(w.sent) + [reply] && reply == ReplyTo(Outcome(cfg, input, ws))
      ensures Finished(cfg, old(Store()), Store(), Elements(cfg, input), ws)
      ensures !cfg.remote ==> IsReply(input, reply)
      ensures old(requestPool.returned) <= requestPool.returned && fresh(requestPool.returned - old(requestPool.returned))
      ensures old(responsePool.returned) <= responsePool.returned && fresh(responsePool.returned - old(responsePool.returned))
      ensures forall f :: f in metrics.engines ==>
                f.counts == old(f.counts) + multiset{PutTotal} + SumTaken(cfg, ws) +
                  multiset{if reply.Stored? then PutDuration else if 400 <= reply.status < 500 then PutBadRequest else PutError}
      ensures TtlsRecorded(old(Store()), old(backend.Base().ttls), backend.Base().ttls, ws)
    {
      hide Decorated, Finished, ExpectedError, Outcome, TtlsRecorded;
      ghost var db, before := backend.Base().db, backend.Base().ttls;
      metrics.Record(PutTotal);
      assert backend.Base().db == db && backend.Base().ttls == before;
      var r;
      r, ws := ProcessPutRequest(input, frame);
      ghost var end, ttls := backend.Base().db, backend.Base().ttls;
      Answer(r, w, frame);
      assert backend.Base().db == end && backend.Base().ttls == ttls;
      ExpectedErrorIsPbc(cfg, input);
      reply := ReplyTo(r);
    }

    // What the reply to a finished batch promises.
    lemma ReplyPromises(start: View, store: View, input: M.Input, ws: seq<W.Worker>)
      requires Finished(cfg, start, store, Elements(cfg, input), ws)
      ensures BatchApplied(start, store, Elements(cfg, input))
      ensures var r := Outcome(cfg, input, ws);
              && (r.Ok? ==> Published(store, input, r.value))
              && (r.Ok? && !cfg.remote && DistinctKeys(cfg, Elements(cfg, input)) ==>
                    r.value == Uuids(Sequentially(cfg, start, Elements(cfg, input)).1))
              && (r.Err? ==> IsPbc(r.error))
    {
      BatchIsApplied(start, store, Elements(cfg, input), ws);
      if Outcome(cfg, input, ws).Ok? {
        UuidsArePublished(start, store, input, ws);
      } else if Rejection(cfg, input) == None {
        FirstErrorIsPbc(cfg, ws);
      }
    }

    // The entry under key is the one the element asks for: its key is the client's if that is allowed and given and else the
    // generated one, its content the element's type and payload, and its TTL what the stack makes of the element's.
    ghost predicate Carries(store: View, ttls: map<Bytes, int>, p: PutObject, generated: Option<Bytes>, key: Bytes) {
      && (if cfg.allowKeys && p.key != [] then Some(p.key) else generated) == Some(key)
      && Payload(p).Some? && key in store && store[key] == Some(p.kind + Payload(p).value)
      && key in ttls && ttls[key] == backend.BaseTtl(p.ttlSeconds)
    }

    lemma WriterCarries(start: View, before: map<Bytes, int>, store: View, ttls: map<Bytes, int>,
                        asked: seq<W.Worker>, ws: seq<W.Worker>, i: nat)
      requires Finished(cfg, start, store, asked, ws) && TtlsRecorded(start, before, ttls, ws) && i < |ws| && ws[i].wrote
      ensures W.Reaches(cfg, asked[i]) && Carries(store, ttls, asked[i].po, asked[i].id, W.Key(cfg, asked[i]))
    {
      WroteMeansFresh(cfg, start, store, asked, ws, i);
      W.ElementMeaning(cfg, asked[i]);
      assert SameElement(ws[i], asked[i]);
      hide StoreInv, W.WorkerInv, Payload, ParsePutObject;
    }

    // What the batch means in terms of the body: one UUID for each element, in order, leading to that element's entry, and
    // no new entry without an element that it carries.
    lemma BatchMeaning(start: View, before: map<Bytes, int>, store: View, ttls: map<Bytes, int>, input: M.Input, ws: seq<W.Worker>,
                       ps: seq<PutObject>, ids: seq<Option<Bytes>>)
      requires Finished(cfg, start, store, Elements(cfg, input), ws) && TtlsRecorded(start, before, ttls, ws) && Asks(input, ps, ids)
      ensures var r := Outcome(cfg, input, ws);
              r.Ok? ==>
                && |r.value| == |ps| <= cfg.maxNumValues
                && forall i :: 0 <= i < |ps| && r.value[i] != [] ==> Carries(store, ttls, ps[i], ids[i], r.value[i])
      ensures forall key :: key in store && key !in start ==>
                exists i :: 0 <= i < |ps| && Carries(store, ttls, ps[i], ids[i], key)
      ensures forall key :: key in start ==>
                && key in store && store[key] == start[key]
                && (key in ttls <==> key in before) && (key in ttls ==> ttls[key] == before[key])
    {
      var asked := Elements(cfg, input);
      assert forall i :: 0 <= i < |asked| ==> asked[i].po == ps[i] && asked[i].id == ids[i];
      forall i | 0 <= i < |ws| && ws[i].wrote
        ensures W.Reaches(cfg, asked[i]) && Carries(store, ttls, ps[i], ids[i], W.Key(cfg, asked[i]))
      {
        WriterCarries(start, before, store, ttls, asked, ws, i);
      }
      hide Carries;
      if Outcome(cfg, input, ws).Ok? {
        FirstErrorIsLowest(ws);
        forall i | 0 <= i < |ws| && ws[i].slot.uuid != []
          ensures Carries(store, ttls, ps[i], ids[i], ws[i].slot.uuid)
        {
          EndedWithoutError(cfg, ws[i]);
          assert SameElement(ws[i], asked[i]);
        }
      }
      forall key | key in store && key !in start
        ensures exists i :: 0 <= i < |ps| && Carries(store, ttls, ps[i], ids[i], key)
      {
        var j := WriterAmong(cfg, start, store, asked, ws, key);
      }
    }

    // The reply that the input calls for.
    predicate IsReply(input: M.Input, reply: Reply) {
      match ExpectedError(cfg, input)
      case None => reply.Stored?
      case Some(err) => err.Pbc? && reply == Refused(err.pbc.statusCode)
    }

    method Answer(r: Result<seq<Bytes>, GoError>, w: ReplyWriter, ghost frame: set<Engine>)
      requires Valid(frame)
      modifies w`sent, frame`counts
      ensures w.sent == old(w.sent) + [ReplyTo(r)]
      ensures var reply := ReplyTo(r);
              forall f :: f in metrics.engines ==>
                f.counts == old(f.counts) +
                  multiset{if reply.Stored? then PutDuration else if 400 <= reply.status < 500 then PutBadRequest else PutError}
    {
      hide Decorated;
      if r.Err? {
        var statusCode := STATUS_INTERNAL_SERVER_ERROR;
        if r.error.Pbc? {
          statusCode := r.error.pbc.statusCode;
          if 400 <= statusCode < 500 {
            metrics.Record(PutBadRequest);
          } else {
            metrics.Record(PutError);
          }
        } else {
          metrics.Record(PutError);
        }
        w.Send(Refused(statusCode));
        return;
      }
      w.Send(Stored(r.value));
      metrics.Record(PutDuration);
    }
  }

  function ReplyTo(r: Result<seq<Bytes>, GoError>): Reply {
    match r
    case Ok(uuids) => Stored(uuids)
    case Err(err) => Refused(ErrorStatus(err))
  }

  lemma ReplyMeaning(r: Result<seq<Bytes>, GoError>)
    ensures match r
            case Ok(uuids) => ReplyTo(r) == Stored(uuids)
            case Err(Pbc(e)) => ReplyTo(r) == Refused(e.statusCode)
            case Err(_) => ReplyTo(r) == Refused(500)
  {
  }

  // A request that starts no worker.
  lemma NothingDone(cfg: W.Config, input: M.Input, start: View)
    ensures Finished(cfg, start, start, [], []) && SumTaken(cfg, []) == multiset{}
    ensures Rejection(cfg, input).Some? ==> IsExpected(cfg, input, Err(Rejection(cfg, input).value))
  {
  }

  lemma {:induction false} ExpectedErrorIsPbc(cfg: W.Config, input: M.Input)
    ensures ExpectedError(cfg, input).Some? ==> IsPbc(ExpectedError(cfg, input).value)
  {
    FirstElementErrorIsPbc(cfg, M.NewWorkers(input));
  }

  lemma {:induction false} FirstElementErrorIsPbc(cfg: W.Config, ws: seq<W.Worker>)
    ensures FirstElementError(cfg, ws).Some? ==> IsPbc(FirstElementError(cfg, ws).value)
  {
    if ws != [] {
      FirstElementErrorIsPbc(cfg, ws[1..]);
    }
  }

  // ---------- The scheduler's invariant ----------

  // Workers below `launched` are started; the others have not run.
  ghost predicate Running(cfg: W.Config, start: View, store: View, asked: seq<W.Worker>, ws: seq<W.Worker>, launched: nat) {
    && |ws| == |asked|
    && (forall i :: 0 <= i < |ws| ==> SameElement(ws[i], asked[i]) && W.WorkerInv(cfg, ws[i]))
    && (forall i :: 0 <= i < |ws| ==> (ws[i].pc.Unstarted? <==> i >= launched))
    && StoreInv(start, store, Claims(cfg, ws), cfg.remote)
  }

  lemma StartsWell(cfg: W.Config, start: View, asked: seq<W.Worker>)
    requires forall i :: 0 <= i < |asked| ==> asked[i].pc.Unstarted? && asked[i].slot == W.EMPTY_SLOT && !asked[i].wrote
    ensures Running(cfg, start, start, asked, asked, 0)
    ensures Total(asked, Open) == |asked|
  {
  }

  lemma EndsFinished(cfg: W.Config, start: View, store: View, asked: seq<W.Worker>, ws: seq<W.Worker>)
    requires Running(cfg, start, store, asked, ws, |ws|) && Total(ws, Open) <= 0
    ensures Finished(cfg, start, store, asked, ws)
  {
    OpenNonNegative(ws);
  }

  lemma SomeoneCanGo(cfg: W.Config, start: View, store: View, asked: seq<W.Worker>, ws: seq<W.Worker>, launched: nat)
    requires Running(cfg, start, store, asked, ws, launched) && launched <= |ws|
    requires launched < |ws| || Total(ws, Open) > 0
    ensures exists i :: 0 <= i < |ws| && i <= launched && !ws[i].pc.Done?
    ensures forall i :: 0 <= i < |ws| ==> SameElement(ws[i], asked[i])
  {
    if launched < |ws| {
      assert !ws[launched].pc.Done?;
    } else if forall i :: 0 <= i < |ws| ==> ws[i].pc.Done? {
      TotalZero(ws, Open);
    }
  }

  lemma LaunchKeepsRunning(cfg: W.Config, start: View, store: View, asked: seq<W.Worker>, ws: seq<W.Worker>, i: nat)
    requires i < |ws| && Running(cfg, start, store, asked, ws, i)
    ensures var ws' := ws[i := ws[i].(pc := W.Parsing)];
            && Running(cfg, start, store, asked, ws', i + 1)
            && Total(ws', Open) == Total(ws, Open) && 0 <= Total(ws', W.Remaining) < Total(ws, W.Remaining)
  {
    StartingKeepsStore(cfg, start, store, ws, i);
    TotalUpdate(ws, i, ws[i].(pc := W.Parsing), Open);
    TotalUpdate(ws, i, ws[i].(pc := W.Parsing), W.Remaining);
    RemainingNonNegative(ws[i := ws[i].(pc := W.Parsing)]);
  }

  lemma WriteIsOfFreeKey(cfg: W.Config, store: View, w: W.Worker, fault: Option<Fault>)
    requires W.Runnable(w) && W.WorkerInv(cfg, w)
    ensures var next := W.Advance(cfg, store, w, fault).worker;
            && next.po == w.po && next.id == w.id
            && W.Reaches(cfg, next) == W.Reaches(cfg, w) && (W.Reaches(cfg, w) ==> W.Key(cfg, next) == W.Key(cfg, w))
            && (next.wrote ==> w.wrote || w.pc.Storing?)
            && (w.pc.Storing? && next.wrote ==> W.Reaches(cfg, w) && W.Key(cfg, w) == w.slot.uuid && w.slot.uuid !in store)
  {
    hide ParsePutObject;
  }

  lemma FreeKeyWrites(cfg: W.Config, start: View, store: View, asked: seq<W.Worker>, ws: seq<W.Worker>, launched: nat, i: nat,
                      fault: Option<Fault>)
    requires i < launched <= |ws| && Running(cfg, start, store, asked, ws, launched) && W.Runnable(ws[i])
    ensures var w, next := ws[i], W.Advance(cfg, store, ws[i], fault).worker;
            && next.po == w.po && W.Reaches(cfg, next) == W.Reaches(cfg, w)
            && (W.Reaches(cfg, w) ==> W.Key(cfg, next) == W.Key(cfg, w))
            && (next.wrote ==> w.wrote || w.pc.Storing?)
            && (w.pc.Storing? && next.wrote ==>
                  && W.Reaches(cfg, w) && W.Key(cfg, w) == w.slot.uuid
                  && w.slot.uuid !in store && w.slot.uuid !in start && !w.wrote)
  {
    WriteIsOfFreeKey(cfg, store, ws[i], fault);
    hide W.Advance, W.Reaches;
  }

  lemma WrittenKeyIsPresent(cfg: W.Config, start: View, store: View, asked: seq<W.Worker>, ws: seq<W.Worker>, launched: nat, j: nat)
    requires Running(cfg, start, store, asked, ws, launched) && j < |ws| && ws[j].wrote
    ensures W.Reaches(cfg, ws[j]) && W.Key(cfg, ws[j]) in store
  {
    hide ParsePutObject;
    assert Claims(cfg, ws)[j] == ClaimOf(cfg, ws[j]);
  }

  lemma LaunchTakesNothing(cfg: W.Config, start: View, store: View, asked: seq<W.Worker>, ws: seq<W.Worker>, i: nat)
    requires i < |ws| && Running(cfg, start, store, asked, ws, i)
    ensures SumTaken(cfg, ws[i := ws[i].(pc := W.Parsing)]) == SumTaken(cfg, ws)
  {
    SumTakenUpdate(cfg, ws, i, ws[i].(pc := W.Parsing), multiset{});
  }

  lemma StepKeepsRunning(cfg: W.Config, start: View, store: View, asked: seq<W.Worker>, ws: seq<W.Worker>, launched: nat, i: nat, fault: Option<Fault>)
    requires i < launched <= |ws| && Running(cfg, start, store, asked, ws, launched) && W.Runnable(ws[i]) && W.FaultAllowed(cfg, ws[i], fault)
    ensures var step := W.Advance(cfg, store, ws[i], fault); var ws' := ws[i := step.worker];
            && Running(cfg, start, step.store, asked, ws', launched)
            && Total(ws', Open) == Total(ws, Open) - (if ws[i].pc.Exiting? then 1 else 0)
            && 0 <= Total(ws', W.Remaining) < Total(ws, W.Remaining)
  {
    var w := W.Advance(cfg, store, ws[i], fault).worker;
    W.AdvanceKeepsWorkerInv(cfg, store, ws[i], fault);
    W.AdvanceFrame(cfg, store, ws[i], fault);
    W.AdvanceProgresses(cfg, store, ws[i], fault);
    StoreStep(cfg, start, store, ws, i, fault);
    TotalUpdate(ws, i, w, Open);
    TotalUpdate(ws, i, w, W.Remaining);
    RemainingNonNegative(ws[i := w]);
  }

  lemma {:induction false} RemainingNonNegative(ws: seq<W.Worker>)
    ensures Total(ws, W.Remaining) >= 0
  {
    if ws != [] {
      RemainingNonNegative(ws[1..]);
    }
  }

  // The scan of the response slots.
  method FirstFailure(slots: array<W.Slot>, ghost ws: seq<W.Worker>) returns (err: Option<GoError>)
    requires slots[..] == Slots(ws)
    ensures err == M.FirstError(ws)
  {
    for i := 0 to slots.Length
      invariant M.FirstError(ws) == M.FirstError(ws[i..])
    {
      if slots[i].err.Some? {
        assert slots[..][i] == ws[i].slot;
        return slots[i].err;
      }
      assert slots[..][i] == ws[i].slot;
    }
    err := None;
  }
}
