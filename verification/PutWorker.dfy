/**
 PutHandler.put as the atomic steps of one goroutine (endpoints/put.go). A step either touches only the
 worker's own response slot, or is the backend's single guarded access to the shared store.
 */
module PutWorker {
  import opened Basics
  import opened Errors
  import opened Metrics
  import opened PutObjects
  import opened Store
  import Backends

  // remote: the base store is a remote service, whose calls may fail. Set-if-absent holds either way.
  datatype Config = Config(allowKeys: bool, maxNumValues: int, maxSize: int, remote: bool)

  // putResponseObject
  datatype Slot = Slot(uuid: Bytes, err: Option<GoError>)

  const EMPTY_SLOT := Slot([], None)

  datatype Pc =
    | Unstarted
    | Parsing
    | ChoosingKey(toCache: Bytes)
    | CheckingKey(toCache: Bytes)
    | Storing(toCache: Bytes)
    | Stored(toCache: Bytes, result: Option<GoError>)
    | Exiting
    | Done

  // id is the outcome of GenerateRandomID for this element; wrote records that the store took its value.
  datatype Worker = Worker(po: PutObject, id: Option<Bytes>, pc: Pc, slot: Slot, wrote: bool)

  function NewWorker(po: PutObject, id: Option<Bytes>): Worker {
    Worker(po, id, Unstarted, EMPTY_SLOT, false)
  }

  datatype Effect = Effect(worker: Worker, store: View, log: multiset<Counter>)

  predicate Runnable(w: Worker) {
    w.pc != Unstarted && w.pc != Done
  }

  // The next atomic step of a started, unfinished worker.
  function Advance(cfg: Config, store: View, w: Worker, fault: Option<Fault>): Effect
    requires Runnable(w)
  {
    match w.pc
    case Parsing =>
      (match ParsePutObject(w.po)
       case Err(e) => Effect(w.(pc := Exiting, slot := w.slot.(err := Some(e))), store, multiset{})
       case Ok(toCache) => Effect(w.(pc := ChoosingKey(toCache)), store, multiset{}))
    case ChoosingKey(toCache) =>
      if cfg.allowKeys && |w.po.key| > 0 then
        Effect(w.(pc := CheckingKey(toCache), slot := w.slot.(uuid := w.po.key)), store, multiset{PutKeyProvided})
      else if w.id == None then
        Effect(w.(pc := Exiting, slot := Slot([], Some(Fail(PUT_INTERNAL_SERVER)))), store, multiset{})
      else
        Effect(w.(pc := CheckingKey(toCache), slot := w.slot.(uuid := w.id.value)), store, multiset{})
    case CheckingKey(toCache) =>
      if |w.slot.uuid| > 0
      then Effect(w.(pc := Storing(toCache)), store, Backends.PutStarted(toCache))
      else Effect(w.(pc := Exiting), store, multiset{})
    case Storing(toCache) =>
      var refusal := SizeRefusal(cfg.maxSize, toCache);
      Effect(w.(pc := Stored(toCache, Verdict(store, w.slot.uuid, refusal, fault)), wrote := Accepts(store, w.slot.uuid, refusal, fault)),
             AfterPut(store, w.slot.uuid, toCache, refusal, fault), multiset{})
    case Stored(_, result) =>
      Effect(w.(pc := Exiting, slot := SlotAfter(w.slot, result)), store, Backends.PutFinished(result == None))
    case Exiting => Effect(w.(pc := Done), store, multiset{})
  }

  // What put makes of the backend's answer.
  function SlotAfter(slot: Slot, result: Option<GoError>): Slot {
    if result == None then slot
    else if result.value.Pbc? && result.value.pbc.kind == RECORD_EXISTS then slot.(uuid := [])
    else slot.(err := Some(ClassifyBackendError(result.value)))
  }

  // ---------- What an element asks for, whatever the schedule ----------

  function KeyOf(cfg: Config, w: Worker): Option<Bytes> {
    if cfg.allowKeys && |w.po.key| > 0 then Some(w.po.key) else w.id
  }

  // The element gets as far as the store: it is well-formed, has a key and is within the size limit.
  predicate Reaches(cfg: Config, w: Worker) {
    && ParsePutObject(w.po).Ok?
    && KeyOf(cfg, w).Some? && KeyOf(cfg, w).value != []
    && SizeRefusal(cfg.maxSize, ParsePutObject(w.po).value) == None
  }

  function Key(cfg: Config, w: Worker): Bytes
    requires Reaches(cfg, w)
  {
    KeyOf(cfg, w).value
  }

  function Value(cfg: Config, w: Worker): Bytes
    requires Reaches(cfg, w)
  {
    ParsePutObject(w.po).value
  }

  // The error of an element over a store that does not fail.
  function ElementError(cfg: Config, w: Worker): Option<GoError> {
    if ParsePutObject(w.po).Err? then Some(ParsePutObject(w.po).error)
    else if KeyOf(cfg, w) == None then Some(Fail(PUT_INTERNAL_SERVER))
    else if KeyOf(cfg, w).value != [] && SizeRefusal(cfg.maxSize, ParsePutObject(w.po).value).Some?
    then Some(Fail(BAD_PAYLOAD_SIZE))
    else None
  }

  // The slot put leaves behind over a store that does not fail.
  function FinalSlot(cfg: Config, w: Worker): Slot {
    if ParsePutObject(w.po).Err? then Slot([], Some(ParsePutObject(w.po).error))
    else if KeyOf(cfg, w) == None then Slot([], Some(Fail(PUT_INTERNAL_SERVER)))
    else if KeyOf(cfg, w).value == [] then EMPTY_SLOT
    else if SizeRefusal(cfg.maxSize, ParsePutObject(w.po).value).Some? then Slot(KeyOf(cfg, w).value, Some(Fail(BAD_PAYLOAD_SIZE)))
    else if w.wrote then Slot(KeyOf(cfg, w).value, None)
    else EMPTY_SLOT
  }

  // What an element comes to, in terms of the request alone: the key it gets is the client's if that is allowed and given,
  // and a generated one otherwise; it gets to the store if it is well-formed, has a key, and its type and payload together
  // are within the size limit; and then it stores those.
  lemma ElementMeaning(cfg: Config, w: Worker)
    ensures var id := if cfg.allowKeys && w.po.key != [] then Some(w.po.key) else w.id; var payload := Payload(w.po);
            var tooLong := payload.Some? && 0 < cfg.maxSize < |w.po.kind| + |payload.value|;
            && (Reaches(cfg, w) <==> payload.Some? && id.Some? && id.value != [] && !tooLong)
            && (Reaches(cfg, w) ==> Key(cfg, w) == id.value && Value(cfg, w) == w.po.kind + payload.value)
            && (ElementError(cfg, w) == None <==> payload.Some? && id.Some? && (id.value == [] || !tooLong))
            && (ElementError(cfg, w).Some? ==>
                  && IsPbc(ElementError(cfg, w).value)
                  && ElementError(cfg, w).value.pbc.statusCode == if payload.Some? && id == None then 500 else 400)
  {
    StoredForm(w.po);
    hide ParsePutObject, Payload;
  }

  // What put makes of the backend's answer: a record that exists empties the UUID; a bad size, a missed deadline and any
  // other failure become errors with status 400, 597 and 500.
  lemma AnswerMeaning(cfg: Config, store: View, w: Worker, fault: Option<Fault>)
    requires w.pc.Stored?
    ensures var slot := Advance(cfg, store, w, fault).worker.slot;
            match w.pc.result
            case None => slot == w.slot
            case Some(e) =>
              if e.Pbc? && e.pbc.kind == RECORD_EXISTS then slot == Slot([], w.slot.err)
              else slot.uuid == w.slot.uuid && slot.err.Some? && IsPbc(slot.err.value)
                   && slot.err.value.pbc.statusCode == if e.BadPayloadSize? then 400 else if e.DeadlineExceeded? then 597 else 500
  {
  }

  // ---------- The local invariant ----------

  // What the result of the backend call says about the write.
  ghost predicate ResultFits(cfg: Config, w: Worker, result: Option<GoError>) {
    && (w.wrote ==> Reaches(cfg, w))
    && (result == None ==> w.wrote)
    && (!cfg.remote ==> (w.wrote <==> result == None))
    && (!cfg.remote && Reaches(cfg, w) && !w.wrote ==> result == Some(Fail(RECORD_EXISTS)))
    && (!cfg.remote && !Reaches(cfg, w) ==> result.Some? && result.value.BadPayloadSize?)
  }

  // A slot as the end of put leaves it.
  ghost predicate SlotFinal(cfg: Config, w: Worker) {
    && (w.slot.err.Some? ==> IsPbc(w.slot.err.value))
    && (w.wrote ==> Reaches(cfg, w))
    && (w.slot.err == None ==> ParsePutObject(w.po).Ok? && KeyOf(cfg, w).Some?)
    && (w.slot.err == None && w.slot.uuid != [] ==> w.wrote && w.slot.uuid == KeyOf(cfg, w).value)
    && (!cfg.remote ==> w.slot == FinalSlot(cfg, w))
  }

  ghost predicate WorkerInv(cfg: Config, w: Worker) {
    match w.pc
    case Unstarted | Parsing => w.slot == EMPTY_SLOT && !w.wrote
    case ChoosingKey(v) => ParsePutObject(w.po) == Ok(v) && w.slot == EMPTY_SLOT && !w.wrote
    case CheckingKey(v) =>
      ParsePutObject(w.po) == Ok(v) && KeyOf(cfg, w) == Some(w.slot.uuid) && w.slot.err == None && !w.wrote
    case Storing(v) =>
      && ParsePutObject(w.po) == Ok(v) && KeyOf(cfg, w) == Some(w.slot.uuid) && w.slot.uuid != []
      && w.slot.err == None && !w.wrote
    case Stored(v, result) =>
      && ParsePutObject(w.po) == Ok(v) && KeyOf(cfg, w) == Some(w.slot.uuid) && w.slot.uuid != []
      && w.slot.err == None && ResultFits(cfg, w, result)
    case Exiting | Done => SlotFinal(cfg, w)
  }

  // A fault is possible only at a remote store.
  predicate FaultAllowed(cfg: Config, w: Worker, fault: Option<Fault>) {
    fault.Some? ==> cfg.remote && w.pc.Storing?
  }

  lemma StoringKeepsWorkerInv(cfg: Config, store: View, w: Worker, fault: Option<Fault>)
    requires w.pc.Storing? && WorkerInv(cfg, w) && FaultAllowed(cfg, w, fault)
    ensures WorkerInv(cfg, Advance(cfg, store, w, fault).worker)
  {
  }

  lemma SettlingKeepsWorkerInv(cfg: Config, store: View, w: Worker, fault: Option<Fault>)
    requires w.pc.Stored? && WorkerInv(cfg, w) && FaultAllowed(cfg, w, fault)
    ensures WorkerInv(cfg, Advance(cfg, store, w, fault).worker)
  {
  }

  lemma AdvanceKeepsWorkerInv(cfg: Config, store: View, w: Worker, fault: Option<Fault>)
    requires Runnable(w) && WorkerInv(cfg, w) && FaultAllowed(cfg, w, fault)
    ensures WorkerInv(cfg, Advance(cfg, store, w, fault).worker)
  {
    match w.pc
    case Storing(_) => StoringKeepsWorkerInv(cfg, store, w, fault);
    case Stored(_, _) => SettlingKeepsWorkerInv(cfg, store, w, fault);
    case _ =>
  }

  // A step never touches what the worker was asked to do, and the last one leaves Exiting.
  lemma AdvanceFrame(cfg: Config, store: View, w: Worker, fault: Option<Fault>)
    requires Runnable(w)
    ensures var n := Advance(cfg, store, w, fault).worker;
            n.po == w.po && n.id == w.id && n.pc != Unstarted && (n.pc.Done? <==> w.pc.Exiting?)
  {
  }

  // How many steps a worker still has to take.
  function Remaining(w: Worker): int {
    match w.pc
    case Unstarted => 7
    case Parsing => 6
    case ChoosingKey(_) => 5
    case CheckingKey(_) => 4
    case Storing(_) => 3
    case Stored(_, _) => 2
    case Exiting => 1
    case Done => 0
  }

  lemma AdvanceProgresses(cfg: Config, store: View, w: Worker, fault: Option<Fault>)
    requires Runnable(w)
    ensures 0 <= Remaining(Advance(cfg, store, w, fault).worker) < Remaining(w)
  {
    hide ParsePutObject, Verdict, Accepts, AfterPut, SlotAfter, SizeRefusal, Backends.PutStarted, Backends.PutFinished;
  }
}
