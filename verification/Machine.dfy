/**
 The cache server as a transition system: any number of POST and GET requests in flight over one store.
 Each action is one atomic step of some goroutine (endpoints/put.go, endpoints/get.go).
 The store is the write-once map that the decorated backend behaves as (see Backends.DecoratedStack).
 */
module Machine {
  import opened Basics
  import opened Errors
  import opened Metrics
  import opened PutObjects
  import opened Responses
  import opened Store
  import opened PutWorker
  import Backends

  // ---------- POST requests ----------

  // What reading and unmarshalling a request body comes to. Decoded(None) is a body without "puts".
  datatype Body = NilRequest | Unreadable | Malformed | Decoded(puts: Option<seq<PutObject>>)

  // ids are the outcomes of GenerateRandomID; marshalFails, that of marshalling the response.
  datatype Input = Input(body: Body, ids: seq<Option<Bytes>>, marshalFails: bool)

  datatype PutPhase =
    | Received
    | Unmarshalling(reqObj: nat)
    | Running(launched: nat, reqObj: nat, respObj: nat)
    | Answering(outcome: Result<seq<Bytes>, GoError>)
    | Closed(outcome: Result<seq<Bytes>, GoError>)

  // The request's workers are s.workers[first..first + count]; wg is the wait group's counter.
  datatype PutRequest = PutRequest(input: Input, phase: PutPhase, first: nat, count: nat, wg: int)

  function Puts(input: Input): seq<PutObject> {
    if input.body.Decoded? && input.body.puts.Some? then input.body.puts.value else []
  }

  function IdAt(input: Input, i: nat): Option<Bytes> {
    if i < |input.ids| then input.ids[i] else None
  }

  function NewWorkers(input: Input): (ws: seq<Worker>)
    ensures |ws| == |Puts(input)|
    ensures forall i :: 0 <= i < |ws| ==> ws[i] == NewWorker(Puts(input)[i], IdAt(input, i))
  {
    seq(|Puts(input)|, i requires 0 <= i < |Puts(input)| => NewWorker(Puts(input)[i], IdAt(input, i)))
  }

  // The scan after the join: the error of the lowest failing index.
  function FirstError(ws: seq<Worker>): Option<GoError> {
    if ws == [] then None
    else if ws[0].slot.err.Some? then ws[0].slot.err
    else FirstError(ws[1..])
  }

  function Uuids(ws: seq<Worker>): (us: seq<Bytes>)
    ensures |us| == |ws| && forall i :: 0 <= i < |ws| ==> us[i] == ws[i].slot.uuid
  {
    seq(|ws|, i requires 0 <= i < |ws| => ws[i].slot.uuid)
  }

  // What processPutRequest returns once all workers are done.
  function OutcomeOf(input: Input, ws: seq<Worker>): Result<seq<Bytes>, GoError> {
    if FirstError(ws).Some? then Err(FirstError(ws).value)
    else if input.marshalFails then Err(Fail(MARSHAL_RESPONSE))
    else Ok(Uuids(ws))
  }

  // The counter that the POST handler bumps together with its answer.
  function PutAnswerCounter(outcome: Result<seq<Bytes>, GoError>): Counter {
    if outcome.Ok? then PutDuration
    else if outcome.error.Pbc? && 400 <= outcome.error.pbc.statusCode < 500 then PutBadRequest
    else PutError
  }

  // ---------- GET requests ----------

  datatype GetPhase =
    | Arrived
    | Fetching
    | Fetched(result: Result<Bytes, GoError>)
    | Responding(result: Result<Bytes, GoError>)
    | Served(result: Result<Bytes, GoError>, response: Response)

  datatype GetRequest = GetRequest(uuid: Bytes, phase: GetPhase)

  // handle's and handleException's counters: none for a status under 400 that is not a success.
  function GetAnswerLog(result: Result<Bytes, GoError>): multiset<Counter> {
    if result.Ok? && WriteGetResponse(result.value).Ok? then multiset{GetDuration}
    else
      var status := ErrorStatus(if result.Ok? then WriteGetResponse(result.value).error else result.error);
      if status >= 500 then multiset{GetError} else if status >= 400 then multiset{GetBadRequest} else multiset{}
  }

  // ---------- The system ----------

  // sync.Pool. Objects are numbered as they are made; dropped ones were idle when the garbage collector took them.
  datatype Pool = Pool(free: set<nat>, dropped: set<nat>, made: nat)

  const EMPTY_POOL := Pool({}, {}, 0)

  // Get hands out an idle object or makes a new one.
  predicate Available(pool: Pool, obj: nat) {
    obj in pool.free || obj == pool.made
  }

  function Take(pool: Pool, obj: nat): Pool {
    pool.(free := pool.free - {obj}, made := if obj == pool.made then pool.made + 1 else pool.made)
  }

  function Give(pool: Pool, obj: nat): Pool {
    pool.(free := pool.free + {obj})
  }

  function Drop(pool: Pool, objs: set<nat>): Pool {
    pool.(free := pool.free - objs, dropped := pool.dropped + pool.free * objs)
  }

  // tally counts every sample taken; reqs and resps are the pools.
  datatype State = State(
    store: View, workers: seq<Worker>, puts: seq<PutRequest>, gets: seq<GetRequest>, tally: multiset<Counter>,
    reqs: Pool, resps: Pool)

  function Initial(store: View): State {
    State(store, [], [], [], multiset{}, EMPTY_POOL, EMPTY_POOL)
  }

  datatype Action =
    | PutArrives(input: Input)
    | ReadsBody(r: nat, obj: nat)
    | Unmarshals(r: nat, obj: nat)
    | Launches(r: nat)
    | Works(r: nat, i: nat, fault: Option<Fault>)
    | Joins(r: nat)
    | Answers(r: nat)
    | GetArrives(uuid: Bytes)
    | GetSteps(g: nat, failure: Option<GoError>)
    | PoolsDrop(reqs: set<nat>, resps: set<nat>)

  // Section 3 of RFC 4122: a generated ID is a 36-character string.
  predicate GeneratorOk(input: Input) {
    forall i :: 0 <= i < |input.ids| && input.ids[i].Some? ==> |input.ids[i].value| == 36
  }

  predicate Enabled(cfg: Config, s: State, a: Action) {
    match a
    case PutArrives(input) => GeneratorOk(input)
    case ReadsBody(r, obj) => r < |s.puts| && s.puts[r].phase.Received? && Available(s.reqs, obj)
    case Unmarshals(r, obj) => r < |s.puts| && s.puts[r].phase.Unmarshalling? && Available(s.resps, obj)
    case Launches(r) =>
      r < |s.puts| && s.puts[r].phase.Running? && s.puts[r].phase.launched < s.puts[r].count
      && s.puts[r].first + s.puts[r].count <= |s.workers|
    case Works(r, i, fault) =>
      && r < |s.puts| && i < s.puts[r].count && s.puts[r].first + i < |s.workers|
      && Runnable(s.workers[s.puts[r].first + i])
      && FaultAllowed(cfg, s.workers[s.puts[r].first + i], fault)
    case Joins(r) =>
      r < |s.puts| && s.puts[r].phase.Running? && s.puts[r].phase.launched == s.puts[r].count && s.puts[r].wg == 0
      && s.puts[r].first + s.puts[r].count <= |s.workers|
    case Answers(r) => r < |s.puts| && s.puts[r].phase.Answering?
    case GetArrives(_) => true
    case GetSteps(g, failure) => g < |s.gets| && !s.gets[g].phase.Served? && (failure.Some? ==> cfg.remote && WellBuilt(failure.value))
    case PoolsDrop(_, _) => true
  }

  function Block(s: State, r: nat): seq<Worker>
    requires r < |s.puts| && s.puts[r].first + s.puts[r].count <= |s.workers|
  {
    s.workers[s.puts[r].first..s.puts[r].first + s.puts[r].count]
  }

  function SetPhase(s: State, r: nat, phase: PutPhase): State
    requires r < |s.puts|
  {
    s.(puts := s.puts[r := s.puts[r].(phase := phase)])
  }

  // parseRequest, up to the pooled object it will unmarshal into.
  function ReadBody(s: State, r: nat, obj: nat): State
    requires r < |s.puts|
  {
    if s.puts[r].input.body.NilRequest? || s.puts[r].input.body.Unreadable?
    then SetPhase(s, r, Answering(Err(Fail(PUT_BAD_REQUEST))))
    else SetPhase(s, r, Unmarshalling(obj)).(reqs := Take(s.reqs, obj))
  }

  // The rest of parseRequest, then the response object and the wait group.
  function Unmarshal(cfg: Config, s: State, r: nat, obj: nat): State
    requires r < |s.puts| && s.puts[r].phase.Unmarshalling?
  {
    var p := s.puts[r];
    var n := |Puts(p.input)|;
    if p.input.body.Malformed? then
      SetPhase(s, r, Answering(Err(Fail(PUT_BAD_REQUEST)))).(reqs := Give(s.reqs, p.phase.reqObj))
    else if n > cfg.maxNumValues then
      SetPhase(s, r, Answering(Err(Fail(PUT_MAX_NUM_VALUES)))).(reqs := Give(s.reqs, p.phase.reqObj))
    else
      s.(workers := s.workers + NewWorkers(p.input),
         puts := s.puts[r := PutRequest(p.input, Running(0, p.phase.reqObj, obj), |s.workers|, n, n)],
         resps := Take(s.resps, obj))
  }

  function Launch(s: State, r: nat): State
    requires r < |s.puts| && s.puts[r].phase.Running? && s.puts[r].first + s.puts[r].phase.launched < |s.workers|
  {
    var p := s.puts[r];
    var j := p.first + p.phase.launched;
    SetPhase(s, r, p.phase.(launched := p.phase.launched + 1)).(
      workers := s.workers[j := s.workers[j].(pc := Parsing)])
  }

  // A worker's step; its last one is the deferred wg.Done.
  function Work(cfg: Config, s: State, r: nat, j: nat, fault: Option<Fault>): State
    requires r < |s.puts| && j < |s.workers| && Runnable(s.workers[j])
  {
    var e := Advance(cfg, s.store, s.workers[j], fault);
    s.(store := e.store, workers := s.workers[j := e.worker], tally := s.tally + e.log,
       puts := s.puts[r := s.puts[r].(wg := if s.workers[j].pc.Exiting? then s.puts[r].wg - 1 else s.puts[r].wg)])
  }

  // The scan, the response body and the two deferred returns to the pools.
  function Join(s: State, r: nat): State
    requires r < |s.puts| && s.puts[r].phase.Running? && s.puts[r].first + s.puts[r].count <= |s.workers|
  {
    var p := s.puts[r];
    SetPhase(s, r, Answering(OutcomeOf(p.input, Block(s, r)))).(
      reqs := Give(s.reqs, p.phase.reqObj), resps := Give(s.resps, p.phase.respObj))
  }

  function Answer(s: State, r: nat): State
    requires r < |s.puts| && s.puts[r].phase.Answering?
  {
    var outcome := s.puts[r].phase.outcome;
    SetPhase(s, r, Closed(outcome)).(tally := s.tally + multiset{PutAnswerCounter(outcome)})
  }

  // One step of a GET: the next phase and the samples it takes.
  function GetStep(cfg: Config, store: View, g: GetRequest, failure: Option<GoError>): (GetPhase, multiset<Counter>)
    requires !g.phase.Served?
  {
    match g.phase
    case Arrived =>
      if ParseUUID(g.uuid, cfg.allowKeys).Err? then (Responding(ParseUUID(g.uuid, cfg.allowKeys)), multiset{})
      else (Fetching, Backends.GetStarted())
    case Fetching => (Fetched(if failure.Some? then Err(failure.value) else Lookup(store, g.uuid)), multiset{})
    case Fetched(result) => (Responding(result), Backends.GetFinished(result))
    case Responding(result) => (Served(result, GetResponse(result)), GetAnswerLog(result))
  }

  function Serve(cfg: Config, s: State, g: nat, failure: Option<GoError>): State
    requires g < |s.gets| && !s.gets[g].phase.Served?
  {
    var (phase, log) := GetStep(cfg, s.store, s.gets[g], failure);
    s.(gets := s.gets[g := s.gets[g].(phase := phase)], tally := s.tally + log)
  }

  function Apply(cfg: Config, s: State, a: Action): State
    requires Enabled(cfg, s, a)
  {
    match a
    case PutArrives(input) =>
      s.(puts := s.puts + [PutRequest(input, Received, 0, 0, 0)], tally := s.tally + multiset{PutTotal})
    case ReadsBody(r, obj) => ReadBody(s, r, obj)
    case Unmarshals(r, obj) => Unmarshal(cfg, s, r, obj)
    case Launches(r) => Launch(s, r)
    case Works(r, i, fault) => Work(cfg, s, r, s.puts[r].first + i, fault)
    case Joins(r) => Join(s, r)
    case Answers(r) => Answer(s, r)
    case GetArrives(uuid) => s.(gets := s.gets + [GetRequest(uuid, Arrived)], tally := s.tally + multiset{GetTotal})
    case GetSteps(g, failure) => Serve(cfg, s, g, failure)
    case PoolsDrop(reqs, resps) => s.(reqs := Drop(s.reqs, reqs), resps := Drop(s.resps, resps))
  }

  ghost predicate Next(cfg: Config, s: State, t: State) {
    exists a :: Enabled(cfg, s, a) && t == Apply(cfg, s, a)
  }

  ghost predicate StepAt(cfg: Config, run: seq<State>, i: nat)
    requires i + 1 < |run|
  {
    Next(cfg, run[i], run[i + 1])
  }

  // A run: any interleaving of any requests, from a store with any contents.
  ghost predicate IsRun(cfg: Config, start: View, run: seq<State>) {
    && |run| > 0
    && run[0] == Initial(start)
    && forall i :: 0 <= i < |run| - 1 ==> StepAt(cfg, run, i)
  }
}
