/** Conservation laws of the metrics, in every reachable state of every run. */
module MachineMetrics {
  import opened Basics
  import opened Errors
  import opened Metrics
  import opened PutObjects
  import opened Responses
  import opened Store
  import opened PutWorker
  import opened Machine
  import opened MachineInv
  import Backends

  // ---------- The samples each request has taken so far ----------

  function KeyProvidedSamples(cfg: Config, w: Worker, c: Counter): int {
    One(c == PutKeyProvided && cfg.allowKeys && |w.po.key| > 0)
  }

  // The worker calls the backend.
  predicate Calls(cfg: Config, w: Worker) {
    ParsePutObject(w.po).Ok? && KeyOf(cfg, w).Some? && KeyOf(cfg, w).value != []
  }

  // The backend accepted the write.
  predicate Accepted(w: Worker) {
    w.slot.err == None && w.slot.uuid != []
  }

  function WorkerSamples(cfg: Config, w: Worker, c: Counter): int {
    match w.pc
    case Unstarted | Parsing | ChoosingKey(_) => 0
    case CheckingKey(_) => KeyProvidedSamples(cfg, w, c)
    case Storing(v) => KeyProvidedSamples(cfg, w, c) + Backends.PutStarted(v)[c]
    case Stored(v, _) => KeyProvidedSamples(cfg, w, c) + Backends.PutStarted(v)[c]
    case Exiting | Done =>
      if ParsePutObject(w.po).Err? then 0
      else if !Calls(cfg, w) then KeyProvidedSamples(cfg, w, c)
      else
        KeyProvidedSamples(cfg, w, c) + Backends.PutStarted(ParsePutObject(w.po).value)[c]
        + Backends.PutFinished(Accepted(w))[c]
  }

  function PutSamples(p: PutRequest, c: Counter): int {
    One(c == PutTotal) + One(p.phase.Closed? && c == PutAnswerCounter(p.phase.outcome))
  }

  function BackendReadSamples(cfg: Config, g: GetRequest, result: Result<Bytes, GoError>, c: Counter): int {
    if ParseUUID(g.uuid, cfg.allowKeys).Err? then 0 else Backends.GetStarted()[c] + Backends.GetFinished(result)[c]
  }

  function GetSamples(cfg: Config, g: GetRequest, c: Counter): int {
    One(c == GetTotal) +
    match g.phase
    case Arrived => 0
    case Fetching => Backends.GetStarted()[c]
    case Fetched(_) => Backends.GetStarted()[c]
    case Responding(result) => BackendReadSamples(cfg, g, result, c)
    case Served(result, _) => BackendReadSamples(cfg, g, result, c) + GetAnswerLog(result)[c]
  }

  // The same, as functions to sum over.
  function OfWorker(cfg: Config, c: Counter): Worker -> int {
    w => WorkerSamples(cfg, w, c)
  }

  function OfPut(c: Counter): PutRequest -> int {
    p => PutSamples(p, c)
  }

  function OfGet(cfg: Config, c: Counter): GetRequest -> int {
    g => GetSamples(cfg, g, c)
  }

  // Every sample was taken by some request, and is counted once.
  ghost predicate Tallied(cfg: Config, s: State, c: Counter) {
    s.tally[c] == Total(s.workers, OfWorker(cfg, c)) + Total(s.puts, OfPut(c)) + Total(s.gets, OfGet(cfg, c))
  }

  lemma SettlingSamples(cfg: Config, store: View, w: Worker, fault: Option<Fault>, c: Counter)
    requires w.pc.Stored? && WorkerInv(cfg, w)
    ensures var e := Advance(cfg, store, w, fault);
            WorkerSamples(cfg, e.worker, c) == WorkerSamples(cfg, w, c) + e.log[c]
  {
    hide ParsePutObject, Backends.PutStarted, Backends.PutFinished, ClassifyBackendError;
    assert Accepted(Advance(cfg, store, w, fault).worker) <==> w.pc.result == None;
  }

  lemma ChoosingSamples(cfg: Config, store: View, w: Worker, fault: Option<Fault>, c: Counter)
    requires w.pc.ChoosingKey? && WorkerInv(cfg, w)
    ensures var e := Advance(cfg, store, w, fault);
            WorkerSamples(cfg, e.worker, c) == WorkerSamples(cfg, w, c) + e.log[c]
  {
    hide ParsePutObject, Backends.PutStarted, Backends.PutFinished;
  }

  lemma CheckingSamples(cfg: Config, store: View, w: Worker, fault: Option<Fault>, c: Counter)
    requires w.pc.CheckingKey? && WorkerInv(cfg, w)
    ensures var e := Advance(cfg, store, w, fault);
            WorkerSamples(cfg, e.worker, c) == WorkerSamples(cfg, w, c) + e.log[c]
  {
    hide ParsePutObject, Backends.PutStarted, Backends.PutFinished;
  }

  lemma OtherSamples(cfg: Config, store: View, w: Worker, fault: Option<Fault>, c: Counter)
    requires (w.pc.Parsing? || w.pc.Storing? || w.pc.Exiting?) && WorkerInv(cfg, w)
    ensures var e := Advance(cfg, store, w, fault);
            WorkerSamples(cfg, e.worker, c) == WorkerSamples(cfg, w, c) + e.log[c]
  {
    hide ParsePutObject, Backends.PutStarted, Backends.PutFinished;
  }

  lemma AdvanceSamples(cfg: Config, store: View, w: Worker, fault: Option<Fault>, c: Counter)
    requires Runnable(w) && WorkerInv(cfg, w)
    ensures var e := Advance(cfg, store, w, fault);
            WorkerSamples(cfg, e.worker, c) == WorkerSamples(cfg, w, c) + e.log[c]
  {
    if w.pc.Stored? {
      SettlingSamples(cfg, store, w, fault, c);
    } else if w.pc.ChoosingKey? {
      ChoosingSamples(cfg, store, w, fault, c);
    } else if w.pc.CheckingKey? {
      CheckingSamples(cfg, store, w, fault, c);
    } else {
      OtherSamples(cfg, store, w, fault, c);
    }
  }

  lemma GetStepSamples(cfg: Config, store: View, g: GetRequest, failure: Option<GoError>, c: Counter)
    requires !g.phase.Served? && GetInv(cfg, store, g)
    ensures var (phase, log) := GetStep(cfg, store, g, failure);
            GetSamples(cfg, g.(phase := phase), c) == GetSamples(cfg, g, c) + log[c]
  {
  }

  lemma {:induction false} NewWorkersLogNothing(cfg: Config, ws: seq<Worker>, c: Counter)
    requires forall i :: 0 <= i < |ws| ==> ws[i].pc.Unstarted?
    ensures Total(ws, OfWorker(cfg, c)) == 0
  {
    TotalZero(ws, OfWorker(cfg, c));
  }

  lemma WorkTally(cfg: Config, s: State, r: nat, i: nat, fault: Option<Fault>, c: Counter)
    requires Enabled(cfg, s, Works(r, i, fault)) && WorkerInv(cfg, s.workers[s.puts[r].first + i])
    ensures var t := Apply(cfg, s, Works(r, i, fault));
            && Total(t.workers, OfWorker(cfg, c)) == Total(s.workers, OfWorker(cfg, c)) + t.tally[c] - s.tally[c]
            && Total(t.puts, OfPut(c)) == Total(s.puts, OfPut(c)) && t.gets == s.gets
  {
    var t := Apply(cfg, s, Works(r, i, fault));
    var j := s.puts[r].first + i;
    AdvanceSamples(cfg, s.store, s.workers[j], fault, c);
    TotalUpdate(s.workers, j, t.workers[j], OfWorker(cfg, c));
    TotalUpdate(s.puts, r, t.puts[r], OfPut(c));
  }

  // A step that changes one POST and takes that POST's samples.
  lemma PhaseTally(cfg: Config, s: State, t: State, r: nat, c: Counter)
    requires Tallied(cfg, s, c) && r < |s.puts| == |t.puts|
    requires t.puts == s.puts[r := t.puts[r]] && t.workers == s.workers && t.gets == s.gets
    requires t.tally[c] == s.tally[c] + PutSamples(t.puts[r], c) - PutSamples(s.puts[r], c)
    ensures Tallied(cfg, t, c)
  {
    TotalUpdate(s.puts, r, t.puts[r], OfPut(c));
  }

  // A POST that gets its block of workers and takes no sample.
  lemma NewBlockTally(cfg: Config, s: State, t: State, r: nat, more: seq<Worker>, c: Counter)
    requires Tallied(cfg, s, c) && r < |s.puts| == |t.puts| && forall i :: 0 <= i < |more| ==> more[i].pc.Unstarted?
    requires t.puts == s.puts[r := t.puts[r]] && t.workers == s.workers + more && t.gets == s.gets && t.tally == s.tally
    requires PutSamples(t.puts[r], c) == PutSamples(s.puts[r], c)
    ensures Tallied(cfg, t, c)
  {
    TotalUpdate(s.puts, r, t.puts[r], OfPut(c));
    NewWorkersLogNothing(cfg, more, c);
    TotalConcat(s.workers, more, OfWorker(cfg, c));
  }

  lemma UnmarshalTally(cfg: Config, s: State, r: nat, obj: nat, c: Counter)
    requires Enabled(cfg, s, Unmarshals(r, obj)) && Tallied(cfg, s, c)
    ensures Tallied(cfg, Apply(cfg, s, Unmarshals(r, obj)), c)
  {
    hide Tallied;
    var t := Apply(cfg, s, Unmarshals(r, obj));
    if t.puts[r].phase.Running? {
      NewBlockTally(cfg, s, t, r, NewWorkers(s.puts[r].input), c);
    } else {
      PhaseTally(cfg, s, t, r, c);
    }
  }

  lemma LaunchTally(cfg: Config, s: State, r: nat, c: Counter)
    requires RequestsInv(cfg, s) && Enabled(cfg, s, Launches(r)) && Tallied(cfg, s, c)
    ensures Tallied(cfg, Apply(cfg, s, Launches(r)), c)
  {
    hide ParsePutObject, Calls, Accepted, KeyProvidedSamples, PutAnswerCounter;
    var t := Apply(cfg, s, Launches(r));
    LaunchedWasUnstarted(cfg, s, r);
    LaunchShape(cfg, s, r);
    hide Apply, RequestsInv;
    var j := s.puts[r].first + s.puts[r].phase.launched;
    TotalUpdate(s.puts, r, t.puts[r], OfPut(c));
    TotalUpdate(s.workers, j, t.workers[j], OfWorker(cfg, c));
  }

  lemma ServeTally(cfg: Config, s: State, g: nat, failure: Option<GoError>, c: Counter)
    requires GetsInv(cfg, s) && Enabled(cfg, s, GetSteps(g, failure)) && Tallied(cfg, s, c)
    ensures Tallied(cfg, Apply(cfg, s, GetSteps(g, failure)), c)
  {
    var t := Apply(cfg, s, GetSteps(g, failure));
    assert GetInv(cfg, s.store, s.gets[g]);
    GetStepSamples(cfg, s.store, s.gets[g], failure, c);
    TotalUpdate(s.gets, g, t.gets[g], OfGet(cfg, c));
  }

  lemma AnswerTally(cfg: Config, s: State, r: nat, c: Counter)
    requires Enabled(cfg, s, Answers(r)) && Tallied(cfg, s, c)
    ensures Tallied(cfg, Apply(cfg, s, Answers(r)), c)
  {
    PhaseTally(cfg, s, Apply(cfg, s, Answers(r)), r, c);
  }

  lemma SilentTally(cfg: Config, s: State, a: Action, c: Counter)
    requires (a.ReadsBody? || a.Joins?) && Enabled(cfg, s, a) && Tallied(cfg, s, c)
    ensures Tallied(cfg, Apply(cfg, s, a), c)
  {
    var t := Apply(cfg, s, a);
    PhaseTally(cfg, s, t, a.r, c);
  }

  lemma PutArrivesTally(cfg: Config, s: State, input: Input, c: Counter)
    requires Enabled(cfg, s, PutArrives(input)) && Tallied(cfg, s, c)
    ensures Tallied(cfg, Apply(cfg, s, PutArrives(input)), c)
  {
    TotalAppend(s.puts, Apply(cfg, s, PutArrives(input)).puts[|s.puts|], OfPut(c));
  }

  lemma GetArrivesTally(cfg: Config, s: State, uuid: Bytes, c: Counter)
    requires Tallied(cfg, s, c)
    ensures Tallied(cfg, Apply(cfg, s, GetArrives(uuid)), c)
  {
    TotalAppend(s.gets, Apply(cfg, s, GetArrives(uuid)).gets[|s.gets|], OfGet(cfg, c));
  }

  lemma TallyStep(cfg: Config, start: View, s: State, a: Action, c: Counter)
    requires Inv(cfg, start, s) && Enabled(cfg, s, a) && Tallied(cfg, s, c)
    ensures Tallied(cfg, Apply(cfg, s, a), c)
  {
    match a
    case Works(r, i, fault) =>
      assert WorkerInv(cfg, s.workers[s.puts[r].first + i]);
      WorkTally(cfg, s, r, i, fault, c);
    case Launches(r) => LaunchTally(cfg, s, r, c);
    case Unmarshals(r, obj) => UnmarshalTally(cfg, s, r, obj, c);
    case GetSteps(g, failure) => ServeTally(cfg, s, g, failure, c);
    case Answers(r) => AnswerTally(cfg, s, r, c);
    case PutArrives(input) => PutArrivesTally(cfg, s, input, c);
    case GetArrives(uuid) => GetArrivesTally(cfg, s, uuid, c);
    case PoolsDrop(_, _) =>
    case _ => SilentTally(cfg, s, a, c);
  }

  lemma InitialTally(cfg: Config, start: View, c: Counter)
    ensures Tallied(cfg, Initial(start), c)
  {
  }

  lemma TallyInRun(cfg: Config, start: View, run: seq<State>, n: nat, c: Counter)
    requires IsRun(cfg, start, run) && n + 1 < |run| && Tallied(cfg, run[n], c)
    ensures Tallied(cfg, run[n + 1], c)
  {
    InvHolds(cfg, start, run, n);
    assert StepAt(cfg, run, n);
    TallyNext(cfg, start, run[n], run[n + 1], c);
  }

  lemma {:induction false} TallyHolds(cfg: Config, start: View, run: seq<State>, n: nat, c: Counter)
    requires IsRun(cfg, start, run) && n < |run|
    ensures Tallied(cfg, run[n], c)
  {
    hide Tallied;
    if n == 0 {
      InitialTally(cfg, start, c);
    } else {
      TallyHolds(cfg, start, run, n - 1, c);
      TallyInRun(cfg, start, run, n - 1, c);
    }
  }

  lemma TallyNext(cfg: Config, start: View, s: State, t: State, c: Counter)
    requires Inv(cfg, start, s) && Next(cfg, s, t) && Tallied(cfg, s, c)
    ensures Tallied(cfg, t, c)
  {
    var a :| Enabled(cfg, s, a) && t == Apply(cfg, s, a);
    TallyStep(cfg, start, s, a, c);
  }

  // ---------- The laws ----------

  predicate ReadCounter(c: Counter) {
    c == GetBackendTotal || c == GetBackendDuration || c == GetBackendError || c == KeyNotFoundError || c == MissingKeyError
  }

  predicate WorkerCounter(c: Counter) {
    c == PutBackendXml || c == PutBackendJson || c == PutBackendInvalid || c == PutBackendTTLSeconds
    || c == PutBackendSize || c == PutBackendDuration || c == PutBackendError || c == PutKeyProvided
  }

  lemma WorkersSilent(cfg: Config, ws: seq<Worker>, c: Counter)
    requires HandlerPutCounter(c) || HandlerGetCounter(c) || ReadCounter(c)
    ensures Total(ws, OfWorker(cfg, c)) == 0
  {
    hide ParsePutObject, Calls, Accepted;
    TotalZero(ws, OfWorker(cfg, c));
  }

  lemma PutsSilent(ps: seq<PutRequest>, c: Counter)
    requires HandlerGetCounter(c) || ReadCounter(c) || WorkerCounter(c)
    ensures Total(ps, OfPut(c)) == 0
  {
  }

  lemma GetsSilent(cfg: Config, gs: seq<GetRequest>, c: Counter)
    requires HandlerPutCounter(c) || WorkerCounter(c)
    ensures Total(gs, OfGet(cfg, c)) == 0
  {
    hide ParseUUID, WriteGetResponse, ErrorStatus;
    TotalZero(gs, OfGet(cfg, c));
  }

  // A counter that only one kind of request touches is the sum over the requests of that kind.
  lemma SumOfPuts(cfg: Config, start: View, run: seq<State>, n: nat, c: Counter)
    requires IsRun(cfg, start, run) && n < |run| && HandlerPutCounter(c)
    ensures run[n].tally[c] == Total(run[n].puts, OfPut(c))
  {
    TallyHolds(cfg, start, run, n, c);
    WorkersSilent(cfg, run[n].workers, c);
    GetsSilent(cfg, run[n].gets, c);
  }

  lemma SumOfGets(cfg: Config, start: View, run: seq<State>, n: nat, c: Counter)
    requires IsRun(cfg, start, run) && n < |run| && (HandlerGetCounter(c) || ReadCounter(c))
    ensures run[n].tally[c] == Total(run[n].gets, OfGet(cfg, c))
  {
    TallyHolds(cfg, start, run, n, c);
    WorkersSilent(cfg, run[n].workers, c);
    PutsSilent(run[n].puts, c);
  }

  lemma SumOfWorkers(cfg: Config, start: View, run: seq<State>, n: nat, c: Counter)
    requires IsRun(cfg, start, run) && n < |run| && WorkerCounter(c)
    ensures run[n].tally[c] == Total(run[n].workers, OfWorker(cfg, c))
  {
    TallyHolds(cfg, start, run, n, c);
    PutsSilent(run[n].puts, c);
    GetsSilent(cfg, run[n].gets, c);
  }

  function PutInFlight(p: PutRequest): int {
    One(!p.phase.Closed?)
  }

  // Each POST is counted once as a total and, when answered, once as a duration, a bad request or an error.
  lemma PutAccounting(cfg: Config, start: View, run: seq<State>, n: nat)
    requires IsRun(cfg, start, run) && n < |run|
    ensures var t := run[n].tally;
            t[PutTotal] == t[PutBadRequest] + t[PutError] + t[PutDuration] + Total(run[n].puts, PutInFlight)
  {
    SumOfPuts(cfg, start, run, n, PutTotal);
    SumOfPuts(cfg, start, run, n, PutBadRequest);
    SumOfPuts(cfg, start, run, n, PutError);
    SumOfPuts(cfg, start, run, n, PutDuration);
    TotalLaw(run[n].puts, OfPut(PutTotal), OfPut(PutBadRequest), OfPut(PutError), OfPut(PutDuration), PutInFlight);
  }

  function GetInFlight(g: GetRequest): int {
    One(!g.phase.Served?)
  }

  // The backend's samples aside, a GET takes its total and, once served, those of its answer.
  lemma OwnGetSamples(cfg: Config, g: GetRequest, c: Counter)
    requires HandlerGetCounter(c)
    ensures GetSamples(cfg, g, c) == One(c == GetTotal) + if g.phase.Served? then GetAnswerLog(g.phase.result)[c] else 0
  {
    if g.phase.Responding? || g.phase.Served? {
      Backends.ReadSamplesAreSilent(g.phase.result, c);
    }
    hide GetAnswerLog, Backends.GetFinished;
  }

  // Every error has a status of at least 400, so each served GET is counted exactly once.
  lemma ServedOnce(cfg: Config, store: View, g: GetRequest)
    requires GetInv(cfg, store, g)
    ensures GetSamples(cfg, g, GetTotal)
            == GetSamples(cfg, g, GetBadRequest) + GetSamples(cfg, g, GetError) + GetSamples(cfg, g, GetDuration) + GetInFlight(g)
  {
    forall c | HandlerGetCounter(c)
      ensures GetSamples(cfg, g, c) == One(c == GetTotal) + if g.phase.Served? then GetAnswerLog(g.phase.result)[c] else 0
    {
      OwnGetSamples(cfg, g, c);
    }
    hide GetSamples;
    if g.phase.Served? && g.phase.result.Err? {
      assert ErrorStatus(g.phase.result.error) >= 400;
    }
  }

  lemma GetAccounting(cfg: Config, start: View, run: seq<State>, n: nat)
    requires IsRun(cfg, start, run) && n < |run|
    ensures var t := run[n].tally;
            t[GetTotal] == t[GetBadRequest] + t[GetError] + t[GetDuration] + Total(run[n].gets, GetInFlight)
  {
    var s := run[n];
    InvHolds(cfg, start, run, n);
    SumOfGets(cfg, start, run, n, GetTotal);
    SumOfGets(cfg, start, run, n, GetBadRequest);
    SumOfGets(cfg, start, run, n, GetError);
    SumOfGets(cfg, start, run, n, GetDuration);
    forall g | g in s.gets
      ensures OfGet(cfg, GetTotal)(g) == OfGet(cfg, GetBadRequest)(g) + OfGet(cfg, GetError)(g) + OfGet(cfg, GetDuration)(g) + GetInFlight(g)
    {
      ServedOnce(cfg, s.store, g);
    }
    TotalLaw(s.gets, OfGet(cfg, GetTotal), OfGet(cfg, GetBadRequest), OfGet(cfg, GetError), OfGet(cfg, GetDuration), GetInFlight);
  }

  function Reading(g: GetRequest): int {
    One(g.phase.Fetching? || g.phase.Fetched?)
  }

  // Each backend read is counted once as a total and, when it returns, once as a duration or an error.
  lemma BackendGetAccounting(cfg: Config, start: View, run: seq<State>, n: nat)
    requires IsRun(cfg, start, run) && n < |run|
    ensures var t := run[n].tally;
            t[GetBackendTotal] == t[GetBackendDuration] + t[GetBackendError] + Total(run[n].gets, Reading)
  {
    var s := run[n];
    InvHolds(cfg, start, run, n);
    SumOfGets(cfg, start, run, n, GetBackendTotal);
    SumOfGets(cfg, start, run, n, GetBackendDuration);
    SumOfGets(cfg, start, run, n, GetBackendError);
    ReadTotals(cfg, s.store, s.gets);
  }

  lemma ReadOnce(cfg: Config, store: View, g: GetRequest)
    requires GetInv(cfg, store, g)
    ensures GetSamples(cfg, g, GetBackendTotal)
            == GetSamples(cfg, g, GetBackendDuration) + GetSamples(cfg, g, GetBackendError) + Reading(g)
  {
  }

  lemma {:induction false} ReadTotals(cfg: Config, store: View, gs: seq<GetRequest>)
    requires forall g :: g in gs ==> GetInv(cfg, store, g)
    ensures Total(gs, OfGet(cfg, GetBackendTotal))
            == Total(gs, OfGet(cfg, GetBackendDuration)) + Total(gs, OfGet(cfg, GetBackendError)) + Total(gs, Reading)
  {
    hide GetSamples, Reading, GetInv;
    if gs != [] {
      assert gs[0] in gs;
      ReadOnce(cfg, store, gs[0]);
      ReadTotals(cfg, store, gs[1..]);
    }
  }

  // The worker has called the backend with an element of this type.
  predicate HasCalled(cfg: Config, w: Worker, kind: Bytes) {
    w.po.kind == kind && Calls(cfg, w) && (w.pc.Storing? || w.pc.Stored? || w.pc.Exiting? || w.pc.Done?)
  }

  function CallsOf(cfg: Config, kind: Bytes): Worker -> int {
    w => One(HasCalled(cfg, w, kind))
  }

  function InBackend(w: Worker): int {
    One(w.pc.Storing? || w.pc.Stored?)
  }

  lemma FormatSamples(cfg: Config, w: Worker)
    requires WorkerInv(cfg, w)
    ensures WorkerSamples(cfg, w, PutBackendXml) == One(HasCalled(cfg, w, XML_PREFIX))
    ensures WorkerSamples(cfg, w, PutBackendJson) == One(HasCalled(cfg, w, JSON_PREFIX))
    ensures WorkerSamples(cfg, w, PutBackendInvalid) == 0
  {
    StoredForm(w.po);
    hide ParsePutObject, Payload;
  }

  lemma CallSamples(cfg: Config, w: Worker)
    requires WorkerInv(cfg, w)
    ensures WorkerSamples(cfg, w, PutBackendTTLSeconds)
            == One(HasCalled(cfg, w, XML_PREFIX)) + One(HasCalled(cfg, w, JSON_PREFIX))
    ensures WorkerSamples(cfg, w, PutBackendSize)
            == WorkerSamples(cfg, w, PutBackendDuration) + WorkerSamples(cfg, w, PutBackendError)
    ensures WorkerSamples(cfg, w, PutBackendTTLSeconds) == WorkerSamples(cfg, w, PutBackendSize) + InBackend(w)
  {
    StoredForm(w.po);
  }

  // Xml and Json count the well-formed elements of each type that got a key; Invalid stays zero; every call
  // takes one TTL sample and, once it returns, one size sample and one of duration and error.
  lemma BackendPutAccounting(cfg: Config, start: View, run: seq<State>, n: nat)
    requires IsRun(cfg, start, run) && n < |run|
    ensures var s := run[n]; var t := s.tally;
            && t[PutBackendXml] == Total(s.workers, CallsOf(cfg, XML_PREFIX))
            && t[PutBackendJson] == Total(s.workers, CallsOf(cfg, JSON_PREFIX))
            && t[PutBackendInvalid] == 0
            && t[PutBackendXml] + t[PutBackendJson] == t[PutBackendTTLSeconds]
            && t[PutBackendSize] == t[PutBackendDuration] + t[PutBackendError]
            && t[PutBackendTTLSeconds] == t[PutBackendSize] + Total(s.workers, InBackend)
  {
    InvHolds(cfg, start, run, n);
    var ws := run[n].workers;
    forall c | WorkerCounter(c)
      ensures run[n].tally[c] == Total(ws, OfWorker(cfg, c))
    {
      SumOfWorkers(cfg, start, run, n, c);
    }
    forall w | w in ws
      ensures WorkerInv(cfg, w)
    {
    }
    WorkerTotals(cfg, ws);
  }

  lemma WorkerTotals(cfg: Config, ws: seq<Worker>)
    requires forall w :: w in ws ==> WorkerInv(cfg, w)
    ensures Total(ws, OfWorker(cfg, PutBackendXml)) == Total(ws, CallsOf(cfg, XML_PREFIX))
    ensures Total(ws, OfWorker(cfg, PutBackendJson)) == Total(ws, CallsOf(cfg, JSON_PREFIX))
    ensures Total(ws, OfWorker(cfg, PutBackendInvalid)) == 0
    ensures Total(ws, OfWorker(cfg, PutBackendTTLSeconds)) == Total(ws, CallsOf(cfg, XML_PREFIX)) + Total(ws, CallsOf(cfg, JSON_PREFIX))
    ensures Total(ws, OfWorker(cfg, PutBackendSize))
            == Total(ws, OfWorker(cfg, PutBackendDuration)) + Total(ws, OfWorker(cfg, PutBackendError))
    ensures Total(ws, OfWorker(cfg, PutBackendTTLSeconds)) == Total(ws, OfWorker(cfg, PutBackendSize)) + Total(ws, InBackend)
  {
    if ws != [] {
      assert ws[0] in ws;
      FormatSamples(cfg, ws[0]);
      CallSamples(cfg, ws[0]);
      WorkerTotals(cfg, ws[1..]);
    }
  }
}
