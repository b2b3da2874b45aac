/** Each counter, in every reachable state of every run, as the number of requests or elements that it counts. */
module MachineCounts {
  import opened Basics
  import opened Errors
  import opened Metrics
  import opened PutObjects
  import opened Responses
  import opened Store
  import opened PutWorker
  import opened Machine
  import opened MachineInv
  import opened MachineMetrics

  // ---------- POSTs ----------

  function Succeeded(p: PutRequest): int {
    One(p.phase.Closed? && p.phase.outcome.Ok?)
  }

  function BlamedOnClient(p: PutRequest): int {
    One(p.phase.Closed? && p.phase.outcome.Err? && p.phase.outcome.error.Pbc? && 400 <= p.phase.outcome.error.pbc.statusCode < 500)
  }

  function FailedOtherwise(p: PutRequest): int {
    One(p.phase.Closed? && p.phase.outcome.Err?
        && !(p.phase.outcome.error.Pbc? && 400 <= p.phase.outcome.error.pbc.statusCode < 500))
  }

  // Totals are POSTs; durations, POSTs that succeeded; bad requests, those answered with a 4xx; errors, the other failures.
  lemma PostCounts(cfg: Config, start: View, run: seq<State>, n: nat)
    requires IsRun(cfg, start, run) && n < |run|
    ensures var s := run[n];
            && s.tally[PutTotal] == |s.puts|
            && s.tally[PutDuration] == Total(s.puts, Succeeded)
            && s.tally[PutBadRequest] == Total(s.puts, BlamedOnClient)
            && s.tally[PutError] == Total(s.puts, FailedOtherwise)
  {
    SumOfPuts(cfg, start, run, n, PutTotal);
    SumOfPuts(cfg, start, run, n, PutDuration);
    SumOfPuts(cfg, start, run, n, PutBadRequest);
    SumOfPuts(cfg, start, run, n, PutError);
    PutTotals(run[n].puts);
  }

  lemma PutTotals(ps: seq<PutRequest>)
    ensures Total(ps, OfPut(PutTotal)) == |ps|
    ensures Total(ps, OfPut(PutDuration)) == Total(ps, Succeeded)
    ensures Total(ps, OfPut(PutBadRequest)) == Total(ps, BlamedOnClient)
    ensures Total(ps, OfPut(PutError)) == Total(ps, FailedOtherwise)
  {
    TotalOnes(ps, OfPut(PutTotal));
    TotalSame(ps, OfPut(PutDuration), Succeeded);
    TotalSame(ps, OfPut(PutBadRequest), BlamedOnClient);
    TotalSame(ps, OfPut(PutError), FailedOtherwise);
  }

  // ---------- GETs ----------

  // Served with a status from low up to, not including, high.
  function Served(low: int, high: int): GetRequest -> int {
    (g: GetRequest) => One(g.phase.Served? && low <= g.phase.response.status < high)
  }

  function ServedError(g: GetRequest): int {
    One(g.phase.Served? && 500 <= g.phase.response.status)
  }

  // The GET has asked the backend, and the backend has answered.
  predicate HasAsked(cfg: Config, g: GetRequest) {
    g.uuid != [] && (cfg.allowKeys || |g.uuid| == 36) && !g.phase.Arrived?
  }

  predicate HasHeard(cfg: Config, g: GetRequest) {
    HasAsked(cfg, g) && (g.phase.Responding? || g.phase.Served?)
  }

  function Asked(cfg: Config): GetRequest -> int {
    (g: GetRequest) => One(HasAsked(cfg, g))
  }

  function Found(cfg: Config): GetRequest -> int {
    (g: GetRequest) => One(HasHeard(cfg, g) && g.phase.result.Ok?)
  }

  function NotFound(cfg: Config): GetRequest -> int {
    (g: GetRequest) => One(HasHeard(cfg, g) && g.phase.result.Err?)
  }

  function FoundMissing(cfg: Config, kind: ErrorType): GetRequest -> int {
    (g: GetRequest) => One(HasHeard(cfg, g) && g.phase.result.Err? && g.phase.result.error.Pbc? && g.phase.result.error.pbc.kind == kind)
  }

  lemma OutcomeSamples(cfg: Config, store: View, g: GetRequest)
    requires GetInv(cfg, store, g)
    ensures GetSamples(cfg, g, GetTotal) == 1
    ensures GetSamples(cfg, g, GetDuration) == Served(0, 400)(g)
    ensures GetSamples(cfg, g, GetBadRequest) == Served(400, 500)(g)
    ensures GetSamples(cfg, g, GetError) == ServedError(g)
  {
    forall c | HandlerGetCounter(c)
      ensures !g.phase.Served? ==> GetSamples(cfg, g, c) == One(c == GetTotal)
      ensures g.phase.Served? ==> GetSamples(cfg, g, c) == One(c == GetTotal) + GetAnswerLog(g.phase.result)[c]
    {
      OwnGetSamples(cfg, g, c);
    }
    hide GetSamples;
    if g.phase.Served? {
      AnswerIs(g.phase.result);
    }
  }

  lemma ReadCounts(cfg: Config, g: GetRequest)
    ensures GetSamples(cfg, g, GetBackendDuration) == Found(cfg)(g)
    ensures GetSamples(cfg, g, GetBackendError) == NotFound(cfg)(g)
    ensures GetSamples(cfg, g, KeyNotFoundError) == FoundMissing(cfg, KEY_NOT_FOUND)(g)
    ensures GetSamples(cfg, g, MissingKeyError) == FoundMissing(cfg, MISSING_KEY)(g)
  {
    UuidParsesIff(g.uuid, cfg.allowKeys);
    hide GetResponse, ErrorStatus, WriteGetResponse;
  }

  lemma AskedCounts(cfg: Config, store: View, g: GetRequest)
    requires GetInv(cfg, store, g)
    ensures GetSamples(cfg, g, GetBackendTotal) == Asked(cfg)(g)
  {
    UuidParsesIff(g.uuid, cfg.allowKeys);
    hide GetResponse, ErrorStatus, WriteGetResponse;
  }

  // Totals are GETs; durations, bad requests and errors are those answered below 400, in the 400s, and from 500 on; backend
  // totals are the GETs with an acceptable UUID, their durations those that found a value, their errors the others, and
  // among these the missing records and keys.
  lemma GetCounts(cfg: Config, start: View, run: seq<State>, n: nat)
    requires IsRun(cfg, start, run) && n < |run|
    ensures var s := run[n];
            && s.tally[GetTotal] == |s.gets|
            && s.tally[GetDuration] == Total(s.gets, Served(0, 400))
            && s.tally[GetBadRequest] == Total(s.gets, Served(400, 500))
            && s.tally[GetError] == Total(s.gets, ServedError)
            && s.tally[GetBackendTotal] == Total(s.gets, Asked(cfg))
            && s.tally[GetBackendDuration] == Total(s.gets, Found(cfg))
            && s.tally[GetBackendError] == Total(s.gets, NotFound(cfg))
            && s.tally[KeyNotFoundError] == Total(s.gets, FoundMissing(cfg, KEY_NOT_FOUND))
            && s.tally[MissingKeyError] == Total(s.gets, FoundMissing(cfg, MISSING_KEY))
  {
    InvHolds(cfg, start, run, n);
    var gs := run[n].gets;
    forall c | HandlerGetCounter(c) || ReadCounter(c)
      ensures run[n].tally[c] == Total(gs, OfGet(cfg, c))
    {
      SumOfGets(cfg, start, run, n, c);
    }
    GetTotals(cfg, run[n].store, gs);
  }

  lemma GetTotals(cfg: Config, store: View, gs: seq<GetRequest>)
    requires forall g :: g in gs ==> GetInv(cfg, store, g)
    ensures Total(gs, OfGet(cfg, GetTotal)) == |gs|
    ensures Total(gs, OfGet(cfg, GetDuration)) == Total(gs, Served(0, 400))
    ensures Total(gs, OfGet(cfg, GetBadRequest)) == Total(gs, Served(400, 500))
    ensures Total(gs, OfGet(cfg, GetError)) == Total(gs, ServedError)
    ensures Total(gs, OfGet(cfg, GetBackendTotal)) == Total(gs, Asked(cfg))
    ensures Total(gs, OfGet(cfg, GetBackendDuration)) == Total(gs, Found(cfg))
    ensures Total(gs, OfGet(cfg, GetBackendError)) == Total(gs, NotFound(cfg))
    ensures Total(gs, OfGet(cfg, KeyNotFoundError)) == Total(gs, FoundMissing(cfg, KEY_NOT_FOUND))
    ensures Total(gs, OfGet(cfg, MissingKeyError)) == Total(gs, FoundMissing(cfg, MISSING_KEY))
  {
    forall g | g in gs
      ensures OfGet(cfg, GetTotal)(g) == 1 && OfGet(cfg, GetDuration)(g) == Served(0, 400)(g)
      ensures OfGet(cfg, GetBadRequest)(g) == Served(400, 500)(g) && OfGet(cfg, GetError)(g) == ServedError(g)
      ensures OfGet(cfg, GetBackendTotal)(g) == Asked(cfg)(g)
      ensures OfGet(cfg, GetBackendDuration)(g) == Found(cfg)(g) && OfGet(cfg, GetBackendError)(g) == NotFound(cfg)(g)
      ensures OfGet(cfg, KeyNotFoundError)(g) == FoundMissing(cfg, KEY_NOT_FOUND)(g)
      ensures OfGet(cfg, MissingKeyError)(g) == FoundMissing(cfg, MISSING_KEY)(g)
    {
      OutcomeSamples(cfg, store, g);
      ReadCounts(cfg, g);
      AskedCounts(cfg, store, g);
    }
    hide GetSamples;
    TotalOnes(gs, OfGet(cfg, GetTotal));
    TotalSame(gs, OfGet(cfg, GetDuration), Served(0, 400));
    TotalSame(gs, OfGet(cfg, GetBadRequest), Served(400, 500));
    TotalSame(gs, OfGet(cfg, GetError), ServedError);
    TotalSame(gs, OfGet(cfg, GetBackendTotal), Asked(cfg));
    TotalSame(gs, OfGet(cfg, GetBackendDuration), Found(cfg));
    TotalSame(gs, OfGet(cfg, GetBackendError), NotFound(cfg));
    TotalSame(gs, OfGet(cfg, KeyNotFoundError), FoundMissing(cfg, KEY_NOT_FOUND));
    TotalSame(gs, OfGet(cfg, MissingKeyError), FoundMissing(cfg, MISSING_KEY));
  }

  // ---------- Elements ----------

  // The element is well-formed and its worker has taken the key that the client gave, which is allowed.
  function KeyTaken(cfg: Config): Worker -> int {
    (w: Worker) => One(cfg.allowKeys && w.po.key != [] && Payload(w.po).Some?
                       && !w.pc.Unstarted? && !w.pc.Parsing? && !w.pc.ChoosingKey?)
  }

  // Over a store that does not fail, the worker's write was accepted and is settled.
  function SettledWrite(w: Worker): int {
    One(w.wrote && (w.pc.Exiting? || w.pc.Done?))
  }

  lemma KeyProvidedCount(cfg: Config, w: Worker)
    requires WorkerInv(cfg, w)
    ensures WorkerSamples(cfg, w, PutKeyProvided) == KeyTaken(cfg)(w)
  {
    StoredForm(w.po);
    hide ParsePutObject, Payload;
  }

  lemma DurationCount(cfg: Config, w: Worker)
    requires !cfg.remote && WorkerInv(cfg, w)
    ensures WorkerSamples(cfg, w, PutBackendDuration) == SettledWrite(w)
  {
    hide ParsePutObject;
  }

  // Keys provided are well-formed elements with an allowed key of their own; over a store that does not fail, backend
  // durations are accepted writes.
  lemma ElementCounts(cfg: Config, start: View, run: seq<State>, n: nat)
    requires IsRun(cfg, start, run) && n < |run|
    ensures run[n].tally[PutKeyProvided] == Total(run[n].workers, KeyTaken(cfg))
    ensures !cfg.remote ==> run[n].tally[PutBackendDuration] == Total(run[n].workers, SettledWrite)
  {
    InvHolds(cfg, start, run, n);
    var ws := run[n].workers;
    SumOfWorkers(cfg, start, run, n, PutKeyProvided);
    SumOfWorkers(cfg, start, run, n, PutBackendDuration);
    forall w | w in ws
      ensures OfWorker(cfg, PutKeyProvided)(w) == KeyTaken(cfg)(w)
      ensures !cfg.remote ==> OfWorker(cfg, PutBackendDuration)(w) == SettledWrite(w)
    {
      KeyProvidedCount(cfg, w);
      if !cfg.remote {
        DurationCount(cfg, w);
      }
    }
    hide WorkerSamples;
    TotalSame(ws, OfWorker(cfg, PutKeyProvided), KeyTaken(cfg));
    if !cfg.remote {
      TotalSame(ws, OfWorker(cfg, PutBackendDuration), SettledWrite);
    }
  }
}
