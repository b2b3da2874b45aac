/** What every step of the system keeps: workers, joins, the store and the reads. */
module MachineInv {
  import opened Basics
  import opened Errors
  import opened PutObjects
  import opened Responses
  import opened Store
  import opened PutWorker
  import opened WriteOnce
  import opened Machine

  // ---------- Requests and their blocks of workers ----------

  predicate Apart(p: PutRequest, q: PutRequest) {
    p.count == 0 || q.count == 0 || p.first + p.count <= q.first || q.first + q.count <= p.first
  }

  ghost predicate Blocks(s: State) {
    && (forall r :: 0 <= r < |s.puts| ==> s.puts[r].first + s.puts[r].count <= |s.workers|)
    && (forall r, q :: 0 <= r < |s.puts| && 0 <= q < |s.puts| && r != q ==> Apart(s.puts[r], s.puts[q]))
  }

  // One for a worker that has not called wg.Done.
  function Open(w: Worker): int {
    if w.pc.Done? then 0 else 1
  }

  // The workers are the ones the request's elements call for.
  ghost predicate Asked(input: Input, ws: seq<Worker>) {
    |ws| == |Puts(input)| && forall i :: 0 <= i < |ws| ==> ws[i].po == Puts(input)[i] && ws[i].id == IdAt(input, i)
  }

  ghost predicate AllDone(ws: seq<Worker>) {
    forall i :: 0 <= i < |ws| ==> ws[i].pc.Done?
  }

  // The error of a request that starts no worker.
  function Rejection(cfg: Config, input: Input): Option<GoError> {
    if !input.body.Decoded? then Some(Fail(PUT_BAD_REQUEST))
    else if |Puts(input)| > cfg.maxNumValues then Some(Fail(PUT_MAX_NUM_VALUES))
    else None
  }

  ghost predicate Answered(cfg: Config, p: PutRequest, ws: seq<Worker>, outcome: Result<seq<Bytes>, GoError>) {
    if Rejection(cfg, p.input).Some?
    then ws == [] && outcome == Err(Rejection(cfg, p.input).value)
    else Asked(p.input, ws) && AllDone(ws) && outcome == OutcomeOf(p.input, ws)
  }

  ghost predicate RequestInv(cfg: Config, p: PutRequest, ws: seq<Worker>) {
    GeneratorOk(p.input) &&
    match p.phase
    case Received => ws == []
    case Unmarshalling(_) => ws == [] && !p.input.body.NilRequest? && !p.input.body.Unreadable?
    case Running(launched, _, _) =>
      && Rejection(cfg, p.input) == None && Asked(p.input, ws)
      && launched <= |ws| && (forall i :: 0 <= i < |ws| ==> (ws[i].pc.Unstarted? <==> i >= launched))
      && p.wg == Total(ws, Open)
    case Answering(outcome) => Answered(cfg, p, ws, outcome)
    case Closed(outcome) => Answered(cfg, p, ws, outcome)
  }

  ghost predicate RequestsInv(cfg: Config, s: State) {
    Blocks(s) && forall r :: 0 <= r < |s.puts| ==> RequestInv(cfg, s.puts[r], Block(s, r))
  }

  lemma OwnBlockApart(s: State, t: State, r: nat)
    requires Blocks(s)
    requires r < |s.puts| && |t.puts| == |s.puts| && |t.workers| == |s.workers|
    requires t.puts[r].first == s.puts[r].first && t.puts[r].count == s.puts[r].count
    requires forall q :: 0 <= q < |s.puts| && q != r ==> t.puts[q] == s.puts[q]
    requires forall j :: 0 <= j < |s.workers| && !(s.puts[r].first <= j < s.puts[r].first + s.puts[r].count)
                         ==> t.workers[j] == s.workers[j]
    ensures Blocks(t) && forall q :: 0 <= q < |s.puts| && q != r ==> Block(t, q) == Block(s, q)
  {
  }

  // A step that changes one request and workers of its own block only.
  lemma OwnBlockOnly(cfg: Config, s: State, t: State, r: nat)
    requires RequestsInv(cfg, s)
    requires r < |s.puts| && |t.puts| == |s.puts| && |t.workers| == |s.workers|
    requires t.puts[r].first == s.puts[r].first && t.puts[r].count == s.puts[r].count
    requires forall q :: 0 <= q < |s.puts| && q != r ==> t.puts[q] == s.puts[q]
    requires forall j :: 0 <= j < |s.workers| && !(s.puts[r].first <= j < s.puts[r].first + s.puts[r].count)
                         ==> t.workers[j] == s.workers[j]
    requires RequestInv(cfg, t.puts[r], Block(t, r))
    ensures RequestsInv(cfg, t)
  {
    hide ParsePutObject, RequestInv;
    OwnBlockApart(s, t, r);
    forall q | 0 <= q < |t.puts|
      ensures RequestInv(cfg, t.puts[q], Block(t, q))
    {
    }
  }

  lemma {:induction false} OpenNonNegative(ws: seq<Worker>)
    ensures Total(ws, Open) >= 0
    ensures Total(ws, Open) == 0 ==> AllDone(ws)
  {
    if ws != [] {
      OpenNonNegative(ws[1..]);
      assert ws == [ws[0]] + ws[1..];
    }
  }

  lemma {:induction false} AllOpen(ws: seq<Worker>)
    requires forall i :: 0 <= i < |ws| ==> !ws[i].pc.Done?
    ensures Total(ws, Open) == |ws|
  {
    if ws != [] {
      AllOpen(ws[1..]);
    }
  }

  lemma PutArrivesKeepsRequests(cfg: Config, s: State, input: Input)
    requires RequestsInv(cfg, s) && Enabled(cfg, s, PutArrives(input))
    ensures RequestsInv(cfg, Apply(cfg, s, PutArrives(input)))
  {
    var t := Apply(cfg, s, PutArrives(input));
    forall q | 0 <= q < |t.puts|
      ensures t.puts[q].first + t.puts[q].count <= |t.workers| && RequestInv(cfg, t.puts[q], Block(t, q))
    {
      if q < |s.puts| {
        AppendKeepsBlock(s, t, q);
      }
    }
  }

  lemma AppendKeepsBlock(s: State, t: State, q: nat)
    requires q < |s.puts| && q < |t.puts| && t.puts[q] == s.puts[q]
    requires s.puts[q].first + s.puts[q].count <= |s.workers| && s.workers <= t.workers
    ensures Block(t, q) == Block(s, q)
  {
  }

  // A request that gets a new block after all others.
  lemma NewBlock(cfg: Config, s: State, t: State, r: nat)
    requires RequestsInv(cfg, s) && r < |s.puts| && s.puts[r].count == 0
    requires |t.puts| == |s.puts| && t.puts == s.puts[r := t.puts[r]] && s.workers <= t.workers
    requires t.puts[r].first == |s.workers| && t.puts[r].first + t.puts[r].count == |t.workers|
    requires RequestInv(cfg, t.puts[r], Block(t, r))
    ensures RequestsInv(cfg, t)
  {
    forall q | 0 <= q < |t.puts|
      ensures t.puts[q].first + t.puts[q].count <= |t.workers| && RequestInv(cfg, t.puts[q], Block(t, q))
    {
      if q != r {
        AppendKeepsBlock(s, t, q);
      }
    }
  }

  lemma UnmarshalKeepsRequests(cfg: Config, s: State, r: nat, obj: nat)
    requires RequestsInv(cfg, s) && Enabled(cfg, s, Unmarshals(r, obj))
    ensures RequestsInv(cfg, Apply(cfg, s, Unmarshals(r, obj)))
  {
    var t := Apply(cfg, s, Unmarshals(r, obj));
    var p := s.puts[r];
    assert RequestInv(cfg, p, Block(s, r));
    if Rejection(cfg, p.input).Some? {
      assert Block(t, r) == Block(s, r);
      OwnBlockOnly(cfg, s, t, r);
    } else {
      var ws := NewWorkers(p.input);
      assert Block(t, r) == ws;
      AllOpen(ws);
      NewBlock(cfg, s, t, r);
    }
  }

  lemma LaunchedWasUnstarted(cfg: Config, s: State, r: nat)
    requires RequestsInv(cfg, s) && Enabled(cfg, s, Launches(r))
    ensures s.workers[s.puts[r].first + s.puts[r].phase.launched].pc.Unstarted?
  {
    assert RequestInv(cfg, s.puts[r], Block(s, r));
    assert s.workers[s.puts[r].first + s.puts[r].phase.launched] == Block(s, r)[s.puts[r].phase.launched];
  }

  lemma LaunchShape(cfg: Config, s: State, r: nat)
    requires RequestsInv(cfg, s) && Enabled(cfg, s, Launches(r))
    ensures var t, p, i := Apply(cfg, s, Launches(r)), s.puts[r], s.puts[r].phase.launched;
            && t.puts == s.puts[r := p.(phase := p.phase.(launched := i + 1))]
            && t.workers == s.workers[p.first + i := s.workers[p.first + i].(pc := Parsing)]
            && t.gets == s.gets && t.tally == s.tally && t.store == s.store
  {
  }

  lemma LaunchKeepsRequests(cfg: Config, s: State, r: nat)
    requires RequestsInv(cfg, s) && Enabled(cfg, s, Launches(r))
    ensures RequestsInv(cfg, Apply(cfg, s, Launches(r)))
  {
    var t := Apply(cfg, s, Launches(r));
    var p, ws := s.puts[r], Block(s, r);
    var i := p.phase.launched;
    LaunchedBlock(cfg, p, ws);
    LaunchShape(cfg, s, r);
    hide Apply, RequestInv;
    assert Block(t, r) == ws[i := ws[i].(pc := Parsing)];
    OwnBlockOnly(cfg, s, t, r);
  }

  lemma LaunchedBlock(cfg: Config, p: PutRequest, ws: seq<Worker>)
    requires RequestInv(cfg, p, ws) && p.phase.Running? && p.phase.launched < |ws|
    ensures var i := p.phase.launched;
            RequestInv(cfg, p.(phase := p.phase.(launched := i + 1)), ws[i := ws[i].(pc := Parsing)])
  {
    TotalUpdate(ws, p.phase.launched, ws[p.phase.launched].(pc := Parsing), Open);
  }

  lemma SteppedBlock(cfg: Config, p: PutRequest, ws: seq<Worker>, i: nat, w: Worker, wg: int)
    requires RequestInv(cfg, p, ws) && i < |ws| && Runnable(ws[i])
    requires w.pc != Unstarted && w.po == ws[i].po && w.id == ws[i].id && wg == p.wg + Open(w) - Open(ws[i])
    ensures RequestInv(cfg, p.(wg := wg), ws[i := w]) && p.phase.Running?
  {
    TotalUpdate(ws, i, w, Open);
  }

  lemma ReplaceWorker(cfg: Config, s: State, t: State, r: nat, i: nat, w: Worker, wg: int)
    requires RequestsInv(cfg, s) && r < |s.puts| && i < s.puts[r].count
    requires t.puts == s.puts[r := s.puts[r].(wg := wg)] && t.workers == s.workers[s.puts[r].first + i := w]
    requires var was := Block(s, r)[i];
             Runnable(was) && w.pc != Unstarted && w.po == was.po && w.id == was.id && wg == s.puts[r].wg + Open(w) - Open(was)
    ensures RequestsInv(cfg, t) && s.puts[r].phase.Running?
  {
    hide RequestInv;
    var ws := Block(s, r);
    SteppedBlock(cfg, s.puts[r], ws, i, w, wg);
    assert Block(t, r) == ws[i := w];
    OwnBlockOnly(cfg, s, t, r);
  }

  // What a worker's step changes.
  lemma WorkShape(cfg: Config, s: State, r: nat, i: nat, fault: Option<Fault>)
    requires Enabled(cfg, s, Works(r, i, fault))
    ensures var t, w := Apply(cfg, s, Works(r, i, fault)), s.workers[s.puts[r].first + i];
            var e := Advance(cfg, s.store, w, fault);
            && t.store == e.store && t.workers == s.workers[s.puts[r].first + i := e.worker] && t.gets == s.gets
            && t.puts == s.puts[r := s.puts[r].(wg := if w.pc.Exiting? then s.puts[r].wg - 1 else s.puts[r].wg)]
  {
    hide Advance;
  }

  lemma WorkKeepsRequests(cfg: Config, s: State, r: nat, i: nat, fault: Option<Fault>)
    requires RequestsInv(cfg, s) && Enabled(cfg, s, Works(r, i, fault))
    ensures RequestsInv(cfg, Apply(cfg, s, Works(r, i, fault)))
    ensures s.puts[r].phase.Running?
  {
    hide Apply, Advance, RequestInv;
    var t := Apply(cfg, s, Works(r, i, fault));
    var w := s.workers[s.puts[r].first + i];
    assert Block(s, r)[i] == w;
    WorkShape(cfg, s, r, i, fault);
    AdvanceFrame(cfg, s.store, w, fault);
    ReplaceWorker(cfg, s, t, r, i, Advance(cfg, s.store, w, fault).worker, t.puts[r].wg);
  }

  lemma JoinKeepsRequests(cfg: Config, s: State, r: nat)
    requires RequestsInv(cfg, s) && Enabled(cfg, s, Joins(r))
    ensures RequestsInv(cfg, Apply(cfg, s, Joins(r)))
    ensures AllDone(Block(s, r))
  {
    var t := Apply(cfg, s, Joins(r));
    assert RequestInv(cfg, s.puts[r], Block(s, r));
    OpenNonNegative(Block(s, r));
    assert Block(t, r) == Block(s, r);
    OwnBlockOnly(cfg, s, t, r);
  }

  lemma ReadBodyKeepsRequests(cfg: Config, s: State, r: nat, obj: nat)
    requires RequestsInv(cfg, s) && Enabled(cfg, s, ReadsBody(r, obj))
    ensures RequestsInv(cfg, Apply(cfg, s, ReadsBody(r, obj)))
  {
    var t := Apply(cfg, s, ReadsBody(r, obj));
    assert RequestInv(cfg, s.puts[r], Block(s, r));
    assert Block(t, r) == Block(s, r);
    OwnBlockOnly(cfg, s, t, r);
  }

  lemma AnswerKeepsRequests(cfg: Config, s: State, r: nat)
    requires RequestsInv(cfg, s) && Enabled(cfg, s, Answers(r))
    ensures RequestsInv(cfg, Apply(cfg, s, Answers(r)))
  {
    var t := Apply(cfg, s, Answers(r));
    assert RequestInv(cfg, s.puts[r], Block(s, r));
    assert Block(t, r) == Block(s, r);
    OwnBlockOnly(cfg, s, t, r);
  }

  // Actions other than a worker's, a launch or an unmarshalling leave the workers and the store alone.
  predicate Quiet(a: Action) {
    !a.Works? && !a.Launches? && !a.Unmarshals?
  }

  lemma QuietStep(cfg: Config, s: State, a: Action)
    requires Quiet(a) && Enabled(cfg, s, a)
    ensures var t := Apply(cfg, s, a); t.workers == s.workers && t.store == s.store && |s.gets| <= |t.gets|
  {
  }

  lemma RequestsStep(cfg: Config, s: State, a: Action)
    requires RequestsInv(cfg, s) && Enabled(cfg, s, a)
    ensures RequestsInv(cfg, Apply(cfg, s, a))
  {
    hide ParsePutObject, RequestInv;
    match a
    case PutArrives(input) => PutArrivesKeepsRequests(cfg, s, input);
    case Unmarshals(r, obj) => UnmarshalKeepsRequests(cfg, s, r, obj);
    case Launches(r) => LaunchKeepsRequests(cfg, s, r);
    case Works(r, i, fault) => WorkKeepsRequests(cfg, s, r, i, fault);
    case Joins(r) => JoinKeepsRequests(cfg, s, r);
    case ReadsBody(r, obj) => ReadBodyKeepsRequests(cfg, s, r, obj);
    case Answers(r) => AnswerKeepsRequests(cfg, s, r);
    case _ => SameRequests(cfg, s, Apply(cfg, s, a));
  }

  lemma SameRequests(cfg: Config, s: State, t: State)
    requires RequestsInv(cfg, s) && t.puts == s.puts && t.workers == s.workers
    ensures RequestsInv(cfg, t)
  {
  }

  // ---------- Workers and the store ----------

  ghost predicate WorkersInv(cfg: Config, start: View, s: State) {
    && (forall j :: 0 <= j < |s.workers| ==> WorkerInv(cfg, s.workers[j]))
    && StoreInv(start, s.store, Claims(cfg, s.workers), cfg.remote)
  }

  lemma WorkersReplaced(cfg: Config, start: View, s: State, t: State, j: nat, w: Worker)
    requires WorkersInv(cfg, start, s) && j < |s.workers|
    requires t.workers == s.workers[j := w] && WorkerInv(cfg, w)
    requires StoreInv(start, t.store, Claims(cfg, t.workers), cfg.remote)
    ensures WorkersInv(cfg, start, t)
  {
  }

  lemma StartingKeepsWorkerInv(cfg: Config, w: Worker)
    requires w.pc.Unstarted? && WorkerInv(cfg, w)
    ensures WorkerInv(cfg, w.(pc := Parsing))
  {
  }

  lemma LaunchKeepsWorkers(cfg: Config, start: View, s: State, r: nat)
    requires RequestsInv(cfg, s) && WorkersInv(cfg, start, s) && Enabled(cfg, s, Launches(r))
    ensures var t := Apply(cfg, s, Launches(r)); WorkersInv(cfg, start, t) && Extends(s.store, t.store)
  {
    hide WorkerInv, StoreInv, RequestsInv;
    var j := s.puts[r].first + s.puts[r].phase.launched;
    LaunchedWasUnstarted(cfg, s, r);
    var w := s.workers[j].(pc := Parsing);
    StartingKeepsWorkerInv(cfg, s.workers[j]);
    StartingKeepsStore(cfg, start, s.store, s.workers, j);
    WorkersReplaced(cfg, start, s, Apply(cfg, s, Launches(r)), j, w);
  }

  lemma WorkKeepsWorkers(cfg: Config, start: View, s: State, r: nat, i: nat, fault: Option<Fault>)
    requires WorkersInv(cfg, start, s) && Enabled(cfg, s, Works(r, i, fault))
    ensures var t := Apply(cfg, s, Works(r, i, fault)); WorkersInv(cfg, start, t) && Extends(s.store, t.store)
  {
    hide Apply, Advance, WorkerInv, StoreInv, Extends;
    var j := s.puts[r].first + i;
    var w := s.workers[j];
    WorkShape(cfg, s, r, i, fault);
    AdvanceKeepsWorkerInv(cfg, s.store, w, fault);
    StoreStep(cfg, start, s.store, s.workers, j, fault);
    WorkersReplaced(cfg, start, s, Apply(cfg, s, Works(r, i, fault)), j, Advance(cfg, s.store, w, fault).worker);
  }

  lemma UnmarshalKeepsWorkers(cfg: Config, start: View, s: State, r: nat, obj: nat)
    requires WorkersInv(cfg, start, s) && Enabled(cfg, s, Unmarshals(r, obj))
    ensures var t := Apply(cfg, s, Unmarshals(r, obj)); WorkersInv(cfg, start, t) && Extends(s.store, t.store)
  {
    hide Apply, StoreInv, Extends;
    var more := NewWorkers(s.puts[r].input);
    UnmarshalShape(cfg, s, r, obj);
    StoreAppend(cfg, start, s.store, s.workers, more);
    WorkersAppended(cfg, start, s, Apply(cfg, s, Unmarshals(r, obj)), more);
    SameStoreExtends(s.store);
  }

  lemma SameStoreExtends(store: View)
    ensures Extends(store, store)
  {
  }

  lemma UnmarshalShape(cfg: Config, s: State, r: nat, obj: nat)
    requires Enabled(cfg, s, Unmarshals(r, obj))
    ensures var t := Apply(cfg, s, Unmarshals(r, obj));
            t.store == s.store && (t.workers == s.workers || t.workers == s.workers + NewWorkers(s.puts[r].input))
  {
  }

  lemma WorkersAppended(cfg: Config, start: View, s: State, t: State, more: seq<Worker>)
    requires WorkersInv(cfg, start, s) && t.store == s.store
    requires t.workers == s.workers || t.workers == s.workers + more
    requires StoreInv(start, s.store, Claims(cfg, s.workers + more), cfg.remote)
    requires forall i :: 0 <= i < |more| ==> WorkerInv(cfg, more[i])
    ensures WorkersInv(cfg, start, t)
  {
  }

  lemma QuietKeepsWorkers(cfg: Config, start: View, s: State, a: Action)
    requires WorkersInv(cfg, start, s) && Quiet(a) && Enabled(cfg, s, a)
    ensures var t := Apply(cfg, s, a); WorkersInv(cfg, start, t) && Extends(s.store, t.store)
  {
  }

  lemma WorkersStep(cfg: Config, start: View, s: State, a: Action)
    requires RequestsInv(cfg, s) && WorkersInv(cfg, start, s) && Enabled(cfg, s, a)
    ensures var t := Apply(cfg, s, a); WorkersInv(cfg, start, t) && Extends(s.store, t.store)
  {
    hide RequestsInv, WorkersInv, Enabled, Apply, Extends;
    match a
    case Launches(r) => LaunchKeepsWorkers(cfg, start, s, r);
    case Works(r, i, fault) => WorkKeepsWorkers(cfg, start, s, r, i, fault);
    case Unmarshals(r, obj) => UnmarshalKeepsWorkers(cfg, start, s, r, obj);
    case _ => QuietKeepsWorkers(cfg, start, s, a);
  }

  // ---------- Reads ----------

  // A read's result, as far as it still binds the store.
  ghost predicate ResultInv(cfg: Config, store: View, uuid: Bytes, result: Result<Bytes, GoError>) {
    match result
    case Ok(v) => ParseUUID(uuid, cfg.allowKeys).Ok? && uuid in store && store[uuid] == Some(v)
    case Err(e) =>
      && WellBuilt(e)
      && if ParseUUID(uuid, cfg.allowKeys).Err? then result == ParseUUID(uuid, cfg.allowKeys)
         else cfg.remote || e == Fail(KEY_NOT_FOUND) || (e == CorruptData && uuid in store && store[uuid] == None)
  }

  ghost predicate GetInv(cfg: Config, store: View, g: GetRequest) {
    match g.phase
    case Arrived => true
    case Fetching => ParseUUID(g.uuid, cfg.allowKeys).Ok?
    case Fetched(result) => ParseUUID(g.uuid, cfg.allowKeys).Ok? && ResultInv(cfg, store, g.uuid, result)
    case Responding(result) => ResultInv(cfg, store, g.uuid, result)
    case Served(result, response) => ResultInv(cfg, store, g.uuid, result) && response == GetResponse(result)
  }

  ghost predicate GetsInv(cfg: Config, s: State) {
    forall g :: 0 <= g < |s.gets| ==> GetInv(cfg, s.store, s.gets[g])
  }

  lemma GetsStep(cfg: Config, s: State, a: Action)
    requires GetsInv(cfg, s) && Enabled(cfg, s, a) && Extends(s.store, Apply(cfg, s, a).store)
    ensures GetsInv(cfg, Apply(cfg, s, a))
  {
    var t := Apply(cfg, s, a);
    forall g | 0 <= g < |t.gets|
      ensures GetInv(cfg, t.store, t.gets[g])
    {
      if g < |s.gets| {
        assert GetInv(cfg, s.store, s.gets[g]);
      }
    }
  }

  // ---------- Together, over whole runs ----------

  ghost predicate Inv(cfg: Config, start: View, s: State) {
    RequestsInv(cfg, s) && WorkersInv(cfg, start, s) && GetsInv(cfg, s)
  }

  lemma InvStep(cfg: Config, start: View, s: State, a: Action)
    requires Inv(cfg, start, s) && Enabled(cfg, s, a)
    ensures Inv(cfg, start, Apply(cfg, s, a)) && Extends(s.store, Apply(cfg, s, a).store)
  {
    RequestsStep(cfg, s, a);
    WorkersStep(cfg, start, s, a);
    GetsStep(cfg, s, a);
  }

  lemma {:induction false} InvHolds(cfg: Config, start: View, run: seq<State>, n: nat)
    requires IsRun(cfg, start, run) && n < |run|
    ensures Inv(cfg, start, run[n])
  {
    if n > 0 {
      InvHolds(cfg, start, run, n - 1);
      assert StepAt(cfg, run, n - 1);
      var a :| Enabled(cfg, run[n - 1], a) && run[n] == Apply(cfg, run[n - 1], a);
      InvStep(cfg, start, run[n - 1], a);
    }
  }
}
