/** What holds of every run, whatever the interleaving: joins, winners, publication and provenance. */
module MachineTheorems {
  import opened Basics
  import opened Errors
  import opened PutObjects
  import opened Responses
  import opened Store
  import opened PutWorker
  import opened WriteOnce
  import opened Machine
  import opened MachineInv

  // ---------- The join ----------

  predicate IsAnswered(phase: PutPhase) {
    phase.Answering? || phase.Closed?
  }

  // The wait group counts the unfinished workers; the scan sees only finished ones.
  lemma JoinCorrect(cfg: Config, start: View, run: seq<State>, n: nat, r: nat)
    requires IsRun(cfg, start, run) && n < |run| && r < |run[n].puts|
    ensures var s := run[n]; var p := s.puts[r];
            && p.first + p.count <= |s.workers|
            && (p.phase.Running? ==> p.wg == Total(Block(s, r), Open) >= 0)
            && (p.phase.Running? && p.wg == 0 ==> AllDone(Block(s, r)))
            && (IsAnswered(p.phase) ==> AllDone(Block(s, r)))
  {
    InvHolds(cfg, start, run, n);
    var s := run[n];
    assert RequestInv(cfg, s.puts[r], Block(s, r));
    OpenNonNegative(Block(s, r));
  }

  lemma {:induction false} FirstErrorIsLowest(ws: seq<Worker>)
    ensures FirstError(ws) == None <==> forall i :: 0 <= i < |ws| ==> ws[i].slot.err == None
    ensures FirstError(ws).Some? ==>
              exists i :: 0 <= i < |ws| && ws[i].slot.err == FirstError(ws) && forall j :: 0 <= j < i ==> ws[j].slot.err == None
  {
    if ws != [] {
      FirstErrorIsLowest(ws[1..]);
      if ws[0].slot.err == None && FirstError(ws).Some? {
        var i :| 0 <= i < |ws[1..]| && ws[1..][i].slot.err == FirstError(ws) && forall j :: 0 <= j < i ==> ws[1..][j].slot.err == None;
        assert ws[i + 1].slot.err == FirstError(ws);
        assert forall j :: 0 < j < i + 1 ==> ws[j] == ws[1..][j - 1];
      }
      assert forall i :: 0 < i < |ws| ==> ws[i] == ws[1..][i - 1];
    }
  }

  lemma FirstErrorIsPbc(cfg: Config, ws: seq<Worker>)
    requires forall i :: 0 <= i < |ws| ==> SlotFinal(cfg, ws[i])
    ensures FirstError(ws).Some? ==> IsPbc(FirstError(ws).value)
  {
  }

  // Every error a POST answers with is a PBCError, so the handler's fallback is never taken.
  lemma PutErrorsArePbc(cfg: Config, start: View, run: seq<State>, n: nat, r: nat)
    requires IsRun(cfg, start, run) && n < |run| && r < |run[n].puts|
    requires IsAnswered(run[n].puts[r].phase) && run[n].puts[r].phase.outcome.Err?
    ensures IsPbc(run[n].puts[r].phase.outcome.error)
  {
    InvHolds(cfg, start, run, n);
    AnsweredErrorIsPbc(cfg, start, run[n], r);
  }

  lemma AnsweredErrorIsPbc(cfg: Config, start: View, s: State, r: nat)
    requires Inv(cfg, start, s) && r < |s.puts|
    requires IsAnswered(s.puts[r].phase) && s.puts[r].phase.outcome.Err?
    ensures IsPbc(s.puts[r].phase.outcome.error)
  {
    var ws := Block(s, r);
    assert RequestInv(cfg, s.puts[r], ws);
    if Rejection(cfg, s.puts[r].input) == None {
      forall i | 0 <= i < |ws|
        ensures SlotFinal(cfg, ws[i])
      {
        assert WorkerInv(cfg, s.workers[s.puts[r].first + i]);
      }
      FirstErrorIsPbc(cfg, ws);
    }
  }

  // ---------- The answer does not depend on the schedule ----------

  // The first error among the elements themselves.
  function FirstElementError(cfg: Config, ws: seq<Worker>): Option<GoError> {
    if ws == [] then None
    else if ElementError(cfg, ws[0]).Some? then ElementError(cfg, ws[0])
    else FirstElementError(cfg, ws[1..])
  }

  function ExpectedError(cfg: Config, input: Input): Option<GoError> {
    if Rejection(cfg, input).Some? then Rejection(cfg, input)
    else if FirstElementError(cfg, NewWorkers(input)).Some? then FirstElementError(cfg, NewWorkers(input))
    else if input.marshalFails then Some(Fail(MARSHAL_RESPONSE))
    else None
  }

  // The element is well-formed, gets a key, and is within the size limit unless that key is blank.
  ghost predicate Sound(cfg: Config, p: PutObject, generated: Option<Bytes>) {
    var id := if cfg.allowKeys && p.key != [] then Some(p.key) else generated;
    && Payload(p).Some? && id.Some?
    && (id.value == [] || !(0 < cfg.maxSize < |p.kind| + |Payload(p).value|))
  }

  lemma {:induction false} FirstElementErrorMeaning(cfg: Config, ws: seq<Worker>) returns (i: nat)
    ensures FirstElementError(cfg, ws) == None <==> forall j :: 0 <= j < |ws| ==> Sound(cfg, ws[j].po, ws[j].id)
    ensures FirstElementError(cfg, ws).Some? ==>
              && i < |ws| && !Sound(cfg, ws[i].po, ws[i].id) && (forall j :: 0 <= j < i ==> Sound(cfg, ws[j].po, ws[j].id))
              && FirstElementError(cfg, ws) == ElementError(cfg, ws[i])
  {
    i := 0;
    if ws != [] {
      ElementMeaning(cfg, ws[0]);
      hide ElementError;
      var k := FirstElementErrorMeaning(cfg, ws[1..]);
      if ElementError(cfg, ws[0]) == None {
        i := k + 1;
      }
      assert forall j :: 0 < j < |ws| ==> ws[j] == ws[1..][j - 1];
    }
  }

  // The elements of a body and the identifiers generated for them.
  ghost predicate Asks(input: Input, ps: seq<PutObject>, ids: seq<Option<Bytes>>) {
    && (input.body == Decoded(Some(ps)) || (input.body == Decoded(None) && ps == []))
    && |ids| == |ps| && forall i :: 0 <= i < |ps| ==> ids[i] == if i < |input.ids| then input.ids[i] else None
  }

  // A request that starts no worker is one whose body does not decode or has too many elements.
  lemma RejectionMeaning(cfg: Config, input: Input, ps: seq<PutObject>, ids: seq<Option<Bytes>>)
    ensures !input.body.Decoded? ==> Rejection(cfg, input) == Some(Pbc(NewPBCError(PUT_BAD_REQUEST)))
    ensures Asks(input, ps, ids) ==>
              Rejection(cfg, input) == if |ps| > cfg.maxNumValues then Some(Pbc(NewPBCError(PUT_MAX_NUM_VALUES))) else None
  {
  }

  // When a POST fails, and with which status, in terms of its body: a body that does not decode and one with too many
  // elements are 400s; otherwise the first element that is not sound decides, with 500 if only its key could not be
  // generated and 400 if not; otherwise a response that cannot be marshalled is a 500; and otherwise it succeeds.
  lemma ExpectedErrorMeaning(cfg: Config, input: Input, ps: seq<PutObject>, ids: seq<Option<Bytes>>) returns (i: nat)
    ensures !input.body.Decoded? ==> ExpectedError(cfg, input) == Some(Pbc(NewPBCError(PUT_BAD_REQUEST)))
    ensures Asks(input, ps, ids) && |ps| > cfg.maxNumValues ==> ExpectedError(cfg, input) == Some(Pbc(NewPBCError(PUT_MAX_NUM_VALUES)))
    ensures Asks(input, ps, ids) && |ps| <= cfg.maxNumValues ==>
              if forall j :: 0 <= j < |ps| ==> Sound(cfg, ps[j], ids[j]) then
                ExpectedError(cfg, input) == if input.marshalFails then Some(Pbc(NewPBCError(MARSHAL_RESPONSE))) else None
              else
                && i < |ps| && !Sound(cfg, ps[i], ids[i]) && (forall j :: 0 <= j < i ==> Sound(cfg, ps[j], ids[j]))
                && ExpectedError(cfg, input).Some? && IsPbc(ExpectedError(cfg, input).value)
                && ExpectedError(cfg, input).value.pbc.statusCode
                   == if Payload(ps[i]).Some? && !(cfg.allowKeys && ps[i].key != []) && ids[i] == None then 500 else 400
  {
    var ws := NewWorkers(input);
    i := FirstElementErrorMeaning(cfg, ws);
    if i < |ws| {
      ElementMeaning(cfg, ws[i]);
    }
    hide ElementError, Sound, Payload;
    if Asks(input, ps, ids) {
      assert |ws| == |ps| && forall j :: 0 <= j < |ps| ==> ws[j].po == ps[j] && ws[j].id == ids[j];
    }
  }

  lemma {:induction false} ScanFindsElementError(cfg: Config, ws: seq<Worker>, asked: seq<Worker>)
    requires |ws| == |asked|
    requires forall i :: 0 <= i < |ws| ==> ws[i].slot.err == ElementError(cfg, ws[i]) && ws[i].po == asked[i].po && ws[i].id == asked[i].id
    ensures FirstError(ws) == FirstElementError(cfg, asked)
  {
    if ws != [] {
      ScanFindsElementError(cfg, ws[1..], asked[1..]);
    }
  }

  // Over a store that does not fail, a POST's error is a function of its input alone: it depends neither on
  // the schedule, nor on other requests, nor on what the store holds.
  lemma ErrorIsScheduleIndependent(cfg: Config, start: View, run: seq<State>, n: nat, r: nat)
    requires !cfg.remote && IsRun(cfg, start, run) && n < |run| && r < |run[n].puts|
    requires IsAnswered(run[n].puts[r].phase)
    ensures var outcome := run[n].puts[r].phase.outcome;
            match ExpectedError(cfg, run[n].puts[r].input)
            case None => outcome.Ok?
            case Some(e) => outcome == Err(e)
  {
    InvHolds(cfg, start, run, n);
    assert RequestInv(cfg, run[n].puts[r], Block(run[n], r));
    if Rejection(cfg, run[n].puts[r].input) == None {
      BlockErrors(cfg, start, run[n], r);
    }
  }

  lemma BlockWorker(cfg: Config, start: View, s: State, r: nat, i: nat)
    requires WorkersInv(cfg, start, s) && r < |s.puts| && s.puts[r].first + s.puts[r].count <= |s.workers| && i < s.puts[r].count
    ensures Block(s, r)[i] == s.workers[s.puts[r].first + i] && WorkerInv(cfg, Block(s, r)[i])
  {
    hide WorkerInv, StoreInv;
  }

  lemma BlockErrors(cfg: Config, start: View, s: State, r: nat)
    requires !cfg.remote && WorkersInv(cfg, start, s) && r < |s.puts| && s.puts[r].first + s.puts[r].count <= |s.workers|
    requires AllDone(Block(s, r)) && Asked(s.puts[r].input, Block(s, r))
    ensures FirstError(Block(s, r)) == FirstElementError(cfg, NewWorkers(s.puts[r].input))
  {
    hide WorkersInv, WorkerInv, ElementError, FirstError, FirstElementError;
    var ws := Block(s, r);
    forall i | 0 <= i < |ws|
      ensures ws[i].slot.err == ElementError(cfg, ws[i])
    {
      BlockWorker(cfg, start, s, r, i);
      FinalSlotError(cfg, ws[i]);
    }
    ScanFindsElementError(cfg, ws, NewWorkers(s.puts[r].input));
  }

  lemma FinalSlotError(cfg: Config, w: Worker)
    requires !cfg.remote && WorkerInv(cfg, w) && w.pc.Done?
    ensures w.slot.err == ElementError(cfg, w)
  {
  }

  // ---------- Nothing settled is ever unsettled ----------

  predicate Later(w: Worker, v: Worker) {
    && v.po == w.po && v.id == w.id
    && (w.wrote ==> v.wrote)
    && (PastStore(w) ==> PastStore(v))
    && (Settled(w) ==> Settled(v) && v.slot == w.slot && v.wrote == w.wrote)
  }

  ghost predicate StateLater(s: State, t: State) {
    && Extends(s.store, t.store)
    && |s.gets| <= |t.gets|
    && |s.workers| <= |t.workers|
    && forall j :: 0 <= j < |s.workers| ==> Later(s.workers[j], t.workers[j])
  }

  lemma AdvanceIsLater(cfg: Config, store: View, w: Worker, fault: Option<Fault>)
    requires Runnable(w) && WorkerInv(cfg, w)
    ensures Later(w, Advance(cfg, store, w, fault).worker)
  {
  }

  lemma ReplacedIsLater(s: State, t: State, j: nat, w: Worker)
    requires j < |s.workers| && t.workers == s.workers[j := w] && Later(s.workers[j], w)
    requires Extends(s.store, t.store) && t.gets == s.gets
    ensures StateLater(s, t)
  {
  }

  lemma WorkIsLater(cfg: Config, start: View, s: State, r: nat, i: nat, fault: Option<Fault>)
    requires WorkersInv(cfg, start, s) && Enabled(cfg, s, Works(r, i, fault))
    ensures StateLater(s, Apply(cfg, s, Works(r, i, fault)))
  {
    hide ParsePutObject, WorkerInv, RequestInv;
    var j := s.puts[r].first + i;
    WorkKeepsWorkers(cfg, start, s, r, i, fault);
    assert WorkerInv(cfg, s.workers[j]);
    AdvanceIsLater(cfg, s.store, s.workers[j], fault);
    ReplacedIsLater(s, Apply(cfg, s, Works(r, i, fault)), j, Advance(cfg, s.store, s.workers[j], fault).worker);
  }

  lemma LaunchIsLater(cfg: Config, s: State, r: nat)
    requires RequestsInv(cfg, s) && Enabled(cfg, s, Launches(r))
    ensures StateLater(s, Apply(cfg, s, Launches(r)))
  {
    hide ParsePutObject, WorkerInv, RequestInv;
    LaunchedWasUnstarted(cfg, s, r);
    var j := s.puts[r].first + s.puts[r].phase.launched;
    ReplacedIsLater(s, Apply(cfg, s, Launches(r)), j, s.workers[j].(pc := Parsing));
  }

  lemma AppendedIsLater(s: State, t: State)
    requires s.workers <= t.workers && t.store == s.store && |s.gets| <= |t.gets|
    ensures StateLater(s, t)
  {
  }

  lemma UnmarshalIsLater(cfg: Config, s: State, r: nat, obj: nat)
    requires Enabled(cfg, s, Unmarshals(r, obj))
    ensures StateLater(s, Apply(cfg, s, Unmarshals(r, obj)))
  {
  }

  lemma StepIsLater(cfg: Config, start: View, s: State, a: Action)
    requires RequestsInv(cfg, s) && WorkersInv(cfg, start, s) && Enabled(cfg, s, a)
    ensures StateLater(s, Apply(cfg, s, a))
  {
    hide RequestsInv, WorkersInv, StateLater, Enabled, Apply;
    match a
    case Works(r, i, fault) => WorkIsLater(cfg, start, s, r, i, fault);
    case Launches(r) => LaunchIsLater(cfg, s, r);
    case Unmarshals(r, obj) => UnmarshalIsLater(cfg, s, r, obj);
    case _ =>
      QuietStep(cfg, s, a);
      AppendedIsLater(s, Apply(cfg, s, a));
  }

  lemma NextKeeps(cfg: Config, start: View, s: State, t: State)
    requires Inv(cfg, start, s) && Next(cfg, s, t)
    ensures Inv(cfg, start, t) && StateLater(s, t)
  {
    var a :| Enabled(cfg, s, a) && t == Apply(cfg, s, a);
    InvStep(cfg, start, s, a);
    StepIsLater(cfg, start, s, a);
  }

  lemma LaterIsTransitive(s: State, t: State, u: State)
    requires StateLater(s, t) && StateLater(t, u)
    ensures StateLater(s, u)
  {
  }

  lemma StepInRunIsLater(cfg: Config, start: View, run: seq<State>, n: nat)
    requires IsRun(cfg, start, run) && n + 1 < |run|
    ensures StateLater(run[n], run[n + 1])
  {
    InvHolds(cfg, start, run, n);
    assert StepAt(cfg, run, n);
    NextKeeps(cfg, start, run[n], run[n + 1]);
  }

  lemma {:induction false} RunIsLater(cfg: Config, start: View, run: seq<State>, n: nat, m: nat)
    requires IsRun(cfg, start, run) && n <= m < |run|
    ensures StateLater(run[n], run[m])
  {
    if n < m {
      RunIsLater(cfg, start, run, n, m - 1);
      StepInRunIsLater(cfg, start, run, m - 1);
      LaterIsTransitive(run[n], run[m - 1], run[m]);
    }
  }

  // In every interleaving of any number of POSTs, a contested new key has exactly one winner, for good.
  lemma SingleWinnerForever(cfg: Config, start: View, run: seq<State>, n: nat, key: Bytes) returns (winner: nat)
    requires !cfg.remote && IsRun(cfg, start, run) && n < |run|
    requires key !in start
    requires exists i :: 0 <= i < |run[n].workers| && PastStore(run[n].workers[i]) && Contends(cfg, run[n].workers[i], key)
    ensures forall j :: Wins(cfg, run[n].store, run[n].workers, j, key) <==> j == winner
    ensures forall m :: n <= m < |run| ==> Wins(cfg, run[m].store, run[m].workers, winner, key)
  {
    InvHolds(cfg, start, run, n);
    winner := SingleWinner(cfg, start, run[n].store, run[n].workers, key);
    forall m | n <= m < |run|
      ensures Wins(cfg, run[m].store, run[m].workers, winner, key)
    {
      InvHolds(cfg, start, run, m);
      RunIsLater(cfg, start, run, n, m);
      assert Later(run[n].workers[winner], run[m].workers[winner]);
      WinnerStays(cfg, start, run[m], winner, key);
    }
  }

  lemma WinnerStays(cfg: Config, start: View, s: State, i: nat, key: Bytes)
    requires !cfg.remote && Inv(cfg, start, s) && key !in start
    requires i < |s.workers| && s.workers[i].wrote && Contends(cfg, s.workers[i], key)
    ensures Wins(cfg, s.store, s.workers, i, key)
  {
    assert WorkerInv(cfg, s.workers[i]);
    assert PastStore(s.workers[i]);
    var winner := SingleWinner(cfg, start, s.store, s.workers, key);
    var cs := Claims(cfg, s.workers);
    assert SameKey(cs[i], cs[winner]);
  }

  // ---------- Publish, then read ----------

  lemma AnsweredSlot(cfg: Config, s: State, r: nat, i: nat)
    requires RequestsInv(cfg, s) && r < |s.puts| && IsAnswered(s.puts[r].phase)
    requires var o := s.puts[r].phase.outcome; o.Ok? && i < |o.value|
    ensures var p := s.puts[r]; i < |Puts(p.input)| && i < p.count && GeneratorOk(p.input)
    ensures var p := s.puts[r]; var w := s.workers[p.first + i];
            && w.pc.Done? && w.slot == Slot(p.phase.outcome.value[i], None)
            && w.po == Puts(p.input)[i] && w.id == IdAt(p.input, i)
  {
    assert RequestInv(cfg, s.puts[r], Block(s, r));
    FirstErrorIsLowest(Block(s, r));
    assert Block(s, r)[i] == s.workers[s.puts[r].first + i];
  }

  lemma AnsweredUuidWasWritten(cfg: Config, start: View, s: State, r: nat, i: nat)
    requires Inv(cfg, start, s) && r < |s.puts| && IsAnswered(s.puts[r].phase)
    requires var o := s.puts[r].phase.outcome; o.Ok? && i < |o.value| && o.value[i] != []
    ensures var p := s.puts[r]; i < |Puts(p.input)| && i < p.count
    ensures var p := s.puts[r]; var w := s.workers[p.first + i];
            && w.wrote && Contends(cfg, w, p.phase.outcome.value[i])
            && w.po == Puts(p.input)[i] && w.id == IdAt(p.input, i) && GeneratorOk(p.input)
  {
    AnsweredSlot(cfg, s, r, i);
    assert WorkerInv(cfg, s.workers[s.puts[r].first + i]);
  }

  // What an answered POST promises about a UUID it returned.
  lemma AnsweredUuidIsStored(cfg: Config, start: View, s: State, r: nat, i: nat)
    requires Inv(cfg, start, s) && r < |s.puts| && IsAnswered(s.puts[r].phase)
    requires var o := s.puts[r].phase.outcome; o.Ok? && i < |o.value| && o.value[i] != []
    ensures var uuid, p := s.puts[r].phase.outcome.value[i], s.puts[r];
            && i < |Puts(p.input)| && ParsePutObject(Puts(p.input)[i]).Ok?
            && uuid in s.store && s.store[uuid] == Some(ParsePutObject(Puts(p.input)[i]).value)
            && ParseUUID(uuid, cfg.allowKeys).Ok?
  {
    AnsweredUuidWasWritten(cfg, start, s, r, i);
    WrittenIsStored(cfg, start, s, s.puts[r].first + i);
  }

  lemma WrittenIsStored(cfg: Config, start: View, s: State, j: nat)
    requires WorkersInv(cfg, start, s) && j < |s.workers| && s.workers[j].wrote
    ensures var w := s.workers[j]; Reaches(cfg, w) && Key(cfg, w) in s.store && s.store[Key(cfg, w)] == Some(Value(cfg, w))
  {
  }

  // What a 200 says about the body of the POST: there is one UUID for each element, in order; one that is not empty is the
  // key that the element asked for or had generated, and leads to its type and payload; and, over a store that does not
  // fail, one that is empty stands for a record that was there already, or for a blank key.
  lemma AnsweredElements(cfg: Config, start: View, run: seq<State>, n: nat, r: nat, ps: seq<PutObject>, ids: seq<Option<Bytes>>)
    requires IsRun(cfg, start, run) && n < |run| && r < |run[n].puts|
    requires IsAnswered(run[n].puts[r].phase) && run[n].puts[r].phase.outcome.Ok? && Asks(run[n].puts[r].input, ps, ids)
    ensures var s, uuids := run[n], run[n].puts[r].phase.outcome.value;
            && |uuids| == |ps| <= cfg.maxNumValues
            && forall i :: 0 <= i < |ps| ==>
                 var id := if cfg.allowKeys && ps[i].key != [] then Some(ps[i].key) else ids[i];
                 && Payload(ps[i]).Some? && id.Some?
                 && (uuids[i] != [] ==>
                       uuids[i] == id.value && id.value in s.store && s.store[id.value] == Some(ps[i].kind + Payload(ps[i]).value))
                 && (uuids[i] == [] && !cfg.remote && id.value != [] ==> id.value in s.store)
  {
    InvHolds(cfg, start, run, n);
    AnsweredCount(cfg, run[n], r);
    forall i | 0 <= i < |ps|
      ensures var s, uuids := run[n], run[n].puts[r].phase.outcome.value;
              var id := if cfg.allowKeys && ps[i].key != [] then Some(ps[i].key) else ids[i];
              && Payload(ps[i]).Some? && id.Some?
              && (uuids[i] != [] ==>
                    uuids[i] == id.value && id.value in s.store && s.store[id.value] == Some(ps[i].kind + Payload(ps[i]).value))
              && (uuids[i] == [] && !cfg.remote && id.value != [] ==> id.value in s.store)
    {
      AnsweredElement(cfg, start, run[n], r, i);
    }
  }

  lemma AnsweredCount(cfg: Config, s: State, r: nat)
    requires RequestsInv(cfg, s) && r < |s.puts| && IsAnswered(s.puts[r].phase) && s.puts[r].phase.outcome.Ok?
    ensures var p := s.puts[r]; Rejection(cfg, p.input) == None && |p.phase.outcome.value| == |Puts(p.input)| == p.count
  {
    assert RequestInv(cfg, s.puts[r], Block(s, r));
  }

  lemma AnsweredElement(cfg: Config, start: View, s: State, r: nat, i: nat)
    requires Inv(cfg, start, s) && r < |s.puts| && IsAnswered(s.puts[r].phase)
    requires s.puts[r].phase.outcome.Ok? && i < |s.puts[r].phase.outcome.value|
    ensures i < |Puts(s.puts[r].input)|
    ensures var p, uuid := Puts(s.puts[r].input)[i], s.puts[r].phase.outcome.value[i];
            var id := if cfg.allowKeys && p.key != [] then Some(p.key) else IdAt(s.puts[r].input, i);
            && Payload(p).Some? && id.Some?
            && (uuid != [] ==> uuid == id.value && id.value in s.store && s.store[id.value] == Some(p.kind + Payload(p).value))
            && (uuid == [] && !cfg.remote && id.value != [] ==> id.value in s.store)
  {
    AnsweredSlot(cfg, s, r, i);
    var j := s.puts[r].first + i;
    var w := s.workers[j];
    assert WorkerInv(cfg, w);
    EndedWithoutError(cfg, w);
    ElementMeaning(cfg, w);
    assert Claims(cfg, s.workers)[j] == ClaimOf(cfg, w);
    hide Payload, ParsePutObject, FinalSlot, ElementError, RequestInv;
    if w.wrote {
      WrittenIsStored(cfg, start, s, j);
    }
  }

  // A worker that ends without an error has a well-formed element with a key; with a UUID it has written, and over a store
  // that does not fail it has got to the store.
  lemma EndedWithoutError(cfg: Config, w: Worker)
    requires WorkerInv(cfg, w) && w.pc.Done? && w.slot.err == None
    ensures Payload(w.po).Some? && KeyOf(cfg, w).Some?
    ensures w.slot.uuid != [] ==> w.wrote && w.slot.uuid == KeyOf(cfg, w).value
    ensures w.slot.uuid == [] && !cfg.remote && KeyOf(cfg, w).value != [] ==> Reaches(cfg, w)
  {
    StoredForm(w.po);
  }

  predicate NotMissed(phase: GetPhase) {
    match phase
    case Arrived => true
    case Fetching => true
    case Fetched(result) => result.Ok?
    case Responding(result) => result.Ok?
    case Served(result, _) => result.Ok?
  }

  // GETs of the UUID that arrived from number `from` on have not missed it.
  ghost predicate LateReadsHit(s: State, uuid: Bytes, from: nat) {
    forall g :: from <= g < |s.gets| && s.gets[g].uuid == uuid ==> NotMissed(s.gets[g].phase)
  }

  lemma LateReadsStep(cfg: Config, s: State, a: Action, uuid: Bytes, from: nat)
    requires !cfg.remote && Enabled(cfg, s, a) && LateReadsHit(s, uuid, from)
    requires uuid in s.store && s.store[uuid].Some? && ParseUUID(uuid, cfg.allowKeys).Ok?
    ensures LateReadsHit(Apply(cfg, s, a), uuid, from)
  {
  }

  lemma StoreGrows(cfg: Config, start: View, run: seq<State>, n: nat, m: nat)
    requires IsRun(cfg, start, run) && n <= m < |run|
    ensures Extends(run[n].store, run[m].store)
  {
    RunIsLater(cfg, start, run, n, m);
  }

  lemma LateReadsNext(cfg: Config, s: State, t: State, uuid: Bytes, from: nat)
    requires !cfg.remote && Next(cfg, s, t) && LateReadsHit(s, uuid, from)
    requires uuid in s.store && s.store[uuid].Some? && ParseUUID(uuid, cfg.allowKeys).Ok?
    ensures LateReadsHit(t, uuid, from)
  {
    var a :| Enabled(cfg, s, a) && t == Apply(cfg, s, a);
    LateReadsStep(cfg, s, a, uuid, from);
  }

  lemma {:induction false} LateReadsHold(cfg: Config, start: View, run: seq<State>, n: nat, m: nat, uuid: Bytes)
    requires !cfg.remote && IsRun(cfg, start, run) && n <= m < |run|
    requires uuid in run[n].store && run[n].store[uuid].Some? && ParseUUID(uuid, cfg.allowKeys).Ok?
    ensures LateReadsHit(run[m], uuid, |run[n].gets|)
  {
    if n < m {
      var s, t := run[m - 1], run[m];
      LateReadsHold(cfg, start, run, n, m - 1, uuid);
      StoreGrows(cfg, start, run, n, m - 1);
      assert uuid in s.store && s.store[uuid].Some?;
      assert StepAt(cfg, run, m - 1);
      LateReadsNext(cfg, s, t, uuid, |run[n].gets|);
    }
  }

  // Once a POST has answered with a UUID, every GET that arrives later, in any continuation, is served
  // that element's content. A remote store may fail the read, but never serves anything else.
  lemma PublishThenRead(cfg: Config, start: View, run: seq<State>, n: nat, m: nat, r: nat, i: nat, g: nat)
    requires IsRun(cfg, start, run) && n <= m < |run|
    requires r < |run[n].puts| && IsAnswered(run[n].puts[r].phase)
    requires var o := run[n].puts[r].phase.outcome; o.Ok? && i < |o.value| && o.value[i] != []
    requires |run[n].gets| <= g < |run[m].gets| && run[m].gets[g].phase.Served?
    requires run[m].gets[g].uuid == run[n].puts[r].phase.outcome.value[i]
    ensures var body := run[n].puts[r].input.body;
            && body.Decoded? && body.puts.Some? && i < |body.puts.value| && Payload(body.puts.value[i]).Some?
            && (!cfg.remote ==> run[m].gets[g].phase.result.Ok?)
            && (run[m].gets[g].phase.result.Ok? ==> run[m].gets[g].phase.response == Echo(body.puts.value[i]))
  {
    InvHolds(cfg, start, run, n);
    InvHolds(cfg, start, run, m);
    RunIsLater(cfg, start, run, n, m);
    AnsweredUuidIsStored(cfg, start, run[n], r, i);
    FormatThenServe(Puts(run[n].puts[r].input)[i]);
    assert GetInv(cfg, run[m].store, run[m].gets[g]);
    if !cfg.remote {
      LateReadsHold(cfg, start, run, n, m, run[m].gets[g].uuid);
    }
  }

  // ---------- Provenance ----------

  // From an empty store, every entry is some element's formatted value, within the size limit.
  lemma EntriesComeFromElements(cfg: Config, s: State, key: Bytes) returns (j: nat)
    requires Inv(cfg, map[], s) && key in s.store
    ensures j < |s.workers| && s.workers[j].wrote && Contends(cfg, s.workers[j], key)
    ensures s.store[key] == Some(Value(cfg, s.workers[j]))
    ensures forall i :: 0 <= i < |s.workers| && s.workers[i].wrote && Contends(cfg, s.workers[i], key) ==> i == j
  {
    var cs := Claims(cfg, s.workers);
    j :| 0 <= j < |cs| && WroteKey(cs[j], key);
    assert cs[j] == ClaimOf(cfg, s.workers[j]);
    forall i | 0 <= i < |s.workers| && s.workers[i].wrote && Contends(cfg, s.workers[i], key)
      ensures i == j
    {
      assert cs[i] == ClaimOf(cfg, s.workers[i]);
      assert SameKey(cs[i], cs[j]);
    }
  }

  // Every stored value carries one of the two prefixes and respects the size limit.
  lemma StoredValuesAreWellFormed(cfg: Config, run: seq<State>, n: nat, key: Bytes)
    requires IsRun(cfg, map[], run) && n < |run| && key in run[n].store
    ensures run[n].store[key].Some?
    ensures var v := run[n].store[key].value;
            && ((XML_PREFIX <= v) != (JSON_PREFIX <= v))
            && |v| >= 3 && (cfg.maxSize > 0 ==> |v| <= cfg.maxSize)
  {
    InvHolds(cfg, map[], run, n);
    var j := EntriesComeFromElements(cfg, run[n], key);
    StoredForm(run[n].workers[j].po);
  }

  // A 200 returns the content of exactly one element that was put under that key.
  lemma Provenance(cfg: Config, run: seq<State>, n: nat, g: nat) returns (j: nat)
    requires IsRun(cfg, map[], run) && n < |run|
    requires g < |run[n].gets| && run[n].gets[g].phase.Served? && run[n].gets[g].phase.response.status == STATUS_OK
    ensures j < |run[n].workers| && run[n].workers[j].wrote && Contends(cfg, run[n].workers[j], run[n].gets[g].uuid)
    ensures Payload(run[n].workers[j].po).Some?
    ensures run[n].gets[g].phase.response == Echo(run[n].workers[j].po)
    ensures forall i :: 0 <= i < |run[n].workers| && run[n].workers[i].wrote && Contends(cfg, run[n].workers[i], run[n].gets[g].uuid) ==> i == j
  {
    InvHolds(cfg, map[], run, n);
    var s := run[n];
    assert GetInv(cfg, s.store, s.gets[g]);
    j := EntriesComeFromElements(cfg, s, s.gets[g].uuid);
    FormatThenServe(s.workers[j].po);
  }

  lemma ServedFromStore(cfg: Config, start: View, run: seq<State>, n: nat, g: nat)
    requires IsRun(cfg, start, run) && n < |run|
    requires g < |run[n].gets| && run[n].gets[g].phase.Served? && run[n].gets[g].phase.response.status == STATUS_OK
    ensures run[n].gets[g].uuid in run[n].store && run[n].store[run[n].gets[g].uuid].Some?
    ensures run[n].gets[g].phase.response == GetResponse(Ok(run[n].store[run[n].gets[g].uuid].value))
  {
    InvHolds(cfg, start, run, n);
    assert GetInv(cfg, run[n].store, run[n].gets[g]);
  }

  // Two successful GETs of one key agree, even when they are served at different times.
  lemma ReadsAgree(cfg: Config, start: View, run: seq<State>, n: nat, m: nat, g: nat, h: nat)
    requires IsRun(cfg, start, run) && n <= m < |run|
    requires g < |run[n].gets| && run[n].gets[g].phase.Served? && run[n].gets[g].phase.response.status == STATUS_OK
    requires h < |run[m].gets| && run[m].gets[h].phase.Served? && run[m].gets[h].phase.response.status == STATUS_OK
    requires run[n].gets[g].uuid == run[m].gets[h].uuid
    ensures run[n].gets[g].phase.response == run[m].gets[h].phase.response
  {
    ServedFromStore(cfg, start, run, n, g);
    ServedFromStore(cfg, start, run, m, h);
    RunIsLater(cfg, start, run, n, m);
  }

  // From an empty store that does not fail, a GET never answers 500: every value found can be served. It answers
  // 400 exactly when it names no UUID; a UUID of the wrong length is not found, even if it is a stored key.
  lemma GetNeverFails(cfg: Config, run: seq<State>, n: nat, g: nat)
    requires !cfg.remote && IsRun(cfg, map[], run) && n < |run|
    requires g < |run[n].gets| && run[n].gets[g].phase.Served?
    ensures var get := run[n].gets[g]; var status := get.phase.response.status;
            && status in {STATUS_OK, STATUS_BAD_REQUEST, STATUS_NOT_FOUND}
            && (status == STATUS_BAD_REQUEST <==> get.uuid == [])
            && (status == STATUS_OK ==> get.uuid in run[n].store)
            && (get.uuid != [] && |get.uuid| != 36 && !cfg.allowKeys ==> status == STATUS_NOT_FOUND)
  {
    InvHolds(cfg, map[], run, n);
    var s := run[n];
    assert GetInv(cfg, s.store, s.gets[g]);
    if s.gets[g].uuid in s.store {
      StoredValuesAreWellFormed(cfg, run, n, s.gets[g].uuid);
    }
  }

  // What a served GET answered, in every run and over any store: 400 without a UUID, 404 for one of the wrong length or for a
  // missing record, the stored value under its type, 500 for a value of no known type or one that does not decode, and
  // the failure of a remote store with its own status, 500 if it has none.
  lemma ServedMeaning(cfg: Config, start: View, run: seq<State>, n: nat, g: nat)
    requires IsRun(cfg, start, run) && n < |run| && g < |run[n].gets| && run[n].gets[g].phase.Served?
    ensures var s, uuid, result, response := run[n], run[n].gets[g].uuid, run[n].gets[g].phase.result, run[n].gets[g].phase.response;
            if uuid == [] then response == Response(400, PlainText, [])
            else if |uuid| != 36 && !cfg.allowKeys then response == Response(404, PlainText, [])
            else match result
              case Ok(v) =>
                && uuid in s.store && s.store[uuid] == Some(v)
                && response == if [0x78, 0x6D, 0x6C] <= v then Response(200, ApplicationXml, v[3..])
                               else if [0x6A, 0x73, 0x6F, 0x6E] <= v then Response(200, ApplicationJson, v[4..])
                               else Response(500, PlainText, [])
              case Err(e) =>
                && response == Response(if e.Pbc? then e.pbc.statusCode else 500, PlainText, [])
                && (cfg.remote || (response.status == 404 && IsPbc(e) && e.pbc.kind == KEY_NOT_FOUND)
                    || (response.status == 500 && uuid in s.store && s.store[uuid] == None))
  {
    InvHolds(cfg, start, run, n);
    var get := run[n].gets[g];
    assert GetInv(cfg, run[n].store, get);
    AnswerIs(get.phase.result);
    UuidParsesIff(get.uuid, cfg.allowKeys);
    hide GetResponse;
  }
}
