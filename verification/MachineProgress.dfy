/** Progress: in every reachable state every unanswered request can take a step, and its own steps come to an end. */
module MachineProgress {
  import opened Basics
  import opened Store
  import opened Errors
  import opened PutWorker
  import opened Machine
  import opened MachineInv

  // The POST, or the GET, that an action is a step of.
  function PostOf(a: Action): Option<nat> {
    match a
    case ReadsBody(r, _) => Some(r)
    case Unmarshals(r, _) => Some(r)
    case Launches(r) => Some(r)
    case Works(r, _, _) => Some(r)
    case Joins(r) => Some(r)
    case Answers(r) => Some(r)
    case _ => None
  }

  function GetOf(a: Action): Option<nat> {
    if a.GetSteps? then Some(a.g) else None
  }

  // How many steps a POST has left at most, given its workers.
  function PostWork(p: PutRequest, ws: seq<Worker>): int {
    match p.phase
    case Received => 7 * |Puts(p.input)| + 4
    case Unmarshalling(_) => 7 * |Puts(p.input)| + 3
    case Running(_, _, _) => Total(ws, Remaining) + 2
    case Answering(_) => 1
    case Closed(_) => 0
  }

  predicate HasPost(s: State, r: nat) {
    r < |s.puts| && s.puts[r].first + s.puts[r].count <= |s.workers|
  }

  function WorkAt(s: State, r: nat): int
    requires HasPost(s, r)
  {
    PostWork(s.puts[r], Block(s, r))
  }

  function GetWork(g: GetRequest): int {
    match g.phase
    case Arrived => 4
    case Fetching => 3
    case Fetched(_) => 2
    case Responding(_) => 1
    case Served(_, _) => 0
  }

  lemma {:induction false} RemainingBounds(ws: seq<Worker>)
    ensures 0 <= Total(ws, Remaining) <= 7 * |ws|
  {
    if ws != [] {
      RemainingBounds(ws[1..]);
    }
  }

  // ---------- Somebody can always go on ----------

  lemma RunningCanGo(cfg: Config, p: PutRequest, ws: seq<Worker>) returns (i: nat)
    requires RequestInv(cfg, p, ws) && p.phase.Running? && p.phase.launched == |ws| && p.wg != 0
    ensures i < |ws| && Runnable(ws[i])
  {
    if forall j :: 0 <= j < |ws| ==> ws[j].pc.Done? {
      TotalZero(ws, Open);
    }
    i :| 0 <= i < |ws| && !ws[i].pc.Done?;
  }

  // A POST that is not closed has a step of its own that is enabled.
  lemma PostCanGo(cfg: Config, s: State, r: nat) returns (a: Action)
    requires RequestsInv(cfg, s) && r < |s.puts| && !s.puts[r].phase.Closed?
    ensures Enabled(cfg, s, a) && PostOf(a) == Some(r)
  {
    var p, ws := s.puts[r], Block(s, r);
    assert RequestInv(cfg, p, ws);
    assert p.phase.Running? ==> p.phase.launched <= p.count;
    assert p.first + p.count <= |s.workers|;
    hide RequestInv;
    match p.phase
    case Received => a := ReadsBody(r, s.reqs.made);
    case Unmarshalling(_) => a := Unmarshals(r, s.resps.made);
    case Answering(_) => a := Answers(r);
    case Running(launched, _, _) =>
      if launched < p.count {
        a := Launches(r);
      } else if p.wg == 0 {
        a := Joins(r);
        assert Enabled(cfg, s, a);
      } else {
        var i := RunningCanGo(cfg, p, ws);
        assert ws[i] == s.workers[p.first + i];
        a := Works(r, i, None);
        assert Enabled(cfg, s, a);
      }
  }

  lemma GetCanGo(cfg: Config, s: State, g: nat) returns (a: Action)
    requires g < |s.gets| && !s.gets[g].phase.Served?
    ensures Enabled(cfg, s, a) && GetOf(a) == Some(g)
  {
    a := GetSteps(g, None);
  }

  // So a system in which nothing but arrivals can happen has answered every request.
  lemma NobodyIsStuck(cfg: Config, start: View, run: seq<State>, n: nat)
    requires IsRun(cfg, start, run) && n < |run|
    requires forall a :: Enabled(cfg, run[n], a) ==> PostOf(a) == None && GetOf(a) == None
    ensures forall r :: 0 <= r < |run[n].puts| ==> run[n].puts[r].phase.Closed?
    ensures forall g :: 0 <= g < |run[n].gets| ==> run[n].gets[g].phase.Served?
  {
    InvHolds(cfg, start, run, n);
    var s := run[n];
    forall r | 0 <= r < |s.puts|
      ensures s.puts[r].phase.Closed?
    {
      if !s.puts[r].phase.Closed? {
        var a := PostCanGo(cfg, s, r);
      }
    }
    forall g | 0 <= g < |s.gets|
      ensures s.gets[g].phase.Served?
    {
      if !s.gets[g].phase.Served? {
        var a := GetCanGo(cfg, s, g);
      }
    }
  }

  // ---------- A request's own steps come to an end, and nobody else adds to them ----------

  lemma BlockReplaced(s: State, t: State, r: nat, i: nat, w: Worker)
    requires r < |s.puts| == |t.puts| && s.puts[r].first + s.puts[r].count <= |s.workers| && i < s.puts[r].count
    requires t.workers == s.workers[s.puts[r].first + i := w]
    requires t.puts[r].first == s.puts[r].first && t.puts[r].count == s.puts[r].count
    ensures Block(t, r) == Block(s, r)[i := w]
    ensures Total(Block(t, r), Remaining) == Total(Block(s, r), Remaining) - Remaining(Block(s, r)[i]) + Remaining(w)
  {
    assert Block(t, r) == Block(s, r)[i := w];
    TotalUpdate(Block(s, r), i, w, Remaining);
  }

  lemma LaunchDecreases(cfg: Config, s: State, r: nat)
    requires RequestsInv(cfg, s) && Enabled(cfg, s, Launches(r))
    ensures WorkAt(Apply(cfg, s, Launches(r)), r) < WorkAt(s, r)
  {
    hide RequestInv;
    var p := s.puts[r];
    var i := p.phase.launched;
    LaunchedWasUnstarted(cfg, s, r);
    BlockReplaced(s, Apply(cfg, s, Launches(r)), r, i, s.workers[p.first + i].(pc := Parsing));
  }

  lemma WorkDecreases(cfg: Config, s: State, r: nat, i: nat, fault: Option<Fault>)
    requires RequestsInv(cfg, s) && Enabled(cfg, s, Works(r, i, fault))
    ensures WorkAt(Apply(cfg, s, Works(r, i, fault)), r) < WorkAt(s, r)
  {
    hide Apply, Advance, RequestInv;
    var w := s.workers[s.puts[r].first + i];
    WorkShape(cfg, s, r, i, fault);
    WorkKeepsRequests(cfg, s, r, i, fault);
    AdvanceProgresses(cfg, s.store, w, fault);
    BlockReplaced(s, Apply(cfg, s, Works(r, i, fault)), r, i, Advance(cfg, s.store, w, fault).worker);
  }

  lemma UnmarshalDecreases(cfg: Config, s: State, r: nat, obj: nat)
    requires RequestsInv(cfg, s) && Enabled(cfg, s, Unmarshals(r, obj))
    ensures WorkAt(Apply(cfg, s, Unmarshals(r, obj)), r) < WorkAt(s, r)
  {
    hide RequestInv;
    var t := Apply(cfg, s, Unmarshals(r, obj));
    if t.puts[r].phase.Running? {
      assert Block(t, r) == NewWorkers(s.puts[r].input);
      RemainingBounds(Block(t, r));
    }
  }

  lemma JoinDecreases(cfg: Config, s: State, r: nat)
    requires RequestsInv(cfg, s) && Enabled(cfg, s, Joins(r))
    ensures WorkAt(Apply(cfg, s, Joins(r)), r) < WorkAt(s, r)
  {
    RemainingBounds(Block(s, r));
  }

  lemma OwnStepDecreases(cfg: Config, s: State, a: Action, r: nat)
    requires RequestsInv(cfg, s) && Enabled(cfg, s, a) && PostOf(a) == Some(r)
    ensures var t := Apply(cfg, s, a);
            |s.puts| == |t.puts| && HasPost(s, r) && HasPost(t, r) && WorkAt(t, r) < WorkAt(s, r)
  {
    RequestsStep(cfg, s, a);
    match a
    case ReadsBody(_, _) =>
    case Unmarshals(_, obj) => UnmarshalDecreases(cfg, s, r, obj);
    case Launches(_) => LaunchDecreases(cfg, s, r);
    case Works(_, i, fault) => WorkDecreases(cfg, s, r, i, fault);
    case Joins(_) => JoinDecreases(cfg, s, r);
    case Answers(_) =>
  }

  lemma ForeignWorkerReplaced(s: State, t: State, q: nat, r: nat, i: nat, w: Worker)
    requires Blocks(s) && q < |s.puts| && r < |s.puts| && q != r && i < s.puts[q].count
    requires r < |t.puts| && t.puts[r] == s.puts[r] && t.workers == s.workers[s.puts[q].first + i := w]
    ensures Block(t, r) == Block(s, r)
  {
    assert Apart(s.puts[q], s.puts[r]);
  }

  lemma LaunchKeepsBlock(cfg: Config, s: State, q: nat, r: nat)
    requires RequestsInv(cfg, s) && Enabled(cfg, s, Launches(q)) && r < |s.puts| && q != r
    ensures var t := Apply(cfg, s, Launches(q)); |t.workers| == |s.workers| && r < |t.puts| && t.puts[r] == s.puts[r] && Block(t, r) == Block(s, r)
  {
    hide RequestInv;
    var i := s.puts[q].phase.launched;
    ForeignWorkerReplaced(s, Apply(cfg, s, Launches(q)), q, r, i, s.workers[s.puts[q].first + i].(pc := Parsing));
  }

  lemma WorkKeepsBlock(cfg: Config, s: State, q: nat, i: nat, fault: Option<Fault>, r: nat)
    requires RequestsInv(cfg, s) && Enabled(cfg, s, Works(q, i, fault)) && r < |s.puts| && q != r
    ensures var t := Apply(cfg, s, Works(q, i, fault));
            |t.workers| == |s.workers| && r < |t.puts| && t.puts[r] == s.puts[r] && Block(t, r) == Block(s, r)
  {
    hide RequestInv, Apply, Advance;
    var t := Apply(cfg, s, Works(q, i, fault));
    WorkShape(cfg, s, q, i, fault);
    ForeignWorkerReplaced(s, t, q, r, i, t.workers[s.puts[q].first + i]);
  }

  lemma OthersKeepBlock(cfg: Config, s: State, a: Action, r: nat)
    requires RequestsInv(cfg, s) && Enabled(cfg, s, a) && r < |s.puts| && PostOf(a) != Some(r)
    ensures var t := Apply(cfg, s, a);
            r < |t.puts| && t.puts[r] == s.puts[r] && |s.workers| <= |t.workers| && Block(t, r) == Block(s, r)
  {
    hide RequestInv;
    match a
    case Launches(q) => LaunchKeepsBlock(cfg, s, q, r);
    case Works(q, i, fault) => WorkKeepsBlock(cfg, s, q, i, fault, r);
    case _ =>
      hide Advance, GetStep, NewWorkers, OutcomeOf;
      AppendKeepsBlock(s, Apply(cfg, s, a), r);
  }

  // Steps of others leave a request's phase and workers alone.
  lemma OthersKeepWork(cfg: Config, s: State, a: Action, r: nat)
    requires RequestsInv(cfg, s) && Enabled(cfg, s, a) && r < |s.puts| && PostOf(a) != Some(r)
    ensures var t := Apply(cfg, s, a);
            HasPost(s, r) && HasPost(t, r) && t.puts[r] == s.puts[r] && WorkAt(t, r) == WorkAt(s, r)
  {
    hide Apply, Enabled, RequestInv;
    OthersKeepBlock(cfg, s, a, r);
  }

  lemma GetStepDecreases(cfg: Config, s: State, a: Action, g: nat)
    requires Enabled(cfg, s, a) && g < |s.gets|
    ensures var t := Apply(cfg, s, a);
            g < |t.gets| && if GetOf(a) == Some(g) then GetWork(t.gets[g]) < GetWork(s.gets[g]) else t.gets[g] == s.gets[g]
  {
    hide Advance, NewWorkers, OutcomeOf, GetStep;
    if a.GetSteps? {
      GetAdvances(cfg, s.store, s.gets[a.g], a.failure);
    }
  }

  lemma GetAdvances(cfg: Config, store: View, g: GetRequest, failure: Option<GoError>)
    requires !g.phase.Served?
    ensures GetWork(g.(phase := GetStep(cfg, store, g, failure).0)) < GetWork(g)
  {
  }

  lemma WorkNext(cfg: Config, s: State, t: State, r: nat)
    requires RequestsInv(cfg, s) && Next(cfg, s, t) && r < |s.puts|
    ensures HasPost(s, r) && HasPost(t, r) && WorkAt(t, r) <= WorkAt(s, r)
  {
    var a :| Enabled(cfg, s, a) && t == Apply(cfg, s, a);
    if PostOf(a) == Some(r) {
      OwnStepDecreases(cfg, s, a, r);
    } else {
      OthersKeepWork(cfg, s, a, r);
    }
  }

  lemma WorkInRun(cfg: Config, start: View, run: seq<State>, n: nat, r: nat)
    requires IsRun(cfg, start, run) && n + 1 < |run| && r < |run[n].puts|
    ensures HasPost(run[n], r) && HasPost(run[n + 1], r) && WorkAt(run[n + 1], r) <= WorkAt(run[n], r)
  {
    InvHolds(cfg, start, run, n);
    assert StepAt(cfg, run, n);
    hide WorkAt, RequestsInv, WorkersInv, GetsInv;
    WorkNext(cfg, run[n], run[n + 1], r);
  }

  // Along every run the steps a POST has left never become more.
  lemma {:induction false} WorkNeverGrows(cfg: Config, start: View, run: seq<State>, n: nat, m: nat, r: nat)
    requires IsRun(cfg, start, run) && n <= m < |run| && HasPost(run[n], r)
    ensures HasPost(run[m], r) && WorkAt(run[m], r) <= WorkAt(run[n], r)
  {
    hide WorkAt;
    if n < m {
      WorkNeverGrows(cfg, start, run, n, m - 1, r);
      WorkInRun(cfg, start, run, m - 1, r);
    }
  }

  // ---------- Every request can be brought to its answer ----------

  ghost predicate Continues(cfg: Config, start: View, run: seq<State>, longer: seq<State>) {
    IsRun(cfg, start, longer) && run <= longer
  }

  lemma OneMore(cfg: Config, start: View, run: seq<State>, a: Action)
    requires IsRun(cfg, start, run) && Enabled(cfg, run[|run| - 1], a)
    ensures Continues(cfg, start, run, run + [Apply(cfg, run[|run| - 1], a)])
  {
    var longer := run + [Apply(cfg, run[|run| - 1], a)];
    forall i | 0 <= i < |longer| - 1
      ensures StepAt(cfg, longer, i)
    {
      if i < |run| - 1 {
        assert StepAt(cfg, run, i);
      }
    }
  }

  lemma {:induction false} AnswerWithin(cfg: Config, start: View, run: seq<State>, r: nat) returns (longer: seq<State>)
    requires IsRun(cfg, start, run) && RequestsInv(cfg, run[|run| - 1]) && r < |run[|run| - 1].puts|
    ensures Continues(cfg, start, run, longer) && |longer| <= |run| + WorkAt(run[|run| - 1], r)
    ensures r < |longer[|longer| - 1].puts| && longer[|longer| - 1].puts[r].phase.Closed?
    decreases WorkAt(run[|run| - 1], r)
  {
    var s := run[|run| - 1];
    RemainingBounds(Block(s, r));
    if s.puts[r].phase.Closed? {
      longer := run;
    } else {
      var a := PostCanGo(cfg, s, r);
      var t := Apply(cfg, s, a);
      OwnStepDecreases(cfg, s, a, r);
      RequestsStep(cfg, s, a);
      RemainingBounds(Block(t, r));
      OneMore(cfg, start, run, a);
      longer := AnswerWithin(cfg, start, run + [t], r);
    }
  }

  // Whatever has happened so far, a POST can be answered within as many further steps as its work says.
  lemma CanBeAnswered(cfg: Config, start: View, run: seq<State>, r: nat) returns (longer: seq<State>)
    requires IsRun(cfg, start, run) && r < |run[|run| - 1].puts|
    ensures HasPost(run[|run| - 1], r)
    ensures Continues(cfg, start, run, longer) && |longer| <= |run| + WorkAt(run[|run| - 1], r)
    ensures r < |longer[|longer| - 1].puts| && longer[|longer| - 1].puts[r].phase.Closed?
  {
    InvHolds(cfg, start, run, |run| - 1);
    longer := AnswerWithin(cfg, start, run, r);
  }

  // And a GET within four.
  lemma {:induction false} CanBeServed(cfg: Config, start: View, run: seq<State>, g: nat) returns (longer: seq<State>)
    requires IsRun(cfg, start, run) && g < |run[|run| - 1].gets|
    ensures Continues(cfg, start, run, longer) && |longer| <= |run| + GetWork(run[|run| - 1].gets[g])
    ensures g < |longer[|longer| - 1].gets| && longer[|longer| - 1].gets[g].phase.Served?
    decreases GetWork(run[|run| - 1].gets[g])
  {
    var s := run[|run| - 1];
    if s.gets[g].phase.Served? {
      longer := run;
    } else {
      var a := GetCanGo(cfg, s, g);
      GetStepDecreases(cfg, s, a, g);
      OneMore(cfg, start, run, a);
      longer := CanBeServed(cfg, start, run + [Apply(cfg, s, a)], g);
    }
  }
}
