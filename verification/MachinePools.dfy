/** Ownership of pooled objects (parseRequest and processPutRequest in endpoints/put.go) in every run. */
module MachinePools {
  import opened PutWorker
  import opened Store
  import opened Machine
  import opened MachineInv
  import opened MachineTheorems

  // The request object and the response object that a POST holds.
  function HeldReq(p: PutRequest): set<nat> {
    match p.phase
    case Unmarshalling(reqObj) => {reqObj}
    case Running(_, reqObj, _) => {reqObj}
    case _ => {}
  }

  function HeldResp(p: PutRequest): set<nat> {
    match p.phase
    case Running(_, _, respObj) => {respObj}
    case _ => {}
  }

  predicate InHands(ps: seq<PutRequest>, held: PutRequest -> set<nat>, obj: nat) {
    exists r :: 0 <= r < |ps| && obj in held(ps[r])
  }

  // A request's objects are its own.
  ghost predicate HeldAlone(pool: Pool, ps: seq<PutRequest>, held: PutRequest -> set<nat>, r: nat)
    requires r < |ps|
  {
    && held(ps[r]) !! pool.free && held(ps[r]) !! pool.dropped && (forall o :: o in held(ps[r]) ==> o < pool.made)
    && forall q :: 0 <= q < |ps| && q != r ==> held(ps[r]) !! held(ps[q])
  }

  // Every object ever made is in exactly one place: idle, dropped, or in the hands of one request.
  ghost predicate Owned(pool: Pool, ps: seq<PutRequest>, held: PutRequest -> set<nat>) {
    && pool.free !! pool.dropped && (forall o :: o in pool.free || o in pool.dropped ==> o < pool.made)
    && (forall r :: 0 <= r < |ps| ==> HeldAlone(pool, ps, held, r))
    && (forall o: nat :: o < pool.made ==> o in pool.free || o in pool.dropped || InHands(ps, held, o))
  }

  ghost predicate PoolInv(s: State) {
    Owned(s.reqs, s.puts, HeldReq) && Owned(s.resps, s.puts, HeldResp)
  }

  // A step in which request r takes objects from the pool or gives some back, and loses none.
  lemma OneHolderChanges(pool: Pool, ps: seq<PutRequest>, pool': Pool, p': PutRequest, held: PutRequest -> set<nat>, r: nat)
    requires Owned(pool, ps, held) && r < |ps| && pool.made <= pool'.made && pool'.dropped == pool.dropped
    requires pool'.free !! held(p')
    requires forall o :: o in pool'.free || o in held(p') <==> o in pool.free || o in held(ps[r]) || pool.made <= o < pool'.made
    ensures Owned(pool', ps[r := p'], held)
  {
    var ps' := ps[r := p'];
    assert HeldAlone(pool, ps, held, r);
    forall q | 0 <= q < |ps| && q != r
      ensures held(ps[q]) !! pool'.free && held(ps[q]) !! held(p')
    {
      assert HeldAlone(pool, ps, held, q);
    }
    forall q | 0 <= q < |ps'|
      ensures HeldAlone(pool', ps', held, q)
    {
      assert HeldAlone(pool, ps, held, q);
    }
    forall o: nat | o < pool'.made
      ensures o in pool'.free || o in pool'.dropped || InHands(ps', held, o)
    {
      if o < pool.made && InHands(ps, held, o) {
        var q :| 0 <= q < |ps| && o in held(ps[q]);
        assert q != r ==> o in held(ps'[q]);
      }
      assert o in held(p') ==> o in held(ps'[r]);
    }
  }

  // A request that neither takes nor returns objects of this kind.
  lemma Bystander(pool: Pool, ps: seq<PutRequest>, p': PutRequest, held: PutRequest -> set<nat>, r: nat)
    requires Owned(pool, ps, held) && r < |ps| && held(p') == held(ps[r])
    ensures Owned(pool, ps[r := p'], held)
  {
    assert HeldAlone(pool, ps, held, r);
    OneHolderChanges(pool, ps, pool, p', held, r);
  }

  lemma Taken(pool: Pool, ps: seq<PutRequest>, p': PutRequest, held: PutRequest -> set<nat>, r: nat, obj: nat)
    requires Owned(pool, ps, held) && r < |ps| && Available(pool, obj) && held(ps[r]) == {} && held(p') == {obj}
    ensures Owned(Take(pool, obj), ps[r := p'], held)
  {
    OneHolderChanges(pool, ps, Take(pool, obj), p', held, r);
  }

  lemma Given(pool: Pool, ps: seq<PutRequest>, p': PutRequest, held: PutRequest -> set<nat>, r: nat, obj: nat)
    requires Owned(pool, ps, held) && r < |ps| && held(ps[r]) == {obj} && held(p') == {}
    ensures Owned(Give(pool, obj), ps[r := p'], held)
  {
    OneHolderChanges(pool, ps, Give(pool, obj), p', held, r);
  }

  lemma Dropped(pool: Pool, ps: seq<PutRequest>, held: PutRequest -> set<nat>, objs: set<nat>)
    requires Owned(pool, ps, held)
    ensures Owned(Drop(pool, objs), ps, held)
  {
    forall r | 0 <= r < |ps|
      ensures HeldAlone(Drop(pool, objs), ps, held, r)
    {
      assert HeldAlone(pool, ps, held, r);
    }
  }

  lemma Arrived(pool: Pool, ps: seq<PutRequest>, held: PutRequest -> set<nat>, p: PutRequest)
    requires Owned(pool, ps, held) && held(p) == {}
    ensures Owned(pool, ps + [p], held)
  {
    var ps' := ps + [p];
    forall r | 0 <= r < |ps'|
      ensures HeldAlone(pool, ps', held, r)
    {
      if r < |ps| {
        assert HeldAlone(pool, ps, held, r);
      }
    }
    forall o: nat | InHands(ps, held, o)
      ensures InHands(ps', held, o)
    {
      var r :| 0 <= r < |ps| && o in held(ps[r]);
      assert o in held(ps'[r]);
    }
  }

  lemma ReadBodyPools(cfg: Config, s: State, r: nat, obj: nat)
    requires PoolInv(s) && Enabled(cfg, s, ReadsBody(r, obj))
    ensures PoolInv(Apply(cfg, s, ReadsBody(r, obj)))
  {
    hide Owned;
    var p' := Apply(cfg, s, ReadsBody(r, obj)).puts[r];
    Bystander(s.resps, s.puts, p', HeldResp, r);
    if p'.phase.Unmarshalling? {
      Taken(s.reqs, s.puts, p', HeldReq, r, obj);
    } else {
      Bystander(s.reqs, s.puts, p', HeldReq, r);
    }
  }

  lemma UnmarshalPools(cfg: Config, s: State, r: nat, obj: nat)
    requires PoolInv(s) && Enabled(cfg, s, Unmarshals(r, obj))
    ensures PoolInv(Apply(cfg, s, Unmarshals(r, obj)))
  {
    hide Owned;
    var p' := Apply(cfg, s, Unmarshals(r, obj)).puts[r];
    if p'.phase.Running? {
      Bystander(s.reqs, s.puts, p', HeldReq, r);
      Taken(s.resps, s.puts, p', HeldResp, r, obj);
    } else {
      Given(s.reqs, s.puts, p', HeldReq, r, s.puts[r].phase.reqObj);
      Bystander(s.resps, s.puts, p', HeldResp, r);
    }
  }

  lemma JoinPools(cfg: Config, s: State, r: nat)
    requires PoolInv(s) && Enabled(cfg, s, Joins(r))
    ensures PoolInv(Apply(cfg, s, Joins(r)))
  {
    hide Owned;
    var p' := Apply(cfg, s, Joins(r)).puts[r];
    Given(s.reqs, s.puts, p', HeldReq, r, s.puts[r].phase.reqObj);
    Given(s.resps, s.puts, p', HeldResp, r, s.puts[r].phase.respObj);
  }

  // Launches, workers and answers leave the pools alone.
  lemma BystanderPools(cfg: Config, s: State, a: Action)
    requires PoolInv(s) && Enabled(cfg, s, a) && (a.Launches? || a.Works? || a.Answers?)
    ensures PoolInv(Apply(cfg, s, a))
  {
    hide Owned, Advance;
    var p' := Apply(cfg, s, a).puts[a.r];
    Bystander(s.reqs, s.puts, p', HeldReq, a.r);
    Bystander(s.resps, s.puts, p', HeldResp, a.r);
  }

  lemma OtherPools(cfg: Config, s: State, a: Action)
    requires PoolInv(s) && Enabled(cfg, s, a) && (a.PutArrives? || a.GetArrives? || a.GetSteps? || a.PoolsDrop?)
    ensures PoolInv(Apply(cfg, s, a))
  {
    hide Owned;
    match a
    case PutArrives(_) =>
      var p := Apply(cfg, s, a).puts[|s.puts|];
      Arrived(s.reqs, s.puts, HeldReq, p);
      Arrived(s.resps, s.puts, HeldResp, p);
    case PoolsDrop(reqs, resps) =>
      Dropped(s.reqs, s.puts, HeldReq, reqs);
      Dropped(s.resps, s.puts, HeldResp, resps);
    case _ =>
  }

  lemma PoolStep(cfg: Config, s: State, a: Action)
    requires PoolInv(s) && Enabled(cfg, s, a)
    ensures PoolInv(Apply(cfg, s, a))
  {
    hide PoolInv, Enabled, Apply;
    match a
    case ReadsBody(r, obj) => ReadBodyPools(cfg, s, r, obj);
    case Unmarshals(r, obj) => UnmarshalPools(cfg, s, r, obj);
    case Joins(r) => JoinPools(cfg, s, r);
    case Launches(_) => BystanderPools(cfg, s, a);
    case Works(_, _, _) => BystanderPools(cfg, s, a);
    case Answers(_) => BystanderPools(cfg, s, a);
    case _ => OtherPools(cfg, s, a);
  }

  lemma PoolNext(cfg: Config, s: State, t: State)
    requires PoolInv(s) && Next(cfg, s, t)
    ensures PoolInv(t)
  {
    var a :| Enabled(cfg, s, a) && t == Apply(cfg, s, a);
    PoolStep(cfg, s, a);
  }

  // In every reachable state every pooled object is in exactly one place, so none is lost, shared, or given back twice.
  lemma {:induction false} PoolHolds(cfg: Config, start: View, run: seq<State>, n: nat)
    requires IsRun(cfg, start, run) && n < |run|
    ensures Owned(run[n].reqs, run[n].puts, HeldReq) && Owned(run[n].resps, run[n].puts, HeldResp)
  {
    if n > 0 {
      PoolHolds(cfg, start, run, n - 1);
      assert StepAt(cfg, run, n - 1);
      PoolNext(cfg, run[n - 1], run[n]);
    }
  }

  // An answered request holds nothing, and its objects are back in the pools; a request whose workers are not all done
  // still holds both of its objects, and nobody else does.
  lemma PoolOwnership(cfg: Config, start: View, run: seq<State>, n: nat, r: nat)
    requires IsRun(cfg, start, run) && n < |run| && r < |run[n].puts|
    ensures var s := run[n]; var p := s.puts[r];
            && HeldAlone(s.reqs, s.puts, HeldReq, r) && HeldAlone(s.resps, s.puts, HeldResp, r)
            && (IsAnswered(p.phase) ==> HeldReq(p) == HeldResp(p) == {})
            && p.first + p.count <= |s.workers|
            && (!AllDone(Block(s, r)) ==> |HeldReq(p)| == 1 && |HeldResp(p)| == 1)
  {
    PoolHolds(cfg, start, run, n);
    InvHolds(cfg, start, run, n);
    assert RequestInv(cfg, run[n].puts[r], Block(run[n], r));
  }
}
