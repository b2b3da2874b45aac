/** Runs at rest: once every POST is answered, the store and the answers are those of the batches' elements. */
module MachineBatch {
  import opened Basics
  import opened Store
  import opened PutWorker
  import opened WriteOnce
  import opened Machine
  import opened MachineInv
  import opened MachineTheorems
  import opened Batch

  predicate InBlock(p: PutRequest, j: nat) {
    p.first <= j < p.first + p.count
  }

  predicate HasOwner(s: State, j: nat) {
    exists r :: 0 <= r < |s.puts| && InBlock(s.puts[r], j)
  }

  // Every worker is some POST's.
  ghost predicate Covered(s: State) {
    forall j :: 0 <= j < |s.workers| ==> HasOwner(s, j)
  }

  lemma SameBlocks(s: State, t: State)
    requires Covered(s) && |t.workers| == |s.workers| && |s.puts| <= |t.puts|
    requires forall r :: 0 <= r < |s.puts| ==> t.puts[r].first == s.puts[r].first && t.puts[r].count == s.puts[r].count
    ensures Covered(t)
  {
    forall j | 0 <= j < |t.workers|
      ensures HasOwner(t, j)
    {
      assert HasOwner(s, j);
      var r :| 0 <= r < |s.puts| && InBlock(s.puts[r], j);
      assert InBlock(t.puts[r], j);
    }
  }

  lemma UnmarshalCovers(cfg: Config, s: State, r: nat, obj: nat)
    requires RequestsInv(cfg, s) && Covered(s) && Enabled(cfg, s, Unmarshals(r, obj))
    ensures Covered(Apply(cfg, s, Unmarshals(r, obj)))
  {
    var t := Apply(cfg, s, Unmarshals(r, obj));
    assert RequestInv(cfg, s.puts[r], Block(s, r));
    if t.puts[r].phase.Running? {
      forall j | 0 <= j < |t.workers|
        ensures HasOwner(t, j)
      {
        if j < |s.workers| {
          assert HasOwner(s, j);
          var q :| 0 <= q < |s.puts| && InBlock(s.puts[q], j);
          assert InBlock(t.puts[q], j);
        } else {
          assert InBlock(t.puts[r], j);
        }
      }
    } else {
      SameBlocks(s, t);
    }
  }

  lemma CoveredStep(cfg: Config, s: State, a: Action)
    requires RequestsInv(cfg, s) && Covered(s) && Enabled(cfg, s, a)
    ensures Covered(Apply(cfg, s, a))
  {
    if a.Unmarshals? {
      UnmarshalCovers(cfg, s, a.r, a.obj);
    } else {
      hide Advance, NewWorkers, OutcomeOf, GetStep;
      SameBlocks(s, Apply(cfg, s, a));
    }
  }

  lemma CoveredNext(cfg: Config, s: State, t: State)
    requires RequestsInv(cfg, s) && Covered(s) && Next(cfg, s, t)
    ensures Covered(t)
  {
    var a :| Enabled(cfg, s, a) && t == Apply(cfg, s, a);
    CoveredStep(cfg, s, a);
  }

  lemma {:induction false} CoveredHolds(cfg: Config, start: View, run: seq<State>, n: nat)
    requires IsRun(cfg, start, run) && n < |run|
    ensures Covered(run[n])
  {
    if n > 0 {
      CoveredHolds(cfg, start, run, n - 1);
      InvHolds(cfg, start, run, n - 1);
      assert StepAt(cfg, run, n - 1);
      CoveredNext(cfg, run[n - 1], run[n]);
    }
  }

  ghost predicate AllAnswered(s: State) {
    forall r :: 0 <= r < |s.puts| ==> IsAnswered(s.puts[r].phase)
  }

  // However many POSTs there were and however they interleaved: once all are answered, their elements together are one
  // finished batch.
  lemma AtRest(cfg: Config, start: View, run: seq<State>, n: nat)
    requires IsRun(cfg, start, run) && n < |run| && AllAnswered(run[n])
    ensures Finished(cfg, start, run[n].store, run[n].workers, run[n].workers)
  {
    var s := run[n];
    InvHolds(cfg, start, run, n);
    CoveredHolds(cfg, start, run, n);
    forall j | 0 <= j < |s.workers|
      ensures s.workers[j].pc.Done?
    {
      assert HasOwner(s, j);
      var r :| 0 <= r < |s.puts| && InBlock(s.puts[r], j);
      assert RequestInv(cfg, s.puts[r], Block(s, r));
      assert Block(s, r)[j - s.puts[r].first] == s.workers[j];
    }
  }

  // So, over a store that does not fail, the keys added are exactly those the elements of all POSTs reach it with; and if
  // those are pairwise distinct, the store is that of all elements stored one after the other.
  lemma StoreAtRest(cfg: Config, start: View, run: seq<State>, n: nat)
    requires !cfg.remote && IsRun(cfg, start, run) && n < |run| && AllAnswered(run[n])
    ensures var s := run[n];
            && (forall key :: key in s.store <==> key in start || exists j :: 0 <= j < |s.workers| && Contends(cfg, s.workers[j], key))
            && (DistinctKeys(cfg, s.workers) ==> s.store == Sequentially(cfg, start, s.workers).0)
  {
    var s := run[n];
    AtRest(cfg, start, run, n);
    forall key
      ensures key in s.store <==> key in start || exists j :: 0 <= j < |s.workers| && Contends(cfg, s.workers[j], key)
    {
      KeysAdded(cfg, start, s.store, s.workers, s.workers, key);
    }
    if DistinctKeys(cfg, s.workers) {
      ScheduleIndependence(cfg, start, s.store, s.workers, s.workers);
    }
  }

  // A POST that had the server to itself, apart from GETs, leaves a finished batch of its own elements.
  lemma LonePost(cfg: Config, start: View, run: seq<State>, n: nat)
    requires IsRun(cfg, start, run) && n < |run| && |run[n].puts| == 1 && AllAnswered(run[n])
    ensures var s := run[n]; var p := s.puts[0];
            if Rejection(cfg, p.input).Some? then s.workers == [] && p.phase.outcome == Err(Rejection(cfg, p.input).value)
            else Finished(cfg, start, s.store, NewWorkers(p.input), s.workers) && p.phase.outcome == OutcomeOf(p.input, s.workers)
  {
    var s := run[n];
    InvHolds(cfg, start, run, n);
    CoveredHolds(cfg, start, run, n);
    AtRest(cfg, start, run, n);
    assert RequestInv(cfg, s.puts[0], Block(s, 0));
    if s.workers != [] {
      assert HasOwner(s, 0) && HasOwner(s, |s.workers| - 1);
    }
    assert Block(s, 0) == s.workers;
  }

  // Its store, its answer and the keys it adds, whatever the schedule: with pairwise distinct keys, those of the loop from
  // left to right.
  lemma LonePostIsSequential(cfg: Config, start: View, run: seq<State>, n: nat)
    requires !cfg.remote && IsRun(cfg, start, run) && n < |run| && |run[n].puts| == 1 && AllAnswered(run[n])
    requires Rejection(cfg, run[n].puts[0].input) == None
    ensures var s := run[n]; var p := s.puts[0]; var asked := NewWorkers(p.input);
            && (forall key :: key in s.store <==> key in start || exists i :: 0 <= i < |asked| && Contends(cfg, asked[i], key))
            && (DistinctKeys(cfg, asked) ==>
                  var (store, slots) := Sequentially(cfg, start, asked);
                  && s.store == store
                  && (p.phase.outcome.Ok? ==>
                        |p.phase.outcome.value| == |slots| && forall i :: 0 <= i < |slots| ==> p.phase.outcome.value[i] == slots[i].uuid))
  {
    LonePost(cfg, start, run, n);
    var s := run[n];
    var asked := NewWorkers(s.puts[0].input);
    forall key
      ensures key in s.store <==> key in start || exists i :: 0 <= i < |asked| && Contends(cfg, asked[i], key)
    {
      KeysAdded(cfg, start, s.store, asked, s.workers, key);
    }
    if DistinctKeys(cfg, asked) {
      ScheduleIndependence(cfg, start, s.store, asked, s.workers);
    }
  }
}
