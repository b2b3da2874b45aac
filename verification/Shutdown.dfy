/**
 Shutdown (server/server.go): wait relays the first OS signal to every server over unbuffered channels and
 returns when as many servers have reported on the shared done channel. A transition of two goroutines is
 a rendezvous; the channels passed to wait and to the servers may be wired in any way.
 */
module Shutdown {
  import opened Basics

  type Channel = nat
  type Signal = nat

  datatype WaiterPc = AwaitingSignal | Spawning(next: nat, sig: Signal) | Collecting(got: nat, sig: Signal) | Returned(sig: Signal)

  // sendSignal
  datatype SenderPc = NotStarted | Sending(sig: Signal) | Sent
  datatype Sender = Sender(to: Channel, pc: SenderPc)

  // shutdownAfterSignals
  datatype ServerPc = Listening | ShuttingDown(sig: Signal) | Reporting(sig: Signal) | Finished(sig: Signal)
  datatype Server = Server(stopper: Channel, pc: ServerPc)

  // inbound is what the operating system sends.
  datatype State = State(inbound: Signal, waiter: WaiterPc, senders: seq<Sender>, servers: seq<Server>)

  function Initial(inbound: Signal, outbound: seq<Channel>, stoppers: seq<Channel>): State {
    State(inbound, AwaitingSignal,
          seq(|outbound|, i requires 0 <= i < |outbound| => Sender(outbound[i], NotStarted)),
          seq(|stoppers|, j requires 0 <= j < |stoppers| => Server(stoppers[j], Listening)))
  }

  datatype Action =
    | SignalArrives
    | Spawns
    | Relays(i: nat, j: nat)
    | ShutdownReturns(j: nat)
    | Reports(j: nat)
    | Returns

  predicate Enabled(s: State, a: Action) {
    match a
    case SignalArrives => s.waiter.AwaitingSignal?
    case Spawns => s.waiter.Spawning? && s.waiter.next <= |s.senders|
    case Relays(i, j) =>
      i < |s.senders| && j < |s.servers| && s.senders[i].pc.Sending? && s.servers[j].pc.Listening?
      && s.senders[i].to == s.servers[j].stopper
    case ShutdownReturns(j) => j < |s.servers| && s.servers[j].pc.ShuttingDown?
    case Reports(j) =>
      j < |s.servers| && s.servers[j].pc.Reporting? && s.waiter.Collecting? && s.waiter.got < |s.senders|
    case Returns => s.waiter.Collecting? && s.waiter.got >= |s.senders|
  }

  function SetServer(s: State, j: nat, pc: ServerPc): State
    requires j < |s.servers|
  {
    s.(servers := s.servers[j := s.servers[j].(pc := pc)])
  }

  function SetSender(s: State, i: nat, pc: SenderPc): State
    requires i < |s.senders|
  {
    s.(senders := s.senders[i := s.senders[i].(pc := pc)])
  }

  function Apply(s: State, a: Action): State
    requires Enabled(s, a)
  {
    match a
    case SignalArrives => s.(waiter := Spawning(0, s.inbound))
    case Spawns =>
      if s.waiter.next == |s.senders| then s.(waiter := Collecting(0, s.waiter.sig))
      else SetSender(s, s.waiter.next, Sending(s.waiter.sig)).(waiter := Spawning(s.waiter.next + 1, s.waiter.sig))
    case Relays(i, j) => SetServer(SetSender(s, i, Sent), j, ShuttingDown(s.senders[i].pc.sig))
    case ShutdownReturns(j) => SetServer(s, j, Reporting(s.servers[j].pc.sig))
    case Reports(j) =>
      SetServer(s, j, Finished(s.servers[j].pc.sig)).(waiter := Collecting(s.waiter.got + 1, s.waiter.sig))
    case Returns => s.(waiter := Returned(s.waiter.sig))
  }

  // ---------- Counting goroutines ----------

  function SentOn(c: Channel): Sender -> int {
    (x: Sender) => One(x.to == c && x.pc.Sent?)
  }

  function UnsentOn(c: Channel): Sender -> int {
    (x: Sender) => One(x.to == c && !x.pc.Sent?)
  }

  function ReceivedOn(c: Channel): Server -> int {
    (x: Server) => One(x.stopper == c && !x.pc.Listening?)
  }

  function ListeningOn(c: Channel): Server -> int {
    (x: Server) => One(x.stopper == c && x.pc.Listening?)
  }

  function IsSent(x: Sender): int {
    One(x.pc.Sent?)
  }

  function HasReceived(x: Server): int {
    One(!x.pc.Listening?)
  }

  function IsFinished(x: Server): int {
    One(x.pc.Finished?)
  }

  // ---------- The invariant ----------

  ghost predicate Wired(s: State, outbound: seq<Channel>, stoppers: seq<Channel>) {
    && |s.senders| == |outbound| && (forall i :: 0 <= i < |outbound| ==> s.senders[i].to == outbound[i])
    && |s.servers| == |stoppers| && (forall j :: 0 <= j < |stoppers| ==> s.servers[j].stopper == stoppers[j])
  }

  // Everyone who has heard a signal has heard the one the operating system sent.
  ghost predicate SameSignal(s: State) {
    if s.waiter.AwaitingSignal? then
      && (forall i :: 0 <= i < |s.senders| ==> s.senders[i].pc.NotStarted?)
      && (forall j :: 0 <= j < |s.servers| ==> s.servers[j].pc.Listening?)
    else
      && s.waiter.sig == s.inbound
      && (forall i :: 0 <= i < |s.senders| && s.senders[i].pc.Sending? ==> s.senders[i].pc.sig == s.waiter.sig)
      && (forall j :: 0 <= j < |s.servers| && !s.servers[j].pc.Listening? ==> s.servers[j].pc.sig == s.waiter.sig)
  }

  ghost predicate Progressed(s: State) {
    match s.waiter
    case AwaitingSignal => Total(s.servers, IsFinished) == 0
    case Spawning(next, _) =>
      next <= |s.senders| && (forall i :: 0 <= i < |s.senders| ==> (s.senders[i].pc.NotStarted? <==> i >= next))
      && Total(s.servers, IsFinished) == 0
    case Collecting(got, _) =>
      got <= |s.senders| && got == Total(s.servers, IsFinished)
      && (forall i :: 0 <= i < |s.senders| ==> !s.senders[i].pc.NotStarted?)
    case Returned(_) => |s.senders| == Total(s.servers, IsFinished)
  }

  ghost predicate Balanced(s: State) {
    && Total(s.senders, IsSent) == Total(s.servers, HasReceived)
    && forall c :: Total(s.senders, SentOn(c)) == Total(s.servers, ReceivedOn(c))
  }

  ghost predicate Inv(s: State, outbound: seq<Channel>, stoppers: seq<Channel>) {
    Wired(s, outbound, stoppers) && SameSignal(s) && Progressed(s) && Balanced(s)
  }

  lemma InitialInv(inbound: Signal, outbound: seq<Channel>, stoppers: seq<Channel>)
    ensures Inv(Initial(inbound, outbound, stoppers), outbound, stoppers)
  {
    var s := Initial(inbound, outbound, stoppers);
    TotalZero(s.servers, IsFinished);
    TotalZero(s.senders, IsSent);
    TotalZero(s.servers, HasReceived);
    forall c
      ensures Total(s.senders, SentOn(c)) == 0 == Total(s.servers, ReceivedOn(c))
    {
      TotalZero(s.senders, SentOn(c));
      TotalZero(s.servers, ReceivedOn(c));
    }
  }

  lemma SenderUpdate(s: State, i: nat, pc: SenderPc)
    requires i < |s.senders|
    ensures var t := SetSender(s, i, pc);
            && Total(t.senders, IsSent) == Total(s.senders, IsSent) - One(s.senders[i].pc.Sent?) + One(pc.Sent?)
            && forall c :: Total(t.senders, SentOn(c)) == Total(s.senders, SentOn(c))
                           - One(s.senders[i].to == c && s.senders[i].pc.Sent?) + One(s.senders[i].to == c && pc.Sent?)
  {
    var x := s.senders[i].(pc := pc);
    TotalUpdate(s.senders, i, x, IsSent);
    forall c {
      TotalUpdate(s.senders, i, x, SentOn(c));
    }
  }

  lemma ServerUpdate(s: State, j: nat, pc: ServerPc)
    requires j < |s.servers|
    ensures var t := SetServer(s, j, pc);
            && Total(t.servers, IsFinished) == Total(s.servers, IsFinished) - One(s.servers[j].pc.Finished?) + One(pc.Finished?)
            && Total(t.servers, HasReceived) == Total(s.servers, HasReceived) - One(!s.servers[j].pc.Listening?) + One(!pc.Listening?)
            && forall c :: Total(t.servers, ReceivedOn(c)) == Total(s.servers, ReceivedOn(c))
                           - One(s.servers[j].stopper == c && !s.servers[j].pc.Listening?) + One(s.servers[j].stopper == c && !pc.Listening?)
  {
    var x := s.servers[j].(pc := pc);
    TotalUpdate(s.servers, j, x, IsFinished);
    TotalUpdate(s.servers, j, x, HasReceived);
    forall c {
      TotalUpdate(s.servers, j, x, ReceivedOn(c));
    }
  }

  lemma RelayKeeps(s: State, i: nat, j: nat, outbound: seq<Channel>, stoppers: seq<Channel>)
    requires Inv(s, outbound, stoppers) && Enabled(s, Relays(i, j))
    ensures Inv(Apply(s, Relays(i, j)), outbound, stoppers)
  {
    SenderUpdate(s, i, Sent);
    ServerUpdate(SetSender(s, i, Sent), j, ShuttingDown(s.senders[i].pc.sig));
  }

  lemma InvStep(s: State, a: Action, outbound: seq<Channel>, stoppers: seq<Channel>)
    requires Inv(s, outbound, stoppers) && Enabled(s, a)
    ensures Inv(Apply(s, a), outbound, stoppers)
  {
    match a
    case Spawns =>
      if s.waiter.next < |s.senders| {
        SenderUpdate(s, s.waiter.next, Sending(s.waiter.sig));
      }
    case Relays(i, j) => RelayKeeps(s, i, j, outbound, stoppers);
    case ShutdownReturns(j) => ServerUpdate(s, j, Reporting(s.servers[j].pc.sig));
    case Reports(j) => ServerUpdate(s, j, Finished(s.servers[j].pc.sig));
    case _ =>
  }

  ghost predicate Next(s: State, t: State) {
    exists a :: Enabled(s, a) && t == Apply(s, a)
  }

  ghost predicate StepAt(run: seq<State>, i: nat)
    requires i + 1 < |run|
  {
    Next(run[i], run[i + 1])
  }

  ghost predicate IsPath(run: seq<State>) {
    |run| > 0 && forall i :: 0 <= i < |run| - 1 ==> StepAt(run, i)
  }

  ghost predicate IsRun(outbound: seq<Channel>, stoppers: seq<Channel>, run: seq<State>) {
    IsPath(run) && run[0] == Initial(run[0].inbound, outbound, stoppers)
  }

  lemma NextKeeps(s: State, t: State, outbound: seq<Channel>, stoppers: seq<Channel>)
    requires Inv(s, outbound, stoppers) && Next(s, t)
    ensures Inv(t, outbound, stoppers) && t.inbound == s.inbound && Measure(t) < Measure(s)
  {
    var a :| Enabled(s, a) && t == Apply(s, a);
    InvStep(s, a, outbound, stoppers);
    MeasureDecreases(s, a);
  }

  lemma {:induction false} InvHolds(outbound: seq<Channel>, stoppers: seq<Channel>, run: seq<State>, n: nat)
    requires IsRun(outbound, stoppers, run) && n < |run|
    ensures Inv(run[n], outbound, stoppers) && run[n].inbound == run[0].inbound
    ensures Measure(run[n]) + n <= Measure(run[0])
  {
    if n == 0 {
      InitialInv(run[0].inbound, outbound, stoppers);
    } else {
      InvHolds(outbound, stoppers, run, n - 1);
      assert StepAt(run, n - 1);
      NextKeeps(run[n - 1], run[n], outbound, stoppers);
    }
  }

  // ---------- Safety ----------

  lemma {:induction false} TotalAtMost<T>(xs: seq<T>, f: T -> int)
    requires forall x :: x in xs ==> f(x) <= 1
    ensures Total(xs, f) <= |xs|
    ensures Total(xs, f) == |xs| ==> forall x :: x in xs ==> f(x) == 1
  {
    if xs != [] {
      assert xs[0] in xs;
      TotalAtMost(xs[1..], f);
      assert forall x :: x in xs ==> x == xs[0] || x in xs[1..];
    }
  }

  // At this step server j's call of Shutdown returns.
  ghost predicate ShutdownReturnsAt(run: seq<State>, k: nat, j: nat) {
    && k + 1 < |run| && j < |run[k].servers| && j < |run[k + 1].servers|
    && run[k].servers[j].pc.ShuttingDown? && run[k + 1].servers[j].pc.Reporting?
  }

  ghost predicate HasShutDown(run: seq<State>, n: nat, j: nat) {
    exists k :: 0 <= k < n && ShutdownReturnsAt(run, k, j)
  }

  lemma OnlyShutdownLeadsToReporting(s: State, t: State, j: nat)
    requires Next(s, t) && j < |s.servers| && |t.servers| == |s.servers|
    requires t.servers[j].pc.Reporting? || t.servers[j].pc.Finished?
    ensures s.servers[j].pc.Reporting? || s.servers[j].pc.Finished? || (s.servers[j].pc.ShuttingDown? && t.servers[j].pc.Reporting?)
  {
  }

  // A server reports only after a call of Shutdown on it has returned.
  lemma {:induction false} ReportsAfterShutdown(outbound: seq<Channel>, stoppers: seq<Channel>, run: seq<State>, n: nat, j: nat)
    returns (k: nat)
    requires IsRun(outbound, stoppers, run) && n < |run| && j < |run[n].servers|
    requires run[n].servers[j].pc.Reporting? || run[n].servers[j].pc.Finished?
    ensures k < n && ShutdownReturnsAt(run, k, j)
  {
    if n == 0 {
      assert false;
    } else {
      InvHolds(outbound, stoppers, run, n - 1);
      InvHolds(outbound, stoppers, run, n);
      assert StepAt(run, n - 1);
      OnlyShutdownLeadsToReporting(run[n - 1], run[n], j);
      if run[n - 1].servers[j].pc.ShuttingDown? {
        k := n - 1;
      } else {
        k := ReportsAfterShutdown(outbound, stoppers, run, n - 1, j);
      }
    }
  }

  // When wait has returned, as many servers as it was given channels have finished, and every server that heard anything
  // heard the signal that the operating system sent. If there is a channel for each server, then Shutdown has been called
  // on every one of them and has returned.
  lemma ReturnsAfterShutdowns(outbound: seq<Channel>, stoppers: seq<Channel>, run: seq<State>, n: nat)
    requires IsRun(outbound, stoppers, run) && n < |run| && run[n].waiter.Returned?
    ensures var s := run[n];
            && Total(s.servers, IsFinished) == |outbound|
            && (forall j :: 0 <= j < |s.servers| && !s.servers[j].pc.Listening? ==> s.servers[j].pc.sig == run[0].inbound)
            && (|outbound| == |stoppers| ==> forall j :: 0 <= j < |s.servers| ==> s.servers[j].pc == Finished(run[0].inbound))
    ensures |outbound| == |stoppers| ==> forall j :: 0 <= j < |stoppers| ==> HasShutDown(run, n, j)
  {
    InvHolds(outbound, stoppers, run, n);
    var s := run[n];
    TotalAtMost(s.servers, IsFinished);
    if |outbound| == |stoppers| {
      forall j | 0 <= j < |s.servers|
        ensures s.servers[j].pc == Finished(run[0].inbound)
        ensures HasShutDown(run, n, j)
      {
        assert s.servers[j] in s.servers;
        assert IsFinished(s.servers[j]) == 1;
        var k := ReportsAfterShutdown(outbound, stoppers, run, n, j);
      }
    }
  }

  // Deliveries match one to one: on each channel, as many signals were sent as servers received one.
  lemma DeliveredOnce(outbound: seq<Channel>, stoppers: seq<Channel>, run: seq<State>, n: nat, c: Channel)
    requires IsRun(outbound, stoppers, run) && n < |run|
    ensures Total(run[n].senders, SentOn(c)) == Total(run[n].servers, ReceivedOn(c))
  {
    InvHolds(outbound, stoppers, run, n);
  }

  // A server that has received the signal never listens again.
  lemma {:induction false} ReceivesAtMostOnce(run: seq<State>, n: nat, m: nat, j: nat)
    requires IsPath(run) && n <= m < |run|
    requires j < |run[n].servers| && !run[n].servers[j].pc.Listening?
    ensures j < |run[m].servers| && !run[m].servers[j].pc.Listening? && run[m].servers[j].pc.sig == run[n].servers[j].pc.sig
  {
    if n < m {
      ReceivesAtMostOnce(run, n, m - 1, j);
      assert StepAt(run, m - 1);
    }
  }

  // ---------- Progress ----------

  function SenderWork(x: Sender): int {
    if x.pc.NotStarted? then 2 else if x.pc.Sending? then 1 else 0
  }

  function ServerWork(x: Server): int {
    if x.pc.Listening? then 3 else if x.pc.ShuttingDown? then 2 else if x.pc.Reporting? then 1 else 0
  }

  function WaiterWork(w: WaiterPc): int {
    if w.AwaitingSignal? then 3 else if w.Spawning? then 2 else if w.Collecting? then 1 else 0
  }

  // Unsent signals, running shutdowns and undelivered done tokens.
  function Measure(s: State): int {
    WaiterWork(s.waiter) + Total(s.senders, SenderWork) + Total(s.servers, ServerWork)
  }

  lemma {:induction false} TotalAtLeast<T>(xs: seq<T>, f: T -> int)
    requires forall x :: x in xs ==> f(x) >= 0
    ensures Total(xs, f) >= 0
    ensures Total(xs, f) == 0 ==> forall x :: x in xs ==> f(x) == 0
  {
    if xs != [] {
      assert xs[0] in xs;
      TotalAtLeast(xs[1..], f);
      assert forall x :: x in xs ==> x == xs[0] || x in xs[1..];
    }
  }

  lemma MeasureNonNegative(s: State)
    ensures Measure(s) >= 0
  {
    TotalAtLeast(s.senders, SenderWork);
    TotalAtLeast(s.servers, ServerWork);
  }

  lemma MeasureDecreases(s: State, a: Action)
    requires Enabled(s, a) && Progressed(s)
    ensures Measure(Apply(s, a)) < Measure(s)
  {
    match a
    case Spawns =>
      if s.waiter.next < |s.senders| {
        TotalUpdate(s.senders, s.waiter.next, s.senders[s.waiter.next].(pc := Sending(s.waiter.sig)), SenderWork);
      }
    case Relays(i, j) =>
      TotalUpdate(s.senders, i, s.senders[i].(pc := Sent), SenderWork);
      TotalUpdate(s.servers, j, s.servers[j].(pc := ShuttingDown(s.senders[i].pc.sig)), ServerWork);
    case ShutdownReturns(j) =>
      TotalUpdate(s.servers, j, s.servers[j].(pc := Reporting(s.servers[j].pc.sig)), ServerWork);
    case Reports(j) =>
      TotalUpdate(s.servers, j, s.servers[j].(pc := Finished(s.servers[j].pc.sig)), ServerWork);
    case _ =>
  }

  function MultisetOf(cs: seq<Channel>, c: Channel): int {
    multiset(cs)[c]
  }

  lemma {:induction false} SendersOn(xs: seq<Sender>, cs: seq<Channel>, c: Channel)
    requires |xs| == |cs| && forall i :: 0 <= i < |xs| ==> xs[i].to == cs[i]
    ensures Total(xs, SentOn(c)) + Total(xs, UnsentOn(c)) == MultisetOf(cs, c)
  {
    if xs != [] {
      SendersOn(xs[1..], cs[1..], c);
      assert cs == [cs[0]] + cs[1..];
    }
  }

  lemma {:induction false} ServersOn(xs: seq<Server>, cs: seq<Channel>, c: Channel)
    requires |xs| == |cs| && forall j :: 0 <= j < |xs| ==> xs[j].stopper == cs[j]
    ensures Total(xs, ReceivedOn(c)) + Total(xs, ListeningOn(c)) == MultisetOf(cs, c)
  {
    if xs != [] {
      ServersOn(xs[1..], cs[1..], c);
      assert cs == [cs[0]] + cs[1..];
    }
  }

  // With channels that pair up, a sender that is still waiting has a server that listens to it.
  lemma ListenerFor(s: State, outbound: seq<Channel>, stoppers: seq<Channel>, i: nat) returns (j: nat)
    requires Inv(s, outbound, stoppers) && multiset(outbound) == multiset(stoppers)
    requires i < |s.senders| && !s.senders[i].pc.Sent?
    ensures j < |s.servers| && s.servers[j].pc.Listening? && s.servers[j].stopper == s.senders[i].to
  {
    var c := s.senders[i].to;
    SendersOn(s.senders, outbound, c);
    ServersOn(s.servers, stoppers, c);
    TotalAtLeast(s.senders, UnsentOn(c));
    assert s.senders[i] in s.senders && UnsentOn(c)(s.senders[i]) == 1;
    if forall j :: 0 <= j < |s.servers| ==> ListeningOn(c)(s.servers[j]) == 0 {
      TotalZero(s.servers, ListeningOn(c));
      assert false;
    }
    j :| 0 <= j < |s.servers| && ListeningOn(c)(s.servers[j]) != 0;
  }

  // No state between the signal and the return is stuck.
  lemma NeverStuck(s: State, outbound: seq<Channel>, stoppers: seq<Channel>) returns (a: Action)
    requires Inv(s, outbound, stoppers) && multiset(outbound) == multiset(stoppers)
    requires !s.waiter.AwaitingSignal? && !s.waiter.Returned?
    ensures Enabled(s, a)
  {
    if s.waiter.Spawning? {
      a := Spawns;
    } else if s.waiter.got == |s.senders| {
      a := Returns;
    } else if j :| 0 <= j < |s.servers| && s.servers[j].pc.Reporting? {
      a := Reports(j);
    } else if j :| 0 <= j < |s.servers| && s.servers[j].pc.ShuttingDown? {
      a := ShutdownReturns(j);
    } else {
      SomeoneUnsent(s, outbound, stoppers);
      var i :| 0 <= i < |s.senders| && !s.senders[i].pc.Sent?;
      var j := ListenerFor(s, outbound, stoppers, i);
      a := Relays(i, j);
    }
  }

  lemma {:induction false} QuietServers(xs: seq<Server>)
    requires forall j :: 0 <= j < |xs| ==> xs[j].pc.Listening? || xs[j].pc.Finished?
    ensures Total(xs, HasReceived) == Total(xs, IsFinished)
  {
    if xs != [] {
      QuietServers(xs[1..]);
    }
  }

  lemma {:induction false} AllSent(xs: seq<Sender>)
    requires forall i :: 0 <= i < |xs| ==> xs[i].pc.Sent?
    ensures Total(xs, IsSent) == |xs|
  {
    if xs != [] {
      AllSent(xs[1..]);
    }
  }

  lemma SomeoneUnsent(s: State, outbound: seq<Channel>, stoppers: seq<Channel>)
    requires Inv(s, outbound, stoppers) && s.waiter.Collecting? && s.waiter.got < |s.senders|
    requires forall j :: 0 <= j < |s.servers| ==> s.servers[j].pc.Listening? || s.servers[j].pc.Finished?
    ensures exists i :: 0 <= i < |s.senders| && !s.senders[i].pc.Sent?
  {
    QuietServers(s.servers);
    if forall i :: 0 <= i < |s.senders| ==> s.senders[i].pc.Sent? {
      AllSent(s.senders);
    }
  }

  // Shutdown ends: no run is longer than the measure allows, and one that cannot go on has returned.
  lemma ShutdownEnds(outbound: seq<Channel>, stoppers: seq<Channel>, run: seq<State>)
    requires multiset(outbound) == multiset(stoppers) && IsRun(outbound, stoppers, run)
    ensures |run| <= 1 + Measure(run[0])
    ensures var last := run[|run| - 1];
            (forall a :: !Enabled(last, a)) ==> last.waiter.Returned?
  {
    var last := run[|run| - 1];
    InvHolds(outbound, stoppers, run, |run| - 1);
    MeasureNonNegative(last);
    if last.waiter.AwaitingSignal? {
      assert Enabled(last, SignalArrives);
    } else if !last.waiter.Returned? {
      var a := NeverStuck(last, outbound, stoppers);
    }
  }

  // ---------- Exactly the paired wirings can return ----------

  lemma {:induction false} PathToReturn(s: State, outbound: seq<Channel>, stoppers: seq<Channel>) returns (run: seq<State>)
    requires Inv(s, outbound, stoppers) && multiset(outbound) == multiset(stoppers)
    ensures IsPath(run) && run[0] == s && run[|run| - 1].waiter.Returned?
    decreases Measure(s)
  {
    if s.waiter.Returned? {
      run := [s];
    } else {
      var a := SignalArrives;
      if !s.waiter.AwaitingSignal? {
        a := NeverStuck(s, outbound, stoppers);
      }
      var t := Apply(s, a);
      InvStep(s, a, outbound, stoppers);
      MeasureDecreases(s, a);
      MeasureNonNegative(t);
      var rest := PathToReturn(t, outbound, stoppers);
      run := [s] + rest;
      forall i | 0 <= i < |run| - 1
        ensures StepAt(run, i)
      {
        if i == 0 {
          assert Next(s, t);
        } else {
          assert StepAt(rest, i - 1);
        }
      }
    }
  }

  ghost predicate CanReturn(outbound: seq<Channel>, stoppers: seq<Channel>) {
    exists run: seq<State> :: IsRun(outbound, stoppers, run) && run[|run| - 1].waiter.Returned?
  }

  // With one channel per server, wait can return if and only if the channels it is given are exactly the ones
  // the servers listen to; by ShutdownEnds it then always does.
  lemma ReturnsIffPaired(outbound: seq<Channel>, stoppers: seq<Channel>)
    requires |outbound| == |stoppers|
    ensures CanReturn(outbound, stoppers) <==> multiset(outbound) == multiset(stoppers)
  {
    if multiset(outbound) == multiset(stoppers) {
      InitialInv(0, outbound, stoppers);
      var run := PathToReturn(Initial(0, outbound, stoppers), outbound, stoppers);
      assert IsRun(outbound, stoppers, run);
    }
    forall run: seq<State> | IsRun(outbound, stoppers, run) && run[|run| - 1].waiter.Returned?
      ensures multiset(outbound) == multiset(stoppers)
    {
      InvHolds(outbound, stoppers, run, |run| - 1);
      ReturnsAfterShutdowns(outbound, stoppers, run, |run| - 1);
      ReturnedIsPaired(run[|run| - 1], outbound, stoppers);
    }
  }

  lemma ReturnedIsPaired(s: State, outbound: seq<Channel>, stoppers: seq<Channel>)
    requires Inv(s, outbound, stoppers) && |outbound| == |stoppers| && s.waiter.Returned?
    requires forall j :: 0 <= j < |s.servers| ==> s.servers[j].pc.Finished?
    ensures multiset(outbound) == multiset(stoppers)
  {
    QuietServers(s.servers);
    TotalAtMost(s.senders, IsSent);
    forall c
      ensures multiset(outbound)[c] == multiset(stoppers)[c]
    {
      SendersOn(s.senders, outbound, c);
      ServersOn(s.servers, stoppers, c);
      forall x | x in s.senders
        ensures UnsentOn(c)(x) == 0
      {
        assert IsSent(x) == 1;
      }
      TotalZero(s.senders, UnsentOn(c));
      TotalZero(s.servers, ListeningOn(c));
    }
  }

  // Listen's own wiring, with and without the Prometheus server: one private channel per server.
  lemma ListenIsPaired(stopMain: Channel, stopAdmin: Channel, stopPrometheus: Channel)
    ensures CanReturn([stopMain, stopAdmin], [stopMain, stopAdmin])
    ensures CanReturn([stopMain, stopAdmin, stopPrometheus], [stopMain, stopAdmin, stopPrometheus])
  {
    ReturnsIffPaired([stopMain, stopAdmin], [stopMain, stopAdmin]);
    ReturnsIffPaired([stopMain, stopAdmin, stopPrometheus], [stopMain, stopAdmin, stopPrometheus]);
  }
}
