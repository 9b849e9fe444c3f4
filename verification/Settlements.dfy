/** The answers to the statuses of a connect sequence settle them: none of these waits for its answer afterwards. */
module Settlements {
  import opened Common
  import opened SentMessages
  import opened SessionSpec
  import opened SessionRuns
  import opened SessionScripts
  import opened ConnectLanguage
  import opened Introductions

  lemma {:induction false} FillAllSettles(lib: Library, s: Session, statuses: seq<DeviceStatus>)
    ensures FillAll(lib, s, statuses).pending == s.pending || FillAll(lib, s, statuses).pending == []
    decreases |statuses|
  {
    hide FeedAll;
    if statuses != [] {
      FillAllSettles(lib, s, statuses[..|statuses| - 1]);
    }
  }

  lemma AwaitSettles(lib: Library, s: Session)
    ensures Await(lib, s).pending == s.pending || Await(lib, s).pending == []
  {
    hide FillAll;
    var t := s.(received := s.received + 1);
    if t.ahead != [] {
      FillAllSettles(lib, t.(ahead := t.ahead[1..]), t.ahead[0]);
    }
  }

  ghost predicate Settles(net: Network, first: nat, n: nat, pending: seq<Sent>) {
    forall i :: first <= i < first + n ==>
      match net.inbox(i)
      case Some(StatusResponse(_, _, counter)) => forall sent :: sent in pending ==> sent.counter != counter
      case _ => false
  }

  lemma AcknowledgedIsGone(pending: seq<Sent>, sends: nat, counter: uint32)
    requires Ascending(pending, sends)
    ensures Ascending(Acknowledged(pending, counter), sends)
    ensures forall sent :: sent in Acknowledged(pending, counter) ==> sent in pending && sent.counter != counter
  {
    hide Acknowledged;
    AcknowledgementTakesOne(pending, counter);
    if Awaited(pending, counter) {
      AscendingWithout(pending, sends, Position(pending, counter));
    }
  }

  /** While the counters are unique, no status whose counter has been answered in the second step is pending any more. */
  lemma {:induction false} ResponsesSettle(lib: Library, net: Network, s: Session, n: nat, sends: nat)
    requires Ascending(s.pending, sends) && AwaitStatusResponses(lib, net, s, n).rc == Ok
    ensures var t := AwaitStatusResponses(lib, net, s, n).session;
            && Ascending(t.pending, sends) && t.received == s.received + n
            && Settles(net, s.received, n, t.pending)
    decreases n
  {
    hide Await, Acknowledged, Ascending;
    NothingAscends();
    if n > 0 {
      ResponsesSettle(lib, net, s, n - 1, sends);
      var before := AwaitStatusResponses(lib, net, s, n - 1).session;
      AwaitKeeps(lib, before);
      AwaitSettles(lib, before);
      match net.inbox(before.received)
      case Some(StatusResponse(_, _, counter)) => AcknowledgedIsGone(Await(lib, before).pending, sends, counter);
      case _ =>
    }
  }

  lemma {:induction false} CommandsSettle(lib: Library, net: Network, s: Session, n: nat)
    ensures var t := ThirdStep(lib, net, s, n).session; t.pending == s.pending || t.pending == []
    decreases n
  {
    hide Await, ResponseFor, InOrder;
    if n > 0 {
      CommandsSettle(lib, net, s, n - 1);
      AwaitSettles(lib, ThirdStep(lib, net, s, n - 1).session);
    }
  }

  lemma StepsSettle(lib: Library, net: Network, s: Session, devices: seq<DeviceId>, sends: nat)
    requires AllSteps(lib, net, s, devices).rc == Ok
    requires var first := FirstStep(lib, net, s, devices).session;
             && first.received == s.received + 1
             && SendAll(lib, net, first, devices).session.received == first.received
             && Ascending(SendAll(lib, net, first, devices).session.pending, sends)
    ensures Settles(net, s.received + 1, |devices|, AllSteps(lib, net, s, devices).session.pending)
  {
    hide FirstStep, SendAll, AwaitStatusResponses, ThirdStep, Ascending;
    var sent := SendAll(lib, net, FirstStep(lib, net, s, devices).session, devices).session;
    ResponsesSettle(lib, net, sent, |devices|, sends);
    var second := AwaitStatusResponses(lib, net, sent, |devices|).session;
    CommandsSettle(lib, net, second, |devices|);
  }

  lemma ConcludedSteps(lib: Library, net: Network, s: Session, meanwhile: seq<seq<DeviceStatus>>, devices: seq<DeviceId>)
    requires Initialize(lib, net, s, meanwhile, devices).rc == Ok
    ensures var steps := AllSteps(lib, net, Opened(lib, s, meanwhile), devices);
            && net.opens(s.attempts) && steps.rc == Ok
            && FirstStep(lib, net, Opened(lib, s, meanwhile), devices).rc == Ok
            && var pending := Initialize(lib, net, s, meanwhile, devices).session.pending;
               pending == steps.session.pending || pending == []
  {
    hide Pause, FirstStep, SecondStep, ThirdStep, FillAll, Flatten, Wipe;
    var all := AllSteps(lib, net, Opened(lib, s, meanwhile), devices).session;
    FillAllSettles(lib, all.(ahead := []), Flatten(all.ahead));
  }

  /** What has been done when the last status has been sent. */
  lemma SentIsRun(lib: Library, net: Network, modules: set<int>, ops: seq<Op>, s: Session, meanwhile: seq<seq<DeviceStatus>>,
                  devices: seq<DeviceId>) returns (until: seq<Op>)
    requires s == Run(lib, net, modules, ops).session && net.opens(s.attempts)
    requires FirstStep(lib, net, Opened(lib, s, meanwhile), devices).rc == Ok
    requires forall device :: device in devices ==> IsRegistered(s, device)
    ensures var first := FirstStep(lib, net, Opened(lib, s, meanwhile), devices).session;
            var sent := SendAll(lib, net, first, devices).session;
            && until <= InitializeScript(lib, net, s, meanwhile, devices)
            && Run(lib, net, modules, ops + until).session == sent && sent.received == first.received
  {
    hide Run, Play, FirstStep, FirstScript, SendAll, SendAllScript, InitializeScript, Opened, OpenedScript, IsRegistered;
    var u := Opened(lib, s, meanwhile);
    var first := FirstStep(lib, net, u, devices).session;
    FirstIsRun(lib, net, modules, ops, s, meanwhile, devices);
    forall device | device in devices ensures IsRegistered(first, device) {
      RegisteredAtFirst(lib, net, s, meanwhile, devices, device);
    }
    SendsAll(lib, net, first, devices);
    var script := SendAllScript(lib, net, first, devices);
    SendAllLeads(lib, net, first, devices);
    LeadsTo(lib, net, first, script, SendAll(lib, net, first, devices).session);
    PlayedOn(lib, net, modules, ops + OpenedScript(s, meanwhile) + FirstScript(net, u, devices), script);
    until := OpenedScript(s, meanwhile) + (FirstScript(net, u, devices) + script);
    SendingInScript(lib, net, s, meanwhile, devices, script);
    assert ops + OpenedScript(s, meanwhile) + FirstScript(net, u, devices) + script == ops + until;
  }

  /** Throughout some operations, fewer than 2^32 statuses have been sent since the counters were reset. */
  ghost predicate FewSent(lib: Library, net: Network, modules: set<int>, ops: seq<Op>, script: seq<Op>) {
    forall until :: until <= script ==> Run(lib, net, modules, ops + until).ledger.sends < TWO_32
  }

  lemma CountersAscend(lib: Library, net: Network, modules: set<int>, ops: seq<Op>, script: seq<Op>, until: seq<Op>)
    requires FewSent(lib, net, modules, ops, script) && until <= script
    ensures Ascending(Run(lib, net, modules, ops + until).session.pending, Run(lib, net, modules, ops + until).ledger.sends)
  {
    hide Run, Ascending, Conserved, Accounted, Obeyed, Handed;
    RunKeeps(lib, net, modules, ops + until);
  }

  /**
    Once a connect sequence has succeeded, no status that the server has answered in its course is pending any more,
    so long as fewer than 2^32 statuses have been sent since the counters were reset.
   */
  lemma AnsweredStatusesAreSettled(lib: Library, net: Network, modules: set<int>, ops: seq<Op>, meanwhile: seq<seq<DeviceStatus>>,
                                   devices: seq<DeviceId>)
    requires forall device :: device in devices ==> IsRegistered(Run(lib, net, modules, ops).session, device)
    requires var s := Run(lib, net, modules, ops).session;
             && Initialize(lib, net, s, meanwhile, devices).rc == Ok
             && FewSent(lib, net, modules, ops, InitializeScript(lib, net, s, meanwhile, devices))
    ensures var s := Run(lib, net, modules, ops).session;
            Settles(net, s.received + 1, |devices|, Initialize(lib, net, s, meanwhile, devices).session.pending)
  {
    hide *;
    var s := Run(lib, net, modules, ops).session;
    var u := Opened(lib, s, meanwhile);
    ConcludedSteps(lib, net, s, meanwhile, devices);
    OpeningPlays(lib, net, s, meanwhile);
    FirstReceives(lib, net, u, devices);
    var until := SentIsRun(lib, net, modules, ops, s, meanwhile, devices);
    CountersAscend(lib, net, modules, ops, InitializeScript(lib, net, s, meanwhile, devices), until);
    StepsSettle(lib, net, u, devices, Run(lib, net, modules, ops + until).ledger.sends);
    NothingUnsettled(net, s.received + 1, |devices|, AllSteps(lib, net, u, devices).session.pending);
  }

  lemma NothingUnsettled(net: Network, first: nat, n: nat, pending: seq<Sent>)
    ensures Settles(net, first, n, pending) ==> Settles(net, first, n, [])
  {
  }

  lemma FirstReceives(lib: Library, net: Network, s: Session, devices: seq<DeviceId>)
    requires FirstStep(lib, net, s, devices).rc == Ok
    ensures FirstStep(lib, net, s, devices).session.received == s.received + 1
  {
    hide Await;
    AwaitKeeps(lib, Greet(net, s, devices));
  }
}
