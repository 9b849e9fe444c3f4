/** What a connect sequence leaves in the error aggregators: everything, unless it succeeds. */
module Attempts {
  import opened Common
  import opened SentMessages
  import opened SessionSpec
  import opened SessionRuns
  import opened SessionScripts
  import opened ConnectLanguage
  import Err = ErrorAggregator

  /** The statuses of a device that its error aggregator tells of after a run. */
  function Told(lib: Library, net: Network, modules: set<int>, ops: seq<Op>, id: Identity): seq<Buffer> {
    Err.Since(ErrorOps(Run(lib, net, modules, ops).ledger.fed, id.moduleNumber), id)
  }

  // What one operation feeds.

  function FedBy(net: Network, s: Session, op: Op): seq<Fed> {
    match op
    case Send(status, kind, error) =>
      if !Supports(s, status.device) then []
      else
        (if IsRegistered(s, status.device) then [] else [Given(status)])
        + if net.sends(|s.outbox|) then [] else Marked(s.pending + [NewStatus(s, status, kind, error)])
    case Absorb(status) => if Supports(s, status.device) then Marked(s.pending) + [Given(status)] else []
    case FlushPending => Marked(s.pending)
    case Drop => Marked(s.pending)
    case ForgetErrors => [Wiped]
    case _ => []
  }

  lemma EnterFeeds(lib: Library, net: Network, s: Session, l: Ledger, op: Op)
    ensures Enter(lib, net, s, l, op).fed == l.fed + FedBy(net, s, op)
  {
    hide Marked, ReportedAs, IsRegistered, InOrder, Listed, Awaited;
    match op
    case Send(status, kind, error) =>
      var lost := Marked(s.pending + [NewStatus(s, status, kind, error)]);
      assert l.fed + [Given(status)] + lost == l.fed + ([Given(status)] + lost);
      assert l.fed + ([] + lost) == l.fed + lost;
    case Absorb(status) =>
      assert l.fed + Marked(s.pending) + [Given(status)] == l.fed + (Marked(s.pending) + [Given(status)]);
    case _ =>
  }

  lemma QuietFeedsNoWipe(net: Network, s: Session, op: Op)
    requires IsQuiet(op)
    ensures Wiped !in FedBy(net, s, op)
  {
    hide ReportedAs, IsRegistered;
  }

  // What a device is told of after some more has been fed.

  lemma {:induction false} ErrorOpsAppend(fed: seq<Fed>, more: seq<Fed>, number: int)
    ensures ErrorOps(fed + more, number) == ErrorOps(fed, number) + ErrorOps(more, number)
    decreases |more|
  {
    hide SeenBy;
    var all := fed + more;
    if more == [] {
      assert all == fed;
    } else {
      var n := |more| - 1;
      assert all[..|all| - 1] == fed + more[..n];
      ErrorOpsAppend(fed, more[..n], number);
    }
  }

  lemma {:induction false} NoWipeNoClear(more: seq<Fed>, number: int)
    requires Wiped !in more
    ensures forall op :: op in ErrorOps(more, number) ==> op != Err.Cleared
    decreases |more|
  {
    if more != [] {
      var n := |more| - 1;
      assert more[n] in more;
      NoWipeNoClear(more[..n], number);
    }
  }

  lemma {:induction false} SinceAppend(ops: seq<Err.Op>, more: seq<Err.Op>, id: Identity)
    requires forall op :: op in more ==> op != Err.Cleared
    ensures Err.Since(ops + more, id) == Err.Since(ops, id) + Err.Since(more, id)
    decreases |more|
  {
    var all := ops + more;
    if more == [] {
      assert all == ops;
    } else {
      var n := |more| - 1;
      assert more[n] in more;
      assert all[..|all| - 1] == ops + more[..n];
      assert forall op :: op in more[..n] ==> op in more;
      SinceAppend(ops, more[..n], id);
    }
  }

  lemma {:induction false} GivenIsTold(more: seq<Fed>, status: DeviceStatus)
    requires Wiped !in more && Given(status) in more
    ensures status.data in Err.Since(ErrorOps(more, status.device.identity.moduleNumber), status.device.identity)
    decreases |more|
  {
    var number, id := status.device.identity.moduleNumber, status.device.identity;
    var n := |more| - 1;
    var init := more[..n];
    assert more == init + [more[n]] && more[n] in more;
    ErrorOpsAppend(init, [more[n]], number);
    NoWipeNoClear([more[n]], number);
    SinceAppend(ErrorOps(init, number), ErrorOps([more[n]], number), id);
    if more[n] == Given(status) {
      GivenAlone(status);
    } else {
      GivenIsTold(init, status);
    }
  }

  lemma GivenAlone(status: DeviceStatus)
    ensures Err.Since(ErrorOps([Given(status)], status.device.identity.moduleNumber), status.device.identity) == [status.data]
  {
    var op := Err.Added(status.device, status.data);
    assert [Given(status)][..0] == [];
    assert ErrorOps([Given(status)], status.device.identity.moduleNumber) == [op];
    assert [op][..0] == [];
  }

  // Quiet runs.

  /** Operations that forget no errors only add to what is told, and what they absorb is told of. */
  lemma {:induction false} QuietRunTells(lib: Library, net: Network, modules: set<int>, ops: seq<Op>, quiet: seq<Op>, id: Identity)
    returns (tail: seq<Buffer>)
    requires Quiet(quiet) && id.moduleNumber in modules
    ensures Told(lib, net, modules, ops + quiet, id) == Told(lib, net, modules, ops, id) + tail
    ensures forall status :: status in Brought(quiet) && status.device.identity == id ==> status.data in tail
    decreases |quiet|
  {
    hide IsQuiet, ErrorOps, Err.Since, Run, Enter, Step, BroughtBy, FedBy;
    if quiet == [] {
      assert ops + quiet == ops;
      tail := [];
    } else {
      var n := |quiet| - 1;
      var op := quiet[n];
      assert IsQuiet(op) by { assert op in quiet; }
      var early := QuietRunTells(lib, net, modules, ops, quiet[..n], id);
      var h := Run(lib, net, modules, ops + quiet[..n]);
      assert ops + quiet == (ops + quiet[..n]) + [op];
      RunNext(lib, net, modules, ops + quiet[..n], op);
      EnterFeeds(lib, net, h.session, h.ledger, op);
      var more := FedBy(net, h.session, op);
      QuietFeedsNoWipe(net, h.session, op);
      ErrorOpsAppend(h.ledger.fed, more, id.moduleNumber);
      NoWipeNoClear(more, id.moduleNumber);
      SinceAppend(ErrorOps(h.ledger.fed, id.moduleNumber), ErrorOps(more, id.moduleNumber), id);
      var late := Err.Since(ErrorOps(more, id.moduleNumber), id);
      tail := early + late;
      ModulesStay(lib, net, modules, ops + quiet[..n]);
      assert quiet[..n] + [op] == quiet;
      PlayNext(lib, net, h.session, quiet[..n], op);
      forall status | status in Brought(quiet) && status.device.identity == id ensures status.data in tail {
        if status !in Brought(quiet[..n]) {
          BroughtIsFed(net, h.session, op, status);
          GivenIsTold(more, status);
        }
      }
    }
  }

  lemma ModulesStay(lib: Library, net: Network, modules: set<int>, ops: seq<Op>)
    ensures Run(lib, net, modules, ops).session.errors.Keys == modules
  {
    hide Run, Conserved, Numbered, Obeyed, Handed, Explained;
    RunKeeps(lib, net, modules, ops);
  }

  lemma BroughtIsFed(net: Network, s: Session, op: Op, status: DeviceStatus)
    requires IsQuiet(op) && status in BroughtBy(op) && Supports(s, status.device)
    ensures Given(status) in FedBy(net, s, op)
  {
  }

  // Attempts.

  lemma RunOn(lib: Library, net: Network, modules: set<int>, ops: seq<Op>, more: seq<Op>)
    ensures Run(lib, net, modules, ops + more).session == Play(lib, net, Run(lib, net, modules, ops).session, more)
  {
    hide Run, Play, Start;
    PlayIsRun(lib, net, modules, ops + more);
    PlayIsRun(lib, net, modules, ops);
    PlayAppend(lib, net, Start(modules).session, ops, more);
  }

  lemma WipeTellsNothing(lib: Library, net: Network, modules: set<int>, ops: seq<Op>, id: Identity)
    ensures Told(lib, net, modules, ops + [ForgetErrors], id) == []
  {
    hide Run, Step;
    RunNext(lib, net, modules, ops, ForgetErrors);
    var fed := Run(lib, net, modules, ops).ledger.fed;
    assert (fed + [Wiped])[..|fed|] == fed;
    var before := ErrorOps(fed, id.moduleNumber);
    assert ErrorOps(fed + [Wiped], id.moduleNumber) == before + [Err.Cleared];
  }

  /** A connection that is neither up nor being started. */
  predicate CanBegin(s: Session) {
    s.link == NotInitialized || s.link == NotConnected
  }

  /** The error aggregator of its module has the device, and what it tells is folded over the given statuses. */
  ghost predicate TellsOf(lib: Library, s: Session, id: Identity, statuses: seq<Buffer>) {
    && id.moduleNumber in s.errors
    && id in s.errors[id.moduleNumber]
    && s.errors[id.moduleNumber][id]
       == if statuses == [] then Err.BLANK
          else Err.ErrorState(Err.Fold(lib(id.moduleNumber), id.deviceType, statuses), statuses[|statuses| - 1])
  }

  /**
    After any run, let a connect sequence absorb statuses at its pauses. Each of them is still among those told of
    exactly when the sequence fails, and then everything told before is told as well. The error aggregator of its
    module tells of it, in an error folded over all these, exactly when moreover the type of the device is supported.
   */
  lemma AbsorbedSurvivesAttempt(lib: Library, net: Network, modules: set<int>, ops: seq<Op>,
                                meanwhile: seq<seq<DeviceStatus>>, devices: seq<DeviceId>, status: DeviceStatus)
    requires status in Flatten(meanwhile) && status.device.identity.moduleNumber in modules
    ensures var s, id := Run(lib, net, modules, ops).session, status.device.identity;
            var r, all := Initialize(lib, net, s, meanwhile, devices), ops + InitializeScript(lib, net, s, meanwhile, devices);
            var after, told := Run(lib, net, modules, all).session, Told(lib, net, modules, all, id);
            && after == r.session
            && (status.data in told <==> r.rc != Ok)
            && (r.rc != Ok ==> Told(lib, net, modules, ops, id) <= told)
            && (TellsOf(lib, after, id, told) && status.data in told
                <==> r.rc != Ok && lib(id.moduleNumber).supports(id.deviceType))
  {
    hide Run, Play, Told, Brought, Quiet, Flatten, InitializeScript, Initialize, TellsOf;
    var s, id := Run(lib, net, modules, ops).session, status.device.identity;
    var script := InitializeScript(lib, net, s, meanwhile, devices);
    InitializePlays(lib, net, s, meanwhile, devices);
    RunOn(lib, net, modules, ops, script);
    ToldIsTold(lib, net, modules, ops + script, id);
    if Initialize(lib, net, s, meanwhile, devices).rc == Ok {
      SuccessEndsWithWipe(lib, net, s, meanwhile, devices);
      assert ops + script == ops + script[..|script| - 1] + [ForgetErrors];
      WipeTellsNothing(lib, net, modules, ops + script[..|script| - 1], id);
    } else {
      var tail := QuietRunTells(lib, net, modules, ops, script, id);
    }
  }

  /** For registered devices this is decided by the trace: it fails exactly when the trace is not in the language. */
  lemma AbsorbedSurvivesExactlyOnFailure(lib: Library, net: Network, modules: set<int>, ops: seq<Op>,
                                         meanwhile: seq<seq<DeviceStatus>>, devices: seq<DeviceId>, status: DeviceStatus)
    requires CanBegin(Run(lib, net, modules, ops).session)
    requires forall device :: device in devices ==> IsRegistered(Run(lib, net, modules, ops).session, device)
    requires status in Flatten(meanwhile) && status.device.identity.moduleNumber in modules
    ensures var s, id := Run(lib, net, modules, ops).session, status.device.identity;
            var all := ops + InitializeScript(lib, net, s, meanwhile, devices);
            var after, told := Run(lib, net, modules, all).session, Told(lib, net, modules, all, id);
            && after == Initialize(lib, net, s, meanwhile, devices).session
            && (!InLanguage(net, s, |devices|) ==> Told(lib, net, modules, ops, id) <= told)
            && (TellsOf(lib, after, id, told) && status.data in told
                <==> !InLanguage(net, s, |devices|) && lib(id.moduleNumber).supports(id.deviceType))
  {
    hide Run, Told, Flatten, InLanguage, IsRegistered, InitializeScript, Initialize, TellsOf;
    AbsorbedSurvivesAttempt(lib, net, modules, ops, meanwhile, devices, status);
    ConnectSequenceLanguage(lib, net, Run(lib, net, modules, ops).session, meanwhile, devices);
  }

  lemma ToldIsTold(lib: Library, net: Network, modules: set<int>, ops: seq<Op>, id: Identity)
    requires id.moduleNumber in modules
    ensures var s, told := Run(lib, net, modules, ops).session, Told(lib, net, modules, ops, id);
            && (TellsOf(lib, s, id, told) ==> lib(id.moduleNumber).supports(id.deviceType))
            && (told != [] && lib(id.moduleNumber).supports(id.deviceType) ==> TellsOf(lib, s, id, told))
  {
    hide Run, Err.Run, Err.Fold, ErrorOps, Err.Since, Err.EverAdded;
    ErrorsTellWhatWasFed(lib, net, modules, ops, id);
    Err.ErrorsAreFolds(lib(id.moduleNumber), ErrorOps(Run(lib, net, modules, ops).ledger.fed, id.moduleNumber), id);
  }

  lemma SuccessEndsWithWipe(lib: Library, net: Network, s: Session, meanwhile: seq<seq<DeviceStatus>>, devices: seq<DeviceId>)
    requires Initialize(lib, net, s, meanwhile, devices).rc == Ok
    ensures var script := InitializeScript(lib, net, s, meanwhile, devices);
            script != [] && script == script[..|script| - 1] + [ForgetErrors]
  {
    hide AttemptScript, AllSteps, Pause, Finish, Wipe;
  }

  // A status that is absorbed while a connection without devices is started, and is lost or kept with it.

  function Reachable(open: bool): Network {
    Network(_ => open, _ => true, _ => Some(ConnectResponse("", false)), _ => false, _ => "")
  }

  lemma AbsorbedStatusIsLost(lib: Library, status: DeviceStatus, open: bool)
    requires lib(status.device.identity.moduleNumber).supports(status.device.identity.deviceType)
    ensures var net, modules, id := Reachable(open), {status.device.identity.moduleNumber}, status.device.identity;
            var script := InitializeScript(lib, net, Start(modules).session, [[status]], []);
            var after, told := Run(lib, net, modules, script).session, Told(lib, net, modules, script, id);
            TellsOf(lib, after, id, told) && status.data in told <==> !open
  {
    hide Told, InitializeScript, TellsOf;
    var net, modules := Reachable(open), {status.device.identity.moduleNumber};
    assert Run(lib, net, modules, []) == Start(modules);
    var s := Start(modules).session;
    assert Flatten([[status]]) == [status] by { assert [[status]][1..] == []; }
    assert [] + InitializeScript(lib, net, s, [[status]], []) == InitializeScript(lib, net, s, [[status]], []);
    AbsorbedSurvivesExactlyOnFailure(lib, net, modules, [], [[status]], [], status);
    assert InLanguage(net, s, 0) <==> open;
  }
}
