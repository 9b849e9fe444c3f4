/**
  What a connect sequence tells the server: the list of the devices, and then the last status of each of them, as the
  ledger has it when it is looked up.
 */
module Introductions {
  import opened Common
  import opened SentMessages
  import opened SessionSpec
  import opened SessionRuns
  import opened SessionScripts
  import opened ConnectLanguage
  import Err = ErrorAggregator

  /** The first groups of a schedule, and the others. */
  function Earlier(groups: seq<seq<DeviceStatus>>, n: nat): seq<seq<DeviceStatus>> {
    if n <= |groups| then groups[..n] else groups
  }

  function Later(groups: seq<seq<DeviceStatus>>, n: nat): seq<seq<DeviceStatus>> {
    if n <= |groups| then groups[n..] else []
  }

  lemma LaterSum(groups: seq<seq<DeviceStatus>>, n: nat, m: nat)
    ensures Later(Later(groups, n), m) == Later(groups, n + m)
    ensures Later(groups, 0) == groups
  {
  }

  lemma SplitNext(groups: seq<seq<DeviceStatus>>, n: nat)
    ensures n == 0 ==> Earlier(groups, n) == [] && Later(groups, n) == groups
    ensures groups == [] ==> Earlier(groups, n) == [] && Later(groups, n) == []
    ensures n > 0 && groups != [] ==>
              && Earlier(groups, n) == [groups[0]] + Earlier(groups[1..], n - 1)
              && Later(groups, n) == Later(groups[1..], n - 1)
  {
  }

  lemma FlattenFirst(group: seq<DeviceStatus>, groups: seq<seq<DeviceStatus>>)
    ensures Flatten([group] + groups) == group + Flatten(groups)
  {
    assert ([group] + groups)[1..] == groups;
  }

  lemma {:induction false} FlattenSplit(groups: seq<seq<DeviceStatus>>, n: nat)
    ensures Flatten(Earlier(groups, n)) + Flatten(Later(groups, n)) == Flatten(groups)
    decreases n
  {
    hide Earlier, Later, Flatten;
    SplitNext(groups, n);
    FlattenNothing();
    if groups != [] && n > 0 {
      FlattenSplit(groups[1..], n - 1);
      FlattenFirst(groups[0], Earlier(groups[1..], n - 1));
      FlattenFirst(groups[0], groups[1..]);
      assert [groups[0]] + groups[1..] == groups;
    }
  }

  /** What a pause leaves as it is. */
  predicate Paused(s: Session, t: Session, pauses: nat) {
    SameLine(s, t) && t.received == s.received && t.link == s.link && t.outbox == s.outbox && t.ahead == Later(s.ahead, pauses)
  }

  lemma PauseTakesGroup(lib: Library, net: Network, s: Session)
    ensures Paused(s, Pause(lib, s), 1)
  {
    hide FillAll;
    PauseKeeps(lib, s);
    if s.ahead != [] {
      AbsorbsPlay(lib, net, s.(ahead := s.ahead[1..]), s.ahead[0]);
    }
  }

  // What is told of one device.

  /** The last status that the ledger has for a device since the last wipe, and the fold of all of them as the error. */
  ghost predicate TellsLast(lib: Library, net: Network, modules: set<int>, before: seq<Op>, message: ClientMessage,
                            session: string, device: DeviceId) {
    var id := device.identity;
    var statuses := Err.Since(ErrorOps(Run(lib, net, modules, before).ledger.fed, id.moduleNumber), id);
    && message.Status?
    && message.sent.session == session && message.sent.kind == Connecting
    && message.sent.status.device == device
    && message.sent.status.data == (if statuses == [] then [] else statuses[|statuses| - 1])
    && message.sent.error == Err.Fold(lib(id.moduleNumber), id.deviceType, statuses)
  }

  lemma StateTells(lib: Library, net: Network, modules: set<int>, before: seq<Op>, device: DeviceId)
    requires device.identity.moduleNumber in modules
    requires IsRegistered(Run(lib, net, modules, before).session, device)
    ensures var id := device.identity;
            var statuses := Err.Since(ErrorOps(Run(lib, net, modules, before).ledger.fed, id.moduleNumber), id);
            Run(lib, net, modules, before).session.errors[id.moduleNumber][id]
            == Err.ErrorState(Err.Fold(lib(id.moduleNumber), id.deviceType, statuses),
                              if statuses == [] then [] else statuses[|statuses| - 1])
  {
    hide Run, ErrorOps, Err.Since, Err.Fold, Err.EverAdded;
    ErrorsTellWhatWasFed(lib, net, modules, before, device.identity);
    Err.FoldNothing(lib(device.identity.moduleNumber), device.identity.deviceType);
  }

  lemma SendHandsOver(lib: Library, net: Network, s: Session, status: DeviceStatus, error: Buffer)
    requires Supports(s, status.device)
    ensures var t := SendStatus(lib, net, s, status, Connecting, error);
            && t.outbox == s.outbox + [Status(Sent(s.id, Connecting, Next(s.sendCounter), status, error))]
            && t.ahead == s.ahead && t.generated == s.generated && t.attempts == s.attempts
  {
    hide FeedAll, Feed, ConnectedAfter, IsRegistered;
  }

  /** A registered device has its last status sent as it is found at the first of two pauses. */
  lemma LastIsTold(lib: Library, net: Network, modules: set<int>, ops: seq<Op>, s: Session, device: DeviceId)
    requires s == Run(lib, net, modules, ops).session && IsRegistered(s, device) && device.identity.moduleNumber in modules
    ensures var t := SendLast(lib, net, s, device).session;
            && |t.outbox| == |s.outbox| + 1 && t.outbox[..|s.outbox|] == s.outbox
            && TellsLast(lib, net, modules, ops + PauseScript(s), t.outbox[|s.outbox|], s.id, device)
            && Run(lib, net, modules, ops + PauseScript(s)).session.outbox == s.outbox
            && t.ahead == Later(s.ahead, 2) && t.generated == s.generated && t.attempts == s.attempts && t.id == s.id
  {
    hide Run, Play, Pause, PauseScript, SendStatus, TellsLast, IsRegistered, Later;
    var looked := Pause(lib, s);
    var before := ops + PauseScript(s);
    PauseTakesGroup(lib, net, s);
    PauseLeads(lib, net, s);
    PlayedOn(lib, net, modules, ops, PauseScript(s));
    RegisteredPlay(lib, net, s, PauseScript(s), device);
    StateTells(lib, net, modules, before, device);
    RegisteredHasState(looked, device);
    PauseTakesGroup(lib, net, looked);
    LaterSum(s.ahead, 1, 1);
    var state := looked.errors[device.identity.moduleNumber][device.identity];
    var status := DeviceStatus(device, state.lastStatus);
    SendHandsOver(lib, net, Pause(lib, looked), status, state.errorMessage);
    SendKeeps(lib, net, Pause(lib, looked), status, Connecting, state.errorMessage);
    TellsState(lib, net, modules, before, Sent(s.id, Connecting, Next(Pause(lib, looked).sendCounter), status, state.errorMessage), device);
  }

  lemma RegisteredHasState(s: Session, device: DeviceId)
    requires IsRegistered(s, device)
    ensures Supports(s, device) && device.identity in s.errors[device.identity.moduleNumber]
  {
  }

  lemma TellsState(lib: Library, net: Network, modules: set<int>, before: seq<Op>, sent: Sent, device: DeviceId)
    requires device.identity.moduleNumber in modules
    requires IsRegistered(Run(lib, net, modules, before).session, device) && sent.kind == Connecting
    requires var state := Run(lib, net, modules, before).session.errors[device.identity.moduleNumber][device.identity];
             sent.status == DeviceStatus(device, state.lastStatus) && sent.error == state.errorMessage
    ensures TellsLast(lib, net, modules, before, Status(sent), sent.session, device)
  {
    hide Run, ErrorOps, Err.Since, Err.Fold;
    StateTells(lib, net, modules, before, device);
  }

  lemma PlayedOn(lib: Library, net: Network, modules: set<int>, ops: seq<Op>, more: seq<Op>)
    ensures Run(lib, net, modules, ops + more).session == Play(lib, net, Run(lib, net, modules, ops).session, more)
  {
    hide Run, Play, Start;
    PlayIsRun(lib, net, modules, ops);
    PlayIsRun(lib, net, modules, ops + more);
    PlayAppend(lib, net, Start(modules).session, ops, more);
  }

  // All devices.

  /** What has been done when the k-th device is looked up, from the first status on. */
  function UntilLookup(lib: Library, net: Network, s: Session, devices: seq<DeviceId>, k: nat): seq<Op>
    requires k < |devices|
  {
    SendAllScript(lib, net, s, devices[..k]) + PauseScript(SendAll(lib, net, s, devices[..k]).session)
  }

  lemma LookupInScript(lib: Library, net: Network, s: Session, devices: seq<DeviceId>, n: nat)
    requires n < |devices| && SendAll(lib, net, s, devices[..n]).rc == Ok
    ensures UntilLookup(lib, net, s, devices, n) <= SendAllScript(lib, net, s, devices[..n + 1])
  {
    hide SendAll, PauseScript, Pause;
    assert devices[..n + 1][..n] == devices[..n];
  }

  /** The message handed over behind so many others tells of the k-th device, as the ledger has it when that is looked up. */
  ghost predicate TellsAt(lib: Library, net: Network, modules: set<int>, ops: seq<Op>, s: Session, devices: seq<DeviceId>,
                          message: ClientMessage, k: nat)
    requires k < |devices|
  {
    var until := UntilLookup(lib, net, s, devices, k);
    && TellsLast(lib, net, modules, ops + until, message, s.id, devices[k])
    && |Run(lib, net, modules, ops + until).session.outbox| == |s.outbox| + k
    && Play(lib, net, s, until).ahead == Later(s.ahead, 2 * k + 1)
    && until <= SendAllScript(lib, net, s, devices)
  }

  ghost predicate ToldOf(lib: Library, net: Network, modules: set<int>, ops: seq<Op>, s: Session, devices: seq<DeviceId>,
                         outbox: seq<ClientMessage>, k: nat)
  {
    k < |devices| && |s.outbox| + k < |outbox| && TellsAt(lib, net, modules, ops, s, devices, outbox[|s.outbox| + k], k)
  }

  ghost predicate ToldOfFirst(lib: Library, net: Network, modules: set<int>, ops: seq<Op>, s: Session, devices: seq<DeviceId>,
                              outbox: seq<ClientMessage>, n: nat)
  {
    forall k :: 0 <= k < n ==> ToldOf(lib, net, modules, ops, s, devices, outbox, k)
  }

  lemma ToldLasts(lib: Library, net: Network, modules: set<int>, ops: seq<Op>, s: Session, devices: seq<DeviceId>,
                  outbox: seq<ClientMessage>, more: seq<ClientMessage>, n: nat)
    requires outbox <= more && ToldOfFirst(lib, net, modules, ops, s, devices, outbox, n)
    ensures ToldOfFirst(lib, net, modules, ops, s, devices, more, n)
  {
    hide TellsAt;
    forall k | 0 <= k < n ensures ToldOf(lib, net, modules, ops, s, devices, more, k) {
      assert ToldOf(lib, net, modules, ops, s, devices, outbox, k);
    }
  }

  /** How far the sending has come. */
  predicate Came(s: Session, t: Session, n: nat) {
    && s.outbox <= t.outbox && |t.outbox| == |s.outbox| + n
    && t.ahead == Later(s.ahead, 2 * n) && t.generated == s.generated && t.attempts == s.attempts && t.id == s.id
  }

  lemma {:induction false} ScriptGrows(lib: Library, net: Network, s: Session, devices: seq<DeviceId>, n: nat)
    requires n <= |devices|
    ensures SendAllScript(lib, net, s, devices[..n]) <= SendAllScript(lib, net, s, devices)
    decreases |devices| - n
  {
    hide SendAll, SendLastScript;
    if n == |devices| {
      assert devices[..n] == devices;
    } else {
      ScriptGrows(lib, net, s, devices, n + 1);
      assert devices[..n + 1][..n] == devices[..n];
    }
  }

  /** The k-th device is told of, once those before it have been. */
  lemma NextIsTold(lib: Library, net: Network, modules: set<int>, ops: seq<Op>, s: Session, devices: seq<DeviceId>, k: nat)
    requires s == Run(lib, net, modules, ops).session && k < |devices|
    requires forall device :: device in devices ==> IsRegistered(s, device) && device.identity.moduleNumber in modules
    requires Came(s, SendAll(lib, net, s, devices[..k]).session, k)
    ensures var u := SendAll(lib, net, s, devices[..k + 1]).session;
            && Came(s, u, k + 1) && TellsAt(lib, net, modules, ops, s, devices, u.outbox[|s.outbox| + k], k)
            && SendAll(lib, net, s, devices[..k]).session.outbox <= u.outbox
  {
    hide *;
    var device, t, script := devices[k], SendAll(lib, net, s, devices[..k]).session, SendAllScript(lib, net, s, devices[..k]);
    var u := SendAll(lib, net, s, devices[..k + 1]).session;
    CameMeans(s, t, k);
    assert device in devices && forall d :: d in devices[..k] ==> d in devices;
    SendsAll(lib, net, s, devices[..k]);
    SendAllNext(lib, net, s, devices, k);
    SendAllLeads(lib, net, s, devices[..k]);
    LeadsTo(lib, net, s, script, t);
    PlayedOn(lib, net, modules, ops, script);
    RegisteredPlay(lib, net, s, script, device);
    LastIsTold(lib, net, modules, ops + script, t, device);
    UntilIs(lib, net, s, devices, k);
    assert (ops + script) + PauseScript(t) == ops + (script + PauseScript(t));
    PauseTakesGroup(lib, net, t);
    PausedMeans(t, Pause(lib, t), 1);
    PauseLeads(lib, net, t);
    LeadsTo(lib, net, t, PauseScript(t), Pause(lib, t));
    PlayAppend(lib, net, s, script, PauseScript(t));
    LaterSum(s.ahead, 2 * k, 1);
    LaterSum(s.ahead, 2 * k, 2);
    LookupInScript(lib, net, s, devices, k);
    ScriptGrows(lib, net, s, devices, k + 1);
    OutboxGrows(s.outbox, t.outbox, u.outbox);
    CameIs(s, u, k + 1);
    TellsAtIs(lib, net, modules, ops, s, devices, u.outbox[|s.outbox| + k], k);
  }

  lemma CameMeans(s: Session, t: Session, n: nat)
    requires Came(s, t, n)
    ensures s.outbox <= t.outbox && |t.outbox| == |s.outbox| + n
    ensures t.ahead == Later(s.ahead, 2 * n) && t.generated == s.generated && t.attempts == s.attempts && t.id == s.id
  {
    hide Later;
  }

  lemma CameIs(s: Session, t: Session, n: nat)
    requires s.outbox <= t.outbox && |t.outbox| == |s.outbox| + n
    requires t.ahead == Later(s.ahead, 2 * n) && t.generated == s.generated && t.attempts == s.attempts && t.id == s.id
    ensures Came(s, t, n)
  {
    hide Later;
  }

  lemma PausedMeans(s: Session, t: Session, pauses: nat)
    requires Paused(s, t, pauses)
    ensures t.ahead == Later(s.ahead, pauses) && t.outbox == s.outbox
  {
    hide Later;
  }

  lemma TellsAtIs(lib: Library, net: Network, modules: set<int>, ops: seq<Op>, s: Session, devices: seq<DeviceId>,
                  message: ClientMessage, k: nat)
    requires k < |devices|
    requires var until := UntilLookup(lib, net, s, devices, k);
             && TellsLast(lib, net, modules, ops + until, message, s.id, devices[k])
             && |Run(lib, net, modules, ops + until).session.outbox| == |s.outbox| + k
             && Play(lib, net, s, until).ahead == Later(s.ahead, 2 * k + 1)
             && until <= SendAllScript(lib, net, s, devices)
    ensures TellsAt(lib, net, modules, ops, s, devices, message, k)
  {
    hide Run, Play, UntilLookup, TellsLast, SendAllScript, Later;
  }

  lemma NoneSent(lib: Library, net: Network, s: Session, devices: seq<DeviceId>)
    ensures SendAll(lib, net, s, devices[..0]) == Outcome(s, Ok)
  {
  }

  lemma UntilIs(lib: Library, net: Network, s: Session, devices: seq<DeviceId>, k: nat)
    requires k < |devices|
    ensures UntilLookup(lib, net, s, devices, k)
         == SendAllScript(lib, net, s, devices[..k]) + PauseScript(SendAll(lib, net, s, devices[..k]).session)
  {
  }

  lemma SendAllNext(lib: Library, net: Network, s: Session, devices: seq<DeviceId>, k: nat)
    requires k < |devices| && SendAll(lib, net, s, devices[..k]).rc == Ok
    ensures SendAll(lib, net, s, devices[..k + 1]) == SendLast(lib, net, SendAll(lib, net, s, devices[..k]).session, devices[k])
  {
    hide SendLast;
    assert devices[..k + 1][..k] == devices[..k];
  }

  lemma {:induction false} AllAreTold(lib: Library, net: Network, modules: set<int>, ops: seq<Op>, s: Session,
                                      devices: seq<DeviceId>, n: nat)
    requires s == Run(lib, net, modules, ops).session && n <= |devices|
    requires forall device :: device in devices ==> IsRegistered(s, device) && device.identity.moduleNumber in modules
    ensures var t := SendAll(lib, net, s, devices[..n]).session;
            Came(s, t, n) && ToldOfFirst(lib, net, modules, ops, s, devices, t.outbox, n)
    decreases n
  {
    hide Run, SendAll, IsRegistered, TellsAt, Later;
    if n == 0 {
      NoneSent(lib, net, s, devices);
      LaterSum(s.ahead, 0, 0);
    } else {
      AllAreTold(lib, net, modules, ops, s, devices, n - 1);
      NextIsTold(lib, net, modules, ops, s, devices, n - 1);
      SendsAll(lib, net, s, devices[..n - 1]);
      SendAllNext(lib, net, s, devices, n - 1);
      ToldLasts(lib, net, modules, ops, s, devices, SendAll(lib, net, s, devices[..n - 1]).session.outbox,
                SendAll(lib, net, s, devices[..n]).session.outbox, n - 1);
    }
  }

  lemma OutboxGrows(a: seq<ClientMessage>, b: seq<ClientMessage>, c: seq<ClientMessage>)
    requires a <= b && b <= c
    ensures a <= c && forall i :: 0 <= i < |b| ==> b[i] == c[i]
  {
  }

  // The steps of the sequence.

  /** Only responses to commands have been handed over since. */
  ghost predicate OnlyResponses(before: seq<ClientMessage>, after: seq<ClientMessage>) {
    before <= after && forall i :: |before| <= i < |after| ==> after[i].CommandResponse?
  }

  predicate SameStart(s: Session, t: Session) {
    t.generated == s.generated && t.attempts == s.attempts
  }

  lemma {:induction false} AwaitingTellsNothing(lib: Library, net: Network, s: Session, n: nat)
    ensures var t := AwaitStatusResponses(lib, net, s, n).session; t.outbox == s.outbox && SameStart(s, t)
    decreases n
  {
    hide Await, Acknowledged;
    if n > 0 {
      AwaitingTellsNothing(lib, net, s, n - 1);
      AwaitKeeps(lib, AwaitStatusResponses(lib, net, s, n - 1).session);
    }
  }

  lemma {:induction false} CommandsTellResponses(lib: Library, net: Network, s: Session, n: nat)
    ensures var t := ThirdStep(lib, net, s, n).session; OnlyResponses(s.outbox, t.outbox) && SameStart(s, t)
    decreases n
  {
    hide Await, ResponseFor, InOrder;
    if n > 0 {
      CommandsTellResponses(lib, net, s, n - 1);
      AwaitKeeps(lib, ThirdStep(lib, net, s, n - 1).session);
    }
  }

  lemma FirstTells(lib: Library, net: Network, s: Session, devices: seq<DeviceId>)
    ensures var r := FirstStep(lib, net, s, devices);
            && r.session.outbox == s.outbox + [Connect(net.sessions(s.generated), devices)]
            && r.session.generated == s.generated + 1 && r.session.attempts == s.attempts
            && (r.rc == Ok <==> net.sends(|s.outbox|) && net.inbox(s.received) == Some(ConnectResponse(net.sessions(s.generated), false)))
            && (r.rc == Ok ==> r.session.id == net.sessions(s.generated) && r.session.ahead == Later(s.ahead, 1))
  {
    hide Pause, Later;
    var t := Greet(net, s, devices);
    PauseTakesGroup(lib, net, t.(received := t.received + 1));
  }

  lemma StepsTell(lib: Library, net: Network, modules: set<int>, ops: seq<Op>, s: Session, devices: seq<DeviceId>)
    requires FirstStep(lib, net, s, devices).rc == Ok
    requires var first := FirstStep(lib, net, s, devices).session;
             && first == Run(lib, net, modules, ops).session
             && forall device :: device in devices ==> IsRegistered(first, device) && device.identity.moduleNumber in modules
    ensures var first, t := FirstStep(lib, net, s, devices).session, AllSteps(lib, net, s, devices).session;
            && |t.outbox| >= |first.outbox| + |devices| && first.outbox <= t.outbox && SameStart(first, t)
            && ToldOfFirst(lib, net, modules, ops, first, devices, t.outbox, |devices|)
            && OnlyResponses(t.outbox[..|first.outbox| + |devices|], t.outbox)
  {
    hide FirstStep, SendAll, AwaitStatusResponses, ThirdStep, Run, IsRegistered, ToldOfFirst;
    var first := FirstStep(lib, net, s, devices).session;
    AllAreTold(lib, net, modules, ops, first, devices, |devices|);
    assert devices[..|devices|] == devices;
    SendsAll(lib, net, first, devices);
    var sent := SendAll(lib, net, first, devices).session;
    AwaitingTellsNothing(lib, net, sent, |devices|);
    var second := AwaitStatusResponses(lib, net, sent, |devices|).session;
    CommandsTellResponses(lib, net, second, |devices|);
    var t := AllSteps(lib, net, s, devices).session;
    assert t.outbox[..|sent.outbox|] == sent.outbox;
    ToldLasts(lib, net, modules, ops, first, devices, sent.outbox, t.outbox, |devices|);
  }

  // The whole sequence.

  /** The session with which the steps begin, and what has been done until then. */
  function Opened(lib: Library, s: Session, meanwhile: seq<seq<DeviceStatus>>): Session {
    Pause(lib, Begun(s, meanwhile)).(link := InSequence)
  }

  function OpenedScript(s: Session, meanwhile: seq<seq<DeviceStatus>>): seq<Op> {
    BeginScript(s, meanwhile) + (PauseScript(Begun(s, meanwhile)) + [Relink(InSequence)])
  }

  lemma OpeningPlays(lib: Library, net: Network, s: Session, meanwhile: seq<seq<DeviceStatus>>)
    ensures var u := Opened(lib, s, meanwhile);
            && Play(lib, net, s, OpenedScript(s, meanwhile)) == u
            && Brought(OpenedScript(s, meanwhile)) + Flatten(u.ahead) == Flatten(meanwhile)
            && u.outbox == s.outbox && u.received == s.received && u.generated == s.generated && u.attempts == s.attempts + 1
            && u.ahead == Later(meanwhile, 1)
  {
    hide Play, Brought, Pause, PauseScript, Flatten, BeginScript, Later;
    var begun := Begun(s, meanwhile);
    BeginPlays(lib, net, s, meanwhile);
    PauseTakesGroup(lib, net, begun);
    PauseLeads(lib, net, begun);
    var paused := Pause(lib, begun);
    LeadsBy(lib, net, paused, Relink(InSequence));
    LeadsOn(lib, net, begun, PauseScript(begun), paused, [Relink(InSequence)], Opened(lib, s, meanwhile));
    PlayAppend(lib, net, s, BeginScript(s, meanwhile), PauseScript(begun) + [Relink(InSequence)]);
    assert [] + Brought(PauseScript(begun) + [Relink(InSequence)]) == Brought(PauseScript(begun) + [Relink(InSequence)]);
  }

  /** What has been done in the sequence when the k-th device is looked up. */
  function UntilDevice(lib: Library, net: Network, s: Session, meanwhile: seq<seq<DeviceStatus>>, devices: seq<DeviceId>, k: nat): seq<Op>
    requires k < |devices|
  {
    var u := Opened(lib, s, meanwhile);
    OpenedScript(s, meanwhile) + (FirstScript(net, u, devices) + UntilLookup(lib, net, FirstStep(lib, net, u, devices).session, devices, k))
  }

  lemma PrefixOn<T>(a: seq<T>, b: seq<T>, c: seq<T>)
    requires b <= c
    ensures a + b <= a + c
  {
  }

  lemma PrefixTrans<T>(a: seq<T>, b: seq<T>, c: seq<T>)
    requires a <= b
    ensures a <= b + c
  {
  }

  lemma SendingInScript(lib: Library, net: Network, s: Session, meanwhile: seq<seq<DeviceStatus>>, devices: seq<DeviceId>, until: seq<Op>)
    requires net.opens(s.attempts)
    requires var u := Opened(lib, s, meanwhile);
             && FirstStep(lib, net, u, devices).rc == Ok
             && until <= SendAllScript(lib, net, FirstStep(lib, net, u, devices).session, devices)
    ensures OpenedScript(s, meanwhile) + (FirstScript(net, Opened(lib, s, meanwhile), devices) + until)
         <= InitializeScript(lib, net, s, meanwhile, devices)
  {
    hide FirstStep, FirstScript, SendAllScript, StatusResponsesScript, ThirdScript, SecondStep, SendAll, AllSteps,
         BeginScript, PauseScript, FinishScript, Verdict, Pause;
    var u := Opened(lib, s, meanwhile);
    var first := FirstStep(lib, net, u, devices).session;
    var one, all := FirstScript(net, u, devices), SendAllScript(lib, net, first, devices);
    var second, steps := SecondScript(lib, net, first, devices), AllStepsScript(lib, net, u, devices);
    var finish := FinishScript(AllSteps(lib, net, u, devices).session);
    PrefixTrans(until, all, second[|all|..]);
    assert all + second[|all|..] == second;
    PrefixTrans(until, second, steps[|one| + |second|..]);
    assert one + (second + steps[|one| + |second|..]) == steps;
    PrefixOn(one, until, second + steps[|one| + |second|..]);
    PrefixTrans(one + until, steps, finish);
    var begin, pause := BeginScript(s, meanwhile), PauseScript(Begun(s, meanwhile));
    PrefixOn(begin + (pause + [Relink(InSequence)]), one + until, steps + finish);
    assert begin + (pause + [Relink(InSequence)]) + (steps + finish) == begin + (pause + ([Relink(InSequence)] + (steps + finish)));
    PrefixTrans(OpenedScript(s, meanwhile) + (one + until), begin + (pause + ([Relink(InSequence)] + (steps + finish))),
                Verdict(lib, net, s, meanwhile, devices));
  }

  /**
    The status tells of the device as it is looked up in the course of the sequence: when the statuses before it have
    been handed over, and the first groups of the schedule have been absorbed.
   */
  ghost predicate Introduced(lib: Library, net: Network, modules: set<int>, ops: seq<Op>, s: Session,
                             meanwhile: seq<seq<DeviceStatus>>, devices: seq<DeviceId>, message: ClientMessage, k: nat)
  {
    exists until: seq<Op> ::
      && until <= InitializeScript(lib, net, s, meanwhile, devices)
      && Brought(until) == Flatten(Earlier(meanwhile, 2 * k + 3))
      && |Run(lib, net, modules, ops + until).session.outbox| == |s.outbox| + 1 + k
      && k < |devices| && TellsLast(lib, net, modules, ops + until, message, net.sessions(s.generated), devices[k])
  }

  lemma CutRight(a: seq<DeviceStatus>, b: seq<DeviceStatus>, c: seq<DeviceStatus>)
    requires a + c == b + c
    ensures a == b
  {
    assert |a| == |b|;
    assert a == (a + c)[..|a|] && b == (b + c)[..|b|];
  }

  lemma DeviceIsIntroduced(lib: Library, net: Network, modules: set<int>, ops: seq<Op>, s: Session,
                           meanwhile: seq<seq<DeviceStatus>>, devices: seq<DeviceId>, message: ClientMessage, k: nat)
    requires s == Run(lib, net, modules, ops).session && k < |devices| && net.opens(s.attempts)
    requires var u := Opened(lib, s, meanwhile);
             var r := FirstStep(lib, net, u, devices);
             && r.rc == Ok
             && (forall device :: device in devices ==> IsRegistered(r.session, device))
             && TellsAt(lib, net, modules, ops + OpenedScript(s, meanwhile) + FirstScript(net, u, devices), r.session, devices, message, k)
    ensures Introduced(lib, net, modules, ops, s, meanwhile, devices, message, k)
  {
    hide Run, Play, FirstStep, FirstScript, SendAll, SendAllScript, InitializeScript, Pause, PauseScript, OpenedScript, Opened, TellsLast,
         Flatten, Brought, Earlier, Later, IsRegistered, UntilLookup;
    var u := Opened(lib, s, meanwhile);
    var first, head := FirstStep(lib, net, u, devices).session, OpenedScript(s, meanwhile) + FirstScript(net, u, devices);
    var until := UntilLookup(lib, net, first, devices, k);
    OpeningPlays(lib, net, s, meanwhile);
    FirstTells(lib, net, u, devices);
    FirstLeads(lib, net, u, devices);
    UntilLeads(lib, net, first, devices, k);
    LeadsOn(lib, net, u, FirstScript(net, u, devices), first, until, Play(lib, net, first, until));
    var rest := FirstScript(net, u, devices) + until;
    PlayAppend(lib, net, s, OpenedScript(s, meanwhile), rest);
    assert OpenedScript(s, meanwhile) + rest == UntilDevice(lib, net, s, meanwhile, devices, k);
    assert ops + OpenedScript(s, meanwhile) + FirstScript(net, u, devices) + until == ops + UntilDevice(lib, net, s, meanwhile, devices, k);
    SendingInScript(lib, net, s, meanwhile, devices, until);
    LaterSum(meanwhile, 1, 1);
    LaterSum(meanwhile, 2, 2 * k + 1);
    FlattenSplit(meanwhile, 2 * k + 3);
    var ahead := Play(lib, net, first, until).ahead;
    assert Brought(OpenedScript(s, meanwhile)) + Brought(rest) + Flatten(ahead)
        == Brought(OpenedScript(s, meanwhile)) + (Brought(rest) + Flatten(ahead));
    CutRight(Brought(UntilDevice(lib, net, s, meanwhile, devices, k)), Flatten(Earlier(meanwhile, 2 * k + 3)), Flatten(ahead));
  }

  lemma UntilLeads(lib: Library, net: Network, s: Session, devices: seq<DeviceId>, k: nat)
    requires k < |devices|
    ensures Leads(lib, net, s, UntilLookup(lib, net, s, devices, k), Play(lib, net, s, UntilLookup(lib, net, s, devices, k)))
  {
    hide Play, SendAll, SendAllScript, Pause, PauseScript, Leads;
    var script, t := SendAllScript(lib, net, s, devices[..k]), SendAll(lib, net, s, devices[..k]).session;
    SendAllLeads(lib, net, s, devices[..k]);
    PauseLeads(lib, net, t);
    LeadsOn(lib, net, s, script, t, PauseScript(t), Pause(lib, t));
    LeadsTo(lib, net, s, script + PauseScript(t), Pause(lib, t));
  }

  lemma LeadsTo(lib: Library, net: Network, s: Session, ops: seq<Op>, t: Session)
    requires Leads(lib, net, s, ops, t)
    ensures Play(lib, net, s, ops) == t
  {
  }

  lemma RegisteredAtFirst(lib: Library, net: Network, s: Session, meanwhile: seq<seq<DeviceStatus>>, devices: seq<DeviceId>,
                          device: DeviceId)
    requires IsRegistered(s, device)
    ensures IsRegistered(FirstStep(lib, net, Opened(lib, s, meanwhile), devices).session, device)
  {
    hide Play, FirstStep, FirstScript, IsRegistered, Opened, OpenedScript;
    var u := Opened(lib, s, meanwhile);
    OpeningPlays(lib, net, s, meanwhile);
    RegisteredPlay(lib, net, s, OpenedScript(s, meanwhile), device);
    FirstLeads(lib, net, u, devices);
    LeadsTo(lib, net, u, FirstScript(net, u, devices), FirstStep(lib, net, u, devices).session);
    RegisteredPlay(lib, net, u, FirstScript(net, u, devices), device);
  }

  lemma FirstIsRun(lib: Library, net: Network, modules: set<int>, ops: seq<Op>, s: Session, meanwhile: seq<seq<DeviceStatus>>,
                   devices: seq<DeviceId>)
    requires s == Run(lib, net, modules, ops).session
    ensures var u := Opened(lib, s, meanwhile);
            Run(lib, net, modules, ops + OpenedScript(s, meanwhile) + FirstScript(net, u, devices)).session
            == FirstStep(lib, net, u, devices).session
  {
    hide Run, Play, FirstStep, FirstScript, Opened, OpenedScript;
    var u := Opened(lib, s, meanwhile);
    OpeningPlays(lib, net, s, meanwhile);
    PlayedOn(lib, net, modules, ops, OpenedScript(s, meanwhile));
    FirstLeads(lib, net, u, devices);
    LeadsTo(lib, net, u, FirstScript(net, u, devices), FirstStep(lib, net, u, devices).session);
    PlayedOn(lib, net, modules, ops + OpenedScript(s, meanwhile), FirstScript(net, u, devices));
  }

  lemma InitializeEnds(lib: Library, net: Network, s: Session, meanwhile: seq<seq<DeviceStatus>>, devices: seq<DeviceId>)
    ensures var r, u := Initialize(lib, net, s, meanwhile, devices), Opened(lib, s, meanwhile);
            var t := if net.opens(s.attempts) then AllSteps(lib, net, u, devices).session else u;
            r.session.outbox == t.outbox && r.session.generated == t.generated && r.session.attempts == t.attempts
  {
    hide Pause, AllSteps, FillAll, Flatten, Wipe;
    var u := Opened(lib, s, meanwhile);
    var paused := Pause(lib, Begun(s, meanwhile));
    var all := AllSteps(lib, net, u, devices).session;
    FillAllKeeps(lib, paused.(ahead := []), Flatten(paused.ahead));
    FillAllKeeps(lib, all.(ahead := []), Flatten(all.ahead));
  }

  /** The connect is answered as it should be. */
  predicate IsGreeted(net: Network, s: Session) {
    net.sends(|s.outbox|) && net.inbox(s.received) == Some(ConnectResponse(net.sessions(s.generated), false))
  }

  lemma StartsAlike(s: Session, t: Session)
    requires SameStart(s, t)
    ensures t.generated == s.generated && t.attempts == s.attempts
  {
  }

  lemma OnlyResponsesMeans(before: seq<ClientMessage>, after: seq<ClientMessage>)
    requires OnlyResponses(before, after)
    ensures forall i :: |before| <= i < |after| ==> after[i].CommandResponse?
  {
  }

  lemma ToldMeans(lib: Library, net: Network, modules: set<int>, ops: seq<Op>, s: Session, devices: seq<DeviceId>,
                  outbox: seq<ClientMessage>, n: nat, k: nat)
    requires ToldOfFirst(lib, net, modules, ops, s, devices, outbox, n) && k < n
    ensures k < |devices| && |s.outbox| + k < |outbox|
    ensures TellsAt(lib, net, modules, ops, s, devices, outbox[|s.outbox| + k], k)
  {
    hide TellsAt;
    assert ToldOf(lib, net, modules, ops, s, devices, outbox, k);
  }

  /** What an accepted connect is followed by. */
  lemma GreetedTells(lib: Library, net: Network, modules: set<int>, ops: seq<Op>, s: Session, meanwhile: seq<seq<DeviceStatus>>,
                     devices: seq<DeviceId>)
    requires s == Run(lib, net, modules, ops).session && net.opens(s.attempts)
    requires FirstStep(lib, net, Opened(lib, s, meanwhile), devices).rc == Ok
    requires forall device :: device in devices ==> IsRegistered(s, device)
    ensures var u := Opened(lib, s, meanwhile);
            var first, outbox := FirstStep(lib, net, u, devices).session.outbox, AllSteps(lib, net, u, devices).session.outbox;
            && first <= outbox && |first| == |s.outbox| + 1 && |outbox| >= |s.outbox| + 1 + |devices|
            && (forall i :: |s.outbox| < i <= |s.outbox| + |devices| ==>
                  Introduced(lib, net, modules, ops, s, meanwhile, devices, outbox[i], i - |s.outbox| - 1))
            && (forall i :: |s.outbox| + |devices| < i < |outbox| ==> outbox[i].CommandResponse?)
    ensures var u := Opened(lib, s, meanwhile);
            var first, t := FirstStep(lib, net, u, devices).session, AllSteps(lib, net, u, devices).session;
            t.generated == first.generated && t.attempts == first.attempts
  {
    hide *;
    var u := Opened(lib, s, meanwhile);
    var first, start := FirstStep(lib, net, u, devices).session, ops + OpenedScript(s, meanwhile) + FirstScript(net, u, devices);
    OpeningPlays(lib, net, s, meanwhile);
    FirstTells(lib, net, u, devices);
    FirstIsRun(lib, net, modules, ops, s, meanwhile, devices);
    forall device | device in devices ensures IsRegistered(first, device) && device.identity.moduleNumber in modules {
      RegisteredAtFirst(lib, net, s, meanwhile, devices, device);
      RegisteredHasModule(lib, net, modules, ops, device);
    }
    StepsTell(lib, net, modules, start, u, devices);
    StartsAlike(first, AllSteps(lib, net, u, devices).session);
    var outbox := AllSteps(lib, net, u, devices).session.outbox;
    OnlyResponsesMeans(outbox[..|first.outbox| + |devices|], outbox);
    forall i | |s.outbox| < i <= |s.outbox| + |devices|
      ensures Introduced(lib, net, modules, ops, s, meanwhile, devices, outbox[i], i - |s.outbox| - 1)
    {
      var k := i - |s.outbox| - 1;
      ToldMeans(lib, net, modules, start, first, devices, outbox, |devices|, k);
      DeviceIsIntroduced(lib, net, modules, ops, s, meanwhile, devices, outbox[i], k);
    }
  }

  /**
    What the server is told: the list of the devices in a new session, and once that is answered the last status of
    each of them in turn; then only answers to commands.
   */
  ghost predicate SequenceTells(lib: Library, net: Network, modules: set<int>, ops: seq<Op>, s: Session,
                                meanwhile: seq<seq<DeviceStatus>>, devices: seq<DeviceId>, outbox: seq<ClientMessage>)
  {
    var base, n := |s.outbox|, |devices|;
    if !net.opens(s.attempts) then outbox == s.outbox
    else
      && |outbox| > base && outbox[..base] == s.outbox
      && outbox[base] == Connect(net.sessions(s.generated), devices)
      && if !IsGreeted(net, s) then |outbox| == base + 1
         else
           && |outbox| >= base + 1 + n
           && (forall i :: base < i <= base + n ==>
                 Introduced(lib, net, modules, ops, s, meanwhile, devices, outbox[i], i - base - 1))
           && (forall i :: base + n < i < |outbox| ==> outbox[i].CommandResponse?)
  }

  /**
    An attempt to start a connection, after any run, makes one new session when the channel opens. The status of each
    device is sent with its state, its error and the session, as the ledger has them when the device is looked up.
   */
  lemma ConnectSequenceTells(lib: Library, net: Network, modules: set<int>, ops: seq<Op>, meanwhile: seq<seq<DeviceStatus>>,
                             devices: seq<DeviceId>)
    requires forall device :: device in devices ==> IsRegistered(Run(lib, net, modules, ops).session, device)
    ensures var s := Run(lib, net, modules, ops).session;
            var t := Initialize(lib, net, s, meanwhile, devices).session;
            && t.attempts == s.attempts + 1
            && t.generated == s.generated + (if net.opens(s.attempts) then 1 else 0)
            && SequenceTells(lib, net, modules, ops, s, meanwhile, devices, t.outbox)
  {
    hide *;
    var s := Run(lib, net, modules, ops).session;
    var u := Opened(lib, s, meanwhile);
    OpeningPlays(lib, net, s, meanwhile);
    InitializeEnds(lib, net, s, meanwhile, devices);
    FirstTells(lib, net, u, devices);
    StepsAfterFirst(lib, net, u, devices);
    GreetedIs(net, s, u);
    if net.opens(s.attempts) && IsGreeted(net, s) {
      GreetedTells(lib, net, modules, ops, s, meanwhile, devices);
    }
    Told(lib, net, modules, ops, s, meanwhile, devices, AllSteps(lib, net, u, devices).session.outbox);
  }

  lemma GreetedIs(net: Network, s: Session, u: Session)
    requires u.outbox == s.outbox && u.received == s.received && u.generated == s.generated
    ensures IsGreeted(net, s)
       <==> net.sends(|u.outbox|) && net.inbox(u.received) == Some(ConnectResponse(net.sessions(u.generated), false))
  {
  }

  lemma Told(lib: Library, net: Network, modules: set<int>, ops: seq<Op>, s: Session, meanwhile: seq<seq<DeviceStatus>>,
             devices: seq<DeviceId>, outbox: seq<ClientMessage>)
    requires net.opens(s.attempts) && !IsGreeted(net, s) ==> outbox == s.outbox + [Connect(net.sessions(s.generated), devices)]
    requires net.opens(s.attempts) && IsGreeted(net, s) ==>
               && s.outbox + [Connect(net.sessions(s.generated), devices)] <= outbox && |outbox| >= |s.outbox| + 1 + |devices|
               && (forall i :: |s.outbox| < i <= |s.outbox| + |devices| ==>
                     Introduced(lib, net, modules, ops, s, meanwhile, devices, outbox[i], i - |s.outbox| - 1))
               && (forall i :: |s.outbox| + |devices| < i < |outbox| ==> outbox[i].CommandResponse?)
    ensures SequenceTells(lib, net, modules, ops, s, meanwhile, devices, if net.opens(s.attempts) then outbox else s.outbox)
  {
    hide Introduced, IsGreeted;
  }

  lemma StepsAfterFirst(lib: Library, net: Network, s: Session, devices: seq<DeviceId>)
    ensures var r := FirstStep(lib, net, s, devices); r.rc != Ok ==> AllSteps(lib, net, s, devices) == r
  {
    hide FirstStep, SecondStep;
  }

  lemma RegisteredHasModule(lib: Library, net: Network, modules: set<int>, ops: seq<Op>, device: DeviceId)
    requires IsRegistered(Run(lib, net, modules, ops).session, device)
    ensures device.identity.moduleNumber in modules
  {
    hide Run, Conserved, Numbered, Obeyed, Handed, Explained;
    RunKeeps(lib, net, modules, ops);
  }

  // Attempts.

  lemma SendLastStarts(lib: Library, net: Network, s: Session, device: DeviceId)
    ensures SameStart(s, SendLast(lib, net, s, device).session)
  {
    hide Pause, FeedAll, Feed, ConnectedAfter, ReportedAs, IsRegistered;
    PauseKeeps(lib, s);
    PauseKeeps(lib, Pause(lib, s));
  }

  lemma {:induction false} SendAllStarts(lib: Library, net: Network, s: Session, devices: seq<DeviceId>)
    ensures SameStart(s, SendAll(lib, net, s, devices).session)
    decreases |devices|
  {
    hide SendLast;
    if devices != [] {
      var n := |devices| - 1;
      SendAllStarts(lib, net, s, devices[..n]);
      SendLastStarts(lib, net, SendAll(lib, net, s, devices[..n]).session, devices[n]);
    }
  }

  /** Every attempt asks the channel to open, once. */
  lemma InitializeAttempts(lib: Library, net: Network, s: Session, meanwhile: seq<seq<DeviceStatus>>, devices: seq<DeviceId>)
    ensures Initialize(lib, net, s, meanwhile, devices).session.attempts == s.attempts + 1
  {
    hide Initialize, FirstStep, SendAll, AwaitStatusResponses, ThirdStep, Opened, OpenedScript;
    var u := Opened(lib, s, meanwhile);
    OpeningPlays(lib, net, s, meanwhile);
    InitializeEnds(lib, net, s, meanwhile, devices);
    FirstTells(lib, net, u, devices);
    var first := FirstStep(lib, net, u, devices).session;
    SendAllStarts(lib, net, first, devices);
    var sent := SendAll(lib, net, first, devices).session;
    AwaitingTellsNothing(lib, net, sent, |devices|);
    CommandsTellResponses(lib, net, AwaitStatusResponses(lib, net, sent, |devices|).session, |devices|);
  }
}
