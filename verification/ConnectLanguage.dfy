/** Which traces of received messages make the connect sequence succeed. */
module ConnectLanguage {
  import opened Common
  import opened SentMessages
  import opened SessionSpec
  import opened SessionRuns
  import opened SessionScripts
  import Err = ErrorAggregator

  predicate IsGoodResponse(message: Option<ServerMessage>, id: string) {
    message.Some? && message.value.StatusResponse? && message.value.ok && message.value.session == id
  }

  /** The status responses of a session: all positive, the counters do not matter. */
  ghost predicate StatusTrace(net: Network, first: nat, n: nat, id: string) {
    forall k :: first <= k < first + n ==> IsGoodResponse(net.inbox(k), id)
  }

  /** The counter accepted before the command that is received as message `k`. */
  function CounterBefore(net: Network, first: nat, k: nat, last: uint32): uint32 {
    if k <= first then last
    else match net.inbox(k - 1)
      case Some(Command(_, counter, _)) => counter
      case _ => 0
  }

  /** A command of the session, for a module of the endpoint, in order after the one before. */
  predicate IsGoodCommand(net: Network, first: nat, k: nat, id: string, last: uint32, modules: set<int>) {
    match net.inbox(k)
    case Some(Command(session, counter, command)) =>
      var before := CounterBefore(net, first, k, last);
      && session == id
      && (before != 0 ==> counter == Next(before))
      && command.device.identity.moduleNumber in modules
    case _ => false
  }

  ghost predicate CommandTrace(net: Network, first: nat, n: nat, id: string, last: uint32, modules: set<int>) {
    forall k: nat :: first <= k < first + n ==> IsGoodCommand(net, first, k, id, last, modules)
  }

  // What sending leaves alone.

  /** Sending changes the counter of the commands only when it fails. */
  lemma SendKeeps(lib: Library, net: Network, s: Session, status: DeviceStatus, kind: Kind, error: Buffer)
    requires Supports(s, status.device)
    ensures var t := SendStatus(lib, net, s, status, kind, error);
            && t.id == s.id && t.received == s.received && t.errors.Keys == s.errors.Keys
            && |t.outbox| == |s.outbox| + 1
            && t.commandCounter == if net.sends(|s.outbox|) then s.commandCounter else 0
  {
    hide FeedAll, ReportedAs, ConnectedAfter, IsRegistered;
    var sent := NewStatus(s, status, kind, error);
    FeedAllKeys(lib, s.errors, s.pending + [sent]);
    FeedAllKeys(lib, Feed(lib, s.errors, status), s.pending + [sent]);
  }

  // The steps.

  ghost predicate AllSent(net: Network, first: nat, n: nat) {
    forall k :: first <= k < first + n ==> net.sends(k)
  }

  /** The command counter after so many statuses were sent: kept, unless one of them did not get through. */
  ghost function CounterAfterSending(net: Network, s: Session, n: nat): uint32 {
    if AllSent(net, |s.outbox|, n) then s.commandCounter else 0
  }

  lemma NoneSent(net: Network, first: nat)
    ensures AllSent(net, first, 0)
  {
  }

  lemma AllSentNext(net: Network, first: nat, n: nat)
    ensures AllSent(net, first, n + 1) <==> AllSent(net, first, n) && net.sends(first + n)
  {
  }

  /** A registered device has its last status sent, whatever is absorbed before. */
  lemma SendsLast(lib: Library, net: Network, s: Session, device: DeviceId)
    requires IsRegistered(s, device)
    ensures var r := SendLast(lib, net, s, device);
            && r.rc == Ok
            && r.session.id == s.id && r.session.received == s.received && r.session.errors.Keys == s.errors.Keys
            && |r.session.outbox| == |s.outbox| + 1
            && r.session.commandCounter == if net.sends(|s.outbox|) then s.commandCounter else 0
  {
    hide Pause, Play, SendStatus;
    var looked := Pause(lib, s);
    PauseKeeps(lib, s);
    PauseLeads(lib, net, s);
    RegisteredPlay(lib, net, s, PauseScript(s), device);
    PauseKeeps(lib, looked);
    var state := looked.errors[device.identity.moduleNumber][device.identity];
    SendKeeps(lib, net, Pause(lib, looked), DeviceStatus(device, state.lastStatus), Connecting, state.errorMessage);
  }

  /** Every device is registered, so the statuses of all of them are sent. */
  lemma {:induction false} SendsAll(lib: Library, net: Network, s: Session, devices: seq<DeviceId>)
    requires forall device :: device in devices ==> IsRegistered(s, device)
    ensures var r := SendAll(lib, net, s, devices);
            && r.rc == Ok
            && r.session.id == s.id && r.session.received == s.received && r.session.errors.Keys == s.errors.Keys
            && |r.session.outbox| == |s.outbox| + |devices|
            && r.session.commandCounter == CounterAfterSending(net, s, |devices|)
    decreases |devices|
  {
    hide SendLast, SendAllScript, Play, IsRegistered, AllSent;
    if devices == [] {
      NoneSent(net, |s.outbox|);
    } else {
      var n := |devices| - 1;
      AllSentNext(net, |s.outbox|, n);
      assert devices[n] in devices && forall device :: device in devices[..n] ==> device in devices;
      SendsAll(lib, net, s, devices[..n]);
      var before := SendAll(lib, net, s, devices[..n]).session;
      SendAllLeads(lib, net, s, devices[..n]);
      RegisteredPlay(lib, net, s, SendAllScript(lib, net, s, devices[..n]), devices[n]);
      SendsLast(lib, net, before, devices[n]);
    }
  }

  lemma {:induction false} StatusLanguage(lib: Library, net: Network, s: Session, n: nat)
    ensures var r := AwaitStatusResponses(lib, net, s, n);
            && SameLine(s, r.session)
            && (r.rc == Ok <==> StatusTrace(net, s.received, n, s.id))
            && (r.rc == Ok ==> r.session.received == s.received + n)
  {
    hide Await;
    if n > 0 {
      StatusLanguage(lib, net, s, n - 1);
      var before := AwaitStatusResponses(lib, net, s, n - 1).session;
      AwaitKeeps(lib, before);
    }
  }

  lemma CommandTraceNext(net: Network, first: nat, n: nat, id: string, last: uint32, modules: set<int>)
    ensures CommandTrace(net, first, 0, id, last, modules)
    ensures CommandTrace(net, first, n + 1, id, last, modules)
       <==> CommandTrace(net, first, n, id, last, modules) && IsGoodCommand(net, first, first + n, id, last, modules)
  {
    hide IsGoodCommand;
  }

  lemma OneCommand(lib: Library, net: Network, s: Session, first: nat, last: uint32)
    requires first <= s.received && s.commandCounter == CounterBefore(net, first, s.received, last)
    ensures var r := AwaitCommand(lib, net, s);
            && r.session.id == s.id && r.session.errors.Keys == s.errors.Keys
            && (r.rc == Ok <==> IsGoodCommand(net, first, s.received, s.id, last, s.errors.Keys))
            && (r.rc == Ok ==>
                  && r.session.received == s.received + 1
                  && r.session.commandCounter == CounterBefore(net, first, s.received + 1, last))
  {
    hide Await, ResponseFor;
    AwaitKeeps(lib, s);
  }

  lemma {:induction false} CommandLanguage(lib: Library, net: Network, s: Session, n: nat)
    ensures var r := ThirdStep(lib, net, s, n);
            && r.session.id == s.id && r.session.errors.Keys == s.errors.Keys
            && (r.rc == Ok <==> CommandTrace(net, s.received, n, s.id, s.commandCounter, s.errors.Keys))
            && (r.rc == Ok ==>
                  && r.session.received == s.received + n
                  && r.session.commandCounter == CounterBefore(net, s.received, s.received + n, s.commandCounter))
  {
    hide AwaitCommand, CommandTrace, IsGoodCommand;
    if n == 0 {
      CommandTraceNext(net, s.received, 0, s.id, s.commandCounter, s.errors.Keys);
    } else {
      CommandTraceNext(net, s.received, n - 1, s.id, s.commandCounter, s.errors.Keys);
      CommandLanguage(lib, net, s, n - 1);
      var before := ThirdStep(lib, net, s, n - 1);
      if before.rc == Ok {
        OneCommand(lib, net, before.session, s.received, s.commandCounter);
      }
    }
  }

  /** The language after the channel has opened. */
  ghost predicate InStepsLanguage(net: Network, s: Session, n: nat) {
    var id := net.sessions(s.generated);
    && net.sends(|s.outbox|)
    && net.inbox(s.received) == Some(ConnectResponse(id, false))
    && StatusTrace(net, s.received + 1, n, id)
    && CommandTrace(net, s.received + 1 + n, n, id, if AllSent(net, |s.outbox| + 1, n) then s.commandCounter else 0, s.errors.Keys)
  }

  /** The traces that make a connect sequence for `n` devices succeed. */
  ghost predicate InLanguage(net: Network, s: Session, n: nat) {
    net.opens(s.attempts) && InStepsLanguage(net, s, n)
  }

  /** With every device registered, the connect sequence succeeds exactly on the traces of the language. */
  lemma ConnectSequenceLanguage(lib: Library, net: Network, s: Session, meanwhile: seq<seq<DeviceStatus>>, devices: seq<DeviceId>)
    requires s.link == NotInitialized || s.link == NotConnected
    requires forall device :: device in devices ==> IsRegistered(s, device)
    ensures var r := Initialize(lib, net, s, meanwhile, devices);
            && (r.rc == Ok <==> InLanguage(net, s, |devices|))
            && r.session.link == (if r.rc == Ok then Connected else NotConnected)
  {
    hide AllSteps, Pause, Finish, InLanguage, IsRegistered, Wipe;
    var begun := Begun(s, meanwhile);
    var paused := Pause(lib, begun);
    PauseKeeps(lib, begun);
    FinishKeeps(lib, paused);
    PauseLeads(lib, net, begun);
    var u := paused.(link := InSequence);
    forall device | device in devices ensures IsRegistered(u, device) {
      SameErrors(s, begun, device);
      RegisteredPlay(lib, net, begun, PauseScript(begun), device);
      SameErrors(paused, u, device);
    }
    if net.opens(s.attempts) {
      AllStepsLanguage(lib, net, u, devices);
    }
    Spoken(net, s, u, |devices|);
  }

  lemma AllStepsLanguage(lib: Library, net: Network, s: Session, devices: seq<DeviceId>)
    requires forall device :: device in devices ==> IsRegistered(s, device)
    ensures AllSteps(lib, net, s, devices).rc == Ok <==> InStepsLanguage(net, s, |devices|)
  {
    hide Await, SendAll, AwaitStatusResponses, ThirdStep, StatusTrace, CommandTrace, IsRegistered, Play;
    var greeted := Greet(net, s, devices);
    var first := Await(lib, greeted);
    AwaitKeeps(lib, greeted);
    FirstLeads(lib, net, s, devices);
    forall device | device in devices && net.sends(|s.outbox|) ensures IsRegistered(first, device) {
      RegisteredPlay(lib, net, s, FirstScript(net, s, devices), device);
    }
    if net.sends(|s.outbox|) {
      SendsAll(lib, net, first, devices);
      var sent := SendAll(lib, net, first, devices).session;
      StatusLanguage(lib, net, sent, |devices|);
      var second := AwaitStatusResponses(lib, net, sent, |devices|).session;
      CommandLanguage(lib, net, second, |devices|);
    }
  }

  lemma Spoken(net: Network, s: Session, u: Session, n: nat)
    requires u.generated == s.generated && u.received == s.received && u.outbox == s.outbox
    requires u.commandCounter == s.commandCounter && u.errors.Keys == s.errors.Keys
    ensures InLanguage(net, s, n) <==> net.opens(s.attempts) && InStepsLanguage(net, u, n)
  {
    hide StatusTrace, CommandTrace;
  }

  lemma SameErrors(s: Session, t: Session, device: DeviceId)
    requires t.errors == s.errors && IsRegistered(s, device)
    ensures IsRegistered(t, device)
  {
  }
}
