/** The connection to one external server endpoint. */
module ExternalConnection {
  import opened Common
  import opened SentMessages
  import opened SessionSpec
  import Err = ErrorAggregator
  import Introductions
  import Receptions

  lemma WipedAll(before: map<int, Err.Errors>, after: map<int, Err.Errors>)
    requires after.Keys == before.Keys
    requires forall i :: i in after ==> after[i] == Err.ClearAll(before[i])
    ensures after == Wipe(before)
  {
    hide Err.ClearAll;
    var wiped := Wipe(before);
    assert forall i :: i in wiped <==> i in after;
    assert forall i :: i in wiped ==> wiped[i] == after[i];
  }

  class ExternalConnection {
    const lib: Library
    const net: Network
    const errorAggregators: map<int, Err.Aggregator>
    const sentMessages: SentMessagesHandler
    var state: Link
    var clientMessageCounter: uint32
    var serverMessageCounter: uint32
    var sessionId: string
    var outbox: seq<ClientMessage>
    var commandQueue: seq<DeviceCommand>
    var attempts: nat
    var received: nat
    var generated: nat
    /** What the client's thread will absorb at each coming pause of a connect sequence. */
    var ahead: seq<seq<DeviceStatus>>
    /** What the error aggregators hold. */
    ghost var errors: map<int, Err.Errors>

    ghost predicate Valid()
      reads `errors, errorAggregators.Values
    {
      && (forall i, j :: i in errorAggregators && j in errorAggregators && i != j ==> errorAggregators[i] != errorAggregators[j])
      && errors.Keys == errorAggregators.Keys
      && (forall i :: i in errorAggregators ==>
            errorAggregators[i].m == lib(i) && errorAggregators[i].devices == errors[i])
    }

    ghost function View(): Session
      reads this, sentMessages
    {
      Session(state, clientMessageCounter, serverMessageCounter, sessionId, errors, sentMessages.notAckedStatuses,
              sentMessages.connectedDevices, outbox, commandQueue, attempts, received, generated, ahead)
    }

    ghost const Repr: set<object> := {this, sentMessages} + errorAggregators.Values

    constructor (lib: Library, net: Network, modules: set<int>, errorAggregators: map<int, Err.Aggregator>)
      requires errorAggregators.Keys == modules
      requires forall i, j :: i in modules && j in modules && i != j ==> errorAggregators[i] != errorAggregators[j]
      requires forall i :: i in modules ==> errorAggregators[i].m == lib(i) && errorAggregators[i].devices == map[]
      ensures this.lib == lib && this.net == net && this.errorAggregators == errorAggregators
      ensures Valid() && fresh(sentMessages)
      ensures View() == Session(NotInitialized, 0, 0, "", map i | i in modules :: map[], [], [], [], [], 0, 0, 0, [])
    {
      this.lib, this.net, this.errorAggregators := lib, net, errorAggregators;
      sentMessages := new SentMessagesHandler();
      state, clientMessageCounter, serverMessageCounter, sessionId := NotInitialized, 0, 0, "";
      outbox, commandQueue, attempts, received, generated, ahead := [], [], 0, 0, 0, [];
      errors := map i | i in modules :: map[];
    }

    lemma Lookup(number: int)
      requires Valid()
      ensures number in errors <==> number in errorAggregators
      ensures number in errors ==> errorAggregators[number].m == lib(number) && errorAggregators[number].devices == errors[number]
    {
    }

    /** One error aggregator has changed, and the ghost field has been brought up to date. */
    twostate lemma Changed(number: int)
      requires old(Valid()) && number in errorAggregators
      requires errors == old(errors)[number := errorAggregators[number].devices]
      requires forall a :: a in errorAggregators.Values && a != errorAggregators[number] ==> unchanged(a)
      ensures Valid()
    {
      forall i | i in errorAggregators && i != number ensures errorAggregators[i].devices == errors[i] {
        assert errorAggregators[i] in errorAggregators.Values;
      }
    }

    /** Puts a status into the error aggregator of its module, when there is one. */
    method AddToErrorAggregator(status: DeviceStatus)
      requires Valid()
      modifies `errors, errorAggregators.Values
      ensures Valid() && errors == Feed(lib, old(errors), status)
    {
      hide Valid, Err.AddError;
      var number := status.device.identity.moduleNumber;
      Lookup(number);
      if number in errorAggregators {
        var a := errorAggregators[number];
        assert a in errorAggregators.Values;
        var _ := a.AddStatus(status.data, status.device);
        errors := errors[number := a.devices];
        Changed(number);
      }
    }

    method FillErrorAggregatorWithNotAckedStatuses()
      requires Valid()
      modifies `errors, sentMessages, errorAggregators.Values
      ensures Valid() && View() == Flush(lib, old(View()))
    {
      hide Valid, Feed;
      ghost var pending := sentMessages.notAckedStatuses;
      for i := 0 to |sentMessages.notAckedStatuses|
        invariant Valid() && unchanged(sentMessages)
        invariant errors == FeedAll(lib, old(errors), pending[..i])
      {
        AddToErrorAggregator(sentMessages.notAckedStatuses[i].status);
        assert pending[..i + 1][..i] == pending[..i];
      }
      assert pending[..|pending|] == pending;
      sentMessages.ClearAll();
    }

    method FillErrorAggregator(status: DeviceStatus)
      requires Valid()
      modifies `errors, sentMessages, errorAggregators.Values
      ensures Valid() && View() == Fill(lib, old(View()), status)
    {
      hide Valid, Feed, FeedAll;
      Lookup(status.device.identity.moduleNumber);
      if status.device.identity.moduleNumber !in errorAggregators {
        return;
      }
      FillErrorAggregatorWithNotAckedStatuses();
      AddToErrorAggregator(status);
    }

    /** The channel is closed; what was not acknowledged goes to the error aggregators. */
    method DeinitializeConnection()
      requires Valid()
      modifies `state, `clientMessageCounter, `serverMessageCounter, `errors, sentMessages, errorAggregators.Values
      ensures Valid() && View() == Reset(lib, old(View()))
    {
      hide Valid, FeedAll;
      state := NotInitialized;
      clientMessageCounter := 0;
      serverMessageCounter := 0;
      FillErrorAggregatorWithNotAckedStatuses();
    }

    method SendMessage(message: ClientMessage) returns (sent: bool)
      modifies `outbox
      ensures sent == net.sends(|old(outbox)|)
      ensures outbox == old(outbox) + [message]
    {
      sent := net.sends(|outbox|);
      outbox := outbox + [message];
    }

    method GetNextStatusCounter() returns (counter: uint32)
      modifies `clientMessageCounter
      ensures counter == clientMessageCounter == Next(old(clientMessageCounter))
    {
      clientMessageCounter := if clientMessageCounter == TWO_32 - 1 then 0 else clientMessageCounter + 1;
      return clientMessageCounter;
    }

    /** Keeps the list of connected devices; the first running status of a device connects it. */
    method Announce(device: DeviceId, kind: Kind) returns (reported: Kind)
      modifies sentMessages
      ensures reported == if kind == Running && !Listed(old(sentMessages.connectedDevices), device) then Connecting else kind
      ensures sentMessages.connectedDevices == ConnectedAfter(old(sentMessages.connectedDevices), device, reported)
      ensures unchanged(sentMessages`notAckedStatuses)
    {
      reported := kind;
      match kind {
        case Connecting =>
          sentMessages.AddDeviceAsConnected(device);
        case Running =>
          var connected := sentMessages.IsDeviceConnected(device);
          if !connected {
            reported := Connecting;
            sentMessages.AddDeviceAsConnected(device);
          }
        case Disconnecting =>
          sentMessages.DeleteConnectedDevice(device);
        case Erroneous =>
      }
    }

    /** A device heard of for the first time is registered by its status. */
    method Register(status: DeviceStatus) returns (known: bool)
      requires Valid() && status.device.identity.moduleNumber in errorAggregators
      modifies `errors, errorAggregators.Values
      ensures Valid()
      ensures known == IsRegistered(old(View()), status.device)
      ensures errors == if known then old(errors) else Feed(lib, old(errors), status)
    {
      hide Valid, Feed;
      Lookup(status.device.identity.moduleNumber);
      var rc, _ := errorAggregators[status.device.identity.moduleNumber].GetLastStatus(status.device);
      if rc == Err.DeviceNotRegistered {
        AddToErrorAggregator(status);
        return false;
      }
      return true;
    }

    method Transmit(status: DeviceStatus, reported: Kind, error: Buffer)
      requires Valid()
      modifies `state, `clientMessageCounter, `serverMessageCounter, `outbox, `errors, sentMessages, errorAggregators.Values
      ensures Valid()
      ensures var sent := Sent(old(sessionId), reported, Next(old(clientMessageCounter)), status, error);
              View() == SessionSpec.Transmit(lib, net, old(View()), sent)
    {
      hide Valid, FeedAll;
      var counter := GetNextStatusCounter();
      var message := Sent(sessionId, reported, counter, status, error);
      sentMessages.AddNotAckedStatus(message);
      var sent := SendMessage(Status(message));
      if !sent {
        DeinitializeConnection();
      }
    }

    method SendStatus(status: DeviceStatus, kind: Kind, error: Buffer)
      requires Valid()
      modifies `state, `clientMessageCounter, `serverMessageCounter, `outbox, `errors, sentMessages, errorAggregators.Values
      ensures Valid() && View() == SessionSpec.SendStatus(lib, net, old(View()), status, kind, error)
    {
      hide Valid, Feed, SessionSpec.Transmit, Listed, IsRegistered, ConnectedAfter;
      Lookup(status.device.identity.moduleNumber);
      if status.device.identity.moduleNumber !in errorAggregators {
        return;
      }
      var known := Register(status);
      var reported := Announce(status.device, if known then kind else Connecting);
      Transmit(status, reported, error);
    }

    /** A command for a connected device is passed on; the others are told apart for the response. */
    method PassOn(command: DeviceCommand) returns (responseType: ResponseType)
      requires Valid() && command.device.identity.moduleNumber in errorAggregators
      modifies `commandQueue
      ensures responseType == ResponseFor(lib, old(View()), command.device)
      ensures commandQueue == if responseType == ResponseOk then old(commandQueue) + [command] else old(commandQueue)
    {
      hide Valid, Listed;
      Lookup(command.device.identity.moduleNumber);
      var connected := sentMessages.IsDeviceConnected(command.device);
      if connected {
        commandQueue := commandQueue + [command];
        return ResponseOk;
      } else if !errorAggregators[command.device.identity.moduleNumber].m.supports(command.device.identity.deviceType) {
        return ResponseNotSupported;
      } else {
        return ResponseNotConnected;
      }
    }

    method HandleCommand(session: string, counter: uint32, command: DeviceCommand) returns (rc: Rc)
      requires Valid()
      modifies `serverMessageCounter, `commandQueue, `outbox
      ensures Valid()
      ensures View() == SessionSpec.HandleCommand(lib, old(View()), session, counter, command)
      ensures rc == HandleCommandOutcome(old(View()), session, counter, command)
    {
      hide Valid, ResponseFor;
      if session != sessionId {
        return CommandInvalid;
      }
      if serverMessageCounter != 0 {
        if Next(serverMessageCounter) != counter {
          return CommandInvalid;
        }
      }
      ghost var s := View();
      serverMessageCounter := counter;
      Lookup(command.device.identity.moduleNumber);
      if command.device.identity.moduleNumber !in errorAggregators {
        return NotOk;
      }
      SameResponse(s, View(), command.device);
      var responseType := PassOn(command);
      var _ := SendMessage(CommandResponse(sessionId, responseType, counter));
      return Ok;
    }

    lemma SameResponse(s: Session, t: Session, device: DeviceId)
      requires t.connected == s.connected
      ensures ResponseFor(lib, t, device) == ResponseFor(lib, s, device)
    {
    }

    method Absorb(statuses: seq<DeviceStatus>)
      requires Valid()
      modifies `errors, sentMessages, errorAggregators.Values
      ensures Valid() && View() == FillAll(lib, old(View()), statuses)
    {
      hide Valid, Fill;
      ghost var s := View();
      for i := 0 to |statuses|
        invariant Valid() && View() == FillAll(lib, s, statuses[..i])
      {
        FillErrorAggregator(statuses[i]);
        assert statuses[..i + 1][..i] == statuses[..i];
      }
      assert statuses[..|statuses|] == statuses;
    }

    /** The client's thread gets its turn: it fills the error aggregators under their lock. */
    method Pause()
      requires Valid()
      modifies `ahead, `errors, sentMessages, errorAggregators.Values
      ensures Valid() && View() == SessionSpec.Pause(lib, old(View()))
    {
      hide Valid, FillAll;
      if ahead != [] {
        var statuses := ahead[0];
        ahead := ahead[1..];
        Absorb(statuses);
      }
    }

    /** The client's thread finishes with the attempt. */
    method FinishPauses()
      requires Valid()
      modifies `ahead, `errors, sentMessages, errorAggregators.Values
      ensures Valid() && View() == Finish(lib, old(View()))
    {
      hide Valid, FillAll, Flatten;
      var statuses := Flatten(ahead);
      ahead := [];
      Absorb(statuses);
    }

    /** A message of the connect sequence. */
    method ReceiveMessage() returns (message: Option<ServerMessage>)
      requires Valid()
      modifies `received, `ahead, `errors, sentMessages, errorAggregators.Values
      ensures Valid() && View() == Await(lib, old(View()))
      ensures message == net.inbox(old(received))
    {
      hide Valid, SessionSpec.Pause;
      message := net.inbox(received);
      received := received + 1;
      Pause();
    }

    method ConnectMessageHandle(devices: seq<DeviceId>) returns (rc: Rc)
      requires Valid()
      modifies `sessionId, `generated, `outbox, `received, `ahead, `errors, sentMessages, errorAggregators.Values
      ensures Valid() && Outcome(View(), rc) == FirstStep(lib, net, old(View()), devices)
    {
      hide Valid, Await;
      sessionId := net.sessions(generated);
      generated := generated + 1;
      var sent := SendMessage(Connect(sessionId, devices));
      if !sent {
        return NotOk;
      }
      ghost var s := View();
      var message := ReceiveMessage();
      assert View() == Await(lib, s);
      AwaitKeeps(lib, s);
      if message == None {
        return NoMessageAvailable;
      }
      if !message.value.ConnectResponse? {
        return NotOk;
      }
      if message.value.session != sessionId {
        return NotOk;
      }
      if message.value.alreadyLogged {
        return NotOk;
      }
      return Ok;
    }

    method SendLastStatus(device: DeviceId) returns (rc: Rc)
      requires Valid() && Supports(View(), device)
      modifies `state, `clientMessageCounter, `serverMessageCounter, `outbox, `ahead, `errors, sentMessages, errorAggregators.Values
      ensures Valid() && Outcome(View(), rc) == SendLast(lib, net, old(View()), device)
      ensures var looked, n := SessionSpec.Pause(lib, old(View())), |old(outbox)|;
              rc == Ok ==>
                && IsRegistered(looked, device) && |outbox| == n + 1 && outbox[n].Status?
                && var state := looked.errors[device.identity.moduleNumber][device.identity];
                   outbox[n].sent.status == DeviceStatus(device, state.lastStatus) && outbox[n].sent.error == state.errorMessage
    {
      hide Valid, SessionSpec.SendStatus, SessionSpec.Pause;
      PauseKeeps(lib, View());
      KeepsModules();
      Pause();
      KeepsModules();
      var number := device.identity.moduleNumber;
      Lookup(number);
      var errorRc, error := errorAggregators[number].GetError(device);
      if errorRc == Err.DeviceNotRegistered {
        return DeviceNotRegistered;
      }
      var statusRc, status := errorAggregators[number].GetLastStatus(device);
      assert statusRc == Err.Ok;
      PauseKeeps(lib, View());
      Pause();
      KeepsModules();
      Introductions.SendHandsOver(lib, net, View(), DeviceStatus(device, status), error);
      SendStatus(DeviceStatus(device, status), Connecting, error);
      return Ok;
    }

    method StatusMessageHandle(devices: seq<DeviceId>) returns (rc: Rc)
      requires Valid() && AllSupported(View(), devices)
      modifies `state, `clientMessageCounter, `serverMessageCounter, `outbox, `received, `ahead, `errors, sentMessages, errorAggregators.Values
      ensures Valid() && Outcome(View(), rc) == SecondStep(lib, net, old(View()), devices)
    {
      hide Valid, SendLast, AwaitStatusResponse, SessionSpec.Pause, IsRegistered;
      ghost var s := View();
      for i := 0 to |devices|
        invariant Valid() && Outcome(View(), Ok) == SendAll(lib, net, s, devices[..i])
      {
        assert devices[..i + 1][..i] == devices[..i];
        KeepsModules();
        assert devices[i] in devices;
        var sendRc := SendLastStatus(devices[i]);
        if sendRc != Ok {
          SendAllStops(s, devices, i + 1);
          return sendRc;
        }
      }
      assert devices[..|devices|] == devices;
      ghost var sent := View();
      for i := 0 to |devices|
        invariant Valid() && Outcome(View(), Ok) == AwaitStatusResponses(lib, net, sent, i)
      {
        var responseRc := ReceiveStatusResponse();
        if responseRc != Ok {
          ResponsesStop(sent, i + 1, |devices|);
          return responseRc;
        }
      }
      return Ok;
    }

    lemma {:induction false} SendAllStops(s: Session, devices: seq<DeviceId>, i: nat)
      requires i <= |devices| && SendAll(lib, net, s, devices[..i]).rc != Ok
      ensures SendAll(lib, net, s, devices) == SendAll(lib, net, s, devices[..i])
      decreases |devices|
    {
      hide SendLast;
      if i == |devices| {
        assert devices[..i] == devices;
      } else {
        var init := devices[..|devices| - 1];
        assert init[..i] == devices[..i];
        SendAllStops(s, init, i);
      }
    }

    lemma {:induction false} ResponsesStop(s: Session, i: nat, n: nat)
      requires i <= n && AwaitStatusResponses(lib, net, s, i).rc != Ok
      ensures AwaitStatusResponses(lib, net, s, n) == AwaitStatusResponses(lib, net, s, i)
    {
      hide AwaitStatusResponse;
      if i < n {
        ResponsesStop(s, i, n - 1);
      }
    }

    lemma {:induction false} CommandsStop(s: Session, i: nat, n: nat)
      requires i <= n && ThirdStep(lib, net, s, i).rc != Ok
      ensures ThirdStep(lib, net, s, n) == ThirdStep(lib, net, s, i)
    {
      hide AwaitCommand;
      if i < n {
        CommandsStop(s, i, n - 1);
      }
    }

    method ReceiveStatusResponse() returns (rc: Rc)
      requires Valid()
      modifies `received, `ahead, `errors, sentMessages, errorAggregators.Values
      ensures Valid() && Outcome(View(), rc) == AwaitStatusResponse(lib, net, old(View()))
    {
      hide Valid, Await, Acknowledged, AcknowledgedWell;
      AwaitKeeps(lib, View());
      ghost var t := Await(lib, View());
      var message := ReceiveMessage();
      assert View() == t;
      if message == None {
        return NoMessageAvailable;
      }
      if !message.value.StatusResponse? {
        return StatusInvalid;
      }
      if !message.value.ok {
        return StatusInvalid;
      }
      if message.value.session != sessionId {
        return StatusInvalid;
      }
      var _ := sentMessages.AcknowledgeStatus(message.value.counter);
      return Ok;
    }

    method ReceiveCommand() returns (rc: Rc)
      requires Valid()
      modifies `received, `ahead, `serverMessageCounter, `commandQueue, `outbox, `errors, sentMessages, errorAggregators.Values
      ensures Valid() && Outcome(View(), rc) == AwaitCommand(lib, net, old(View()))
    {
      hide Valid, Await, SessionSpec.HandleCommand, HandleCommandOutcome;
      var message := ReceiveMessage();
      if message == None {
        return NoMessageAvailable;
      }
      if !message.value.Command? {
        return CommandInvalid;
      }
      var handled := HandleCommand(message.value.session, message.value.counter, message.value.command);
      if handled != Ok {
        return NotOk;
      }
      return Ok;
    }

    method CommandMessageHandle(n: nat) returns (rc: Rc)
      requires Valid()
      modifies `received, `ahead, `serverMessageCounter, `commandQueue, `outbox, `errors, sentMessages, errorAggregators.Values
      ensures Valid() && Outcome(View(), rc) == ThirdStep(lib, net, old(View()), n)
    {
      hide Valid, AwaitCommand;
      ghost var s := View();
      for i := 0 to n
        invariant Valid() && Outcome(View(), Ok) == ThirdStep(lib, net, s, i)
      {
        var commandRc := ReceiveCommand();
        if commandRc != Ok {
          CommandsStop(s, i + 1, n);
          return commandRc;
        }
      }
      return Ok;
    }

    method ClearErrorAggregator(number: int)
      requires Valid() && number in errorAggregators
      modifies `errors, errorAggregators.Values
      ensures Valid() && number in old(errors)
      ensures errors == old(errors)[number := Err.ClearAll(old(errors)[number])]
    {
      hide Valid, Err.ClearAll;
      Lookup(number);
      var a := errorAggregators[number];
      assert a in errorAggregators.Values;
      a.Clear();
      errors := errors[number := a.devices];
      Changed(number);
    }

    /** All but the error aggregators in `todo` have been cleared. */
    ghost predicate Halfway(before: map<int, Err.Errors>, now: map<int, Err.Errors>, todo: set<(int, Err.Aggregator)>) {
      && now.Keys == before.Keys == errorAggregators.Keys
      && forall i :: i in now ==> now[i] == if (i, errorAggregators[i]) in todo then before[i] else Err.ClearAll(before[i])
    }

    lemma HalfwayStarts(before: map<int, Err.Errors>)
      requires before.Keys == errorAggregators.Keys
      ensures Halfway(before, before, errorAggregators.Items)
    {
    }

    lemma HalfwayOn(before: map<int, Err.Errors>, now: map<int, Err.Errors>, todo: set<(int, Err.Aggregator)>,
                    item: (int, Err.Aggregator))
      requires Halfway(before, now, todo)
      requires item in todo && item in errorAggregators.Items
      ensures item.0 in now
      ensures Halfway(before, now[item.0 := Err.ClearAll(now[item.0])], todo - {item})
    {
      hide Err.ClearAll;
    }

    lemma HalfwayEnds(before: map<int, Err.Errors>, now: map<int, Err.Errors>)
      requires Halfway(before, now, {})
      ensures now == Wipe(before)
    {
      hide Err.ClearAll;
      WipedAll(before, now);
    }

    method ClearErrorAggregators()
      requires Valid()
      modifies `errors, errorAggregators.Values
      ensures Valid() && errors == Wipe(old(errors))
    {
      hide Valid, Err.ClearAll, Wipe, Halfway;
      KeepsModules();
      HalfwayStarts(errors);
      var todo := errorAggregators.Items;
      while todo != {}
        invariant Valid() && todo <= errorAggregators.Items && Halfway(old(errors), errors, todo)
        decreases |todo|
      {
        var item :| item in todo;
        assert item in errorAggregators.Items;
        HalfwayOn(old(errors), errors, todo, item);
        ClearErrorAggregator(item.0);
        todo := todo - {item};
      }
      HalfwayEnds(old(errors), errors);
    }

    method RunConnectSequence(devices: seq<DeviceId>) returns (rc: Rc)
      requires Valid() && AllSupported(View(), devices)
      modifies `state, `clientMessageCounter, `serverMessageCounter, `sessionId, `outbox, `commandQueue, `received, `generated,
        `ahead, `errors, sentMessages, errorAggregators.Values
      ensures Valid() && Outcome(View(), rc) == AllSteps(lib, net, old(View()), devices)
    {
      hide Valid, FirstStep, SecondStep, ThirdStep;
      rc := ConnectMessageHandle(devices);
      if rc != Ok {
        return;
      }
      KeepsModules();
      rc := StatusMessageHandle(devices);
      if rc != Ok {
        return;
      }
      rc := CommandMessageHandle(|devices|);
    }

    method Begin(meanwhile: seq<seq<DeviceStatus>>) returns (open: bool)
      requires Valid()
      modifies `state, `attempts, `ahead
      ensures Valid() && View() == Begun(old(View()), meanwhile)
      ensures open == net.opens(old(attempts))
    {
      hide Valid;
      ahead := meanwhile;
      if state == NotInitialized {
        state := NotConnected;
      }
      open := net.opens(attempts);
      attempts := attempts + 1;
    }

    method Conclude(stepRc: Rc) returns (rc: Rc)
      requires Valid()
      modifies `state, `errors, errorAggregators.Values
      ensures Valid() && Outcome(View(), rc) == Concluded(old(View()), stepRc)
    {
      hide Valid, Wipe;
      if stepRc != Ok {
        state := NotConnected;
        return NotOk;
      }
      state := Connected;
      ClearErrorAggregators();
      return Ok;
    }

    /** `meanwhile` is what the client's thread absorbs while the attempt lasts. */
    method InitializeConnection(devices: seq<DeviceId>, meanwhile: seq<seq<DeviceStatus>>) returns (rc: Rc)
      requires Valid() && AllSupported(View(), devices)
      modifies Repr
      ensures Valid() && Outcome(View(), rc) == Initialize(lib, net, old(View()), meanwhile, devices)
    {
      hide Valid, AllSteps, Begun, Concluded, SessionSpec.Pause, Finish;
      var open := Begin(meanwhile);
      Pause();
      KeepsModules();
      if !open {
        FinishPauses();
        return NotOk;
      }
      state := InSequence;
      var stepRc := RunConnectSequence(devices);
      FinishPauses();
      rc := Conclude(stepRc);
    }

    /** The thread that receives; it ends after some rounds, or asks for the connection to be dropped. */
    method ReceivingHandlerLoop(rounds: nat) returns (dropped: Option<bool>)
      requires Valid()
      modifies `received, `serverMessageCounter, `commandQueue, `outbox, sentMessages
      ensures Valid() && Reception(View(), dropped) == Receive(lib, net, old(View()), rounds)
      ensures old(state) != InSequence && dropped.Some? ==>
                && received > old(received)
                && var answered := net.inbox(received - 1).Some? && net.inbox(received - 1).value.StatusResponse?;
                   dropped.value == (!net.notified(received - 1) && !answered)
    {
      hide Valid, ReceiveOne, Receptions.EndsOn;
      ghost var s := View();
      Receptions.LoopEndsOn(lib, net, s, rounds);
      for i := 0 to rounds
        invariant Valid() && Reception(View(), None) == Receive(lib, net, s, i)
      {
        dropped := ReceiveRound();
        if dropped != None {
          LoopStops(s, i + 1, rounds);
          return;
        }
      }
      dropped := None;
    }

    lemma {:induction false} LoopStops(s: Session, i: nat, n: nat)
      requires i <= n && Receive(lib, net, s, i).dropped != None
      ensures Receive(lib, net, s, n) == Receive(lib, net, s, i)
    {
      hide ReceiveOne;
      if i < n {
        LoopStops(s, i, n - 1);
      }
    }

    method ReceiveRound() returns (dropped: Option<bool>)
      requires Valid()
      modifies `received, `serverMessageCounter, `commandQueue, `outbox, sentMessages
      ensures Valid() && Reception(View(), dropped) == ReceiveOne(lib, net, old(View()))
    {
      hide Valid, SessionSpec.HandleCommand, HandleCommandOutcome, Acknowledged, AcknowledgedWell;
      if state == InSequence {
        return None;
      }
      var message, notified := net.inbox(received), net.notified(received);
      received := received + 1;
      if notified {
        return Some(false);
      }
      if message == None || state == NotConnected {
        return None;
      }
      if message.value.Command? {
        var rc := HandleCommand(message.value.session, message.value.counter, message.value.command);
        if rc != Ok {
          return Some(true);
        }
      } else if message.value.StatusResponse? {
        var ok := sentMessages.AcknowledgeStatus(message.value.counter);
        if !ok {
          return Some(false);
        }
      } else {
        return Some(true);
      }
      return None;
    }

    /** The devices without a last status; their aggregation is forced. */
    method ForceAggregationOnAllDevices(devices: seq<DeviceId>) returns (forced: seq<DeviceId>)
      requires Valid() && AllSupported(View(), devices)
      ensures forced == Unregistered(View(), devices)
    {
      hide Valid;
      forced := [];
      for i := 0 to |devices|
        invariant forced == Unregistered(View(), devices[..i])
      {
        assert devices[..i + 1][..i] == devices[..i];
        assert devices[i] in devices;
        Lookup(devices[i].identity.moduleNumber);
        var rc, _ := errorAggregators[devices[i].identity.moduleNumber].GetLastStatus(devices[i]);
        if rc != Err.Ok {
          forced := forced + [devices[i]];
        }
      }
      assert devices[..|devices|] == devices;
    }

    predicate IsModuleSupported(number: int) {
      number in errorAggregators
    }

    /** The modules of a connection are settled when it is set up. */
    twostate lemma KeepsModules()
      requires old(Valid()) && Valid()
      ensures errors.Keys == old(errors.Keys) == errorAggregators.Keys
    {
    }
  }
}
