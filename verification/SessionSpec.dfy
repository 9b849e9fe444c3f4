/**
  The connection to one external server endpoint, as operations on values. The network is an oracle: whether
  the channel opens, whether a message gets through, and what is received, each at its turn; `notified` tells
  whether the server announced its disconnect instead.
 */
module SessionSpec {
  import opened Common
  import opened SentMessages
  import Err = ErrorAggregator

  type Library = int -> Module

  datatype DeviceCommand = DeviceCommand(device: DeviceId, data: Buffer)

  datatype ResponseType = ResponseOk | ResponseNotSupported | ResponseNotConnected

  datatype ClientMessage =
    | Connect(session: string, devices: seq<DeviceId>)
    | Status(sent: Sent)
    | CommandResponse(session: string, responseType: ResponseType, counter: uint32)

  datatype ServerMessage =
    | ConnectResponse(session: string, alreadyLogged: bool)
    | StatusResponse(session: string, ok: bool, counter: uint32)
    | Command(session: string, counter: uint32, command: DeviceCommand)
    | Unknown

  datatype Network = Network(
    opens: nat -> bool,
    sends: nat -> bool,
    inbox: nat -> Option<ServerMessage>,
    notified: nat -> bool,
    sessions: nat -> string)

  datatype Link = NotInitialized | NotConnected | InSequence | Connected

  datatype Rc = Ok | NotOk | CommandInvalid | StatusInvalid | NoMessageAvailable | DeviceNotRegistered

  datatype Session = Session(
    link: Link,
    sendCounter: uint32,
    commandCounter: uint32,
    id: string,
    errors: map<int, Err.Errors>,
    /** Statuses not acknowledged yet, oldest first. */
    pending: seq<Sent>,
    connected: seq<DeviceId>,
    /** Everything handed to the channel. */
    outbox: seq<ClientMessage>,
    /** Everything pushed to the command queue. */
    commands: seq<DeviceCommand>,
    attempts: nat,
    received: nat,
    generated: nat,
    /** What another thread absorbs at each coming pause of a connect sequence. */
    ahead: seq<seq<DeviceStatus>>)

  function Next(counter: uint32): uint32 {
    (counter + 1) % TWO_32
  }

  predicate Supports(s: Session, device: DeviceId) {
    device.identity.moduleNumber in s.errors
  }

  predicate IsRegistered(s: Session, device: DeviceId) {
    Supports(s, device) && device.identity in s.errors[device.identity.moduleNumber]
  }

  /** One status goes into the error aggregator of its module. */
  function Feed(lib: Library, errors: map<int, Err.Errors>, status: DeviceStatus): map<int, Err.Errors> {
    var number := status.device.identity.moduleNumber;
    if number in errors then errors[number := Err.AddError(lib(number), errors[number], status.device, status.data)]
    else errors
  }

  function FeedAll(lib: Library, errors: map<int, Err.Errors>, pending: seq<Sent>): map<int, Err.Errors> {
    if pending == [] then errors
    else Feed(lib, FeedAll(lib, errors, pending[..|pending| - 1]), pending[|pending| - 1].status)
  }

  function Flush(lib: Library, s: Session): Session {
    s.(errors := FeedAll(lib, s.errors, s.pending), pending := [])
  }

  /** The connection is given up, to be started anew. */
  function Reset(lib: Library, s: Session): Session {
    Flush(lib, s.(link := NotInitialized, sendCounter := 0, commandCounter := 0))
  }

  function Fill(lib: Library, s: Session, status: DeviceStatus): Session {
    if !Supports(s, status.device) then s
    else
      var flushed := Flush(lib, s);
      flushed.(errors := Feed(lib, flushed.errors, status))
  }

  /** The state a status is reported in: the first one of a device connects it. */
  function ReportedAs(s: Session, device: DeviceId, kind: Kind): Kind {
    if !IsRegistered(s, device) then Connecting
    else if kind == Running && !Listed(s.connected, device) then Connecting
    else kind
  }

  function ConnectedAfter(connected: seq<DeviceId>, device: DeviceId, kind: Kind): seq<DeviceId> {
    match kind
    case Connecting => connected + [device]
    case Disconnecting => Unlisted(connected, device)
    case _ => connected
  }

  function NewStatus(s: Session, status: DeviceStatus, kind: Kind, error: Buffer): Sent {
    Sent(s.id, ReportedAs(s, status.device, kind), Next(s.sendCounter), status, error)
  }

  function Transmit(lib: Library, net: Network, s: Session, sent: Sent): Session {
    var t := s.(sendCounter := sent.counter, pending := s.pending + [sent], outbox := s.outbox + [Status(sent)]);
    if net.sends(|s.outbox|) then t else Reset(lib, t)
  }

  function SendStatus(lib: Library, net: Network, s: Session, status: DeviceStatus, kind: Kind, error: Buffer): Session {
    if !Supports(s, status.device) then s
    else
      var sent := NewStatus(s, status, kind, error);
      var errors := if IsRegistered(s, status.device) then s.errors else Feed(lib, s.errors, status);
      Transmit(lib, net, s.(errors := errors, connected := ConnectedAfter(s.connected, status.device, sent.kind)), sent)
  }

  function Acknowledge(s: Session, counter: uint32): Session {
    s.(pending := Acknowledged(s.pending, counter))
  }

  /** A command continues the session: its id, and the counter after the last one. */
  predicate InOrder(s: Session, session: string, counter: uint32) {
    session == s.id && (s.commandCounter != 0 ==> counter == Next(s.commandCounter))
  }

  function ResponseFor(lib: Library, s: Session, device: DeviceId): ResponseType {
    if Listed(s.connected, device) then ResponseOk
    else if !lib(device.identity.moduleNumber).supports(device.identity.deviceType) then ResponseNotSupported
    else ResponseNotConnected
  }

  function HandleCommand(lib: Library, s: Session, session: string, counter: uint32, command: DeviceCommand): Session {
    if !InOrder(s, session, counter) then s
    else if !Supports(s, command.device) then s.(commandCounter := counter)
    else
      var response := ResponseFor(lib, s, command.device);
      s.(commandCounter := counter,
         commands := if response == ResponseOk then s.commands + [command] else s.commands,
         outbox := s.outbox + [CommandResponse(s.id, response, counter)])
  }

  function HandleCommandOutcome(s: Session, session: string, counter: uint32, command: DeviceCommand): Rc {
    if !InOrder(s, session, counter) then CommandInvalid
    else if !Supports(s, command.device) then NotOk
    else Ok
  }

  function Wipe(errors: map<int, Err.Errors>): map<int, Err.Errors> {
    map number | number in errors :: Err.ClearAll(errors[number])
  }

  function ClearErrors(s: Session): Session {
    s.(errors := Wipe(s.errors))
  }

  /** The devices whose aggregation is forced before a connect sequence. */
  function Unregistered(s: Session, devices: seq<DeviceId>): seq<DeviceId> {
    if devices == [] then []
    else
      var device := devices[|devices| - 1];
      Unregistered(s, devices[..|devices| - 1]) + if IsRegistered(s, device) then [] else [device]
  }

  // The connect sequence.

  datatype Outcome = Outcome(session: Session, rc: Rc)

  function FillAll(lib: Library, s: Session, statuses: seq<DeviceStatus>): Session {
    if statuses == [] then s
    else Fill(lib, FillAll(lib, s, statuses[..|statuses| - 1]), statuses[|statuses| - 1])
  }

  /** A point where the other thread may get its turn. */
  function Pause(lib: Library, s: Session): Session {
    if s.ahead == [] then s else FillAll(lib, s.(ahead := s.ahead[1..]), s.ahead[0])
  }

  function Flatten(groups: seq<seq<DeviceStatus>>): seq<DeviceStatus> {
    if groups == [] then [] else groups[0] + Flatten(groups[1..])
  }

  /** The last pause of a connect sequence, which takes in all that is left. */
  function Finish(lib: Library, s: Session): Session {
    FillAll(lib, s.(ahead := []), Flatten(s.ahead))
  }

  /** The session once the next message has come. */
  function Await(lib: Library, s: Session): Session {
    Pause(lib, s.(received := s.received + 1))
  }

  function Greet(net: Network, s: Session, devices: seq<DeviceId>): Session {
    var id := net.sessions(s.generated);
    s.(id := id, generated := s.generated + 1, outbox := s.outbox + [Connect(id, devices)])
  }

  function ConnectResponseOutcome(message: Option<ServerMessage>, id: string): Rc {
    if message == None then NoMessageAvailable
    else if message == Some(ConnectResponse(id, false)) then Ok
    else NotOk
  }

  function FirstStep(lib: Library, net: Network, s: Session, devices: seq<DeviceId>): Outcome {
    var t := Greet(net, s, devices);
    if !net.sends(|s.outbox|) then Outcome(t, NotOk)
    else Outcome(Await(lib, t), ConnectResponseOutcome(net.inbox(t.received), t.id))
  }

  predicate AllSupported(s: Session, devices: seq<DeviceId>) {
    forall device :: device in devices ==> Supports(s, device)
  }

  /** The last status of a device goes out with its error message, as they are looked up before. */
  function SendLast(lib: Library, net: Network, s: Session, device: DeviceId): Outcome {
    var looked := Pause(lib, s);
    if !IsRegistered(looked, device) then Outcome(looked, DeviceNotRegistered)
    else
      var state := looked.errors[device.identity.moduleNumber][device.identity];
      var status := DeviceStatus(device, state.lastStatus);
      Outcome(SendStatus(lib, net, Pause(lib, looked), status, Connecting, state.errorMessage), Ok)
  }

  function SendAll(lib: Library, net: Network, s: Session, devices: seq<DeviceId>): Outcome {
    if devices == [] then Outcome(s, Ok)
    else
      var before := SendAll(lib, net, s, devices[..|devices| - 1]);
      if before.rc != Ok then before else SendLast(lib, net, before.session, devices[|devices| - 1])
  }

  /** What the acknowledgement comes to is not looked at. */
  function AwaitStatusResponse(lib: Library, net: Network, s: Session): Outcome {
    var t := Await(lib, s);
    match net.inbox(s.received)
    case None => Outcome(t, NoMessageAvailable)
    case Some(StatusResponse(session, ok, counter)) =>
      if ok && session == t.id then Outcome(Acknowledge(t, counter), Ok) else Outcome(t, StatusInvalid)
    case _ => Outcome(t, StatusInvalid)
  }

  function AwaitStatusResponses(lib: Library, net: Network, s: Session, n: nat): Outcome {
    if n == 0 then Outcome(s, Ok)
    else
      var before := AwaitStatusResponses(lib, net, s, n - 1);
      if before.rc != Ok then before else AwaitStatusResponse(lib, net, before.session)
  }

  function SecondStep(lib: Library, net: Network, s: Session, devices: seq<DeviceId>): Outcome {
    var sent := SendAll(lib, net, s, devices);
    if sent.rc != Ok then sent else AwaitStatusResponses(lib, net, sent.session, |devices|)
  }

  function AwaitCommand(lib: Library, net: Network, s: Session): Outcome {
    var t := Await(lib, s);
    match net.inbox(s.received)
    case None => Outcome(t, NoMessageAvailable)
    case Some(Command(session, counter, command)) =>
      Outcome(
        HandleCommand(lib, t, session, counter, command),
        if HandleCommandOutcome(t, session, counter, command) == Ok then Ok else NotOk)
    case _ => Outcome(t, CommandInvalid)
  }

  function ThirdStep(lib: Library, net: Network, s: Session, n: nat): Outcome {
    if n == 0 then Outcome(s, Ok)
    else
      var before := ThirdStep(lib, net, s, n - 1);
      if before.rc != Ok then before else AwaitCommand(lib, net, before.session)
  }

  function AllSteps(lib: Library, net: Network, s: Session, devices: seq<DeviceId>): Outcome {
    var first := FirstStep(lib, net, s, devices);
    if first.rc != Ok then first
    else
      var second := SecondStep(lib, net, first.session, devices);
      if second.rc != Ok then second else ThirdStep(lib, net, second.session, |devices|)
  }

  /** The connection as an attempt begins. */
  function Begun(s: Session, meanwhile: seq<seq<DeviceStatus>>): Session {
    s.(link := if s.link == NotInitialized then NotConnected else s.link, attempts := s.attempts + 1, ahead := meanwhile)
  }

  function Concluded(s: Session, rc: Rc): Outcome {
    if rc == Ok then Outcome(ClearErrors(s.(link := Connected)), Ok) else Outcome(s.(link := NotConnected), NotOk)
  }

  /** `meanwhile` is what another thread absorbs at the pauses, until the connection is up or the attempt is over. */
  function Initialize(lib: Library, net: Network, s: Session, meanwhile: seq<seq<DeviceStatus>>, devices: seq<DeviceId>): Outcome {
    var t := Pause(lib, Begun(s, meanwhile));
    if !net.opens(s.attempts) then Outcome(Finish(lib, t), NotOk)
    else
      var all := AllSteps(lib, net, t.(link := InSequence), devices);
      Concluded(Finish(lib, all.session), all.rc)
  }

  // What waiting leaves alone.

  predicate SameLine(s: Session, t: Session) {
    && t.id == s.id && t.generated == s.generated && t.attempts == s.attempts
    && t.commandCounter == s.commandCounter && t.errors.Keys == s.errors.Keys
  }

  lemma {:induction false} FeedAllKeys(lib: Library, errors: map<int, Err.Errors>, pending: seq<Sent>)
    ensures FeedAll(lib, errors, pending).Keys == errors.Keys
    decreases |pending|
  {
    if pending != [] {
      FeedAllKeys(lib, errors, pending[..|pending| - 1]);
    }
  }

  lemma {:induction false} FillAllKeeps(lib: Library, s: Session, statuses: seq<DeviceStatus>)
    ensures var t := FillAll(lib, s, statuses); SameLine(s, t) && t.received == s.received && t.link == s.link && t.outbox == s.outbox
    decreases |statuses|
  {
    hide FeedAll;
    if statuses != [] {
      var n := |statuses| - 1;
      FillAllKeeps(lib, s, statuses[..n]);
      var before := FillAll(lib, s, statuses[..n]);
      FeedAllKeys(lib, before.errors, before.pending);
    }
  }

  lemma PauseKeeps(lib: Library, s: Session)
    ensures var t := Pause(lib, s);
            SameLine(s, t) && t.received == s.received && t.link == s.link && t.outbox == s.outbox
  {
    hide FillAll;
    if s.ahead != [] {
      FillAllKeeps(lib, s.(ahead := s.ahead[1..]), s.ahead[0]);
    }
  }

  lemma FinishKeeps(lib: Library, s: Session)
    ensures SameLine(s, Finish(lib, s)) && Finish(lib, s).link == s.link
  {
    hide FillAll, Flatten;
    FillAllKeeps(lib, s.(ahead := []), Flatten(s.ahead));
  }

  lemma AwaitKeeps(lib: Library, s: Session)
    ensures var t := Await(lib, s);
            SameLine(s, t) && t.received == s.received + 1 && t.link == s.link && t.outbox == s.outbox
  {
    hide Pause;
    PauseKeeps(lib, s.(received := s.received + 1));
  }

  // The receiving loop.

  /** The loop may have ended, by asking for the connection to be dropped, and started again or not. */
  datatype Reception = Reception(session: Session, dropped: Option<bool>)

  function ReceiveOne(lib: Library, net: Network, s: Session): Reception {
    if s.link == InSequence then Reception(s, None)
    else
      var t := s.(received := s.received + 1);
      if net.notified(s.received) then Reception(t, Some(false))
      else if s.link == NotConnected then Reception(t, None)
      else match net.inbox(s.received)
        case None => Reception(t, None)
        case Some(Command(session, counter, command)) =>
          var ok := HandleCommandOutcome(t, session, counter, command) == Ok;
          Reception(HandleCommand(lib, t, session, counter, command), if ok then None else Some(true))
        case Some(StatusResponse(session, ok, counter)) =>
          Reception(Acknowledge(t, counter), if AcknowledgedWell(t.pending, t.connected, counter) then None else Some(false))
        case _ => Reception(t, Some(true))
  }

  /** What the loop has done after so many rounds: nothing more once it has ended. */
  function Receive(lib: Library, net: Network, s: Session, rounds: nat): Reception {
    if rounds == 0 then Reception(s, None)
    else
      var before := Receive(lib, net, s, rounds - 1);
      if before.dropped != None then before else ReceiveOne(lib, net, before.session)
  }
}
