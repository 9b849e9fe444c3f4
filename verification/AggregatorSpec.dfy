/**
  The operations of the status aggregator of one module on values, and what any history of them amounts to:
  a description without queues of what each device's status is and which messages it has produced.
 */
module AggregatorSpec {
  import opened Common
  import opened DeviceState

  type Devices = map<Identity, Device>

  datatype Rc = Ok | NotOk | DeviceNotSupported | DeviceNotRegistered | CommandInvalid | NoMessageAvailable

  /** The number of messages waiting, or an error. */
  datatype AddResult = Queued(count: nat) | Refused(rc: Rc)

  function Aggregate(m: Module, current: Buffer, status: Buffer, deviceType: uint32): Buffer {
    match m.aggregateStatus(current, status, deviceType)
    case Some(aggregated) => aggregated
    case None => current
  }

  function Register(m: Module, device: DeviceId, status: Buffer, first: Buffer): Device {
    Device(device, [status], status, first, [], m.forwardOnReceive(device.identity.deviceType))
  }

  function Absorb(m: Module, d: Device, status: Buffer): Device {
    var deviceType := d.id.identity.deviceType;
    var aggregated := Aggregate(m, d.status, status, deviceType);
    d.(status := aggregated,
       messages := if m.sendCondition(d.status, status, deviceType) then d.messages + [aggregated] else d.messages)
  }

  function Add(m: Module, ds: Devices, device: DeviceId, status: Buffer): Devices {
    var id := device.identity;
    if !m.supports(id.deviceType) then ds
    else if id in ds then ds[id := Absorb(m, ds[id], status)]
    else match m.firstCommand(id.deviceType)
      case None => ds
      case Some(first) => ds[id := Register(m, device, status, first)]
  }

  function AddOutcome(m: Module, ds: Devices, device: DeviceId, status: Buffer): AddResult {
    if !m.supports(device.identity.deviceType) then Refused(DeviceNotSupported)
    else if device.identity !in ds && m.firstCommand(device.identity.deviceType) == None then Refused(CommandInvalid)
    else Queued(|Add(m, ds, device, status)[device.identity].messages|)
  }

  predicate Registered(m: Module, ds: Devices, device: DeviceId) {
    m.supports(device.identity.deviceType) && device.identity in ds
  }

  lemma RegisteredIsPresent(m: Module, ds: Devices, device: DeviceId)
    requires Registered(m, ds, device)
    ensures device.identity in ds
  {
  }

  function Force(m: Module, ds: Devices, device: DeviceId): Devices {
    if !Registered(m, ds, device) then ds
    else
      var d := ds[device.identity];
      ds[device.identity := d.(messages := d.messages + [d.status])]
  }

  /** The oldest message waiting for a device. */
  function Oldest(m: Module, ds: Devices, device: DeviceId): Option<Buffer> {
    if Registered(m, ds, device) && ds[device.identity].messages != [] then Some(ds[device.identity].messages[0]) else None
  }

  function Pop(m: Module, ds: Devices, device: DeviceId): Devices {
    if Oldest(m, ds, device) == None then ds
    else ds[device.identity := ds[device.identity].(messages := ds[device.identity].messages[1..])]
  }

  function Clear(m: Module, ds: Devices, device: DeviceId): Devices {
    if !Registered(m, ds, device) then ds else ds[device.identity := ds[device.identity].(messages := [])]
  }

  function UpdateOutcome(m: Module, ds: Devices, device: DeviceId, command: Buffer): Rc {
    if !m.supports(device.identity.deviceType) then DeviceNotSupported
    else if device.identity !in ds then DeviceNotRegistered
    else if command == [] || !m.commandValid(command, device.identity.deviceType) then CommandInvalid
    else Ok
  }

  function Update(m: Module, ds: Devices, device: DeviceId, command: Buffer): Devices {
    if UpdateOutcome(m, ds, device, command) == Ok && device.identity in ds
    then ds[device.identity := Offer(ds[device.identity], command)]
    else ds
  }

  /** The command generated for a registered device, from the status it sent or the one it had. */
  function Generate(m: Module, d: Device, status: Buffer): Option<Buffer> {
    match Next(d)
    case None => None
    case Some(command) => m.generateCommand(status, d.status, command, d.id.identity.deviceType)
  }

  /** A queued command is consumed even when nothing can be generated from it. */
  function Command(m: Module, d: Device, status: Buffer): Device {
    match Generate(m, d, status)
    case None => Consume(d)
    case Some(generated) => Consume(d).(command := generated)
  }

  function CommandOutcome(m: Module, d: Device, status: Buffer): Rc {
    if Next(d) == None then NoMessageAvailable
    else if Generate(m, d, status) == None then CommandInvalid
    else Ok
  }

  function Fetch(m: Module, ds: Devices, device: DeviceId, status: Buffer): Devices {
    if !Registered(m, ds, device) then ds else ds[device.identity := Command(m, ds[device.identity], status)]
  }

  /** The first entry of an identity is taken out of a list. */
  function Without(pending: seq<Identity>, id: Identity): seq<Identity> {
    if pending == [] then [] else if pending[0] == id then pending[1..] else [pending[0]] + Without(pending[1..], id)
  }

  /** The timeouts of a device; none have been counted for one that is not in the table. */
  function Count(timeouts: map<Identity, nat>, id: Identity): nat {
    if id in timeouts then timeouts[id] else 0
  }

  ghost predicate Distinct(devices: seq<DeviceId>) {
    forall i, j :: 0 <= i < j < |devices| ==> devices[i].identity != devices[j].identity
  }

  /** Each registered device once. */
  ghost predicate IsRoster(ds: Devices, devices: seq<DeviceId>) {
    && Distinct(devices)
    && (forall device :: device in devices ==> device.identity in ds && ds[device.identity].id == device)
    && (forall id :: id in ds ==> ds[id].id in devices)
  }

  // Histories. An aggregation is forced by the timer of the device or by another thread of the gateway.

  datatype Op =
    | AddStatus(device: DeviceId, status: Buffer)
    | ForceAggregation(device: DeviceId, timed: bool)
    | PopMessage(device: DeviceId)
    | ClearDevice(device: DeviceId)
    | EraseDevice(identity: Identity)
    | UpdateCommand(device: DeviceId, command: Buffer)
    | TakeCommand(device: DeviceId, status: Buffer)

  /** The devices, and what has been popped for each since it was registered or last cleared. */
  datatype State = State(devices: Devices, popped: map<Identity, seq<Buffer>>)

  function PoppedFor(s: State, id: Identity): seq<Buffer> {
    if id in s.popped then s.popped[id] else []
  }

  function Apply(m: Module, s: State, op: Op): State {
    match op
    case AddStatus(device, status) =>
      State(Add(m, s.devices, device, status),
            if device.identity in s.devices then s.popped else s.popped[device.identity := []])
    case ForceAggregation(device, _) => s.(devices := Force(m, s.devices, device))
    case PopMessage(device) =>
      (match Oldest(m, s.devices, device)
       case None => s
       case Some(message) => State(Pop(m, s.devices, device),
                                   s.popped[device.identity := PoppedFor(s, device.identity) + [message]]))
    case ClearDevice(device) => State(Clear(m, s.devices, device), s.popped[device.identity := []])
    case EraseDevice(id) => s.(devices := s.devices - {id})
    case UpdateCommand(device, command) => s.(devices := Update(m, s.devices, device, command))
    case TakeCommand(device, status) => s.(devices := Fetch(m, s.devices, device, status))
  }

  function Run(m: Module, ops: seq<Op>): State {
    if ops == [] then State(map[], map[]) else Apply(m, Run(m, ops[..|ops| - 1]), ops[|ops| - 1])
  }

  /** What has happened to a device since its registration with the status `first`. */
  datatype Happening = Got(status: Buffer) | Forced | Cleared

  datatype History = Absent | Present(first: Buffer, happenings: seq<Happening>)

  function Extend(h: History, e: Happening): History {
    if h.Absent? then h else h.(happenings := h.happenings + [e])
  }

  function HistoryOf(m: Module, ops: seq<Op>, id: Identity): History {
    if ops == [] then
      Absent
    else
      var before := HistoryOf(m, ops[..|ops| - 1], id);
      var op := ops[|ops| - 1];
      if Target(op) == id then HistoryStep(m, before, op, id) else before
  }

  function Target(op: Op): Identity {
    if op.EraseDevice? then op.identity else op.device.identity
  }

  function HistoryStep(m: Module, h: History, op: Op, id: Identity): History {
    match op
    case AddStatus(_, status) =>
      if !m.supports(id.deviceType) then h
      else if h.Present? then Extend(h, Got(status))
      else if m.firstCommand(id.deviceType) == None then Absent
      else Present(status, [])
    case ForceAggregation(_, _) => Extend(h, Forced)
    case ClearDevice(_) => Extend(h, Cleared)
    case EraseDevice(_) => Absent
    case _ => h
  }

  function Statuses(happenings: seq<Happening>): seq<Buffer> {
    if happenings == [] then []
    else
      var before := Statuses(happenings[..|happenings| - 1]);
      if happenings[|happenings| - 1].Got? then before + [happenings[|happenings| - 1].status] else before
  }

  /** The left fold of the module's aggregation; a failed step keeps the value. */
  function Fold(m: Module, deviceType: uint32, first: Buffer, statuses: seq<Buffer>): Buffer {
    if statuses == [] then first
    else Aggregate(m, Fold(m, deviceType, first, statuses[..|statuses| - 1]), statuses[|statuses| - 1], deviceType)
  }

  /** The statuses whose aggregation did not fail. */
  function Effective(m: Module, deviceType: uint32, first: Buffer, statuses: seq<Buffer>): seq<Buffer> {
    if statuses == [] then []
    else
      var n := |statuses| - 1;
      var before := Effective(m, deviceType, first, statuses[..n]);
      if m.aggregateStatus(Fold(m, deviceType, first, statuses[..n]), statuses[n], deviceType) == None then before
      else before + [statuses[n]]
  }

  /** A status whose aggregation fails leaves no trace: the fold is the one over the others, none of which fails. */
  lemma {:induction false} FailuresLeaveNoTrace(m: Module, deviceType: uint32, first: Buffer, statuses: seq<Buffer>)
    ensures var effective := Effective(m, deviceType, first, statuses);
            && Fold(m, deviceType, first, statuses) == Fold(m, deviceType, first, effective)
            && forall k :: 0 <= k < |effective| ==>
                 m.aggregateStatus(Fold(m, deviceType, first, effective[..k]), effective[k], deviceType).Some?
    decreases |statuses|
  {
    if statuses != [] {
      var n := |statuses| - 1;
      FailuresLeaveNoTrace(m, deviceType, first, statuses[..n]);
      var before := Effective(m, deviceType, first, statuses[..n]);
      assert (before + [statuses[n]])[..|before|] == before;
      assert forall k :: 0 <= k < |before| ==> (before + [statuses[n]])[..k] == before[..k];
    }
  }

  function Current(m: Module, deviceType: uint32, h: History): Buffer
    requires h.Present?
  {
    Fold(m, deviceType, h.first, Statuses(h.happenings))
  }

  /**
    The messages a history calls for since the last clear: the first status, each aggregate worth sending,
    and the current status at each forced aggregation.
   */
  function Prescribed(m: Module, deviceType: uint32, h: History): seq<Buffer>
    requires h.Present?
    decreases |h.happenings|
  {
    if h.happenings == [] then
      [h.first]
    else
      var n := |h.happenings| - 1;
      var before := h.(happenings := h.happenings[..n]);
      match h.happenings[n]
      case Got(status) =>
        if m.sendCondition(Current(m, deviceType, before), status, deviceType)
        then Prescribed(m, deviceType, before) + [Current(m, deviceType, h)]
        else Prescribed(m, deviceType, before)
      case Forced => Prescribed(m, deviceType, before) + [Current(m, deviceType, h)]
      case Cleared => []
  }

  ghost predicate Agrees(m: Module, s: State, id: Identity, h: History) {
    && (id in s.devices <==> h.Present?)
    && (id in s.devices ==>
          && m.supports(id.deviceType)
          && s.devices[id].id.identity == id
          && s.devices[id].status == Current(m, id.deviceType, h)
          && PoppedFor(s, id) + s.devices[id].messages == Prescribed(m, id.deviceType, h))
  }

  /**
    The aggregator does what the histories say, whatever happens to other devices in between: the current
    status is the fold of the statuses, and the messages popped followed by those waiting are the prescribed ones.
   */
  lemma {:induction false} AggregatorFollowsHistory(m: Module, ops: seq<Op>, id: Identity)
    ensures Agrees(m, Run(m, ops), id, HistoryOf(m, ops, id))
    decreases |ops|
  {
    if ops != [] {
      var init, op := ops[..|ops| - 1], ops[|ops| - 1];
      AggregatorFollowsHistory(m, init, id);
      var s, h := Run(m, init), HistoryOf(m, init, id);
      if Target(op) != id {
        OtherDevice(m, s, op, id);
      } else {
        StepFollowsHistory(m, s, op, id, h);
      }
    }
  }

  lemma OtherDevice(m: Module, s: State, op: Op, id: Identity)
    requires Target(op) != id
    ensures var t := Apply(m, s, op);
            && (id in t.devices <==> id in s.devices)
            && (id in s.devices ==> t.devices[id] == s.devices[id])
            && PoppedFor(t, id) == PoppedFor(s, id)
  {
  }

  lemma StepFollowsHistory(m: Module, s: State, op: Op, id: Identity, h: History)
    requires Agrees(m, s, id, h) && Target(op) == id
    ensures Agrees(m, Apply(m, s, op), id, HistoryStep(m, h, op, id))
  {
    hide Current, Prescribed, Aggregate, Generate, Command;
    match op
    case AddStatus(_, status) =>
      if h.Present? {
        Extended(m, id.deviceType, h, Got(status));
      } else {
        JustRegistered(m, id.deviceType, status);
      }
    case ForceAggregation(_, _) =>
      if h.Present? {
        Extended(m, id.deviceType, h, Forced);
      }
    case ClearDevice(_) =>
      if h.Present? {
        Extended(m, id.deviceType, h, Cleared);
      }
    case _ =>
      if id in s.devices && !op.EraseDevice? {
        NothingProduced(m, s, op, id);
      }
  }

  /** Commands concern neither the status nor the messages, and popping only moves a message. */
  lemma NothingProduced(m: Module, s: State, op: Op, id: Identity)
    requires op.UpdateCommand? || op.TakeCommand? || op.PopMessage?
    requires Target(op) == id && id in s.devices
    ensures var t := Apply(m, s, op);
            && id in t.devices
            && t.devices[id].id == s.devices[id].id
            && t.devices[id].status == s.devices[id].status
            && PoppedFor(t, id) + t.devices[id].messages == PoppedFor(s, id) + s.devices[id].messages
  {
  }

  lemma JustRegistered(m: Module, deviceType: uint32, first: Buffer)
    ensures Current(m, deviceType, Present(first, [])) == first
    ensures Prescribed(m, deviceType, Present(first, [])) == [first]
  {
  }

  lemma Extended(m: Module, deviceType: uint32, h: History, e: Happening)
    requires h.Present?
    ensures var k := Extend(h, e);
            match e
            case Got(status) =>
              && Current(m, deviceType, k) == Aggregate(m, Current(m, deviceType, h), status, deviceType)
              && Prescribed(m, deviceType, k) ==
                 if m.sendCondition(Current(m, deviceType, h), status, deviceType)
                 then Prescribed(m, deviceType, h) + [Current(m, deviceType, k)]
                 else Prescribed(m, deviceType, h)
            case Forced =>
              && Current(m, deviceType, k) == Current(m, deviceType, h)
              && Prescribed(m, deviceType, k) == Prescribed(m, deviceType, h) + [Current(m, deviceType, h)]
            case Cleared =>
              && Current(m, deviceType, k) == Current(m, deviceType, h)
              && Prescribed(m, deviceType, k) == []
  {
    var k := Extend(h, e);
    assert k.happenings[..|k.happenings| - 1] == h.happenings;
    assert k.(happenings := h.happenings) == h;
    if e.Got? {
      var ss := Statuses(k.happenings);
      assert ss[..|ss| - 1] == Statuses(h.happenings);
    }
  }

  /** An aggregator knows devices of supported types only. */
  lemma {:induction false} RegisteredIsSupported(m: Module, ops: seq<Op>)
    ensures forall id :: id in Run(m, ops).devices ==> m.supports(id.deviceType)
    decreases |ops|
  {
    if ops != [] {
      var n := |ops| - 1;
      RegisteredIsSupported(m, ops[..n]);
      hide Aggregate, Run;
      var s := Run(m, ops[..n]);
      assert forall id :: id in Apply(m, s, ops[n]).devices ==> id in s.devices || m.supports(id.deviceType);
    }
  }
}
