/** The status aggregator of one module. Every method runs under the aggregator's lock. */
module StatusAggregator {
  import opened Common
  import opened DeviceState
  import opened AggregatorSpec

  class Aggregator {
    const m: Module
    var devices: map<Identity, StatusAggregatorDeviceState>
    var deviceTimeouts: map<Identity, nat>
    var timeoutedMessageReady: bool
    /** Erasures posted to the I/O threads and not yet done. */
    var pendingErasures: seq<Identity>

    /** The values of the device states. */
    ghost var contents: Devices

    ghost predicate Valid()
      reads this`devices, this`contents, devices.Values
    {
      && contents.Keys == devices.Keys
      && (forall id :: id in devices ==> Entry(id, devices[id], contents[id]))
      && Separate(devices)
    }

    ghost predicate Entry(id: Identity, state: StatusAggregatorDeviceState, d: Device)
      reads state
    {
      && d == state.View()
      && state.deviceId.identity == id
      && m.supports(id.deviceType)
      && |state.externalCommandQueue| <= MAX_EXTERNAL_COMMANDS
    }

    static ghost predicate Separate(devices: map<Identity, StatusAggregatorDeviceState>) {
      forall a, b :: a in devices && b in devices && a != b ==> devices[a] != devices[b]
    }

    lemma Lookup(device: DeviceId)
      requires Valid()
      ensures device.identity in devices <==> device.identity in contents
      ensures device.identity in devices ==>
                var state := devices[device.identity];
                && state in devices.Values
                && contents[device.identity] == state.View()
                && state.deviceId.identity == device.identity
                && m.supports(device.identity.deviceType)
                && |state.externalCommandQueue| <= MAX_EXTERNAL_COMMANDS
    {
    }

    lemma OthersDiffer(id: Identity, other: Identity)
      requires Separate(devices) && id in devices && other in devices && id != other
      ensures devices[other] in devices.Values - {devices[id]}
    {
    }

    /** Changing one device state keeps the aggregator valid, once its entry has been brought up to date. */
    twostate lemma Changed(id: Identity)
      requires old(Valid()) && unchanged(this`devices) && id in devices
      requires unchanged(devices.Values - {devices[id]})
      requires |devices[id].externalCommandQueue| <= MAX_EXTERNAL_COMMANDS
      requires contents == old(contents)[id := devices[id].View()]
      ensures Valid()
    {
      hide StatusAggregatorDeviceState.View;
      assert old(Entry(id, devices[id], contents[id]));
      assert Entry(id, devices[id], contents[id]);
      hide Entry;
      forall other | other in devices && other != id ensures Entry(other, devices[other], contents[other]) {
        OthersDiffer(id, other);
        assert old(Entry(other, devices[other], contents[other]));
      }
    }

    /** Nor does a new device state disturb the others. */
    twostate lemma Joined(id: Identity, new state: StatusAggregatorDeviceState)
      requires old(Valid()) && id !in old(devices) && m.supports(id.deviceType) && fresh(state)
      requires devices == old(devices)[id := state] && contents == old(contents)[id := state.View()]
      requires unchanged(old(devices.Values))
      requires state.deviceId.identity == id && |state.externalCommandQueue| <= MAX_EXTERNAL_COMMANDS
      ensures Valid() && devices.Keys == old(devices.Keys) + {id}
      ensures fresh(devices.Values - old(devices.Values))
    {
      hide StatusAggregatorDeviceState.View;
      assert Entry(id, state, contents[id]);
      hide Entry;
      forall other | other in devices && other != id
        ensures Entry(other, devices[other], contents[other]) && devices[other] in old(devices.Values)
      {
        assert old(Entry(other, devices[other], contents[other]));
      }
    }

    constructor (m: Module)
      ensures Valid() && contents == map[] && this.m == m && pendingErasures == []
    {
      this.m := m;
      devices, deviceTimeouts, timeoutedMessageReady, pendingErasures := map[], map[], false, [];
      contents := map[];
    }

    function IsDeviceValid(device: DeviceId): bool
      reads this`devices
    {
      m.supports(device.identity.deviceType) && device.identity in devices
    }

    method ForceAggregationOnDevice(device: DeviceId) returns (r: AddResult)
      requires Valid()
      modifies this`contents, devices.Values
      ensures Valid() && contents == Force(m, old(contents), device)
      ensures r == if IsDeviceValid(device) then Queued(|contents[device.identity].messages|) else Refused(DeviceNotRegistered)
    {
      hide Valid;
      Lookup(device);
      if !IsDeviceValid(device) {
        return Refused(DeviceNotRegistered);
      }
      var state := devices[device.identity];
      state.PushMessage(state.status);
      contents := contents[device.identity := devices[device.identity].View()];
      Changed(device.identity);
      return Queued(|state.aggregatedMessages|);
    }

    /** The no-aggregation timer of a device fires. */
    method TimeoutedForceAggregation(device: DeviceId) returns (r: AddResult)
      requires Valid()
      modifies this`timeoutedMessageReady, this`deviceTimeouts, this`contents, devices.Values
      ensures Valid() && contents == Force(m, old(contents), device)
      ensures timeoutedMessageReady
      ensures deviceTimeouts == old(deviceTimeouts)[device.identity := old(GetDeviceTimeoutCount(device)) + 1]
    {
      hide Valid;
      Lookup(device);
      hide Force;
      timeoutedMessageReady := true;
      deviceTimeouts := deviceTimeouts[device.identity := GetDeviceTimeoutCount(device) + 1];
      r := ForceAggregationOnDevice(device);
    }

    function GetDeviceTimeoutCount(device: DeviceId): nat
      reads this`deviceTimeouts
    {
      Count(deviceTimeouts, device.identity)
    }

    /** The devices are listed in no particular order. */
    method GetUniqueDevices() returns (unique: seq<DeviceId>)
      requires Valid()
      ensures IsRoster(contents, unique)
    {
      unique := [];
      var rest := devices.Keys;
      while rest != {}
        invariant rest <= devices.Keys && Distinct(unique)
        invariant forall device :: device in unique ==>
                    device.identity in contents && contents[device.identity].id == device && device.identity !in rest
        invariant forall id :: id in contents ==> id in rest || contents[id].id in unique
      {
        var id :| id in rest;
        ghost var before := unique;
        assert contents[id].id == devices[id].deviceId;
        unique := unique + [devices[id].deviceId];
        rest := rest - {id};
        assert forall device :: device in unique <==> device in before || device == contents[id].id;
      }
    }

    /** A failed aggregation keeps the current status. */
    method AggregateStatus(current: Buffer, status: Buffer, deviceType: uint32) returns (aggregated: Buffer)
      ensures match m.aggregateStatus(current, status, deviceType)
              case None => aggregated == current
              case Some(buffer) => aggregated == buffer
    {
      var result := m.aggregateStatus(current, status, deviceType);
      if result == None {
        return current;
      }
      return result.value;
    }

    method EmplaceDevice(status: Buffer, device: DeviceId, first: Buffer)
      requires Valid() && device.identity !in devices && m.supports(device.identity.deviceType)
      modifies this`devices, this`contents
      ensures Valid() && devices.Keys == old(devices.Keys) + {device.identity}
      ensures fresh(devices.Values - old(devices.Values))
      ensures contents == old(contents)[device.identity := Register(m, device, status, first).(messages := [])]
    {
      hide Valid;
      Lookup(device);
      var state := new StatusAggregatorDeviceState(device, first, status);
      if m.forwardOnReceive(device.identity.deviceType) {
        state.EnableImmediateCommandForwarding();
      }
      devices := devices[device.identity := state];
      contents := contents[device.identity := state.View()];
      Joined(device.identity, state);
    }

    method RegisterDevice(status: Buffer, device: DeviceId, first: Buffer)
      requires Valid() && device.identity !in devices && m.supports(device.identity.deviceType)
      modifies this`devices, this`contents, devices.Values
      ensures Valid() && fresh(devices.Values - old(devices.Values))
      ensures contents == old(contents)[device.identity := Register(m, device, status, first)]
    {
      hide Valid;
      EmplaceDevice(status, device, first);
      var _ := ForceAggregationOnDevice(device);
      ghost var none: seq<Buffer> := [];
      assert none + [status] == [status];
    }

    /** The two ways of aggregating: a status worth sending is queued as well. */
    method AggregateSetStatus(state: StatusAggregatorDeviceState, status: Buffer, send: bool)
      requires state.deviceId.identity in devices && devices[state.deviceId.identity] == state && Valid()
      requires send == m.sendCondition(state.status, status, state.deviceId.identity.deviceType)
      modifies this`contents, state
      ensures Valid() && contents == old(contents)[state.deviceId.identity := Absorb(m, old(state.View()), status)]
    {
      hide Valid;
      Lookup(state.deviceId);
      var aggregated := AggregateStatus(state.status, status, state.deviceId.identity.deviceType);
      state.SetStatus(aggregated);
      if send {
        state.PushMessage(aggregated);
      }
      contents := contents[state.deviceId.identity := state.View()];
      Changed(state.deviceId.identity);
    }

    method AddStatusToAggregator(status: Buffer, device: DeviceId) returns (r: AddResult)
      requires Valid()
      modifies this`devices, this`contents, this`deviceTimeouts, devices.Values
      ensures Valid() && fresh(devices.Values - old(devices.Values))
      ensures contents == Add(m, old(contents), device, status)
      ensures r == AddOutcome(m, old(contents), device, status)
      ensures r == if !m.supports(device.identity.deviceType) then Refused(DeviceNotSupported)
                   else if device.identity !in contents then Refused(CommandInvalid)
                   else Queued(|contents[device.identity].messages|)
      ensures deviceTimeouts == if m.supports(device.identity.deviceType) then old(deviceTimeouts)[device.identity := 0]
                                else old(deviceTimeouts)
    {
      hide Valid, Absorb, Aggregate;
      Lookup(device);
      var id := device.identity;
      if !m.supports(id.deviceType) {
        return Refused(DeviceNotSupported);
      }
      deviceTimeouts := deviceTimeouts[id := 0];
      if id !in devices {
        var first := m.firstCommand(id.deviceType);
        if first == None {
          return Refused(CommandInvalid);
        }
        RegisterDevice(status, device, first.value);
        return Queued(1);
      }
      var state := devices[id];
      AggregateSetStatus(state, status, m.sendCondition(state.status, status, id.deviceType));
      Lookup(device);
      return Queued(|state.aggregatedMessages|);
    }

    method GetAggregatedStatus(device: DeviceId) returns (rc: Rc, message: Buffer)
      requires Valid()
      modifies this`contents, devices.Values
      ensures Valid() && contents == Pop(m, old(contents), device)
      ensures match Oldest(m, old(contents), device)
              case Some(oldest) => rc == Ok && message == oldest
              case None => message == [] && rc == if IsDeviceValid(device) then NoMessageAvailable else DeviceNotRegistered
    {
      hide Valid;
      Lookup(device);
      if !IsDeviceValid(device) {
        return DeviceNotRegistered, [];
      }
      var state := devices[device.identity];
      if state.aggregatedMessages == [] {
        return NoMessageAvailable, [];
      }
      message := state.PopMessage();
      contents := contents[device.identity := devices[device.identity].View()];
      Changed(device.identity);
      rc := Ok;
    }

    method ClearDevice(device: DeviceId) returns (rc: Rc)
      requires Valid()
      modifies this`contents, devices.Values
      ensures Valid() && contents == Clear(m, old(contents), device)
      ensures rc == if IsDeviceValid(device) then Ok else DeviceNotRegistered
    {
      hide Valid;
      Lookup(device);
      if !IsDeviceValid(device) {
        return DeviceNotRegistered;
      }
      devices[device.identity].ClearMessages();
      contents := contents[device.identity := devices[device.identity].View()];
      Changed(device.identity);
      return Ok;
    }

    /** The messages go at once, the device itself only when an I/O thread gets to it. */
    method RemoveDevice(device: DeviceId) returns (rc: Rc)
      requires Valid()
      modifies this`pendingErasures, this`contents, devices.Values
      ensures Valid() && contents == Clear(m, old(contents), device)
      ensures rc == if IsDeviceValid(device) then Ok else DeviceNotRegistered
      ensures pendingErasures == if rc == Ok then old(pendingErasures) + [device.identity] else old(pendingErasures)
    {
      hide Valid;
      Lookup(device);
      if !IsDeviceValid(device) {
        return DeviceNotRegistered;
      }
      var _ := ClearDevice(device);
      pendingErasures := pendingErasures + [device.identity];
      return Ok;
    }

    /** An I/O thread gets to a posted erasure, which removes the device whatever it is by then. */
    method ErasePosted(id: Identity)
      requires Valid() && id in pendingErasures
      modifies this`pendingErasures, this`devices, this`contents
      ensures Valid() && contents == old(contents) - {id} && devices.Values <= old(devices.Values)
      ensures pendingErasures == Without(old(pendingErasures), id)
    {
      devices := devices - {id};
      contents := contents - {id};
      pendingErasures := Without(pendingErasures, id);
    }

    method UpdateCommand(command: Buffer, device: DeviceId) returns (rc: Rc)
      requires Valid()
      modifies this`contents, devices.Values
      ensures Valid() && contents == Update(m, old(contents), device, command)
      ensures rc == UpdateOutcome(m, old(contents), device, command)
      ensures rc == if !m.supports(device.identity.deviceType) then DeviceNotSupported
                    else if device.identity !in devices then DeviceNotRegistered
                    else if command != [] && m.commandValid(command, device.identity.deviceType) then Ok
                    else CommandInvalid
      ensures rc == Ok ==> contents[device.identity].commands != [] && contents[device.identity].commands[|contents[device.identity].commands| - 1] == command
      ensures rc != Ok ==> contents == old(contents)
    {
      hide Valid;
      Lookup(device);
      var deviceType := device.identity.deviceType;
      if !m.supports(deviceType) {
        return DeviceNotSupported;
      }
      if device.identity !in devices {
        return DeviceNotRegistered;
      }
      if command == [] || !m.commandValid(command, deviceType) {
        return CommandInvalid;
      }
      var _ := devices[device.identity].AddExternalCommand(command);
      contents := contents[device.identity := devices[device.identity].View()];
      Changed(device.identity);
      return Ok;
    }

    /** A supported device has to be registered: the lookup throws otherwise. */
    method GetCommand(status: Buffer, device: DeviceId) returns (rc: Rc, command: Buffer)
      requires Valid() && (m.supports(device.identity.deviceType) ==> device.identity in devices)
      modifies this`contents, devices.Values
      ensures Valid() && contents == Fetch(m, old(contents), device, status)
      ensures rc == if IsDeviceValid(device) then CommandOutcome(m, old(contents)[device.identity], status) else DeviceNotSupported
      ensures rc == Ok ==> Generate(m, old(contents)[device.identity], status) == Some(command)
      ensures IsDeviceValid(device) ==>
                var d, after := old(contents)[device.identity], contents[device.identity];
                if d.commands == [] && d.pushOnly then rc == NoMessageAvailable && contents == old(contents)
                else
                  var base := if d.commands != [] then d.commands[0] else d.command;
                  && after.commands == (if d.commands != [] then d.commands[1..] else [])
                  && match m.generateCommand(status, d.status, base, device.identity.deviceType)
                     case Some(generated) => rc == Ok && command == generated && after.command == generated
                     case None => rc == CommandInvalid && after.command == base
    {
      hide Valid;
      Lookup(device);
      command := [];
      if !m.supports(device.identity.deviceType) {
        return DeviceNotSupported, command;
      }
      var state := devices[device.identity];
      var current := state.ConsumeCommand();
      contents := contents[device.identity := devices[device.identity].View()];
      Changed(device.identity);
      if current == None {
        return NoMessageAvailable, command;
      }
      var generated := m.generateCommand(status, state.status, current.value, device.identity.deviceType);
      if generated == None {
        return CommandInvalid, command;
      }
      command := generated.value;
      state.SetDefaultCommand(command);
      contents := contents[device.identity := devices[device.identity].View()];
      Changed(device.identity);
      return Ok, command;
    }

    method GetCommandForForwarding(device: DeviceId) returns (rc: Rc, command: Buffer)
      requires Valid()
      modifies this`contents, devices.Values
      ensures Valid()
      ensures contents == if IsDeviceValid(device) then Fetch(m, old(contents), device, old(contents)[device.identity].status) else old(contents)
      ensures rc == if IsDeviceValid(device) then CommandOutcome(m, old(contents)[device.identity], old(contents)[device.identity].status)
                    else DeviceNotRegistered
      ensures rc == Ok ==> Generate(m, old(contents)[device.identity], old(contents)[device.identity].status) == Some(command)
    {
      hide Valid;
      Lookup(device);
      if !IsDeviceValid(device) {
        return DeviceNotRegistered, [];
      }
      rc, command := GetCommand(devices[device.identity].status, device);
    }
  }
}
