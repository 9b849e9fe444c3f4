/** The thread of the external client that hands the commands of the server on to the modules. */
module CommandReceiver {
  import opened Common
  import opened AggregatorSpec
  import opened SessionSpec
  import opened StatusAggregator

  class CommandReceiver {
    const aggregators: map<int, Aggregator>
    /** The devices whose commands are to be pushed to them at once. */
    var commandForwardingQueue: seq<DeviceId>

    constructor (aggregators: map<int, Aggregator>)
      ensures this.aggregators == aggregators && commandForwardingQueue == []
    {
      this.aggregators := aggregators;
      commandForwardingQueue := [];
    }

    ghost function Footprint(device: DeviceId): set<object>
      reads aggregators.Values
    {
      if device.identity.moduleNumber in aggregators then
        var a := aggregators[device.identity.moduleNumber];
        {a} + a.devices.Values
      else
        {}
    }

    /**
      A command that its aggregator accepts is announced to the forwarder exactly when its device wants its
      commands at once; one that is empty, or not accepted, goes no further.
     */
    method HandleCommand(command: DeviceCommand)
      requires command.device.identity.moduleNumber in aggregators ==> aggregators[command.device.identity.moduleNumber].Valid()
      modifies `commandForwardingQueue, Footprint(command.device)
      ensures command.device.identity.moduleNumber !in aggregators ==> commandForwardingQueue == old(commandForwardingQueue)
      ensures command.device.identity.moduleNumber in aggregators ==>
                var a, device := aggregators[command.device.identity.moduleNumber], command.device;
                var deviceType := device.identity.deviceType;
                var accepted := && a.m.supports(deviceType) && device.identity in old(a.contents)
                                && command.data != [] && a.m.commandValid(command.data, deviceType);
                && a.Valid()
                && a.contents == Update(a.m, old(a.contents), device, command.data)
                && commandForwardingQueue == old(commandForwardingQueue) +
                     if accepted && a.m.forwardOnReceive(deviceType) then [device] else []
    {
      hide Aggregator.Valid;
      if command.device.identity.moduleNumber !in aggregators {
        return;
      }
      var a := aggregators[command.device.identity.moduleNumber];
      if command.data == [] {
        return;
      }
      var rc := a.UpdateCommand(command.data, command.device);
      if rc == AggregatorSpec.Ok {
        if a.m.forwardOnReceive(command.device.identity.deviceType) {
          commandForwardingQueue := commandForwardingQueue + [command.device];
        }
      }
    }
  }
}
