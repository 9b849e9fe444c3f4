/**
  The module handler: statuses, connects and disconnects of internal clients go in, aggregated statuses go
  out to the external client and responses back to the internal server.
 */
module ModuleHandler {
  import opened Common
  import opened DeviceState
  import opened AggregatorSpec
  import opened StatusAggregator
  import opened HandlerSpec
  import opened TimeoutSpec

  class Handler {
    const aggregators: map<int, Aggregator>
    var toExternalQueue: seq<ExternalItem>
    var toInternalQueue: seq<Reply>

    constructor (aggregators: map<int, Aggregator>)
      ensures this.aggregators == aggregators && toExternalQueue == [] && toInternalQueue == []
    {
      this.aggregators := aggregators;
      toExternalQueue, toInternalQueue := [], [];
    }

    /** Another thread takes the aggregator's lock. */
    method Perform(a: Aggregator, op: Op)
      requires a.Valid() && Foreign(op)
      modifies a`contents, a`timeoutedMessageReady, a`deviceTimeouts, a.devices.Values
      ensures a.Valid() && a.contents == AggregatorSpec.Apply(a.m, State(old(a.contents), map[]), op).devices
      ensures a.deviceTimeouts == CountedOne(old(a.deviceTimeouts), op)
    {
      hide Aggregator.Valid, Force, Update, Fetch;
      match op
      case ForceAggregation(device, timed) =>
        if timed {
          var _ := a.TimeoutedForceAggregation(device);
        } else {
          var _ := a.ForceAggregationOnDevice(device);
        }
      case UpdateCommand(device, command) =>
        var _ := a.UpdateCommand(command, device);
      case TakeCommand(device, status) =>
        a.Lookup(device);
        FetchUnregistered(a.m, a.contents, device, status);
        if device.identity in a.devices {
          var _, _ := a.GetCommand(status, device);
        }
    }

    /** Others take it in between. */
    method Interfere(a: Aggregator, ops: seq<Op>)
      requires a.Valid() && forall op :: op in ops ==> Foreign(op)
      modifies a`contents, a`timeoutedMessageReady, a`deviceTimeouts, a.devices.Values
      ensures a.Valid() && a.contents == Interference(a.m, old(a.contents), ops)
      ensures a.deviceTimeouts == Counted(old(a.deviceTimeouts), ops)
    {
      hide Aggregator.Valid, AggregatorSpec.Apply, CountedOne, Foreign;
      for i := 0 to |ops|
        invariant a.Valid() && a.devices == old(a.devices)
        invariant a.contents == Interference(a.m, old(a.contents), ops[..i])
        invariant a.deviceTimeouts == Counted(old(a.deviceTimeouts), ops[..i])
      {
        assert ops[..i + 1][..i] == ops[..i];
        Perform(a, ops[i]);
      }
      assert ops[..|ops|] == ops;
    }

    lemma FetchUnregistered(m: Module, ds: Devices, device: DeviceId, status: Buffer)
      ensures device.identity !in ds ==> Fetch(m, ds, device, status) == ds
    {
    }

    /** Pops one message and sends it on. The return code of the pop is not looked at. */
    method SendAggregatedStatus(a: Aggregator, device: DeviceId, disconnected: bool)
      requires a.Valid()
      modifies this`toExternalQueue, a`contents, a.devices.Values
      ensures a.Valid() && a.contents == Pop(a.m, old(a.contents), device)
      ensures var message := match Oldest(a.m, old(a.contents), device) case Some(oldest) => oldest case None => [];
              toExternalQueue == old(toExternalQueue) + [ExternalItem(disconnected, DeviceStatus(device, message))]
    {
      hide Aggregator.Valid, Pop, Oldest;
      var _, message := a.GetAggregatedStatus(device);
      toExternalQueue := toExternalQueue + [ExternalItem(disconnected, DeviceStatus(device, message))];
    }

    ghost function Footprint(device: DeviceId): set<object>
      reads aggregators.Values
    {
      if device.identity.moduleNumber in aggregators then
        var a := aggregators[device.identity.moduleNumber];
        {a} + a.devices.Values
      else
        {}
    }

    method HandleStatus(status: DeviceStatus, between: nat -> seq<Op>)
      requires status.device.identity.moduleNumber in aggregators ==> aggregators[status.device.identity.moduleNumber].Valid()
      requires forall k, op :: op in between(k) ==> Foreign(op)
      modifies this, Footprint(status.device)
      ensures status.device.identity.moduleNumber !in aggregators ==> unchanged(this)
      ensures status.device.identity.moduleNumber in aggregators ==>
                var a := aggregators[status.device.identity.moduleNumber];
                a.Valid() && StatusHandled(a, status, between)
    {
      if status.device.identity.moduleNumber !in aggregators {
        return;
      }
      HandleSupportedStatus(aggregators[status.device.identity.moduleNumber], status, between);
    }

    /**
      What handling a status comes to. `between(0)` is what other threads do before the command is fetched,
      `between(k + 1)` what they do before step `k` of the drain. A status that is answered sends exactly
      the messages that were waiting once it had been added, oldest first; what is forced meanwhile stays.
     */
    twostate predicate StatusHandled(a: Aggregator, status: DeviceStatus, between: nat -> seq<Op>)
      reads this, a
    {
      var device, id := status.device, status.device.identity;
      if !IsHandled(a.m, old(a.contents), status) then
        toExternalQueue == old(toExternalQueue) && toInternalQueue == old(toInternalQueue) && a.contents == old(a.contents)
      else
        var added := Add(a.m, old(a.contents), device, status.data);
        var before := Interference(a.m, added, between(0));
        id in added && id in before && id in a.contents &&
        match Answer(a.m, before[id], device, status.data)
        case None =>
          && toExternalQueue == old(toExternalQueue) && toInternalQueue == old(toInternalQueue)
          && a.contents == Fetch(a.m, before, device, status.data)
        case Some(reply) =>
          var n := |added[id].messages|;
          && toInternalQueue == old(toInternalQueue) + [reply]
          && toExternalQueue == old(toExternalQueue) + Items(device, added[id].messages)
          && a.contents[id].messages == Repeat(added[id].status, TotalForces(between, n, id))
    }

    static function TotalForces(between: nat -> seq<Op>, n: nat, id: Identity): nat {
      Forces(between(n), id) + if n == 0 then 0 else TotalForces(between, n - 1, id)
    }

    method HandleSupportedStatus(a: Aggregator, status: DeviceStatus, between: nat -> seq<Op>)
      requires a.Valid()
      requires forall k, op :: op in between(k) ==> Foreign(op)
      modifies this, a, a.devices.Values
      ensures a.Valid() && StatusHandled(a, status, between)
    {
      hide Aggregator.Valid, Add, AddOutcome, Interference, Fetch, CommandOutcome, Generate, Answer, Foreign, Repeat, Items, Forces;
      var device, id := status.device, status.device.identity;
      if !a.m.statusValid(status.data, id.deviceType) {
        return;
      }
      var r := a.AddStatusToAggregator(status.data, device);
      AddRegisters(a.m, old(a.contents), device, status.data);
      if r.Refused? {
        return;
      }
      ghost var added := a.contents[id];
      InterferenceOnlyAppends(a.m, a.contents, between(0), id);
      Interfere(a, between(0));
      a.Lookup(device);
      FetchKeepsMessages(a.m, a.contents, device, status.data);
      ghost var asked := a.contents[id];
      var rc, command := a.GetCommand(status.data, device);
      AnswerIs(a.m, asked, device, status.data, rc, command);
      a.Lookup(device);
      if rc == Ok {
        toInternalQueue := toInternalQueue + [CommandReply(device, command)];
      } else if rc == NoMessageAvailable {
        toInternalQueue := toInternalQueue + [CommandReply(device, [])];
      } else {
        return;
      }
      Drain(a, device, r.count, added.messages, Forces(between(0), id), between);
    }

    lemma AddRegisters(m: Module, ds: Devices, device: DeviceId, status: Buffer)
      ensures match AddOutcome(m, ds, device, status)
              case Refused(_) => Add(m, ds, device, status) == ds
              case Queued(n) => && m.supports(device.identity.deviceType)
                                && device.identity in Add(m, ds, device, status)
                                && n == |Add(m, ds, device, status)[device.identity].messages|
    {
    }

    lemma FetchKeepsMessages(m: Module, ds: Devices, device: DeviceId, status: Buffer)
      requires Registered(m, ds, device)
      ensures var after := Fetch(m, ds, device, status);
              && device.identity in after
              && after[device.identity].messages == ds[device.identity].messages
              && after[device.identity].status == ds[device.identity].status
    {
    }

    lemma PopsOldest(m: Module, ds: Devices, device: DeviceId)
      requires Registered(m, ds, device) && ds[device.identity].messages != []
      ensures Oldest(m, ds, device) == Some(ds[device.identity].messages[0])
      ensures var after := Pop(m, ds, device);
              && device.identity in after
              && after[device.identity].messages == ds[device.identity].messages[1..]
              && after[device.identity].status == ds[device.identity].status
    {
    }

    /** One round of the drain: others interfere, then the oldest message is sent. */
    method DrainStep(a: Aggregator, device: DeviceId, ops: seq<Op>, ghost oldest: Buffer, ghost rest: seq<Buffer>)
      requires a.Valid() && Registered(a.m, a.contents, device)
      requires forall op :: op in ops ==> Foreign(op)
      requires a.contents[device.identity].messages == [oldest] + rest
      modifies this`toExternalQueue, a`contents, a`timeoutedMessageReady, a`deviceTimeouts, a.devices.Values
      ensures a.Valid() && Registered(a.m, a.contents, device)
      ensures toExternalQueue == old(toExternalQueue) + [ExternalItem(false, DeviceStatus(device, oldest))]
      ensures a.contents[device.identity].status == old(a.contents[device.identity].status)
      ensures a.contents[device.identity].messages
           == rest + Repeat(old(a.contents[device.identity].status), Forces(ops, device.identity))
    {
      hide Aggregator.Valid, Interference, Pop, Oldest, Foreign, Repeat, Forces;
      InterferenceOnlyAppends(a.m, a.contents, ops, device.identity);
      Interfere(a, ops);
      PopsOldest(a.m, a.contents, device);
      SendAggregatedStatus(a, device, false);
    }

    /** The loop that sends as many messages as the adding of the status has counted. */
    method Drain(a: Aggregator, device: DeviceId, count: nat, ghost waiting: seq<Buffer>, ghost forced: nat,
                 between: nat -> seq<Op>)
      requires a.Valid() && Registered(a.m, a.contents, device)
      requires forall k, op :: op in between(k) ==> Foreign(op)
      requires count == |waiting|
      requires forced == Forces(between(0), device.identity)
      requires a.contents[device.identity].messages == waiting + Repeat(a.contents[device.identity].status, forced)
      modifies this`toExternalQueue, a`contents, a`timeoutedMessageReady, a`deviceTimeouts, a.devices.Values
      ensures a.Valid() && device.identity in a.contents
      ensures toExternalQueue == old(toExternalQueue) + Items(device, waiting)
      ensures a.contents[device.identity].messages
           == Repeat(old(a.contents[device.identity].status), TotalForces(between, count, device.identity))
    {
      hide Aggregator.Valid, Items, Repeat, Foreign, Registered, Forces, TotalForces;
      var id := device.identity;
      RegisteredIsPresent(a.m, a.contents, device);
      var left: int := count;
      ghost var status := a.contents[id].status;
      ghost var k, queued := 0, Repeat(status, forced);
      ItemsSnoc(device, waiting, 0);
      TotalForcesNext(between, 0, id);
      while left > 0
        invariant 0 <= left && k == count - left <= count
        invariant a.Valid() && a.devices == old(a.devices) && Registered(a.m, a.contents, device) && id in a.contents
        invariant a.contents[id].status == status
        invariant queued == Repeat(status, TotalForces(between, k, id))
        invariant toExternalQueue == old(toExternalQueue) + Items(device, waiting[..k])
        invariant a.contents[id].messages == waiting[k..] + queued
      {
        ghost var ticks := Forces(between(k + 1), id);
        ItemsSnoc(device, waiting, k);
        TotalForcesNext(between, k, id);
        RepeatSum(status, TotalForces(between, k, id), ticks);
        FrontAndBack(waiting, k, queued, Repeat(status, ticks));
        DrainStep(a, device, between(count - left + 1), waiting[k], waiting[k + 1..] + queued);
        RegisteredIsPresent(a.m, a.contents, device);
        queued := queued + Repeat(status, ticks);
        left, k := left - 1, k + 1;
      }
      assert waiting[..count] == waiting && waiting[count..] + queued == queued;
    }

    lemma FrontAndBack(waiting: seq<Buffer>, k: nat, queued: seq<Buffer>, more: seq<Buffer>)
      requires k < |waiting|
      ensures waiting[k..] + queued == [waiting[k]] + (waiting[k + 1..] + queued)
      ensures waiting[k + 1..] + queued + more == waiting[k + 1..] + (queued + more)
    {
    }

    lemma TotalForcesNext(between: nat -> seq<Op>, k: nat, id: Identity)
      ensures TotalForces(between, 0, id) == Forces(between(0), id)
      ensures TotalForces(between, k + 1, id) == TotalForces(between, k, id) + Forces(between(k + 1), id)
    {
    }

    lemma ItemsSnoc(device: DeviceId, messages: seq<Buffer>, k: nat)
      requires k <= |messages|
      ensures k == 0 ==> Items(device, messages[..k]) == []
      ensures k < |messages| ==>
                Items(device, messages[..k + 1]) == Items(device, messages[..k]) + [ExternalItem(false, DeviceStatus(device, messages[k]))]
    {
    }

    method HandleConnect(device: DeviceId)
      modifies this`toInternalQueue
      ensures var verdict := if device.identity.moduleNumber !in aggregators then ModuleNotSupported
                             else if !aggregators[device.identity.moduleNumber].m.supports(device.identity.deviceType) then TypeNotSupported
                             else ConnectOk;
              toInternalQueue == old(toInternalQueue) + [ConnectReply(device, verdict)]
    {
      var verdict := ConnectOk;
      if device.identity.moduleNumber !in aggregators {
        verdict := ModuleNotSupported;
      } else if !aggregators[device.identity.moduleNumber].m.supports(device.identity.deviceType) {
        verdict := TypeNotSupported;
      }
      toInternalQueue := toInternalQueue + [ConnectReply(device, verdict)];
    }

    /** Other threads take the lock, and a posted erasure may be done. */
    method InterfereOnce(a: Aggregator, op: Op)
      requires a.Valid() && Outside(op) && (op.EraseDevice? ==> op.identity in a.pendingErasures)
      modifies a, a.devices.Values
      ensures a.Valid() && a.devices.Values <= old(a.devices.Values)
      ensures a.contents == AggregatorSpec.Apply(a.m, State(old(a.contents), map[]), op).devices
      ensures a.pendingErasures == if op.EraseDevice? then Without(old(a.pendingErasures), op.identity) else old(a.pendingErasures)
    {
      hide Aggregator.Valid, Interference, Force, Update, Fetch, Without;
      if op.EraseDevice? {
        a.ErasePosted(op.identity);
      } else {
        Perform(a, op);
      }
    }

    method InterfereErasing(a: Aggregator, ops: seq<Op>)
      requires a.Valid() && Possible(a.pendingErasures, ops)
      modifies a, a.devices.Values
      ensures a.Valid() && a.devices.Values <= old(a.devices.Values)
      ensures a.contents == Interference(a.m, old(a.contents), ops) && a.pendingErasures == Pending(old(a.pendingErasures), ops)
    {
      hide Aggregator.Valid, AggregatorSpec.Apply, Without, Outside;
      for i := 0 to |ops|
        invariant a.Valid() && a.devices.Values <= old(a.devices.Values)
        invariant a.contents == Interference(a.m, old(a.contents), ops[..i])
        invariant a.pendingErasures == Pending(old(a.pendingErasures), ops[..i])
      {
        assert ops[..i + 1][..i] == ops[..i];
        InterfereOnce(a, ops[i]);
      }
      assert ops[..|ops|] == ops;
    }

    /** What other threads do before each of the three steps of a disconnect. */
    ghost predicate PossibleThroughout(pending: seq<Identity>, between: nat -> seq<Op>) {
      && Possible(pending, between(0))
      && Possible(Pending(pending, between(0)), between(1))
      && Possible(Pending(Pending(pending, between(0)), between(1)), between(2))
    }

    /**
      A device that goes has its current status queued once more, but only the oldest of its messages is sent;
      the others are dropped with it. An erasure posted by an earlier disconnect may come in between.
     */
    method HandleDisconnect(device: DeviceId, between: nat -> seq<Op>)
      requires device.identity.moduleNumber in aggregators ==>
                 var a := aggregators[device.identity.moduleNumber]; a.Valid() && PossibleThroughout(a.pendingErasures, between)
      modifies this`toExternalQueue, Footprint(device)
      ensures device.identity.moduleNumber in aggregators ==>
                var a := aggregators[device.identity.moduleNumber];
                && a.Valid()
                && if !Registered(a.m, old(a.contents), device) then
                     toExternalQueue == old(toExternalQueue) && a.contents == old(a.contents)
                     && a.pendingErasures == old(a.pendingErasures)
                   else
                     var r := Depart(a.m, old(a.contents), old(a.pendingErasures), device, between);
                     && toExternalQueue == old(toExternalQueue) +
                          (match r.sent case Some(message) => [ExternalItem(true, DeviceStatus(device, message))] case None => [])
                     && a.contents == r.devices && a.pendingErasures == r.pending
      ensures device.identity.moduleNumber !in aggregators ==> toExternalQueue == old(toExternalQueue)
    {
      hide Aggregator.Valid, Interference, Force, Pop, Oldest, Clear, Pending, Possible;
      if device.identity.moduleNumber !in aggregators {
        return;
      }
      var a := aggregators[device.identity.moduleNumber];
      a.Lookup(device);
      if !a.IsDeviceValid(device) {
        return;
      }
      InterfereErasing(a, between(0));
      a.Lookup(device);
      var r := a.ForceAggregationOnDevice(device);
      if r.Refused? {
        ForceRefused(a.m, Interference(a.m, old(a.contents), between(0)), device);
        return;
      }
      InterfereErasing(a, between(1));
      SendAggregatedStatus(a, device, true);
      InterfereErasing(a, between(2));
      a.Lookup(device);
      var _ := a.RemoveDevice(device);
    }

    lemma ForceRefused(m: Module, ds: Devices, device: DeviceId)
      ensures !Registered(m, ds, device) ==> Force(m, ds, device) == ds
    {
    }

    /** A command is pushed to the device as soon as it is received, unless a status has fetched it already. */
    method HandleCommandForward(device: DeviceId)
      requires device.identity.moduleNumber in aggregators ==> aggregators[device.identity.moduleNumber].Valid()
      modifies this`toInternalQueue, Footprint(device)
      ensures device.identity.moduleNumber !in aggregators ==> toInternalQueue == old(toInternalQueue)
      ensures device.identity.moduleNumber in aggregators ==>
                var a := aggregators[device.identity.moduleNumber];
                && a.Valid()
                && if !Registered(a.m, old(a.contents), device) then
                     a.contents == old(a.contents) && toInternalQueue == old(toInternalQueue)
                   else
                     var d := old(a.contents)[device.identity];
                     && a.contents == Fetch(a.m, old(a.contents), device, d.status)
                     && toInternalQueue == old(toInternalQueue) + Forwarded(a.m, d, device)
    {
      hide Aggregator.Valid, Fetch, Generate, CommandOutcome, Forwarded;
      if device.identity.moduleNumber !in aggregators {
        return;
      }
      var a := aggregators[device.identity.moduleNumber];
      a.Lookup(device);
      ghost var ds := a.contents;
      var rc, command := a.GetCommandForForwarding(device);
      if Registered(a.m, ds, device) {
        ForwardedIs(a.m, ds[device.identity], device, rc, command);
      }
      if rc == Ok {
        toInternalQueue := toInternalQueue + [CommandReply(device, command)];
      }
    }

    /** Sends whatever is waiting for one device, oldest first, and what is queued meanwhile. */
    method SendWaiting(a: Aggregator, device: DeviceId, between: seq<seq<Op>>)
      requires a.Valid() && forall ops, op :: ops in between && op in ops ==> Foreign(op)
      modifies this`toExternalQueue, a`contents, a`timeoutedMessageReady, a`deviceTimeouts, a.devices.Values
      ensures a.Valid()
      ensures var r := DrainDevice(a.m, old(a.contents), device, between);
              && a.contents == r.devices && toExternalQueue == old(toExternalQueue) + Items(device, r.sent)
              && a.deviceTimeouts == Counted(old(a.deviceTimeouts), r.ops)
    {
      hide Aggregator.Valid, Items, Pop, Oldest, Interference, Foreign, Waiting, DrainDevice, Turn, Counted;
      ghost var all := DrainDevice(a.m, a.contents, device, between);
      ghost var sent: seq<Buffer> := [];
      var rest := between;
      var more := true;
      ItemsSnoc(device, sent, 0);
      assert [] + all.sent == all.sent;
      while more
        invariant a.Valid() && a.devices == old(a.devices)
        invariant forall ops :: ops in rest ==> ops in between
        invariant if more then
                    var left := DrainDevice(a.m, a.contents, device, rest);
                    && left.devices == all.devices && sent + left.sent == all.sent
                    && Counted(a.deviceTimeouts, left.ops) == Counted(old(a.deviceTimeouts), all.ops)
                  else
                    && a.contents == all.devices && sent == all.sent
                    && a.deviceTimeouts == Counted(old(a.deviceTimeouts), all.ops)
        invariant toExternalQueue == old(toExternalQueue) + Items(device, sent)
        decreases more, |rest|, |Waiting(a.m, a.contents, device)|
      {
        DrainUnfolds(a.m, a.contents, device, rest);
        ghost var left := DrainDevice(a.m, a.contents, device, rest);
        TurnIsIn(rest);
        ghost var message := Oldest(a.m, Interference(a.m, a.contents, Turn(rest)), device);
        ghost var timeouts := a.deviceTimeouts;
        more := SendOldest(a, device, Turn(rest));
        rest := LaterTurns(rest);
        if more {
          CountedAppend(timeouts, left.ops[..|left.ops| - |DrainDevice(a.m, a.contents, device, rest).ops|],
                        DrainDevice(a.m, a.contents, device, rest).ops);
          ItemsSnocOne(device, sent, message.value);
          assert sent + ([message.value] + left.sent[1..]) == (sent + [message.value]) + left.sent[1..];
          sent := sent + [message.value];
        } else {
          assert sent + [] == sent;
        }
      }
    }

    lemma TurnIsIn(between: seq<seq<Op>>)
      ensures forall op :: op in Turn(between) ==> between != [] && Turn(between) in between
    {
    }

    lemma ItemsSnocOne(device: DeviceId, messages: seq<Buffer>, message: Buffer)
      ensures Items(device, messages + [message]) == Items(device, messages) + [ExternalItem(false, DeviceStatus(device, message))]
    {
    }

    /** Others have a turn, then the oldest message is sent, if there is one. */
    method SendOldest(a: Aggregator, device: DeviceId, ops: seq<Op>) returns (sent: bool)
      requires a.Valid() && forall op :: op in ops ==> Foreign(op)
      modifies this`toExternalQueue, a`contents, a`timeoutedMessageReady, a`deviceTimeouts, a.devices.Values
      ensures a.Valid()
      ensures var before := Interference(a.m, old(a.contents), ops);
              && a.contents == Pop(a.m, before, device)
              && match Oldest(a.m, before, device)
                 case None => !sent && toExternalQueue == old(toExternalQueue)
                 case Some(message) =>
                   sent && toExternalQueue == old(toExternalQueue) + [ExternalItem(false, DeviceStatus(device, message))]
      ensures a.deviceTimeouts == Counted(old(a.deviceTimeouts), ops)
    {
      hide Aggregator.Valid, Pop, Oldest, Interference, Foreign, Counted;
      Interfere(a, ops);
      var rc, message := a.GetAggregatedStatus(device);
      if rc != Ok {
        return false;
      }
      toExternalQueue := toExternalQueue + [ExternalItem(false, DeviceStatus(device, message))];
      return true;
    }

    /**
      Once a timer has fired for a module, everything waiting for its devices is sent, and those that have been
      silent for too long are told to go. The listing of the devices is returned for the specification only.
     */
    method CheckTimeoutedMessages(a: Aggregator, w: Meanwhile) returns (ghost unique: seq<DeviceId>)
      requires a.Valid() && AlwaysForeign(w)
      modifies this, a`contents, a`timeoutedMessageReady, a`deviceTimeouts, a.devices.Values
      ensures a.Valid() && !a.timeoutedMessageReady
      ensures if !old(a.timeoutedMessageReady) then
                unchanged(this) && a.contents == old(a.contents) && a.deviceTimeouts == old(a.deviceTimeouts)
              else
                var r := Check(a.m, old(a.contents), old(a.deviceTimeouts), unique, w);
                && IsRoster(old(a.contents), unique)
                && toExternalQueue == old(toExternalQueue) + r.sent
                && toInternalQueue == old(toInternalQueue) + r.told
                && a.contents == r.devices
                && a.deviceTimeouts == Counted(old(a.deviceTimeouts), r.ops)
    {
      hide Aggregator.Valid, Check, AlwaysForeign, Counted, IsRoster;
      if !a.timeoutedMessageReady {
        return [];
      }
      var devices := a.GetUniqueDevices();
      unique := devices;
      CheckDevices(a, devices, w);
      a.timeoutedMessageReady := false;
    }

    method CheckDevices(a: Aggregator, unique: seq<DeviceId>, w: Meanwhile)
      requires a.Valid() && AlwaysForeign(w)
      modifies this, a`contents, a`timeoutedMessageReady, a`deviceTimeouts, a.devices.Values
      ensures a.Valid()
      ensures var r := Check(a.m, old(a.contents), old(a.deviceTimeouts), unique, w);
              && a.contents == r.devices && a.deviceTimeouts == Counted(old(a.deviceTimeouts), r.ops)
              && toExternalQueue == old(toExternalQueue) + r.sent
              && toInternalQueue == old(toInternalQueue) + r.told
    {
      hide Aggregator.Valid, Items, DrainDevice, Foreign, ToldToGo, Counted, Interference, AlwaysForeign, AllForeign;
      ghost var ds, timeouts, sent, told := a.contents, a.deviceTimeouts, toExternalQueue, toInternalQueue;
      CountedNone(timeouts);
      for i := 0 to |unique|
        invariant a.Valid() && a.devices == old(a.devices)
        invariant a.contents == Check(a.m, ds, timeouts, unique[..i], w).devices
        invariant a.deviceTimeouts == Counted(timeouts, Check(a.m, ds, timeouts, unique[..i], w).ops)
        invariant toExternalQueue == sent + Check(a.m, ds, timeouts, unique[..i], w).sent
        invariant toInternalQueue == told + Check(a.m, ds, timeouts, unique[..i], w).told
      {
        assert unique[..i + 1][..i] == unique[..i];
        ForeignAt(w, i);
        ghost var before := Check(a.m, ds, timeouts, unique[..i], w);
        ghost var ops := DrainDevice(a.m, a.contents, unique[i], w.between(i)).ops;
        CountedAppend(timeouts, before.ops, ops + w.late(i));
        assert before.ops + ops + w.late(i) == before.ops + (ops + w.late(i));
        CheckDevice(a, unique[i], w.between(i), w.late(i));
      }
      assert unique[..|unique|] == unique;
    }

    lemma CountedNone(timeouts: map<Identity, nat>)
      ensures Counted(timeouts, []) == timeouts
    {
    }

    /** One device: its messages are sent, others have a turn, and then its timeouts are looked at. */
    method CheckDevice(a: Aggregator, device: DeviceId, between: seq<seq<Op>>, late: seq<Op>)
      requires a.Valid() && AllForeign(between) && forall op :: op in late ==> Foreign(op)
      modifies this, a`contents, a`timeoutedMessageReady, a`deviceTimeouts, a.devices.Values
      ensures a.Valid()
      ensures var r := DrainDevice(a.m, old(a.contents), device, between);
              && a.contents == Interference(a.m, r.devices, late) && a.deviceTimeouts == Counted(old(a.deviceTimeouts), r.ops + late)
              && toExternalQueue == old(toExternalQueue) + Items(device, r.sent)
      ensures toInternalQueue == old(toInternalQueue) + ToldToGo(a.deviceTimeouts, device)
    {
      hide Aggregator.Valid, Items, DrainDevice, Foreign, Counted, Interference;
      CountedAppend(a.deviceTimeouts, DrainDevice(a.m, a.contents, device, between).ops, late);
      SendWaiting(a, device, between);
      Interfere(a, late);
      if a.GetDeviceTimeoutCount(device) >= STATUS_AGGREGATION_TIMEOUT_MAX_COUNT {
        toInternalQueue := toInternalQueue + [DisconnectReply(device)];
      }
    }
  }
}
