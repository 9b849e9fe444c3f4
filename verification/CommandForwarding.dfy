/**
  The three threads that touch the command queue of a push-only device: the receiver of external commands,
  the handler of statuses and the forwarder of commands. Every interleaving of their steps.
 */
module CommandForwarding {
  import opened Common
  import opened DeviceState
  import opened AggregatorSpec

  type Library = int -> Module

  datatype World = World(
    devices: Devices,
    /** The queue of forward events. */
    events: seq<DeviceId>,
    /** The event at the front has been served but not removed. */
    served: bool,
    /** The receiver has had a command accepted and has not pushed its event. */
    unannounced: Option<DeviceId>)

  datatype Step =
    | Receive(device: DeviceId, command: Buffer)
    | Announce
    | ServeStatus(device: DeviceId, status: Buffer)
    | ServeEvent
    | RemoveEvent
    | Aggregator(op: Op)

  /** The rest of the aggregator's life: no commands. */
  predicate Bystander(op: Op) {
    !op.UpdateCommand? && !op.TakeCommand?
  }

  const INITIAL := World(map[], [], false, None)

  predicate Enabled(w: World, step: Step) {
    match step
    case Receive(_, _) => w.unannounced == None
    case Announce => w.unannounced.Some?
    case ServeStatus(device, _) => device.identity in w.devices
    case ServeEvent => w.events != [] && !w.served
    case RemoveEvent => w.events != [] && w.served
    case Aggregator(op) => Bystander(op)
  }

  function Of(lib: Library, id: Identity): Module {
    lib(id.moduleNumber)
  }

  function Apply(lib: Library, w: World, step: Step): World
    requires Enabled(w, step)
  {
    match step
    case Receive(device, command) =>
      var m := Of(lib, device.identity);
      if UpdateOutcome(m, w.devices, device, command) != Ok then w
      else w.(devices := Update(m, w.devices, device, command),
              unannounced := if m.forwardOnReceive(device.identity.deviceType) then Some(device) else None)
    case Announce => w.(events := w.events + [w.unannounced.value], unannounced := None)
    case ServeStatus(device, status) => w.(devices := Fetch(Of(lib, device.identity), w.devices, device, status))
    case ServeEvent =>
      var device := w.events[0];
      if !Registered(Of(lib, device.identity), w.devices, device) then
        w.(served := true)
      else
        w.(devices := Fetch(Of(lib, device.identity), w.devices, device, w.devices[device.identity].status), served := true)
    case RemoveEvent => w.(events := w.events[1..], served := false)
    case Aggregator(op) => w.(devices := AggregatorSpec.Apply(Of(lib, Target(op)), State(w.devices, map[]), op).devices)
  }

  function Run(lib: Library, steps: seq<Step>): World {
    if steps == [] then
      INITIAL
    else
      var w := Run(lib, steps[..|steps| - 1]);
      if Enabled(w, steps[|steps| - 1]) then Apply(lib, w, steps[|steps| - 1]) else w
  }

  function Queued(w: World, id: Identity): nat {
    if id in w.devices then |w.devices[id].commands| else 0
  }

  function Count(events: seq<DeviceId>, id: Identity): nat {
    if events == [] then 0 else (if events[0].identity == id then 1 else 0) + Count(events[1..], id)
  }

  /** The events that will still make the forwarder look at the device's queue, and the one about to be pushed. */
  function Outstanding(w: World, id: Identity): nat {
    Count(if w.served && w.events != [] then w.events[1..] else w.events, id)
    + if w.unannounced.Some? && w.unannounced.value.identity == id then 1 else 0
  }

  predicate PushOnly(lib: Library, id: Identity) {
    Of(lib, id).forwardOnReceive(id.deviceType)
  }

  ghost predicate Inv(lib: Library, w: World) {
    && (w.served ==> w.events != [])
    && (forall id :: id in w.devices ==> Of(lib, id).supports(id.deviceType))
    && (forall id :: PushOnly(lib, id) ==> Queued(w, id) <= Outstanding(w, id))
  }

  lemma {:induction false} CountAppend(events: seq<DeviceId>, device: DeviceId, id: Identity)
    ensures Count(events + [device], id) == Count(events, id) + if device.identity == id then 1 else 0
    decreases |events|
  {
    if events != [] {
      assert (events + [device])[1..] == events[1..] + [device];
      CountAppend(events[1..], device, id);
    }
  }

  /** A command of a device is offered to its queue; the other queues stay. */
  lemma UpdateQueue(m: Module, ds: Devices, device: DeviceId, command: Buffer, id: Identity)
    ensures var after := Update(m, ds, device, command);
            && after.Keys == ds.Keys
            && (id in ds ==>
                  after[id].commands == if device.identity == id && UpdateOutcome(m, ds, device, command) == Ok
                                        then Newest(ds[id].commands + [command]) else ds[id].commands)
  {
  }

  /** A fetch takes the oldest command of its device. */
  lemma FetchQueue(m: Module, ds: Devices, device: DeviceId, status: Buffer, id: Identity)
    ensures var after := Fetch(m, ds, device, status);
            && after.Keys == ds.Keys
            && (id in ds ==>
                  var before := ds[id].commands;
                  after[id].commands == if device.identity == id && Registered(m, ds, device) && before != [] then before[1..]
                                        else before)
  {
  }

  /** The rest of the aggregator's life leaves the queues alone, and a new device has an empty one. */
  lemma BystanderQueue(m: Module, ds: Devices, op: Op, id: Identity)
    requires Bystander(op)
    ensures var after := AggregatorSpec.Apply(m, State(ds, map[]), op).devices;
            && (id in after && id in ds ==> after[id].commands == ds[id].commands)
            && (id in after && id !in ds ==> after[id].commands == [] && Target(op) == id && m.supports(id.deviceType))
  {
    match op
    case AddStatus(device, status) => AddQueue(m, ds, device, status, id);
    case _ =>
  }

  lemma AddQueue(m: Module, ds: Devices, device: DeviceId, status: Buffer, id: Identity)
    ensures var after := Add(m, ds, device, status);
            && (id in after && id in ds ==> after[id].commands == ds[id].commands)
            && (id in after && id !in ds ==> after[id].commands == [] && device.identity == id && m.supports(id.deviceType))
  {
    hide Aggregate;
  }

  /** What one step means for the command queue of a device. */
  function Meaning(lib: Library, w: World, step: Step, id: Identity): Option<CommandStep>
    requires Enabled(w, step)
  {
    match step
    case Receive(device, command) =>
      if device.identity == id && UpdateOutcome(Of(lib, id), w.devices, device, command) == Ok then Some(Accept(command)) else None
    case ServeStatus(device, _) =>
      if device.identity == id && Registered(Of(lib, id), w.devices, device) then Some(Take) else None
    case ServeEvent =>
      if w.events[0].identity == id && Registered(Of(lib, id), w.devices, w.events[0]) then Some(Take) else None
    case _ => None
  }

  /** What one step does to the queue of one device. */
  lemma QueueStep(lib: Library, w: World, step: Step, id: Identity)
    requires Enabled(w, step) && id in Apply(lib, w, step).devices
    ensures var after := Apply(lib, w, step).devices[id].commands;
            if id !in w.devices then after == [] && Of(lib, id).supports(id.deviceType)
            else
              var before := w.devices[id].commands;
              match Meaning(lib, w, step, id)
              case Some(Accept(command)) => after == Newest(before + [command])
              case Some(Take) => after == if before == [] then [] else before[1..]
              case None => after == before
  {
    hide Fetch, Update, AggregatorSpec.Apply, UpdateOutcome, Registered;
    match step
    case Receive(device, command) => UpdateQueue(Of(lib, device.identity), w.devices, device, command, id);
    case ServeStatus(device, status) => FetchQueue(Of(lib, device.identity), w.devices, device, status, id);
    case ServeEvent =>
      if Registered(Of(lib, w.events[0].identity), w.devices, w.events[0]) {
        RegisteredIsPresent(Of(lib, w.events[0].identity), w.devices, w.events[0]);
        FetchQueue(Of(lib, w.events[0].identity), w.devices, w.events[0], w.devices[w.events[0].identity].status, id);
      }
    case Aggregator(op) => BystanderQueue(Of(lib, Target(op)), w.devices, op, id);
    case _ =>
  }

  /** And to the number of commands in it. */
  lemma QueuedStep(lib: Library, w: World, step: Step, id: Identity)
    requires Inv(lib, w) && Enabled(w, step)
    ensures var v := Apply(lib, w, step);
            && (id in v.devices ==> Of(lib, id).supports(id.deviceType))
            && match step
               case Receive(device, _) =>
                 Queued(v, id) <= Queued(w, id) + if device.identity == id && v != w then 1 else 0
               case ServeEvent =>
                 Queued(v, id) <= if w.events[0].identity == id && Queued(w, id) > 0 then Queued(w, id) - 1 else Queued(w, id)
               case _ => Queued(v, id) <= Queued(w, id)
  {
    hide Fetch, Update, AggregatorSpec.Apply, UpdateOutcome;
    if id in Apply(lib, w, step).devices {
      QueueStep(lib, w, step, id);
    }
  }

  lemma StepKeepsInv(lib: Library, w: World, step: Step)
    requires Inv(lib, w) && Enabled(w, step)
    ensures Inv(lib, Apply(lib, w, step))
  {
    hide Fetch, Update, AggregatorSpec.Apply, UpdateOutcome, Queued, Registered;
    var v := Apply(lib, w, step);
    forall id ensures (id in v.devices ==> Of(lib, id).supports(id.deviceType)) && (PushOnly(lib, id) ==> Queued(v, id) <= Outstanding(v, id)) {
      QueuedStep(lib, w, step, id);
      if step.Announce? {
        CountAppend(w.events, w.unannounced.value, id);
        if w.served {
          assert v.events[1..] == w.events[1..] + [w.unannounced.value];
          CountAppend(w.events[1..], w.unannounced.value, id);
        }
      }
    }
  }

  lemma {:induction false} RunKeepsInv(lib: Library, steps: seq<Step>)
    ensures Inv(lib, Run(lib, steps))
    decreases |steps|
  {
    hide Inv, Apply;
    if steps == [] {
      InitialInv(lib);
    } else {
      var init, step := steps[..|steps| - 1], steps[|steps| - 1];
      RunKeepsInv(lib, init);
      if Enabled(Run(lib, init), step) {
        StepKeepsInv(lib, Run(lib, init), step);
      }
    }
  }

  lemma InitialInv(lib: Library)
    ensures Inv(lib, INITIAL)
  {
  }

  /**
    In every interleaving, a push-only device has no more commands waiting than there are events to serve
    them; so once all events have been served, none is stranded.
   */
  lemma NoStrandedCommand(lib: Library, steps: seq<Step>, id: Identity)
    requires PushOnly(lib, id)
    ensures var w := Run(lib, steps);
            && Queued(w, id) <= Outstanding(w, id)
            && (w.events == [] && w.unannounced == None ==> Queued(w, id) == 0)
  {
    RunKeepsInv(lib, steps);
  }

  // What becomes of each command.

  /** The life of a device's command queue since the device was last registered, as a run shows it. */
  function LifeOf(lib: Library, steps: seq<Step>, id: Identity): seq<CommandStep> {
    if steps == [] then []
    else
      var w, step := Run(lib, steps[..|steps| - 1]), steps[|steps| - 1];
      var before := LifeOf(lib, steps[..|steps| - 1], id);
      if !Enabled(w, step) then before
      else if id !in w.devices then []
      else match Meaning(lib, w, step, id)
        case Some(meaning) => before + [meaning]
        case None => before
  }

  const FRESH := Device(DeviceId(Identity(0, 0, ""), "", 0), [], [], [], [], false)

  lemma PlayNext(steps: seq<CommandStep>, step: CommandStep)
    ensures var before, after := Play(FRESH, steps).device.commands, Play(FRESH, steps + [step]).device.commands;
            match step
            case Accept(command) => after == Newest(before + [command])
            case Take => after == if before == [] then [] else before[1..]
  {
    assert (steps + [step])[..|steps|] == steps;
  }

  lemma {:induction false} QueueFollowsLife(lib: Library, steps: seq<Step>, id: Identity)
    ensures var w := Run(lib, steps);
            id in w.devices ==> w.devices[id].commands == Play(FRESH, LifeOf(lib, steps, id)).device.commands
    decreases |steps|
  {
    hide Apply, Enabled, Meaning, PlayStep;
    if steps != [] {
      var init, step := steps[..|steps| - 1], steps[|steps| - 1];
      QueueFollowsLife(lib, init, id);
      var w := Run(lib, init);
      if Enabled(w, step) && id in Apply(lib, w, step).devices {
        QueueStep(lib, w, step, id);
        match Meaning(lib, w, step, id)
        case Some(meaning) => PlayNext(LifeOf(lib, init, id), meaning);
        case None =>
      }
    }
  }

  /**
    In every interleaving the queue of a registered device is a suffix of the commands accepted for it. Those
    the two threads have taken are an in-order subsequence of the accepted ones, none of them twice, and each
    command that has left the queue was either taken or dropped behind three newer ones.
   */
  lemma EachCommandTakenOnce(lib: Library, steps: seq<Step>, id: Identity)
    requires id in Run(lib, steps).devices
    ensures var life := Play(FRESH, LifeOf(lib, steps, id));
            var accepted := Accepted(LifeOf(lib, steps, id));
            && Run(lib, steps).devices[id].commands == life.device.commands
            && QueueIsSuffix(life, accepted) && TakenInOrder(life, accepted)
            && GivenOrLost(life) && LostBehindThree(life)
  {
    hide Run, Play, LifeOf, QueueIsSuffix, TakenInOrder, GivenOrLost, LostBehindThree;
    QueueFollowsLife(lib, steps, id);
    CommandQueueLife(FRESH, LifeOf(lib, steps, id));
  }
}
