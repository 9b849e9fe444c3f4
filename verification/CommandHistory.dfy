/**
  The commands that a device is answered with, as any history of its aggregator prescribes them: which command a status
  is answered from, and what the module makes of it.
 */
module CommandHistory {
  import opened Common
  import opened DeviceState
  import opened AggregatorSpec
  import opened HandlerSpec

  /** A command that the aggregator takes for a device: it is not empty, and valid for the module. */
  predicate IsTaken(m: Module, op: Op, id: Identity) {
    op.UpdateCommand? && op.device.identity == id && op.command != [] && m.commandValid(op.command, id.deviceType)
  }

  /** A status, or the forwarder, asks for a command. */
  predicate IsAsked(op: Op, id: Identity) {
    op.TakeCommand? && op.device.identity == id
  }

  predicate IsPresent(m: Module, ops: seq<Op>, id: Identity) {
    HistoryOf(m, ops, id).Present?
  }

  /** The commands that wait: the newest three of those taken, less one for each time that a command was asked for. */
  function QueueOf(m: Module, ops: seq<Op>, id: Identity): seq<Buffer> {
    if ops == [] || !IsPresent(m, ops, id) then []
    else
      var init, op := ops[..|ops| - 1], ops[|ops| - 1];
      var queue := QueueOf(m, init, id);
      if !IsPresent(m, init, id) then []
      else if IsTaken(m, op, id) then
        if |queue| < 3 then queue + [op.command] else queue[1..] + [op.command]
      else if IsAsked(op, id) && queue != [] then queue[1..]
      else queue
  }

  /**
    The default command: the last one that was generated, or else the last one that was picked up; at first it is the
    module's first command.
   */
  function DefaultOf(m: Module, ops: seq<Op>, id: Identity): Buffer {
    if ops == [] || !IsPresent(m, ops, id) then []
    else
      var init, op := ops[..|ops| - 1], ops[|ops| - 1];
      if !IsPresent(m, init, id) then
        (match m.firstCommand(id.deviceType) case Some(first) => first case None => [])
      else if IsAsked(op, id) && (QueueOf(m, init, id) != [] || !m.forwardOnReceive(id.deviceType)) then
        var base := if QueueOf(m, init, id) != [] then QueueOf(m, init, id)[0] else DefaultOf(m, init, id);
        match m.generateCommand(op.status, Current(m, id.deviceType, HistoryOf(m, init, id)), base, id.deviceType)
        case Some(generated) => generated
        case None => base
      else DefaultOf(m, init, id)
  }

  ghost predicate CommandsAgree(m: Module, ops: seq<Op>, d: Device, id: Identity) {
    && d.id.identity == id
    && d.commands == QueueOf(m, ops, id)
    && d.command == DefaultOf(m, ops, id)
    && d.pushOnly == m.forwardOnReceive(id.deviceType)
    && |d.commands| <= 3
  }

  /** The aggregator keeps the commands that the history prescribes. */
  lemma {:induction false} CommandsFollowHistory(m: Module, ops: seq<Op>, id: Identity)
    ensures var ds := Run(m, ops).devices;
            (id in ds <==> IsPresent(m, ops, id)) && (id in ds ==> CommandsAgree(m, ops, ds[id], id))
    decreases |ops|
  {
    hide HistoryOf, Apply, CommandsAgree;
    AggregatorFollowsHistory(m, ops, id);
    if ops != [] {
      var init, op := ops[..|ops| - 1], ops[|ops| - 1];
      CommandsFollowHistory(m, init, id);
      AggregatorFollowsHistory(m, init, id);
      if id in Run(m, ops).devices {
        if id in Run(m, init).devices {
          StepAgrees(m, ops, id);
        } else {
          FirstAgrees(m, ops, id);
        }
      }
    }
  }

  lemma FirstAgrees(m: Module, ops: seq<Op>, id: Identity)
    requires ops != []
    requires id !in Run(m, ops[..|ops| - 1]).devices && id in Run(m, ops).devices
    requires IsPresent(m, ops, id) && !IsPresent(m, ops[..|ops| - 1], id)
    ensures CommandsAgree(m, ops, Run(m, ops).devices[id], id)
  {
    hide HistoryOf, Absorb, Fetch, Update;
    NotRegisteredStays(m, Run(m, ops[..|ops| - 1]).devices, ops[|ops| - 1], id);
  }

  lemma NotRegisteredStays(m: Module, ds: Devices, op: Op, id: Identity)
    requires id !in ds
    ensures op.UpdateCommand? ==> id !in Update(m, ds, op.device, op.command)
    ensures op.TakeCommand? ==> id !in Fetch(m, ds, op.device, op.status)
  {
  }

  lemma StepAgrees(m: Module, ops: seq<Op>, id: Identity)
    requires ops != []
    requires var init := ops[..|ops| - 1];
             && id in Run(m, init).devices && IsPresent(m, init, id) && IsPresent(m, ops, id)
             && CommandsAgree(m, init, Run(m, init).devices[id], id)
             && Agrees(m, Run(m, init), id, HistoryOf(m, init, id))
    requires id in Run(m, ops).devices
    ensures CommandsAgree(m, ops, Run(m, ops).devices[id], id)
  {
    hide HistoryOf, Prescribed, Run, Current, QueueOf, DefaultOf, Apply, Update, Fetch, Command, Offer, Add, Force, Pop, Clear;
    var init, op := ops[..|ops| - 1], ops[|ops| - 1];
    var s := Run(m, init);
    var d := s.devices[id];
    RunStep(m, ops);
    QueueStep(m, ops, id);
    DefaultStep(m, ops, id);
    if Target(op) != id || (!op.UpdateCommand? && !op.TakeCommand?) {
      StatusKeepsCommands(m, s, op, id);
    } else if op.UpdateCommand? {
      UpdateEffect(m, s, op, id);
      OfferEffect(d, op.command);
    } else {
      FetchEffect(m, s, op, id);
      CommandEffect(m, d, op.status);
    }
  }

  lemma UpdateEffect(m: Module, s: State, op: Op, id: Identity)
    requires op.UpdateCommand? && op.device.identity == id && id in s.devices && m.supports(id.deviceType)
    ensures id in Apply(m, s, op).devices
    ensures Apply(m, s, op).devices[id] == if IsTaken(m, op, id) then Offer(s.devices[id], op.command) else s.devices[id]
  {
  }

  lemma OfferEffect(d: Device, command: Buffer)
    requires |d.commands| <= 3
    ensures Offer(d, command) == d.(commands := if |d.commands| < 3 then d.commands + [command] else d.commands[1..] + [command])
  {
  }

  lemma FetchEffect(m: Module, s: State, op: Op, id: Identity)
    requires op.TakeCommand? && op.device.identity == id && id in s.devices && m.supports(id.deviceType)
    ensures id in Apply(m, s, op).devices
    ensures Apply(m, s, op).devices[id] == Command(m, s.devices[id], op.status)
  {
    hide Command;
  }

  /** What fetching a command makes of the device. */
  lemma CommandEffect(m: Module, d: Device, status: Buffer)
    ensures d.commands == [] && d.pushOnly ==> Command(m, d, status) == d
    ensures d.commands != [] || !d.pushOnly ==>
              var base := if d.commands != [] then d.commands[0] else d.command;
              Command(m, d, status) == d.(
                commands := if d.commands != [] then d.commands[1..] else [],
                command := match m.generateCommand(status, d.status, base, d.id.identity.deviceType)
                           case Some(generated) => generated
                           case None => base)
  {
  }

  lemma RunStep(m: Module, ops: seq<Op>)
    requires ops != []
    ensures Run(m, ops) == Apply(m, Run(m, ops[..|ops| - 1]), ops[|ops| - 1])
  {
    hide Apply;
  }

  lemma QueueStep(m: Module, ops: seq<Op>, id: Identity)
    requires ops != [] && IsPresent(m, ops, id) && IsPresent(m, ops[..|ops| - 1], id)
    ensures var queue, op := QueueOf(m, ops[..|ops| - 1], id), ops[|ops| - 1];
            QueueOf(m, ops, id) == if IsTaken(m, op, id) then (if |queue| < 3 then queue + [op.command] else queue[1..] + [op.command])
                                   else if IsAsked(op, id) && queue != [] then queue[1..]
                                   else queue
  {
    hide HistoryOf;
  }

  lemma DefaultStep(m: Module, ops: seq<Op>, id: Identity)
    requires ops != [] && IsPresent(m, ops, id) && IsPresent(m, ops[..|ops| - 1], id)
    ensures var init, op := ops[..|ops| - 1], ops[|ops| - 1];
            var queue := QueueOf(m, init, id);
            var base := if queue != [] then queue[0] else DefaultOf(m, init, id);
            DefaultOf(m, ops, id) == if !IsAsked(op, id) || (queue == [] && m.forwardOnReceive(id.deviceType)) then DefaultOf(m, init, id)
                                     else match m.generateCommand(op.status, Current(m, id.deviceType, HistoryOf(m, init, id)), base, id.deviceType)
                                          case Some(generated) => generated
                                          case None => base
  {
    hide HistoryOf, QueueOf, Current;
  }

  /** Statuses, messages and other devices do not concern the commands. */
  lemma StatusKeepsCommands(m: Module, s: State, op: Op, id: Identity)
    requires id in s.devices && id in Apply(m, s, op).devices && (Target(op) != id || (!op.UpdateCommand? && !op.TakeCommand?))
    ensures var d, e := s.devices[id], Apply(m, s, op).devices[id];
            e.id == d.id && e.commands == d.commands && e.command == d.command && e.pushOnly == d.pushOnly
  {
    hide Aggregate;
  }

  // Answers.

  /** The command that an answer is generated from: the oldest that waits, or the default one of a device that pulls. */
  function BaseOf(m: Module, ops: seq<Op>, id: Identity): Option<Buffer> {
    if QueueOf(m, ops, id) != [] then Some(QueueOf(m, ops, id)[0])
    else if m.forwardOnReceive(id.deviceType) then None
    else Some(DefaultOf(m, ops, id))
  }

  /** What the module generates for a status, from the fold of the statuses and the command it is to be generated from. */
  function GeneratedFor(m: Module, ops: seq<Op>, id: Identity, status: Buffer): Option<Buffer>
    requires IsPresent(m, ops, id) && BaseOf(m, ops, id).Some?
  {
    m.generateCommand(status, Current(m, id.deviceType, HistoryOf(m, ops, id)), BaseOf(m, ops, id).value, id.deviceType)
  }

  /**
    After any history, a status of a registered device is answered with what the module generates; with an empty command
    when nothing waits for a device that has its commands pushed; and not at all when nothing can be generated.
   */
  lemma ReplyFollowsHistory(m: Module, ops: seq<Op>, device: DeviceId, status: Buffer)
    requires Registered(m, Run(m, ops).devices, device)
    ensures var id, reply := device.identity, Answer(m, Run(m, ops).devices[device.identity], device, status);
            && IsPresent(m, ops, id)
            && match BaseOf(m, ops, id)
               case None => reply == Some(CommandReply(device, []))
               case Some(_) =>
                 match GeneratedFor(m, ops, id, status)
                 case Some(generated) => reply == Some(CommandReply(device, generated))
                 case None => reply == None
  {
    hide Run, HistoryOf, Current, Prescribed, QueueOf, DefaultOf;
    CommandsFollowHistory(m, ops, device.identity);
    AggregatorFollowsHistory(m, ops, device.identity);
  }

  /** And the command of a status that is answered is the one that the next answer is generated from, if none waits. */
  lemma AnswerBecomesDefault(m: Module, ops: seq<Op>, device: DeviceId, status: Buffer)
    requires Registered(m, Run(m, ops).devices, device)
    ensures var id, after := device.identity, ops + [TakeCommand(device, status)];
            && IsPresent(m, ops, id) && IsPresent(m, after, id)
            && (BaseOf(m, ops, id).Some? ==>
                  match GeneratedFor(m, ops, id, status)
                  case Some(generated) => DefaultOf(m, after, id) == generated
                  case None => DefaultOf(m, after, id) == BaseOf(m, ops, id).value)
            && QueueOf(m, after, id) == if QueueOf(m, ops, id) != [] then QueueOf(m, ops, id)[1..] else []
  {
    hide Run, Current, QueueOf, DefaultOf;
    var after := ops + [TakeCommand(device, status)];
    assert after[..|after| - 1] == ops;
    CommandsFollowHistory(m, ops, device.identity);
    QueueStep(m, after, device.identity);
    DefaultStep(m, after, device.identity);
  }

  /** What is pushed to a device when a command has come for it: the same, for the status that the aggregator has. */
  lemma ForwardFollowsHistory(m: Module, ops: seq<Op>, device: DeviceId)
    requires Registered(m, Run(m, ops).devices, device)
    ensures var id, pushed := device.identity, Forwarded(m, Run(m, ops).devices[device.identity], device);
            && IsPresent(m, ops, id)
            && match BaseOf(m, ops, id)
               case None => pushed == []
               case Some(_) =>
                 match GeneratedFor(m, ops, id, Current(m, id.deviceType, HistoryOf(m, ops, id)))
                 case Some(generated) => pushed == [CommandReply(device, generated)]
                 case None => pushed == []
  {
    hide Run, HistoryOf, Current, Prescribed, QueueOf, DefaultOf;
    CommandsFollowHistory(m, ops, device.identity);
    AggregatorFollowsHistory(m, ops, device.identity);
  }

  lemma {:induction false} InterferenceIsHistory(m: Module, ops: seq<Op>, more: seq<Op>)
    ensures Run(m, ops + more).devices == Interference(m, Run(m, ops).devices, more)
    decreases |more|
  {
    hide Apply, Run, Interference;
    InterferenceNext(m, Run(m, ops).devices, more);
    if more == [] {
      assert ops + more == ops;
    } else {
      var n := |more| - 1;
      InterferenceIsHistory(m, ops, more[..n]);
      assert (ops + more)[..|ops + more| - 1] == ops + more[..n];
      RunStep(m, ops + more);
      PoppedDoesNotMatter(m, Run(m, ops + more[..n]), more[n]);
    }
  }

  lemma PoppedDoesNotMatter(m: Module, s: State, op: Op)
    ensures Apply(m, s, op).devices == Apply(m, State(s.devices, map[]), op).devices
  {
    hide Add, Force, Pop, Clear, Update, Fetch;
    if op.PopMessage? {
      PopsNothing(m, s.devices, op.device);
    }
  }

  lemma PopsNothing(m: Module, ds: Devices, device: DeviceId)
    ensures Oldest(m, ds, device) == None ==> Pop(m, ds, device) == ds
  {
  }

  /**
    After any history, a status is handled exactly when it is valid, its device of a supported type, and known or else
    given a first command. What other threads do before it is answered is then part of the history: the status has
    been taken in by then, and its answer is the one for the history with the status and those operations in it.
   */
  lemma HandledStatusIsAnswered(m: Module, ops: seq<Op>, status: DeviceStatus, between: seq<Op>)
    requires forall op :: op in between ==> Foreign(op)
    ensures var device, data, id := status.device, status.data, status.device.identity;
            IsHandled(m, Run(m, ops).devices, status)
            <==> m.statusValid(data, id.deviceType) && m.supports(id.deviceType)
                 && (IsPresent(m, ops, id) || m.firstCommand(id.deviceType).Some?)
    ensures IsHandled(m, Run(m, ops).devices, status) ==>
              var device, data, id := status.device, status.data, status.device.identity;
              var added := ops + [AddStatus(device, data)];
              var history, before := added + between, Interference(m, Add(m, Run(m, ops).devices, device, data), between);
              && Run(m, history).devices == before && id in before && IsPresent(m, history, id)
              && HistoryOf(m, added, id) == (if IsPresent(m, ops, id) then Extend(HistoryOf(m, ops, id), Got(data)) else Present(data, []))
              && match BaseOf(m, history, id)
                 case None => Answer(m, before[id], device, data) == Some(CommandReply(device, []))
                 case Some(_) =>
                   match GeneratedFor(m, history, id, data)
                   case Some(generated) => Answer(m, before[id], device, data) == Some(CommandReply(device, generated))
                   case None => Answer(m, before[id], device, data) == None
  {
    hide Run, Current, Prescribed, QueueOf, DefaultOf, Add, Interference, Answer, BaseOf, GeneratedFor, Foreign, AddOutcome;
    var device, data, id := status.device, status.data, status.device.identity;
    AggregatorFollowsHistory(m, ops, id);
    AddSucceeds(m, Run(m, ops).devices, device, data);
    if IsHandled(m, Run(m, ops).devices, status) {
      var added := ops + [AddStatus(device, data)];
      assert added[..|added| - 1] == ops;
      RunStep(m, added);
      InterferenceIsHistory(m, added, between);
      InterferenceOnlyAppends(m, Run(m, added).devices, between, id);
      ReplyFollowsHistory(m, added + between, device, data);
    }
  }

  lemma AddSucceeds(m: Module, ds: Devices, device: DeviceId, status: Buffer)
    ensures AddOutcome(m, ds, device, status).Queued?
       <==> m.supports(device.identity.deviceType) && (device.identity in ds || m.firstCommand(device.identity.deviceType).Some?)
    ensures AddOutcome(m, ds, device, status).Queued? ==> device.identity in Add(m, ds, device, status)
  {
    hide Absorb;
  }
}
