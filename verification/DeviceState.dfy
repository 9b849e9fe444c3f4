/**
  What the status aggregator keeps for one device: the folded status, the queue of aggregated messages and
  the bounded queue of commands from the external server.
 */
module DeviceState {
  import opened Common

  const MAX_EXTERNAL_COMMANDS: nat := 3

  /** The value of a device state. */
  datatype Device = Device(
    id: DeviceId,
    messages: seq<Buffer>,
    status: Buffer,
    command: Buffer,
    commands: seq<Buffer>,
    pushOnly: bool)

  /** The newest commands, as many as fit. */
  function Newest(commands: seq<Buffer>): seq<Buffer> {
    if |commands| <= MAX_EXTERNAL_COMMANDS then commands else commands[|commands| - MAX_EXTERNAL_COMMANDS..]
  }

  function Offer(d: Device, command: Buffer): Device {
    d.(commands := Newest(d.commands + [command]))
  }

  /** The command a device is given next, if any: a queued one, else the default one of a pull device. */
  function Next(d: Device): Option<Buffer> {
    if d.commands != [] then Some(d.commands[0])
    else if d.pushOnly then None
    else Some(d.command)
  }

  function Consume(d: Device): Device {
    if d.commands != [] then d.(command := d.commands[0], commands := d.commands[1..]) else d
  }

  class StatusAggregatorDeviceState {
    const deviceId: DeviceId
    var aggregatedMessages: seq<Buffer>
    var status: Buffer
    var defaultCommand: Buffer
    var externalCommandQueue: seq<Buffer>
    var forwardCommandImmediately: bool

    ghost function View(): Device
      reads this
    {
      Device(deviceId, aggregatedMessages, status, defaultCommand, externalCommandQueue, forwardCommandImmediately)
    }

    constructor (deviceId: DeviceId, command: Buffer, status: Buffer)
      ensures View() == Device(deviceId, [], status, command, [], false)
    {
      this.deviceId, this.status, defaultCommand := deviceId, status, command;
      aggregatedMessages, externalCommandQueue, forwardCommandImmediately := [], [], false;
    }

    method SetStatus(status: Buffer)
      modifies this
      ensures View() == old(View()).(status := status)
    {
      this.status := status;
    }

    method SetDefaultCommand(command: Buffer)
      modifies this
      ensures View() == old(View()).(command := command)
    {
      defaultCommand := command;
    }

    method EnableImmediateCommandForwarding()
      modifies this
      ensures View() == old(View()).(pushOnly := true)
    {
      forwardCommandImmediately := true;
    }

    method PushMessage(message: Buffer)
      modifies this
      ensures View() == old(View()).(messages := old(aggregatedMessages) + [message])
    {
      aggregatedMessages := aggregatedMessages + [message];
    }

    method PopMessage() returns (message: Buffer)
      requires aggregatedMessages != []
      modifies this
      ensures old(aggregatedMessages) == [message] + aggregatedMessages
      ensures View() == old(View()).(messages := aggregatedMessages)
    {
      message := aggregatedMessages[0];
      aggregatedMessages := aggregatedMessages[1..];
    }

    method ClearMessages()
      modifies this
      ensures View() == old(View()).(messages := [])
    {
      while aggregatedMessages != []
        invariant View() == old(View()).(messages := aggregatedMessages)
        decreases |aggregatedMessages|
      {
        var _ := PopMessage();
      }
    }

    method ConsumeCommand() returns (command: Option<Buffer>)
      modifies this
      ensures View() == Consume(old(View()))
      ensures command == Next(old(View()))
    {
      if externalCommandQueue != [] {
        defaultCommand := externalCommandQueue[0];
        externalCommandQueue := externalCommandQueue[1..];
        return Some(defaultCommand);
      }
      if forwardCommandImmediately {
        return None;
      }
      return Some(defaultCommand);
    }

    /** False when the queue was full and its oldest command had to go. */
    method AddExternalCommand(command: Buffer) returns (ok: bool)
      requires |externalCommandQueue| <= MAX_EXTERNAL_COMMANDS
      modifies this
      ensures View() == Offer(old(View()), command)
      ensures ok <==> |old(externalCommandQueue)| < MAX_EXTERNAL_COMMANDS
    {
      externalCommandQueue := externalCommandQueue + [command];
      if |externalCommandQueue| > MAX_EXTERNAL_COMMANDS {
        externalCommandQueue := externalCommandQueue[1..];
        return false;
      }
      return true;
    }
  }

  // The life of a command queue.

  datatype CommandStep = Accept(command: Buffer) | Take

  function AcceptedBy(before: seq<Buffer>, step: CommandStep): seq<Buffer> {
    if step.Accept? then before + [step.command] else before
  }

  /** The commands accepted, oldest first. */
  function Accepted(steps: seq<CommandStep>): seq<Buffer> {
    if steps == [] then
      []
    else
      AcceptedBy(Accepted(steps[..|steps| - 1]), steps[|steps| - 1])
  }

  /** A command dropped: its position among the accepted ones, and how many had been accepted by then. */
  datatype Loss = Loss(position: nat, accepted: nat)

  /**
    The device after the steps, what it was given from the queue, and the positions of those commands among
    all the accepted ones; `gone` counts the commands that have left the queue.
   */
  datatype Life = Life(device: Device, given: seq<Buffer>, taken: seq<nat>, lost: seq<Loss>, gone: nat)

  function Play(d: Device, steps: seq<CommandStep>): Life {
    if steps == [] then
      Life(d, [], [], [], 0)
    else
      PlayStep(Play(d, steps[..|steps| - 1]), steps[|steps| - 1], |Accepted(steps)|)
  }

  function PlayStep(q: Life, step: CommandStep, accepted: nat): Life {
    match step
    case Accept(command) =>
      var after := Offer(q.device, command);
      if |after.commands| > |q.device.commands| then
        q.(device := after)
      else
        q.(device := after, lost := q.lost + [Loss(q.gone, accepted)], gone := q.gone + 1)
    case Take =>
      if q.device.commands == [] then
        q.(device := Consume(q.device))
      else
        q.(device := Consume(q.device), given := q.given + [Next(q.device).value], taken := q.taken + [q.gone], gone := q.gone + 1)
  }

  /** The queue is always the newest accepted commands from some point on, three at most. */
  ghost predicate QueueIsSuffix(q: Life, accepted: seq<Buffer>) {
    && q.gone <= |accepted|
    && q.device.commands == accepted[q.gone..]
    && |q.device.commands| <= 3
  }

  /** What has been given to the device is an in-order subsequence of the accepted commands, without repetition. */
  ghost predicate TakenInOrder(q: Life, accepted: seq<Buffer>) {
    && |q.given| == |q.taken|
    && (forall i :: 0 <= i < |q.taken| ==> q.taken[i] < q.gone && q.taken[i] < |accepted| && q.given[i] == accepted[q.taken[i]])
    && (forall i, j :: 0 <= i < j < |q.taken| ==> q.taken[i] < q.taken[j])
  }

  ghost predicate IsLost(q: Life, c: nat) {
    exists i :: 0 <= i < |q.lost| && q.lost[i].position == c
  }

  /** A command that left the queue was given to the device or dropped, and never both. */
  ghost predicate GivenOrLost(q: Life) {
    && (forall i :: 0 <= i < |q.taken| ==> q.taken[i] < q.gone)
    && (forall c: nat :: c < q.gone ==> (c in q.taken <==> !IsLost(q, c)))
  }

  /** A command is dropped when three newer ones are queued behind it: the fourth makes it go. */
  ghost predicate LostBehindThree(q: Life) {
    forall i :: 0 <= i < |q.lost| ==>
      q.lost[i].position < q.gone && q.lost[i].accepted == q.lost[i].position + 4
  }

  lemma {:induction false} CommandQueueLife(d: Device, steps: seq<CommandStep>)
    requires d.commands == []
    ensures QueueIsSuffix(Play(d, steps), Accepted(steps))
    ensures TakenInOrder(Play(d, steps), Accepted(steps))
    ensures GivenOrLost(Play(d, steps))
    ensures LostBehindThree(Play(d, steps))
    decreases |steps|
  {
    hide PlayStep, QueueIsSuffix, TakenInOrder, GivenOrLost, LostBehindThree;
    if steps == [] {
      FreshLife(d);
    } else {
      var init, step := steps[..|steps| - 1], steps[|steps| - 1];
      CommandQueueLife(d, init);
      SuffixStep(Play(d, init), step, Accepted(init));
      TakenStep(Play(d, init), step, Accepted(init));
      PartitionStep(Play(d, init), step, |Accepted(steps)|);
    }
  }

  lemma FreshLife(d: Device)
    requires d.commands == []
    ensures var q := Life(d, [], [], [], 0);
            QueueIsSuffix(q, []) && TakenInOrder(q, []) && GivenOrLost(q) && LostBehindThree(q)
  {
  }

  lemma SuffixStep(q: Life, step: CommandStep, before: seq<Buffer>)
    requires QueueIsSuffix(q, before) && LostBehindThree(q)
    ensures var after := AcceptedBy(before, step);
            QueueIsSuffix(PlayStep(q, step, |after|), after) && LostBehindThree(PlayStep(q, step, |after|))
  {
  }

  lemma TakenStep(q: Life, step: CommandStep, before: seq<Buffer>)
    requires QueueIsSuffix(q, before) && TakenInOrder(q, before)
    ensures var after := AcceptedBy(before, step);
            TakenInOrder(PlayStep(q, step, |after|), after)
  {
  }

  lemma PartitionStep(q: Life, step: CommandStep, accepted: nat)
    requires GivenOrLost(q) && LostBehindThree(q)
    ensures GivenOrLost(PlayStep(q, step, accepted))
  {
    var r := PlayStep(q, step, accepted);
    forall c: nat | c < r.gone ensures c in r.taken <==> !IsLost(r, c) {
      if c == q.gone {
        assert r.taken == q.taken + [c] ==> r.taken[|q.taken|] == c;
        assert |r.lost| > |q.lost| ==> r.lost[|q.lost|].position == c;
      } else {
        if IsLost(q, c) {
          var i :| 0 <= i < |q.lost| && q.lost[i].position == c;
          assert r.lost[i].position == c;
        }
      }
    }
  }
}
