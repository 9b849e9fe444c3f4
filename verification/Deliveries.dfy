/**
  What becomes of a message of the modules once it is its turn: what the server is told, in which state, or which error
  aggregator takes it in.
 */
module Deliveries {
  import opened Common
  import opened SentMessages
  import opened SessionSpec
  import opened SessionRuns
  import opened ClientSpec
  import opened ClientMessages
  import opened ClientRuns
  import opened Disconnects
  import opened Reconnects

  predicate IsKnown(s: Session, device: DeviceId) {
    device.identity.moduleNumber in s.errors && device.identity in s.errors[device.identity.moduleNumber]
  }

  ghost predicate IsEntered(s: Session, device: DeviceId) {
    exists d :: d in s.connected && d.identity == device.identity
  }

  /**
    The message has been handed to the channel as the next status of the session: as a connect when its device is not
    known; else as a disconnect if it is one; else as a connect or as running, by whether the device has been entered.
   */
  ghost predicate IsTellingOf(s: Session, message: ClientMessage, item: ExternalItem) {
    && message.Status? && message.sent.session == s.id && message.sent.error == []
    && message.sent.status == item.status && message.sent.counter == (s.sendCounter + 1) % 0x1_0000_0000
    && message.sent.kind == if !IsKnown(s, item.status.device) then Connecting
                            else if item.disconnected then Disconnecting
                            else if IsEntered(s, item.status.device) then Running
                            else Connecting
  }

  /** The list of the connected devices: one more after a connect, and the first entry less after a disconnect. */
  predicate EntryFollows(s: Session, t: Session, kind: Kind, device: DeviceId) {
    match kind
    case Connecting => t.connected == s.connected + [device]
    case Disconnecting => t.connected == Unlisted(s.connected, device)
    case _ => t.connected == s.connected
  }

  /** A message for a connection that is up is handed over. It awaits its answer, or the connection is given up. */
  ghost predicate HandedOver(lib: Library, net: Network, s: Session, t: Session, item: ExternalItem) {
    && |t.outbox| == |s.outbox| + 1 && t.outbox[..|s.outbox|] == s.outbox
    && var message := t.outbox[|s.outbox|];
       && IsTellingOf(s, message, item)
       && EntryFollows(s, t, message.sent.kind, item.status.device)
       && if net.sends(|s.outbox|) then
            && t.link == Connected && t.pending == s.pending + [message.sent]
            && t.sendCounter == message.sent.counter && t.commandCounter == s.commandCounter
            && t.errors == if IsKnown(s, item.status.device) then s.errors else Feed(lib, s.errors, item.status)
          else
            t.link == NotInitialized && t.pending == [] && t.sendCounter == 0 && t.commandCounter == 0
  }

  lemma EnteredIsListed(s: Session, device: DeviceId)
    ensures IsEntered(s, device) <==> Listed(s.connected, device)
  {
    if IsEntered(s, device) {
      var d :| d in s.connected && d.identity == device.identity;
      var k :| 0 <= k < |s.connected| && s.connected[k] == d;
    }
  }

  lemma UpIsHandedOver(lib: Library, net: Network, s: Session, item: ExternalItem)
    requires s.link == Connected && Supports(s, item.status.device)
    ensures HandedOver(lib, net, s, Deliver(lib, net, s, item), item)
  {
    hide FeedAll, Feed, Listed, IsEntered, Unlisted;
    EnteredIsListed(s, item.status.device);
  }

  lemma DownIsAbsorbed(lib: Library, net: Network, s: Session, item: ExternalItem)
    requires s.link != Connected && Supports(s, item.status.device)
    ensures var t := Deliver(lib, net, s, item);
            && Absorbed(lib, s, t, item) && t.outbox == s.outbox && t.connected == s.connected
            && t.link == s.link && t.sendCounter == s.sendCounter
  {
    hide FeedAll, Feed;
    FilledIsAbsorbed(lib, net, s, item);
  }

  /** A message on its way to connection `j`, within a connect sequence of another one or outside: nothing else changes. */
  lemma RoutedMessage(u: Setup, sessions: seq<Session>, item: ExternalItem, j: nat)
    requires Fits(u, sessions) && ModuleOf(item) in u.owners && j == u.owners[ModuleOf(item)] && ModuleOf(item) in sessions[j].errors
    ensures var after := Route(u, sessions, item);
            && after[..j] == sessions[..j] && after[j + 1..] == sessions[j + 1..]
            && if sessions[j].link == Connected then HandedOver(u.lib, u.nets[j], sessions[j], after[j], item)
               else Absorbed(u.lib, sessions[j], after[j], item) && after[j].outbox == sessions[j].outbox
                    && after[j].link == sessions[j].link && after[j].connected == sessions[j].connected
  {
    hide Deliver, HandedOver, Absorbed;
    if sessions[j].link == Connected {
      UpIsHandedOver(u.lib, u.nets[j], sessions[j], item);
    } else {
      DownIsAbsorbed(u.lib, u.nets[j], sessions[j], item);
    }
  }

  /**
    The front of the queue in any run of the client. A message that no connection owns goes nowhere. One for a
    connection that is up is handed over, in the state it calls for. One for another connection is taken in by its
    error aggregator; and if that has not been started, an attempt to start it is made.
   */
  lemma ServedMessage(u: Setup, ops: seq<ClientOp>, e: nat -> Surroundings)
    requires Consistent(u) && RunClient(u, ops).queue != []
    ensures var c, after := RunClient(u, ops), RunClient(u, ops + [SendNext(e)]);
            var item := c.queue[0];
            var number := item.status.device.identity.moduleNumber;
            if number !in u.owners then after == c.(queue := c.queue[1..])
            else
              var j := u.owners[number];
              j < |c.sessions| == |after.sessions| &&
              match c.sessions[j].link
              case Connected =>
                && after == c.(queue := c.queue[1..], sessions := c.sessions[j := after.sessions[j]])
                && HandedOver(u.lib, u.nets[j], c.sessions[j], after.sessions[j], item)
              case NotInitialized =>
                && after.sessions[j].attempts == c.sessions[j].attempts + 1
                && (after.sessions[j].link == Connected || after.sessions[j].link == NotConnected)
                && Absorbed(u.lib, c.sessions[j], Route(u, c.sessions, item)[j], item)
              case _ =>
                && after == c.(queue := c.queue[1..], sessions := c.sessions[j := after.sessions[j]])
                && Absorbed(u.lib, c.sessions[j], after.sessions[j], item) && after.sessions[j].outbox == c.sessions[j].outbox
                && after.sessions[j].link == c.sessions[j].link
  {
    hide RunClient, Deliver, StartSequence, HandedOver, Absorbed, Prepare;
    var c := RunClient(u, ops);
    var item, number := c.queue[0], c.queue[0].status.device.identity.moduleNumber;
    RunClientNext(u, ops, SendNext(e));
    if number in u.owners {
      var j := u.owners[number];
      ModulesInRun(u, ops, j);
      RoutedMessage(u, c.sessions, item, j);
      if c.sessions[j].link == NotInitialized {
        DeliverCalms(u.lib, u.nets[j], c.sessions[j], item);
        SequenceDecides(u, j, c.(sessions := Route(u, c.sessions, item), queue := c.queue[1..]), e(j), j);
      }
    }
  }

  /** In particular, what a status of a known device that is up and running is reported as. */
  lemma RunningStatusIsTold(u: Setup, ops: seq<ClientOp>, e: nat -> Surroundings, j: nat)
    requires Consistent(u) && RunClient(u, ops).queue != []
    requires var c := RunClient(u, ops);
             var item := c.queue[0];
             && !item.disconnected && item.status.device.identity.moduleNumber in u.owners
             && j == u.owners[item.status.device.identity.moduleNumber]
             && c.sessions[j].link == Connected && IsKnown(c.sessions[j], item.status.device)
    ensures var c, after := RunClient(u, ops), RunClient(u, ops + [SendNext(e)]);
            var device, s, t := c.queue[0].status.device, c.sessions[j], after.sessions[j];
            && j < |after.sessions| && |t.outbox| == |s.outbox| + 1 && t.outbox[|s.outbox|].Status?
            && var sent := t.outbox[|s.outbox|].sent;
               && sent.status == c.queue[0].status && sent.error == []
               && (sent.kind == Running <==> IsEntered(s, device))
               && (sent.kind == Connecting <==> !IsEntered(s, device))
               && IsEntered(t, device)
  {
    hide RunClient;
    var c := RunClient(u, ops);
    ServedMessage(u, ops, e);
    var device, t := c.queue[0].status.device, RunClient(u, ops + [SendNext(e)]).sessions[j];
    assert device in c.sessions[j].connected + [device];
  }
}
