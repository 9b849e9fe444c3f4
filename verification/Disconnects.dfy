/**
  What becomes of a disconnect that is taken out of the queue: whether the server is told of it, or it ends in
  an error aggregator like a status.
 */
module Disconnects {
  import opened Common
  import opened SentMessages
  import opened SessionSpec
  import opened SessionRuns
  import opened ClientSpec
  import opened ClientMessages
  import Err = ErrorAggregator

  /** The next message handed to the channel tells of the disconnect, and it gets through. */
  predicate Told(net: Network, before: Session, after: Session, item: ExternalItem) {
    && |before.outbox| < |after.outbox|
    && net.sends(|before.outbox|)
    && var message := after.outbox[|before.outbox|];
       message.Status? && message.sent.status == item.status && message.sent.kind == Disconnecting
  }

  /**
    The status has been fed to the error aggregator, behind all that was pending, and nothing is pending any more. One
    that was sent as the first of its device has been fed before as well, to register it.
   */
  ghost predicate Absorbed(lib: Library, before: Session, after: Session, item: ExternalItem) {
    var sentFirst := after.outbox != before.outbox && !IsRegistered(before, item.status.device);
    var errors := if sentFirst then Feed(lib, before.errors, item.status) else before.errors;
    after.pending == [] && after.errors == Feed(lib, FeedAll(lib, errors, before.pending), item.status)
  }

  /** The guards of the two outcomes; otherwise the server is told of a device that connects. */
  predicate IsTold(net: Network, s: Session, item: ExternalItem) {
    s.link == Connected && IsRegistered(s, item.status.device) && net.sends(|s.outbox|)
  }

  predicate IsAbsorbed(net: Network, s: Session) {
    s.link != Connected || !net.sends(|s.outbox|)
  }

  lemma FeedLast(lib: Library, errors: map<int, Err.Errors>, pending: seq<Sent>, sent: Sent)
    ensures FeedAll(lib, errors, pending + [sent]) == Feed(lib, FeedAll(lib, errors, pending), sent.status)
  {
    hide Feed;
    assert (pending + [sent])[..|pending|] == pending;
  }

  /** A status that is absorbed without having been sent. */
  lemma FilledIsAbsorbed(lib: Library, net: Network, s: Session, item: ExternalItem)
    requires Supports(s, item.status.device)
    ensures var after := Fill(lib, s, item.status);
            Absorbed(lib, s, after, item) && !Told(net, s, after, item) && after.outbox == s.outbox
  {
    hide FeedAll, Feed;
  }

  /**
    On its way to a connection a disconnect ends in the error aggregator exactly when the connection is not up, or
    the message does not get through. The server is told of it as what it is exactly when the connection is up, the
    device is registered and the message gets through; of a device that is not registered it is told that it connects.
   */
  lemma DeliveredDisconnect(lib: Library, net: Network, s: Session, item: ExternalItem)
    requires item.disconnected && Supports(s, item.status.device)
    ensures var after := Deliver(lib, net, s, item);
            && (Absorbed(lib, s, after, item) <==> IsAbsorbed(net, s))
            && (Told(net, s, after, item) <==> IsTold(net, s, item))
            && (s.link == Connected ==>
                  && |after.outbox| == |s.outbox| + 1
                  && after.outbox[|s.outbox|].Status?
                  && after.outbox[|s.outbox|].sent.kind
                     == if IsRegistered(s, item.status.device) then Disconnecting else Connecting)
  {
    hide Fill, FeedAll, Feed, ConnectedAfter, IsRegistered;
    if s.link != Connected {
      FilledIsAbsorbed(lib, net, s, item);
    } else {
      var errors := if IsRegistered(s, item.status.device) then s.errors else Feed(lib, s.errors, item.status);
      FeedLast(lib, errors, s.pending, NewStatus(s, item.status, Disconnecting, []));
    }
  }

  /**
    A disconnect that is taken while connection `k` is started, and belongs to connection `j`: it ends in the error
    aggregator exactly when `j` is the one being started, is not up, or the message does not get through.
   */
  lemma TakenDisconnect(u: Setup, k: nat, sessions: seq<Session>, item: ExternalItem, j: nat)
    requires Fits(u, sessions) && k < |sessions| && j < |sessions|
    requires item.disconnected && Destination(u, k, item) == Some(j) && Supports(sessions[j], item.status.device)
    ensures var after := Take(u, k, sessions, item)[j];
            && (Absorbed(u.lib, sessions[j], after, item) <==> j == k || IsAbsorbed(u.nets[j], sessions[j]))
            && (Told(u.nets[j], sessions[j], after, item) <==> j != k && IsTold(u.nets[j], sessions[j], item))
  {
    hide Take, Deliver, Destination, Fill, IsRegistered, Absorbed, Told;
    TakeProjects(u, k, sessions, item, j);
    if j == k {
      FilledIsAbsorbed(u.lib, u.nets[j], sessions[j], item);
    } else {
      DeliveredDisconnect(u.lib, u.nets[j], sessions[j], item);
    }
  }

  /**
    The same for the wait: a disconnect at the front of the queue is put back, or goes to its connection and
    is absorbed or told under that very condition.
   */
  lemma WaitedDisconnect(u: Setup, k: nat, w: Wait, arrivals: seq<ExternalItem>, j: nat)
    requires Fits(u, w.client.sessions) && k < |w.client.sessions| && j < |w.client.sessions|
    requires w.forced != [] && w.client.queue + arrivals != []
    requires var item := (w.client.queue + arrivals)[0];
             item.disconnected && Destination(u, k, item) == Some(j) && Supports(w.client.sessions[j], item.status.device)
    ensures var queue, after := w.client.queue + arrivals, WaitOnce(u, k, w, arrivals);
            var item, s, t := queue[0], w.client.sessions[j], after.client.sessions[j];
            if PutBack(u, k, w, item) then after == w.(client := w.client.(queue := queue[1..] + [item]))
            else
              && after.client.queue == queue[1..] && after.taken == w.taken + [item]
              && (Absorbed(u.lib, s, t, item) <==> j == k || IsAbsorbed(u.nets[j], s))
              && (Told(u.nets[j], s, t, item) <==> j != k && IsTold(u.nets[j], s, item))
  {
    hide WaitOnce, Take, PutBack, Destination, Absorbed, Told, IsTold, IsAbsorbed, Unlisted;
    WaitTakes(u, k, w, arrivals);
    TakenDisconnect(u, k, w.client.sessions, (w.client.queue + arrivals)[0], j);
  }

  /**
    And outside of a connect sequence, where the connection that a disconnect goes to may be started after it was
    absorbed.
   */
  lemma DispatchedDisconnect(u: Setup, c: Client, item: ExternalItem, e: nat -> Surroundings, j: nat)
    requires Fits(u, c.sessions) && j < |c.sessions| && ModuleOf(item) in u.owners && u.owners[ModuleOf(item)] == j
    requires item.disconnected && Supports(c.sessions[j], item.status.device)
    ensures var routed := c.(sessions := Route(u, c.sessions, item));
            && Dispatch(u, c, item, e)
               == (if c.sessions[j].link == NotInitialized then StartSequence(u, j, routed, e(j)) else routed)
            && (Absorbed(u.lib, c.sessions[j], routed.sessions[j], item) <==> IsAbsorbed(u.nets[j], c.sessions[j]))
            && (Told(u.nets[j], c.sessions[j], routed.sessions[j], item) <==> IsTold(u.nets[j], c.sessions[j], item))
  {
    hide Deliver, Fill, IsRegistered, StartSequence, Absorbed, Told;
    DeliveredDisconnect(u.lib, u.nets[j], c.sessions[j], item);
  }

  // Three disconnects that the server is not told of.

  /** Two connections that have not been started, for a module each. */
  function Two(lib: Library, net: Network, first: int, second: int): Setup {
    Setup(lib, [net, net], [{first}, {second}], map[first := 0, second := 1])
  }

  function Fresh(first: int, second: int, item: ExternalItem): Client {
    Client([Start({first}).session, Start({second}).session], [item], [], [])
  }

  /**
    The first connection is started and waits for a device. The disconnect of that device, and the disconnect of
    a device of the other connection, which is not up, both end in an error aggregator.
   */
  lemma DisconnectsAreAbsorbed(lib: Library, net: Network, status: DeviceStatus, forced: DeviceId, other: int)
    requires other != status.device.identity.moduleNumber
    ensures var number, item := status.device.identity.moduleNumber, ExternalItem(true, status);
            var own, foreign, s := Two(lib, net, number, other), Two(lib, net, other, number), Start({number}).session;
            var here := WaitOnce(own, 0, Wait(Fresh(number, other, item), [status.device], []), []);
            var there := WaitOnce(foreign, 0, Wait(Fresh(other, number, item), [forced], []), []);
            && here.client.queue == [] && here.client.sessions[0].outbox == [] && Absorbed(lib, s, here.client.sessions[0], item)
            && there.client.queue == [] && there.client.sessions[1].outbox == [] && Absorbed(lib, s, there.client.sessions[1], item)
  {
    hide Fill, Absorbed;
    var number, item := status.device.identity.moduleNumber, ExternalItem(true, status);
    FilledIsAbsorbed(lib, net, Start({number}).session, item);
    assert [status.device][0].identity == item.status.device.identity;
    assert [item] + [] == [item];
  }

  /**
    A connection is up and the device registered, but the message does not get through: the connection is given up,
    and the disconnect ends in the error aggregator.
   */
  lemma UnsentDisconnectIsAbsorbed(lib: Library, net: Network, status: DeviceStatus)
    requires lib(status.device.identity.moduleNumber).supports(status.device.identity.deviceType) && !net.sends(1) && net.sends(0)
    ensures var item := ExternalItem(true, status);
            var up := Start({status.device.identity.moduleNumber}).session.(link := Connected);
            var s := SendStatus(lib, net, up, status, Running, []);
            var after := Deliver(lib, net, s, item);
            && s.link == Connected && IsRegistered(s, status.device)
            && Absorbed(lib, s, after, item) && !Told(net, s, after, item)
            && after.link == NotInitialized && after.pending == []
  {
    hide Absorbed, Told, Feed, FeedAll;
    var up := Start({status.device.identity.moduleNumber}).session.(link := Connected);
    ConnectedAfterSend(lib, net, up, status, Running, []);
    var s := SendStatus(lib, net, up, status, Running, []);
    RegisteredIsSupported(s, status.device);
    DeliveredDisconnect(lib, net, s, ExternalItem(true, status));
  }
}
