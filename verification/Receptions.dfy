/**
  What the receiving loop of a connection makes of the messages it gets, and which of them ends it: told by the
  messages themselves and by the session they find.
 */
module Receptions {
  import opened Common
  import opened SentMessages
  import opened SessionSpec

  /** A command of another session, or out of order. */
  predicate IsForeign(s: Session, session: string, counter: uint32) {
    session != s.id || (s.commandCounter != 0 && counter != (s.commandCounter + 1) % 0x1_0000_0000)
  }

  /** What the connection does not go on after. */
  ghost predicate Refuses(s: Session, message: ServerMessage) {
    match message
    case Command(session, counter, command) =>
      IsForeign(s, session, counter) || command.device.identity.moduleNumber !in s.errors
    case StatusResponse(_, _, counter) =>
      (forall sent :: sent in s.pending ==> sent.counter != counter) || (s.connected == [] && |s.pending| == 1)
    case _ => true
  }

  /** The loop ends on the k-th message: the server announces its disconnect, or the message is refused. */
  ghost predicate EndsOn(net: Network, s: Session, k: nat) {
    net.notified(k) || (s.link != NotConnected && net.inbox(k).Some? && Refuses(s, net.inbox(k).value))
  }

  /** Whether the loop then asks for the connection to be started again. */
  predicate AsksAgain(net: Network, k: nat) {
    !net.notified(k) && !(net.inbox(k).Some? && net.inbox(k).value.StatusResponse?)
  }

  lemma RefusedAcknowledgement(pending: seq<Sent>, connected: seq<DeviceId>, counter: uint32)
    ensures !AcknowledgedWell(pending, connected, counter)
       <==> (forall sent :: sent in pending ==> sent.counter != counter) || (connected == [] && |pending| == 1)
  {
    hide Acknowledged;
    AcknowledgementTakesOne(pending, counter);
    if Awaited(pending, counter) {
      assert pending[Position(pending, counter)] in pending;
    } else {
      forall sent | sent in pending ensures sent.counter != counter {
        var k :| 0 <= k < |pending| && pending[k] == sent;
      }
    }
  }

  lemma OneEndsOn(lib: Library, net: Network, s: Session)
    requires s.link != InSequence
    ensures var r := ReceiveOne(lib, net, s);
            && r.session.received == s.received + 1 && r.session.link == s.link
            && (r.dropped.Some? <==> EndsOn(net, s, s.received))
            && (r.dropped.Some? ==> r.dropped.value == AsksAgain(net, s.received))
  {
    hide AcknowledgedWell, Acknowledged, ResponseFor;
    match net.inbox(s.received)
    case Some(StatusResponse(_, _, counter)) =>
      RefusedAcknowledgement(s.pending, s.connected, counter);
    case _ =>
  }

  /**
    The loop reads message by message, and ends on the first that the server's announced disconnect comes with or that
    is refused. It asks for the connection to be started again exactly when that is neither an announced disconnect
    nor the response to a status. While a connect sequence is going on it reads nothing.
   */
  lemma {:induction false} LoopEndsOn(lib: Library, net: Network, s: Session, rounds: nat)
    ensures s.link == InSequence ==> Receive(lib, net, s, rounds) == Reception(s, None)
    ensures s.link != InSequence ==>
              var r := Receive(lib, net, s, rounds);
              && r.session.link == s.link && s.received <= r.session.received <= s.received + rounds
              && var n := r.session.received - s.received;
                 && Receive(lib, net, s, n) == r
                 && match r.dropped
                    case None => n == rounds && forall i :: 0 <= i < n ==> !EndsOn(net, Receive(lib, net, s, i).session, s.received + i)
                    case Some(again) =>
                      && n > 0
                      && (forall i :: 0 <= i < n - 1 ==> !EndsOn(net, Receive(lib, net, s, i).session, s.received + i))
                      && EndsOn(net, Receive(lib, net, s, n - 1).session, r.session.received - 1)
                      && again == AsksAgain(net, r.session.received - 1)
    decreases rounds
  {
    hide ReceiveOne, EndsOn, AsksAgain;
    if rounds > 0 {
      LoopEndsOn(lib, net, s, rounds - 1);
      var before := Receive(lib, net, s, rounds - 1);
      if before.dropped == None {
        if s.link == InSequence {
          NothingIsRead(lib, net, s);
        } else {
          OneEndsOn(lib, net, before.session);
        }
      }
    }
  }

  lemma NothingIsRead(lib: Library, net: Network, s: Session)
    requires s.link == InSequence
    ensures ReceiveOne(lib, net, s) == Reception(s, None)
  {
  }

  /** The response to a command of a known module says whether its device is connected, and if not whether it could be. */
  ghost predicate AnswersCommand(lib: Library, s: Session, device: DeviceId, response: ResponseType) {
    && (response == ResponseOk <==> exists d :: d in s.connected && d.identity == device.identity)
    && (response == ResponseNotSupported ==> !lib(device.identity.moduleNumber).supports(device.identity.deviceType))
    && (response == ResponseNotConnected ==> lib(device.identity.moduleNumber).supports(device.identity.deviceType))
  }

  /** What a message that is taken in does to the session. */
  ghost predicate TakesIn(lib: Library, s: Session, t: Session, message: ServerMessage) {
    match message
    case Command(session, counter, command) =>
      if IsForeign(s, session, counter) then t == s
      else if command.device.identity.moduleNumber !in s.errors then t == s.(commandCounter := counter)
      else
        && t.outbox != [] && t.outbox[|t.outbox| - 1].CommandResponse?
        && var response := t.outbox[|t.outbox| - 1].responseType;
           && AnswersCommand(lib, s, command.device, response)
           && t == s.(commandCounter := counter,
                      commands := if response == ResponseOk then s.commands + [command] else s.commands,
                      outbox := s.outbox + [CommandResponse(s.id, response, counter)])
    case StatusResponse(_, _, counter) =>
      if forall sent :: sent in s.pending ==> sent.counter != counter then t == s
      else exists k :: IsFirst(s.pending, k, counter) && t == s.(pending := s.pending[..k] + s.pending[k + 1..])
    case _ => t == s
  }

  ghost predicate IsFirst(pending: seq<Sent>, k: int, counter: uint32) {
    0 <= k < |pending| && pending[k].counter == counter && forall i :: 0 <= i < k ==> pending[i].counter != counter
  }

  lemma CommandIsTaken(lib: Library, s: Session, session: string, counter: uint32, command: DeviceCommand)
    ensures TakesIn(lib, s, HandleCommand(lib, s, session, counter, command), Command(session, counter, command))
  {
    if Listed(s.connected, command.device) {
      var k :| 0 <= k < |s.connected| && s.connected[k].identity == command.device.identity;
      assert s.connected[k] in s.connected;
    } else {
      forall d | d in s.connected ensures d.identity != command.device.identity {
        var k :| 0 <= k < |s.connected| && s.connected[k] == d;
      }
    }
  }

  lemma ResponseIsTaken(lib: Library, s: Session, session: string, ok: bool, counter: uint32)
    ensures TakesIn(lib, s, Acknowledge(s, counter), StatusResponse(session, ok, counter))
  {
    hide Acknowledged;
    AcknowledgementTakesOne(s.pending, counter);
    if Awaited(s.pending, counter) {
      var k := Position(s.pending, counter);
      assert s.pending[k] in s.pending;
      assert IsFirst(s.pending, k, counter);
    } else {
      forall sent | sent in s.pending ensures sent.counter != counter {
        var k :| 0 <= k < |s.pending| && s.pending[k] == sent;
      }
    }
  }

  /**
    Each message that the loop reads is taken in, with the answer it calls for; unless it comes with the announced
    disconnect, or the connection is not up, or nothing has come.
   */
  lemma LoopTakesIn(lib: Library, net: Network, s: Session, n: nat)
    requires s.link != InSequence && Receive(lib, net, s, n).dropped == None
    ensures var before, after := Receive(lib, net, s, n).session, Receive(lib, net, s, n + 1).session;
            var read, k := before.(received := before.received + 1), s.received + n;
            if net.notified(k) || s.link == NotConnected || net.inbox(k) == None then after == read
            else TakesIn(lib, read, after, net.inbox(k).value)
  {
    hide TakesIn, HandleCommand, HandleCommandOutcome, Acknowledge, AcknowledgedWell, Receive;
    LoopEndsOn(lib, net, s, n);
    var before := Receive(lib, net, s, n).session;
    ReceiveNext(lib, net, s, n);
    var read := before.(received := before.received + 1);
    match net.inbox(before.received)
    case Some(Command(session, counter, command)) =>
      CommandIsTaken(lib, read, session, counter, command);
    case Some(StatusResponse(session, ok, counter)) =>
      ResponseIsTaken(lib, read, session, ok, counter);
    case Some(message) =>
      OtherIsTaken(lib, read, message);
    case None =>
  }

  lemma ReceiveNext(lib: Library, net: Network, s: Session, n: nat)
    requires Receive(lib, net, s, n).dropped == None
    ensures Receive(lib, net, s, n + 1) == ReceiveOne(lib, net, Receive(lib, net, s, n).session)
  {
    hide ReceiveOne;
  }

  lemma OtherIsTaken(lib: Library, s: Session, message: ServerMessage)
    requires !message.Command? && !message.StatusResponse?
    ensures TakesIn(lib, s, s, message)
  {
  }
}
