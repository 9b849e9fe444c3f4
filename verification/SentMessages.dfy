/** The statuses waiting for an acknowledgement, and the devices the external server knows as connected. */
module SentMessages {
  import opened Common

  /** The state a device is reported in. */
  datatype Kind = Connecting | Running | Disconnecting | Erroneous

  datatype Sent = Sent(session: string, kind: Kind, counter: uint32, status: DeviceStatus, error: Buffer)

  /** The pending statuses without the first one that has the counter. */
  function Acknowledged(pending: seq<Sent>, counter: uint32): seq<Sent> {
    if pending == [] then []
    else if pending[0].counter == counter then pending[1..]
    else [pending[0]] + Acknowledged(pending[1..], counter)
  }

  predicate Awaited(pending: seq<Sent>, counter: uint32) {
    exists k :: 0 <= k < |pending| && pending[k].counter == counter
  }

  lemma AwaitedFirst(pending: seq<Sent>, counter: uint32)
    requires pending != []
    ensures Awaited(pending, counter) <==> pending[0].counter == counter || Awaited(pending[1..], counter)
  {
    if Awaited(pending, counter) && pending[0].counter != counter {
      var k :| 0 <= k < |pending| && pending[k].counter == counter;
      assert pending[1..][k - 1].counter == counter;
    }
    if Awaited(pending[1..], counter) {
      var k :| 0 <= k < |pending[1..]| && pending[1..][k].counter == counter;
      assert pending[k + 1].counter == counter;
    }
  }

  /** The oldest pending status with the counter. */
  function Position(pending: seq<Sent>, counter: uint32): (k: nat)
    requires Awaited(pending, counter)
    ensures k < |pending| && pending[k].counter == counter
    ensures forall j :: 0 <= j < k ==> pending[j].counter != counter
  {
    AwaitedFirst(pending, counter);
    if pending[0].counter == counter then 0 else 1 + Position(pending[1..], counter)
  }

  /** An acknowledgement takes out one status and leaves the others in their order; without one it does nothing. */
  lemma {:induction false} AcknowledgementTakesOne(pending: seq<Sent>, counter: uint32)
    ensures Awaited(pending, counter) ==>
              var k := Position(pending, counter);
              Acknowledged(pending, counter) == pending[..k] + pending[k + 1..]
    ensures !Awaited(pending, counter) ==> Acknowledged(pending, counter) == pending
  {
    hide Awaited;
    if pending == [] {
      assert Acknowledged(pending, counter) == pending;
      assert !Awaited(pending, counter) by { NothingAwaited(counter); }
    } else {
      AwaitedFirst(pending, counter);
      if pending[0].counter != counter {
        AcknowledgementTakesOne(pending[1..], counter);
        if Awaited(pending, counter) {
          var k := Position(pending[1..], counter);
          assert [pending[0]] + (pending[1..][..k] + pending[1..][k + 1..]) == pending[..k + 1] + pending[k + 2..];
        }
      }
    }
  }

  lemma NothingAwaited(counter: uint32)
    ensures !Awaited([], counter)
  {
  }

  /** The last status of a disconnected gateway is acknowledged with an error, which ends the session. */
  predicate AcknowledgedWell(pending: seq<Sent>, connected: seq<DeviceId>, counter: uint32) {
    Awaited(pending, counter) && (connected != [] || Acknowledged(pending, counter) != [])
  }

  function Entries(connected: seq<DeviceId>, device: DeviceId): nat {
    if connected == [] then 0
    else (if connected[0].identity == device.identity then 1 else 0) + Entries(connected[1..], device)
  }

  lemma {:induction false} ConnectedByEntries(connected: seq<DeviceId>, device: DeviceId)
    ensures Listed(connected, device) <==> Entries(connected, device) > 0
  {
    if connected != [] {
      ConnectedByEntries(connected[1..], device);
      if Listed(connected[1..], device) {
        var k :| 0 <= k < |connected[1..]| && connected[1..][k].identity == device.identity;
        assert connected[k + 1].identity == device.identity;
      }
      if Listed(connected, device) && connected[0].identity != device.identity {
        var k :| 0 <= k < |connected| && connected[k].identity == device.identity;
        assert connected[1..][k - 1].identity == device.identity;
      }
    }
  }

  lemma {:induction false} DisconnectedEntries(connected: seq<DeviceId>, device: DeviceId, other: DeviceId)
    ensures var n := Entries(connected, other);
            Entries(Unlisted(connected, device), other)
            == if other.identity == device.identity && n > 0 then n - 1 else n
  {
    if connected != [] && connected[0].identity != device.identity {
      DisconnectedEntries(connected[1..], device, other);
      assert ([connected[0]] + Unlisted(connected[1..], device))[1..] == Unlisted(connected[1..], device);
    }
  }

  /**
    A disconnect leaves the other devices as they are, and the device itself is gone unless it had been
    entered more than once.
   */
  lemma DisconnectTakesOneEntry(connected: seq<DeviceId>, device: DeviceId, other: DeviceId)
    ensures Listed(Unlisted(connected, device), device) <==> Entries(connected, device) > 1
    ensures other.identity != device.identity ==>
              (Listed(Unlisted(connected, device), other) <==> Listed(connected, other))
  {
    ConnectedByEntries(Unlisted(connected, device), device);
    DisconnectedEntries(connected, device, device);
    ConnectedByEntries(Unlisted(connected, device), other);
    ConnectedByEntries(connected, other);
    DisconnectedEntries(connected, device, other);
  }

  class SentMessagesHandler {
    var notAckedStatuses: seq<Sent>
    var connectedDevices: seq<DeviceId>

    constructor ()
      ensures notAckedStatuses == [] && connectedDevices == []
    {
      notAckedStatuses, connectedDevices := [], [];
    }

    method AddNotAckedStatus(sent: Sent)
      modifies this`notAckedStatuses
      ensures notAckedStatuses == old(notAckedStatuses) + [sent]
    {
      notAckedStatuses := notAckedStatuses + [sent];
    }

    method AcknowledgeStatus(counter: uint32) returns (ok: bool)
      modifies this`notAckedStatuses
      ensures notAckedStatuses == Acknowledged(old(notAckedStatuses), counter)
      ensures ok == AcknowledgedWell(old(notAckedStatuses), connectedDevices, counter)
    {
      AcknowledgementTakesOne(notAckedStatuses, counter);
      var i := 0;
      while i < |notAckedStatuses|
        invariant i <= |notAckedStatuses| && notAckedStatuses == old(notAckedStatuses)
        invariant forall j :: 0 <= j < i ==> notAckedStatuses[j].counter != counter
      {
        if notAckedStatuses[i].counter == counter {
          assert Awaited(notAckedStatuses, counter) && i == Position(notAckedStatuses, counter);
          notAckedStatuses := notAckedStatuses[..i] + notAckedStatuses[i + 1..];
          if connectedDevices == [] && notAckedStatuses == [] {
            return false;
          }
          return true;
        }
        i := i + 1;
      }
      return false;
    }

    method ClearAll()
      modifies this`notAckedStatuses
      ensures notAckedStatuses == []
    {
      notAckedStatuses := [];
    }

    method AddDeviceAsConnected(device: DeviceId)
      modifies this`connectedDevices
      ensures connectedDevices == old(connectedDevices) + [device]
    {
      connectedDevices := connectedDevices + [device];
    }

    /** Takes out the first entry of the device; a device that was connected again still has another. */
    method DeleteConnectedDevice(device: DeviceId)
      modifies this`connectedDevices
      ensures connectedDevices == Unlisted(old(connectedDevices), device)
    {
      var i := 0;
      while i < |connectedDevices| && connectedDevices[i].identity != device.identity
        invariant i <= |connectedDevices|
        invariant Unlisted(connectedDevices, device) == connectedDevices[..i] + Unlisted(connectedDevices[i..], device)
      {
        assert connectedDevices[..i] + [connectedDevices[i]] == connectedDevices[..i + 1];
        i := i + 1;
      }
      if i < |connectedDevices| {
        connectedDevices := connectedDevices[..i] + connectedDevices[i + 1..];
      }
    }

    method IsDeviceConnected(device: DeviceId) returns (connected: bool)
      ensures connected == Listed(connectedDevices, device)
    {
      for i := 0 to |connectedDevices|
        invariant forall k :: 0 <= k < i ==> connectedDevices[k].identity != device.identity
      {
        if connectedDevices[i].identity == device.identity {
          return true;
        }
      }
      return false;
    }
  }
}
