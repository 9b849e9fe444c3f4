/** The connections of internal clients and the vector of those that hold a device. */
module InternalServer {
  import opened Common
  import opened ConnectionTable
  import Framing

  datatype ServerMessage =
    | ConnectResponse(device: DeviceId, verdict: Verdict)
    | Command(device: DeviceId, data: Buffer)

  ghost predicate Distinct<T>(s: seq<T>) {
    forall i, j :: 0 <= i < j < |s| ==> s[i] != s[j]
  }

  function Erase<T>(s: seq<T>, i: nat): seq<T>
    requires i < |s|
  {
    s[..i] + s[i + 1..]
  }

  lemma EraseDistinct<T>(s: seq<T>, i: nat)
    requires Distinct(s) && i < |s|
    ensures Distinct(Erase(s, i))
    ensures forall x :: x in Erase(s, i) <==> x in s && x != s[i]
  {
    forall x | x in s && x != s[i] ensures x in Erase(s, i) {
      var k :| 0 <= k < |s| && s[k] == x;
      assert Erase(s, i)[if k < i then k else k - 1] == x;
    }
  }

  class Connection {
    var deviceId: Option<DeviceId>
    /** True when the client may send its next message. */
    var ready: bool
    var socketOpen: bool
    /** The bytes written to the client. */
    var written: Bytes

    constructor ()
      ensures deviceId == None && !ready && socketOpen && written == []
    {
      deviceId, ready, socketOpen, written := None, false, true, [];
    }
  }

  /** A client that has read whole responses so far reads the next one as it is, if it is shorter than 2^32 bytes. */
  lemma ClientReadsResponse(written: Bytes, responses: seq<Bytes>, data: Bytes)
    requires Framing.Split(written) == Framing.Cut(responses, [])
    ensures Framing.Split(written + Framing.Frame(data)) == Framing.Cut(responses + [data], []) <==> |data| < TWO_32
  {
    hide Framing.Split, Framing.Frame;
    Framing.SplitAppend(written, Framing.Frame(data));
    Framing.FrameIsReadBackExactly(data);
    var frame := Framing.Split(Framing.Frame(data));
    assert [] + Framing.Frame(data) == Framing.Frame(data);
    if responses + frame.messages == responses + [data] {
      assert frame.messages == (responses + frame.messages)[|responses|..] == [data];
    }
  }

  class Server {
    /** How a message becomes bytes. */
    const serialize: ServerMessage -> Bytes
    var connectedDevices: seq<Connection>
    /** Everything pushed to the module handler so far. */
    var fromInternalQueue: seq<Event>
    /** The slots the vector stands for. */
    ghost var slots: map<Identity, Slot<Connection>>

    ghost predicate Valid()
      reads this, connectedDevices
    {
      && (forall c :: c in connectedDevices ==>
            && c.deviceId.Some?
            && c.deviceId.value.identity in slots
            && slots[c.deviceId.value.identity] == Slot(c, c.deviceId.value))
      && (forall id :: id in slots ==>
            && slots[id].conn in connectedDevices
            && slots[id].device.identity == id
            && slots[id].conn.deviceId == Some(slots[id].device))
      && Distinct(connectedDevices)
    }

    ghost function Contents(): Table<Connection>
      reads this
    {
      Table(slots, fromInternalQueue)
    }

    constructor (serialize: ServerMessage -> Bytes)
      ensures Valid() && Contents() == Table(map[], []) && this.serialize == serialize
    {
      this.serialize := serialize;
      connectedDevices, fromInternalQueue := [], [];
      slots := map[];
    }

    /** The index of the first connection with the identity of `device`. */
    method FindIndex(device: DeviceId) returns (i: nat)
      requires Valid()
      ensures i <= |connectedDevices|
      ensures i == |connectedDevices| <==> device.identity !in slots
      ensures i < |connectedDevices| ==> connectedDevices[i] == slots[device.identity].conn
    {
      i := 0;
      while i < |connectedDevices| && connectedDevices[i].deviceId.value.identity != device.identity
        invariant i <= |connectedDevices|
        invariant forall k :: 0 <= k < i ==> connectedDevices[k].deviceId.value.identity != device.identity
      {
        i := i + 1;
      }
    }

    method FindConnection(device: DeviceId) returns (found: Connection?)
      requires Valid()
      ensures found == if device.identity in slots then slots[device.identity].conn else null
    {
      var i := FindIndex(device);
      found := if i < |connectedDevices| then connectedDevices[i] else null;
    }

    method SendResponse(connection: Connection, message: ServerMessage) returns (ok: bool)
      modifies connection`written
      ensures ok == connection.socketOpen
      ensures connection.written == if ok then old(connection.written) + Framing.Frame(serialize(message))
                                    else old(connection.written)
    {
      if !connection.socketOpen {
        return false;
      }
      var data := serialize(message);
      var header := |data| % TWO_32;
      connection.written := connection.written + Framing.EncodeSize(header);
      connection.written := connection.written + data;
      return true;
    }

    method ConnectNewDevice(connection: Connection, device: DeviceId)
      requires Valid() && connection.deviceId == None && device.identity !in slots
      modifies this, connection`deviceId
      ensures Valid() && connection.deviceId == Some(device)
      ensures Contents() == Enter(old(Contents()), connection, device)
      ensures connectedDevices == old(connectedDevices) + [connection]
    {
      connection.deviceId := Some(device);
      connectedDevices := connectedDevices + [connection];
      fromInternalQueue := fromInternalQueue + [Connected(device)];
      slots := slots[device.identity := Slot(connection, device)];
    }

    method RemoveConnFromMap(connection: Connection)
      requires Valid()
      modifies this, connection`socketOpen
      ensures Valid() && !connection.socketOpen
      ensures Contents() == match connection.deviceId
                            case None => old(Contents())
                            case Some(device) => Drop(old(Contents()), device)
      ensures forall c :: c in connectedDevices ==> c in old(connectedDevices)
    {
      hide Erase, Distinct;
      connection.socketOpen := false;
      if connection.deviceId == None {
        return;
      }
      var device := connection.deviceId.value;
      var i := FindIndex(device);
      if i < |connectedDevices| && connectedDevices[i].deviceId.value.priority == device.priority {
        EraseDistinct(connectedDevices, i);
        connectedDevices := Erase(connectedDevices, i);
        fromInternalQueue := fromInternalQueue + [Disconnected(device)];
        slots := slots - {device.identity};
      }
    }

    method ChangeConnection(connection: Connection, device: DeviceId)
      requires Valid() && connection.deviceId == None && device.identity in slots
      modifies this, connection`deviceId, (set c | c in connectedDevices)`socketOpen
      ensures Valid() && connection.deviceId == Some(device)
      ensures Contents() == Enter(Drop(old(Contents()), old(slots[device.identity].device)), connection, device)
      ensures forall c :: c in old(connectedDevices) ==>
                c.socketOpen == (old(c.socketOpen) && c != old(slots[device.identity].conn))
    {
      var oldConnection := FindConnection(device);
      if oldConnection != null {
        RemoveConnFromMap(oldConnection);
      }
      ConnectNewDevice(connection, device);
    }

    /** A connection that starts a new message has no identity, or has one and is ready. */
    method HandleConnection(connection: Connection, device: DeviceId) returns (ok: bool)
      requires Valid() && (connection.deviceId == None || connection.ready)
      modifies this, connection`deviceId, connection`written, (set c | c in connectedDevices)`socketOpen
      ensures Valid()
      ensures ok <==> !connection.ready && Judge(old(Contents()), device) == Admitted
      ensures ok <==> !connection.ready && (device.identity in old(slots) ==> device.priority < old(slots[device.identity].device.priority))
      ensures connection.deviceId == if ok then Some(device) else old(connection.deviceId)
      ensures Contents() == if ok then Admit(old(Contents()), connection, device) else old(Contents())
      ensures var heard := !connection.ready && connection.socketOpen && device.identity in old(slots);
              connection.written == old(connection.written) +
                if heard && device.priority == old(slots[device.identity].device.priority) then
                  Framing.Frame(serialize(ConnectResponse(device, AlreadyConnected)))
                else if heard && device.priority > old(slots[device.identity].device.priority) then
                  Framing.Frame(serialize(ConnectResponse(device, HigherPriorityConnected)))
                else []
      ensures forall c :: c in old(connectedDevices) ==>
                var replaced := ok && device.identity in old(slots) && c == old(slots[device.identity].conn);
                c.socketOpen == (old(c.socketOpen) && !replaced)
    {
      if connection.ready {
        return false;
      }
      var existing := FindConnection(device);
      if existing == null {
        ConnectNewDevice(connection, device);
      } else {
        assert existing.deviceId == Some(slots[device.identity].device);
        if device.priority == existing.deviceId.value.priority {
          var _ := SendResponse(connection, ConnectResponse(device, AlreadyConnected));
          return false;
        }
        if device.priority > existing.deviceId.value.priority {
          var _ := SendResponse(connection, ConnectResponse(device, HigherPriorityConnected));
          return false;
        }
        ChangeConnection(connection, device);
      }
      return true;
    }

    method HandleStatus(connection: Connection, status: DeviceStatus) returns (ok: bool)
      requires Valid()
      modifies this`fromInternalQueue, connection`ready
      ensures Valid() && !connection.ready
      ensures ok == old(connection.ready)
      ensures fromInternalQueue == if ok then old(fromInternalQueue) + [StatusReceived(status)] else old(fromInternalQueue)
    {
      if !connection.ready {
        return false;
      }
      fromInternalQueue := fromInternalQueue + [StatusReceived(status)];
      connection.ready := false;
      return true;
    }

    /** Whatever connection holds the identity is disconnected, at whichever priority. */
    method HandleDisconnect(device: DeviceId)
      requires Valid()
      modifies this, (set c | c in connectedDevices)`socketOpen
      ensures Valid() && device.identity !in slots
      ensures Contents() == if device.identity in old(slots) then Drop(old(Contents()), old(slots[device.identity].device))
                            else old(Contents())
      ensures forall c :: c in old(connectedDevices) ==>
                var dropped := device.identity in old(slots) && c == old(slots[device.identity].conn);
                c.socketOpen == (old(c.socketOpen) && !dropped)
    {
      var connection := FindConnection(device);
      if connection != null {
        RemoveConnFromMap(connection);
      }
    }

    /** The connection a response of the module handler is for. */
    ghost function Addressee(device: DeviceId): Option<Connection>
      reads this
    {
      if device.identity in slots && slots[device.identity].device.priority == device.priority
      then Some(slots[device.identity].conn)
      else None
    }

    /** Only a response to the holder, at the holder's own priority, reaches a client and lets it go on. */
    method ValidateResponse(message: ServerMessage)
      requires Valid()
      modifies (set c | c in connectedDevices)`ready, (set c | c in connectedDevices)`written
      ensures Valid()
      ensures forall c :: c in connectedDevices ==>
                var reached := Addressee(message.device) == Some(c);
                && c.ready == (reached || old(c.ready))
                && c.written == if reached && c.socketOpen then old(c.written) + Framing.Frame(serialize(message)) else old(c.written)
    {
      var connection := FindConnection(message.device);
      if connection != null && connection.deviceId.value.priority == message.device.priority {
        var _ := SendResponse(connection, message);
        connection.ready := true;
      }
    }
  }
}
