/** The receive buffer of one internal client and the recursive parser that empties it. */
module StreamParser {
  import opened Common
  import opened Framing

  const BUFFER_LENGTH: nat := 1024

  class ConnContext {
    const buffer: array<byte>
    var completeMessageSize: nat
    var completeMessage: Bytes
    /** Every message given to the handler so far, oldest first. */
    var delivered: seq<Bytes>
    const handler: Handler

    /** Nothing below is called after a refused read, which closes the connection. */
    ghost predicate Valid()
      reads this
    {
      buffer.Length == BUFFER_LENGTH && BetweenReads(State())
    }

    function State(): ParserState
      reads this
    {
      ParserState(completeMessageSize, completeMessage)
    }

    constructor (handler: Handler)
      ensures Valid() && fresh(buffer)
      ensures this.handler == handler && delivered == [] && State() == IDLE
    {
      this.handler := handler;
      buffer := new byte[BUFFER_LENGTH](_ => 0);
      completeMessageSize, completeMessage, delivered := 0, [], [];
    }

    /** `count` bytes of the buffer, from `offset` on. */
    function Window(offset: nat, count: nat): (bytes: Bytes)
      requires offset + count <= buffer.Length
      reads buffer
      ensures |bytes| == count
    {
      buffer[offset..offset + count]
    }

    lemma WindowParts(offset: nat, count: nat, k: nat)
      requires offset + count <= buffer.Length && k <= count
      ensures Window(offset, count)[..k] == Window(offset, k)
      ensures Window(offset, count)[k..] == Window(offset + k, count - k)
    {
    }

    method HandleMessage() returns (ok: bool)
      modifies this`delivered
      ensures delivered == old(delivered) + [completeMessage]
      ensures ok == handler(delivered)
    {
      delivered := delivered + [completeMessage];
      ok := handler(delivered);
    }

    /** One socket read: the operating system fills the buffer, then the parser empties it. */
    method Receive(data: Bytes) returns (ok: bool)
      requires Valid() && |data| <= BUFFER_LENGTH
      modifies this, buffer
      ensures var r := Read(handler, old(delivered), old(State()), data);
              ok == r.accepted && delivered == r.delivered && State() == r.state
      ensures ok ==> Valid()
    {
      for i := 0 to |data|
        invariant buffer[..i] == data[..i]
        invariant State() == old(State()) && delivered == old(delivered)
      {
        buffer[i] := data[i];
      }
      assert Window(0, |data|) == data;
      ok := ProcessBufferData(|data|, 0);
    }

    /**
      Takes as much of the buffer as the announced message still needs, and delivers the message once it
      is complete.
     */
    method TakeMessage(dataBegin: nat, bytesLeft: nat) returns (ok: bool, messageBytesLeft: nat)
      requires buffer.Length == BUFFER_LENGTH && dataBegin + bytesLeft <= buffer.Length
      requires completeMessageSize < TWO_32 && |completeMessage| <= completeMessageSize
      modifies this
      ensures messageBytesLeft <= bytesLeft
      ensures messageBytesLeft < bytesLeft ==> messageBytesLeft == old(completeMessageSize - |completeMessage|)
      ensures ok ==> Valid()
      ensures var r := ReadBody(handler, old(delivered), old(State()), Window(dataBegin, bytesLeft));
              r == if ok && messageBytesLeft < bytesLeft
                   then Read(handler, delivered, State(), Window(dataBegin + messageBytesLeft, bytesLeft - messageBytesLeft))
                   else ReadResult(ok, delivered, State())
    {
      hide Read, ReadBody, Window;
      // The subtraction is one of unsigned integers: it does not wrap around.
      var missing: nat := completeMessageSize - |completeMessage|;
      messageBytesLeft := if missing < bytesLeft then missing else bytesLeft;
      WindowParts(dataBegin, bytesLeft, messageBytesLeft);
      completeMessage := completeMessage + Window(dataBegin, messageBytesLeft);
      ReadBodyCases(handler, delivered, old(State()), Window(dataBegin, bytesLeft), completeMessage);

      ok := true;
      if completeMessageSize == |completeMessage| {
        ok := HandleMessage();
        if !ok {
          return;
        }
        completeMessage := [];
        completeMessageSize := 0;
      }
    }

    method ProcessBufferData(bytesTransferred: nat, bufferOffset: nat) returns (ok: bool)
      requires Valid()
      modifies this
      decreases bytesTransferred
      ensures bufferOffset + bytesTransferred > buffer.Length ==>
                !ok && delivered == old(delivered) && State() == old(State())
      ensures bufferOffset + bytesTransferred <= buffer.Length ==>
                var r := Read(handler, old(delivered), old(State()), Window(bufferOffset, bytesTransferred));
                ReadResult(ok, delivered, State()) == r
      ensures ok ==> Valid()
    {
      hide Read, ReadBody, DecodeSize, Window;
      if bufferOffset + bytesTransferred > buffer.Length {
        return false;
      }
      if bytesTransferred < HEADER_SIZE && completeMessageSize == 0 {
        ReadTornHeader(handler, delivered, Window(bufferOffset, bytesTransferred));
        return false;
      }
      var bytesLeft := bytesTransferred;
      var dataBegin := bufferOffset;
      if completeMessageSize == 0 {
        WindowParts(bufferOffset, bytesTransferred, HEADER_SIZE);
        ReadNewMessage(handler, delivered, Window(bufferOffset, bytesTransferred));
        completeMessageSize := DecodeSize(Window(dataBegin, HEADER_SIZE));
        dataBegin := dataBegin + HEADER_SIZE;
        assert HEADER_SIZE <= bytesLeft;  // the second check for an incomplete header is never true
        bytesLeft := bytesLeft - HEADER_SIZE;
      } else {
        ReadOldMessage(handler, delivered, State(), Window(bufferOffset, bytesTransferred));
      }
      var goOn, messageBytesLeft := TakeMessage(dataBegin, bytesLeft);
      if !goOn {
        return false;
      }
      assert messageBytesLeft <= bytesLeft;  // so is the check for a message longer than the rest,
      bytesLeft := bytesLeft - messageBytesLeft;
      assert bytesLeft <= bytesTransferred;  // and the one for a rest longer than the read
      if bytesLeft > 0 {
        var rest := bufferOffset + (bytesTransferred - bytesLeft);
        assert rest + bytesLeft == bufferOffset + bytesTransferred;  // the window only shrinks from the left
        ok := ProcessBufferData(bytesLeft, rest);
        return ok;
      }
      return true;
    }
  }

  lemma ReadBodyCases(handler: Handler, before: seq<Bytes>, open: ParserState, body: Bytes, message: Bytes)
    requires open.size < TWO_32 && |open.partial| <= open.size
    requires var missing := open.size - |open.partial|;
             message == open.partial + body[..if missing < |body| then missing else |body|]
    ensures |message| != open.size ==>
              |message| < open.size
              && |body| == |message| - |open.partial|
              && ReadBody(handler, before, open, body) == ReadResult(true, before, ParserState(open.size, message))
    ensures |message| == open.size ==>
              var now := before + [message];
              var taken := open.size - |open.partial|;
              taken <= |body|
              && ReadBody(handler, before, open, body) ==
                 if !handler(now) then ReadResult(false, now, ParserState(open.size, message))
                 else if |body| == taken then ReadResult(true, now, IDLE)
                 else Read(handler, now, IDLE, body[taken..])
  {
    assert body[..|body|] == body;
  }

  lemma ReadTornHeader(handler: Handler, before: seq<Bytes>, input: Bytes)
    requires |input| < HEADER_SIZE
    ensures Read(handler, before, IDLE, input) == ReadResult(false, before, IDLE)
  {
    assert Pending(IDLE) + input == input;
  }

  /**
    A read seen from a state whose message size is known, with `body` the bytes of the read after the
    header. Either the body does not complete the message, or the message is delivered and what follows
    is a read of its own.
   */
  function ReadBody(handler: Handler, before: seq<Bytes>, open: ParserState, body: Bytes): ReadResult
    requires open.size < TWO_32 && |open.partial| <= open.size
  {
    var missing := open.size - |open.partial|;
    if |body| < missing then
      ReadResult(true, before, ParserState(open.size, open.partial + body))
    else
      var message := open.partial + body[..missing];
      if !handler(before + [message]) then
        ReadResult(false, before + [message], ParserState(open.size, message))
      else if |body| == missing then
        ReadResult(true, before + [message], IDLE)
      else
        Read(handler, before + [message], IDLE, body[missing..])
  }

  lemma ReadNewMessage(handler: Handler, before: seq<Bytes>, input: Bytes)
    requires |input| >= HEADER_SIZE
    ensures Read(handler, before, IDLE, input)
         == ReadBody(handler, before, ParserState(DecodeSize(input[..HEADER_SIZE]), []), input[HEADER_SIZE..])
  {
    var open := ParserState(DecodeSize(input[..HEADER_SIZE]), []);
    EncodeDecode(input[..HEADER_SIZE]);
    hide Split, Deliver, DecodeSize, EncodeSize;
    assert Pending(IDLE) + input == EncodeSize(open.size) + open.partial + input[HEADER_SIZE..];
    ReadStream(handler, before, open, input[HEADER_SIZE..]);
  }

  lemma ReadOldMessage(handler: Handler, before: seq<Bytes>, p: ParserState, input: Bytes)
    requires BetweenReads(p) && p != IDLE
    ensures Read(handler, before, p, input) == ReadBody(handler, before, p, input)
  {
    hide Split, Deliver, DecodeSize, EncodeSize;
    ReadStream(handler, before, p, input);
  }

  lemma ReadStream(handler: Handler, before: seq<Bytes>, open: ParserState, body: Bytes)
    requires open.size < TWO_32 && |open.partial| <= open.size
    ensures var cut := Split(EncodeSize(open.size) + open.partial + body);
            var d := Deliver(handler, before, cut.messages);
            ReadBody(handler, before, open, body) ==
            if d.refused && d.delivered != [] then
              var last := d.delivered[|d.delivered| - 1];
              ReadResult(false, d.delivered, ParserState(|last|, last))
            else
              ReadResult(cut.rest == [] || |cut.rest| >= HEADER_SIZE, d.delivered, Resume(cut.rest))
  {
    hide Split, DecodeSize, EncodeSize;
    OpenedStream(open, body);
    var missing := open.size - |open.partial|;
    if |body| >= missing {
      var message := open.partial + body[..missing];
      var tail := body[missing..];
      assert Pending(IDLE) + tail == tail;
      var later := Split(tail).messages;
      assert ([message] + later)[1..] == later;
      RefusalDelivers(handler, before + [message], later);
      assert tail == [] ==> Split(tail) == Cut([], []) by {
        SplitNothing();
      }
    }
  }

  lemma SplitNothing()
    ensures Split([]) == Cut([], [])
  {
  }

  lemma OpenedStream(open: ParserState, body: Bytes)
    requires open.size < TWO_32 && |open.partial| <= open.size
    ensures var stream := EncodeSize(open.size) + open.partial + body;
            var missing := open.size - |open.partial|;
            if |body| < missing then
              Split(stream) == Cut([], stream) && Resume(stream) == ParserState(open.size, open.partial + body)
            else
              Split(stream) == Cut([open.partial + body[..missing]] + Split(body[missing..]).messages,
                                   Split(body[missing..]).rest)
  {
    var stream := EncodeSize(open.size) + open.partial + body;
    assert stream[..HEADER_SIZE] == EncodeSize(open.size);
    assert stream[HEADER_SIZE..] == open.partial + body;
    var missing := open.size - |open.partial|;
    if |body| >= missing {
      var end := HEADER_SIZE + open.size;
      assert stream[HEADER_SIZE..end] == open.partial + body[..missing];
      assert stream[end..] == body[missing..];
    }
  }
}
