/**
  The byte stream of one internal client, as a specification that knows nothing of reads, buffers or
  recursion: a message is framed by its length in four little endian bytes, and a stream is cut into
  the frames it holds.
 */
module Framing {
  import opened Common

  const HEADER_SIZE: nat := 4

  function DecodeSize(header: Bytes): (n: nat)
    requires |header| == HEADER_SIZE
    ensures n < TWO_32
  {
    var b0: int, b1: int, b2: int, b3: int := header[0], header[1], header[2], header[3];
    b0 + 0x100 * b1 + 0x1_0000 * b2 + 0x100_0000 * b3
  }

  function EncodeSize(n: nat): (header: Bytes)
    requires n < TWO_32
    ensures |header| == HEADER_SIZE
    ensures DecodeSize(header) == n
  {
    var n1 := n / 0x100;
    var n2 := n1 / 0x100;
    [n % 0x100, n1 % 0x100, n2 % 0x100, n2 / 0x100]
  }

  lemma EncodeDecode(header: Bytes)
    requires |header| == HEADER_SIZE
    ensures EncodeSize(DecodeSize(header)) == header
  {
    var n := DecodeSize(header);
    var b1: int, b2: int, b3: int := header[1], header[2], header[3];
    assert n / 0x100 == b1 + 0x100 * b2 + 0x1_0000 * b3;
    assert n / 0x100 / 0x100 == b2 + 0x100 * b3;
  }

  /** What the server writes for one message: the length is stored in 32 bits. */
  function Frame(message: Bytes): Bytes {
    EncodeSize(|message| % TWO_32) + message
  }

  /** The bytes of a header are the digits of the length to the base 256, the lowest one first. */
  lemma HeaderDigits(header: Bytes, i: nat)
    requires |header| == HEADER_SIZE && i < 4
    ensures header[i] as int == DecodeSize(header) / [1, 0x100, 0x1_0000, 0x100_0000][i] % 0x100
  {
    var n := DecodeSize(header);
    EncodeDecode(header);
    assert n / 0x1_0000 == n / 0x100 / 0x100 && n / 0x100_0000 == n / 0x100 / 0x100 / 0x100;
  }

  /** What is written for a message is its length, in four such bytes, and then the message. */
  lemma FrameStartsWithLength(message: Bytes, i: nat)
    requires i < 4
    ensures |Frame(message)| == 4 + |message| && Frame(message)[4..] == message
    ensures Frame(message)[i] as int == |message| / [1, 0x100, 0x1_0000, 0x100_0000][i] % 0x100
  {
    var n := |message|;
    HeaderDigits(EncodeSize(n % TWO_32), i);
    LowDigit(n, i);
  }

  /** The digits of a number do not change when it is cut to 32 bits. */
  lemma LowDigit(n: nat, i: nat)
    requires i < 4
    ensures n % TWO_32 / [1, 0x100, 0x1_0000, 0x100_0000][i] % 0x100 == n / [1, 0x100, 0x1_0000, 0x100_0000][i] % 0x100
  {
    match i
    case 0 => SameLow(n, n % TWO_32, n / TWO_32 * 0x100_0000);
    case 1 => SecondDigit(n);
    case 2 => ThirdDigit(n);
    case _ => FourthDigit(n);
  }

  lemma SameLow(n: nat, r: nat, k: nat)
    requires n == r + 0x100 * k
    ensures n % 0x100 == r % 0x100
  {
  }

  lemma SecondDigit(n: nat)
    ensures n % TWO_32 / 0x100 % 0x100 == n / 0x100 % 0x100
  {
    var q, r := n / TWO_32, n % TWO_32;
    assert n / 0x100 == r / 0x100 + 0x100_0000 * q;
    SameLow(n / 0x100, r / 0x100, 0x1_0000 * q);
  }

  lemma ThirdDigit(n: nat)
    ensures n % TWO_32 / 0x1_0000 % 0x100 == n / 0x1_0000 % 0x100
  {
    var q, r := n / TWO_32, n % TWO_32;
    assert n / 0x1_0000 == r / 0x1_0000 + 0x1_0000 * q;
    SameLow(n / 0x1_0000, r / 0x1_0000, 0x100 * q);
  }

  lemma FourthDigit(n: nat)
    ensures n % TWO_32 / 0x100_0000 % 0x100 == n / 0x100_0000 % 0x100
  {
    var q, r := n / TWO_32, n % TWO_32;
    assert n / 0x100_0000 == r / 0x100_0000 + 0x100 * q;
    SameLow(n / 0x100_0000, r / 0x100_0000, q);
  }

  function FrameAll(messages: seq<Bytes>): Bytes {
    if messages == [] then [] else Frame(messages[0]) + FrameAll(messages[1..])
  }

  datatype Cut = Cut(messages: seq<Bytes>, rest: Bytes)

  /** The length of the frame a stream begins with. */
  function FrameEnd(stream: Bytes): (end: nat)
    requires |stream| >= HEADER_SIZE
    ensures end >= HEADER_SIZE
  {
    HEADER_SIZE + DecodeSize(stream[..HEADER_SIZE])
  }

  predicate BeginsWithFrame(stream: Bytes) {
    |stream| >= HEADER_SIZE && |stream| >= FrameEnd(stream)
  }

  /** Cuts a whole stream into its complete frames and the bytes left over. */
  function Split(stream: Bytes): Cut {
    if !BeginsWithFrame(stream) then
      Cut([], stream)
    else
      var tail := Split(stream[FrameEnd(stream)..]);
      Cut([stream[HEADER_SIZE..FrameEnd(stream)]] + tail.messages, tail.rest)
  }

  lemma FrameEndAppend(x: Bytes, y: Bytes)
    requires BeginsWithFrame(x)
    ensures BeginsWithFrame(x + y) && FrameEnd(x + y) == FrameEnd(x)
    ensures (x + y)[HEADER_SIZE..FrameEnd(x)] == x[HEADER_SIZE..FrameEnd(x)]
    ensures (x + y)[FrameEnd(x)..] == x[FrameEnd(x)..] + y
  {
    assert (x + y)[..HEADER_SIZE] == x[..HEADER_SIZE];
  }

  lemma {:induction false} SplitAppend(x: Bytes, y: Bytes)
    ensures var a := Split(x); var b := Split(a.rest + y);
            Split(x + y) == Cut(a.messages + b.messages, b.rest)
    decreases |x|
  {
    hide DecodeSize, FrameEnd;
    if BeginsWithFrame(x) {
      FrameEndAppend(x, y);
      SplitAppend(x[FrameEnd(x)..], y);
      var m, a := [x[HEADER_SIZE..FrameEnd(x)]], Split(x[FrameEnd(x)..]);
      var b := Split(a.rest + y);
      assert m + (a.messages + b.messages) == m + a.messages + b.messages;
    }
  }

  lemma {:induction false} SplitRestIsOpen(x: Bytes)
    ensures !BeginsWithFrame(Split(x).rest)
    decreases |x|
  {
    if BeginsWithFrame(x) {
      SplitRestIsOpen(x[FrameEnd(x)..]);
    }
  }

  lemma SplitFrame(message: Bytes, y: Bytes)
    requires |message| < TWO_32
    ensures Split(Frame(message) + y) == Cut([message] + Split(y).messages, Split(y).rest)
  {
    var s := Frame(message) + y;
    assert s[..HEADER_SIZE] == EncodeSize(|message|);
    assert s[HEADER_SIZE..HEADER_SIZE + |message|] == message;
    assert s[HEADER_SIZE + |message|..] == y;
  }

  /** The sender's 32 bit length field loses exactly the messages that do not fit into it. */
  lemma FrameIsReadBackExactly(message: Bytes)
    ensures Split(Frame(message)) == Cut([message], []) <==> |message| < TWO_32
  {
    var s := Frame(message);
    if |message| < TWO_32 {
      SplitFrame(message, []);
      assert s + [] == s;
    } else {
      var n := |message| % TWO_32;
      assert s[..HEADER_SIZE] == EncodeSize(n);
      assert |s[HEADER_SIZE..HEADER_SIZE + n]| < |message|;
    }
  }

  /**
    The verdicts of the message handler. It is given every message delivered so far, the new one last,
    and says whether the connection goes on; nothing is delivered after a refusal.
   */
  type Handler = seq<Bytes> -> bool

  datatype Delivery = Delivery(delivered: seq<Bytes>, refused: bool)

  function Deliver(handler: Handler, before: seq<Bytes>, messages: seq<Bytes>): Delivery
    decreases |messages|
  {
    if messages == [] then
      Delivery(before, false)
    else if !handler(before + [messages[0]]) then
      Delivery(before + [messages[0]], true)
    else
      Deliver(handler, before + [messages[0]], messages[1..])
  }

  lemma {:induction false} DeliverAppend(handler: Handler, before: seq<Bytes>, x: seq<Bytes>, y: seq<Bytes>)
    ensures var d := Deliver(handler, before, x);
            Deliver(handler, before, x + y) == if d.refused then d else Deliver(handler, d.delivered, y)
    decreases |x|
  {
    if x == [] {
      assert x + y == y;
    } else {
      assert (x + y)[1..] == x[1..] + y;
      DeliverAppend(handler, before + [x[0]], x[1..], y);
    }
  }

  lemma {:induction false} DeliverAccepted(handler: Handler, all: seq<Bytes>, i: nat, j: nat)
    requires i <= j <= |all|
    requires forall k :: i < k <= j ==> handler(all[..k])
    ensures Deliver(handler, all[..i], all[i..j]) == Delivery(all[..j], false)
    decreases j - i
  {
    if i < j {
      assert all[..i] + [all[i]] == all[..i + 1];
      assert all[i..j][1..] == all[i + 1..j];
      DeliverAccepted(handler, all, i + 1, j);
    }
  }

  /** What a connection remembers between two reads: the announced size and the bytes received of it. */
  datatype ParserState = ParserState(size: nat, partial: Bytes)

  const IDLE := ParserState(0, [])

  /** Either nothing has been announced, or the announced message is still incomplete. */
  ghost predicate BetweenReads(p: ParserState) {
    p.size < TWO_32 && (p == IDLE || |p.partial| < p.size)
  }

  /** The bytes of the stream a parser state stands for. */
  function Pending(p: ParserState): Bytes
    requires p.size < TWO_32
  {
    if p.size == 0 then [] else EncodeSize(p.size) + p.partial
  }

  function Resume(rest: Bytes): ParserState {
    if |rest| < HEADER_SIZE then IDLE else ParserState(DecodeSize(rest[..HEADER_SIZE]), rest[HEADER_SIZE..])
  }

  datatype ReadResult = ReadResult(accepted: bool, delivered: seq<Bytes>, state: ParserState)

  /**
    The specification of one read: put the new bytes behind the remembered ones, cut the result into
    frames, deliver them, and remember the rest unless it is a torn header.
   */
  function Read(handler: Handler, before: seq<Bytes>, p: ParserState, input: Bytes): ReadResult
    requires p.size < TWO_32
  {
    if input == [] && p.size == 0 then
      ReadResult(false, before, p)
    else
      var cut := Split(Pending(p) + input);
      var d := Deliver(handler, before, cut.messages);
      if d.refused && d.delivered != [] then
        var last := d.delivered[|d.delivered| - 1];
        ReadResult(false, d.delivered, ParserState(|last|, last))
      else
        ReadResult(cut.rest == [] || |cut.rest| >= HEADER_SIZE, d.delivered, Resume(cut.rest))
  }

  lemma {:induction false} RefusalDelivers(handler: Handler, before: seq<Bytes>, x: seq<Bytes>)
    ensures Deliver(handler, before, x).refused ==> Deliver(handler, before, x).delivered != []
    decreases |x|
  {
    if x != [] {
      RefusalDelivers(handler, before + [x[0]], x[1..]);
    }
  }

  lemma PendingResume(x: Bytes)
    requires var r := Split(x).rest; r == [] || |r| >= HEADER_SIZE
    ensures BetweenReads(Resume(Split(x).rest)) && Pending(Resume(Split(x).rest)) == Split(x).rest
  {
    SplitRestIsOpen(x);
    var r := Split(x).rest;
    if r != [] {
      EncodeDecode(r[..HEADER_SIZE]);
      assert r == r[..HEADER_SIZE] + r[HEADER_SIZE..];
    }
  }

  lemma AcceptedReadIsBetweenReads(handler: Handler, before: seq<Bytes>, p: ParserState, input: Bytes)
    requires BetweenReads(p)
    ensures var r := Read(handler, before, p, input); r.accepted ==> BetweenReads(r.state)
  {
    if Read(handler, before, p, input).accepted {
      PendingResume(Pending(p) + input);
    }
  }

  /** How the client's bytes are divided over reads does not matter. */
  lemma ChunkingDoesNotMatter(handler: Handler, before: seq<Bytes>, p: ParserState, a: Bytes, b: Bytes)
    requires BetweenReads(p) && b != []
    requires Read(handler, before, p, a).accepted
    ensures var first := Read(handler, before, p, a);
            BetweenReads(first.state)
            && Read(handler, before, p, a + b) == Read(handler, first.delivered, first.state, b)
  {
    hide Split, Deliver, EncodeSize, DecodeSize;
    var x := Pending(p) + a;
    var first := Read(handler, before, p, a);
    RefusalDelivers(handler, before, Split(x).messages);
    PendingResume(x);
    SplitAppend(x, b);
    assert x + b == Pending(p) + (a + b);
    DeliverAppend(handler, before, Split(x).messages, Split(Split(x).rest + b).messages);
  }

  /** A connection's reads, one after the other, up to the first refused one. */
  function ReadAll(handler: Handler, chunks: seq<Bytes>): (r: ReadResult)
    ensures r.accepted ==> BetweenReads(r.state)
  {
    if chunks == [] then
      ReadResult(true, [], IDLE)
    else
      var k := |chunks| - 1;
      var before := ReadAll(handler, chunks[..k]);
      if !before.accepted then
        before
      else
        AcceptedReadIsBetweenReads(handler, before.delivered, before.state, chunks[k]);
        Read(handler, before.delivered, before.state, chunks[k])
  }

  function Concat(chunks: seq<Bytes>): Bytes {
    if chunks == [] then [] else Concat(chunks[..|chunks| - 1]) + chunks[|chunks| - 1]
  }

  lemma {:induction false} ReadAllIsOneRead(handler: Handler, chunks: seq<Bytes>)
    requires chunks != [] && forall c :: c in chunks ==> c != []
    requires ReadAll(handler, chunks[..|chunks| - 1]).accepted
    ensures ReadAll(handler, chunks) == Read(handler, [], IDLE, Concat(chunks))
    decreases |chunks|
  {
    var k := |chunks| - 1;
    var before := chunks[..k];
    assert chunks[k] in chunks;
    if before == [] {
      assert Concat(before) + chunks[k] == chunks[k];
    } else {
      assert before[..k - 1] == chunks[..k - 1];
      assert forall c :: c in before ==> c in chunks;
      ReadAllIsOneRead(handler, before);
      ChunkingDoesNotMatter(handler, [], IDLE, Concat(before), chunks[k]);
    }
  }

  /** Position `p` of the framed stream lies strictly inside the header of one of its frames. */
  ghost predicate InsideHeader(messages: seq<Bytes>, p: nat) {
    exists i :: 0 <= i < |messages| && |FrameAll(messages[..i])| < p < |FrameAll(messages[..i])| + HEADER_SIZE
  }

  /** The number of frames that end at or before position `p`. */
  function Complete(messages: seq<Bytes>, p: nat): (n: nat)
    ensures n <= |messages|
  {
    if messages == [] || p < |Frame(messages[0])| then 0 else 1 + Complete(messages[1..], p - |Frame(messages[0])|)
  }

  lemma InsideHeaderUnfold(messages: seq<Bytes>, p: nat)
    requires messages != []
    ensures InsideHeader(messages, p) <==>
            0 < p < HEADER_SIZE
            || (p >= |Frame(messages[0])| && InsideHeader(messages[1..], p - |Frame(messages[0])|))
  {
    var f := |Frame(messages[0])|;
    forall i | 0 <= i < |messages|
      ensures |FrameAll(messages[..i])| == if i == 0 then 0 else f + |FrameAll(messages[1..][..i - 1])|
    {
      if i > 0 {
        assert messages[..i][1..] == messages[1..][..i - 1];
      }
    }
    if 0 < p < HEADER_SIZE {
      assert |FrameAll(messages[..0])| < p < |FrameAll(messages[..0])| + HEADER_SIZE;
    }
    if p >= f && InsideHeader(messages[1..], p - f) {
      var i :| 0 <= i < |messages[1..]|
        && |FrameAll(messages[1..][..i])| < p - f < |FrameAll(messages[1..][..i])| + HEADER_SIZE;
      assert |FrameAll(messages[..i + 1])| == f + |FrameAll(messages[1..][..i + 1 - 1])|;
    }
    if InsideHeader(messages, p) {
      var i :| 0 <= i < |messages| && |FrameAll(messages[..i])| < p < |FrameAll(messages[..i])| + HEADER_SIZE;
      if i > 0 {
        assert |FrameAll(messages[1..][..i - 1])| < p - f < |FrameAll(messages[1..][..i - 1])| + HEADER_SIZE;
      }
    }
  }

  lemma SplitTornFrame(message: Bytes, p: nat)
    requires |message| < TWO_32 && p < |Frame(message)|
    ensures Split(Frame(message)[..p]) == Cut([], Frame(message)[..p])
  {
    var x := Frame(message)[..p];
    if p >= HEADER_SIZE {
      assert x[..HEADER_SIZE] == EncodeSize(|message|);
    }
  }

  /** How a beginning `x` of the framed stream is cut. */
  ghost predicate CutAsFramed(messages: seq<Bytes>, x: Bytes) {
    && Split(x).messages == messages[..Complete(messages, |x|)]
    && (0 < |Split(x).rest| < HEADER_SIZE <==> InsideHeader(messages, |x|))
    && (x == FrameAll(messages) ==> Split(x) == Cut(messages, []))
  }

  lemma {:induction false} SplitPrefix(messages: seq<Bytes>, x: Bytes)
    requires forall m :: m in messages ==> |m| < TWO_32
    requires x <= FrameAll(messages)
    ensures CutAsFramed(messages, x)
    decreases |messages|
  {
    if messages == [] {
      assert x == [];
    } else {
      var f := Frame(messages[0]);
      if |x| < |f| {
        assert x == f[..|x|];
        SplitPrefixTorn(messages, |x|);
      } else {
        hide *;
        FrameAllUnfold(messages);
        var y := x[|f|..];
        assert x == f + y;
        PrefixTail(f, y, FrameAll(messages[1..]));
        SplitPrefix(messages[1..], y);
        SplitPrefixWhole(messages, y);
      }
    }
  }

  lemma SplitPrefixTorn(messages: seq<Bytes>, p: nat)
    requires messages != [] && |messages[0]| < TWO_32 && p < |Frame(messages[0])|
    ensures CutAsFramed(messages, Frame(messages[0])[..p])
  {
    hide Split, EncodeSize, DecodeSize, InsideHeader;
    SplitTornFrame(messages[0], p);
    InsideHeaderUnfold(messages, p);
  }

  lemma SplitPrefixWhole(messages: seq<Bytes>, y: Bytes)
    requires messages != [] && |messages[0]| < TWO_32
    requires CutAsFramed(messages[1..], y)
    ensures CutAsFramed(messages, Frame(messages[0]) + y)
  {
    hide Split, Frame, InsideHeader;
    FrameSize(messages[0]);
    SplitFrame(messages[0], y);
    InsideHeaderUnfold(messages, |Frame(messages[0]) + y|);
    if Frame(messages[0]) + y == FrameAll(messages) {
      PrefixTail(Frame(messages[0]), y, FrameAll(messages[1..]));
      PrefixTail(Frame(messages[0]), FrameAll(messages[1..]), y);
    }
  }

  lemma PrefixTail(f: Bytes, y: Bytes, z: Bytes)
    requires f + y <= f + z
    ensures y <= z
  {
    assert (f + y)[|f|..] == y && (f + z)[|f|..] == z;
  }

  lemma FrameAllUnfold(messages: seq<Bytes>)
    requires messages != []
    ensures FrameAll(messages) == Frame(messages[0]) + FrameAll(messages[1..])
  {
  }

  lemma FrameSize(message: Bytes)
    ensures |Frame(message)| == HEADER_SIZE + |message|
  {
  }

  /** No cut of the client's stream, up to and including the end of read `k`, is inside a header. */
  ghost predicate CutsOutsideHeaders(messages: seq<Bytes>, chunks: seq<Bytes>, k: nat)
    requires k <= |chunks|
  {
    forall j :: 0 < j <= k ==> !InsideHeader(messages, |Concat(chunks[..j])|)
  }

  lemma {:induction false} ConcatPrefix(chunks: seq<Bytes>, k: nat)
    requires k <= |chunks|
    ensures Concat(chunks[..k]) <= Concat(chunks)
    decreases |chunks| - k
  {
    if k < |chunks| {
      ConcatPrefix(chunks, k + 1);
      assert chunks[..k + 1][..k] == chunks[..k];
    } else {
      assert chunks[..k] == chunks;
    }
  }

  /** One read of a beginning of the framed stream. */
  lemma ReadPrefix(handler: Handler, messages: seq<Bytes>, x: Bytes)
    requires forall m :: m in messages ==> |m| < TWO_32
    requires forall i :: 0 < i <= |messages| ==> handler(messages[..i])
    requires x <= FrameAll(messages) && x != []
    ensures var r := Read(handler, [], IDLE, x);
            (r.accepted <==> !InsideHeader(messages, |x|))
            && r.delivered == messages[..Complete(messages, |x|)]
            && (x == FrameAll(messages) ==> r == ReadResult(true, messages, IDLE))
  {
    hide Split, Deliver, EncodeSize, DecodeSize, InsideHeader, Complete, FrameAll;
    var n := Complete(messages, |x|);
    SplitPrefix(messages, x);
    assert Pending(IDLE) + x == x;
    DeliverAccepted(handler, messages, 0, n);
    assert messages[0..n] == messages[..n] && messages[..0] == [];
  }

  /**
    The framing round trip, after any number `k` of reads: the reads have all been accepted if and only
    if none of them ended inside a header, and then exactly the messages complete by then are delivered.
   */
  lemma {:induction false} FramingAfterReads(handler: Handler, messages: seq<Bytes>, chunks: seq<Bytes>, k: nat)
    requires forall m :: m in messages ==> |m| < TWO_32
    requires forall c :: c in chunks ==> c != []
    requires Concat(chunks) == FrameAll(messages)
    requires forall i :: 0 < i <= |messages| ==> handler(messages[..i])
    requires k <= |chunks|
    ensures ReadAll(handler, chunks[..k]).accepted <==> CutsOutsideHeaders(messages, chunks, k)
    ensures ReadAll(handler, chunks[..k]).accepted ==>
              ReadAll(handler, chunks[..k]).delivered == messages[..Complete(messages, |Concat(chunks[..k])|)]
    decreases k
  {
    hide Read, InsideHeader, Complete, FrameAll;
    if k == 0 {
      CompleteNothing(messages);
    } else {
      FramingAfterReads(handler, messages, chunks, k - 1);
      assert chunks[..k][..k - 1] == chunks[..k - 1];
      if ReadAll(handler, chunks[..k - 1]).accepted {
        ReadsSoFar(handler, messages, chunks, k);
      }
    }
  }

  lemma CompleteNothing(messages: seq<Bytes>)
    ensures messages[..Complete(messages, 0)] == []
  {
  }

  lemma ReadsSoFar(handler: Handler, messages: seq<Bytes>, chunks: seq<Bytes>, k: nat)
    requires forall m :: m in messages ==> |m| < TWO_32
    requires forall c :: c in chunks ==> c != []
    requires Concat(chunks) == FrameAll(messages)
    requires forall i :: 0 < i <= |messages| ==> handler(messages[..i])
    requires 0 < k <= |chunks|
    requires ReadAll(handler, chunks[..k - 1]).accepted
    ensures var r := ReadAll(handler, chunks[..k]);
            (r.accepted <==> !InsideHeader(messages, |Concat(chunks[..k])|))
            && r.delivered == messages[..Complete(messages, |Concat(chunks[..k])|)]
            && (k == |chunks| ==> r == ReadResult(true, messages, IDLE))
  {
    hide Read, ReadAll, InsideHeader, Complete, FrameAll;
    var part := chunks[..k];
    assert forall c :: c in part ==> c in chunks;
    assert part[..k - 1] == chunks[..k - 1];
    ReadAllIsOneRead(handler, part);
    ConcatPrefix(chunks, k);
    assert part[k - 1] in chunks;
    assert Concat(part) != [];
    ReadPrefix(handler, messages, Concat(part));
    assert k == |chunks| ==> part == chunks;
  }

  /** The whole stream: delivered as exactly the list that was framed, and the parser idle again. */
  lemma FramingRoundTrip(handler: Handler, messages: seq<Bytes>, chunks: seq<Bytes>)
    requires forall m :: m in messages ==> |m| < TWO_32
    requires forall c :: c in chunks ==> c != []
    requires Concat(chunks) == FrameAll(messages)
    requires forall i :: 0 < i <= |messages| ==> handler(messages[..i])
    ensures ReadAll(handler, chunks) == ReadResult(true, messages, IDLE)
            <==> CutsOutsideHeaders(messages, chunks, |chunks|)
  {
    hide Read, InsideHeader, Complete;
    FramingAfterReads(handler, messages, chunks, |chunks|);
    assert chunks[..|chunks|] == chunks;
    if ReadAll(handler, chunks).accepted {
      if chunks != [] {
        ReadsSoFar(handler, messages, chunks, |chunks|);
      }
    }
  }
}
