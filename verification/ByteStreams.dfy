/** The two byte buffers between the AMQP library and the socket.

    `Send`, `Receive` and `Parse` are the environment: they answer as they like within their contracts
    and record in the ghost fields what they really took or gave; while parsing, the library may hand
    over bytes of its own or give the connection up.  The other methods are the driver's. */
module ByteStreams {

  type Bytes = seq<bv8>

  const RECEIVE_BUFFER := 8192

  function Concat(chunks: seq<Bytes>): Bytes {
    if chunks == [] then [] else Concat(chunks[..|chunks| - 1]) + chunks[|chunks| - 1]
  }

  lemma ConcatAppend(chunks: seq<Bytes>, chunk: Bytes)
    ensures Concat(chunks + [chunk]) == Concat(chunks) + chunk
  {
    assert (chunks + [chunk])[..|chunks|] == chunks;
  }

  /** The parser has been asked again, and its last answer was to consume nothing. */
  predicate ParserWantsMore(before: seq<Bytes>, after: seq<Bytes>) {
    |after| > |before| && after[|after| - 1] == []
  }

  datatype SendAnswer = Sent(n: nat) | SendBlocks | SendFails
  datatype ReceiveAnswer = Received(data: Bytes) | Nothing | ReceiveFails

  class SocketBuffers {
    var connected: bool
    var pendingDisconnect: bool
    var outbound: Bytes
    var inbound: Bytes

    ghost var handedOver: seq<Bytes>   // the chunks of onData
    ghost var sent: seq<Bytes>         // what each call of send took
    ghost var arrived: seq<Bytes>      // the chunks of recv
    ghost var parsed: seq<Bytes>       // what each call of the parser consumed
    ghost var sends: seq<SendAnswer>   // what each call of send answered
    ghost var receives: seq<ReceiveAnswer>  // and each call of recv

    /** What was sent and what waits to be sent is what the library handed over, in order. */
    ghost predicate OutboundKept()
      reads `outbound, `sent, `handedOver
    {
      Concat(sent) + outbound == Concat(handedOver)
    }

    /** What was parsed and what waits to be parsed is what arrived, in order. */
    ghost predicate InboundKept()
      reads `inbound, `parsed, `arrived
    {
      Concat(parsed) + inbound == Concat(arrived)
    }

    ghost predicate Valid()
      reads this
    {
      OutboundKept() && InboundKept() && (!connected ==> outbound == [] && inbound == [])
    }

    constructor ()
      ensures Valid() && !connected && handedOver == [] && arrived == []
    {
      connected, pendingDisconnect, outbound, inbound := false, false, [], [];
      handedOver, sent, arrived, parsed, sends, receives := [], [], [], [], [], [];
    }

    /** A new connection begins with empty streams. */
    method Open()
      modifies this
      ensures Valid() && connected && !pendingDisconnect
      ensures handedOver == [] && sent == [] && arrived == [] && parsed == []
    {
      connected, pendingDisconnect, outbound, inbound := true, false, [], [];
      handedOver, sent, arrived, parsed, sends, receives := [], [], [], [], [], [];
    }

    /** What was not sent or not parsed is dropped with the connection. */
    method Close()
      modifies this
      ensures Valid() && !connected && !pendingDisconnect
      ensures handedOver == [] && sent == [] && arrived == [] && parsed == []
    {
      connected, pendingDisconnect, outbound, inbound := false, false, [], [];
      handedOver, sent, arrived, parsed, sends, receives := [], [], [], [], [], [];
    }

    // ---- the environment ----

    /** The operating system takes some of the bytes, or none. */
    method Send(data: Bytes) returns (answer: SendAnswer)
      requires data != []
      modifies `sent, `sends
      ensures sends == old(sends) + [answer]
      ensures answer.Sent? ==> 0 < answer.n <= |data| && sent == old(sent) + [data[..answer.n]]
      ensures !answer.Sent? ==> sent == old(sent)
    {
      var n: nat, blocks: bool := *, *;
      if 0 < n <= |data| {
        answer := Sent(n);
        sent := sent + [data[..n]];
      } else {
        answer := if blocks then SendBlocks else SendFails;
      }
      sends := sends + [answer];
    }

    /** `select` and `recv`; an empty read means that the broker has closed the socket. */
    method Receive() returns (answer: ReceiveAnswer)
      modifies `arrived, `receives
      ensures receives == old(receives) + [answer]
      ensures answer.Received? ==> |answer.data| <= RECEIVE_BUFFER && arrived == old(arrived) + [answer.data]
      ensures !answer.Received? ==> arrived == old(arrived)
    {
      var data: Bytes, nothing: bool := *, *;
      if |data| <= RECEIVE_BUFFER {
        answer := Received(data);
        arrived := arrived + [data];
      } else {
        answer := if nothing then Nothing else ReceiveFails;
      }
      receives := receives + [answer];
    }

    /** The library consumes a prefix, all of a frame or nothing. */
    method Parse() returns (n: nat)
      requires OutboundKept() && inbound != []
      modifies `outbound, `handedOver, `parsed, `pendingDisconnect
      ensures OutboundKept() && old(handedOver) <= handedOver && (old(pendingDisconnect) ==> pendingDisconnect)
      ensures n <= |inbound| && parsed == old(parsed) + [inbound[..n]]
    {
      hide Concat, OutboundKept;
      var consumed: nat, answers: bool, reply: Bytes, trouble: bool := *, *, *, *;
      n := if consumed <= |inbound| then consumed else 0;
      parsed := parsed + [inbound[..n]];
      if answers {
        OnData(reply);
      }
      pendingDisconnect := pendingDisconnect || trouble;
    }

    // ---- the driver ----

    method OnData(data: Bytes)
      requires OutboundKept()
      modifies `outbound, `handedOver
      ensures OutboundKept() && handedOver == old(handedOver) + [data]
    {
      ConcatAppend(handedOver, data);
      assert Concat(sent) + (outbound + data) == (Concat(sent) + outbound) + data;
      handedOver := handedOver + [data];
      if data == [] {
        return;
      }
      outbound := outbound + data;
    }

    /** Sends until the buffer is empty or the socket takes no more; a failure asks for a disconnect. */
    method FlushOutboundData()
      requires Valid()
      modifies `outbound, `pendingDisconnect, `sent, `sends
      ensures Valid() && old(sent) <= sent && old(sends) <= sends
      ensures connected && outbound != [] ==> |sends| > |old(sends)| && !sends[|sends| - 1].Sent?
      ensures !connected ==> sends == old(sends)
      ensures forall i :: |old(sends)| <= i < |sends| - 1 ==> sends[i].Sent?
      ensures pendingDisconnect == (old(pendingDisconnect) || (|sends| > |old(sends)| && sends[|sends| - 1].SendFails?))
    {
      while connected && outbound != []
        invariant Valid() && old(sent) <= sent && old(sends) <= sends
        invariant forall i :: |old(sends)| <= i < |sends| ==> sends[i].Sent?
        invariant !connected ==> sends == old(sends)
        invariant pendingDisconnect == old(pendingDisconnect)
        decreases |outbound|
      {
        ghost var before := sent;
        var answer := Send(outbound);
        match answer
        case Sent(n) =>
          ConcatAppend(before, outbound[..n]);
          assert Concat(before) + outbound == (Concat(before) + outbound[..n]) + outbound[n..];
          outbound := outbound[n..];
        case SendBlocks => return;
        case SendFails =>
          pendingDisconnect := true;
          return;
      }
    }

    /** Lets the library parse for as long as it consumes something. */
    method ParseInbound()
      requires OutboundKept() && InboundKept()
      modifies `outbound, `inbound, `handedOver, `parsed, `pendingDisconnect
      ensures OutboundKept() && InboundKept()
      ensures inbound != [] ==> ParserWantsMore(old(parsed), parsed)
      ensures old(parsed) <= parsed && old(handedOver) <= handedOver && (old(pendingDisconnect) ==> pendingDisconnect)
    {
      hide OutboundKept;
      while inbound != []
        invariant OutboundKept() && InboundKept()
        invariant old(parsed) <= parsed && old(handedOver) <= handedOver && (old(pendingDisconnect) ==> pendingDisconnect)
        decreases |inbound|
      {
        ghost var before := parsed;
        var n := Parse();
        ConcatAppend(before, inbound[..n]);
        assert Concat(before) + inbound == (Concat(before) + inbound[..n]) + inbound[n..];
        if n == 0 {
          return;
        }
        inbound := inbound[n..];
      }
    }

    /** Reads one chunk and has it parsed; a closed or failing socket asks for a disconnect. */
    method PumpIncomingData() returns (answer: ReceiveAnswer)
      requires Valid()
      modifies `outbound, `inbound, `pendingDisconnect, `handedOver, `arrived, `parsed, `receives
      ensures Valid() && receives == if connected then old(receives) + [answer] else old(receives)
      ensures arrived == if connected && answer.Received? then old(arrived) + [answer.data] else old(arrived)
      ensures old(parsed) <= parsed && old(handedOver) <= handedOver
      ensures connected && answer.Received? && answer.data != [] && inbound != [] ==> ParserWantsMore(old(parsed), parsed)
      ensures old(pendingDisconnect) || (connected && (answer.ReceiveFails? || answer == Received([]))) ==> pendingDisconnect
      ensures answer.Nothing? ==> pendingDisconnect == old(pendingDisconnect)
    {
      answer := Nothing;
      if !connected {
        return;
      }
      ghost var before := arrived;
      assert Concat(parsed) + inbound == Concat(before);
      hide OutboundKept, InboundKept, Concat;
      answer := Receive();
      if answer.Received? {
        Buffer(answer.data, before);
      }
      if answer.ReceiveFails? || answer == Received([]) {
        pendingDisconnect := true;
      } else if answer.Received? {
        ParseInbound();
      }
    }

    /** Appends what has just arrived. */
    method Buffer(data: Bytes, ghost before: seq<Bytes>)
      requires arrived == before + [data] && Concat(parsed) + inbound == Concat(before)
      modifies `inbound
      ensures InboundKept() && inbound == old(inbound) + data
    {
      ConcatAppend(before, data);
      assert Concat(parsed) + (inbound + data) == (Concat(parsed) + inbound) + data;
      inbound := inbound + data;
    }
  }
}
