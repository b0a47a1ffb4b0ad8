/** Newline framing (src/codec/packet_codec.cc:7-33) and the send buffer that carries it
    (src/ConnectionContext.cc:55-80, src/TcpServer.cc:1091-1127). */
module PacketCodec {
  import opened Wrappers

  const NL: byte := 10
  const CR: byte := 13
  const MAX_PACKET: nat := 65536

  // ---------------------------------------------------------------- what a stream means

  function Encode(payload: Bytes): Bytes {
    payload + [NL]
  }

  function EncodeAll(payloads: seq<Bytes>): Bytes {
    if payloads == [] then [] else Encode(payloads[0]) + EncodeAll(payloads[1..])
  }

  /** A line loses one trailing carriage return. */
  function Strip(line: Bytes): Bytes {
    if line != [] && line[|line| - 1] == CR then line[..|line| - 1] else line
  }

  function StripAll(lines: seq<Bytes>): seq<Bytes> {
    seq(|lines|, i requires 0 <= i < |lines| => Strip(lines[i]))
  }

  predicate NoNewline(lines: seq<Bytes>) {
    forall i :: 0 <= i < |lines| ==> NL !in lines[i]
  }

  predicate Fit(lines: seq<Bytes>) {
    forall i :: 0 <= i < |lines| ==> |lines[i]| <= MAX_PACKET
  }

  datatype Decoded = Decoded(packets: seq<Bytes>, residue: Bytes)

  function Prepend(packets: seq<Bytes>, rest: Option<Decoded>): Option<Decoded> {
    if rest.None? then None else Some(Decoded(packets + rest.value.packets, rest.value.residue))
  }

  /** Position of the first newline, or the length. */
  function Newline(b: Bytes): (p: nat)
    ensures p <= |b| && (p < |b| ==> b[p] == NL) && forall i :: 0 <= i < p ==> b[i] != NL
  {
    if b == [] || b[0] == NL then 0 else 1 + Newline(b[1..])
  }

  /** What a whole stream decodes to, one line after another. */
  function Decode(b: Bytes): Option<Decoded>
    decreases |b|
  {
    var p := Newline(b);
    if p > MAX_PACKET then None
    else if p == |b| then Some(Decoded([], b))
    else Prepend([Strip(b[..p])], Decode(b[p + 1..]))
  }

  lemma {:induction false} NewlineAt(b: Bytes, p: nat)
    requires p <= |b| && (p < |b| ==> b[p] == NL) && forall i :: 0 <= i < p ==> b[i] != NL
    ensures Newline(b) == p
  {
    if p > 0 { NewlineAt(b[1..], p - 1); }
  }

  lemma PrependNothing(rest: Option<Decoded>)
    ensures Prepend([], rest) == rest
  {
    if rest.Some? { assert [] + rest.value.packets == rest.value.packets; }
  }

  /** Decoding takes a framed line off the front. */
  lemma DecodeLine(line: Bytes, rest: Bytes)
    requires NL !in line
    ensures Decode(Encode(line) + rest)
         == if |line| > MAX_PACKET then None else Prepend([Strip(line)], Decode(rest))
  {
    var b, p := Encode(line) + rest, |line|;
    NewlineAt(b, p);
    assert b[..p] == line && b[p + 1..] == rest;
  }

  // ---------------------------------------------------------------- the codec

  class Codec {
    var buffer: Bytes

    constructor ()
      ensures buffer == []
    {
      buffer := [];
    }

    method Feed(chunk: Bytes) returns (ok: bool, packets: seq<Bytes>)
      modifies this
      ensures ok <==> Decode(old(buffer) + chunk).Some?
      ensures ok ==> Decode(old(buffer) + chunk) == Some(Decoded(packets, buffer))
      ensures !ok ==> buffer == [] && packets == []
    {
      ghost var all := buffer + chunk;
      packets := [];
      buffer := buffer + chunk;
      var pos := Newline(buffer);
      PrependNothing(Decode(all));
      while pos < |buffer|
        invariant pos == Newline(buffer)
        invariant Decode(all) == Prepend(packets, Decode(buffer))
        decreases |buffer|
      {
        if pos > MAX_PACKET {
          buffer, packets := [], [];
          return false, packets;
        }
        var packet := buffer[..pos];
        if packet != [] && packet[|packet| - 1] == CR {
          packet := packet[..|packet| - 1];
        }
        Join(packets, [packet], Decode(buffer[pos + 1..]));
        packets := packets + [packet];
        buffer := buffer[pos + 1..];
        pos := Newline(buffer);
      }
      if |buffer| > MAX_PACKET {
        buffer, packets := [], [];
        return false, packets;
      }
      assert packets + [] == packets;
      return true, packets;
    }
  }

  // ---------------------------------------------------------------- decoding inverts encoding

  lemma EncodeCons(first: Bytes, later: seq<Bytes>, residue: Bytes)
    ensures EncodeAll([first] + later) + residue == Encode(first) + (EncodeAll(later) + residue)
  {
    assert ([first] + later)[1..] == later;
  }

  /** Every stream is newline-terminated lines and then an unfinished one. */
  lemma {:induction false} EveryStreamSplits(b: Bytes) returns (lines: seq<Bytes>, residue: Bytes)
    ensures b == EncodeAll(lines) + residue && NoNewline(lines) && NL !in residue
    decreases |b|
  {
    var p := Newline(b);
    if p == |b| {
      return [], b;
    }
    var rest;
    rest, residue := EveryStreamSplits(b[p + 1..]);
    lines := [b[..p]] + rest;
    assert b == Encode(b[..p]) + b[p + 1..];
    assert lines[1..] == rest;
    assert NL !in b[..p];
  }

  /** A stream decodes exactly when no line, finished or not, is longer than the limit, and then to
      its stripped lines and the unfinished rest. */
  lemma {:induction false} DecodeIsExact(lines: seq<Bytes>, residue: Bytes)
    requires NoNewline(lines) && NL !in residue
    ensures Decode(EncodeAll(lines) + residue)
         == if Fit(lines) && |residue| <= MAX_PACKET then Some(Decoded(StripAll(lines), residue)) else None
  {
    if lines == [] {
      assert EncodeAll(lines) + residue == residue;
      NewlineAt(residue, |residue|);
    } else {
      hide Decode, EncodeAll, Encode, Strip;
      EncodeCons(lines[0], lines[1..], residue);
      assert [lines[0]] + lines[1..] == lines;
      DecodeLine(lines[0], EncodeAll(lines[1..]) + residue);
      DecodeIsExact(lines[1..], residue);
      assert StripAll(lines) == [Strip(lines[0])] + StripAll(lines[1..]);
      assert Fit(lines) <==> |lines[0]| <= MAX_PACKET && Fit(lines[1..]) by {
        assert forall i :: 0 < i < |lines| ==> lines[i] == lines[1..][i - 1];
      }
    }
  }

  /** Every byte string at all is lines and an unfinished rest, decodes exactly when none of them is too
      long, and then to the stripped lines and the rest. */
  lemma AnyStreamDecodes(b: Bytes) returns (lines: seq<Bytes>, residue: Bytes)
    ensures b == EncodeAll(lines) + residue && NoNewline(lines) && NL !in residue
    ensures Decode(b) == if Fit(lines) && |residue| <= MAX_PACKET then Some(Decoded(StripAll(lines), residue)) else None
  {
    lines, residue := EveryStreamSplits(b);
    DecodeIsExact(lines, residue);
  }

  /** What framing can carry. */
  predicate Clean(payload: Bytes) {
    NL !in payload && (payload == [] || payload[|payload| - 1] != CR) && |payload| <= MAX_PACKET
  }

  predicate AllClean(payloads: seq<Bytes>) {
    forall i :: 0 <= i < |payloads| ==> Clean(payloads[i])
  }

  /** One payload survives framing exactly when it is clean. */
  lemma PayloadSurvivesExactly(payload: Bytes)
    ensures Decode(Encode(payload)) == Some(Decoded([payload], [])) <==> Clean(payload)
  {
    if NL !in payload {
      assert EncodeAll([payload]) + [] == Encode(payload);
      DecodeIsExact([payload], []);
      assert StripAll([payload]) == [Strip(payload)];
    } else {
      var p := Newline(payload);
      NewlineAt(Encode(payload), p);
      assert |Strip(Encode(payload)[..p])| < |payload|;
    }
  }

  lemma {:induction false} EncodeAllAppend(payloads: seq<Bytes>, payload: Bytes)
    ensures EncodeAll(payloads + [payload]) == EncodeAll(payloads) + Encode(payload)
  {
    if payloads != [] {
      assert (payloads + [payload])[1..] == payloads[1..] + [payload];
      EncodeAllAppend(payloads[1..], payload);
    }
  }

  // ---------------------------------------------------------------- chunks

  function Concat(chunks: seq<Bytes>): Bytes {
    if chunks == [] then [] else chunks[0] + Concat(chunks[1..])
  }

  /** Feeding chunk after chunk, starting from a buffered residue; the first failure ends it. */
  function FeedAll(residue: Bytes, chunks: seq<Bytes>): Option<Decoded>
    decreases |chunks|
  {
    if chunks == [] then Some(Decoded([], residue))
    else
      var first := Decode(residue + chunks[0]);
      if first.None? then None
      else Prepend(first.value.packets, FeedAll(first.value.residue, chunks[1..]))
  }

  /** Decoding composes. */
  lemma {:induction false} DecodeConcat(a: Bytes, b: Bytes)
    ensures Decode(a + b)
         == if Decode(a).None? then None
            else Prepend(Decode(a).value.packets, Decode(Decode(a).value.residue + b))
    decreases |a|
  {
    var p := Newline(a);
    if p == |a| {
      PrependNothing(Decode(a + b));
      assert forall i :: 0 <= i < p ==> (a + b)[i] == a[i];
    } else {
      hide Decode, Strip;
      var line, rest := a[..p], a[p + 1..];
      assert a == Encode(line) + rest && a + b == Encode(line) + (rest + b);
      DecodeLine(line, rest);
      DecodeLine(line, rest + b);
      DecodeConcat(rest, b);
      if Decode(rest).Some? {
        Join([Strip(line)], Decode(rest).value.packets, Decode(Decode(rest).value.residue + b));
      }
    }
  }

  lemma Join(some: seq<Bytes>, more: seq<Bytes>, rest: Option<Decoded>)
    ensures Prepend(some, Prepend(more, rest)) == Prepend(some + more, rest)
  {
    if rest.Some? {
      assert some + (more + rest.value.packets) == some + more + rest.value.packets;
    }
  }

  /** Chunking is invisible: however a byte stream is cut, feeding the pieces succeeds exactly when
      the whole decodes, and then gives the same packets and the same residue. */
  lemma {:induction false} ChunkingIsInvisible(residue: Bytes, chunks: seq<Bytes>)
    requires NL !in residue && |residue| <= MAX_PACKET
    ensures FeedAll(residue, chunks) == Decode(residue + Concat(chunks))
    decreases |chunks|
  {
    if chunks == [] {
      assert residue + [] == residue;
      NewlineAt(residue, |residue|);
    } else {
      var head := residue + chunks[0];
      assert residue + Concat(chunks) == head + Concat(chunks[1..]);
      DecodeConcat(head, Concat(chunks[1..]));
      if Decode(head).Some? {
        ResidueIsUnfinished(head);
        ChunkingIsInvisible(Decode(head).value.residue, chunks[1..]);
      }
    }
  }

  lemma {:induction false} ResidueIsUnfinished(b: Bytes)
    requires Decode(b).Some?
    ensures NL !in Decode(b).value.residue && |Decode(b).value.residue| <= MAX_PACKET
    decreases |b|
  {
    var p := Newline(b);
    if p < |b| { ResidueIsUnfinished(b[p + 1..]); }
  }

  // ---------------------------------------------------------------- the send buffer

  /** What one call to send returns. */
  datatype SendResult = Sent(bytes: nat) | WouldBlock | Failed

  datatype Outcome = Drained | Waiting | Closed

  /** How a writable event ends for a buffer of this size, and how many bytes it got rid of. */
  function Writes(size: nat, results: seq<SendResult>): (r: (Outcome, nat))
    ensures r.1 <= size && (r.0.Drained? <==> r.1 == size)
  {
    if size == 0 then (Drained, 0)
    else if results == [] then (Waiting, 0)
    else
      match results[0]
      case WouldBlock => (Waiting, 0)
      case Failed => (Closed, 0)
      case Sent(n) =>
        if n == 0 then (Closed, 0)
        else if n >= size then (Drained, size)
        else
          var rest := Writes(size - n, results[1..]);
          (rest.0, n + rest.1)
  }

  class SendBuffer {
    var pending: Bytes
    ghost var wire: Bytes
    ghost var payloads: seq<Bytes>

    ghost predicate Valid()
      reads this
    {
      wire + pending == EncodeAll(payloads)
    }

    constructor ()
      ensures Valid() && wire == [] && payloads == [] && pending == []
    {
      pending, wire, payloads := [], [], [];
    }

    method Append(payload: Bytes)
      requires Valid()
      modifies this
      ensures Valid() && wire == old(wire) && payloads == old(payloads) + [payload]
      ensures pending == old(pending) + Encode(payload)
    {
      pending := pending + Encode(payload);
      EncodeAllAppend(payloads, payload);
      payloads := payloads + [payload];
    }

    method Consume(bytes: nat)
      requires Valid()
      modifies this
      ensures Valid() && payloads == old(payloads)
      ensures wire == old(wire) + old(pending)[..if bytes < |old(pending)| then bytes else |old(pending)|]
    {
      ghost var n := if bytes < |pending| then bytes else |pending|;
      assert wire + pending == wire + pending[..n] + pending[n..];
      wire := wire + pending[..n];
      if bytes == 0 {
        return;
      }
      if bytes >= |pending| {
        pending := [];
        return;
      }
      pending := pending[bytes..];
    }

    /** Writes until the buffer is empty, the socket would block, or the peer is gone; results are what
        successive sends return, and running out of them reads as a full socket. */
    method OnWritable(results: seq<SendResult>) returns (outcome: Outcome)
      requires Valid()
      modifies this
      ensures Valid() && payloads == old(payloads) && old(wire) <= wire
      ensures (outcome, |wire| - |old(wire)|) == Writes(|old(pending)|, results)
    {
      var i := 0;
      while i < |results|
        invariant 0 <= i <= |results|
        invariant Valid() && payloads == old(payloads) && old(wire) <= wire
        invariant var rest := Writes(|pending|, results[i..]);
          Writes(|old(pending)|, results) == (rest.0, |wire| - |old(wire)| + rest.1)
      {
        if pending == [] {
          return Drained;
        }
        match results[i]
        case WouldBlock => return Waiting;
        case Failed => return Closed;
        case Sent(n) =>
          if n == 0 {
            return Closed;
          }
          Consume(n);
        i := i + 1;
      }
      return if pending == [] then Drained else Waiting;
    }
  }

  /** Whatever part of the encoded payloads has been sent, and however it arrives cut up, the receiver
      has decoded a prefix of the payloads; all of them once everything is sent. */
  lemma ReceiverSeesAPrefix(payloads: seq<Bytes>, wire: Bytes, chunks: seq<Bytes>)
    requires AllClean(payloads) && wire <= EncodeAll(payloads) && Concat(chunks) == wire
    ensures FeedAll([], chunks).Some? && FeedAll([], chunks).value.packets <= payloads
    ensures wire == EncodeAll(FeedAll([], chunks).value.packets) + FeedAll([], chunks).value.residue
    ensures wire == EncodeAll(payloads) ==> FeedAll([], chunks) == Some(Decoded(payloads, []))
  {
    hide Decode, FeedAll, EncodeAll, Concat;
    ChunkingIsInvisible([], chunks);
    assert [] + Concat(chunks) == wire;
    DecodePrefix(payloads, wire);
    if wire == EncodeAll(payloads) {
      AllArrive(payloads);
    }
  }

  lemma AllArrive(payloads: seq<Bytes>)
    requires AllClean(payloads)
    ensures Decode(EncodeAll(payloads)) == Some(Decoded(payloads, []))
  {
    hide Decode, EncodeAll;
    assert EncodeAll(payloads) + [] == EncodeAll(payloads);
    DecodeIsExact(payloads, []);
    assert StripAll(payloads) == payloads;
  }

  lemma CutFrame(first: Bytes, later: Bytes, wire: Bytes)
    requires wire <= Encode(first) + later && |wire| > |first|
    ensures wire[|first| + 1..] <= later && wire == Encode(first) + wire[|first| + 1..]
  {
    var all := Encode(first) + later;
    assert wire == all[..|wire|];
    assert all[|first| + 1..] == later;
  }

  lemma {:induction false} DecodePrefix(payloads: seq<Bytes>, wire: Bytes)
    requires AllClean(payloads) && wire <= EncodeAll(payloads)
    ensures Decode(wire).Some? && Decode(wire).value.packets <= payloads
    ensures wire == EncodeAll(Decode(wire).value.packets) + Decode(wire).value.residue
  {
    if payloads == [] || |wire| <= |payloads[0]| {
      UnfinishedPrefix(payloads, wire);
    } else {
      var first, later := payloads[0], payloads[1..];
      assert EncodeAll(payloads) == Encode(first) + EncodeAll(later);
      hide Decode, Encode, EncodeAll, Clean;
      CutFrame(first, EncodeAll(later), wire);
      var rest := wire[|first| + 1..];
      DecodePrefix(later, rest);
      PrefixStep(first, later, rest);
      assert [first] + later == payloads;
    }
  }

  lemma PrefixStep(first: Bytes, later: seq<Bytes>, rest: Bytes)
    requires Clean(first) && Decode(rest).Some? && Decode(rest).value.packets <= later
    requires rest == EncodeAll(Decode(rest).value.packets) + Decode(rest).value.residue
    ensures var d := Decode(Encode(first) + rest);
      d.Some? && d.value.packets <= [first] + later
      && Encode(first) + rest == EncodeAll(d.value.packets) + d.value.residue
  {
    CleanStays(first);
    hide Decode, Encode, EncodeAll, Strip;
    DecodeLine(first, rest);
    EncodeCons(first, Decode(rest).value.packets, Decode(rest).value.residue);
  }

  lemma CleanStays(payload: Bytes)
    requires Clean(payload)
    ensures Strip(payload) == payload
  {
  }

  lemma UnfinishedPrefix(payloads: seq<Bytes>, wire: Bytes)
    requires AllClean(payloads) && wire <= EncodeAll(payloads)
    requires payloads == [] || |wire| <= |payloads[0]|
    ensures Decode(wire) == Some(Decoded([], wire)) && EncodeAll([]) + wire == wire
  {
    if payloads != [] {
      assert Clean(payloads[0]);
      assert forall i :: 0 <= i < |wire| ==> wire[i] == EncodeAll(payloads)[i] == payloads[0][i];
    }
    NewlineAt(wire, |wire|);
  }
}
