/** Enveloped messages on the wire: a flag byte, a 32-bit length, the payload; and the
    smoke client's incremental reader. */
module Envelope {
  import opened Basics
  import opened Sequences

  datatype Message = Message(payload: seq<byte>, end: bool)

  function Low(n: nat): byte {
    var low: int := n % 0x100;
    low
  }

  /** `put_u32`, most significant byte first; a longer length is cut to 32 bits. */
  function BigEndian(n: nat): (b: seq<byte>)
    ensures |b| == 4
  {
    [Low(n / 0x100 / 0x100 / 0x100), Low(n / 0x100 / 0x100), Low(n / 0x100), Low(n)]
  }

  /** `u32::from_be_bytes` */
  function FromBigEndian(b: seq<byte>): (n: nat)
    requires |b| == 4
    ensures n < TWO_TO_THE_32
  {
    var (b0: int, b1: int, b2: int, b3: int) := (b[0], b[1], b[2], b[3]);
    ((b0 * 0x100 + b1) * 0x100 + b2) * 0x100 + b3
  }

  /** The bytes of the length, most significant first. */
  lemma BigEndianDigits(n: nat)
    ensures BigEndian(n)[0] == n / 0x100_0000 % 0x100 && BigEndian(n)[1] == n / 0x1_0000 % 0x100
    ensures BigEndian(n)[2] == n / 0x100 % 0x100 && BigEndian(n)[3] == n % 0x100
  {
    assert n / 0x100 / 0x100 == n / 0x1_0000 && n / 0x100 / 0x100 / 0x100 == n / 0x100_0000;
  }

  lemma BigEndianRoundTrip(n: nat)
    ensures FromBigEndian(BigEndian(n)) == n % TWO_TO_THE_32
  {
    var a := n / 0x100;
    var b := a / 0x100;
    var c := b / 0x100;
    var d := c / 0x100;
    assert n == 0x100 * a + n % 0x100 && a == 0x100 * b + a % 0x100;
    assert b == 0x100 * c + b % 0x100 && c == 0x100 * d + c % 0x100;
    assert n == d * TWO_TO_THE_32 + FromBigEndian(BigEndian(n));
    Remainder(n, d, FromBigEndian(BigEndian(n)));
  }

  lemma Remainder(n: nat, q: nat, r: nat)
    requires n == q * TWO_TO_THE_32 + r && r < TWO_TO_THE_32
    ensures n % TWO_TO_THE_32 == r
  {
  }

  /** `connect_envelope` */
  function Enveloped(m: Message): seq<byte> {
    [if m.end then 2 else 0] + BigEndian(|m.payload|) + m.payload
  }

  function EnvelopedAll(ms: seq<Message>): seq<byte> {
    if ms == [] then [] else Enveloped(ms[0]) + EnvelopedAll(ms[1..])
  }

  /** `flags & 0b10 != 0` */
  predicate EndFlag(flags: byte) {
    (flags / 2) % 2 == 1
  }

  /** The end of a stream is the second lowest bit, whatever the others are. */
  lemma EndFlagIsBit(flags: byte)
    ensures EndFlag(flags) <==> 2 <= flags % 4
    ensures !EndFlag(0) && EndFlag(2)
  {
  }

  datatype Failure = NotFailed | Undecodable | StreamError

  /** What a reader has after some bytes: the payloads it accepted, the bytes it holds
      back, and whether it has given up. */
  datatype Reading = Reading(events: seq<seq<byte>>, rest: seq<byte>, failure: Failure)

  /** The length of the first envelope, when its header is there. */
  function FirstLength(bytes: seq<byte>): nat
    requires |bytes| >= 5
  {
    5 + FromBigEndian(bytes[1..5])
  }

  predicate Complete(bytes: seq<byte>) {
    |bytes| >= 5 && |bytes| >= FirstLength(bytes)
  }

  /** The meaning of a byte string, all of it at once. */
  function Decode(bytes: seq<byte>, decodes: seq<byte> -> bool): Reading
    decreases |bytes|
  {
    if !Complete(bytes) then Reading([], bytes, NotFailed)
    else
      var n := FirstLength(bytes);
      if !decodes(bytes[5..n]) then Reading([], bytes[n..], Undecodable)
      else if EndFlag(bytes[0]) then Reading([], bytes[n..], StreamError)
      else
        var more := Decode(bytes[n..], decodes);
        more.(events := [bytes[5..n]] + more.events)
  }

  /** Reading on with `bytes`: what is held back is read again in front of them. */
  function ReadOn(r: Reading, bytes: seq<byte>, decodes: seq<byte> -> bool): Reading {
    if r.failure != NotFailed then r.(rest := r.rest + bytes)
    else
      var more := Decode(r.rest + bytes, decodes);
      more.(events := r.events + more.events)
  }

  /** How the bytes are cut makes no difference. */
  lemma {:induction false} DecodeInTwo(a: seq<byte>, b: seq<byte>, decodes: seq<byte> -> bool)
    ensures Decode(a + b, decodes) == ReadOn(Decode(a, decodes), b, decodes)
    decreases |a|
  {
    if Complete(a) {
      var n := FirstLength(a);
      FirstOfTwo(a, b);
      if decodes(a[5..n]) && !EndFlag(a[0]) {
        DecodeInTwo(a[n..], b, decodes);
        var inner := Decode(a[n..], decodes);
        Regrouped([a[5..n]], inner.events, Decode(inner.rest + b, decodes).events);
      }
    } else {
      var more := Decode(a + b, decodes);
      assert [] + more.events == more.events;
    }
  }

  lemma FirstOfTwo(a: seq<byte>, b: seq<byte>)
    requires Complete(a)
    ensures var n := FirstLength(a);
            Complete(a + b) && FirstLength(a + b) == n && (a + b)[0] == a[0] &&
            (a + b)[5..n] == a[5..n] && (a + b)[n..] == a[n..] + b
  {
    assert (a + b)[1..5] == a[1..5];
  }

  /** The buffer and the events of `read_stream`. */
  class StreamReader {
    const decodes: seq<byte> -> bool
    var buffered: seq<byte>
    var events: seq<seq<byte>>
    var failure: Failure

    constructor (decodes: seq<byte> -> bool)
      ensures this.decodes == decodes && Got() == Reading([], [], NotFailed)
    {
      this.decodes := decodes;
      buffered, events, failure := [], [], NotFailed;
    }

    function Got(): Reading
      reads this
    {
      Reading(events, buffered, failure)
    }

    /** One chunk: take every envelope that is complete, or give up at the first one that
        does not decode or ends the stream. */
    method Feed(chunk: seq<byte>)
      requires failure == NotFailed
      modifies this
      ensures Got() == ReadOn(old(Got()), chunk, decodes)
    {
      ghost var before := events;
      buffered := buffered + chunk;
      ghost var whole := Decode(buffered, decodes);
      while |buffered| >= 5
        invariant failure == NotFailed
        invariant var left := Decode(buffered, decodes);
                  left == whole.(events := left.events) && events + left.events == before + whole.events
        decreases |buffered|
      {
        var flags := buffered[0];
        var length := FromBigEndian(buffered[1..5]);
        if |buffered| < 5 + length { break; }
        var message := buffered[5..5 + length];
        buffered := buffered[5 + length..];
        if !decodes(message) {
          failure := Undecodable;
          return;
        }
        if EndFlag(flags) {
          failure := StreamError;
          return;
        }
        Regrouped(events, [message], Decode(buffered, decodes).events);
        events := events + [message];
      }
      assert events + [] == events;
    }
  }

  /** `read_stream`: for every chunking, the reader ends up with the meaning of the bytes
      put together. */
  method ReadStream(chunks: seq<seq<byte>>, decodes: seq<byte> -> bool) returns (r: Reading)
    ensures var whole := Decode(Joined(chunks), decodes);
            r.failure == whole.failure && r.events == whole.events && (r.failure == NotFailed ==> r == whole)
  {
    var reader := new StreamReader(decodes);
    var i := 0;
    while i < |chunks| && reader.failure == NotFailed
      invariant 0 <= i <= |chunks| && reader.decodes == decodes
      invariant reader.Got() == Decode(Joined(chunks[..i]), decodes)
    {
      reader.Feed(chunks[i]);
      JoinedOneMore(chunks, i);
      DecodeInTwo(Joined(chunks[..i]), chunks[i], decodes);
      i := i + 1;
    }
    assert chunks[..|chunks|] == chunks;
    if i < |chunks| { FailureStays(chunks, i, |chunks|, decodes); }
    r := reader.Got();
  }

  /** After a failure further chunks change nothing. */
  lemma {:induction false} FailureStays(chunks: seq<seq<byte>>, i: nat, j: nat, decodes: seq<byte> -> bool)
    requires i <= j <= |chunks| && Decode(Joined(chunks[..i]), decodes).failure != NotFailed
    ensures var early, whole := Decode(Joined(chunks[..i]), decodes), Decode(Joined(chunks[..j]), decodes);
            whole.failure == early.failure && whole.events == early.events
    decreases j
  {
    if i < j {
      var before, whole := Joined(chunks[..j - 1]), Joined(chunks[..j]);
      assert whole == before + chunks[j - 1] by { JoinedOneMore(chunks, j - 1); }
      FailureStays(chunks, i, j - 1, decodes);
      DecodeInTwo(before, chunks[j - 1], decodes);
    }
  }

  // ----- round trip -----

  /** Messages that fit their length field and decode. */
  predicate Sendable(m: Message, decodes: seq<byte> -> bool) {
    |m.payload| < TWO_TO_THE_32 && decodes(m.payload)
  }

  lemma DecodeFirst(m: Message, more: seq<byte>, decodes: seq<byte> -> bool)
    requires Sendable(m, decodes)
    ensures var bytes := Enveloped(m) + more;
            Decode(bytes, decodes) ==
              if m.end then Reading([], more, StreamError)
              else Decode(more, decodes).(events := [m.payload] + Decode(more, decodes).events)
  {
    var bytes, n := Enveloped(m) + more, 5 + |m.payload|;
    EnvelopeParts(m, more);
    LengthWritten(bytes, |m.payload|);
    FirstDecoded(bytes, n, decodes);
  }

  lemma LengthWritten(bytes: seq<byte>, length: nat)
    requires |bytes| >= 5 && bytes[1..5] == BigEndian(length) && length < TWO_TO_THE_32
    ensures FirstLength(bytes) == 5 + length
  {
    BigEndianRoundTrip(length);
  }

  lemma FirstDecoded(bytes: seq<byte>, n: nat, decodes: seq<byte> -> bool)
    requires 5 <= n <= |bytes| && FirstLength(bytes) == n && decodes(bytes[5..n])
    ensures var more := Decode(bytes[n..], decodes);
            Decode(bytes, decodes) ==
              if EndFlag(bytes[0]) then Reading([], bytes[n..], StreamError)
              else more.(events := [bytes[5..n]] + more.events)
  {
  }

  /** A payload that does not decode fails the stream as such, whatever its flags. */
  lemma UndecodableFirst(m: Message, more: seq<byte>, decodes: seq<byte> -> bool)
    requires |m.payload| < TWO_TO_THE_32 && !decodes(m.payload)
    ensures Decode(Enveloped(m) + more, decodes) == Reading([], more, Undecodable)
  {
    EnvelopeParts(m, more);
    LengthWritten(Enveloped(m) + more, |m.payload|);
  }

  lemma EnvelopeParts(m: Message, more: seq<byte>)
    ensures var bytes, n := Enveloped(m) + more, 5 + |m.payload|;
            |bytes| >= n && bytes[0] == (if m.end then 2 else 0) && bytes[1..5] == BigEndian(|m.payload|) &&
            bytes[5..n] == m.payload && bytes[n..] == more
  {
  }

  function Payloads(ms: seq<Message>): seq<seq<byte>> {
    if ms == [] then [] else [ms[0].payload] + Payloads(ms[1..])
  }

  /** How many messages come before the first one that ends the stream. */
  function BeforeEnd(ms: seq<Message>): (n: nat)
    ensures n <= |ms| && (forall i :: 0 <= i < n ==> !ms[i].end) && (n < |ms| ==> ms[n].end)
  {
    if ms == [] || ms[0].end then 0 else 1 + BeforeEnd(ms[1..])
  }

  /** The reader gets back exactly the messages before the first end-stream flag; it fails
      exactly when there is such a flag, right after that envelope; otherwise its buffer
      is empty. */
  lemma {:induction false} RoundTrip(ms: seq<Message>, decodes: seq<byte> -> bool)
    requires forall i :: 0 <= i < |ms| ==> Sendable(ms[i], decodes)
    ensures var n := BeforeEnd(ms);
            Decode(EnvelopedAll(ms), decodes) ==
              if n == |ms| then Reading(Payloads(ms), [], NotFailed)
              else Reading(Payloads(ms[..n]), EnvelopedAll(ms[n + 1..]), StreamError)
  {
    if ms != [] {
      var n := BeforeEnd(ms);
      DecodeFirst(ms[0], EnvelopedAll(ms[1..]), decodes);
      RoundTrip(ms[1..], decodes);
      if n > 0 && n < |ms| {
        assert ms[..n][1..] == ms[1..][..n - 1] && ms[1..][n..] == ms[n + 1..];
      }
    }
  }

  /** Of `ms` the reader has emitted exactly the messages complete in `bytes`, and holds
      back the beginning of the next one. */
  predicate EmittedComplete(ms: seq<Message>, bytes: seq<byte>, r: Reading) {
    var k := |r.events|;
    r.failure == NotFailed && k <= |ms| && r.events == Payloads(ms[..k]) &&
    EnvelopedAll(ms[..k]) + r.rest == bytes &&
    (k < |ms| ==> |r.rest| < |Enveloped(ms[k])|)
  }

  lemma EmittedOneMore(ms: seq<Message>, bytes: seq<byte>, r: Reading)
    requires ms != [] && EmittedComplete(ms[1..], bytes, r)
    ensures EmittedComplete(ms, Enveloped(ms[0]) + bytes, r.(events := [ms[0].payload] + r.events))
  {
    var k := |r.events|;
    assert ms[..k + 1][1..] == ms[1..][..k] && ms[..k + 1][0] == ms[0];
    assert Enveloped(ms[0]) + (EnvelopedAll(ms[1..][..k]) + r.rest)
        == (Enveloped(ms[0]) + EnvelopedAll(ms[1..][..k])) + r.rest;
  }

  lemma NoneEmitted(ms: seq<Message>, cut: nat, decodes: seq<byte> -> bool)
    requires ms != [] && cut < |Enveloped(ms[0])| && |ms[0].payload| < TWO_TO_THE_32
    ensures EmittedComplete(ms, Enveloped(ms[0])[..cut], Decode(Enveloped(ms[0])[..cut], decodes))
  {
    HeaderOnly(ms[0], cut, decodes);
    assert ms[..0] == [];
  }

  /** After any prefix of the bytes the reader has emitted exactly the envelopes that are
      complete in it, and holds back the beginning of the next one. */
  lemma {:induction false} PrefixEmitsComplete(ms: seq<Message>, cut: nat, decodes: seq<byte> -> bool)
    requires forall i :: 0 <= i < |ms| ==> Sendable(ms[i], decodes) && !ms[i].end
    requires cut <= |EnvelopedAll(ms)|
    ensures EmittedComplete(ms, EnvelopedAll(ms)[..cut], Decode(EnvelopedAll(ms)[..cut], decodes))
  {
    if ms != [] {
      var first, more := Enveloped(ms[0]), EnvelopedAll(ms[1..]);
      if cut < |first| {
        assert EnvelopedAll(ms)[..cut] == first[..cut];
        NoneEmitted(ms, cut, decodes);
      } else {
        var bytes := more[..cut - |first|];
        PrefixEmitsComplete(ms[1..], cut - |first|, decodes);
        assert EnvelopedAll(ms)[..cut] == first + bytes;
        DecodeFirst(ms[0], bytes, decodes);
        EmittedOneMore(ms, bytes, Decode(bytes, decodes));
      }
    }
  }

  lemma HeaderOnly(m: Message, cut: nat, decodes: seq<byte> -> bool)
    requires cut < |Enveloped(m)| && |m.payload| < TWO_TO_THE_32
    ensures Decode(Enveloped(m)[..cut], decodes) == Reading([], Enveloped(m)[..cut], NotFailed)
  {
    var bytes := Enveloped(m)[..cut];
    if cut >= 5 {
      EnvelopeParts(m, []);
      assert Enveloped(m) + [] == Enveloped(m);
      assert bytes[1..5] == Enveloped(m)[1..5];
      LengthWritten(bytes, |m.payload|);
    }
  }

  /** A payload survives the trip exactly when its length fits 32 bits. */
  lemma SurvivesIffShort(payload: seq<byte>, decodes: seq<byte> -> bool)
    requires decodes(payload)
    ensures Decode(Enveloped(Message(payload, false)), decodes) == Reading([payload], [], NotFailed)
        <==> |payload| < TWO_TO_THE_32
  {
    var m := Message(payload, false);
    assert Enveloped(m) + [] == Enveloped(m);
    if |payload| < TWO_TO_THE_32 {
      DecodeFirst(m, [], decodes);
    } else {
      var bytes := Enveloped(m);
      assert bytes[1..5] == BigEndian(|payload|);
      BigEndianRoundTrip(|payload|);
      assert |bytes[5..FirstLength(bytes)]| < |payload|;
    }
  }
}
