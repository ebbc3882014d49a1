/** The load script's hand-written protobuf codec: base 128 varints and the search for one
    varint field. */
module Varint {
  import opened Basics

  datatype Parsed = Parsed(value: nat, next: nat)

  /** Seven bits a byte, low ones first, the top bit set on all but the last. */
  function Encoding(n: nat): (b: seq<byte>)
    ensures |b| >= 1
  {
    var low: int := n % 0x80;
    if n < 0x80 then [low] else [low + 0x80] + Encoding(n / 0x80)
  }

  /** 128 to the power of `k`. */
  function Place(k: nat): (p: nat)
    ensures p > 0
  {
    if k == 0 then 1 else 0x80 * Place(k - 1)
  }

  /** Byte `k` has the digit of its place, and the top bit if and only if another byte follows;
      and there are no more bytes than the number needs. */
  lemma {:induction false} DigitsOf(n: nat, k: nat)
    requires k < |Encoding(n)|
    ensures Encoding(n)[k] as int % 0x80 == n / Place(k) % 0x80
    ensures Encoding(n)[k] >= 0x80 <==> k + 1 < |Encoding(n)|
    ensures k > 0 ==> n >= Place(k)
    decreases k
  {
    if k > 0 {
      DigitsOf(n / 0x80, k - 1);
      assert Encoding(n)[k] == Encoding(n / 0x80)[k - 1];
      DividedTwice(n, Place(k - 1));
    }
  }

  lemma DividedTwice(n: nat, p: nat)
    requires p > 0
    ensures n / 0x80 / p == n / (0x80 * p)
  {
    var q, r := n / 0x80, n % 0x80;
    var a, b := q / p, q % p;
    assert n == 0x80 * (p * a + b) + r;
    Quotient(n, 0x80 * p, a, 0x80 * b + r);
  }

  lemma Quotient(n: nat, d: nat, q: nat, r: nat)
    requires d > 0 && n == d * q + r && r < d
    ensures n / d == q
  {
    var k := n / d;
    assert n == d * k + n % d;
    if k < q { AtLeast(d, k + 1, q); }
    if k > q { AtLeast(d, q + 1, k); }
  }

  lemma AtLeast(d: nat, a: nat, b: nat)
    requires a <= b
    ensures d * a <= d * b && d * (a + 1) == d * a + d
    ensures a > 0 ==> d * a == d * (a - 1) + d
  {
  }

  /** `varint`: the number is first cut to 32 bits. */
  method Write(value: nat) returns (out: seq<byte>)
    ensures out == Encoding(value % TWO_TO_THE_32)
  {
    out := [];
    var current: nat := value % TWO_TO_THE_32;
    while current >= 0x80
      invariant out + Encoding(current) == Encoding(value % TWO_TO_THE_32)
    {
      var low: byte := current % 0x80 + 0x80;
      out := out + [low];
      current := current / 0x80;
    }
    var last: byte := current;
    out := out + [last];
  }

  /** Reading with `left` bytes allowed. */
  function ReadOn(bytes: seq<byte>, at: nat, left: nat): (r: Option<Parsed>)
    ensures r.Some? ==> at < r.value.next <= |bytes|
    decreases left
  {
    if at >= |bytes| || left == 0 then None
    else
      var b: int := bytes[at];
      if b < 0x80 then Some(Parsed(b, at + 1))
      else match ReadOn(bytes, at + 1, left - 1)
        case None => None
        case Some(more) => Some(Parsed(b % 0x80 + 0x80 * more.value, more.next))
  }

  /** What `readVarint` returns: up to ten bytes are looked at. */
  function Read(bytes: seq<byte>, offset: nat): (r: Option<Parsed>)
    ensures r.Some? ==> offset < r.value.next <= |bytes|
  {
    ReadOn(bytes, offset, 10)
  }

  function Product(a: nat, b: nat): nat {
    a * b
  }

  /** `value` is read already; what is still to be read counts `scale` times. */
  function Above(value: nat, scale: nat, r: Option<Parsed>): Option<Parsed> {
    if r.Some? then Some(Parsed(value + Product(r.value.value, scale), r.value.next)) else None
  }

  /** Reading one byte of the rest. */
  lemma AboveStep(bytes: seq<byte>, at: nat, left: nat, value: nat, scale: nat)
    requires at < |bytes| && left > 0
    ensures var b: int := bytes[at];
            var sum := value + Product(b % 0x80, scale);
            Above(value, scale, ReadOn(bytes, at, left)) ==
              if b < 0x80 then Some(Parsed(sum, at + 1)) else Above(sum, scale * 0x80, ReadOn(bytes, at + 1, left - 1))
  {
    var b: int, more := bytes[at], ReadOn(bytes, at + 1, left - 1);
    if more.Some? { Distribute(b % 0x80, more.value.value, scale); }
  }

  lemma Distribute(low: nat, high: nat, scale: nat)
    ensures (low + 0x80 * high) * scale == low * scale + high * (scale * 0x80)
  {
  }

  method ReadVarint(bytes: seq<byte>, offset: nat) returns (r: Option<Parsed>)
    ensures r == Read(bytes, offset)
  {
    var value: nat, scale: nat, shift := 0, 1, 0;
    ghost var left: nat := 10;
    var i: nat := offset;
    while i < |bytes| && shift < 64
      invariant shift == 70 - 7 * left
      invariant Read(bytes, offset) == Above(value, scale, ReadOn(bytes, i, left))
      decreases left
    {
      ghost var before := Above(value, scale, ReadOn(bytes, i, left));
      var b: int := bytes[i];
      var low: nat := b % 0x80;
      var sum: nat := value + Product(low, scale);
      assert before == if b < 0x80 then Some(Parsed(sum, i + 1))
                       else Above(sum, scale * 0x80, ReadOn(bytes, i + 1, left - 1)) by {
        AboveStep(bytes, i, left, value, scale);
      }
      if b < 0x80 { return Some(Parsed(sum, i + 1)); }
      value, scale := sum, scale * 0x80;
      shift := shift + 7;
      left := left - 1;
      i := i + 1;
    }
    return None;
  }

  /** The bound below which a number takes at most `k` bytes. */
  function Bound(k: nat): nat {
    if k == 0 then 1 else 0x80 * Bound(k - 1)
  }

  lemma {:induction false} ReadsBack(front: seq<byte>, n: nat, back: seq<byte>, left: nat)
    requires n < Bound(left) && left > 0
    ensures ReadOn(front + Encoding(n) + back, |front|, left) == Some(Parsed(n, |front| + |Encoding(n)|))
    decreases n
  {
    var bytes := front + Encoding(n) + back;
    var low: int := n % 0x80;
    assert bytes[|front|] == Encoding(n)[0];
    if n >= 0x80 {
      assert n / 0x80 < Bound(left - 1) && left > 1;
      assert bytes == (front + [low + 0x80]) + Encoding(n / 0x80) + back;
      ReadsBack(front + [low + 0x80], n / 0x80, back, left - 1);
    }
  }

  /** `readVarint` inverts `varint` at any offset, whatever follows. */
  lemma RoundTrip(front: seq<byte>, n: nat, back: seq<byte>)
    requires n < TWO_TO_THE_32
    ensures Read(front + Encoding(n) + back, |front|) == Some(Parsed(n, |front| + |Encoding(n)|))
  {
    assert Bound(10) >= TWO_TO_THE_32 by {
      assert Bound(5) == 0x8_0000_0000 && Bound(10) == 0x80 * 0x80 * 0x80 * 0x80 * 0x80 * Bound(5);
    }
    ReadsBack(front, n, back, 10);
  }

  // ----- fields -----

  /** `skipField` */
  function Skip(bytes: seq<byte>, offset: nat, wireType: nat): nat {
    if wireType == 0 then
      var value := Read(bytes, offset);
      if value.Some? then value.value.next else |bytes|
    else if wireType == 1 then Min(offset + 8, |bytes|)
    else if wireType == 2 then
      var length := Read(bytes, offset);
      if length.Some? then Min(length.value.next + length.value.value, |bytes|) else |bytes|
    else if wireType == 5 then Min(offset + 4, |bytes|)
    else |bytes|
  }

  /** What `readVarintField` returns: 0 when there is no such field. */
  function Find(bytes: seq<byte>, offset: nat, field: nat): nat
    decreases |bytes| - offset
  {
    if offset >= |bytes| then 0
    else match Read(bytes, offset)
      case None => 0
      case Some(key) =>
        if key.value % TWO_TO_THE_32 / 8 == field && key.value % 8 == 0 then
          var value := Read(bytes, key.next);
          if value.Some? then value.value.value else 0
        else Find(bytes, SkipForward(bytes, key.next, key.value % 8), field)
  }

  /** Skipping never goes back, so the search ends on any bytes. */
  function SkipForward(bytes: seq<byte>, offset: nat, wireType: nat): (next: nat)
    requires offset <= |bytes|
    ensures offset <= next <= |bytes|
  {
    Skip(bytes, offset, wireType)
  }

  method ReadVarintField(bytes: seq<byte>, field: nat) returns (value: nat)
    ensures value == Find(bytes, 0, field)
  {
    var offset := 0;
    while offset < |bytes|
      invariant offset <= |bytes| && Find(bytes, offset, field) == Find(bytes, 0, field)
      decreases |bytes| - offset
    {
      var key := ReadVarint(bytes, offset);
      if key == None { return 0; }
      offset := key.value.next;
      var wireType := key.value.value % 8;
      if key.value.value % TWO_TO_THE_32 / 8 == field && wireType == 0 {
        var found := ReadVarint(bytes, offset);
        return if found.Some? then found.value.value else 0;
      }
      offset := SkipForward(bytes, offset, wireType);
    }
    return 0;
  }

  /** A field of a message, by wire type. */
  datatype Field =
    | Number(number: nat, value: nat)
    | Fixed64(number: nat, bits: seq<byte>)
    | Bytes(number: nat, payload: seq<byte>)
    | Fixed32(number: nat, bits: seq<byte>)

  predicate WellFormed(f: Field) {
    f.number < 0x2000_0000 &&
    match f
    case Number(_, value) => value < TWO_TO_THE_32
    case Fixed64(_, bits) => |bits| == 8
    case Bytes(_, payload) => |payload| < TWO_TO_THE_32
    case Fixed32(_, bits) => |bits| == 4
  }

  function WireType(f: Field): nat {
    match f
    case Number(_, _) => 0
    case Fixed64(_, _) => 1
    case Bytes(_, _) => 2
    case Fixed32(_, _) => 5
  }

  function Key(f: Field): nat {
    f.number * 8 + WireType(f)
  }

  function KeyBytes(f: Field): seq<byte> {
    Encoding(Key(f))
  }

  function Contents(f: Field): seq<byte> {
    match f
    case Number(_, value) => Encoding(value)
    case Fixed64(_, bits) => bits
    case Bytes(_, payload) => Encoding(|payload|) + payload
    case Fixed32(_, bits) => bits
  }

  /** `fieldVarint` and `fieldBytes`, and the fixed-width fields other writers send */
  function Encoded(f: Field): seq<byte> {
    KeyBytes(f) + Contents(f)
  }

  function EncodedAll(fields: seq<Field>): seq<byte> {
    if fields == [] then [] else Encoded(fields[0]) + EncodedAll(fields[1..])
  }

  /** The value of the first varint field with that number, or 0. */
  function FirstNumber(fields: seq<Field>, number: nat): nat {
    if fields == [] then 0
    else if fields[0].Number? && fields[0].number == number then fields[0].value
    else FirstNumber(fields[1..], number)
  }

  /** Wherever `code` stands, it is read as `n`. */
  ghost predicate Denotes(code: seq<byte>, n: nat) {
    forall front, back :: Read(front + code + back, |front|) == Some(Parsed(n, |front| + |code|))
  }

  /** Wherever the contents of `f` stand, they are passed over as a whole. */
  ghost predicate Passed(code: seq<byte>, f: Field) {
    forall front, back :: Skip(front + code + back, |front|, WireType(f)) == |front| + |code|
  }

  lemma EncodingDenotes(n: nat)
    requires n < TWO_TO_THE_32
    ensures Denotes(Encoding(n), n)
  {
    forall front, back
      ensures Read(front + Encoding(n) + back, |front|) == Some(Parsed(n, |front| + |Encoding(n)|))
    {
      RoundTrip(front, n, back);
    }
  }

  lemma NumberPassed(f: Field, code: seq<byte>)
    requires f.Number? && Denotes(code, f.value)
    ensures Passed(code, f)
  {
  }

  lemma BytesPassed(f: Field, length: seq<byte>)
    requires f.Bytes? && Denotes(length, |f.payload|)
    ensures Passed(length + f.payload, f)
  {
    forall front, back
      ensures Skip(front + (length + f.payload) + back, |front|, 2) == |front| + |length + f.payload|
    {
      assert front + (length + f.payload) + back == front + length + (f.payload + back);
    }
  }

  lemma ContentsPassed(f: Field)
    requires WellFormed(f)
    ensures Passed(Contents(f), f)
  {
    match f
    case Number(_, value) =>
      EncodingDenotes(value);
      NumberPassed(f, Encoding(value));
    case Bytes(_, payload) =>
      EncodingDenotes(|payload|);
      BytesPassed(f, Encoding(|payload|));
    case Fixed64(_, _) =>
    case Fixed32(_, _) =>
  }

  lemma KeyParts(f: Field)
    requires WellFormed(f)
    ensures var key := Key(f);
            key < TWO_TO_THE_32 && key % TWO_TO_THE_32 / 8 == f.number && key % 8 == WireType(f)
  {
  }

  lemma FindAfterKey(bytes: seq<byte>, offset: nat, key: nat, next: nat, number: nat)
    requires Read(bytes, offset) == Some(Parsed(key, next))
    ensures Find(bytes, offset, number) ==
              if key % TWO_TO_THE_32 / 8 == number && key % 8 == 0
              then (if Read(bytes, next).Some? then Read(bytes, next).value.value else 0)
              else Find(bytes, SkipForward(bytes, next, key % 8), number)
  {
  }

  lemma FindAtField(bytes: seq<byte>, offset: nat, f: Field, next: nat, end: nat, number: nat)
    requires WellFormed(f) && Read(bytes, offset) == Some(Parsed(Key(f), next)) && Skip(bytes, next, WireType(f)) == end
    requires f.Number? ==> Read(bytes, next) == Some(Parsed(f.value, end))
    ensures Find(bytes, offset, number) ==
              if f.Number? && f.number == number then f.value else Find(bytes, end, number)
  {
    KeyParts(f);
    FindAfterKey(bytes, offset, Key(f), next, number);
  }

  /** One field is found or passed over. */
  lemma FindStep(front: seq<byte>, key: seq<byte>, contents: seq<byte>, back: seq<byte>, f: Field, number: nat)
    requires WellFormed(f) && Denotes(key, Key(f)) && Passed(contents, f)
    requires f.Number? ==> Denotes(contents, f.value)
    ensures var bytes := front + (key + contents) + back;
            Find(bytes, |front|, number) ==
              if f.Number? && f.number == number then f.value
              else Find(bytes, |front + (key + contents)|, number)
  {
    ReadHere(front, key, contents + back, Key(f));
    SkipHere(front + key, contents, back, f);
    Regrouped(front, key, contents, back);
    FindAtField(front + (key + contents) + back, |front|, f, |front + key|, |front + (key + contents)|, number);
  }

  lemma ReadHere(front: seq<byte>, code: seq<byte>, back: seq<byte>, n: nat)
    requires Denotes(code, n)
    ensures Read(front + code + back, |front|) == Some(Parsed(n, |front + code|))
  {
  }

  lemma SkipHere(front: seq<byte>, code: seq<byte>, back: seq<byte>, f: Field)
    requires Passed(code, f)
    requires f.Number? ==> Denotes(code, f.value)
    ensures Skip(front + code + back, |front|, WireType(f)) == |front + code|
    ensures f.Number? ==> Read(front + code + back, |front|) == Some(Parsed(f.value, |front + code|))
  {
    if f.Number? { ReadHere(front, code, back, f.value); }
  }

  lemma Regrouped<T>(a: seq<T>, b: seq<T>, c: seq<T>, d: seq<T>)
    ensures a + (b + c) + d == a + b + (c + d) && a + (b + c) + d == (a + b) + c + d
    ensures |a + b + c| == |a + (b + c)|
  {
  }

  lemma FindField(front: seq<byte>, f: Field, back: seq<byte>, number: nat)
    requires WellFormed(f)
    ensures var bytes := front + Encoded(f) + back;
            Find(bytes, |front|, number) ==
              if f.Number? && f.number == number then f.value else Find(bytes, |front + Encoded(f)|, number)
  {
    KeyParts(f);
    EncodingDenotes(Key(f));
    ContentsPassed(f);
    if f.Number? { EncodingDenotes(f.value); }
    FindStep(front, KeyBytes(f), Contents(f), back, f, number);
  }

  /** On any concatenation of well-formed fields the search returns the first matching
      varint field. */
  lemma {:induction false} FindsFirst(front: seq<byte>, fields: seq<Field>, number: nat)
    requires forall i :: 0 <= i < |fields| ==> WellFormed(fields[i])
    ensures Find(front + EncodedAll(fields), |front|, number) == FirstNumber(fields, number)
    decreases |fields|
  {
    if fields != [] {
      FirstApart(front, Encoded(fields[0]), EncodedAll(fields[1..]));
      FindField(front, fields[0], EncodedAll(fields[1..]), number);
      FindsFirst(front + Encoded(fields[0]), fields[1..], number);
    }
  }

  lemma FirstApart<T>(a: seq<T>, b: seq<T>, c: seq<T>)
    ensures a + (b + c) == a + b + c
  {
  }

  /** The encoding guide's own examples: field 1 with the number 150, field 2 with `testing`. */
  lemma GuideExamples()
    ensures EncodedAll([Number(1, 150)]) == [0x08, 0x96, 0x01]
    ensures Encoded(Bytes(2, [0x74, 0x65, 0x73, 0x74, 0x69, 0x6e, 0x67]))
         == [0x12, 0x07, 0x74, 0x65, 0x73, 0x74, 0x69, 0x6e, 0x67]
  {
    assert Encoding(8) == [0x08] && Encoding(1) == [0x01] && Encoding(18) == [0x12] && Encoding(7) == [0x07];
    assert Encoding(150) == [0x96] + Encoding(1);
    assert [Number(1, 150)][1..] == [];
  }

  /** A key that cannot be read ends the search with nothing found; so does a field of a wire type
      that is none of the four. */
  lemma GivesUp(bytes: seq<byte>, offset: nat, number: nat)
    ensures Read(bytes, offset) == None ==> Find(bytes, offset, number) == 0
    ensures Read(bytes, offset).Some? && Read(bytes, offset).value.value % 8 in {3, 4, 6, 7} ==>
              Find(bytes, offset, number) == 0
  {
  }
}
