/**
 `Packet`: a byte vector with a read/write position. Positions and lengths are 32-bit; where the
 code adds two of them the sum wraps, and `Add32` says so.
 */
module Packets {
  import opened Common

  const U32_LIMIT: nat := 0x1_0000_0000

  const LENGTH_WIDTH: nat := 4 // of the 32-bit length in front of a string

  function Add32(a: u32, b: u32): u32 {
    (a + b) % U32_LIMIT
  }

  function Pow256(n: nat): nat {
    if n == 0 then 1 else Times256(Pow256(n - 1))
  }

  /** The low `width` bytes of v, least significant first. */
  function LittleEndian(width: nat, v: nat): seq<byte> {
    if width == 0 then [] else [Low(v)] + LittleEndian(width - 1, High(v))
  }

  /** `count` bytes of `data` from `at` on. */
  function Window(data: seq<byte>, at: nat, count: nat): seq<byte>
    requires at + count <= |data|
  {
    seq(count, i requires 0 <= i < count => data[at + i])
  }

  /** The number in `width` bytes of `data` from `at` on. */
  function NumberAt(data: seq<byte>, at: nat, width: nat): nat
    requires at + width <= |data|
    decreases width
  {
    if width == 0 then 0 else data[at] + Times256(NumberAt(data, at + 1, width - 1))
  }

  /** `part` sits in `data` at `at`. */
  ghost predicate Holds(data: seq<byte>, at: nat, part: seq<byte>) {
    at + |part| <= |data| && forall i :: 0 <= i < |part| ==> data[at + i] == part[i]
  }

  lemma HoldsSplit(data: seq<byte>, at: nat, p: seq<byte>, q: seq<byte>)
    requires Holds(data, at, p + q)
    ensures Holds(data, at, p) && Holds(data, at + |p|, q)
  {
    forall i | 0 <= i < |p| ensures data[at + i] == p[i] {
      assert (p + q)[i] == p[i];
    }
    forall i | 0 <= i < |q| ensures data[at + |p| + i] == q[i] {
      assert (p + q)[|p| + i] == q[i] == data[at + (|p| + i)];
    }
  }

  lemma {:induction false} LittleEndianRoundTrip(width: nat, v: nat, data: seq<byte>, at: nat)
    requires v < Pow256(width) && Holds(data, at, LittleEndian(width, v))
    ensures |LittleEndian(width, v)| == width && NumberAt(data, at, width) == v
    decreases width
  {
    LittleEndianLength(width, v);
    if width > 0 {
      Base256(v);
      Times256Value(Pow256(width - 1));
      HoldsSplit(data, at, [Low(v)], LittleEndian(width - 1, High(v)));
      assert data[at] == LittleEndian(width, v)[0];
      LittleEndianRoundTrip(width - 1, High(v), data, at + 1);
    }
  }

  lemma {:induction false} NumberAtBound(data: seq<byte>, at: nat, width: nat)
    requires at + width <= |data|
    ensures NumberAt(data, at, width) < Pow256(width)
    decreases width
  {
    if width > 0 {
      NumberAtBound(data, at + 1, width - 1);
      Times256Value(NumberAt(data, at + 1, width - 1));
      Times256Value(Pow256(width - 1));
    }
  }

  lemma FourBytes()
    ensures Pow256(1) == 256 && Pow256(2) == 0x1_0000 && Pow256(LENGTH_WIDTH) == U32_LIMIT
  {
    Times256Value(Pow256(0)); Times256Value(Pow256(1)); Times256Value(Pow256(2)); Times256Value(Pow256(3));
    assert Pow256(1) == 256 && Pow256(2) == 0x1_0000 && Pow256(3) == 0x100_0000;
  }

  lemma LittleEndianLength(width: nat, v: nat)
    ensures |LittleEndian(width, v)| == width
  {
  }

  /** The bytes of numbers of one, two and four bytes, least significant first. */
  lemma ByteBytes(v: byte)
    ensures LittleEndian(1, v) == [v]
  {
    assert LittleEndian(0, High(v)) == [];
  }

  lemma ShortBytes(v: u16)
    ensures LittleEndian(2, v) == [v % 256, v / 256]
  {
    Base256(v);
    assert High(v) < 256;
    ByteBytes(High(v));
    assert LittleEndian(2, v) == [Low(v)] + LittleEndian(1, High(v));
  }

  lemma LongBytes(v: u16)
    ensures LittleEndian(4, v) == [v % 256, v / 256, 0, 0]
  {
    Base256(v);
    var h := High(v);
    assert h < 256 && Low(h) == h && High(h) == 0;
    assert LittleEndian(4, v) == [Low(v)] + LittleEndian(3, h);
    assert LittleEndian(3, h) == [h] + LittleEndian(2, 0);
    assert LittleEndian(2, 0) == [0] + LittleEndian(1, 0);
    ByteBytes(0);
  }

  /** v without its lowest i bytes. */
  function Shifted(v: nat, i: nat): nat {
    if i == 0 then v else Shifted(v, i - 1) / 256
  }

  /** Byte i of a number of any width. */
  lemma {:induction false} LittleEndianAt(width: nat, v: nat, i: nat)
    requires i < width
    ensures |LittleEndian(width, v)| == width && LittleEndian(width, v)[i] == Shifted(v, i) % 256
    decreases width
  {
    LittleEndianLength(width, v);
    Base256(v);
    if i > 0 {
      LittleEndianAt(width - 1, High(v), i - 1);
      ShiftedTwice(v, i - 1);
    }
  }

  lemma {:induction false} ShiftedTwice(v: nat, i: nat)
    ensures Shifted(v / 256, i) == Shifted(v, i + 1)
    decreases i
  {
    if i > 0 {
      ShiftedTwice(v, i - 1);
    }
  }

  // ---------------------------------------------------------------------------------------------
  // Vector operations
  // ---------------------------------------------------------------------------------------------

  function Resized(data: seq<byte>, n: nat): seq<byte> {
    seq(n, i requires 0 <= i < n => if i < |data| then data[i] else 0)
  }

  /** `bytes` copied over `data` at `at`. */
  function Overwritten(data: seq<byte>, at: nat, bytes: seq<byte>): seq<byte>
    requires at + |bytes| <= |data|
  {
    seq(|data|, i requires 0 <= i < |data| => if at <= i < at + |bytes| then bytes[i - at] else data[i])
  }

  function Zeroes(n: nat): seq<byte> {
    seq(n, _ => 0)
  }

  /** WriteBytes: grows to the end of the new bytes. */
  function Patched(data: seq<byte>, at: nat, bytes: seq<byte>): seq<byte> {
    var end := at + |bytes|;
    Overwritten(if end > |data| then Resized(data, end) else data, at, bytes)
  }

  /** WriteZeroes: grows by the number of zeroes, wherever the position is. */
  function PatchedZeroes(data: seq<byte>, at: nat, count: nat): seq<byte>
    requires at <= |data|
  {
    Overwritten(if at + count > |data| then Resized(data, |data| + count) else data, at, Zeroes(count))
  }

  lemma AppendAtEnd(data: seq<byte>, bytes: seq<byte>)
    ensures Patched(data, |data|, bytes) == data + bytes
    ensures PatchedZeroes(data, |data|, |bytes|) == data + Zeroes(|bytes|)
  {
  }

  /** WriteBytes puts its bytes at the position, leaves every other byte as it was, and grows no further than
      to their end; a gap in front of them is zero. */
  lemma PatchedAt(data: seq<byte>, at: nat, bytes: seq<byte>)
    ensures |Patched(data, at, bytes)| == Max(|data|, at + |bytes|)
    ensures forall i :: 0 <= i < |bytes| ==> Patched(data, at, bytes)[at + i] == bytes[i]
    ensures forall i :: 0 <= i < |data| && !(at <= i < at + |bytes|) ==> Patched(data, at, bytes)[i] == data[i]
    ensures forall i :: |data| <= i < at && i < |Patched(data, at, bytes)| ==> Patched(data, at, bytes)[i] == 0
  {
  }

  /** So does WriteZeroes, with zeroes. */
  lemma PatchedZeroesAt(data: seq<byte>, at: nat, count: nat)
    requires at <= |data|
    ensures forall i :: at <= i < at + count ==> PatchedZeroes(data, at, count)[i] == 0
    ensures forall i :: 0 <= i < at ==> PatchedZeroes(data, at, count)[i] == data[i]
    ensures forall i :: at + count <= i < |data| ==> PatchedZeroes(data, at, count)[i] == data[i]
    ensures at + count <= |PatchedZeroes(data, at, count)|
  {
  }

  /** The two ways to grow agree exactly at the end of the vector, or where nothing has to grow. */
  lemma WriteZeroesTightIff(data: seq<byte>, at: nat, count: nat)
    requires at <= |data|
    ensures PatchedZeroes(data, at, count) == Patched(data, at, Zeroes(count)) <==> at == |data| || at + count <= |data|
  {
    if at + count > |data| && at < |data| {
      assert |PatchedZeroes(data, at, count)| > |Patched(data, at, Zeroes(count))|;
    }
  }

  // ---------------------------------------------------------------------------------------------
  // Reading, as functions of the vector and the position
  // ---------------------------------------------------------------------------------------------

  /** Read<T> for a T of `width` bytes: zero, and no progress, when the packet is too short. */
  function ReadNumber(data: seq<byte>, at: nat, width: nat): (nat, nat) {
    if at + width > |data| then (0, at) else (NumberAt(data, at, width), at + width)
  }

  function ReadRaw(data: seq<byte>, at: nat, count: nat): (Option<seq<byte>>, nat) {
    if at + count <= |data| then (Some(Window(data, at, count)), at + count) else (None, at)
  }

  /** ReadString. No value means that the copy would run past the end of the vector, because the
      32-bit sum of position and length wrapped and so passed the check. */
  function ReadText(data: seq<byte>, at: u32): (Option<seq<byte>>, nat) {
    var (length, from) := ReadNumber(data, at, LENGTH_WIDTH);
    if length == 0 then (Some([]), from)
    else if from >= U32_LIMIT || length >= U32_LIMIT then (None, from)
    else
      var count := if Add32(from, length) > |data| then |data| - from else length;
      if from + count <= |data| then (Some(Window(data, from, count)), from + count) else (None, from)
  }

  lemma WrappedTextFails(data: seq<byte>, at: u32)
    requires |data| < U32_LIMIT && at + 4 <= |data| && at + 4 + NumberAt(data, at, LENGTH_WIDTH) >= U32_LIMIT
    ensures ReadText(data, at) == (None, at + 4)
  {
    NumberAtBound(data, at, LENGTH_WIDTH);
    FourBytes();
    var length, from := NumberAt(data, at, LENGTH_WIDTH), at + 4;
    assert length < U32_LIMIT && ReadNumber(data, at, LENGTH_WIDTH) == (length, from);
    assert Add32(from, length) == from + length - U32_LIMIT < from;
  }

  /** A declared length is cut to what the packet still holds, and the position never passes the
      size: exactly as long as position and declared length do not wrap. */
  lemma TruncatedTextIff(data: seq<byte>, at: u32)
    requires |data| < U32_LIMIT && at + 4 <= |data|
    ensures var length := NumberAt(data, at, LENGTH_WIDTH);
      var (text, end) := ReadText(data, at);
      var count := Min(length, |data| - at - 4);
      (text == Some(Window(data, at + 4, count)) && end == at + 4 + count <= |data|) <==> at + 4 + length < U32_LIMIT
  {
    NumberAtBound(data, at, LENGTH_WIDTH);
    FourBytes();
    var length := NumberAt(data, at, LENGTH_WIDTH);
    var from := at + 4;
    assert length < U32_LIMIT && ReadNumber(data, at, LENGTH_WIDTH) == (length, from);
    if from + length >= U32_LIMIT {
      WrappedTextFails(data, at);
    } else {
      assert Add32(from, length) == from + length;
      assert Window(data, from, 0) == [];
    }
  }

  /** A declared length of 2^32 - 1 passes the check, because 4 plus it is 3: the copy leaves the packet. */
  lemma WrappingTextExample(data: seq<byte>)
    requires data == [255, 255, 255, 255, 65]
    ensures ReadText(data, 0) == (None, 4)
  {
    assert NumberAt(data, 4, 0) == 0;
    Times256Value(NumberAt(data, 4, 0));
    assert NumberAt(data, 3, 1) == 255;
    Times256Value(NumberAt(data, 3, 1));
    assert NumberAt(data, 2, 2) == 0xFFFF;
    Times256Value(NumberAt(data, 2, 2));
    assert NumberAt(data, 1, 3) == 0xFF_FFFF;
    Times256Value(NumberAt(data, 1, 3));
    WrappedTextFails(data, 0);
  }

  /** No read leaves the packet or goes back, and one that finds too little changes nothing and gives zero or
      nothing. */
  lemma ReadsStayInside(data: seq<byte>, at: u32, size: nat)
    requires at <= |data| < U32_LIMIT
    ensures at <= ReadNumber(data, at, size).1 <= |data| && at <= ReadRaw(data, at, size).1 <= |data|
    ensures at <= ReadText(data, at).1 <= |data|
    ensures at + size > |data| ==> ReadNumber(data, at, size) == (0, at) && ReadRaw(data, at, size) == (None, at)
    ensures at + size <= |data| ==> ReadNumber(data, at, size).1 == at + size && ReadRaw(data, at, size).1 == at + size
  {
  }

  // ---------------------------------------------------------------------------------------------
  // Field lists
  // ---------------------------------------------------------------------------------------------

  datatype Field =
    | Number(width: nat, v: nat)
    | Raw(bytes: seq<byte>)
    | Text(chars: seq<byte>)
    | Zero(count: nat)
  {
    ghost predicate Valid() {
      match this
      case Number(width, v) => v < Pow256(width)
      case Text(chars) => |chars| < U32_LIMIT
      case _ => true
    }

    function Encoded(): seq<byte> {
      match this
      case Number(width, v) => LittleEndian(width, v)
      case Raw(bytes) => bytes
      case Text(chars) => LittleEndian(LENGTH_WIDTH, |chars|) + chars
      case Zero(count) => Zeroes(count)
    }
  }

  /** What reading a field gives back. */
  datatype Value = Num(v: nat) | Bytes(bytes: seq<byte>)

  function Meaning(f: Field): Value {
    match f
    case Number(_, v) => Num(v)
    case Raw(bytes) => Bytes(bytes)
    case Text(chars) => Bytes(chars)
    case Zero(count) => Bytes(Zeroes(count))
  }

  function MeaningsFrom(fields: seq<Field>, i: nat): seq<Option<Value>>
    requires i <= |fields|
    decreases |fields| - i
  {
    if i == |fields| then [] else [Some(Meaning(fields[i]))] + MeaningsFrom(fields, i + 1)
  }

  /** Reads a field of the same kind and size as f, taking nothing from f's value. */
  function ReadLike(f: Field, data: seq<byte>, at: nat): (Option<Value>, nat) {
    match f
    case Number(width, _) => var (v, end) := ReadNumber(data, at, width); (Some(Num(v)), end)
    case Raw(bytes) => AsValue(ReadRaw(data, at, |bytes|))
    case Text(_) => if at < U32_LIMIT then AsValue(ReadText(data, at)) else (None, at)
    case Zero(count) => AsValue(ReadRaw(data, at, count))
  }

  function AsValue(r: (Option<seq<byte>>, nat)): (Option<Value>, nat) {
    (if r.0.Some? then Some(Bytes(r.0.value)) else None, r.1)
  }

  /** The fields from the i-th on. */
  function EncodedFrom(fields: seq<Field>, i: nat): seq<byte>
    requires i <= |fields|
    decreases |fields| - i
  {
    if i == |fields| then [] else fields[i].Encoded() + EncodedFrom(fields, i + 1)
  }

  function ReadFrom(fields: seq<Field>, i: nat, data: seq<byte>, at: nat): (seq<Option<Value>>, nat)
    requires i <= |fields|
    decreases |fields| - i
  {
    if i == |fields| then ([], at)
    else
      var (v, next) := ReadLike(fields[i], data, at);
      var (rest, end) := ReadFrom(fields, i + 1, data, next);
      ([v] + rest, end)
  }

  lemma FieldRoundTrip(f: Field, data: seq<byte>, at: nat)
    requires f.Valid() && |data| < U32_LIMIT && Holds(data, at, f.Encoded())
    ensures ReadLike(f, data, at) == (Some(Meaning(f)), at + |f.Encoded()|)
  {
    match f {
      case Number(width, v) =>
        LittleEndianRoundTrip(width, v, data, at);
      case Raw(bytes) => assert Window(data, at, |bytes|) == bytes;
      case Text(chars) => TextRoundTrip(chars, data, at);
      case Zero(count) => assert Window(data, at, count) == Zeroes(count);
    }
  }

  lemma TextRoundTrip(chars: seq<byte>, data: seq<byte>, at: nat)
    requires |data| < U32_LIMIT && Holds(data, at, Text(chars).Encoded())
    ensures |Text(chars).Encoded()| == 4 + |chars| && |chars| < U32_LIMIT
    ensures at < U32_LIMIT && ReadText(data, at) == (Some(chars), at + 4 + |chars|)
  {
    LittleEndianLength(LENGTH_WIDTH, |chars|);
    HoldsSplit(data, at, LittleEndian(LENGTH_WIDTH, |chars|), chars);
    FourBytes();
    LittleEndianRoundTrip(LENGTH_WIDTH, |chars|, data, at);
    assert Window(data, at + 4, |chars|) == chars;
  }

  /** Whatever fields are written one after the other come back, in order, when fields of the same
      kinds are read from where the writing began; the position ends where the writing ended. */
  lemma {:induction false} FieldsRoundTrip(fields: seq<Field>, i: nat, data: seq<byte>, at: nat)
    requires i <= |fields|
    requires |data| < U32_LIMIT && Holds(data, at, EncodedFrom(fields, i))
    requires forall k :: 0 <= k < |fields| ==> fields[k].Valid()
    ensures ReadFrom(fields, i, data, at) == (MeaningsFrom(fields, i), at + |EncodedFrom(fields, i)|)
    decreases |fields| - i
  {
    if i < |fields| {
      HoldsSplit(data, at, fields[i].Encoded(), EncodedFrom(fields, i + 1));
      FieldRoundTrip(fields[i], data, at);
      FieldsRoundTrip(fields, i + 1, data, at + |fields[i].Encoded()|);
    }
  }

  /** A new packet filled with any fields and read back from position 2. */
  lemma PacketRoundTrip(fields: seq<Field>)
    requires 2 + |EncodedFrom(fields, 0)| < U32_LIMIT && forall k :: 0 <= k < |fields| ==> fields[k].Valid()
    ensures var data := [0, 0] + EncodedFrom(fields, 0);
      ReadFrom(fields, 0, data, 2) == (MeaningsFrom(fields, 0), |data|)
  {
    FieldsRoundTrip(fields, 0, [0, 0] + EncodedFrom(fields, 0), 2);
  }

  // ---------------------------------------------------------------------------------------------
  // The object
  // ---------------------------------------------------------------------------------------------

  class Packet {
    var data: seq<byte>
    var position: u32

    /** Nothing left behind the position, as while a packet is being built. */
    ghost predicate AtEnd()
      reads this
    {
      position == |data|
    }

    constructor ()
      ensures data == [0, 0] && position == 2
    {
      data, position := [], 0;
      new;
      Write(2, 0);
      assert data == LittleEndian(2, 0);
      assert LittleEndian(1, 0) == [0] && LittleEndian(2, 0) == [0] + LittleEndian(1, 0);
    }

    method Resize(n: u32)
      modifies this`data
      ensures data == Resized(old(data), n)
    {
      data := Resized(data, n);
    }

    method SetPosition(p: u32)
      modifies this`position
      ensures position == p
    {
      position := p;
    }

    method Read(width: nat) returns (v: nat)
      requires |data| < U32_LIMIT
      modifies this`position
      ensures (v, position) == ReadNumber(data, old(position), width)
    {
      if position + width > |data| {
        return 0;
      }
      v := NumberAt(data, position, width);
      position := position + width;
    }

    /** No value means that the caller's buffer was left alone. */
    method ReadBytes(length: u32) returns (bytes: Option<seq<byte>>)
      requires |data| < U32_LIMIT && position + length < U32_LIMIT
      modifies this`position
      ensures (bytes, position) == ReadRaw(data, old(position), length)
    {
      bytes := None;
      if Add32(position, length) <= |data| {
        bytes := Some(Window(data, position, length));
        position := position + length;
      }
    }

    method ReadString() returns (text: Option<seq<byte>>)
      requires |data| < U32_LIMIT
      modifies this`position
      ensures (text, position) == ReadText(data, old(position))
    {
      var length := Read(LENGTH_WIDTH);
      if length == 0 {
        return Some([]);
      }
      NumberAtBound(data, old(position), LENGTH_WIDTH);
      FourBytes();
      if Add32(position, length) > |data| {
        length := |data| - position;
      }
      if position + length > |data| {
        return None;
      }
      text := Some(Window(data, position, length));
      position := position + length;
    }

    method Write(width: nat, v: nat)
      requires position + width < U32_LIMIT
      modifies this
      ensures data == Patched(old(data), old(position), LittleEndian(width, v)) && position == old(position) + width
      ensures forall i :: 0 <= i < |old(data)| && !(old(position) <= i < position) ==> data[i] == old(data)[i]
      ensures old(AtEnd()) ==> AtEnd() && data == old(data) + Number(width, v).Encoded()
    {
      LittleEndianLength(width, v);
      WriteBytes(LittleEndian(width, v));
    }

    method WriteBytes(bytes: seq<byte>)
      requires position + |bytes| < U32_LIMIT
      modifies this
      ensures data == Patched(old(data), old(position), bytes) && position == old(position) + |bytes|
      ensures forall i :: 0 <= i < |bytes| ==> data[old(position) + i] == bytes[i]
      ensures forall i :: 0 <= i < |old(data)| && !(old(position) <= i < position) ==> data[i] == old(data)[i]
      ensures old(AtEnd()) ==> AtEnd() && data == old(data) + Raw(bytes).Encoded()
    {
      AppendAtEnd(data, bytes);
      PatchedAt(data, position, bytes);
      ghost var was, at := data, position;
      if Add32(position, |bytes|) > |data| {
        data := Resized(data, Add32(position, |bytes|));
      }
      data := Overwritten(data, position, bytes);
      position := Add32(position, |bytes|);
      assert data == Patched(was, at, bytes);
    }

    method WriteString(chars: seq<byte>)
      requires position + 4 + |chars| < U32_LIMIT
      modifies this
      ensures var prefixed := Patched(old(data), old(position), LittleEndian(LENGTH_WIDTH, |chars|));
        data == Patched(prefixed, old(position) + 4, chars)
      ensures position == old(position) + 4 + |chars|
      ensures old(AtEnd()) ==> AtEnd() && data == old(data) + Text(chars).Encoded()
    {
      Write(LENGTH_WIDTH, |chars|);
      ghost var prefixed := data;
      LittleEndianLength(LENGTH_WIDTH, |chars|);
      if |chars| > 0 {
        WriteBytes(chars);
      } else {
        assert Patched(prefixed, position, chars) == prefixed;
      }
      if old(AtEnd()) {
        assert data == prefixed + chars;
        Regroup(old(data), LittleEndian(LENGTH_WIDTH, |chars|), chars);
      }
    }

    method WriteZeroes(count: u32)
      requires position <= |data| && |data| + count < U32_LIMIT
      modifies this
      ensures data == PatchedZeroes(old(data), old(position), count) && position == old(position) + count
      ensures old(AtEnd()) ==> AtEnd() && data == old(data) + Zero(count).Encoded()
    {
      AppendAtEnd(data, Zeroes(count));
      if Add32(position, count) > |data| {
        data := Resized(data, |data| + count);
      }
      data := Overwritten(data, position, Zeroes(count));
      position := Add32(position, count);
    }

    /** Any field through the call that writes it. */
    method WriteField(f: Field)
      requires AtEnd() && |data| + |f.Encoded()| < U32_LIMIT
      modifies this
      ensures AtEnd() && data == old(data) + f.Encoded()
    {
      match f {
        case Number(width, v) => LittleEndianLength(width, v); Write(width, v);
        case Raw(bytes) => WriteBytes(bytes);
        case Text(chars) => LittleEndianLength(LENGTH_WIDTH, |chars|); WriteString(chars);
        case Zero(count) => WriteZeroes(count);
      }
    }
  }

  /** From construction, any list of writes keeps the position at the size and appends the fields. */
  method Build(fields: seq<Field>) returns (p: Packet)
    requires 2 + |EncodedFrom(fields, 0)| < U32_LIMIT
    ensures fresh(p) && p.AtEnd() && p.data == [0, 0] + EncodedFrom(fields, 0)
  {
    p := new Packet();
    var i := 0;
    while i < |fields|
      invariant 0 <= i <= |fields|
      invariant p.AtEnd() && p.data + EncodedFrom(fields, i) == [0, 0] + EncodedFrom(fields, 0)
    {
      Regroup(p.data, fields[i].Encoded(), EncodedFrom(fields, i + 1));
      p.WriteField(fields[i]);
      i := i + 1;
    }
  }
}
