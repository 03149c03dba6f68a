/** The login server's answer to a server list request, and a decoder for it. */
module ServerList {
  import opened Common
  import opened Packets
  import opened StringUtility

  /** A row of the world servers table. */
  datatype Server = Server(id: byte, address: string, port: u16, maxPlayers: u32, currentPlayers: u32, online: bool)

  // ---------------------------------------------------------------------------------------------
  // Encoding
  // ---------------------------------------------------------------------------------------------

  /** One server; the player counts are cut to 16 bits. */
  function EntryFields(sv: Server): seq<Field> {
    [Number(1, sv.id), Raw(IPv4Bytes(sv.address)), Number(4, sv.port), Number(1, 0), Number(1, 1),
     Number(2, sv.currentPlayers % 0x1_0000), Number(2, sv.maxPlayers % 0x1_0000),
     Number(1, if sv.online then 1 else 0), Number(4, 1), Number(1, 0)]
  }

  function Entry(sv: Server): seq<byte> {
    EncodedFrom(EntryFields(sv), 0)
  }

  function Blocks(list: seq<Server>): seq<seq<byte>> {
    seq(|list|, k requires 0 <= k < |list| => Entry(list[k]))
  }

  function Concat(blocks: seq<seq<byte>>, k: nat): seq<byte>
    requires k <= |blocks|
    decreases |blocks| - k
  {
    if k == |blocks| then [] else blocks[k] + Concat(blocks, k + 1)
  }

  function MaxId(list: seq<Server>, k: nat): byte
    requires k <= |list|
  {
    if k == 0 then 0 else Max(list[k - 1].id, MaxId(list, k - 1))
  }

  lemma {:induction false} MaxIdIsMaximum(list: seq<Server>, k: nat)
    requires k <= |list|
    ensures forall i :: 0 <= i < k ==> list[i].id <= MaxId(list, k)
    ensures MaxId(list, k) != 0 ==> exists i :: 0 <= i < k && list[i].id == MaxId(list, k)
    decreases k
  {
    if k > 0 {
      MaxIdIsMaximum(list, k - 1);
      if list[k - 1].id < MaxId(list, k - 1) {
        var i :| 0 <= i < k - 1 && list[i].id == MaxId(list, k - 1);
        assert list[i].id == MaxId(list, k);
      }
    }
  }

  /** Opcode, number of servers in one byte, last server. */
  function Header(count: nat): seq<byte> {
    LittleEndian(1, 4) + LittleEndian(1, Low(count)) + LittleEndian(1, 0)
  }

  /** Highest id + 1, a one, and a number of characters for every id up to the highest. */
  function Trailer(maxId: nat): seq<byte> {
    LittleEndian(2, maxId + 1) + LittleEndian(1, 1) + Characters(maxId)
  }

  function Characters(count: nat): seq<byte> {
    if count == 0 then [] else Characters(count - 1) + LittleEndian(1, 2)
  }

  function Reply(list: seq<Server>): seq<byte> {
    [0, 0] + Header(|list|) + Concat(Blocks(list), 0) + Trailer(MaxId(list, |list|))
  }

  /** The addresses the database may hold for the reply to be defined: four parts, each an int. */
  predicate Addressed(list: seq<Server>) {
    forall k :: 0 <= k < |list| ==> |Pieces(list[k].address, ".")| == 4 && InRange(Pieces(list[k].address, "."))
  }

  lemma EntryLength(sv: Server)
    requires |Pieces(sv.address, ".")| == 4
    ensures |Entry(sv)| == 21
  {
    EntryUnrolled(sv);
    LittleEndianLength(1, sv.id); LittleEndianLength(4, sv.port); LittleEndianLength(1, 0); LittleEndianLength(1, 1);
    LittleEndianLength(2, sv.currentPlayers % 0x1_0000); LittleEndianLength(2, sv.maxPlayers % 0x1_0000);
    LittleEndianLength(1, if sv.online then 1 else 0); LittleEndianLength(4, 1);
  }

  /** The entry, field by field. */
  lemma EntryUnrolled(sv: Server)
    ensures Entry(sv) ==
      LittleEndian(1, sv.id) + (IPv4Bytes(sv.address) + (LittleEndian(4, sv.port) +
      (LittleEndian(1, 0) + (LittleEndian(1, 1) +
      (LittleEndian(2, sv.currentPlayers % 0x1_0000) + (LittleEndian(2, sv.maxPlayers % 0x1_0000) +
      (LittleEndian(1, if sv.online then 1 else 0) + (LittleEndian(4, 1) + LittleEndian(1, 0)))))))))
  {
    var f := EntryFields(sv);
    assert EncodedFrom(f, 9) == LittleEndian(1, 0) + EncodedFrom(f, 10);
    assert LittleEndian(1, 0) + [] == LittleEndian(1, 0);
    assert EncodedFrom(f, 8) == LittleEndian(4, 1) + EncodedFrom(f, 9);
    assert EncodedFrom(f, 7) == LittleEndian(1, if sv.online then 1 else 0) + EncodedFrom(f, 8);
    assert EncodedFrom(f, 6) == LittleEndian(2, sv.maxPlayers % 0x1_0000) + EncodedFrom(f, 7);
    assert EncodedFrom(f, 5) == LittleEndian(2, sv.currentPlayers % 0x1_0000) + EncodedFrom(f, 6);
    assert EncodedFrom(f, 4) == LittleEndian(1, 1) + EncodedFrom(f, 5);
    assert EncodedFrom(f, 3) == LittleEndian(1, 0) + EncodedFrom(f, 4);
    assert EncodedFrom(f, 2) == LittleEndian(4, sv.port) + EncodedFrom(f, 3);
    assert EncodedFrom(f, 1) == IPv4Bytes(sv.address) + EncodedFrom(f, 2);
  }

  lemma BlocksLength(list: seq<Server>)
    requires Addressed(list)
    ensures forall k :: 0 <= k < |list| ==> |Blocks(list)[k]| == 21
  {
    forall k | 0 <= k < |list| ensures |Blocks(list)[k]| == 21 {
      EntryLength(list[k]);
    }
  }

  lemma {:induction false} ConcatLength(blocks: seq<seq<byte>>, size: nat, k: nat)
    requires k <= |blocks| && forall i :: 0 <= i < |blocks| ==> |blocks[i]| == size
    ensures |Concat(blocks, k)| == size * (|blocks| - k)
    decreases |blocks| - k
  {
    if k < |blocks| {
      ConcatLength(blocks, size, k + 1);
      assert size * (|blocks| - k) == size + size * (|blocks| - (k + 1));
    }
  }

  /** Blocks of one size sit at multiples of it. */
  lemma {:induction false} ConcatHolds(blocks: seq<seq<byte>>, k: nat, data: seq<byte>, at: nat, j: nat)
    requires k <= j < |blocks| && forall i :: 0 <= i < |blocks| ==> |blocks[i]| == 21
    requires Holds(data, at, Concat(blocks, k))
    ensures Holds(data, at + 21 * (j - k), blocks[j])
    decreases j - k
  {
    HoldsSplit(data, at, blocks[k], Concat(blocks, k + 1));
    if k < j {
      ConcatHolds(blocks, k + 1, data, at + 21, j);
    }
  }

  lemma {:induction false} CharactersLength(count: nat)
    ensures |Characters(count)| == count
    decreases count
  {
    if count > 0 {
      CharactersLength(count - 1);
      LittleEndianLength(1, 2);
    }
  }

  lemma HeaderLength(count: nat)
    ensures |Header(count)| == 3
  {
    LittleEndianLength(1, 4); LittleEndianLength(1, Low(count)); LittleEndianLength(1, 0);
  }

  lemma TrailerLength(maxId: nat)
    ensures |Trailer(maxId)| == 3 + maxId
  {
    LittleEndianLength(2, maxId + 1); LittleEndianLength(1, 1);
    CharactersLength(maxId);
  }

  lemma ConcatLengths(a: seq<byte>, b: seq<byte>, c: seq<byte>, d: seq<byte>)
    ensures |a + b + c + d| == |a| + |b| + |c| + |d|
  {
  }

  /** Two size bytes, three header bytes, 21 for a server, three behind them, one for every id. */
  lemma ReplyLength(list: seq<Server>)
    requires Addressed(list)
    ensures |Concat(Blocks(list), 0)| == 21 * |list|
    ensures |Reply(list)| == 8 + 21 * |list| + MaxId(list, |list|)
  {
    var m := MaxId(list, |list|);
    BlocksLength(list);
    ConcatLength(Blocks(list), 21, 0);
    HeaderLength(|list|);
    TrailerLength(m);
    ConcatLengths([0, 0], Header(|list|), Concat(Blocks(list), 0), Trailer(m));
  }

  // ---------------------------------------------------------------------------------------------
  // Decoding
  // ---------------------------------------------------------------------------------------------

  /** The shape of an entry, without its values. */
  const ENTRY_SHAPE: seq<Field> :=
    [Number(1, 0), Raw([0, 0, 0, 0]), Number(4, 0), Number(1, 0), Number(1, 0), Number(2, 0), Number(2, 0),
     Number(1, 0), Number(4, 0), Number(1, 0)]

  function DecodeEntry(data: seq<byte>, at: nat): seq<Option<Value>> {
    ReadFrom(ENTRY_SHAPE, 0, data, at).0
  }

  function ByteAt(data: seq<byte>, i: nat): byte {
    if i < |data| then data[i] else 0
  }

  /** What a client finds in a reply: opcode, last server, entries, highest id, the flag behind it, a number of
      characters for every id, and where it stops reading. */
  datatype Decoded = Decoded(opcode: byte, lastServer: byte, entries: seq<seq<Option<Value>>>, maxId: int, flag: byte,
                             characters: seq<byte>, end: int)

  function BytesAt(data: seq<byte>, at: nat, count: nat): seq<byte> {
    if count == 0 then [] else BytesAt(data, at, count - 1) + [ByteAt(data, at + count - 1)]
  }

  function Decode(data: seq<byte>): Decoded {
    var count := ByteAt(data, 3);
    var at := 5 + 21 * count;
    var top := ReadNumber(data, at, 2).0;
    Decoded(ByteAt(data, 2), ByteAt(data, 4), seq(count, k requires 0 <= k => DecodeEntry(data, 5 + 21 * k)), top - 1,
            ByteAt(data, at + 2), BytesAt(data, at + 3, Max(top - 1, 0)), at + 3 + (top - 1))
  }

  /** What a client should find. */
  function Intended(list: seq<Server>, end: int): Decoded {
    var maxId := MaxId(list, |list|);
    Decoded(4, 0, Expected(list), maxId, 1, seq(maxId, _ => 2), end)
  }

  /** What a client should learn of one server. */
  function EntryValues(sv: Server): seq<Option<Value>> {
    [Some(Num(sv.id)), Some(Bytes(IPv4Bytes(sv.address))), Some(Num(sv.port)), Some(Num(0)), Some(Num(1)),
     Some(Num(sv.currentPlayers % 0x1_0000)), Some(Num(sv.maxPlayers % 0x1_0000)),
     Some(Num(if sv.online then 1 else 0)), Some(Num(1)), Some(Num(0))]
  }

  /** The parts of an entry, byte by byte. */
  function EntryParts(sv: Server): seq<seq<byte>> {
    var current, most := sv.currentPlayers % 0x1_0000, sv.maxPlayers % 0x1_0000;
    [[sv.id], IPv4Bytes(sv.address), [sv.port % 256, sv.port / 256, 0, 0], [0], [1],
     [current % 256, current / 256], [most % 256, most / 256], [if sv.online then 1 else 0], [1, 0, 0, 0], [0]]
  }

  ghost predicate EncodedAs(f: Field, part: seq<byte>) {
    f.Encoded() == part
  }

  ghost predicate AllEncodedAs(f: seq<Field>, parts: seq<seq<byte>>) {
    |parts| == |f| && forall k :: 0 <= k < |f| ==> EncodedAs(f[k], parts[k])
  }

  ghost predicate SameFrom(f: seq<Field>, parts: seq<seq<byte>>, i: nat) {
    i <= |f| == |parts| && EncodedFrom(f, i) == Concat(parts, i)
  }

  lemma FirstPart(f: seq<Field>, parts: seq<seq<byte>>, i: nat)
    requires i < |f| == |parts| && EncodedAs(f[i], parts[i]) && SameFrom(f, parts, i + 1)
    ensures SameFrom(f, parts, i)
  {
    var e := f[i].Encoded();
    assert e == parts[i];
  }

  lemma NoParts(f: seq<Field>, parts: seq<seq<byte>>)
    requires |f| == |parts|
    ensures SameFrom(f, parts, |f|)
  {
  }

  lemma EncodedParts(f: seq<Field>, parts: seq<seq<byte>>)
    requires AllEncodedAs(f, parts)
    ensures SameFrom(f, parts, 0)
  {
    NoParts(f, parts);
    for i := |f| downto 0
      invariant SameFrom(f, parts, i)
    {
      FirstPart(f, parts, i);
    }
  }

  lemma ByteEncoded(v: byte)
    ensures EncodedAs(Number(1, v), [v])
  {
    ByteBytes(v);
  }

  lemma ShortEncoded(v: u16)
    ensures EncodedAs(Number(2, v), [v % 256, v / 256])
  {
    ShortBytes(v);
  }

  lemma LongEncoded(v: u16)
    ensures EncodedAs(Number(4, v), [v % 256, v / 256, 0, 0])
  {
    LongBytes(v);
  }

  lemma EntryFieldsEncoded(sv: Server)
    ensures AllEncodedAs(EntryFields(sv), EntryParts(sv))
  {
    ByteEncoded(sv.id); ByteEncoded(0); ByteEncoded(1); ByteEncoded(if sv.online then 1 else 0);
    LongEncoded(sv.port); LongEncoded(1);
    ShortEncoded(sv.currentPlayers % 0x1_0000); ShortEncoded(sv.maxPlayers % 0x1_0000);
  }

  lemma EntryLayout(sv: Server)
    ensures Entry(sv) == Concat(EntryParts(sv), 0)
  {
    EntryFieldsEncoded(sv);
    EncodedParts(EntryFields(sv), EntryParts(sv));
  }

  lemma {:induction false} MeaningsAre(f: seq<Field>, i: nat, values: seq<Option<Value>>)
    requires |values| == |f| && i <= |f| && forall k :: 0 <= k < |f| ==> values[k] == Some(Meaning(f[k]))
    ensures MeaningsFrom(f, i) == values[i..]
    decreases |f| - i
  {
    if i < |f| {
      MeaningsAre(f, i + 1, values);
      assert values[i..] == [values[i]] + values[i + 1..];
    }
  }

  function Expected(list: seq<Server>): seq<seq<Option<Value>>> {
    seq(|list|, k requires 0 <= k < |list| => EntryValues(list[k]))
  }

  ghost predicate SameShape(f: Field, g: Field) {
    match f
    case Number(width, _) => g.Number? && g.width == width
    case Raw(bytes) => g.Raw? && |g.bytes| == |bytes|
    case Text(_) => g.Text?
    case Zero(count) => g == f
  }

  ghost predicate SameShapes(f: seq<Field>, g: seq<Field>) {
    |f| == |g| && forall k :: 0 <= k < |f| ==> SameShape(f[k], g[k])
  }

  /** A decoder needs the shapes of the fields only. */
  lemma {:induction false} ReadBySameShape(f: seq<Field>, g: seq<Field>, i: nat, data: seq<byte>, at: nat)
    requires SameShapes(f, g) && i <= |f|
    ensures ReadFrom(f, i, data, at) == ReadFrom(g, i, data, at)
    decreases |f| - i
  {
    if i < |f| {
      assert ReadLike(f[i], data, at) == ReadLike(g[i], data, at);
      ReadBySameShape(f, g, i + 1, data, ReadLike(f[i], data, at).1);
    }
  }

  ghost predicate AllValid(f: seq<Field>) {
    forall k :: 0 <= k < |f| ==> f[k].Valid()
  }

  /** Any fields can be read with any fields of the same shapes. */
  lemma RecordRoundTrip(f: seq<Field>, shape: seq<Field>, data: seq<byte>, at: nat)
    requires |data| < U32_LIMIT && AllValid(f) && SameShapes(f, shape) && Holds(data, at, EncodedFrom(f, 0))
    ensures ReadFrom(shape, 0, data, at).0 == MeaningsFrom(f, 0)
  {
    FieldsRoundTrip(f, 0, data, at);
    ReadBySameShape(f, shape, 0, data, at);
  }

  lemma ByteValid(v: byte)
    ensures Number(1, v).Valid()
  {
    FourBytes();
  }

  lemma ShortValid(v: u16)
    ensures Number(2, v).Valid()
  {
    FourBytes();
  }

  lemma LongValid(v: u32)
    ensures Number(4, v).Valid()
  {
    FourBytes();
  }

  lemma EntryFieldsValid(sv: Server)
    ensures AllValid(EntryFields(sv))
  {
    ByteValid(sv.id); LongValid(sv.port); ByteValid(0); ByteValid(1); LongValid(1);
    ShortValid(sv.currentPlayers % 0x1_0000); ShortValid(sv.maxPlayers % 0x1_0000);
  }

  lemma EntryFieldsShape(sv: Server)
    requires |Pieces(sv.address, ".")| == 4
    ensures SameShapes(EntryFields(sv), ENTRY_SHAPE)
  {
  }

  lemma EntryMeanings(sv: Server)
    ensures MeaningsFrom(EntryFields(sv), 0) == EntryValues(sv)
  {
    MeaningsAre(EntryFields(sv), 0, EntryValues(sv));
  }

  lemma EntryRoundTrip(sv: Server, data: seq<byte>, at: nat)
    requires |data| < U32_LIMIT && |Pieces(sv.address, ".")| == 4 && Holds(data, at, Entry(sv))
    ensures DecodeEntry(data, at) == EntryValues(sv)
  {
    EntryFieldsValid(sv);
    EntryFieldsShape(sv);
    RecordRoundTrip(EntryFields(sv), ENTRY_SHAPE, data, at);
    EntryMeanings(sv);
  }

  lemma HoldsPart(a: seq<byte>, b: seq<byte>, c: seq<byte>)
    ensures Holds(a + b + c, |a|, b)
  {
  }

  lemma BlockBetween(count: nat, blocks: seq<seq<byte>>, trailer: seq<byte>, k: nat)
    requires k < |blocks| && forall i :: 0 <= i < |blocks| ==> |blocks[i]| == 21
    ensures Holds([0, 0] + Header(count) + Concat(blocks, 0) + trailer, 5 + 21 * k, blocks[k])
  {
    HeaderLength(count);
    HoldsPart([0, 0] + Header(count), Concat(blocks, 0), trailer);
    ConcatHolds(blocks, 0, [0, 0] + Header(count) + Concat(blocks, 0) + trailer, 5, k);
  }

  /** A number of the given width between two parts is read back where the first part ends. */
  lemma NumberBetween(a: seq<byte>, width: nat, v: nat, b: seq<byte>)
    requires v < Pow256(width)
    ensures ReadNumber(a + LittleEndian(width, v) + b, |a|, width) == (v, |a| + width)
  {
    LittleEndianLength(width, v);
    HoldsPart(a, LittleEndian(width, v), b);
    LittleEndianRoundTrip(width, v, a + LittleEndian(width, v) + b, |a|);
  }

  lemma HeaderBytes(count: nat)
    ensures Header(count) == [4, Low(count), 0]
  {
    ByteBytes(4); ByteBytes(Low(count)); ByteBytes(0);
  }

  lemma {:induction false} CharactersAre(count: nat)
    ensures Characters(count) == seq(count, _ => 2)
    decreases count
  {
    if count > 0 {
      CharactersAre(count - 1);
      ByteBytes(2);
    }
  }

  /** The bytes in front of the entries, whatever these are. */
  lemma HeaderBefore(count: nat, body: seq<byte>, trailer: seq<byte>)
    ensures var data := [0, 0] + Header(count) + body + trailer;
      ByteAt(data, 2) == 4 && ByteAt(data, 3) == Low(count) && ByteAt(data, 4) == 0
  {
    HeaderBytes(count);
  }

  lemma HeaderField(list: seq<Server>)
    ensures var data := Reply(list);
      ByteAt(data, 2) == 4 && ByteAt(data, 3) == Low(|list|) && ByteAt(data, 4) == 0
  {
    HeaderBefore(|list|, Concat(Blocks(list), 0), Trailer(MaxId(list, |list|)));
  }

  lemma BodyLength(list: seq<Server>)
    requires Addressed(list)
    ensures |Concat(Blocks(list), 0)| == 21 * |list|
  {
    BlocksLength(list);
    ConcatLength(Blocks(list), 21, 0);
  }

  lemma NumberHeld(data: seq<byte>, at: nat, width: nat, v: nat)
    requires v < Pow256(width) && Holds(data, at, LittleEndian(width, v))
    ensures ReadNumber(data, at, width).0 == v
  {
    LittleEndianRoundTrip(width, v, data, at);
  }

  /** The highest id plus one stands behind the header and the entries, whatever these are. */
  lemma TopBehind(count: nat, body: seq<byte>, maxId: byte)
    ensures Holds([0, 0] + Header(count) + body + Trailer(maxId), 5 + |body|, LittleEndian(2, maxId + 1))
  {
    HeaderLength(count);
    var a, n := [0, 0] + Header(count), LittleEndian(2, maxId + 1);
    assert a + body + Trailer(maxId) == (a + body) + n + (LittleEndian(1, 1) + Characters(maxId));
    HoldsPart(a + body, n, LittleEndian(1, 1) + Characters(maxId));
  }

  /** The flag and the numbers of characters. */
  function End(maxId: nat): seq<byte> {
    [1] + seq(maxId, _ => 2)
  }

  lemma TrailerIs(maxId: nat)
    ensures Trailer(maxId) == LittleEndian(2, maxId + 1) + End(maxId)
  {
    ByteBytes(1);
    CharactersAre(maxId);
    Regroup(LittleEndian(2, maxId + 1), [1], Characters(maxId));
  }

  lemma EndBehind(count: nat, body: seq<byte>, maxId: nat)
    ensures Holds([0, 0] + Header(count) + body + Trailer(maxId), 7 + |body|, End(maxId))
  {
    HeaderLength(count);
    LittleEndianLength(2, maxId + 1);
    TrailerIs(maxId);
    var a, n := [0, 0] + Header(count) + body, LittleEndian(2, maxId + 1);
    Regroup(a, n, End(maxId));
    HoldsPart(a + n, End(maxId), []);
    assert a + n + End(maxId) + [] == a + n + End(maxId);
  }

  lemma {:induction false} BytesHeld(data: seq<byte>, at: nat, part: seq<byte>, count: nat)
    requires Holds(data, at, part) && count <= |part|
    ensures BytesAt(data, at, count) == part[..count]
    decreases count
  {
    if count > 0 {
      BytesHeld(data, at, part, count - 1);
      assert data[at + (count - 1)] == part[count - 1];
    }
  }

  /** What is read where the flag and the numbers of characters stand. */
  lemma EndIsRead(data: seq<byte>, at: nat, maxId: nat)
    requires Holds(data, at, End(maxId))
    ensures ByteAt(data, at) == 1 && BytesAt(data, at + 1, maxId) == seq(maxId, _ => 2)
  {
    assert data[at + 0] == End(maxId)[0];
    HoldsSplit(data, at, [1], seq(maxId, _ => 2));
    BytesHeld(data, at + 1, seq(maxId, _ => 2), maxId);
  }

  /** The entries stand in `data` from offset 5 on. */
  ghost predicate HoldsAll(data: seq<byte>, blocks: seq<seq<byte>>) {
    forall k :: 0 <= k < |blocks| ==> Holds(data, 5 + 21 * k, blocks[k])
  }

  lemma AllBlocksBetween(count: nat, blocks: seq<seq<byte>>, trailer: seq<byte>)
    requires forall i :: 0 <= i < |blocks| ==> |blocks[i]| == 21
    ensures HoldsAll([0, 0] + Header(count) + Concat(blocks, 0) + trailer, blocks)
  {
    forall k | 0 <= k < |blocks|
      ensures Holds([0, 0] + Header(count) + Concat(blocks, 0) + trailer, 5 + 21 * k, blocks[k])
    {
      BlockBetween(count, blocks, trailer, k);
    }
  }

  lemma EntryDecodes(list: seq<Server>, k: nat, data: seq<byte>, at: nat)
    requires k < |list| && |Pieces(list[k].address, ".")| == 4
    requires |data| < U32_LIMIT && Holds(data, at, Blocks(list)[k])
    ensures DecodeEntry(data, at) == Expected(list)[k]
  {
    EntryRoundTrip(list[k], data, at);
  }

  /** Whatever holds the entries of the servers decodes to their values. */
  lemma EntriesDecode(list: seq<Server>, data: seq<byte>)
    requires Addressed(list) && |data| < U32_LIMIT && HoldsAll(data, Blocks(list))
    ensures forall k :: 0 <= k < |list| ==> DecodeEntry(data, 5 + 21 * k) == Expected(list)[k]
  {
    forall k | 0 <= k < |list| ensures DecodeEntry(data, 5 + 21 * k) == Expected(list)[k] {
      EntryDecodes(list, k, data, 5 + 21 * k);
    }
  }

  /** What a client decodes, from the fields it looks at. */
  lemma DecodeParts(data: seq<byte>, entries: seq<seq<Option<Value>>>, maxId: nat)
    requires ByteAt(data, 2) == 4 && ByteAt(data, 3) == |entries| && ByteAt(data, 4) == 0
    requires ReadNumber(data, 5 + 21 * |entries|, 2).0 == maxId + 1
    requires Holds(data, 7 + 21 * |entries|, End(maxId))
    requires forall k :: 0 <= k < |entries| ==> DecodeEntry(data, 5 + 21 * k) == entries[k]
    ensures Decode(data) == Decoded(4, 0, entries, maxId, 1, seq(maxId, _ => 2), 8 + 21 * |entries| + maxId)
  {
    assert Decode(data).entries == entries;
    EndIsRead(data, 7 + 21 * |entries|, maxId);
  }

  /** Any data with a header, the entries and an end where they belong. */
  lemma DataDecodes(list: seq<Server>, data: seq<byte>, maxId: byte)
    requires Addressed(list) && |data| < U32_LIMIT
    requires ByteAt(data, 2) == 4 && ByteAt(data, 3) == |list| && ByteAt(data, 4) == 0
    requires HoldsAll(data, Blocks(list)) && Holds(data, 5 + 21 * |list|, LittleEndian(2, maxId + 1))
    requires Holds(data, 7 + 21 * |list|, End(maxId))
    ensures Decode(data) == Decoded(4, 0, Expected(list), maxId, 1, seq(maxId, _ => 2), 8 + 21 * |list| + maxId)
  {
    FourBytes();
    NumberHeld(data, 5 + 21 * |list|, 2, maxId + 1);
    EntriesDecode(list, data);
    DecodeParts(data, Expected(list), maxId);
  }

  lemma ReplyRoundTrip(list: seq<Server>)
    requires Addressed(list) && |Reply(list)| < U32_LIMIT && |list| < 256
    ensures Decode(Reply(list)) == Intended(list, |Reply(list)|)
  {
    var m := MaxId(list, |list|);
    HeaderField(list);
    BodyLength(list);
    TopBehind(|list|, Concat(Blocks(list), 0), m);
    BlocksLength(list);
    AllBlocksBetween(|list|, Blocks(list), Trailer(m));
    EndBehind(|list|, Concat(Blocks(list), 0), m);
    ReplyLength(list);
    DataDecodes(list, Reply(list), m);
  }

  lemma LongListsLoseEntries(list: seq<Server>)
    requires |list| >= 256
    ensures |Decode(Reply(list)).entries| < |Expected(list)|
  {
    HeaderField(list);
  }

  // ---------------------------------------------------------------------------------------------
  // The loop with the 8-bit counter
  // ---------------------------------------------------------------------------------------------

  /** Counter and packet of the last loop. */
  datatype Loop = Loop(i: byte, data: seq<byte>)

  function Turn(l: Loop): Loop {
    Loop((l.i + 1) % 256, l.data + LittleEndian(1, 2))
  }

  function Turns(l: Loop, n: nat): Loop {
    if n == 0 then l else Turn(Turns(l, n - 1))
  }

  /** The loop's test fails for the first time after n turns. */
  ghost predicate EndsAfter(l: Loop, maxId: byte, n: nat) {
    Turns(l, n).i > maxId && forall k: nat :: k < n ==> Turns(l, k).i <= maxId
  }

  lemma {:induction false} TurnsWrite(data: seq<byte>, n: nat)
    ensures Turns(Loop(1, data), n) == Loop((1 + n) % 256, data + Characters(n))
    decreases n
  {
    if n == 0 {
      assert data + [] == data;
    } else {
      TurnsWrite(data, n - 1);
      Regroup(data, Characters(n - 1), LittleEndian(1, 2));
    }
  }

  lemma EndsAtMaxId(data: seq<byte>, maxId: byte)
    requires maxId < 255
    ensures EndsAfter(Loop(1, data), maxId, maxId)
  {
    TurnsWrite(data, maxId);
    forall k: nat | k < maxId ensures Turns(Loop(1, data), k).i <= maxId { TurnsWrite(data, k); }
  }

  lemma EndsOnce(l: Loop, maxId: byte, m: nat, n: nat)
    requires EndsAfter(l, maxId, m) && EndsAfter(l, maxId, n)
    ensures m == n
  {
  }

  /** The loop over the ids ends if and only if the highest id is not 255, and only with a number for
      every id written. */
  lemma CharacterLoopEndsIff(data: seq<byte>, maxId: byte)
    ensures (exists n: nat :: EndsAfter(Loop(1, data), maxId, n)) <==> maxId < 255
    ensures forall n: nat :: EndsAfter(Loop(1, data), maxId, n) ==>
      Turns(Loop(1, data), n).data == data + Characters(maxId)
  {
    if maxId < 255 { EndsAtMaxId(data, maxId); }
    forall n: nat | EndsAfter(Loop(1, data), maxId, n)
      ensures maxId < 255 && Turns(Loop(1, data), n).data == data + Characters(maxId)
    {
      if maxId < 255 {
        EndsAtMaxId(data, maxId);
        EndsOnce(Loop(1, data), maxId, n, maxId);
        TurnsWrite(data, maxId);
      }
    }
  }

  /** The packet when the last loop begins. */
  function BeforeLoop(list: seq<Server>): seq<byte> {
    [0, 0] + Header(|list|) + Concat(Blocks(list), 0) + (LittleEndian(2, MaxId(list, |list|) + 1) + LittleEndian(1, 1))
  }

  /** The server gets as far as sending `data`. Without servers, which is also what a failing database
      looks like, it sends a failure instead. An address without four parts makes it read outside an
      empty vector, and a part outside the range of int is undefined for atoi. */
  ghost predicate Sends(list: seq<Server>, data: seq<byte>) {
    && list != [] && Addressed(list) && |Reply(list)| < U32_LIMIT
    && exists n: nat ::
         EndsAfter(Loop(1, BeforeLoop(list)), MaxId(list, |list|), n) &&
         data == Turns(Loop(1, BeforeLoop(list)), n).data
  }

  lemma BeforeAndLoop(list: seq<Server>)
    ensures BeforeLoop(list) + Characters(MaxId(list, |list|)) == Reply(list)
  {
    var m: nat := MaxId(list, |list|);
    Regroup([0, 0] + Header(|list|) + Concat(Blocks(list), 0), LittleEndian(2, m + 1) + LittleEndian(1, 1),
            Characters(m));
  }

  lemma SendsIff(list: seq<Server>, data: seq<byte>)
    ensures Sends(list, data) <==>
      && list != [] && Addressed(list) && |Reply(list)| < U32_LIMIT
      && MaxId(list, |list|) < 255 && data == Reply(list)
  {
    CharacterLoopEndsIff(BeforeLoop(list), MaxId(list, |list|));
    BeforeAndLoop(list);
  }

  /** A reply is sent, and from it a client recovers the opcode, every entry, the true highest id and a number
      of characters for every id, and reads to the very end, if and only if there is a server, their number
      fits its one byte, none has id 255, and every address has four parts. */
  lemma ReplyRoundTripIff(list: seq<Server>)
    ensures
      (exists data :: Sends(list, data) && Decode(data) == Intended(list, |data|))
      <==> 0 < |list| < 256 && MaxId(list, |list|) < 255 && Addressed(list)
  {
    SendsIff(list, Reply(list));
    if |list| >= 256 {
      LongListsLoseEntries(list);
    } else if Addressed(list) {
      ReplyLength(list);
      ReplyRoundTrip(list);
    }
    forall data | Sends(list, data) ensures data == Reply(list) { SendsIff(list, data); }
  }

  /** 256 servers: the count in the reply is 0, and a client finds none of them. */
  lemma LongListExample(sv: Server)
    ensures Decode(Reply(seq(256, _ => sv))).entries == []
  {
    HeaderField(seq(256, _ => sv));
  }

  /** One server with id 255: no reply is ever sent. */
  lemma Id255Example(sv: Server, data: seq<byte>)
    requires sv.id == 255
    ensures !Sends([sv], data)
  {
    assert MaxId([sv], 1) == Max(255, MaxId([sv], 0));
    SendsIff([sv], data);
  }

  // ---------------------------------------------------------------------------------------------
  // The loops
  // ---------------------------------------------------------------------------------------------

  method WriteEntry(p: Packet, sv: Server)
    requires p.AtEnd() && |p.data| + 21 < U32_LIMIT
    requires |Pieces(sv.address, ".")| == 4 && InRange(Pieces(sv.address, "."))
    modifies p
    ensures p.AtEnd() && p.data == old(p.data) + Entry(sv)
  {
    var f := EntryFields(sv);
    EntryLength(sv);
    var address := IPv4StringToByteArray(sv.address);
    assert address == IPv4Bytes(sv.address);
    var i := 0;
    while i < |f|
      invariant 0 <= i <= |f| == 10
      invariant p.AtEnd() && p.data + EncodedFrom(f, i) == old(p.data) + EncodedFrom(f, 0)
    {
      Regroup(p.data, f[i].Encoded(), EncodedFrom(f, i + 1));
      p.WriteField(f[i]);
      i := i + 1;
    }
  }

  /** One turn of the loop over the servers. */
  method WriteServer(p: Packet, list: seq<Server>, k: nat, maxIdSoFar: byte) returns (maxId: byte)
    requires p.AtEnd() && Addressed(list) && |p.data| + 21 < U32_LIMIT
    requires k < |list| && maxIdSoFar == MaxId(list, k)
    modifies p
    ensures p.AtEnd() && p.data == old(p.data) + Blocks(list)[k] && |Blocks(list)[k]| == 21
    ensures maxId == MaxId(list, k + 1)
  {
    maxId := maxIdSoFar;
    if list[k].id > maxId {
      maxId := list[k].id;
    }
    EntryLength(list[k]);
    WriteEntry(p, list[k]);
  }

  method WriteEntries(p: Packet, list: seq<Server>) returns (maxId: byte)
    requires p.AtEnd() && Addressed(list) && |p.data| + 21 * |list| < U32_LIMIT
    modifies p
    ensures p.AtEnd() && p.data == old(p.data) + Concat(Blocks(list), 0) && maxId == MaxId(list, |list|)
  {
    maxId := 0;
    ghost var blocks := Blocks(list);
    ghost var all := p.data + Concat(blocks, 0);
    for k := 0 to |list|
      invariant p.AtEnd() && maxId == MaxId(list, k)
      invariant |p.data| == |old(p.data)| + 21 * k
      invariant p.data + Concat(blocks, k) == all
    {
      Regroup(p.data, blocks[k], Concat(blocks, k + 1));
      maxId := WriteServer(p, list, k, maxId);
    }
    assert p.data + [] == p.data;
  }

  /** The loop over the ids, with its 8-bit counter. */
  method WriteCharacters(p: Packet, maxId: byte)
    requires p.AtEnd() && |p.data| + maxId < U32_LIMIT && maxId < 255
    modifies p
    ensures p.AtEnd() && p.data == old(p.data) + Characters(maxId)
    ensures EndsAfter(Loop(1, old(p.data)), maxId, maxId) && p.data == Turns(Loop(1, old(p.data)), maxId).data
  {
    var i: byte := 1;
    ghost var turns: nat := 0;
    while i <= maxId
      invariant i == turns + 1 <= maxId + 1
      invariant p.AtEnd() && |p.data| == |old(p.data)| + turns
      invariant Loop(i, p.data) == Turns(Loop(1, old(p.data)), turns)
    {
      LittleEndianLength(1, 2);
      p.Write(1, 2);
      i := (i + 1) % 256;
      turns := turns + 1;
    }
    TurnsWrite(old(p.data), maxId);
    EndsAtMaxId(old(p.data), maxId);
  }

  method WriteTrailer(p: Packet, maxId: byte)
    requires p.AtEnd() && |p.data| + 3 + maxId < U32_LIMIT && maxId < 255
    modifies p
    ensures p.AtEnd() && p.data == old(p.data) + Trailer(maxId)
  {
    ghost var top := LittleEndian(2, maxId as nat + 1);
    LittleEndianLength(2, maxId as nat + 1);
    LittleEndianLength(1, 1);
    p.Write(2, maxId as nat + 1);
    p.Write(1, 1);
    WriteCharacters(p, maxId);
    Regroup(old(p.data), top, LittleEndian(1, 1));
    Regroup(old(p.data), top + LittleEndian(1, 1), Characters(maxId));
  }

  method WriteHeader(p: Packet, count: nat)
    requires p.AtEnd() && |p.data| + 3 < U32_LIMIT
    modifies p
    ensures p.AtEnd() && p.data == old(p.data) + Header(count)
  {
    LittleEndianLength(1, 4); LittleEndianLength(1, Low(count)); LittleEndianLength(1, 0);
    p.Write(1, 4);
    p.Write(1, Low(count));
    p.Write(1, 0);
    Regroup(old(p.data), LittleEndian(1, 4), LittleEndian(1, Low(count)));
    Regroup(old(p.data), LittleEndian(1, 4) + LittleEndian(1, Low(count)), LittleEndian(1, 0));
  }

  method BuildReply(list: seq<Server>) returns (p: Packet?)
    requires Addressed(list) && |Reply(list)| < U32_LIMIT && MaxId(list, |list|) < 255
    ensures p == null <==> list == []
    ensures p != null ==> fresh(p) && p.AtEnd() && p.data == Reply(list) && Sends(list, p.data)
  {
    if list == [] {
      return null;
    }
    ReplyLength(list);
    var reply := new Packet();
    WriteHeader(reply, |list|);
    HeaderLength(|list|);
    var maxId := WriteEntries(reply, list);
    WriteTrailer(reply, maxId);
    SendsIff(list, reply.data);
    p := reply;
  }
}
