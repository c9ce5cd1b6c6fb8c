/** RPCMetaData (rpc/detail/protocol/rpc.pb.cc): the four-field protobuf record that heads
    every message. Varints and tags follow the Protocol Buffers Encoding document, sections
    "Base 128 Varints" and "Message Structure". */
module Metadata {
  import opened Words
  import Bits

  /** A field is None until its has-bit is set. */
  datatype RPCMetaData = RPCMetaData(
    seq_: Option<U64>, serviceId: Option<I32>, methodId: Option<I32>, messageLength: Option<U32>)

  const EMPTY := RPCMetaData(None, None, None, None)

  predicate IsInitialized(m: RPCMetaData) {
    m.seq_.Some? && m.serviceId.Some? && m.methodId.Some? && m.messageLength.Some?
  }

  /** The accessor message_length(): an unset field reads as 0. */
  function MessageLength(m: RPCMetaData): U32 {
    if m.messageLength.Some? then m.messageLength.value else 0
  }

  // ----- Base 128 varints -----

  const MAX_VARINT_BYTES: nat := 10

  function WriteVarint(v: nat): (r: seq<Byte>)
    ensures |r| >= 1
  {
    if v < 128 then [v] else [128 + v % 128] + WriteVarint(v / 128)
  }

  function VarintSize(v: nat): nat {
    if v < 128 then 1 else 1 + VarintSize(v / 128)
  }

  datatype Varint = Varint(value: nat, size: nat)

  /** Reads a varint of at most `limit` bytes; None when the input ends first or it is too long. */
  function ReadVarint(s: seq<Byte>, limit: nat): (r: Option<Varint>)
    ensures r.Some? ==> 1 <= r.value.size <= |s| && r.value.size <= limit
  {
    if limit == 0 || s == [] then None
    else if s[0] < 128 then Some(Varint(s[0], 1))
    else
      match ReadVarint(s[1..], limit - 1)
      case None => None
      case Some(v) => Some(Varint(s[0] - 128 + 128 * v.value, v.size + 1))
  }

  lemma {:induction false} VarintLength(v: nat)
    ensures |WriteVarint(v)| == VarintSize(v)
  {
    if v >= 128 { VarintLength(v / 128); }
  }

  lemma {:induction false} VarintRoundTrip(v: nat, rest: seq<Byte>, limit: nat)
    requires VarintSize(v) <= limit
    ensures ReadVarint(WriteVarint(v) + rest, limit) == Some(Varint(v, VarintSize(v)))
  {
    var s := WriteVarint(v) + rest;
    if v >= 128 {
      VarintRoundTrip(v / 128, rest, limit - 1);
      assert s[1..] == WriteVarint(v / 128) + rest;
    }
  }

  lemma {:induction false} VarintSizeAtMost(v: nat, n: nat)
    requires v < Power128(n) && n >= 1
    ensures VarintSize(v) <= n
  {
    if v >= 128 { VarintSizeAtMost(v / 128, n - 1); }
  }

  function Power128(n: nat): nat {
    if n == 0 then 1 else 128 * Power128(n - 1)
  }

  /** Every 64-bit value fits the ten bytes a reader accepts. */
  lemma {:induction false} VarintFits(v: U64)
    ensures VarintSize(v) <= MAX_VARINT_BYTES
  {
    assert Power128(10) == 128 * 128 * 128 * 128 * 128 * Power128(5);
    assert Power128(5) == 128 * 128 * 128 * 128 * 128;
    VarintSizeAtMost(v, MAX_VARINT_BYTES);
  }

  // ----- Fields -----

  datatype Field =
    | Seq(u64: U64)
    | ServiceId(i32: I32)
    | MethodId(i32: I32)
    | Length(u32: U32)

  function Tag(f: Field): Byte {
    match f
    case Seq(_) => 8
    case ServiceId(_) => 16
    case MethodId(_) => 24
    case Length(_) => 32
  }

  /** The varint a field is written as: an int32 is sign-extended to 64 bits. */
  function Raw(f: Field): U64 {
    match f
    case Seq(v) => v
    case ServiceId(v) => if v < 0 then v + 0x1_0000_0000_0000_0000 else v
    case MethodId(v) => if v < 0 then v + 0x1_0000_0000_0000_0000 else v
    case Length(v) => v
  }

  function EncodeField(f: Field): seq<Byte> {
    [Tag(f)] + WriteVarint(Raw(f))
  }

  function EncodeFields(fs: seq<Field>): seq<Byte> {
    if fs == [] then [] else EncodeField(fs[0]) + EncodeFields(fs[1..])
  }

  /** The has-bits that are set, in field order. */
  function Fields(m: RPCMetaData): seq<Field> {
    (if m.seq_.Some? then [Seq(m.seq_.value)] else []) +
    (if m.serviceId.Some? then [ServiceId(m.serviceId.value)] else []) +
    (if m.methodId.Some? then [MethodId(m.methodId.value)] else []) +
    (if m.messageLength.Some? then [Length(m.messageLength.value)] else [])
  }

  function SetField(m: RPCMetaData, f: Field): RPCMetaData {
    match f
    case Seq(v) => m.(seq_ := Some(v))
    case ServiceId(v) => m.(serviceId := Some(v))
    case MethodId(v) => m.(methodId := Some(v))
    case Length(v) => m.(messageLength := Some(v))
  }

  function SetFields(m: RPCMetaData, fs: seq<Field>): RPCMetaData
    decreases |fs|
  {
    if fs == [] then m else SetFields(SetField(m, fs[0]), fs[1..])
  }

  /** SerializeWithCachedSizesToArray, as the bytes it leaves in the target. */
  function Serialize(m: RPCMetaData): seq<Byte> {
    EncodeFields(Fields(m))
  }

  function ByteSize(m: RPCMetaData): nat {
    (if m.seq_.Some? then 1 + VarintSize(Raw(Seq(m.seq_.value))) else 0) +
    (if m.serviceId.Some? then 1 + VarintSize(Raw(ServiceId(m.serviceId.value))) else 0) +
    (if m.methodId.Some? then 1 + VarintSize(Raw(MethodId(m.methodId.value))) else 0) +
    (if m.messageLength.Some? then 1 + VarintSize(Raw(Length(m.messageLength.value))) else 0)
  }

  // ----- Parsing -----

  /** The value read for a declared tag, narrowed to the field's type. */
  function Narrow(tag: nat, raw: nat): (f: Field)
    requires tag in {8, 16, 24, 32}
    ensures Tag(f) == tag
  {
    if tag == 8 then Seq(raw % 0x1_0000_0000_0000_0000)
    else if tag == 16 then ServiceId(ToInt32(raw % 0x1_0000_0000))
    else if tag == 24 then MethodId(ToInt32(raw % 0x1_0000_0000))
    else Length(raw % 0x1_0000_0000)
  }

  /** WireFormat::SkipField on an undeclared field: how many bytes its value takes.
      Groups (wire types 3 and 4) are not skipped. */
  function SkipField(tag: nat, s: seq<Byte>): (r: Option<nat>)
    ensures r.Some? ==> r.value <= |s|
  {
    var wire := tag % 8;
    if wire == 1 then (if |s| >= 8 then Some(8) else None)
    else if wire == 5 then (if |s| >= 4 then Some(4) else None)
    else if wire != 0 && wire != 2 then None
    else
      match ReadVarint(s, MAX_VARINT_BYTES)
      case None => None
      case Some(v) =>
        if wire == 0 then Some(v.size)
        else
          var n := v.value % 0x1_0000_0000;
          if v.size + n <= |s| then Some(v.size + n) else None
  }

  /** `ok` is false when a field is malformed or parsing stops before the end of the input. */
  datatype ParseResult = ParseResult(ok: bool, meta: RPCMetaData)

  /** The plain tag loop: read a tag, read its value, repeat until the input ends. */
  function Merge(s: seq<Byte>, m: RPCMetaData): ParseResult
    decreases |s|
  {
    if s == [] then ParseResult(true, m)
    else
      match ReadVarint(s, MAX_VARINT_BYTES)
      case None => ParseResult(false, m)
      case Some(t) => MergeField(t.value % 0x1_0000_0000, s[t.size..], m)
  }

  function MergeField(tag: U32, s: seq<Byte>, m: RPCMetaData): ParseResult
    decreases |s|, 1
  {
    if tag in {8, 16, 24, 32} then
      match ReadVarint(s, MAX_VARINT_BYTES)
      case None => ParseResult(false, m)
      case Some(v) => Merge(s[v.size..], SetField(m, Narrow(tag, v.value)))
    else if tag == 0 || tag % 8 == 4 then ParseResult(false, m)
    else
      match SkipField(tag, s)
      case None => ParseResult(false, m)
      case Some(n) => Merge(s[n..], m)
  }

  /** ParseFromArray: clear, merge, and require every field and the whole input. */
  function ParseFromArray(s: seq<Byte>): ParseResult {
    var r := Merge(s, EMPTY);
    ParseResult(r.ok && IsInitialized(r.meta), r.meta)
  }

  datatype Label = ReadTag | ParseValue(tag: U32)

  /** MergePartialFromCodedStream with its gotos: after a declared field the next expected tag is
      compared as a single byte (ExpectTag), and after the last one the end is (ExpectAtEnd).
      `input` is what the stream has left. */
  method MergePartialFromCodedStream(s: seq<Byte>) returns (r: ParseResult)
    ensures r == Merge(s, EMPTY)
  {
    var input := s;
    var m := EMPTY;
    var goto_ := ReadTag;
    while true
      invariant goto_.ReadTag? ==> Merge(input, m) == Merge(s, EMPTY)
      invariant goto_.ParseValue? ==> goto_.tag in {16, 24, 32}
      invariant goto_.ParseValue? ==> MergeField(goto_.tag, input, m) == Merge(s, EMPTY)
      decreases |input|
    {
      var tag: U32;
      if goto_.ParseValue? {
        tag := goto_.tag;
      } else {
        if input == [] { return ParseResult(true, m); }
        var t := ReadVarint(input, MAX_VARINT_BYTES);
        if t.None? { return ParseResult(false, m); }
        tag, input := t.value.value % 0x1_0000_0000, input[t.value.size..];
      }
      if tag in {8, 16, 24, 32} {
        var v := ReadVarint(input, MAX_VARINT_BYTES);
        if v.None? { return ParseResult(false, m); }
        m, input, goto_ := SetField(m, Narrow(tag, v.value.value)), input[v.value.size..], ReadTag;
        assert Merge(input, m) == Merge(s, EMPTY);
        if tag == 32 && input == [] { return ParseResult(true, m); }
        if tag != 32 && input != [] && input[0] == tag + 8 {
          ExpectTagAgrees(input, m);
          input, goto_ := input[1..], ParseValue(tag + 8);
        }
      } else {
        if tag == 0 || tag % 8 == 4 { return ParseResult(false, m); }
        var n := SkipField(tag, input);
        if n.None? { return ParseResult(false, m); }
        input := input[n.value..];
      }
    }
  }

  /** A one-byte tag is what the tag loop would have read. */
  lemma {:induction false} ExpectTagAgrees(s: seq<Byte>, m: RPCMetaData)
    requires s != [] && s[0] < 128
    ensures Merge(s, m) == MergeField(s[0], s[1..], m)
  {
    assert ReadVarint(s, MAX_VARINT_BYTES) == Some(Varint(s[0], 1));
  }

  // ----- Laws -----

  /** An int32 survives sign extension to 64 bits and truncation back to 32. */
  lemma {:induction false} NarrowRaw(f: Field)
    ensures Narrow(Tag(f), Raw(f)) == f
  {
  }

  lemma {:induction false} MergeEncodedField(f: Field, rest: seq<Byte>, m: RPCMetaData)
    ensures Merge(EncodeField(f) + rest, m) == Merge(rest, SetField(m, f))
  {
    var s := EncodeField(f) + rest;
    var body := WriteVarint(Raw(f)) + rest;
    assert s[1..] == body;
    ExpectTagAgrees(s, m);
    VarintFits(Raw(f));
    VarintRoundTrip(Raw(f), rest, MAX_VARINT_BYTES);
    VarintLength(Raw(f));
    assert body[VarintSize(Raw(f))..] == rest;
    NarrowRaw(f);
  }

  /** Any list of encoded fields, in any order and with repeats, parses to the fields in turn. */
  lemma {:induction false} MergeEncodedFields(fs: seq<Field>, m: RPCMetaData)
    ensures Merge(EncodeFields(fs), m) == ParseResult(true, SetFields(m, fs))
  {
    if fs != [] {
      MergeEncodedField(fs[0], EncodeFields(fs[1..]), m);
      MergeEncodedFields(fs[1..], SetField(m, fs[0]));
    }
  }

  predicate SameKind(f: Field, g: Field) {
    Tag(f) == Tag(g)
  }

  predicate HasField(m: RPCMetaData, f: Field) {
    SetField(m, f) == m
  }

  lemma {:induction false} SetOther(m: RPCMetaData, f: Field, g: Field)
    ensures HasField(m, f) && !SameKind(f, g) ==> HasField(SetField(m, g), f)
  {
  }

  /** A field whose kind is not contradicted later keeps its value. */
  lemma {:induction false} SetFieldsKeeps(m: RPCMetaData, fs: seq<Field>, f: Field)
    requires forall g | g in fs :: SameKind(f, g) ==> g == f
    requires f in fs || HasField(m, f)
    ensures HasField(SetFields(m, fs), f)
    decreases |fs|
  {
    if fs != [] {
      var m' := SetField(m, fs[0]);
      SetOther(m, f, fs[0]);
      SetFieldsKeeps(m', fs[1..], f);
    }
  }

  /** The four fields parse alike in any order. */
  lemma {:induction false} FieldOrderIrrelevant(m: RPCMetaData, fs: seq<Field>)
    requires IsInitialized(m)
    requires multiset(fs) == multiset(Fields(m))
    ensures ParseFromArray(EncodeFields(fs)) == ParseResult(true, m)
  {
    MergeEncodedFields(fs, EMPTY);
    forall f | f in Fields(m) ensures HasField(SetFields(EMPTY, fs), f) {
      assert f in multiset(fs);
      forall g | g in fs && SameKind(f, g) ensures g == f {
        assert g in multiset(Fields(m));
      }
      SetFieldsKeeps(EMPTY, fs, f);
    }
    var r := SetFields(EMPTY, fs);
    assert Seq(m.seq_.value) in Fields(m) && ServiceId(m.serviceId.value) in Fields(m);
    assert MethodId(m.methodId.value) in Fields(m) && Length(m.messageLength.value) in Fields(m);
    assert r.seq_ == m.seq_ && r.serviceId == m.serviceId;
    assert r.methodId == m.methodId && r.messageLength == m.messageLength;
  }

  /** Serialise, then parse: every fully set record survives. */
  lemma {:induction false} MetadataRoundTrip(m: RPCMetaData)
    requires IsInitialized(m)
    ensures ParseFromArray(Serialize(m)) == ParseResult(true, m)
  {
    FieldOrderIrrelevant(m, Fields(m));
  }

  lemma {:induction false} EncodeFieldsAppend(a: seq<Field>, b: seq<Field>)
    ensures EncodeFields(a + b) == EncodeFields(a) + EncodeFields(b)
  {
    hide EncodeField;
    if a == [] {
      assert a + b == b;
    } else {
      EncodeFieldsAppend(a[1..], b);
      assert (a + b)[0] == a[0] && (a + b)[1..] == a[1..] + b;
      assert EncodeFields(a + b) == EncodeField(a[0]) + EncodeFields(a[1..] + b);
    }
  }

  lemma {:induction false} EncodeOneLength(f: Field)
    ensures EncodeFields([f]) == EncodeField(f) && |EncodeField(f)| == 1 + VarintSize(Raw(f))
  {
    assert EncodeFields([f]) == EncodeField(f) + EncodeFields([]);
    VarintLength(Raw(f));
  }

  lemma {:induction false} PartLength(fs: seq<Field>)
    requires |fs| <= 1
    ensures |EncodeFields(fs)| == if fs == [] then 0 else 1 + VarintSize(Raw(fs[0]))
  {
    if fs != [] {
      assert fs == [fs[0]];
      EncodeOneLength(fs[0]);
    }
  }

  /** ByteSize is the length of the serialised form. */
  lemma {:induction false} SerializedLength(m: RPCMetaData)
    ensures |Serialize(m)| == ByteSize(m)
  {
    hide EncodeFields, VarintSize, Raw;
    var a := if m.seq_.Some? then [Seq(m.seq_.value)] else [];
    var b := if m.serviceId.Some? then [ServiceId(m.serviceId.value)] else [];
    var c := if m.methodId.Some? then [MethodId(m.methodId.value)] else [];
    var d := if m.messageLength.Some? then [Length(m.messageLength.value)] else [];
    EncodeFieldsAppend(a + b + c, d);
    EncodeFieldsAppend(a + b, c);
    EncodeFieldsAppend(a, b);
    PartLength(a);
    PartLength(b);
    PartLength(c);
    PartLength(d);
  }

  /** A record is empty exactly when its ByteSize is 0, the decoder's "not parsed yet" test. */
  lemma {:induction false} ByteSizeZero(m: RPCMetaData)
    ensures ByteSize(m) == 0 <==> m == EMPTY
    ensures ByteSize(m) <= 39
    ensures IsInitialized(m) ==> 8 <= ByteSize(m)
  {
    if m.seq_.Some? { VarintFits(m.seq_.value); }
    if m.serviceId.Some? { VarintFits(Raw(ServiceId(m.serviceId.value))); }
    if m.methodId.Some? { VarintFits(Raw(MethodId(m.methodId.value))); }
    if m.messageLength.Some? {
      assert Power128(5) == 128 * 128 * 128 * 128 * 128;
      VarintSizeAtMost(m.messageLength.value, 5);
    }
  }

  /** No successful parse leaves the record looking unparsed. */
  lemma {:induction false} ParsedIsNotEmpty(s: seq<Byte>)
    ensures ParseFromArray(s).ok ==> ByteSize(ParseFromArray(s).meta) >= 8 && ParseFromArray(s).meta != EMPTY
  {
    hide Merge, ByteSize;
    ByteSizeZero(ParseFromArray(s).meta);
  }

  // ----- The wire format, byte by byte -----

  /** A varint is the groups of seven bits of its value, lowest first, with the top bit set on all
      but the last; it has no superfluous group. */
  lemma {:induction false} VarintGroups(v: nat, k: nat)
    requires k < |WriteVarint(v)|
    ensures Power128(k) > 0
    ensures WriteVarint(v)[k] == v / Power128(k) % 128 + if k < |WriteVarint(v)| - 1 then 128 else 0
    ensures k == |WriteVarint(v)| - 1 <==> v / Power128(k) < 128
  {
    if k > 0 {
      VarintGroups(v / 128, k - 1);
      DivideTwice(v, Power128(k - 1));
    }
  }

  lemma {:induction false} DivideTwice(v: nat, p: nat)
    requires p > 0
    ensures v / 128 / p == v / (128 * p)
  {
    var q, r := v / 128 / p, v / 128 % p;
    assert v / 128 == p * q + r;
    assert v == 128 * p * q + (128 * r + v % 128);
    Bits.DivUnique(v, 128 * p, q, 128 * r + v % 128);
  }

  /** A reader gives up on a varint with no last group among the bytes it may read. */
  lemma {:induction false} VarintTooLong(s: seq<Byte>, limit: nat)
    requires forall k | 0 <= k < limit && k < |s| :: s[k] >= 128
    ensures ReadVarint(s, limit) == None
  {
    if limit > 0 && s != [] { VarintTooLong(s[1..], limit - 1); }
  }

  lemma {:induction false} SetFieldsHas(m: RPCMetaData, fs: seq<Field>)
    ensures SetFields(m, fs).seq_.Some? <==> m.seq_.Some? || exists f :: f in fs && f.Seq?
    ensures SetFields(m, fs).serviceId.Some? <==> m.serviceId.Some? || exists f :: f in fs && f.ServiceId?
    ensures SetFields(m, fs).methodId.Some? <==> m.methodId.Some? || exists f :: f in fs && f.MethodId?
    ensures SetFields(m, fs).messageLength.Some? <==> m.messageLength.Some? || exists f :: f in fs && f.Length?
    decreases |fs|
  {
    if fs != [] {
      SetFieldsHas(SetField(m, fs[0]), fs[1..]);
      assert fs[0] in fs;
      assert forall f | f in fs :: f == fs[0] || f in fs[1..];
    }
  }

  /** A record of declared fields parses exactly when all four are there. */
  lemma {:induction false} AllFieldsRequired(fs: seq<Field>)
    ensures ParseFromArray(EncodeFields(fs)).ok <==>
              && (exists f :: f in fs && f.Seq?) && (exists f :: f in fs && f.ServiceId?)
              && (exists f :: f in fs && f.MethodId?) && (exists f :: f in fs && f.Length?)
  {
    MergeEncodedFields(fs, EMPTY);
    SetFieldsHas(EMPTY, fs);
  }

  /** The bytes that an undeclared field's value takes, by wire type. */
  ghost predicate IsUnknownValue(wire: nat, value: seq<Byte>) {
    || (wire == 0 && exists v: U64 :: value == WriteVarint(v))
    || (wire == 1 && |value| == 8)
    || (wire == 5 && |value| == 4)
    || (wire == 2 && exists n: U32, body: seq<Byte> :: |body| == n && value == WriteVarint(n) + body)
  }

  /** An undeclared field is skipped, whatever follows. */
  lemma {:induction false} UnknownFieldSkipped(tag: U32, value: seq<Byte>, rest: seq<Byte>, m: RPCMetaData)
    requires tag != 0 && tag !in {8, 16, 24, 32} && IsUnknownValue(tag % 8, value)
    ensures Merge(WriteVarint(tag) + (value + rest), m) == Merge(rest, m)
  {
    hide IsUnknownValue, WriteVarint, ReadVarint, VarintSize, SkipField;
    var body := value + rest;
    TagRead(tag, body, m);
    SkipsValue(tag, value, rest);
    assert body[|value|..] == rest;
  }

  lemma {:induction false} TagRead(tag: U32, body: seq<Byte>, m: RPCMetaData)
    ensures Merge(WriteVarint(tag) + body, m) == MergeField(tag, body, m)
  {
    hide WriteVarint, ReadVarint, VarintSize, MergeField;
    var s := WriteVarint(tag) + body;
    VarintFits(tag);
    VarintLength(tag);
    VarintRoundTrip(tag, body, MAX_VARINT_BYTES);
    assert s[VarintSize(tag)..] == body;
  }

  lemma {:induction false} SkipsValue(tag: U32, value: seq<Byte>, rest: seq<Byte>)
    requires IsUnknownValue(tag % 8, value)
    ensures SkipField(tag, value + rest) == Some(|value|) && tag % 8 != 4
  {
    hide WriteVarint, ReadVarint, VarintSize;
    if tag % 8 == 0 {
      var v: U64 :| value == WriteVarint(v);
      SkipsVarint(tag, v, rest);
    } else if tag % 8 == 2 {
      var n: U32, body: seq<Byte> :| |body| == n && value == WriteVarint(n) + body;
      SkipsBytes(tag, n, body, rest);
    }
  }

  lemma {:induction false} SkipsVarint(tag: U32, v: U64, rest: seq<Byte>)
    requires tag % 8 == 0
    ensures SkipField(tag, WriteVarint(v) + rest) == Some(|WriteVarint(v)|)
  {
    hide WriteVarint, ReadVarint, VarintSize;
    VarintFits(v);
    VarintLength(v);
    VarintRoundTrip(v, rest, MAX_VARINT_BYTES);
  }

  lemma {:induction false} SkipsBytes(tag: U32, n: U32, body: seq<Byte>, rest: seq<Byte>)
    requires tag % 8 == 2 && |body| == n
    ensures SkipField(tag, WriteVarint(n) + body + rest) == Some(|WriteVarint(n) + body|)
  {
    hide WriteVarint, ReadVarint, VarintSize;
    VarintFits(n);
    VarintLength(n);
    assert WriteVarint(n) + body + rest == WriteVarint(n) + (body + rest);
    VarintRoundTrip(n, body + rest, MAX_VARINT_BYTES);
  }

  /** Of a repeated field the last value counts. */
  lemma {:induction false} LastFieldWins(fs: seq<Field>, f: Field, m: RPCMetaData)
    ensures Merge(EncodeFields(fs + [f]), m).ok
    ensures var r := Merge(EncodeFields(fs + [f]), m).meta;
            match f
            case Seq(v) => r.seq_ == Some(v)
            case ServiceId(v) => r.serviceId == Some(v)
            case MethodId(v) => r.methodId == Some(v)
            case Length(v) => r.messageLength == Some(v)
  {
    MergeEncodedFields(fs + [f], m);
    SetFieldsSnoc(m, fs, f);
  }

  lemma {:induction false} SetFieldsSnoc(m: RPCMetaData, fs: seq<Field>, f: Field)
    ensures SetFields(m, fs + [f]) == SetField(SetFields(m, fs), f)
    decreases |fs|
  {
    if fs == [] {
      assert [f][1..] == [];
      assert fs + [f] == [f];
    } else {
      assert (fs + [f])[1..] == fs[1..] + [f];
      SetFieldsSnoc(SetField(m, fs[0]), fs[1..], f);
    }
  }

  /** A value too wide for its field is truncated to the field's width. */
  lemma {:induction false} WideValuesTruncated(v: U64, rest: seq<Byte>, m: RPCMetaData)
    ensures Merge([32] + (WriteVarint(v) + rest), m) == Merge(rest, m.(messageLength := Some(v % 0x1_0000_0000)))
    ensures exists w: I32 :: (w - v) % 0x1_0000_0000 == 0 && Merge([16] + (WriteVarint(v) + rest), m) == Merge(rest, m.(serviceId := Some(w)))
    ensures exists w: I32 :: (w - v) % 0x1_0000_0000 == 0 && Merge([24] + (WriteVarint(v) + rest), m) == Merge(rest, m.(methodId := Some(w)))
  {
    hide WriteVarint, ReadVarint, VarintSize, Merge;
    var w: I32 := ToInt32(v % 0x1_0000_0000);
    WideValue(32, v, rest, m);
    WideValue(16, v, rest, m);
    WideValue(24, v, rest, m);
    assert (w - v) % 0x1_0000_0000 == 0;
  }

  lemma {:induction false} WideValue(tag: Byte, v: U64, rest: seq<Byte>, m: RPCMetaData)
    requires tag in {16, 24, 32}
    ensures Merge([tag] + (WriteVarint(v) + rest), m) == Merge(rest, SetField(m, Narrow(tag, v)))
  {
    hide WriteVarint, ReadVarint, VarintSize;
    var body := WriteVarint(v) + rest;
    var s := [tag] + body;
    assert s[1..] == body;
    ExpectTagAgrees(s, m);
    VarintFits(v);
    VarintLength(v);
    VarintRoundTrip(v, rest, MAX_VARINT_BYTES);
    assert body[VarintSize(v)..] == rest;
  }

  /** A zero tag or an end-group tag ends the record early, which is an error. */
  lemma {:induction false} EndTagFails(tag: U32, rest: seq<Byte>, m: RPCMetaData)
    requires tag == 0 || tag % 8 == 4
    ensures !Merge(WriteVarint(tag) + rest, m).ok
  {
    hide WriteVarint, ReadVarint;
    TagRead(tag, rest, m);
  }

  // ----- Prefixes -----

  lemma {:induction false} CutVarint(v: nat, n: nat, limit: nat)
    requires n < |WriteVarint(v)|
    ensures ReadVarint(WriteVarint(v)[..n], limit) == None
  {
    var s := WriteVarint(v)[..n];
    forall k | 0 <= k < n ensures s[k] >= 128 { VarintGroups(v, k); }
    VarintTooLong(s, limit);
  }

  lemma {:induction false} CutField(f: Field, n: nat, m: RPCMetaData)
    requires 0 < n < |EncodeField(f)|
    ensures !Merge(EncodeField(f)[..n], m).ok
  {
    hide WriteVarint, ReadVarint;
    var s := EncodeField(f)[..n];
    assert s[0] == Tag(f) && s[1..] == WriteVarint(Raw(f))[..n - 1];
    ExpectTagAgrees(s, m);
    CutVarint(Raw(f), n - 1, MAX_VARINT_BYTES);
  }

  /** A list of fields, cut anywhere, parses only if it is cut between fields. */
  lemma {:induction false} CutFields(fs: seq<Field>, n: nat, m: RPCMetaData) returns (k: nat)
    requires n < |EncodeFields(fs)|
    ensures k < |fs|
    ensures var r := Merge(EncodeFields(fs)[..n], m); r.ok ==> r.meta == SetFields(m, fs[..k])
    decreases |fs|
  {
    hide EncodeField, Merge;
    var s, first := EncodeFields(fs), EncodeField(fs[0]);
    assert s == first + EncodeFields(fs[1..]);
    if n == 0 {
      k := 0;
      assert s[..n] == EncodeFields([]);
      MergeEncodedFields([], m);
      assert fs[..0] == [];
    } else if n < |first| {
      k := 0;
      assert s[..n] == first[..n];
      CutField(fs[0], n, m);
    } else {
      var rest := EncodeFields(fs[1..])[..n - |first|];
      var j := CutFields(fs[1..], n - |first|, SetField(m, fs[0]));
      k := j + 1;
      assert s[..n] == first + rest;
      MergeEncodedField(fs[0], rest, m);
      assert fs[..k] == [fs[0]] + fs[1..][..j] && fs[..k][1..] == fs[1..][..j];
    }
  }

  /** No proper part of a serialised record parses: a receiver cannot mistake it for the whole. */
  lemma {:induction false} PrefixNeverParses(m: RPCMetaData, n: nat)
    requires IsInitialized(m) && n < |Serialize(m)|
    ensures !ParseFromArray(Serialize(m)[..n]).ok
  {
    hide Merge, EncodeFields, SetFields;
    var fs := Fields(m);
    var k := CutFields(fs, n, EMPTY);
    assert |fs| == 4 && fs[0].Seq? && fs[1].ServiceId? && fs[2].MethodId?;
    SetFieldsHas(EMPTY, fs[..k]);
    assert forall f | f in fs[..k] :: !f.Length?;
  }
}
