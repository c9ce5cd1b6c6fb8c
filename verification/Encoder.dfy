/** Serialisation into a buffer: rpc.pb.cc's SerializeWithCachedSizesToArray and RPCData::ToBuffer. */
module Encoder {
  import opened Words
  import opened Metadata
  import opened Frames
  import opened Streams

  /** A base 128 varint, low groups first, at `at`. */
  method WriteVarintToArray(v: nat, target: array<Byte>, at: nat) returns (end: nat)
    requires at + VarintSize(v) <= target.Length
    modifies target
    ensures end == at + VarintSize(v)
    ensures target[..end] == old(target[..at]) + WriteVarint(v)
    ensures forall i | end <= i < target.Length :: target[i] == old(target[i])
  {
    var rest := v;
    end := at;
    assert target[..end] + WriteVarint(rest) == old(target[..at]) + WriteVarint(v);
    while rest >= 128
      invariant at <= end && end + VarintSize(rest) == at + VarintSize(v)
      invariant target[..end] + WriteVarint(rest) == old(target[..at]) + WriteVarint(v)
      invariant forall i | at + VarintSize(v) <= i < target.Length :: target[i] == old(target[i])
    {
      ghost var before := target[..end];
      target[end] := 128 + rest % 128;
      end := end + 1;
      assert target[..end] == before + [128 + rest % 128];
      rest := rest / 128;
    }
    ghost var before := target[..end];
    target[end] := rest;
    end := end + 1;
    assert target[..end] == before + [rest];
  }

  method WriteFieldToArray(f: Field, target: array<Byte>, at: nat) returns (end: nat)
    requires at + 1 + VarintSize(Raw(f)) <= target.Length
    modifies target
    ensures end == at + 1 + VarintSize(Raw(f))
    ensures target[..end] == old(target[..at]) + EncodeField(f)
    ensures forall i | end <= i < target.Length :: target[i] == old(target[i])
  {
    target[at] := Tag(f);
    assert target[..at + 1] == old(target[..at]) + [Tag(f)];
    end := WriteVarintToArray(Raw(f), target, at + 1);
  }

  function Encoded(f: Option<Field>): seq<Byte> {
    if f.Some? then EncodeField(f.value) else []
  }

  method WriteIfSet(f: Option<Field>, target: array<Byte>, at: nat) returns (end: nat)
    requires at + |Encoded(f)| <= target.Length
    modifies target
    ensures end == at + |Encoded(f)|
    ensures target[..end] == old(target[..at]) + Encoded(f)
    ensures forall i | end <= i < target.Length :: target[i] == old(target[i])
  {
    end := at;
    if f.Some? {
      EncodeOneLength(f.value);
      end := WriteFieldToArray(f.value, target, at);
    }
  }

  function SeqField(m: RPCMetaData): Option<Field> { if m.seq_.Some? then Some(Seq(m.seq_.value)) else None }
  function ServiceField(m: RPCMetaData): Option<Field> { if m.serviceId.Some? then Some(ServiceId(m.serviceId.value)) else None }
  function MethodField(m: RPCMetaData): Option<Field> { if m.methodId.Some? then Some(MethodId(m.methodId.value)) else None }
  function LengthField(m: RPCMetaData): Option<Field> { if m.messageLength.Some? then Some(Length(m.messageLength.value)) else None }

  lemma {:induction false} SerializedPieces(m: RPCMetaData)
    ensures Serialize(m) == Encoded(SeqField(m)) + Encoded(ServiceField(m)) + Encoded(MethodField(m)) + Encoded(LengthField(m))
  {
    var a := if m.seq_.Some? then [Seq(m.seq_.value)] else [];
    var b := if m.serviceId.Some? then [ServiceId(m.serviceId.value)] else [];
    var c := if m.methodId.Some? then [MethodId(m.methodId.value)] else [];
    var d := if m.messageLength.Some? then [Length(m.messageLength.value)] else [];
    EncodeFieldsAppend(a + b + c, d);
    EncodeFieldsAppend(a + b, c);
    EncodeFieldsAppend(a, b);
    hide EncodeField;
    if a != [] { EncodeOneLength(a[0]); }
    if b != [] { EncodeOneLength(b[0]); }
    if c != [] { EncodeOneLength(c[0]); }
    if d != [] { EncodeOneLength(d[0]); }
  }

  /** Writes the fields whose has-bits are set, in field order, advancing the target pointer. */
  method SerializeToArray(m: RPCMetaData, target: array<Byte>, at: nat) returns (end: nat)
    requires at + ByteSize(m) <= target.Length
    modifies target
    ensures end == at + ByteSize(m)
    ensures target[..end] == old(target[..at]) + Serialize(m)
    ensures forall i | end <= i < target.Length :: target[i] == old(target[i])
  {
    SerializedLength(m);
    SerializedPieces(m);
    hide ByteSize, Serialize, Encoded;
    end := WriteIfSet(SeqField(m), target, at);
    end := WriteIfSet(ServiceField(m), target, end);
    end := WriteIfSet(MethodField(m), target, end);
    end := WriteIfSet(LengthField(m), target, end);
  }

  /** SerializeToArray of the payload. */
  method CopyToArray(payload: seq<Byte>, target: array<Byte>, at: nat)
    requires at + |payload| == target.Length
    modifies target
    ensures target[..] == old(target[..at]) + payload
  {
    for i := 0 to |payload|
      invariant target[..at + i] == old(target[..at]) + payload[..i]
    {
      target[at + i] := payload[i];
      assert target[..at + i + 1] == target[..at + i] + [payload[i]];
    }
    assert target[..] == target[..at + |payload|] && payload[..|payload|] == payload;
  }

  /** ToBuffer: the length prefix in network order, the metadata, the payload. */
  method ToBuffer(m: Message) returns (buffer: array<Byte>)
    ensures fresh(buffer) && buffer[..] == Frame(m)
  {
    hide ByteSize, Serialize, BigEndian;
    ByteSizeZero(m.meta);
    SerializedLength(m.meta);
    buffer := new Byte[4 + ByteSize(m.meta) + |m.payload|](i => 0);
    var prefix := BigEndian(ByteSize(m.meta));
    buffer[0], buffer[1], buffer[2], buffer[3] := prefix[0], prefix[1], prefix[2], prefix[3];
    assert buffer[..4] == prefix;
    var at := SerializeToArray(m.meta, buffer, 4);
    CopyToArray(m.payload, buffer, at);
  }
}
