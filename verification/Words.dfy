/** Bytes, fixed-width integers and byte-string helpers shared by every part of the model. */
module Words {
  type Byte = x: int | 0 <= x < 0x100
  type U32 = x: int | 0 <= x < 0x1_0000_0000
  type U64 = x: int | 0 <= x < 0x1_0000_0000_0000_0000
  type I32 = x: int | -0x8000_0000 <= x < 0x8000_0000

  datatype Option<+T> = None | Some(value: T)

  /** The conversion from uint32 to int32 made by a protobuf int32 setter. */
  function ToInt32(x: U32): (r: I32)
    ensures ToUint32(r) == x
  {
    if x < 0x8000_0000 then x else x - 0x1_0000_0000
  }

  /** The conversion from int32 back to uint32. */
  function ToUint32(x: I32): U32 {
    if 0 <= x then x else x + 0x1_0000_0000
  }

  /** htonl: the four bytes of a 32-bit word, most significant first. */
  function BigEndian(n: U32): (r: seq<Byte>)
    ensures |r| == 4 && FromBigEndian(r) == n
  {
    var r3 := n % 0x100_0000;
    var r2 := r3 % 0x1_0000;
    [n / 0x100_0000, r3 / 0x1_0000, r2 / 0x100, r2 % 0x100]
  }

  /** ntohl on the first four bytes of a buffer. */
  function FromBigEndian(s: seq<Byte>): U32
    requires |s| >= 4
  {
    0x100_0000 * (s[0] as int) + 0x1_0000 * (s[1] as int) + 0x100 * (s[2] as int) + s[3]
  }

  function Flatten(parts: seq<seq<Byte>>): seq<Byte> {
    if parts == [] then [] else parts[0] + Flatten(parts[1..])
  }

  lemma {:induction false} FlattenSnoc(parts: seq<seq<Byte>>, last: seq<Byte>)
    ensures Flatten(parts + [last]) == Flatten(parts) + last
  {
    if parts == [] {
      assert Flatten([last]) == last + Flatten([]);
    } else {
      FlattenSnoc(parts[1..], last);
      assert (parts + [last])[1..] == parts[1..] + [last];
    }
  }

  lemma {:induction false} FlattenAppend(a: seq<seq<Byte>>, b: seq<seq<Byte>>)
    ensures Flatten(a + b) == Flatten(a) + Flatten(b)
  {
    if a == [] {
      assert a + b == b;
    } else {
      FlattenAppend(a[1..], b);
      assert (a + b)[1..] == a[1..] + b;
      assert Flatten(a + b) == a[0] + Flatten(a[1..] + b);
    }
  }

  // ----- Fetches of a fixed width from a byte string of length n -----

  predicate InRange(offsets: seq<nat>, width: nat, n: nat) {
    forall k | 0 <= k < |offsets| :: offsets[k] + width <= n
  }
}
