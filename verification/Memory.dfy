/** The input of a hash function: bytes behind a pointer, with a record of the bytes that were read. */
module Memory {
  import opened Words

  /** The word with these bytes, least significant first. */
  function LittleEndian32(b0: Byte, b1: Byte, b2: Byte, b3: Byte): U32 {
    (b0 as int) + 0x100 * (b1 + 0x100 * (b2 + 0x100 * b3 as int))
  }

  function Fetch32(s: seq<Byte>, i: nat): U32
    requires i + 4 <= |s|
  {
    LittleEndian32(s[i], s[i + 1], s[i + 2], s[i + 3])
  }

  function Fetch64(s: seq<Byte>, i: nat): U64
    requires i + 8 <= |s|
  {
    Fetch32(s, i) + 0x1_0000_0000 * Fetch32(s, i + 4)
  }

  /** The positions from a up to b. */
  ghost function Span(a: int, b: int): (r: set<int>)
    ensures forall i: int :: i in r <==> a <= i < b
    decreases b - a
  {
    if a >= b then {} else Span(a, b - 1) + {b - 1}
  }

  /** A buffer, whose bytes are read through the methods only. `read` is the set of positions read
      so far. A string inside it is a pointer p: the bytes from p on. */
  class Input {
    const bytes: seq<Byte>
    ghost var read: set<int>

    constructor (bytes: seq<Byte>)
      ensures this.bytes == bytes && read == {}
    {
      this.bytes, read := bytes, {};
    }

    /** *(s + i), where s points to p. */
    method Load8(p: nat, i: nat) returns (b: Byte)
      requires p + i < |bytes|
      modifies this`read
      ensures b == bytes[p..][i] && read == old(read) + Span(p + i, p + i + 1)
    {
      b := bytes[p + i];
      read := read + Span(p + i, p + i + 1);
    }

    /** Fetch32(s + i). */
    method Load32(p: nat, i: nat) returns (w: U32)
      requires p + i + 4 <= |bytes|
      modifies this`read
      ensures w == Fetch32(bytes[p..], i) && read == old(read) + Span(p + i, p + i + 4)
    {
      var b0 := Load8(p, i);
      var b1 := Load8(p, i + 1);
      var b2 := Load8(p, i + 2);
      var b3 := Load8(p, i + 3);
      w := LittleEndian32(b0, b1, b2, b3);
    }

    /** Fetch64(s + i). */
    method Load64(p: nat, i: nat) returns (w: U64)
      requires p + i + 8 <= |bytes|
      modifies this`read
      ensures w == Fetch64(bytes[p..], i) && read == old(read) + Span(p + i, p + i + 8)
    {
      var low := Load32(p, i);
      var high := Load32(p, i + 4);
      w := (low as int) + 0x1_0000_0000 * (high as int);
    }
  }
}
