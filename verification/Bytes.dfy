/** Option, and the integer widths the program works with. */
module Wrappers {
  datatype Option<+T> = None | Some(value: T)
}

module Bytes {
  type byte = b: int | 0 <= b < 0x100
  type uint16 = n: int | 0 <= n < 0x1_0000
  type uint32 = n: int | 0 <= n < 0x1_0000_0000

  function Concat<T>(parts: seq<seq<T>>): seq<T> {
    if parts == [] then [] else Concat(parts[..|parts| - 1]) + parts[|parts| - 1]
  }

  /** encoding/binary's BigEndian.PutUint32. */
  function BigEndian32(n: uint32): (b: seq<byte>)
    ensures |b| == 4
  {
    [n / 0x100_0000, n / 0x1_0000 % 0x100, n / 0x100 % 0x100, n % 0x100]
  }

  /** encoding/binary's BigEndian.Uint32. */
  function FromBigEndian32(b: seq<byte>): uint32
    requires |b| == 4
  {
    (b[0] as int) * 0x100_0000 + (b[1] as int) * 0x1_0000 + (b[2] as int) * 0x100 + b[3] as int
  }

  function LittleEndian16(n: uint16): (b: seq<byte>)
    ensures |b| == 2
  {
    [n % 0x100, n / 0x100]
  }

  function FromLittleEndian16(b: seq<byte>): uint16
    requires |b| == 2
  {
    b[0] as int + (b[1] as int) * 0x100
  }

  function LittleEndian32(n: uint32): (b: seq<byte>)
    ensures |b| == 4
  {
    LittleEndian16(n % 0x1_0000) + LittleEndian16(n / 0x1_0000)
  }

  function FromLittleEndian32(b: seq<byte>): uint32
    requires |b| == 4
  {
    FromLittleEndian16(b[..2]) as int + (FromLittleEndian16(b[2..]) as int) * 0x1_0000
  }

  lemma BigEndianRoundTrip(n: uint32)
    ensures FromBigEndian32(BigEndian32(n)) == n
  {
    var high, low: int := n / 0x1_0000, n % 0x1_0000;
    assert n / 0x100_0000 == high / 0x100;
    assert n / 0x100 % 0x100 == low / 0x100;
    assert n % 0x100 == low % 0x100;
  }

  lemma BigEndianOnto(b: seq<byte>)
    requires |b| == 4
    ensures BigEndian32(FromBigEndian32(b)) == b
  {
    var n := FromBigEndian32(b);
    assert n / 0x100_0000 == b[0];
    assert n / 0x1_0000 == (b[0] as int) * 0x100 + b[1] as int;
    assert n / 0x100 == (b[0] as int) * 0x1_0000 + (b[1] as int) * 0x100 + b[2] as int;
  }

  lemma {:induction false} ConcatAppend<T>(a: seq<seq<T>>, b: seq<seq<T>>)
    ensures Concat(a + b) == Concat(a) + Concat(b)
  {
    if b == [] {
      assert a + b == a;
    } else {
      var front := b[..|b| - 1];
      ConcatAppend(a, front);
      assert (a + b)[..|a + b| - 1] == a + front;
    }
  }
}
