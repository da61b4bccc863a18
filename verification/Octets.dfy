/** Bytes and the little-endian words of the flash formats. */
module Octets {
  type Byte = n: nat | n < 256
  type Word = n: nat | n < 0x1_0000_0000

  function Le16(s: seq<Byte>, at: nat): nat
    requires at + 2 <= |s|
  {
    s[at] as nat + 256 * s[at + 1] as nat
  }

  function Le32(s: seq<Byte>, at: nat): Word
    requires at + 4 <= |s|
  {
    s[at] as nat + 256 * s[at + 1] as nat + 65536 * s[at + 2] as nat + 16777216 * s[at + 3] as nat
  }

  function Bytes32(w: Word): seq<Byte> { [w % 256, w / 256 % 256, w / 65536 % 256, w / 16777216] }

  /** The lowest byte comes first. */
  lemma LittleEndian(s: seq<Byte>, at: nat)
    requires at + 4 <= |s|
    ensures Le32(s, at) % 256 == s[at] && Le32(s, at) / 256 % 256 == s[at + 1]
    ensures Le32(s, at) / 65536 % 256 == s[at + 2] && Le32(s, at) / 16777216 == s[at + 3]
    ensures Le16(s, at) == Le32(s, at) % 65536
  {
    var low: nat := s[at] as nat + 256 * s[at + 1] as nat;
    var high: nat := s[at + 2] as nat + 256 * s[at + 3] as nat;
    assert Le32(s, at) == low + 65536 * high;
    assert Le32(s, at) / 65536 == high && Le32(s, at) % 65536 == low;
    assert Le32(s, at) / 256 == s[at + 1] as nat + 256 * high;
    assert Le32(s, at) / 16777216 == high / 256;
  }

  /** A written word reads back. */
  lemma Word32(w: Word, s: seq<Byte>, at: nat)
    requires at + 4 <= |s| && s[at..at + 4] == Bytes32(w)
    ensures Le32(s, at) == w
  {
    assert s[at] == s[at..at + 4][0] && s[at + 1] == s[at..at + 4][1];
    assert s[at + 2] == s[at..at + 4][2] && s[at + 3] == s[at..at + 4][3];
    assert w / 65536 == w / 256 / 256 && w / 16777216 == w / 65536 / 256;
  }
}
