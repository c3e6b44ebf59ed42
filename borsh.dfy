/** The parts of the Borsh binary format that the config-line ledger relies
    on: a u32 in little-endian order, and a string written as its byte length
    followed by its bytes. */
module Borsh {
  import opened CandyTypes

  /** `u32::to_le_bytes`. */
  function U32Le(x: u32): (b: seq<u8>)
    ensures |b| == 4
  {
    [x % 0x100, (x / 0x100) % 0x100, (x / 0x1_0000) % 0x100, x / 0x100_0000]
  }

  /** `u32::from_le_bytes`. */
  function DecodeU32Le(b: seq<u8>): (x: u32)
    requires |b| == 4
    ensures x % 0x100 == b[0] as int && x / 0x100_0000 == b[3] as int
  {
    b[0] as int + 0x100 * b[1] as int + 0x1_0000 * b[2] as int + 0x100_0000 * b[3] as int
  }

  lemma U32LeRoundTrip(x: u32)
    ensures DecodeU32Le(U32Le(x)) == x
  {
    var q1 := x / 0x100;
    var q2 := q1 / 0x100;
    var q3 := q2 / 0x100;
    assert x == x % 0x100 + 0x100 * q1;
    assert q1 == q1 % 0x100 + 0x100 * q2;
    assert q2 == q2 % 0x100 + 0x100 * q3;
    assert x / 0x1_0000 == q2;
    assert x / 0x100_0000 == q3;
  }

  lemma DecodeU32LeInverse(b: seq<u8>)
    requires |b| == 4
    ensures U32Le(DecodeU32Le(b)) == b
  {
    var x: int := DecodeU32Le(b);
    var q1: int := b[1] as int + 0x100 * b[2] as int + 0x1_0000 * b[3] as int;
    var q2: int := b[2] as int + 0x100 * b[3] as int;
    assert x == b[0] + 0x100 * q1;
    assert x % 0x100 == b[0] && x / 0x100 == q1;
    assert q1 == b[1] + 0x100 * q2;
    assert q1 % 0x100 == b[1] && q1 / 0x100 == q2;
    assert q2 % 0x100 == b[2] && q2 / 0x100 == b[3];
    assert x / 0x1_0000 == q2;
    assert x / 0x100_0000 == b[3];
  }

  /** Borsh's `String` encoding: the byte length as a little-endian u32,
      then the bytes themselves. */
  function EncodeString(s: seq<u8>): (b: seq<u8>)
    requires |s| < U32_LIMIT
    ensures |b| == 4 + |s| && b[4..] == s
  {
    U32Le(|s|) + s
  }

  /** Borsh's `String` decoding of the bytes of `b` from position `at`: the
      string and the position just after it, or an I/O error when the length
      prefix or the bytes it announces run past the end. */
  function DecodeString(b: seq<u8>, at: nat): (r: Result<(seq<u8>, nat)>)
    ensures r.Failure? ==> r.fault == BorshIoError
    ensures r.Success? ==>
              |r.value.0| < U32_LIMIT &&
              r.value.1 == at + 4 + |r.value.0| <= |b| &&
              b[at..r.value.1] == EncodeString(r.value.0)
  {
    if at + 4 > |b| then Failure(BorshIoError)
    else
      var n := DecodeU32Le(b[at..at + 4]);
      if at + 4 + n > |b| then Failure(BorshIoError)
      else
        DecodeU32LeInverse(b[at..at + 4]);
        assert b[at..at + 4 + n] == b[at..at + 4] + b[at + 4..at + 4 + n];
        Success((b[at + 4..at + 4 + n], at + 4 + n))
  }

  /** Decoding a string that was encoded at position `at` gives it back,
      whatever surrounds it. */
  lemma DecodeEncodedString(before: seq<u8>, s: seq<u8>, after: seq<u8>)
    requires |s| < U32_LIMIT
    ensures DecodeString(before + EncodeString(s) + after, |before|)
            == Success((s, |before| + 4 + |s|))
  {
    var b := before + EncodeString(s) + after;
    var at := |before|;
    assert b[at..at + 4 + |s|] == EncodeString(s);
    assert b[at..at + 4] == U32Le(|s|);
    U32LeRoundTrip(|s|);
    assert b[at + 4..at + 4 + |s|] == s;
  }
}
