/** The CRC-32 of a byte string as a register that bytes are fed into: polynomial 0xEDB88320 reflected, initial value
    and final inversion all ones. */
module Crc32 {
  const START: bv32 := 0xFFFF_FFFF

  function Shifted(register: bv32, bits: nat): (r: bv32)
    decreases bits, register
  {
    if bits == 0 then register
    else Shifted(if register & 1 == 1 then (register >> 1) ^ 0xEDB8_8320 else register >> 1, bits - 1)
  }

  function Fed(register: bv32, c: char): (r: bv32) { Shifted(register ^ ((c as int % 256) as bv32), 8) }

  function AllFed(register: bv32, text: string): (r: bv32)
  {
    if text == "" then register else Fed(AllFed(register, text[..|text| - 1]), text[|text| - 1])
  }

  function Finished(register: bv32): (r: bv32) { register ^ 0xFFFF_FFFF }

  function Crc(text: string): (r: bv32) { Finished(AllFed(START, text)) }

  /** Feeding in pieces is feeding the concatenation. */
  lemma {:induction false} FeedConcat(register: bv32, a: string, b: string)
    ensures AllFed(register, a + b) == AllFed(AllFed(register, a), b)
  {
    if b == "" {
      assert a + b == a;
    } else {
      assert (a + b)[..|a + b| - 1] == a + b[..|b| - 1];
      FeedConcat(register, a, b[..|b| - 1]);
    }
  }

  /** Feed the bytes of text one by one. */
  method Feed(register: bv32, text: string) returns (r: bv32)
    ensures r == AllFed(register, text)
  {
    r := register;
    for i := 0 to |text|
      invariant r == AllFed(register, text[..i])
    {
      assert text[..i + 1][..i] == text[..i];
      r := Fed(r, text[i]);
    }
    assert text[..|text|] == text;
  }

  lemma EmptyIsZero()
    ensures Crc("") == 0
  {}
}
