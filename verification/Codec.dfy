/**
  The primitive encodings of MQTT 5.0, section 1.5 (packet/codec.go): integers, Variable Byte Integers, binary
  data and UTF-8 strings. The functions say what the bytes mean; `Reader` advances over a buffer and `Writer`
  appends to one, as the functions say. A string is its bytes.
 */
module Codec {
  import opened Seqs
  import opened Topics

  type byte = b: nat | b < 256
  type bytes = seq<byte>

  datatype Error = Malformed | Protocol | TooLarge | Incomplete

  /** What a read yields: a value and the bytes after it, or an error. */
  datatype Parsed<T> = Ok(v: T, rest: bytes) | Fail(e: Error)

  const MAX_VAR: nat := 268435455
  const MAX_LEN: nat := 65535

  // ---------------------------------------------------------------- what the bytes mean

  function Put16(v: nat): (b: bytes)
    requires v < 0x1_0000
    ensures |b| == 2
  {
    [v / 256, v % 256]
  }

  function Pair(hi: nat, lo: nat): nat { hi * 256 + lo }

  function Get16(s: bytes): Parsed<nat> { if |s| < 2 then Fail(Malformed) else Ok(Pair(s[0], s[1]), s[2..]) }

  function Put32(v: nat): (b: bytes)
    requires v < 0x1_0000_0000
    ensures |b| == 4
  {
    Put16(v / 0x1_0000) + Put16(v % 0x1_0000)
  }

  function Get32(s: bytes): Parsed<nat> {
    if |s| < 4 then Fail(Malformed) else Ok(Pair(s[0], s[1]) * 0x1_0000 + Pair(s[2], s[3]), s[4..])
  }

  function GetByte(s: bytes): Parsed<nat> { if s == [] then Fail(Malformed) else Ok(s[0], s[1..]) }

  lemma Get16Put(v: nat, rest: bytes)
    requires v < 0x1_0000
    ensures Get16(Put16(v) + rest) == Ok(v, rest)
  {
    assert (Put16(v) + rest)[2..] == rest;
  }

  lemma Get32Put(v: nat, rest: bytes)
    requires v < 0x1_0000_0000
    ensures Get32(Put32(v) + rest) == Ok(v, rest)
  {
    var s := Put32(v) + rest;
    assert s[4..] == rest;
    assert v == (v / 0x1_0000) * 0x1_0000 + v % 0x1_0000;
  }

  /** Section 1.5.5: seven bits a byte, the lowest first, the top bit set on all but the last. */
  function PutVar(v: nat): (b: bytes)
    ensures |b| >= 1
  {
    if v < 128 then [v] else [v % 128 + 128] + PutVar(v / 128)
  }

  /** Reads from the byte with index `i` on; at most four bytes, and no zero byte after the first. */
  function GetVar(s: bytes, i: nat): Parsed<nat>
    decreases 4 - i
  {
    if i >= 4 || s == [] then Fail(Malformed)
    else if s[0] < 128 then if i > 0 && s[0] == 0 then Fail(Malformed) else Ok(s[0], s[1..])
    else match GetVar(s[1..], i + 1)
      case Ok(v, rest) => Ok(s[0] - 128 + 128 * v, rest)
      case Fail(e) => Fail(e)
  }

  function Pow128(n: nat): nat { if n == 0 then 1 else 128 * Pow128(n - 1) }

  /** What the encoder writes is read back, whatever follows it. */
  lemma {:induction false} GetVarPut(v: nat, i: nat, rest: bytes)
    requires i < 4 && v < Pow128(4 - i) && (i > 0 ==> v > 0)
    ensures GetVar(PutVar(v) + rest, i) == Ok(v, rest)
    decreases v
  {
    var s := PutVar(v) + rest;
    if v < 128 {
      assert s[1..] == rest;
    } else {
      assert s[1..] == PutVar(v / 128) + rest;
      assert Pow128(1) == 128 * Pow128(0);
      assert Pow128(4 - i) == 128 * Pow128(3 - i);
      GetVarPut(v / 128, i + 1, rest);
    }
  }

  /** What is read was written by the encoder: no other form is accepted. */
  lemma {:induction false} GetVarOnly(s: bytes, i: nat)
    requires GetVar(s, i).Ok?
    ensures var r := GetVar(s, i);
            i < 4 && s == PutVar(r.v) + r.rest && r.v < Pow128(4 - i) && (i > 0 ==> r.v > 0)
    decreases 4 - i
  {
    hide PutVar;
    if s[0] < 128 {
      PutVarLast(s[0]);
      PowPositive(3 - i);
      assert Pow128(4 - i) == 128 * Pow128(3 - i);
    } else {
      GetVarOnly(s[1..], i + 1);
      var tail := GetVar(s[1..], i + 1);
      PutVarOf(s[0], tail.v);
      Assoc([s[0]], PutVar(tail.v), tail.rest);
      assert Pow128(4 - i) == 128 * Pow128(3 - i);
    }
    assert s == [s[0]] + s[1..];
  }

  lemma PutVarLast(b: byte)
    requires b < 128
    ensures PutVar(b) == [b]
  {
  }

  /** A byte with its top bit set, and what follows it. */
  lemma PutVarOf(b: byte, v: nat)
    requires b >= 128 && v > 0
    ensures PutVar(b - 128 + 128 * v) == [b] + PutVar(v)
  {
    var w := b - 128 + 128 * v;
    assert w >= 128 && w / 128 == v && w % 128 == b - 128;
  }

  lemma {:induction false} PowPositive(n: nat)
    ensures Pow128(n) >= 1
    decreases n
  {
    if n > 0 { PowPositive(n - 1); }
  }

  /** A Variable Byte Integer is accepted exactly in the form the encoder writes. */
  lemma VarAcceptedIff(s: bytes, v: nat, rest: bytes)
    ensures GetVar(s, 0) == Ok(v, rest) <==> v <= MAX_VAR && s == PutVar(v) + rest
  {
    assert Pow128(4) == MAX_VAR + 1
      by { assert Pow128(1) == 128 && Pow128(2) == 128 * 128 && Pow128(3) == 128 * 128 * 128; }
    if GetVar(s, 0).Ok? { GetVarOnly(s, 0); }
    if v <= MAX_VAR && s == PutVar(v) + rest { GetVarPut(v, 0, rest); }
  }

  /** varByteIntLen. */
  function VarLen(v: nat): nat { if v < 128 then 1 else if v < 16384 then 2 else if v < 2097152 then 3 else 4 }

  lemma VarLenExact(v: nat)
    requires v <= MAX_VAR
    ensures |PutVar(v)| == VarLen(v)
  {
    if v >= 128 {
      assert |PutVar(v)| == 1 + |PutVar(v / 128)|;
      if v / 128 >= 128 {
        assert |PutVar(v / 128)| == 1 + |PutVar(v / 128 / 128)|;
        assert v / 128 / 128 == v / 16384;
        if v / 16384 >= 128 {
          assert |PutVar(v / 16384)| == 1 + |PutVar(v / 16384 / 128)|;
          assert v / 16384 / 128 == v / 2097152 < 128;
        }
      }
    }
  }

  function PutBinary(b: bytes): bytes
    requires |b| <= MAX_LEN
  {
    Put16(|b|) + b
  }

  function GetBinary(s: bytes): Parsed<bytes> {
    match Get16(s)
    case Fail(e) => Fail(e)
    case Ok(n, rest) => if |rest| < n then Fail(Malformed) else Ok(rest[..n], rest[n..])
  }

  lemma GetBinaryPut(b: bytes, rest: bytes)
    requires |b| <= MAX_LEN
    ensures GetBinary(PutBinary(b) + rest) == Ok(b, rest)
  {
    assert PutBinary(b) + rest == Put16(|b|) + (b + rest);
    Get16Put(|b|, b + rest);
    assert (b + rest)[..|b|] == b && (b + rest)[|b|..] == rest;
  }

  /** A continuation byte of UTF-8. */
  predicate Tail(b: byte) { 0x80 <= b <= 0xBF }

  /** Well-formed UTF-8 without U+0000; the surrogates are not well-formed. */
  predicate Text(s: bytes) {
    if s == [] then true
    else if 0x01 <= s[0] <= 0x7F then Text(s[1..])
    else if 0xC2 <= s[0] <= 0xDF then |s| >= 2 && Tail(s[1]) && Text(s[2..])
    else if 0xE0 <= s[0] <= 0xEF then
      && |s| >= 3 && Tail(s[1]) && Tail(s[2])
      && (s[0] == 0xE0 ==> s[1] >= 0xA0) && (s[0] == 0xED ==> s[1] <= 0x9F)
      && Text(s[3..])
    else if 0xF0 <= s[0] <= 0xF4 then
      && |s| >= 4 && Tail(s[1]) && Tail(s[2]) && Tail(s[3])
      && (s[0] == 0xF0 ==> s[1] >= 0x90) && (s[0] == 0xF4 ==> s[1] <= 0x8F)
      && Text(s[4..])
    else false
  }

  function GetString(s: bytes): Parsed<bytes> {
    match GetBinary(s)
    case Fail(e) => Fail(e)
    case Ok(b, rest) => if Text(b) then Ok(b, rest) else Fail(Malformed)
  }

  // ---------------------------------------------------------------- reading and writing

  /** A reader over a packet body. `pos` only advances, and every read is bounds-checked. */
  class Reader {
    const buf: bytes
    var pos: nat

    constructor (buf: bytes)
      ensures Valid() && this.buf == buf && Rest() == buf
    {
      this.buf, pos := buf, 0;
    }

    ghost predicate Valid()
      reads this
    {
      pos <= |buf|
    }

    function Rest(): bytes
      requires pos <= |buf|
      reads this
    {
      buf[pos..]
    }

    method Byte() returns (v: Option<byte>)
      requires Valid()
      modifies this
      ensures Valid()
      ensures v.None? ==> GetByte(old(Rest())) == Fail(Malformed)
      ensures v.Some? ==> GetByte(old(Rest())) == Ok(v.value, Rest())
      ensures v.None? ==> pos == old(pos)
    {
      if |buf| - pos < 1 { return None; }
      v := Some(buf[pos]);
      pos := pos + 1;
    }

    method Uint16() returns (v: Option<nat>)
      requires Valid()
      modifies this
      ensures Valid()
      ensures v.None? ==> Get16(old(Rest())) == Fail(Malformed)
      ensures v.Some? ==> Get16(old(Rest())) == Ok(v.value, Rest())
    {
      if |buf| - pos < 2 { return None; }
      v := Some(Pair(buf[pos], buf[pos + 1]));
      pos := pos + 2;
    }

    method Uint32() returns (v: Option<nat>)
      requires Valid()
      modifies this
      ensures Valid()
      ensures v.None? ==> Get32(old(Rest())) == Fail(Malformed)
      ensures v.Some? ==> Get32(old(Rest())) == Ok(v.value, Rest())
    {
      if |buf| - pos < 4 { return None; }
      v := Some(Pair(buf[pos], buf[pos + 1]) * 0x1_0000 + Pair(buf[pos + 2], buf[pos + 3]));
      pos := pos + 4;
    }

    /** varByteInt: `weight` is the value of the next byte's lowest bit. */
    method VarByteInt() returns (v: Option<nat>)
      requires Valid()
      modifies this
      ensures Valid()
      ensures v.None? ==> GetVar(old(Rest()), 0) == Fail(Malformed)
      ensures v.Some? ==> GetVar(old(Rest()), 0) == Ok(v.value, Rest())
    {
      hide GetVar, Extend;
      ghost var all := GetVar(Rest(), 0);
      var value: nat, weight: nat, i: nat := 0, 1, 0;
      ExtendFirst(all);
      while i < 4
        invariant i <= 4 && Valid()
        invariant all == Extend(value, weight, GetVar(Rest(), i))
      {
        VarStep(value, weight, Rest(), i);
        ghost var here := Rest();
        var b := Byte();
        if b.None? { return None; }
        assert Rest() == here[1..];
        var low: nat := b.value % 128;
        if b.value < 128 {
          if i > 0 && b.value == 0 { return None; }
          return Some(value + weight * low);
        }
        value := value + weight * low;
        weight := weight * 128;
        i := i + 1;
      }
      VarTooLong(value, weight, Rest());
      return None;
    }

    /** A value read so far, and the rest of it still to come with this weight. */
    static ghost function Extend(value: nat, weight: nat, r: Parsed<nat>): Parsed<nat> {
      if r.Ok? then Ok(value + weight * r.v, r.rest) else r
    }

    static lemma ExtendFirst(r: Parsed<nat>)
      ensures Extend(0, 1, r) == r
    {
    }

    static lemma VarTooLong(value: nat, weight: nat, s: bytes)
      ensures Extend(value, weight, GetVar(s, 4)) == Fail(Malformed)
    {
    }

    static lemma VarStep(value: nat, weight: nat, s: bytes, i: nat)
      requires i < 4
      ensures s == [] ==> Extend(value, weight, GetVar(s, i)) == Fail(Malformed)
      ensures s != [] && s[0] < 128 ==>
                Extend(value, weight, GetVar(s, i)) ==
                  if i > 0 && s[0] == 0 then Fail(Malformed) else Ok(value + weight * s[0], s[1..])
      ensures s != [] && s[0] >= 128 ==>
                Extend(value, weight, GetVar(s, i)) ==
                  Extend(value + weight * (s[0] % 128), weight * 128, GetVar(s[1..], i + 1))
    {
      if s != [] && s[0] >= 128 && GetVar(s[1..], i + 1).Ok? {
        Accumulate(value, weight, s[0] - 128, GetVar(s[1..], i + 1).v);
      }
    }

    static lemma Accumulate(value: nat, weight: nat, b: nat, v: nat)
      ensures value + weight * (b + 128 * v) == (value + weight * b) + (weight * 128) * v
    {
    }

    method Binary() returns (b: Option<bytes>)
      requires Valid()
      modifies this
      ensures Valid()
      ensures b.None? ==> GetBinary(old(Rest())) == Fail(Malformed)
      ensures b.Some? ==> GetBinary(old(Rest())) == Ok(b.value, Rest())
    {
      var n := Uint16();
      if n.None? { return None; }
      if |buf| - pos < n.value { return None; }
      b := Some(buf[pos..pos + n.value]);
      assert Rest()[..n.value] == buf[pos..pos + n.value] && Rest()[n.value..] == buf[pos + n.value..];
      pos := pos + n.value;
    }

    method String() returns (s: Option<bytes>)
      requires Valid()
      modifies this
      ensures Valid()
      ensures s.None? ==> GetString(old(Rest())) == Fail(Malformed)
      ensures s.Some? ==> GetString(old(Rest())) == Ok(s.value, Rest())
    {
      s := Binary();
      if s.Some? && !Text(s.value) { s := None; }
    }
  }

  /** appendVarByteInt. */
  method AppendVar(dst: bytes, v: nat) returns (out: bytes)
    ensures out == dst + PutVar(v)
  {
    out := dst;
    var left := v;
    while true
      invariant dst + PutVar(v) == out + PutVar(left)
      decreases left
    {
      var b: byte := left % 128;
      if left / 128 > 0 {
        assert out + ([b + 128] + PutVar(left / 128)) == (out + [b + 128]) + PutVar(left / 128);
        out, left := out + [b + 128], left / 128;
      } else {
        return out + [b];
      }
    }
  }
}
