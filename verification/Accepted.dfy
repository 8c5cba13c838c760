/**
  Exactly which bytes the PUBLISH decoder accepts (packet/codec.go, packet/properties.go, packet/publish.go,
  packet/packet.go): each read accepts what the encoder of that value writes and nothing else, so a packet is accepted
  exactly when it spells out a PUBLISH that section 3.3 of MQTT 5.0 allows, its properties in any order.
 */
module Accepted {
  import opened Seqs
  import opened Topics
  import opened Codec
  import opened Publishes

  // ---------------------------------------------------------------- text

  /** A Unicode scalar value but U+0000. */
  predicate Scalar(c: nat) { 1 <= c <= 0x10FFFF && !(0xD800 <= c <= 0xDFFF) }

  /** Its UTF-8 form, RFC 3629 section 3. */
  function Utf8(c: nat): bytes
    requires Scalar(c)
  {
    if c < 0x80 then [c]
    else if c < 0x800 then [0xC0 + c / 64, 0x80 + c % 64]
    else if c < 0x1_0000 then [0xE0 + c / 4096, 0x80 + c / 64 % 64, 0x80 + c % 64]
    else [0xF0 + c / 262144, 0x80 + c / 4096 % 64, 0x80 + c / 64 % 64, 0x80 + c % 64]
  }

  predicate AllScalar(cs: seq<nat>) { forall i :: 0 <= i < |cs| ==> Scalar(cs[i]) }

  function Spell(cs: seq<nat>): bytes
    requires AllScalar(cs)
  {
    if cs == [] then [] else Utf8(cs[0]) + Spell(cs[1..])
  }

  lemma TextUtf8(c: nat, rest: bytes)
    requires Scalar(c)
    ensures Text(Utf8(c) + rest) <==> Text(rest)
  {
    var s := Utf8(c) + rest;
    assert s[|Utf8(c)|..] == rest;
    if c >= 0x1_0000 {
      assert c / 262144 <= 4;
    } else if 0x800 <= c {
      assert c / 4096 <= 15;
    }
  }

  /** The scalar value well-formed text begins with. */
  lemma FirstScalar(s: bytes) returns (c: nat, rest: bytes)
    requires Text(s) && s != []
    ensures Scalar(c) && s == Utf8(c) + rest && Text(rest) && |rest| < |s|
  {
    if s[0] <= 0x7F {
      c, rest := s[0], s[1..];
    } else if s[0] <= 0xDF {
      c := TwoBytes(s[0], s[1]);
      rest := s[2..];
      assert s == [s[0], s[1]] + rest;
    } else if s[0] <= 0xEF {
      c := ThreeBytes(s[0], s[1], s[2]);
      rest := s[3..];
      assert s == [s[0], s[1], s[2]] + rest;
    } else {
      c := FourBytes(s[0], s[1], s[2], s[3]);
      rest := s[4..];
      assert s == [s[0], s[1], s[2], s[3]] + rest;
    }
  }

  lemma TwoBytes(a: byte, b: byte) returns (c: nat)
    requires 0xC2 <= a <= 0xDF && Tail(b)
    ensures Scalar(c) && Utf8(c) == [a, b]
  {
    c := (a - 0xC0) * 64 + (b - 0x80);
  }

  lemma ThreeBytes(a: byte, b: byte, d: byte) returns (c: nat)
    requires 0xE0 <= a <= 0xEF && Tail(b) && Tail(d) && (a == 0xE0 ==> b >= 0xA0) && (a == 0xED ==> b <= 0x9F)
    ensures Scalar(c) && Utf8(c) == [a, b, d]
  {
    var x, y, z := a - 0xE0, b - 0x80, d - 0x80;
    c := x * 4096 + y * 64 + z;
    assert c / 64 == x * 64 + y && c / 4096 == x;
  }

  lemma FourBytes(a: byte, b: byte, d: byte, e: byte) returns (c: nat)
    requires 0xF0 <= a <= 0xF4 && Tail(b) && Tail(d) && Tail(e)
    requires (a == 0xF0 ==> b >= 0x90) && (a == 0xF4 ==> b <= 0x8F)
    ensures Scalar(c) && Utf8(c) == [a, b, d, e]
  {
    var x, y, z, t := a - 0xF0, b - 0x80, d - 0x80, e - 0x80;
    c := x * 262144 + y * 4096 + z * 64 + t;
    assert c / 64 == x * 4096 + y * 64 + z && c / 4096 == x * 64 + y && c / 262144 == x;
  }

  lemma {:induction false} TextSpells(s: bytes) returns (cs: seq<nat>)
    requires Text(s)
    ensures AllScalar(cs) && s == Spell(cs)
    decreases |s|
  {
    hide Text, Utf8;
    if s == [] {
      cs := [];
    } else {
      var c, rest := FirstScalar(s);
      var more := TextSpells(rest);
      cs := [c] + more;
      assert cs[1..] == more;
    }
  }

  lemma {:induction false} SpellIsText(cs: seq<nat>)
    requires AllScalar(cs)
    ensures Text(Spell(cs))
    decreases |cs|
  {
    if cs != [] {
      hide Text, Utf8;
      SpellIsText(cs[1..]);
      TextUtf8(cs[0], Spell(cs[1..]));
    }
  }

  /** Text is exactly what spells out scalar values other than U+0000. */
  lemma TextExact(s: bytes)
    ensures Text(s) <==> exists cs :: AllScalar(cs) && s == Spell(cs)
  {
    hide Text, Spell, AllScalar;
    if Text(s) { var cs := TextSpells(s); }
    if cs :| AllScalar(cs) && s == Spell(cs) { SpellIsText(cs); }
  }

  // ---------------------------------------------------------------- one value

  lemma Get16Only(s: bytes)
    requires Get16(s).Ok?
    ensures Get16(s).v < 0x1_0000 && s == Put16(Get16(s).v) + Get16(s).rest
  {
    assert s == [s[0], s[1]] + s[2..];
  }

  lemma Get32Only(s: bytes)
    requires Get32(s).Ok?
    ensures Get32(s).v < 0x1_0000_0000 && s == Put32(Get32(s).v) + Get32(s).rest
  {
    var hi, lo := Pair(s[0], s[1]), Pair(s[2], s[3]);
    assert (hi * 0x1_0000 + lo) / 0x1_0000 == hi && (hi * 0x1_0000 + lo) % 0x1_0000 == lo;
    assert Put16(hi) == [s[0], s[1]] && Put16(lo) == [s[2], s[3]];
    assert s == [s[0], s[1]] + [s[2], s[3]] + s[4..];
  }

  /** Binary data is accepted exactly with its length before it. */
  lemma BinaryAcceptedIff(s: bytes, b: bytes, rest: bytes)
    ensures GetBinary(s) == Ok(b, rest) <==> |b| <= MAX_LEN && s == PutBinary(b) + rest
  {
    if GetBinary(s) == Ok(b, rest) {
      Get16Only(s);
      assert b + rest == Get16(s).rest;
      Assoc(Put16(|b|), b, rest);
    }
    if |b| <= MAX_LEN && s == PutBinary(b) + rest { GetBinaryPut(b, rest); }
  }

  lemma StringAcceptedIff(s: bytes, b: bytes, rest: bytes)
    ensures GetString(s) == Ok(b, rest) <==> |b| <= MAX_LEN && Text(b) && s == PutBinary(b) + rest
  {
    hide Text, GetBinary, PutBinary;
    BinaryAcceptedIff(s, b, rest);
    if GetBinary(s).Ok? { BinaryAcceptedIff(s, GetBinary(s).v, GetBinary(s).rest); }
  }

  /** A value is accepted exactly in the form its encoder writes. */
  lemma ValueAcceptedIff(id: nat, s: bytes, p: Prop, rest: bytes)
    ensures GetValue(id, s) == Ok(p, rest) <==> Sound(p) && id == Id(p) && s == PutValue(p) + rest
  {
    hide GetValue, PutValue;
    if GetValue(id, s) == Ok(p, rest) { ValueOnly(id, s, p, rest); }
    if Sound(p) && id == Id(p) && s == PutValue(p) + rest { GetValuePut(p, rest); }
  }

  lemma ValueOnly(id: nat, s: bytes, p: Prop, rest: bytes)
    requires GetValue(id, s) == Ok(p, rest)
    ensures Sound(p) && id == Id(p) && s == PutValue(p) + rest
  {
    hide GetString, GetBinary, GetVar, Get32, Get16, PutVar, PutBinary, Put32, Put16, Text;
    match p
    case Format(b) => assert s == [b] + rest;
    case Expiry(v) => Get32Only(s);
    case Content(b) => StringAcceptedIff(s, b, rest);
    case Response(b) => StringAcceptedIff(s, b, rest);
    case Correlation(b) => BinaryAcceptedIff(s, b, rest);
    case SubId(v) => VarAcceptedIff(s, v, rest);
    case Alias(v) => Get16Only(s);
    case User(k, v) =>
      var after := GetString(s).rest;
      StringAcceptedIff(s, k, after);
      StringAcceptedIff(after, v, rest);
      Assoc(PutBinary(k), PutBinary(v), rest);
  }

  /** A value of the right form and out of its range is a Protocol Error; anything else refused is Malformed. */
  lemma ValueErrors(id: nat, s: bytes)
    requires GetValue(id, s).Fail?
    ensures GetValue(id, s).e in {Protocol, Malformed}
    ensures GetValue(id, s).e == Protocol <==>
            || (id == 0x01 && s != [] && s[0] > 1)
            || (id == 0x0B && s != [] && s[0] == 0)
            || (id == 0x23 && |s| >= 2 && s[0] == 0 && s[1] == 0)
  {
    hide Text, GetVar;
    VarFails(s, 0);
    ZeroVar(s);
  }

  lemma {:induction false} VarFails(s: bytes, i: nat)
    ensures GetVar(s, i).Fail? ==> GetVar(s, i).e == Malformed
    decreases 4 - i
  {
    if i < 4 && s != [] && s[0] >= 128 { VarFails(s[1..], i + 1); }
  }

  lemma ZeroVar(s: bytes)
    ensures (GetVar(s, 0).Ok? && GetVar(s, 0).v == 0) <==> s != [] && s[0] == 0
  {
    if GetVar(s, 0).Ok? {
      GetVarOnly(s, 0);
      if GetVar(s, 0).v == 0 { assert PutVar(0) == [0]; }
    }
  }

  // ---------------------------------------------------------------- the properties

  lemma {:induction false} PropsOnly(s: bytes, seen: set<nat>, acc: Properties) returns (items: seq<Prop>)
    requires GetProps(s, seen, acc).Got?
    ensures AllSound(items) && NoRepeat(items, seen) && s == PutAll(items)
    ensures GetProps(s, seen, acc).v == ApplyAll(acc, items)
    decreases |s|
  {
    hide GetValue, GetVar, PutValue, NoRepeat, Allowed;
    if s == [] {
      items := [];
      NoneRepeats(seen);
    } else {
      var raw := GetVar(s, 0);
      GetVarShorter(s, 0);
      GetValueShorter(raw.v, raw.rest);
      var p, rest := GetValue(raw.v, raw.rest).v, GetValue(raw.v, raw.rest).rest;
      var more := PropsOnly(rest, seen + {raw.v}, Apply(acc, p));
      ValueAcceptedIff(raw.v, raw.rest, p, rest);
      items := [p] + more;
      assert items[1..] == more;
      VarAcceptedIff(s, raw.v, raw.rest);
      PutVarLast(Id(p));
      NoRepeatMore(items, seen);
      Assoc([Id(p)], PutValue(p), rest);
      SoundFirst(p, more);
    }
  }

  lemma SoundFirst(p: Prop, more: seq<Prop>)
    requires Sound(p) && AllSound(more)
    ensures AllSound([p] + more)
  {
  }

  /** A list of properties a PUBLISH may carry: each sound, and none repeated that may not be. */
  ghost predicate Proper(items: seq<Prop>) { AllSound(items) && NoRepeat(items, {}) }

  /** Properties are accepted exactly when they spell out such a list, in any order; they are gathered in order. */
  lemma PropsAcceptedIff(s: bytes, p: Properties)
    ensures GetProps(s, {}, NONE) == Got(p) <==>
            exists items :: Proper(items) && s == PutAll(items) && p == ApplyAll(NONE, items)
  {
    hide GetProps, AllEncodable, Sound, NoRepeat, ApplyAll, PutAll;
    if GetProps(s, {}, NONE) == Got(p) {
      var items := PropsOnly(s, {}, NONE);
      assert Proper(items);
    }
    if items :| Proper(items) && s == PutAll(items) && p == ApplyAll(NONE, items) { GetPropsPut(items, {}, NONE); }
  }

  // ---------------------------------------------------------------- the packet

  /** A PUBLISH the decoder accepts, with its properties as they stand on the wire. */
  ghost predicate Spelled(p: Publish, items: seq<Prop>) {
    && p.qos <= 2 && (p.qos == 0 ==> !p.dup && p.id == 0) && (p.qos > 0 ==> 1 <= p.id < 0x1_0000)
    && |p.topic| <= MAX_LEN && Text(p.topic) && (p.topic == [] ==> p.props.alias.Some?)
    && Proper(items) && |PutAll(items)| <= MAX_VAR && p.props == ApplyAll(NONE, items)
  }

  function PropsOf(items: seq<Prop>): bytes
    requires AllSound(items)
  {
    PutVar(|PutAll(items)|) + PutAll(items)
  }

  ghost function BodyOf(p: Publish, items: seq<Prop>): bytes
    requires Spelled(p, items)
  {
    PutBinary(p.topic) + ((if p.qos > 0 then Put16(p.id) else []) + (PropsOf(items) + p.payload))
  }

  lemma ReadPropsIff(s: bytes, p: Properties, rest: bytes)
    ensures ReadProps(s) == Got((p, rest)) <==>
            exists items :: Proper(items) && |PutAll(items)| <= MAX_VAR && s == PropsOf(items) + rest
                            && p == ApplyAll(NONE, items)
  {
    hide GetProps, AllEncodable, Sound, NoRepeat, ApplyAll, PutAll, GetVar, PutVar;
    if ReadProps(s) == Got((p, rest)) {
      var n, after := GetVar(s, 0).v, GetVar(s, 0).rest;
      VarAcceptedIff(s, n, after);
      PropsAcceptedIff(after[..n], p);
      var items :| Proper(items) && after[..n] == PutAll(items) && p == ApplyAll(NONE, items);
      assert after == after[..n] + rest;
      Assoc(PutVar(n), after[..n], rest);
    }
    if exists items :: Proper(items) && |PutAll(items)| <= MAX_VAR && s == PropsOf(items) + rest
                       && p == ApplyAll(NONE, items) {
      var items :| Proper(items) && |PutAll(items)| <= MAX_VAR && s == PropsOf(items) + rest
        && p == ApplyAll(NONE, items);
      var b := PutAll(items);
      Assoc(PutVar(|b|), b, rest);
      VarAcceptedIff(s, |b|, b + rest);
      Parts(b, rest);
      PropsAcceptedIff(b, p);
    }
  }

  /** From the Packet Identifier on. */
  lemma RestAcceptedIff(dup: bool, qos: nat, retain: bool, topic: bytes, s: bytes, p: Publish)
    requires qos <= 2 && (qos == 0 ==> !dup) && |topic| <= MAX_LEN && Text(topic)
    ensures DecodeRest(dup, qos, retain, topic, s) == Got(p) <==>
            && p.dup == dup && p.qos == qos && p.retain == retain && p.topic == topic
            && exists items :: Spelled(p, items)
                               && s == (if qos > 0 then Put16(p.id) else []) + (PropsOf(items) + p.payload)
  {
    hide Text, Get16, Put16, ReadProps, PropsOf, AllEncodable, Sound, NoRepeat, ApplyAll, PutAll;
    var id := if qos > 0 then Get16(s) else Ok(0, s);
    if DecodeRest(dup, qos, retain, topic, s) == Got(p) {
      var after := id.rest;
      ReadPropsIff(after, p.props, p.payload);
      var items :| Proper(items) && |PutAll(items)| <= MAX_VAR && after == PropsOf(items) + p.payload
        && p.props == ApplyAll(NONE, items);
      if qos > 0 { Get16Only(s); } else { assert [] + after == after; }
      assert Spelled(p, items);
    }
    if p.dup == dup && p.qos == qos && p.retain == retain && p.topic == topic
      && exists items :: Spelled(p, items)
                         && s == (if qos > 0 then Put16(p.id) else []) + (PropsOf(items) + p.payload) {
      var items :| Spelled(p, items) && s == (if qos > 0 then Put16(p.id) else []) + (PropsOf(items) + p.payload);
      var after := PropsOf(items) + p.payload;
      if qos > 0 { Get16Put(p.id, after); } else { assert [] + after == after; }
      ReadPropsIff(after, p.props, p.payload);
    }
  }

  lemma FlagsOnly(flags: nat, p: Publish)
    requires flags < 16 && p.qos <= 2 && (p.qos == 0 ==> !p.dup)
    ensures flags == Flags(p) <==>
            p.dup == (flags / 8 == 1) && p.qos == flags / 2 % 4 && p.retain == (flags % 2 == 1)
  {
  }

  /** A body is accepted exactly when it spells out a PUBLISH, under its own flags. */
  lemma DecodeAcceptedIff(flags: nat, body: bytes, p: Publish)
    requires flags < 16
    ensures Decode(flags, body) == Got(p) <==>
            exists items :: Spelled(p, items) && flags == Flags(p) && body == BodyOf(p, items)
  {
    hide Text, GetString, DecodeRest, PropsOf, AllEncodable, Sound, NoRepeat, ApplyAll, PutAll, Put16, PutBinary, Flags;
    var dup, qos, retain := flags / 8 == 1, flags / 2 % 4, flags % 2 == 1;
    if Decode(flags, body) == Got(p) {
      var topic, rest := GetString(body).v, GetString(body).rest;
      StringAcceptedIff(body, topic, rest);
      RestAcceptedIff(dup, qos, retain, topic, rest, p);
      FlagsOnly(flags, p);
      var items :| Spelled(p, items) && rest == (if qos > 0 then Put16(p.id) else []) + (PropsOf(items) + p.payload);
      assert body == BodyOf(p, items);
    }
    if items :| Spelled(p, items) && flags == Flags(p) && body == BodyOf(p, items) {
      var rest := (if p.qos > 0 then Put16(p.id) else []) + (PropsOf(items) + p.payload);
      FlagsOnly(flags, p);
      StringAcceptedIff(body, p.topic, rest);
      RestAcceptedIff(dup, qos, retain, p.topic, rest, p);
    }
  }

  /** A whole packet: its type and flags, its length, and a body within the receiver's limit. */
  ghost predicate PacketOf(s: bytes, p: Publish, more: bytes, maxPacketSize: nat) {
    exists items :: Spelled(p, items) && Fixed(s, Flags(p), BodyOf(p, items), more, maxPacketSize)
  }

  predicate Fixed(s: bytes, flags: nat, body: bytes, more: bytes, maxPacketSize: nat) {
    && flags < 16 && |body| <= MAX_VAR && s == [0x30 + flags] + (PutVar(|body|) + (body + more))
    && (maxPacketSize == 0 || |s| - |more| <= maxPacketSize)
  }

  lemma FixedIff(s: bytes, flags: nat, body: bytes, more: bytes, maxPacketSize: nat)
    requires flags < 16
    ensures Fixed(s, flags, body, more, maxPacketSize) <==>
            && s != [] && s[0] / 16 == 3 && s[0] % 16 == flags && GetVar(s[1..], 0) == Ok(|body|, body + more)
            && (maxPacketSize == 0 || |s| - |body + more| + |body| <= maxPacketSize)
  {
    hide GetVar, PutVar;
    if s != [] {
      assert s == [s[0]] + s[1..];
      VarAcceptedIff(s[1..], |body|, body + more);
    }
    if Fixed(s, flags, body, more, maxPacketSize) {
      assert s[1..] == PutVar(|body|) + (body + more);
    }
  }

  lemma PacketAcceptedIff(s: bytes, p: Publish, more: bytes, maxPacketSize: nat)
    ensures ReadPacket(s, maxPacketSize) == Got((p, more)) <==> PacketOf(s, p, more, maxPacketSize)
  {
    hide Decode, GetVar, BodyOf, Spelled, Flags, Fixed;
    if ReadPacket(s, maxPacketSize) == Got((p, more)) {
      var n, rest := GetVar(s[1..], 0).v, GetVar(s[1..], 0).rest;
      DecodeAcceptedIff(s[0] % 16, rest[..n], p);
      var items :| Spelled(p, items) && s[0] % 16 == Flags(p) && rest[..n] == BodyOf(p, items);
      assert rest == rest[..n] + more;
      FixedIff(s, Flags(p), BodyOf(p, items), more, maxPacketSize);
    }
    if items :| Spelled(p, items) && Fixed(s, Flags(p), BodyOf(p, items), more, maxPacketSize) {
      var body := BodyOf(p, items);
      SpelledFlags(p, items);
      FixedIff(s, Flags(p), body, more, maxPacketSize);
      Parts(body, more);
      DecodeAcceptedIff(Flags(p), body, p);
    }
  }

  lemma SpelledFlags(p: Publish, items: seq<Prop>)
    requires Spelled(p, items)
    ensures Flags(p) < 16
  {
    hide Text, Proper, ApplyAll, PutAll;
    FlagsRead(p);
  }

  // ---------------------------------------------------------------- what is refused, and how

  function IdsOf(items: seq<Prop>): set<nat> { set i | 0 <= i < |items| :: Id(items[i]) as nat }

  lemma IdsOfFirst(items: seq<Prop>)
    requires items != []
    ensures IdsOf(items) == {Id(items[0]) as nat} + IdsOf(items[1..])
  {
    forall x | x in IdsOf(items) ensures x in {Id(items[0]) as nat} + IdsOf(items[1..]) {
      var i :| 0 <= i < |items| && x == Id(items[i]) as nat;
      if i > 0 { assert items[1..][i - 1] == items[i]; }
    }
    forall x | x in IdsOf(items[1..]) ensures x in IdsOf(items) {
      var i :| 0 <= i < |items[1..]| && x == Id(items[1..][i]) as nat;
      assert items[i + 1] == items[1..][i];
    }
  }

  lemma FirstThen(items: seq<Prop>, tail: bytes)
    requires AllSound(items) && items != []
    ensures Encodable(items[0]) && AllSound(items[1..]) && Sound(items[0])
    ensures var p, rest := items[0], PutAll(items[1..]) + tail;
            && PutAll(items) + tail != [] && GetVar(PutAll(items) + tail, 0) == Ok(Id(p), PutValue(p) + rest)
            && GetValue(Id(p), PutValue(p) + rest) == Ok(p, rest)
  {
    hide GetValue, PutValue, Sound, GetVar;
    var p, rest := items[0], PutAll(items[1..]) + tail;
    assert Sound(items[0]);
    assert PutAll(items) + tail == [Id(p)] + (PutValue(p) + rest) by {
      Assoc4([Id(p)], PutValue(p), PutAll(items[1..]), tail);
    }
    OneByteId(Id(p), PutValue(p) + rest);
    GetValuePut(p, rest);
  }

  /** Whatever follows properties that are accepted is read as if they stood alone, but for what has been seen. */
  lemma {:induction false} ReadOn(items: seq<Prop>, seen: set<nat>, acc: Properties, tail: bytes)
    requires AllSound(items) && NoRepeat(items, seen)
    ensures GetProps(PutAll(items) + tail, seen, acc) == GetProps(tail, seen + IdsOf(items), ApplyAll(acc, items))
    decreases |items|
  {
    hide GetValue, GetVar, Sound, NoRepeat, PutAll, Encodable;
    if items == [] {
      assert PutAll(items) == [] by { NothingPut(); }
      assert [] + tail == tail && seen + IdsOf(items) == seen;
    } else {
      var p := items[0];
      FirstThen(items, tail);
      NoRepeatMore(items, seen);
      ReadOn(items[1..], seen + {Id(p) as nat}, Apply(acc, p), tail);
      IdsOfFirst(items);
      assert seen + {Id(p) as nat} + IdsOf(items[1..]) == seen + IdsOf(items);
    }
  }

  lemma NothingPut()
    ensures PutAll([]) == []
  {
  }

  /** The first property that is refused: no identifier or an unknown one, a repeat, or a value of its own. */
  lemma FirstRefused(s: bytes, seen: set<nat>, acc: Properties)
    requires s != []
    ensures var raw := GetVar(s, 0);
            && (raw.Fail? || raw.v !in {0x01, 0x02, 0x03, 0x08, 0x09, 0x0B, 0x23, 0x26} ==>
                  GetProps(s, seen, acc) == Bad(Malformed))
            && (raw.Ok? && raw.v in seen && raw.v in {0x01, 0x02, 0x03, 0x08, 0x09, 0x23} ==>
                  GetProps(s, seen, acc) == Bad(Protocol))
            && (raw.Ok? && (raw.v !in seen || raw.v in {0x0B, 0x26}) && GetValue(raw.v, raw.rest).Fail? ==>
                  GetProps(s, seen, acc) == Bad(GetValue(raw.v, raw.rest).e))
  {
    hide GetVar, GetValue;
    VarFails(s, 0);
    if GetVar(s, 0).Ok? { UnknownFails(GetVar(s, 0).v, GetVar(s, 0).rest); }
  }

  lemma UnknownFails(id: nat, s: bytes)
    ensures !Allowed(id) ==> GetValue(id, s) == Fail(Malformed)
  {
  }

  /** A body is refused for its flags or for a topic that is no text before anything else is looked at. */
  lemma FlagsRefused(flags: nat, body: bytes)
    requires flags < 16
    ensures flags / 2 == 3 || flags / 2 == 7 || flags / 2 == 4 ==> Decode(flags, body) == Bad(Malformed)
    ensures (forall topic, rest :: |topic| <= MAX_LEN && Text(topic) ==> body != PutBinary(topic) + rest) ==>
              Decode(flags, body) == Bad(Malformed)
  {
    hide GetString, Text, PutBinary;
    if GetString(body).Ok? {
      StringAcceptedIff(body, GetString(body).v, GetString(body).rest);
    } else {
      StringFails(body);
    }
  }

  lemma StringFails(s: bytes)
    requires GetString(s).Fail?
    ensures GetString(s).e == Malformed
  {
    hide Text;
  }

  /** Properties are refused for their length, or for one of them. */
  lemma PropsRefused(s: bytes)
    ensures GetVar(s, 0).Fail? ==> ReadProps(s) == Bad(Malformed)
    ensures GetVar(s, 0).Ok? && GetVar(s, 0).v > |GetVar(s, 0).rest| ==> ReadProps(s) == Bad(Malformed)
    ensures GetVar(s, 0).Ok? && GetVar(s, 0).v <= |GetVar(s, 0).rest| ==>
              var r := GetProps(GetVar(s, 0).rest[..GetVar(s, 0).v], {}, NONE);
              r.Bad? ==> ReadProps(s) == Bad(r.e)
  {
    hide GetVar, GetProps;
    VarFails(s, 0);
  }

  /** Then for a Packet Identifier that is missing or zero, its properties, and a topic left out without an alias. */
  lemma RestRefused(dup: bool, qos: nat, retain: bool, topic: bytes, s: bytes)
    ensures qos > 0 && |s| < 2 ==> DecodeRest(dup, qos, retain, topic, s) == Bad(Malformed)
    ensures qos > 0 && |s| >= 2 && s[0] == 0 && s[1] == 0 ==> DecodeRest(dup, qos, retain, topic, s) == Bad(Protocol)
    ensures (qos == 0 || (|s| >= 2 && (s[0] != 0 || s[1] != 0))) ==>
              var after := if qos > 0 then s[2..] else s;
              && (ReadProps(after).Bad? ==> DecodeRest(dup, qos, retain, topic, s) == Bad(ReadProps(after).e))
              && (ReadProps(after).Got? && topic == [] && ReadProps(after).v.0.alias.None? ==>
                    DecodeRest(dup, qos, retain, topic, s) == Bad(Protocol))
  {
    hide ReadProps;
  }

  /** A packet beyond the limit is refused before its body is looked at. */
  lemma PacketRefused(s: bytes, maxPacketSize: nat)
    ensures s == [] ==> ReadPacket(s, maxPacketSize) == Bad(Incomplete)
    ensures s != [] && 0x30 <= s[0] <= 0x3F && GetVar(s[1..], 0).Fail? ==>
              ReadPacket(s, maxPacketSize) == Bad(Malformed)
    ensures s != [] && 0x30 <= s[0] <= 0x3F && GetVar(s[1..], 0).Ok? ==>
              var n, rest := GetVar(s[1..], 0).v, GetVar(s[1..], 0).rest;
              var size := |s| - |rest| + n;
              && (0 < maxPacketSize < size ==> ReadPacket(s, maxPacketSize) == Bad(TooLarge))
              && (!(0 < maxPacketSize < size) && |s| < size ==> ReadPacket(s, maxPacketSize) == Bad(Incomplete))
              && (!(0 < maxPacketSize < size) && |s| >= size && Decode(s[0] - 0x30, rest[..n]).Bad? ==>
                    ReadPacket(s, maxPacketSize) == Bad(Decode(s[0] - 0x30, rest[..n]).e))
  {
    hide GetVar, Decode;
    if s != [] { VarFails(s[1..], 0); }
  }
}
