/**
  The PUBLISH packet and its properties (packet/publish.go, packet/properties.go, packet/packet.go; sections 2.2.2
  and 3.3 of MQTT 5.0): what the decoder accepts, what the encoder writes, and that the one undoes the other.
 */
module Publishes {
  import opened Seqs
  import opened Topics
  import opened Codec

  /** One property, as it stands on the wire. */
  datatype Prop =
    | Format(b: byte) | Expiry(v: nat) | Content(s: bytes) | Response(s: bytes) | Correlation(s: bytes)
    | SubId(v: nat) | Alias(v: nat) | User(key: bytes, value: bytes)

  /** The properties a PUBLISH may carry; an empty string or sequence is an absent one. */
  datatype Properties = Properties(format: Option<byte>, expiry: Option<nat>, contentType: bytes, responseTopic: bytes,
                                   correlation: bytes, subIds: seq<nat>, alias: Option<nat>, user: seq<(bytes, bytes)>)

  const NONE := Properties(None, None, [], [], [], [], None, [])

  datatype Publish = Publish(dup: bool, qos: nat, retain: bool, topic: bytes, id: nat, props: Properties,
                             payload: bytes)

  datatype Result<T> = Got(v: T) | Bad(e: Error)

  // ---------------------------------------------------------------- one property

  function Id(p: Prop): byte {
    match p
    case Format(_) => 0x01
    case Expiry(_) => 0x02
    case Content(_) => 0x03
    case Response(_) => 0x08
    case Correlation(_) => 0x09
    case SubId(_) => 0x0B
    case Alias(_) => 0x23
    case User(_, _) => 0x26
  }

  predicate Allowed(id: nat) { id in {0x01, 0x02, 0x03, 0x08, 0x09, 0x0B, 0x23, 0x26} }

  predicate Repeatable(id: nat) { id == 0x26 || id == 0x0B }

  /** What the encoder checks, and what its types bound. */
  predicate Encodable(p: Prop) {
    match p
    case Format(_) => true
    case Expiry(v) => v < 0x1_0000_0000
    case Content(s) => |s| <= MAX_LEN
    case Response(s) => |s| <= MAX_LEN
    case Correlation(s) => |s| <= MAX_LEN
    case SubId(v) => 1 <= v <= MAX_VAR
    case Alias(v) => v < 0x1_0000
    case User(k, v) => |k| <= MAX_LEN && |v| <= MAX_LEN
  }

  /** What the decoder demands besides. */
  predicate Sound(p: Prop) {
    && Encodable(p)
    && match p
       case Format(b) => b <= 1
       case Content(s) => Text(s)
       case Response(s) => Text(s)
       case Alias(v) => v > 0
       case User(k, v) => Text(k) && Text(v)
       case _ => true
  }

  function PutValue(p: Prop): bytes
    requires Encodable(p)
  {
    match p
    case Format(b) => [b]
    case Expiry(v) => Put32(v)
    case Content(s) => PutBinary(s)
    case Response(s) => PutBinary(s)
    case Correlation(s) => PutBinary(s)
    case SubId(v) => PutVar(v)
    case Alias(v) => Put16(v)
    case User(k, v) => PutBinary(k) + PutBinary(v)
  }

  function PutProp(p: Prop): bytes
    requires Encodable(p)
  {
    [Id(p)] + PutValue(p)
  }

  /** A parsed value turned into a property, unless a check refuses it. */
  function As<T>(r: Parsed<T>, ok: T -> bool, mk: T -> Prop): Parsed<Prop> {
    match r
    case Fail(e) => Fail(e)
    case Ok(v, rest) => if ok(v) then Ok(mk(v), rest) else Fail(Protocol)
  }

  /** readProperty: the value of the property `id`. */
  function GetValue(id: nat, s: bytes): Parsed<Prop> {
    if id == 0x01 then
      match GetByte(s)
      case Fail(e) => Fail(e)
      case Ok(v, rest) => if v > 1 then Fail(Protocol) else Ok(Format(v), rest)
    else if id == 0x02 then As(Get32(s), v => true, v => Expiry(v))
    else if id == 0x03 then As(GetString(s), v => true, v => Content(v))
    else if id == 0x08 then As(GetString(s), v => true, v => Response(v))
    else if id == 0x09 then As(GetBinary(s), v => true, v => Correlation(v))
    else if id == 0x0B then As(GetVar(s, 0), v => v > 0, v => SubId(v))
    else if id == 0x23 then As(Get16(s), v => v > 0, v => Alias(v))
    else if id == 0x26 then
      match GetString(s)
      case Fail(e) => Fail(e)
      case Ok(k, rest) => As(GetString(rest), v => true, v => User(k, v))
    else Fail(Malformed)
  }

  lemma GetStringPut(s: bytes, rest: bytes)
    requires |s| <= MAX_LEN && Text(s)
    ensures GetString(PutBinary(s) + rest) == Ok(s, rest)
  {
    hide Text, PutBinary, GetBinary;
    GetBinaryPut(s, rest);
  }

  lemma GetVarPutMax(v: nat, rest: bytes)
    requires v <= MAX_VAR
    ensures GetVar(PutVar(v) + rest, 0) == Ok(v, rest)
  {
    VarAcceptedIff(PutVar(v) + rest, v, rest);
  }

  /** Every value the encoder writes is read back, whatever follows it. */
  lemma GetValuePut(p: Prop, rest: bytes)
    requires Sound(p)
    ensures GetValue(Id(p), PutValue(p) + rest) == Ok(p, rest)
  {
    hide GetString, GetBinary, GetVar, Get32, Get16, PutVar, PutBinary, Put32, Put16, Text;
    match p
    case Format(b) => assert ([b] + rest)[1..] == rest;
    case Expiry(v) => Get32Put(v, rest);
    case Content(s) => GetStringPut(s, rest);
    case Response(s) => GetStringPut(s, rest);
    case Correlation(s) => GetBinaryPut(s, rest);
    case SubId(v) => GetVarPutMax(v, rest);
    case Alias(v) => Get16Put(v, rest);
    case User(k, v) =>
      Assoc(PutBinary(k), PutBinary(v), rest);
      GetStringPut(k, PutBinary(v) + rest);
      GetStringPut(v, rest);
  }

  // ---------------------------------------------------------------- all of them

  function Apply(acc: Properties, p: Prop): Properties {
    match p
    case Format(b) => acc.(format := Some(b))
    case Expiry(v) => acc.(expiry := Some(v))
    case Content(s) => acc.(contentType := s)
    case Response(s) => acc.(responseTopic := s)
    case Correlation(s) => acc.(correlation := s)
    case SubId(v) => acc.(subIds := acc.subIds + [v])
    case Alias(v) => acc.(alias := Some(v))
    case User(k, v) => acc.(user := acc.user + [(k, v)])
  }

  function ApplyAll(acc: Properties, items: seq<Prop>): Properties
    decreases |items|
  {
    if items == [] then acc else ApplyAll(Apply(acc, items[0]), items[1..])
  }

  lemma {:induction false} GetVarShorter(s: bytes, i: nat)
    ensures GetVar(s, i).Ok? ==> |GetVar(s, i).rest| < |s|
    decreases 4 - i
  {
    if i < 4 && s != [] && s[0] >= 128 { GetVarShorter(s[1..], i + 1); }
  }

  lemma GetValueShorter(id: nat, s: bytes)
    ensures GetValue(id, s).Ok? ==> |GetValue(id, s).rest| <= |s|
  {
    hide GetVar, Text;
    GetVarShorter(s, 0);
  }

  /** The loop of readProperties: each property allowed, repeated only where it may be, and well-formed. */
  function GetProps(s: bytes, seen: set<nat>, acc: Properties): Result<Properties>
    decreases |s|
  {
    if s == [] then Got(acc)
    else
      var raw := GetVar(s, 0);
      if raw.Fail? then Bad(raw.e)
      else if !Allowed(raw.v) then Bad(Malformed)
      else if raw.v in seen && !Repeatable(raw.v) then Bad(Protocol)
      else
        GetVarShorter(s, 0);
        GetValueShorter(raw.v, raw.rest);
        match GetValue(raw.v, raw.rest)
        case Fail(e) => Bad(e)
        case Ok(p, rest) => GetProps(rest, seen + {raw.v}, Apply(acc, p))
  }

  predicate AllEncodable(items: seq<Prop>) { forall i :: 0 <= i < |items| ==> Encodable(items[i]) }

  predicate AllSound(items: seq<Prop>) { AllEncodable(items) && forall i :: 0 <= i < |items| ==> Sound(items[i]) }

  function PutAll(items: seq<Prop>): bytes
    requires AllEncodable(items)
  {
    if items == [] then [] else PutProp(items[0]) + PutAll(items[1..])
  }

  /** The identifiers rise from `k` on, or repeat one that may be. */
  predicate Rising(items: seq<Prop>, k: nat) {
    items == [] || ((Id(items[0]) > k || (Id(items[0]) == k && Repeatable(k))) && Rising(items[1..], Id(items[0])))
  }

  /** No identifier occurs twice, or again after those `seen`, but those that may be repeated. */
  ghost predicate NoRepeat(items: seq<Prop>, seen: set<nat>) {
    forall i :: 0 <= i < |items| && !Repeatable(Id(items[i])) ==>
                  Id(items[i]) !in seen && forall j :: 0 <= j < i ==> Id(items[j]) != Id(items[i])
  }

  lemma NoRepeatMore(items: seq<Prop>, seen: set<nat>)
    requires items != []
    ensures NoRepeat(items, seen) <==>
            && (Repeatable(Id(items[0])) || Id(items[0]) !in seen)
            && NoRepeat(items[1..], seen + {Id(items[0]) as nat})
  {
    var rest, more := items[1..], seen + {Id(items[0]) as nat};
    if NoRepeat(items, seen) {
      forall i | 0 <= i < |rest| && !Repeatable(Id(rest[i]))
        ensures Id(rest[i]) !in more && forall j :: 0 <= j < i ==> Id(rest[j]) != Id(rest[i])
      {
        assert rest[i] == items[i + 1];
        forall j | 0 <= j < i ensures Id(rest[j]) != Id(rest[i]) { assert rest[j] == items[j + 1]; }
      }
    }
    if (Repeatable(Id(items[0])) || Id(items[0]) !in seen) && NoRepeat(rest, more) {
      forall i | 0 <= i < |items| && !Repeatable(Id(items[i]))
        ensures Id(items[i]) !in seen && forall j :: 0 <= j < i ==> Id(items[j]) != Id(items[i])
      {
        if i > 0 {
          assert items[i] == rest[i - 1];
          forall j | 0 <= j < i ensures Id(items[j]) != Id(items[i]) { if j > 0 { assert items[j] == rest[j - 1]; } }
        }
      }
    }
  }

  /** The bytes of one property and of those after it. */
  lemma PutAllFirst(items: seq<Prop>)
    requires AllSound(items) && items != []
    ensures Encodable(items[0]) && AllSound(items[1..]) && Sound(items[0])
    ensures PutAll(items) == [Id(items[0])] + (PutValue(items[0]) + PutAll(items[1..]))
    ensures GetVar(PutAll(items), 0) == Ok(Id(items[0]), PutValue(items[0]) + PutAll(items[1..]))
    ensures GetValue(Id(items[0]), PutValue(items[0]) + PutAll(items[1..])) == Ok(items[0], PutAll(items[1..]))
  {
    hide GetValue, PutValue, Sound, GetVar;
    var p, rest := items[0], PutAll(items[1..]);
    Assoc([Id(p)], PutValue(p), rest);
    OneByteId(Id(p), PutValue(p) + rest);
    assert Sound(items[0]);
    GetValuePut(p, rest);
  }

  /** Properties in any order are read back, one by one, when none is repeated that may not be. */
  lemma {:induction false} GetPropsPut(items: seq<Prop>, seen: set<nat>, acc: Properties)
    requires AllSound(items) && NoRepeat(items, seen)
    ensures GetProps(PutAll(items), seen, acc) == Got(ApplyAll(acc, items))
    decreases |items|
  {
    if items != [] {
      hide GetValue, GetVar, AllSound, NoRepeat, PutAll;
      PutAllFirst(items);
      NoRepeatMore(items, seen);
      GetPropsPut(items[1..], seen + {Id(items[0]) as nat}, Apply(acc, items[0]));
    }
  }

  /** ... and refused with a Protocol Error when one is. */
  lemma {:induction false} RepeatRefused(items: seq<Prop>, seen: set<nat>, acc: Properties)
    requires AllSound(items) && !NoRepeat(items, seen)
    ensures GetProps(PutAll(items), seen, acc) == Bad(Protocol)
    decreases |items|
  {
    hide GetValue, GetVar, AllSound, NoRepeat, PutAll;
    assert items != [] by { NoneRepeats(seen); }
    PutAllFirst(items);
    NoRepeatMore(items, seen);
    if Repeatable(Id(items[0])) || Id(items[0]) !in seen {
      RepeatRefused(items[1..], seen + {Id(items[0]) as nat}, Apply(acc, items[0]));
    }
  }

  lemma NoneRepeats(seen: set<nat>)
    ensures NoRepeat([], seen)
  {
  }

  lemma OneByteId(id: byte, rest: bytes)
    requires id < 128
    ensures GetVar([id] + rest, 0) == Ok(id, rest)
  {
    assert ([id] + rest)[1..] == rest;
  }

  // ---------------------------------------------------------------- properties as a list

  function One(b: bool, p: Prop): seq<Prop> { if b then [p] else [] }

  function FormatItem(p: Properties): seq<Prop> { if p.format.Some? then [Format(p.format.value)] else [] }
  function ExpiryItem(p: Properties): seq<Prop> { if p.expiry.Some? then [Expiry(p.expiry.value)] else [] }
  function AliasItem(p: Properties): seq<Prop> { if p.alias.Some? then [Alias(p.alias.value)] else [] }

  function SubItems(ids: seq<nat>): seq<Prop> { if ids == [] then [] else [SubId(ids[0])] + SubItems(ids[1..]) }

  function UserItems(us: seq<(bytes, bytes)>): seq<Prop> {
    if us == [] then [] else [User(us[0].0, us[0].1)] + UserItems(us[1..])
  }

  /** The order the encoder writes them in. */
  function Items(p: Properties): seq<Prop> {
    FormatItem(p) + (ExpiryItem(p) + (One(p.contentType != [], Content(p.contentType)) +
    (One(p.responseTopic != [], Response(p.responseTopic)) + (One(p.correlation != [], Correlation(p.correlation)) +
    (SubItems(p.subIds) + (AliasItem(p) + UserItems(p.user)))))))
  }

  lemma {:induction false} ApplyConcat(acc: Properties, a: seq<Prop>, b: seq<Prop>)
    ensures ApplyAll(acc, a + b) == ApplyAll(ApplyAll(acc, a), b)
    decreases |a|
  {
    if a == [] {
      assert a + b == b;
    } else {
      assert (a + b)[1..] == a[1..] + b;
      ApplyConcat(Apply(acc, a[0]), a[1..], b);
    }
  }

  lemma {:induction false} ApplySubs(acc: Properties, ids: seq<nat>)
    ensures ApplyAll(acc, SubItems(ids)) == acc.(subIds := acc.subIds + ids)
    decreases |ids|
  {
    if ids == [] {
      assert acc.subIds + ids == acc.subIds;
    } else {
      hide ApplyAll;
      var p, more := SubId(ids[0]), acc.(subIds := acc.subIds + [ids[0]]);
      assert Apply(acc, p) == more;
      ApplyFirst(acc, p, SubItems(ids[1..]));
      ApplySubs(more, ids[1..]);
      assert (acc.subIds + [ids[0]]) + ids[1..] == acc.subIds + ids;
    }
  }

  lemma {:induction false} ApplyUsers(acc: Properties, us: seq<(bytes, bytes)>)
    ensures ApplyAll(acc, UserItems(us)) == acc.(user := acc.user + us)
    decreases |us|
  {
    if us == [] {
      assert acc.user + us == acc.user;
    } else {
      hide ApplyAll;
      var p, more := User(us[0].0, us[0].1), acc.(user := acc.user + [us[0]]);
      assert Apply(acc, p) == more;
      ApplyFirst(acc, p, UserItems(us[1..]));
      ApplyUsers(more, us[1..]);
      assert (acc.user + [us[0]]) + us[1..] == acc.user + us;
    }
  }

  lemma ApplyFirst(acc: Properties, p: Prop, rest: seq<Prop>)
    ensures ApplyAll(acc, [p] + rest) == ApplyAll(Apply(acc, p), rest)
  {
    assert ([p] + rest)[1..] == rest;
  }

  lemma ApplyOne(acc: Properties, items: seq<Prop>, rest: seq<Prop>)
    requires |items| <= 1
    ensures ApplyAll(acc, items + rest) == ApplyAll(if items == [] then acc else Apply(acc, items[0]), rest)
  {
    ApplyConcat(acc, items, rest);
    if items != [] { assert items[1..] == []; }
  }

  /** Gathering the items of some properties gives the properties. */
  lemma ItemsGather(p: Properties)
    ensures ApplyAll(NONE, Items(p)) == p
  {
    hide ApplyAll;
    var r7 := AliasItem(p) + UserItems(p.user);
    var r6 := SubItems(p.subIds) + r7;
    var r5 := One(p.correlation != [], Correlation(p.correlation)) + r6;
    var r4 := One(p.responseTopic != [], Response(p.responseTopic)) + r5;
    var r3 := One(p.contentType != [], Content(p.contentType)) + r4;
    var r2 := ExpiryItem(p) + r3;
    var a1 := NONE.(format := p.format);
    var a2 := a1.(expiry := p.expiry);
    var a3 := a2.(contentType := p.contentType);
    var a4 := a3.(responseTopic := p.responseTopic);
    var a5 := a4.(correlation := p.correlation);
    ApplyOne(NONE, FormatItem(p), r2);
    ApplyOne(a1, ExpiryItem(p), r3);
    ApplyOne(a2, One(p.contentType != [], Content(p.contentType)), r4);
    ApplyOne(a3, One(p.responseTopic != [], Response(p.responseTopic)), r5);
    ApplyOne(a4, One(p.correlation != [], Correlation(p.correlation)), r6);
    ApplyConcat(a5, SubItems(p.subIds), r7);
    ApplySubs(a5, p.subIds);
    assert a5.subIds + p.subIds == p.subIds;
    var a6 := a5.(subIds := p.subIds);
    ApplyOne(a6, AliasItem(p), UserItems(p.user));
    var a7 := a6.(alias := p.alias);
    ApplyUsers(a7, p.user);
    assert a7.user + p.user == p.user;
  }

  lemma {:induction false} RisingOnce(items: seq<Prop>, seen: set<nat>, k: nat)
    requires Rising(items, k) && forall x :: x in seen ==> x <= k
    ensures NoRepeat(items, seen)
    decreases |items|
  {
    hide NoRepeat;
    if items == [] {
      NoneRepeats(seen);
    } else {
      RisingOnce(items[1..], seen + {Id(items[0]) as nat}, Id(items[0]));
      NoRepeatMore(items, seen);
    }
  }

  lemma RisingLower(items: seq<Prop>, k: nat, low: nat)
    requires Rising(items, k) && low < k
    ensures Rising(items, low)
  {
  }

  lemma RisingOne(items: seq<Prop>, id: nat, rest: seq<Prop>, low: nat)
    requires |items| <= 1 && (items != [] ==> Id(items[0]) == id) && Rising(rest, id) && low < id
    ensures Rising(items + rest, low)
  {
    if items == [] {
      assert items + rest == rest;
      RisingLower(rest, id, low);
    } else {
      assert (items + rest)[1..] == rest;
    }
  }

  lemma RisingFirst(p: Prop, rest: seq<Prop>, low: nat)
    requires Rising(rest, Id(p)) && (Id(p) > low || (Id(p) == low && Repeatable(low)))
    ensures Rising([p] + rest, low)
  {
    assert ([p] + rest)[1..] == rest;
  }

  lemma {:induction false} RisingSubs(ids: seq<nat>, rest: seq<Prop>, low: nat)
    requires Rising(rest, 0x0B) && low <= 0x0B
    ensures Rising(SubItems(ids) + rest, low)
    decreases |ids|
  {
    hide Rising;
    if ids == [] {
      assert SubItems(ids) + rest == rest;
      if low < 0x0B { RisingLower(rest, 0x0B, low); }
    } else {
      RisingSubs(ids[1..], rest, 0x0B);
      Assoc([SubId(ids[0])], SubItems(ids[1..]), rest);
      RisingFirst(SubId(ids[0]), SubItems(ids[1..]) + rest, low);
    }
  }

  lemma {:induction false} RisingUsers(us: seq<(bytes, bytes)>, low: nat)
    requires low <= 0x26
    ensures Rising(UserItems(us), low)
    decreases |us|
  {
    if us != [] {
      RisingUsers(us[1..], 0x26);
      assert UserItems(us)[1..] == UserItems(us[1..]);
    }
  }

  lemma ItemsRise(p: Properties)
    ensures Rising(Items(p), 0)
  {
    hide Rising;
    var r7 := AliasItem(p) + UserItems(p.user);
    RisingUsers(p.user, 0x23);
    RisingOne(AliasItem(p), 0x23, UserItems(p.user), 0x0B);
    RisingSubs(p.subIds, r7, 0x09);
    var r6 := SubItems(p.subIds) + r7;
    RisingOne(One(p.correlation != [], Correlation(p.correlation)), 0x09, r6, 0x08);
    var r5 := One(p.correlation != [], Correlation(p.correlation)) + r6;
    RisingOne(One(p.responseTopic != [], Response(p.responseTopic)), 0x08, r5, 0x03);
    var r4 := One(p.responseTopic != [], Response(p.responseTopic)) + r5;
    RisingOne(One(p.contentType != [], Content(p.contentType)), 0x03, r4, 0x02);
    var r3 := One(p.contentType != [], Content(p.contentType)) + r4;
    RisingOne(ExpiryItem(p), 0x02, r3, 0x01);
    RisingOne(FormatItem(p), 0x01, ExpiryItem(p) + r3, 0);
  }

  // ---------------------------------------------------------------- the packet

  /** Properties.encode: the Property Length and the properties, or None when one cannot be written. */
  function PutProps(p: Properties): Option<bytes> {
    if AllEncodable(Items(p)) then Some(PutVar(|PutAll(Items(p))|) + PutAll(Items(p))) else None
  }

  /** readProperties. */
  function ReadProps(s: bytes): Result<(Properties, bytes)> {
    match GetVar(s, 0)
    case Fail(e) => Bad(e)
    case Ok(n, rest) =>
      if n > |rest| then Bad(Malformed)
      else match GetProps(rest[..n], {}, NONE)
        case Bad(e) => Bad(e)
        case Got(p) => Got((p, rest[n..]))
  }

  function Flags(p: Publish): nat {
    (if p.dup && p.qos != 0 then 8 else 0) + p.qos * 2 + (if p.retain then 1 else 0)
  }

  /** Publish.encode: the packet's body. */
  function EncodeBody(p: Publish): Option<bytes> {
    if p.qos > 2 || |p.topic| > MAX_LEN || p.id >= 0x1_0000 then None
    else match PutProps(p.props)
      case None => None
      case Some(props) => Some(PutBinary(p.topic) + ((if p.qos > 0 then Put16(p.id) else []) + (props + p.payload)))
  }

  /** Encode: the fixed header and the body. */
  function Encode(p: Publish): Option<bytes> {
    match EncodeBody(p)
    case None => None
    case Some(body) => if |body| > MAX_VAR then None else Some([0x30 + Flags(p)] + (PutVar(|body|) + body))
  }

  /** decodePublish after the topic, from the Packet Identifier on. */
  function DecodeRest(dup: bool, qos: nat, retain: bool, topic: bytes, s: bytes): Result<Publish> {
    var id := if qos > 0 then Get16(s) else Ok(0, s);
    match id
    case Fail(e) => Bad(e)
    case Ok(n, after) =>
      if qos > 0 && n == 0 then Bad(Protocol)
      else match ReadProps(after)
        case Bad(e) => Bad(e)
        case Got(pr) =>
          if topic == [] && pr.0.alias.None? then Bad(Protocol)
          else Got(Publish(dup, qos, retain, topic, n, pr.0, pr.1))
  }

  /** decodePublish. */
  function Decode(flags: nat, body: bytes): Result<Publish>
    requires flags < 16
  {
    var dup, qos, retain := flags / 8 == 1, flags / 2 % 4, flags % 2 == 1;
    if qos > 2 then Bad(Malformed)
    else if qos == 0 && dup then Bad(Malformed)
    else match GetString(body)
      case Fail(e) => Bad(e)
      case Ok(topic, rest) => DecodeRest(dup, qos, retain, topic, rest)
  }

  /** Read, for a PUBLISH: the fixed header, the limit, and the body. */
  function ReadPacket(s: bytes, maxPacketSize: nat): Result<(Publish, bytes)> {
    if s == [] then Bad(Incomplete)
    else if s[0] / 16 != 3 then Bad(Malformed)
    else match GetVar(s[1..], 0)
      case Fail(e) => Bad(e)
      case Ok(n, rest) =>
        if maxPacketSize > 0 && |s| - |rest| + n > maxPacketSize then Bad(TooLarge)
        else if |rest| < n then Bad(Incomplete)
        else match Decode(s[0] % 16, rest[..n])
          case Bad(e) => Bad(e)
          case Got(p) => Got((p, rest[n..]))
  }

  /** A PUBLISH the decoder accepts: section 3.3 of MQTT 5.0. */
  predicate WellFormed(p: Publish) {
    && p.qos <= 2 && (p.qos == 0 ==> !p.dup && p.id == 0) && (p.qos > 0 ==> 1 <= p.id < 0x1_0000)
    && |p.topic| <= MAX_LEN && Text(p.topic) && (p.topic == [] ==> p.props.alias.Some?)
    && AllSound(Items(p.props)) && Encode(p).Some?
  }

  lemma ReadPropsPut(p: Properties, rest: bytes)
    requires AllSound(Items(p)) && |PutAll(Items(p))| <= MAX_VAR
    ensures PutProps(p).Some? && ReadProps(PutProps(p).value + rest) == Got((p, rest))
  {
    hide Items, PutAll, GetProps, ApplyAll, Rising, PutVar, GetVar, NoRepeat;
    var b := PutAll(Items(p));
    Assoc(PutVar(|b|), b, rest);
    GetVarPutMax(|b|, b + rest);
    Parts(b, rest);
    ItemsRise(p);
    RisingOnce(Items(p), {}, 0);
    GetPropsPut(Items(p), {}, NONE);
    ItemsGather(p);
  }

  lemma PropsLength(p: Publish)
    requires Encode(p).Some?
    ensures AllEncodable(Items(p.props)) && |PutAll(Items(p.props))| <= MAX_VAR
  {
    hide Items, PutAll, PutVar, PutBinary, Put16;
  }

  lemma DecodeRestPut(p: Publish)
    requires WellFormed(p)
    ensures PutProps(p.props).Some?
    ensures DecodeRest(p.dup, p.qos, p.retain, p.topic,
                       (if p.qos > 0 then Put16(p.id) else []) + (PutProps(p.props).value + p.payload)) == Got(p)
  {
    hide Items, PutProps, ReadProps, Put16, Get16, Encode, Text;
    PropsLength(p);
    ReadPropsPut(p.props, p.payload);
    var tail := PutProps(p.props).value + p.payload;
    if p.qos > 0 { Get16Put(p.id, tail); } else { assert [] + tail == tail; }
  }

  lemma FlagsRead(p: Publish)
    requires p.qos <= 2 && (p.qos == 0 ==> !p.dup)
    ensures Flags(p) < 16 && (Flags(p) / 8 == 1 <==> p.dup) && Flags(p) / 2 % 4 == p.qos
    ensures (Flags(p) % 2 == 1 <==> p.retain)
  {
  }

  /** A well-formed PUBLISH decodes back to itself. */
  lemma DecodeUndoesEncode(p: Publish)
    requires WellFormed(p)
    ensures EncodeBody(p).Some? && Flags(p) < 16 && Decode(Flags(p), EncodeBody(p).value) == Got(p)
  {
    hide Items, PutProps, DecodeRest, Put16, PutBinary, GetString, Text, Flags;
    FlagsRead(p);
    DecodeRestPut(p);
    GetStringPut(p.topic, (if p.qos > 0 then Put16(p.id) else []) + (PutProps(p.props).value + p.payload));
  }

  /** ... and so does its whole packet, whatever follows it, when it is within the receiver's limit. */
  lemma ReadUndoesEncode(p: Publish, more: bytes, maxPacketSize: nat)
    requires WellFormed(p) && (maxPacketSize == 0 || |Encode(p).value| <= maxPacketSize)
    ensures ReadPacket(Encode(p).value + more, maxPacketSize) == Got((p, more))
  {
    hide EncodeBody, Decode, Items, PutVar, GetVar, Flags, Text;
    DecodeUndoesEncode(p);
    FlagsRead(p);
    var body := EncodeBody(p).value;
    var s := Encode(p).value + more;
    assert s[1..] == PutVar(|body|) + (body + more);
    GetVarPutMax(|body|, body + more);
    Parts(body, more);
    assert s[0] == 0x30 + Flags(p);
    assert |s| - |body + more| + |body| == |Encode(p).value|;
  }
}
