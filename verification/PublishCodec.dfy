/**
  Decoding and encoding a PUBLISH as the code does it: a reader that advances over the body, a loop over the
  properties with the set of those seen, and a buffer that grows. Each method does what the function of
  `Publishes` says.
 */
module PublishCodec {
  import opened Seqs
  import opened Topics
  import opened Codec
  import opened Publishes

  /** readProperty: one value, folded into the properties read so far. */
  method ReadProperty(pr: Reader, p: Properties, id: nat) returns (r: Result<Properties>)
    requires pr.Valid() && Allowed(id)
    modifies pr
    ensures pr.Valid()
    ensures match GetValue(id, old(pr.Rest()))
            case Fail(e) => r == Bad(e)
            case Ok(prop, rest) => r == Got(Apply(p, prop)) && pr.Rest() == rest
  {
    hide GetString, GetBinary, GetVar, Get32, Get16;
    if id == 0x01 {
      var v := pr.Byte();
      if v.None? { return Bad(Malformed); }
      if v.value > 1 { return Bad(Protocol); }
      return Got(p.(format := v));
    } else if id == 0x02 {
      var v := pr.Uint32();
      if v.None? { return Bad(Malformed); }
      return Got(p.(expiry := v));
    } else if id == 0x03 {
      var v := pr.String();
      if v.None? { return Bad(Malformed); }
      return Got(p.(contentType := v.value));
    } else if id == 0x08 {
      var v := pr.String();
      if v.None? { return Bad(Malformed); }
      return Got(p.(responseTopic := v.value));
    } else if id == 0x09 {
      var v := pr.Binary();
      if v.None? { return Bad(Malformed); }
      return Got(p.(correlation := v.value));
    } else if id == 0x0B {
      var v := pr.VarByteInt();
      if v.None? { return Bad(Malformed); }
      if v.value == 0 { return Bad(Protocol); }
      return Got(p.(subIds := p.subIds + [v.value]));
    } else if id == 0x23 {
      var v := pr.Uint16();
      if v.None? { return Bad(Malformed); }
      if v.value == 0 { return Bad(Protocol); }
      return Got(p.(alias := v));
    } else {
      var k := pr.String();
      if k.None? { return Bad(Malformed); }
      var v := pr.String();
      if v.None? { return Bad(Malformed); }
      return Got(p.(user := p.user + [(k.value, v.value)]));
    }
  }

  /** The loop of readProperties. */
  method ReadAll(buf: bytes) returns (r: Result<Properties>)
    ensures r == GetProps(buf, {}, NONE)
  {
    hide GetValue, GetVar, Allowed;
    var pr := new Reader(buf);
    var p, seen: set<nat> := NONE, {};
    while pr.Rest() != []
      invariant pr.Valid() && fresh(pr)
      invariant GetProps(buf, {}, NONE) == GetProps(pr.Rest(), seen, p)
      decreases |pr.Rest()|
    {
      ghost var s := pr.Rest();
      GetVarShorter(s, 0);
      var raw := pr.VarByteInt();
      if raw.None? { return Bad(Malformed); }
      if !Allowed(raw.value) { return Bad(Malformed); }
      if raw.value in seen && !Repeatable(raw.value) { return Bad(Protocol); }
      GetValueShorter(raw.value, pr.Rest());
      seen := seen + {raw.value};
      var next := ReadProperty(pr, p, raw.value);
      if next.Bad? { return Bad(next.e); }
      p := next.v;
    }
    return Got(p);
  }

  method ReadProperties(r: Reader) returns (res: Result<Properties>)
    requires r.Valid()
    modifies r
    ensures r.Valid()
    ensures match ReadProps(old(r.Rest()))
            case Bad(e) => res == Bad(e)
            case Got(v) => res == Got(v.0) && r.Rest() == v.1
  {
    hide GetVar, GetProps;
    var n := r.VarByteInt();
    if n.None? { return Bad(Malformed); }
    if n.value > |r.buf| - r.pos { return Bad(Malformed); }
    assert r.Rest()[..n.value] == r.buf[r.pos..r.pos + n.value] && r.Rest()[n.value..] == r.buf[r.pos + n.value..];
    res := ReadAll(r.buf[r.pos..r.pos + n.value]);
    r.pos := r.pos + n.value;
  }

  /** decodePublish. */
  method DecodePublish(flags: nat, body: bytes) returns (res: Result<Publish>)
    requires flags < 16
    ensures res == Decode(flags, body)
  {
    hide GetString, Get16, ReadProps;
    var dup, qos, retain := flags / 8 == 1, flags / 2 % 4, flags % 2 == 1;
    if qos > 2 { return Bad(Malformed); }
    if qos == 0 && dup { return Bad(Malformed); }
    var r := new Reader(body);
    var topic := r.String();
    if topic.None? { return Bad(Malformed); }
    var id := 0;
    if qos > 0 {
      var n := r.Uint16();
      if n.None? { return Bad(Malformed); }
      if n.value == 0 { return Bad(Protocol); }
      id := n.value;
    }
    var props := ReadProperties(r);
    if props.Bad? { return Bad(props.e); }
    if topic.value == [] && props.v.alias.None? { return Bad(Protocol); }
    return Got(Publish(dup, qos, retain, topic.value, id, props.v, r.Rest()));
  }

  // ---------------------------------------------------------------- encoding

  lemma {:induction false} PutAllMore(items: seq<Prop>, p: Prop)
    requires AllEncodable(items) && Encodable(p)
    ensures AllEncodable(items + [p]) && PutAll(items + [p]) == PutAll(items) + PutProp(p)
    decreases |items|
  {
    if items == [] {
      assert items + [p] == [p] && [p][1..] == [];
    } else {
      var all := items + [p];
      assert all[1..] == items[1..] + [p];
      PutAllMore(items[1..], p);
      Assoc(PutProp(items[0]), PutAll(items[1..]), PutProp(p));
    }
  }

  /** The buffer properties are written to, and what has been written so far. */
  class Writer {
    var buf: bytes
    ghost var items: seq<Prop>

    ghost predicate Valid()
      reads this
    {
      AllEncodable(items) && buf == PutAll(items)
    }

    constructor ()
      ensures Valid() && items == []
    {
      buf, items := [], [];
    }

    /** Appends a property: its identifier and its value. */
    method Put(p: Prop)
      requires Valid() && Encodable(p)
      modifies this
      ensures Valid() && items == old(items) + [p]
    {
      PutAllMore(items, p);
      buf := buf + [Id(p)] + PutValue(p);
      items := items + [p];
    }
  }

  /** One field's length check, then its bytes when it is there. */
  method PutString(w: Writer, present: bool, p: Prop, n: nat) returns (ok: bool)
    requires w.Valid() && (n <= MAX_LEN ==> Encodable(p)) && (present && n > MAX_LEN ==> !Encodable(p))
    modifies w
    ensures w.Valid() && ok == (!present || n <= MAX_LEN)
    ensures ok ==> w.items == old(w.items) + One(present, p)
  {
    if !present {
      assert w.items + [] == w.items;
      return true;
    }
    if n > MAX_LEN { return false; }
    w.Put(p);
    return true;
  }

  method PutSubs(w: Writer, ids: seq<nat>) returns (ok: bool)
    requires w.Valid()
    modifies w
    ensures w.Valid() && ok == AllEncodable(SubItems(ids)) && (ok ==> w.items == old(w.items) + SubItems(ids))
  {
    hide Encodable;
    for i := 0 to |ids|
      invariant w.Valid()
      invariant AllEncodable(SubItems(ids)) <==> AllEncodable(SubItems(ids[i..]))
      invariant w.items + SubItems(ids[i..]) == old(w.items) + SubItems(ids)
    {
      assert ids[i..][1..] == ids[i + 1..];
      SubFirst(ids[i..]);
      if ids[i] < 1 || ids[i] > MAX_VAR { return false; }
      Assoc(w.items, [SubId(ids[i])], SubItems(ids[i + 1..]));
      w.Put(SubId(ids[i]));
    }
    assert w.items + [] == w.items;
    return true;
  }

  lemma SubFirst(ids: seq<nat>)
    requires ids != []
    ensures AllEncodable(SubItems(ids)) <==> 1 <= ids[0] <= MAX_VAR && AllEncodable(SubItems(ids[1..]))
    ensures Encodable(SubId(ids[0])) <==> 1 <= ids[0] <= MAX_VAR
    ensures SubItems(ids) == [SubId(ids[0])] + SubItems(ids[1..])
  {
    AllFirst(SubId(ids[0]), SubItems(ids[1..]));
  }

  lemma AllFirst(p: Prop, rest: seq<Prop>)
    ensures AllEncodable([p] + rest) <==> Encodable(p) && AllEncodable(rest)
  {
    hide Encodable;
    var all := [p] + rest;
    assert all[0] == p && forall i :: 0 <= i < |rest| ==> rest[i] == all[i + 1];
  }

  method PutUsers(w: Writer, us: seq<(bytes, bytes)>) returns (ok: bool)
    requires w.Valid()
    modifies w
    ensures w.Valid() && ok == AllEncodable(UserItems(us)) && (ok ==> w.items == old(w.items) + UserItems(us))
  {
    hide Encodable;
    for i := 0 to |us|
      invariant w.Valid()
      invariant AllEncodable(UserItems(us)) <==> AllEncodable(UserItems(us[i..]))
      invariant w.items + UserItems(us[i..]) == old(w.items) + UserItems(us)
    {
      assert us[i..][1..] == us[i + 1..];
      UserFirst(us[i..]);
      if |us[i].0| > MAX_LEN { return false; }
      if |us[i].1| > MAX_LEN { return false; }
      Assoc(w.items, [User(us[i].0, us[i].1)], UserItems(us[i + 1..]));
      w.Put(User(us[i].0, us[i].1));
    }
    assert w.items + [] == w.items;
    return true;
  }

  lemma UserFirst(us: seq<(bytes, bytes)>)
    requires us != []
    ensures AllEncodable(UserItems(us)) <==>
            |us[0].0| <= MAX_LEN && |us[0].1| <= MAX_LEN && AllEncodable(UserItems(us[1..]))
    ensures Encodable(User(us[0].0, us[0].1)) <==> |us[0].0| <= MAX_LEN && |us[0].1| <= MAX_LEN
    ensures UserItems(us) == [User(us[0].0, us[0].1)] + UserItems(us[1..])
  {
    AllFirst(User(us[0].0, us[0].1), UserItems(us[1..]));
  }

  /** The widths of the fields' types. */
  predicate Typed(p: Properties) {
    (p.expiry.Some? ==> p.expiry.value < 0x1_0000_0000) && (p.alias.Some? ==> p.alias.value < 0x1_0000)
  }

  lemma AllConcat(a: seq<Prop>, b: seq<Prop>)
    ensures AllEncodable(a + b) <==> AllEncodable(a) && AllEncodable(b)
  {
    hide Encodable;
    var all := a + b;
    assert forall i :: 0 <= i < |a| ==> a[i] == all[i];
    assert forall i :: 0 <= i < |b| ==> b[i] == all[i + |a|];
  }

  lemma OneEncodable(present: bool, p: Prop)
    ensures AllEncodable(One(present, p)) <==> !present || Encodable(p)
  {
    hide Encodable;
    assert present ==> One(present, p)[0] == p;
  }

  /** Items, as the encoder appends them one after the other. */
  lemma ItemsInOrder(p: Properties)
    ensures Items(p) == FormatItem(p) + ExpiryItem(p) + One(p.contentType != [], Content(p.contentType))
                        + One(p.responseTopic != [], Response(p.responseTopic)) + One(p.correlation != [],
                          Correlation(p.correlation))
                        + SubItems(p.subIds) + AliasItem(p) + UserItems(p.user)
  {
    var a, b, c, d := FormatItem(p), ExpiryItem(p), One(p.contentType != [], Content(p.contentType)),
      One(p.responseTopic != [], Response(p.responseTopic));
    var e, f, g, h := One(p.correlation != [], Correlation(p.correlation)), SubItems(p.subIds), AliasItem(p),
      UserItems(p.user);
    Regroup8(a, b, c, d, e, f, g, h);
  }

  lemma Regroup8<T>(a: seq<T>, b: seq<T>, c: seq<T>, d: seq<T>, e: seq<T>, f: seq<T>, g: seq<T>, h: seq<T>)
    ensures a + (b + (c + (d + (e + (f + (g + h)))))) == a + b + c + d + e + f + g + h
  {
    Assoc(a, b, c + (d + (e + (f + (g + h)))));
    Assoc(a + b, c, d + (e + (f + (g + h))));
    Assoc(a + b + c, d, e + (f + (g + h)));
    Assoc(a + b + c + d, e, f + (g + h));
    Assoc(a + b + c + d + e, f, g + h);
    Assoc(a + b + c + d + e + f, g, h);
  }

  lemma ItemsEncodable(p: Properties)
    requires Typed(p)
    ensures AllEncodable(Items(p)) <==>
            && |p.contentType| <= MAX_LEN && |p.responseTopic| <= MAX_LEN && |p.correlation| <= MAX_LEN
            && AllEncodable(SubItems(p.subIds)) && AllEncodable(UserItems(p.user))
  {
    hide AllEncodable;
    ItemsInOrder(p);
    var a, b, c, d := FormatItem(p), ExpiryItem(p), One(p.contentType != [], Content(p.contentType)),
      One(p.responseTopic != [], Response(p.responseTopic));
    var e, f, g, h := One(p.correlation != [], Correlation(p.correlation)), SubItems(p.subIds), AliasItem(p),
      UserItems(p.user);
    AllConcat(a, b);
    AllConcat(a + b, c);
    AllConcat(a + b + c, d);
    AllConcat(a + b + c + d, e);
    AllConcat(a + b + c + d + e, f);
    AllConcat(a + b + c + d + e + f, g);
    AllConcat(a + b + c + d + e + f + g, h);
    assert AllEncodable(a) && AllEncodable(b) && AllEncodable(g) by { OptionsEncodable(p); }
    OneEncodable(p.contentType != [], Content(p.contentType));
    OneEncodable(p.responseTopic != [], Response(p.responseTopic));
    OneEncodable(p.correlation != [], Correlation(p.correlation));
  }

  lemma OptionsEncodable(p: Properties)
    requires Typed(p)
    ensures AllEncodable(FormatItem(p)) && AllEncodable(ExpiryItem(p)) && AllEncodable(AliasItem(p))
  {
  }

  /** Properties.encode: None is the error a field that cannot be written gives. */
  method EncodeProperties(p: Properties) returns (out: Option<bytes>)
    requires Typed(p)
    ensures out == PutProps(p)
  {
    hide AllEncodable, Items, FormatItem, ExpiryItem, AliasItem, SubItems, UserItems;
    ItemsEncodable(p);
    ItemsInOrder(p);
    var w := new Writer();
    PutScalars(w, p);
    var ok := PutString(w, p.contentType != [], Content(p.contentType), |p.contentType|);
    if !ok { return None; }
    ok := PutString(w, p.responseTopic != [], Response(p.responseTopic), |p.responseTopic|);
    if !ok { return None; }
    ok := PutString(w, p.correlation != [], Correlation(p.correlation), |p.correlation|);
    if !ok { return None; }
    ok := PutSubs(w, p.subIds);
    if !ok { return None; }
    PutAlias(w, p);
    ok := PutUsers(w, p.user);
    if !ok { return None; }
    var n := AppendVar([], |w.buf|);
    assert [] + PutVar(|w.buf|) == PutVar(|w.buf|);
    return Some(n + w.buf);
  }

  method PutScalars(w: Writer, p: Properties)
    requires w.Valid() && w.items == [] && Typed(p)
    modifies w
    ensures w.Valid() && w.items == FormatItem(p) + ExpiryItem(p)
  {
    if p.format.Some? { w.Put(Format(p.format.value)); }
    if p.expiry.Some? { w.Put(Expiry(p.expiry.value)); }
  }

  method PutAlias(w: Writer, p: Properties)
    requires w.Valid() && Typed(p)
    modifies w
    ensures w.Valid() && w.items == old(w.items) + AliasItem(p)
  {
    if p.alias.Some? { w.Put(Alias(p.alias.value)); } else { assert w.items + [] == w.items; }
  }

  /** Encode for a PUBLISH. */
  method EncodePublish(p: Publish) returns (out: Option<bytes>)
    requires Typed(p.props) && p.id < 0x1_0000
    ensures out == Encode(p)
  {
    hide PutProps, Put16;
    if p.qos > 2 { return None; }
    if |p.topic| > MAX_LEN { return None; }
    var flags := 0;
    if p.dup && p.qos != 0 { flags := flags + 8; }
    flags := flags + p.qos * 2;
    if p.retain { flags := flags + 1; }
    var body := PutBinary(p.topic);
    if p.qos > 0 { body := body + Put16(p.id); }
    var props := EncodeProperties(p.props);
    if props.None? { return None; }
    body := body + props.value;
    body := body + p.payload;
    assert body == EncodeBody(p).value by {
      Regroup4(PutBinary(p.topic), if p.qos > 0 then Put16(p.id) else [], props.value, p.payload);
      assert PutBinary(p.topic) + [] == PutBinary(p.topic);
    }
    if |body| > MAX_VAR { return None; }
    var packet := AppendVar([0x30 + flags], |body|);
    Assoc([0x30 + flags], PutVar(|body|), body);
    return Some(packet + body);
  }

  lemma Regroup4<T>(a: seq<T>, b: seq<T>, c: seq<T>, d: seq<T>)
    ensures a + (b + (c + d)) == ((a + b) + c) + d
  {
    Assoc4(a, b, c, d);
  }
}
