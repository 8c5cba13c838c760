/**
  Exactly which PUBLISH packets can be written, and how long they are (packet/publish.go, packet/properties.go,
  packet/packet.go): every field within its type and its length, and the whole within a Remaining Length.
 */
module PublishSizes {
  import opened Seqs
  import opened Topics
  import opened Codec
  import opened Publishes
  import opened PublishCodec
  import opened Aliases

  function SubsSize(ids: seq<nat>): nat { if ids == [] then 0 else 1 + VarLen(ids[0]) + SubsSize(ids[1..]) }

  function UsersSize(us: seq<(bytes, bytes)>): nat {
    if us == [] then 0 else 5 + |us[0].0| + |us[0].1| + UsersSize(us[1..])
  }

  function TextSize(s: bytes): nat { if s == [] then 0 else 3 + |s| }

  /** The bytes the properties take. */
  function PropsSize(p: Properties): nat {
    (if p.format.Some? then 2 else 0) + (if p.expiry.Some? then 5 else 0) + TextSize(p.contentType)
    + TextSize(p.responseTopic) + TextSize(p.correlation) + SubsSize(p.subIds) + (if p.alias.Some? then 3 else 0)
    + UsersSize(p.user)
  }

  /** Every field fits where it is written. */
  predicate Writable(p: Properties) {
    && |p.contentType| <= MAX_LEN && |p.responseTopic| <= MAX_LEN && |p.correlation| <= MAX_LEN
    && (forall i :: 0 <= i < |p.subIds| ==> 1 <= p.subIds[i] <= MAX_VAR)
    && (forall i :: 0 <= i < |p.user| ==> |p.user[i].0| <= MAX_LEN && |p.user[i].1| <= MAX_LEN)
  }

  lemma {:induction false} SubsWritable(ids: seq<nat>)
    ensures AllEncodable(SubItems(ids)) <==> forall i :: 0 <= i < |ids| ==> 1 <= ids[i] <= MAX_VAR
    decreases |ids|
  {
    hide AllEncodable, SubItems;
    if ids == [] {
      assert AllEncodable(SubItems(ids)) by { NoItems(); }
    } else {
      SubFirst(ids);
      SubsWritable(ids[1..]);
      assert forall i :: 0 < i < |ids| ==> ids[i] == ids[1..][i - 1];
      assert forall i :: 0 <= i < |ids[1..]| ==> ids[1..][i] == ids[i + 1];
    }
  }

  lemma NoItems()
    ensures AllEncodable(SubItems([])) && AllEncodable(UserItems([]))
  {
  }

  lemma {:induction false} UsersWritable(us: seq<(bytes, bytes)>)
    ensures AllEncodable(UserItems(us)) <==> forall i :: 0 <= i < |us| ==> |us[i].0| <= MAX_LEN && |us[i].1| <= MAX_LEN
    decreases |us|
  {
    hide AllEncodable, UserItems;
    if us == [] {
      assert AllEncodable(UserItems(us)) by { NoItems(); }
    } else {
      UserFirst(us);
      UsersWritable(us[1..]);
      assert forall i :: 0 < i < |us| ==> us[i] == us[1..][i - 1];
      assert forall i :: 0 <= i < |us[1..]| ==> us[1..][i] == us[i + 1];
    }
  }

  lemma WritableIff(p: Properties)
    requires Typed(p)
    ensures AllEncodable(Items(p)) <==> Writable(p)
  {
    hide AllEncodable, Items, SubItems, UserItems;
    ItemsEncodable(p);
    SubsWritable(p.subIds);
    UsersWritable(p.user);
  }

  lemma {:induction false} SubsBytes(ids: seq<nat>)
    requires AllEncodable(SubItems(ids))
    ensures BytesOf(SubItems(ids)) == SubsSize(ids)
    decreases |ids|
  {
    if ids != [] {
      hide AllEncodable;
      SubFirst(ids);
      SubsBytes(ids[1..]);
      VarLenExact(ids[0]);
      assert SubItems(ids)[1..] == SubItems(ids[1..]);
    }
  }

  lemma {:induction false} UsersBytes(us: seq<(bytes, bytes)>)
    requires AllEncodable(UserItems(us))
    ensures BytesOf(UserItems(us)) == UsersSize(us)
    decreases |us|
  {
    if us != [] {
      hide AllEncodable;
      UserFirst(us);
      UsersBytes(us[1..]);
      assert UserItems(us)[1..] == UserItems(us[1..]);
    }
  }

  lemma Single(p: Prop)
    requires Encodable(p)
    ensures AllEncodable([p]) && BytesOf([p]) == 1 + |PutValue(p)|
  {
    assert [p][1..] == [];
    assert PutAll([p]) == PutProp(p) + PutAll([]);
  }

  lemma OneBytes(present: bool, p: Prop)
    requires present ==> Encodable(p)
    ensures AllEncodable(One(present, p))
    ensures BytesOf(One(present, p)) == if present then 1 + |PutValue(p)| else 0
  {
    if present { Single(p); }
  }

  lemma OptionBytes(p: Properties)
    requires Typed(p)
    ensures AllEncodable(FormatItem(p)) && BytesOf(FormatItem(p)) == if p.format.Some? then 2 else 0
    ensures AllEncodable(ExpiryItem(p)) && BytesOf(ExpiryItem(p)) == if p.expiry.Some? then 5 else 0
    ensures AllEncodable(AliasItem(p)) && BytesOf(AliasItem(p)) == if p.alias.Some? then 3 else 0
  {
    if p.format.Some? { Single(Format(p.format.value)); }
    if p.expiry.Some? { Single(Expiry(p.expiry.value)); }
    if p.alias.Some? { Single(Alias(p.alias.value)); }
  }

  /** The properties take exactly these bytes. */
  lemma PropsBytes(p: Properties)
    requires Typed(p) && Writable(p)
    ensures AllEncodable(Items(p)) && BytesOf(Items(p)) == PropsSize(p)
  {
    hide AllEncodable, BytesOf, SubItems, UserItems, FormatItem, ExpiryItem, AliasItem;
    OptionBytes(p);
    SubsWritable(p.subIds);
    UsersWritable(p.user);
    SubsBytes(p.subIds);
    UsersBytes(p.user);
    OneBytes(p.contentType != [], Content(p.contentType));
    OneBytes(p.responseTopic != [], Response(p.responseTopic));
    OneBytes(p.correlation != [], Correlation(p.correlation));
    var r7 := AliasItem(p) + UserItems(p.user);
    BytesConcat(AliasItem(p), UserItems(p.user));
    BytesConcat(SubItems(p.subIds), r7);
    var r6 := SubItems(p.subIds) + r7;
    BytesConcat(One(p.correlation != [], Correlation(p.correlation)), r6);
    var r5 := One(p.correlation != [], Correlation(p.correlation)) + r6;
    BytesConcat(One(p.responseTopic != [], Response(p.responseTopic)), r5);
    var r4 := One(p.responseTopic != [], Response(p.responseTopic)) + r5;
    BytesConcat(One(p.contentType != [], Content(p.contentType)), r4);
    var r3 := One(p.contentType != [], Content(p.contentType)) + r4;
    BytesConcat(ExpiryItem(p), r3);
    BytesConcat(FormatItem(p), ExpiryItem(p) + r3);
  }

  /** A PUBLISH can be written exactly when every field fits and the whole does, and then has this length. */
  lemma EncodeIff(p: Publish)
    requires Typed(p.props) && p.id < 0x1_0000
    ensures var body := BodyLen(|p.topic|, p.qos, PropsSize(p.props), |p.payload|);
            && (Encode(p).Some? <==> p.qos <= 2 && |p.topic| <= MAX_LEN && Writable(p.props) && body <= MAX_VAR)
            && (Encode(p).Some? ==> |Encode(p).value| == PacketLen(body))
  {
    hide Items, PutAll, AllEncodable, PropsSize, Writable, PutVar, VarLen;
    WritableIff(p.props);
    if Writable(p.props) {
      PropsBytes(p.props);
      if PropsSize(p.props) <= MAX_VAR {
        VarLenExact(PropsSize(p.props));
        if Encode(p).Some? { EncodedLen(p); }
      }
    }
  }
}
