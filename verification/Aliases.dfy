/**
  The Topic Aliases the broker sets towards a client (outalias.go), and the table a receiver keeps of them
  (publish.go: resolveAlias; section 3.3.2.3.4 of MQTT 5.0). The two stay in step over any sequence of sends,
  and what the aliases cost never exceeds what they saved by more than five bytes for each alias in use: the
  three bytes of the property, and one for each of the two length fields it can lengthen.
 */
module Aliases {
  import opened Seqs
  import opened Topics
  import opened Codec
  import opened Publishes

  const MIN_ALIASED_TOPIC := 8
  const MAX_SEEN := 32

  datatype OutAlias = OutAlias(topic: bytes, alias: nat)

  type Table = map<nat, bytes>

  function WithAlias(p: Publish, alias: nat, omitTopic: bool): Publish {
    p.(props := p.props.(alias := Some(alias)), topic := if omitTopic then [] else p.topic)
  }

  /** resolveAlias: the topic of a received PUBLISH and the table after it, or None for a Topic Alias Invalid. */
  function Resolve(table: Table, max: nat, p: Publish): Option<(bytes, Table)> {
    if p.props.alias.None? then Some((p.topic, table))
    else
      var alias := p.props.alias.value;
      if alias > max then None
      else if p.topic != [] then Some((p.topic, table[alias := p.topic]))
      else if alias in table then Some((table[alias], table))
      else None
  }

  // ---------------------------------------------------------------- sizes

  function BytesOf(items: seq<Prop>): nat
    requires AllEncodable(items)
  {
    |PutAll(items)|
  }

  lemma {:induction false} BytesConcat(a: seq<Prop>, b: seq<Prop>)
    requires AllEncodable(a) && AllEncodable(b)
    ensures AllEncodable(a + b) && BytesOf(a + b) == BytesOf(a) + BytesOf(b)
    decreases |a|
  {
    var all := a + b;
    assert forall i :: 0 <= i < |all| ==> all[i] == if i < |a| then a[i] else b[i - |a|];
    if a == [] {
      assert all == b;
    } else {
      assert all[1..] == a[1..] + b;
      BytesConcat(a[1..], b);
    }
  }

  lemma AliasBytes(alias: nat)
    requires alias < 0x1_0000
    ensures AllEncodable([Alias(alias)]) && BytesOf([Alias(alias)]) == 3
  {
    assert PutAll([Alias(alias)]) == PutProp(Alias(alias)) + PutAll([]) by { assert [Alias(alias)][1..] == []; }
  }

  /** What comes before the alias among the items. */
  function Before(p: Properties): seq<Prop> {
    FormatItem(p) + (ExpiryItem(p) + (One(p.contentType != [], Content(p.contentType)) +
    (One(p.responseTopic != [], Response(p.responseTopic)) +
    (One(p.correlation != [], Correlation(p.correlation)) + SubItems(p.subIds)))))
  }

  lemma ItemsSplit(p: Properties)
    ensures Items(p) == Before(p) + (AliasItem(p) + UserItems(p.user))
  {
    var a, b, c, d := FormatItem(p), ExpiryItem(p), One(p.contentType != [], Content(p.contentType)),
      One(p.responseTopic != [], Response(p.responseTopic));
    var e, f, rest := One(p.correlation != [], Correlation(p.correlation)), SubItems(p.subIds),
      AliasItem(p) + UserItems(p.user);
    Assoc(e, f, rest);
    Assoc(d, e + f, rest);
    Assoc(c, d + (e + f), rest);
    Assoc(b, c + (d + (e + f)), rest);
    Assoc(a, b + (c + (d + (e + f))), rest);
  }

  lemma Halves(a: seq<Prop>, b: seq<Prop>)
    requires AllEncodable(a + b)
    ensures AllEncodable(a) && AllEncodable(b)
  {
    var all := a + b;
    assert forall i :: 0 <= i < |a| ==> a[i] == all[i];
    assert forall i :: 0 <= i < |b| ==> b[i] == all[i + |a|];
  }

  /** Setting an alias adds three bytes of properties. */
  lemma AliasAddsThree(p: Properties, alias: nat)
    requires p.alias.None? && alias < 0x1_0000 && AllEncodable(Items(p))
    ensures var q := p.(alias := Some(alias));
            AllEncodable(Items(q)) && BytesOf(Items(q)) == BytesOf(Items(p)) + 3
  {
    hide Items, Before, UserItems, AllEncodable, BytesOf;
    var q := p.(alias := Some(alias));
    ItemsSplit(p);
    ItemsSplit(q);
    assert Before(q) == Before(p) by { SameBefore(p, alias); }
    var b, u := Before(p), UserItems(p.user);
    assert [] + u == u;
    Halves(b, u);
    AliasBytes(alias);
    BytesConcat([Alias(alias)], u);
    BytesConcat(b, [Alias(alias)] + u);
    BytesConcat(b, u);
  }

  lemma SameBefore(p: Properties, alias: nat)
    ensures Before(p.(alias := Some(alias))) == Before(p)
  {
  }

  /** The length of a PUBLISH body, from the lengths of its parts. */
  function BodyLen(topic: nat, qos: nat, props: nat, payload: nat): nat {
    2 + topic + (if qos > 0 then 2 else 0) + VarLen(props) + props + payload
  }

  function PacketLen(body: nat): nat { 1 + VarLen(body) + body }

  lemma EncodedLen(p: Publish)
    requires Encode(p).Some?
    ensures AllEncodable(Items(p.props))
    ensures var body := BodyLen(|p.topic|, p.qos, BytesOf(Items(p.props)), |p.payload|);
            body <= MAX_VAR && BytesOf(Items(p.props)) <= MAX_VAR && |Encode(p).value| == PacketLen(body)
  {
    hide Items, PutAll, PutVar, AllEncodable, VarLen;
    PropsLength(p);
    VarLenExact(BytesOf(Items(p.props)));
    VarLenExact(|EncodeBody(p).value|);
  }

  /** What the alias adds to the Property Length field and to the Remaining Length field. */
  function PropsGrowth(p: Publish): nat
    requires AllEncodable(Items(p.props))
  {
    VarLen(BytesOf(Items(p.props)) + 3) - VarLen(BytesOf(Items(p.props)))
  }

  function BodyGrowth(p: Publish): nat
    requires AllEncodable(Items(p.props))
  {
    var n := BytesOf(Items(p.props));
    VarLen(BodyLen(|p.topic|, p.qos, n + 3, |p.payload|)) - VarLen(BodyLen(|p.topic|, p.qos, n, |p.payload|))
  }

  /**
    The PUBLISH that sets an alias is longer by the three bytes of the property and by what it adds to the two
    length fields, which is at most one byte each.
   */
  lemma SettingCosts(p: Publish, alias: nat)
    requires Encode(p).Some? && p.props.alias.None? && alias < 0x1_0000 && Encode(WithAlias(p, alias, false)).Some?
    ensures AllEncodable(Items(p.props)) && PropsGrowth(p) <= 1 && BodyGrowth(p) <= 1
    ensures |Encode(WithAlias(p, alias, false)).value| == |Encode(p).value| + 3 + PropsGrowth(p) + BodyGrowth(p)
  {
    hide Items, Encode, AllEncodable, BytesOf;
    EncodedLen(p);
    EncodedLen(WithAlias(p, alias, false));
    AliasAddsThree(p.props, alias);
  }

  lemma SettingBound(p: Publish, alias: nat)
    requires Encode(p).Some? && p.props.alias.None? && alias < 0x1_0000 && Encode(WithAlias(p, alias, false)).Some?
    ensures |Encode(p).value| + 3 <= |Encode(WithAlias(p, alias, false)).value| <= |Encode(p).value| + 5
  {
    hide Items, Encode, AllEncodable, BytesOf;
    SettingCosts(p, alias);
  }

  lemma Encodes(p: Publish)
    requires p.qos <= 2 && |p.topic| <= MAX_LEN && p.id < 0x1_0000 && AllEncodable(Items(p.props))
    requires BytesOf(Items(p.props)) <= MAX_VAR
    requires BodyLen(|p.topic|, p.qos, BytesOf(Items(p.props)), |p.payload|) <= MAX_VAR
    ensures Encode(p).Some?
  {
    hide Items, PutAll, PutVar, AllEncodable, VarLen;
    VarLenExact(BytesOf(Items(p.props)));
  }

  lemma ContentBytes(contentType: bytes)
    requires contentType != [] && |contentType| <= MAX_LEN
    ensures var items := Items(NONE.(contentType := contentType));
            AllEncodable(items) && BytesOf(items) == 3 + |contentType|
  {
    var items := Items(NONE.(contentType := contentType));
    assert items == [Content(contentType)];
    assert PutAll(items) == PutProp(items[0]) + PutAll([]) by { assert items[1..] == []; }
  }

  /** A PUBLISH with 125 bytes of properties and a body of 16383: an alias lengthens both fields. */
  function Brimful(): Publish {
    Publish(false, 0, false, seq(8, _ => 97), 0, NONE.(contentType := seq(122, _ => 97)), seq(16247, _ => 0))
  }

  /** Five bytes are not only a bound. */
  lemma SettingCostsFive()
    ensures var p := Brimful();
            && Encode(p).Some? && p.props.alias.None? && Encode(WithAlias(p, 1, false)).Some?
            && |Encode(WithAlias(p, 1, false)).value| == |Encode(p).value| + 5
  {
    hide Items, Encode, AllEncodable, BytesOf;
    var p := Brimful();
    ContentBytes(p.props.contentType);
    AliasAddsThree(p.props, 1);
    Encodes(p);
    Encodes(WithAlias(p, 1, false));
    SettingCosts(p, 1);
  }

  /** The PUBLISH that uses one is shorter, by at least the name less four bytes. */
  lemma UsingSaves(p: Publish, alias: nat)
    requires Encode(p).Some? && p.props.alias.None? && alias < 0x1_0000 && |p.topic| >= MIN_ALIASED_TOPIC
    requires Encode(WithAlias(p, alias, true)).Some?
    ensures |Encode(WithAlias(p, alias, true)).value| + |p.topic| - 4 <= |Encode(p).value|
  {
    hide Items, Encode, AllEncodable, BytesOf;
    EncodedLen(p);
    EncodedLen(WithAlias(p, alias, true));
    AliasAddsThree(p.props, alias);
  }

  // ---------------------------------------------------------------- the table

  /** Topics are distinct and not empty; aliases are distinct and in 1..n. */
  ghost predicate OrderOK(order: seq<OutAlias>) {
    && (forall i :: 0 <= i < |order| ==> 1 <= order[i].alias <= |order| && order[i].topic != [])
    && (forall i, j :: 0 <= i < j < |order| ==> order[i].topic != order[j].topic && order[i].alias != order[j].alias)
  }

  ghost predicate Indexed(order: seq<OutAlias>, byTopic: map<bytes, nat>) {
    && (forall i :: 0 <= i < |order| ==> order[i].topic in byTopic && byTopic[order[i].topic] == order[i].alias)
    && (forall t :: t in byTopic ==> OutAlias(t, byTopic[t]) in order)
  }

  /** The receiver has every mapping the sender would use. */
  ghost predicate InStep(order: seq<OutAlias>, client: Table) {
    forall i :: 0 <= i < |order| ==> order[i].alias in client && client[order[i].alias] == order[i].topic
  }

  function Without(order: seq<OutAlias>, i: nat): seq<OutAlias>
    requires i < |order|
  {
    order[..i] + order[i + 1..]
  }

  lemma WithoutIn(order: seq<OutAlias>, i: nat)
    requires i < |order|
    ensures forall k :: 0 <= k < |Without(order, i)| ==> Without(order, i)[k] == order[if k < i then k else k + 1]
    ensures forall k :: 0 <= k < |order| && k != i ==> order[k] in Without(order, i)
  {
    forall k | 0 <= k < |order| && k != i ensures order[k] in Without(order, i) {
      assert Without(order, i)[if k < i then k else k - 1] == order[k];
    }
  }

  lemma FrontOrder(order: seq<OutAlias>, i: nat)
    requires OrderOK(order) && i < |order|
    ensures OrderOK([order[i]] + Without(order, i))
  {
    hide Without;
    WithoutIn(order, i);
    WithoutLen(order, i);
  }

  lemma WithoutLen(order: seq<OutAlias>, i: nat)
    requires i < |order|
    ensures |Without(order, i)| == |order| - 1
  {
  }

  lemma FrontIndexed(order: seq<OutAlias>, i: nat, byTopic: map<bytes, nat>)
    requires Indexed(order, byTopic) && i < |order|
    ensures Indexed([order[i]] + Without(order, i), byTopic)
  {
    hide Without;
    WithoutIn(order, i);
    WithoutLen(order, i);
    var front := [order[i]] + Without(order, i);
    forall t | t in byTopic ensures OutAlias(t, byTopic[t]) in front {
      var k :| 0 <= k < |order| && order[k] == OutAlias(t, byTopic[t]);
      if k == i { assert front[0] == order[i]; } else { assert order[k] in Without(order, i); }
    }
  }

  lemma FrontInStep(order: seq<OutAlias>, i: nat, client: Table)
    requires InStep(order, client) && i < |order|
    ensures InStep([order[i]] + Without(order, i), client)
  {
    hide Without;
    WithoutIn(order, i);
    WithoutLen(order, i);
  }

  /** A new topic takes the next free alias. */
  lemma FillKeeps(order: seq<OutAlias>, topic: bytes, byTopic: map<bytes, nat>, client: Table)
    requires OrderOK(order) && Indexed(order, byTopic) && InStep(order, client) && topic != [] && topic !in byTopic
    ensures var a := OutAlias(topic, |order| + 1);
            && OrderOK([a] + order) && Indexed([a] + order, byTopic[topic := a.alias])
            && InStep([a] + order, client[a.alias := topic])
  {
  }

  /** The table with the alias of the topic used longest ago given to a new one, in front. */
  function Replaced(order: seq<OutAlias>, topic: bytes): seq<OutAlias>
    requires order != []
  {
    [OutAlias(topic, order[|order| - 1].alias)] + order[..|order| - 1]
  }

  lemma ReplacedAt(order: seq<OutAlias>, topic: bytes)
    requires order != []
    ensures |Replaced(order, topic)| == |order|
    ensures Replaced(order, topic)[0] == OutAlias(topic, order[|order| - 1].alias)
    ensures forall k :: 0 < k < |order| ==> Replaced(order, topic)[k] == order[k - 1]
  {
  }

  lemma ReplacedIndexed(order: seq<OutAlias>, topic: bytes, byTopic: map<bytes, nat>)
    requires OrderOK(order) && Indexed(order, byTopic) && topic !in byTopic && order != []
    ensures var back := order[|order| - 1];
            Indexed(Replaced(order, topic), (byTopic - {back.topic})[topic := back.alias])
  {
    hide Replaced;
    var n, back, after := |order| - 1, order[|order| - 1], Replaced(order, topic);
    ReplacedAt(order, topic);
    var index := (byTopic - {back.topic})[topic := back.alias];
    forall t | t in index ensures OutAlias(t, index[t]) in after {
      if t != topic {
        var k :| 0 <= k < |order| && order[k] == OutAlias(t, byTopic[t]);
        assert k != n && after[k + 1] == order[k];
      }
    }
  }

  /** A new topic takes the alias of the one used longest ago. */
  lemma ReplaceKeeps(order: seq<OutAlias>, topic: bytes, byTopic: map<bytes, nat>, client: Table)
    requires OrderOK(order) && Indexed(order, byTopic) && InStep(order, client)
    requires topic != [] && topic !in byTopic && order != []
    ensures var back := order[|order| - 1];
            var after := [OutAlias(topic, back.alias)] + order[..|order| - 1];
            && OrderOK(after) && Indexed(after, (byTopic - {back.topic})[topic := back.alias])
            && InStep(after, client[back.alias := topic])
  {
    ReplacedIndexed(order, topic, byTopic);
    hide Indexed;
    assert forall i :: 0 <= i < |order| ==> order[i].topic != topic by { Untold(order, topic, byTopic); }
    ReplacedAt(order, topic);
  }

  lemma Untold(order: seq<OutAlias>, topic: bytes, byTopic: map<bytes, nat>)
    requires Indexed(order, byTopic) && topic !in byTopic
    ensures forall i :: 0 <= i < |order| ==> order[i].topic != topic
  {
  }

  class OutAliases {
    const max: nat
    var byTopic: map<bytes, nat>
    /** The most recently used first. */
    var order: seq<OutAlias>
    var saved: nat
    var spent: nat
    var seen: set<bytes>
    /** The table of the receiver at the other end. */
    ghost var client: Table

    ghost predicate Valid()
      reads this
    {
      && 1 <= max < 0x1_0000 && |order| <= max
      && OrderOK(order) && Indexed(order, byTopic) && InStep(order, client)
      && spent <= saved + 5 * |order|
    }

    constructor (max: nat)
      requires 1 <= max < 0x1_0000
      ensures Valid() && this.max == max && client == map[] && saved == spent == 0
    {
      this.max := max;
      byTopic, order, saved, spent, seen, client := map[], [], 0, 0, {}, map[];
    }

    /** The entry of a topic, marked as used last. */
    method Hit(topic: bytes) returns (alias: Option<nat>)
      requires Valid()
      modifies this`order
      ensures Valid() && |order| == |old(order)|
      ensures topic !in byTopic ==> order == old(order)
      ensures topic in byTopic ==>
              exists i :: && 0 <= i < |old(order)| && old(order)[i].topic == topic
                          && order == [old(order)[i]] + Without(old(order), i)
      ensures alias == if topic in byTopic then Some(byTopic[topic]) else None
      ensures alias.Some? ==> 1 <= alias.value <= max && alias.value in client && client[alias.value] == topic
    {
      if topic !in byTopic { return None; }
      var i := 0;
      while order[i].topic != topic
        invariant i < |order| && forall k :: 0 <= k < i ==> order[k].topic != topic
        decreases |order| - i
      {
        assert OutAlias(topic, byTopic[topic]) in order;
        i := i + 1;
      }
      FrontOrder(order, i);
      FrontIndexed(order, i, byTopic);
      FrontInStep(order, i, client);
      alias := Some(order[i].alias);
      order := [order[i]] + Without(order, i);
    }

    /** The PUBLISH that sets the alias can be written, within the client's limit. */
    static predicate Allows(p: Publish, alias: nat, maxPacketSize: nat) {
      var out := Encode(WithAlias(p, alias, false));
      out.Some? && (maxPacketSize == 0 || |out.value| <= maxPacketSize)
    }

    function Next(): nat
      requires 1 <= max
      reads this
    {
      if |order| < max then |order| + 1 else order[|order| - 1].alias
    }

    /** assign, once what setting the alias costs has been entered. */
    method Assign(topic: bytes)
      requires 1 <= max < 0x1_0000 && |order| <= max && OrderOK(order) && Indexed(order, byTopic)
      requires InStep(order, client)
      requires topic != [] && topic !in byTopic
      requires spent <= saved + 5 * |order| + 5 && (|order| >= max ==> spent <= saved + 5)
      modifies this`order, this`byTopic, this`client
      ensures Valid() && client == old(client)[old(Next()) := topic]
      ensures var kept := if |old(order)| < max then old(order) else old(order)[..max - 1];
              order == [OutAlias(topic, old(Next()))] + kept
    {
      hide OrderOK, Indexed, InStep;
      var a := OutAlias(topic, Next());
      client := client[a.alias := topic];
      if |order| >= max {
        ReplaceKeeps(order, topic, byTopic, old(client));
        byTopic := byTopic - {order[|order| - 1].topic};
        order := order[..|order| - 1];
      } else {
        FillKeeps(order, topic, byTopic, old(client));
      }
      order, byTopic := [a] + order, byTopic[topic := a.alias];
    }

    lemma NextInRange()
      requires Valid()
      ensures 1 <= Next() <= max
    {
    }

    /** When an alias is in use for the topic, and can be used. */
    predicate Uses(p: Publish)
      reads this
    {
      p.topic in byTopic && byTopic[p.topic] < 0x1_0000 && Encode(WithAlias(p, byTopic[p.topic], true)).Some?
    }

    /** When one is set for it: a free one, or, once the aliases have paid and the topic comes again, the oldest. */
    predicate Sets(p: Publish, maxPacketSize: nat)
      requires 1 <= max < 0x1_0000 && |order| <= max && Next() < 0x1_0000
      reads this
    {
      && p.topic !in byTopic && (|order| < max || (saved >= spent && p.topic in seen))
      && Allows(p, Next(), maxPacketSize)
    }

    /** The topics seen once while every alias is taken: the next time one comes, it may take the oldest. */
    function SeenAfter(topic: bytes): set<bytes>
      reads this
    {
      if topic in byTopic || |order| < max || saved < spent then seen
      else if topic in seen then seen - {topic}
      else (if |seen| >= MAX_SEEN then {} else seen) + {topic}
    }

    /**
      encode: the PUBLISH to send for `p`, its plain form or one with an alias. A receiver that resolves it gets
      the topic of `p`, and its table is again in step.
     */
    method EncodeAliased(p: Publish, maxPacketSize: nat) returns (sent: Publish)
      requires Valid() && |p.topic| >= MIN_ALIASED_TOPIC && p.props.alias.None? && Encode(p).Some?
      modifies this
      ensures Valid() && Encode(sent).Some? && sent.payload == p.payload
      ensures Resolve(old(client), max, sent) == Some((p.topic, client))
      ensures old(p.topic in byTopic && Encode(WithAlias(p, byTopic[p.topic], true)).Some?) ==>
              sent == WithAlias(p, old(byTopic[p.topic]), true)
      ensures old(p.topic !in byTopic && |order| < max && Allows(p, Next(), maxPacketSize)) ==>
              sent == WithAlias(p, |old(order)| + 1, false)
      ensures old(p.topic !in byTopic && |order| == max && (saved < spent || p.topic !in seen)) ==>
              sent == p && order == old(order)
      ensures old(p.topic !in byTopic && |order| == max && saved >= spent && p.topic in seen
                  && Allows(p, Next(), maxPacketSize)) ==>
                sent == WithAlias(p, old(order[|order| - 1].alias), false)
      ensures old(!Uses(p) && !Sets(p, maxPacketSize)) ==> sent == p && client == old(client)
      ensures seen == old(SeenAfter(p.topic))
      ensures sent.topic == [] ==> |Encode(sent).value| + |p.topic| - 4 <= |Encode(p).value|
      ensures maxPacketSize > 0 && |Encode(p).value| <= maxPacketSize ==> |Encode(sent).value| <= maxPacketSize
      ensures |Encode(sent).value| - |Encode(p).value| == (spent - old(spent)) - (saved - old(saved))
    {
      hide Encode, OrderOK, Indexed, InStep;
      var alias := Hit(p.topic);
      if alias.Some? {
        sent := WithAlias(p, alias.value, true);
        if Encode(sent).Some? {
          UsingSaves(p, alias.value);
          saved := saved + |Encode(p).value| - |Encode(sent).value|;
          return;
        }
        return p;
      }
      var full := |order| >= max;
      if full && saved < spent { return p; }
      if full {
        if p.topic !in seen {
          if |seen| >= MAX_SEEN { seen := {}; }
          seen := seen + {p.topic};
          return p;
        }
        seen := seen - {p.topic};
      }
      sent := SetAlias(p, maxPacketSize);
    }

    /** A new alias for the topic, or the plain form when it does not fit. */
    method SetAlias(p: Publish, maxPacketSize: nat) returns (sent: Publish)
      requires Valid() && |p.topic| >= MIN_ALIASED_TOPIC && p.props.alias.None? && Encode(p).Some?
      requires p.topic !in byTopic && (|order| == max ==> spent <= saved)
      modifies this`order, this`byTopic, this`client, this`spent
      ensures Valid() && Encode(sent).Some? && sent.payload == p.payload && sent.topic == p.topic
      ensures Resolve(old(client), max, sent) == Some((p.topic, client))
      ensures old(Allows(p, Next(), maxPacketSize)) ==> sent == WithAlias(p, old(Next()), false)
      ensures !old(Allows(p, Next(), maxPacketSize)) ==> sent == p && client == old(client)
      ensures maxPacketSize > 0 && |Encode(p).value| <= maxPacketSize ==> |Encode(sent).value| <= maxPacketSize
      ensures |Encode(sent).value| - |Encode(p).value| == spent - old(spent)
    {
      hide Encode, OrderOK, Indexed, InStep;
      NextInRange();
      sent := WithAlias(p, Next(), false);
      if Encode(sent).None? || (maxPacketSize > 0 && |Encode(sent).value| > maxPacketSize) { return p; }
      SettingBound(p, Next());
      spent := spent + |Encode(sent).value| - |Encode(p).value|;
      assert Resolve(client, max, sent) == Some((p.topic, client[Next() := p.topic]));
      Assign(p.topic);
    }

    /** aliasPublish: short topics are not aliased. */
    method AliasPublish(p: Publish, maxPacketSize: nat) returns (sent: Publish)
      requires Valid() && p.props.alias.None? && Encode(p).Some?
      modifies this
      ensures Valid() && Encode(sent).Some? && sent.payload == p.payload
      ensures Resolve(old(client), max, sent) == Some((p.topic, client))
      ensures |Encode(sent).value| - |Encode(p).value| == (spent - old(spent)) - (saved - old(saved))
      ensures |p.topic| < MIN_ALIASED_TOPIC ==> sent == p && client == old(client) && seen == old(seen)
      ensures |p.topic| >= MIN_ALIASED_TOPIC && old(Uses(p)) ==> sent == WithAlias(p, old(byTopic[p.topic]), true)
      ensures |p.topic| >= MIN_ALIASED_TOPIC && old(Sets(p, maxPacketSize)) ==>
              sent == WithAlias(p, old(Next()), false)
      ensures |p.topic| >= MIN_ALIASED_TOPIC && old(!Uses(p) && !Sets(p, maxPacketSize)) ==> sent == p
      ensures |p.topic| >= MIN_ALIASED_TOPIC ==> seen == old(SeenAfter(p.topic))
    {
      if |p.topic| < MIN_ALIASED_TOPIC { return p; }
      sent := EncodeAliased(p, maxPacketSize);
    }
  }

  /** The wire size of some packets. */
  function TotalLen(ps: seq<Publish>): nat
    requires forall i :: 0 <= i < |ps| ==> Encode(ps[i]).Some?
  {
    if ps == [] then 0 else TotalLen(ps[..|ps| - 1]) + |Encode(ps[|ps| - 1]).value|
  }

  /** The topics a receiver recovers from what it is sent, from `table` on. */
  function Recovered(table: Table, max: nat, sent: seq<Publish>): Option<(seq<bytes>, Table)> {
    if sent == [] then Some(([], table))
    else match Recovered(table, max, sent[..|sent| - 1])
      case None => None
      case Some(r) =>
        match Resolve(r.1, max, sent[|sent| - 1])
        case None => None
        case Some(t) => Some((r.0 + [t.0], t.1))
  }

  function TopicsOf(ps: seq<Publish>): seq<bytes> { seq(|ps|, i requires 0 <= i < |ps| => ps[i].topic) }

  /**
    Over a whole connection: the receiver recovers every topic, and the packets sent are longer than the plain
    ones by at most five bytes for each alias the client offered.
   */
  method SendAll(ps: seq<Publish>, max: nat, maxPacketSize: nat) returns (sent: seq<Publish>)
    requires 1 <= max < 0x1_0000 && forall i :: 0 <= i < |ps| ==> ps[i].props.alias.None? && Encode(ps[i]).Some?
    ensures |sent| == |ps| && forall i :: 0 <= i < |sent| ==> Encode(sent[i]).Some?
    ensures Recovered(map[], max, sent).Some? && Recovered(map[], max, sent).value.0 == TopicsOf(ps)
    ensures TotalLen(sent) <= TotalLen(ps) + 5 * max
  {
    hide Encode, Resolve, Recovered, TotalLen, TopicsOf, OrderOK, Indexed, InStep;
    var table := new OutAliases(max);
    sent := [];
    NothingSent(max);
    assert ps[..0] == [];
    for i := 0 to |ps|
      invariant table.Valid() && table.max == max && fresh(table)
      invariant |sent| == i && forall k :: 0 <= k < i ==> Encode(sent[k]).Some?
      invariant Recovered(map[], max, sent) == Some((TopicsOf(ps[..i]), table.client))
      invariant TotalLen(sent) + table.saved == TotalLen(ps[..i]) + table.spent
    {
      ghost var before := table.client;
      var next := table.AliasPublish(ps[i], maxPacketSize);
      assert ps[..i + 1] == ps[..i] + [ps[i]];
      OneMore(max, ps[..i], ps[i], sent, next, before, table.client);
      LenMore(sent, next);
      LenMore(ps[..i], ps[i]);
      sent := sent + [next];
    }
    assert ps[..|ps|] == ps;
  }

  lemma NothingSent(max: nat)
    ensures Recovered(map[], max, []) == Some((TopicsOf([]), map[])) && TotalLen([]) == 0
  {
    assert TopicsOf([]) == [];
  }

  lemma OneMore(max: nat, ps: seq<Publish>, p: Publish, sent: seq<Publish>, next: Publish, before: Table, after: Table)
    requires Recovered(map[], max, sent) == Some((TopicsOf(ps), before))
    requires Resolve(before, max, next) == Some((p.topic, after))
    ensures Recovered(map[], max, sent + [next]) == Some((TopicsOf(ps + [p]), after))
  {
    hide Resolve;
    assert (sent + [next])[..|sent|] == sent;
    assert TopicsOf(ps + [p]) == TopicsOf(ps) + [p.topic];
  }

  lemma LenMore(ps: seq<Publish>, p: Publish)
    requires Encode(p).Some? && forall i :: 0 <= i < |ps| ==> Encode(ps[i]).Some?
    ensures forall i :: 0 <= i < |ps + [p]| ==> Encode((ps + [p])[i]).Some?
    ensures TotalLen(ps + [p]) == TotalLen(ps) + |Encode(p).value|
  {
    hide Encode;
    assert (ps + [p])[..|ps|] == ps;
  }
}
