/**
  Packet Identifiers and the send quota of a session (session.go, publish.go, subscribe.go, retransmit.go;
  section 4.9 of MQTT 5.0), as functions on values: `PacketSession` (PacketSession.dfy) is the object whose
  methods change the fields in place. The invariant says that the identifiers in flight and those withdrawn are
  disjoint, and that the slots taken from the current connection's quota are exactly those something accounts
  for. Connections are numbered; a displaced one has a lower number than the session's own.
 */
module Exchanges {
  import opened Topics

  datatype AckType = Puback | Pubcomp

  datatype Outbound = Outbound(qos2: bool, awaitingPubcomp: bool, quotaHeld: bool, resentOn: Option<nat>,
                               topic: string, backlog: bool, heldSince: nat)

  datatype Withdrawal = Withdrawal(madeAt: nat, owed: AckType, quotaHolder: Option<nat>)

  datatype AckOwed = AckOwed(conn: nat, typ: AckType, written: bool, quota: bool)

  const MAX_ID := 65535

  function OwedAck(o: Outbound): AckType { if o.qos2 then Pubcomp else Puback }

  predicate MatchAny(filters: seq<string>, name: string) { exists i :: 0 <= i < |filters| && Matches(filters[i], name) }

  /** An entry that a denied filter earned, no surviving one matches, and the client does not own yet. */
  predicate TakenBack(o: Outbound, denied: seq<string>, surviving: seq<string>) {
    !o.awaitingPubcomp && MatchAny(denied, o.topic) && !MatchAny(surviving, o.topic)
  }

  // ---------------------------------------------------------------- who accounts for a slot

  function HeldIds(inflight: map<nat, Outbound>): set<nat> { set i | i in inflight && inflight[i].quotaHeld }

  function NamedIds(withdrawn: map<nat, Withdrawal>, conn: nat): set<nat> {
    set i | i in withdrawn && withdrawn[i].quotaHolder == Some(conn)
  }

  function LeftIds(resent: map<nat, AckOwed>): set<nat> { set i | i in resent && resent[i].quota }

  lemma HeldWithout(inflight: map<nat, Outbound>, id: nat)
    ensures HeldIds(inflight - {id}) == HeldIds(inflight) - {id}
    ensures var one := if id in inflight && inflight[id].quotaHeld then 1 else 0;
            |HeldIds(inflight - {id})| == |HeldIds(inflight)| - one
  {
    assert HeldIds(inflight - {id}) == HeldIds(inflight) - {id};
  }

  lemma HeldWith(inflight: map<nat, Outbound>, id: nat, o: Outbound)
    requires id in inflight ==> !inflight[id].quotaHeld
    ensures |HeldIds(inflight[id := o])| == |HeldIds(inflight)| + (if o.quotaHeld then 1 else 0)
  {
    assert HeldIds(inflight[id := o]) == HeldIds(inflight) + (if o.quotaHeld then {id} else {});
  }

  lemma NamedWithout(withdrawn: map<nat, Withdrawal>, conn: nat, id: nat)
    ensures |NamedIds(withdrawn - {id}, conn)| ==
            |NamedIds(withdrawn, conn)| - (if id in withdrawn && withdrawn[id].quotaHolder == Some(conn) then 1 else 0)
  {
    assert NamedIds(withdrawn - {id}, conn) == NamedIds(withdrawn, conn) - {id};
  }

  lemma NamedWith(withdrawn: map<nat, Withdrawal>, conn: nat, id: nat, w: Withdrawal)
    requires id !in withdrawn
    ensures var one := if w.quotaHolder == Some(conn) then 1 else 0;
            |NamedIds(withdrawn[id := w], conn)| == |NamedIds(withdrawn, conn)| + one
  {
    var more := if w.quotaHolder == Some(conn) then {id} else {};
    assert NamedIds(withdrawn[id := w], conn) == NamedIds(withdrawn, conn) + more;
  }

  lemma LeftWithout(resent: map<nat, AckOwed>, id: nat)
    ensures |LeftIds(resent - {id})| == |LeftIds(resent)| - (if id in resent && resent[id].quota then 1 else 0)
  {
    assert LeftIds(resent - {id}) == LeftIds(resent) - {id};
  }

  lemma LeftWith(resent: map<nat, AckOwed>, id: nat, r: AckOwed)
    requires id in resent ==> !resent[id].quota
    ensures |LeftIds(resent[id := r])| == |LeftIds(resent)| + (if r.quota then 1 else 0)
  {
    assert LeftIds(resent[id := r]) == LeftIds(resent) + (if r.quota then {id} else {});
  }

  // ---------------------------------------------------------------- the session's books

  /**
    `taken` is the slots taken from the current connection's quota, `untracked` those of them a delivery or a
    resend holds before an entry does.
   */
  datatype Book = Book(conn: nat, attaches: nat, inflight: map<nat, Outbound>, withdrawn: map<nat, Withdrawal>,
                       resent: map<nat, AckOwed>, taken: nat, untracked: nat)

  predicate FreeId(b: Book, id: nat) { id !in b.inflight && id !in b.withdrawn }

  ghost predicate IdsOK(inflight: map<nat, Outbound>, withdrawn: map<nat, Withdrawal>, attaches: nat) {
    && (forall id :: id in inflight ==> 1 <= id <= MAX_ID)
    && (forall id :: id in withdrawn ==> 1 <= id <= MAX_ID && id !in inflight && withdrawn[id].madeAt <= attaches)
  }

  /** An entry that holds a slot was sent or resent on this connection; nothing names a later connection. */
  ghost predicate ConnsOK(inflight: map<nat, Outbound>, withdrawn: map<nat, Withdrawal>, resent: map<nat, AckOwed>,
                          conn: nat) {
    && (forall id :: id in inflight && inflight[id].resentOn.Some? ==> inflight[id].resentOn.value <= conn)
    && (forall id :: id in inflight && inflight[id].quotaHeld ==> inflight[id].resentOn in {None, Some(conn)})
    && (forall id :: id in withdrawn && withdrawn[id].quotaHolder.Some? ==> withdrawn[id].quotaHolder.value <= conn)
    && (forall id :: id in resent ==> resent[id].conn == conn)
  }

  /** The slots something accounts for. */
  ghost function Ledger(b: Book): nat {
    |HeldIds(b.inflight)| + |NamedIds(b.withdrawn, b.conn)| + |LeftIds(b.resent)| + b.untracked
  }

  ghost predicate ShapeOK(b: Book) {
    IdsOK(b.inflight, b.withdrawn, b.attaches) && ConnsOK(b.inflight, b.withdrawn, b.resent, b.conn)
  }

  ghost predicate OK(b: Book) { ShapeOK(b) && b.taken == Ledger(b) }

  // ---------------------------------------------------------------- what happens to them

  function Track(b: Book, id: nat, o: Outbound): Book
    requires b.untracked > 0
  {
    b.(inflight := b.inflight[id := o], untracked := b.untracked - 1)
  }

  /** takeQuotaSlot: the resend of a PUBLISH claims its slot for the entry, if it is still there. */
  function TakeSlot(b: Book, id: nat): Book
    requires b.untracked > 0
  {
    if id !in b.inflight then b
    else
      var o := b.inflight[id];
      b.(inflight := b.inflight[id := o.(quotaHeld := true, resentOn := Some(b.conn))],
         resent := b.resent[id := AckOwed(b.conn, OwedAck(o), false, false)], untracked := b.untracked - 1)
  }

  /** markResent: the resend of a PUBREL takes no slot. */
  function MarkResent(b: Book, id: nat): Book {
    if id !in b.inflight then b
    else
      var o := b.inflight[id];
      b.(inflight := b.inflight[id := o.(resentOn := Some(b.conn))],
         resent := b.resent[id := AckOwed(b.conn, OwedAck(o), false, false)])
  }

  function MarkWritten(b: Book, id: nat): Book {
    if id in b.resent && b.resent[id].conn == b.conn
    then b.(resent := b.resent[id := b.resent[id].(written := true)])
    else b
  }

  function AwaitPubcomp(b: Book, id: nat): Book {
    if id in b.inflight then b.(inflight := b.inflight[id := b.inflight[id].(awaitingPubcomp := true)]) else b
  }

  /** The acknowledgement of the original overtook a resend that holds a slot and has not written the copy. */
  predicate Overtakes(b: Book, c: nat, id: nat)
    requires id in b.inflight
  {
    && id in b.resent && b.resent[id].conn == c && !b.resent[id].written && !b.resent[id].quota
    && b.inflight[id].quotaHeld && b.inflight[id].resentOn == Some(c)
  }

  /** The acknowledgement came on another connection than the one that last resent the entry. */
  predicate Displaced(b: Book, c: nat, id: nat)
    requires id in b.inflight
  {
    b.inflight[id].resentOn.Some? && b.inflight[id].resentOn.value != c
  }

  /**
    completeInflightLocked for an acknowledgement on connection `c`: the books, and whether a slot goes back to
    `c`.
   */
  function Complete(b: Book, c: nat, id: nat): (Book, bool)
    requires id in b.inflight
  {
    var o := b.inflight[id];
    var less := b.(inflight := b.inflight - {id});
    var over := if Overtakes(b, c, id) then less.(resent := b.resent[id := b.resent[id].(quota := true)]) else less;
    var w := Withdrawal(b.attaches, OwedAck(o), if o.quotaHeld then o.resentOn else None);
    if Displaced(b, c, id) then (over.(withdrawn := b.withdrawn[id := w]), false)
    else (over, o.quotaHeld && !Overtakes(b, c, id))
  }

  /** releaseQuota on connection `c`. */
  function Release(b: Book, c: nat): Book {
    if c == b.conn && b.taken > 0 then b.(taken := b.taken - 1) else b
  }

  /** What an acknowledgement does; an error ends the connection. */
  datatype Outcome = Outcome(book: Book, err: bool)

  /** handlePuback and handlePubcomp on connection `c`. */
  function Acknowledge(b: Book, c: nat, id: nat, t: AckType): Outcome {
    if id in b.inflight then
      var r := Complete(b, c, id);
      if t.Puback? && b.inflight[id].qos2 then Outcome(r.0, true)
      else Outcome(if r.1 then Release(r.0, c) else r.0, false)
    else if id in b.withdrawn && b.withdrawn[id].owed == t then
      var less := b.(withdrawn := b.withdrawn - {id});
      Outcome(if b.withdrawn[id].quotaHolder == Some(c) then Release(less, c) else less, false)
    else if id in b.resent && b.resent[id].conn == c && b.resent[id].typ == t then
      var less := b.(resent := b.resent - {id});
      Outcome(if b.resent[id].quota then Release(less, c) else less, false)
    else Outcome(b, true)
  }

  function WithdrawalOf(b: Book, id: nat): Withdrawal
    requires id in b.inflight
  {
    Withdrawal(b.attaches, OwedAck(b.inflight[id]), if b.inflight[id].quotaHeld then Some(b.conn) else None)
  }

  /** One entry leaves the in-flight set and its identifier stays owed. */
  function WithdrawOne(b: Book, id: nat): Book
    requires id in b.inflight
  {
    b.(inflight := b.inflight - {id}, withdrawn := b.withdrawn[id := WithdrawalOf(b, id)])
  }

  /** A withdrawal the client has had two connections to settle. */
  predicate Stale(w: Withdrawal, attaches: nat) { attaches >= w.madeAt + 2 }

  function Unheld(inflight: map<nat, Outbound>): map<nat, Outbound> {
    map id | id in inflight :: inflight[id].(quotaHeld := false)
  }

  function Fresher(withdrawn: map<nat, Withdrawal>, attaches: nat): map<nat, Withdrawal> {
    map id | id in withdrawn && !Stale(withdrawn[id], attaches) :: withdrawn[id]
  }

  /** attach: a new quota, in which nothing holds a slot. */
  function Attach(b: Book): Book {
    Book(b.conn + 1, b.attaches + 1, Unheld(b.inflight), Fresher(b.withdrawn, b.attaches + 1), map[], 0, 0)
  }

  // ---------------------------------------------------------------- every step keeps the books

  lemma TrackKeeps(b: Book, id: nat, o: Outbound)
    requires OK(b) && b.untracked > 0 && 1 <= id <= MAX_ID && FreeId(b, id) && o.quotaHeld && o.resentOn.None?
    ensures OK(Track(b, id, o))
  {
    hide HeldIds, NamedIds, LeftIds;
    HeldWith(b.inflight, id, o);
  }

  /** A connection resends an entry once, before it prepares anything. */
  predicate NotYetResent(b: Book, id: nat) { id !in b.resent && (id in b.inflight ==> !b.inflight[id].quotaHeld) }

  lemma TakeSlotKeeps(b: Book, id: nat)
    requires OK(b) && b.untracked > 0 && NotYetResent(b, id)
    ensures OK(TakeSlot(b, id))
  {
    hide HeldIds, NamedIds, LeftIds;
    if id in b.inflight {
      HeldWith(b.inflight, id, b.inflight[id].(quotaHeld := true, resentOn := Some(b.conn)));
      LeftWith(b.resent, id, AckOwed(b.conn, OwedAck(b.inflight[id]), false, false));
    }
  }

  lemma MarkResentKeeps(b: Book, id: nat)
    requires OK(b) && NotYetResent(b, id)
    ensures OK(MarkResent(b, id))
  {
    hide HeldIds, NamedIds, LeftIds;
    if id in b.inflight {
      HeldWith(b.inflight, id, b.inflight[id].(resentOn := Some(b.conn)));
      LeftWith(b.resent, id, AckOwed(b.conn, OwedAck(b.inflight[id]), false, false));
    }
  }

  lemma MarkWrittenKeeps(b: Book, id: nat)
    requires OK(b)
    ensures OK(MarkWritten(b, id))
  {
    assert LeftIds(MarkWritten(b, id).resent) == LeftIds(b.resent);
  }

  lemma AwaitKeeps(b: Book, id: nat)
    requires OK(b)
    ensures OK(AwaitPubcomp(b, id))
  {
    assert HeldIds(AwaitPubcomp(b, id).inflight) == HeldIds(b.inflight);
  }

  lemma CompleteShape(b: Book, c: nat, id: nat)
    requires ShapeOK(b) && c <= b.conn && id in b.inflight
    ensures ShapeOK(Complete(b, c, id).0)
  {
  }

  /** A completed entry leaves the ledger short of exactly the slot it says is to go back. */
  lemma CompleteBalances(b: Book, c: nat, id: nat)
    requires OK(b) && c <= b.conn && id in b.inflight
    ensures var r := Complete(b, c, id);
            b.taken == Ledger(r.0) + (if r.1 then 1 else 0)
  {
    hide HeldIds, NamedIds, LeftIds;
    HeldWithout(b.inflight, id);
    if Overtakes(b, c, id) { LeftWith(b.resent, id, b.resent[id].(quota := true)); }
    if Displaced(b, c, id) { NamedWith(b.withdrawn, b.conn, id, Complete(b, c, id).0.withdrawn[id]); }
  }

  /** An acknowledgement on a displaced connection for something that holds a slot of this one and was not resent. */
  predicate Strands(b: Book, c: nat, id: nat, t: AckType) {
    && c != b.conn
    && if id in b.inflight then b.inflight[id].quotaHeld && b.inflight[id].resentOn.None?
       else id in b.withdrawn && b.withdrawn[id].owed == t && b.withdrawn[id].quotaHolder == Some(b.conn)
  }

  lemma AcknowledgeShape(b: Book, c: nat, id: nat, t: AckType)
    requires ShapeOK(b) && c <= b.conn
    ensures ShapeOK(Acknowledge(b, c, id, t).book)
  {
    if id in b.inflight { CompleteShape(b, c, id); }
  }

  /**
    An acknowledgement keeps the books exactly when it strands no slot. One that is an error ends the connection
    it came on, and with it the quota: on a displaced connection the session's own goes on.
   */
  lemma AcknowledgeExact(b: Book, c: nat, id: nat, t: AckType)
    requires OK(b) && c <= b.conn && (c != b.conn || !Acknowledge(b, c, id, t).err)
    ensures OK(Acknowledge(b, c, id, t).book) <==> !Strands(b, c, id, t)
  {
    hide HeldIds, NamedIds, LeftIds, IdsOK;
    AcknowledgeShape(b, c, id, t);
    if id in b.inflight {
      CompleteBalances(b, c, id);
    } else if id in b.withdrawn && b.withdrawn[id].owed == t {
      NamedWithout(b.withdrawn, b.conn, id);
    } else {
      LeftWithout(b.resent, id);
    }
  }

  /** A PUBLISH that was tracked and then not written, because it is too large. */
  function DiscardSend(b: Book, id: nat): Book
    requires id in b.inflight
  {
    Release(Complete(b, b.conn, id).0, b.conn)
  }

  lemma DiscardSendKeeps(b: Book, id: nat)
    requires OK(b) && id in b.inflight && b.inflight[id].quotaHeld && b.inflight[id].resentOn.None?
    ensures OK(DiscardSend(b, id))
  {
    hide HeldIds, NamedIds, LeftIds;
    CompleteShape(b, b.conn, id);
    CompleteBalances(b, b.conn, id);
  }

  /** A resend that takes a slot and is then not written: the exchange ends and the slot goes back, in one step. */
  function DiscardResend(b: Book, id: nat): Book
    requires id in b.inflight
  {
    var t := TakeSlot(b.(taken := b.taken + 1, untracked := b.untracked + 1), id);
    DiscardSend(t.(resent := t.resent - {id}), id)
  }

  lemma DiscardResendKeeps(b: Book, id: nat)
    requires OK(b) && id in b.inflight && NotYetResent(b, id)
    ensures OK(DiscardResend(b, id)) && DiscardResend(b, id).taken == b.taken
    ensures DiscardResend(b, id).inflight == b.inflight - {id}
  {
    hide HeldIds, NamedIds, LeftIds;
    var a := b.(taken := b.taken + 1, untracked := b.untracked + 1);
    TakeSlotKeeps(a, id);
    var t := TakeSlot(a, id);
    LeftWithout(t.resent, id);
    var u := t.(resent := t.resent - {id});
    assert u.inflight[id].quotaHeld;
    CompleteShape(u, u.conn, id);
    CompleteBalances(u, u.conn, id);
    assert u.inflight - {id} == b.inflight - {id};
  }

  lemma WithdrawKeeps(b: Book, id: nat)
    requires OK(b) && id in b.inflight
    ensures OK(WithdrawOne(b, id))
  {
    hide HeldIds, NamedIds, LeftIds;
    HeldWithout(b.inflight, id);
    NamedWith(b.withdrawn, b.conn, id, WithdrawalOf(b, id));
  }

  lemma AttachKeeps(b: Book)
    requires OK(b)
    ensures OK(Attach(b))
  {
    var a := Attach(b);
    assert HeldIds(a.inflight) == {} && LeftIds(a.resent) == {};
    assert NamedIds(a.withdrawn, a.conn) == {};
  }

  // ---------------------------------------------------------------- runs

  datatype Step =
    | TakeOne                            // a delivery or a resend takes a slot
    | GiveBack                           // ... and has nothing to send
    | TrackStep(id: nat, o: Outbound)
    | ResendPublish(id: nat) | ResendPubrel(id: nat) | Written(id: nat) | Pubrec(id: nat)
    | Ack(c: nat, id: nat, t: AckType)
    | TooLarge(id: nat) | ResendTooLarge(id: nat)
    | WithdrawStep(id: nat)
    | AttachStep

  predicate Can(b: Book, step: Step) {
    match step
    case TakeOne => true
    case GiveBack => b.untracked > 0
    case TrackStep(id, o) => b.untracked > 0 && 1 <= id <= MAX_ID && FreeId(b, id) && o.quotaHeld && o.resentOn.None?
    case ResendPublish(id) => b.untracked > 0 && NotYetResent(b, id)
    case ResendPubrel(id) => NotYetResent(b, id)
    case Written(_) => true
    case Pubrec(_) => true
    // The client acknowledges what was written to it, and a displaced connection reads nothing that strands a slot.
    case Ack(c, id, t) => c <= b.conn && !Strands(b, c, id, t) && (c != b.conn || !Acknowledge(b, c, id, t).err)
    case TooLarge(id) => id in b.inflight && b.inflight[id].quotaHeld && b.inflight[id].resentOn.None?
    case ResendTooLarge(id) => id in b.inflight && NotYetResent(b, id)
    case WithdrawStep(id) => id in b.inflight
    case AttachStep => true
  }

  function Do(b: Book, step: Step): Book
    requires Can(b, step)
  {
    match step
    case TakeOne => b.(taken := b.taken + 1, untracked := b.untracked + 1)
    case GiveBack => Release(b.(untracked := b.untracked - 1), b.conn)
    case TrackStep(id, o) => Track(b, id, o)
    case ResendPublish(id) => TakeSlot(b, id)
    case ResendPubrel(id) => MarkResent(b, id)
    case Written(id) => MarkWritten(b, id)
    case Pubrec(id) => AwaitPubcomp(b, id)
    case Ack(c, id, t) => Acknowledge(b, c, id, t).book
    case TooLarge(id) => DiscardSend(b, id)
    case ResendTooLarge(id) => DiscardResend(b, id)
    case WithdrawStep(id) => WithdrawOne(b, id)
    case AttachStep => Attach(b)
  }

  lemma StepKeeps(b: Book, step: Step)
    requires OK(b) && Can(b, step)
    ensures OK(Do(b, step))
  {
    hide HeldIds, NamedIds, LeftIds, Track, TakeSlot, MarkResent, MarkWritten, AwaitPubcomp, Acknowledge, DiscardSend;
    hide DiscardResend, WithdrawOne, Attach;
    match step
    case TakeOne =>
    case GiveBack =>
    case TrackStep(id, o) => TrackKeeps(b, id, o);
    case ResendPublish(id) => TakeSlotKeeps(b, id);
    case ResendPubrel(id) => MarkResentKeeps(b, id);
    case Written(id) => MarkWrittenKeeps(b, id);
    case Pubrec(id) => AwaitKeeps(b, id);
    case Ack(c, id, t) => AcknowledgeExact(b, c, id, t);
    case TooLarge(id) => DiscardSendKeeps(b, id);
    case ResendTooLarge(id) => DiscardResendKeeps(b, id);
    case WithdrawStep(id) => WithdrawKeeps(b, id);
    case AttachStep => AttachKeeps(b);
  }

  ghost predicate IsRun(run: seq<Book>, steps: seq<Step>) {
    && |run| == |steps| + 1
    && run[0] == Book(0, 0, map[], map[], map[], 0, 0)
    && forall i :: 0 <= i < |steps| ==> Can(run[i], steps[i]) && run[i + 1] == Do(run[i], steps[i])
  }

  /** In every run the slots taken are those accounted for, and no identifier is both in flight and withdrawn. */
  lemma {:induction false} EveryRunBalances(run: seq<Book>, steps: seq<Step>, i: nat)
    requires IsRun(run, steps) && i < |run|
    ensures OK(run[i]) && run[i].taken == Ledger(run[i]) && run[i].inflight.Keys !! run[i].withdrawn.Keys
    decreases i
  {
    hide Can, Do;
    if i == 0 {
      assert HeldIds(map[]) == {} && NamedIds(map[], 0) == {} && LeftIds(map[]) == {};
    } else {
      EveryRunBalances(run, steps, i - 1);
      hide HeldIds, NamedIds, LeftIds;
      StepKeeps(run[i - 1], steps[i - 1]);
    }
  }

  // ---------------------------------------------------------------- what an acknowledgement answers

  /** The session still expects this acknowledgement on connection `c`. */
  predicate Expected(b: Book, c: nat, id: nat, t: AckType) {
    if id in b.inflight then t.Pubcomp? || !b.inflight[id].qos2
    else OwesWithdrawn(b, id, t) || OwesCopy(b, c, id, t)
  }

  predicate OwesWithdrawn(b: Book, id: nat, t: AckType) { id in b.withdrawn && b.withdrawn[id].owed == t }

  predicate OwesCopy(b: Book, c: nat, id: nat, t: AckType) {
    id in b.resent && b.resent[id].conn == c && b.resent[id].typ == t
  }

  /** What the acknowledgement settles held a slot of `c`, and nothing keeps it. */
  predicate FreesSlot(b: Book, c: nat, id: nat, t: AckType) {
    if id in b.inflight then b.inflight[id].quotaHeld && !Overtakes(b, c, id) && !Displaced(b, c, id)
    else if OwesWithdrawn(b, id, t) then b.withdrawn[id].quotaHolder == Some(c)
    else OwesCopy(b, c, id, t) && b.resent[id].quota
  }

  /** The two maps are the same but for `id`. */
  ghost predicate SameBut<V>(m: map<nat, V>, n: map<nat, V>, id: nat) {
    forall i :: i != id ==> (i in m <==> i in n) && (i in m && i in n ==> m[i] == n[i])
  }

  /**
    An acknowledgement is an error exactly when the session does not expect it. It settles one thing: the entry in
    flight, else the withdrawn identifier, else the resent copy; every other identifier stays as it was.
   */
  lemma AcknowledgeAnswers(b: Book, c: nat, id: nat, t: AckType)
    ensures var r := Acknowledge(b, c, id, t);
            && (r.err <==> !Expected(b, c, id, t))
            && r.book.conn == b.conn && r.book.attaches == b.attaches && r.book.untracked == b.untracked
            && SameBut(b.inflight, r.book.inflight, id) && id !in r.book.inflight
            && SameBut(b.withdrawn, r.book.withdrawn, id) && SameBut(b.resent, r.book.resent, id)
            && (r.err && id !in b.inflight ==> r.book == b)
  {
  }

  /** The slot goes back exactly when what is settled held one of this connection's that nothing else keeps. */
  lemma AcknowledgeFrees(b: Book, c: nat, id: nat, t: AckType)
    ensures var freed := Expected(b, c, id, t) && FreesSlot(b, c, id, t) && c == b.conn && b.taken > 0;
            Acknowledge(b, c, id, t).book.taken == b.taken - (if freed then 1 else 0)
  {
  }

  /**
    The identifier of a completed entry is free again, unless another connection resent it: then its own copy is
    still to be acknowledged, with the slot it holds. A copy that was not written yet keeps the slot.
   */
  lemma CompletedLeaves(b: Book, c: nat, id: nat, t: AckType)
    requires id in b.inflight
    ensures var after, o := Acknowledge(b, c, id, t).book, b.inflight[id];
            && (Displaced(b, c, id) ==>
                  id in after.withdrawn && after.withdrawn[id].madeAt == b.attaches
                  && after.withdrawn[id].owed == OwedAck(o)
                  && after.withdrawn[id].quotaHolder == (if o.quotaHeld then o.resentOn else None))
            && (!Displaced(b, c, id) ==> after.withdrawn == b.withdrawn)
            && (id in after.resent <==> id in b.resent)
            && (id in b.resent ==>
                  && after.resent[id].quota == (b.resent[id].quota || Overtakes(b, c, id))
                  && after.resent[id] == b.resent[id].(quota := after.resent[id].quota))
  {
  }

  /** A settled withdrawal or copy is forgotten, and the other of the two is not. */
  lemma SettledLeaves(b: Book, c: nat, id: nat, t: AckType)
    requires id !in b.inflight
    ensures var after := Acknowledge(b, c, id, t).book;
            && (id in after.withdrawn <==> id in b.withdrawn && !OwesWithdrawn(b, id, t))
            && (id in after.resent <==> id in b.resent && (OwesWithdrawn(b, id, t) || !OwesCopy(b, c, id, t)))
            && (id in after.withdrawn ==> after.withdrawn[id] == b.withdrawn[id])
            && (id in after.resent ==> after.resent[id] == b.resent[id])
  {
  }

  // ---------------------------------------------------------------- whole exchanges

  /** A message sent and acknowledged on its connection leaves the books as they were. */
  lemma SendAndAck(b: Book, id: nat, o: Outbound)
    requires FreeId(b, id) && o.quotaHeld && o.resentOn.None?
    ensures var sent := Track(b.(taken := b.taken + 1, untracked := b.untracked + 1), id, o);
            Acknowledge(sent, b.conn, id, OwedAck(o)) == Outcome(b, false)
  {
    assert b.inflight[id := o] - {id} == b.inflight;
  }

  /** One that turns out too large leaves them as they were too, and so does a slot taken for nothing. */
  lemma SendAndDiscard(b: Book, id: nat, o: Outbound)
    requires FreeId(b, id) && o.quotaHeld && o.resentOn.None?
    ensures var taken := b.(taken := b.taken + 1, untracked := b.untracked + 1);
            && DiscardSend(Track(taken, id, o), id) == b
            && Do(Do(b, TakeOne), GiveBack) == b
  {
    assert b.inflight[id := o] - {id} == b.inflight;
  }

  /** The copy of an entry in flight goes out: a slot is taken for it, and it is written. */
  function Resent(b: Book, id: nat, written: bool): Book
    requires id in b.inflight
  {
    var t := TakeSlot(b.(taken := b.taken + 1, untracked := b.untracked + 1), id);
    if written then MarkWritten(t, id) else t
  }

  lemma ResentIs(b: Book, id: nat, written: bool)
    requires id in b.inflight
    ensures var o := b.inflight[id].(quotaHeld := true, resentOn := Some(b.conn));
            Resent(b, id, written) == b.(inflight := b.inflight[id := o], taken := b.taken + 1,
                                         resent := b.resent[id := AckOwed(b.conn, OwedAck(o), written, false)])
  {
    var r := AckOwed(b.conn, OwedAck(b.inflight[id]), false, false);
    assert b.resent[id := r][id := r.(written := true)] == b.resent[id := r.(written := true)];
  }

  /** What is left of it after the first acknowledgement: the copy, with the slot if it was overtaken. */
  lemma FirstAck(b: Book, id: nat, written: bool)
    requires id in b.inflight && id !in b.withdrawn
    ensures var t := OwedAck(b.inflight[id]);
            var r := AckOwed(b.conn, t, written, !written);
            Acknowledge(Resent(b, id, written), b.conn, id, t) ==
            Outcome(b.(inflight := b.inflight - {id}, resent := b.resent[id := r],
                       taken := b.taken + (if written then 0 else 1)), false)
  {
    hide Resent;
    ResentIs(b, id, written);
    var o := b.inflight[id].(quotaHeld := true, resentOn := Some(b.conn));
    var r := AckOwed(b.conn, OwedAck(o), written, false);
    assert b.inflight[id := o] - {id} == b.inflight - {id};
    assert b.resent[id := r][id := r.(quota := true)] == b.resent[id := r.(quota := true)];
  }

  /**
    A message resent on a new connection may be acknowledged twice, for the original and for the copy. Both are
    expected, the entry is gone after the first, and after the second the books are as they were without the entry;
    the slot goes back with the first, or with the second when the first overtook the copy.
   */
  lemma ResendAndAcks(b: Book, id: nat, written: bool)
    requires id in b.inflight && id !in b.withdrawn && NotYetResent(b, id)
    ensures var t := OwedAck(b.inflight[id]);
            var first := Acknowledge(Resent(b, id, written), b.conn, id, t);
            var second := Acknowledge(first.book, b.conn, id, t);
            && !first.err && id !in first.book.inflight && first.book.taken == b.taken + (if written then 0 else 1)
            && second == Outcome(b.(inflight := b.inflight - {id}), false)
  {
    hide Resent;
    FirstAck(b, id, written);
    var r := AckOwed(b.conn, OwedAck(b.inflight[id]), written, !written);
    assert b.resent[id := r] - {id} == b.resent;
  }

  /** So may a PUBREL that is repeated, which costs no slot. */
  lemma RepeatAndAcks(b: Book, id: nat)
    requires id in b.inflight && id !in b.withdrawn && NotYetResent(b, id) && b.inflight[id].qos2
    ensures var first := Acknowledge(MarkResent(b, id), b.conn, id, Pubcomp);
            var second := Acknowledge(first.book, b.conn, id, Pubcomp);
            !first.err && id !in first.book.inflight && second == Outcome(b.(inflight := b.inflight - {id}), false)
  {
    var o := b.inflight[id].(resentOn := Some(b.conn));
    assert b.inflight[id := o] - {id} == b.inflight - {id};
    var r := AckOwed(b.conn, Pubcomp, false, false);
    assert b.resent[id := r] - {id} == b.resent;
  }

  /** A withdrawn message is still to be acknowledged, and the acknowledgement returns its slot. */
  lemma WithdrawAndAck(b: Book, id: nat)
    requires OK(b) && id in b.inflight
    ensures var o := b.inflight[id];
            var after := Acknowledge(WithdrawOne(b, id), b.conn, id, OwedAck(o));
            && !after.err && after.book.taken == b.taken - (if o.quotaHeld then 1 else 0)
            && after.book == b.(inflight := b.inflight - {id}, taken := after.book.taken)
  {
    hide NamedIds, LeftIds;
    HeldWithout(b.inflight, id);
    assert b.withdrawn[id := WithdrawalOf(b, id)] - {id} == b.withdrawn;
  }

  /** Past its PUBREC the client owns the message: nothing takes it back. */
  lemma PubrecOwns(b: Book, id: nat, denied: seq<string>, surviving: seq<string>)
    requires id in b.inflight
    ensures var after := AwaitPubcomp(b, id);
            && id in after.inflight && !TakenBack(after.inflight[id], denied, surviving)
            && SameBut(b.inflight, after.inflight, id) && after == b.(inflight := after.inflight)
            && after.inflight[id].(awaitingPubcomp := false) == b.inflight[id].(awaitingPubcomp := false)
  {
  }

  /**
    What a subscription that still stands matches stays the session's, and so does what no denied filter matches; any
    other message the client does not own yet is taken back.
   */
  lemma TakenBackAnswers(o: Outbound, denied: seq<string>, surviving: seq<string>, i: nat)
    ensures i < |surviving| && Matches(surviving[i], o.topic) ==> !TakenBack(o, denied, surviving)
    ensures (forall k :: 0 <= k < |denied| ==> !Matches(denied[k], o.topic)) ==> !TakenBack(o, denied, surviving)
    ensures !o.awaitingPubcomp && i < |denied| && Matches(denied[i], o.topic) ==>
              (forall k :: 0 <= k < |surviving| ==> !Matches(surviving[k], o.topic)) ==>
                TakenBack(o, denied, surviving)
  {
    hide Matches;
  }

  /**
    Over a new connection every exchange stays in flight, holding no slot. A withdrawal made now is still owed on
    the next connection, and forgotten with the one after that.
   */
  lemma AttachAnswers(b: Book, id: nat)
    ensures var a := Attach(b);
            && a.conn == b.conn + 1 && a.taken == 0 && a.untracked == 0 && a.resent == map[]
            && (id in a.inflight <==> id in b.inflight)
            && (id in b.inflight ==> a.inflight[id] == b.inflight[id].(quotaHeld := false))
            && (id in a.withdrawn <==> id in b.withdrawn && b.withdrawn[id].madeAt >= b.attaches)
            && (id in a.withdrawn ==> a.withdrawn[id] == b.withdrawn[id])
            && (id in b.withdrawn && b.withdrawn[id].madeAt == b.attaches ==>
                  id in a.withdrawn && id !in Attach(a).withdrawn)
  {
  }

  // ---------------------------------------------------------------- where the books are lost

  function Plain(quotaHeld: bool, resentOn: Option<nat>): Outbound {
    Outbound(false, false, quotaHeld, resentOn, "", false, 0)
  }

  /** A message tracked with identifier 7 on the session's second connection. */
  function Reused(o: Outbound): Book { Book(1, 1, map[7 := o], map[], map[], 1, 0) }

  lemma ReusedIsReached(o: Outbound)
    requires o.quotaHeld && o.resentOn.None?
    ensures var a := Do(Book(0, 0, map[], map[], map[], 0, 0), AttachStep);
            && Can(a, TakeOne) && Can(Do(a, TakeOne), TrackStep(7, o))
            && Do(Do(a, TakeOne), TrackStep(7, o)) == Reused(o)
  {
    var a := Do(Book(0, 0, map[], map[], map[], 0, 0), AttachStep);
    assert a == Book(1, 1, map[], map[], map[], 0, 0);
    assert Do(a, TakeOne).inflight[7 := o] == map[7 := o];
  }

  /**
    A PUBACK read late on a displaced connection completes an identifier that was given to a new message on
    this one: the slot goes back to the connection that is gone, and this one never gets it back. When the new
    message is a QoS 2 one the PUBACK is an error too, which ends only the connection that is gone.
   */
  lemma LateAckStrandsSlot(qos2: bool) returns (b: Book)
    ensures exists o :: b == Reused(o) && o.qos2 == qos2 && o.quotaHeld && o.resentOn.None?
    ensures OK(b) && Strands(b, 0, 7, Puback) && Acknowledge(b, 0, 7, Puback).err == qos2
    ensures var after := Acknowledge(b, 0, 7, Puback).book; after.taken == 1 && Ledger(after) == 0
  {
    b := Reused(Plain(true, None).(qos2 := qos2));
    assert HeldIds(b.inflight) == {7} && NamedIds(b.withdrawn, 1) == {} && LeftIds(b.resent) == {};
    var after := Acknowledge(b, 0, 7, Puback).book;
    assert after.inflight == map[] && HeldIds(after.inflight) == {};
  }

  datatype StoredWithdrawn = StoredWithdrawn(id: nat, owed: AckType, age: nat)

  /** restoreWithdrawn: it runs before the in-flight entries are put back. */
  function RestoreWithdrawn(inflight: map<nat, Outbound>, withdrawn: map<nat, Withdrawal>,
                            ws: seq<StoredWithdrawn>): map<nat, Withdrawal>
    decreases |ws|
  {
    if ws == [] then withdrawn
    else
      var w := ws[0];
      var next := if w.age >= 2 || w.id in inflight then withdrawn
        else withdrawn[w.id := Withdrawal(2 - w.age, w.owed, None)];
      RestoreWithdrawn(inflight, next, ws[1..])
  }

  lemma {:induction false} RestoredIds(inflight: map<nat, Outbound>, withdrawn: map<nat, Withdrawal>,
                                       ws: seq<StoredWithdrawn>, id: nat)
    ensures id in RestoreWithdrawn(inflight, withdrawn, ws) <==>
            id in withdrawn || (id !in inflight && exists i :: 0 <= i < |ws| && ws[i].id == id && ws[i].age < 2)
    decreases |ws|
  {
    if ws != [] {
      var w := ws[0];
      var next := if w.age >= 2 || w.id in inflight then withdrawn
        else withdrawn[w.id := Withdrawal(2 - w.age, w.owed, None)];
      RestoredIds(inflight, next, ws[1..], id);
      if id !in inflight && exists i :: 0 <= i < |ws| && ws[i].id == id && ws[i].age < 2 {
        var i :| 0 <= i < |ws| && ws[i].id == id && ws[i].age < 2;
        if i > 0 { assert ws[1..][i - 1] == ws[i]; }
      }
      if exists i :: 0 <= i < |ws[1..]| && ws[1..][i].id == id && ws[1..][i].age < 2 {
        var i :| 0 <= i < |ws[1..]| && ws[1..][i].id == id && ws[1..][i].age < 2;
        assert ws[i + 1] == ws[1..][i];
      }
    }
  }

  /**
    A restored withdrawal owes what it did, and is forgotten after as many connections as it had left: the session
    starts at an attach count of 2.
   */
  lemma {:induction false} RestoredOwes(inflight: map<nat, Outbound>, withdrawn: map<nat, Withdrawal>,
                                        ws: seq<StoredWithdrawn>, i: nat, n: nat)
    requires i < |ws| && ws[i].age < 2 && ws[i].id !in inflight
    requires forall j, k :: 0 <= j < k < |ws| ==> ws[j].id != ws[k].id
    ensures var after := RestoreWithdrawn(inflight, withdrawn, ws);
            && ws[i].id in after && after[ws[i].id].owed == ws[i].owed && after[ws[i].id].quotaHolder.None?
            && (Stale(after[ws[i].id], 2 + n) <==> n + ws[i].age >= 2)
    decreases |ws|
  {
    var w := ws[0];
    var next := if w.age >= 2 || w.id in inflight then withdrawn
      else withdrawn[w.id := Withdrawal(2 - w.age, w.owed, None)];
    if i > 0 {
      assert ws[i] == ws[1..][i - 1];
      RestoredOwes(inflight, next, ws[1..], i - 1, n);
    } else {
      RestoredOther(inflight, next, ws[1..], w.id);
    }
  }

  lemma {:induction false} RestoredOther(inflight: map<nat, Outbound>, withdrawn: map<nat, Withdrawal>,
                                         ws: seq<StoredWithdrawn>, id: nat)
    requires id in withdrawn && forall j :: 0 <= j < |ws| ==> ws[j].id != id
    ensures id in RestoreWithdrawn(inflight, withdrawn, ws)
    ensures RestoreWithdrawn(inflight, withdrawn, ws)[id] == withdrawn[id]
    decreases |ws|
  {
    if ws != [] {
      var w := ws[0];
      RestoredOther(inflight, if w.age >= 2 || w.id in inflight then withdrawn
                    else withdrawn[w.id := Withdrawal(2 - w.age, w.owed, None)], ws[1..], id);
    }
  }

  /**
    A record can name an identifier both as withdrawn and in flight, because a write takes the two at different
    moments. A restored session keeps them apart exactly when the record does.
   */
  lemma RestoreExact(ws: seq<StoredWithdrawn>, inflight: map<nat, Outbound>)
    ensures RestoreWithdrawn(map[], map[], ws).Keys !! inflight.Keys <==>
            forall i :: 0 <= i < |ws| && ws[i].age < 2 ==> ws[i].id !in inflight
  {
    forall id
      ensures id in RestoreWithdrawn(map[], map[], ws) <==> exists i :: 0 <= i < |ws| && ws[i].id == id && ws[i].age < 2
    {
      RestoredIds(map[], map[], ws, id);
    }
    if forall i :: 0 <= i < |ws| && ws[i].age < 2 ==> ws[i].id !in inflight {
      assert RestoreWithdrawn(map[], map[], ws).Keys !! inflight.Keys;
    } else {
      var i :| 0 <= i < |ws| && ws[i].age < 2 && ws[i].id in inflight;
      assert ws[i].id in RestoreWithdrawn(map[], map[], ws);
    }
  }

  /** withdrawnLocked: the identifiers withdrawn now, with the connections they have outlived. */
  ghost predicate Stored(ws: seq<StoredWithdrawn>, b: Book) {
    && (forall w :: w in ws ==> w.id in b.withdrawn)
    && (forall id :: id in b.withdrawn && b.withdrawn[id].madeAt <= b.attaches ==>
          StoredWithdrawn(id, b.withdrawn[id].owed, b.attaches - b.withdrawn[id].madeAt) in ws)
  }

  /**
    How a record comes to name an identifier twice. A write copies the withdrawn identifiers first and the
    exchanges in flight later; when the client settles one in between and it is given to a new message, the
    record holds both, and so does the session restored from it.
   */
  lemma RecordNamesTwice(b: Book, id: nat, o: Outbound, ws: seq<StoredWithdrawn>)
    requires OK(b) && id in b.withdrawn && !Stale(b.withdrawn[id], b.attaches) && Stored(ws, b)
    requires o.quotaHeld && o.resentOn.None?
    ensures var settled := Ack(b.conn, id, b.withdrawn[id].owed);
            && Can(b, settled) && Can(Do(b, settled), TakeOne) && Can(Do(Do(b, settled), TakeOne), TrackStep(id, o))
            && var later := Do(Do(Do(b, settled), TakeOne), TrackStep(id, o));
            && later.inflight == b.inflight[id := o] && id !in later.withdrawn
            && id in RestoreWithdrawn(map[], map[], ws) && id in later.inflight
  {
    hide HeldIds, NamedIds, LeftIds;
    var w := b.withdrawn[id];
    assert StoredWithdrawn(id, w.owed, b.attaches - w.madeAt) in ws;
    RestoredIds(map[], map[], ws, id);
  }
}
