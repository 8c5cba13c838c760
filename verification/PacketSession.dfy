/**
  The session object the Packet Identifiers live in (session.go): its maps are changed in place, one entry at a
  time, and each method is proved to do what the function of `Exchanges` with its name says.
 */
module PacketSession {
  import opened Topics
  import opened Exchanges

  /** The identifier `k` places after the last one tried; they wrap from 65535 to 1. */
  function After(last: nat, k: nat): nat
    requires last <= MAX_ID
  {
    if k == 0 then last else (last + k - 1) % MAX_ID + 1
  }

  lemma AfterNext(last: nat, k: nat)
    requires last <= MAX_ID
    ensures After(last, k + 1) == if After(last, k) == MAX_ID then 1 else After(last, k) + 1
  {
    if k > 0 {
      var x := last + k - 1;
      assert last + (k + 1) - 1 == x + 1;
      assert (x + 1) % MAX_ID == if x % MAX_ID == MAX_ID - 1 then 0 else x % MAX_ID + 1;
    }
  }

  /** Trying 65535 identifiers in a row tries each of them. */
  lemma AllTried(last: nat, id: nat) returns (k: nat)
    requires last <= MAX_ID && 1 <= id <= MAX_ID
    ensures 1 <= k <= MAX_ID && After(last, k) == id
  {
    if id > last {
      k := id - last;
      assert (last + k - 1) % MAX_ID == id - 1;
    } else {
      k := id - last + MAX_ID;
      assert (last + k - 1) % MAX_ID == (id - 1 + MAX_ID) % MAX_ID == id - 1;
    }
  }

  /** The entry held past its limit is no longer the session's. */
  predicate HeldTooLong(o: Outbound, now: nat, limit: nat) {
    o.backlog && limit > 0 && !o.awaitingPubcomp && o.heldSince != 0 && now >= o.heldSince + limit
  }

  /**
    A limit of 0 holds a message for ever. Otherwise one of a group's backlog goes back once it has been held for the
    limit, and not before, unless the client owns it.
   */
  lemma HeldAnswers(o: Outbound, now: nat, limit: nat)
    ensures limit == 0 || !o.backlog || o.awaitingPubcomp ==> !HeldTooLong(o, now, limit)
    ensures limit > 0 && o.backlog && !o.awaitingPubcomp && o.heldSince != 0 ==>
              (HeldTooLong(o, o.heldSince + limit, limit) && !HeldTooLong(o, o.heldSince + limit - 1, limit))
    ensures now > 0 && HeldTooLong(o, now, limit) ==> HeldTooLong(o, now + 1, limit)
  {
  }

  /** The entries an authorisation change takes back. */
  function PickedBack(inflight: map<nat, Outbound>, denied: seq<string>, surviving: seq<string>): set<nat> {
    set id | id in inflight && TakenBack(inflight[id], denied, surviving)
  }

  lemma PickedBackIn(inflight: map<nat, Outbound>, denied: seq<string>, surviving: seq<string>)
    ensures PickedBack(inflight, denied, surviving) <= inflight.Keys
    ensures forall id :: id in inflight ==>
            (id in PickedBack(inflight, denied, surviving) <==> TakenBack(inflight[id], denied, surviving))
  {
    hide TakenBack;
  }

  /** The entries whose backlog message goes back to the group. */
  function PickedHeld(inflight: map<nat, Outbound>, now: nat, limit: nat): set<nat> {
    set id | id in inflight && HeldTooLong(inflight[id], now, limit)
  }

  lemma PickedHeldIn(inflight: map<nat, Outbound>, now: nat, limit: nat)
    ensures PickedHeld(inflight, now, limit) <= inflight.Keys
    ensures forall id :: id in inflight ==>
            (id in PickedHeld(inflight, now, limit) <==> HeldTooLong(inflight[id], now, limit))
  {
    hide HeldTooLong;
  }

  lemma DiffMore(pick: set<nat>, todo: set<nat>, id: nat)
    requires id in todo
    ensures pick - (todo - {id}) == if id in pick then pick - todo + {id} else pick - todo
  {
  }

  class Session {
    var conn: nat
    var attaches: nat
    var nextPacketID: nat
    var inflight: map<nat, Outbound>
    var withdrawn: map<nat, Withdrawal>
    var resent: map<nat, AckOwed>
    var taken: nat
    var untracked: nat

    constructor ()
      ensures Value() == Book(0, 0, map[], map[], map[], 0, 0) && nextPacketID == 0
    {
      conn, attaches, nextPacketID, taken, untracked := 0, 0, 0, 0, 0;
      inflight, withdrawn, resent := map[], map[], map[];
    }

    function Value(): Book
      reads this
    {
      Book(conn, attaches, inflight, withdrawn, resent, taken, untracked)
    }

    /**
      Allocates the first identifier after the last that is neither in flight nor withdrawn, and fails only
      when all 65535 are one or the other.
     */
    method NextID() returns (id: nat, ok: bool)
      requires nextPacketID <= MAX_ID
      modifies this`nextPacketID
      ensures nextPacketID <= MAX_ID
      ensures ok <==> exists i :: 1 <= i <= MAX_ID && FreeId(Value(), i)
      ensures ok ==> 1 <= id <= MAX_ID && FreeId(Value(), id) && nextPacketID == id
      ensures ok ==> exists k :: 1 <= k <= MAX_ID && id == After(old(nextPacketID), k)
                                 && forall j :: 1 <= j < k ==> !FreeId(Value(), After(old(nextPacketID), j))
    {
      ghost var last := nextPacketID;
      var i := 0;
      while i < MAX_ID
        invariant i <= MAX_ID && nextPacketID <= MAX_ID
        invariant nextPacketID == After(last, i)
        invariant forall j :: 1 <= j <= i ==> !FreeId(Value(), After(last, j))
      {
        AfterNext(last, i);
        nextPacketID := nextPacketID + 1;
        if nextPacketID == MAX_ID + 1 { nextPacketID := 1; }
        i := i + 1;
        if nextPacketID !in inflight && nextPacketID !in withdrawn {
          assert FreeId(Value(), nextPacketID);
          return nextPacketID, true;
        }
      }
      forall id | 1 <= id <= MAX_ID ensures !FreeId(Value(), id) { var k := AllTried(last, id); }
      return 0, false;
    }

    method CompleteInflight(c: nat, id: nat) returns (found: bool, qos2: bool, slot: bool)
      modifies this`inflight, this`withdrawn, this`resent
      ensures found == (id in old(inflight))
      ensures !found ==> Value() == old(Value())
      ensures found ==> (Value(), slot) == Complete(old(Value()), c, id) && qos2 == old(inflight)[id].qos2
    {
      if id !in inflight { return false, false, false; }
      var o := inflight[id];
      inflight := inflight - {id};
      slot := o.quotaHeld;
      if id in resent && resent[id].conn == c && !resent[id].written && !resent[id].quota && o.quotaHeld
        && o.resentOn == Some(c) {
        resent := resent[id := resent[id].(quota := true)];
        slot := false;
      }
      if o.resentOn.Some? && o.resentOn.value != c {
        withdrawn := withdrawn[id := Withdrawal(attaches, OwedAck(o), if o.quotaHeld then o.resentOn else None)];
        slot := false;
      }
      return true, o.qos2, slot;
    }

    /** A receive from the quota that does not block; only this connection's quota is modelled. */
    method ReleaseQuota(c: nat)
      modifies this`taken
      ensures Value() == Release(old(Value()), c)
    {
      if c == conn && taken > 0 { taken := taken - 1; }
    }

    /** handlePuback (`t` Puback) and handlePubcomp (`t` Pubcomp). */
    method HandleAck(c: nat, id: nat, t: AckType) returns (err: bool)
      modifies this
      ensures Outcome(Value(), err) == Acknowledge(old(Value()), c, id, t)
    {
      var found, qos2, slot := CompleteInflight(c, id);
      if !found {
        if id in withdrawn && withdrawn[id].owed == t {
          var w := withdrawn[id];
          withdrawn := withdrawn - {id};
          if w.quotaHolder == Some(c) { ReleaseQuota(c); }
          return false;
        }
        if id in resent && resent[id].conn == c && resent[id].typ == t {
          var quota := resent[id].quota;
          resent := resent - {id};
          if quota { ReleaseQuota(c); }
          return false;
        }
        return true;
      }
      if t.Puback? && qos2 { return true; }
      if slot { ReleaseQuota(c); }
      return false;
    }

    method Withdraw(id: nat)
      requires id in inflight
      modifies this`inflight, this`withdrawn
      ensures Value() == WithdrawOne(old(Value()), id)
    {
      var w := Withdrawal(attaches, OwedAck(inflight[id]), if inflight[id].quotaHeld then Some(conn) else None);
      inflight := inflight - {id};
      withdrawn := withdrawn[id := w];
    }

    /** withdrawInflightLocked: exactly the entries a denied filter earned are taken back, and each stays owed. */
    method WithdrawInflight(denied: seq<string>, surviving: seq<string>) returns (ids: set<nat>)
      requires OK(Value())
      modifies this`inflight, this`withdrawn
      ensures OK(Value())
      ensures ids == PickedBack(old(inflight), denied, surviving)
      ensures inflight == old(inflight) - ids
      ensures withdrawn.Keys == old(withdrawn).Keys + ids
    {
      hide Taking, TakenBack, OK, WithdrawOne, PickedBack;
      ghost var before := Value();
      ghost var pick := PickedBack(inflight, denied, surviving);
      PickedBackIn(inflight, denied, surviving);
      ids := {};
      var todo := inflight.Keys;
      TakingBegins(before, pick);
      while todo != {}
        invariant Taking(before, Value(), pick, todo) && todo <= before.inflight.Keys
        invariant ids == pick - todo
        decreases |todo|
      {
        var id :| id in todo;
        TakingStep(before, Value(), pick, todo, id);
        DiffMore(pick, todo, id);
        todo := todo - {id};
        if TakenBack(inflight[id], denied, surviving) {
          Withdraw(id);
          ids := ids + {id};
        }
      }
      TakingEnds(before, Value(), pick);
    }

    /** Of the entries of `before`, those in `pick` and not in `todo` have been withdrawn. */
    static ghost predicate Taking(before: Book, b: Book, pick: set<nat>, todo: set<nat>) {
      && OK(b) && pick <= before.inflight.Keys && b == before.(inflight := b.inflight, withdrawn := b.withdrawn)
      && b.inflight == before.inflight - (pick - todo)
      && b.withdrawn.Keys == before.withdrawn.Keys + (pick - todo)
    }

    static lemma TakingBegins(before: Book, pick: set<nat>)
      requires OK(before) && pick <= before.inflight.Keys
      ensures Taking(before, before, pick, before.inflight.Keys)
    {
      hide OK;
      assert pick - before.inflight.Keys == {};
      assert before.inflight - {} == before.inflight;
    }

    static lemma TakingStep(before: Book, b: Book, pick: set<nat>, todo: set<nat>, id: nat)
      requires Taking(before, b, pick, todo) && id in todo && id in before.inflight
      ensures id in b.inflight && b.inflight[id] == before.inflight[id]
      ensures Taking(before, if id in pick then WithdrawOne(b, id) else b, pick, todo - {id})
    {
      hide OK;
      if id in pick {
        WithdrawKeeps(b, id);
        assert pick - (todo - {id}) == (pick - todo) + {id};
      } else {
        assert pick - (todo - {id}) == pick - todo;
      }
    }

    static lemma TakingEnds(before: Book, b: Book, pick: set<nat>)
      requires Taking(before, b, pick, {})
      ensures OK(b) && b.inflight == before.inflight - pick && b.withdrawn.Keys == before.withdrawn.Keys + pick
    {
      hide OK;
      assert pick - {} == pick;
    }

    /**
      heldSubjects: backlog messages held past the limit go back to the group, and their identifiers stay owed.
      An entry seen for the first time starts being held now, which is never past the limit.
     */
    method HeldSubjects(now: nat, limit: nat) returns (expired: set<nat>)
      requires OK(Value()) && now > 0
      modifies this`inflight, this`withdrawn
      ensures OK(Value())
      ensures expired == PickedHeld(old(inflight), now, limit)
      ensures inflight == Holding(old(inflight), now) - expired && withdrawn.Keys == old(withdrawn).Keys + expired
    {
      hide Taking, OK, HeldTooLong, WithdrawOne, Holding, Held, PickedHeld;
      ghost var before := Value().(inflight := Holding(inflight, now));
      ghost var pick := PickedHeld(inflight, now, limit);
      PickedHeldIn(inflight, now, limit);
      HoldingKeys(inflight, now);
      StartHolding(now);
      expired := {};
      var todo := inflight.Keys;
      TakingBegins(before, pick);
      while todo != {}
        invariant Taking(before, Value(), pick, todo) && todo <= before.inflight.Keys
        invariant expired == pick - todo
        decreases |todo|
      {
        var id :| id in todo;
        TakingStep(before, Value(), pick, todo, id);
        DiffMore(pick, todo, id);
        todo := todo - {id};
        HeldNow(old(inflight), id, now, limit);
        if inflight[id].backlog && limit > 0 && now >= inflight[id].heldSince + limit && !inflight[id].awaitingPubcomp {
          Withdraw(id);
          expired := expired + {id};
        }
      }
      TakingEnds(before, Value(), pick);
    }

    static function Held(o: Outbound, now: nat): Outbound {
      if o.backlog && o.heldSince == 0 then o.(heldSince := now) else o
    }

    static function Holding(inflight: map<nat, Outbound>, now: nat): map<nat, Outbound> {
      map id | id in inflight :: Held(inflight[id], now)
    }

    static lemma HeldNow(inflight: map<nat, Outbound>, id: nat, now: nat, limit: nat)
      requires now > 0 && id in Holding(inflight, now)
      ensures id in inflight
      ensures var o := Holding(inflight, now)[id];
              HeldTooLong(inflight[id], now, limit) <==>
                o.backlog && limit > 0 && now >= o.heldSince + limit && !o.awaitingPubcomp
    {
    }

    static lemma HoldingKeys(inflight: map<nat, Outbound>, now: nat)
      ensures Holding(inflight, now).Keys == inflight.Keys
    {
    }

    method StartHolding(now: nat)
      requires OK(Value())
      modifies this`inflight
      ensures OK(Value()) && inflight == Holding(old(inflight), now)
    {
      ghost var before := inflight;
      var todo := inflight.Keys;
      while todo != {}
        invariant todo <= inflight.Keys == before.Keys
        invariant forall id :: id in inflight ==>
                  inflight[id] == if id in todo then before[id] else Held(before[id], now)
        decreases |todo|
      {
        var id :| id in todo;
        if inflight[id].backlog && inflight[id].heldSince == 0 {
          inflight := inflight[id := inflight[id].(heldSince := now)];
        }
        todo := todo - {id};
      }
      assert inflight == Holding(before, now);
      HoldingKeeps(old(Value()), now);
    }

    static lemma HoldingKeeps(b: Book, now: nat)
      requires OK(b)
      ensures OK(b.(inflight := Holding(b.inflight, now)))
    {
      assert HeldIds(Holding(b.inflight, now)) == HeldIds(b.inflight);
    }

    /** attach: every entry's claim on the quota is cleared, and stale withdrawals are forgotten. */
    method AttachConn()
      modifies this
      ensures Value() == Attach(old(Value()))
    {
      ClearSlots();
      conn, taken, untracked, resent := conn + 1, 0, 0, map[];
      attaches := attaches + 1;
      ForgetStale();
    }

    method ClearSlots()
      modifies this`inflight
      ensures inflight == Unheld(old(inflight))
    {
      var todo := inflight.Keys;
      while todo != {}
        invariant todo <= inflight.Keys == old(inflight).Keys
        invariant forall id :: id in inflight ==>
                    inflight[id] == if id in todo then old(inflight)[id] else old(inflight)[id].(quotaHeld := false)
        decreases |todo|
      {
        var id :| id in todo;
        inflight := inflight[id := inflight[id].(quotaHeld := false)];
        todo := todo - {id};
      }
    }

    method ForgetStale()
      modifies this`withdrawn
      ensures withdrawn == Fresher(old(withdrawn), attaches)
    {
      ghost var before := withdrawn;
      var todo := withdrawn.Keys;
      while todo != {}
        invariant todo <= withdrawn.Keys <= before.Keys
        invariant forall id :: id in withdrawn ==> withdrawn[id] == before[id]
        invariant forall id :: id in before && id !in todo ==> (id in withdrawn <==> !Stale(before[id], attaches))
        decreases |todo|
      {
        var id :| id in todo;
        todo := todo - {id};
        if Stale(withdrawn[id], attaches) { withdrawn := withdrawn - {id}; }
      }
    }
  }
}
