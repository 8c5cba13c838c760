/**
  That QoS 2 exchanges get done: from every state the invariants hold of, a message not yet sent can be delivered and
  its exchange completed, and so can one that a new connection or a new broker finds under way. The runs use only steps
  of the code and of a client that answers.
 */
module Qos2Progress {
  import opened Topics
  import opened Qos2
  import opened Qos2Safety
  import opened Qos2Receipts
  import opened Qos2Limits

  // ---------------------------------------------------------------- the second half of an exchange

  /** The exchange with `id` is over: nothing of it is left in memory, on the connection or with the client. */
  ghost predicate Over(s: State, id: nat, m: nat) {
    && s.mem.Some? && id !in s.mem.value.inflight && id !in s.mem.value.withdrawn && id !in s.tok
    && id !in s.book.held && m in s.book.closed && m in s.book.accepted
  }

  /** Nothing but the exchange with `id` has changed, and what was recorded. */
  ghost predicate OnlyThis(s: State, t: State, id: nat) {
    && s.mem.Some? && t.mem.Some?
    && t.mem.value.inflight - {id} == s.mem.value.inflight - {id} && t.tok - {id} == s.tok - {id}
    && t.mem.value.connected == s.mem.value.connected && t.mem.value.positioned == s.mem.value.positioned
    && t.mem.value.since == s.mem.value.since && s.mem.value.delivered <= t.mem.value.delivered
    && t.mem.value.late == s.mem.value.late && t.mem.value.conn == s.mem.value.conn
    && t.book.held - {id} == s.book.held - {id}
    && s.book.closed <= t.book.closed && s.book.out.Keys <= t.book.out.Keys && s.book.accepted <= t.book.accepted
  }

  lemma OnlyThisChains(a: State, b: State, c: State, id: nat)
    requires OnlyThis(a, b, id) && OnlyThis(b, c, id)
    ensures OnlyThis(a, c, id)
  {
  }

  /** A PUBREL on its way is answered, and the answer ends the exchange. */
  lemma Answered(s: State, id: nat, m: nat) returns (t: Trace)
    requires Live(s) && TokIs(s, id, Rel) && m in s.book.closed && m in s.book.accepted
    ensures RunsFree(t, s, -1) && t.run != [] && Over(Last(t), id, m) && OnlyThis(s, Last(t), id)
    ensures Last(t).book == s.book.(held := s.book.held - {id})
    ensures Last(t).mem.value == s.mem.value.(inflight := s.mem.value.inflight - {id},
                                              withdrawn := s.mem.value.withdrawn - {id})
  {
    t := Two(s, ClientRel(id), HandleComp(id));
    assert s.tok[id := Comp] - {id} == s.tok - {id};
    assert Last(t).tok == s.tok[id := Comp] - {id};
  }

  /** A PUBREL that may go out does, and the exchange ends. */
  lemma ReleasedAndAnswered(s: State, id: nat) returns (t: Trace)
    requires Enabled(s, SendRel(id)) && id in s.mem.value.inflight && s.mem.value.inflight[id].m in s.book.accepted
    ensures RunsFree(t, s, -1) && t.run != [] && Over(Last(t), id, s.mem.value.inflight[id].m)
    ensures OnlyThis(s, Last(t), id) && Last(t).book.accepted == s.book.accepted
  {
    hide RunsFree;
    var m := s.mem.value.inflight[id].m;
    t := One(s, SendRel(id));
    var a := Do(s, SendRel(id));
    assert a.tok - {id} == s.tok - {id};
    assert OnlyThis(s, a, id);
    var u := Answered(a, id, m);
    OnlyThisChains(s, a, Last(u), id);
    t := Qos2Limits.Join(t, u, s, -1);
  }

  lemma AskedRel(tok: Toks, id: nat, stamp: nat)
    requires id in tok && tok[id] == RelQueued
    ensures var asked := RelAskedFor(tok, {id}, stamp);
            id in asked && asked[id] == RelAsked(stamp) && asked - {id} == tok - {id}
  {
  }

  /** Its record asked for. */
  function Asking(s: State, id: nat): State
    requires s.mem.Some?
  {
    s.(mem := Some(s.mem.value.(activity := s.mem.value.activity + 1)),
       tok := RelAskedFor(s.tok, {id}, s.mem.value.activity + 1))
  }

  /** A PUBREL that is queued goes out on a connection whose position is not taken yet: the wait is given up. */
  lemma QueuedEarly(s: State, id: nat) returns (t: Trace)
    requires Live(s) && !s.mem.value.positioned && TokIs(s, id, RelQueued) && id in s.mem.value.inflight
    requires s.mem.value.inflight[id].m in s.book.accepted
    ensures RunsFree(t, s, -1) && t.run != [] && Over(Last(t), id, s.mem.value.inflight[id].m)
    ensures OnlyThis(s, Last(t), id) && Last(t).book.accepted == s.book.accepted
  {
    hide RunsFree, RelAskedFor;
    AskedRel(s.tok, id, s.mem.value.activity + 1);
    var a := Asking(s, id);
    t := Two(s, AskRel({id}), RelTimeout(id));
    var b := Last(t);
    assert b == a.(tok := a.tok[id := RelFree]) && b.tok - {id} == s.tok - {id};
    assert OnlyThis(s, b, id);
    var u := ReleasedAndAnswered(b, id);
    OnlyThisChains(s, b, Last(u), id);
    t := Qos2Limits.Join(t, u, s, -1);
  }

  /** On one that delivers, its record is written first. */
  lemma QueuedLate(s: State, id: nat) returns (t: Trace)
    requires Idle(s) && TokIs(s, id, RelQueued) && id in s.mem.value.inflight
    requires s.mem.value.mark.Some? ==> s.mem.value.mark.value <= s.mem.value.activity
    requires s.mem.value.inflight[id].m in s.book.accepted
    ensures RunsFree(t, s, -1) && t.run != [] && Over(Last(t), id, s.mem.value.inflight[id].m)
    ensures OnlyThis(s, Last(t), id) && Last(t).book.accepted == s.book.accepted
  {
    hide RunsFree, RelAskedFor, Over;
    AskedRel(s.tok, id, s.mem.value.activity + 1);
    var a := Asking(s, id);
    t := One(s, AskRel({id}));
    assert Do(s, AskRel({id})) == a;
    var u := Checkpointed(a);
    t := Qos2Limits.Join(t, u, s, -1);
    var b := Recorded(a);
    assert OnlyThis(s, b, id);
    u := ReleasedAndAnswered(b, id);
    OnlyThisChains(s, b, Last(u), id);
    t := Qos2Limits.Join(t, u, s, -1);
  }

  // ---------------------------------------------------------------- an exchange found under way

  /** A PUBREC on its way, read on a connection whose position is not taken yet. */
  lemma RecEarly(s: State, id: nat) returns (t: Trace)
    requires Live(s) && !s.mem.value.positioned && TokIs(s, id, Rec) && id in s.mem.value.inflight
    requires s.mem.value.inflight[id].m in s.book.accepted
    ensures RunsFree(t, s, -1) && t.run != [] && Over(Last(t), id, s.mem.value.inflight[id].m)
    ensures OnlyThis(s, Last(t), id) && Last(t).book.accepted == s.book.accepted
  {
    hide RunsFree, Over;
    t := One(s, HandleRec(id));
    var a := Do(s, HandleRec(id));
    assert a.tok - {id} == s.tok - {id} && a.mem.value.inflight - {id} == s.mem.value.inflight - {id};
    assert OnlyThis(s, a, id);
    var u := QueuedEarly(a, id);
    OnlyThisChains(s, a, Last(u), id);
    t := Qos2Limits.Join(t, u, s, -1);
  }

  /** Resending a PUBREL ends the exchange. */
  lemma AgainRel(s: State, id: nat) returns (t: Trace)
    requires Enabled(s, Resend(id)) && id in s.mem.value.inflight && s.mem.value.inflight[id].rel
    requires s.mem.value.inflight[id].m in s.book.accepted
    ensures RunsFree(t, s, -1) && t.run != [] && Over(Last(t), id, s.mem.value.inflight[id].m)
    ensures OnlyThis(s, Last(t), id) && Last(t).book.accepted == s.book.accepted
  {
    hide RunsFree, Over;
    var m := s.mem.value.inflight[id].m;
    t := One(s, Resend(id));
    var a := Do(s, Resend(id));
    assert a.tok - {id} == s.tok - {id};
    assert OnlyThis(s, a, id);
    var u := Answered(a, id, m);
    OnlyThisChains(s, a, Last(u), id);
    t := Qos2Limits.Join(t, u, s, -1);
  }

  /** Resending a PUBLISH has the client take the message, unless it had, and then ends the exchange. */
  lemma AgainPub(s: State, id: nat) returns (t: Trace)
    requires Enabled(s, Resend(id)) && id in s.mem.value.inflight && !s.mem.value.inflight[id].rel
    requires Settled(s.rec, s.mem.value.inflight[id].m)
    requires id in s.book.held ==> s.mem.value.inflight[id].m in s.book.accepted
    ensures RunsFree(t, s, -1) && t.run != [] && Over(Last(t), id, s.mem.value.inflight[id].m)
    ensures OnlyThis(s, Last(t), id)
    ensures Last(t).book.accepted ==
            s.book.accepted + if id in s.book.held then multiset{} else multiset{s.mem.value.inflight[id].m}
  {
    hide RunsFree, Over, Settled;
    var m := s.mem.value.inflight[id].m;
    t := Two(s, Resend(id), ClientPub(id));
    var a := Last(t);
    assert a.tok == s.tok[id := Pub(m)][id := Rec] && a.tok - {id} == s.tok - {id};
    assert OnlyThis(s, a, id) by { assert s.book.held + {id} - {id} == s.book.held - {id}; }
    var u := RecEarly(a, id);
    OnlyThisChains(s, a, Last(u), id);
    t := Qos2Limits.Join(t, u, s, -1);
  }

  /**
    An exchange that is to be resent gets done: the client has taken its message, once, and nothing of the exchange is
    left. The record is to know the message, which it does when the write asked for when it was prepared was made.
   */
  lemma ResentGetsDone(s: State, id: nat) returns (t: Trace)
    requires Inv(s) && Receipts(s) && Enabled(s, Resend(id)) && id in s.mem.value.inflight
    requires Relied(s, Resend(id))
    ensures RunsFree(t, s, -1) && t.run != [] && Over(Last(t), id, s.mem.value.inflight[id].m)
    ensures OnlyThis(s, Last(t), id) && Last(t).book.accepted[s.mem.value.inflight[id].m] == 1
  {
    hide RunsFree, Over, Settled, Inv, Receipts, OnlyThis;
    var m := s.mem.value.inflight[id].m;
    TakenFacts(s, id);
    AcceptedOnce(s, m);
    if s.mem.value.inflight[id].rel {
      t := AgainRel(s, id);
    } else {
      t := AgainPub(s, id);
    }
  }

  lemma TakenFacts(s: State, id: nat)
    requires Inv(s) && Receipts(s) && s.mem.Some? && id in s.mem.value.inflight
    ensures var e := s.mem.value.inflight[id];
            && (e.rel ==> e.m in s.book.accepted) && (id in s.book.held ==> e.m in s.book.accepted)
            && (!e.rel && e.m in s.book.accepted ==> id in s.book.held)
  {
    hide ClientOK, CpOK, ReachOK, NotedOK, NotingOK, LateOK, ResentOK, PhaseOK, ToksOK;
  }

  /**
    What a killed broker's record lists in flight gets done by its successor: the client has taken the message, once,
    and nothing of the exchange is left.
   */
  lemma RecoveredGetsDone(s: State, id: nat) returns (t: Trace)
    requires Inv(s) && Receipts(s) && s.mem.Some? && id in s.rec.inflight
    requires !s.rec.inflight[id].rel ==> Settled(s.rec, s.rec.inflight[id].m)
    ensures RunsFree(t, s, -1) && t.run != [] && Over(Last(t), id, s.rec.inflight[id].m)
    ensures Last(t).book.accepted[s.rec.inflight[id].m] == 1
  {
    hide RunsFree, Over, Inv, Receipts, Restored, ToResend;
    t := Two(s, Kill, Restore({}, {}, {}));
    var a := Last(t);
    StepKeeps(s, Kill);
    StepKeeps(Do(s, Kill), Restore({}, {}, {}));
    StepKeepsReceipts(s, Kill);
    StepKeepsReceipts(Do(s, Kill), Restore({}, {}, {}));
    assert s.rec.inflight - {} == s.rec.inflight;
    assert TokIs(a, id, Again) by { ToResendAt(s.rec.inflight, id); }
    var u := ResentGetsDone(a, id);
    t := Qos2Limits.Join(t, u, s, -1);
  }

  lemma ToResendAt(list: Entries, id: nat)
    requires id in list
    ensures id in ToResend(list) && ToResend(list)[id] == Again
  {
  }

  /** So does what a session in memory has in flight when its client connects again. */
  lemma ReconnectedGetsDone(s: State, id: nat) returns (t: Trace)
    requires Inv(s) && Receipts(s) && s.mem.Some? && id in s.mem.value.inflight
    requires !s.mem.value.inflight[id].rel ==> Settled(s.rec, s.mem.value.inflight[id].m)
    ensures RunsFree(t, s, -1) && t.run != [] && Over(Last(t), id, s.mem.value.inflight[id].m)
    ensures Last(t).book.accepted[s.mem.value.inflight[id].m] == 1
  {
    hide RunsFree, Over, Inv, Receipts, ToResend, Acks;
    t := One(s, Reconnect({}));
    var a := Do(s, Reconnect({}));
    StepKeeps(s, Reconnect({}));
    StepKeepsReceipts(s, Reconnect({}));
    assert TokIs(a, id, Again) by { ToResendAt(s.mem.value.inflight, id); }
    if a.mem.value.noting.Noting? {
      var u := One(a, Note);
      StepKeeps(a, Note);
      StepKeepsReceipts(a, Note);
      t := Qos2Limits.Join(t, u, s, -1);
      a := Do(a, Note);
    }
    var u := ResentGetsDone(a, id);
    t := Qos2Limits.Join(t, u, s, -1);
  }

  // ---------------------------------------------------------------- a new message

  /** A PUBREC on its way, read on a connection that delivers. */
  lemma RecLate(s: State, id: nat) returns (t: Trace)
    requires Idle(s) && TokIs(s, id, Rec) && id in s.mem.value.inflight
    requires s.mem.value.mark.Some? ==> s.mem.value.mark.value <= s.mem.value.activity
    requires s.mem.value.inflight[id].m in s.book.accepted
    ensures RunsFree(t, s, -1) && t.run != [] && Over(Last(t), id, s.mem.value.inflight[id].m)
    ensures OnlyThis(s, Last(t), id) && Last(t).book.accepted == s.book.accepted
  {
    hide RunsFree, Over;
    t := One(s, HandleRec(id));
    var a := Do(s, HandleRec(id));
    assert a.tok - {id} == s.tok - {id} && a.mem.value.inflight - {id} == s.mem.value.inflight - {id};
    assert OnlyThis(s, a, id);
    var u := QueuedLate(a, id);
    OnlyThisChains(s, a, Last(u), id);
    t := Qos2Limits.Join(t, u, s, -1);
  }

  /** The state in which the client has taken a new message. */
  lemma TakenIs(s: State, m: nat, id: nat)
    requires Idle(s) && id !in s.mem.value.inflight && id !in s.tok && id !in s.book.held
    ensures var t := Taken(Recorded(Prepared(s, m, id)), m, id);
            && Idle(t) && TokIs(t, id, Rec) && id in t.mem.value.inflight && t.mem.value.inflight[id] == Entry(m, false)
            && t.mem.value.mark == Some(t.mem.value.activity) && m in t.mem.value.delivered && m in t.rec.delivered
            && t.book.accepted == s.book.accepted + multiset{m} && OnlyThis(s, t, id)
  {
    var t := Taken(Recorded(Prepared(s, m, id)), m, id);
    var asked := AskedFor(s.tok[id := Ready(m)], {id}, s.mem.value.activity + 1);
    assert asked - {id} == s.tok - {id};
    assert asked[id := Pub(m)][id := Rec] - {id} == asked - {id};
    assert s.book.held + {id} - {id} == s.book.held - {id};
    assert t.mem.value.inflight - {id} == s.mem.value.inflight - {id};
  }

  /**
    A message the session has not sent, given an identifier that is free, gets done: the record names it before it
    goes out, the client takes it, exactly once, and nothing of the exchange is left. Every other exchange stays where
    it was.
   */
  lemma NewGetsDone(s: State, m: nat, id: nat) returns (t: Trace)
    requires Inv(s) && Enabled(s, Track(m, id)) && !Unread(s.mem.value.late, id) && id !in s.book.held
    ensures RunsFree(t, s, -1) && t.run != [] && t.steps != [] && t.steps[0] == Track(m, id)
    ensures Over(Last(t), id, m) && OnlyThis(s, Last(t), id)
    ensures Last(t).book.accepted == s.book.accepted + multiset{m} && Last(t).book.accepted[m] == 1
    ensures m in Last(t).mem.value.delivered
  {
    hide RunsFree, Inv, Over, Unread, Recorded, Prepared, Tracked, Taken, OnlyThis;
    t := One(s, Track(m, id));
    TrackIs(s, m, id);
    FreeHasNone(s, id);
    NotSent(s, m);
    var u, v := TrackedFinish(s, m, id);
    t := Qos2Limits.Join(t, u, s, -1);
    u := Deliver(v, m, id);
    t := Qos2Limits.Join(t, u, s, -1);
    TakenIs(v, m, id);
    var w := Last(t);
    u := RecLate(w, id);
    t := Qos2Limits.Join(t, u, s, -1);
    FinishedChanges(s, v, id);
    OnlyThisChains(s, v, w, id);
    OnlyThisChains(s, w, Last(u), id);
    assert Last(u).mem.value.delivered >= w.mem.value.delivered by { DeliveredGrows(w, Last(u), id); }
  }

  lemma FinishedChanges(s: State, v: State, id: nat)
    requires s.mem.Some? && v.mem.Some? && v == s.(rec := v.rec, mem := v.mem)
    requires v.mem.value == s.mem.value.(cp := NoCp, mark := v.mem.value.mark)
    ensures OnlyThis(s, v, id)
  {
  }

  lemma DeliveredGrows(s: State, t: State, id: nat)
    requires OnlyThis(s, t, id)
    ensures t.mem.value.delivered >= s.mem.value.delivered
  {
  }

  // ---------------------------------------------------------------- what ends and begins a connection leaves

  /** A release writes what the session is; nothing is under way after it. */
  lemma ReleaseAnswers(s: State, from: nat)
    requires Enabled(s, Release(from))
    ensures var t := Do(s, Release(from));
            && t.rec == Record(s.mem.value.inflight, s.mem.value.delivered, from) && t.tok == map[] && t.book == s.book
            && !t.mem.value.connected && t.mem.value.inflight == s.mem.value.inflight
            && t.mem.value.delivered == s.mem.value.delivered && t.mem.value.withdrawn == s.mem.value.withdrawn
            && forall a :: a in t.mem.value.late <==>
                 || a in s.mem.value.late
                 || (a.conn == s.mem.value.conn && TokIs(s, a.id, if a.Pubrec? then Rec else Comp))
  {
    var t := Do(s, Release(from));
    forall a
      ensures a in t.mem.value.late <==>
              || a in s.mem.value.late
              || (a.conn == s.mem.value.conn && TokIs(s, a.id, if a.Pubrec? then Rec else Comp))
    {
      AcksAt(s.tok, s.mem.value.conn, a);
    }
  }

  lemma AcksAt(tok: Toks, conn: nat, a: Ack)
    ensures a in Acks(tok, conn) <==>
            a.conn == conn && a.id in tok && tok[a.id] == if a.Pubrec? then Rec else Comp
  {
    if a.conn == conn && a.id in tok && tok[a.id] == if a.Pubrec? then Rec else Comp {
      assert a == if a.Pubrec? then Pubrec(a.id, conn) else Pubcomp(a.id, conn);
    }
  }

  /** A new connection on the same broker has every exchange to resend, and its claim clears those stored. */
  lemma ReconnectAnswers(s: State, keep: set<nat>, id: nat)
    requires Enabled(s, Reconnect(keep))
    ensures var t := Do(s, Reconnect(keep));
            && t.rec == s.rec.(inflight := map[]) && t.book == s.book
            && t.mem.value.connected && !t.mem.value.positioned && t.mem.value.conn == s.mem.value.conn + 1
            && t.mem.value.inflight == s.mem.value.inflight && t.mem.value.delivered == s.mem.value.delivered
            && t.mem.value.withdrawn == keep
            && (id in t.tok <==> id in s.mem.value.inflight) && (id in t.tok ==> t.tok[id] == Again)
  {
  }

  /**
    A late PUBREC moves its exchange past the PUBLISH; a late PUBCOMP ends it, and its identifier stays owed exactly
    when a later connection resent it. Neither touches another exchange.
   */
  lemma LateAnswers(s: State, ack: Ack)
    requires s.mem.Some? && ack in s.mem.value.late
    ensures ack.Pubrec? ==>
              var t := Do(s, LateRec(ack));
              && t.tok == s.tok && t.rec == s.rec && t.book == s.book
              && t.mem.value.inflight.Keys == s.mem.value.inflight.Keys
              && (forall i :: i in s.mem.value.inflight ==>
                    t.mem.value.inflight[i] ==
                    Entry(s.mem.value.inflight[i].m, s.mem.value.inflight[i].rel || i == ack.id))
              && t.mem.value.withdrawn == s.mem.value.withdrawn
    ensures ack.Pubcomp? ==>
              var t := Do(s, LateComp(ack));
              var later := ack.id in s.mem.value.resentOn && s.mem.value.resentOn[ack.id] != ack.conn;
              && t.tok == s.tok && t.rec == s.rec && t.book == s.book
              && t.mem.value.inflight == s.mem.value.inflight - {ack.id}
              && t.mem.value.withdrawn ==
                 s.mem.value.withdrawn + (if ack.id in s.mem.value.inflight && later then {ack.id} else {})
  {
    assert s.mem.value.inflight - {ack.id} == s.mem.value.inflight || ack.id in s.mem.value.inflight;
  }

  /**
    An exchange that a late PUBCOMP ended while it was to be resent is not, and no longer keeps the connection from
    taking its position.
   */
  lemma EndedIsNotResent(s: State, id: nat)
    requires Enabled(s, Resend(id)) && id !in s.mem.value.inflight
    ensures var t := Do(s, Resend(id));
            && t == s.(tok := t.tok) && id !in t.tok
            && forall i :: i in s.tok && i != id ==> i in t.tok && t.tok[i] == s.tok[i]
    ensures (forall i :: i in s.tok && s.tok[i].Again? ==> i == id) ==>
              Can(Do(s, Resend(id)), Position) && Do(Do(s, Resend(id)), Position).mem.value.positioned
  {
  }

  /** An acknowledgement a replaced connection has read is no longer waiting to be. */
  lemma LateDropAnswers(s: State, ack: Ack)
    requires s.mem.Some?
    ensures var t := Do(s, LateDrop(ack));
            && ack !in t.mem.value.late && (forall a :: a != ack ==> (a in t.mem.value.late <==> a in s.mem.value.late))
            && t == s.(mem := Some(s.mem.value.(late := t.mem.value.late)))
  {
  }

  /**
    A broker that takes the session over has the exchanges the record lists to resend, but for those it cannot restore,
    and delivers as new only what is stored from its claim on.
   */
  lemma TakeoverAnswers(s: State, lost: set<nat>, withdrawn: set<nat>, end: nat, id: nat)
    requires Enabled(s, Takeover(lost, withdrawn, end))
    ensures var t := Do(s, Takeover(lost, withdrawn, end));
            && t.book == s.book && t.rec == Record(map[], {}, end) && t.mem.Some? && t.mem.value.since == end
            && (id in t.mem.value.inflight <==> id in s.rec.inflight && id !in lost)
            && (id in t.mem.value.inflight ==> t.mem.value.inflight[id] == s.rec.inflight[id])
            && (id in t.tok <==> id in t.mem.value.inflight) && (id in t.tok ==> t.tok[id] == Again)
            && t.mem.value.withdrawn == withdrawn && t.mem.value.connected && !t.mem.value.positioned
  {
    hide Restored;
  }
}
