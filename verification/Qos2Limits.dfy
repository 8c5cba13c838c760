/**
  Where delivery exactly once at QoS 2 depends on something the code does not ensure: a record that reaches back
  beyond a takeover, a resend of a message no record names, an acknowledgement a replaced connection reads late, and
  an identifier the client still holds. For each there is a run from a new session that repeats a message or loses
  one, and the exact condition, on the state before the step, under which no continuation does.
 */
module Qos2Limits {
  import opened Topics
  import opened Qos2
  import opened Qos2Safety
  import opened Qos2Receipts

  // ---------------------------------------------------------------- runs with one exception

  datatype Trace = Trace(run: seq<State>, steps: seq<Step>)

  /** A run from `s` in which every step but the one at `k` keeps to what the invariants rely on. */
  ghost predicate RunsFrom(t: Trace, s: State, k: int) {
    && |t.run| == |t.steps| + 1
    && t.run[0] == s
    && forall i :: 0 <= i < |t.steps| ==>
         && Enabled(t.run[i], t.steps[i]) && (i != k ==> Relied(t.run[i], t.steps[i]))
         && t.run[i + 1] == Do(t.run[i], t.steps[i])
  }

  /** ... and reuses no identifier the client holds. */
  ghost predicate RunsFree(t: Trace, s: State, k: int) {
    RunsFrom(t, s, k) && forall i :: 0 <= i < |t.steps| && i != k ==> LetGoOf(t.run[i], t.steps[i])
  }

  lemma FreeRuns(t: Trace, s: State, k: int)
    requires RunsFree(t, s, k)
    ensures RunsFrom(t, s, k)
  {
  }

  function Last(t: Trace): State
    requires t.run != []
  {
    t.run[|t.run| - 1]
  }

  /** One run goes on where another ended. */
  lemma Join(a: Trace, b: Trace, s: State, k: int) returns (t: Trace)
    requires RunsFree(a, s, k) && RunsFree(b, Last(a), -1)
    requires k < |a.steps|
    ensures RunsFree(t, s, k) && t.steps == a.steps + b.steps && Last(t) == Last(b)
    ensures t.run[..|a.run|] == a.run && |t.run| == |t.steps| + 1
  {
    hide Enabled, Relied, Do, LetGoOf;
    t := Trace(a.run + b.run[1..], a.steps + b.steps);
    forall i | 0 <= i < |t.steps|
      ensures Enabled(t.run[i], t.steps[i])
      ensures i != k ==> Relied(t.run[i], t.steps[i]) && LetGoOf(t.run[i], t.steps[i])
      ensures t.run[i + 1] == Do(t.run[i], t.steps[i])
    {
      if i >= |a.steps| {
        var j := i - |a.steps|;
        assert t.run[i] == b.run[j] && t.steps[i] == b.steps[j] && t.run[i + 1] == b.run[j + 1];
      } else {
        assert t.run[i] == a.run[i] && t.steps[i] == a.steps[i] && t.run[i + 1] == a.run[i + 1];
      }
    }
  }

  /** A run without an exception goes on as one that begins with it. */
  lemma JoinAt(a: Trace, b: Trace, s: State) returns (t: Trace)
    requires RunsFree(a, s, -1) && RunsFree(b, Last(a), 0)
    ensures RunsFree(t, s, |a.steps|) && t.steps == a.steps + b.steps && Last(t) == Last(b)
    ensures |t.run| == |t.steps| + 1 && t.run[|a.steps|] == Last(a)
  {
    hide Enabled, Relied, Do, LetGoOf;
    t := Trace(a.run + b.run[1..], a.steps + b.steps);
    forall i | 0 <= i < |t.steps|
      ensures Enabled(t.run[i], t.steps[i])
      ensures i != |a.steps| ==> Relied(t.run[i], t.steps[i]) && LetGoOf(t.run[i], t.steps[i])
      ensures t.run[i + 1] == Do(t.run[i], t.steps[i])
    {
      if i >= |a.steps| {
        var j := i - |a.steps|;
        assert t.run[i] == b.run[j] && t.steps[i] == b.steps[j] && t.run[i + 1] == b.run[j + 1];
      } else {
        assert t.run[i] == a.run[i] && t.steps[i] == a.steps[i] && t.run[i + 1] == a.run[i + 1];
      }
    }
  }

  /** A run of one step. */
  lemma One(s: State, step: Step) returns (t: Trace)
    requires Enabled(s, step)
    ensures RunsFree(t, s, 0) && t == Trace([s, Do(s, step)], [step]) && Last(t) == Do(s, step)
    ensures Relied(s, step) && LetGoOf(s, step) ==> RunsFree(t, s, -1)
  {
    t := Trace([s, Do(s, step)], [step]);
  }

  /** A run of two. */
  lemma Two(s: State, a: Step, b: Step) returns (t: Trace)
    requires Can(s, a) && Can(Do(s, a), b) && LetGoOf(s, a) && LetGoOf(Do(s, a), b)
    ensures RunsFree(t, s, -1) && t.run != [] && Last(t) == Do(Do(s, a), b)
  {
    hide Enabled, Relied, Do, LetGoOf;
    t := One(s, a);
    var u := One(Do(s, a), b);
    t := Join(t, u, s, -1);
  }

  /** A run whose exception keeps to what the invariants rely on too keeps them, and so does any run up to it. */
  lemma {:induction false} SafeUpTo(t: Trace, s: State, k: int, i: nat)
    requires Inv(s) && RunsFrom(t, s, k) && i < |t.run|
    requires i <= k || k < 0 || k >= |t.steps| || Relied(t.run[k], t.steps[k])
    ensures Inv(t.run[i])
    decreases i
  {
    hide Inv, Enabled, Relied, Do;
    if i > 0 {
      SafeUpTo(t, s, k, i - 1);
      StepKeeps(t.run[i - 1], t.steps[i - 1]);
    }
  }

  /** So does one that reuses no identifier the client holds, with what the client took. */
  lemma {:induction false} ReceivedUpTo(t: Trace, s: State, i: nat)
    requires Inv(s) && Receipts(s) && RunsFree(t, s, 0) && i < |t.run|
    requires t.steps != [] ==> Relied(s, t.steps[0]) && LetGoOf(s, t.steps[0])
    ensures Receipts(t.run[i])
    decreases i
  {
    hide Inv, Receipts, Enabled, Relied, Do, LetGoOf;
    if i > 0 {
      ReceivedUpTo(t, s, i - 1);
      SafeUpTo(t, s, 0, i - 1);
      StepKeepsReceipts(t.run[i - 1], t.steps[i - 1]);
    }
  }

  lemma AcceptedOnce(s: State, m: nat)
    requires Inv(s)
    ensures s.book.accepted[m] <= 1
  {
    hide MemOK, ListOK;
  }

  // ---------------------------------------------------------------- one exchange after another

  /** A connection that delivers, with no checkpoint under way. */
  predicate Idle(s: State) { Live(s) && s.mem.value.positioned && s.mem.value.cp.NoCp? }

  /** The state after a checkpoint. */
  function Recorded(s: State): State
    requires s.mem.Some?
  {
    var mem := s.mem.value;
    s.(rec := Record(mem.inflight, mem.delivered, mem.since), mem := Some(mem.(mark := Some(mem.activity))))
  }

  lemma Checkpointed(s: State) returns (t: Trace)
    requires Idle(s) && s.mem.value.mark != Some(s.mem.value.activity)
    ensures RunsFree(t, s, -1) && Last(t) == Recorded(s)
  {
    hide RunsFree;
    var mem := s.mem.value;
    var a := s.(mem := Some(mem.(cp := GotDelivered(mem.activity, mem.delivered, mem.since))));
    t := Two(s, CpBegin, CpDelivered(mem.since));
    var u := Two(a, CpInflight, CpWrite);
    t := Join(t, u, s, -1);
  }

  /** A message tracked by a connected session, before it is noted. */
  function Tracked(s: State, m: nat, id: nat): State
    requires s.mem.Some?
  {
    s.(mem := Some(s.mem.value.(inflight := s.mem.value.inflight[id := Entry(m, false)],
                                resentOn := s.mem.value.resentOn - {id}, noting := Noting(id, m, false))))
  }

  /** ... and once its record has been asked for. */
  function Prepared(s: State, m: nat, id: nat): State
    requires s.mem.Some?
  {
    var mem := Tracked(s, m, id).mem.value;
    s.(mem := Some(mem.(delivered := mem.delivered + {m}, noting := Nothing, activity := mem.activity + 1)),
       tok := AskedFor(s.tok[id := Ready(m)], {id}, mem.activity + 1))
  }

  lemma Prepare(s: State, m: nat, id: nat) returns (t: Trace)
    requires Live(s)
    ensures RunsFree(t, Tracked(s, m, id), -1) && Last(t) == Prepared(s, m, id)
  {
    hide AskedFor;
    t := Two(Tracked(s, m, id), Note, AskSend({id}));
  }

  /** The client takes the message: it is sent, and the client does not hold its identifier. */
  function Taken(s: State, m: nat, id: nat): State {
    s.(tok := s.tok[id := Pub(m)][id := Rec], book := Accepting(s.book.(out := s.book.out[m := id]), m, id))
  }

  /** The client answers a PUBLISH whose identifier it holds without taking the message. */
  function Dropped(s: State, m: nat, id: nat): State {
    s.(tok := s.tok[id := Pub(m)][id := Rec], book := s.book.(out := s.book.out[m := id]))
  }

  lemma Take(s: State, m: nat, id: nat) returns (t: Trace)
    requires Live(s) && id in s.tok && s.tok[id].Asked? && s.tok[id].m == m && Newer(s.mem.value.mark, s.tok[id].stamp)
    ensures RunsFree(t, s, -1) && Last(t) == if id in s.book.held then Dropped(s, m, id) else Taken(s, m, id)
  {
    t := Two(s, SendPub(id), ClientPub(id));
  }

  /** From preparing a message to the client's taking it. */
  lemma Deliver(s: State, m: nat, id: nat) returns (t: Trace)
    requires Idle(s) && (s.mem.value.mark.Some? ==> s.mem.value.mark.value <= s.mem.value.activity)
    ensures var v := Recorded(Prepared(s, m, id));
            && RunsFree(t, Tracked(s, m, id), -1) && t.run != []
            && Last(t) == if id in s.book.held then Dropped(v, m, id) else Taken(v, m, id)
  {
    hide RunsFree, Taken, Dropped, AskedFor;
    t := Prepare(s, m, id);
    var p := Prepared(s, m, id);
    var u := Checkpointed(p);
    t := Join(t, u, Tracked(s, m, id), -1);
    AskedAt(s.tok, m, id, p.mem.value.activity);
    u := Take(Recorded(p), m, id);
    t := Join(t, u, Tracked(s, m, id), -1);
  }

  lemma AskedAt(tok: Toks, m: nat, id: nat, stamp: nat)
    ensures var asked := AskedFor(tok[id := Ready(m)], {id}, stamp);
            id in asked && asked[id] == Asked(m, stamp)
  {
  }

  lemma FreshId(held: set<nat>) returns (id: nat)
    ensures id !in held
  {
    id := 0;
    var left := held;
    while left != {}
      invariant forall i :: i in held && i !in left ==> i < id
      decreases |left|
    {
      var i :| i in left;
      left := left - {i};
      if i >= id { id := i + 1; }
    }
  }

  /**
    A broker was killed and its record neither names the message nor starts above it: a successor delivers it as
    new.
   */
  lemma Redeliver(s: State, m: nat) returns (t: Trace)
    requires s.mem.None? && s.rec.inflight == map[] && !Settled(s.rec, m)
    ensures RunsFree(t, s, -1) && Last(t).book.accepted[m] == s.book.accepted[m] + 1
  {
    hide RunsFree, Taken, AskedFor, Prepared, Tracked, Unread;
    var id := FreshId(s.book.held);
    var mem := Resumed(map[], s.rec.delivered, s.rec.from, {});
    var v := s.(mem := Some(mem.(positioned := true)), tok := map[]);
    NothingKept(s);
    t := Two(s, Restore({}, {}, {}), Position);
    assert Last(t) == v;
    NoneUnread(id);
    var u := One(v, Track(m, id));
    assert Do(v, Track(m, id)) == Tracked(v, m, id) by { TrackIs(v, m, id); }
    t := Join(t, u, s, -1);
    u := Deliver(v, m, id);
    t := Join(t, u, s, -1);
    TakenOne(v, m, id);
  }

  lemma NothingKept(s: State)
    requires s.rec.inflight == map[]
    ensures s.rec.inflight - {} == map[] && Restored(map[]) == {} && ToResend(map[]) == map[]
    ensures s.rec.delivered + {} == s.rec.delivered && s.rec.(inflight := map[]) == s.rec
  {
  }

  lemma TrackIs(s: State, m: nat, id: nat)
    requires Enabled(s, Track(m, id))
    ensures Do(s, Track(m, id)) == Tracked(s, m, id)
  {
  }

  lemma TakenOne(s: State, m: nat, id: nat)
    requires s.mem.Some?
    ensures Taken(Recorded(Prepared(s, m, id)), m, id).book.accepted[m] == s.book.accepted[m] + 1
  {
    hide AskedFor;
  }

  lemma NoneUnread(id: nat)
    ensures !Unread({}, id)
  {
  }

  // ---------------------------------------------------------------- a resend no record names

  /** A continuation that begins by resending the exchange and in which the client takes its message twice. */
  ghost predicate ResendRepeats(t: Trace, s: State, id: nat, m: nat) {
    RunsFrom(t, s, 0) && t.steps != [] && t.steps[0] == Resend(id) && Last(t).book.accepted[m] > 1
  }

  /**
    retransmit sends what memory holds without writing a record first. From any state the invariants hold of, a
    continuation in which the client takes the message twice exists exactly when the record neither names it nor
    starts above it.
   */
  lemma ResendExact(s: State, id: nat)
    requires Inv(s) && Receipts(s) && Enabled(s, Resend(id))
    requires id in s.mem.value.inflight && !s.mem.value.inflight[id].rel
    ensures (exists t :: ResendRepeats(t, s, id, s.mem.value.inflight[id].m)) <==>
            !Settled(s.rec, s.mem.value.inflight[id].m)
  {
    hide RunsFrom, Inv, Receipts;
    var m := s.mem.value.inflight[id].m;
    if !Settled(s.rec, m) {
      NotHeld(s, id);
      var t := UnsettledRepeats(s, id);
      assert ResendRepeats(t, s, id, m);
    } else {
      forall t ensures !ResendRepeats(t, s, id, m) { SettledIsSafe(t, s, id, m); }
    }
  }

  lemma SettledIsSafe(t: Trace, s: State, id: nat, m: nat)
    requires Inv(s) && Enabled(s, Resend(id)) && Relied(s, Resend(id))
    ensures !ResendRepeats(t, s, id, m)
  {
    hide Inv, Enabled, Relied, Do;
    if ResendRepeats(t, s, id, m) {
      SafeUpTo(t, s, 0, |t.steps|);
      AcceptedOnce(Last(t), m);
    }
  }

  lemma NoneStored(s: State, id: nat)
    requires Inv(s) && Enabled(s, Resend(id))
    ensures s.rec.inflight == map[]
  {
    hide ListsOK, ClientOK, CpOK, ReachOK, NotedOK, NotingOK, LateOK, ResentOK, ToksOK, ListOK;
  }

  /** What the record does not know was not sent, so the client cannot hold its identifier. */
  lemma NotHeld(s: State, id: nat)
    requires Inv(s) && Receipts(s) && s.mem.Some? && id in s.mem.value.inflight
    requires !Settled(s.rec, s.mem.value.inflight[id].m)
    ensures id !in s.book.held
  {
    hide MemOK, ListOK;
  }

  /** Resent, taken, and the broker killed. */
  lemma ResentAndTaken(s: State, id: nat) returns (a: State, v: State)
    requires Enabled(s, Resend(id)) && id in s.mem.value.inflight && !s.mem.value.inflight[id].rel
    requires id !in s.book.held
    ensures a == Do(s, Resend(id)) && Can(a, ClientPub(id)) && Can(Do(a, ClientPub(id)), Kill)
    ensures v == Do(Do(a, ClientPub(id)), Kill)
    ensures v.mem.None? && v.rec == s.rec && v.book.accepted[s.mem.value.inflight[id].m] >= 1
  {
    a := Do(s, Resend(id));
    v := Do(Do(a, ClientPub(id)), Kill);
  }

  /** ... and delivered again as a new message. */
  lemma UnsettledRepeats(s: State, id: nat) returns (t: Trace)
    requires Inv(s) && Enabled(s, Resend(id)) && id in s.mem.value.inflight && !s.mem.value.inflight[id].rel
    requires !Settled(s.rec, s.mem.value.inflight[id].m) && id !in s.book.held
    ensures RunsFree(t, s, 0) && ResendRepeats(t, s, id, s.mem.value.inflight[id].m)
  {
    hide RunsFrom, RunsFree, Inv, Do, Relied;
    NoneStored(s, id);
    var a, v := ResentAndTaken(s, id);
    t := One(s, Resend(id));
    var u := Two(a, ClientPub(id), Kill);
    t := Join(t, u, s, 0);
    u := Redeliver(v, s.mem.value.inflight[id].m);
    t := Join(t, u, s, 0);
    FreeRuns(t, s, 0);
  }

  // ---------------------------------------------------------------- a late acknowledgement

  /** An exchange is past its PUBREC and the client never took its message: it is lost. */
  ghost predicate Lost(s: State) {
    && s.mem.Some?
    && var list := s.mem.value.inflight;
    exists i :: i in list && list[i].rel && list[i].m !in s.book.accepted
  }

  lemma NeverLost(s: State)
    requires Receipts(s)
    ensures !Lost(s)
  {
  }

  /** A continuation that begins by giving the identifier to the message, and repeats a message or loses one. */
  ghost predicate ReuseFails(t: Trace, s: State, m: nat, id: nat) {
    RunsFree(t, s, 0) && t.steps != [] && t.steps[0] == Track(m, id) && (Last(t).book.accepted[m] > 1 || Lost(Last(t)))
  }

  /**
    A replaced connection goes on reading what its socket had buffered, and a client may hold an identifier the
    session has forgotten. From any state the invariants hold of, giving a free identifier to a message has a
    continuation in which the message is taken twice, or one is taken for received that the client never took,
    exactly when an acknowledgement that names the identifier is still unread or the client still holds it.
   */
  lemma TrackExact(s: State, m: nat, id: nat)
    requires Inv(s) && Receipts(s) && Enabled(s, Track(m, id))
    ensures (exists t :: ReuseFails(t, s, m, id)) <==> Unread(s.mem.value.late, id) || id in s.book.held
  {
    hide RunsFree, Inv, Receipts, Unread;
    if id in s.book.held {
      var t := HeldLoses(s, m, id);
      assert ReuseFails(t, s, m, id);
    } else if Unread(s.mem.value.late, id) {
      var ack := FirstUnread(s.mem.value.late, id);
      var t;
      if ack.Pubrec? { t := LateRecLoses(s, m, ack); } else { t := LateCompRepeats(s, m, ack); }
      assert ReuseFails(t, s, m, id);
    } else {
      forall t ensures !ReuseFails(t, s, m, id) { ReadIsSafe(t, s, m, id); }
    }
  }

  lemma FirstUnread(late: set<Ack>, id: nat) returns (ack: Ack)
    requires Unread(late, id)
    ensures ack in late && ack.id == id
  {
    ack :| ack in late && ack.id == id;
  }

  lemma ReadIsSafe(t: Trace, s: State, m: nat, id: nat)
    requires Inv(s) && Receipts(s) && Can(s, Track(m, id)) && LetGoOf(s, Track(m, id))
    ensures !ReuseFails(t, s, m, id)
  {
    hide Inv, Receipts, Enabled, Relied, Do, Lost;
    if ReuseFails(t, s, m, id) {
      SafeUpTo(t, s, 0, |t.steps|);
      ReceivedUpTo(t, s, |t.steps|);
      AcceptedOnce(Last(t), m);
      NeverLost(Last(t));
    }
  }

  lemma NotSent(s: State, m: nat)
    requires Inv(s) && s.mem.Some? && m >= s.mem.value.since && m !in s.mem.value.delivered
    ensures m !in s.book.out && m !in s.book.accepted
  {
    hide ListsOK, CpOK, NotedOK, NotingOK, LateOK, ResentOK, PhaseOK, ToksOK, ListOK;
  }

  /** A late PUBREC marks the new exchange. */
  lemma LateRecLoses(s: State, m: nat, ack: Ack) returns (t: Trace)
    requires Inv(s) && Enabled(s, Track(m, ack.id)) && ack in s.mem.value.late && ack.Pubrec?
    ensures ReuseFails(t, s, m, ack.id)
  {
    hide RunsFree, Inv;
    NotSent(s, m);
    t := One(s, Track(m, ack.id));
    var u := One(Do(s, Track(m, ack.id)), LateRec(ack));
    t := Join(t, u, s, 0);
    assert ack.id in Last(t).mem.value.inflight;
  }

  /**
    The client drops the PUBLISH as a repeat of the exchange it still has open, and its PUBREC completes the new
    one.
   */
  lemma HeldLoses(s: State, m: nat, id: nat) returns (t: Trace)
    requires Inv(s) && Enabled(s, Track(m, id)) && id in s.book.held
    ensures RunsFree(t, s, 0) && t.run != [] && t.steps != [] && t.steps[0] == Track(m, id) && Lost(Last(t))
  {
    hide RunsFree, Inv, Recorded, Prepared, Tracked;
    NotSent(s, m);
    t := One(s, Track(m, id));
    TrackIs(s, m, id);
    var u, v := TrackedFinish(s, m, id);
    t := Join(t, u, s, 0);
    u := Deliver(v, m, id);
    t := Join(t, u, s, 0);
    DroppedIs(v, m, id);
    u := One(Last(t), HandleRec(id));
    t := Join(t, u, s, 0);
    assert id in Last(t).mem.value.inflight;
  }

  lemma DroppedIs(s: State, m: nat, id: nat)
    requires Idle(s)
    ensures var t := Dropped(Recorded(Prepared(s, m, id)), m, id);
            && Live(t) && TokIs(t, id, Rec) && id in t.mem.value.inflight && t.mem.value.inflight[id] == Entry(m, false)
            && t.book.accepted == s.book.accepted
  {
    hide AskedFor;
  }

  /** The checkpoint under way, if there is one, is finished. */
  lemma Finish(s: State) returns (t: Trace)
    requires Live(s) && s.mem.value.positioned
    requires CpOK(s.mem.value.cp, s.rec.delivered, s.mem.value.delivered, s.mem.value.activity, s.mem.value.mark)
    requires Snapped(s.mem.value.cp) ==> s.mem.value.cp.from >= s.mem.value.since
    ensures RunsFree(t, s, -1) && t.run != []
    ensures var v := Last(t);
            && v.mem.Some? && v == s.(rec := v.rec, mem := v.mem)
            && v.mem.value == s.mem.value.(cp := NoCp, mark := v.mem.value.mark)
            && (v.mem.value.mark.Some? ==> v.mem.value.mark.value <= s.mem.value.activity)
  {
    var mem := s.mem.value;
    t := Trace([s], []);
    match mem.cp
    case NoCp =>
    case Loaded(a) =>
      t := Two(s, CpDelivered(mem.since), CpInflight);
      var u := One(Last(t), CpWrite);
      t := Join(t, u, s, -1);
    case GotDelivered(_, _, _) => t := Two(s, CpInflight, CpWrite);
    case GotAll(_, _, _, _) => t := One(s, CpWrite);
  }

  lemma CheckpointFacts(s: State)
    requires Inv(s) && s.mem.Some?
    ensures CpOK(s.mem.value.cp, s.rec.delivered, s.mem.value.delivered, s.mem.value.activity, s.mem.value.mark)
    ensures Snapped(s.mem.value.cp) ==> s.mem.value.cp.from >= s.mem.value.since
  {
    hide ListsOK, ClientOK, CpOK, NotedOK, NotingOK, LateOK, ResentOK, PhaseOK, ToksOK, ListOK;
  }

  /** With the message tracked, it ends in a state that could have been there before it was. */
  lemma TrackedFinish(s: State, m: nat, id: nat) returns (t: Trace, v: State)
    requires Inv(s) && Live(s) && s.mem.value.positioned
    ensures v.mem.Some? && v == s.(rec := v.rec, mem := v.mem)
    ensures v.mem.value == s.mem.value.(cp := NoCp, mark := v.mem.value.mark)
    ensures v.mem.value.mark.Some? ==> v.mem.value.mark.value <= s.mem.value.activity
    ensures RunsFree(t, Tracked(s, m, id), -1) && t.run != [] && Last(t) == Tracked(v, m, id)
  {
    hide RunsFree, Inv, CpOK;
    CheckpointFacts(s);
    t := Finish(Tracked(s, m, id));
    var w := Last(t);
    v := s.(rec := w.rec, mem := Some(s.mem.value.(cp := NoCp, mark := w.mem.value.mark)));
  }

  /** The exchange ends in memory only, and is begun again from the record. */
  lemma LateEnds(s: State, m: nat, ack: Ack) returns (t: Trace)
    requires Idle(s) && ack in s.mem.value.late && ack.Pubcomp?
    ensures var taken := Taken(Recorded(Prepared(s, m, ack.id)), m, ack.id);
            RunsFree(t, taken, -1) && Last(t).book.accepted[m] > 1
  {
    hide RunsFree, AskedFor;
    var id, b := ack.id, s.book;
    var taken := Taken(Recorded(Prepared(s, m, id)), m, id);
    assert taken.book.accepted[m] >= 1;
    t := Two(taken, LateComp(ack), HandleRec(id));
    var u := Two(Last(t), ClientRel(id), Kill);
    t := Join(t, u, taken, -1);
    var killed := Last(u);
    assert killed.rec == taken.rec && id !in killed.book.held;
    u := BeginAgain(killed, m, id);
    t := Join(t, u, taken, -1);
  }

  lemma BeginAgain(s: State, m: nat, id: nat) returns (t: Trace)
    requires s.mem.None? && id in s.rec.inflight && s.rec.inflight[id] == Entry(m, false) && m in s.rec.delivered
    requires id !in s.book.held
    ensures RunsFree(t, s, -1) && Last(t).book.accepted[m] == s.book.accepted[m] + 1
  {
    hide RunsFree, Restored;
    assert s.rec.inflight - {} == s.rec.inflight;
    t := Two(s, Restore({}, {}, {}), Resend(id));
    var u := One(Last(t), ClientPub(id));
    t := Join(t, u, s, -1);
  }

  /**
    A late PUBCOMP ends the new exchange once the client has taken its message. The PUBREC is then answered as
    unknown, the client lets go of the identifier, and a successor of a killed broker sends the PUBLISH again.
   */
  lemma LateCompRepeats(s: State, m: nat, ack: Ack) returns (t: Trace)
    requires Inv(s) && Enabled(s, Track(m, ack.id)) && ack in s.mem.value.late && ack.Pubcomp? && ack.id !in s.book.held
    ensures RunsFree(t, s, 0) && t.run != [] && t.steps != [] && t.steps[0] == Track(m, ack.id)
    ensures Last(t).book.accepted[m] > 1
  {
    hide RunsFree, Inv, Taken, Recorded, Prepared, Tracked;
    var id := ack.id;
    t := One(s, Track(m, id));
    TrackIs(s, m, id);
    var u, v := TrackedFinish(s, m, id);
    t := Join(t, u, s, 0);
    u := Deliver(v, m, id);
    t := Join(t, u, s, 0);
    u := LateEnds(v, m, ack);
    t := Join(t, u, s, 0);
  }

  // ---------------------------------------------------------------- runs from a new session

  function NoSession(): State { State(None, Record(map[], {}, 0), map[], Book({}, multiset{}, map[], {})) }

  lemma NewHolds()
    ensures Initial(NoSession()) && Inv(NoSession())
  {
  }

  /** A connected session with nothing under way, and nothing of an earlier connection unread. */
  function Calm(delivered: set<nat>, since: nat, activity: nat, mark: Option<nat>, rec: Record, b: Book): State {
    var mem := Memory(map[], delivered, since, {}, Nothing, activity, mark, NoCp, true, true, 0, map[], {});
    State(Some(mem), rec, map[], b)
  }

  lemma Connect(s: State) returns (t: Trace)
    requires s.mem.None? && s.rec.inflight == map[]
    ensures RunsFree(t, s, -1) && t.run != []
    ensures Last(t) == Calm(s.rec.delivered, s.rec.from, 0, None, s.rec, s.book)
  {
    hide RunsFree;
    NothingKept(s);
    t := Two(s, Restore({}, {}, {}), Position);
  }

  lemma ReachedHolds(t: Trace)
    requires RunsFree(t, NoSession(), -1)
    ensures Inv(Last(t))
  {
    hide Inv, LetGoOf;
    NewHolds();
    SafeUpTo(t, NoSession(), -1, |t.steps|);
  }

  const NO_BOOK := Book({}, multiset{}, map[], {})

  /** A new session, connected. */
  const FIRST := Calm({}, 0, 0, None, Record(map[], {}, 0), NO_BOOK)

  /** Message 7 prepared and noted with identifier 5, and the connection replaced before a record was written. */
  const UNRECORDED := State(
    Some(Memory(map[5 := Entry(7, false)], {7}, 0, {}, Nothing, 0, None, NoCp, true, false, 1, map[], {})),
    Record(map[], {}, 0), map[5 := Again], NO_BOOK)

  lemma UnrecordedIsReached() returns (t: Trace)
    ensures RunsFree(t, FIRST, -1) && t.run != [] && Last(t) == UNRECORDED
  {
    hide RunsFree, Unread;
    NoneUnread(5);
    var noted := State(Some(FIRST.mem.value.(inflight := map[5 := Entry(7, false)], delivered := {7})),
                       FIRST.rec, map[5 := Ready(7)], NO_BOOK);
    var none: map<nat, nat> := map[];
    assert none - {5} == none && {} + {7} == {7};
    assert FIRST.mem.value.inflight[5 := Entry(7, false)] == map[5 := Entry(7, false)];
    assert FIRST.tok[5 := Ready(7)] == map[5 := Ready(7)];
    t := Two(FIRST, Track(7, 5), Note);
    assert Last(t) == noted;
    assert Acks(noted.tok, 0) == {} && {} + Acks(noted.tok, 0) == {}
      && ToResend(noted.mem.value.inflight) == map[5 := Again];
    var u := One(noted, Reconnect({}));
    t := Join(t, u, FIRST, -1);
  }

  /**
    Message 7 is prepared on a connection that is taken over before its record is written. The new connection
    resends it, the client takes it, the broker is killed, and the successor delivers it again.
   */
  lemma UnrecordedResendRepeats() returns (t: Trace, k: nat)
    ensures RunsFree(t, NoSession(), k) && k < |t.steps| && t.steps[k] == Resend(5) && Last(t).book.accepted[7] > 1
  {
    hide RunsFree, Inv, Do;
    t := Connect(NoSession());
    var u := UnrecordedIsReached();
    t := Join(t, u, NoSession(), -1);
    ReachedHolds(t);
    k := |t.steps|;
    u := UnsettledRepeats(UNRECORDED, 5);
    t := JoinAt(t, u, NoSession());
  }

  /** A message taken from a session that had nothing under way. */
  function Held(d: set<nat>, since: nat, a: nat, m: nat, id: nat, b: Book): State {
    var list := map[id := Entry(m, false)];
    var mem := Memory(list, d + {m}, since, {}, Nothing, a + 1, Some(a + 1), NoCp, true, true, 0, map[], {});
    State(Some(mem), Record(list, d + {m}, since), map[id := Rec], Accepting(b.(out := b.out[m := id]), m, id))
  }

  /** ... and released by the client, whose PUBCOMP is on its way. */
  function Closing(d: set<nat>, since: nat, a: nat, m: nat, id: nat, b: Book): State {
    var list := map[id := Entry(m, true)];
    var mem := Memory(list, d + {m}, since, {}, Nothing, a + 2, Some(a + 2), NoCp, true, true, 0, map[], {});
    State(Some(mem), Record(list, d + {m}, since), map[id := Comp], Closed(b, m, id))
  }

  function Closed(b: Book, m: nat, id: nat): Book {
    Book(b.held - {id}, b.accepted + multiset{m}, b.out[m := id], b.closed + {m})
  }

  /** A whole delivery, up to the PUBREC. */
  lemma Hold(d: set<nat>, since: nat, rec: Record, m: nat, id: nat, b: Book) returns (t: Trace)
    requires m >= since && m !in d && id !in b.held
    ensures RunsFree(t, Calm(d, since, 0, None, rec, b), -1) && t.run != [] && Last(t) == Held(d, since, 0, m, id, b)
  {
    hide RunsFree, Unread, Taken, Recorded, Prepared;
    var s := Calm(d, since, 0, None, rec, b);
    NoneUnread(id);
    t := One(s, Track(m, id));
    var u := Deliver(s, m, id);
    t := Join(t, u, s, -1);
    HeldIs(d, since, rec, m, id, b);
  }

  lemma HeldIs(d: set<nat>, since: nat, rec: Record, m: nat, id: nat, b: Book)
    ensures Taken(Recorded(Prepared(Calm(d, since, 0, None, rec, b), m, id)), m, id) == Held(d, since, 0, m, id, b)
  {
    var asked := AskedFor(map[][id := Ready(m)], {id}, 1);
    assert asked[id := Pub(m)][id := Rec] == map[id := Rec];
    assert map[][id := Entry(m, false)] == map[id := Entry(m, false)];
    var none: map<nat, nat> := map[];
    assert none - {id} == none;
  }

  /** The rest of it, up to the PUBCOMP. */
  lemma Close(d: set<nat>, since: nat, a: nat, m: nat, id: nat, b: Book) returns (t: Trace)
    requires id !in b.held
    ensures RunsFree(t, Held(d, since, a, m, id, b), -1) && t.run != [] && Last(t) == Closing(d, since, a, m, id, b)
  {
    hide RunsFree, Recorded, Held, Closing, Do;
    var s := Held(d, since, a, m, id, b);
    t := AskToRelease(d, since, a, m, id, b);
    var asked := Last(t);
    var u := Checkpointed(asked);
    t := Join(t, u, s, -1);
    u := LetGo(d, since, a, m, id, b);
    t := Join(t, u, s, -1);
  }

  /** Its PUBREC read, and the record for its PUBREL asked for or written. */
  function Releasing(d: set<nat>, since: nat, a: nat, m: nat, id: nat, b: Book, mark: nat, rec: Record): State {
    var list := map[id := Entry(m, true)];
    var mem := Memory(list, d + {m}, since, {}, Nothing, a + 2, Some(mark), NoCp, true, true, 0, map[], {});
    State(Some(mem), rec, map[id := RelAsked(a + 2)], Accepting(b.(out := b.out[m := id]), m, id))
  }

  lemma AskToRelease(d: set<nat>, since: nat, a: nat, m: nat, id: nat, b: Book) returns (t: Trace)
    ensures var s := Held(d, since, a, m, id, b);
            var v := Releasing(d, since, a, m, id, b, a + 1, s.rec);
            && RunsFree(t, s, -1) && t.run != [] && Last(t) == v
            && Idle(v) && v.mem.value.mark != Some(v.mem.value.activity)
            && Recorded(v) == Releasing(d, since, a, m, id, b, a + 2, Record(map[id := Entry(m, true)], d + {m}, since))
  {
    hide RunsFree;
    var s := Held(d, since, a, m, id, b);
    assert s.mem.value.inflight[id := Entry(m, true)] == map[id := Entry(m, true)];
    assert s.tok[id := RelQueued] == map[id := RelQueued];
    assert RelAskedFor(map[id := RelQueued], {id}, a + 2) == map[id := RelAsked(a + 2)];
    t := Two(s, HandleRec(id), AskRel({id}));
  }

  lemma LetGo(d: set<nat>, since: nat, a: nat, m: nat, id: nat, b: Book) returns (t: Trace)
    requires id !in b.held
    ensures var s := Releasing(d, since, a, m, id, b, a + 2, Record(map[id := Entry(m, true)], d + {m}, since));
            RunsFree(t, s, -1) && t.run != [] && Last(t) == Closing(d, since, a, m, id, b)
  {
    hide RunsFree;
    var s := Releasing(d, since, a, m, id, b, a + 2, Record(map[id := Entry(m, true)], d + {m}, since));
    t := Two(s, SendRel(id), ClientRel(id));
    assert Last(t).tok == map[id := Comp];
    assert Last(t).book == Closed(b, m, id) by { assert b.held + {id} - {id} == b.held - {id}; }
  }

  /**
    Message 7 is taken with identifier 5, the client connects again, and the claim clears the stored exchanges. The
    broker is killed before it writes a record, and its successor gives the identifier to message 8, which the
    client drops as a repeat.
   */
  lemma ClearedEntryLoses() returns (t: Trace, k: nat)
    ensures RunsFree(t, NoSession(), k) && k < |t.steps| && t.steps[k] == Track(8, 5)
    ensures Relied(t.run[k], t.steps[k]) && Lost(Last(t))
  {
    hide RunsFree, Inv, Do, Held, Lost;
    t := Connect(NoSession());
    var u := Hold({}, 0, Record(map[], {}, 0), 7, 5, NO_BOOK);
    t := Join(t, u, NoSession(), -1);
    u := EntryCleared();
    t := Join(t, u, NoSession(), -1);
    ReachedHolds(t);
    k := |t.steps|;
    u := HeldLoses(FORGOTTEN, 8, 5);
    t := JoinAt(t, u, NoSession());
  }

  /** The successor knows message 7 and nothing of its exchange; the client still holds the identifier. */
  const FORGOTTEN := Calm({7}, 0, 0, None, Record(map[], {7}, 0), Accepting(NO_BOOK.(out := map[7 := 5]), 7, 5))

  lemma EntryCleared() returns (t: Trace)
    ensures RunsFree(t, Held({}, 0, 0, 7, 5, NO_BOOK), -1) && t.run != [] && Last(t) == FORGOTTEN
  {
    hide RunsFree, Acks;
    var s := Held({}, 0, 0, 7, 5, NO_BOOK);
    assert NO_BOOK.out[7 := 5] == map[7 := 5] && {} + {7} == {7};
    assert Restored(map[]) == {} && ToResend(map[]) == map[] && {7} + {} == {7};
    t := Two(s, Reconnect({}), Kill);
    assert Last(t).rec == Record(map[], {7}, 0);
    var u := Connect(Last(t));
    t := Join(t, u, s, -1);
  }

  /**
    Message 7 is delivered with identifier 5, and its PUBCOMP is still unread when the connection is replaced. The
    exchange is resent and completed on the new connection, and message 8 gets the identifier.
   */
  lemma LateCompletionRepeats() returns (t: Trace, k: nat)
    ensures RunsFree(t, NoSession(), k) && k < |t.steps| && t.steps[k] == Track(8, 5) && Last(t).book.accepted[8] > 1
  {
    hide RunsFree, Inv, Do, Closing, Held;
    t := Connect(NoSession());
    var u := Hold({}, 0, Record(map[], {}, 0), 7, 5, NO_BOOK);
    t := Join(t, u, NoSession(), -1);
    u := Close({}, 0, 0, 7, 5, NO_BOOK);
    t := Join(t, u, NoSession(), -1);
    u := LateLeft();
    t := Join(t, u, NoSession(), -1);
    ReachedHolds(t);
    k := |t.steps|;
    u := LateCompRepeats(LATE, 8, Pubcomp(5, 0));
    t := JoinAt(t, u, NoSession());
  }

  /** The exchange completed on the second connection, the PUBCOMP of the first still unread. */
  const LATE := State(
    Some(Memory(map[], {7}, 0, {}, Nothing, 2, None, NoCp, true, true, 1, map[5 := 1], {Pubcomp(5, 0)})),
    Record(map[], {7}, 0), map[], Closed(NO_BOOK, 7, 5))

  lemma LateLeft() returns (t: Trace)
    ensures RunsFree(t, Closing({}, 0, 0, 7, 5, NO_BOOK), -1) && t.run != [] && Last(t) == LATE
  {
    hide RunsFree, Acks;
    var s := Closing({}, 0, 0, 7, 5, NO_BOOK);
    var a := ReplacedState();
    assert Do(s, Reconnect({})) == a by {
      LateAcks();
      assert {} + {7} == {7} && s.mem.value.late + {Pubcomp(5, 0)} == {Pubcomp(5, 0)};
    }
    t := One(s, Reconnect({}));
    var none: map<nat, nat> := map[];
    assert none[5 := 1] == map[5 := 1] && a.tok[5 := Rel] == map[5 := Rel];
    var b := a.(mem := Some(a.mem.value.(resentOn := map[5 := 1])), tok := map[5 := Rel]);
    assert Do(a, Resend(5)) == b by { assert a.book.closed + {7} == a.book.closed; }
    var u := One(a, Resend(5));
    t := Join(t, u, s, -1);
    u := LateLet(b);
    t := Join(t, u, s, -1);
  }

  function ReplacedState(): State {
    var list, late := map[5 := Entry(7, true)], {Pubcomp(5, 0)};
    var mem := Memory(list, {7}, 0, {}, Nothing, 2, None, NoCp, true, false, 1, map[], late);
    State(Some(mem), Record(map[], {7}, 0), map[5 := Again], Closed(NO_BOOK, 7, 5))
  }

  lemma LateLet(s: State) returns (t: Trace)
    requires var a := ReplacedState();
             s == a.(mem := Some(a.mem.value.(resentOn := map[5 := 1])), tok := map[5 := Rel])
    ensures RunsFree(t, s, -1) && t.run != [] && Last(t) == LATE
  {
    hide RunsFree;
    t := Two(s, ClientRel(5), HandleComp(5));
    assert s.mem.value.inflight - {5} == map[] && s.tok[5 := Comp] - {5} == map[];
    assert s.mem.value.withdrawn - {5} == {} && s.book.held - {5} == s.book.held;
    assert Last(t) == LATE.(mem := Some(LATE.mem.value.(positioned := false)));
    var u := One(Last(t), Position);
    t := Join(t, u, s, -1);
  }

  lemma LateAcks()
    ensures Acks(map[5 := Comp], 0) == {Pubcomp(5, 0)} && ToResend(map[5 := Entry(7, true)]) == map[5 := Again]
  {
    var tok: Toks := map[5 := Comp];
    assert tok[5].Comp?;
  }

  // ---------------------------------------------------------------- a record that reaches back beyond a takeover

  /**
    A run in which a record whose replay starts at message `from` is written under a claim made when the stream
    ended at `end`, and the client takes a message twice.
   */
  ghost predicate ReachRepeats(t: Trace, k: nat, from: nat, end: nat) {
    && RunsFrom(t, NoSession(), k) && k < |t.steps| && t.steps[k] in {CpDelivered(from), Release(from)}
    && t.run[k].mem.Some? && t.run[k].mem.value.since == end
    && exists m: nat :: Last(t).book.accepted[m] > 1
  }

  /**
    A claim from an owner that is alive clears the ids the record carried, and the next record goes back by the
    rewind all the same. A message can be taken twice exactly when that reaches back beyond the claim.
   */
  lemma TakeoverExact(from: nat, end: nat)
    ensures (exists t, k: nat :: ReachRepeats(t, k, from, end)) <==> from < end
  {
    hide RunsFrom;
    if from < end {
      var t, k := ReachBackRepeats(from, end);
      assert ReachRepeats(t, k, from, end);
    } else {
      forall t, k: nat ensures !ReachRepeats(t, k, from, end) { ReachIsSafe(t, k, from, end); }
    }
  }

  lemma ReachIsSafe(t: Trace, k: nat, from: nat, end: nat)
    requires from >= end
    ensures !ReachRepeats(t, k, from, end)
  {
    hide Inv, Enabled, Do;
    if ReachRepeats(t, k, from, end) {
      NewHolds();
      SafeUpTo(t, NoSession(), k, |t.steps|);
      var m: nat :| Last(t).book.accepted[m] > 1;
      AcceptedOnce(Last(t), m);
    }
  }

  /** The first broker delivers the message and records that the exchange is over. */
  lemma Finished(m: nat) returns (t: Trace)
    ensures RunsFree(t, NoSession(), -1) && t.run != []
    ensures Last(t) == Calm({m}, 0, 3, Some(3), Record(map[], {m}, 0), Closed(NO_BOOK, m, 1))
  {
    hide RunsFree;
    t := Connect(NoSession());
    var u := Hold({}, 0, Record(map[], {}, 0), m, 1, NO_BOOK);
    t := Join(t, u, NoSession(), -1);
    u := Close({}, 0, 0, m, 1, NO_BOOK);
    t := Join(t, u, NoSession(), -1);
    var s := Closing({}, 0, 0, m, 1, NO_BOOK);
    u := Two(s, HandleComp(1), AskSend({}));
    var c := Calm({m}, 0, 3, Some(2), Record(map[1 := Entry(m, true)], {m}, 0), Closed(NO_BOOK, m, 1));
    assert Last(u) == c by {
      assert s.mem.value.inflight - {1} == map[] && s.tok - {1} == map[];
      assert {} + {m} == {m} && s.mem.value.withdrawn - {1} == {};
      var none: Toks := map[];
      assert AskedFor(none, {}, 3) == none;
    }
    t := Join(t, u, NoSession(), -1);
    u := Checkpointed(c);
    t := Join(t, u, NoSession(), -1);
  }

  /** The second broker takes the session over and writes a record that reaches back to the message. */
  lemma ReachesBack(from: nat, end: nat) returns (t: Trace)
    requires from < end
    ensures var w := Calm({}, end, 0, None, Record(map[], {}, end), Closed(NO_BOOK, from, 1));
            var v := w.(mem := Some(w.mem.value.(cp := Loaded(0))));
            && RunsFree(t, v, 0) && t.run != [] && t.steps != [] && t.steps[0] == CpDelivered(from) && Last(t).mem.None?
            && Last(t).rec == Record(map[], {}, from) && Last(t).book == w.book
  {
    hide RunsFree;
    var w := Calm({}, end, 0, None, Record(map[], {}, end), Closed(NO_BOOK, from, 1));
    var v := w.(mem := Some(w.mem.value.(cp := Loaded(0))));
    t := One(v, CpDelivered(from));
    var u := Two(Last(t), CpInflight, CpWrite);
    t := Join(t, u, v, 0);
    u := One(Last(t), Kill);
    t := Join(t, u, v, 0);
  }

  lemma TakesOver(from: nat, end: nat) returns (t: Trace)
    requires from < end
    ensures var s := Calm({from}, 0, 3, Some(3), Record(map[], {from}, 0), Closed(NO_BOOK, from, 1));
            var w := Calm({}, end, 0, None, Record(map[], {}, end), s.book);
            RunsFree(t, s, -1) && t.run != [] && Last(t) == w.(mem := Some(w.mem.value.(cp := Loaded(0))))
  {
    hide RunsFree;
    var s := Calm({from}, 0, 3, Some(3), Record(map[], {from}, 0), Closed(NO_BOOK, from, 1));
    NothingKept(s);
    assert {} + Restored(map[]) == {};
    t := Two(s, Takeover({}, {}, end), Position);
    assert Last(t) == Calm({}, end, 0, None, Record(map[], {}, end), s.book);
    var u := One(Last(t), CpBegin);
    t := Join(t, u, s, -1);
  }

  /** Then it is killed, and a third delivers the message again. */
  lemma ReachBackRepeats(from: nat, end: nat) returns (t: Trace, k: nat)
    requires from < end
    ensures ReachRepeats(t, k, from, end)
  {
    hide RunsFree, RunsFrom, Do, Enabled, Relied;
    t := Finished(from);
    var u := TakesOver(from, end);
    t := Join(t, u, NoSession(), -1);
    k := |t.steps|;
    var w := Last(t);
    u := ReachesBack(from, end);
    assert u.steps[0] == CpDelivered(from);
    var v := Redeliver(Last(u), from);
    u := Join(u, v, w, 0);
    t := JoinAt(t, u, NoSession());
    FreeRuns(t, NoSession(), k);
  }
}
