/**
  A cursor handed on through a session's record, as runs: a session that delivers, a record of it whose ids reach back
  by the rewind and checkpointSkew, and the run of the broker that restores it. The record leaves out what was
  delivered before that and is not at or above the cursor by the sequence it was noted with; a message can be sent
  again exactly when something was delivered so long before.
 */
module CursorHandover {
  import opened Topics
  import opened Cursors
  import opened CursorRuns
  import opened CursorSafety
  import opened CursorTheorems
  import opened CursorFailures
  import opened CursorRestore
  import opened Records

  /** What the record holds, and when it is restored. */
  datatype Hand = Hand(fromSeq: nat, stored: seq<Entry>, ids: seq<Entry>, inflight: Delivered, top: nat, now: nat)

  function Before(now: nat, span: nat): nat { if now > span then now - span else 0 }

  /** How far back its ids reach (DeliveredSince): the rewind, and checkpointSkew before it. */
  function ReachesTo(w: World, cfg: Config, skew: nat): nat { Before(w.now, cfg.window + skew) }

  /** deliveredSinceLocked: the ids it lists. */
  ghost predicate Listed(ids: seq<Entry>, delivered: Delivered, from: nat, since: nat) {
    forall e :: e in ids <==>
                  e.id in delivered && delivered[e.id].seqNo == e.seqNo && Kept(delivered[e.id], from, since)
  }

  /** A record of the session as it is now, cursor included. */
  ghost predicate Checkpoints(w: World, cfg: Config, skew: nat, h: Hand) {
    && w.s.cur.next != 0 && w.s.cur.base == 0 && SinceKnown(w.s)
    && Lists(h.stored, w.s.cur.holes)
    && Listed(h.ids, w.s.delivered, LowestSeq(h.fromSeq, w.s.cur.next), ReachesTo(w, cfg, skew))
    && OwnMarks(w.stream, h.inflight) && (forall id :: id in h.inflight ==> h.inflight[id].at == h.now)
    && w.now <= h.now
  }

  /** The session another broker restores from it, away since checkpointSkew before it was made. */
  function TakenUp(w: World, skew: nat, h: Hand): World {
    RestoredWorld(w, RestoredSession(w.s, h.inflight, h.top, h.stored, h.ids, h.now),
                  w.sent + InFlight(w.stream, h.inflight), h.now, Away(Before(w.now, skew), h.fromSeq, 0, false))
  }

  // ---------------------------------------------------------------- what was delivered lately is carried

  /** Every queued message that was sent is known, and was noted at `p` at the earliest. */
  ghost predicate Lately(st: Stream, delivered: Delivered, sent: set<nat>, p: nat) {
    forall q :: q in sent && Named(st, q) ==> Marked(st, delivered, q) && delivered[At(st, q).id].at >= p
  }

  lemma NoteLately(st: Stream, s: Session, id: Id, seqNo: nat, now: nat, sent: set<nat>, more: set<nat>, p: nat)
    requires Lately(st, s.delivered, sent, p) && now >= p && UniqueIds(st)
    requires forall q :: q in more ==> Stored(st, q) && At(st, q).id == id && (seqNo == q || seqNo == 0)
    requires forall q :: Named(st, q) && At(st, q).id == id ==> q in more
    ensures Lately(st, Note(s, id, seqNo, now).delivered, sent + more, p)
  {
    hide RemoveHole;
    var after := Note(s, id, seqNo, now).delivered;
    forall q | q in sent + more && Named(st, q) ensures Marked(st, after, q) && after[At(st, q).id].at >= p {
      if At(st, q).id != id { assert Marked(st, s.delivered, q); }
    }
  }

  /** Within twice the rewind a pass forgets none of them. */
  lemma NotedLately(st: Stream, s: Session, cfg: Config, id: Id, seqNo: nat, now: nat, sent: set<nat>, p: nat)
    requires Lately(st, Note(s, id, seqNo, now).delivered, sent, p) && now <= p + 2 * cfg.window
    ensures Lately(st, NoteDelivered(s, cfg, id, seqNo, now).delivered, sent, p)
  {
    hide Note, KeptIds;
    var was, after := Note(s, id, seqNo, now).delivered, NoteDelivered(s, cfg, id, seqNo, now).delivered;
    forall q | q in sent && Named(st, q) ensures Marked(st, after, q) && after[At(st, q).id].at >= p {
      assert Marked(st, was, q) && was[At(st, q).id].at >= p;
    }
  }

  /** What a step that notes a message adds to what was sent. */
  ghost function SentBy(w: World, step: Step): set<nat>
    requires Notes(step) && (step.DeliverOther? || Stored(w.stream, step.q))
  {
    if step.DeliverOther? then Queued(w.stream, step.id) else {step.q}
  }

  lemma NotingSent(w: World, cfg: Config, step: Step)
    requires Enabled(w, cfg, step) && Notes(step)
    ensures var v := Do(w, cfg, step);
            && v.stream == w.stream
            && ((v.s == w.s && v.sent == w.sent)
                || (&& NotedId(w, step) != "" && v.sent == w.sent + SentBy(w, step)
                    && v.s == NoteDelivered(w.s, cfg, NotedId(w, step), NotedSeq(step), w.now)))
  {
    hide Noted, Queued, Eligible, NoteDelivered;
    NotedIs(w, cfg, NotedId(w, step), NotedSeq(step));
  }

  lemma QuietSent(w: World, cfg: Config, step: Step)
    requires Enabled(w, cfg, step) && !Notes(step)
    ensures Do(w, cfg, step).sent == w.sent
  {
    hide ApplyScan, FillSince, Keys, SinceKnown, CountAbove, SameSubs, ScanRead, RestartCursor, RecentFrom, StartsAt;
    hide ToRead, ReplayedTo, SetSince, NoteLiveCopy, Cover, Install;
  }

  lemma LatelyStep(w: World, cfg: Config, step: Step, p: nat)
    requires Inv(w, cfg) && Enabled(w, cfg, step) && Lately(w.stream, w.s.delivered, w.sent, p)
    requires Notes(step) ==> p <= w.now <= p + 2 * cfg.window
    ensures Lately(Do(w, cfg, step).stream, Do(w, cfg, step).s.delivered, Do(w, cfg, step).sent, p)
  {
    hide Inv, Do, Note, NoteDelivered, Queued;
    InvStream(w, cfg);
    if Notes(step) {
      NotesStored(w, cfg, step);
      NotingSent(w, cfg, step);
      var id, seqNo, more := NotedId(w, step), NotedSeq(step), SentBy(w, step);
      if id != "" {
        SentByIs(w, step);
        NoteLately(w.stream, w.s, id, seqNo, w.now, w.sent, more, p);
        NotedLately(w.stream, w.s, cfg, id, seqNo, w.now, w.sent + more, p);
      }
    } else {
      QuietStep(w, cfg, step);
      QuietSent(w, cfg, step);
      if step.Append? { AppendAt(w.stream, step.m); }
    }
  }

  lemma SentByIs(w: World, step: Step)
    requires Notes(step) && (step.DeliverOther? || Stored(w.stream, step.q)) && UniqueIds(w.stream)
    requires NotedId(w, step) != ""
    ensures var id, seqNo, more := NotedId(w, step), NotedSeq(step), SentBy(w, step);
            && (forall q :: q in more ==> Stored(w.stream, q) && At(w.stream, q).id == id && (seqNo == q || seqNo == 0))
            && (forall q :: Named(w.stream, q) && At(w.stream, q).id == id ==> q in more)
  {
  }

  lemma InvStream(w: World, cfg: Config)
    requires Inv(w, cfg)
    ensures StreamOK(w.stream, w.now, w.sent) && UniqueIds(w.stream)
  {
    hide NothingSkipped, KnownFrom, HolesOK, MarksOK, ForgottenLate, ReadOK, RecentFrom, SubsOK, ReplayOK;
  }

  lemma {:induction false} RunNow(run: seq<World>, steps: seq<Step>, cfg: Config, i: nat, j: nat)
    requires Continues(run, steps, cfg) && i <= j < |run|
    ensures run[i].now <= run[j].now
    decreases j
  {
    hide Enabled, Relied, Do;
    if i < j {
      RunNow(run, steps, cfg, i, j - 1);
      StepNow(run[j - 1], cfg, steps[j - 1]);
    }
  }

  lemma {:induction false} LatelyRun(run: seq<World>, steps: seq<Step>, cfg: Config, p: nat, i: nat)
    requires IsRun(run, steps, cfg) && i < |run|
    requires forall j :: 0 <= j < |steps| && Notes(steps[j]) ==> p <= run[j].now <= p + 2 * cfg.window
    ensures Lately(run[i].stream, run[i].s.delivered, run[i].sent, p)
    decreases i
  {
    hide Enabled, Relied, Do, Inv;
    if i > 0 {
      hide Lately, Initial;
      LatelyRun(run, steps, cfg, p, i - 1);
      EveryRunIsSafe(run, steps, cfg, i - 1);
      LatelyStep(run[i - 1], cfg, steps[i - 1], p);
    }
  }

  // ---------------------------------------------------------------- a handover

  /**
    A run whose deliveries are all at most `delay` old when its record is made, and a run of the broker that takes
    the session up from the record. Every step of both keeps to what the invariants rely on.
   */
  ghost predicate Handed(t: Trace, cfg: Config, skew: nat, delay: nat, h: Hand, u: Trace) {
    && IsRun(t.run, t.steps, cfg)
    && (forall i :: 0 <= i < |t.steps| && Notes(t.steps[i]) ==> Last(t).now <= t.run[i].now + delay)
    && Checkpoints(Last(t), cfg, skew, h)
    && Continues(u.run, u.steps, cfg) && u.run[0] == TakenUp(Last(t), skew, h)
  }

  ghost predicate HandedRepeats(t: Trace, cfg: Config, skew: nat, delay: nat, h: Hand, u: Trace, q: nat) {
    Handed(t, cfg, skew, delay, h, u) && Repeats(Last(u), q)
  }

  /** No queued message was noted without its sequence. */
  ghost predicate AllSequenced(t: Trace) {
    |t.run| == |t.steps| + 1 && forall i :: 0 <= i < |t.steps| ==> Sequenced(t.run[i], t.steps[i])
  }

  /** What was noted since the time a record reaches back to is in it. */
  lemma LatelyCarried(w: World, cfg: Config, skew: nat, h: Hand)
    requires Inv(w, cfg) && Checkpoints(w, cfg, skew, h)
    requires Lately(w.stream, w.s.delivered, w.sent, ReachesTo(w, cfg, skew))
    ensures Carries(h.ids, w.s.delivered, w.s.cur.next) && Truthful(h.ids, w.s.delivered)
    ensures CarriesLoose(w.stream, h.ids, w.s.delivered, w.s.cur.next)
    ensures LeavesOut(w, cfg, h.ids, Before(w.now, skew), Highest(h.ids, h.top))
  {
    hide Inv, Lists, OwnMarks, SinceKnown, Highest, Outlived;
    forall q | q in w.sent && Named(w.stream, q)
      ensures Entry(w.s.delivered[At(w.stream, q).id].seqNo, At(w.stream, q).id) in h.ids
    {
      assert Marked(w.stream, w.s.delivered, q);
    }
    forall q | Loose(w.stream, w.s.delivered, q) ensures Entry(0, At(w.stream, q).id) in h.ids {
      assert q in w.sent by { MarkedIsSent(w, cfg, q); }
    }
  }

  lemma MarkedIsSent(w: World, cfg: Config, q: nat)
    requires Inv(w, cfg) && Named(w.stream, q) && At(w.stream, q).id in w.s.delivered
    ensures q in w.sent
  {
    hide StreamOK, NothingSkipped, KnownFrom, HolesOK, ForgottenLate, ReadOK, RecentFrom, SubsOK, ReplayOK;
  }

  lemma ShortHandoverIsSafe(t: Trace, cfg: Config, skew: nat, delay: nat, h: Hand, u: Trace, q: nat)
    requires delay <= cfg.window + skew && skew <= cfg.window
    ensures !HandedRepeats(t, cfg, skew, delay, h, u, q)
  {
    hide Inv, Enabled, Relied, Do, Initial, Repeats, Checkpoints, TakenUp, Lately;
    if HandedRepeats(t, cfg, skew, delay, h, u, q) {
      var w, n := Last(t), |t.steps|;
      var p := ReachesTo(w, cfg, skew);
      forall i | 0 <= i < n && Notes(t.steps[i]) ensures p <= t.run[i].now <= p + 2 * cfg.window {
        RunNow(t.run, t.steps, cfg, i, n);
      }
      LatelyRun(t.run, t.steps, cfg, p, n);
      EveryRunIsSafe(t.run, t.steps, cfg, n);
      TakenUpIsSafe(w, cfg, skew, h, u);
      NeverRepeats(Last(u), cfg, q);
    }
  }

  lemma TakenUpIsSafe(w: World, cfg: Config, skew: nat, h: Hand, u: Trace)
    requires Inv(w, cfg) && Checkpoints(w, cfg, skew, h)
    requires Lately(w.stream, w.s.delivered, w.sent, ReachesTo(w, cfg, skew))
    requires Continues(u.run, u.steps, cfg) && u.run[0] == TakenUp(w, skew, h)
    ensures Inv(Last(u), cfg)
  {
    hide Inv, Enabled, Relied, Do, RestoredSession, InFlight, Carries, Truthful, OwnMarks, Lists, CarriesLoose;
    hide LeavesOut, Lately, Listed, SinceKnown;
    LatelyCarried(w, cfg, skew, h);
    RestoredRunIsSafe(w, cfg, h.stored, h.ids, h.inflight, h.top, h.now, Away(Before(w.now, skew), h.fromSeq, 0, false),
                      u.run, u.steps, |u.steps|);
  }

  // ---------------------------------------------------------------- the first replay, from the cursor

  /** A message a replay would hand on if it had no id for it. */
  ghost predicate ServedStill(w: World, q: nat) {
    && Stored(w.stream, q) && q !in w.gone
    && exists f :: f in w.s.subs && Serves(w.s.subs[f], At(w.stream, q), w.s.client)
  }

  lemma TakenUpIs(w: World, cfg: Config, skew: nat, h: Hand)
    requires Inv(w, cfg) && Checkpoints(w, cfg, skew, h)
    ensures var v := TakenUp(w, skew, h);
            && v.stream == w.stream && v.gone == w.gone && v.sent == w.sent + InFlight(w.stream, h.inflight)
            && v.s.subs == w.s.subs && v.s.client == w.s.client && v.s.cur.next == w.s.cur.next
            && v.s.delivered == RestoreIds(h.inflight, h.ids, h.now)
            && v.replay.NoReplay? && v.away.Some? && v.s.cur.holes.Keys <= w.s.cur.holes.Keys
  {
    hide Inv, InFlight, RestoreIds, PutHoles, UnsentHoles, Listed, OwnMarks, SinceKnown, Highest;
    RuleParts(w, cfg);
    RestoredHoles(w.stream, w.s.cur, w.sent, h.inflight, h.stored);
  }

  /** The ids a restored session knows. */
  lemma TakenUpKnows(w: World, cfg: Config, skew: nat, h: Hand, id: Id)
    requires Checkpoints(w, cfg, skew, h)
    ensures id in RestoreIds(h.inflight, h.ids, h.now) <==>
            || id in h.inflight
            || (id in w.s.delivered
                && Kept(w.s.delivered[id], LowestSeq(h.fromSeq, w.s.cur.next), ReachesTo(w, cfg, skew)))
  {
    hide RestoreIds, Lists, OwnMarks, SinceKnown, Kept;
    var ids := h.ids;
    forall i, j | 0 <= i < |ids| && 0 <= j < |ids| && ids[i].id == ids[j].id ensures ids[i] == ids[j] {
      assert ids[i] in ids && ids[j] in ids;
    }
    RestoredIds(h.inflight, ids, h.now, id);
    if i :| 0 <= i < |ids| && ids[i].id == id { assert ids[i] in ids; }
    if id in w.s.delivered && Kept(w.s.delivered[id], LowestSeq(h.fromSeq, w.s.cur.next), ReachesTo(w, cfg, skew)) {
      assert Entry(w.s.delivered[id].seqNo, id) in ids;
    }
  }

  /** A message sent is no hole, and one at or above the cursor is known. */
  lemma SentFacts(w: World, cfg: Config, q: nat)
    requires Inv(w, cfg) && q in w.sent && Named(w.stream, q) && w.s.cur.next != 0
    ensures q !in w.s.cur.holes && (q >= w.s.cur.next ==> Marked(w.stream, w.s.delivered, q))
  {
    hide StreamOK, NothingSkipped, MarksOK, ForgottenLate, ReadOK, RecentFrom, SubsOK, ReplayOK;
  }

  /**
    The replay a restored cursor begins would send a message again exactly when it was noted without its sequence,
    before the time the record reaches back to, lies at or above the cursor, and is not among those in flight.
   */
  lemma CursorReplayExact(w: World, cfg: Config, skew: nat, h: Hand, q: nat)
    requires Inv(w, cfg) && Checkpoints(w, cfg, skew, h)
    ensures Can(TakenUp(w, skew, h), cfg, BeginReplay)
    ensures Repeats(Do(TakenUp(w, skew, h), cfg, BeginReplay), q) <==>
            && q >= w.s.cur.next && Loose(w.stream, w.s.delivered, q) && ServedStill(w, q)
            && w.s.delivered[At(w.stream, q).id].at < ReachesTo(w, cfg, skew) && At(w.stream, q).id !in h.inflight
  {
    hide Inv, Checkpoints, TakenUp, RestoreIds, Serves;
    TakenUpIs(w, cfg, skew, h);
    assert w.s.cur.next != 0 by { CheckpointNext(w, cfg, skew, h); }
    var v := Do(TakenUp(w, skew, h), cfg, BeginReplay);
    if Stored(w.stream, q) {
      TakenUpKnows(w, cfg, skew, h, At(w.stream, q).id);
      if Repeats(v, q) {
        SentFacts(w, cfg, q);
      } else if Loose(w.stream, w.s.delivered, q) {
        MarkedIsSent(w, cfg, q);
      }
    }
  }

  lemma CheckpointNext(w: World, cfg: Config, skew: nat, h: Hand)
    requires Checkpoints(w, cfg, skew, h)
    ensures w.s.cur.next != 0
  {
    hide Lists, OwnMarks, SinceKnown, Listed;
  }

  // ---------------------------------------------------------------- runs that send a message again

  lemma KeptRun(t: Trace, cfg: Config)
    requires RunsBut(t, cfg, -1)
    ensures IsRun(t.run, t.steps, cfg)
  {
    hide Enabled, Relied, Do, Initial;
  }

  /** A session subscribed to "b", with a cursor. */
  lemma Subscribed(cfg: Config) returns (t: Trace)
    ensures RunsBut(t, cfg, -1) && |t.run| == |t.steps| + 1 && Last(t) == StartedB()
    ensures forall i :: 0 <= i < |t.steps| ==> Sequenced(t.run[i], t.steps[i])
  {
    hide RunsBut;
    t := Begin(cfg, -1);
    t := Then(t, cfg, -1, Subscribe(Plain(0, "b", None)));
    assert Last(t).s.subs == map["b" := Plain(0, "b", None)];
    t := Then(t, cfg, -1, ReadEnd);
    assert FillSince(Last(t).s.subs, {0}, 0) == map["b" := B];
    t := Then(t, cfg, -1, FillSinceStep({0}, true, false, 0, 0));
  }

  /** "m" noted without its sequence, `delay` ago. */
  function Noted0(delay: nat): World {
    StartedB().(stream := [M], now := delay, sent := {1},
                s := StartedB().s.(delivered := map["m" := Mark(0, 0)]))
  }

  lemma NoteUnsequenced(cfg: Config, delay: nat) returns (t: Trace)
    ensures RunsBut(t, cfg, -1) && |t.run| == |t.steps| + 1 && Last(t) == Noted0(delay)
  {
    hide RunsBut, Queued;
    t := Subscribed(cfg);
    t := Then(t, cfg, -1, Append(M));
    assert Last(t).stream == [M];
    QueuedM();
    t := Then(t, cfg, -1, DeliverOther("m"));
    assert Last(t).s.delivered == map["m" := Mark(0, 0)] && Last(t).sent == {1};
    t := Then(t, cfg, -1, Tick(delay));
  }

  const NO_IDS: Delivered := map[]

  /**
    "m" is noted without its sequence, and the record made longer after that than it reaches back does not name it:
    the replay from the restored cursor sends it again.
   */
  lemma UnsequencedHandover(cfg: Config, skew: nat, delay: nat) returns (t: Trace, h: Hand, u: Trace)
    requires delay > cfg.window + skew
    ensures HandedRepeats(t, cfg, skew, delay, h, u, 1) && u.steps == [BeginReplay]
  {
    hide RunsBut, Repeats, Do, Enabled, Relied, TakenUp, IsRun, Inv;
    t := NoteUnsequenced(cfg, delay);
    KeptRun(t, cfg);
    h := Hand(0, [], [], NO_IDS, 0, delay);
    var w := Last(t);
    EveryRunIsSafe(t.run, t.steps, cfg, |t.steps|);
    OneStored();
    assert Checkpoints(w, cfg, skew, h);
    assert ServedStill(w, 1) by {
      PlainMatch('b', 'b');
      assert Serves(w.s.subs["b"], M, "c");
    }
    CursorReplayExact(w, cfg, skew, h, 1);
    u := Trace([TakenUp(w, skew, h), Do(TakenUp(w, skew, h), cfg, BeginReplay)], [BeginReplay]);
  }

  // ---------------------------------------------------------------- ... and one below the cursor

  const N := Msg("n", "b", 1, "p", 0)

  lemma TwoStored()
    ensures forall q :: Stored([M, N], q) <==> q == 1 || q == 2
    ensures At([M, N], 1) == M && At([M, N], 2) == N
  {
  }

  /** "n" sent at sequence 2, `delay` ago, and passed by the cursor; "m" aged out before it was sent. */
  function Passed(delay: nat): World {
    StartedB().(stream := [M, N], gone := {1}, now := delay, sent := {2},
                s := StartedB().s.(cur := Cursor(3, map[], map[], 1, 0, 0, 0), delivered := map["n" := Mark(0, 2)],
                                   maxDelivered := 2))
  }

  lemma ReadN()
    ensures ScanRead([M, N], {1}, map["b" := B], "c", 1, 2) == [Scanned(2, "n", true)]
  {
    hide Matches;
    PlainMatch('b', 'b');
    TwoStored();
    var subs := map["b" := B];
    assert OwesAt(subs["b"], N, 2, "c");
    assert ScanRead([M, N], {1}, subs, "c", 3, 2) == [];
    assert ScanRead([M, N], {1}, subs, "c", 2, 2) == [Scanned(2, "n", true)];
  }

  lemma PassN(s: Session, cfg: Config)
    requires s.delivered == map["n" := Mark(0, 2)] && s.cur.base == 0
    ensures AddHoles(s, cfg, [Scanned(2, "n", true)], 3) == (s, true) && CountAbove(s.delivered, 3) == 0
  {
    assert [Scanned(2, "n", true)][1..] == [];
    assert AddHoles(s, cfg, [], 3) == (s, true);
    assert (set id | id in s.delivered && s.delivered[id].seqNo >= 3) == {};
  }

  /** Sent, before the scan. */
  function SentN(): World {
    StartedB().(stream := [M, N], gone := {1}, sent := {2},
                s := StartedB().s.(cur := Cursor(1, map[], map[], 1, 1, 0, 0), delivered := map["n" := Mark(0, 2)],
                                   maxDelivered := 2))
  }

  lemma StoreBoth(cfg: Config) returns (t: Trace)
    ensures RunsBut(t, cfg, -1) && |t.run| == |t.steps| + 1
    ensures Last(t) == StartedB().(stream := [M, N], gone := {1})
    ensures forall i :: 0 <= i < |t.steps| ==> Sequenced(t.run[i], t.steps[i])
  {
    hide RunsBut, Queued;
    t := Subscribed(cfg);
    t := Then(t, cfg, -1, Append(M));
    assert Last(t).stream == [M];
    OneStored();
    t := Then(t, cfg, -1, Append(N));
    assert Last(t).stream == [M, N];
    t := Then(t, cfg, -1, Expire(1));
  }

  lemma SendN(cfg: Config) returns (t: Trace)
    ensures RunsBut(t, cfg, -1) && |t.run| == |t.steps| + 1 && Last(t) == SentN()
    ensures forall i :: 0 <= i < |t.steps| ==> Sequenced(t.run[i], t.steps[i])
  {
    hide RunsBut, Queued, Prune;
    t := StoreBoth(cfg);
    TwoStored();
    t := Then(t, cfg, -1, Deliver(2));
    assert Last(t).s.delivered == map["n" := Mark(0, 2)] && Last(t).sent == {2};
  }

  lemma PassSent(cfg: Config, delay: nat) returns (t: Trace)
    ensures RunsBut(t, cfg, -1) && |t.run| == |t.steps| + 1 && Last(t) == Passed(delay)
    ensures forall i :: 0 <= i < |t.steps| ==> Sequenced(t.run[i], t.steps[i])
  {
    hide RunsBut, ScanRead, AddHoles, CountAbove, Keys;
    t := SendN(cfg);
    t := Then(t, cfg, -1, BeginScan);
    ReadN();
    t := Then(t, cfg, -1, ReadScan);
    PassN(Last(t).s, cfg);
    t := Then(t, cfg, -1, EndScan(0));
    t := Then(t, cfg, -1, Tick(delay));
  }

  /** The restored session: it knows nothing of "n". */
  function Forgetful(delay: nat, skew: nat, cur: Cursor, lateSeq: nat, sure: bool): World {
    var at := Before(delay, skew);
    Passed(delay).(s := StartedB().s.(cur := cur), prunedAt := at, away := Some(Away(at, 0, lateSeq, sure)))
  }

  lemma PassedTakenUp(skew: nat, delay: nat)
    ensures TakenUp(Passed(delay), skew, Hand(0, [], [], NO_IDS, 0, delay)) ==
            Forgetful(delay, skew, Cursor(3, map[], map[], 1, 0, 0, 0), 0, false)
  {
    assert InFlight([M, N], NO_IDS) == {};
    assert RestoreIds(NO_IDS, [], delay) == NO_IDS && Highest([], 0) == 0 && UnsentHoles(NO_IDS, 3, []) == [];
    assert {2} + {} == {2};
  }

  /** Its cursor is dropped, and a late copy of "m" arrives. */
  lemma DropAndLate(cfg: Config, skew: nat, delay: nat)
    ensures var a := Forgetful(delay, skew, Cursor(3, map[], map[], 1, 0, 0, 0), 0, false);
            var b := Forgetful(delay, skew, Cursor(0, map[], map[], 2, 0, 0, 0), 0, true);
            var c := Forgetful(delay, skew, Cursor(0, map[], map[], 2, 0, 0, 0), 1, true);
            && Can(a, cfg, DropCursor) && Do(a, cfg, DropCursor) == b
            && Can(b, cfg, LateCopy(1)) && Do(b, cfg, LateCopy(1)) == c
  {
    TwoStored();
  }

  /** The replay that starts there finds no id for "n". */
  lemma LateStart(cfg: Config, skew: nat, delay: nat)
    ensures var c := Forgetful(delay, skew, Cursor(0, map[], map[], 2, 0, 0, 0), 1, true);
            var step := BeginReplayFrom(false, 1);
            Can(c, cfg, step) && Repeats(Do(c, cfg, step), 2)
  {
    hide RecentFrom, Matches;
    TwoStored();
    var c := Forgetful(delay, skew, Cursor(0, map[], map[], 2, 0, 0, 0), 1, true);
    assert Can(c, cfg, BeginReplayFrom(false, 1));
    var d := Do(c, cfg, BeginReplayFrom(false, 1));
    assert d.s.subs["b"] == B && d.replay.snapshot == {};
    assert Serves(d.s.subs["b"], N, "c") by { PlainMatch('b', 'b'); }
  }

  lemma LateAfterDrop(cfg: Config, skew: nat, delay: nat) returns (u: Trace)
    ensures Continues(u.run, u.steps, cfg) && |u.run| == |u.steps| + 1
    ensures u.run[0] == Forgetful(delay, skew, Cursor(3, map[], map[], 1, 0, 0, 0), 0, false)
    ensures u.steps == [DropCursor, LateCopy(1), BeginReplayFrom(false, 1)] && Repeats(Last(u), 2)
  {
    hide Enabled, Relied, Do, Repeats, Forgetful;
    var a := Forgetful(delay, skew, Cursor(3, map[], map[], 1, 0, 0, 0), 0, false);
    var b := Forgetful(delay, skew, Cursor(0, map[], map[], 2, 0, 0, 0), 0, true);
    var c := Forgetful(delay, skew, Cursor(0, map[], map[], 2, 0, 0, 0), 1, true);
    var step := BeginReplayFrom(false, 1);
    DropAndLate(cfg, skew, delay);
    LateStart(cfg, skew, delay);
    u := Trace([a, b, c, Do(c, cfg, step)], [DropCursor, LateCopy(1), step]);
  }

  /**
    "n" is noted with its sequence and passed by the cursor, and the record made longer after that than it reaches
    back does not name it. The restored session takes its sequence window for known: once its cursor is dropped, a
    late copy starts a replay below "n", which sends it again.
   */
  lemma SequencedHandover(cfg: Config, skew: nat, delay: nat) returns (t: Trace, h: Hand, u: Trace)
    requires delay > cfg.window + skew
    ensures HandedRepeats(t, cfg, skew, delay, h, u, 2) && AllSequenced(t)
  {
    hide RunsBut, Repeats, Do, Enabled, Relied, TakenUp, IsRun, Sequenced;
    t := PassSent(cfg, delay);
    KeptRun(t, cfg);
    h := Hand(0, [], [], NO_IDS, 0, delay);
    TwoStored();
    assert Checkpoints(Last(t), cfg, skew, h);
    PassedTakenUp(skew, delay);
    u := LateAfterDrop(cfg, skew, delay);
  }

  // ---------------------------------------------------------------- the cursor's replay needs only its marks

  lemma {:induction false} LooseLately(run: seq<World>, steps: seq<Step>, cfg: Config, p: nat, i: nat)
    requires IsRun(run, steps, cfg) && i < |run|
    requires forall j :: 0 <= j < |steps| && Notes(steps[j]) ==> run[j].now >= p
    ensures LooseSince(run[i].stream, run[i].s.delivered, p)
    decreases i
  {
    hide Enabled, Relied, Do, LooseSince, Initial, Sequenced;
    if i == 0 {
      NothingLoose(run[0], p);
    } else {
      LooseLately(run, steps, cfg, p, i - 1);
      SequencedOrNotes(run[i - 1], steps[i - 1]);
      LooseStep(run[i - 1], cfg, steps[i - 1], p);
    }
  }

  lemma SequencedOrNotes(w: World, step: Step)
    ensures Sequenced(w, step) || Notes(step)
  {
  }

  lemma ShortCursorIsSafe(t: Trace, cfg: Config, skew: nat, delay: nat, h: Hand, u: Trace, q: nat)
    requires delay <= cfg.window + skew
    ensures !(HandedRepeats(t, cfg, skew, delay, h, u, q) && u.steps == [BeginReplay])
  {
    hide Inv, Enabled, Relied, Do, Initial, Repeats, Checkpoints, TakenUp, LooseSince;
    if HandedRepeats(t, cfg, skew, delay, h, u, q) && u.steps == [BeginReplay] {
      var w, n := Last(t), |t.steps|;
      var p := ReachesTo(w, cfg, skew);
      EveryRunIsSafe(t.run, t.steps, cfg, n);
      LooseLately(t.run, t.steps, cfg, p, n);
      CursorReplayExact(w, cfg, skew, h, q);
      assert u.run[1] == Do(u.run[0], cfg, u.steps[0]);
      LooseAt(w.stream, w.s.delivered, p, q);
    }
  }

  lemma LooseAt(st: Stream, delivered: Delivered, from: nat, q: nat)
    requires LooseSince(st, delivered, from) && Loose(st, delivered, q)
    ensures delivered[At(st, q).id].at >= from
  {
  }

  // ---------------------------------------------------------------- exact conditions

  /**
    For deliveries at most `delay` old when a record is made, some handover sends a message again exactly when the
    delay is longer than the record reaches back, whether or not a message is noted without its sequence. The skew
    is to be no longer than the rewind, which is how far a pass keeps ids beyond a replay's reach; a longer delay
    repeats a message whatever the skew.
   */
  lemma HandoverExact(cfg: Config, skew: nat, delay: nat)
    ensures delay > cfg.window + skew ==>
              exists t, h, u, q :: HandedRepeats(t, cfg, skew, delay, h, u, q) && AllSequenced(t)
    ensures skew <= cfg.window ==>
              ((exists t, h, u, q :: HandedRepeats(t, cfg, skew, delay, h, u, q)) <==> delay > cfg.window + skew)
  {
    hide Handed, Repeats, AllSequenced, TakenUp;
    if delay > cfg.window + skew {
      var t, h, u := SequencedHandover(cfg, skew, delay);
      assert HandedRepeats(t, cfg, skew, delay, h, u, 2) && AllSequenced(t);
    } else if skew <= cfg.window {
      forall t, h, u, q ensures !HandedRepeats(t, cfg, skew, delay, h, u, q) {
        ShortHandoverIsSafe(t, cfg, skew, delay, h, u, q);
      }
    }
  }

  /** A run through a record in which the replay the restored cursor begins sends a message again. */
  ghost predicate CursorRepeats(t: Trace, cfg: Config, skew: nat, delay: nat, h: Hand, u: Trace, q: nat) {
    HandedRepeats(t, cfg, skew, delay, h, u, q) && u.steps == [BeginReplay]
  }

  /** The same for that replay, whatever the skew: it needs only the marks without a sequence. */
  lemma CursorHandoverExact(cfg: Config, skew: nat, delay: nat)
    ensures (exists t, h, u, q :: CursorRepeats(t, cfg, skew, delay, h, u, q)) <==> delay > cfg.window + skew
  {
    hide HandedRepeats;
    if delay > cfg.window + skew {
      var t, h, u := UnsequencedHandover(cfg, skew, delay);
      assert CursorRepeats(t, cfg, skew, delay, h, u, 1);
    } else {
      forall t, h, u, q ensures !CursorRepeats(t, cfg, skew, delay, h, u, q) {
        ShortCursorIsSafe(t, cfg, skew, delay, h, u, q);
      }
    }
  }
}
