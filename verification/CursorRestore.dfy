/**
  A cursor handed to another broker through the session's record (restore.go, session.go: markAwayRestored,
  cursor.go: restoreCursorLocked): what is restored keeps both of the cursor's rules, and a session whose record
  left out only what a pruning pass could have forgotten goes on as one that never left memory.
 */
module CursorRestore {
  import opened Topics
  import opened Cursors
  import opened CursorRuns
  import opened CursorSafety
  import opened CursorTheorems
  import opened Records

  /** cursorView.stored: the holes, lowest sequence first. */
  ghost predicate Lists(stored: seq<Entry>, holes: map<nat, Id>) {
    && (forall e :: e in stored <==> e.seqNo in holes && holes[e.seqNo] == e.id)
    && Rising(stored)
  }

  ghost predicate Rising(s: seq<Entry>) { forall i, j :: 0 <= i < j < |s| ==> s[i].seqNo < s[j].seqNo }

  lemma {:induction false} UnsentIn(delivered: Delivered, next: nat, stored: seq<Entry>, e: Entry)
    ensures e in UnsentHoles(delivered, next, stored) <==>
            e in stored && e.seqNo < next && e.id != "" && e.id !in delivered
    decreases |stored|
  {
    if stored != [] {
      UnsentIn(delivered, next, stored[1..], e);
      assert stored == [stored[0]] + stored[1..];
    }
  }

  lemma {:induction false} UnsentAscends(delivered: Delivered, next: nat, stored: seq<Entry>)
    requires Rising(stored)
    ensures Rising(UnsentHoles(delivered, next, stored))
    decreases |stored|
  {
    if stored != [] {
      var rest := UnsentHoles(delivered, next, stored[1..]);
      UnsentAscends(delivered, next, stored[1..]);
      forall k | 0 <= k < |rest|
        ensures rest[k].seqNo > stored[0].seqNo
      {
        UnsentIn(delivered, next, stored[1..], rest[k]);
      }
    }
  }

  /** The messages the record lists in flight, which the resend owes: they count as sent. */
  function InFlight(st: Stream, inflight: Delivered): set<nat> {
    set q | 1 <= q <= |st| && At(st, q).id in inflight && At(st, q).id != ""
  }

  /** An in-flight message of the queue is noted with its own sequence. */
  ghost predicate OwnMarks(st: Stream, inflight: Delivered) {
    forall q :: Named(st, q) && At(st, q).id in inflight ==> inflight[At(st, q).id].seqNo == q
  }

  /** The highest sequence among `ids`, or `top`. */
  function Highest(ids: seq<Entry>, top: nat): (r: nat)
    ensures r >= top && forall e :: e in ids ==> e.seqNo <= r
    decreases |ids|
  {
    if ids == [] then top else Highest(ids[1..], if ids[0].seqNo > top then ids[0].seqNo else top)
  }

  /** The cursor a successor restores, and then the ids. `top` is the highest sequence noted in flight. */
  function RestoredSession(s: Session, inflight: Delivered, top: nat, stored: seq<Entry>, ids: seq<Entry>,
                           now: nat): Session {
    var fresh_ := Cursors.Session(s.client, Cursor(0, map[], map[], 0, 0, 0, 0), inflight, 0, s.subs);
    RestoreCursor(fresh_, s.cur.next, stored).(delivered := RestoreIds(inflight, ids, now),
                                               maxDelivered := Highest(ids, top))
  }

  lemma NoHolesBelow(st: Stream, c: Cursor, sent: set<nat>, bound: nat)
    requires c.holes == map[] && c.holeAt == map[]
    ensures HolesBelow(st, c, sent, bound)
  {
  }

  lemma RestoredHoles(st: Stream, c: Cursor, sent: set<nat>, inflight: Delivered, stored: seq<Entry>)
    requires HolesOK(st, c, sent) && UniqueIds(st) && Lists(stored, c.holes)
    ensures var after := sent + InFlight(st, inflight);
            var d := PutHoles(Cursor(c.next, map[], map[], 1, 0, 0, 0), UnsentHoles(inflight, c.next, stored));
            && HolesBelow(st, d, after, c.next) && d.next == c.next && d.pin == 0
            && forall q :: q in d.holes <==> q in c.holes && c.holes[q] !in inflight
  {
    hide UniqueIds, PutHoles, UnsentHoles;
    var after, empty := sent + InFlight(st, inflight), Cursor(c.next, map[], map[], 1, 0, 0, 0);
    var holes := UnsentHoles(inflight, c.next, stored);
    forall e ensures e in holes <==> e in stored && e.seqNo < c.next && e.id != "" && e.id !in inflight {
      UnsentIn(inflight, c.next, stored, e);
    }
    UnsentAscends(inflight, c.next, stored);
    forall e | e in holes
      ensures Named(st, e.seqNo) && e.id == At(st, e.seqNo).id && e.seqNo < c.next && e.seqNo !in after
    {
      assert e.seqNo in c.holes && c.holes[e.seqNo] == e.id;
    }
    NoHolesBelow(st, empty, after, c.next);
    PutHolesBelow(st, empty, after, c.next, holes);
    var d := PutHoles(empty, holes);
    forall q ensures q in d.holes <==> q in c.holes && c.holes[q] !in inflight {
      if q in c.holes && c.holes[q] !in inflight { assert Entry(q, c.holes[q]) in stored; }
    }
  }

  /** A mark of a queued message is at its own sequence, or without one. */
  ghost predicate MarksFit(st: Stream, delivered: Delivered) {
    forall q :: Named(st, q) && At(st, q).id in delivered ==>
                  delivered[At(st, q).id].seqNo == q || delivered[At(st, q).id].seqNo == 0
  }

  /** The record carries the queued messages at or above the cursor that are known without their sequence. */
  ghost predicate CarriesLoose(st: Stream, ids: seq<Entry>, delivered: Delivered, cursor: nat) {
    forall q :: Loose(st, delivered, q) && q >= cursor ==> Entry(0, At(st, q).id) in ids
  }

  /** A message the record carries or lists in flight is known once it is restored. */
  lemma CarriedIsMarked(st: Stream, delivered: Delivered, inflight: Delivered, ids: seq<Entry>, now: nat, q: nat)
    requires Named(st, q) && MarksFit(st, delivered) && OwnMarks(st, inflight) && Truthful(ids, delivered)
    requires At(st, q).id in inflight || exists e :: e in ids && e.id == At(st, q).id
    ensures Marked(st, RestoreIds(inflight, ids, now), q)
  {
    var id := At(st, q).id;
    forall i, j | 0 <= i < |ids| && 0 <= j < |ids| && ids[i].id == ids[j].id ensures ids[i] == ids[j] {
      assert ids[i] in ids && ids[j] in ids;
    }
    RestoredIds(inflight, ids, now, id);
    if i :| 0 <= i < |ids| && ids[i].id == id { assert ids[i] in ids; }
  }

  /** Every message sent at or above the cursor is known. */
  lemma RestoredKnown(st: Stream, delivered: Delivered, sent: set<nat>, inflight: Delivered, ids: seq<Entry>, next: nat,
                      now: nat, q: nat)
    requires KnownFrom(st, delivered, sent, next) && OwnMarks(st, inflight) && Carries(ids, delivered, next)
    requires Truthful(ids, delivered) && CarriesLoose(st, ids, delivered, next)
    requires MarksFit(st, delivered)
    requires q in sent + InFlight(st, inflight) && q >= next && Named(st, q)
    ensures Marked(st, RestoreIds(inflight, ids, now), q)
  {
    hide RestoreIds;
    var id := At(st, q).id;
    if q in sent {
      assert Marked(st, delivered, q);
      assert Entry(delivered[id].seqNo, id) in ids;
    }
    CarriedIsMarked(st, delivered, inflight, ids, now, q);
  }

  lemma RuleParts(w: World, cfg: Config)
    requires Inv(w, cfg)
    ensures NothingSkipped(w.stream, w.gone, w.s, w.sent, w.origin) && HolesOK(w.stream, w.s.cur, w.sent)
    ensures UniqueIds(w.stream)
    ensures w.s.cur.next != 0 ==> KnownFrom(w.stream, w.s.delivered, w.sent, w.s.cur.next)
    ensures MarksFit(w.stream, w.s.delivered)
  {
    hide NothingSkipped, KnownFrom, HolesOK, ForgottenLate, ReadOK, RecentFrom, ReplayOK, SubsOK;
  }

  /**
    A successor that restores the cursor with the ids its record carries keeps both rules, for what was sent and
    what the record lists in flight: nothing owed is skipped, nothing delivered is forgotten, and the holes are
    unsent messages below the cursor with their index.
   */
  lemma RestoreKeepsRules(w: World, cfg: Config, stored: seq<Entry>, ids: seq<Entry>, inflight: Delivered, top: nat,
                          now: nat)
    requires Inv(w, cfg) && w.s.cur.next != 0
    requires Lists(stored, w.s.cur.holes) && OwnMarks(w.stream, inflight)
    requires Carries(ids, w.s.delivered, w.s.cur.next) && Truthful(ids, w.s.delivered)
    requires CarriesLoose(w.stream, ids, w.s.delivered, w.s.cur.next)
    ensures var s := RestoredSession(w.s, inflight, top, stored, ids, now);
            var sent := w.sent + InFlight(w.stream, inflight);
            && s.cur.next == w.s.cur.next && s.cur.pin == 0
            && NothingSkipped(w.stream, w.gone, s, sent, w.origin)
            && NothingForgotten(w.stream, s.delivered, sent, s.cur.next)
            && HolesOK(w.stream, s.cur, sent)
  {
    hide Inv, Owed, KnownFrom, UniqueIds, Carries, Truthful, RestoreIds, PutHoles, UnsentHoles, HolesBelow, MarksFit;
    hide OwnMarks, Lists, CarriesLoose;
    RuleParts(w, cfg);
    RestoredHoles(w.stream, w.s.cur, w.sent, inflight, stored);
    var s, sent := RestoredSession(w.s, inflight, top, stored, ids, now), w.sent + InFlight(w.stream, inflight);
    var next := w.s.cur.next;
    assert KnownFrom(w.stream, s.delivered, sent, next) by { KnownAgain(w, inflight, ids, next, now); }
    forall q: nat | Owed(w.stream, w.gone, s.subs, s.client, q) && w.origin <= q < next
      ensures q in sent || q in s.cur.holes
    {
      if q !in w.sent { HoleOrInFlight(w, inflight, q); }
    }
  }

  lemma HoleOrInFlight(w: World, inflight: Delivered, q: nat)
    requires HolesOK(w.stream, w.s.cur, w.sent) && q in w.s.cur.holes
    ensures w.s.cur.holes[q] in inflight ==> q in InFlight(w.stream, inflight)
  {
  }

  lemma KnownAgain(w: World, inflight: Delivered, ids: seq<Entry>, next: nat, now: nat)
    requires KnownFrom(w.stream, w.s.delivered, w.sent, next) && OwnMarks(w.stream, inflight)
    requires MarksFit(w.stream, w.s.delivered)
    requires Carries(ids, w.s.delivered, next) && Truthful(ids, w.s.delivered)
    requires CarriesLoose(w.stream, ids, w.s.delivered, next)
    ensures KnownFrom(w.stream, RestoreIds(inflight, ids, now), w.sent + InFlight(w.stream, inflight), next)
  {
    hide Marked, OwnMarks, MarksFit, Carries, Truthful, RestoreIds, CarriesLoose;
    var sent := w.sent + InFlight(w.stream, inflight);
    forall q | q in sent && q >= next && Named(w.stream, q)
      ensures Marked(w.stream, RestoreIds(inflight, ids, now), q)
    {
      RestoredKnown(w.stream, w.s.delivered, w.sent, inflight, ids, next, now, q);
    }
  }

  // ---------------------------------------------------------------- the restored session goes on

  /** What the record leaves out of what was sent is what a pass at `at` could have forgotten. */
  ghost predicate LeavesOut(w: World, cfg: Config, ids: seq<Entry>, at: nat, maxDelivered: nat) {
    forall q :: q in w.sent && Named(w.stream, q) ==>
                  || (exists e :: e in ids && e.id == At(w.stream, q).id)
                  || Outlived(w.stream, q, at, cfg.window, maxDelivered)
  }

  /** The world of the successor: the stream is the same, and the absence is the one the record describes. */
  function RestoredWorld(w: World, s: Session, sent: set<nat>, now: nat, away: Away): World {
    World(w.stream, w.gone, now, w.nextKey, s, sent, w.origin, 0, away.at, 0, Some(away),
          NoScan, NoRestart, NotSubscribing, NoReplay)
  }

  lemma RestoredMarks(w: World, cfg: Config, ids: seq<Entry>, inflight: Delivered, now: nat, at: nat, maxDelivered: nat)
    requires Inv(w, cfg) && w.now <= now && OwnMarks(w.stream, inflight) && Truthful(ids, w.s.delivered)
    requires forall id :: id in inflight ==> inflight[id].at == now
    requires LeavesOut(w, cfg, ids, at, maxDelivered)
    ensures var sent := w.sent + InFlight(w.stream, inflight);
            var delivered := RestoreIds(inflight, ids, now);
            && MarksOK(w.stream, delivered, sent, now) && StreamOK(w.stream, now, sent)
            && ForgottenLate(w.stream, delivered, sent, at, cfg.window, maxDelivered)
  {
    hide NothingSkipped, KnownFrom, HolesOK, ForgottenLate, ReadOK, RecentFrom, ReplayOK, SubsOK, RestoreIds, Outlived;
    hide ScanOK, RestartOK, SubscribingOK, PinOK, NothingForgotten;
    var sent, delivered := w.sent + InFlight(w.stream, inflight), RestoreIds(inflight, ids, now);
    RuleParts(w, cfg);
    forall q | q in sent && Named(w.stream, q)
      ensures Marked(w.stream, delivered, q) || Outlived(w.stream, q, at, cfg.window, maxDelivered)
    {
      if At(w.stream, q).id in inflight || exists e :: e in ids && e.id == At(w.stream, q).id {
        CarriedIsMarked(w.stream, w.s.delivered, inflight, ids, now, q);
      }
    }
    assert ForgottenLate(w.stream, delivered, sent, at, cfg.window, maxDelivered) by {
      ForgottenIs(w.stream, delivered, sent, at, cfg.window, maxDelivered);
    }
    forall q | Named(w.stream, q) && At(w.stream, q).id in delivered
      ensures q in sent && At(w.stream, q).at <= delivered[At(w.stream, q).id].at <= now
      ensures delivered[At(w.stream, q).id].seqNo == q || Loose(w.stream, delivered, q)
    {
      RestoredMark(w, ids, inflight, now, q);
      CarriedIsMarked(w.stream, w.s.delivered, inflight, ids, now, q);
    }
  }

  lemma ForgottenIs(st: Stream, delivered: Delivered, sent: set<nat>, at: nat, window: nat, maxDelivered: nat)
    requires forall q :: q in sent && Named(st, q) ==>
             Marked(st, delivered, q) || Outlived(st, q, at, window, maxDelivered)
    ensures ForgottenLate(st, delivered, sent, at, window, maxDelivered)
  {
  }

  /** A restored mark is of a message that was sent or is in flight, and is as young as the session. */
  lemma RestoredMark(w: World, ids: seq<Entry>, inflight: Delivered, now: nat, q: nat)
    requires Truthful(ids, w.s.delivered) && (forall id :: id in inflight ==> inflight[id].at == now)
    requires MarksOK(w.stream, w.s.delivered, w.sent, w.now)
    requires Named(w.stream, q) && At(w.stream, q).id in RestoreIds(inflight, ids, now)
    ensures q in w.sent + InFlight(w.stream, inflight)
    ensures At(w.stream, q).id in inflight || exists e :: e in ids && e.id == At(w.stream, q).id
    ensures RestoreIds(inflight, ids, now)[At(w.stream, q).id].at == now
  {
    var id := At(w.stream, q).id;
    forall i, j | 0 <= i < |ids| && 0 <= j < |ids| && ids[i].id == ids[j].id ensures ids[i] == ids[j] {
      assert ids[i] in ids && ids[j] in ids;
    }
    RestoredIds(inflight, ids, now, id);
    if i :| 0 <= i < |ids| && ids[i].id == id { assert ids[i] in ids; }
  }

  /**
    A session restored from a record that carries what its cursor needs, and that left out of the rest only what a
    pass could have forgotten, satisfies every invariant of a session that never left memory.
   */
  lemma RestoredHolds(w: World, cfg: Config, stored: seq<Entry>, ids: seq<Entry>, inflight: Delivered, top: nat,
                      now: nat, away: Away)
    requires Inv(w, cfg) && w.s.cur.next != 0 && away.at <= now && w.now <= now && !away.sure
    requires Lists(stored, w.s.cur.holes) && OwnMarks(w.stream, inflight)
    requires forall id :: id in inflight ==> inflight[id].at == now
    requires Carries(ids, w.s.delivered, w.s.cur.next) && Truthful(ids, w.s.delivered)
    requires CarriesLoose(w.stream, ids, w.s.delivered, w.s.cur.next)
    requires LeavesOut(w, cfg, ids, away.at, Highest(ids, top))
    ensures var s := RestoredSession(w.s, inflight, top, stored, ids, now);
            Inv(RestoredWorld(w, s, w.sent + InFlight(w.stream, inflight), now, away), cfg)
  {
    hide Inv, Carries, Truthful, OwnMarks, Lists, CarriesLoose, LeavesOut, NothingSkipped, KnownFrom, HolesOK;
    hide MarksOK, ForgottenLate, StreamOK, Highest;
    RestoreKeepsRules(w, cfg, stored, ids, inflight, top, now);
    RestoredMarks(w, cfg, ids, inflight, now, away.at, Highest(ids, top));
    RestoredSubs(w, cfg);
    var s := RestoredSession(w.s, inflight, top, stored, ids, now);
    Assembled(RestoredWorld(w, s, w.sent + InFlight(w.stream, inflight), now, away), cfg);
  }

  lemma RestoredSubs(w: World, cfg: Config)
    requires Inv(w, cfg)
    ensures SubsOK(|w.stream|, w.s.subs, w.s.cur.next, w.nextKey)
  {
    hide StreamOK, NothingSkipped, KnownFrom, HolesOK, MarksOK, ForgottenLate, ReadOK, RecentFrom, ReplayOK, SubsOK;
  }

  lemma Assembled(w: World, cfg: Config)
    requires StreamOK(w.stream, w.now, w.sent) && NothingSkipped(w.stream, w.gone, w.s, w.sent, w.origin)
    requires NothingForgotten(w.stream, w.s.delivered, w.sent, w.s.cur.next) && HolesOK(w.stream, w.s.cur, w.sent)
    requires MarksOK(w.stream, w.s.delivered, w.sent, w.now)
    requires ForgottenLate(w.stream, w.s.delivered, w.sent, w.prunedAt, cfg.window, w.s.maxDelivered)
    requires SubsOK(|w.stream|, w.s.subs, w.s.cur.next, w.nextKey) && w.s.cur.pin == 0
    requires w.scan.NoScan? && w.restart.NoRestart? && w.subscribing.NotSubscribing? && w.replay.NoReplay?
    requires w.away.Some? && !w.away.value.sure && w.prunedAt == w.away.value.at <= w.now
    ensures Inv(w, cfg)
  {
    hide StreamOK, NothingSkipped, KnownFrom, HolesOK, MarksOK, ForgottenLate, SubsOK;
  }

  /** So every run that goes on from it is safe, through more pruning, scans, replays and absences. */
  lemma RestoredRunIsSafe(w: World, cfg: Config, stored: seq<Entry>, ids: seq<Entry>, inflight: Delivered, top: nat,
                          now: nat, away: Away, run: seq<World>, steps: seq<Step>, i: nat)
    requires Inv(w, cfg) && w.s.cur.next != 0 && away.at <= now && w.now <= now && !away.sure
    requires Lists(stored, w.s.cur.holes) && OwnMarks(w.stream, inflight)
    requires forall id :: id in inflight ==> inflight[id].at == now
    requires Carries(ids, w.s.delivered, w.s.cur.next) && Truthful(ids, w.s.delivered)
    requires CarriesLoose(w.stream, ids, w.s.delivered, w.s.cur.next)
    requires LeavesOut(w, cfg, ids, away.at, Highest(ids, top))
    requires Continues(run, steps, cfg) && i < |run|
    requires var s := RestoredSession(w.s, inflight, top, stored, ids, now);
             run[0] == RestoredWorld(w, s, w.sent + InFlight(w.stream, inflight), now, away)
    ensures Inv(run[i], cfg)
  {
    hide Inv, Enabled, Relied, Do, RestoredSession, InFlight, Carries, Truthful, OwnMarks, Lists, CarriesLoose;
    hide LeavesOut;
    RestoredHolds(w, cfg, stored, ids, inflight, top, now, away);
    EverAfter(run, steps, cfg, i);
  }
}
