/**
  The first rule of the replay cursor by itself: nothing owed is skipped in any run, whatever has been forgotten,
  however late a connection ends and wherever a replay starts. Only four of the things `Relied` names matter to it.
 */
module CursorAccounts {
  import opened Topics
  import opened Cursors
  import opened CursorRuns
  import opened CursorSafety

  // ---------------------------------------------------------------- the stream, the clock and subscriptions

  lemma AppendIds(st: Stream, m: Msg, ids: set<Id>, sent: set<nat>)
    requires IdsSent(st, ids, sent) && (m.id != "" ==> m.id !in ids)
    ensures IdsSent(st + [m], ids, sent)
  {
    AppendAt(st, m);
  }

  lemma LedgerAppend(w: World, cfg: Config, step: Step)
    requires Accounts(w) && step.Append? && Enabled(w, cfg, step)
    ensures Ledger(Do(w, cfg, step))
  {
    hide StreamOK, NothingSkipped, ReadOK, IdsSent, HolesBelow;
    var st, m := w.stream, step.m;
    AppendStream(st, m, w.now, w.sent);
    AppendSkipped(st, m, w.gone, w.s, w.sent, w.origin);
    AppendHoles(st, m, w.s.cur, {});
    AppendIds(st, m, w.s.delivered.Keys, w.sent);
    if w.scan.Read? {
      AppendRead(st, m, w.gone, w.s.subs, w.s.client, w.nextKey, w.scan.keys, w.scan.start, w.scan.last, w.scan.read);
    }
    if w.restart.RestartRead? {
      var r := w.restart.r;
      AppendRead(st, m, w.gone, w.s.subs, w.s.client, w.nextKey, r.keys, r.base, r.last, r.read);
    }
  }

  lemma AccountAppend(w: World, cfg: Config, step: Step)
    requires Accounts(w) && step.Append? && Enabled(w, cfg, step)
    ensures Accounts(Do(w, cfg, step))
  {
    hide Ledger, IdsSent, HandledOK, CoverOK;
    LedgerAppend(w, cfg, step);
    var st, m, r := w.stream, step.m, w.replay;
    if r.Replaying? {
      AppendHandled(st, m, w.s.subs, w.s.client, w.sent, r.handled);
      AppendCover(st, m, w.s.subs, w.s.client, r);
      AppendIds(st, m, r.snapshot, w.sent);
      AppendIds(st, m, r.sent, w.sent);
    }
  }

  /** Messages age out, time passes, and scans begin and are given up. */
  lemma AccountQuiet(w: World, cfg: Config, step: Step)
    requires Accounts(w) && Enabled(w, cfg, step)
    requires step.Expire? || step.Tick? || step.AbandonScans? || step.ReadEnd? || step.BeginScan?
    ensures Accounts(Do(w, cfg, step))
  {
    hide HandledOK, CoverOK, IdsSent, OwesAt, SubsOK, HolesBelow;
  }

  /** A change that only narrows the subscriptions. */
  lemma AccountNarrows(w: World, after: Subs, nextKey: nat)
    requires Accounts(w) && Narrows(w.stream, w.gone, w.s.client, w.nextKey, w.s.cur.next, w.s.subs, after)
    requires SubsOK(|w.stream|, after, w.s.cur.next, nextKey) && w.nextKey <= nextKey
    ensures Accounts(w.(s := w.s.(subs := after), nextKey := nextKey))
  {
    hide StreamOK, NothingSkipped, HolesOK, ReadOK, SubsOK, Narrows, IdsSent, HandledOK, CoverOK;
    var st, client, next := w.stream, w.s.client, w.s.cur.next;
    NarrowSkipped(st, w.gone, w.s, after, w.nextKey, w.sent, w.origin);
    if w.scan.Read? {
      NarrowRead(st, w.gone, w.s.subs, after, client, next, w.nextKey, nextKey, w.scan.keys, w.scan.start, w.scan.last,
                 w.scan.read);
    }
    if w.restart.RestartRead? {
      var r := w.restart.r;
      NarrowRead(st, w.gone, w.s.subs, after, client, next, w.nextKey, nextKey, r.keys, r.base, r.last, r.read);
    }
    if w.replay.Replaying? { NarrowHandled(w, after); }
  }

  lemma NarrowHandled(w: World, after: Subs)
    requires Narrows(w.stream, w.gone, w.s.client, w.nextKey, w.s.cur.next, w.s.subs, after) && w.replay.Replaying?
    requires HandledOK(w.stream, w.s.subs, w.s.client, w.sent, w.replay.handled)
    requires CoverOK(w.stream, w.s.subs, w.s.client, w.replay)
    ensures HandledOK(w.stream, after, w.s.client, w.sent, w.replay.handled)
    ensures CoverOK(w.stream, after, w.s.client, w.replay)
  {
    hide Owed, Served, CoveredBy;
    var st, r := w.stream, w.replay;
    forall q | q in r.handled ensures SettledAt(st, after, w.s.client, w.sent, q) {
      assert SettledAt(st, w.s.subs, w.s.client, w.sent, q);
    }
    if r.last.Some? {
      forall q | q <= r.last.value && Served(st, after, w.s.client, q)
        ensures Stored(st, q) && CoveredBy(r.cover.value, At(st, q))
      {
        ServedIsStored(st, w.s.subs, w.s.client, q);
      }
    }
  }

  lemma AccountSubscribe(w: World, cfg: Config, step: Step)
    requires Accounts(w) && (step.Subscribe? || step.Unsubscribe?) && Enabled(w, cfg, step)
    ensures Accounts(Do(w, cfg, step))
  {
    hide StreamOK, NothingSkipped, ReadOK, Narrows, HolesBelow, KeepsSince, ReplayLedger, IdsSent, Serves;
    if step.Subscribe? {
      assert SubsOK(|w.stream|, w.s.subs, w.s.cur.next, w.nextKey);
      hide SubsOK;
      InstallNarrows(w.stream, w.gone, w.s, step.sub, w.nextKey);
      InstallSubs(|w.stream|, w.s, step.sub, w.nextKey);
      AccountNarrows(w, Install(w.s, step.sub).subs, w.nextKey + 1);
    } else {
      RemoveNarrows(w, step.filter);
      AccountNarrows(w, Remove(w.s, step.filter).subs, w.nextKey);
    }
  }

  lemma RemoveNarrows(w: World, filter: string)
    requires SubsOK(|w.stream|, w.s.subs, w.s.cur.next, w.nextKey)
    ensures Narrows(w.stream, w.gone, w.s.client, w.nextKey, w.s.cur.next, w.s.subs, Remove(w.s, filter).subs)
    ensures SubsOK(|w.stream|, Remove(w.s, filter).subs, w.s.cur.next, w.nextKey)
  {
    hide Serves;
  }

  // ---------------------------------------------------------------- the cursor is set, moved or dropped

  /** A cursor that accounts for everything it passes. */
  lemma LedgerCursor(w: World, c: Cursor, origin: nat)
    requires Ledger(w) && HolesOK(w.stream, c, {})
    requires NothingSkipped(w.stream, w.gone, w.s.(cur := c), w.sent, origin)
    requires c.next <= w.s.cur.next || SinceKnown(w.s)
    ensures Ledger(w.(s := w.s.(cur := c), origin := origin))
  {
    hide StreamOK, NothingSkipped, HolesOK, ReadOK, IdsSent;
  }

  lemma LedgerDrop(w: World)
    requires Ledger(w)
    ensures Ledger(w.(s := Drop(w.s)))
  {
    hide StreamOK, ReadOK, IdsSent, SubsOK;
    NoCursorSubs(|w.stream|, w.s.subs, w.s.cur.next, w.nextKey);
  }

  lemma NoCursorSubs(n: nat, subs: Subs, next: nat, nextKey: nat)
    requires SubsOK(n, subs, next, nextKey)
    ensures SubsOK(n, subs, 0, nextKey)
  {
  }

  lemma LedgerWith(w: World, s: Session)
    requires Ledger(w.(s := s))
    ensures Ledger(With(w, s)) && With(w, s) == w.(s := s, lateSeq := With(w, s).lateSeq, away := With(w, s).away)
  {
    hide StreamOK, NothingSkipped, HolesOK, ReadOK, IdsSent, SubsOK;
  }

  /** A SUBSCRIBE that starts the cursor starts it above nothing owed. */
  lemma AccountFill(w: World, cfg: Config, step: Step)
    requires Accounts(w) && step.FillSinceStep? && Enabled(w, cfg, step) && ReliedOwed(w, cfg, step)
    ensures Accounts(Do(w, cfg, step))
  {
    hide Accounts, Narrows, SubsOK, FillSince, NothingOwedTo, SinceKnown;
    var last := if step.exact then w.subscribing.last else step.seen;
    var after := FillSince(w.s.subs, step.keys, last);
    AccountSubs(w);
    FillNarrows(w.stream, w.gone, w.s.subs, w.s.client, w.s.cur.next, w.nextKey, step.keys, last);
    AccountNarrows(w, after, w.nextKey);
    var v := w.(s := w.s.(subs := after));
    assert v == w.(s := w.s.(subs := after), nextKey := w.nextKey);
    if StartsCursor(w.s, step.keys, last, step.exact, step.hadNonShared, step.floor) {
      AccountStart(v);
      assert Do(w, cfg, step) == v.(s := v.s.(cur := SetCursor(v.s.cur, last + 1)), origin := 0,
                                    subscribing := NotSubscribing);
    } else {
      AccountAsked(v);
      assert Do(w, cfg, step) == v.(subscribing := NotSubscribing);
    }
  }

  lemma AccountSubs(w: World)
    requires Accounts(w)
    ensures SubsOK(|w.stream|, w.s.subs, w.s.cur.next, w.nextKey)
  {
    hide StreamOK, NothingSkipped, HolesOK, ReadOK, IdsSent, ReplayLedger, SubsOK;
  }

  lemma AccountAsked(w: World)
    requires Accounts(w)
    ensures Accounts(w.(subscribing := NotSubscribing))
  {
    hide StreamOK, NothingSkipped, HolesOK, ReadOK, IdsSent, ReplayLedger, SubsOK;
  }

  lemma AccountStart(w: World)
    requires Accounts(w) && w.subscribing.EndRead? && w.s.cur.next == 0 && !(w.replay.Replaying? && w.replay.ok)
    requires NothingOwedTo(w.s, w.subscribing.last) && SinceKnown(w.s)
    ensures Accounts(w.(s := w.s.(cur := SetCursor(w.s.cur, w.subscribing.last + 1)), origin := 0,
                        subscribing := NotSubscribing))
  {
    hide StreamOK, ReadOK, IdsSent, HandledOK, CoverOK, SubsOK, NothingOwedTo, SinceKnown, Owed;
    var last := w.subscribing.last;
    forall q: nat | Owed(w.stream, w.gone, w.s.subs, w.s.client, q) ensures q > last {
      OwedBelow(w.stream, w.gone, w.s, last, q);
    }
    LedgerCursor(w, SetCursor(w.s.cur, last + 1), 0);
    assert SubsOK(|w.stream|, w.s.subs, last + 1, w.nextKey);
  }

  // ---------------------------------------------------------------- a message is noted

  lemma NoteIds(st: Stream, delivered: Delivered, sent: set<nat>, id: Id, mark: Mark, more: set<nat>)
    requires IdsSent(st, delivered.Keys, sent) && forall q :: Named(st, q) && At(st, q).id == id ==> q in more
    ensures IdsSent(st, delivered[id := mark].Keys, sent + more)
  {
  }

  /** The hole that goes is that of a message that was sent. */
  lemma NoteSkipped(st: Stream, gone: set<nat>, s: Session, sent: set<nat>, origin: nat, id: Id, more: set<nat>,
                    c: Cursor)
    requires NothingSkipped(st, gone, s, sent, origin) && HolesOK(st, s.cur, {})
    requires forall q :: Named(st, q) && At(st, q).id == id ==> q in more
    requires c.next == s.cur.next && c.holes == RemoveHole(s.cur, id).holes
    ensures NothingSkipped(st, gone, s.(cur := c), sent + more, origin)
  {
    hide Owed;
    RemoveKeepsInverted(s.cur, id);
  }

  lemma RemovedHolesOK(st: Stream, c: Cursor, id: Id, above: nat)
    requires HolesOK(st, c, {})
    ensures HolesOK(st, RemoveHole(c, id).(above := above), {})
  {
    RemoveKeepsInverted(c, id);
  }

  lemma LedgerNote(w: World, id: Id, seqNo: nat, more: set<nat>)
    requires Ledger(w) && (forall q :: Named(w.stream, q) && At(w.stream, q).id == id ==> q in more)
    requires forall q :: q in more ==> Stored(w.stream, q)
    ensures Ledger(w.(s := Note(w.s, id, seqNo, w.now), sent := w.sent + more))
  {
    hide NothingSkipped, HolesOK, ReadOK, IdsSent, SubsOK, RemoveHole;
    var t := Note(w.s, id, seqNo, w.now);
    NoteIds(w.stream, w.s.delivered, w.sent, id, Mark(w.now, seqNo), more);
    RemoveIsLocal(w.s.cur, id);
    NoteSkipped(w.stream, w.gone, w.s, w.sent, w.origin, id, more, t.cur);
    RemovedHolesOK(w.stream, w.s.cur, id, t.cur.above);
    assert t.cur == RemoveHole(w.s.cur, id).(above := t.cur.above);
    SameSkipped(w.stream, w.gone, w.s.(cur := t.cur), t, w.sent + more, w.origin);
  }

  lemma SameSkipped(st: Stream, gone: set<nat>, s: Session, t: Session, sent: set<nat>, origin: nat)
    requires NothingSkipped(st, gone, s, sent, origin) && t.cur == s.cur && t.subs == s.subs && t.client == s.client
    ensures NothingSkipped(st, gone, t, sent, origin)
  {
  }

  lemma LedgerPrune(w: World, cfg: Config)
    requires Ledger(w)
    ensures Ledger(w.(s := Prune(w.s, cfg, w.now), prunedAt := w.now))
  {
    hide StreamOK, NothingSkipped, HolesOK, ReadOK, SubsOK, Prunable, KeptIds;
    var after := map k | k in w.s.delivered && !Prunable(w.s, cfg, w.s.delivered[k], w.now) :: w.s.delivered[k];
    var v := w.(s := w.s.(delivered := after), prunedAt := w.now);
    SameSkipped(w.stream, w.gone, w.s, v.s, w.sent, w.origin);
    assert Ledger(v);
    LedgerDrop(v);
  }

  lemma LedgerNoted(w: World, cfg: Config, id: Id, seqNo: nat, more: set<nat>)
    requires Ledger(w) && (forall q :: Named(w.stream, q) && At(w.stream, q).id == id ==> q in more)
    requires forall q :: q in more ==> Stored(w.stream, q)
    ensures Ledger(Noted(w, cfg, id, seqNo).(sent := w.sent + more))
  {
    hide Ledger, Note, Prune, PruneDue;
    LedgerNote(w, id, seqNo, more);
    var due := PruneDue(|Note(w.s, id, seqNo, w.now).delivered|);
    if due { LedgerPrune(w.(s := Note(w.s, id, seqNo, w.now), sent := w.sent + more), cfg); }
    var v := w.(sent := w.sent + more, prunedAt := if due then w.now else w.prunedAt);
    LedgerAt(w.(s := Note(w.s, id, seqNo, w.now), sent := w.sent + more), v.prunedAt);
    LedgerWith(v, NoteDelivered(w.s, cfg, id, seqNo, w.now));
    assert With(v, NoteDelivered(w.s, cfg, id, seqNo, w.now)) == Noted(w, cfg, id, seqNo).(sent := w.sent + more);
  }

  lemma LedgerAt(w: World, prunedAt: nat)
    requires Ledger(w)
    ensures Ledger(w.(prunedAt := prunedAt))
  {
    hide StreamOK, NothingSkipped, HolesOK, ReadOK, IdsSent, SubsOK;
  }

  lemma AccountDeliver(w: World, cfg: Config, step: Step)
    requires Accounts(w) && (step.Deliver? || step.DeliverOther?) && Enabled(w, cfg, step)
    ensures Accounts(Do(w, cfg, step))
  {
    hide Ledger, Noted;
    if step.Deliver? {
      assert StreamOK(w.stream, w.now, w.sent) by { LedgerStream(w); }
      LedgerNoted(w, cfg, At(w.stream, step.q).id, step.q, {step.q});
    } else {
      LedgerNoted(w, cfg, step.id, 0, Queued(w.stream, step.id));
    }
    assert Do(w, cfg, step).replay == NoReplay by { NotedReplay(w, cfg, step); }
  }

  lemma LedgerStream(w: World)
    requires Ledger(w)
    ensures StreamOK(w.stream, w.now, w.sent)
  {
    hide StreamOK, NothingSkipped, HolesOK, ReadOK, IdsSent, SubsOK;
  }

  lemma NotedReplay(w: World, cfg: Config, step: Step)
    requires (step.Deliver? || step.DeliverOther?) && Enabled(w, cfg, step)
    ensures Do(w, cfg, step).replay == w.replay == NoReplay
  {
    hide NoteDelivered, Note;
  }

  // ---------------------------------------------------------------- holes and scans

  lemma LedgerHole(w: World, q: nat)
    requires Ledger(w) && Named(w.stream, q) && q < w.s.cur.next && q !in w.s.cur.holes
    ensures Ledger(w.(s := w.s.(cur := PutHole(w.s.cur, q, At(w.stream, q).id))))
  {
    hide ReadOK, IdsSent, SubsOK, Owed, HolesBelow;
    PutHoleBelow(w.stream, w.s.cur, {}, w.s.cur.next, q);
  }

  lemma LedgerOffer(w: World, cfg: Config, q: nat)
    requires Ledger(w) && Stored(w.stream, q)
    ensures Ledger(w.(s := NoteLiveCopy(w.s, cfg, q, At(w.stream, q).id)))
  {
    hide Ledger, Drop, PutHole;
    if w.s.cur.next != 0 && q < w.s.cur.next && q !in w.s.cur.holes && At(w.stream, q).id != "" { LedgerHole(w, q); }
    LedgerDrop(w);
  }

  /** What a running replay needs of the cursor is that it does not move back. */
  lemma ReplayStays(st: Stream, s: Session, t: Session, sent: set<nat>, r: Replay)
    requires ReplayLedger(st, s, sent, r) && t.subs == s.subs && t.client == s.client
    requires t.cur.next == 0 || (s.cur.next != 0 && t.cur.next >= s.cur.next)
    ensures ReplayLedger(st, t, sent, r)
  {
    hide HandledOK, CoverOK, IdsSent;
  }

  lemma AccountCopy(w: World, cfg: Config, step: Step)
    requires Accounts(w) && (step.LiveCopy? || step.LateCopy? || step.DropCursor?) && Enabled(w, cfg, step)
    ensures Accounts(Do(w, cfg, step))
  {
    hide Ledger, ReplayLedger, With, NoteLate;
    var s := if step.DropCursor? then Drop(w.s) else NoteLiveCopy(w.s, cfg, step.q, At(w.stream, step.q).id);
    if step.DropCursor? { LedgerDrop(w); } else { LedgerOffer(w, cfg, step.q); }
    LedgerWith(w, s);
    ReplayStays(w.stream, w.s, s, w.sent, w.replay);
    if step.LateCopy? { LateLedger(With(w, s), step.q); }
  }

  lemma LateLedger(w: World, q: nat)
    ensures Ledger(w) ==> Ledger(NoteLate(w, q))
    ensures NoteLate(w, q) == w.(lateSeq := NoteLate(w, q).lateSeq, away := NoteLate(w, q).away)
  {
    hide StreamOK, NothingSkipped, HolesOK, ReadOK, IdsSent, SubsOK;
  }

  lemma ReadIsKept(w: World, from: nat)
    requires Ledger(w) && from >= 1 && SinceKnown(w.s)
    ensures ReadOK(w.stream, w.gone, w.s.subs, w.s.client, w.nextKey, Keys(w.s), from, |w.stream|,
                   ScanRead(w.stream, w.gone, w.s.subs, w.s.client, from, |w.stream|))
  {
    hide StreamOK, NothingSkipped, HolesOK, IdsSent, ScanOK, OwesAt, ScanRead;
    ScanReadFacts(w.stream, w.gone, w.s.subs, w.s.client, from, |w.stream|);
    forall q: nat
      ensures OwedBy(w.stream, w.gone, w.s.subs, w.s.client, Keys(w.s), q) ==>
              Owed(w.stream, w.gone, w.s.subs, w.s.client, q)
    {
    }
  }

  lemma AccountRead(w: World, cfg: Config, step: Step)
    requires Accounts(w) && (step.ReadScan? || step.ReadRestart?) && Enabled(w, cfg, step) && ReliedOwed(w, cfg, step)
    ensures Accounts(Do(w, cfg, step))
  {
    hide StreamOK, NothingSkipped, HolesOK, ReadOK, IdsSent, SubsOK, ReplayLedger, ScanRead, SinceKnown;
    ReadIsKept(w, if step.ReadScan? then w.scan.start else step.base);
  }

  /** What a scan found becomes holes. */
  lemma LedgerScan(w: World, cfg: Config, floor: nat)
    requires Ledger(w) && w.scan.Read? && w.s.cur.gen == w.scan.gen && w.s.cur.next == w.scan.start
    requires w.scan.start <= w.scan.last + 1 && SameSubs(w.s, w.scan.keys) && SinceKnown(w.s)
    ensures var sc := w.scan;
            Ledger(w.(s := ApplyScan(w.s, cfg, sc.gen, sc.start, sc.last, sc.keys, sc.read, floor).session))
  {
    hide Ledger, Drop, Honest, UniqueIds, Ascending, HolesBelow, AddHoles, Owed, CountAbove, SameSubs, SinceKnown;
    var sc := w.scan;
    var next := ScanEnd(sc.start, sc.last, floor);
    ScanFacts(w, next);
    AddHolesKeeps(w.stream, w.s, cfg, sc.read, next, {});
    var r := AddHoles(w.s, cfg, sc.read, next);
    LedgerDrop(w);
    if r.1 {
      var c := r.0.cur.(next := next, above := CountAbove(r.0.delivered, next));
      ScanSkipsNothing(w, next, c.holes);
      MovedHoles(w.stream, r.0.cur, {}, next, c.above);
      LedgerCursor(w, c, w.origin);
      assert w.(s := w.s.(cur := c), origin := w.origin) == w.(s := w.s.(cur := c));
    }
  }

  lemma ScanFacts(w: World, next: nat)
    requires Ledger(w) && w.scan.Read? && w.s.cur.next == w.scan.start && w.s.cur.next <= next
    ensures w.scan.start >= 1 && w.scan.last <= |w.stream| && HolesBelow(w.stream, w.s.cur, {}, next)
    ensures Honest(w.stream, w.s.delivered, {}, w.scan.read) && UniqueIds(w.stream) && Ascending(w.scan.read)
  {
    hide NothingSkipped, SubsOK, OwedBy, IdsSent;
  }

  lemma AccountScan(w: World, cfg: Config, step: Step)
    requires Accounts(w) && step.EndScan? && Enabled(w, cfg, step)
    ensures Accounts(Do(w, cfg, step))
  {
    hide Ledger, ReplayLedger, Drop, AddHoles, CountAbove, With, SameSubs, SinceKnown;
    var sc, floor := w.scan, step.floor;
    var s := ApplyScan(w.s, cfg, sc.gen, sc.start, sc.last, sc.keys, sc.read, floor).session;
    assert Ledger(w.(s := s)) by {
      LedgerDrop(w);
      if w.s.cur.gen == sc.gen && w.s.cur.next == sc.start && sc.start <= sc.last + 1 && SameSubs(w.s, sc.keys)
        && SinceKnown(w.s) {
        LedgerScan(w, cfg, floor);
      }
    }
    ForgetReads(w.(s := s));
    LedgerWith(w.(scan := NoScan), s);
    ScanStays(w.s, cfg, sc, floor);
    assert sc.start >= 1 by { ReadFrom(w); }
    ReplayStays(w.stream, w.s, s, w.sent, w.replay);
  }

  lemma ReadFrom(w: World)
    requires Ledger(w) && w.scan.Read?
    ensures w.scan.start >= 1
  {
    hide StreamOK, NothingSkipped, HolesOK, OwedBy, IdsSent, SubsOK;
  }

  lemma ForgetReads(w: World)
    requires Ledger(w)
    ensures Ledger(w.(scan := NoScan)) && Ledger(w.(restart := NoRestart))
  {
    hide StreamOK, NothingSkipped, HolesOK, ReadOK, IdsSent, SubsOK;
  }

  lemma {:induction false} AddHolesStays(s: Session, cfg: Config, read: seq<Scanned>, next: nat)
    ensures var r := AddHoles(s, cfg, read, next);
            && r.0.subs == s.subs && r.0.client == s.client
            && r.0.cur.next == if r.1 then s.cur.next else 0
    decreases |read|
  {
    if read != [] && read[0].seqNo < next {
      AddHolesStays(if read[0].owed then AddHole(s, cfg, read[0].seqNo, read[0].id).0 else s, cfg, read[1..], next);
    }
  }

  lemma ScanStays(s: Session, cfg: Config, sc: Scan, floor: nat)
    requires sc.Read?
    ensures var t := ApplyScan(s, cfg, sc.gen, sc.start, sc.last, sc.keys, sc.read, floor).session;
            && t.subs == s.subs && t.client == s.client
            && (t.cur.next == 0 || t.cur == s.cur || t.cur.next >= s.cur.next == sc.start)
  {
    hide SameSubs, SinceKnown, AddHoles, CountAbove;
    AddHolesStays(s, cfg, sc.read, ScanEnd(sc.start, sc.last, floor));
  }

  /** The cursor a restart sets accounts for everything from its base on. */
  lemma LedgerRestart(w: World, cfg: Config, floor: nat, next: nat, holes: seq<Entry>)
    requires Ledger(w) && w.restart.RestartRead? && RestartSets(w, cfg, floor, next, holes)
    ensures var c := PutHoles(SetCursor(w.s.cur, next).(base := w.restart.r.base), holes);
            && c.next == next && HolesBelow(w.stream, c, {}, next) && next <= |w.stream| + 1
            && forall m :: m in w.restart.r.read && m.owed && m.seqNo < next ==>
              m.id in w.s.delivered || m.seqNo in c.holes
  {
    hide NothingSkipped, HolesOK, SubsOK, OwedBy, SinceKnown, SameSubs, CountAbove, IdsSent, ScanOK;
    var r, st := w.restart.r, w.stream;
    RestartHolesFacts(w.s.delivered, r.read, next);
    var c := SetCursor(w.s.cur, next).(base := r.base);
    forall e | e in holes ensures Named(st, e.seqNo) && e.id == At(st, e.seqNo).id && e.seqNo < next {
      assert Scanned(e.seqNo, e.id, true) in r.read;
    }
    PutHolesBelow(st, c, {}, next, holes);
    forall m | m in r.read && m.owed && m.seqNo < next
      ensures m.id in w.s.delivered || m.seqNo in PutHoles(c, holes).holes
    {
      if m.id !in w.s.delivered {
        assert m == Scanned(m.seqNo, m.id, true);
        assert Entry(m.seqNo, m.id) in holes;
      }
    }
  }

  lemma AccountRestart(w: World, cfg: Config, step: Step)
    requires Accounts(w) && step.EndRestart? && Enabled(w, cfg, step)
    ensures Accounts(Do(w, cfg, step))
  {
    hide Ledger, NothingSkipped, HolesBelow, PutHoles, RestartHoles, CountAbove, SinceKnown, SameSubs, SetCursor;
    var s, r, floor := w.s, w.restart.r, step.floor;
    var next := if floor != 0 && floor < r.last + 1 then floor else r.last + 1;
    ForgetReads(w);
    if RestartCursor(s, cfg, r, floor, w.now).1 {
      var holes := RestartHoles(s.delivered, r.read, next).value;
      LedgerRestart(w, cfg, floor, next, holes);
      var d := PutHoles(SetCursor(s.cur, next).(base := r.base), holes);
      var c := d.(above := CountAbove(s.delivered, next));
      RestartSkipsNothing(w, next, c);
      assert HolesOK(w.stream, c, {}) by {
        MovedHoles(w.stream, d, {}, next, c.above);
        assert c == d.(next := next, above := c.above);
      }
      LedgerCursor(w.(restart := NoRestart), c, r.base);
    }
  }

  // ---------------------------------------------------------------- replays

  lemma NoIds(st: Stream, sent: set<nat>)
    ensures IdsSent(st, {}, sent)
  {
  }

  lemma AccountBegin(w: World, cfg: Config, step: Step)
    requires Accounts(w) && (step.BeginReplay? || step.BeginReplayFrom?) && Enabled(w, cfg, step)
    ensures Accounts(Do(w, cfg, step))
  {
    hide StreamOK, ReadOK, IdsSent, SubsOK, Owed, StartsAt, ScanOK;
    NoIds(w.stream, w.sent);
  }

  lemma AccountCover(w: World, cfg: Config, step: Step)
    requires Accounts(w) && (step.ChooseCover? || step.ReadLast?) && Enabled(w, cfg, step) && ReliedOwed(w, cfg, step)
    ensures Accounts(Do(w, cfg, step))
  {
    hide StreamOK, NothingSkipped, HolesOK, ReadOK, IdsSent, SubsOK, HandledOK, Covering, Served, CoveredBy, Cover;
    if step.ReadLast? {
      forall q | q <= |w.stream| && Served(w.stream, w.s.subs, w.s.client, q)
        ensures Stored(w.stream, q) && CoveredBy(w.replay.cover.value, At(w.stream, q))
      {
        ServedIsStored(w.stream, w.s.subs, w.s.client, q);
        CoverServes(w.stream, w.s.subs, w.s.client, w.replay.cover.value, q);
      }
    }
  }

  lemma PassedIsSettled(w: World, q: nat)
    requires w.replay.Replaying? && Stored(w.stream, q) && !Sends(w, q)
    requires IdsSent(w.stream, w.replay.snapshot, w.sent) && IdsSent(w.stream, w.replay.sent, w.sent)
    ensures SettledAt(w.stream, w.s.subs, w.s.client, w.sent, q)
  {
    hide Serves;
  }

  lemma MoreIds(st: Stream, ids: set<Id>, sent: set<nat>, q: nat, now: nat)
    requires IdsSent(st, ids, sent) && Named(st, q) && StreamOK(st, now, sent)
    ensures IdsSent(st, ids, sent + {q}) && IdsSent(st, ids + {At(st, q).id}, sent + {q})
  {
  }

  lemma AccountHandle(w: World, cfg: Config, step: Step)
    requires Accounts(w) && step.Handle? && Enabled(w, cfg, step)
    ensures Accounts(Do(w, cfg, step))
  {
    hide Ledger, HandledOK, CoverOK, Served, NoteDelivered, Sends, SettledAt, IdsSent, Note;
    var st, q, r, v := w.stream, step.q, w.replay, Do(w, cfg, step);
    HandledMore(st, w.s.subs, w.s.client, w.sent, r.handled, q);
    SameCover(st, w.s.subs, w.s.client, r, v.replay);
    if Sends(w, q) {
      assert Named(st, q) by { SendsNamed(w, q); }
      assert StreamOK(st, w.now, w.sent) by { LedgerStream(w); }
      LedgerNoted(w, cfg, At(st, q).id, q, {q});
      LedgerReplay(Sent(w, cfg, q), v.replay);
      MoreIds(st, r.snapshot, w.sent, q, w.now);
      MoreIds(st, r.sent, w.sent, q, w.now);
      SentIsSettled(st, w.s.subs, w.s.client, w.sent, q);
      DeliveredIsLocal(w.s, cfg, At(st, q).id, q, w.now);
    } else {
      PassedIsSettled(w, q);
      LedgerReplay(w, v.replay);
    }
  }

  lemma LedgerReplay(w: World, r: Replay)
    requires Ledger(w)
    ensures Ledger(w.(replay := r))
  {
    hide StreamOK, NothingSkipped, HolesOK, ReadOK, IdsSent, SubsOK;
  }

  // ---------------------------------------------------------------- the end of a replay

  lemma AccountFilled(w: World)
    requires Accounts(w) && w.replay.Replaying? && w.replay.last.Some?
    ensures Accounts(Filled(w))
  {
    hide Accounts, SubsOK, Narrows, FillSince, Keys;
    var last := w.replay.last.value;
    AccountSubs(w);
    FillNarrows(w.stream, w.gone, w.s.subs, w.s.client, w.s.cur.next, w.nextKey, Keys(w.s), last);
    var after := FillSince(w.s.subs, Keys(w.s), last);
    AccountNarrows(w, after, w.nextKey);
    AccountUnpin(w.(s := w.s.(subs := after), nextKey := w.nextKey));
    assert Filled(w) == w.(s := w.s.(subs := after, cur := w.s.cur.(pin := 0)), replay := NoReplay);
  }

  lemma AccountUnpin(w: World)
    requires Accounts(w)
    ensures Accounts(w.(s := w.s.(cur := w.s.cur.(pin := 0)), replay := NoReplay))
  {
    hide StreamOK, ReadOK, IdsSent, SubsOK, Owed;
  }

  /** A connection ends, or a replay is given up. */
  lemma AccountAway(w: World, cfg: Config, step: Step)
    requires Accounts(w) && (step.Detach? || step.AbandonReplay?) && Enabled(w, cfg, step)
    ensures Accounts(Do(w, cfg, step))
  {
    hide Accounts;
    AccountUnpin(w);
    var v := w.(s := w.s.(cur := w.s.cur.(pin := 0)), replay := NoReplay);
    AwayAccounts(v, Do(w, cfg, step).lateSeq, Do(w, cfg, step).away);
    assert Do(w, cfg, step) == v.(lateSeq := Do(w, cfg, step).lateSeq, away := Do(w, cfg, step).away);
  }

  lemma AwayAccounts(w: World, lateSeq: nat, away: Option<Away>)
    requires Accounts(w)
    ensures Accounts(w.(lateSeq := lateSeq, away := away))
  {
    hide StreamOK, NothingSkipped, HolesOK, ReadOK, IdsSent, SubsOK, ReplayLedger;
  }

  /** A cursor started by a replay that read everything from `first` to the stream's end. */
  lemma LedgerFirst(w: World, cfg: Config, first: nat, floor: nat, next: nat, above: nat)
    requires Accounts(w) && Enabled(w, cfg, EndReplay(first, floor)) && !w.replay.ok
    requires first <= next <= w.replay.last.value + 1
    ensures var v := Filled(w);
            Ledger(v.(s := v.s.(cur := SetCursor(v.s.cur, next).(above := above)), origin := first))
  {
    hide Accounts, FillSince, Keys, Owed, SinceKnown, Ledger;
    var v := Filled(w);
    AccountFilled(w);
    assert Ledger(v) && next <= |w.stream| + 1 by { AccountParts(v); AccountLast(w); }
    FilledKnown(w.s, w.replay.last.value);
    SameKnown(w.s.(subs := FillSince(w.s.subs, Keys(w.s), w.replay.last.value)), w.s.cur.(pin := 0));
    forall q: nat | Owed(w.stream, w.gone, v.s.subs, w.s.client, q) && first <= q < next ensures q in w.sent {
      ReplaySentFilled(w, cfg, first, floor, q);
    }
    LedgerCursor(v, SetCursor(v.s.cur, next).(above := above), first);
  }

  lemma AccountParts(w: World)
    requires Accounts(w)
    ensures Ledger(w)
    ensures NothingSkipped(w.stream, w.gone, w.s, w.sent, w.origin) && HolesOK(w.stream, w.s.cur, {})
  {
    hide StreamOK, NothingSkipped, HolesOK, ReadOK, IdsSent, SubsOK, ReplayLedger;
  }

  lemma AccountLast(w: World)
    requires Accounts(w) && w.replay.Replaying? && w.replay.last.Some?
    ensures w.replay.last.value <= |w.stream|
    ensures w.replay.ok && w.s.cur.next != 0 ==> w.replay.had.next <= w.s.cur.next
  {
    hide Ledger, HandledOK, IdsSent, Served;
  }

  /** A cursor whose passed holes are settled, moved to `next`. */
  lemma LedgerMoved(w: World, cfg: Config, first: nat, floor: nat, next: nat, above: nat)
    requires Accounts(w) && Enabled(w, cfg, EndReplay(first, floor)) && w.replay.ok && w.s.cur.next != 0
    requires w.s.cur.next <= next && (next <= w.replay.last.value + 1 || next == w.s.cur.next)
    ensures var v := Filled(w);
            var c := SettleHoles(v.s.cur, w.replay.had, w.replay.last.value).(next := next, above := above);
            Ledger(v.(s := v.s.(cur := c)))
  {
    hide Accounts, FillSince, Keys, Owed, SinceKnown, Ledger, SettleHoles, HolesBelow;
    var v, had, last := Filled(w), w.replay.had, w.replay.last.value;
    AccountFilled(w);
    AccountParts(v);
    AccountLast(w);
    var c := SettleHoles(v.s.cur, had, last).(next := next, above := above);
    SettledHolesOK(w.stream, v.s.cur, {}, had, last, next, above);
    FilledKnown(w.s, last);
    SameKnown(w.s.(subs := FillSince(w.s.subs, Keys(w.s), last)), w.s.cur.(pin := 0));
    forall q: nat | Owed(w.stream, w.gone, v.s.subs, w.s.client, q) && w.origin <= q < next
      ensures q in w.sent || q in c.holes
    {
      if q >= w.s.cur.next || q in Settled(v.s.cur, had, last) { ReplaySentFilled(w, cfg, first, floor, q); }
    }
    LedgerCursor(v, c, w.origin);
    assert v.(s := v.s.(cur := c), origin := w.origin) == v.(s := v.s.(cur := c));
  }

  lemma AccountEnd(w: World, cfg: Config, step: Step)
    requires Accounts(w) && step.EndReplay? && Enabled(w, cfg, step)
    ensures Accounts(Do(w, cfg, step))
  {
    hide Accounts, FillSince, Keys, SettleHoles, CountAbove, ToRead, Ledger;
    var r, first, floor, last := w.replay, step.first, step.floor, w.replay.last.value;
    var next := if floor != 0 && floor < last + 1 then floor else last + 1;
    var above := CountAbove(w.s.delivered, next);
    AccountFilled(w);
    AccountParts(Filled(w));
    if !r.ok {
      if !(w.s.cur.next != 0 || w.s.cur.pin == 0 || w.s.cur.pin > first || (floor != 0 && floor < first)) {
        LedgerFirst(w, cfg, first, floor, next, above);
      }
    } else if w.s.cur.next != 0 {
      SettleIsLocal(Filled(w).s.cur, r.had, last);
      if next > w.s.cur.next {
        LedgerMoved(w, cfg, first, floor, next, above);
      } else {
        LedgerMoved(w, cfg, first, floor, w.s.cur.next, w.s.cur.above);
      }
    }
    NoReplayAccounts(Do(w, cfg, step));
  }

  lemma NoReplayAccounts(w: World)
    requires Ledger(w) && w.replay.NoReplay?
    ensures Accounts(w)
  {
    hide Ledger;
  }

  // ---------------------------------------------------------------- every step

  /** Every step that keeps to the four keeps the accounts. */
  lemma StepAccounts(w: World, cfg: Config, step: Step)
    requires Accounts(w) && Enabled(w, cfg, step) && ReliedOwed(w, cfg, step)
    ensures Accounts(Do(w, cfg, step))
  {
    hide Accounts, Enabled, ReliedOwed, Do;
    match step
    case Append(_) => AccountAppend(w, cfg, step);
    case Deliver(_) | DeliverOther(_) => AccountDeliver(w, cfg, step);
    case LiveCopy(_) | LateCopy(_) | DropCursor => AccountCopy(w, cfg, step);
    case Subscribe(_) | Unsubscribe(_) => AccountSubscribe(w, cfg, step);
    case FillSinceStep(_, _, _, _, _) => AccountFill(w, cfg, step);
    case ReadScan | ReadRestart(_, _) => AccountRead(w, cfg, step);
    case EndScan(_) => AccountScan(w, cfg, step);
    case EndRestart(_) => AccountRestart(w, cfg, step);
    case BeginReplay | BeginReplayFrom(_, _) => AccountBegin(w, cfg, step);
    case ChooseCover | ReadLast => AccountCover(w, cfg, step);
    case Handle(_) => AccountHandle(w, cfg, step);
    case EndReplay(_, _) => AccountEnd(w, cfg, step);
    case Detach(_, _) | AbandonReplay => AccountAway(w, cfg, step);
    case _ => AccountQuiet(w, cfg, step);
  }
}
