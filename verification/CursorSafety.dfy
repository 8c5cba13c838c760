/**
  Each step keeps the invariants of `CursorRuns`. The lemmas are grouped by what changes: the stream and the
  clock, the subscriptions, the delivered ids, the holes, and the cursor itself.
 */
module CursorSafety {
  import opened Topics
  import opened Cursors
  import opened CursorRuns

  // ---------------------------------------------------------------- a message is stored

  lemma AppendAt(st: Stream, m: Msg)
    ensures forall q :: Stored(st + [m], q) ==> At(st + [m], q) == if q <= |st| then At(st, q) else m
  {
  }

  lemma AppendOwed(st: Stream, m: Msg, gone: set<nat>, subs: Subs, client: string, q: int)
    requires q <= |st|
    ensures Named(st + [m], q) == Named(st, q)
    ensures Stored(st, q) ==> At(st + [m], q) == At(st, q)
    ensures Served(st + [m], subs, client, q) == Served(st, subs, client, q)
    ensures Owed(st + [m], gone, subs, client, q) == Owed(st, gone, subs, client, q)
    ensures forall keys :: OwedBy(st + [m], gone, subs, client, keys, q) == OwedBy(st, gone, subs, client, keys, q)
  {
    hide Serves, OwesAt;
  }

  lemma AppendStream(st: Stream, m: Msg, now: nat, sent: set<nat>)
    requires StreamOK(st, now, sent) && m.at == now
    requires m.id != "" ==> forall q :: Stored(st, q) ==> At(st, q).id != m.id
    ensures StreamOK(st + [m], now, sent)
  {
    AppendAt(st, m);
  }

  lemma AppendSkipped(st: Stream, m: Msg, gone: set<nat>, s: Session, sent: set<nat>, origin: nat)
    requires NothingSkipped(st, gone, s, sent, origin) && s.cur.next <= |st| + 1
    ensures NothingSkipped(st + [m], gone, s, sent, origin)
  {
    hide Owed;
    forall q: nat | q < s.cur.next
      ensures Owed(st + [m], gone, s.subs, s.client, q) == Owed(st, gone, s.subs, s.client, q)
    {
      AppendOwed(st, m, gone, s.subs, s.client, q);
    }
  }

  lemma AppendKnown(st: Stream, m: Msg, delivered: Delivered, sent: set<nat>, from: nat)
    requires KnownFrom(st, delivered, sent, from) && forall q :: q in sent ==> Stored(st, q)
    ensures KnownFrom(st + [m], delivered, sent, from)
  {
  }

  lemma AppendHoles(st: Stream, m: Msg, c: Cursor, sent: set<nat>)
    requires HolesOK(st, c, sent)
    ensures HolesOK(st + [m], c, sent)
  {
  }

  lemma AppendMarks(st: Stream, m: Msg, delivered: Delivered, sent: set<nat>, now: nat, prunedAt: nat, window: nat,
                    maxDelivered: nat)
    requires StreamOK(st, now, sent) && MarksOK(st, delivered, sent, now)
    requires ForgottenLate(st, delivered, sent, prunedAt, window, maxDelivered)
    requires m.id != "" ==> m.id !in delivered
    ensures MarksOK(st + [m], delivered, sent, now)
    ensures ForgottenLate(st + [m], delivered, sent, prunedAt, window, maxDelivered)
  {
    AppendAt(st, m);
    forall q | q in sent && Named(st + [m], q)
      ensures Marked(st + [m], delivered, q) || Outlived(st + [m], q, prunedAt, window, maxDelivered)
    {
      assert Named(st, q) && At(st + [m], q) == At(st, q);
      assert Marked(st, delivered, q) || Outlived(st, q, prunedAt, window, maxDelivered);
    }
  }

  lemma AppendRead(st: Stream, m: Msg, gone: set<nat>, subs: Subs, client: string, nextKey: nat,
                   keys: set<nat>, from: nat, last: nat, read: seq<Scanned>)
    requires ReadOK(st, gone, subs, client, nextKey, keys, from, last, read)
    ensures ReadOK(st + [m], gone, subs, client, nextKey, keys, from, last, read)
  {
    hide OwedBy;
    forall q: nat | from <= q <= last
      ensures OwedBy(st + [m], gone, subs, client, keys, q) == OwedBy(st, gone, subs, client, keys, q)
      ensures Stored(st, q) && At(st + [m], q) == At(st, q)
    {
      AppendOwed(st, m, gone, subs, client, q);
    }
  }

  lemma AppendHandled(st: Stream, m: Msg, subs: Subs, client: string, sent: set<nat>, handled: set<nat>)
    requires HandledOK(st, subs, client, sent, handled)
    ensures HandledOK(st + [m], subs, client, sent, handled)
  {
    hide Served;
    forall q | q in handled ensures SettledAt(st + [m], subs, client, sent, q) {
      assert SettledAt(st, subs, client, sent, q);
      AppendOwed(st, m, {}, subs, client, q);
    }
  }

  lemma AppendSkippedIds(st: Stream, m: Msg, sent: set<nat>, r: Replay)
    requires r.Replaying? && SkippedOK(st, sent, r) && forall q :: q in sent ==> Stored(st, q)
    requires m.id != "" ==> m.id !in r.snapshot && m.id !in r.sent
    ensures SkippedOK(st + [m], sent, r)
  {
    AppendAt(st, m);
  }

  lemma AppendCover(st: Stream, m: Msg, subs: Subs, client: string, r: Replay)
    requires r.Replaying? && CoverOK(st, subs, client, r)
    ensures CoverOK(st + [m], subs, client, r)
  {
    hide Served, CoveredBy;
    if r.last.Some? {
      forall q | q <= r.last.value && Served(st + [m], subs, client, q)
        ensures Stored(st + [m], q) && CoveredBy(r.cover.value, At(st + [m], q))
      {
        AppendOwed(st, m, {}, subs, client, q);
        ServedIsStored(st, subs, client, q);
      }
    }
  }

  lemma AppendReplay(st: Stream, m: Msg, s: Session, sent: set<nat>, r: Replay, pinFrom: nat)
    requires ReplayOK(st, s, sent, r, pinFrom) && forall q :: q in sent ==> Stored(st, q)
    requires m.id != "" && r.Replaying? ==> m.id !in r.snapshot && m.id !in r.sent
    ensures ReplayOK(st + [m], s, sent, r, pinFrom)
  {
    hide HandledOK, SkippedOK, CoverOK;
    if r.Replaying? {
      AppendHandled(st, m, s.subs, s.client, sent, r.handled);
      AppendSkippedIds(st, m, sent, r);
      AppendCover(st, m, s.subs, s.client, r);
    }
  }

  lemma ServedIsStored(st: Stream, subs: Subs, client: string, q: int)
    ensures Served(st, subs, client, q) ==> Stored(st, q)
  {
  }

  lemma KeepAppend(w: World, cfg: Config, step: Step)
    requires Inv(w, cfg) && step.Append? && Can(w, cfg, step)
    ensures Inv(Do(w, cfg, step), cfg)
  {
    hide StreamOK, NothingSkipped, KnownFrom, HolesOK, MarksOK, ForgottenLate, ReadOK, RecentFrom, ReplayOK;
    var st, m := w.stream, step.m;
    assert (forall q :: q in w.sent ==> Stored(st, q)) && w.s.cur.next <= |st| + 1 by { SentStored(w, cfg); }
    AppendStream(st, m, w.now, w.sent);
    AppendSkipped(st, m, w.gone, w.s, w.sent, w.origin);
    if w.s.cur.next != 0 { AppendKnown(st, m, w.s.delivered, w.sent, w.s.cur.next); }
    if w.s.cur.pin != 0 { AppendKnown(st, m, w.s.delivered, w.sent, w.pinFrom); }
    AppendHoles(st, m, w.s.cur, w.sent);
    AppendMarks(st, m, w.s.delivered, w.sent, w.now, w.prunedAt, cfg.window, w.s.maxDelivered);
    if w.scan.Read? {
      AppendRead(st, m, w.gone, w.s.subs, w.s.client, w.nextKey, w.scan.keys, w.scan.start, w.scan.last, w.scan.read);
    }
    if w.restart.RestartRead? {
      var r := w.restart.r;
      AppendRead(st, m, w.gone, w.s.subs, w.s.client, w.nextKey, r.keys, r.base, r.last, r.read);
      AppendRecent(st, m, r.base, r.began, cfg.window);
    }
    if w.subscribing.EndRead? { AppendRecent(st, m, w.subscribing.last + 1, w.subscribing.readAt, 0); }
    AppendReplay(st, m, w.s, w.sent, w.replay, w.pinFrom);
  }

  lemma AppendRecent(st: Stream, m: Msg, base: nat, began: nat, window: nat)
    requires RecentFrom(st, base, began, window) && m.at >= began
    ensures RecentFrom(st + [m], base, began, window)
  {
    AppendAt(st, m);
  }

  lemma SentStored(w: World, cfg: Config)
    requires Inv(w, cfg)
    ensures forall q :: q in w.sent ==> Stored(w.stream, q)
    ensures w.s.cur.next <= |w.stream| + 1
  {
    hide NothingSkipped, MarksOK, ForgottenLate, ReadOK, ReplayOK;
  }

  // ---------------------------------------------------------------- a message ages out, time passes

  lemma KeepExpire(w: World, cfg: Config, step: Step)
    requires Inv(w, cfg) && step.Expire? && Can(w, cfg, step)
    ensures Inv(Do(w, cfg, step), cfg)
  {
    hide StreamOK, KnownFrom, HolesOK, MarksOK, ForgottenLate, RecentFrom, ReplayOK, OwesAt, SubsOK;
  }

  lemma KeepTick(w: World, cfg: Config, step: Step)
    requires Inv(w, cfg) && step.Tick? && Can(w, cfg, step)
    ensures Inv(Do(w, cfg, step), cfg)
  {
    hide NothingSkipped, KnownFrom, HolesOK, ReadOK, RecentFrom, ReplayOK, OwesAt, SubsOK;
  }

  // ---------------------------------------------------------------- subscriptions come and go

  /** The same subscription, whose since is not changed once it is known. */
  ghost predicate SameOwner(sub: Sub, after: Sub) {
    sub.key == after.key && sub.shared == after.shared && (sub.since.Some? ==> after == sub)
  }

  /** The session is served no more by `after` than by `subs`, and owed no more below `next`. */
  ghost predicate Narrows(st: Stream, gone: set<nat>, client: string, nextKey: nat, next: nat, subs: Subs,
                          after: Subs) {
    && (forall q :: Served(st, after, client, q) ==> Served(st, subs, client, q))
    && (forall q: nat :: q < next && Owed(st, gone, after, client, q) ==> Owed(st, gone, subs, client, q))
    && (forall f :: f in after && after[f].key < nextKey ==>
                      exists g :: g in subs && SameOwner(subs[g], after[f]))
  }

  lemma NarrowSkipped(st: Stream, gone: set<nat>, s: Session, after: Subs, nextKey: nat, sent: set<nat>, origin: nat)
    requires NothingSkipped(st, gone, s, sent, origin)
    requires Narrows(st, gone, s.client, nextKey, s.cur.next, s.subs, after)
    ensures NothingSkipped(st, gone, s.(subs := after), sent, origin)
  {
    hide Owed, Served;
  }

  lemma NarrowRead(st: Stream, gone: set<nat>, subs: Subs, after: Subs, client: string, next: nat, nextKey: nat,
                   more: nat,
                   keys: set<nat>, from: nat, last: nat, read: seq<Scanned>)
    requires ReadOK(st, gone, subs, client, nextKey, keys, from, last, read) && nextKey <= more
    requires Narrows(st, gone, client, nextKey, next, subs, after)
    ensures ReadOK(st, gone, after, client, more, keys, from, last, read)
  {
    hide Owed, Served, Matches;
  }

  lemma NarrowReplay(st: Stream, gone: set<nat>, s: Session, after: Subs, nextKey: nat, next: nat, sent: set<nat>,
                     r: Replay, pinFrom: nat)
    requires ReplayOK(st, s, sent, r, pinFrom) && Narrows(st, gone, s.client, nextKey, next, s.subs, after)
    ensures ReplayOK(st, s.(subs := after), sent, r, pinFrom)
  {
    hide Owed, Served, SkippedOK, StartOK, CoveredBy;
    if r.Replaying? {
      forall q | q in r.handled ensures SettledAt(st, after, s.client, sent, q) {
        assert SettledAt(st, s.subs, s.client, sent, q);
      }
      if r.last.Some? {
        forall q | q <= r.last.value && Served(st, after, s.client, q)
          ensures Stored(st, q) && CoveredBy(r.cover.value, At(st, q))
        {
          ServedIsStored(st, s.subs, s.client, q);
        }
      }
    }
  }

  /** A change that only narrows the subscriptions keeps everything. */
  lemma NarrowKeeps(w: World, cfg: Config, after: Subs, nextKey: nat)
    requires Inv(w, cfg) && Narrows(w.stream, w.gone, w.s.client, w.nextKey, w.s.cur.next, w.s.subs, after)
    requires SubsOK(|w.stream|, after, w.s.cur.next, nextKey) && w.nextKey <= nextKey
    ensures Inv(w.(s := w.s.(subs := after), nextKey := nextKey), cfg)
  {
    hide StreamOK, NothingSkipped, KnownFrom, HolesOK, MarksOK, ForgottenLate, ReadOK, RecentFrom, ReplayOK, SubsOK;
    hide Narrows;
    var st, client, next := w.stream, w.s.client, w.s.cur.next;
    NarrowSkipped(st, w.gone, w.s, after, w.nextKey, w.sent, w.origin);
    if w.scan.Read? {
      NarrowRead(st, w.gone, w.s.subs, after, client, next, w.nextKey, nextKey, w.scan.keys, w.scan.start, w.scan.last,
                 w.scan.read);
    }
    if w.restart.RestartRead? {
      var r := w.restart.r;
      NarrowRead(st, w.gone, w.s.subs, after, client, next, w.nextKey, nextKey, r.keys, r.base, r.last, r.read);
    }
    NarrowReplay(st, w.gone, w.s, after, w.nextKey, next, w.sent, w.replay, w.pinFrom);
  }

  /** A replacement that keeps the since of its predecessor is owed nothing its predecessor was not. */
  lemma KeptServes(prev: Sub, sub: Sub, m: Msg, client: string)
    requires KeepsSince(prev, sub) && prev.filter == sub.filter
    ensures Serves(sub, m, client) ==> Serves(prev, m, client)
  {
  }

  lemma InstallNarrows(st: Stream, gone: set<nat>, s: Session, sub: Sub, nextKey: nat)
    requires SubsOK(|st|, s.subs, s.cur.next, nextKey)
    requires sub.key == nextKey && sub.since.None? && sub.made == |st|
    ensures Narrows(st, gone, s.client, nextKey, s.cur.next, s.subs, Install(s, sub).subs)
  {
    hide Serves;
    var after := Install(s, sub).subs;
    forall q ensures Served(st, after, s.client, q) ==> Served(st, s.subs, s.client, q) {
      if Served(st, after, s.client, q) {
        var f :| f in after && after[f].made < q && Serves(after[f], At(st, q), s.client);
        if f == sub.filter { KeptServes(s.subs[f], after[f], At(st, q), s.client); }
      }
    }
    forall q: nat ensures Owed(st, gone, after, s.client, q) ==> Owed(st, gone, s.subs, s.client, q) {
      if Owed(st, gone, after, s.client, q) {
        var f :| f in after && after[f].made < q && OwesAt(after[f], At(st, q), q, s.client);
        if f == sub.filter { KeptServes(s.subs[f], after[f], At(st, q), s.client); }
      }
    }
  }

  lemma InstallSubs(n: nat, s: Session, sub: Sub, nextKey: nat)
    requires SubsOK(n, s.subs, s.cur.next, nextKey) && s.cur.next <= n + 1
    requires sub.key == nextKey && sub.since.None? && sub.made == n
    ensures SubsOK(n, Install(s, sub).subs, s.cur.next, nextKey + 1)
  {
  }

  lemma KeepSubscribe(w: World, cfg: Config, step: Step)
    requires Inv(w, cfg) && step.Subscribe? && Can(w, cfg, step)
    ensures Inv(Do(w, cfg, step), cfg)
  {
    hide StreamOK, NothingSkipped, KnownFrom, MarksOK, ForgottenLate, ReadOK, RecentFrom, ReplayOK, Narrows, HolesBelow;
    hide SubsOK, KeepsSince;
    InstallNarrows(w.stream, w.gone, w.s, step.sub, w.nextKey);
    InstallSubs(|w.stream|, w.s, step.sub, w.nextKey);
    NarrowKeeps(w, cfg, Install(w.s, step.sub).subs, w.nextKey + 1);
  }

  lemma KeepUnsubscribe(w: World, cfg: Config, step: Step)
    requires Inv(w, cfg) && step.Unsubscribe? && Can(w, cfg, step)
    ensures Inv(Do(w, cfg, step), cfg)
  {
    hide StreamOK, NothingSkipped, KnownFrom, MarksOK, ForgottenLate, ReadOK, RecentFrom, ReplayOK, HolesOK, Serves;
    NarrowKeeps(w, cfg, Remove(w.s, step.filter).subs, w.nextKey);
  }

  lemma FillServed(st: Stream, subs: Subs, client: string, keys: set<nat>, last: nat, q: int)
    ensures Served(st, FillSince(subs, keys, last), client, q) <==> Served(st, subs, client, q)
  {
    hide Matches;
    var after := FillSince(subs, keys, last);
    assert forall f :: f in after <==> f in subs;
    assert forall f :: f in subs ==> after[f].made == subs[f].made;
    assert forall f, m :: f in subs ==> Serves(after[f], m, client) == Serves(subs[f], m, client);
  }

  /** Setting a since makes the session owed only what lies above it and was stored after the subscription was made. */
  lemma FillOwed(st: Stream, gone: set<nat>, subs: Subs, client: string, keys: set<nat>, last: nat, q: nat)
    ensures Owed(st, gone, FillSince(subs, keys, last), client, q) ==>
              || Owed(st, gone, subs, client, q)
              || (q > last && exists f :: f in subs && !subs[f].shared && subs[f].since.None? && subs[f].made < q)
  {
    hide Matches;
    var after := FillSince(subs, keys, last);
    if Owed(st, gone, after, client, q) {
      var f :| f in after && after[f].made < q && OwesAt(after[f], At(st, q), q, client);
      if after[f] == subs[f] {
        assert subs[f].made < q && OwesAt(subs[f], At(st, q), q, client);
      } else {
        assert subs[f].since.None? && !subs[f].shared;
      }
    }
  }

  lemma FillNarrows(st: Stream, gone: set<nat>, subs: Subs, client: string, next: nat, nextKey: nat, keys: set<nat>,
                    last: nat)
    requires SubsOK(|st|, subs, next, nextKey)
    ensures Narrows(st, gone, client, nextKey, next, subs, FillSince(subs, keys, last))
    ensures SubsOK(|st|, FillSince(subs, keys, last), next, nextKey)
  {
    hide Owed, Served;
    var after := FillSince(subs, keys, last);
    forall q
      ensures Served(st, after, client, q) ==> Served(st, subs, client, q)
    {
      FillServed(st, subs, client, keys, last, q);
    }
    forall q: nat | q < next ensures Owed(st, gone, after, client, q) ==> Owed(st, gone, subs, client, q) {
      FillOwed(st, gone, subs, client, keys, last, q);
    }
    forall f | f in after
      ensures exists g :: g in subs && SameOwner(subs[g], after[f])
    {
      assert f in subs && SameOwner(subs[f], after[f]);
    }
  }

  /** A cursor set where nothing is held: no holes, and everything from it on is known. */
  lemma SetCursorKeeps(w: World, cfg: Config, next: nat, above: nat, origin: nat)
    requires Inv(w, cfg) && 1 <= next <= |w.stream| + 1
    requires w.replay.Replaying? && w.replay.ok ==> w.replay.had.next <= next
    requires KnownFrom(w.stream, w.s.delivered, w.sent, next)
    requires SinceKnown(w.s)
    requires forall q: nat :: Owed(w.stream, w.gone, w.s.subs, w.s.client, q) && origin <= q < next ==> q in w.sent
    ensures Inv(w.(s := w.s.(cur := SetCursor(w.s.cur, next).(above := above)), origin := origin), cfg)
  {
    hide StreamOK, KnownFrom, MarksOK, ForgottenLate, ReadOK, RecentFrom, Owed, HandledOK, SkippedOK, CoverOK;
  }

  /** A SUBSCRIBE that starts the cursor at the stream's end. */
  lemma StartKeeps(w: World, cfg: Config)
    requires Inv(w, cfg) && w.subscribing.EndRead? && w.s.cur.next == 0
    requires NothingOwedTo(w.s, w.subscribing.last)
    requires w.now <= w.subscribing.readAt + 2 * cfg.window || WindowSafe(w.s, w.subscribing.last + 1)
    requires !(w.replay.Replaying? && w.replay.ok)
    ensures Inv(w.(s := w.s.(cur := SetCursor(w.s.cur, w.subscribing.last + 1)), origin := 0), cfg)
  {
    hide StreamOK, HolesOK, MarksOK, ReadOK, ReplayOK, SubsOK;
    var last := w.subscribing.last;
    assert KnownFrom(w.stream, w.s.delivered, w.sent, last + 1);
    forall q: nat | Owed(w.stream, w.gone, w.s.subs, w.s.client, q) ensures q > last {
      OwedBelow(w.stream, w.gone, w.s, last, q);
    }
    SetCursorKeeps(w, cfg, last + 1, 0, 0);
  }

  lemma OwedBelow(st: Stream, gone: set<nat>, s: Session, last: nat, q: nat)
    requires NothingOwedTo(s, last) && Owed(st, gone, s.subs, s.client, q)
    ensures q > last
  {
  }

  lemma KeepFillSinceStep(w: World, cfg: Config, step: Step)
    requires Inv(w, cfg) && step.FillSinceStep? && Can(w, cfg, step)
    ensures Inv(Do(w, cfg, step), cfg)
  {
    hide StreamOK, NothingSkipped, KnownFrom, HolesOK, MarksOK, ForgottenLate, ReadOK, RecentFrom, ReplayOK, Narrows;
    hide SubsOK, FillSince, NothingOwedTo;
    var last := if step.exact then w.subscribing.last else step.seen;
    var after := FillSince(w.s.subs, step.keys, last);
    FillNarrows(w.stream, w.gone, w.s.subs, w.s.client, w.s.cur.next, w.nextKey, step.keys, last);
    NarrowKeeps(w, cfg, after, w.nextKey);
    var v := w.(s := w.s.(subs := after));
    if StartsCursor(w.s, step.keys, last, step.exact, step.hadNonShared, step.floor) { StartKeeps(v, cfg); }
  }

  // ---------------------------------------------------------------- the cursor is dropped

  lemma DropKeeps(w: World, cfg: Config)
    requires Inv(w, cfg)
    ensures Inv(w.(s := Drop(w.s)), cfg)
  {
    hide StreamOK, KnownFrom, MarksOK, ForgottenLate, ReadOK, RecentFrom, HandledOK, SkippedOK, CoverOK;
  }

  lemma DropCore(w: World, cfg: Config)
    requires Core(w, cfg)
    ensures Core(w.(s := Drop(w.s)), cfg)
  {
    hide StreamOK, KnownFrom, MarksOK, ForgottenLate, ReadOK, RecentFrom;
  }

  // ---------------------------------------------------------------- a message is delivered

  lemma NoteMarks(st: Stream, delivered: Delivered, sent: set<nat>, now: nat, prunedAt: nat, window: nat,
                  maxDelivered: nat, more: nat, q: nat, seqNo: nat)
    requires StreamOK(st, now, sent) && Named(st, q) && maxDelivered <= more && (seqNo == q || seqNo == 0)
    requires MarksOK(st, delivered, sent, now) && ForgottenLate(st, delivered, sent, prunedAt, window, maxDelivered)
    ensures var after := delivered[At(st, q).id := Mark(now, seqNo)];
            && MarksOK(st, after, sent + {q}, now)
            && ForgottenLate(st, after, sent + {q}, prunedAt, window, more)
  {
    var after := delivered[At(st, q).id := Mark(now, seqNo)];
    forall p | p in sent + {q} && Named(st, p) ensures Marked(st, after, p) || Outlived(st, p, prunedAt, window, more) {
      if p != q { assert Marked(st, delivered, p) || Outlived(st, p, prunedAt, window, maxDelivered); }
    }
  }

  lemma NoteKnown(st: Stream, delivered: Delivered, sent: set<nat>, now: nat, q: nat, seqNo: nat, from: nat)
    requires StreamOK(st, now, sent) && Named(st, q) && KnownFrom(st, delivered, sent, from)
    requires seqNo == q || seqNo == 0
    ensures KnownFrom(st, delivered[At(st, q).id := Mark(now, seqNo)], sent + {q}, from)
  {
  }

  /** The hole of a delivered message goes; every other stays. */
  lemma NoteHoles(st: Stream, c: Cursor, sent: set<nat>, now: nat, q: nat)
    requires StreamOK(st, now, sent) && Named(st, q) && HolesOK(st, c, sent)
    ensures HolesOK(st, RemoveHole(c, At(st, q).id), sent + {q})
    ensures RemoveHole(c, At(st, q).id).holes.Keys == c.holes.Keys - {q}
  {
    RemoveKeepsInverted(c, At(st, q).id);
  }

  /** Noting a queued message, with its sequence or without. */
  lemma NoteCore(w: World, cfg: Config, q: nat, seqNo: nat)
    requires Core(w, cfg) && Named(w.stream, q) && (seqNo == q || seqNo == 0)
    ensures Core(w.(s := Note(w.s, At(w.stream, q).id, seqNo, w.now), sent := w.sent + {q}), cfg)
  {
    hide KnownFrom, MarksOK, ForgottenLate, ReadOK, RecentFrom, SubsOK, Owed, HolesBelow, RemoveHole;
    var st, s := w.stream, w.s;
    NoteMarks(st, s.delivered, w.sent, w.now, w.prunedAt, cfg.window, s.maxDelivered,
              Note(s, At(st, q).id, seqNo, w.now).maxDelivered, q, seqNo);
    if s.cur.next != 0 { NoteKnown(st, s.delivered, w.sent, w.now, q, seqNo, s.cur.next); }
    if s.cur.pin != 0 { NoteKnown(st, s.delivered, w.sent, w.now, q, seqNo, w.pinFrom); }
    NoteHoles(st, s.cur, w.sent, w.now, q);
    RemoveIsLocal(s.cur, At(st, q).id);
    SameHoles(st, RemoveHole(s.cur, At(st, q).id), w.sent + {q});
  }

  lemma RemoveIsLocal(c: Cursor, id: Id)
    ensures var d := RemoveHole(c, id);
            d.next == c.next && d.gen == c.gen && d.above == c.above && d.pin == c.pin && d.base == c.base
  {
  }

  lemma SameHoles(st: Stream, c: Cursor, sent: set<nat>)
    ensures forall above :: HolesOK(st, c.(above := above), sent) == HolesOK(st, c, sent)
  {
  }

  /** Pruning forgets no id the cursor or a pinned replay needs. */
  lemma PruneKnown(st: Stream, s: Session, cfg: Config, now: nat, sent: set<nat>, from: nat)
    requires KnownFrom(st, s.delivered, sent, from) && YoungLoose(st, s.delivered, now, cfg.window)
    requires (s.cur.next != 0 && s.cur.next <= from) || (s.cur.pin != 0 && s.cur.pin <= from)
    ensures var after := map k | k in s.delivered && !Prunable(s, cfg, s.delivered[k], now) :: s.delivered[k];
            KnownFrom(st, after, sent, from)
  {
  }

  lemma PruneMarks(st: Stream, s: Session, cfg: Config, now: nat, prunedAt: nat, sent: set<nat>)
    requires MarksOK(st, s.delivered, sent, now) && prunedAt <= now && YoungLoose(st, s.delivered, now, cfg.window)
    requires ForgottenLate(st, s.delivered, sent, prunedAt, cfg.window, s.maxDelivered)
    ensures var after := map k | k in s.delivered && !Prunable(s, cfg, s.delivered[k], now) :: s.delivered[k];
            MarksOK(st, after, sent, now) && ForgottenLate(st, after, sent, now, cfg.window, s.maxDelivered)
  {
    var after := map k | k in s.delivered && !Prunable(s, cfg, s.delivered[k], now) :: s.delivered[k];
    forall q | q in sent && Named(st, q)
      ensures Marked(st, after, q) || Outlived(st, q, now, cfg.window, s.maxDelivered)
    {
      assert Marked(st, s.delivered, q) || Outlived(st, q, prunedAt, cfg.window, s.maxDelivered);
    }
  }

  lemma PruneCore(w: World, cfg: Config)
    requires Core(w, cfg) && w.prunedAt <= w.now && YoungLoose(w.stream, w.s.delivered, w.now, cfg.window)
    ensures Core(w.(s := Prune(w.s, cfg, w.now), prunedAt := w.now), cfg)
  {
    hide StreamOK, KnownFrom, MarksOK, ForgottenLate, ReadOK, RecentFrom, SubsOK, HolesOK, Prunable, KeptIds;
    hide YoungLoose;
    var st, s := w.stream, w.s;
    PruneMarks(st, s, cfg, w.now, w.prunedAt, w.sent);
    if s.cur.next != 0 { PruneKnown(st, s, cfg, w.now, w.sent, s.cur.next); }
    if s.cur.pin != 0 { PruneKnown(st, s, cfg, w.now, w.sent, w.pinFrom); }
    var after := map k | k in s.delivered && !Prunable(s, cfg, s.delivered[k], w.now) :: s.delivered[k];
    var v := w.(s := s.(delivered := after), prunedAt := w.now);
    assert Core(v, cfg);
    DropCore(v, cfg);
  }

  lemma WithCore(w: World, cfg: Config, s: Session)
    requires Core(w.(s := s), cfg)
    ensures Core(With(w, s), cfg)
  {
    hide StreamOK, NothingSkipped, KnownFrom, HolesOK, MarksOK, ForgottenLate, ReadOK, RecentFrom, SubsOK;
  }

  /** What goes with a dropped cursor keeps everything. */
  lemma WithKeeps(w: World, cfg: Config, s: Session)
    requires Inv(w.(s := s), cfg)
    ensures Inv(With(w, s), cfg)
  {
    hide Core, ReplayOK;
    WithCore(w, cfg, s);
  }

  /** A pass that is due follows the note; the world in between is one the invariants hold of. */
  lemma NotedCore(w: World, cfg: Config, id: Id, seqNo: nat, sent: set<nat>)
    requires Core(w.(s := Note(w.s, id, seqNo, w.now), sent := sent), cfg) && w.prunedAt <= w.now
    requires Spares(w, cfg, id, seqNo)
    ensures Core(Noted(w, cfg, id, seqNo).(sent := sent), cfg) && Noted(w, cfg, id, seqNo).prunedAt <= w.now
  {
    hide Core, Note, Prune, PruneDue, YoungLoose;
    var due := PruneDue(|Note(w.s, id, seqNo, w.now).delivered|);
    if due { PruneCore(w.(s := Note(w.s, id, seqNo, w.now), sent := sent), cfg); }
    var v := w.(sent := sent, prunedAt := if due then w.now else w.prunedAt);
    WithCore(v, cfg, NoteDelivered(w.s, cfg, id, seqNo, w.now));
    assert With(v, NoteDelivered(w.s, cfg, id, seqNo, w.now)) == Noted(w, cfg, id, seqNo).(sent := sent);
  }

  lemma SentCore(w: World, cfg: Config, q: nat)
    requires Core(w, cfg) && Named(w.stream, q) && w.prunedAt <= w.now && Spares(w, cfg, At(w.stream, q).id, q)
    ensures Core(Sent(w, cfg, q), cfg) && Sent(w, cfg, q).prunedAt <= w.now
  {
    hide Core, Note, Noted, Spares;
    NoteCore(w, cfg, q, q);
    NotedCore(w, cfg, At(w.stream, q).id, q, w.sent + {q});
  }

  lemma KeepDeliver(w: World, cfg: Config, step: Step)
    requires Inv(w, cfg) && step.Deliver? && Can(w, cfg, step)
    ensures Inv(Do(w, cfg, step), cfg)
  {
    hide Core, NoteDelivered, Note, Spares;
    SentCore(w, cfg, step.q);
  }

  /** Noting an id no stored message has changes nothing the cursor relies on. */
  lemma OtherCore(w: World, cfg: Config, id: Id)
    requires Core(w, cfg) && forall q :: Stored(w.stream, q) ==> At(w.stream, q).id != id
    ensures Core(w.(s := Note(w.s, id, 0, w.now)), cfg)
    ensures Note(w.s, id, 0, w.now).cur == w.s.cur
  {
    hide StreamOK, ReadOK, RecentFrom, SubsOK, Owed, Outlived;
  }

  /** A message with no copy in the queue, or with one that is noted without its sequence. */
  lemma UnsequencedCore(w: World, cfg: Config, id: Id)
    requires Core(w, cfg) && id != ""
    ensures Core(w.(s := Note(w.s, id, 0, w.now), sent := w.sent + Queued(w.stream, id)), cfg)
  {
    hide Core, Note;
    if q :| Stored(w.stream, q) && At(w.stream, q).id == id {
      assert Queued(w.stream, id) == {q} by { CoreStream(w, cfg); OneQueued(w.stream, w.now, w.sent, q); }
      NoteCore(w, cfg, q, 0);
    } else {
      assert w.sent + Queued(w.stream, id) == w.sent;
      OtherCore(w, cfg, id);
      assert w.(s := Note(w.s, id, 0, w.now)) == w.(s := Note(w.s, id, 0, w.now), sent := w.sent);
    }
  }

  lemma OneQueued(st: Stream, now: nat, sent: set<nat>, q: nat)
    requires StreamOK(st, now, sent) && Named(st, q)
    ensures Queued(st, At(st, q).id) == {q}
  {
    assert forall p :: p in Queued(st, At(st, q).id) ==> Named(st, p) && At(st, p).id == At(st, q).id;
  }

  lemma KeepDeliverOther(w: World, cfg: Config, step: Step)
    requires Inv(w, cfg) && step.DeliverOther? && Can(w, cfg, step)
    ensures Inv(Do(w, cfg, step), cfg)
  {
    hide Core, NoteDelivered, Note, Spares;
    UnsequencedCore(w, cfg, step.id);
    NotedCore(w, cfg, step.id, 0, w.sent + Queued(w.stream, step.id));
  }

  /** Noting and pruning change the delivered ids and may drop the cursor; they never move it. */
  lemma NoteIsLocal(s: Session, id: Id, seqNo: nat, now: nat)
    ensures var t := Note(s, id, seqNo, now);
            t.subs == s.subs && t.client == s.client && t.cur.next == s.cur.next && t.cur.pin == s.cur.pin
  {
  }

  lemma PruneIsLocal(s: Session, cfg: Config, now: nat)
    ensures var t := Prune(s, cfg, now);
            t.subs == s.subs && t.client == s.client && (t.cur == s.cur || (t.cur.next == 0 && t.cur.pin == 0))
  {
  }

  // ---------------------------------------------------------------- holes

  lemma PutHoleBelow(st: Stream, c: Cursor, sent: set<nat>, bound: nat, q: nat)
    requires HolesBelow(st, c, sent, bound) && Named(st, q) && q < bound && q !in c.holes && q !in sent
    requires forall p :: Named(st, p) && At(st, p).id == At(st, q).id ==> p == q
    ensures HolesBelow(st, PutHole(c, q, At(st, q).id), sent, bound)
  {
  }

  lemma PutHoleKeeps(w: World, cfg: Config, q: nat)
    requires Inv(w, cfg) && Named(w.stream, q) && q < w.s.cur.next && q !in w.s.cur.holes && q !in w.sent
    ensures Inv(w.(s := w.s.(cur := PutHole(w.s.cur, q, At(w.stream, q).id))), cfg)
  {
    hide KnownFrom, MarksOK, ForgottenLate, ReadOK, RecentFrom, SubsOK, Owed, HandledOK, SkippedOK, CoverOK, HolesBelow;
    PutHoleBelow(w.stream, w.s.cur, w.sent, w.s.cur.next, q);
  }

  /** A copy offered to the cursor becomes a hole, drops the cursor or changes nothing. */
  lemma OfferKeeps(w: World, cfg: Config, q: nat)
    requires Inv(w, cfg) && Stored(w.stream, q)
    requires q in w.sent && At(w.stream, q).id != "" ==> At(w.stream, q).id in w.s.delivered
    ensures Inv(w.(s := NoteLiveCopy(w.s, cfg, q, At(w.stream, q).id)), cfg)
  {
    hide Inv, Drop, PutHole;
    if && w.s.cur.next != 0 && q < w.s.cur.next && q !in w.s.cur.holes
       && At(w.stream, q).id != "" && At(w.stream, q).id !in w.s.delivered {
      PutHoleKeeps(w, cfg, q);
    }
    DropKeeps(w, cfg);
  }

  lemma KeepLiveCopy(w: World, cfg: Config, step: Step)
    requires Inv(w, cfg) && step.LiveCopy? && Can(w, cfg, step)
    ensures Inv(Do(w, cfg, step), cfg)
  {
    hide Inv, NoteLiveCopy, With;
    OfferKeeps(w, cfg, step.q);
    WithKeeps(w, cfg, NoteLiveCopy(w.s, cfg, step.q, At(w.stream, step.q).id));
  }

  /** A change of the absence alone. */
  lemma AbsenceKeeps(w: World, cfg: Config, lateSeq: nat, away: Option<Away>)
    requires Inv(w, cfg)
    requires away.Some? ==> w.replay.NoReplay? && AwayOK(away.value, w.prunedAt, cfg.window, w.s.maxDelivered)
    ensures Inv(w.(lateSeq := lateSeq, away := away), cfg)
  {
    hide StreamOK, NothingSkipped, KnownFrom, HolesOK, MarksOK, ForgottenLate, ReadOK, RecentFrom, ReplayOK, SubsOK;
  }

  lemma KeepLateCopy(w: World, cfg: Config, step: Step)
    requires Inv(w, cfg) && step.LateCopy? && Can(w, cfg, step)
    ensures Inv(Do(w, cfg, step), cfg)
  {
    hide NoteLiveCopy, Core, ReplayOK, With;
    OfferKeeps(w, cfg, step.q);
    WithKeeps(w, cfg, NoteLiveCopy(w.s, cfg, step.q, At(w.stream, step.q).id));
    var v := With(w, NoteLiveCopy(w.s, cfg, step.q, At(w.stream, step.q).id));
    var after := NoteLate(v, step.q);
    AbsenceKeeps(v, cfg, after.lateSeq, after.away);
    assert after == v.(lateSeq := after.lateSeq, away := after.away);
  }

  /** What a scan read is what is stored, and what was sent of it is known. */
  ghost predicate Honest(st: Stream, delivered: Delivered, sent: set<nat>, read: seq<Scanned>) {
    && (forall m :: m in read ==> Stored(st, m.seqNo) && m.id == At(st, m.seqNo).id)
    && (forall m :: m in read && m.seqNo in sent && m.id != "" ==> m.id in delivered)
  }

  ghost predicate UniqueIds(st: Stream) {
    forall p, q :: Named(st, p) && Named(st, q) && At(st, p).id == At(st, q).id ==> p == q
  }

  ghost predicate Ascending(read: seq<Scanned>) {
    forall i, j :: 0 <= i < j < |read| ==> read[i].seqNo < read[j].seqNo
  }

  lemma {:induction false} AddHolesKeeps(st: Stream, s: Session, cfg: Config, read: seq<Scanned>, next: nat,
                                         sent: set<nat>)
    requires HolesBelow(st, s.cur, sent, next) && UniqueIds(st) && Honest(st, s.delivered, sent, read)
    requires Ascending(read)
    ensures var r := AddHoles(s, cfg, read, next);
            && (!r.1 ==> r.0 == Drop(s))
            && (r.1 ==>
                  && r.0 == s.(cur := s.cur.(holes := r.0.cur.holes, holeAt := r.0.cur.holeAt))
                  && HolesBelow(st, r.0.cur, sent, next)
                  && s.cur.holes.Keys <= r.0.cur.holes.Keys
                  && forall m :: m in read && m.owed && m.seqNo < next ==>
                    m.id in s.delivered || m.seqNo in r.0.cur.holes)
    decreases |read|
  {
    if read != [] && read[0].seqNo < next {
      var m, rest := read[0], read[1..];
      assert Ascending(rest);
      assert Honest(st, s.delivered, sent, rest);
      if !m.owed {
        AddHolesKeeps(st, s, cfg, rest, next, sent);
      } else {
        var r := AddHole(s, cfg, m.seqNo, m.id);
        AddHoleBelow(st, s, cfg, m, next, sent);
        if r.1 { AddHolesKeeps(st, r.0, cfg, rest, next, sent); }
      }
    }
  }

  lemma AddHoleBelow(st: Stream, s: Session, cfg: Config, m: Scanned, next: nat, sent: set<nat>)
    requires HolesBelow(st, s.cur, sent, next) && UniqueIds(st) && Stored(st, m.seqNo) && m.id == At(st, m.seqNo).id
    requires m.seqNo < next
    requires m.seqNo in sent && m.id != "" ==> m.id in s.delivered
    ensures var r := AddHole(s, cfg, m.seqNo, m.id);
            && (!r.1 ==> r.0 == Drop(s))
            && (r.1 ==>
                  && r.0 == s.(cur := s.cur.(holes := r.0.cur.holes, holeAt := r.0.cur.holeAt))
                  && HolesBelow(st, r.0.cur, sent, next)
                  && s.cur.holes.Keys <= r.0.cur.holes.Keys
                  && (m.id in s.delivered || m.seqNo in r.0.cur.holes))
  {
    hide HolesBelow;
    if m.id != "" && m.id !in s.delivered && m.seqNo !in s.cur.holes { PutHoleBelow(st, s.cur, sent, next, m.seqNo); }
  }

  // ---------------------------------------------------------------- scans

  /** A cursor that moves forward over what it has accounted for. */
  lemma AdvanceKeeps(w: World, cfg: Config, c: Cursor)
    requires Inv(w, cfg) && 1 <= w.s.cur.next <= c.next && c.pin == 0
    requires HolesOK(w.stream, c, w.sent)
    requires NothingSkipped(w.stream, w.gone, w.s.(cur := c), w.sent, w.origin)
    requires SinceKnown(w.s)
    ensures Inv(w.(s := w.s.(cur := c)), cfg)
  {
    hide StreamOK, MarksOK, ForgottenLate, ReadOK, RecentFrom, HandledOK, SkippedOK, CoverOK, HolesOK, NothingSkipped;
  }

  /** The scan accounts for everything it passes: sent, known by its id, or made a hole. */
  lemma ScanSkipsNothing(w: World, next: nat, holes: map<nat, Id>)
    requires Ledger(w) && w.scan.Read? && w.s.cur.next == w.scan.start != 0 && SameSubs(w.s, w.scan.keys)
    requires next <= w.scan.last + 1
    requires w.s.cur.holes.Keys <= holes.Keys
    requires forall m :: m in w.scan.read && m.owed && m.seqNo < next ==> m.id in w.s.delivered || m.seqNo in holes
    ensures forall q: nat :: Owed(w.stream, w.gone, w.s.subs, w.s.client, q) && w.origin <= q < next ==>
            q in w.sent || q in holes
  {
    hide StreamOK, HolesOK, ForgottenLate, RecentFrom, SubsOK, KnownFrom, Owed, OwedBy;
    forall q: nat | Owed(w.stream, w.gone, w.s.subs, w.s.client, q) && w.origin <= q < next
      ensures q in w.sent || q in holes
    {
      if q >= w.scan.start {
        OwedByKeys(w.stream, w.gone, w.s, w.scan.keys, q);
        assert Scanned(q, At(w.stream, q).id, true) in w.scan.read;
      }
    }
  }

  lemma OwedByKeys(st: Stream, gone: set<nat>, s: Session, keys: set<nat>, q: nat)
    requires Owed(st, gone, s.subs, s.client, q) && SameSubs(s, keys)
    ensures OwedBy(st, gone, s.subs, s.client, keys, q) && Named(st, q)
  {
    hide OwesAt;
  }

  lemma HonestScan(w: World, cfg: Config)
    requires Core(w, cfg) && w.scan.Read? && w.s.cur.next == w.scan.start != 0
    ensures Honest(w.stream, w.s.delivered, w.sent, w.scan.read) && UniqueIds(w.stream) && Ascending(w.scan.read)
  {
    hide NothingSkipped, HolesOK, MarksOK, ForgottenLate, RecentFrom, SubsOK, OwedBy;
  }

  lemma KeepEndScan(w: World, cfg: Config, step: Step)
    requires Inv(w, cfg) && step.EndScan? && Can(w, cfg, step)
    ensures Inv(Do(w, cfg, step), cfg)
  {
    hide Inv, Drop, Honest, UniqueIds, Ascending, HolesBelow, AddHoles, Owed, CountAbove, With;
    var sc, floor := w.scan, step.floor;
    var r := ApplyScan(w.s, cfg, sc.gen, sc.start, sc.last, sc.keys, sc.read, floor);
    var v := w.(s := r.session);
    assert Inv(v, cfg) by {
      DropKeeps(w, cfg);
      if w.s.cur.gen == sc.gen && w.s.cur.next == sc.start && sc.start <= sc.last + 1 && SameSubs(w.s, sc.keys)
        && SinceKnown(w.s) {
        ScanMoves(w, cfg, floor);
      }
    }
    ForgetScan(v, cfg);
    WithKeeps(w.(scan := NoScan), cfg, r.session);
  }

  /** Ending a scan needs nothing of it any more. */
  lemma ForgetScan(w: World, cfg: Config)
    requires Inv(w, cfg)
    ensures Inv(w.(scan := NoScan), cfg)
  {
    hide StreamOK, NothingSkipped, KnownFrom, HolesOK, MarksOK, ForgottenLate, ReadOK, RecentFrom, ReplayOK, SubsOK;
  }

  lemma ScanMoves(w: World, cfg: Config, floor: nat)
    requires Inv(w, cfg) && w.scan.Read? && w.s.cur.gen == w.scan.gen && w.s.cur.next == w.scan.start
    requires w.scan.start <= w.scan.last + 1 && SameSubs(w.s, w.scan.keys) && SinceKnown(w.s)
    ensures var sc := w.scan;
            Inv(w.(s := ApplyScan(w.s, cfg, sc.gen, sc.start, sc.last, sc.keys, sc.read, floor).session), cfg)
  {
    hide Inv, Drop, Honest, UniqueIds, Ascending, HolesBelow, AddHoles, Owed, CountAbove, SameSubs, SinceKnown;
    var sc := w.scan;
    var next := ScanEnd(sc.start, sc.last, floor);
    assert sc.start >= 1 && sc.last <= |w.stream| && w.s.cur.pin == 0 && HolesBelow(w.stream, w.s.cur, w.sent, next)
      by { ScanStart(w, cfg, next); }
    assert Core(w, cfg) by { InvCore(w, cfg); }
    HonestScan(w, cfg);
    AddHolesKeeps(w.stream, w.s, cfg, sc.read, next, w.sent);
    var r := AddHoles(w.s, cfg, sc.read, next);
    DropKeeps(w, cfg);
    if r.1 {
      var c := r.0.cur.(next := next, above := CountAbove(r.0.delivered, next));
      CoreLedger(w, cfg);
      ScanSkipsNothing(w, next, c.holes);
      MovedHoles(w.stream, r.0.cur, w.sent, next, CountAbove(r.0.delivered, next));
      AdvanceKeeps(w, cfg, c);
    }
  }

  /** The invariants include what the first rule needs. */
  lemma CoreLedger(w: World, cfg: Config)
    requires Core(w, cfg)
    ensures Ledger(w)
  {
    hide StreamOK, NothingSkipped, KnownFrom, ForgottenLate, ReadOK, RecentFrom, SubsOK, PinOK;
  }

  lemma InvAccounts(w: World, cfg: Config)
    requires Inv(w, cfg)
    ensures Accounts(w)
  {
    hide Core, Ledger, HandledOK, CoverOK;
    CoreLedger(w, cfg);
  }

  lemma InvCore(w: World, cfg: Config)
    requires Inv(w, cfg)
    ensures Core(w, cfg)
  {
    hide Core, ReplayOK;
  }

  lemma ScanStart(w: World, cfg: Config, next: nat)
    requires Inv(w, cfg) && w.scan.Read? && w.s.cur.next == w.scan.start && w.s.cur.next <= next
    ensures w.scan.start >= 1 && w.scan.last <= |w.stream| && w.s.cur.pin == 0
    ensures HolesBelow(w.stream, w.s.cur, w.sent, next)
  {
    hide StreamOK, NothingSkipped, KnownFrom, MarksOK, ForgottenLate, RecentFrom, ReplayOK, SubsOK, OwedBy;
  }

  lemma MovedHoles(st: Stream, c: Cursor, sent: set<nat>, next: nat, above: nat)
    requires HolesBelow(st, c, sent, next) && next <= |st| + 1
    ensures HolesOK(st, c.(next := next, above := above), sent)
  {
  }

  lemma {:induction false} ScanReadFacts(st: Stream, gone: set<nat>, subs: Subs, client: string, from: nat, last: nat)
    requires 1 <= from && last <= |st|
    ensures var read := ScanRead(st, gone, subs, client, from, last);
            && Ascending(read)
            && (forall i :: 0 <= i < |read| ==> from <= read[i].seqNo <= last && read[i].id == At(st, read[i].seqNo).id)
            && (forall q: nat :: from <= q <= last && Owed(st, gone, subs, client, q) ==>
                Scanned(q, At(st, q).id, true) in read)
    decreases last + 1 - from
  {
    hide Owed, ScanRead;
    if from <= last {
      ScanReadFacts(st, gone, subs, client, from + 1, last);
      ScanReadShape(st, gone, subs, client, from, last);
    } else {
      assert ScanRead(st, gone, subs, client, from, last) == []
        by { ScanReadEmpty(st, gone, subs, client, from, last); }
    }
  }

  lemma ScanReadEmpty(st: Stream, gone: set<nat>, subs: Subs, client: string, from: nat, last: nat)
    requires 1 <= from && from > last && last <= |st|
    ensures ScanRead(st, gone, subs, client, from, last) == []
  {
  }

  /** One message of the stream adds at most itself to the read, and adds itself as owed when it is. */
  lemma ScanReadShape(st: Stream, gone: set<nat>, subs: Subs, client: string, from: nat, last: nat)
    requires 1 <= from <= last <= |st|
    ensures var read := ScanRead(st, gone, subs, client, from, last);
            var rest := ScanRead(st, gone, subs, client, from + 1, last);
            || (read == rest && !Owed(st, gone, subs, client, from))
            || (exists owed :: && read == [Scanned(from, At(st, from).id, owed)] + rest
                               && (Owed(st, gone, subs, client, from) ==> owed))
  {
    hide Matches;
    var read, rest := ScanRead(st, gone, subs, client, from, last), ScanRead(st, gone, subs, client, from + 1, last);
    if Owed(st, gone, subs, client, from) {
      var f :| f in subs && subs[f].made < from && OwesAt(subs[f], At(st, from), from, client);
      assert Serves(subs[f], At(st, from), client);
      assert read == [Scanned(from, At(st, from).id, true)] + rest;
    } else if !(from in gone || !(exists f :: f in subs && Serves(subs[f], At(st, from), client))) {
      var owed := exists f :: f in subs && OwesAt(subs[f], At(st, from), from, client);
      assert read == [Scanned(from, At(st, from).id, owed)] + rest;
    }
  }

  lemma ReadIsOK(w: World, cfg: Config, from: nat)
    requires Core(w, cfg) && from >= 1 && SinceKnown(w.s)
    ensures ReadOK(w.stream, w.gone, w.s.subs, w.s.client, w.nextKey, Keys(w.s), from, |w.stream|,
                   ScanRead(w.stream, w.gone, w.s.subs, w.s.client, from, |w.stream|))
  {
    hide StreamOK, NothingSkipped, KnownFrom, HolesOK, MarksOK, ForgottenLate, RecentFrom, OwesAt, ScanRead;
    hide ScanOK, RestartOK, SubscribingOK;
    ScanReadFacts(w.stream, w.gone, w.s.subs, w.s.client, from, |w.stream|);
    forall q: nat
      ensures OwedBy(w.stream, w.gone, w.s.subs, w.s.client, Keys(w.s), q) ==>
              Owed(w.stream, w.gone, w.s.subs, w.s.client, q)
    {
    }
  }

  lemma KeepReadScan(w: World, cfg: Config, step: Step)
    requires Inv(w, cfg) && (step.BeginScan? || step.ReadScan? || step.AbandonScans? || step.ReadEnd?)
    requires Can(w, cfg, step)
    ensures Inv(Do(w, cfg, step), cfg)
  {
    hide StreamOK, NothingSkipped, KnownFrom, HolesOK, MarksOK, ForgottenLate, ReadOK, ReplayOK, SubsOK, ScanRead;
    hide SinceKnown;
    if step.ReadScan? { ReadIsOK(w, cfg, w.scan.start); }
  }

  lemma KeepReadRestart(w: World, cfg: Config, step: Step)
    requires Inv(w, cfg) && step.ReadRestart? && Can(w, cfg, step)
    ensures Inv(Do(w, cfg, step), cfg)
  {
    hide StreamOK, NothingSkipped, KnownFrom, HolesOK, MarksOK, ForgottenLate, ReadOK, ReplayOK, SubsOK, ScanRead;
    hide SinceKnown, RecentFrom;
    ReadIsOK(w, cfg, step.base);
  }

  // ---------------------------------------------------------------- restarts

  /** The holes of a restart are exactly what the scan flagged as owed and the session has no id for. */
  lemma {:induction false} RestartHoleIn(delivered: Delivered, read: seq<Scanned>, next: nat, e: Entry)
    requires Ascending(read) && RestartHoles(delivered, read, next).Some?
    ensures e in RestartHoles(delivered, read, next).value <==>
              Scanned(e.seqNo, e.id, true) in read && e.seqNo < next && e.id !in delivered
    decreases |read|
  {
    if read != [] {
      var m, rest := read[0], read[1..];
      assert read == [m] + rest;
      if m.seqNo < next {
        RestartHoleIn(delivered, rest, next, e);
      } else {
        assert forall i :: 0 <= i < |read| ==> read[i].seqNo >= next;
      }
    }
  }

  lemma {:induction false} RestartHolesAscend(delivered: Delivered, read: seq<Scanned>, next: nat)
    requires Ascending(read) && RestartHoles(delivered, read, next).Some?
    ensures var holes := RestartHoles(delivered, read, next).value;
            && (forall e :: e in holes ==> e.id != "")
            && (forall i, j :: 0 <= i < j < |holes| ==> holes[i].seqNo < holes[j].seqNo)
    decreases |read|
  {
    if read != [] && read[0].seqNo < next {
      var m, rest := read[0], read[1..];
      assert read == [m] + rest;
      RestartHolesAscend(delivered, rest, next);
      var t := RestartHoles(delivered, rest, next).value;
      forall e | e in t ensures e.seqNo > m.seqNo { RestartHoleIn(delivered, rest, next, e); }
    }
  }

  lemma RestartHolesFacts(delivered: Delivered, read: seq<Scanned>, next: nat)
    requires Ascending(read)
    ensures var r := RestartHoles(delivered, read, next);
            r.Some? ==>
              && (forall e :: e in r.value <==>
                  Scanned(e.seqNo, e.id, true) in read && e.seqNo < next && e.id !in delivered)
              && (forall e :: e in r.value ==> e.id != "")
              && (forall i, j :: 0 <= i < j < |r.value| ==> r.value[i].seqNo < r.value[j].seqNo)
  {
    hide RestartHoles;
    var r := RestartHoles(delivered, read, next);
    if r.Some? {
      forall e ensures e in r.value <==> Scanned(e.seqNo, e.id, true) in read && e.seqNo < next && e.id !in delivered {
        RestartHoleIn(delivered, read, next, e);
      }
      RestartHolesAscend(delivered, read, next);
    }
  }

  lemma {:induction false} PutHolesBelow(st: Stream, c: Cursor, sent: set<nat>, bound: nat, holes: seq<Entry>)
    requires HolesBelow(st, c, sent, bound) && UniqueIds(st)
    requires forall e :: e in holes ==>
             Named(st, e.seqNo) && e.id == At(st, e.seqNo).id && e.seqNo < bound && e.seqNo !in sent
    requires forall i, j :: 0 <= i < j < |holes| ==> holes[i].seqNo < holes[j].seqNo
    requires forall e :: e in holes ==> e.seqNo !in c.holes
    ensures var d := PutHoles(c, holes);
            && HolesBelow(st, d, sent, bound)
            && d == c.(holes := d.holes, holeAt := d.holeAt)
            && (forall q :: q in d.holes <==> q in c.holes || (exists e :: e in holes && e.seqNo == q))
    decreases |holes|
  {
    hide HolesBelow;
    if holes != [] {
      var e, rest := holes[0], holes[1..];
      assert holes == [e] + rest;
      PutHoleBelow(st, c, sent, bound, e.seqNo);
      PutHolesBelow(st, PutHole(c, e.seqNo, e.id), sent, bound, rest);
    }
  }

  /** Nothing delivered from the base on can have been forgotten when the restart is applied. */
  lemma RestartKnows(st: Stream, delivered: Delivered, sent: set<nat>, prunedAt: nat, window: nat, maxDelivered: nat,
                     base: nat, began: nat)
    requires ForgottenLate(st, delivered, sent, prunedAt, window, maxDelivered)
    requires RecentFrom(st, base, began, window) && prunedAt <= began + window
    ensures KnownFrom(st, delivered, sent, base)
  {
  }

  /** No id delivered within the sequence window has been forgotten. */
  lemma WindowKnows(st: Stream, s: Session, sent: set<nat>, prunedAt: nat, window: nat, from: nat)
    requires ForgottenLate(st, s.delivered, sent, prunedAt, window, s.maxDelivered) && WindowSafe(s, from)
    ensures KnownFrom(st, s.delivered, sent, from)
  {
  }

  lemma RestartSkipsNothing(w: World, next: nat, c: Cursor)
    requires Ledger(w) && w.restart.RestartRead? && SameSubs(w.s, w.restart.r.keys) && next <= w.restart.r.last + 1
    requires forall m :: m in w.restart.r.read && m.owed && m.seqNo < next ==>
             m.id in w.s.delivered || m.seqNo in c.holes
    requires c.next == next
    ensures NothingSkipped(w.stream, w.gone, w.s.(cur := c), w.sent, w.restart.r.base)
  {
    hide StreamOK, HolesOK, ForgottenLate, RecentFrom, SubsOK, KnownFrom, Owed, OwedBy;
    var r := w.restart.r;
    forall q: nat | Owed(w.stream, w.gone, w.s.subs, w.s.client, q) && r.base <= q < next
      ensures q in w.sent || q in c.holes
    {
      OwedByKeys(w.stream, w.gone, w.s, r.keys, q);
      assert Scanned(q, At(w.stream, q).id, true) in r.read;
    }
  }

  /** The cursor a restart sets. */
  ghost predicate RestartSets(w: World, cfg: Config, floor: nat, next: nat, holes: seq<Entry>)
    requires w.restart.RestartRead?
  {
    var s, r := w.s, w.restart.r;
    && s.cur.next == 0 && s.cur.gen == r.gen && s.cur.pin == 0 && SinceKnown(s) && SameSubs(s, r.keys)
    && w.now < r.began + cfg.window && (floor == 0 || floor >= r.base)
    && next == (if floor != 0 && floor < r.last + 1 then floor else r.last + 1)
    && RestartHoles(s.delivered, r.read, next) == Some(holes)
    && |holes| <= cfg.holeBound && CountAbove(s.delivered, next) <= cfg.idBound
  }

  /**
    A restart sets a cursor whose holes are exactly the messages in [base, next) the scan flagged as owed and
    that were not delivered, and which knows every id delivered from the base on.
   */
  lemma RestartExact(w: World, cfg: Config, floor: nat, next: nat, holes: seq<Entry>)
    requires Core(w, cfg) && w.restart.RestartRead? && RestartSets(w, cfg, floor, next, holes) && w.prunedAt <= w.now
    ensures var c := PutHoles(SetCursor(w.s.cur, next).(base := w.restart.r.base), holes);
            && c == Cursor(next, c.holes, c.holeAt, w.s.cur.gen + 1, 0, 0, w.restart.r.base)
            && HolesBelow(w.stream, c, w.sent, next)
            && KnownFrom(w.stream, w.s.delivered, w.sent, w.restart.r.base)
            && (forall q :: q in c.holes <==>
                  Named(w.stream, q) && q < next && Scanned(q, At(w.stream, q).id, true) in w.restart.r.read
                    && q !in w.sent)
            && (forall m :: m in w.restart.r.read && m.owed && m.seqNo < next ==>
                m.id in w.s.delivered || m.seqNo in c.holes)
            && w.restart.r.base <= next <= |w.stream| + 1
  {
    hide NothingSkipped, HolesOK, ForgottenLate, SubsOK, OwedBy, RecentFrom, SinceKnown, SameSubs, CountAbove;
    hide ScanOK, SubscribingOK;
    var r, st := w.restart.r, w.stream;
    assert Ascending(r.read);
    RestartHolesFacts(w.s.delivered, r.read, next);
    RestartKnows(st, w.s.delivered, w.sent, w.prunedAt, cfg.window, w.s.maxDelivered, r.base, r.began);
    var c := SetCursor(w.s.cur, next).(base := r.base);
    forall e | e in holes
      ensures Named(st, e.seqNo) && e.id == At(st, e.seqNo).id && e.seqNo < next && e.seqNo !in w.sent
    {
      RestartEntry(w, cfg, e);
    }
    PutHolesBelow(st, c, w.sent, next, holes);
    var d := PutHoles(c, holes);
    forall q
      ensures q in d.holes <==> Named(st, q) && q < next && Scanned(q, At(st, q).id, true) in r.read && q !in w.sent
    {
      if Named(st, q) && q < next && Scanned(q, At(st, q).id, true) in r.read && q !in w.sent {
        assert Entry(q, At(st, q).id) in holes;
      }
      if q in d.holes {
        var e :| e in holes && e.seqNo == q;
        assert Scanned(e.seqNo, e.id, true) in r.read;
      }
    }
    forall m | m in r.read && m.owed && m.seqNo < next ensures m.id in w.s.delivered || m.seqNo in d.holes {
      if m.id !in w.s.delivered {
        assert m == Scanned(m.seqNo, m.id, true);
        assert Entry(m.seqNo, m.id) in holes;
      }
    }
  }

  lemma RestartEntry(w: World, cfg: Config, e: Entry)
    requires Core(w, cfg) && w.restart.RestartRead? && KnownFrom(w.stream, w.s.delivered, w.sent, w.restart.r.base)
    requires Scanned(e.seqNo, e.id, true) in w.restart.r.read && e.id !in w.s.delivered && e.id != ""
    ensures Named(w.stream, e.seqNo) && e.id == At(w.stream, e.seqNo).id && e.seqNo !in w.sent
  {
    hide StreamOK, NothingSkipped, HolesOK, ForgottenLate, SubsOK, OwedBy, RecentFrom, MarksOK, NothingForgotten, PinOK;
    hide ScanOK, SubscribingOK;
  }

  lemma KeepEndRestart(w: World, cfg: Config, step: Step)
    requires Inv(w, cfg) && step.EndRestart? && Can(w, cfg, step)
    ensures Inv(Do(w, cfg, step), cfg)
  {
    hide Core, NothingSkipped, HolesBelow, KnownFrom, PutHoles, RestartHoles, CountAbove, SinceKnown, SameSubs;
    hide SetCursor;
    var s, r, floor := w.s, w.restart.r, step.floor;
    var next := if floor != 0 && floor < r.last + 1 then floor else r.last + 1;
    var t := RestartCursor(s, cfg, r, floor, w.now);
    ForgetRestart(w, cfg);
    if t.1 {
      var holes := RestartHoles(s.delivered, r.read, next).value;
      RestartExact(w, cfg, floor, next, holes);
      var c := PutHoles(SetCursor(s.cur, next).(base := r.base), holes).(above := CountAbove(s.delivered, next));
      CoreLedger(w, cfg);
      RestartSkipsNothing(w, next, c);
      assert HolesOK(w.stream, c, w.sent) by {
        MovedHoles(w.stream, PutHoles(SetCursor(s.cur, next).(base := r.base), holes), w.sent, next, c.above);
      }
      RestartedCore(w.(restart := NoRestart), cfg, c, r.base);
    }
  }

  lemma ForgetRestart(w: World, cfg: Config)
    requires Core(w, cfg)
    ensures Core(w.(restart := NoRestart), cfg)
  {
    hide StreamOK, NothingSkipped, KnownFrom, HolesOK, MarksOK, ForgottenLate, ReadOK, RecentFrom, SubsOK;
  }

  lemma RestartedCore(w: World, cfg: Config, c: Cursor, base: nat)
    requires Core(w, cfg) && c.pin == 0 && c.next >= base && SinceKnown(w.s)
    requires HolesOK(w.stream, c, w.sent) && KnownFrom(w.stream, w.s.delivered, w.sent, base)
    requires NothingSkipped(w.stream, w.gone, w.s.(cur := c), w.sent, base)
    ensures Core(w.(s := w.s.(cur := c), origin := base), cfg)
  {
    hide StreamOK, HolesOK, MarksOK, ForgottenLate, ReadOK, RecentFrom, NothingSkipped;
  }

  // ---------------------------------------------------------------- replays

  lemma KeepBeginReplay(w: World, cfg: Config, step: Step)
    requires Inv(w, cfg) && step.BeginReplay? && Can(w, cfg, step)
    ensures Inv(Do(w, cfg, step), cfg)
  {
    hide Core, HandledOK, SkippedOK;
    CoreFields(w, cfg, Do(w, cfg, step).replay);
    BeginFacts(w, cfg);
  }

  lemma BeginFacts(w: World, cfg: Config)
    requires Core(w, cfg) && w.s.cur.next != 0
    ensures var r := Replaying(ViewOf(w.s), true, w.s.cur.next, w.s.delivered.Keys, {}, None, None, {}, None);
            && SkippedOK(w.stream, w.sent, r) && StartOK(w.stream, w.s.cur, r, w.pinFrom)
            && HandledOK(w.stream, w.s.subs, w.s.client, w.sent, {})
  {
    hide StreamOK, NothingSkipped, ForgottenLate, ReadOK, RecentFrom, SubsOK, ScanOK, RestartOK, SubscribingOK, PinOK;
  }

  /**
    A replay without a cursor knows every id delivered from its start on: by time because the passes since kept
    twice the rewind, and by sequence because they kept the sequence window.
   */
  lemma StartKnows(w: World, cfg: Config, step: Step)
    requires Inv(w, cfg) && step.BeginReplayFrom? && Can(w, cfg, step)
    ensures KnownFrom(w.stream, w.s.delivered, w.sent, step.start)
  {
    hide StreamOK, NothingSkipped, HolesOK, MarksOK, ReadOK, SubsOK, ReplayOK, ScanOK, RestartOK, SubscribingOK;
    hide ForgottenLate, RecentFrom, KnownFrom;
    if step.byTime {
      RestartKnows(w.stream, w.s.delivered, w.sent, w.prunedAt, cfg.window, w.s.maxDelivered, step.start,
                   w.away.value.at);
    } else if w.s.cur.next != 0 && step.start >= w.s.cur.next {
      KnownHigher(w.stream, w.s.delivered, w.sent, w.s.cur.next, step.start);
    } else {
      WindowKnows(w.stream, w.s, w.sent, w.prunedAt, cfg.window, step.start);
    }
  }

  lemma KnownHigher(st: Stream, delivered: Delivered, sent: set<nat>, from: nat, more: nat)
    requires KnownFrom(st, delivered, sent, from) && from <= more
    ensures KnownFrom(st, delivered, sent, more)
  {
  }

  lemma KeepBeginReplayFrom(w: World, cfg: Config, step: Step)
    requires Inv(w, cfg) && step.BeginReplayFrom? && Can(w, cfg, step)
    ensures Inv(Do(w, cfg, step), cfg)
  {
    hide HandledOK, SkippedOK, StreamOK, KnownFrom, ForgottenLate, ReadOK, RecentFrom, MarksOK, Owed, CoverOK;
    StartKnows(w, cfg, step);
    var r := Do(w, cfg, step).replay;
    assert HandledOK(w.stream, w.s.subs, w.s.client, w.sent, {}) && SkippedOK(w.stream, w.sent, r) by {
      BeginFromFacts(w, cfg, step.start, r);
    }
    assert CoverOK(w.stream, w.s.subs, w.s.client, r) by { NoCover(w.stream, w.s.subs, w.s.client, r); }
  }

  lemma KeepDetach(w: World, cfg: Config, step: Step)
    requires Inv(w, cfg) && step.Detach? && Can(w, cfg, step)
    ensures Inv(Do(w, cfg, step), cfg)
  {
    hide Core, ReplayOK;
    UnpinKeeps(w, cfg);
    var v := w.(s := w.s.(cur := w.s.cur.(pin := 0)), replay := NoReplay);
    var after := Detached(w, step.at, step.fromSeq);
    AbsenceKeeps(v, cfg, after.lateSeq, after.away);
    assert after == v.(lateSeq := after.lateSeq, away := after.away);
  }

  lemma NoCover(st: Stream, subs: Subs, client: string, r: Replay)
    requires r.Replaying? && r.last.None?
    ensures CoverOK(st, subs, client, r)
  {
  }

  lemma BeginFromFacts(w: World, cfg: Config, start: nat, r: Replay)
    requires Core(w, cfg) && KnownFrom(w.stream, w.s.delivered, w.sent, start)
    requires exists took :: r == Replaying(View(0, map[]), false, start, w.s.delivered.Keys, {}, None, None, {}, took)
    ensures SkippedOK(w.stream, w.sent, r) && HandledOK(w.stream, w.s.subs, w.s.client, w.sent, {})
  {
    hide StreamOK, NothingSkipped, ForgottenLate, ReadOK, RecentFrom, SubsOK, ScanOK, RestartOK, SubscribingOK, PinOK;
    hide HolesOK, NothingForgotten;
  }

  lemma KeepChooseCover(w: World, cfg: Config, step: Step)
    requires Inv(w, cfg) && (step.ChooseCover? || step.AbandonReplay? || step.DropCursor?) && Can(w, cfg, step)
    ensures Inv(Do(w, cfg, step), cfg)
  {
    hide Inv, Drop, Cover, With;
    if step.ChooseCover? {
      RecoverKeeps(w, cfg, Some(Cover(w.s.subs)));
    } else if step.AbandonReplay? {
      UnpinKeeps(w, cfg);
    } else {
      DropKeeps(w, cfg);
      WithKeeps(w, cfg, Drop(w.s));
    }
  }

  lemma RecoverKeeps(w: World, cfg: Config, cover: Option<set<Sub>>)
    requires Inv(w, cfg) && w.replay.Replaying?
    ensures Inv(w.(replay := w.replay.(cover := cover, last := None)), cfg)
  {
    hide Core, HandledOK;
    CoreFields(w, cfg, w.replay.(cover := cover, last := None));
  }

  /** Filters that cover all that the subscriptions serve cover what is stored for them. */
  lemma CoverServes(st: Stream, subs: Subs, client: string, cover: set<Sub>, q: int)
    requires Covering(|st|, subs, client, cover) && Served(st, subs, client, q)
    ensures CoveredBy(cover, At(st, q))
  {
    hide Serves, CoveredBy;
  }

  lemma KeepReadLast(w: World, cfg: Config, step: Step)
    requires Inv(w, cfg) && step.ReadLast? && Can(w, cfg, step)
    ensures Inv(Do(w, cfg, step), cfg)
  {
    hide StreamOK, NothingSkipped, KnownFrom, MarksOK, ForgottenLate, ReadOK, RecentFrom, HandledOK, SubsOK;
    hide Covering, Served, CoveredBy;
    forall q | q <= |w.stream| && Served(w.stream, w.s.subs, w.s.client, q)
      ensures Stored(w.stream, q) && CoveredBy(w.replay.cover.value, At(w.stream, q))
    {
      ServedIsStored(w.stream, w.s.subs, w.s.client, q);
      CoverServes(w.stream, w.s.subs, w.s.client, w.replay.cover.value, q);
    }
  }

  /** A replay never sends a message that was sent before. */
  lemma ReplayNeverRepeats(w: World, cfg: Config, q: nat)
    requires Inv(w, cfg) && w.replay.Replaying? && Stored(w.stream, q) && Eligible(w.replay, q) && Sends(w, q)
    ensures q !in w.sent
  {
    hide Core, HandledOK, CoverOK, StartOK;
  }

  lemma HandledMore(st: Stream, subs: Subs, client: string, sent: set<nat>, handled: set<nat>, q: nat)
    requires HandledOK(st, subs, client, sent, handled)
    ensures HandledOK(st, subs, client, sent + {q}, handled)
    ensures SettledAt(st, subs, client, sent + {q}, q) ==> HandledOK(st, subs, client, sent + {q}, handled + {q})
    ensures SettledAt(st, subs, client, sent, q) ==> HandledOK(st, subs, client, sent, handled + {q})
  {
    hide Served;
  }

  lemma UnsentIsSettled(w: World, q: nat)
    requires w.replay.Replaying? && Stored(w.stream, q) && Eligible(w.replay, q) && !Sends(w, q)
    requires SkippedOK(w.stream, w.sent, w.replay)
    ensures SettledAt(w.stream, w.s.subs, w.s.client, w.sent, q)
  {
    hide Serves;
  }

  lemma SkippedMore(st: Stream, sent: set<nat>, r: Replay, q: nat, now: nat)
    requires r.Replaying? && SkippedOK(st, sent, r) && Named(st, q) && StreamOK(st, now, sent)
    ensures SkippedOK(st, sent + {q}, r.(sent := r.sent + {At(st, q).id}))
  {
  }

  lemma KeepHandle(w: World, cfg: Config, step: Step)
    requires Inv(w, cfg) && step.Handle? && Can(w, cfg, step)
    ensures Inv(Do(w, cfg, step), cfg)
  {
    hide Core, HandledOK, SkippedOK, CoverOK, Served, NoteDelivered, Sends, SettledAt, Spares, Note;
    var st, q, r := w.stream, step.q, w.replay;
    HandledMore(st, w.s.subs, w.s.client, w.sent, r.handled, q);
    if Sends(w, q) {
      assert Named(st, q) by { SendsNamed(w, q); }
      SentCore(w, cfg, q);
      var v := Sent(w, cfg, q);
      var m := r.(sent := r.sent + {At(st, q).id});
      assert StreamOK(st, w.now, w.sent) by { CoreStream(w, cfg); }
      SkippedMore(st, w.sent, r, q, w.now);
      DeliveredIsLocal(w.s, cfg, At(st, q).id, q, w.now);
      assert SettledAt(st, w.s.subs, w.s.client, w.sent + {q}, q)
        by { SentIsSettled(st, w.s.subs, w.s.client, w.sent, q); }
      ReplayFields(st, w.sent + {q}, w.s.subs, w.s.client, m, r.handled + {q});
      CoreFields(v, cfg, m.(handled := r.handled + {q}));
      SameCover(st, w.s.subs, w.s.client, r, m.(handled := r.handled + {q}));
    } else {
      UnsentIsSettled(w, q);
      ReplayFields(st, w.sent, w.s.subs, w.s.client, r, r.handled + {q});
      CoreFields(w, cfg, r.(handled := r.handled + {q}));
      SameCover(st, w.s.subs, w.s.client, r, r.(handled := r.handled + {q}));
    }
  }

  lemma SentIsSettled(st: Stream, subs: Subs, client: string, sent: set<nat>, q: nat)
    requires Stored(st, q)
    ensures SettledAt(st, subs, client, sent + {q}, q)
  {
  }

  lemma SendsNamed(w: World, q: nat)
    requires w.replay.Replaying? && Stored(w.stream, q) && Sends(w, q)
    ensures Named(w.stream, q)
  {
  }

  lemma CoreStream(w: World, cfg: Config)
    requires Core(w, cfg)
    ensures StreamOK(w.stream, w.now, w.sent)
  {
    hide StreamOK, NothingSkipped, KnownFrom, HolesOK, MarksOK, ForgottenLate, ReadOK, RecentFrom, SubsOK;
  }

  lemma CoreFields(w: World, cfg: Config, r: Replay)
    requires Core(w, cfg)
    ensures Core(w.(replay := r), cfg) && Core(w.(replay := r, away := None), cfg)
  {
    hide StreamOK, NothingSkipped, KnownFrom, HolesOK, MarksOK, ForgottenLate, ReadOK, RecentFrom, SubsOK;
  }

  lemma ReplayFields(st: Stream, sent: set<nat>, subs: Subs, client: string, r: Replay, handled: set<nat>)
    requires r.Replaying? && SkippedOK(st, sent, r)
    ensures SkippedOK(st, sent, r.(handled := handled))
  {
  }

  lemma SameCover(st: Stream, subs: Subs, client: string, r: Replay, v: Replay)
    requires r.Replaying? && v.Replaying? && r.cover == v.cover && r.last == v.last
    ensures CoverOK(st, subs, client, v) == CoverOK(st, subs, client, r)
  {
    hide Served, CoveredBy;
  }

  lemma DeliveredIsLocal(s: Session, cfg: Config, id: Id, seqNo: nat, now: nat)
    ensures var t := NoteDelivered(s, cfg, id, seqNo, now);
            && t.subs == s.subs && t.client == s.client
            && ((t.cur.next == s.cur.next && t.cur.pin == s.cur.pin) || (t.cur.next == 0 && t.cur.pin == 0))
  {
    hide Note, Prune;
    NoteIsLocal(s, id, seqNo, now);
    PruneIsLocal(Note(s, id, seqNo, now), cfg, now);
  }

  // ---------------------------------------------------------------- the end of a replay

  /** What the session is owed up to the replay's end and from where it started was sent. */
  lemma ReplaySentOwed(w: World, cfg: Config, first: nat, floor: nat, q: nat)
    requires Accounts(w) && Enabled(w, cfg, EndReplay(first, floor))
    requires Owed(w.stream, w.gone, w.s.subs, w.s.client, q) && Eligible(w.replay, q) && q <= w.replay.last.value
    ensures q in w.sent
  {
    hide Ledger, IdsSent, CoveredBy, Owed;
    OwedIsServed(w.stream, w.gone, w.s.subs, w.s.client, q);
    assert ToRead(w, q);
    assert SettledAt(w.stream, w.s.subs, w.s.client, w.sent, q);
  }

  lemma OwedIsServed(st: Stream, gone: set<nat>, subs: Subs, client: string, q: nat)
    requires Owed(st, gone, subs, client, q)
    ensures Served(st, subs, client, q) && Named(st, q) && q !in gone
  {
  }

  /** The same for the world after the since of every subscription is filled in. */
  lemma ReplaySentFilled(w: World, cfg: Config, first: nat, floor: nat, q: nat)
    requires Accounts(w) && Enabled(w, cfg, EndReplay(first, floor))
    requires Owed(w.stream, w.gone, FillSince(w.s.subs, Keys(w.s), w.replay.last.value), w.s.client, q)
    requires Eligible(w.replay, q) && q <= w.replay.last.value
    ensures q in w.sent
  {
    hide Accounts, Owed, FillSince, Eligible;
    FillOwed(w.stream, w.gone, w.s.subs, w.s.client, Keys(w.s), w.replay.last.value, q);
    ReplaySentOwed(w, cfg, first, floor, q);
  }

  lemma FilledKnown(s: Session, last: nat)
    ensures SinceKnown(s.(subs := FillSince(s.subs, Keys(s), last)))
  {
  }

  /** The world once every since is filled in and the replay is over. */
  ghost function Filled(w: World): World
    requires w.replay.Replaying? && w.replay.last.Some?
  {
    w.(s := w.s.(subs := FillSince(w.s.subs, Keys(w.s), w.replay.last.value), cur := w.s.cur.(pin := 0)),
       replay := NoReplay)
  }

  lemma FilledKeeps(w: World, cfg: Config)
    requires Inv(w, cfg) && w.replay.Replaying? && w.replay.last.Some?
    ensures Inv(Filled(w), cfg)
  {
    hide StreamOK, NothingSkipped, KnownFrom, HolesOK, MarksOK, ForgottenLate, ReadOK, RecentFrom, ReplayOK, SubsOK;
    hide Narrows, FillSince;
    var last := w.replay.last.value;
    FillNarrows(w.stream, w.gone, w.s.subs, w.s.client, w.s.cur.next, w.nextKey, Keys(w.s), last);
    NarrowKeeps(w, cfg, FillSince(w.s.subs, Keys(w.s), last), w.nextKey);
    UnpinKeeps(w.(s := w.s.(subs := FillSince(w.s.subs, Keys(w.s), last))), cfg);
  }

  lemma UnpinKeeps(w: World, cfg: Config)
    requires Inv(w, cfg)
    ensures Inv(w.(s := w.s.(cur := w.s.cur.(pin := 0)), replay := NoReplay), cfg)
  {
    hide StreamOK, KnownFrom, MarksOK, ForgottenLate, ReadOK, RecentFrom, HandledOK, SkippedOK, CoverOK, StartOK;
    hide SubsOK, Owed;
  }

  /** A replay without a cursor that read to the end starts one, which accounts for everything from its start. */
  lemma EndWithoutCursor(w: World, cfg: Config, first: nat, floor: nat, next: nat, above: nat)
    requires Inv(w, cfg) && Can(w, cfg, EndReplay(first, floor)) && !w.replay.ok && w.s.cur.pin != 0
    requires first <= next <= w.replay.last.value + 1
    ensures var v := Filled(w);
            Inv(v.(s := v.s.(cur := SetCursor(v.s.cur, next).(above := above)), origin := first), cfg)
  {
    hide Inv, Accounts, FillSince, Keys, Owed, SinceKnown;
    FilledKeeps(w, cfg);
    assert KnownFrom(w.stream, w.s.delivered, w.sent, next) && 1 <= next <= |w.stream| + 1
      by { BlindFacts(w, cfg, next); }
    FilledKnown(w.s, w.replay.last.value);
    SameKnown(w.s.(subs := FillSince(w.s.subs, Keys(w.s), w.replay.last.value)), w.s.cur.(pin := 0));
    InvAccounts(w, cfg);
    forall q: nat | Owed(w.stream, w.gone, Filled(w).s.subs, w.s.client, q) && first <= q < next ensures q in w.sent {
      ReplaySentFilled(w, cfg, first, floor, q);
    }
    SetCursorKeeps(Filled(w), cfg, next, above, first);
  }

  lemma SameKnown(s: Session, c: Cursor)
    ensures SinceKnown(s.(cur := c)) == SinceKnown(s)
  {
  }

  lemma BlindFacts(w: World, cfg: Config, next: nat)
    requires Inv(w, cfg) && w.replay.Replaying? && w.replay.last.Some? && !w.replay.ok && w.s.cur.pin != 0
    requires w.replay.start <= next <= w.replay.last.value + 1
    ensures KnownFrom(w.stream, w.s.delivered, w.sent, next) && 1 <= next <= |w.stream| + 1
  {
    hide StreamOK, NothingSkipped, HolesOK, MarksOK, ForgottenLate, ReadOK, RecentFrom, SubsOK, HandledOK, SkippedOK;
    hide Served;
  }

  /** The holes a replay passed are settled, and so is everything from its cursor to the stream's end. */
  lemma EndSkipsNothing(w: World, cfg: Config, first: nat, floor: nat, c: Cursor)
    requires Inv(w, cfg) && Can(w, cfg, EndReplay(first, floor)) && w.replay.ok && w.s.cur.next != 0
    requires c.holes.Keys == w.s.cur.holes.Keys - Settled(w.s.cur, w.replay.had, w.replay.last.value)
    requires w.s.cur.next <= c.next && (c.next <= w.replay.last.value + 1 || c.next == w.s.cur.next)
    ensures NothingSkipped(w.stream, w.gone, Filled(w).s.(cur := c), w.sent, w.origin)
  {
    hide Inv, Accounts, FillSince, Keys, Owed;
    InvAccounts(w, cfg);
    var had, last, after := w.replay.had, w.replay.last.value, Filled(w).s.subs;
    assert forall q: nat :: Owed(w.stream, w.gone, after, w.s.client, q) && w.origin <= q < w.s.cur.next ==>
      q in w.sent || q in w.s.cur.holes
      by { FilledKeeps(w, cfg); FilledSkipped(Filled(w), cfg); }
    assert had.next <= w.s.cur.next by { HadBelow(w, cfg); }
    forall q: nat | Owed(w.stream, w.gone, after, w.s.client, q) && w.origin <= q < c.next
      ensures q in w.sent || q in c.holes
    {
      if q >= w.s.cur.next || q in Settled(w.s.cur, had, last) { ReplaySentFilled(w, cfg, first, floor, q); }
    }
  }

  lemma FilledSkipped(w: World, cfg: Config)
    requires Inv(w, cfg)
    ensures NothingSkipped(w.stream, w.gone, w.s, w.sent, w.origin)
  {
    hide StreamOK, NothingSkipped, KnownFrom, HolesOK, MarksOK, ForgottenLate, ReadOK, RecentFrom, SubsOK, ReplayOK;
  }

  lemma HadBelow(w: World, cfg: Config)
    requires Inv(w, cfg) && w.replay.Replaying? && w.replay.ok && w.s.cur.next != 0
    ensures w.replay.had.next <= w.s.cur.next
  {
    hide Core, HandledOK, SkippedOK, CoverOK;
  }

  lemma SettledHolesOK(st: Stream, c: Cursor, sent: set<nat>, had: View, last: nat, next: nat, above: nat)
    requires HolesOK(st, c, sent) && c.next <= next <= |st| + 1
    ensures HolesOK(st, SettleHoles(c, had, last).(next := next, above := above), sent)
    ensures SettleHoles(c, had, last).holes.Keys == c.holes.Keys - Settled(c, had, last)
  {
    SettleKeepsInverted(c, had, last);
  }

  lemma HolesPin(w: World, cfg: Config)
    requires Inv(w, cfg)
    ensures HolesOK(w.stream, w.s.cur.(pin := 0), w.sent)
    ensures w.replay.Replaying? && w.replay.last.Some? ==> w.replay.last.value <= |w.stream|
    ensures w.s.cur.next <= |w.stream| + 1
  {
    hide StreamOK, NothingSkipped, KnownFrom, MarksOK, ForgottenLate, ReadOK, RecentFrom, SubsOK, HandledOK, SkippedOK;
    hide Served;
  }

  lemma EndWithCursor(w: World, cfg: Config, first: nat, floor: nat, next: nat, above: nat)
    requires Inv(w, cfg) && Can(w, cfg, EndReplay(first, floor)) && w.replay.ok && w.s.cur.next != 0
    requires w.s.cur.next <= next && (next <= w.replay.last.value + 1 || next == w.s.cur.next)
    ensures var v := Filled(w);
            var c := SettleHoles(v.s.cur, w.replay.had, w.replay.last.value).(next := next, above := above);
            Inv(v.(s := v.s.(cur := c)), cfg)
  {
    hide Inv, FillSince, Keys, Owed, SinceKnown, HolesOK, NothingSkipped, SettleHoles;
    var v, last := Filled(w), w.replay.last.value;
    FilledKeeps(w, cfg);
    HolesPin(w, cfg);
    var c := SettleHoles(v.s.cur, w.replay.had, last).(next := next, above := above);
    SettledHolesOK(w.stream, v.s.cur, w.sent, w.replay.had, last, next, above);
    SettleIsLocal(v.s.cur, w.replay.had, last);
    EndSkipsNothing(w, cfg, first, floor, c);
    FilledKnown(w.s, last);
    SameKnown(w.s.(subs := FillSince(w.s.subs, Keys(w.s), last)), w.s.cur.(pin := 0));
    AdvanceKeeps(v, cfg, c);
  }

  lemma SettleIsLocal(c: Cursor, had: View, last: nat)
    ensures var d := SettleHoles(c, had, last);
            d == c.(holes := d.holes, holeAt := d.holeAt)
    ensures Settled(c, had, last) == Settled(c.(pin := 0), had, last)
  {
  }

  lemma KeepEndReplay(w: World, cfg: Config, step: Step)
    requires Inv(w, cfg) && step.EndReplay? && Can(w, cfg, step)
    ensures Inv(Do(w, cfg, step), cfg)
  {
    hide Inv, FillSince, Keys, SettleHoles, CountAbove, ToRead;
    var r, first, floor, last := w.replay, step.first, step.floor, w.replay.last.value;
    var next := if floor != 0 && floor < last + 1 then floor else last + 1;
    var above := CountAbove(w.s.delivered, next);
    FilledKeeps(w, cfg);
    if !r.ok {
      if !(w.s.cur.next != 0 || w.s.cur.pin == 0 || w.s.cur.pin > first || (floor != 0 && floor < first)) {
        EndWithoutCursor(w, cfg, first, floor, next, above);
      }
    } else if w.s.cur.next != 0 {
      SettleIsLocal(Filled(w).s.cur, r.had, last);
      if next > w.s.cur.next {
        EndWithCursor(w, cfg, first, floor, next, above);
      } else {
        EndWithCursor(w, cfg, first, floor, w.s.cur.next, w.s.cur.above);
      }
    }
  }
}
