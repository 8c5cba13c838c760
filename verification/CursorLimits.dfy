/**
  Where the cursor's first rule depends on an order of events the code does not check. Each lemma says, for all
  streams and sessions with the given subscriptions, when the end of a replay, a scan, a restart or a SUBSCRIBE
  skips nothing: exactly when a condition on the subscriptions holds, which can be looked at before the step.
  `CursorFailures` gives a run for each in which the condition fails.
 */
module CursorLimits {
  import opened Topics
  import opened Cursors
  import opened CursorRuns
  import opened CursorSafety
  import opened CursorTheorems

  // ---------------------------------------------------------------- a stream with one message

  /** `n` stored messages of which only the one at `q` can be owed to anyone. */
  function Lone(n: nat, q: nat, m: Msg): Stream {
    seq(n, i => if i + 1 == q then m.(id := "m", at := 0) else Msg("", "", 0, "", 0))
  }

  function LoneWorld(n: nat, q: nat, m: Msg, client: string, subs: Subs, next: nat, nextKey: nat): World {
    World(Lone(n, q, m), {}, 0, nextKey, Session(client, Cursor(next, map[], map[], 1, 0, 0, 0), map[], 0, subs), {},
          next, 0, 0, 0, None, NoScan, NoRestart, NotSubscribing, NoReplay)
  }

  lemma LoneAt(n: nat, q: nat, m: Msg)
    ensures forall p :: Stored(Lone(n, q, m), p) ==> p <= n
    ensures forall p :: Stored(Lone(n, q, m), p) && p != q ==>
                          At(Lone(n, q, m), p).id == "" && At(Lone(n, q, m), p).qos == 0 && At(Lone(n, q, m), p).at == 0
    ensures 1 <= q <= n ==> Stored(Lone(n, q, m), q) && At(Lone(n, q, m), q) == m.(id := "m", at := 0)
  {
  }

  lemma LoneInv(n: nat, q: nat, m: Msg, client: string, subs: Subs, next: nat, nextKey: nat, cfg: Config)
    requires SubsOK(n, subs, next, nextKey) && next <= n + 1
    ensures Inv(LoneWorld(n, q, m, client, subs, next, nextKey), cfg)
  {
    hide SubsOK, OwesAt;
    LoneAt(n, q, m);
  }

  lemma LoneOwed(n: nat, q: nat, m: Msg, client: string, subs: Subs, f: string)
    requires 1 <= q <= n && f in subs && subs[f].made < q && OwesAt(subs[f], m, q, client)
    ensures Owed(Lone(n, q, m), {}, subs, client, q)
  {
    LoneAt(n, q, m);
    assert OwesAt(subs[f], At(Lone(n, q, m), q), q, client);
  }

  // ---------------------------------------------------------------- the end of a replay

  /** A replay from a cursor that has handled everything its read handed on, whatever its filters were chosen for. */
  ghost predicate AllHandled(w: World, cfg: Config) {
    && Core(w, cfg) && w.replay.Replaying? && w.replay.ok && w.s.cur.next != 0
    && w.replay.last.Some? && w.replay.cover.Some?
    && w.replay.last.value <= |w.stream| && w.replay.had.next <= w.s.cur.next
    && HandledOK(w.stream, w.s.subs, w.s.client, w.sent, w.replay.handled)
    && (forall q :: Stored(w.stream, q) && ToRead(w, q) ==> q in w.replay.handled)
  }

  /** The filters cover every message a subscription is owed up to `last`, whatever messages are stored there. */
  ghost predicate CoversOwed(subs: Subs, client: string, cover: set<Sub>, last: nat) {
    forall f, m :: f in subs && subs[f].made < last && OwesAt(subs[f], m, last, client) ==> CoveredBy(cover, m)
  }

  /** A world in which a replay made for `cover` that read up to `last` is about to end. */
  ghost predicate EndsReplay(w: World, cfg: Config, subs: Subs, client: string, cover: set<Sub>, last: nat) {
    && AllHandled(w, cfg) && w.s.subs == subs && w.s.client == client
    && w.replay.cover == Some(cover) && w.replay.last == Some(last)
  }

  ghost predicate EndKeeps(w: World, last: nat, floor: nat)
    requires w.replay.Replaying?
  {
    var after := ReplayedTo(w.s, w.replay.had, true, w.replay.start, last, floor);
    NothingSkipped(w.stream, w.gone, after, w.sent, w.origin)
  }

  /**
    For given subscriptions and filters: no replay's end skips anything, whatever the stream and the rest of the
    session, exactly when the filters cover what the subscriptions are owed up to the end the replay read.
   */
  lemma ReplayEndExact(subs: Subs, client: string, cover: set<Sub>, last: nat, n: nat, nextKey: nat, cfg: Config)
    requires SubsOK(n, subs, 1, nextKey) && last <= n
    ensures (forall w, floor: nat :: EndsReplay(w, cfg, subs, client, cover, last) ==> EndKeeps(w, last, floor)) <==>
            CoversOwed(subs, client, cover, last)
  {
    hide SubsOK, Core, HandledOK, ToRead, CoversOwed, NothingSkipped, ReplayedTo;
    if CoversOwed(subs, client, cover, last) {
      forall w, floor: nat | EndsReplay(w, cfg, subs, client, cover, last) ensures EndKeeps(w, last, floor) {
        CoveredEnd(w, cfg, floor);
      }
    } else {
      var w := UncoveredEnd(subs, client, cover, last, n, nextKey, cfg);
      assert EndsReplay(w, cfg, subs, client, cover, last) && !EndKeeps(w, last, 0);
    }
  }

  lemma CoreFacts(w: World, cfg: Config)
    requires Core(w, cfg)
    ensures NothingSkipped(w.stream, w.gone, w.s, w.sent, w.origin) && HolesOK(w.stream, w.s.cur, w.sent)
  {
    hide StreamOK, NothingSkipped, KnownFrom, HolesOK, MarksOK, ForgottenLate, ReadOK, RecentFrom, SubsOK;
  }

  lemma CoveredEnd(w: World, cfg: Config, floor: nat)
    requires AllHandled(w, cfg) && CoversOwed(w.s.subs, w.s.client, w.replay.cover.value, w.replay.last.value)
    ensures EndKeeps(w, w.replay.last.value, floor)
  {
    hide Core, Owed, FillSince, Keys, CoversOwed, HandledOK, ToRead, CountAbove;
    var had, last := w.replay.had, w.replay.last.value;
    var after := ReplayedTo(w.s, had, true, w.replay.start, last, floor);
    CoreFacts(w, cfg);
    assert forall q :: q in after.cur.holes <==> q in w.s.cur.holes && q !in Settled(w.s.cur, had, last);
    forall q: nat | Owed(w.stream, w.gone, after.subs, w.s.client, q) && w.origin <= q < after.cur.next
      ensures q in w.sent || q in after.cur.holes
    {
      PassedIsSent(w, cfg, after, floor, q);
    }
  }

  lemma PassedIsSent(w: World, cfg: Config, after: Session, floor: nat, q: nat)
    requires AllHandled(w, cfg) && CoversOwed(w.s.subs, w.s.client, w.replay.cover.value, w.replay.last.value)
    requires after == ReplayedTo(w.s, w.replay.had, true, w.replay.start, w.replay.last.value, floor)
    requires Owed(w.stream, w.gone, after.subs, w.s.client, q) && w.origin <= q < after.cur.next
    ensures q in w.sent || q in after.cur.holes
  {
    hide Core, Owed, FillSince, Keys, CoversOwed, CoveredBy, HandledOK, ToRead, CountAbove;
    var had, last := w.replay.had, w.replay.last.value;
    CoreFacts(w, cfg);
    FillOwed(w.stream, w.gone, w.s.subs, w.s.client, Keys(w.s), last, q);
    if q < w.s.cur.next && q > last {
      FilledStillOwed(w, cfg, last, q);
    } else if q < w.s.cur.next {
      if q in Settled(w.s.cur, had, last) { HandledIsSent(w, cfg, q); }
    } else {
      OwedIsCovered(w.stream, w.gone, w.s.subs, w.s.client, w.replay.cover.value, last, q);
      HandledIsSent(w, cfg, q);
    }
  }

  lemma OwedIsCovered(st: Stream, gone: set<nat>, subs: Subs, client: string, cover: set<Sub>, last: nat, q: nat)
    requires CoversOwed(subs, client, cover, last) && Owed(st, gone, subs, client, q) && q <= last
    ensures Stored(st, q) && CoveredBy(cover, At(st, q))
  {
    hide Matches, CoveredBy;
    var f :| f in subs && subs[f].made < q && OwesAt(subs[f], At(st, q), q, client);
    assert OwesAt(subs[f], At(st, q), last, client);
  }

  lemma HandledIsSent(w: World, cfg: Config, q: nat)
    requires AllHandled(w, cfg) && Owed(w.stream, w.gone, w.s.subs, w.s.client, q) && q <= w.replay.last.value
    requires q in w.replay.had.holes || (q >= w.replay.had.next && CoveredBy(w.replay.cover.value, At(w.stream, q)))
    ensures q in w.sent
  {
    hide Core, CoveredBy;
    OwedIsServed(w.stream, w.gone, w.s.subs, w.s.client, q);
    assert ToRead(w, q);
    assert SettledAt(w.stream, w.s.subs, w.s.client, w.sent, q);
  }

  /** Below next, setting a since adds nothing the session is owed. */
  lemma FilledStillOwed(w: World, cfg: Config, last: nat, q: nat)
    requires Core(w, cfg) && q < w.s.cur.next
    requires Owed(w.stream, w.gone, FillSince(w.s.subs, Keys(w.s), last), w.s.client, q)
    ensures Owed(w.stream, w.gone, w.s.subs, w.s.client, q)
  {
    hide StreamOK, NothingSkipped, KnownFrom, HolesOK, MarksOK, ForgottenLate, ReadOK, RecentFrom, Owed, FillSince;
    FillOwed(w.stream, w.gone, w.s.subs, w.s.client, Keys(w.s), last, q);
  }

  /** Filling in unknown sinces leaves what a subscription with a known one is owed. */
  lemma FilledOwes(subs: Subs, keys: set<nat>, last: nat, f: string, m: Msg, q: nat, client: string)
    requires f in subs && OwesAt(subs[f], m, q, client)
    ensures f in FillSince(subs, keys, last) && FillSince(subs, keys, last)[f] == subs[f]
  {
    hide Matches;
  }

  /** A stream whose last message the filters do not cover. */
  lemma UncoveredEnd(subs: Subs, client: string, cover: set<Sub>, last: nat, n: nat, nextKey: nat, cfg: Config)
    returns (w: World)
    requires SubsOK(n, subs, 1, nextKey) && last <= n && !CoversOwed(subs, client, cover, last)
    ensures EndsReplay(w, cfg, subs, client, cover, last) && !EndKeeps(w, last, 0)
  {
    hide SubsOK, Core, CoveredBy, OwesAt, Served, Owed, FillSince, CountAbove;
    var f, m :| f in subs && subs[f].made < last && OwesAt(subs[f], m, last, client) && !CoveredBy(cover, m);
    var base := LoneWorld(n, last, m, client, subs, 1, nextKey);
    var handled := set i | 0 <= i < n && base.stream[i].id == "" :: i + 1;
    var r := Replaying(View(1, map[]), true, 1, {}, {}, Some(cover), Some(last), handled, None);
    w := base.(replay := r);
    LoneInv(n, last, m, client, subs, 1, nextKey, cfg);
    assert Core(w, cfg) by { CoreFields(base, cfg, r); }
    LoneAt(n, last, m);
    SameCovered(cover, m, m.(id := "m", at := 0));
    var after := ReplayedTo(w.s, r.had, true, 1, last, 0);
    FilledOwes(subs, Keys(w.s), last, f, m, last, client);
    LoneOwed(n, last, m, client, after.subs, f);
    assert last !in w.sent && last !in after.cur.holes && w.origin <= last < after.cur.next;
  }

  lemma SameCovered(cover: set<Sub>, m: Msg, o: Msg)
    requires m.name == o.name
    ensures CoveredBy(cover, m) == CoveredBy(cover, o)
  {
  }

  // ---------------------------------------------------------------- scans and restarts

  /**
    Every message a subscription of unknown since will be owed in [from, last], once that since is set to
    `since`, is one that a subscription of known since is owed, so that the read flags it.
   */
  ghost predicate FlagsOwed(subs: Subs, client: string, since: nat, from: nat, last: nat) {
    forall f, m, q: nat :: f in subs && from <= q <= last && WillOwe(subs[f], m, q, since, client) ==>
                             KnownOwed(subs, m, q, client)
  }

  /** `sub` is owed `m` at `q` once its unknown since is set to `since`. */
  predicate WillOwe(sub: Sub, m: Msg, q: nat, since: nat, client: string) {
    sub.since.None? && sub.made < q && since < q && Serves(sub, m, client)
  }

  ghost predicate KnownOwed(subs: Subs, m: Msg, q: nat, client: string) {
    exists g :: g in subs && OwesAt(subs[g], m, q, client)
  }

  /** Known sinces are enough. */
  lemma KnownFlags(s: Session, since: nat, from: nat, last: nat)
    requires SinceKnown(s)
    ensures FlagsOwed(s.subs, s.client, since, from, last)
  {
  }

  function KeysOf(subs: Subs): set<nat> { set f | f in subs :: subs[f].key }

  /** What the read flagged as owed is owed by a subscription it was made for. */
  lemma {:induction false} FlaggedIsOwed(st: Stream, gone: set<nat>, subs: Subs, client: string, from: nat, last: nat,
                                         m: Scanned)
    requires 1 <= from && last <= |st| && m in ScanRead(st, gone, subs, client, from, last) && m.owed
    ensures Stored(st, m.seqNo) && KnownOwed(subs, At(st, m.seqNo), m.seqNo, client)
    decreases last + 1 - from
  {
    hide OwesAt, Serves;
    if from <= last && m in ScanRead(st, gone, subs, client, from + 1, last) {
      FlaggedIsOwed(st, gone, subs, client, from + 1, last, m);
    }
  }

  /** The read of a copy of the subscriptions whose unknown sinces were filled in afterwards. */
  lemma FlaggedRead(w: World, cfg: Config, subs: Subs, since: nat, from: nat, last: nat)
    requires Core(w, cfg) && 1 <= from && last <= |w.stream| && SinceKnown(w.s)
    requires w.s.subs == FillSince(subs, KeysOf(subs), since) && FlagsOwed(subs, w.s.client, since, from, last)
    ensures ReadOK(w.stream, w.gone, w.s.subs, w.s.client, w.nextKey, Keys(w.s), from, last,
                   ScanRead(w.stream, w.gone, subs, w.s.client, from, last))
  {
    hide StreamOK, NothingSkipped, KnownFrom, HolesOK, MarksOK, ForgottenLate, RecentFrom, ScanRead, FlagsOwed, Serves;
    hide ScanOK, RestartOK, SubscribingOK, FillSince, OwesAt;
    var read := ScanRead(w.stream, w.gone, subs, w.s.client, from, last);
    ScanReadFacts(w.stream, w.gone, subs, w.s.client, from, last);
    forall q: nat | from <= q <= last && OwedBy(w.stream, w.gone, w.s.subs, w.s.client, Keys(w.s), q)
      ensures Scanned(q, At(w.stream, q).id, true) in read
    {
      OwedIsFlagged(w.stream, w.gone, subs, w.s.client, since, from, last, q);
    }
  }

  lemma OwedIsFlagged(st: Stream, gone: set<nat>, subs: Subs, client: string, since: nat, from: nat, last: nat, q: nat)
    requires 1 <= from <= q <= last <= |st| && FlagsOwed(subs, client, since, from, last)
    requires Named(st, q) && q !in gone
    requires var after := FillSince(subs, KeysOf(subs), since);
             exists f :: f in after && after[f].made < q && OwesAt(after[f], At(st, q), q, client)
    ensures Scanned(q, At(st, q).id, true) in ScanRead(st, gone, subs, client, from, last)
  {
    hide Matches, ScanRead, FlagsOwed;
    var after := FillSince(subs, KeysOf(subs), since);
    var f :| f in after && after[f].made < q && OwesAt(after[f], At(st, q), q, client);
    if subs[f].since.None? {
      assert WillOwe(subs[f], At(st, q), q, since, client);
      NowFlagged(subs, client, since, from, last, f, At(st, q), q);
    } else {
      assert after[f] == subs[f];
    }
    ReadFlags(st, gone, subs, client, from, last, q);
  }

  lemma NowFlagged(subs: Subs, client: string, since: nat, from: nat, last: nat, f: string, m: Msg, q: nat)
    requires FlagsOwed(subs, client, since, from, last)
    requires f in subs && from <= q <= last && WillOwe(subs[f], m, q, since, client)
    ensures KnownOwed(subs, m, q, client)
  {
  }

  lemma {:induction false} ReadFlags(st: Stream, gone: set<nat>, subs: Subs, client: string, from: nat, last: nat,
                                     q: nat)
    requires 1 <= from <= q <= last <= |st| && q !in gone
    requires KnownOwed(subs, At(st, q), q, client)
    ensures Scanned(q, At(st, q).id, true) in ScanRead(st, gone, subs, client, from, last)
    decreases last + 1 - from
  {
    hide Matches;
    if from < q {
      ReadFlags(st, gone, subs, client, from + 1, last, q);
    } else {
      var g :| g in subs && OwesAt(subs[g], At(st, q), q, client);
      assert Serves(subs[g], At(st, q), client);
    }
  }

  /** A scan made for `subs` from `start` to `last` is about to be applied, the unknown sinces now being `since`. */
  ghost predicate EndsScan(w: World, cfg: Config, subs: Subs, client: string, since: nat, start: nat, last: nat) {
    && 1 <= start <= last + 1 && last <= |w.stream|
    && Inv(w.(scan := NoScan), cfg) && w.s.client == client && w.s.subs == FillSince(subs, KeysOf(subs), since)
    && w.scan == Read(w.s.cur.gen, start, KeysOf(subs), last, ScanRead(w.stream, w.gone, subs, client, start, last))
    && w.s.cur.next == start
  }

  ghost predicate ScanKeeps(w: World, cfg: Config, floor: nat)
    requires w.scan.Read?
  {
    var sc := w.scan;
    var after := ApplyScan(w.s, cfg, sc.gen, sc.start, sc.last, sc.keys, sc.read, floor).session;
    NothingSkipped(w.stream, w.gone, after, w.sent, w.origin)
  }

  /**
    For the subscriptions a scan copied: applying it skips nothing, whatever the stream and the rest of the
    session, exactly when what the unknown sinces will make owed was flagged for a known one.
   */
  lemma ScanExact(subs: Subs, client: string, since: nat, start: nat, last: nat, n: nat, nextKey: nat, cfg: Config)
    requires 1 <= start <= last + 1 && last <= n && SubsOK(n, subs, start, nextKey)
    ensures FlagsOwed(subs, client, since, start, last) <==>
            forall w, floor: nat :: EndsScan(w, cfg, subs, client, since, start, last) ==> ScanKeeps(w, cfg, floor)
  {
    hide SubsOK, Inv, FillSince, ScanRead, KeysOf, NothingSkipped, ApplyScan, FlagsOwed;
    if FlagsOwed(subs, client, since, start, last) {
      forall w, floor: nat | EndsScan(w, cfg, subs, client, since, start, last) ensures ScanKeeps(w, cfg, floor) {
        FlaggedScan(w, cfg, subs, since, start, last, floor);
      }
    } else {
      var w := UnflaggedScan(subs, client, since, start, last, n, nextKey, cfg);
      assert EndsScan(w, cfg, subs, client, since, start, last) && !ScanKeeps(w, cfg, 0);
    }
  }

  lemma FilledKeys(subs: Subs, since: nat)
    ensures forall f :: f in FillSince(subs, KeysOf(subs), since) <==> f in subs
    ensures forall f :: f in subs ==> FillSince(subs, KeysOf(subs), since)[f].since.Some?
    ensures KeysOf(FillSince(subs, KeysOf(subs), since)) == KeysOf(subs)
  {
    var after := FillSince(subs, KeysOf(subs), since);
    assert forall f :: f in subs ==> after[f].key == subs[f].key && subs[f].key in KeysOf(subs);
  }

  lemma FlaggedScan(w: World, cfg: Config, subs: Subs, since: nat, start: nat, last: nat, floor: nat)
    requires EndsScan(w, cfg, subs, w.s.client, since, start, last) && FlagsOwed(subs, w.s.client, since, start, last)
    ensures ScanKeeps(w, cfg, floor)
  {
    hide Inv, FillSince, ScanRead, FlagsOwed, NothingSkipped, ApplyScan;
    FilledKeys(subs, since);
    var calm := w.(scan := NoScan);
    assert ReadOK(w.stream, w.gone, w.s.subs, w.s.client, w.nextKey, w.scan.keys, start, last, w.scan.read) by {
      InvCore(calm, cfg);
      FlaggedRead(calm, cfg, subs, since, start, last);
      assert Keys(w.s) == KeysOf(subs);
    }
    WithScan(w, cfg);
    var after := Do(w, cfg, EndScan(floor));
    KeepEndScan(w, cfg, EndScan(floor));
    FilledSkipped(after, cfg);
  }

  lemma WithScan(w: World, cfg: Config)
    requires Inv(w.(scan := NoScan), cfg) && ScanOK(w.stream, w.gone, w.s.subs, w.s.client, w.nextKey, w.scan)
    ensures Inv(w, cfg)
  {
    hide StreamOK, NothingSkipped, KnownFrom, HolesOK, MarksOK, ForgottenLate, ReadOK, RecentFrom, ReplayOK, SubsOK;
  }

  /** Nothing is made a hole of a read that flags nothing. */
  lemma {:induction false} NoneAdded(s: Session, cfg: Config, read: seq<Scanned>, next: nat)
    requires forall m :: m in read ==> !m.owed
    ensures AddHoles(s, cfg, read, next) == (s, true)
    decreases |read|
  {
    if read != [] && read[0].seqNo < next { NoneAdded(s, cfg, read[1..], next); }
  }

  lemma {:induction false} NoneFound(delivered: Delivered, read: seq<Scanned>, next: nat)
    requires forall m :: m in read ==> !m.owed
    ensures RestartHoles(delivered, read, next) == Some([])
    decreases |read|
  {
    if read != [] && read[0].seqNo < next { NoneFound(delivered, read[1..], next); }
  }

  /** A message no subscription of known since is owed, at the sequence where one of unknown since will be. */
  lemma Unflagged(subs: Subs, client: string, since: nat, from: nat, last: nat, n: nat)
    returns (m: Msg, q: nat)
    requires 1 <= from && last <= n && !FlagsOwed(subs, client, since, from, last)
    ensures from <= q <= last
    ensures forall r :: r in ScanRead(Lone(n, q, m), {}, subs, client, from, last) ==> !r.owed
    ensures Owed(Lone(n, q, m), {}, FillSince(subs, KeysOf(subs), since), client, q)
  {
    hide Matches, ScanRead;
    var f: string;
    f, m, q :| && f in subs && from <= q <= last && WillOwe(subs[f], m, q, since, client)
               && !KnownOwed(subs, m, q, client);
    LoneAt(n, q, m);
    var st := Lone(n, q, m);
    forall r | r in ScanRead(st, {}, subs, client, from, last) ensures !r.owed {
      if r.owed { FlaggedIsOwed(st, {}, subs, client, from, last, r); }
    }
    var after := FillSince(subs, KeysOf(subs), since);
    assert subs[f].key in KeysOf(subs);
    LoneOwed(n, q, m, client, after, f);
  }

  lemma UnflaggedScan(subs: Subs, client: string, since: nat, start: nat, last: nat, n: nat, nextKey: nat, cfg: Config)
    returns (w: World)
    requires 1 <= start <= last + 1 && last <= n && SubsOK(n, subs, start, nextKey)
    requires !FlagsOwed(subs, client, since, start, last)
    ensures EndsScan(w, cfg, subs, client, since, start, last) && !ScanKeeps(w, cfg, 0)
  {
    hide Inv, Owed, FlagsOwed, SubsOK, FillSince, ScanRead, AddHoles, CountAbove, KeysOf;
    var m, q := Unflagged(subs, client, since, start, last, n);
    var after := FillSince(subs, KeysOf(subs), since);
    var calm := LoneWorld(n, q, m, client, after, start, nextKey);
    var read := ScanRead(calm.stream, {}, subs, client, start, last);
    w := calm.(scan := Read(1, start, KeysOf(subs), last, read));
    FilledSubs(subs, since, n, start, nextKey);
    LoneInv(n, q, m, client, after, start, nextKey, cfg);
    assert w.(scan := NoScan) == calm;
    AllKnown(w.s, subs, since);
    NoneAdded(w.s, cfg, read, last + 1);
  }

  lemma AllKnown(s: Session, subs: Subs, since: nat)
    requires s.subs == FillSince(subs, KeysOf(subs), since)
    ensures SinceKnown(s) && SameSubs(s, KeysOf(subs))
  {
    hide FillSince;
    FilledKeys(subs, since);
    assert Keys(s) == KeysOf(s.subs);
  }

  lemma FilledSubs(subs: Subs, since: nat, n: nat, next: nat, nextKey: nat)
    requires SubsOK(n, subs, next, nextKey)
    ensures SubsOK(n, FillSince(subs, KeysOf(subs), since), next, nextKey)
  {
  }

  /** A restart's read from `base` to `last` is about to be applied, the unknown sinces now being `since`. */
  ghost predicate EndsRestart(w: World, cfg: Config, subs: Subs, client: string, since: nat, base: nat, last: nat) {
    && 1 <= base <= last + 1 && last <= |w.stream|
    && Inv(w.(restart := NoRestart), cfg) && w.s.client == client && w.s.subs == FillSince(subs, KeysOf(subs), since)
    && w.restart.RestartRead? && w.replay.NoReplay?
    && w.restart.r == Restart(w.restart.r.gen, KeysOf(subs), w.restart.r.began, base, last,
                              ScanRead(w.stream, w.gone, subs, client, base, last))
    && w.restart.r.began <= w.now && RecentFrom(w.stream, base, w.restart.r.began, cfg.window)
  }

  ghost predicate RestartKeeps(w: World, cfg: Config, floor: nat)
    requires w.restart.RestartRead?
  {
    var t := RestartCursor(w.s, cfg, w.restart.r, floor, w.now);
    t.1 ==> NothingSkipped(w.stream, w.gone, t.0, w.sent, w.restart.r.base)
  }

  /** The same for a restart, which sets a cursor only within the rewind of its start. */
  lemma RestartReadExact(subs: Subs, client: string, since: nat, base: nat, last: nat, n: nat, nextKey: nat,
                         cfg: Config)
    requires 1 <= base <= last + 1 && last <= n && SubsOK(n, subs, 0, nextKey) && cfg.window > 0
    ensures FlagsOwed(subs, client, since, base, last) <==>
            forall w, floor: nat :: EndsRestart(w, cfg, subs, client, since, base, last) ==> RestartKeeps(w, cfg, floor)
  {
    hide SubsOK, Inv, FillSince, ScanRead, KeysOf, NothingSkipped, RestartCursor, RecentFrom, FlagsOwed;
    if FlagsOwed(subs, client, since, base, last) {
      forall w, floor: nat | EndsRestart(w, cfg, subs, client, since, base, last) ensures RestartKeeps(w, cfg, floor) {
        FlaggedRestart(w, cfg, subs, since, base, last, floor);
      }
    } else {
      var w := UnflaggedRestart(subs, client, since, base, last, n, nextKey, cfg);
      assert EndsRestart(w, cfg, subs, client, since, base, last) && !RestartKeeps(w, cfg, 0);
    }
  }

  lemma FlaggedRestart(w: World, cfg: Config, subs: Subs, since: nat, base: nat, last: nat, floor: nat)
    requires EndsRestart(w, cfg, subs, w.s.client, since, base, last) && FlagsOwed(subs, w.s.client, since, base, last)
    ensures RestartKeeps(w, cfg, floor)
  {
    hide Inv, FillSince, ScanRead, FlagsOwed, NothingSkipped, RestartCursor, RecentFrom;
    FilledKeys(subs, since);
    var calm := w.(restart := NoRestart);
    assert ReadOK(w.stream, w.gone, w.s.subs, w.s.client, w.nextKey, w.restart.r.keys, base, last, w.restart.r.read)
      by {
      InvCore(calm, cfg);
      FlaggedRead(calm, cfg, subs, since, base, last);
      assert Keys(w.s) == KeysOf(subs);
    }
    WithRestart(w, cfg);
    var after := Do(w, cfg, EndRestart(floor));
    KeepEndRestart(w, cfg, EndRestart(floor));
    FilledSkipped(after, cfg);
  }

  lemma WithRestart(w: World, cfg: Config)
    requires Inv(w.(restart := NoRestart), cfg)
    requires RestartOK(w.stream, w.gone, w.s.subs, w.s.client, w.nextKey, w.restart, w.now, cfg.window)
    ensures Inv(w, cfg)
  {
    hide StreamOK, NothingSkipped, KnownFrom, HolesOK, MarksOK, ForgottenLate, ReadOK, RecentFrom, ReplayOK, SubsOK;
  }

  lemma UnflaggedRestart(subs: Subs, client: string, since: nat, base: nat, last: nat, n: nat, nextKey: nat,
                         cfg: Config)
    returns (w: World)
    requires 1 <= base <= last + 1 && last <= n && SubsOK(n, subs, 0, nextKey) && cfg.window > 0
    requires !FlagsOwed(subs, client, since, base, last)
    ensures EndsRestart(w, cfg, subs, client, since, base, last) && !RestartKeeps(w, cfg, 0)
  {
    hide Inv, Owed, FlagsOwed, SubsOK, FillSince, ScanRead, RestartHoles, KeysOf;
    var m, q := Unflagged(subs, client, since, base, last, n);
    var after := FillSince(subs, KeysOf(subs), since);
    var calm := LoneWorld(n, q, m, client, after, 0, nextKey);
    var read := ScanRead(calm.stream, {}, subs, client, base, last);
    w := calm.(restart := RestartRead(Restart(1, KeysOf(subs), 0, base, last, read)));
    FilledSubs(subs, since, n, 0, nextKey);
    LoneInv(n, q, m, client, after, 0, nextKey, cfg);
    assert w.(restart := NoRestart) == calm;
    AllKnown(w.s, subs, since);
    NoneFound(w.s.delivered, read, last + 1);
    NoneAbove(last + 1);
  }

  lemma NoneAbove(seqNo: nat)
    ensures CountAbove(map[], seqNo) == 0
  {
    var none: Delivered := map[];
    assert (set id | id in none && none[id].seqNo >= seqNo) == {};
  }

  // ---------------------------------------------------------------- a SUBSCRIBE that starts the cursor

  /** No message stored up to `last` is owed, whatever it is. */
  ghost predicate OwesNothingTo(subs: Subs, client: string, last: nat) {
    forall f, m :: f in subs && subs[f].made < last ==> !OwesAt(subs[f], m, last, client)
  }

  /** `NothingOwedTo` is the test on the sinces alone. */
  lemma SincesOweNothing(s: Session, last: nat)
    requires NothingOwedTo(s, last)
    ensures OwesNothingTo(s.subs, s.client, last)
  {
  }

  ghost predicate StartsFor(w: World, cfg: Config, subs: Subs, client: string, last: nat) {
    Inv(w, cfg) && w.s.subs == subs && w.s.client == client && last <= |w.stream|
  }

  ghost predicate StartSkipsNothing(w: World, last: nat) {
    NothingSkipped(w.stream, w.gone, w.s.(cur := SetCursor(w.s.cur, last + 1)), w.sent, 0)
  }

  /**
    For the subscriptions a session holds: starting its cursor at `last + 1` skips nothing, whatever the stream
    and the rest of the session, exactly when none of them is owed anything up to `last`.
   */
  lemma StartExact(subs: Subs, client: string, last: nat, n: nat, nextKey: nat, cfg: Config)
    requires SubsOK(n, subs, 0, nextKey) && last <= n
    ensures (forall w :: StartsFor(w, cfg, subs, client, last) ==> StartSkipsNothing(w, last)) <==>
            OwesNothingTo(subs, client, last)
  {
    hide SubsOK, Inv, OwesNothingTo, Owed, OwesAt;
    if OwesNothingTo(subs, client, last) {
      forall w, q: nat | StartsFor(w, cfg, subs, client, last) && q < last + 1
        ensures !Owed(w.stream, w.gone, subs, client, q)
      {
        OwedUpTo(w.stream, w.gone, subs, client, last, q);
      }
    } else {
      UnowedStart(subs, client, last, n, nextKey, cfg);
    }
  }

  lemma OwedUpTo(st: Stream, gone: set<nat>, subs: Subs, client: string, last: nat, q: nat)
    requires OwesNothingTo(subs, client, last) && q <= last
    ensures !Owed(st, gone, subs, client, q)
  {
    hide Matches;
    if Stored(st, q) {
      forall f | f in subs && subs[f].made < q ensures !OwesAt(subs[f], At(st, q), q, client) {
        assert !OwesAt(subs[f], At(st, q), last, client);
      }
    }
  }

  lemma UnowedStart(subs: Subs, client: string, last: nat, n: nat, nextKey: nat, cfg: Config)
    requires SubsOK(n, subs, 0, nextKey) && last <= n && !OwesNothingTo(subs, client, last)
    ensures exists w :: StartsFor(w, cfg, subs, client, last) && !StartSkipsNothing(w, last)
  {
    hide SubsOK, Inv, Owed, OwesAt;
    var f, m :| f in subs && subs[f].made < last && OwesAt(subs[f], m, last, client);
    var w := LoneWorld(n, last, m, client, subs, 0, nextKey);
    LoneInv(n, last, m, client, subs, 0, nextKey, cfg);
    LoneOwed(n, last, m, client, subs, f);
    assert StartsFor(w, cfg, subs, client, last) && !StartSkipsNothing(w, last);
  }
}
