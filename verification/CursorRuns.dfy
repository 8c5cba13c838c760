/**
  Every run of a session's replay cursor: messages are stored and age out, live copies arrive, messages are
  delivered and forgotten, subscriptions come and go, scans and restart scans race all of these, and replays
  read the stream, fail and read again. The invariants say that nothing owed is skipped and nothing delivered
  is repeated (the two rules cursor.go states), in every state a run can reach.
 */
module CursorRuns {
  import opened Topics
  import opened Cursors

  // ---------------------------------------------------------------- the world

  /** A scan between its first look at the cursor and its end. */
  datatype Scan =
    | NoScan
    | Started(gen: nat, start: nat)
    | Read(gen: nat, start: nat, keys: set<nat>, last: nat, read: seq<Scanned>)

  datatype RestartScan = NoRestart | RestartRead(r: Restart)

  /** A SUBSCRIBE between reading the stream's end and setting the since of its subscriptions. */
  datatype Subscribing = NotSubscribing | EndRead(last: nat, readAt: nat)

  /**
    An absence no replay has taken yet: when the connection ended, the lowest sequence it knew it owed, and the
    lowest one a live copy reached the session with afterwards (0 when there is none). `sure` says that the
    latter was tested against the sequence window once the connection had ended, when it came without a cursor or
    when the cursor was dropped.
   */
  datatype Away = Away(at: nat, fromSeq: nat, lateSeq: nat, sure: bool)

  /**
    A resume replay: the cursor it started from (when `ok`), the subscriptions its current read was made for
    (`cover`, None before it is chosen), the stream's end for that read, the sequences already handled, and the
    absence it took when it starts at a time.
   */
  datatype Replay =
    | NoReplay
    | Replaying(had: View, ok: bool, start: nat, snapshot: set<Id>, sent: set<Id>,
                cover: Option<set<Sub>>, last: Option<nat>, handled: set<nat>, took: Option<Away>)

  /**
    `sent` is the sequences of the messages the client was sent (or that were settled for it), `origin` the
    first sequence the cursor accounts for, `pinFrom` the first sequence a pinned replay reads from, and
    `prunedAt` the time of the last pruning pass. `away` is None while a connection delivers; `lateSeq` is the
    lowest live copy that reached a connection already ending.
   */
  datatype World = World(stream: seq<Msg>, gone: set<nat>, now: nat, nextKey: nat, s: Session, sent: set<nat>,
                         origin: nat, pinFrom: nat, prunedAt: nat, lateSeq: nat, away: Option<Away>,
                         scan: Scan, restart: RestartScan, subscribing: Subscribing, replay: Replay)

  type Stream = seq<Msg>
  type Subs = map<string, Sub>
  type Delivered = map<Id, Mark>

  predicate Stored(st: Stream, q: int) { 1 <= q <= |st| }

  function At(st: Stream, q: int): Msg
    requires Stored(st, q)
  {
    st[q - 1]
  }

  /** A stored message that carries an id. */
  predicate Named(st: Stream, q: int) { Stored(st, q) && At(st, q).id != "" }

  /** A subscription the session holds serves the message at `q`, stored after the subscription was made. */
  ghost predicate Served(st: Stream, subs: Subs, client: string, q: int) {
    Stored(st, q) && exists f :: f in subs && subs[f].made < q && Serves(subs[f], At(st, q), client)
  }

  /** What the session is owed: served, after the recorded since, with an id, and still in the stream. */
  ghost predicate Owed(st: Stream, gone: set<nat>, subs: Subs, client: string, q: int) {
    && Named(st, q) && q !in gone
    && exists f :: f in subs && subs[f].made < q && OwesAt(subs[f], At(st, q), q, client)
  }

  /** The message at `q` is known as delivered by a mark that does not carry its sequence. */
  ghost predicate Loose(st: Stream, delivered: Delivered, q: int) {
    Named(st, q) && At(st, q).id in delivered && delivered[At(st, q).id].seqNo == 0
  }

  /** The message at `q` is known as delivered, at its own sequence or without one. */
  ghost predicate Marked(st: Stream, delivered: Delivered, q: int) {
    Stored(st, q) && At(st, q).id in delivered && (delivered[At(st, q).id].seqNo == q || Loose(st, delivered, q))
  }

  // ---------------------------------------------------------------- invariants

  /** Ids are unique, messages are stored in time order, and nothing is stored in the future. */
  ghost predicate StreamOK(st: Stream, now: nat, sent: set<nat>) {
    && (forall p, q :: Named(st, p) && Named(st, q) && At(st, p).id == At(st, q).id ==> p == q)
    && (forall p, q :: Stored(st, p) && Stored(st, q) && p <= q ==> At(st, p).at <= At(st, q).at)
    && (forall q :: Stored(st, q) ==> At(st, q).at <= now)
    && (forall q :: q in sent ==> Stored(st, q))
  }

  /** Nothing owed is skipped: what the session is owed from the origin up to next was sent or is a hole. */
  ghost predicate NothingSkipped(st: Stream, gone: set<nat>, s: Session, sent: set<nat>, origin: nat) {
    s.cur.next != 0 ==>
      forall q: nat :: Owed(st, gone, s.subs, s.client, q) && origin <= q < s.cur.next ==> q in sent || q in s.cur.holes
  }

  /** What was sent from `from` on is known by its id. */
  ghost predicate KnownFrom(st: Stream, delivered: Delivered, sent: set<nat>, from: nat) {
    forall q :: q in sent && q >= from && Named(st, q) ==> Marked(st, delivered, q)
  }

  /** Nothing delivered is repeated: what was sent at or above next is known by its id. */
  ghost predicate NothingForgotten(st: Stream, delivered: Delivered, sent: set<nat>, next: nat) {
    next != 0 ==> KnownFrom(st, delivered, sent, next)
  }

  /** Holes are messages below `bound` that were not sent, and the two indexes agree. */
  ghost predicate HolesBelow(st: Stream, c: Cursor, sent: set<nat>, bound: nat) {
    && Inverted(c)
    && (forall q :: q in c.holes ==> Named(st, q) && q < bound && q !in sent && c.holes[q] == At(st, q).id)
  }

  ghost predicate HolesOK(st: Stream, c: Cursor, sent: set<nat>) {
    HolesBelow(st, c, sent, c.next) && c.next <= |st| + 1
  }

  /** Every delivered mark of a stored message is that of a message that was sent. */
  ghost predicate MarksOK(st: Stream, delivered: Delivered, sent: set<nat>, now: nat) {
    forall q :: Named(st, q) && At(st, q).id in delivered ==>
                  && q in sent
                  && (delivered[At(st, q).id].seqNo == q || Loose(st, delivered, q))
                  && At(st, q).at <= delivered[At(st, q).id].at <= now
  }

  /**
    A pass at `prunedAt` may have forgotten the message: older than twice the rewind, and below the sequence
    window.
   */
  ghost predicate Outlived(st: Stream, q: int, prunedAt: nat, window: nat, maxDelivered: nat) {
    Stored(st, q) && prunedAt > At(st, q).at + 2 * window && q + DELIVERED_SEQ_WINDOW < maxDelivered
  }

  /** A sent message is forgotten only by a pass that found it old and far below the highest delivered one. */
  ghost predicate ForgottenLate(st: Stream, delivered: Delivered, sent: set<nat>, prunedAt: nat, window: nat,
                                maxDelivered: nat) {
    forall q :: q in sent && Named(st, q) ==>
                  Marked(st, delivered, q) || Outlived(st, q, prunedAt, window, maxDelivered)
  }

  /** A pinned replay finds every id it can meet. */
  ghost predicate PinOK(st: Stream, delivered: Delivered, sent: set<nat>, c: Cursor, pinFrom: nat) {
    c.pin != 0 ==> c.next == 0 && c.pin <= pinFrom && KnownFrom(st, delivered, sent, pinFrom)
  }

  ghost predicate SubsOK(n: nat, subs: Subs, next: nat, nextKey: nat) {
    && (forall f :: f in subs ==> subs[f].filter == f && subs[f].made <= n && subs[f].key < nextKey)
    && (forall f, g :: f in subs && g in subs && subs[f].key == subs[g].key ==> f == g)
    && (forall f :: f in subs && !subs[f].shared && subs[f].since.None? ==> next <= subs[f].made + 1)
  }

  /** Owed by one of the subscriptions in `keys`. */
  ghost predicate OwedBy(st: Stream, gone: set<nat>, subs: Subs, client: string, keys: set<nat>, q: int) {
    && Named(st, q) && q !in gone
    && exists f :: f in subs && subs[f].key in keys && subs[f].made < q && OwesAt(subs[f], At(st, q), q, client)
  }

  /**
    What a read of [from, last] for the subscriptions in `keys` holds: all they are owed there, and nothing
    invented.
   */
  ghost predicate ReadOK(st: Stream, gone: set<nat>, subs: Subs, client: string, nextKey: nat,
                         keys: set<nat>, from: nat, last: nat, read: seq<Scanned>) {
    && 1 <= from && last <= |st|
    && (forall i :: 0 <= i < |read| ==> from <= read[i].seqNo <= last && read[i].id == At(st, read[i].seqNo).id)
    && (forall i, j :: 0 <= i < j < |read| ==> read[i].seqNo < read[j].seqNo)
    && (forall q: nat :: from <= q <= last && OwedBy(st, gone, subs, client, keys, q) ==>
        Scanned(q, At(st, q).id, true) in read)
    && (forall f :: f in subs && subs[f].key in keys ==> subs[f].shared || subs[f].since.Some?)
    && (forall k :: k in keys ==> k < nextKey)
  }

  ghost predicate ScanOK(st: Stream, gone: set<nat>, subs: Subs, client: string, nextKey: nat, scan: Scan) {
    scan.Read? ==> ReadOK(st, gone, subs, client, nextKey, scan.keys, scan.start, scan.last, scan.read)
  }

  ghost predicate RestartOK(st: Stream, gone: set<nat>, subs: Subs, client: string, nextKey: nat,
                            restart: RestartScan, now: nat, window: nat) {
    restart.RestartRead? ==>
      var r := restart.r;
      && ReadOK(st, gone, subs, client, nextKey, r.keys, r.base, r.last, r.read)
      && r.base <= r.last + 1
      && RecentFrom(st, r.base, r.began, window)
      && r.began <= now
  }

  /** Everything from `base` on was stored at most the rewind before `began`. */
  ghost predicate RecentFrom(st: Stream, base: nat, began: nat, window: nat) {
    forall q :: Stored(st, q) && q >= base ==> At(st, q).at + window >= began
  }

  ghost predicate SubscribingOK(st: Stream, sub: Subscribing, now: nat) {
    sub.EndRead? ==> sub.last <= |st| && sub.readAt <= now && RecentFrom(st, sub.last + 1, sub.readAt, 0)
  }

  /** The read's filters (replayFilters) cover the message: a non-shared subscription it was made for matches it. */
  ghost predicate CoveredBy(cover: set<Sub>, m: Msg) {
    exists sub :: sub in cover && !sub.shared && Matches(sub.filter, m.name)
  }

  /** The sequences a replay sends: the holes and everything from the cursor on, or everything from its start. */
  predicate Eligible(r: Replay, q: int) {
    r.Replaying? && (if r.ok then q in r.had.holes || q >= r.had.next else q >= r.start)
  }

  /** A handled message is settled: sent, without an id, or served by no subscription made before it. */
  ghost predicate SettledAt(st: Stream, subs: Subs, client: string, sent: set<nat>, q: int) {
    Stored(st, q) && (q in sent || At(st, q).id == "" || !Served(st, subs, client, q))
  }

  ghost predicate HandledOK(st: Stream, subs: Subs, client: string, sent: set<nat>, handled: set<nat>) {
    forall q :: q in handled ==> SettledAt(st, subs, client, sent, q)
  }

  /** The ids the replay skips are those of what was sent. */
  ghost predicate SkippedOK(st: Stream, sent: set<nat>, r: Replay)
    requires r.Replaying?
  {
    && (forall q :: Named(st, q) && (At(st, q).id in r.snapshot || At(st, q).id in r.sent) ==> q in sent)
    && (forall q :: q in sent && Named(st, q) && Eligible(r, q) ==>
        At(st, q).id in r.snapshot || At(st, q).id in r.sent)
  }

  /** The read's filters cover everything up to its end that a subscription the session holds serves. */
  ghost predicate CoverOK(st: Stream, subs: Subs, client: string, r: Replay)
    requires r.Replaying?
  {
    r.last.Some? ==>
      && r.cover.Some? && r.last.value <= |st|
      && forall q :: q <= r.last.value && Served(st, subs, client, q) ==> CoveredBy(r.cover.value, At(st, q))
  }

  ghost predicate StartOK(st: Stream, c: Cursor, r: Replay, pinFrom: nat)
    requires r.Replaying?
  {
    && 1 <= r.start <= |st| + 1
    && (r.ok ==>
          && 1 <= r.had.next <= |st| + 1
          && (forall q :: q in r.had.holes ==> Named(st, q) && q < r.had.next && r.had.holes[q] == At(st, q).id)
          && (c.next != 0 ==> r.had.next <= c.next))
    && (!r.ok && c.pin != 0 ==> pinFrom == r.start)
  }

  ghost predicate ReplayOK(st: Stream, s: Session, sent: set<nat>, r: Replay, pinFrom: nat) {
    r.Replaying? ==>
      && HandledOK(st, s.subs, s.client, sent, r.handled)
      && SkippedOK(st, sent, r)
      && CoverOK(st, s.subs, s.client, r)
      && StartOK(st, s.cur, r, pinFrom)
  }

  /** No pass came later than the rewind after the absence began, and a sure late copy is within the window. */
  ghost predicate AwayOK(a: Away, prunedAt: nat, window: nat, maxDelivered: nat) {
    && prunedAt <= a.at + window
    && (a.sure && a.lateSeq != 0 ==> a.lateSeq + DELIVERED_SEQ_WINDOW >= maxDelivered)
  }

  /** The absence that waits, or that a replay which has handled nothing would hand on. */
  ghost predicate AbsenceOK(w: World, cfg: Config) {
    && w.prunedAt <= w.now
    && (w.away.Some? ==> w.replay.NoReplay? && AwayOK(w.away.value, w.prunedAt, cfg.window, w.s.maxDelivered))
    && (w.replay.Replaying? && w.replay.took.Some? && w.replay.handled == {} ==>
          AwayOK(w.replay.took.value, w.prunedAt, cfg.window, w.s.maxDelivered))
  }

  ghost predicate Inv(w: World, cfg: Config) {
    && Core(w, cfg)
    && ReplayOK(w.stream, w.s, w.sent, w.replay, w.pinFrom)
    && AbsenceOK(w, cfg)
  }

  /** Everything but what a running replay relies on. */
  ghost predicate Core(w: World, cfg: Config) {
    && StreamOK(w.stream, w.now, w.sent)
    && NothingSkipped(w.stream, w.gone, w.s, w.sent, w.origin)
    && NothingForgotten(w.stream, w.s.delivered, w.sent, w.s.cur.next)
    && HolesOK(w.stream, w.s.cur, w.sent)
    && MarksOK(w.stream, w.s.delivered, w.sent, w.now)
    && ForgottenLate(w.stream, w.s.delivered, w.sent, w.prunedAt, cfg.window, w.s.maxDelivered)
    && PinOK(w.stream, w.s.delivered, w.sent, w.s.cur, w.pinFrom)
    && SubsOK(|w.stream|, w.s.subs, w.s.cur.next, w.nextKey)
    && ScanOK(w.stream, w.gone, w.s.subs, w.s.client, w.nextKey, w.scan)
    && RestartOK(w.stream, w.gone, w.s.subs, w.s.client, w.nextKey, w.restart, w.now, cfg.window)
    && SubscribingOK(w.stream, w.subscribing, w.now)
  }

  // ---------------------------------------------------------------- what the first rule needs

  /** The queued messages with these ids were sent. */
  ghost predicate IdsSent(st: Stream, ids: set<Id>, sent: set<nat>) {
    forall q :: Named(st, q) && At(st, q).id in ids ==> q in sent
  }

  /** The first rule, and what it takes to keep it: nothing about which ids have been forgotten. */
  ghost predicate Ledger(w: World) {
    && StreamOK(w.stream, w.now, w.sent)
    && NothingSkipped(w.stream, w.gone, w.s, w.sent, w.origin)
    && HolesOK(w.stream, w.s.cur, {})
    && IdsSent(w.stream, w.s.delivered.Keys, w.sent)
    && SubsOK(|w.stream|, w.s.subs, w.s.cur.next, w.nextKey)
    && ScanOK(w.stream, w.gone, w.s.subs, w.s.client, w.nextKey, w.scan)
    && (w.restart.RestartRead? ==>
          var r := w.restart.r;
          && ReadOK(w.stream, w.gone, w.s.subs, w.s.client, w.nextKey, r.keys, r.base, r.last, r.read)
          && r.base <= r.last + 1)
    && (w.subscribing.EndRead? ==> w.subscribing.last <= |w.stream|)
  }

  ghost predicate ReplayLedger(st: Stream, s: Session, sent: set<nat>, r: Replay) {
    r.Replaying? ==>
      && HandledOK(st, s.subs, s.client, sent, r.handled)
      && IdsSent(st, r.snapshot, sent) && IdsSent(st, r.sent, sent)
      && CoverOK(st, s.subs, s.client, r)
      && 1 <= r.start
      && (r.ok ==> 1 <= r.had.next && (s.cur.next != 0 ==> r.had.next <= s.cur.next))
  }

  ghost predicate Accounts(w: World) { Ledger(w) && ReplayLedger(w.stream, w.s, w.sent, w.replay) }

  // ---------------------------------------------------------------- steps

  /** Message ids are fresh. */
  ghost predicate Fresh(w: World, id: Id) {
    && (forall q :: Stored(w.stream, q) ==> At(w.stream, q).id != id)
    && id !in w.s.delivered
    && (w.replay.Replaying? ==> id !in w.replay.snapshot && id !in w.replay.sent)
  }

  /** windowSafeLocked: no id delivered from `seqNo` on can have been forgotten for its sequence. */
  predicate WindowSafe(s: Session, seqNo: nat) { seqNo + DELIVERED_SEQ_WINDOW >= s.maxDelivered }

  /** dropCursorLocked: a late sequence the ids kept without a cursor cannot make safe goes with it. */
  function ClearLate(s: Session, seqNo: nat): nat { if WindowSafe(s, seqNo) then seqNo else 0 }

  /** The session becomes `s`, and loses what goes with a cursor that was dropped on the way. */
  function With(w: World, s: Session): World {
    if s.cur.next != 0 || s.cur.gen == w.s.cur.gen then w.(s := s)
    else
      var away := match w.away
        case None => None
        case Some(a) => Some(a.(lateSeq := ClearLate(s, a.lateSeq), sure := true));
      w.(s := s, lateSeq := ClearLate(s, w.lateSeq), away := away)
  }

  /** The session notes a delivery, and runs a pruning pass when one is due. */
  function Noted(w: World, cfg: Config, id: Id, seqNo: nat): World {
    var due := PruneDue(|Note(w.s, id, seqNo, w.now).delivered|);
    With(w.(prunedAt := if due then w.now else w.prunedAt), NoteDelivered(w.s, cfg, id, seqNo, w.now))
  }

  function Sent(w: World, cfg: Config, q: int): World
    requires Stored(w.stream, q)
  {
    Noted(w, cfg, At(w.stream, q).id, q).(sent := w.sent + {q})
  }

  /** The queued message with this id, when there is one. */
  function Queued(st: Stream, id: Id): set<nat> { set q: nat | 1 <= q <= |st| && At(st, q).id == id }

  /**
    The pass that follows the note, when one is due, finds no queued message that is known without its sequence
    and has been for longer than twice the rewind.
   */
  ghost predicate Spares(w: World, cfg: Config, id: Id, seqNo: nat) {
    var delivered := Note(w.s, id, seqNo, w.now).delivered;
    PruneDue(|delivered|) ==> YoungLoose(w.stream, delivered, w.now, cfg.window)
  }

  ghost predicate YoungLoose(st: Stream, delivered: Delivered, now: nat, window: nat) {
    forall q :: Loose(st, delivered, q) ==> now <= delivered[At(st, q).id].at + 2 * window
  }

  /** What a scan reads in [from, last]: what a subscription serves, and whether one is owed it. */
  function ScanRead(st: Stream, gone: set<nat>, subs: Subs, client: string, from: nat, last: nat): seq<Scanned>
    requires 1 <= from && last <= |st|
    decreases last + 1 - from
  {
    if from > last then []
    else
      var rest := ScanRead(st, gone, subs, client, from + 1, last);
      var m := At(st, from);
      if from in gone || !(exists f :: f in subs && Serves(subs[f], m, client)) then rest
      else [Scanned(from, m.id, exists f :: f in subs && OwesAt(subs[f], m, from, client))] + rest
  }

  /** The subscriptions the session holds, as a read is made for them. */
  function Cover(subs: Subs): set<Sub> { set f | f in subs :: subs[f] }

  /** Every message a subscription made before the stream reached `n` serves is one the read's filters cover. */
  ghost predicate Covering(n: nat, subs: Subs, client: string, cover: set<Sub>) {
    forall f, m :: f in subs && subs[f].made < n && Serves(subs[f], m, client) ==> CoveredBy(cover, m)
  }

  /** No subscription the session holds is owed anything up to `last`. */
  ghost predicate NothingOwedTo(s: Session, last: nat) {
    forall f :: f in s.subs && !s.subs[f].shared ==> s.subs[f].since.Some? && s.subs[f].since.value >= last
  }

  /** A late copy is judged by the cursor, when it is one the record carries, and by the window otherwise. */
  predicate ByCursor(s: Session) { s.cur.next != 0 && s.cur.base == 0 }

  predicate LateSafe(s: Session, seqNo: nat) {
    if ByCursor(s) then seqNo >= s.cur.next || seqNo in s.cur.holes else WindowSafe(s, seqNo)
  }

  /** lateCopy, once the copy has been offered to the cursor. */
  function NoteLate(w: World, q: nat): World {
    if !LateSafe(w.s, q) then w
    else match w.away
      case None => w.(lateSeq := LowestSeq(w.lateSeq, q))
      case Some(a) =>
        if a.lateSeq != 0 && a.lateSeq <= q then w
        else w.(away := Some(a.(lateSeq := q, sure := !ByCursor(w.s))))
  }

  /** The end of a connection: a replay from a time that has handled nothing hands its absence on (awayFloor). */
  function Detached(w: World, at: nat, fromSeq: nat): World {
    var again := w.replay.Replaying? && w.replay.took.Some? && w.replay.handled == {};
    var a := if again then w.replay.took.value else Away(at, fromSeq, 0, false);
    var late := LowestSeq(a.lateSeq, w.lateSeq);
    w.(s := Unpin(w.s), replay := NoReplay, lateSeq := 0,
       away := Some(a.(lateSeq := late, sure := a.sure && late == a.lateSeq)))
  }

  /** storedAfter: the copy at `q` is there and was stored less than the rewind before `at`. */
  predicate StoredAfter(w: World, q: int, at: nat, window: nat) {
    Stored(w.stream, q) && q !in w.gone && At(w.stream, q).at + window > at
  }

  /**
    Where a replay without a cursor starts: at the rewind time when no sequence is owed or the lowest one was
    stored after that time, and at the lowest one otherwise, or when it could not be read.
   */
  ghost predicate StartsAt(w: World, cfg: Config, byTime: bool, start: nat)
    requires w.away.Some?
  {
    var a := w.away.value;
    var owed := LowestSeq(a.fromSeq, a.lateSeq);
    if byTime
    then (owed == 0 || StoredAfter(w, owed, a.at, cfg.window)) && RecentFrom(w.stream, start, a.at, cfg.window)
    else owed != 0 && start == owed
  }

  /** setSince starts the cursor. */
  predicate StartsCursor(s: Session, keys: set<nat>, last: nat, exact: bool, hadNonShared: bool, floor: nat) {
    exact && s.cur.next == 0 && !hadNonShared && floor == 0 && SinceKnown(s.(subs := FillSince(s.subs, keys, last)))
  }

  /** What a replay's read hands on: each hole, and from there to the stream's end what its filters cover. */
  ghost predicate ToRead(w: World, q: int)
    requires w.replay.Replaying? && w.replay.last.Some? && w.replay.cover.Some? && Stored(w.stream, q)
  {
    && q !in w.gone && Eligible(w.replay, q) && q <= w.replay.last.value
    && (q in w.replay.had.holes || CoveredBy(w.replay.cover.value, At(w.stream, q)))
  }

  /** A replay sends the message at `q`: it has no id for it, and a subscription serves it. */
  ghost predicate Sends(w: World, q: int)
    requires w.replay.Replaying? && Stored(w.stream, q)
  {
    var m := At(w.stream, q);
    && m.id != "" && m.id !in w.replay.snapshot && m.id !in w.replay.sent
    && exists f :: f in w.s.subs && Serves(w.s.subs[f], m, w.s.client)
  }

  datatype Step =
    | Append(m: Msg)
    | Expire(q: nat)
    | Tick(t: nat)
    | Deliver(q: nat)
    | DeliverOther(id: Id)
    | LiveCopy(q: nat)
    | LateCopy(q: nat)
    | Subscribe(sub: Sub)
    | Unsubscribe(filter: string)
    | ReadEnd
    | FillSinceStep(keys: set<nat>, exact: bool, hadNonShared: bool, seen: nat, floor: nat)
    | BeginScan
    | ReadScan
    | EndScan(floor: nat)
    | ReadRestart(began: nat, base: nat)
    | EndRestart(floor: nat)
    | Detach(at: nat, fromSeq: nat)
    | BeginReplay
    | BeginReplayFrom(byTime: bool, start: nat)
    | ChooseCover
    | ReadLast
    | Handle(q: nat)
    | EndReplay(first: nat, floor: nat)
    | AbandonReplay
    | AbandonScans
    | DropCursor

  /** When a step can happen. */
  ghost predicate Enabled(w: World, cfg: Config, step: Step) {
    match step
    case Append(m) => m.at == w.now && (m.id != "" ==> Fresh(w, m.id))
    case Expire(q) => Stored(w.stream, q)
    case Tick(t) => t >= w.now
    // The delivery goroutine is the one that runs a replay, and it has stopped once the connection has ended.
    case Deliver(q) => Named(w.stream, q) && w.replay.NoReplay? && w.away.None?
    case DeliverOther(id) => id != "" && w.replay.NoReplay? && w.away.None?
    case LiveCopy(q) => Stored(w.stream, q) && w.away.None?
    case LateCopy(q) => Stored(w.stream, q)
    case Subscribe(sub) => sub.key == w.nextKey && sub.since.None? && sub.made == |w.stream|
    case Unsubscribe(filter) => true
    case ReadEnd => true
    case FillSinceStep(keys, exact, hadNonShared, seen, floor) =>
      && (exact ==> w.subscribing.EndRead?) && seen <= |w.stream|
      // A replay from a cursor holds its position.
      && (w.replay.Replaying? && w.replay.ok ==> floor != 0)
    case BeginScan => w.s.cur.next != 0 && SinceKnown(w.s)
    case ReadScan => w.scan.Started? && w.scan.start >= 1
    case EndScan(floor) => w.scan.Read?
    case ReadRestart(began, base) =>
      began <= w.now && 1 <= base <= |w.stream| + 1 && RecentFrom(w.stream, base, began, cfg.window)
    case EndRestart(floor) => w.restart.RestartRead? && w.replay.NoReplay?
    case Detach(at, fromSeq) => w.away.None? && at <= w.now
    case BeginReplay => w.replay.NoReplay? && w.away.Some? && w.s.cur.next != 0
    case BeginReplayFrom(byTime, start) =>
      w.replay.NoReplay? && w.away.Some? && 1 <= start <= |w.stream| + 1 && StartsAt(w, cfg, byTime, start)
    case ChooseCover => w.replay.Replaying?
    case ReadLast => w.replay.Replaying? && w.replay.cover.Some?
    case Handle(q) => w.replay.Replaying? && Stored(w.stream, q) && Eligible(w.replay, q)
    case EndReplay(first, floor) =>
      && w.replay.Replaying? && w.replay.last.Some? && w.replay.cover.Some?
      && w.replay.start <= first <= w.replay.last.value + 1
      && (w.replay.took.None? ==> first == w.replay.start)
      && (forall q :: Stored(w.stream, q) && ToRead(w, q) ==> q in w.replay.handled)
    case AbandonReplay => true
    case AbandonScans => true
    case DropCursor => true
  }

  /**
    What the invariants rely on that the code does not check; `CursorLimits` and `CursorFailures` show what happens
    without each.
   */
  ghost predicate Relied(w: World, cfg: Config, step: Step)
    requires Enabled(w, cfg, step)
  {
    match step
    // A pass forgets no queued message that was noted without its sequence.
    case Deliver(q) => Spares(w, cfg, At(w.stream, q).id, q)
    case DeliverOther(id) => Spares(w, cfg, id, 0)
    case Handle(q) => Sends(w, q) ==> Spares(w, cfg, At(w.stream, q).id, q)
    // No live copy of a delivered message arrives after its id has been forgotten.
    case LiveCopy(q) => q in w.sent && At(w.stream, q).id != "" ==> At(w.stream, q).id in w.s.delivered
    case LateCopy(q) => q in w.sent && At(w.stream, q).id != "" ==> At(w.stream, q).id in w.s.delivered
    // A SUBSCRIBE that starts the cursor starts it above nothing owed, soon after it read the stream's end.
    case FillSinceStep(keys, exact, hadNonShared, seen, floor) =>
      exact && StartsCursor(w.s, keys, w.subscribing.last, exact, hadNonShared, floor) ==>
        && NothingOwedTo(w.s.(subs := FillSince(w.s.subs, keys, w.subscribing.last)), w.subscribing.last)
        && (w.now <= w.subscribing.readAt + 2 * cfg.window || WindowSafe(w.s, w.subscribing.last + 1))
    // A scan copies the subscriptions while every since is still known.
    case ReadScan => SinceKnown(w.s)
    case ReadRestart(began, base) => SinceKnown(w.s)
    // The delivery goroutine stops within the rewind of the connection's end.
    case Detach(at, fromSeq) => w.now <= at + cfg.window
    // A replay that starts at a sequence starts within the sequence window.
    case BeginReplayFrom(byTime, start) =>
      || byTime || (w.away.value.sure && start == w.away.value.lateSeq) || WindowSafe(w.s, start)
      || (w.s.cur.next != 0 && start >= w.s.cur.next)
    // The filters chosen for a replay still cover what the subscriptions serve when the stream's end is read.
    case ReadLast => Covering(|w.stream|, w.s.subs, w.s.client, w.replay.cover.value)
    case _ => true
  }

  ghost predicate Can(w: World, cfg: Config, step: Step) { Enabled(w, cfg, step) && Relied(w, cfg, step) }

  /** The part of it the first rule relies on. */
  ghost predicate ReliedOwed(w: World, cfg: Config, step: Step)
    requires Enabled(w, cfg, step)
  {
    match step
    case FillSinceStep(keys, exact, hadNonShared, seen, floor) =>
      exact && StartsCursor(w.s, keys, w.subscribing.last, exact, hadNonShared, floor) ==>
        NothingOwedTo(w.s.(subs := FillSince(w.s.subs, keys, w.subscribing.last)), w.subscribing.last)
    case ReadScan => SinceKnown(w.s)
    case ReadRestart(began, base) => SinceKnown(w.s)
    case ReadLast => Covering(|w.stream|, w.s.subs, w.s.client, w.replay.cover.value)
    case _ => true
  }

  /** The world after a step. */
  ghost function Do(w: World, cfg: Config, step: Step): World
    requires Enabled(w, cfg, step)
  {
    match step
    case Append(m) => w.(stream := w.stream + [m])
    case Expire(q) => w.(gone := w.gone + {q})
    case Tick(t) => w.(now := t)
    case Deliver(q) => Sent(w, cfg, q)
    case DeliverOther(id) => Noted(w, cfg, id, 0).(sent := w.sent + Queued(w.stream, id))
    case LiveCopy(q) => With(w, NoteLiveCopy(w.s, cfg, q, At(w.stream, q).id))
    case LateCopy(q) => NoteLate(With(w, NoteLiveCopy(w.s, cfg, q, At(w.stream, q).id)), q)
    case Subscribe(sub) => w.(s := Install(w.s, sub), nextKey := w.nextKey + 1)
    case Unsubscribe(filter) => w.(s := Remove(w.s, filter))
    case ReadEnd => w.(subscribing := EndRead(|w.stream|, w.now))
    case FillSinceStep(keys, exact, hadNonShared, seen, floor) =>
      var s' := SetSince(w.s, keys, if exact then w.subscribing.last else seen, exact, hadNonShared, floor);
      w.(s := s', subscribing := NotSubscribing, origin := if s'.cur.gen != w.s.cur.gen then 0 else w.origin)
    case BeginScan => w.(scan := Started(w.s.cur.gen, w.s.cur.next))
    case ReadScan =>
      w.(scan := Read(w.scan.gen, w.scan.start, Keys(w.s), |w.stream|,
                      ScanRead(w.stream, w.gone, w.s.subs, w.s.client, w.scan.start, |w.stream|)))
    case EndScan(floor) =>
      var sc := w.scan;
      With(w.(scan := NoScan), ApplyScan(w.s, cfg, sc.gen, sc.start, sc.last, sc.keys, sc.read, floor).session)
    case ReadRestart(began, base) =>
      w.(restart := RestartRead(Restart(w.s.cur.gen, Keys(w.s), began, base, |w.stream|,
                                        ScanRead(w.stream, w.gone, w.s.subs, w.s.client, base, |w.stream|))))
    case EndRestart(floor) =>
      var t := RestartCursor(w.s, cfg, w.restart.r, floor, w.now);
      w.(s := t.0, restart := NoRestart, origin := if t.1 then w.restart.r.base else w.origin)
    case Detach(at, fromSeq) => Detached(w, at, fromSeq)
    case BeginReplay =>
      w.(away := None,
         replay := Replaying(ViewOf(w.s), true, w.s.cur.next, w.s.delivered.Keys, {}, None, None, {}, None))
    case BeginReplayFrom(byTime, start) =>
      var took := if byTime then w.away else None;
      w.(s := PinForReplay(w.s, if byTime then 1 else start), pinFrom := start, away := None,
         replay := Replaying(View(0, map[]), false, start, w.s.delivered.Keys, {}, None, None, {}, took))
    case ChooseCover => w.(replay := w.replay.(cover := Some(Cover(w.s.subs)), last := None))
    case ReadLast => w.(replay := w.replay.(last := Some(|w.stream|)))
    case Handle(q) =>
      var v := if Sends(w, q) then Sent(w, cfg, q).(replay := w.replay.(sent := w.replay.sent + {At(w.stream, q).id}))
        else w;
      v.(replay := v.replay.(handled := v.replay.handled + {q}))
    case EndReplay(first, floor) =>
      var s' := ReplayedTo(w.s, w.replay.had, w.replay.ok, first, w.replay.last.value, floor);
      w.(s := s', replay := NoReplay, origin := if s'.cur.gen != w.s.cur.gen then first else w.origin)
    case AbandonReplay => w.(s := Unpin(w.s), replay := NoReplay)
    case AbandonScans => w.(scan := NoScan, restart := NoRestart, subscribing := NotSubscribing)
    case DropCursor => With(w, Drop(w.s))
  }
}
