/**
  The replay cursor of a session (cursor.go, and the parts of session.go that change it), as functions on
  values. `ReplaySession` (ReplaySession.dfy) is the object whose methods change the fields in place; each of
  its methods is proved to do what a function here says. `CursorRuns` proves the invariants over every run.
 */
module Cursors {
  import opened Topics

  type Id = string

  /** A message of the offline queue. Its sequence is its position in the stream, counted from 1. */
  datatype Msg = Msg(id: Id, name: string, qos: nat, origin: string, at: nat)

  /**
    A subscription. `key` stands for the identity of the object, `since` is None until it has been read
    (sinceUnknown), and `made` is the stream's length when the subscription was made; the broker does not
    keep `made`, it only says what the subscription is owed.
   */
  datatype Sub = Sub(key: nat, filter: string, shared: bool, noLocal: bool, granted: nat, since: Option<nat>, made: nat)

  datatype Mark = Mark(at: nat, seqNo: nat)

  datatype Cursor = Cursor(next: nat, holes: map<nat, Id>, holeAt: map<Id, nat>, gen: nat, above: nat, pin: nat,
                           base: nat)

  datatype Session = Session(client: string, cur: Cursor, delivered: map<Id, Mark>, maxDelivered: nat,
                             subs: map<string, Sub>)

  /** maxReplayHoles, cursorIDBound and the session's rewind window. */
  datatype Config = Config(holeBound: nat, idBound: nat, window: nat)

  const DELIVERED_SEQ_WINDOW := 8192

  /** A message a scan read that a subscription matches at QoS 1 or 2. */
  datatype Scanned = Scanned(seqNo: nat, id: Id, owed: bool)

  /** A sequence and the id of the message there (storedDelivered). */
  datatype Entry = Entry(seqNo: nat, id: Id)

  /** A copy of a cursor, for a replay. */
  datatype View = View(next: nat, holes: map<nat, Id>)

  /** lowestSeq: the lowest of the sequences that are set, 0 when none is. */
  function LowestSeq(a: nat, b: nat): (r: nat)
    ensures r == 0 <==> a == 0 && b == 0
    ensures r != 0 ==> (r == a || r == b) && (a != 0 ==> r <= a) && (b != 0 ==> r <= b)
  {
    if a == 0 then b else if b == 0 || a <= b then a else b
  }

  // ---------------------------------------------------------------- subscriptions

  /** `sub` delivers `m` to `client` at QoS 1 or 2. */
  predicate Serves(sub: Sub, m: Msg, client: string) {
    && m.qos > 0 && sub.granted > 0
    && !sub.shared
    && Matches(sub.filter, m.name)
    && !(sub.noLocal && m.origin == client)
  }

  /** ... and, by its recorded `since`, was made before `m` was stored at `q`. */
  predicate OwesAt(sub: Sub, m: Msg, q: nat, client: string) {
    Serves(sub, m, client) && sub.since.Some? && q > sub.since.value
  }

  predicate SinceKnown(s: Session) {
    forall f :: f in s.subs ==> s.subs[f].shared || s.subs[f].since.Some?
  }

  function Keys(s: Session): set<nat> { set f | f in s.subs :: s.subs[f].key }

  predicate SameSubs(s: Session, keys: set<nat>) { Keys(s) == keys }

  /** keepsSince: a replacement is owed what its predecessor was. */
  predicate KeepsSince(prev: Sub, sub: Sub) {
    !sub.shared && !prev.shared && prev.granted > 0 && (!prev.noLocal || sub.noLocal) && prev.since.Some?
  }

  /** installSubscription: a replacement that is owed no more than its predecessor keeps its since. */
  function Install(s: Session, sub: Sub): Session {
    var held := if sub.filter in s.subs && KeepsSince(s.subs[sub.filter], sub)
                then sub.(since := s.subs[sub.filter].since, made := s.subs[sub.filter].made)
                else sub;
    s.(subs := s.subs[sub.filter := held])
  }

  function Remove(s: Session, filter: string): Session {
    s.(subs := s.subs - {filter})
  }

  /** The since of the subscriptions in `keys` that have none becomes `last`. */
  function FillSince(subs: map<string, Sub>, keys: set<nat>, last: nat): map<string, Sub> {
    map f | f in subs :: if subs[f].key in keys && subs[f].since.None? then subs[f].(since := Some(last)) else subs[f]
  }

  // ---------------------------------------------------------------- the cursor's own steps

  function SetCursor(c: Cursor, next: nat): Cursor { Cursor(next, map[], map[], c.gen + 1, 0, 0, 0) }

  function Drop(s: Session): Session { s.(cur := SetCursor(s.cur, 0)) }

  function PutHole(c: Cursor, seqNo: nat, id: Id): Cursor {
    c.(holes := c.holes[seqNo := id], holeAt := c.holeAt[id := seqNo])
  }

  function RemoveHole(c: Cursor, id: Id): Cursor {
    if id in c.holeAt then c.(holes := c.holes - {c.holeAt[id]}, holeAt := c.holeAt - {id}) else c
  }

  /** addHoleLocked. The flag says whether the cursor is still set. */
  function AddHole(s: Session, cfg: Config, seqNo: nat, id: Id): (Session, bool) {
    if seqNo < s.cur.base then (Drop(s), false)
    else if id == "" then (Drop(s), false)
    else if id in s.delivered then (s, true)
    else if seqNo in s.cur.holes then (s, true)
    else if |s.cur.holes| >= cfg.holeBound then (Drop(s), false)
    else (s.(cur := PutHole(s.cur, seqNo, id)), true)
  }

  function NoteLiveCopy(s: Session, cfg: Config, seqNo: nat, id: Id): Session {
    if seqNo != 0 && s.cur.next != 0 && seqNo < s.cur.next then AddHole(s, cfg, seqNo, id).0 else s
  }

  /** A delivered id the pruning pass forgets. */
  predicate Prunable(s: Session, cfg: Config, m: Mark, now: nat) {
    var keep := LowestSeq(s.cur.next, s.cur.pin);
    && !(keep != 0 && m.seqNo >= keep)
    && now > m.at + 2 * cfg.window
    && (m.seqNo == 0 || m.seqNo + DELIVERED_SEQ_WINDOW < s.maxDelivered)
  }

  predicate PruneDue(n: nat) { n > 64 && n % 64 == 0 }

  function KeptIds(s: Session): set<Id> {
    var keep := LowestSeq(s.cur.next, s.cur.pin);
    set k | k in s.delivered && keep != 0 && s.delivered[k].seqNo >= keep
  }

  function Prune(s: Session, cfg: Config, now: nat): Session {
    var kept := |KeptIds(s)|;
    var t := s.(delivered := map k | k in s.delivered && !Prunable(s, cfg, s.delivered[k], now) :: s.delivered[k]);
    if kept > cfg.idBound then Drop(t) else t
  }

  /** noteDelivered up to the pruning pass. */
  function Note(s: Session, id: Id, seqNo: nat, now: nat): Session {
    var c := RemoveHole(s.cur, id);
    var counts := (c.next != 0 && seqNo >= c.next) || (c.next == 0 && seqNo != 0);
    s.(delivered := s.delivered[id := Mark(now, seqNo)],
       maxDelivered := if seqNo > s.maxDelivered then seqNo else s.maxDelivered,
       cur := if counts then c.(above := c.above + 1) else c)
  }

  function NoteDelivered(s: Session, cfg: Config, id: Id, seqNo: nat, now: nat): Session {
    var t := Note(s, id, seqNo, now);
    if PruneDue(|t.delivered|) then Prune(t, cfg, now) else t
  }

  /** countAboveLocked. */
  function CountAbove(delivered: map<Id, Mark>, seqNo: nat): nat {
    |set id | id in delivered && delivered[id].seqNo >= seqNo|
  }

  // ---------------------------------------------------------------- scans

  /** Makes holes of what a scan read below `next` and the session was owed, in order, until the cursor drops. */
  function AddHoles(s: Session, cfg: Config, read: seq<Scanned>, next: nat): (Session, bool)
    decreases |read|
  {
    if read == [] || read[0].seqNo >= next then (s, true)
    else if !read[0].owed then AddHoles(s, cfg, read[1..], next)
    else
      var r := AddHole(s, cfg, read[0].seqNo, read[0].id);
      if r.1 then AddHoles(r.0, cfg, read[1..], next) else r
  }

  function ScanEnd(start: nat, last: nat, floor: nat): nat {
    if floor != 0 && floor < last + 1 then if floor >= start then floor else start else last + 1
  }

  datatype ScanResult = ScanResult(session: Session, moved: bool, applied: bool, stale: bool)

  function ApplyScan(s: Session, cfg: Config, gen: nat, start: nat, last: nat, keys: set<nat>,
                     read: seq<Scanned>, floor: nat): ScanResult {
    if s.cur.gen != gen || s.cur.next != start then ScanResult(s, false, false, false)
    else if last + 1 < start then ScanResult(Drop(s), false, false, false)
    else if !SameSubs(s, keys) then ScanResult(s, false, false, true)
    else if !SinceKnown(s) then ScanResult(s, false, false, false)
    else
      var next := ScanEnd(start, last, floor);
      var r := AddHoles(s, cfg, read, next);
      if !r.1 then ScanResult(r.0, false, false, false)
      else
        var c := r.0.cur;
        ScanResult(r.0.(cur := c.(next := next, above := CountAbove(r.0.delivered, next))), next > c.next, true, false)
  }

  datatype Restart = Restart(gen: nat, keys: set<nat>, began: nat, base: nat, last: nat, read: seq<Scanned>)

  /** What a restart makes holes of, or None when one has no id. */
  function RestartHoles(delivered: map<Id, Mark>, read: seq<Scanned>, next: nat): Option<seq<Entry>>
    decreases |read|
  {
    if read == [] || read[0].seqNo >= next then Some([])
    else
      var m := read[0];
      if !m.owed || m.id in delivered then RestartHoles(delivered, read[1..], next)
      else if m.id == "" then None
      else match RestartHoles(delivered, read[1..], next)
        case Some(rest) => Some([Entry(m.seqNo, m.id)] + rest)
        case None => None
  }

  function PutHoles(c: Cursor, holes: seq<Entry>): Cursor
    decreases |holes|
  {
    if holes == [] then c else PutHoles(PutHole(c, holes[0].seqNo, holes[0].id), holes[1..])
  }

  /** restartCursorLocked. The flag says whether a cursor was set. */
  function RestartCursor(s: Session, cfg: Config, r: Restart, floor: nat, now: nat): (Session, bool) {
    if s.cur.next != 0 || s.cur.gen != r.gen || s.cur.pin != 0 || !SinceKnown(s) || !SameSubs(s, r.keys) then (s, false)
    else if now >= r.began + cfg.window then (s, false)
    else if floor != 0 && floor < r.base then (s, false)
    else
      var next := if floor != 0 && floor < r.last + 1 then floor else r.last + 1;
      match RestartHoles(s.delivered, r.read, next)
      case None => (s, false)
      case Some(holes) =>
        var above := CountAbove(s.delivered, next);
        if |holes| > cfg.holeBound || above > cfg.idBound then (s, false)
        else (s.(cur := PutHoles(SetCursor(s.cur, next).(base := r.base), holes).(above := above)), true)
  }

  // ---------------------------------------------------------------- replays and subscriptions

  function PinForReplay(s: Session, seqNo: nat): Session {
    if s.cur.next == 0 then s.(cur := s.cur.(pin := if seqNo >= 1 then seqNo else 1)) else s
  }

  function Unpin(s: Session): Session { s.(cur := s.cur.(pin := 0)) }

  function ViewOf(s: Session): View { View(s.cur.next, s.cur.holes) }

  /** The holes of `had` up to `last` that are still there. */
  function Settled(c: Cursor, had: View, last: nat): set<nat> {
    set q | q in c.holes && q in had.holes && q <= last && c.holes[q] == had.holes[q]
  }

  function SettleHoles(c: Cursor, had: View, last: nat): Cursor {
    var gone := Settled(c, had, last);
    c.(holes := c.holes - gone, holeAt := map id | id in c.holeAt && c.holeAt[id] !in gone :: c.holeAt[id])
  }

  /** replayedTo, on the session's own connection. */
  function ReplayedTo(s: Session, had: View, ok: bool, start: nat, last: nat, floor: nat): Session {
    var pinned := s.cur.pin;
    var t := Unpin(s).(subs := FillSince(s.subs, Keys(s), last));
    var next := if floor != 0 && floor < last + 1 then floor else last + 1;
    if !ok then
      if s.cur.next != 0 || pinned == 0 || pinned > start || (floor != 0 && floor < start) then t
      else t.(cur := SetCursor(t.cur, next).(above := CountAbove(t.delivered, next)))
    else if s.cur.next == 0 then t
    else
      var c := SettleHoles(t.cur, had, last);
      t.(cur := if next > c.next then c.(next := next, above := CountAbove(t.delivered, next)) else c)
  }

  /** setSince, on the session's own connection. */
  function SetSince(s: Session, keys: set<nat>, last: nat, exact: bool, hadNonShared: bool, floor: nat): Session {
    var t := s.(subs := FillSince(s.subs, keys, last));
    if exact && s.cur.next == 0 && !hadNonShared && floor == 0 && SinceKnown(t)
    then t.(cur := SetCursor(t.cur, last + 1)) else t
  }

  /** The stored holes a restored cursor keeps: one whose message is known as sent is left out. */
  function UnsentHoles(delivered: map<Id, Mark>, next: nat, holes: seq<Entry>): seq<Entry>
    decreases |holes|
  {
    if holes == [] then []
    else
      var rest := UnsentHoles(delivered, next, holes[1..]);
      var h := holes[0];
      if h.seqNo < next && h.id != "" && h.id !in delivered then [h] + rest else rest
  }

  /** restoreCursorLocked. */
  function RestoreCursor(s: Session, next: nat, holes: seq<Entry>): Session {
    if next == 0 then s
    else
      var c := s.cur.(next := next, gen := s.cur.gen + 1, holes := map[], holeAt := map[]);
      s.(cur := PutHoles(c, UnsentHoles(s.delivered, next, holes)))
  }

  // ---------------------------------------------------------------- the two indexes

  /** `holes` and `holeAt` are inverse maps. */
  ghost predicate Inverted(c: Cursor) {
    && (forall q :: q in c.holes ==> c.holes[q] in c.holeAt && c.holeAt[c.holes[q]] == q)
    && (forall id :: id in c.holeAt ==> c.holeAt[id] in c.holes && c.holes[c.holeAt[id]] == id)
  }

  /** Sequences and the ids at them determine each other. */
  ghost predicate Paired(holes: seq<Entry>) {
    forall i, j :: 0 <= i < |holes| && 0 <= j < |holes| ==>
      (holes[i].seqNo == holes[j].seqNo <==> holes[i].id == holes[j].id)
  }

  /** The same of what a scan read, apart from messages without an id. */
  ghost predicate ReadPaired(read: seq<Scanned>) {
    forall i, j :: 0 <= i < |read| && 0 <= j < |read| && read[i].id != "" && read[j].id != "" ==>
                     (read[i].seqNo == read[j].seqNo <==> read[i].id == read[j].id)
  }

  /** A message is not a hole at another sequence. */
  ghost predicate NoOtherHole(c: Cursor, seqNo: nat, id: Id) { id in c.holeAt ==> c.holeAt[id] == seqNo }

  lemma PutKeepsInverted(c: Cursor, seqNo: nat, id: Id)
    requires Inverted(c) && seqNo !in c.holes && id !in c.holeAt
    ensures Inverted(PutHole(c, seqNo, id))
  {
  }

  lemma RemoveKeepsInverted(c: Cursor, id: Id)
    requires Inverted(c)
    ensures Inverted(RemoveHole(c, id))
    ensures RemoveHole(c, id).holes == map q | q in c.holes && c.holes[q] != id :: c.holes[q]
  {
    if id in c.holeAt {
      assert forall q :: q in c.holes && c.holes[q] == id ==> q == c.holeAt[id];
    }
  }

  lemma SettleKeepsInverted(c: Cursor, had: View, last: nat)
    requires Inverted(c)
    ensures Inverted(SettleHoles(c, had, last))
  {
  }
}
