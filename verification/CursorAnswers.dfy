/**
  What the replay cursor's operations answer (cursor.go, session.go): when a cursor is kept, moved, started or given
  up, to where, and with which holes. The invariants allow a cursor to be dropped at any time, which is safe and costs
  the session its place; the lemmas here say exactly when one is.
 */
module CursorAnswers {
  import opened Topics
  import opened Cursors
  import opened CursorRuns
  import opened CursorSafety

  /** The session without a cursor, and with everything else as it was. */
  ghost predicate Dropped(s: Session, t: Session) {
    && t.cur.next == 0 && t.cur.holes == map[] && t.cur.holeAt == map[] && t.cur.above == 0 && t.cur.pin == 0
    && t.cur.base == 0 && t.cur.gen > s.cur.gen
    && t.client == s.client && t.delivered == s.delivered && t.maxDelivered == s.maxDelivered && t.subs == s.subs
  }

  /** The same session, but for the holes its cursor has. */
  ghost predicate SameButHoles(s: Session, t: Session) {
    t == s.(cur := s.cur.(holes := t.cur.holes, holeAt := t.cur.holeAt))
  }

  // ---------------------------------------------------------------- one copy

  /** A message no cursor can keep as a hole: below a restarted one's base, or without an id. */
  predicate Unholdable(c: Cursor, seqNo: nat, id: Id) { seqNo < c.base || id == "" }

  /** A message that is owed, not sent, and not yet a hole. */
  predicate NewHole(s: Session, seqNo: nat, id: Id) { id !in s.delivered && seqNo !in s.cur.holes }

  /**
    A message offered as a hole drops the cursor exactly when it cannot be held, or is new with the holes at their
    bound. In every other case the cursor stays, and gains the hole exactly when it is new.
   */
  lemma AddHoleAnswers(s: Session, cfg: Config, seqNo: nat, id: Id)
    ensures var r := AddHole(s, cfg, seqNo, id);
            var drops := Unholdable(s.cur, seqNo, id) || (NewHole(s, seqNo, id) && |s.cur.holes| >= cfg.holeBound);
            && (r.1 <==> !drops)
            && (drops ==> Dropped(s, r.0))
            && (!drops ==>
                  && SameButHoles(s, r.0)
                  && (forall q :: q in r.0.cur.holes <==> q in s.cur.holes || (q == seqNo && NewHole(s, seqNo, id)))
                  && (forall q :: q in s.cur.holes ==> r.0.cur.holes[q] == s.cur.holes[q])
                  && (NewHole(s, seqNo, id) ==> r.0.cur.holes[seqNo] == id && r.0.cur.holeAt[id] == seqNo)
                  && (!NewHole(s, seqNo, id) ==> r.0 == s))
  {
  }

  /**
    A live copy of a message below the cursor drops it under the same rule, and becomes a hole under the same rule. At
    or above it, or without a cursor, a copy changes nothing.
   */
  lemma LiveCopyAnswers(s: Session, cfg: Config, seqNo: nat, id: Id)
    ensures var t := NoteLiveCopy(s, cfg, seqNo, id);
            var below := 1 <= seqNo < s.cur.next;
            var drops := Unholdable(s.cur, seqNo, id) || (NewHole(s, seqNo, id) && |s.cur.holes| >= cfg.holeBound);
            && (!below ==> t == s)
            && (below && drops ==> Dropped(s, t))
            && (below && !drops ==>
                  && t.cur.next == s.cur.next && SameButHoles(s, t)
                  && (seqNo in t.cur.holes <==> seqNo in s.cur.holes || id !in s.delivered)
                  && forall q :: q != seqNo ==> (q in t.cur.holes <==> q in s.cur.holes))
  {
    AddHoleAnswers(s, cfg, seqNo, id);
  }

  // ---------------------------------------------------------------- scans

  /** The messages below `next` that a scan found owed. */
  ghost predicate Found(read: seq<Scanned>, next: nat, m: Scanned) { m in read && m.owed && m.seqNo < next }

  function NewHoles(s: Session, read: seq<Scanned>, next: nat): set<nat> {
    set m | m in read && m.owed && m.seqNo < next && NewHole(s, m.seqNo, m.id) :: m.seqNo
  }

  ghost predicate AllHoldable(s: Session, read: seq<Scanned>, next: nat) {
    forall m :: Found(read, next, m) ==> !Unholdable(s.cur, m.seqNo, m.id)
  }

  /** There is room for what the scan found. */
  predicate Room(s: Session, cfg: Config, more: set<nat>) { more == {} || |s.cur.holes| + |more| <= cfg.holeBound }

  /** What a scan found as a hole has the id it was found with. */
  ghost predicate FoundIds(s: Session, t: Session, read: seq<Scanned>, next: nat) {
    forall m :: Found(read, next, m) && NewHole(s, m.seqNo, m.id) ==>
                  m.seqNo in t.cur.holes && t.cur.holes[m.seqNo] == m.id
  }

  lemma NewHolesSkip(s: Session, read: seq<Scanned>, next: nat)
    requires read != [] && !(read[0].owed && read[0].seqNo < next && NewHole(s, read[0].seqNo, read[0].id))
    ensures NewHoles(s, read, next) == NewHoles(s, read[1..], next)
  {
    assert read == [read[0]] + read[1..];
  }

  lemma NewHolesTake(s: Session, read: seq<Scanned>, next: nat)
    requires read != [] && Ascending(read)
    requires read[0].owed && read[0].seqNo < next && NewHole(s, read[0].seqNo, read[0].id)
    ensures var t := s.(cur := PutHole(s.cur, read[0].seqNo, read[0].id));
            && read[0].seqNo !in NewHoles(t, read[1..], next)
            && NewHoles(s, read, next) == NewHoles(t, read[1..], next) + {read[0].seqNo}
  {
    var m, rest := read[0], read[1..];
    var t := s.(cur := PutHole(s.cur, m.seqNo, m.id));
    assert read == [m] + rest;
    forall x | x in rest ensures x.seqNo > m.seqNo {
      var i :| 0 <= i < |rest| && rest[i] == x;
      assert read[i + 1] == x;
    }
    forall q | q in NewHoles(s, read, next) ensures q in NewHoles(t, rest, next) + {m.seqNo} {
      var x :| x in read && x.owed && x.seqNo < next && NewHole(s, x.seqNo, x.id) && x.seqNo == q;
      if x != m { assert x in rest && NewHole(t, x.seqNo, x.id); }
    }
    forall q | q in NewHoles(t, rest, next) + {m.seqNo} ensures q in NewHoles(s, read, next) {
      if q != m.seqNo {
        var x :| x in rest && x.owed && x.seqNo < next && NewHole(t, x.seqNo, x.id) && x.seqNo == q;
        assert x in read && NewHole(s, x.seqNo, x.id);
      } else {
        assert m in read;
      }
    }
  }

  lemma NothingFound(s: Session, read: seq<Scanned>, next: nat)
    requires Ascending(read) && (read == [] || read[0].seqNo >= next)
    ensures NewHoles(s, read, next) == {} && forall m :: !Found(read, next, m)
  {
    forall m | m in read ensures m.seqNo >= next {
      var i :| 0 <= i < |read| && read[i] == m;
    }
  }

  lemma FoundFirst(read: seq<Scanned>, next: nat, m: Scanned)
    requires read != []
    ensures Found(read, next, m) <==>
            (m == read[0] && m.owed && m.seqNo < next) || Found(read[1..], next, m)
  {
    assert read == [read[0]] + read[1..];
  }

  /** What comes of offering a cursor everything a scan found. */
  ghost predicate HolesAdded(s: Session, cfg: Config, read: seq<Scanned>, next: nat, t: Session, kept: bool) {
    var more := NewHoles(s, read, next);
    && (kept <==> AllHoldable(s, read, next) && Room(s, cfg, more))
    && (!kept ==> Dropped(s, t))
    && (kept ==> HolesKept(s, read, next, t, more))
  }

  ghost predicate HolesKept(s: Session, read: seq<Scanned>, next: nat, t: Session, more: set<nat>) {
    && SameButHoles(s, t) && t.cur.holes.Keys == s.cur.holes.Keys + more
    && (forall q :: q in s.cur.holes ==> q in t.cur.holes && t.cur.holes[q] == s.cur.holes[q])
    && FoundIds(s, t, read, next)
  }

  /** A message that is no new hole changes nothing. */
  lemma AddedSkip(s: Session, cfg: Config, read: seq<Scanned>, next: nat, t: Session, kept: bool)
    requires read != [] && HolesAdded(s, cfg, read[1..], next, t, kept)
    requires read[0].owed && read[0].seqNo < next ==>
             !Unholdable(s.cur, read[0].seqNo, read[0].id) && !NewHole(s, read[0].seqNo, read[0].id)
    ensures HolesAdded(s, cfg, read, next, t, kept)
  {
    hide Found, NewHoles, NewHole, Unholdable, Dropped;
    NewHolesSkip(s, read, next);
    forall x ensures Found(read, next, x) <==> (x == read[0] && x.owed && x.seqNo < next) || Found(read[1..], next, x) {
      FoundFirst(read, next, x);
    }
  }

  lemma RoomFor(n: nat, bound: nat, less: set<nat>, x: nat)
    requires x !in less && n < bound
    ensures n + |less + {x}| <= bound <==> less == {} || n + 1 + |less| <= bound
  {
    assert |less + {x}| == |less| + 1;
  }

  lemma PutHoleKeys(c: Cursor, seqNo: nat, id: Id)
    requires seqNo !in c.holes
    ensures var d := PutHole(c, seqNo, id);
            && d.holes.Keys == c.holes.Keys + {seqNo} && |d.holes| == |c.holes| + 1
            && d == c.(holes := d.holes, holeAt := d.holeAt) && d.holes[seqNo] == id
            && forall q :: q in c.holes ==> d.holes[q] == c.holes[q]
  {
    var d := PutHole(c, seqNo, id);
    assert d.holes.Keys == c.holes.Keys + {seqNo};
    assert |d.holes.Keys| == |c.holes.Keys| + 1;
  }

  /** With a new one in its place, the rest has as much room as all had before. */
  lemma RoomTake(s: Session, cfg: Config, read: seq<Scanned>, next: nat)
    requires read != [] && Ascending(read) && read[0].owed && read[0].seqNo < next
    requires NewHole(s, read[0].seqNo, read[0].id) && |s.cur.holes| < cfg.holeBound
    ensures var u := s.(cur := PutHole(s.cur, read[0].seqNo, read[0].id));
            && u.cur.holes.Keys + NewHoles(u, read[1..], next) == s.cur.holes.Keys + NewHoles(s, read, next)
            && (Room(s, cfg, NewHoles(s, read, next)) <==> Room(u, cfg, NewHoles(u, read[1..], next)))
  {
    hide NewHoles, PutHole, Ascending, Room;
    var m := read[0];
    var u := s.(cur := PutHole(s.cur, m.seqNo, m.id));
    NewHolesTake(s, read, next);
    PutHoleKeys(s.cur, m.seqNo, m.id);
    RoomIs(s, u, cfg, NewHoles(u, read[1..], next), m.seqNo);
    KeysMove(s.cur.holes.Keys, NewHoles(u, read[1..], next), m.seqNo);
  }

  lemma RoomIs(s: Session, u: Session, cfg: Config, less: set<nat>, x: nat)
    requires x !in less && |s.cur.holes| < cfg.holeBound && |u.cur.holes| == |s.cur.holes| + 1
    ensures Room(s, cfg, less + {x}) <==> Room(u, cfg, less)
  {
    RoomFor(|s.cur.holes|, cfg.holeBound, less, x);
    assert x in less + {x};
  }

  lemma KeysMove(keys: set<nat>, less: set<nat>, x: nat)
    ensures (keys + {x}) + less == keys + (less + {x})
  {
  }

  lemma HoldableTake(s: Session, read: seq<Scanned>, next: nat)
    requires read != [] && read[0].owed && read[0].seqNo < next
    requires !Unholdable(s.cur, read[0].seqNo, read[0].id)
    ensures AllHoldable(s, read, next) <==>
            AllHoldable(s.(cur := PutHole(s.cur, read[0].seqNo, read[0].id)), read[1..], next)
  {
    hide Found;
    forall x ensures Found(read, next, x) <==> x == read[0] || Found(read[1..], next, x) { FoundFirst(read, next, x); }
  }

  lemma FoundTake(s: Session, read: seq<Scanned>, next: nat, t: Session)
    requires read != [] && Ascending(read) && read[0].owed && read[0].seqNo < next
    requires var u := s.(cur := PutHole(s.cur, read[0].seqNo, read[0].id));
             && FoundIds(u, t, read[1..], next)
             && forall q :: q in u.cur.holes ==> q in t.cur.holes && t.cur.holes[q] == u.cur.holes[q]
    ensures FoundIds(s, t, read, next)
  {
    hide Found;
    var m := read[0];
    var u := s.(cur := PutHole(s.cur, m.seqNo, m.id));
    assert u.cur.holes[m.seqNo] == m.id;
    forall x | Found(read, next, x) && NewHole(s, x.seqNo, x.id)
      ensures x.seqNo in t.cur.holes && t.cur.holes[x.seqNo] == x.id
    {
      FoundFirst(read, next, x);
      if x != m {
        FoundLater(read, next, x);
        assert NewHole(u, x.seqNo, x.id);
      }
    }
  }

  lemma KeptTake(s: Session, read: seq<Scanned>, next: nat, t: Session, less: set<nat>, more: set<nat>)
    requires read != [] && Ascending(read) && read[0].owed && read[0].seqNo < next
    requires NewHole(s, read[0].seqNo, read[0].id)
    requires var u := s.(cur := PutHole(s.cur, read[0].seqNo, read[0].id));
             HolesKept(u, read[1..], next, t, less) && u.cur.holes.Keys + less == s.cur.holes.Keys + more
    ensures HolesKept(s, read, next, t, more)
  {
    hide FoundIds, PutHole, Ascending;
    PutHoleKeys(s.cur, read[0].seqNo, read[0].id);
    FoundTake(s, read, next, t);
  }

  /** A new one takes its place. */
  lemma AddedTake(s: Session, cfg: Config, read: seq<Scanned>, next: nat, t: Session, kept: bool)
    requires read != [] && Ascending(read) && read[0].owed && read[0].seqNo < next
    requires !Unholdable(s.cur, read[0].seqNo, read[0].id) && NewHole(s, read[0].seqNo, read[0].id)
    requires |s.cur.holes| < cfg.holeBound
    requires HolesAdded(s.(cur := PutHole(s.cur, read[0].seqNo, read[0].id)), cfg, read[1..], next, t, kept)
    ensures HolesAdded(s, cfg, read, next, t, kept)
  {
    hide NewHoles, Dropped, Room, AllHoldable, HolesKept, Ascending, Unholdable;
    var u := s.(cur := PutHole(s.cur, read[0].seqNo, read[0].id));
    RoomTake(s, cfg, read, next);
    HoldableTake(s, read, next);
    if kept {
      KeptTake(s, read, next, t, NewHoles(u, read[1..], next), NewHoles(s, read, next));
    } else {
      DroppedAnyway(s, u, t);
    }
  }

  lemma FoundLater(read: seq<Scanned>, next: nat, x: Scanned)
    requires read != [] && Ascending(read) && Found(read[1..], next, x)
    ensures x.seqNo != read[0].seqNo
  {
    var i :| 0 <= i < |read[1..]| && read[1..][i] == x;
    assert read[i + 1] == x;
  }

  lemma DroppedAnyway(s: Session, u: Session, t: Session)
    requires u == s.(cur := s.cur.(holes := u.cur.holes, holeAt := u.cur.holeAt))
    ensures Dropped(u, t) ==> Dropped(s, t)
  {
  }

  /** One that cannot be held, or has no room, costs the cursor. */
  lemma AddedFails(s: Session, cfg: Config, read: seq<Scanned>, next: nat)
    requires read != [] && Ascending(read) && read[0].owed && read[0].seqNo < next
    requires Unholdable(s.cur, read[0].seqNo, read[0].id)
             || (NewHole(s, read[0].seqNo, read[0].id) && |s.cur.holes| >= cfg.holeBound)
    ensures HolesAdded(s, cfg, read, next, Drop(s), false)
  {
    hide NewHoles;
    assert Found(read, next, read[0]);
    if NewHole(s, read[0].seqNo, read[0].id) {
      NewHolesTake(s, read, next);
      assert |NewHoles(s, read, next)| >= 1;
    }
  }

  /** The loop over what a scan found gives the cursor up exactly for a message it cannot hold or for want of room. */
  lemma {:induction false} AddHolesAnswers(s: Session, cfg: Config, read: seq<Scanned>, next: nat)
    requires Ascending(read)
    ensures var r := AddHoles(s, cfg, read, next);
            HolesAdded(s, cfg, read, next, r.0, r.1)
    decreases |read|
  {
    hide HolesAdded, NewHole, Unholdable;
    if read == [] || read[0].seqNo >= next {
      AddedNone(s, cfg, read, next);
    } else {
      var m, rest := read[0], read[1..];
      assert Ascending(rest);
      if !m.owed {
        AddHolesAnswers(s, cfg, rest, next);
        AddedSkip(s, cfg, read, next, AddHoles(s, cfg, rest, next).0, AddHoles(s, cfg, rest, next).1);
      } else {
        var r := AddHole(s, cfg, m.seqNo, m.id);
        AddHoleCases(s, cfg, m.seqNo, m.id);
        if !r.1 {
          AddedFails(s, cfg, read, next);
        } else {
          AddHolesAnswers(r.0, cfg, rest, next);
          var u := AddHoles(r.0, cfg, rest, next);
          if NewHole(s, m.seqNo, m.id) {
            AddedTake(s, cfg, read, next, u.0, u.1);
          } else {
            AddedSkip(s, cfg, read, next, u.0, u.1);
          }
        }
      }
    }
  }

  lemma AddHoleCases(s: Session, cfg: Config, seqNo: nat, id: Id)
    ensures var r := AddHole(s, cfg, seqNo, id);
            var room := |s.cur.holes| < cfg.holeBound;
            && (r.1 <==> !Unholdable(s.cur, seqNo, id) && (NewHole(s, seqNo, id) ==> room))
            && (!r.1 ==> r.0 == Drop(s))
            && (r.1 ==> r.0 == if NewHole(s, seqNo, id) then s.(cur := PutHole(s.cur, seqNo, id)) else s)
  {
  }

  lemma AddedNone(s: Session, cfg: Config, read: seq<Scanned>, next: nat)
    requires Ascending(read) && (read == [] || read[0].seqNo >= next)
    ensures HolesAdded(s, cfg, read, next, s, true)
  {
    NothingFound(s, read, next);
  }

  /** Where a scan that read to `last` may move the cursor: to the end, or to what the connection still holds. */
  function ScannedTo(start: nat, last: nat, floor: nat): nat {
    if floor == 0 || floor > last then last + 1 else if floor > start then floor else start
  }

  /**
    A scan is thrown away when the cursor was set or moved meanwhile, or a since is not known; it is stale when the
    subscriptions changed; and it drops the cursor when the stream ends below it. Otherwise it moves the cursor as far
    as the connection's floor allows and makes holes of exactly what it found owed below that and unsent, or drops it
    when one cannot be held or there is no room for them.
   */
  lemma ScanAnswers(s: Session, cfg: Config, gen: nat, start: nat, last: nat, keys: set<nat>, read: seq<Scanned>,
                    floor: nat)
    requires Ascending(read)
    ensures var r := ApplyScan(s, cfg, gen, start, last, keys, read, floor);
            var mine := s.cur.gen == gen && s.cur.next == start;
            var whole := last + 1 >= start;
            var next := ScannedTo(start, last, floor);
            var fits := AllHoldable(s, read, next) && Room(s, cfg, NewHoles(s, read, next));
            && (r.applied <==> mine && whole && Keys(s) == keys && SinceKnown(s) && fits)
            && (r.stale <==> mine && whole && Keys(s) != keys)
            && (r.moved <==> r.applied && next > start)
            && (r.applied ==>
                  && r.session.cur.next == next
                  && r.session.cur.holes.Keys == s.cur.holes.Keys + NewHoles(s, read, next)
                  && (forall q :: q in s.cur.holes ==> r.session.cur.holes[q] == s.cur.holes[q])
                  && FoundIds(s, r.session, read, next)
                  && r.session.cur.above == CountAbove(s.delivered, next)
                  && r.session.cur.gen == s.cur.gen && r.session.cur.base == s.cur.base
                  && r.session.cur.pin == s.cur.pin && r.session == s.(cur := r.session.cur))
            && (mine && (!whole || (Keys(s) == keys && SinceKnown(s) && !fits)) ==> Dropped(s, r.session))
            && (!r.applied && !(mine && (!whole || (Keys(s) == keys && SinceKnown(s)))) ==> r.session == s)
  {
    hide SinceKnown, Keys, CountAbove, AddHoles, NewHoles, AllHoldable, Room;
    var next := ScannedTo(start, last, floor);
    AddHolesAnswers(s, cfg, read, next);
    var r := AddHoles(s, cfg, read, next);
    if r.1 { FoundIdsMoved(s, r.0, r.0.cur.(next := next, above := CountAbove(r.0.delivered, next)), read, next); }
  }

  lemma FoundIdsMoved(s: Session, t: Session, c: Cursor, read: seq<Scanned>, next: nat)
    requires FoundIds(s, t, read, next) && c.holes == t.cur.holes
    ensures FoundIds(s, t.(cur := c), read, next)
  {
  }

  /**
    What a scan reads: each message between the two ends that is still there and a subscription takes, in order, and
    whether one that was made before it is owed it.
   */
  lemma {:induction false} ScanReadAnswers(st: Stream, gone: set<nat>, subs: Subs, client: string, from: nat, last: nat,
                                           m: Scanned)
    requires 1 <= from && last <= |st|
    ensures m in ScanRead(st, gone, subs, client, from, last) <==>
            && from <= m.seqNo <= last && m.seqNo !in gone && m.id == At(st, m.seqNo).id
            && (exists f :: f in subs && Serves(subs[f], At(st, m.seqNo), client))
            && (m.owed <==> exists f :: f in subs && OwesAt(subs[f], At(st, m.seqNo), m.seqNo, client))
    decreases last + 1 - from
  {
    hide Serves, OwesAt, ScanRead;
    if from > last {
      ScanReadEmpty(st, gone, subs, client, from, last);
    } else {
      ScanReadAnswers(st, gone, subs, client, from + 1, last, m);
      ScanReadFirst(st, gone, subs, client, from, last);
    }
  }

  lemma ScanReadFirst(st: Stream, gone: set<nat>, subs: Subs, client: string, from: nat, last: nat)
    requires 1 <= from <= last <= |st|
    ensures var rest, m := ScanRead(st, gone, subs, client, from + 1, last), At(st, from);
            var takes := exists f :: f in subs && Serves(subs[f], m, client);
            var owed := exists f :: f in subs && OwesAt(subs[f], m, from, client);
            ScanRead(st, gone, subs, client, from, last) ==
            if from !in gone && takes then [Scanned(from, m.id, owed)] + rest else rest
  {
    hide Serves, OwesAt;
  }

  // ---------------------------------------------------------------- restarts

  lemma {:induction false} RestartHolesSome(delivered: Delivered, read: seq<Scanned>, next: nat)
    requires Ascending(read)
    ensures RestartHoles(delivered, read, next).Some? <==>
            forall m :: Found(read, next, m) && m.id !in delivered ==> m.id != ""
    decreases |read|
  {
    hide Found;
    if read == [] || read[0].seqNo >= next {
      NoneFound(read, next);
    } else {
      assert Ascending(read[1..]);
      RestartHolesSome(delivered, read[1..], next);
      forall x
        ensures Found(read, next, x) <==> (x == read[0] && x.owed && x.seqNo < next) || Found(read[1..], next, x)
      {
        FoundFirst(read, next, x);
      }
    }
  }

  lemma NoneFound(read: seq<Scanned>, next: nat)
    requires Ascending(read) && (read == [] || read[0].seqNo >= next)
    ensures forall m :: !Found(read, next, m)
  {
    forall m | m in read ensures m.seqNo >= next {
      var i :| 0 <= i < |read| && read[i] == m;
    }
  }

  /** The sequences a restart would make holes of. */
  function RestartSeqs(delivered: Delivered, read: seq<Scanned>, next: nat): set<nat> {
    set m | m in read && m.owed && m.seqNo < next && m.id !in delivered :: m.seqNo
  }

  lemma {:induction false} RestartHolesCount(delivered: Delivered, read: seq<Scanned>, next: nat)
    requires Ascending(read) && RestartHoles(delivered, read, next).Some?
    ensures |RestartHoles(delivered, read, next).value| == |RestartSeqs(delivered, read, next)|
    decreases |read|
  {
    if read == [] || read[0].seqNo >= next {
      NoneFound(read, next);
      assert RestartSeqs(delivered, read, next) == {} by {
        forall m | m in read && m.owed && m.seqNo < next ensures false { assert Found(read, next, m); }
      }
    } else {
      var m, rest := read[0], read[1..];
      assert Ascending(rest);
      RestartHolesCount(delivered, rest, next);
      RestartSeqsFirst(delivered, read, next);
    }
  }

  lemma RestartSeqsFirst(delivered: Delivered, read: seq<Scanned>, next: nat)
    requires Ascending(read) && read != [] && read[0].seqNo < next
    ensures var m := read[0];
            var one := if m.owed && m.id !in delivered then {m.seqNo} else {};
            && RestartSeqs(delivered, read, next) == one + RestartSeqs(delivered, read[1..], next)
            && read[0].seqNo !in RestartSeqs(delivered, read[1..], next)
  {
    var m, rest := read[0], read[1..];
    assert read == [m] + rest;
    forall x | x in rest ensures x.seqNo > m.seqNo {
      var i :| 0 <= i < |rest| && rest[i] == x;
      assert read[i + 1] == x;
    }
    forall q | q in RestartSeqs(delivered, read, next)
      ensures q in RestartSeqs(delivered, rest, next) || (q == m.seqNo && m.owed && m.id !in delivered)
    {
      var x :| x in read && x.owed && x.seqNo < next && x.id !in delivered && x.seqNo == q;
      if x != m { assert x in rest; }
    }
  }

  /** Where a restart sets the cursor: at the end its scan read to, or at what the connection still holds. */
  function RestartedAt(last: nat, floor: nat): nat { if floor == 0 || floor > last then last + 1 else floor }

  /**
    A restart sets a cursor exactly when the session has none, nothing it depends on changed, it is still within the
    rewind, the connection holds nothing below its base, what it found unsent has ids and fits the bound, and so do
    the ids above. The cursor then stands at the end or the floor, with its base.
   */
  lemma RestartAnswers(s: Session, cfg: Config, r: Restart, floor: nat, now: nat)
    requires Ascending(r.read)
    ensures var t := RestartCursor(s, cfg, r, floor, now);
            var next := RestartedAt(r.last, floor);
            && (t.1 <==>
                  && s.cur.next == 0 && s.cur.gen == r.gen && s.cur.pin == 0 && SinceKnown(s) && Keys(s) == r.keys
                  && now < r.began + cfg.window && (floor == 0 || floor >= r.base)
                  && (forall m :: Found(r.read, next, m) && m.id !in s.delivered ==> m.id != "")
                  && |RestartSeqs(s.delivered, r.read, next)| <= cfg.holeBound
                  && CountAbove(s.delivered, next) <= cfg.idBound)
            && (!t.1 ==> t.0 == s)
            && (t.1 ==>
                  && t.0 == s.(cur := t.0.cur) && t.0.cur.next == next && t.0.cur.base == r.base && t.0.cur.pin == 0
                  && t.0.cur.gen > s.cur.gen && t.0.cur.above == CountAbove(s.delivered, next))
  {
    hide SinceKnown, Keys, CountAbove, RestartHoles, RestartSeqs, Found;
    var next := RestartedAt(r.last, floor);
    RestartHolesSome(s.delivered, r.read, next);
    if RestartHoles(s.delivered, r.read, next).Some? {
      RestartHolesCount(s.delivered, r.read, next);
      PutHolesLocal(SetCursor(s.cur, next).(base := r.base), RestartHoles(s.delivered, r.read, next).value);
    }
  }

  lemma {:induction false} PutHolesLocal(c: Cursor, holes: seq<Entry>)
    ensures var d := PutHoles(c, holes);
            d == c.(holes := d.holes, holeAt := d.holeAt)
    decreases |holes|
  {
    if holes != [] { PutHolesLocal(PutHole(c, holes[0].seqNo, holes[0].id), holes[1..]); }
  }

  // ---------------------------------------------------------------- the end of a replay

  /** A subscription after its since, if it was unknown, was set. */
  ghost predicate SinceSet(subs: Subs, after: Subs, keys: set<nat>, last: nat) {
    && after.Keys == subs.Keys
    && forall f :: f in subs ==>
         && after[f].(since := subs[f].since) == subs[f]
         && after[f].since == if subs[f].since.None? && subs[f].key in keys then Some(last) else subs[f].since
  }

  lemma FillAnswers(subs: Subs, keys: set<nat>, last: nat)
    ensures SinceSet(subs, FillSince(subs, keys, last), keys, last)
  {
  }

  /**
    After a replay from a cursor that is still set, the cursor stands at the end that was read, or at what the
    connection holds below it, unless it is already further. The holes left are exactly those the replay did not have
    under the same id or did not reach. Every since is known.
   */
  lemma ReplayMoves(s: Session, had: View, start: nat, last: nat, floor: nat)
    requires s.cur.next != 0
    ensures var t := ReplayedTo(s, had, true, start, last, floor);
            var end := RestartedAt(last, floor);
            && t.cur.next == (if end > s.cur.next then end else s.cur.next)
            && (forall q :: q in t.cur.holes <==>
                  q in s.cur.holes && !(q <= last && q in had.holes && had.holes[q] == s.cur.holes[q]))
            && (forall q :: q in t.cur.holes ==> t.cur.holes[q] == s.cur.holes[q])
            && t.cur.above == (if end > s.cur.next then CountAbove(s.delivered, end) else s.cur.above)
            && t.cur.gen == s.cur.gen && t.cur.base == s.cur.base && t.cur.pin == 0
            && t == s.(cur := t.cur, subs := t.subs) && SinceSet(s.subs, t.subs, Keys(s), last) && SinceKnown(t)
  {
    hide CountAbove;
    FillAnswers(s.subs, Keys(s), last);
    FilledKnown(s, last);
  }

  /** A replay whose cursor was dropped meanwhile sets the sinces and nothing else. */
  lemma ReplayAfterDrop(s: Session, had: View, start: nat, last: nat, floor: nat)
    requires s.cur.next == 0
    ensures var t := ReplayedTo(s, had, true, start, last, floor);
            t == s.(cur := s.cur.(pin := 0), subs := t.subs) && SinceSet(s.subs, t.subs, Keys(s), last)
  {
    FillAnswers(s.subs, Keys(s), last);
  }

  /**
    A replay without a cursor starts one exactly when the ids from its start on were kept for it, the session has got
    none meanwhile, and the connection holds nothing below the start.
   */
  lemma ReplayStarts(s: Session, had: View, start: nat, last: nat, floor: nat)
    ensures var t := ReplayedTo(s, had, false, start, last, floor);
            var end := RestartedAt(last, floor);
            var starts := s.cur.next == 0 && 1 <= s.cur.pin <= start && (floor == 0 || floor >= start);
            && (starts ==>
                  t.cur == Cursor(end, map[], map[], t.cur.gen, CountAbove(s.delivered, end), 0, 0)
                  && t.cur.gen > s.cur.gen)
            && (!starts ==> t.cur == s.cur.(pin := 0))
            && t == s.(cur := t.cur, subs := t.subs) && SinceSet(s.subs, t.subs, Keys(s), last) && SinceKnown(t)
  {
    hide CountAbove;
    FillAnswers(s.subs, Keys(s), last);
    FilledKnown(s, last);
  }

  /**
    A SUBSCRIBE sets the sinces that are unknown among its own, and starts the cursor right after the end it read
    exactly when that is exact, the session has no cursor, had no other non-shared subscription, holds nothing, and
    knows every since.
   */
  lemma SetSinceAnswers(s: Session, keys: set<nat>, last: nat, exact: bool, hadNonShared: bool, floor: nat)
    ensures var t := SetSince(s, keys, last, exact, hadNonShared, floor);
            var known := forall f :: f in s.subs && !s.subs[f].shared ==>
                                       s.subs[f].since.Some? || s.subs[f].key in keys;
            var starts := exact && s.cur.next == 0 && !hadNonShared && floor == 0 && known;
            && SinceSet(s.subs, t.subs, keys, last)
            && (starts ==> t.cur == Cursor(last + 1, map[], map[], t.cur.gen, 0, 0, 0) && t.cur.gen > s.cur.gen)
            && (!starts ==> t.cur == s.cur)
            && t == s.(cur := t.cur, subs := t.subs)
  {
    FillAnswers(s.subs, keys, last);
  }

  // ---------------------------------------------------------------- subscriptions, pins and passes

  /**
    A new subscription is owed nothing until its since is known. One that replaces another keeps its since exactly
    when both are unshared, the other took queued messages and its since is known, and the new one refuses what the
    other refused; then it is owed all that it would deliver of what the other was owed.
   */
  lemma InstallAnswers(s: Session, sub: Sub, m: Msg, q: nat)
    requires sub.since.None?
    ensures var t := Install(s, sub);
            var f := sub.filter;
            var keeps := f in s.subs && !sub.shared && !s.subs[f].shared && s.subs[f].granted > 0
              && s.subs[f].since.Some? && (s.subs[f].noLocal ==> sub.noLocal);
            && t == s.(subs := t.subs) && t.subs.Keys == s.subs.Keys + {f}
            && (forall g :: g in s.subs && g != f ==> t.subs[g] == s.subs[g])
            && t.subs[f].(since := None, made := sub.made) == sub
            && (!keeps ==> t.subs[f] == sub && !OwesAt(t.subs[f], m, q, s.client))
            && (keeps ==>
                  t.subs[f].made == s.subs[f].made
                  && (Serves(sub, m, s.client) && OwesAt(s.subs[f], m, q, s.client) <==>
                      OwesAt(t.subs[f], m, q, s.client) && Serves(s.subs[f], m, s.client)))
  {
  }

  lemma PinAnswers(s: Session, seqNo: nat)
    ensures var t := PinForReplay(s, seqNo);
            && (s.cur.next != 0 ==> t == s)
            && (s.cur.next == 0 ==> t.cur.pin >= 1 && (t.cur.pin == seqNo || (seqNo == 0 && t.cur.pin == 1)))
            && t == s.(cur := s.cur.(pin := t.cur.pin))
  {
  }

  /**
    Noting a delivery marks the id with its sequence and the time, removes its hole, raises the highest sequence, and
    counts it when it is at or above the cursor, or has a sequence and there is none.
   */
  lemma NoteAnswers(s: Session, id: Id, seqNo: nat, now: nat)
    requires Inverted(s.cur)
    ensures var t := Note(s, id, seqNo, now);
            && t.delivered.Keys == s.delivered.Keys + {id} && t.delivered[id] == Mark(now, seqNo)
            && (forall k :: k in s.delivered && k != id ==> t.delivered[k] == s.delivered[k])
            && t.maxDelivered >= s.maxDelivered && t.maxDelivered >= seqNo && t.maxDelivered in {s.maxDelivered, seqNo}
            && (forall q :: q in t.cur.holes <==> q in s.cur.holes && s.cur.holes[q] != id)
            && t.cur.above == s.cur.above + (if seqNo >= s.cur.next && (s.cur.next != 0 || seqNo != 0) then 1 else 0)
            && t.cur.next == s.cur.next && t.cur.gen == s.cur.gen && t.cur.pin == s.cur.pin && t.cur.base == s.cur.base
            && t.subs == s.subs && t.client == s.client
  {
    RemoveKeepsInverted(s.cur, id);
  }

  /** The sequence from which the ids are kept for the cursor, or for a replay that may start one. */
  predicate KeptFor(s: Session, m: Mark) {
    (s.cur.next != 0 && m.seqNo >= s.cur.next) || (s.cur.pin != 0 && m.seqNo >= s.cur.pin)
  }

  /**
    A pass forgets an id exactly when it is kept for no cursor or replay, is older than twice the rewind, and has no
    sequence or one below the sequence window; and it drops the cursor exactly when it keeps too many ids for one.
   */
  lemma PruneAnswers(s: Session, cfg: Config, now: nat)
    ensures var t := Prune(s, cfg, now);
            var many := |set k | k in s.delivered && KeptFor(s, s.delivered[k])| > cfg.idBound;
            && (forall k :: k in t.delivered <==>
                  && k in s.delivered
                  && (|| KeptFor(s, s.delivered[k]) || now <= s.delivered[k].at + 2 * cfg.window
                      || (s.delivered[k].seqNo != 0
                          && s.delivered[k].seqNo + DELIVERED_SEQ_WINDOW >= s.maxDelivered)))
            && (forall k :: k in t.delivered ==> t.delivered[k] == s.delivered[k])
            && (many ==> Dropped(s.(delivered := t.delivered), t))
            && (!many ==> t == s.(delivered := t.delivered))
  {
    assert (set k | k in s.delivered && KeptFor(s, s.delivered[k])) == KeptIds(s);
  }

  /** A pass runs after a delivery exactly when the ids are a multiple of 64 that is more than 64. */
  lemma PassDue(s: Session, cfg: Config, id: Id, seqNo: nat, now: nat)
    ensures var t := Note(s, id, seqNo, now);
            var n := |t.delivered|;
            NoteDelivered(s, cfg, id, seqNo, now) == if n >= 128 && n % 64 == 0 then Prune(t, cfg, now) else t
  {
  }

  // ---------------------------------------------------------------- absences

  /**
    A dropped cursor takes with it the late sequences that only it made safe, and no others: one within the sequence
    window is kept.
   */
  lemma DropAnswers(w: World, cfg: Config)
    ensures var v := Do(w, cfg, DropCursor);
            && Dropped(w.s, v.s)
            && v.lateSeq == (if w.lateSeq + DELIVERED_SEQ_WINDOW >= w.s.maxDelivered then w.lateSeq else 0)
            && (w.away.None? ==> v.away.None?)
            && (w.away.Some? ==>
                  var a := w.away.value;
                  var late := if a.lateSeq + DELIVERED_SEQ_WINDOW >= w.s.maxDelivered then a.lateSeq else 0;
                  v.away == Some(Away(a.at, a.fromSeq, late, true)))
            && v == w.(s := v.s, lateSeq := v.lateSeq, away := v.away)
  {
  }

  /** A replay may start at the copy: the cursor accounts for it, or the ids from it on are within the window. */
  predicate SafeStart(s: Session, q: nat) {
    if s.cur.next != 0 && s.cur.base == 0 then q >= s.cur.next || q in s.cur.holes
    else q + DELIVERED_SEQ_WINDOW >= s.maxDelivered
  }

  /**
    A copy that reaches a connection already ended is noted exactly when a replay may start at it, as the lowest such
    of the connection or of the absence; a higher one changes nothing. It is offered to the cursor first.
   */
  lemma LateCopyAnswers(w: World, cfg: Config, q: nat)
    requires Enabled(w, cfg, LateCopy(q)) && NoteLiveCopy(w.s, cfg, q, At(w.stream, q).id).cur.gen == w.s.cur.gen
    ensures var v := Do(w, cfg, LateCopy(q));
            && v.s == NoteLiveCopy(w.s, cfg, q, At(w.stream, q).id)
            && v == w.(s := v.s, lateSeq := v.lateSeq, away := v.away)
            && (w.away.None? ==>
                  && v.away.None?
                  && v.lateSeq == (if SafeStart(v.s, q) && (w.lateSeq == 0 || q < w.lateSeq) then q else w.lateSeq))
            && (w.away.Some? ==>
                  var a := w.away.value;
                  && v.lateSeq == w.lateSeq
                  && v.away == if SafeStart(v.s, q) && (a.lateSeq == 0 || q < a.lateSeq)
                               then Some(Away(a.at, a.fromSeq, q, !(v.s.cur.next != 0 && v.s.cur.base == 0)))
                               else w.away)
  {
    hide NoteLiveCopy;
  }

  /**
    The end of a connection leaves one absence: the one its replay had taken from a time and not begun, or a new one
    with what it knew it owed. Its late sequence is the lowest that either had.
   */
  lemma DetachAnswers(w: World, cfg: Config, at: nat, fromSeq: nat)
    requires Enabled(w, cfg, Detach(at, fromSeq))
    ensures var v := Do(w, cfg, Detach(at, fromSeq));
            var again := w.replay.Replaying? && w.replay.took.Some? && w.replay.handled == {};
            var was := if again then w.replay.took.value else Away(at, fromSeq, 0, false);
            && v.away.Some? && v.replay.NoReplay? && v.lateSeq == 0 && v.s == w.s.(cur := w.s.cur.(pin := 0))
            && v.away.value.at == was.at && v.away.value.fromSeq == was.fromSeq
            && (v.away.value.lateSeq == 0 <==> was.lateSeq == 0 && w.lateSeq == 0)
            && (v.away.value.lateSeq != 0 ==>
                  && v.away.value.lateSeq in {was.lateSeq, w.lateSeq}
                  && (was.lateSeq != 0 ==> v.away.value.lateSeq <= was.lateSeq)
                  && (w.lateSeq != 0 ==> v.away.value.lateSeq <= w.lateSeq))
            && v == w.(s := v.s, away := v.away, replay := NoReplay, lateSeq := 0)
  {
  }

  /** A replay begins with what the session knows, and takes the absence; from a time it can hand it on again. */
  lemma BeginAnswers(w: World, cfg: Config, byTime: bool, start: nat)
    ensures Enabled(w, cfg, BeginReplay) ==>
              var v := Do(w, cfg, BeginReplay);
              && v.away.None? && v.s == w.s && v.replay.ok && v.replay.had == View(w.s.cur.next, w.s.cur.holes)
              && v.replay.start == w.s.cur.next && v.replay.snapshot == w.s.delivered.Keys && v.replay.sent == {}
              && v.replay.handled == {} && v.replay.cover.None? && v.replay.last.None? && v.replay.took.None?
    ensures Enabled(w, cfg, BeginReplayFrom(byTime, start)) ==>
              var v := Do(w, cfg, BeginReplayFrom(byTime, start));
              && v.away.None? && !v.replay.ok && v.replay.start == start && v.pinFrom == start
              && v.replay.snapshot == w.s.delivered.Keys && v.replay.sent == {} && v.replay.handled == {}
              && v.replay.took == (if byTime then w.away else None)
              && (w.s.cur.next == 0 ==> v.s.cur.pin == if byTime then 1 else start)
  {
  }

  /**
    A message a replay handles is sent exactly when it has an id the replay neither knew at the start nor has sent
    since, and a subscription takes it. It is then noted, and either way it is handled.
   */
  lemma HandleAnswers(w: World, cfg: Config, q: nat)
    requires Enabled(w, cfg, Handle(q))
    ensures var v, m := Do(w, cfg, Handle(q)), At(w.stream, q);
            var takes := exists f :: f in w.s.subs && Serves(w.s.subs[f], m, w.s.client);
            var sends := m.id != "" && m.id !in w.replay.snapshot && m.id !in w.replay.sent && takes;
            && v.replay.handled == w.replay.handled + {q}
            && v.sent == (if sends then w.sent + {q} else w.sent)
            && v.replay.sent == (if sends then w.replay.sent + {m.id} else w.replay.sent)
            && v.s == (if sends then NoteDelivered(w.s, cfg, m.id, q, w.now) else w.s)
  {
    hide NoteDelivered, Note, Serves;
  }

  // ---------------------------------------------------------------- the steps that only look or give up

  /** An UNSUBSCRIBE takes its subscription away, and what only it was owed. */
  lemma RemoveAnswers(s: Session, filter: string, m: Msg, q: nat)
    ensures var t := Remove(s, filter);
            && t == s.(subs := t.subs) && t.subs.Keys == s.subs.Keys - {filter}
            && (forall f :: f in t.subs ==> t.subs[f] == s.subs[f])
            && ((exists f :: f in t.subs && OwesAt(t.subs[f], m, q, s.client)) <==>
                exists f :: f in s.subs && f != filter && OwesAt(s.subs[f], m, q, s.client))
  {
    hide OwesAt;
  }

  /** A scan begins where the cursor stands, and what it reads goes to the stream's end as it is then. */
  lemma LookAnswers(w: World, cfg: Config)
    ensures Do(w, cfg, ReadEnd) == w.(subscribing := EndRead(|w.stream|, w.now))
    ensures Enabled(w, cfg, BeginScan) ==>
              var sc := Do(w, cfg, BeginScan).scan;
              sc.Started? && sc.gen == w.s.cur.gen && sc.start == w.s.cur.next
    ensures Enabled(w, cfg, ReadScan) ==>
              var sc := Do(w, cfg, ReadScan).scan;
              && sc.Read? && sc.gen == w.scan.gen && sc.start == w.scan.start
              && sc.keys == Keys(w.s) && sc.last == |w.stream|
    ensures Enabled(w, cfg, ChooseCover) ==>
              var r := Do(w, cfg, ChooseCover).replay;
              && r.last.None? && r.cover.Some?
              && forall sub :: sub in r.cover.value <==> exists f :: f in w.s.subs && w.s.subs[f] == sub
    ensures Enabled(w, cfg, ReadLast) ==> Do(w, cfg, ReadLast).replay == w.replay.(last := Some(|w.stream|))
  {
    hide ScanRead;
  }

  /** Giving up leaves the session and its cursor, but for the pin, as they were. */
  lemma GiveUpAnswers(w: World, cfg: Config)
    ensures var v := Do(w, cfg, AbandonScans);
            && v.scan.NoScan? && v.restart.NoRestart? && v.subscribing.NotSubscribing?
            && v.s == w.s && v.replay == w.replay
    ensures var v := Do(w, cfg, AbandonReplay);
            v.replay.NoReplay? && v.s == w.s.(cur := w.s.cur.(pin := 0)) && v.scan == w.scan && v.sent == w.sent
  {
  }
}
