/**
  The session object the replay cursor lives in (session.go, cursor.go): its fields are changed in place, and
  each method is proved to do what the function of `Cursors` with its name says. A method here runs with the
  session's locks held, so what it does is one step of `CursorRuns`.
 */
module ReplaySession {
  import opened Topics
  import opened Cursors

  class Session {
    const clientID: string
    const cfg: Config
    var next: nat
    var holes: map<nat, Id>
    var holeAt: map<Id, nat>
    var gen: nat
    var above: nat
    var pin: nat
    var base: nat
    var delivered: map<Id, Mark>
    var maxDelivered: nat
    var subs: map<string, Sub>

    constructor (clientID: string, cfg: Config)
      ensures Value() == Cursors.Session(clientID, Cursor(0, map[], map[], 0, 0, 0, 0), map[], 0, map[])
      ensures this.cfg == cfg && Valid()
    {
      this.clientID, this.cfg := clientID, cfg;
      next, holes, holeAt, gen, above, pin, base := 0, map[], map[], 0, 0, 0, 0;
      delivered, maxDelivered, subs := map[], 0, map[];
    }

    function Cur(): Cursor
      reads this
    {
      Cursor(next, holes, holeAt, gen, above, pin, base)
    }

    function Value(): Cursors.Session
      reads this
    {
      Cursors.Session(clientID, Cur(), delivered, maxDelivered, subs)
    }

    /** The two indexes of the holes agree. */
    ghost predicate Valid()
      reads this
    {
      Inverted(Cur())
    }

    // ---------------------------------------------------------------- holes

    method RemoveHole(id: Id)
      requires Valid()
      modifies this`holes, this`holeAt
      ensures Valid() && Cur() == Cursors.RemoveHole(old(Cur()), id)
    {
      if id in holeAt {
        var seqNo := holeAt[id];
        holeAt := holeAt - {id};
        holes := holes - {seqNo};
      }
    }

    method SetCursorLocked(next: nat)
      modifies this`next, this`holes, this`holeAt, this`gen, this`above, this`pin, this`base
      ensures Valid() && Cur() == SetCursor(old(Cur()), next)
    {
      this.next := next;
      holes, holeAt := map[], map[];
      gen := gen + 1;
      above, pin, base := 0, 0, 0;
    }

    /** A message keeps its sequence: the id is not that of a hole somewhere else. */
    method AddHoleLocked(seqNo: nat, id: Id) returns (set_: bool)
      requires Valid() && NoOtherHole(Cur(), seqNo, id)
      modifies this`next, this`holes, this`holeAt, this`gen, this`above, this`pin, this`base
      ensures Valid() && (Value(), set_) == AddHole(old(Value()), cfg, seqNo, id)
    {
      if seqNo < base {
        SetCursorLocked(0);
        return false;
      }
      if id == "" {
        SetCursorLocked(0);
        return false;
      }
      if id in delivered { return true; }
      if seqNo in holes { return true; }
      if |holes| >= cfg.holeBound {
        SetCursorLocked(0);
        return false;
      }
      holes, holeAt := holes[seqNo := id], holeAt[id := seqNo];
      return true;
    }

    method NoteLiveCopy(seqNo: nat, id: Id)
      requires Valid() && NoOtherHole(Cur(), seqNo, id)
      modifies this
      ensures Valid() && Value() == Cursors.NoteLiveCopy(old(Value()), cfg, seqNo, id)
    {
      if seqNo == 0 { return; }
      if next != 0 && seqNo < next {
        var _ := AddHoleLocked(seqNo, id);
      }
    }

    // ---------------------------------------------------------------- reading

    method SinceKnownLocked() returns (known: bool)
      ensures known <==> SinceKnown(Value())
    {
      var todo := subs.Keys;
      while todo != {}
        invariant todo <= subs.Keys
        invariant forall f :: f in subs && f !in todo ==> subs[f].shared || subs[f].since.Some?
        decreases |todo|
      {
        var f :| f in todo;
        if !subs[f].shared && subs[f].since.None? { return false; }
        todo := todo - {f};
      }
      return true;
    }

    method CountAboveLocked(seqNo: nat) returns (n: nat)
      ensures n == CountAbove(delivered, seqNo)
    {
      n := 0;
      var todo := delivered.Keys;
      ghost var counted: set<Id> := {};
      while todo != {}
        invariant todo <= delivered.Keys && todo !! counted
        invariant counted == set id | id in delivered && id !in todo && delivered[id].seqNo >= seqNo
        invariant n == |counted|
        decreases |todo|
      {
        var id :| id in todo;
        todo := todo - {id};
        if delivered[id].seqNo >= seqNo {
          n := n + 1;
          counted := counted + {id};
        }
      }
      assert counted == set id | id in delivered && delivered[id].seqNo >= seqNo;
    }

    // ---------------------------------------------------------------- deliveries

    /** noteDelivered, with the clock's value as an argument. */
    method NoteDelivered(id: Id, seqNo: nat, now: nat)
      requires Valid()
      modifies this
      ensures Valid() && Value() == Cursors.NoteDelivered(old(Value()), cfg, id, seqNo, now)
    {
      delivered := delivered[id := Mark(now, seqNo)];
      if seqNo > maxDelivered { maxDelivered := seqNo; }
      RemoveHole(id);
      if (next != 0 && seqNo >= next) || (next == 0 && seqNo != 0) { above := above + 1; }
      assert Value() == Note(old(Value()), id, seqNo, now);
      if |delivered| > 64 && |delivered| % 64 == 0 { PruneLocked(now); }
    }

    method PruneLocked(now: nat)
      requires Valid()
      modifies this
      ensures Valid() && Value() == Prune(old(Value()), cfg, now)
    {
      ghost var s := Value();
      var kept := SweepLocked(now);
      assert delivered == map k | k in s.delivered && !Prunable(s, cfg, s.delivered[k], now) :: s.delivered[k];
      if kept > cfg.idBound { SetCursorLocked(0); }
    }

    /** One pass over the delivered ids: counts those the cursor or a pinned replay keeps, and deletes the old ones. */
    method SweepLocked(now: nat) returns (kept: nat)
      modifies this`delivered
      ensures kept == |KeptIds(old(Value()))|
      ensures delivered.Keys <= old(delivered).Keys && forall k :: k in delivered ==> delivered[k] == old(delivered)[k]
      ensures forall k :: k in old(delivered) ==>
              (k in delivered <==> !Prunable(old(Value()), cfg, old(delivered)[k], now))
    {
      hide SweptTo, KeptAmong, Prunable;
      ghost var s := Value();
      var keep := LowestSeq(next, pin);
      var todo := delivered.Keys;
      kept := 0;
      SweepEnds(s, cfg, now);
      while todo != {}
        invariant todo <= s.delivered.Keys
        invariant SweptTo(s, cfg, now, todo, delivered)
        invariant kept == |KeptAmong(s, todo)|
        decreases |todo|
      {
        var k :| k in todo;
        SweepStep(s, cfg, now, todo, delivered, k);
        var m := delivered[k];
        todo := todo - {k};
        if keep != 0 && m.seqNo >= keep {
          kept := kept + 1;
        } else if now > m.at + 2 * cfg.window && (m.seqNo == 0 || m.seqNo + DELIVERED_SEQ_WINDOW < maxDelivered) {
          delivered := delivered - {k};
        }
      }
      SweepDone(s, cfg, now, delivered);
    }

    /** The pass has done everything but `todo`, and `d` is what is left of the delivered ids. */
    static ghost predicate SweptTo(s: Cursors.Session, cfg: Config, now: nat, todo: set<Id>, d: map<Id, Mark>) {
      && todo <= d.Keys <= s.delivered.Keys
      && (forall k :: k in d ==> d[k] == s.delivered[k])
      && (forall k :: k in s.delivered && k !in todo ==> (k in d <==> !Prunable(s, cfg, s.delivered[k], now)))
    }

    static ghost function KeptAmong(s: Cursors.Session, todo: set<Id>): set<Id> { KeptIds(s) - todo }

    static lemma SweepEnds(s: Cursors.Session, cfg: Config, now: nat)
      ensures SweptTo(s, cfg, now, s.delivered.Keys, s.delivered) && KeptAmong(s, s.delivered.Keys) == {}
    {
    }

    static lemma SweepDone(s: Cursors.Session, cfg: Config, now: nat, d: map<Id, Mark>)
      requires SweptTo(s, cfg, now, {}, d)
      ensures KeptAmong(s, {}) == KeptIds(s)
      ensures d.Keys <= s.delivered.Keys && forall k :: k in d ==> d[k] == s.delivered[k]
      ensures forall k :: k in s.delivered ==> (k in d <==> !Prunable(s, cfg, s.delivered[k], now))
    {
    }

    static lemma SweepStep(s: Cursors.Session, cfg: Config, now: nat, todo: set<Id>, d: map<Id, Mark>, k: Id)
      requires SweptTo(s, cfg, now, todo, d) && k in todo
      ensures var keep := LowestSeq(s.cur.next, s.cur.pin);
              var kept := keep != 0 && s.delivered[k].seqNo >= keep;
              var old_ := now > s.delivered[k].at + 2 * cfg.window
                          && (s.delivered[k].seqNo == 0
                              || s.delivered[k].seqNo + DELIVERED_SEQ_WINDOW < s.maxDelivered);
              && k in d && d[k] == s.delivered[k]
              && |KeptAmong(s, todo - {k})| == |KeptAmong(s, todo)| + (if kept then 1 else 0)
              && SweptTo(s, cfg, now, todo - {k}, if !kept && old_ then d - {k} else d)
    {
      if k in KeptIds(s) {
        assert KeptAmong(s, todo - {k}) == KeptAmong(s, todo) + {k};
      } else {
        assert KeptAmong(s, todo - {k}) == KeptAmong(s, todo);
      }
    }

    // ---------------------------------------------------------------- scans

    method ApplyScanLocked(gen: nat, start: nat, last: nat, keys: set<nat>, read: seq<Scanned>, floor: nat)
      returns (moved: bool, applied: bool, stale: bool)
      requires Valid() && ReadPaired(read) && forall m :: m in read ==> NoOtherHole(Cur(), m.seqNo, m.id)
      modifies this
      ensures Valid()
      ensures ScanResult(Value(), moved, applied, stale) ==
              ApplyScan(old(Value()), cfg, gen, start, last, keys, read, floor)
    {
      hide AddHole, SameSubs, SinceKnown, CountAbove;
      ghost var s := Value();
      if this.gen != gen || next != start { return false, false, false; }
      if last + 1 < start {
        SetCursorLocked(0);
        return false, false, false;
      }
      if !SameSubs(Value(), keys) { return false, false, true; }
      var known := SinceKnownLocked();
      if !known { return false, false, false; }
      var end := last + 1;
      if floor != 0 && floor < end { end := if floor >= start then floor else start; }
      var i := 0;
      while i < |read|
        invariant i <= |read|
        invariant AddHoles(s, cfg, read, end) == AddHoles(Value(), cfg, read[i..], end)
        invariant Valid() && forall j :: 0 <= j < |read| ==> NoOtherHole(Cur(), read[j].seqNo, read[j].id)
      {
        if read[i].seqNo >= end { break; }
        assert read[i..][1..] == read[i + 1..];
        if read[i].owed {
          AddHoleApart(Value(), cfg, read, i);
          var set_ := AddHoleLocked(read[i].seqNo, read[i].id);
          if !set_ { return false, false, false; }
        }
        i := i + 1;
      }
      assert AddHoles(s, cfg, read, end) == (Value(), true);
      moved := end > next;
      next := end;
      above := CountAboveLocked(end);
      return moved, true, false;
    }

    static lemma AddHoleApart(s: Cursors.Session, cfg: Config, read: seq<Scanned>, i: nat)
      requires ReadPaired(read) && i < |read|
      requires forall j :: 0 <= j < |read| ==> NoOtherHole(s.cur, read[j].seqNo, read[j].id)
      ensures forall j :: 0 <= j < |read| ==>
                NoOtherHole(AddHole(s, cfg, read[i].seqNo, read[i].id).0.cur, read[j].seqNo, read[j].id)
    {
    }

    method RestartCursorLocked(r: Restart, floor: nat, now: nat) returns (started: bool)
      requires Valid() && ReadPaired(r.read)
      modifies this
      ensures Valid()
      ensures (Value(), started) == RestartCursor(old(Value()), cfg, r, floor, now)
    {
      hide Inverted, ReadPaired, Paired, CountAbove, SinceKnown, SameSubs, RestartHoles, PutHoles;
      var known := SinceKnownLocked();
      if next != 0 || gen != r.gen || pin != 0 || !known || !SameSubs(Value(), r.keys) { return false; }
      if now >= r.began + cfg.window { return false; }
      if floor != 0 && floor < r.base { return false; }
      var end := r.last + 1;
      if floor != 0 && floor < end { end := floor; }
      var found, ok := RestartFound(r.read, end);
      if !ok { return false; }
      if |found| > cfg.holeBound { return false; }
      var n := CountAboveLocked(end);
      if n > cfg.idBound { return false; }
      SetCursorLocked(end);
      base := r.base;
      FoundPaired(r.read, found);
      NoHoles(Cur());
      PutHolesLocked(found);
      SameIndexes(Cur(), Cur().(above := n));
      above := n;
      return true;
    }

    /** The loop of restartCursorLocked over what the scan read. */
    method RestartFound(read: seq<Scanned>, end: nat) returns (found: seq<Entry>, ok: bool)
      ensures forall e :: e in found ==> e.id != "" && Scanned(e.seqNo, e.id, true) in read
      ensures RestartHoles(delivered, read, end) == if ok then Some(found) else None
    {
      found := [];
      var i := 0;
      assert read[0..] == read;
      ghost var whole := RestartHoles(delivered, read, end);
      assert whole.Some? ==> [] + whole.value == whole.value;
      while i < |read|
        invariant i <= |read|
        invariant RestartHoles(delivered, read, end) ==
                  match RestartHoles(delivered, read[i..], end) case Some(rest) => Some(found + rest) case None => None
        invariant forall e :: e in found ==> e.id != "" && Scanned(e.seqNo, e.id, true) in read
      {
        if read[i].seqNo >= end { break; }
        assert read[i..][1..] == read[i + 1..];
        if read[i].owed && read[i].id !in delivered {
          if read[i].id == "" { return found, false; }
          FoundMore(found, read[i], RestartHoles(delivered, read[i + 1..], end));
          assert read[i] == Scanned(read[i].seqNo, read[i].id, true);
          found := found + [Entry(read[i].seqNo, read[i].id)];
        }
        i := i + 1;
      }
      assert found + [] == found;
      return found, true;
    }

    static lemma FoundMore(found: seq<Entry>, m: Scanned, rest: Option<seq<Entry>>)
      ensures rest.Some? ==>
              found + ([Entry(m.seqNo, m.id)] + rest.value) == found + [Entry(m.seqNo, m.id)] + rest.value
    {
    }

    static lemma FoundPaired(read: seq<Scanned>, found: seq<Entry>)
      requires ReadPaired(read) && forall e :: e in found ==> e.id != "" && Scanned(e.seqNo, e.id, true) in read
      ensures Paired(found)
    {
    }

    method PutHolesLocked(entries: seq<Entry>)
      requires Valid() && Paired(entries) && holes == map[]
      modifies this`holes, this`holeAt
      ensures Valid() && Cur() == PutHoles(old(Cur()), entries)
    {
      hide HoldsOnly, Inverted, Paired;
      ghost var c := Cur();
      HoldsNone(holes, entries);
      var i := 0;
      while i < |entries|
        invariant i <= |entries|
        invariant PutHoles(c, entries) == PutHoles(Cur(), entries[i..])
        invariant Valid() && HoldsOnly(holes, entries, i)
      {
        assert entries[i..][1..] == entries[i + 1..];
        PutPaired(Cur(), entries, i);
        holes, holeAt := holes[entries[i].seqNo := entries[i].id], holeAt[entries[i].id := entries[i].seqNo];
        i := i + 1;
      }
    }

    // ---------------------------------------------------------------- replays and subscriptions

    /** The holes are among the first `n` entries. */
    static ghost predicate HoldsOnly(holes: map<nat, Id>, entries: seq<Entry>, n: nat) {
      n <= |entries| && forall q :: q in holes ==> exists i :: 0 <= i < n && entries[i] == Entry(q, holes[q])
    }

    static lemma NoHoles(c: Cursor)
      requires c.holes == map[] && c.holeAt == map[]
      ensures Inverted(c)
    {
    }

    static lemma SameIndexes(c: Cursor, d: Cursor)
      requires Inverted(c) && c.holes == d.holes && c.holeAt == d.holeAt
      ensures Inverted(d)
    {
    }

    static lemma HoldsNone(holes: map<nat, Id>, entries: seq<Entry>)
      requires holes == map[]
      ensures HoldsOnly(holes, entries, 0)
    {
    }

    /** The next entry becomes a hole, or is passed over. */
    static lemma PutPaired(c: Cursor, entries: seq<Entry>, i: nat)
      requires Inverted(c) && Paired(entries) && i < |entries| && HoldsOnly(c.holes, entries, i)
      ensures Inverted(PutHole(c, entries[i].seqNo, entries[i].id))
      ensures HoldsOnly(PutHole(c, entries[i].seqNo, entries[i].id).holes, entries, i + 1)
      ensures HoldsOnly(c.holes, entries, i + 1)
    {
      assert Entry(entries[i].seqNo, entries[i].id) == entries[i];
    }

    method PinForReplay(seqNo: nat)
      requires Valid()
      modifies this`pin
      ensures Valid() && Value() == Cursors.PinForReplay(old(Value()), seqNo)
    {
      if next == 0 { pin := if seqNo >= 1 then seqNo else 1; }
    }

    /** The since of each subscription in `keys` that has none becomes `last`. */
    method FillSinces(keys: set<nat>, last: nat)
      modifies this`subs
      ensures subs == FillSince(old(subs), keys, last)
    {
      ghost var before := subs;
      var todo := subs.Keys;
      while todo != {}
        invariant todo <= subs.Keys == before.Keys
        invariant forall f :: f in todo ==> subs[f] == before[f]
        invariant forall f :: f in before && f !in todo ==> subs[f] == FillSince(before, keys, last)[f]
        decreases |todo|
      {
        var f :| f in todo;
        if subs[f].key in keys && subs[f].since.None? { subs := subs[f := subs[f].(since := Some(last))]; }
        todo := todo - {f};
      }
    }

    /** replayedTo, on the session's own connection, with `floor` the connection's owedFloor. */
    method ReplayedTo(had: Cursors.View, ok: bool, start: nat, last: nat, floor: nat)
      requires Valid()
      modifies this
      ensures Valid() && Value() == Cursors.ReplayedTo(old(Value()), had, ok, start, last, floor)
    {
      hide FillSince, Keys, CountAbove, SettleHoles;
      var pinned, held := pin, Keys(Value());
      pin := 0;
      FillSinces(held, last);
      var end := last + 1;
      if floor != 0 && floor < end { end := floor; }
      if !ok {
        if next != 0 || pinned == 0 || pinned > start || (floor != 0 && floor < start) { return; }
        SetCursorLocked(end);
        above := CountAboveLocked(end);
        return;
      }
      if next == 0 { return; }
      SettleLocked(had, last);
      if end > next {
        next := end;
        above := CountAboveLocked(end);
      }
    }

    /** Removes the holes the replay passed that are still there, by their ids. */
    method SettleLocked(had: Cursors.View, last: nat)
      requires Valid()
      modifies this`holes, this`holeAt
      ensures Valid() && Cur() == SettleHoles(old(Cur()), had, last)
    {
      hide SettledTo, SettleHoles, Cursors.RemoveHole;
      ghost var c := Cur();
      var todo := had.holes.Keys;
      SettleBegins(c, had, last);
      while todo != {}
        invariant todo <= had.holes.Keys
        invariant SettledTo(c, Cur(), had, last, todo) && Valid()
        decreases |todo|
      {
        var q :| q in todo;
        SettleStep(c, Cur(), had, last, todo, q);
        todo := todo - {q};
        if q <= last && q in holes && holes[q] == had.holes[q] { RemoveHole(had.holes[q]); }
      }
      SettleEnds(c, Cur(), had, last);
    }

    /** The holes of `had` outside `todo` are settled in `d`, which began as `c`. */
    static ghost predicate SettledTo(c: Cursor, d: Cursor, had: Cursors.View, last: nat, todo: set<nat>) {
      && Inverted(d) && d == c.(holes := d.holes, holeAt := d.holeAt)
      && d.holes == map q | q in c.holes && (q in todo || q !in Settled(c, had, last)) :: c.holes[q]
    }

    static lemma SettleBegins(c: Cursor, had: Cursors.View, last: nat)
      requires Inverted(c)
      ensures SettledTo(c, c, had, last, had.holes.Keys)
    {
    }

    static lemma SettleStep(c: Cursor, d: Cursor, had: Cursors.View, last: nat, todo: set<nat>, q: nat)
      requires SettledTo(c, d, had, last, todo) && q in todo && q in had.holes
      ensures var passed := q <= last && q in d.holes && d.holes[q] == had.holes[q];
              SettledTo(c, if passed then Cursors.RemoveHole(d, had.holes[q]) else d, had, last, todo - {q})
    {
      RemoveKeepsInverted(d, had.holes[q]);
    }

    static lemma SettleEnds(c: Cursor, d: Cursor, had: Cursors.View, last: nat)
      requires Inverted(c) && SettledTo(c, d, had, last, {})
      ensures Inverted(d) && d == SettleHoles(c, had, last)
    {
      SettleKeepsInverted(c, had, last);
      SameInverse(d, SettleHoles(c, had, last));
    }

    /** The reverse index is determined by the holes. */
    static lemma SameInverse(c: Cursor, d: Cursor)
      requires Inverted(c) && Inverted(d) && c.holes == d.holes
      ensures c.holeAt == d.holeAt
    {
      assert forall id :: id in c.holeAt ==>
        c.holes[c.holeAt[id]] == id && id in d.holeAt && d.holeAt[id] == c.holeAt[id];
      assert forall id :: id in d.holeAt ==> d.holes[d.holeAt[id]] == id && id in c.holeAt;
    }

    /** setSince, on the session's own connection, with `floor` the connection's owedFloor. */
    method SetSince(keys: set<nat>, last: nat, exact: bool, hadNonShared: bool, floor: nat)
      requires Valid()
      modifies this
      ensures Valid() && Value() == Cursors.SetSince(old(Value()), keys, last, exact, hadNonShared, floor)
    {
      FillSinces(keys, last);
      var known := SinceKnownLocked();
      if exact && next == 0 && !hadNonShared && floor == 0 && known { SetCursorLocked(last + 1); }
    }

    method RestoreCursorLocked(next: nat, stored: seq<Entry>)
      requires Valid() && Paired(stored)
      modifies this
      ensures Valid() && Value() == RestoreCursor(old(Value()), next, stored)
    {
      hide HoldsOnly, Inverted, Paired;
      if next == 0 { return; }
      this.next := next;
      holes, holeAt := map[], map[];
      gen := gen + 1;
      ghost var c := Cur();
      NoHoles(c);
      HoldsNone(holes, stored);
      var i := 0;
      while i < |stored|
        invariant i <= |stored|
        invariant PutHoles(c, UnsentHoles(delivered, next, stored)) ==
                  PutHoles(Cur(), UnsentHoles(delivered, next, stored[i..]))
        invariant Value() == old(Value()).(cur := Cur())
        invariant Valid() && HoldsOnly(holes, stored, i)
      {
        assert stored[i..][1..] == stored[i + 1..];
        ghost var rest := UnsentHoles(delivered, next, stored[i + 1..]);
        PutPaired(Cur(), stored, i);
        if stored[i].seqNo < next && stored[i].id != "" && stored[i].id !in delivered {
          assert ([stored[i]] + rest)[1..] == rest;
          holes, holeAt := holes[stored[i].seqNo := stored[i].id], holeAt[stored[i].id := stored[i].seqNo];
        }
        i := i + 1;
      }
    }
  }

  /** cursorView.start: the lowest sequence a replay from this cursor has to read. */
  method StartOf(v: Cursors.View) returns (start: nat)
    ensures start <= v.next && forall q :: q in v.holes ==> start <= q
    ensures start == v.next || start in v.holes
  {
    start := v.next;
    var todo := v.holes.Keys;
    while todo != {}
      invariant todo <= v.holes.Keys && start <= v.next
      invariant forall q :: q in v.holes && q !in todo ==> start <= q
      invariant start == v.next || start in v.holes
      decreases |todo|
    {
      var q :| q in todo;
      if q < start { start := q; }
      todo := todo - {q};
    }
  }
}
