/**
  The delivered ids a session record carries with a replay cursor (session.go: deliveredSinceLocked,
  splitDelivered, cursorIntoLocked; sessionstore.go: spillDelivered, trimDelivered; restore.go:
  restoreDeliveredSpill). A record that names a cursor has, in its value and its chunks together, every id
  delivered at or above it. Sizes and the hash that ends a chunk are parameters; a chunk's key is its content.
 */
module Records {
  import opened Topics
  import opened Cursors

  type Chunk = seq<Entry>

  /** storedDeliveredBound, spilledDeliveredBound and maxDeliveredChunks. */
  datatype Bounds = Bounds(inline: nat, spilled: nat, chunks: nat)

  // ---------------------------------------------------------------- listing

  ghost predicate Ordered(s: seq<Entry>) { forall i, j :: 0 <= i < j < |s| ==> s[i].seqNo <= s[j].seqNo }

  function Insert(s: seq<Entry>, e: Entry): (r: seq<Entry>)
    ensures multiset(r) == multiset(s) + multiset{e} && |r| == |s| + 1
    decreases |s|
  {
    if s == [] || e.seqNo <= s[0].seqNo then [e] + s
    else
      assert s == [s[0]] + s[1..];
      [s[0]] + Insert(s[1..], e)
  }

  lemma {:induction false} InsertIn(s: seq<Entry>, e: Entry, x: Entry)
    ensures x in Insert(s, e) <==> x in s || x == e
  {
    assert x in Insert(s, e) <==> x in multiset(Insert(s, e));
    assert x in s <==> x in multiset(s);
  }

  lemma {:induction false} InsertOrdered(s: seq<Entry>, e: Entry)
    requires Ordered(s)
    ensures Ordered(Insert(s, e))
    decreases |s|
  {
    if s != [] && e.seqNo > s[0].seqNo {
      InsertOrdered(s[1..], e);
      var rest := Insert(s[1..], e);
      forall x | x in rest ensures s[0].seqNo <= x.seqNo { InsertIn(s[1..], e, x); }
    }
  }

  /** An id the record keeps with a replay from `from`, or from the time `since`. */
  predicate Kept(m: Mark, from: nat, since: nat) { (from != 0 && m.seqNo >= from) || m.at >= since }

  function ListedIds(delivered: map<Id, Mark>, from: nat, since: nat): set<Id> {
    set id | id in delivered && Kept(delivered[id], from, since)
  }

  /** The ids to keep with a replay from `from`, or from the time `since`, lowest sequence first. */
  ghost predicate ListOf(all: seq<Entry>, delivered: map<Id, Mark>, from: nat, since: nat) {
    && Ordered(all) && |all| == |ListedIds(delivered, from, since)|
    && forall e :: e in all <==>
         e.id in delivered && delivered[e.id].seqNo == e.seqNo && Kept(delivered[e.id], from, since)
  }

  /** deliveredSinceLocked. */
  method DeliveredSince(delivered: map<Id, Mark>, fromSeq: nat, next: nat, since: nat) returns (all: seq<Entry>)
    ensures ListOf(all, delivered, LowestSeq(fromSeq, next), since)
  {
    var from := LowestSeq(fromSeq, next);
    all := [];
    var todo := delivered.Keys;
    ghost var done: set<Id> := {};
    while todo != {}
      invariant todo <= delivered.Keys && Ordered(all) && todo !! done
      invariant done == set id | id in delivered && id !in todo && Kept(delivered[id], from, since)
      invariant |all| == |done|
      invariant forall e :: e in all <==>
                  && e.id in delivered && e.id !in todo && delivered[e.id].seqNo == e.seqNo
                  && Kept(delivered[e.id], from, since)
      decreases |todo|
    {
      var id :| id in todo;
      todo := todo - {id};
      if Kept(delivered[id], from, since) {
        var e := Entry(delivered[id].seqNo, id);
        InsertOrdered(all, e);
        forall x ensures x in Insert(all, e) <==> x in all || x == e { InsertIn(all, e, x); }
        all, done := Insert(all, e), done + {id};
      }
    }
    assert done == ListedIds(delivered, from, since);
  }

  function Least(a: nat, b: nat): nat { if a <= b then a else b }

  /** splitDelivered: what the value carries, what goes to chunks, and how many of the highest are left out. */
  function SplitDelivered(all: seq<Entry>, b: Bounds): (r: (seq<Entry>, seq<Entry>, nat))
    ensures r.0 + r.1 <= all && r.2 == |all| - |r.0| - |r.1|
    ensures r.2 == 0 <==> |all| <= b.inline + b.spilled
    ensures |r.0| == Least(|all|, b.inline) && |r.0| + |r.1| == Least(|all|, b.inline + b.spilled)
  {
    if |all| <= b.inline then (all, [], 0)
    else
      var over := all[b.inline..];
      var kept := if |over| > b.spilled then over[..b.spilled] else over;
      assert all == all[..b.inline] + over;
      (all[..b.inline], kept, |over| - |kept|)
  }

  // ---------------------------------------------------------------- chunks

  function Flatten(chunks: seq<Chunk>): Chunk {
    if chunks == [] then [] else Flatten(chunks[..|chunks| - 1]) + chunks[|chunks| - 1]
  }

  /** The chunks that can be read, in order. */
  function Readable(chunks: seq<Chunk>, readable: set<Chunk>): seq<Chunk> {
    if chunks == [] then []
    else
      var last := chunks[|chunks| - 1];
      Readable(chunks[..|chunks| - 1], readable) + if last in readable then [last] else []
  }

  lemma FlattenMore(chunks: seq<Chunk>, c: Chunk)
    ensures Flatten(chunks + [c]) == Flatten(chunks) + c
  {
    assert (chunks + [c])[..|chunks|] == chunks;
  }

  lemma NothingRead(readable: set<Chunk>)
    ensures Readable([], readable) == [] && Flatten([]) == []
  {
  }

  lemma ReadableMore(chunks: seq<Chunk>, c: Chunk, readable: set<Chunk>)
    ensures Readable(chunks + [c], readable) == Readable(chunks, readable) + if c in readable then [c] else []
  {
    assert (chunks + [c])[..|chunks|] == chunks;
  }

  lemma {:induction false} FlattenPrefix(a: seq<Chunk>, b: seq<Chunk>)
    requires a <= b
    ensures Flatten(a) <= Flatten(b)
    decreases |b|
  {
    if a != b {
      FlattenPrefix(a, b[..|b| - 1]);
    }
  }

  /** Every id delivered at or above `cursor` is among `ids`, with its sequence. */
  ghost predicate Carries(ids: seq<Entry>, delivered: map<Id, Mark>, cursor: nat) {
    forall id :: id in delivered && delivered[id].seqNo >= cursor ==> Entry(delivered[id].seqNo, id) in ids
  }

  /** Nothing among `ids` was not delivered. */
  ghost predicate Truthful(ids: seq<Entry>, delivered: map<Id, Mark>) {
    forall e :: e in ids ==> e.id in delivered && delivered[e.id].seqNo == e.seqNo
  }

  /** The bytes of a chunk: brackets, and a separator after each id. */
  function ChunkSize(c: Chunk, size: Entry -> nat): nat {
    if c == [] then 2 else ChunkSize(c[..|c| - 1], size) + size(c[|c| - 1]) + 1
  }

  lemma ChunkMore(over: seq<Entry>, from: nat, i: nat, size: Entry -> nat)
    requires from <= i < |over|
    ensures ChunkSize(over[from..i + 1], size) == ChunkSize(over[from..i], size) + size(over[i]) + 1
  {
    assert over[from..i + 1][..i - from] == over[from..i];
  }

  /** A chunk holds at least one id, fits unless it is only one, and no id but its last ends one. */
  ghost predicate ChunkOK(c: Chunk, chunkMax: nat, size: Entry -> nat, ends: Id -> bool) {
    && c != [] && (|c| == 1 || ChunkSize(c, size) <= chunkMax)
    && forall j :: 0 <= j < |c| - 1 ==> !ends(c[j].id)
  }

  /** A chunk ends before `e` because its last id says so, or because `e` would not fit. */
  ghost predicate EndsBefore(c: Chunk, e: Entry, chunkMax: nat, size: Entry -> nat, ends: Id -> bool) {
    c != [] && (ends(c[|c| - 1].id) || ChunkSize(c, size) + size(e) + 1 > chunkMax)
  }

  /** Every chunk ends where it has to, and nowhere else. */
  ghost predicate WellCut(chunks: seq<Chunk>, rest: seq<Entry>, chunkMax: nat, size: Entry -> nat, ends: Id -> bool) {
    && (forall i :: 0 <= i < |chunks| ==> ChunkOK(chunks[i], chunkMax, size, ends))
    && (forall i :: 0 < i < |chunks| ==> EndsBefore(chunks[i - 1], chunks[i][0], chunkMax, size, ends))
    && (chunks != [] && rest != [] ==> EndsBefore(chunks[|chunks| - 1], rest[0], chunkMax, size, ends))
  }

  lemma CutMore(chunks: seq<Chunk>, c: Chunk, rest: seq<Entry>, chunkMax: nat, size: Entry -> nat, ends: Id -> bool)
    requires WellCut(chunks, c, chunkMax, size, ends) && ChunkOK(c, chunkMax, size, ends)
    requires rest != [] ==> EndsBefore(c, rest[0], chunkMax, size, ends)
    ensures WellCut(chunks + [c], rest, chunkMax, size, ends)
  {
    hide EndsBefore, ChunkSize;
    var more := chunks + [c];
    forall i | 0 < i < |more| ensures EndsBefore(more[i - 1], more[i][0], chunkMax, size, ends) {
      if i < |chunks| { assert more[i] == chunks[i] && more[i - 1] == chunks[i - 1]; }
    }
  }

  lemma CutAfter(chunks: seq<Chunk>, a: seq<Entry>, b: seq<Entry>, chunkMax: nat, size: Entry -> nat, ends: Id -> bool)
    requires WellCut(chunks, a, chunkMax, size, ends) && a != [] && b != [] && a[0] == b[0]
    ensures WellCut(chunks, b, chunkMax, size, ends)
  {
    hide ChunkOK, EndsBefore;
  }

  /** The ids from `from` to `to` are a chunk. */
  lemma CutAt(chunks: seq<Chunk>, over: seq<Entry>, from: nat, to: nat, chunkMax: nat, size: Entry -> nat,
              ends: Id -> bool)
    requires from < to <= |over| && WellCut(chunks, over[from..], chunkMax, size, ends)
    requires to == from + 1 || ChunkSize(over[from..to], size) <= chunkMax
    requires forall j :: from <= j < to - 1 ==> !ends(over[j].id)
    requires to < |over| ==>
             ends(over[to - 1].id) || ChunkSize(over[from..to], size) + size(over[to]) + 1 > chunkMax
    ensures WellCut(chunks + [over[from..to]], over[to..], chunkMax, size, ends)
  {
    hide WellCut, ChunkSize;
    CutAfter(chunks, over[from..], over[from..to], chunkMax, size, ends);
    CutMore(chunks, over[from..to], over[to..], chunkMax, size, ends);
  }

  /** The chunks the ids are cut into: one ends after an id whose hash says so, or before one that would not fit. */
  method Cut(over: seq<Entry>, chunkMax: nat, size: Entry -> nat, ends: Id -> bool) returns (chunks: seq<Chunk>)
    ensures Flatten(chunks) == over && |chunks| <= |over|
    ensures WellCut(chunks, [], chunkMax, size, ends)
  {
    hide Flatten, ChunkSize, WellCut;
    NothingCut(over, chunkMax, size, ends);
    chunks := [];
    var used, from, i := 2, 0, 0;
    assert Flatten([]) == [] && ChunkSize([], size) == 2 by { EmptyChunks(size); }
    while i < |over|
      invariant |chunks| <= from <= i <= |over| && Flatten(chunks) == over[..from]
      invariant used == ChunkSize(over[from..i], size)
      invariant i - from <= 1 || used <= chunkMax
      invariant forall j :: from <= j < i ==> !ends(over[j].id)
      invariant WellCut(chunks, over[from..], chunkMax, size, ends)
    {
      if i > from && used + size(over[i]) + 1 > chunkMax {
        FlattenMore(chunks, over[from..i]);
        assert over[..from] + over[from..i] == over[..i];
        CutAt(chunks, over, from, i, chunkMax, size, ends);
        chunks, from, used := chunks + [over[from..i]], i, 2;
        assert over[i..i] == [];
      }
      ChunkMore(over, from, i, size);
      used := used + size(over[i]) + 1;
      if ends(over[i].id) {
        FlattenMore(chunks, over[from..i + 1]);
        assert over[..from] + over[from..i + 1] == over[..i + 1];
        CutAt(chunks, over, from, i + 1, chunkMax, size, ends);
        chunks, from, used := chunks + [over[from..i + 1]], i + 1, 2;
        assert over[i + 1..i + 1] == [];
      }
      i := i + 1;
    }
    assert over[from..i] == over[from..];
    if from < |over| {
      FlattenMore(chunks, over[from..]);
      CutAt(chunks, over, from, i, chunkMax, size, ends);
      chunks := chunks + [over[from..]];
    }
    assert over[i..] == [] && (from == i ==> over[from..] == []);
    assert over[..from] + over[from..] == over;
  }

  lemma NothingCut(over: seq<Entry>, chunkMax: nat, size: Entry -> nat, ends: Id -> bool)
    ensures WellCut([], over, chunkMax, size, ends) && over[0..] == over
  {
  }

  lemma EmptyChunks(size: Entry -> nat)
    ensures Flatten([]) == [] && ChunkSize([], size) == 2
  {
  }

  /** The bytes of some ids in the value, with a separator after each. */
  function ValueSize(ids: seq<Entry>, size: Entry -> nat): nat {
    if ids == [] then 0 else ValueSize(ids[..|ids| - 1], size) + size(ids[|ids| - 1]) + 1
  }

  /** As many of the ids fit, from the lowest, as leave no room for the next. */
  ghost predicate FillsTo(ids: seq<Entry>, n: nat, budget: nat, size: Entry -> nat) {
    && n <= |ids| && ValueSize(ids[..n], size) <= budget
    && (n < |ids| ==> ValueSize(ids[..n + 1], size) > budget)
  }

  /** How many of the ids fit `budget` bytes of the value. */
  method Fitting(ids: seq<Entry>, budget: nat, size: Entry -> nat) returns (n: nat)
    ensures FillsTo(ids, n, budget, size)
  {
    n := 0;
    var used := 0;
    while n < |ids|
      invariant n <= |ids| && used == ValueSize(ids[..n], size) <= budget
    {
      assert ids[..n + 1][..n] == ids[..n];
      used := used + size(ids[n]) + 1;
      if used > budget { break; }
      n := n + 1;
    }
  }

  /** cursorIntoLocked: the record can carry the cursor and all the ids that go with it. */
  predicate Fits(s: Cursors.Session, fromSeq: nat, since: nat, b: Bounds) {
    && s.cur.base == 0 && SinceKnown(s)
    && |ListedIds(s.delivered, LowestSeq(fromSeq, s.cur.next), since)| <= b.inline + b.spilled
  }

  /** The record, as a write builds it. */
  class SessionRecord {
    var replayCursor: nat
    var replayHoles: seq<Entry>
    var delivered: seq<Entry>
    var deliveredOver: seq<Entry>
    var deliveredSpill: seq<Chunk>

    /** deliveredSinceInto and cursorIntoLocked: a cursor goes in only with every id at or above it. */
    constructor (s: Cursors.Session, fromSeq: nat, since: nat, b: Bounds, stored: seq<Entry>)
      ensures replayCursor == (if Fits(s, fromSeq, since, b) then s.cur.next else 0) && deliveredSpill == []
      ensures exists all :: ListOf(all, s.delivered, LowestSeq(fromSeq, s.cur.next), since)
                            && delivered == all[..Least(|all|, b.inline)]
                            && delivered + deliveredOver == all[..Least(|all|, b.inline + b.spilled)]
      ensures replayCursor == 0 ==> replayHoles == []
      ensures replayCursor != 0 ==>
              Carries(delivered + deliveredOver, s.delivered, replayCursor) && replayHoles == stored
      ensures Truthful(delivered + deliveredOver, s.delivered)
    {
      var all := DeliveredSince(s.delivered, fromSeq, s.cur.next, since);
      var split := SplitDelivered(all, b);
      delivered, deliveredOver, deliveredSpill := split.0, split.1, [];
      if s.cur.next == 0 || s.cur.base != 0 || split.2 > 0 || !SinceKnown(s) {
        replayCursor, replayHoles := 0, [];
      } else {
        replayCursor, replayHoles := s.cur.next, stored;
        assert split.0 + split.1 == all;
      }
    }

    /** What the value and the chunks it names hold. */
    function Ids(): seq<Entry>
      reads this
    {
      delivered + Flatten(deliveredSpill)
    }

    /**
      Names the chunks, writing those not known to be stored; after a failed write, or past the bound, the rest
      are lost.
     */
    method WriteChunks(chunks: seq<Chunk>, b: Bounds, known: set<Chunk>, stored: set<Chunk>, fails: set<nat>)
      returns (lost: nat, after: set<Chunk>)
      requires known <= stored && deliveredSpill == [] && forall i :: 0 <= i < |chunks| ==> chunks[i] != []
      modifies this`deliveredSpill
      ensures deliveredSpill <= chunks && |deliveredSpill| <= b.chunks
      ensures after == stored + AsSet(deliveredSpill)
      ensures forall i :: 0 <= i < |deliveredSpill| ==> chunks[i] in known || i !in fails
      ensures var k := |deliveredSpill|;
              k == |chunks| || k == b.chunks || (chunks[k] !in known && k in fails)
      ensures lost + |Flatten(deliveredSpill)| == |Flatten(chunks)|
      ensures lost == 0 <==> deliveredSpill == chunks
      ensures fails == {} && |chunks| <= b.chunks ==> lost == 0
    {
      hide Writing, Flatten;
      lost, after := 0, stored;
      var failed, i := false, 0;
      WritingBegins(chunks, b, known, stored, fails);
      while i < |chunks|
        invariant i <= |chunks| && Writing(chunks, b, known, stored, fails, deliveredSpill, after, i, failed)
        invariant lost + |Flatten(deliveredSpill)| == |Flatten(chunks[..i])|
        invariant lost == 0 <==> |deliveredSpill| == i
      {
        WritingStep(chunks, b, known, stored, fails, deliveredSpill, after, i, failed);
        assert chunks[..i + 1] == chunks[..i] + [chunks[i]];
        FlattenMore(chunks[..i], chunks[i]);
        FlattenMore(deliveredSpill, chunks[i]);
        if i < b.chunks && !failed {
          if chunks[i] in known {
            deliveredSpill := deliveredSpill + [chunks[i]];
            i := i + 1;
            continue;
          }
          failed := i in fails;
          if !failed {
            deliveredSpill, after := deliveredSpill + [chunks[i]], after + {chunks[i]};
            i := i + 1;
            continue;
          }
        }
        lost := lost + |chunks[i]|;
        i := i + 1;
      }
      WritingEnds(chunks, b, known, stored, fails, deliveredSpill, after, failed);
      assert chunks[..|chunks|] == chunks;
    }

    static function AsSet(chunks: seq<Chunk>): set<Chunk> { set c | c in chunks }

    /** Of the first `i` chunks those in `spill` have been named; after a failed write no more are. */
    static ghost predicate Writing(chunks: seq<Chunk>, b: Bounds, known: set<Chunk>, stored: set<Chunk>,
                                   fails: set<nat>, spill: seq<Chunk>, after: set<Chunk>, i: nat, failed: bool) {
      && i <= |chunks| && spill <= chunks && |spill| <= i && |spill| <= b.chunks && known <= stored
      && after == stored + AsSet(spill)
      && (forall k :: 0 <= k < |spill| ==> chunks[k] in known || k !in fails)
      && if failed then |spill| < i && chunks[|spill|] !in known && |spill| in fails else |spill| == Least(i, b.chunks)
    }

    static lemma WritingBegins(chunks: seq<Chunk>, b: Bounds, known: set<Chunk>, stored: set<Chunk>, fails: set<nat>)
      requires known <= stored
      ensures Writing(chunks, b, known, stored, fails, [], stored, 0, false) && chunks[..0] == []
    {
    }

    static lemma WritingStep(chunks: seq<Chunk>, b: Bounds, known: set<Chunk>, stored: set<Chunk>, fails: set<nat>,
                             spill: seq<Chunk>, after: set<Chunk>, i: nat, failed: bool)
      requires Writing(chunks, b, known, stored, fails, spill, after, i, failed) && i < |chunks|
      ensures |spill| <= i && (i < b.chunks && !failed ==> |spill| == i)
      ensures i < b.chunks && !failed && chunks[i] in known ==>
                Writing(chunks, b, known, stored, fails, spill + [chunks[i]], after, i + 1, false)
      ensures i < b.chunks && !failed && chunks[i] !in known && i !in fails ==>
                Writing(chunks, b, known, stored, fails, spill + [chunks[i]], after + {chunks[i]}, i + 1, false)
      ensures i < b.chunks && !failed && chunks[i] !in known && i in fails ==>
                Writing(chunks, b, known, stored, fails, spill, after, i + 1, true)
      ensures !(i < b.chunks && !failed) ==> Writing(chunks, b, known, stored, fails, spill, after, i + 1, failed)
    {
      if i < b.chunks && !failed {
        assert AsSet(spill + [chunks[i]]) == AsSet(spill) + {chunks[i]};
        assert spill + [chunks[i]] <= chunks;
      }
    }

    static lemma WritingEnds(chunks: seq<Chunk>, b: Bounds, known: set<Chunk>, stored: set<Chunk>, fails: set<nat>,
                             spill: seq<Chunk>, after: set<Chunk>, failed: bool)
      requires Writing(chunks, b, known, stored, fails, spill, after, |chunks|, failed)
      ensures spill <= chunks && |spill| <= b.chunks && after == stored + AsSet(spill)
      ensures forall i :: 0 <= i < |spill| ==> chunks[i] in known || i !in fails
      ensures var k := |spill|;
              k == |chunks| || k == b.chunks || (chunks[k] !in known && k in fails)
      ensures |spill| == |chunks| <==> spill == chunks
    {
    }

    /**
      spillDelivered: the ids the value cannot hold go to chunks. Either all of them are kept, or the record
      carries no cursor.
     */
    method SpillDelivered(limit: nat, chunkMax: nat, b: Bounds, known: set<Chunk>, stored: set<Chunk>, fails: set<nat>,
                          size: Entry -> nat, ends: Id -> bool) returns (lost: nat, after: set<Chunk>)
      requires known <= stored && deliveredSpill == []
      modifies this
      ensures deliveredOver == [] && stored <= after
      ensures forall i :: 0 <= i < |deliveredSpill| ==> deliveredSpill[i] in after
      ensures Ids() <= old(delivered + deliveredOver)
      ensures old(deliveredOver) == [] ==> delivered == old(delivered) && lost == 0 && deliveredSpill == []
      ensures old(deliveredOver) != [] ==>
              FillsTo(old(delivered), |delivered|, limit / 2, size) && delivered == old(delivered)[..|delivered|]
      ensures lost == 0 ==>
              && Ids() == old(delivered + deliveredOver)
              && replayCursor == old(replayCursor) && replayHoles == old(replayHoles)
      ensures lost > 0 ==> replayCursor == 0 && replayHoles == [] && lost + |Ids()| == |old(delivered + deliveredOver)|
      ensures fails == {} && |old(delivered + deliveredOver)| <= b.chunks ==> lost == 0
      ensures |delivered| <= |old(delivered)|
    {
      var over := deliveredOver;
      deliveredOver := [];
      lost, after := 0, stored;
      if over == [] { return; }
      var n := Fitting(delivered, limit / 2, size);
      assert delivered == delivered[..n] + delivered[n..];
      over := delivered[n..] + over;
      delivered := delivered[..n];
      assert delivered + over == old(delivered + deliveredOver);
      var chunks := Cut(over, chunkMax, size, ends);
      lost, after := WriteChunks(chunks, b, known, stored, fails);
      FlattenPrefix(deliveredSpill, chunks);
      PrefixOf(delivered, Flatten(deliveredSpill), over);
      if lost > 0 { replayCursor, replayHoles := 0, []; }
    }

    static lemma PrefixOf(a: seq<Entry>, b: seq<Entry>, c: seq<Entry>)
      requires b <= c
      ensures a + b <= a + c
    {
    }

    /** How many ids are left after the `k`-th cut by an eighth, and at least by one. */
    static function Shrunk(n: nat, k: nat): nat {
      if k == 0 then n
      else
        var m := Shrunk(n, k - 1);
        m - if m / 8 >= 1 then m / 8 else Least(m, 1)
    }

    /** None of the first `k` cuts is enough. */
    static ghost predicate TooMany(all: seq<Entry>, budget: nat, cost: seq<Entry> -> nat, k: nat) {
      forall j :: 0 <= j < k ==> 0 < Shrunk(|all|, j) <= |all| && cost(all[|all| - Shrunk(|all|, j)..]) > budget
    }

    /** The first cut after which the rest fit. */
    static ghost predicate FirstFit(all: seq<Entry>, keep: nat, budget: nat, cost: seq<Entry> -> nat, k: nat) {
      && keep == Shrunk(|all|, k) <= |all| && (keep == 0 || cost(all[|all| - keep..]) <= budget)
      && TooMany(all, budget, cost, k)
    }

    static lemma CutAgain(all: seq<Entry>, budget: nat, cost: seq<Entry> -> nat, keep: nat, k: nat)
      requires TooMany(all, budget, cost, k) && keep == Shrunk(|all|, k) && 0 < keep <= |all|
      requires cost(all[|all| - keep..]) > budget
      ensures TooMany(all, budget, cost, k + 1)
      ensures keep - (if keep / 8 >= 1 then keep / 8 else 1) == Shrunk(|all|, k + 1)
    {
    }

    /** trimDelivered: drops the oldest ids until the rest fit, by an eighth at a time. */
    method TrimDelivered(budget: nat, cost: seq<Entry> -> nat) returns (dropped: nat)
      modifies this`delivered
      ensures dropped <= |old(delivered)| && delivered == old(delivered)[dropped..]
      ensures delivered == [] || cost(delivered) <= budget
      ensures old(delivered) != [] && cost(old(delivered)) <= budget ==> dropped == 0
      ensures exists k :: FirstFit(old(delivered), |delivered|, budget, cost, k)
    {
      hide Shrunk, TooMany;
      var all := delivered;
      dropped := 0;
      ghost var k := 0;
      CutNone(all, budget, cost);
      if all == [] {
        assert FirstFit(all, 0, budget, cost, 0);
        return;
      }
      var keep := |all|;
      assert all[0..] == all;
      while keep > 0
        invariant 0 <= keep <= |all| && keep == Shrunk(|all|, k) && TooMany(all, budget, cost, k)
        invariant cost(all) <= budget ==> keep == |all|
        decreases keep
      {
        delivered := all[|all| - keep..];
        if cost(delivered) <= budget { break; }
        CutAgain(all, budget, cost, keep, k);
        keep, k := keep - if keep / 8 >= 1 then keep / 8 else 1, k + 1;
      }
      delivered := all[|all| - keep..];
      dropped := |all| - keep;
      assert FirstFit(all, |delivered|, budget, cost, k);
    }

    static lemma CutNone(all: seq<Entry>, budget: nat, cost: seq<Entry> -> nat)
      ensures Shrunk(|all|, 0) == |all| && TooMany(all, budget, cost, 0)
    {
    }

    /** spillRecordReusing, as far as the delivered ids go: a record that drops one carries no cursor. */
    method TrimForValue(limit: nat, cost: seq<Entry> -> nat)
      modifies this
      ensures deliveredSpill == old(deliveredSpill)
      ensures old(delivered) == [] || cost(old(delivered)) <= limit / 2 ==> replayCursor == old(replayCursor)
      ensures replayCursor == 0
              || (replayCursor == old(replayCursor) && replayHoles == old(replayHoles) && delivered == old(delivered))
      ensures exists k :: FirstFit(old(delivered), |delivered|, limit / 2, cost, k)
      ensures |delivered| <= |old(delivered)| && delivered == old(delivered)[|old(delivered)| - |delivered|..]
      ensures delivered == old(delivered) ==> replayCursor == old(replayCursor) && replayHoles == old(replayHoles)
    {
      var n := TrimDelivered(limit / 2, cost);
      if n > 0 { replayCursor, replayHoles := 0, []; }
    }

    /**
      restoreDeliveredSpill: the ids of the value and of the chunks that can be read; one that cannot be costs the
      cursor.
     */
    method Restore(readable: set<Chunk>) returns (cursor: nat, holes: seq<Entry>, ids: seq<Entry>)
      ensures var all := forall i :: 0 <= i < |deliveredSpill| ==> deliveredSpill[i] in readable;
              && (all ==> cursor == replayCursor && holes == replayHoles && ids == Ids())
              && (!all ==> cursor == 0 && holes == [])
      ensures ids == delivered + Flatten(Readable(deliveredSpill, readable))
    {
      hide Flatten, Readable;
      var loaded: seq<Entry>, unreadable, i := [], 0, 0;
      assert deliveredSpill[..0] == [];
      NothingRead(readable);
      while i < |deliveredSpill|
        invariant i <= |deliveredSpill| && loaded == Flatten(Readable(deliveredSpill[..i], readable))
        invariant unreadable == 0 ==> loaded == Flatten(deliveredSpill[..i])
        invariant (forall k :: 0 <= k < i ==> deliveredSpill[k] in readable) <==> unreadable == 0
      {
        assert deliveredSpill[..i + 1] == deliveredSpill[..i] + [deliveredSpill[i]];
        FlattenMore(deliveredSpill[..i], deliveredSpill[i]);
        FlattenMore(Readable(deliveredSpill[..i], readable), deliveredSpill[i]);
        ReadableMore(deliveredSpill[..i], deliveredSpill[i], readable);
        assert Readable(deliveredSpill[..i], readable) + [] == Readable(deliveredSpill[..i], readable);
        if deliveredSpill[i] in readable {
          loaded := loaded + deliveredSpill[i];
        } else {
          unreadable := unreadable + 1;
        }
        i := i + 1;
      }
      assert deliveredSpill[..|deliveredSpill|] == deliveredSpill;
      ids := delivered + loaded;
      if unreadable > 0 { cursor, holes := 0, []; } else { cursor, holes := replayCursor, replayHoles; }
    }
  }

  /**
    From a session to its record and back: through the split, the chunks, failed writes, the trim and damaged
    chunks, what is restored with a cursor has every id that was delivered at or above it. The cursor comes back
    when the record can carry it and nothing is lost on the way: every write succeeds, the ids need no more
    chunks than there may be, the value has room for what it keeps, and every chunk is read.
   */
  method SaveAndRestore(s: Cursors.Session, fromSeq: nat, since: nat, b: Bounds, stored: seq<Entry>, limit: nat,
                        chunkMax: nat, known: set<Chunk>, bucket: set<Chunk>, fails: set<nat>, damaged: set<Chunk>,
                        size: Entry -> nat, ends: Id -> bool, cost: seq<Entry> -> nat)
    returns (cursor: nat, holes: seq<Entry>, ids: seq<Entry>)
    requires known <= bucket
    ensures cursor in {0, s.cur.next} && (!Fits(s, fromSeq, since, b) ==> cursor == 0)
    ensures cursor != 0 ==> Carries(ids, s.delivered, cursor) && Truthful(ids, s.delivered) && holes == stored
    ensures var n := |ListedIds(s.delivered, LowestSeq(fromSeq, s.cur.next), since)|;
            (&& Fits(s, fromSeq, since, b) && fails == {} && damaged == {} && n <= b.chunks
             && forall kept :: |kept| <= n ==> cost(kept) <= limit / 2) ==> cursor == s.cur.next
  {
    var rec := new SessionRecord(s, fromSeq, since, b, stored);
    var lost, after := rec.SpillDelivered(limit, chunkMax, b, known, bucket, fails, size, ends);
    rec.TrimForValue(limit, cost);
    cursor, holes, ids := rec.Restore(after - damaged);
  }

  // ---------------------------------------------------------------- the restored session

  /** markAwayRestored: the cursor first, then the ids. */
  function RestoreIds(delivered: map<Id, Mark>, ids: seq<Entry>, now: nat): map<Id, Mark>
    decreases |ids|
  {
    if ids == [] then delivered else RestoreIds(delivered[ids[0].id := Mark(now, ids[0].seqNo)], ids[1..], now)
  }

  lemma {:induction false} RestoredIds(delivered: map<Id, Mark>, ids: seq<Entry>, now: nat, id: Id)
    requires forall i, j :: 0 <= i < |ids| && 0 <= j < |ids| && ids[i].id == ids[j].id ==> ids[i] == ids[j]
    ensures id in RestoreIds(delivered, ids, now) <==> id in delivered || exists i :: 0 <= i < |ids| && ids[i].id == id
    ensures forall i :: 0 <= i < |ids| && ids[i].id == id ==>
            RestoreIds(delivered, ids, now)[id] == Mark(now, ids[i].seqNo)
    ensures id in delivered && (forall i :: 0 <= i < |ids| ==> ids[i].id != id) ==>
            RestoreIds(delivered, ids, now)[id] == delivered[id]
    decreases |ids|
  {
    if ids != [] {
      RestoredIds(delivered[ids[0].id := Mark(now, ids[0].seqNo)], ids[1..], now, id);
      assert forall i :: 0 < i < |ids| ==> ids[i] == ids[1..][i - 1];
      assert ids[0].id == id && (exists i :: 0 < i < |ids| && ids[i].id == id) ==>
        exists i :: 0 <= i < |ids[1..]| && ids[1..][i].id == id && ids[1..][i] == ids[0];
    }
  }

  /** A restored session knows, with its sequence, every message sent at or above the restored cursor. */
  lemma RestoredKnows(was: map<Id, Mark>, inflight: map<Id, Mark>, ids: seq<Entry>, cursor: nat, now: nat, id: Id)
    requires Carries(ids, was, cursor) && Truthful(ids, was) && id in was && was[id].seqNo >= cursor
    ensures id in RestoreIds(inflight, ids, now) && RestoreIds(inflight, ids, now)[id].seqNo == was[id].seqNo
  {
    forall i, j | 0 <= i < |ids| && 0 <= j < |ids| && ids[i].id == ids[j].id ensures ids[i] == ids[j] {
      assert ids[i] in ids && ids[j] in ids;
    }
    RestoredIds(inflight, ids, now, id);
    var i :| 0 <= i < |ids| && ids[i] == Entry(was[id].seqNo, id);
  }
}
