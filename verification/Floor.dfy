/**
  What a connection holds, and the reader that must not miss it (catchup.go, checkpoint.go, subscribe.go,
  cursor.go). Live copies are placed by a dispatcher, moved and sent by the delivery goroutine, and read by a
  scan in the order waiting, in hand, turned away, stream position. Every step of the three is one atomic
  action, and they interleave freely.
 */
module Floor {
  import opened Cursors

  /** A live copy of the queued message at `seqNo` (0 when it has none); `tag` tells copies of one message apart. */
  datatype Copy = Copy(seqNo: nat, tag: nat)

  /** Where the delivery goroutine is. */
  datatype Pc =
    | Idle
    | Burst(rest: seq<Copy>)
    | Handed(d: Copy, rest: seq<Copy>)
    | Preparing(d: Copy, rest: seq<Copy>)
    | Reading
    | Passed(q: nat)
    | Retried

  /** Where the dispatcher is; it holds catchMu unless it is out. */
  datatype Placer = Out | Added(copy: Copy) | Turning(copy: Copy)

  /** Where a scan is; it holds cursorMu unless it is away, and catchMu after it has read fromSeq. */
  datatype Reader =
    | Away
    | Locked(start: nat, end: nat)
    | GotPending(start: nat, end: nat, f: nat)
    | GotHand(start: nat, end: nat, f: nat)
    | GotFrom(start: nat, end: nat, f: nat)
    | GotAll(start: nat, end: nat, f: nat)

  /**
    The connection and the cursor. `pending`, `inHand`, `fromSeq`, `streamNext` and `behind` are the fields the
    code keeps; `turned` and `round` are the copies fromSeq and streamNext stand for, `unnoted` those placed and
    not yet handed to noteLiveCopy.
   */
  datatype State = State(pending: multiset<nat>, inHand: nat, fromSeq: nat, streamNext: nat, behind: bool,
                         queue: seq<Copy>, turned: set<Copy>, round: set<Copy>, unnoted: set<Copy>, nextTag: nat,
                         pc: Pc, placer: Placer, reader: Reader,
                         next: nat, holes: set<nat>, delivered: set<nat>)

  // ---------------------------------------------------------------- the counted set

  /** The sequences of some copies, each as often as it occurs; 0 is not counted. */
  function SeqsOf(list: seq<Copy>): multiset<nat> {
    if list == [] then multiset{}
    else (if list[0].seqNo == 0 then multiset{} else multiset{list[0].seqNo}) + SeqsOf(list[1..])
  }

  function One(q: nat): multiset<nat> { if q == 0 then multiset{} else multiset{q} }

  lemma {:induction false} SeqsOfAppend(a: seq<Copy>, b: seq<Copy>)
    ensures SeqsOf(a + b) == SeqsOf(a) + SeqsOf(b)
    decreases |a|
  {
    if a == [] {
      assert a + b == b;
    } else {
      assert (a + b)[1..] == a[1..] + b;
      SeqsOfAppend(a[1..], b);
    }
  }

  lemma {:induction false} SeqsOfIn(list: seq<Copy>, c: Copy)
    requires c in list && c.seqNo != 0
    ensures c.seqNo in SeqsOf(list)
    decreases |list|
  {
    if list[0] != c { SeqsOfIn(list[1..], c); }
  }

  lemma {:induction false} SeqsOfPositive(list: seq<Copy>)
    ensures 0 !in SeqsOf(list)
    decreases |list|
  {
    if list != [] { SeqsOfPositive(list[1..]); }
  }

  /** What seqSet.min returns. */
  ghost predicate IsMin(m: multiset<nat>, low: nat) {
    if m == multiset{} then low == 0 else low in m && forall q :: q in m ==> low <= q
  }

  /** seqSet: queue sequences, each counted. */
  class SeqSet {
    var n: map<nat, nat>
    /** The multiset the counts stand for. */
    ghost var contents: multiset<nat>

    ghost predicate Valid()
      reads this
    {
      && 0 !in n && (forall q :: q in n ==> n[q] > 0)
      && forall q :: contents[q] == if q in n then n[q] else 0
    }

    constructor ()
      ensures Valid() && contents == multiset{}
    {
      n, contents := map[], multiset{};
    }

    method Add(q: nat)
      requires Valid()
      modifies this
      ensures Valid() && contents == old(contents) + One(q)
    {
      if q == 0 { return; }
      n := n[q := (if q in n then n[q] else 0) + 1];
      contents := contents + One(q);
    }

    method Remove(q: nat)
      requires Valid()
      modifies this
      ensures Valid() && contents == old(contents) - One(q)
    {
      if q == 0 { return; }
      contents := contents - One(q);
      if q !in n || n[q] <= 1 {
        n := n - {q};
        return;
      }
      n := n[q := n[q] - 1];
    }

    method Min() returns (lowest: nat)
      requires Valid()
      ensures IsMin(contents, lowest)
    {
      lowest := 0;
      var todo := n.Keys;
      while todo != {}
        invariant todo <= n.Keys
        invariant lowest == 0 <==> todo == n.Keys
        invariant lowest != 0 ==> lowest in n && forall q :: q in n && q !in todo ==> lowest <= q
        decreases |todo|
      {
        var q :| q in todo;
        assert contents[q] > 0;
        if lowest == 0 || q < lowest { lowest := q; }
        todo := todo - {q};
      }
      assert forall q :: q in contents <==> q in n;
      if contents != multiset{} {
        var q :| q in contents;
      }
    }
  }

  // ---------------------------------------------------------------- what is held

  function Rest(pc: Pc): seq<Copy> {
    match pc
    case Burst(rest) => rest
    case Handed(d, rest) => [d] + rest
    case Preparing(d, rest) => rest
    case _ => []
  }

  /** The copies counted as waiting: in the channel, or taken from it and not yet in hand. */
  function Waiting(s: State): seq<Copy> { s.queue + Rest(s.pc) }

  predicate InHand(s: State, c: Copy) { s.pc.Preparing? && c == s.pc.d }

  /** Accepted, and neither prepared nor skipped. */
  predicate Held(s: State, c: Copy) { c in Waiting(s) || InHand(s, c) || c in s.turned || c in s.round }

  /** Held, of a queued message, and handed to noteLiveCopy. */
  predicate Known(s: State, c: Copy) { Held(s, c) && c !in s.unnoted && c.seqNo != 0 }

  predicate Covers(f: nat, c: Copy) { f != 0 && f <= c.seqNo }

  predicate CatchFree(s: State) { s.placer.Out? && !s.reader.GotFrom? }

  // ---------------------------------------------------------------- invariants

  ghost predicate Counted(s: State) { CountedAs(s.pending, Waiting(s), s.placer) }

  ghost predicate CountedAs(pending: multiset<nat>, waiting: seq<Copy>, placer: Placer) {
    pending == SeqsOf(waiting) + (if placer.Added? then One(placer.copy.seqNo) else multiset{})
  }

  ghost predicate HandOK(s: State) { s.pc.Handed? || s.pc.Preparing? ==> s.inHand == s.pc.d.seqNo }

  ghost predicate TurnedOK(s: State) {
    && (forall c :: c in s.turned ==> Covers(s.fromSeq, c))
    && (s.placer.Turning? || s.placer.Added? ==> s.placer.copy.seqNo != 0 && !s.reader.GotFrom?)
  }

  ghost predicate RoundOK(s: State) {
    && (forall c :: c in s.round ==> Covers(s.streamNext, c))
    && (s.pc.Passed? ==> forall c :: c in s.round ==> c.seqNo > s.pc.q)
    && (s.pc.Reading? || s.pc.Passed? || s.round == {})
    && (s.pc.Reading? || s.pc.Passed? ==> s.streamNext != 0)
  }

  /** A copy that noteLiveCopy has seen is at or above next, or a hole, or of a message that was delivered. */
  ghost predicate CursorOK(s: State) {
    s.next != 0 ==> forall c :: Known(s, c) ==> c.seqNo >= s.next || c.seqNo in s.holes || c.seqNo in s.delivered
  }

  /** What a reader has not covered is not where it has already looked. */
  ghost predicate ReaderOK(s: State) {
    match s.reader
    case GotPending(_, _, f) => forall c :: Known(s, c) ==> Covers(f, c) || c !in Waiting(s)
    case GotHand(_, _, f) => forall c :: Known(s, c) ==> Covers(f, c) || (c !in Waiting(s) && !InHand(s, c))
    case GotFrom(_, _, f) => forall c :: Known(s, c) ==>
      Covers(f, c) || (c !in Waiting(s) && !InHand(s, c) && c !in s.turned)
    case GotAll(_, _, f) => forall c :: Known(s, c) ==> Covers(f, c)
    case _ => true
  }

  ghost predicate Inv(s: State) {
    Counted(s) && HandOK(s) && TurnedOK(s) && RoundOK(s) && CursorOK(s) && ReaderOK(s)
  }

  // ---------------------------------------------------------------- steps

  datatype Step =
    // the dispatcher: placeQueued, then noteLiveCopy
    | Place(copy: Copy) | Enqueue | Full | Owe | Note(copy: Copy) | EnqueuePlain(copy: Copy)
    // the delivery goroutine: deliverBurst, skipDelivery, deliverTracked
    | Take | SkipOne | Hand | Unwait | Prepare(sent: bool) | ClearHand
    // the delivery goroutine: catchUp, retryAfterDrop
    | TakeRound | Settle(q: nat, sent: bool) | Advance | EndRound | Retry | RetryClear
    // the stream: a message turned away ages out, and no round can send it
    | Age(q: nat)
    // a scan: applyScan with owedFloor
    | Lock(start: nat, end: nat) | ReadPending(f: nat) | ReadHand | ReadFrom | ReadStream | Apply(found: set<nat>)
    | DropNext

  /** noteOwedLocked. */
  function NoteOwed(fromSeq: nat, q: nat): nat { if fromSeq == 0 || q < fromSeq then q else fromSeq }

  ghost predicate Can(s: State, step: Step) {
    match step
    case Place(copy) => CatchFree(s) && copy.tag == s.nextTag && copy.seqNo != 0
    case Enqueue => s.placer.Added?
    case Full => s.placer.Added?
    case Owe => s.placer.Turning?
    case Note(copy) => copy in s.unnoted && s.reader.Away?
    case EnqueuePlain(copy) => copy == Copy(0, s.nextTag)
    case Take => (s.pc.Idle? || s.pc.Burst?) && s.queue != []
    case SkipOne => (s.pc.Idle? || s.pc.Burst?) && s.queue != []
    case Hand => s.pc.Burst? && s.pc.rest != []
    case Unwait => s.pc.Handed?
    case Prepare(_) => s.pc.Preparing?
    case ClearHand => s.pc.Burst? && s.pc.rest == []
    case TakeRound => s.pc.Idle? && CatchFree(s)
    // A read is in stream order and takes everything a subscription matches.
    case Settle(q, _) => s.pc.Reading? && q >= s.streamNext && forall c :: c in s.round ==> c.seqNo >= q
    case Advance => s.pc.Passed?
    case EndRound => s.pc.Reading? && s.round == {}
    case Retry => s.pc.Reading? && CatchFree(s)
    case RetryClear => s.pc.Retried?
    case Age(q) => true
    case Lock(start, end) => s.reader.Away? && start <= end
    case ReadPending(f) => s.reader.Locked? && IsMin(s.pending, f)
    case ReadHand => s.reader.GotPending?
    case ReadFrom => s.reader.GotHand? && CatchFree(s)
    case ReadStream => s.reader.GotFrom?
    case Apply(_) => s.reader.GotAll?
    case DropNext => true
  }

  function Sent(s: State, q: nat, sent: bool): State {
    if sent && q != 0 then s.(delivered := s.delivered + {q}, holes := s.holes - {q}) else s
  }

  function Without(copies: set<Copy>, q: nat): set<Copy> { set c | c in copies && c.seqNo != q }

  /** The end a scan moves to: not past the floor, and not back. */
  function MovedTo(start: nat, end: nat, floor: nat): nat {
    if floor != 0 && floor < end then if floor >= start then floor else start else end
  }

  function Do(s: State, step: Step): State
    requires Can(s, step)
  {
    match step
    case Place(copy) =>
      var t := s.(nextTag := s.nextTag + 1);
      if s.behind then t.(placer := Turning(copy))
      else t.(pending := s.pending + One(copy.seqNo), placer := Added(copy))
    case Enqueue => s.(queue := s.queue + [s.placer.copy], unnoted := s.unnoted + {s.placer.copy}, placer := Out)
    case Full => s.(pending := s.pending - One(s.placer.copy.seqNo), behind := true, placer := Turning(s.placer.copy))
    case Owe =>
      var c := s.placer.copy;
      s.(fromSeq := NoteOwed(s.fromSeq, c.seqNo), turned := s.turned + {c}, unnoted := s.unnoted + {c}, placer := Out)
    case Note(copy) =>
      var q := copy.seqNo;
      s.(unnoted := s.unnoted - {copy},
         holes := if q != 0 && s.next != 0 && q < s.next && q !in s.delivered then s.holes + {q} else s.holes)
    case EnqueuePlain(copy) => s.(queue := s.queue + [copy], nextTag := s.nextTag + 1)
    case Take => s.(queue := s.queue[1..], pc := Burst(Rest(s.pc) + [s.queue[0]]))
    case SkipOne => s.(queue := s.queue[1..], pending := s.pending - One(s.queue[0].seqNo))
    case Hand => s.(inHand := s.pc.rest[0].seqNo, pc := Handed(s.pc.rest[0], s.pc.rest[1..]))
    case Unwait => s.(pending := s.pending - One(s.pc.d.seqNo), pc := Preparing(s.pc.d, s.pc.rest))
    case Prepare(sent) => Sent(s, s.pc.d.seqNo, sent).(pc := Burst(s.pc.rest))
    case ClearHand => s.(inHand := 0, pc := Idle)
    case TakeRound =>
      if s.fromSeq == 0 then s.(behind := false)
      else s.(fromSeq := 0, streamNext := s.fromSeq, round := s.round + s.turned, turned := {}, pc := Reading)
    case Settle(q, sent) =>
      var t := Sent(s, q, sent);
      t.(round := Without(s.round, q), turned := if sent then Without(s.turned, q) else s.turned, pc := Passed(q))
    case Advance => s.(streamNext := s.pc.q + 1, pc := Reading)
    case EndRound => s.(streamNext := 0, pc := Idle)
    case Retry =>
      s.(fromSeq := NoteOwed(s.fromSeq, s.streamNext), turned := s.turned + s.round, round := {}, pc := Retried)
    case RetryClear => s.(streamNext := 0, pc := Idle)
    case Age(q) => s.(round := Without(s.round, q), turned := Without(s.turned, q))
    case Lock(start, end) => s.(reader := Locked(start, end))
    case ReadPending(f) => s.(reader := GotPending(s.reader.start, s.reader.end, f))
    case ReadHand => s.(reader := GotHand(s.reader.start, s.reader.end, LowestSeq(s.reader.f, s.inHand)))
    case ReadFrom => s.(reader := GotFrom(s.reader.start, s.reader.end, LowestSeq(s.reader.f, s.fromSeq)))
    case ReadStream => s.(reader := GotAll(s.reader.start, s.reader.end, LowestSeq(s.reader.f, s.streamNext)))
    case Apply(found) =>
      var r := s.reader;
      if s.next == 0 || s.next != r.start then s.(reader := Away)
      else s.(next := MovedTo(r.start, r.end, r.f), holes := s.holes + found, reader := Away)
    case DropNext => s.(next := 0, holes := {})
  }

  // ---------------------------------------------------------------- every step keeps the invariants

  /** Nothing known appears, and none goes back to where a reader has already looked. */
  ghost predicate Forward(s: State, t: State) {
    && (forall c :: Known(t, c) ==> Known(s, c))
    && (forall c :: Known(t, c) && c in Waiting(t) ==> c in Waiting(s))
    && (forall c :: Known(t, c) && InHand(t, c) ==> c in Waiting(s) || InHand(s, c))
    && (s.reader.GotFrom? ==> forall c :: Known(t, c) && c in t.turned ==> c in s.turned)
  }

  lemma ForwardKeepsReader(s: State, t: State)
    requires ReaderOK(s) && Forward(s, t) && t.reader == s.reader
    ensures ReaderOK(t)
  {
    hide Known, Covers, InHand, Waiting;
  }

  lemma ForwardKeepsCursor(s: State, t: State)
    requires CursorOK(s) && Forward(s, t) && t.next == s.next && s.holes <= t.holes + t.delivered
    requires s.delivered <= t.delivered
    ensures CursorOK(t)
  {
    hide Known;
  }

  /** Steps that move only the waiting copies: W is what waits after the step. */
  lemma WaitingForward(s: State, t: State)
    requires t.turned == s.turned && t.round == s.round && t.reader == s.reader && s.unnoted <= t.unnoted
    requires forall c :: c in Waiting(t) ==> c in Waiting(s) || c in t.unnoted || c.seqNo == 0
    requires forall c :: InHand(t, c) ==> c in Waiting(s) || InHand(s, c)
    ensures Forward(s, t)
  {
    hide Waiting, InHand;
  }

  lemma SeqsOfOne(c: Copy)
    ensures SeqsOf([c]) == One(c.seqNo)
  {
    assert [c][1..] == [];
  }

  lemma EnqueueCounts(queue: seq<Copy>, c: Copy, rest: seq<Copy>)
    ensures SeqsOf(queue + [c] + rest) == SeqsOf(queue + rest) + One(c.seqNo)
  {
    SeqsOfAppend(queue + [c], rest);
    SeqsOfAppend(queue, [c]);
    SeqsOfAppend(queue, rest);
    SeqsOfOne(c);
  }

  lemma TakeCounts(queue: seq<Copy>, rest: seq<Copy>)
    requires queue != []
    ensures SeqsOf(queue[1..] + (rest + [queue[0]])) == SeqsOf(queue + rest)
    ensures SeqsOf(queue[1..] + rest) == SeqsOf(queue + rest) - One(queue[0].seqNo)
    ensures One(queue[0].seqNo) <= SeqsOf(queue + rest)
  {
    SeqsOfAppend(queue[1..], rest + [queue[0]]);
    SeqsOfAppend(rest, [queue[0]]);
    SeqsOfAppend(queue, rest);
    SeqsOfAppend(queue[1..], rest);
    SeqsOfOne(queue[0]);
  }

  lemma HandCounts(queue: seq<Copy>, d: Copy, rest: seq<Copy>)
    ensures SeqsOf(queue + rest) == SeqsOf(queue + ([d] + rest)) - One(d.seqNo)
    ensures One(d.seqNo) <= SeqsOf(queue + ([d] + rest))
  {
    SeqsOfAppend(queue, [d] + rest);
    SeqsOfAppend([d], rest);
    SeqsOfAppend(queue, rest);
    SeqsOfOne(d);
  }

  /** What a step that only moves waiting copies has to show. */
  lemma MovesKeep(s: State, t: State)
    requires Inv(s) && Counted(t) && HandOK(t) && TurnedOK(t) && RoundOK(t)
    requires t.turned == s.turned && t.round == s.round && t.reader == s.reader && s.unnoted <= t.unnoted
    requires t.next == s.next && s.holes <= t.holes + t.delivered && s.delivered <= t.delivered
    requires forall c :: c in Waiting(t) ==> c in Waiting(s) || c in t.unnoted || c.seqNo == 0
    requires forall c :: InHand(t, c) ==> c in Waiting(s) || InHand(s, c)
    ensures Inv(t)
  {
    hide CursorOK, ReaderOK, Forward, Waiting, InHand, Counted, HandOK, TurnedOK, RoundOK;
    WaitingForward(s, t);
    ForwardKeepsReader(s, t);
    ForwardKeepsCursor(s, t);
  }

  lemma KeepPlacing(s: State, step: Step)
    requires Inv(s) && Can(s, step) && (step.Place? || step.Full?)
    ensures Inv(Do(s, step))
  {
    hide CursorOK, ReaderOK, SeqsOf, Waiting;
    var t := Do(s, step);
    SameWaiting(s, t);
    MovesKeep(s, t);
  }

  lemma KeepEnqueue(s: State, step: Step)
    requires Inv(s) && Can(s, step) && (step.Enqueue? || step.EnqueuePlain?)
    ensures Inv(Do(s, step))
  {
    hide CursorOK, ReaderOK, SeqsOf;
    var t := Do(s, step);
    EnqueueCounts(s.queue, if step.Enqueue? then s.placer.copy else step.copy, Rest(s.pc));
    MovesKeep(s, t);
  }

  lemma KeepOwe(s: State, step: Step)
    requires Inv(s) && Can(s, step) && step.Owe?
    ensures Inv(Do(s, step))
  {
    hide CursorOK, ReaderOK, Forward;
    var t := Do(s, step);
    assert Forward(s, t) by { OweForward(s, step); }
    ForwardKeepsReader(s, t);
    ForwardKeepsCursor(s, t);
  }

  lemma OweForward(s: State, step: Step)
    requires Can(s, step) && step.Owe?
    ensures Forward(s, Do(s, step))
  {
    hide Waiting;
    assert Waiting(Do(s, step)) == Waiting(s) by { SameWaiting(s, Do(s, step)); }
  }

  lemma SameWaiting(s: State, t: State)
    requires s.queue == t.queue && Rest(s.pc) == Rest(t.pc)
    ensures Waiting(s) == Waiting(t)
  {
  }

  lemma KeepNote(s: State, step: Step)
    requires Inv(s) && Can(s, step) && step.Note?
    ensures Inv(Do(s, step))
  {
    hide Waiting, SeqsOf;
    SameWaiting(s, Do(s, step));
  }

  /** A copy stops waiting. */
  lemma CountLess(pending: multiset<nat>, waiting: seq<Copy>, fewer: seq<Copy>, placer: Placer, q: nat)
    requires CountedAs(pending, waiting, placer) && SeqsOf(fewer) == SeqsOf(waiting) - One(q)
    requires One(q) <= SeqsOf(waiting)
    ensures CountedAs(pending - One(q), fewer, placer)
  {
    hide SeqsOf;
  }

  lemma KeepTake(s: State, step: Step)
    requires Inv(s) && Can(s, step) && step.Take?
    ensures Inv(Do(s, step))
  {
    hide CursorOK, ReaderOK, SeqsOf;
    TakeCounts(s.queue, Rest(s.pc));
    MovesKeep(s, Do(s, step));
  }

  lemma KeepSkip(s: State, step: Step)
    requires Inv(s) && Can(s, step) && step.SkipOne?
    ensures Inv(Do(s, step))
  {
    hide CursorOK, ReaderOK, SeqsOf, CountedAs;
    TakeCounts(s.queue, Rest(s.pc));
    CountLess(s.pending, Waiting(s), s.queue[1..] + Rest(s.pc), s.placer, s.queue[0].seqNo);
    MovesKeep(s, Do(s, step));
  }

  lemma KeepHand(s: State, step: Step)
    requires Inv(s) && Can(s, step) && step.Hand?
    ensures Inv(Do(s, step))
  {
    hide CursorOK, ReaderOK, SeqsOf, CountedAs, Waiting;
    assert [s.pc.rest[0]] + s.pc.rest[1..] == s.pc.rest;
    SameWaiting(s, Do(s, step));
    MovesKeep(s, Do(s, step));
  }

  lemma UnwaitParts(s: State, t: State)
    requires s.pc.Handed? && t.queue == s.queue && t.pc == Preparing(s.pc.d, s.pc.rest)
    ensures Waiting(s) == s.queue + ([s.pc.d] + s.pc.rest) && Waiting(t) == s.queue + s.pc.rest
    ensures s.pc.d in Waiting(s) && forall c :: c in Waiting(t) ==> c in Waiting(s)
  {
    assert ([s.pc.d] + s.pc.rest)[0] == s.pc.d;
  }

  lemma KeepUnwait(s: State, step: Step)
    requires Inv(s) && Can(s, step) && step.Unwait?
    ensures Inv(Do(s, step))
  {
    hide CursorOK, ReaderOK, SeqsOf, CountedAs, Waiting;
    UnwaitParts(s, Do(s, step));
    HandCounts(s.queue, s.pc.d, s.pc.rest);
    CountLess(s.pending, Waiting(s), s.queue + s.pc.rest, s.placer, s.pc.d.seqNo);
    MovesKeep(s, Do(s, step));
  }

  lemma KeepPrepare(s: State, step: Step)
    requires Inv(s) && Can(s, step) && (step.Prepare? || step.ClearHand?)
    ensures Inv(Do(s, step))
  {
    hide CursorOK, ReaderOK, SeqsOf, CountedAs, Waiting;
    SameWaiting(s, Do(s, step));
    MovesKeep(s, Do(s, step));
  }

  lemma KeepRounds(s: State, step: Step)
    requires Inv(s) && Can(s, step)
    requires step.TakeRound? || step.Settle? || step.Advance? || step.EndRound? || step.Retry? || step.RetryClear?
             || step.Age?
    ensures Inv(Do(s, step))
  {
    hide CursorOK, ReaderOK, Forward, Waiting, CountedAs;
    var t := Do(s, step);
    SameWaiting(s, t);
    assert Forward(s, t) by { RoundForward(s, step); }
    ForwardKeepsReader(s, t);
    ForwardKeepsCursor(s, t);
  }

  lemma RoundForward(s: State, step: Step)
    requires Can(s, step)
    requires step.TakeRound? || step.Settle? || step.Advance? || step.EndRound? || step.Retry? || step.RetryClear?
             || step.Age?
    ensures Forward(s, Do(s, step))
  {
    hide Waiting;
    SameWaiting(s, Do(s, step));
  }

  lemma MinCovers(s: State, f: nat, c: Copy)
    requires Counted(s) && TurnedOK(s) && IsMin(s.pending, f) && c in Waiting(s) && c.seqNo != 0
    ensures Covers(f, c)
  {
    hide Waiting;
    SeqsOfIn(Waiting(s), c);
    SeqsOfPositive(Waiting(s));
    assert c.seqNo in s.pending;
  }

  lemma KeepReading(s: State, step: Step)
    requires Inv(s) && Can(s, step)
    requires step.Lock? || step.ReadPending? || step.ReadHand? || step.ReadFrom? || step.ReadStream?
    ensures Inv(Do(s, step))
  {
    hide Waiting, CountedAs, IsMin, CursorOK, ReaderOK;
    var t := Do(s, step);
    SameWaiting(s, t);
    assert CursorOK(t) by { SameCursor(s, t); }
    assert ReaderOK(t) by { ReadMore(s, step); }
  }

  lemma SameCursor(s: State, t: State)
    requires CursorOK(s) && t == s.(reader := t.reader)
    ensures CursorOK(t)
  {
  }

  lemma ReadMore(s: State, step: Step)
    requires Inv(s) && Can(s, step)
    requires step.Lock? || step.ReadPending? || step.ReadHand? || step.ReadFrom? || step.ReadStream?
    ensures ReaderOK(Do(s, step))
  {
    hide Waiting, SeqsOf, IsMin, CursorOK, Counted;
    var t := Do(s, step);
    SameWaiting(s, t);
    forall c ensures Known(t, c) == Known(s, c) && InHand(t, c) == InHand(s, c) {}
    if step.ReadPending? {
      forall c | c in Waiting(s) && c.seqNo != 0 ensures Covers(step.f, c) { MinCovers(s, step.f, c); }
    }
  }

  lemma KeepApplying(s: State, step: Step)
    requires Inv(s) && Can(s, step) && (step.Apply? || step.DropNext?)
    ensures Inv(Do(s, step))
  {
    hide Waiting, CountedAs;
    var t := Do(s, step);
    SameWaiting(s, t);
    forall c ensures Known(t, c) == Known(s, c) {}
  }

  // ---------------------------------------------------------------- runs

  ghost predicate Initial(s: State) {
    && s.pending == multiset{} && s.inHand == 0 && s.fromSeq == 0 && s.streamNext == 0 && !s.behind
    && s.queue == [] && s.turned == {} && s.round == {} && s.unnoted == {}
    && s.pc.Idle? && s.placer.Out? && s.reader.Away?
  }

  ghost predicate IsRun(run: seq<State>, steps: seq<Step>) {
    && |run| == |steps| + 1
    && Initial(run[0])
    && forall i :: 0 <= i < |steps| ==> Can(run[i], steps[i]) && run[i + 1] == Do(run[i], steps[i])
  }

  lemma StepKeeps(s: State, step: Step)
    requires Inv(s) && Can(s, step)
    ensures Inv(Do(s, step))
  {
    hide Inv, Can, Do;
    match step
    case Place(_) | Full => KeepPlacing(s, step);
    case Enqueue | EnqueuePlain(_) => KeepEnqueue(s, step);
    case Owe => KeepOwe(s, step);
    case Note(_) => KeepNote(s, step);
    case Take => KeepTake(s, step);
    case SkipOne => KeepSkip(s, step);
    case Hand => KeepHand(s, step);
    case Unwait => KeepUnwait(s, step);
    case Prepare(_) | ClearHand => KeepPrepare(s, step);
    case TakeRound | Settle(_, _) | Advance | EndRound | Retry | RetryClear | Age(_) => KeepRounds(s, step);
    case Lock(_, _) | ReadPending(_) | ReadHand | ReadFrom | ReadStream => KeepReading(s, step);
    case Apply(_) | DropNext => KeepApplying(s, step);
  }

  lemma {:induction false} EveryRunHolds(run: seq<State>, steps: seq<Step>, i: nat)
    requires IsRun(run, steps) && i < |run|
    ensures Inv(run[i])
    decreases i
  {
    if i == 0 {
      assert Waiting(run[0]) == [];
    } else {
      hide Inv, Can, Do, Initial;
      EveryRunHolds(run, steps, i - 1);
      StepKeeps(run[i - 1], steps[i - 1]);
    }
  }

  /** The floor a scan has read is at or below everything the connection still holds and has handed on to it. */
  lemma FloorIsLow(run: seq<State>, steps: seq<Step>, i: nat, c: Copy)
    requires IsRun(run, steps) && i < |run| && run[i].reader.GotAll? && Known(run[i], c)
    ensures run[i].reader.f != 0 && run[i].reader.f <= c.seqNo
  {
    hide IsRun, Known, Counted, HandOK, TurnedOK, RoundOK, CursorOK;
    EveryRunHolds(run, steps, i);
  }

  /** A scan never moves the cursor past a copy still waiting, unless it is a hole or its message was delivered. */
  lemma NothingHeldIsPassed(run: seq<State>, steps: seq<Step>, i: nat, c: Copy)
    requires IsRun(run, steps) && i < |run| && run[i].next != 0 && Known(run[i], c)
    ensures c.seqNo >= run[i].next || c.seqNo in run[i].holes || c.seqNo in run[i].delivered
  {
    hide IsRun, Known, Counted, HandOK, TurnedOK, RoundOK, ReaderOK;
    EveryRunHolds(run, steps, i);
  }
}
