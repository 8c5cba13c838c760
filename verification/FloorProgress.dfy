/**
  That what a connection accepts gets sent, and that a scan moves: left alone, a live copy is delivered whether the
  queue takes it or turns it away, and the floor a scan reads is the lowest sequence the connection still names.
 */
module FloorProgress {
  import opened Cursors
  import opened Floor

  /** The steps can be taken one after the other, and end in `t`. */
  ghost predicate Leads(s: State, steps: seq<Step>, t: State)
    decreases |steps|
  {
    if steps == [] then s == t else Can(s, steps[0]) && Leads(Do(s, steps[0]), steps[1..], t)
  }

  lemma LeadsOne(s: State, step: Step)
    requires Can(s, step)
    ensures Leads(s, [step], Do(s, step))
  {
    assert [step][1..] == [];
  }

  lemma {:induction false} LeadsOn(s: State, a: seq<Step>, t: State, b: seq<Step>, u: State)
    requires Leads(s, a, t) && Leads(t, b, u)
    ensures Leads(s, a + b, u)
    decreases |a|
  {
    if a == [] {
      assert a + b == b;
    } else {
      assert (a + b)[1..] == a[1..] + b;
      LeadsOn(Do(s, a[0]), a[1..], t, b, u);
    }
  }

  lemma LeadsStep(s: State, a: seq<Step>, t: State, step: Step)
    requires Leads(s, a, t) && Can(t, step)
    ensures Leads(s, a + [step], Do(t, step))
  {
    hide Can, Do;
    LeadsOne(t, step);
    LeadsOn(s, a, t, [step], Do(t, step));
  }

  /** Nothing is under way: no copy being placed, taken or read, and no scan. */
  predicate Calm(s: State) { s.pc.Idle? && s.placer.Out? && s.reader.Away? && s.queue == [] }

  /** The message was sent: it is delivered, and no hole. */
  ghost predicate SentOff(s: State, t: State, q: nat) {
    && t.delivered == s.delivered + {q} && q !in t.holes && (forall p :: p in s.holes && p != q ==> p in t.holes)
    && (forall p :: p in t.holes ==> p in s.holes) && t.next == s.next && Calm(t) && t.pending == s.pending
  }

  /** Placing and queueing a copy, and handing it to the cursor. */
  lemma Queued(s: State, q: nat) returns (c: Copy, t: State)
    requires Calm(s) && !s.behind && q != 0
    ensures c == Copy(q, s.nextTag) && Leads(s, [Place(c), Enqueue, Note(c)], t)
    ensures t == s.(pending := s.pending + One(q), queue := [c], unnoted := s.unnoted + {c} - {c},
                    nextTag := s.nextTag + 1, holes := t.holes)
    ensures forall p :: p in t.holes <==> p in s.holes || (p == q && 0 < q < s.next && q !in s.delivered)
  {
    hide Leads;
    c := Copy(q, s.nextTag);
    LeadsOne(s, Place(c));
    var a := Do(s, Place(c));
    LeadsStep(s, [Place(c)], a, Enqueue);
    var b := Do(a, Enqueue);
    assert [Place(c)] + [Enqueue] == [Place(c), Enqueue];
    LeadsStep(s, [Place(c), Enqueue], b, Note(c));
    t := Do(b, Note(c));
    assert [Place(c), Enqueue] + [Note(c)] == [Place(c), Enqueue, Note(c)];
    assert [] + [c] == [c];
  }

  /** A burst of one copy. */
  lemma Sends(s: State, c: Copy) returns (t: State)
    requires s.pc.Idle? && s.placer.Out? && s.reader.Away? && s.queue == [c] && c.seqNo != 0
    ensures Leads(s, [Take, Hand, Unwait, Prepare(true), ClearHand], t)
    ensures t == s.(queue := [], pending := s.pending - One(c.seqNo), inHand := 0,
                    delivered := s.delivered + {c.seqNo}, holes := s.holes - {c.seqNo})
  {
    hide Leads;
    LeadsOne(s, Take);
    var a := Do(s, Take);
    assert a == s.(queue := [], pc := Burst([c])) by { assert [] + [c] == [c] && [c][1..] == []; }
    LeadsStep(s, [Take], a, Hand);
    var b := Do(a, Hand);
    assert b == a.(inHand := c.seqNo, pc := Handed(c, [])) by { assert [c][1..] == []; }
    LeadsStep(s, [Take] + [Hand], b, Unwait);
    var d := Do(b, Unwait);
    LeadsStep(s, [Take] + [Hand] + [Unwait], d, Prepare(true));
    var e := Do(d, Prepare(true));
    LeadsStep(s, [Take] + [Hand] + [Unwait] + [Prepare(true)], e, ClearHand);
    t := Do(e, ClearHand);
    assert [Take] + [Hand] + [Unwait] + [Prepare(true)] + [ClearHand] == [Take, Hand, Unwait, Prepare(true), ClearHand];
  }

  /** A live copy that finds room in the queue is sent, and leaves the connection as it was. */
  lemma CopyGetsSent(s: State, q: nat) returns (steps: seq<Step>, t: State)
    requires Calm(s) && !s.behind && q != 0
    ensures Leads(s, steps, t) && SentOff(s, t, q)
    ensures t.turned == s.turned && t.round == s.round && t.fromSeq == s.fromSeq && !t.behind
  {
    hide Leads;
    var c, a := Queued(s, q);
    t := Sends(a, c);
    steps := [Place(c), Enqueue, Note(c)] + [Take, Hand, Unwait, Prepare(true), ClearHand];
    LeadsOn(s, [Place(c), Enqueue, Note(c)], a, [Take, Hand, Unwait, Prepare(true), ClearHand], t);
    assert s.pending + One(q) - One(q) == s.pending;
  }

  /** One the queue has no room for is turned away, and the connection falls behind. */
  lemma TurnedAway(s: State, q: nat) returns (steps: seq<Step>, c: Copy, t: State)
    requires Calm(s) && q != 0 && s.fromSeq == 0 && s.turned == {}
    ensures c == Copy(q, s.nextTag) && Leads(s, steps, t)
    ensures t == s.(fromSeq := q, turned := {c}, unnoted := s.unnoted + {c} - {c}, nextTag := s.nextTag + 1,
                    behind := true, holes := t.holes)
    ensures forall p :: p in t.holes <==> p in s.holes || (p == q && 0 < q < s.next && q !in s.delivered)
  {
    hide Leads;
    c := Copy(q, s.nextTag);
    LeadsOne(s, Place(c));
    steps := [Place(c)];
    var a := Do(s, Place(c));
    if !s.behind {
      LeadsStep(s, steps, a, Full);
      a, steps := Do(a, Full), steps + [Full];
      assert s.pending + One(q) - One(q) == s.pending;
    }
    assert a == s.(placer := Turning(c), behind := true, nextTag := s.nextTag + 1);
    LeadsStep(s, steps, a, Owe);
    var b := Do(a, Owe);
    steps := steps + [Owe];
    assert {} + {c} == {c};
    LeadsStep(s, steps, b, Note(c));
    t := Do(b, Note(c));
    steps := steps + [Note(c)];
  }

  /** The round that takes it from the stream sends it, and the connection has caught up. */
  lemma TurnedGetsSent(s: State, q: nat) returns (steps: seq<Step>, t: State)
    requires Calm(s) && q != 0 && s.fromSeq == 0 && s.turned == {} && s.round == {} && s.streamNext == 0
    ensures Leads(s, steps, t) && SentOff(s, t, q)
    ensures t.turned == {} && t.round == {} && t.fromSeq == 0 && t.streamNext == 0 && !t.behind
  {
    hide Leads;
    var c, a;
    steps, c, a := TurnedAway(s, q);
    LeadsStep(s, steps, a, TakeRound);
    var b := Do(a, TakeRound);
    assert {} + {c} == {c};
    assert b == a.(fromSeq := 0, streamNext := q, round := {c}, turned := {}, pc := Reading);
    steps := steps + [TakeRound];
    var d, more := RoundOfOne(b, c);
    LeadsOn(s, steps, b, more, d);
    steps := steps + more;
    LeadsStep(s, steps, d, TakeRound);
    t := Do(d, TakeRound);
    steps := steps + [TakeRound];
  }

  lemma RoundOfOne(s: State, c: Copy) returns (t: State, steps: seq<Step>)
    requires s.pc.Reading? && s.round == {c} && s.turned == {} && s.streamNext == c.seqNo != 0
    ensures Leads(s, steps, t)
    ensures t == s.(round := {}, streamNext := 0, pc := Idle, delivered := s.delivered + {c.seqNo},
                    holes := s.holes - {c.seqNo})
  {
    hide Leads;
    LeadsOne(s, Settle(c.seqNo, true));
    var a := Do(s, Settle(c.seqNo, true));
    assert Without({c}, c.seqNo) == {} && Without({}, c.seqNo) == {};
    LeadsStep(s, [Settle(c.seqNo, true)], a, Advance);
    var b := Do(a, Advance);
    LeadsStep(s, [Settle(c.seqNo, true)] + [Advance], b, EndRound);
    t := Do(b, EndRound);
    steps := [Settle(c.seqNo, true)] + [Advance] + [EndRound];
  }

  /** A round that is dropped is turned away again, from where it stood. */
  lemma RetryAnswers(s: State)
    requires Can(s, Retry)
    ensures var t := Do(Do(s, Retry), RetryClear);
            && t.turned == s.turned + s.round && t.round == {} && t.streamNext == 0 && t.pc.Idle?
            && t.fromSeq == (if s.fromSeq == 0 || s.streamNext < s.fromSeq then s.streamNext else s.fromSeq)
            && t.delivered == s.delivered && t.holes == s.holes && t.next == s.next
  {
  }

  // ---------------------------------------------------------------- a scan

  /** The lowest of the sequences that are set. */
  ghost predicate LowestSet(seqs: set<nat>, f: nat) {
    if forall q :: q in seqs ==> q == 0 then f == 0
    else f in seqs && f != 0 && forall q :: q in seqs && q != 0 ==> f <= q
  }

  lemma LowestOf(a: nat, b: nat, c: nat, d: nat)
    ensures LowestSet({a, b, c, d}, LowestSeq(LowestSeq(LowestSeq(a, b), c), d))
  {
  }

  lemma Locks(s: State, start: nat, end: nat)
    requires s.reader.Away? && start <= end
    ensures Can(s, Lock(start, end)) && Do(s, Lock(start, end)) == s.(reader := Locked(start, end))
  {
  }

  lemma ReadsPending(s: State, low: nat)
    requires s.reader.Locked? && IsMin(s.pending, low)
    ensures Can(s, ReadPending(low))
    ensures Do(s, ReadPending(low)) == s.(reader := GotPending(s.reader.start, s.reader.end, low))
  {
    hide IsMin;
  }

  /** The reads that follow, each into what was read before. */
  lemma ReadsOn(s: State)
    ensures s.reader.GotPending? ==>
              && Can(s, ReadHand)
              && Do(s, ReadHand) == s.(reader := GotHand(s.reader.start, s.reader.end, LowestSeq(s.reader.f, s.inHand)))
    ensures s.reader.GotHand? && CatchFree(s) ==>
              && Can(s, ReadFrom)
              && Do(s, ReadFrom) ==
                 s.(reader := GotFrom(s.reader.start, s.reader.end, LowestSeq(s.reader.f, s.fromSeq)))
    ensures s.reader.GotFrom? ==>
              && Can(s, ReadStream)
              && Do(s, ReadStream) ==
                 s.(reader := GotAll(s.reader.start, s.reader.end, LowestSeq(s.reader.f, s.streamNext)))
  {
    hide LowestSeq;
  }

  lemma LeadsFive(s: State, a: Step, b: Step, c: Step, d: Step, e: Step)
    requires Can(s, a) && Can(Do(s, a), b) && Can(Do(Do(s, a), b), c) && Can(Do(Do(Do(s, a), b), c), d)
    requires Can(Do(Do(Do(Do(s, a), b), c), d), e)
    ensures Leads(s, [a, b, c, d, e], Do(Do(Do(Do(Do(s, a), b), c), d), e))
  {
    hide Can, Do, Leads;
    LeadsOne(s, a);
    LeadsStep(s, [a], Do(s, a), b);
    LeadsStep(s, [a] + [b], Do(Do(s, a), b), c);
    LeadsStep(s, [a] + [b] + [c], Do(Do(Do(s, a), b), c), d);
    LeadsStep(s, [a] + [b] + [c] + [d], Do(Do(Do(Do(s, a), b), c), d), e);
    assert [a] + [b] + [c] + [d] + [e] == [a, b, c, d, e];
  }

  /**
    Left alone, a scan reads as its floor the lowest of what waits, what is in hand, what was turned away and where a
    round stands, and none when none is set.
   */
  lemma FloorExact(s: State, start: nat, end: nat, low: nat)
    requires CatchFree(s) && s.reader.Away? && start <= end && IsMin(s.pending, low)
    ensures var steps := [Lock(start, end), ReadPending(low), ReadHand, ReadFrom, ReadStream];
            exists f :: Leads(s, steps, s.(reader := GotAll(start, end, f)))
                        && LowestSet({low, s.inHand, s.fromSeq, s.streamNext}, f)
  {
    hide Leads, IsMin, Can, Do, LowestSet, LowestSeq;
    var a := s.(reader := Locked(start, end));
    var b := s.(reader := GotPending(start, end, low));
    var c := s.(reader := GotHand(start, end, LowestSeq(low, s.inHand)));
    var d := s.(reader := GotFrom(start, end, LowestSeq(LowestSeq(low, s.inHand), s.fromSeq)));
    Locks(s, start, end);
    ReadsPending(a, low);
    ReadsOn(b);
    ReadsOn(c);
    ReadsOn(d);
    LeadsFive(s, Lock(start, end), ReadPending(low), ReadHand, ReadFrom, ReadStream);
    LowestOf(low, s.inHand, s.fromSeq, s.streamNext);
  }

  /**
    Applying it moves a cursor that is where the scan found it: to the end without a floor below it, and otherwise to
    the floor, or nowhere when the floor is below it; what the scan found becomes holes. Any other cursor stays.
   */
  lemma ApplyAnswers(s: State, found: set<nat>)
    requires s.reader.GotAll?
    ensures var t, r := Do(s, Apply(found)), s.reader;
            var mine := s.next != 0 && s.next == r.start;
            && t.reader == Away && t == s.(reader := Away, next := t.next, holes := t.holes)
            && (!mine ==> t.next == s.next && t.holes == s.holes)
            && (mine ==>
                  && t.holes == s.holes + found
                  && (r.f == 0 || r.f >= r.end ==> t.next == r.end)
                  && (0 < r.f < r.end && r.f >= r.start ==> t.next == r.f)
                  && (0 < r.f < r.end && r.f < r.start ==> t.next == s.next))
  {
  }

  // ---------------------------------------------------------------- what goes without being sent

  /** A copy that is skipped stops waiting; the others wait in the same order. */
  lemma SkipAnswers(s: State)
    requires Can(s, SkipOne)
    ensures var t := Do(s, SkipOne);
            && s.queue == [s.queue[0]] + t.queue && t == s.(queue := t.queue, pending := t.pending)
            && forall q :: t.pending[q] ==
                 s.pending[q] - (if q == s.queue[0].seqNo && q != 0 && s.pending[q] > 0 then 1 else 0)
  {
  }

  /** A live message that is not queued waits behind the others, and is never counted. */
  lemma PlainAnswers(s: State, copy: Copy)
    requires Can(s, EnqueuePlain(copy))
    ensures var t := Do(s, EnqueuePlain(copy));
            && t.queue == s.queue + [copy] && t.pending == s.pending
            && t == s.(queue := t.queue, nextTag := s.nextTag + 1)
  {
  }

  /** A message that has aged out of the stream is owed no more: a round that waited only for it can end. */
  lemma AgeAnswers(s: State, q: nat)
    ensures var t := Do(s, Age(q));
            && (forall c :: c in t.turned <==> c in s.turned && c.seqNo != q)
            && (forall c :: c in t.round <==> c in s.round && c.seqNo != q)
            && t == s.(turned := t.turned, round := t.round)
            && (s.pc.Reading? && (forall c :: c in s.round ==> c.seqNo == q) ==> Can(t, EndRound))
  {
    var t := Do(s, Age(q));
    if forall c :: c in s.round ==> c.seqNo == q { assert t.round == {}; }
  }
}
