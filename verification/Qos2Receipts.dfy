/**
  Runs of `Qos2` in which no identifier is reused that the client still holds: what is past its PUBREC is what the
  client took. `Qos2Limits` shows that reusing one is exactly what this does not survive.
 */
module Qos2Receipts {
  import opened Topics
  import opened Qos2
  import opened Qos2Safety

  /** The client took what is past its PUBREC, and does not hold the identifier of what it has not taken. */
  ghost predicate Received(x: Entries, b: Book) {
    forall i :: i in x ==> (x[i].rel ==> x[i].m in b.accepted) && (x[i].m !in b.accepted ==> i !in b.held)
  }

  /** A PUBREC a connection left unread is of a message the client took. */
  ghost predicate LateTaken(late: set<Ack>, inflight: Entries, b: Book) {
    forall a :: a in late && a.Pubrec? && a.id in inflight ==> inflight[a.id].m in b.accepted
  }

  /** So is one on its way. */
  ghost predicate RecTaken(tok: Toks, inflight: Entries, b: Book) {
    forall id :: id in tok && tok[id].Rec? && id in inflight ==> inflight[id].m in b.accepted
  }

  ghost predicate Receipts(s: State) {
    && Received(s.rec.inflight, s.book)
    && (s.mem.Some? ==>
          && Received(s.mem.value.inflight, s.book) && Received(CpEntries(s.mem.value.cp), s.book)
          && LateTaken(s.mem.value.late, s.mem.value.inflight, s.book)
          && RecTaken(s.tok, s.mem.value.inflight, s.book))
  }

  // ---------------------------------------------------------------- the steps that matter

  /** A free identifier has nothing under way. */
  lemma FreeHasNone(s: State, id: nat)
    requires Inv(s) && s.mem.Some? && s.mem.value.positioned && id !in s.mem.value.inflight
    requires id !in s.mem.value.withdrawn
    ensures id !in s.tok
  {
    hide ListsOK, CpOK, NotedOK, NotingOK, LateOK, ResentOK, PhaseOK, ListOK, ClientOK, ReachOK;
    forall j | j in s.tok ensures j != id { assert TokOK(j, s.tok[j], s.mem.value, s.rec, s.book); }
  }

  /** A message that was never sent gets an identifier the client does not hold. */
  lemma KeepTrack(s: State, step: Step)
    requires Inv(s) && Receipts(s) && Can(s, step) && step.Track? && LetGoOf(s, step)
    ensures Receipts(Do(s, step))
  {
    hide Inv;
    FreeHasNone(s, step.id);
  }

  /** The list a PUBLISH is sent from is the one in memory; a stored one agrees with it where it matters. */
  lemma TakenFrom(x: Entries, inflight: Entries, b: Book, id: nat)
    requires Received(x, b) && (Backed(x, inflight) || x == inflight) && id in inflight
    ensures Received(x, Accepting(b, inflight[id].m, id))
  {
  }

  /** What reaches the client is taken, or was before. */
  lemma KeepClientPub(s: State, step: Step)
    requires Inv(s) && Receipts(s) && Can(s, step) && step.ClientPub?
    ensures Receipts(Do(s, step))
  {
    hide CpOK, NotedOK, NotingOK, LateOK, ResentOK, PhaseOK, ToksOK, ListOK, Backed, ClientOK, ReachOK, Received;
    var mem, id := s.mem.value, step.id;
    PubIsInFlight(s, id);
    if id in s.book.held {
      HeldWasTaken(mem.inflight, s.book, id);
    } else {
      TakenFrom(mem.inflight, mem.inflight, s.book, id);
      TakenFrom(s.rec.inflight, mem.inflight, s.book, id);
      TakenFrom(CpEntries(mem.cp), mem.inflight, s.book, id);
    }
  }

  lemma HeldWasTaken(x: Entries, b: Book, id: nat)
    requires Received(x, b) && id in x && id in b.held
    ensures x[id].m in b.accepted
  {
  }

  lemma PubIsInFlight(s: State, id: nat)
    requires Inv(s) && s.mem.Some? && id in s.tok && s.tok[id].Pub?
    ensures id in s.mem.value.inflight && s.mem.value.inflight[id].m == s.tok[id].m
  {
    hide ListsOK, CpOK, NotedOK, NotingOK, LateOK, ResentOK, PhaseOK, ListOK, ClientOK, ReachOK;
    assert TokOK(id, s.tok[id], s.mem.value, s.rec, s.book);
  }

  /** The lists stay as they are, and no PUBREC appears. */
  ghost predicate Quiet(s: State, t: State) {
    && t.rec == s.rec && t.book.accepted == s.book.accepted && t.book.held <= s.book.held
    && s.mem.Some? && t.mem.Some? && t.mem.value.inflight == s.mem.value.inflight
    && t.mem.value.late <= s.mem.value.late
    && (CpEntries(t.mem.value.cp) == CpEntries(s.mem.value.cp) || CpEntries(t.mem.value.cp) == map[])
    && forall id :: id in t.tok && t.tok[id].Rec? ==> id in s.tok && s.tok[id].Rec?
  }

  lemma QuietKeeps(s: State, t: State)
    requires Receipts(s) && Quiet(s, t)
    ensures Receipts(t)
  {
  }

  lemma KeepQuiet(s: State, step: Step)
    requires Receipts(s) && Can(s, step)
    requires step.Note? || step.AskSend? || step.AskRel? || step.SendPub? || step.RelTimeout? || step.SendRel?
             || step.ClientRel? || step.Position? || step.LateDrop? || step.Resend?
             || step.CpBegin? || step.CpDelivered?
    ensures Receipts(Do(s, step))
  {
    hide Relied, Receipts;
    QuietKeeps(s, Do(s, step));
  }

  /** A record is completed and written. */
  lemma KeepRecord(s: State, step: Step)
    requires Receipts(s) && Can(s, step) && (step.CpInflight? || step.CpWrite?)
    ensures Receipts(Do(s, step))
  {
    hide Relied, Received;
    assert Received(map[], s.book) by { NoneReceived(s.book); }
  }

  lemma NoneReceived(b: Book)
    ensures Received(map[], b)
  {
  }

  /** Marking an exchange the client took, or ending one, leaves its message and the others' as they are. */
  ghost predicate Answered(x: Entries, y: Entries, b: Book) {
    forall i :: i in y ==> i in x && y[i].m == x[i].m && (y[i].rel ==> x[i].rel || x[i].m in b.accepted)
  }

  lemma AnsweredKeeps(s: State, t: State)
    requires Receipts(s) && s.mem.Some? && t.mem.Some? && t.rec == s.rec && t.book == s.book
    requires t.mem.value.cp == s.mem.value.cp && t.mem.value.late == s.mem.value.late
    requires Answered(s.mem.value.inflight, t.mem.value.inflight, s.book)
    requires forall id :: id in t.tok && t.tok[id].Rec? ==> id in s.tok && s.tok[id].Rec?
    ensures Receipts(t)
  {
  }

  /** An exchange moves past its PUBREC, or ends. */
  lemma KeepAnswered(s: State, step: Step)
    requires Receipts(s) && Can(s, step)
    requires step.HandleRec? || step.LateRec? || step.HandleComp? || step.LateComp?
    ensures Receipts(Do(s, step))
  {
    hide Relied, Received, CpEntries;
    var t := Do(s, step);
    assert t.rec == s.rec && t.book == s.book && t.mem.Some?;
    AnsweredKeeps(s, t);
  }

  /** What a connection leaves unread was on its way. */
  lemma UnreadTaken(s: State)
    requires Receipts(s) && s.mem.Some?
    ensures LateTaken(s.mem.value.late + Acks(s.tok, s.mem.value.conn), s.mem.value.inflight, s.book)
  {
    assert forall a :: a in Acks(s.tok, s.mem.value.conn) && a.Pubrec? ==> a.id in s.tok && s.tok[a.id].Rec?;
  }

  lemma KeepReplaced(s: State, step: Step)
    requires Receipts(s) && Can(s, step) && (step.Reconnect? || step.Release?)
    ensures Receipts(Do(s, step))
  {
    hide Relied, Received, Acks, LateTaken;
    UnreadTaken(s);
    NoneReceived(s.book);
  }

  lemma FewerReceived(x: Entries, b: Book, lost: set<nat>)
    requires Received(x, b)
    ensures Received(x - lost, b)
  {
  }

  lemma KeepClaimed(s: State, step: Step)
    requires Receipts(s) && Can(s, step) && (step.Kill? || step.Restore? || step.Takeover?)
    ensures Receipts(Do(s, step))
  {
    hide Relied, Received, Restored;
    NoneReceived(s.book);
    if !step.Kill? { FewerReceived(s.rec.inflight, s.book, step.lost); }
  }

  lemma StepKeepsReceipts(s: State, step: Step)
    requires Inv(s) && Receipts(s) && Can(s, step) && LetGoOf(s, step)
    ensures Receipts(Do(s, step))
  {
    hide Inv, Receipts, Enabled, Relied, Do;
    match step
    case Track(_, _) => KeepTrack(s, step);
    case ClientPub(_) => KeepClientPub(s, step);
    case HandleRec(_) | LateRec(_) | HandleComp(_) | LateComp(_) => KeepAnswered(s, step);
    case CpInflight | CpWrite => KeepRecord(s, step);
    case Reconnect(_) | Release(_) => KeepReplaced(s, step);
    case Kill | Restore(_, _, _) | Takeover(_, _, _) => KeepClaimed(s, step);
    case _ => KeepQuiet(s, step);
  }

  // ---------------------------------------------------------------- runs

  ghost predicate NoneReused(run: seq<State>, steps: seq<Step>)
    requires |run| == |steps| + 1
  {
    forall i :: 0 <= i < |steps| ==> LetGoOf(run[i], steps[i])
  }

  lemma {:induction false} EveryRunReceives(run: seq<State>, steps: seq<Step>, i: nat)
    requires IsRun(run, steps) && NoneReused(run, steps) && i < |run|
    ensures Receipts(run[i])
    decreases i
  {
    hide Enabled, Relied, Do, LetGoOf;
    if i > 0 {
      hide Inv, Initial, Receipts;
      EveryRunReceives(run, steps, i - 1);
      EveryRunHolds(run, steps, i - 1);
      StepKeepsReceipts(run[i - 1], steps[i - 1]);
    }
  }

  /**
    In every run that reuses no identifier the client holds, an exchange past its PUBREC, in memory or in the
    record, is one whose message the client has taken: none is completed that the client never took.
   */
  lemma CompletedWasTaken(run: seq<State>, steps: seq<Step>, i: nat, id: nat)
    requires IsRun(run, steps) && NoneReused(run, steps) && i < |run|
    ensures var s := run[i];
            && (id in s.rec.inflight && s.rec.inflight[id].rel ==> s.rec.inflight[id].m in s.book.accepted)
            && (s.mem.Some? && id in s.mem.value.inflight && s.mem.value.inflight[id].rel ==>
                  s.mem.value.inflight[id].m in s.book.accepted)
  {
    hide IsRun, NoneReused;
    EveryRunReceives(run, steps, i);
  }
}
