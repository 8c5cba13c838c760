/** The invariants of `Qos2`, and that every step keeps them. */
module Qos2Safety {
  import opened Topics
  import opened Qos2

  type Toks = map<nat, Tok>

  // ---------------------------------------------------------------- lists of exchanges

  /** Entries of one message have one identifier, the one it was sent with; what is past its PUBREC was sent. */
  ghost predicate Bound(x: Entries, b: Book) {
    && (forall i, j :: i in x && j in x && x[i].m == x[j].m ==> i == j)
    && (forall i :: i in x && x[i].m in b.out ==> b.out[x[i].m] == i)
    && (forall i :: i in x && x[i].rel ==> x[i].m in b.out)
  }

  /** No entry would resend the PUBLISH of a message whose PUBREL has gone out. */
  ghost predicate Past(x: Entries, b: Book) {
    forall i :: i in x && x[i].m in b.closed ==> x[i].rel
  }

  /** The client still holds the identifier of what it accepted and might be sent again. */
  ghost predicate Guarded(x: Entries, b: Book) {
    forall i :: i in x && !x[i].rel && x[i].m in b.accepted ==> i in b.held
  }

  /** What a stored list would resend is still in flight in memory. */
  ghost predicate Backed(x: Entries, inflight: Entries) {
    forall i :: i in x && !x[i].rel ==> i in inflight && inflight[i].m == x[i].m
  }

  ghost predicate ListOK(x: Entries, b: Book) { Bound(x, b) && Past(x, b) && Guarded(x, b) }

  function CpEntries(cp: Checkpoint): Entries { if cp.GotAll? then cp.f else map[] }

  // ---------------------------------------------------------------- memory

  predicate Snapped(cp: Checkpoint) { cp.GotDelivered? || cp.GotAll? }

  ghost predicate CpOK(cp: Checkpoint, known: set<nat>, delivered: set<nat>, activity: nat, mark: Option<nat>) {
    && (Snapped(cp) ==> known <= cp.d <= delivered)
    && (!cp.NoCp? ==> cp.a <= activity && (mark.Some? ==> mark.value <= cp.a))
    && (mark.Some? ==> mark.value <= activity)
  }

  /** What was sent is known by its id or was stored before the claim, in memory and in a record being made. */
  ghost predicate ReachOK(mem: Memory, b: Book) {
    && (forall m :: m in b.out ==> m < mem.since || m in mem.delivered)
    && (Snapped(mem.cp) ==> mem.cp.from >= mem.since && forall m :: m in b.out ==> m < mem.since || m in mem.cp.d)
  }

  ghost predicate NotedOK(inflight: Entries, delivered: set<nat>, since: nat, noting: Noting) {
    forall i :: i in inflight ==>
                  || inflight[i].m in delivered || inflight[i].m < since
                  || (noting.Noting? && noting.id == i && noting.m == inflight[i].m)
  }

  ghost predicate NotingOK(mem: Memory, tok: Toks) {
    mem.noting.Noting? ==>
      var n := mem.noting;
      && n.id in mem.inflight && mem.inflight[n.id] == Entry(n.m, false)
      && n.m !in mem.delivered && n.m >= mem.since && !Unread(mem.late, n.id)
      && (n.id in tok ==> n.stale && tok[n.id].Again?)
  }

  ghost predicate LateOK(late: set<Ack>, inflight: Entries, b: Book) {
    forall a :: a in late && a.id in inflight ==>
                  inflight[a.id].m in if a.Pubrec? then b.out.Keys else b.closed
  }

  /** An exchange under way that a late PUBCOMP would end was resent on the current connection. */
  ghost predicate ResentOK(mem: Memory, tok: Toks) {
    forall a :: a in mem.late ==>
      && a.conn < mem.conn
      && (a.Pubcomp? && a.id in mem.inflight && a.id in tok && !tok[a.id].Again? ==>
            a.id in mem.resentOn && mem.resentOn[a.id] == mem.conn)
  }

  ghost predicate PhaseOK(mem: Memory, stored: Entries, tok: Toks) {
    && (mem.connected && !mem.positioned ==> stored == map[])
    && (!mem.connected ==> tok == map[])
    && (mem.noting.Noting? && !mem.noting.stale ==> mem.connected)
    && (!mem.connected || !mem.positioned ==> mem.cp.NoCp? && mem.mark.None?)
  }

  // ---------------------------------------------------------------- exchanges on the connection

  ghost predicate TokOK(id: nat, t: Tok, mem: Memory, rec: Record, b: Book) {
    match t
    case Ready(m) => Unsent(id, m, mem, b)
    case Asked(m, stamp) =>
      && Unsent(id, m, mem, b) && stamp <= mem.activity
      && (Newer(mem.mark, stamp) ==> m in rec.delivered)
      && (Snapped(mem.cp) && mem.cp.a >= stamp ==> m in mem.cp.d)
    case Pub(m) =>
      && id in mem.inflight && mem.inflight[id].m == m && m in b.out && m !in b.closed
      && (m in b.accepted ==> id in b.held)
    case Rec => id in mem.inflight && mem.inflight[id].m in b.out && mem.inflight[id].m !in b.closed
    case RelQueued => Owned(id, mem, b)
    case RelAsked(stamp) =>
      && Owned(id, mem, b) && stamp <= mem.activity
      && (Newer(mem.mark, stamp) ==> RelIn(rec.inflight, id))
      && (mem.cp.GotAll? && mem.cp.a >= stamp ==> RelIn(mem.cp.f, id))
    case RelFree => Owned(id, mem, b) && RelIn(rec.inflight, id) && RelIn(CpEntries(mem.cp), id)
    case Rel | Comp => if id in mem.inflight then mem.inflight[id].m in b.closed else id in mem.withdrawn
    case Again => !mem.positioned
  }

  /** Prepared, and not yet sent. */
  ghost predicate Unsent(id: nat, m: nat, mem: Memory, b: Book) {
    && id in mem.inflight && mem.inflight[id] == Entry(m, false) && m in mem.delivered && m !in b.out
    && !Unread(mem.late, id)
  }

  /** Past its PUBREC, its PUBREL not yet sent. */
  ghost predicate Owned(id: nat, mem: Memory, b: Book) {
    id in mem.inflight && mem.inflight[id].rel && mem.inflight[id].m !in b.closed
  }

  ghost predicate RelIn(x: Entries, id: nat) { id in x ==> x[id].rel }

  ghost predicate ToksOK(tok: Toks, mem: Memory, rec: Record, b: Book) {
    forall id :: id in tok ==> TokOK(id, tok[id], mem, rec, b)
  }

  // ---------------------------------------------------------------- the whole

  ghost predicate ListsOK(mem: Memory, stored: Entries, b: Book) {
    && ListOK(mem.inflight, b)
    && ListOK(CpEntries(mem.cp), b)
    && Backed(stored, mem.inflight) && Backed(CpEntries(mem.cp), mem.inflight)
  }

  ghost predicate ClientOK(b: Book, rec: Record) {
    && (forall m :: b.accepted[m] <= 1)
    && (forall m :: m in b.accepted ==> m in b.out)
    && (forall m :: m in b.closed ==> m in b.out)
    && (forall m :: m in b.out ==> Settled(rec, m))
  }

  ghost predicate MemOK(s: State)
    requires s.mem.Some?
  {
    var mem := s.mem.value;
    && ListsOK(mem, s.rec.inflight, s.book)
    && s.rec.delivered <= mem.delivered
    && CpOK(mem.cp, s.rec.delivered, mem.delivered, mem.activity, mem.mark)
    && ReachOK(mem, s.book)
    && NotedOK(mem.inflight, mem.delivered, mem.since, mem.noting)
    && NotingOK(mem, s.tok)
    && LateOK(mem.late, mem.inflight, s.book)
    && ResentOK(mem, s.tok)
    && PhaseOK(mem, s.rec.inflight, s.tok)
    && ToksOK(s.tok, mem, s.rec, s.book)
  }

  ghost predicate Inv(s: State) {
    && ClientOK(s.book, s.rec)
    && ListOK(s.rec.inflight, s.book)
    && if s.mem.Some? then MemOK(s) else s.tok == map[]
  }

  // ---------------------------------------------------------------- a message is tracked and noted

  lemma TokTrack(j: nat, t: Tok, mem: Memory, after: Memory, rec: Record, b: Book, id: nat, e: Entry)
    requires TokOK(j, t, mem, rec, b) && id !in mem.inflight && id !in mem.withdrawn && mem.positioned
    requires after == mem.(inflight := mem.inflight[id := e], resentOn := after.resentOn, noting := after.noting)
    ensures j != id && TokOK(j, t, after, rec, b)
  {
  }

  lemma ListTrack(x: Entries, stored: Entries, b: Book, id: nat, m: nat)
    requires ListOK(x, b) && id !in x && m !in b.out && m !in b.accepted && m !in b.closed
    requires forall i :: i in x ==> x[i].m != m
    requires Backed(stored, x)
    ensures ListOK(x[id := Entry(m, false)], b) && Backed(stored, x[id := Entry(m, false)])
  {
  }

  lemma KeepTrack(s: State, step: Step)
    requires Inv(s) && Can(s, step) && step.Track?
    ensures Inv(Do(s, step))
  {
    hide ListOK, Backed, CpOK, TokOK;
    var mem, m, id := s.mem.value, step.m, step.id;
    var after := Do(s, step).mem.value;
    assert m !in s.book.out && m !in s.book.accepted && m !in s.book.closed;
    ListTrack(mem.inflight, s.rec.inflight, s.book, id, m);
    ListTrack(mem.inflight, CpEntries(mem.cp), s.book, id, m);
    forall j | j in s.tok ensures j != id && TokOK(j, s.tok[j], after, s.rec, s.book) {
      TokTrack(j, s.tok[j], mem, after, s.rec, s.book, id, Entry(m, false));
    }
  }

  lemma TokNote(j: nat, t: Tok, mem: Memory, after: Memory, rec: Record, b: Book)
    requires TokOK(j, t, mem, rec, b)
    requires mem.delivered <= after.delivered && after == mem.(delivered := after.delivered, noting := after.noting)
    ensures TokOK(j, t, after, rec, b)
  {
  }

  lemma KeepNote(s: State, step: Step)
    requires Inv(s) && Can(s, step) && step.Note?
    ensures Inv(Do(s, step))
  {
    hide ListOK, Backed, TokOK;
    var mem, after, n := s.mem.value, Do(s, step).mem.value, s.mem.value.noting;
    forall j | j in s.tok ensures TokOK(j, s.tok[j], after, s.rec, s.book) {
      TokNote(j, s.tok[j], mem, after, s.rec, s.book);
    }
    assert TokOK(n.id, Ready(n.m), after, s.rec, s.book) by { TokReady(n.id, n.m, after, s.rec, s.book); }
  }

  lemma TokReady(id: nat, m: nat, mem: Memory, rec: Record, b: Book)
    requires Unsent(id, m, mem, b)
    ensures TokOK(id, Ready(m), mem, rec, b)
  {
  }

  // ---------------------------------------------------------------- records are asked for and written

  lemma TokAsk(j: nat, t: Tok, mem: Memory, after: Memory, rec: Record, b: Book)
    requires TokOK(j, t, mem, rec, b) && CpOK(mem.cp, rec.delivered, mem.delivered, mem.activity, mem.mark)
    requires after == mem.(activity := mem.activity + 1)
    ensures TokOK(j, t, after, rec, b)
    ensures t.Ready? ==> TokOK(j, Asked(t.m, after.activity), after, rec, b)
    ensures t.RelQueued? ==> TokOK(j, RelAsked(after.activity), after, rec, b)
  {
  }

  lemma KeepAsk(s: State, step: Step)
    requires Inv(s) && Can(s, step) && (step.AskSend? || step.AskRel?)
    ensures Inv(Do(s, step))
  {
    hide ListOK, Backed, TokOK, NotedOK, LateOK;
    var mem, t := s.mem.value, Do(s, step);
    forall j | j in t.tok ensures TokOK(j, t.tok[j], t.mem.value, s.rec, s.book) {
      TokAsk(j, s.tok[j], mem, t.mem.value, s.rec, s.book);
    }
  }

  lemma TokCp(j: nat, t: Tok, mem: Memory, after: Memory, rec: Record, b: Book)
    requires TokOK(j, t, mem, rec, b)
    requires after == mem.(cp := after.cp)
    requires after.cp.Loaded? || (after.cp.GotDelivered? && after.cp.d == mem.delivered)
             || (mem.cp.GotDelivered? && after.cp == GotAll(mem.cp.a, mem.cp.d, mem.cp.from, mem.inflight))
    ensures TokOK(j, t, after, rec, b)
  {
  }

  lemma KeepSnapshot(s: State, step: Step)
    requires Inv(s) && Can(s, step) && (step.CpBegin? || step.CpDelivered? || step.CpInflight?)
    ensures Inv(Do(s, step))
  {
    hide TokOK, NotedOK, LateOK, Bound, Past, Guarded;
    var mem, after := s.mem.value, Do(s, step).mem.value;
    if after != mem {
      forall j | j in s.tok ensures TokOK(j, s.tok[j], after, s.rec, s.book) {
        TokCp(j, s.tok[j], mem, after, s.rec, s.book);
      }
      NoList(s.book);
    }
  }

  lemma NoList(b: Book)
    ensures ListOK(map[], b)
  {
  }

  lemma TokWrite(j: nat, t: Tok, mem: Memory, after: Memory, rec: Record, b: Book)
    requires TokOK(j, t, mem, rec, b) && mem.cp.GotAll?
    requires after == mem.(cp := NoCp, mark := Some(mem.cp.a))
    ensures TokOK(j, t, after, Record(mem.cp.f, mem.cp.d, mem.cp.from), b)
  {
  }

  lemma KeepWrite(s: State, step: Step)
    requires Inv(s) && Can(s, step) && step.CpWrite?
    ensures Inv(Do(s, step))
  {
    hide TokOK, NotedOK, LateOK, ListOK;
    var mem, t := s.mem.value, Do(s, step);
    forall j | j in s.tok ensures TokOK(j, s.tok[j], t.mem.value, t.rec, s.book) {
      TokWrite(j, s.tok[j], mem, t.mem.value, s.rec, s.book);
    }
    NoList(s.book);
  }

  // ---------------------------------------------------------------- a PUBLISH goes out

  /** Naming the identifier of a message that was never sent before. */
  lemma ListBind(x: Entries, inflight: Entries, b: Book, id: nat)
    requires ListOK(x, b) && Bound(inflight, b) && id in inflight
    requires Backed(x, inflight) || x == inflight
    ensures ListOK(x, b.(out := b.out[inflight[id].m := id]))
  {
    assert forall i :: i in x && x[i].m == inflight[id].m ==> i == id;
  }

  lemma TokBind(j: nat, t: Tok, mem: Memory, rec: Record, b: Book, id: nat)
    requires TokOK(j, t, mem, rec, b) && Bound(mem.inflight, b) && id in mem.inflight && j != id
    ensures TokOK(j, t, mem, rec, b.(out := b.out[mem.inflight[id].m := id]))
  {
  }

  lemma SentKeeps(s: State, id: nat)
    requires Inv(s) && s.mem.Some? && id in s.mem.value.inflight && id in s.tok
    requires var mem, m := s.mem.value, s.mem.value.inflight[id].m;
             && Settled(s.rec, m) && (m < mem.since || m in mem.delivered)
             && (Snapped(mem.cp) ==> m < mem.since || m in mem.cp.d)
             && !mem.inflight[id].rel && (mem.noting.Noting? ==> mem.noting.id != id)
             && (s.tok[id].Again? ==> id in mem.resentOn && mem.resentOn[id] == mem.conn)
    ensures Inv(SentOut(s, s.mem.value.inflight[id].m, id))
  {
    hide TokOK, CpOK, NotedOK, ListOK, Bound, Past, Guarded, Backed, Settled, Snapped;
    var mem, m := s.mem.value, s.mem.value.inflight[id].m;
    var t := SentOut(s, m, id);
    ListParts(mem.inflight, s.book, id);
    ListBind(mem.inflight, mem.inflight, s.book, id);
    ListBind(s.rec.inflight, mem.inflight, s.book, id);
    ListBind(CpEntries(mem.cp), mem.inflight, s.book, id);
    forall j | j in t.tok ensures TokOK(j, t.tok[j], mem, s.rec, t.book) {
      if j == id {
        TokPub(id, m, mem, s.rec, t.book);
      } else {
        TokBind(j, s.tok[j], mem, s.rec, s.book, id);
      }
    }
  }

  lemma ListParts(x: Entries, b: Book, id: nat)
    requires ListOK(x, b)
    ensures Bound(x, b)
    ensures id in x && !x[id].rel ==> x[id].m !in b.closed && (x[id].m in b.accepted ==> id in b.held)
    ensures id in x && x[id].m in b.out ==> b.out[x[id].m] == id
  {
  }

  lemma TokPub(id: nat, m: nat, mem: Memory, rec: Record, b: Book)
    requires id in mem.inflight && mem.inflight[id].m == m && m in b.out && m !in b.closed
    requires (m in b.accepted ==> id in b.held)
    ensures TokOK(id, Pub(m), mem, rec, b)
  {
  }

  lemma KeepSendPub(s: State, step: Step)
    requires Inv(s) && Can(s, step) && step.SendPub?
    ensures Inv(Do(s, step))
  {
    hide NotedOK, LateOK, Backed, ListOK, PhaseOK;
    assert TokOK(step.id, s.tok[step.id], s.mem.value, s.rec, s.book);
    SentKeeps(s, step.id);
  }

  // ---------------------------------------------------------------- past the PUBREC

  function MarkRel(x: Entries, id: nat): Entries
    requires id in x
  {
    x[id := x[id].(rel := true)]
  }

  lemma ListRel(x: Entries, b: Book, id: nat)
    requires ListOK(x, b) && id in x && x[id].m in b.out
    ensures ListOK(MarkRel(x, id), b)
    ensures forall y :: Backed(y, x) ==> Backed(y, MarkRel(x, id))
  {
  }

  lemma TokRel(j: nat, t: Tok, mem: Memory, after: Memory, rec: Record, b: Book, id: nat)
    requires TokOK(j, t, mem, rec, b) && id in mem.inflight
    requires after == mem.(inflight := MarkRel(mem.inflight, id)) && (j != id || !(t.Ready? || t.Asked?))
    ensures TokOK(j, t, after, rec, b)
    ensures j == id && t.Rec? ==> TokOK(j, RelQueued, after, rec, b)
  {
  }

  /** The exchange moves past its PUBREC in memory. */
  lemma RelKeeps(s: State, id: nat, t: State)
    requires Inv(s) && s.mem.Some? && id in s.mem.value.inflight && s.mem.value.inflight[id].m in s.book.out
    requires id in s.tok ==> !(s.tok[id].Ready? || s.tok[id].Asked?)
    requires s.mem.value.noting.Noting? ==> s.mem.value.noting.id != id
    requires var mem := s.mem.value;
             t == s.(mem := Some(mem.(inflight := MarkRel(mem.inflight, id))),
                     tok := if TokIs(s, id, Rec) && t.tok != s.tok then s.tok[id := RelQueued] else s.tok)
    ensures Inv(t)
  {
    hide TokOK, CpOK, ListOK, Backed;
    var mem, after := s.mem.value, t.mem.value;
    ListRel(mem.inflight, s.book, id);
    forall j | j in t.tok ensures TokOK(j, t.tok[j], after, s.rec, s.book) {
      TokRel(j, s.tok[j], mem, after, s.rec, s.book, id);
    }
  }

  lemma KeepHandleRec(s: State, step: Step)
    requires Inv(s) && Can(s, step) && step.HandleRec?
    ensures Inv(Do(s, step))
  {
    hide CpOK, NotedOK, LateOK, Backed, ListOK, PhaseOK;
    assert TokOK(step.id, s.tok[step.id], s.mem.value, s.rec, s.book);
    RelKeeps(s, step.id, Do(s, step));
  }

  lemma KeepLateRec(s: State, step: Step)
    requires Inv(s) && Can(s, step) && step.LateRec?
    ensures Inv(Do(s, step))
  {
    hide CpOK, NotedOK, Backed, ListOK, PhaseOK;
    if step.ack.id in s.tok { assert TokOK(step.ack.id, s.tok[step.ack.id], s.mem.value, s.rec, s.book); }
    if step.ack.id in s.mem.value.inflight { RelKeeps(s, step.ack.id, Do(s, step)); }
  }

  // ---------------------------------------------------------------- a PUBREL goes out

  lemma ListClose(x: Entries, inflight: Entries, b: Book, id: nat)
    requires ListOK(x, b) && Bound(inflight, b) && id in inflight && RelIn(x, id)
    requires Backed(x, inflight) || x == inflight
    ensures ListOK(x, b.(closed := b.closed + {inflight[id].m}))
  {
    forall i | i in x && x[i].m == inflight[id].m ensures x[i].rel { }
  }

  lemma TokClose(j: nat, t: Tok, mem: Memory, rec: Record, b: Book, id: nat)
    requires TokOK(j, t, mem, rec, b) && Bound(mem.inflight, b) && id in mem.inflight && j != id
    ensures TokOK(j, t, mem, rec, b.(closed := b.closed + {mem.inflight[id].m}))
  {
  }

  lemma TokReleased(id: nat, mem: Memory, rec: Record, b: Book)
    requires id in mem.inflight && mem.inflight[id].m in b.closed
    ensures TokOK(id, Rel, mem, rec, b)
  {
  }

  /** A PUBREL goes out once neither the record nor a record being written would resend the PUBLISH. */
  lemma CloseKeeps(s: State, id: nat)
    requires Inv(s) && s.mem.Some? && id in s.mem.value.inflight && id in s.tok
    requires s.mem.value.inflight[id].rel && s.mem.value.inflight[id].m in s.book.out
    requires RelIn(s.rec.inflight, id) && RelIn(CpEntries(s.mem.value.cp), id)
    requires s.mem.value.noting.Noting? ==> s.mem.value.noting.id != id
    requires s.tok[id].Again? ==> id in s.mem.value.resentOn && s.mem.value.resentOn[id] == s.mem.value.conn
    ensures Inv(Released(s, id))
  {
    hide TokOK, CpOK, NotedOK, ListOK, Bound, Backed, RelIn;
    var mem, t := s.mem.value, Released(s, id);
    assert RelIn(mem.inflight, id) by { RelInSelf(mem.inflight, id); }
    assert Bound(mem.inflight, s.book) by { ListParts(mem.inflight, s.book, id); }
    ListClose(mem.inflight, mem.inflight, s.book, id);
    ListClose(s.rec.inflight, mem.inflight, s.book, id);
    ListClose(CpEntries(mem.cp), mem.inflight, s.book, id);
    forall j | j in t.tok ensures TokOK(j, t.tok[j], mem, s.rec, t.book) {
      if j == id {
        TokReleased(id, mem, s.rec, t.book);
      } else {
        TokClose(j, s.tok[j], mem, s.rec, s.book, id);
      }
    }
  }

  lemma RelInSelf(x: Entries, id: nat)
    requires id in x && x[id].rel
    ensures RelIn(x, id)
  {
  }

  lemma RelInOut(x: Entries, b: Book, id: nat)
    requires ListOK(x, b) && id in x && x[id].rel
    ensures x[id].m in b.out
  {
  }

  lemma KeepSendRel(s: State, step: Step)
    requires Inv(s) && Can(s, step) && step.SendRel?
    ensures Inv(Do(s, step))
  {
    hide NotedOK, LateOK, Backed, ListOK, PhaseOK, RelIn;
    var mem, id := s.mem.value, step.id;
    assert TokOK(id, s.tok[id], mem, s.rec, s.book);
    RelInOut(mem.inflight, s.book, id);
    assert RelIn(CpEntries(mem.cp), id) by { if !mem.cp.GotAll? { RelInNone(id); } }
    CloseKeeps(s, id);
  }

  lemma RelInNone(id: nat)
    ensures RelIn(map[], id)
  {
  }

  lemma TokFree(id: nat, mem: Memory, rec: Record, b: Book)
    requires Owned(id, mem, b) && rec.inflight == map[] && mem.cp.NoCp?
    ensures TokOK(id, RelFree, mem, rec, b)
  {
  }

  lemma KeepRelTimeout(s: State, step: Step)
    requires Inv(s) && Can(s, step) && step.RelTimeout?
    ensures Inv(Do(s, step))
  {
    hide NotedOK, LateOK, Backed, ListOK, CpOK;
    assert TokOK(step.id, s.tok[step.id], s.mem.value, s.rec, s.book);
    TokFree(step.id, s.mem.value, s.rec, s.book);
    hide TokOK;
  }

  lemma TokResent(j: nat, t: Tok, mem: Memory, rec: Record, b: Book, resentOn: map<nat, nat>)
    requires TokOK(j, t, mem, rec, b)
    ensures TokOK(j, t, mem.(resentOn := resentOn), rec, b)
  {
  }

  /** Naming the connection an exchange is resent on. */
  lemma ResentKeeps(s: State, id: nat)
    requires Inv(s) && s.mem.Some?
    ensures Inv(s.(mem := Some(s.mem.value.(resentOn := s.mem.value.resentOn[id := s.mem.value.conn]))))
  {
    hide NotedOK, LateOK, Backed, ListOK, CpOK, TokOK, ClientOK;
    var mem := s.mem.value;
    var resentOn := mem.resentOn[id := mem.conn];
    forall j | j in s.tok ensures TokOK(j, s.tok[j], mem.(resentOn := resentOn), s.rec, s.book) {
      TokResent(j, s.tok[j], mem, s.rec, s.book, resentOn);
    }
  }

  lemma KeepResend(s: State, step: Step)
    requires Inv(s) && Can(s, step) && step.Resend?
    ensures Inv(Do(s, step))
  {
    hide LateOK, Backed, ListOK, CpOK, TokOK;
    var mem, id := s.mem.value, step.id;
    ListParts(mem.inflight, s.book, id);
    if id in mem.inflight {
      ResentKeeps(s, id);
      var t := s.(mem := Some(mem.(resentOn := mem.resentOn[id := mem.conn])));
      if mem.inflight[id].rel {
        RelInOut(mem.inflight, s.book, id);
        CloseKeeps(t, id);
      } else {
        SentKeeps(t, id);
      }
    }
  }

  // ---------------------------------------------------------------- an exchange ends

  lemma ListRemove(x: Entries, b: Book, id: nat)
    requires ListOK(x, b)
    ensures ListOK(x - {id}, b)
  {
  }

  lemma BackedRemove(x: Entries, inflight: Entries, b: Book, id: nat)
    requires ListOK(x, b) && Backed(x, inflight) && (id in inflight ==> inflight[id].m in b.closed)
    ensures Backed(x, inflight - {id})
  {
  }

  lemma TokRemove(j: nat, t: Tok, mem: Memory, after: Memory, rec: Record, b: Book, id: nat)
    requires TokOK(j, t, mem, rec, b)
    requires after == mem.(inflight := mem.inflight - {id}, withdrawn := after.withdrawn)
    requires forall i :: i != id && i in mem.withdrawn ==> i in after.withdrawn
    requires j == id ==> t.Again? || ((t.Rel? || t.Comp?) && id in after.withdrawn)
    ensures TokOK(j, t, after, rec, b)
  {
  }

  lemma RemoveKeeps(s: State, id: nat, t: State)
    requires Inv(s) && s.mem.Some? && t.mem.Some?
    requires (id in s.mem.value.inflight ==> s.mem.value.inflight[id].m in s.book.closed)
    requires t == s.(mem := t.mem, tok := t.tok)
    requires t.mem.value == s.mem.value.(inflight := s.mem.value.inflight - {id}, withdrawn := t.mem.value.withdrawn)
    requires forall i :: i != id && i in s.mem.value.withdrawn ==> i in t.mem.value.withdrawn
    requires t.tok == s.tok || t.tok == s.tok - {id}
    requires id in t.tok ==> s.tok[id].Again? || ((s.tok[id].Rel? || s.tok[id].Comp?) && id in t.mem.value.withdrawn)
    requires s.mem.value.noting.Noting? ==> s.mem.value.noting.id != id
    ensures Inv(t)
  {
    hide TokOK, CpOK, ListOK, Backed;
    var mem, after := s.mem.value, t.mem.value;
    ListRemove(mem.inflight, s.book, id);
    BackedRemove(s.rec.inflight, mem.inflight, s.book, id);
    BackedRemove(CpEntries(mem.cp), mem.inflight, s.book, id);
    forall j | j in t.tok ensures TokOK(j, t.tok[j], after, s.rec, s.book) {
      TokRemove(j, s.tok[j], mem, after, s.rec, s.book, id);
    }
  }

  lemma KeepHandleComp(s: State, step: Step)
    requires Inv(s) && Can(s, step) && step.HandleComp?
    ensures Inv(Do(s, step))
  {
    hide NotedOK, LateOK, Backed, ListOK, CpOK, PhaseOK;
    assert TokOK(step.id, s.tok[step.id], s.mem.value, s.rec, s.book);
    RemoveKeeps(s, step.id, Do(s, step));
  }

  lemma KeepLateComp(s: State, step: Step)
    requires Inv(s) && Can(s, step) && step.LateComp?
    ensures Inv(Do(s, step))
  {
    hide NotedOK, Backed, CpOK, PhaseOK, Bound, Guarded, ReachOK;
    var id := step.ack.id;
    if id in s.tok { assert TokOK(id, s.tok[id], s.mem.value, s.rec, s.book); }
    if id in s.mem.value.inflight { RemoveKeeps(s, id, Do(s, step)); }
  }

  // ---------------------------------------------------------------- the client

  function Accepting(b: Book, m: nat, id: nat): Book {
    b.(accepted := b.accepted + multiset{m}, held := b.held + {id})
  }

  lemma ListAccept(x: Entries, inflight: Entries, b: Book, m: nat, id: nat)
    requires ListOK(x, b) && m in b.out && b.out[m] == id && id in inflight && inflight[id].m == m
    requires Backed(x, inflight) || x == inflight
    ensures ListOK(x, Accepting(b, m, id))
  {
  }

  lemma TokAccept(j: nat, t: Tok, mem: Memory, rec: Record, b: Book, m: nat, id: nat)
    requires TokOK(j, t, mem, rec, b) && Bound(mem.inflight, b) && m in b.out && b.out[m] == id
    ensures TokOK(j, t, mem, rec, Accepting(b, m, id))
  {
  }

  lemma TokRec(id: nat, m: nat, mem: Memory, rec: Record, b: Book, after: Book)
    requires TokOK(id, Pub(m), mem, rec, b) && after.out == b.out && after.closed == b.closed
    ensures TokOK(id, Rec, mem, rec, after)
    ensures m in b.out && id in mem.inflight && mem.inflight[id].m == m && (m in b.accepted ==> id in b.held)
  {
  }

  lemma TokOfPub(id: nat, m: nat, mem: Memory, rec: Record, b: Book)
    requires TokOK(id, Pub(m), mem, rec, b)
    ensures id in mem.inflight && mem.inflight[id].m == m
  {
  }

  /** The client takes a message it has not taken before, or answers one whose identifier it holds. */
  lemma KeepClientPub(s: State, step: Step)
    requires Inv(s) && Can(s, step) && step.ClientPub?
    ensures Inv(Do(s, step))
    ensures s.tok[step.id].m in s.book.accepted ==> step.id in s.book.held
  {
    hide NotedOK, Backed, ListOK, CpOK, TokOK, Bound, Settled;
    var mem, id, m, t := s.mem.value, step.id, s.tok[step.id].m, Do(s, step);
    TokOfPub(id, m, mem, s.rec, s.book);
    ListParts(mem.inflight, s.book, id);
    TokRec(id, m, mem, s.rec, s.book, t.book);
    if id !in s.book.held {
      ListAccept(mem.inflight, mem.inflight, s.book, m, id);
      ListAccept(s.rec.inflight, mem.inflight, s.book, m, id);
      ListAccept(CpEntries(mem.cp), mem.inflight, s.book, m, id);
      forall j | j in s.tok && j != id ensures TokOK(j, s.tok[j], mem, s.rec, t.book) {
        TokAccept(j, s.tok[j], mem, s.rec, s.book, m, id);
      }
    }
  }

  lemma ListDrop(x: Entries, inflight: Entries, b: Book, id: nat)
    requires ListOK(x, b) && (id in inflight ==> inflight[id].m in b.closed)
    requires Backed(x, inflight) || x == inflight
    ensures ListOK(x, b.(held := b.held - {id}))
  {
  }

  lemma TokDrop(j: nat, t: Tok, mem: Memory, rec: Record, b: Book, id: nat)
    requires TokOK(j, t, mem, rec, b)
    ensures j != id ==> TokOK(j, t, mem, rec, b.(held := b.held - {id}))
    ensures t.Rel? ==> TokOK(j, Comp, mem, rec, b.(held := b.held - {id}))
    ensures t.Rel? && j in mem.inflight ==> mem.inflight[j].m in b.closed
  {
  }

  lemma KeepClientRel(s: State, step: Step)
    requires Inv(s) && Can(s, step) && step.ClientRel?
    ensures Inv(Do(s, step))
  {
    hide NotedOK, Backed, ListOK, CpOK, TokOK;
    var mem, id, t := s.mem.value, step.id, Do(s, step);
    forall j | j in t.tok ensures TokOK(j, t.tok[j], mem, s.rec, t.book) {
      TokDrop(j, s.tok[j], mem, s.rec, s.book, id);
    }
    TokDrop(id, s.tok[id], mem, s.rec, s.book, id);
    ListDrop(mem.inflight, mem.inflight, s.book, id);
    ListDrop(s.rec.inflight, mem.inflight, s.book, id);
    ListDrop(CpEntries(mem.cp), mem.inflight, s.book, id);
  }

  // ---------------------------------------------------------------- connections and brokers end and begin

  lemma TokAgain(id: nat, mem: Memory, rec: Record, b: Book)
    requires !mem.positioned
    ensures TokOK(id, Again, mem, rec, b)
  {
  }

  lemma NoneBacked(inflight: Entries)
    ensures Backed(map[], inflight)
  {
  }

  /** What a connection leaves unread was sent, and a PUBCOMP among it ends what it names. */
  lemma LateMore(s: State)
    requires Inv(s) && s.mem.Some?
    ensures var late := s.mem.value.late + Acks(s.tok, s.mem.value.conn);
            && LateOK(late, s.mem.value.inflight, s.book)
            && (s.mem.value.noting.Noting? ==> !Unread(late, s.mem.value.noting.id))
            && forall a :: a in late ==> a.conn < s.mem.value.conn + 1
  {
    hide NotedOK, Backed, ListOK, CpOK, PhaseOK, ReachOK;
    var mem := s.mem.value;
    forall i | i in s.tok && (s.tok[i].Rec? || s.tok[i].Comp?)
      ensures i in mem.inflight ==>
                mem.inflight[i].m in if s.tok[i].Rec? then s.book.out.Keys else s.book.closed
    {
      assert TokOK(i, s.tok[i], mem, s.rec, s.book);
    }
  }

  lemma SettledStill(b: Book, rec: Record)
    requires ClientOK(b, rec)
    ensures ClientOK(b, rec.(inflight := map[]))
  {
  }

  lemma KeepReconnect(s: State, step: Step)
    requires Inv(s) && Can(s, step) && step.Reconnect?
    ensures Inv(Do(s, step))
  {
    hide NotedOK, Backed, ListOK, CpOK, TokOK, LateOK, Acks, Unread, ClientOK;
    var mem, t := s.mem.value, Do(s, step);
    LateMore(s);
    SettledStill(s.book, s.rec);
    NoList(s.book);
    NoneBacked(mem.inflight);
    NoCheckpoint(s.rec.delivered, mem.delivered, mem.activity);
    StaleNoted(mem.inflight, mem.delivered, mem.since, mem.noting, t.mem.value.noting);
    forall j | j in t.tok ensures TokOK(j, t.tok[j], t.mem.value, t.rec, s.book) {
      TokAgain(j, t.mem.value, t.rec, s.book);
    }
  }

  lemma NoCheckpoint(known: set<nat>, delivered: set<nat>, activity: nat)
    ensures CpOK(NoCp, known, delivered, activity, None)
  {
  }

  lemma StaleNoted(inflight: Entries, delivered: set<nat>, since: nat, n: Noting, stale: Noting)
    requires NotedOK(inflight, delivered, since, n) && stale == if n.Noting? then n.(stale := true) else Nothing
    ensures NotedOK(inflight, delivered, since, stale)
  {
  }

  lemma TokPosition(j: nat, t: Tok, mem: Memory, rec: Record, b: Book)
    requires TokOK(j, t, mem, rec, b) && !t.Again?
    ensures TokOK(j, t, mem.(positioned := true), rec, b)
  {
  }

  lemma KeepPosition(s: State, step: Step)
    requires Inv(s) && Can(s, step) && step.Position?
    ensures Inv(Do(s, step))
  {
    hide NotedOK, Backed, ListOK, CpOK, TokOK, LateOK;
    forall j | j in s.tok ensures TokOK(j, s.tok[j], Do(s, step).mem.value, s.rec, s.book) {
      TokPosition(j, s.tok[j], s.mem.value, s.rec, s.book);
    }
  }

  lemma TokLateDrop(j: nat, t: Tok, mem: Memory, rec: Record, b: Book, ack: Ack)
    requires TokOK(j, t, mem, rec, b)
    ensures TokOK(j, t, mem.(late := mem.late - {ack}), rec, b)
  {
  }

  lemma KeepLateDrop(s: State, step: Step)
    requires Inv(s) && Can(s, step) && step.LateDrop?
    ensures Inv(Do(s, step))
  {
    hide NotedOK, Backed, ListOK, CpOK, TokOK;
    forall j | j in s.tok ensures TokOK(j, s.tok[j], Do(s, step).mem.value, s.rec, s.book) {
      TokLateDrop(j, s.tok[j], s.mem.value, s.rec, s.book, step.ack);
    }
  }

  lemma KeepRelease(s: State, step: Step)
    requires Inv(s) && Can(s, step) && step.Release?
    ensures Inv(Do(s, step))
  {
    hide ListOK, TokOK, LateOK, Acks, NotedOK;
    LateMore(s);
  }

  lemma KeepKill(s: State, step: Step)
    requires Inv(s) && Can(s, step) && step.Kill?
    ensures Inv(Do(s, step))
  {
    hide ListOK, TokOK, LateOK, ClientOK, MemOK;
  }

  lemma ListFewer(x: Entries, b: Book, lost: set<nat>)
    requires ListOK(x, b)
    ensures ListOK(x - lost, b)
  {
  }

  /** A restored session knows every message of its exchanges. */
  lemma RestoredNoted(kept: Entries, b: Book, since: nat, delivered: set<nat>)
    requires Bound(kept, b) && forall m :: m in b.out ==> m < since || m in delivered
    ensures NotedOK(kept, delivered + Restored(kept), since, Nothing)
  {
    forall i | i in kept ensures kept[i].m in delivered + Restored(kept) || kept[i].m < since {
      if !kept[i].rel { assert kept[i].m in Restored(kept); }
    }
  }

  /** A session resumed from some of the stored exchanges, by a broker that claimed the record. */
  lemma ResumedKeeps(s: State, t: State, lost: set<nat>, withdrawn: set<nat>)
    requires ListOK(s.rec.inflight, s.book) && ClientOK(s.book, t.rec) && t.mem.Some?
    requires var kept := s.rec.inflight - lost;
             && t.rec.inflight == map[] && t.tok == ToResend(kept) && t.book == s.book
             && t.mem.value == Resumed(kept, t.mem.value.delivered - Restored(kept), t.rec.from, withdrawn)
             && t.rec.delivered <= t.mem.value.delivered
    ensures Inv(t)
  {
    hide ListOK, TokOK, Bound, Backed, CpOK, Restored, NotedOK;
    var kept, mem := s.rec.inflight - lost, t.mem.value;
    ListFewer(s.rec.inflight, s.book, lost);
    ListParts(kept, s.book, 0);
    RestoredNoted(kept, s.book, mem.since, mem.delivered);
    assert mem.delivered + Restored(kept) == mem.delivered;
    NoList(s.book);
    NoneBacked(kept);
    NoCheckpoint(t.rec.delivered, mem.delivered, 0);
    forall j | j in t.tok ensures TokOK(j, t.tok[j], mem, t.rec, s.book) {
      TokAgain(j, mem, t.rec, s.book);
    }
  }

  lemma KeepRestore(s: State, step: Step)
    requires Inv(s) && Can(s, step) && step.Restore?
    ensures Inv(Do(s, step))
  {
    hide ListOK, Restored;
    var kept, more := s.rec.inflight - step.lost, s.rec.delivered + step.more;
    assert more + Restored(kept) == (more + Restored(kept) - Restored(kept)) + Restored(kept);
    ResumedKeeps(s, Do(s, step), step.lost, step.withdrawn);
  }

  /** A broker that takes the session over from one that is alive: its record starts where the claim was made. */
  lemma KeepTakeover(s: State, step: Step)
    requires Inv(s) && Can(s, step) && step.Takeover?
    ensures Inv(Do(s, step))
  {
    hide ListOK, Restored, MemOK;
    var kept := s.rec.inflight - step.lost;
    assert {} + Restored(kept) == ({} + Restored(kept) - Restored(kept)) + Restored(kept);
    ResumedKeeps(s, Do(s, step), step.lost, step.withdrawn);
  }

  // ---------------------------------------------------------------- runs

  ghost predicate Initial(s: State) {
    s.mem.None? && s.rec == Record(map[], {}, 0) && s.tok == map[] && s.book == Book({}, multiset{}, map[], {})
  }

  ghost predicate IsRun(run: seq<State>, steps: seq<Step>) {
    && |run| == |steps| + 1
    && Initial(run[0])
    && forall i :: 0 <= i < |steps| ==> Can(run[i], steps[i]) && run[i + 1] == Do(run[i], steps[i])
  }

  lemma StepKeeps(s: State, step: Step)
    requires Inv(s) && Can(s, step)
    ensures Inv(Do(s, step))
  {
    hide Inv, Enabled, Relied, Do;
    match step
    case Track(_, _) => KeepTrack(s, step);
    case Note => KeepNote(s, step);
    case AskSend(_) | AskRel(_) => KeepAsk(s, step);
    case SendPub(_) => KeepSendPub(s, step);
    case CpBegin | CpDelivered(_) | CpInflight => KeepSnapshot(s, step);
    case CpWrite => KeepWrite(s, step);
    case HandleRec(_) => KeepHandleRec(s, step);
    case RelTimeout(_) => KeepRelTimeout(s, step);
    case SendRel(_) => KeepSendRel(s, step);
    case HandleComp(_) => KeepHandleComp(s, step);
    case ClientPub(_) => KeepClientPub(s, step);
    case ClientRel(_) => KeepClientRel(s, step);
    case Reconnect(_) => KeepReconnect(s, step);
    case Resend(_) => KeepResend(s, step);
    case Position => KeepPosition(s, step);
    case LateRec(_) => KeepLateRec(s, step);
    case LateComp(_) => KeepLateComp(s, step);
    case LateDrop(_) => KeepLateDrop(s, step);
    case Release(_) => KeepRelease(s, step);
    case Kill => KeepKill(s, step);
    case Restore(_, _, _) => KeepRestore(s, step);
    case Takeover(_, _, _) => KeepTakeover(s, step);
  }

  lemma {:induction false} EveryRunHolds(run: seq<State>, steps: seq<Step>, i: nat)
    requires IsRun(run, steps) && i < |run|
    ensures Inv(run[i])
    decreases i
  {
    hide Enabled, Relied, Do;
    if i > 0 {
      hide Inv, Initial;
      EveryRunHolds(run, steps, i - 1);
      StepKeeps(run[i - 1], steps[i - 1]);
    }
  }

  /** In every run, with kills anywhere, the client has accepted no message more than once. */
  lemma AcceptedAtMostOnce(run: seq<State>, steps: seq<Step>, i: nat, m: nat)
    requires IsRun(run, steps) && i < |run|
    ensures run[i].book.accepted[m] <= 1
  {
    hide IsRun, MemOK, ListOK;
    EveryRunHolds(run, steps, i);
  }

  /**
    In every run, no PUBLISH is on its way for a message whose PUBREL has gone out, on this broker or an earlier
    one.
   */
  lemma NoPublishAfterPubrel(run: seq<State>, steps: seq<Step>, i: nat, id: nat)
    requires IsRun(run, steps) && i < |run| && id in run[i].tok && run[i].tok[id].Pub?
    ensures run[i].tok[id].m !in run[i].book.closed
  {
    hide IsRun, ListOK, ListsOK, CpOK, NotedOK, NotingOK, LateOK, PhaseOK;
    EveryRunHolds(run, steps, i);
    var s := run[i];
    assert TokOK(id, s.tok[id], s.mem.value, s.rec, s.book);
  }

  /**
    In every run, a message that was sent is named in the record or was stored before the first message a replay
    from the record reads, so no successor delivers it as a new one.
   */
  lemma SentIsRecorded(run: seq<State>, steps: seq<Step>, i: nat, m: nat)
    requires IsRun(run, steps) && i < |run| && m in run[i].book.out
    ensures m in run[i].rec.delivered || m < run[i].rec.from
  {
    hide IsRun, MemOK, ListOK;
    EveryRunHolds(run, steps, i);
  }
}
