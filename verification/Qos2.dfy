/**
  QoS 2 deliveries across connections, takeovers and killed brokers (subscribe.go, publish.go, retransmit.go,
  checkpoint.go, restore.go, sessionstore.go, section 4.3.3 of MQTT 5.0). A broker has memory, which a kill
  loses, and a record, which survives it; the client follows section 4.3.3 as a receiver. The invariants give:
  no client accepts a message twice, and no PUBLISH is sent for an exchange whose PUBREL has gone out. When no
  identifier is reused that the client still holds, no message is taken for received that the client did not take.

  A message is a number: its place in the order in which messages are stored.
 */
module Qos2 {
  import opened Topics

  /** An in-flight exchange: its message, and whether it is past its PUBREC. */
  datatype Entry = Entry(m: nat, rel: bool)

  type Entries = map<nat, Entry>

  /**
    Where the exchange with a Packet Identifier stands on the current connection. One identifier has at most
    one of these at a time: a step takes it and leaves the next, and only a free identifier gets a first one.
    Nothing is said about the order in which packets with different identifiers arrive.
   */
  datatype Tok =
    | Ready(m: nat)                // prepared, its record not asked for
    | Asked(m: nat, stamp: nat)    // waiting for a record at least as new as stamp
    | Pub(m: nat)                  // PUBLISH on its way to the client
    | Rec                          // PUBREC on its way to the broker
    | RelQueued                    // PUBREL queued, its record not asked for
    | RelAsked(stamp: nat)
    | RelFree                      // PUBREL to be written without waiting any longer
    | Rel                          // PUBREL on its way to the client
    | Comp                         // PUBCOMP on its way to the broker
    | Again                        // to be resent

  /** An acknowledgement connection `conn` had received and not read when it was replaced. */
  datatype Ack = Pubrec(id: nat, conn: nat) | Pubcomp(id: nat, conn: nat)

  /**
    A checkpoint under way: the activity it loaded, the ids and the first message a replay from it reads, the
    exchanges.
   */
  datatype Checkpoint =
    | NoCp
    | Loaded(a: nat)
    | GotDelivered(a: nat, d: set<nat>, from: nat)
    | GotAll(a: nat, d: set<nat>, from: nat, f: Entries)

  /** A message tracked in flight and not yet noted delivered; stale when its connection has been replaced. */
  datatype Noting = Nothing | Noting(id: nat, m: nat, stale: bool)

  /**
    `delivered` is the ids the session knows, and `since` the first message it can deliver as a new one: what was
    stored before is out of its replay's reach. `conn` numbers the connections, and `resentOn` says on which of
    them an exchange was last resent.
   */
  datatype Memory = Memory(inflight: Entries, delivered: set<nat>, since: nat, withdrawn: set<nat>, noting: Noting,
                           activity: nat, mark: Option<nat>, cp: Checkpoint, connected: bool, positioned: bool,
                           conn: nat, resentOn: map<nat, nat>, late: set<Ack>)

  /** `from` is the first message a replay from the record reads. */
  datatype Record = Record(inflight: Entries, delivered: set<nat>, from: nat)

  /**
    `held` is the identifiers the client has received and not released, `accepted` the messages it took. `out`
    names the identifier each message was first sent with, and `closed` the messages whose PUBREL has gone out.
   */
  datatype Book = Book(held: set<nat>, accepted: multiset<nat>, out: map<nat, nat>, closed: set<nat>)

  datatype State = State(mem: Option<Memory>, rec: Record, tok: map<nat, Tok>, book: Book)

  // ---------------------------------------------------------------- steps

  datatype Step =
    | Track(m: nat, id: nat) | Note | AskSend(ids: set<nat>) | SendPub(id: nat)
    | CpBegin | CpDelivered(from: nat) | CpInflight | CpWrite
    | HandleRec(id: nat) | AskRel(ids: set<nat>) | RelTimeout(id: nat) | SendRel(id: nat) | HandleComp(id: nat)
    | ClientPub(id: nat) | ClientRel(id: nat)
    | Reconnect(keep: set<nat>) | Resend(id: nat) | Position
    | LateRec(ack: Ack) | LateComp(ack: Ack) | LateDrop(ack: Ack)
    | Release(from: nat) | Kill
    | Restore(lost: set<nat>, more: set<nat>, withdrawn: set<nat>)
    | Takeover(lost: set<nat>, withdrawn: set<nat>, end: nat)

  predicate Newer(mark: Option<nat>, stamp: nat) { mark.Some? && mark.value >= stamp }

  predicate Unread(late: set<Ack>, id: nat) { exists a :: a in late && a.id == id }

  predicate TokIs(s: State, id: nat, t: Tok) { id in s.tok && s.tok[id] == t }

  predicate Live(s: State) { s.mem.Some? && s.mem.value.connected }

  /** No replay from the record delivers the message as a new one: it names it, or its replay starts above it. */
  predicate Settled(rec: Record, m: nat) { m < rec.from || m in rec.delivered }

  /** When a step can happen. */
  predicate Enabled(s: State, step: Step) {
    match step
    case Track(m, id) =>
      && Live(s) && s.mem.value.positioned && s.mem.value.noting.Nothing?
      && m >= s.mem.value.since && m !in s.mem.value.delivered
      && id !in s.mem.value.inflight && id !in s.mem.value.withdrawn
    case Note => s.mem.Some? && s.mem.value.noting.Noting?
    case AskSend(ids) => Live(s)
    case SendPub(id) => Live(s) && id in s.tok && s.tok[id].Asked? && Newer(s.mem.value.mark, s.tok[id].stamp)
    case CpBegin => Live(s) && s.mem.value.positioned && s.mem.value.cp.NoCp?
    case CpDelivered(from) => Live(s) && s.mem.value.cp.Loaded?
    case CpInflight => Live(s) && s.mem.value.cp.GotDelivered?
    case CpWrite => Live(s) && s.mem.value.cp.GotAll?
    case HandleRec(id) => Live(s) && TokIs(s, id, Rec)
    case AskRel(ids) => Live(s)
    // checkpointNowErr gives up waiting for the resumed position.
    case RelTimeout(id) => Live(s) && id in s.tok && s.tok[id].RelAsked? && !s.mem.value.positioned
    case SendRel(id) =>
      && Live(s) && id in s.tok
      && (s.tok[id].RelFree? || (s.tok[id].RelAsked? && Newer(s.mem.value.mark, s.tok[id].stamp)))
    case HandleComp(id) => Live(s) && TokIs(s, id, Comp)
    case ClientPub(id) => Live(s) && id in s.tok && s.tok[id].Pub?
    case ClientRel(id) => Live(s) && TokIs(s, id, Rel)
    case Reconnect(keep) => s.mem.Some? && keep <= s.mem.value.withdrawn
    case Resend(id) => Live(s) && TokIs(s, id, Again) && !s.mem.value.positioned && s.mem.value.noting.Nothing?
    case Position => Live(s) && !s.mem.value.positioned && forall id :: id in s.tok ==> !s.tok[id].Again?
    case LateRec(ack) => s.mem.Some? && ack in s.mem.value.late && ack.Pubrec?
    case LateComp(ack) => s.mem.Some? && ack in s.mem.value.late && ack.Pubcomp?
    case LateDrop(ack) => s.mem.Some?
    case Release(from) => Live(s) && s.mem.value.cp.NoCp? && s.mem.value.noting.Nothing?
    case Kill => s.mem.Some?
    case Restore(_, _, _) => s.mem.None?
    // Another broker claims the session while its owner answers; what was sent was stored before that.
    case Takeover(_, _, end) => Live(s) && forall m :: m in s.book.out ==> m < end
  }

  /** What the invariants rely on that the code does not check; `Qos2Limits` shows what happens without each. */
  predicate Relied(s: State, step: Step)
    requires Enabled(s, step)
  {
    match step
    // No acknowledgement of an earlier exchange with this identifier is still unread.
    case Track(m, id) => !Unread(s.mem.value.late, id)
    // The record knows the message: the write asked for when it was prepared was made.
    case Resend(id) =>
      id in s.mem.value.inflight && !s.mem.value.inflight[id].rel ==> Settled(s.rec, s.mem.value.inflight[id].m)
    // A record does not reach back beyond the claim it is written under.
    case CpDelivered(from) => from >= s.mem.value.since
    case Release(from) => from >= s.mem.value.since
    case _ => true
  }

  predicate Can(s: State, step: Step) { Enabled(s, step) && Relied(s, step) }

  /** The step gives a message no identifier the client still holds. */
  predicate LetGoOf(s: State, step: Step) { step.Track? ==> step.id !in s.book.held }

  /** The acknowledgements a connection leaves unread. */
  function Acks(tok: map<nat, Tok>, conn: nat): set<Ack> {
    (set id | id in tok && tok[id].Rec? :: Pubrec(id, conn)) +
    (set id | id in tok && tok[id].Comp? :: Pubcomp(id, conn))
  }

  function AskedFor(tok: map<nat, Tok>, ids: set<nat>, stamp: nat): map<nat, Tok> {
    map id | id in tok :: if id in ids && tok[id].Ready? then Asked(tok[id].m, stamp) else tok[id]
  }

  function RelAskedFor(tok: map<nat, Tok>, ids: set<nat>, stamp: nat): map<nat, Tok> {
    map id | id in tok :: if id in ids && tok[id].RelQueued? then RelAsked(stamp) else tok[id]
  }

  function ToResend(inflight: Entries): map<nat, Tok> { map id | id in inflight :: Again }

  /** What a restored session knows of the messages in its exchanges. */
  function Restored(entries: Entries): set<nat> { set id | id in entries && !entries[id].rel :: entries[id].m }

  /**
    A session restored from stored exchanges, which knows `delivered` and can deliver what is stored from `since`
    on.
   */
  function Resumed(kept: Entries, delivered: set<nat>, since: nat, withdrawn: set<nat>): Memory {
    Memory(kept, delivered + Restored(kept), since, withdrawn, Nothing, 0, None, NoCp, true, false, 0, map[], {})
  }

  /** The acknowledgements read on a connection that ended are still those of the exchanges they name. */
  function Ended(mem: Memory, tok: map<nat, Tok>): Memory {
    mem.(mark := None, cp := NoCp, positioned := false, conn := mem.conn + 1, late := mem.late + Acks(tok, mem.conn))
  }

  function Do(s: State, step: Step): State
    requires Enabled(s, step)
  {
    match step
    case Track(m, id) =>
      var mem := s.mem.value;
      s.(mem := Some(mem.(inflight := mem.inflight[id := Entry(m, false)], resentOn := mem.resentOn - {id},
                          noting := Noting(id, m, false))))
    case Note =>
      var mem, n := s.mem.value, s.mem.value.noting;
      s.(mem := Some(mem.(delivered := mem.delivered + {n.m}, noting := Nothing)),
         tok := if n.stale then s.tok else s.tok[n.id := Ready(n.m)])
    case AskSend(ids) =>
      var mem := s.mem.value;
      s.(mem := Some(mem.(activity := mem.activity + 1)), tok := AskedFor(s.tok, ids, mem.activity + 1))
    case SendPub(id) => SentOut(s, s.tok[id].m, id)
    case CpBegin =>
      var mem := s.mem.value;
      if mem.mark == Some(mem.activity) then s else s.(mem := Some(mem.(cp := Loaded(mem.activity))))
    case CpDelivered(from) =>
      var mem := s.mem.value;
      s.(mem := Some(mem.(cp := GotDelivered(mem.cp.a, mem.delivered, from))))
    case CpInflight =>
      var mem := s.mem.value;
      s.(mem := Some(mem.(cp := GotAll(mem.cp.a, mem.cp.d, mem.cp.from, mem.inflight))))
    case CpWrite =>
      var mem := s.mem.value;
      s.(rec := Record(mem.cp.f, mem.cp.d, mem.cp.from), mem := Some(mem.(cp := NoCp, mark := Some(mem.cp.a))))
    case HandleRec(id) =>
      var mem := s.mem.value;
      if id in mem.inflight
      then s.(mem := Some(mem.(inflight := mem.inflight[id := mem.inflight[id].(rel := true)])),
              tok := s.tok[id := RelQueued])
      else s.(tok := s.tok[id := Rel])
    case AskRel(ids) =>
      var mem := s.mem.value;
      s.(mem := Some(mem.(activity := mem.activity + 1)), tok := RelAskedFor(s.tok, ids, mem.activity + 1))
    case RelTimeout(id) => s.(tok := s.tok[id := RelFree])
    case SendRel(id) => Released(s, id)
    case HandleComp(id) =>
      var mem := s.mem.value;
      s.(mem := Some(mem.(inflight := mem.inflight - {id}, withdrawn := mem.withdrawn - {id})), tok := s.tok - {id})
    case ClientPub(id) =>
      var t := s.(tok := s.tok[id := Rec]);
      if id in s.book.held then t
      else t.(book := s.book.(held := s.book.held + {id}, accepted := s.book.accepted + multiset{s.tok[id].m}))
    case ClientRel(id) => s.(book := s.book.(held := s.book.held - {id}), tok := s.tok[id := Comp])
    case Reconnect(keep) =>
      var mem := s.mem.value;
      var noting := if mem.noting.Noting? then mem.noting.(stale := true) else Nothing;
      s.(mem := Some(Ended(mem, s.tok).(withdrawn := keep, noting := noting, connected := true)),
         rec := s.rec.(inflight := map[]), tok := ToResend(mem.inflight))
    case Resend(id) =>
      var mem := s.mem.value;
      if id !in mem.inflight then s.(tok := s.tok - {id})
      else
        var t := s.(mem := Some(mem.(resentOn := mem.resentOn[id := mem.conn])));
        if mem.inflight[id].rel then Released(t, id) else SentOut(t, mem.inflight[id].m, id)
    case Position => s.(mem := Some(s.mem.value.(positioned := true)))
    case LateRec(ack) =>
      var mem, id := s.mem.value, ack.id;
      if id in mem.inflight
      then s.(mem := Some(mem.(inflight := mem.inflight[id := mem.inflight[id].(rel := true)])))
      else s
    case LateComp(ack) =>
      var mem, id := s.mem.value, ack.id;
      if id !in mem.inflight then s
      else
        // The identifier stays owed when a later connection resent the exchange.
        var resent := id in mem.resentOn && mem.resentOn[id] != ack.conn;
        s.(mem := Some(mem.(inflight := mem.inflight - {id},
                            withdrawn := if resent then mem.withdrawn + {id} else mem.withdrawn)))
    case LateDrop(ack) => s.(mem := Some(s.mem.value.(late := s.mem.value.late - {ack})))
    case Release(from) =>
      var mem := s.mem.value;
      s.(rec := Record(mem.inflight, mem.delivered, from), tok := map[],
         mem := Some(Ended(mem, s.tok).(connected := false)))
    case Kill => s.(mem := None, tok := map[])
    case Restore(lost, more, withdrawn) =>
      var kept := s.rec.inflight - lost;
      s.(mem := Some(Resumed(kept, s.rec.delivered + more, s.rec.from, withdrawn)),
         rec := s.rec.(inflight := map[]), tok := ToResend(kept))
    case Takeover(lost, withdrawn, end) =>
      // The claim clears the ids; the position it leaves is that of a connection with nothing to replay.
      var kept := s.rec.inflight - lost;
      s.(mem := Some(Resumed(kept, {}, end, withdrawn)), rec := Record(map[], {}, end), tok := ToResend(kept))
  }

  /** A PUBLISH goes out. */
  function SentOut(s: State, m: nat, id: nat): State {
    s.(tok := s.tok[id := Pub(m)], book := s.book.(out := s.book.out[m := id]))
  }

  /** A PUBREL goes out. */
  function Released(s: State, id: nat): State
    requires s.mem.Some?
  {
    var closed := if id in s.mem.value.inflight then s.book.closed + {s.mem.value.inflight[id].m} else s.book.closed;
    s.(tok := s.tok[id := Rel], book := s.book.(closed := closed))
  }
}
