/**
  Who owns a session's record (sessionstore.go: claim, save, release; session.go: bindRecord, snapshot,
  commitRecord, supersedes, lateRecord; broker.go: sessionLost). Brokers and connections race on one key of a
  bucket whose writes are compare-and-swap on a revision. Replies may be lost, and the watcher may deliver a
  write late, twice or out of order.
 */
module Ownership {
  import opened Topics

  /** A write the bucket took. `claim` numbers the claims in the order they succeeded; a delete keeps the number. */
  datatype Write = Write(claim: nat, owner: nat, put: bool)

  /** A session object: the revision it holds, the generation of its binding, and the claim it was bound to. */
  datatype Session = Session(broker: nat, registered: bool, rev: nat, gen: nat, claim: nat)

  /** A connection in its handshake, or serving: what it read, what it claimed, and the generation it was given. */
  datatype Conn =
    | Reading(broker: nat)
    | Got(broker: nat, rev: nat, present: bool)
    | Deleted(broker: nat)
    | Claimed(broker: nat, rev: nat, claim: nat)
    | Serving(broker: nat, sess: nat, gen: nat, claim: nat)

  /** A write under way: the session, the generation and revision of the snapshot, and whose claim it is. */
  datatype Pending = Pending(sess: nat, gen: nat, rev: nat, claim: nat)

  /** A write that succeeded and whose reply has not been used yet. */
  datatype Reply = Reply(sess: nat, gen: nat, rev: nat)

  datatype World = World(rev: nat, present: bool, newest: nat, history: map<nat, Write>,
                         sessions: map<nat, Session>, conns: map<nat, Conn>, pending: set<Pending>, replies: set<Reply>)

  // ---------------------------------------------------------------- steps

  datatype Step =
    | Connect(c: nat, broker: nat)
    | Get(c: nat)
    | Create(c: nat, lost: bool) | Resume(c: nat, lost: bool) | Delete(c: nat)
    | Bind(c: nat, sess: nat)
    | Snapshot(c: nat) | LateRecord(sess: nat)
    | Attempt(p: Pending, delete: bool, lost: bool)
    | Commit(r: Reply)
    | Watched(broker: nat, sess: nat, rev: nat)

  predicate Can(w: World, step: Step) {
    match step
    case Connect(c, _) => c !in w.conns
    case Get(c) => c in w.conns && (w.conns[c].Reading? || w.conns[c].Got? || w.conns[c].Deleted?)
    // No record, or the one this connection deleted.
    case Create(c, _) => c in w.conns && (w.conns[c].Deleted? || (w.conns[c].Got? && !w.conns[c].present))
    case Resume(c, _) => c in w.conns && w.conns[c].Got? && w.conns[c].present
    case Delete(c) => c in w.conns && w.conns[c].Got? && w.conns[c].present
    case Bind(c, sess) =>
      && c in w.conns && w.conns[c].Claimed?
      && (sess in w.sessions ==> w.sessions[sess].broker == w.conns[c].broker)
    case Snapshot(c) => c in w.conns && w.conns[c].Serving? && w.conns[c].sess in w.sessions
    case LateRecord(sess) => sess in w.sessions
    case Attempt(p, _, _) => p in w.pending
    case Commit(r) => r in w.replies && r.sess in w.sessions
    case Watched(broker, sess, rev) =>
      && sess in w.sessions && w.sessions[sess].broker == broker
      && rev in w.history && w.history[rev].put && w.history[rev].owner != broker
  }

  /** The bucket takes a write. */
  function Written(w: World, write: Write): World {
    w.(rev := w.rev + 1, present := write.put, newest := write.claim, history := w.history[w.rev + 1 := write])
  }

  /** A claim's last write: it succeeds as claim `newest + 1`. */
  function ClaimedBy(w: World, c: nat, broker: nat, lost: bool): World {
    var t := Written(w, Write(w.newest + 1, broker, true));
    t.(conns := w.conns[c := if lost then Reading(broker) else Claimed(broker, t.rev, t.newest)])
  }

  /** supersedes: a write at or below the revision held is history. */
  predicate Supersedes(s: Session, rev: nat) { rev != 0 && s.rev >= rev }

  function Do(w: World, step: Step): World
    requires Can(w, step)
  {
    match step
    case Connect(c, broker) => w.(conns := w.conns[c := Reading(broker)])
    case Get(c) => w.(conns := w.conns[c := Got(w.conns[c].broker, w.rev, w.present)])
    case Create(c, lost) =>
      var b := w.conns[c].broker;
      if w.present then w.(conns := w.conns[c := Reading(b)]) else ClaimedBy(w, c, b, lost)
    case Resume(c, lost) =>
      var b := w.conns[c].broker;
      if w.rev != w.conns[c].rev then w.(conns := w.conns[c := Reading(b)]) else ClaimedBy(w, c, b, lost)
    case Delete(c) =>
      var b := w.conns[c].broker;
      if w.rev != w.conns[c].rev then w.(conns := w.conns[c := Reading(b)])
      else Written(w, Write(w.newest, b, false)).(conns := w.conns[c := Deleted(b)])
    case Bind(c, sess) =>
      var k := w.conns[c];
      var gen := if sess in w.sessions then w.sessions[sess].gen + 1 else 1;
      w.(sessions := w.sessions[sess := Session(k.broker, true, k.rev, gen, k.claim)],
         conns := w.conns[c := Serving(k.broker, sess, gen, k.claim)])
    case Snapshot(c) =>
      var k := w.conns[c];
      var s := w.sessions[k.sess];
      if k.gen != s.gen then w else w.(pending := w.pending + {Pending(k.sess, k.gen, s.rev, k.claim)})
    case LateRecord(sess) =>
      var s := w.sessions[sess];
      w.(pending := w.pending + {Pending(sess, s.gen, s.rev, s.claim)})
    case Attempt(p, delete, lost) =>
      var v := w.(pending := w.pending - {p});
      if !Succeeds(w, p) then v
      else
        var t := Written(v, Write(p.claim, w.history[w.rev].owner, !delete));
        if lost || delete then t else t.(replies := w.replies + {Reply(p.sess, p.gen, t.rev)})
    case Commit(r) =>
      var s := w.sessions[r.sess];
      var v := w.(replies := w.replies - {r});
      if r.gen != s.gen then v else v.(sessions := w.sessions[r.sess := s.(rev := r.rev)])
    case Watched(_, sess, rev) =>
      if w.sessions[sess].registered && !Supersedes(w.sessions[sess], rev)
      then w.(sessions := w.sessions[sess := w.sessions[sess].(registered := false)]) else w
  }

  /** The compare-and-swap of a save, a checkpoint, a late copy or a release. */
  predicate Succeeds(w: World, p: Pending) { w.rev == p.rev && w.present && w.rev in w.history }

  // ---------------------------------------------------------------- invariants

  ghost predicate SameClaim(history: map<nat, Write>, r: nat, q: nat) {
    r in history && q in history && history[r].put && history[q].put && history[r].claim == history[q].claim
  }

  /** Revisions name writes; later writes are under no older claim, and one claim has one owner. */
  ghost predicate HistoryOK(rev: nat, present: bool, newest: nat, history: map<nat, Write>) {
    && (forall r :: r in history <==> 1 <= r <= rev)
    && (forall r, q :: 1 <= r <= q <= rev ==> history[r].claim <= history[q].claim)
    && (forall r, q :: SameClaim(history, r, q) ==> history[r].owner == history[q].owner)
    && (if rev == 0 then newest == 0 && !present else newest == history[rev].claim && present == history[rev].put)
    && (forall r :: r in history && history[r].put ==> history[r].claim >= 1)
  }

  /** Revision `r` was written by `broker` under `claim`. */
  ghost predicate WrittenAs(history: map<nat, Write>, r: nat, claim: nat) {
    r in history && history[r].put && history[r].claim == claim
  }

  ghost predicate SessionsOK(sessions: map<nat, Session>, history: map<nat, Write>) {
    forall x :: x in sessions ==> WrittenAs(history, sessions[x].rev, sessions[x].claim)
                                  && history[sessions[x].rev].owner == sessions[x].broker
  }

  /** A generation of a session object belongs to one claim. */
  ghost predicate ConnsOK(conns: map<nat, Conn>, sessions: map<nat, Session>, history: map<nat, Write>) {
    forall c :: c in conns ==>
                  && (conns[c].Claimed? ==>
                      && WrittenAs(history, conns[c].rev, conns[c].claim)
                      && history[conns[c].rev].owner == conns[c].broker)
                  && (conns[c].Serving? ==>
                      conns[c].sess in sessions && GenOK(sessions, conns[c].sess, conns[c].gen, conns[c].claim))
  }

  ghost predicate GenOK(sessions: map<nat, Session>, x: nat, gen: nat, claim: nat) {
    x in sessions ==> gen <= sessions[x].gen && (gen == sessions[x].gen ==> claim == sessions[x].claim)
  }

  ghost predicate PendingOK(pending: set<Pending>, sessions: map<nat, Session>, history: map<nat, Write>) {
    forall p :: p in pending ==>
                  && p.sess in sessions && WrittenAs(history, p.rev, p.claim) && GenOK(sessions, p.sess, p.gen, p.claim)
                  && history[p.rev].owner == sessions[p.sess].broker
  }

  ghost predicate RepliesOK(replies: set<Reply>, sessions: map<nat, Session>, history: map<nat, Write>) {
    forall r :: r in replies ==>
                  && r.sess in sessions && r.rev in history && history[r.rev].put
                  && GenOK(sessions, r.sess, r.gen, history[r.rev].claim)
                  && history[r.rev].owner == sessions[r.sess].broker
  }

  ghost predicate Inv(w: World) {
    && HistoryOK(w.rev, w.present, w.newest, w.history)
    && SessionsOK(w.sessions, w.history)
    && ConnsOK(w.conns, w.sessions, w.history)
    && PendingOK(w.pending, w.sessions, w.history)
    && RepliesOK(w.replies, w.sessions, w.history)
  }

  // ---------------------------------------------------------------- every step keeps them

  ghost predicate Extends(history: map<nat, Write>, more: map<nat, Write>) {
    forall r :: r in history ==> r in more && more[r] == history[r]
  }

  lemma RestMore(w: World, more: map<nat, Write>)
    requires Inv(w) && Extends(w.history, more)
    ensures SessionsOK(w.sessions, more) && ConnsOK(w.conns, w.sessions, more)
    ensures PendingOK(w.pending, w.sessions, more) && RepliesOK(w.replies, w.sessions, more)
  {
    hide HistoryOK, GenOK;
  }

  /** A further write leaves every earlier one as it was. */
  lemma WriteKeeps(w: World, write: Write)
    requires Inv(w) && write.claim >= w.newest
    requires write.put ==>
             write.claim >= 1 && (write.claim == w.newest ==>
                                  w.present && w.rev in w.history && write.owner == w.history[w.rev].owner)
    ensures Inv(Written(w, write))
    ensures write.put ==> WrittenAs(Written(w, write).history, w.rev + 1, write.claim)
  {
    hide SessionsOK, ConnsOK, PendingOK, RepliesOK, HistoryOK;
    var h := w.history[w.rev + 1 := write];
    HistoryMore(w.rev, w.present, w.newest, w.history, write);
    assert Extends(w.history, h) by { FreshRev(w); }
    RestMore(w, h);
  }

  lemma FreshRev(w: World)
    requires HistoryOK(w.rev, w.present, w.newest, w.history)
    ensures w.rev + 1 !in w.history
  {
  }

  /** A write under the newest claim is by the owner every earlier one under it was by. */
  lemma SameOwner(rev: nat, present: bool, newest: nat, history: map<nat, Write>, write: Write, r: nat)
    requires HistoryOK(rev, present, newest, history) && write.claim >= newest && write.put
    requires write.claim == newest ==> present && rev in history && write.owner == history[rev].owner
    requires r in history && history[r].put && history[r].claim == write.claim
    ensures history[r].owner == write.owner
  {
    assert history[r].claim <= history[rev].claim;
    assert SameClaim(history, r, rev);
  }

  lemma HistoryMore(rev: nat, present: bool, newest: nat, history: map<nat, Write>, write: Write)
    requires HistoryOK(rev, present, newest, history) && write.claim >= newest
    requires write.put ==>
             write.claim >= 1 && (write.claim == newest ==>
                                  present && rev in history && write.owner == history[rev].owner)
    ensures HistoryOK(rev + 1, write.put, write.claim, history[rev + 1 := write])
  {
    var h := history[rev + 1 := write];
    forall r, q | 1 <= r <= q <= rev + 1 ensures h[r].claim <= h[q].claim {
      if r <= rev { assert history[r].claim <= history[rev].claim; }
    }
    forall r: nat, q: nat | SameClaim(h, r, q) ensures h[r].owner == h[q].owner {
      if r <= rev && q <= rev {
        assert SameClaim(history, r, q);
      } else if r <= rev {
        SameOwner(rev, present, newest, history, write, r);
      } else if q <= rev {
        SameOwner(rev, present, newest, history, write, q);
      }
    }
  }

  lemma ClaimKeeps(w: World, c: nat, broker: nat, lost: bool)
    requires Inv(w) && c in w.conns && !w.conns[c].Serving?
    ensures Inv(ClaimedBy(w, c, broker, lost))
  {
    hide HistoryOK, SessionsOK, PendingOK, RepliesOK, GenOK;
    WriteKeeps(w, Write(w.newest + 1, broker, true));
  }

  lemma BindKeeps(w: World, c: nat, sess: nat)
    requires Inv(w) && Can(w, Bind(c, sess))
    ensures Inv(Do(w, Bind(c, sess)))
  {
    hide HistoryOK;
  }

  lemma CommitKeeps(w: World, r: Reply)
    requires Inv(w) && Can(w, Commit(r))
    ensures Inv(Do(w, Commit(r)))
  {
    hide HistoryOK;
  }

  /** Every successful save, checkpoint, late-copy write or release is made under the newest claim. */
  lemma WritersAreNewest(w: World, p: Pending)
    requires Inv(w) && p in w.pending && Succeeds(w, p)
    ensures p.claim == w.newest
  {
    hide SessionsOK, ConnsOK, RepliesOK;
  }

  lemma AttemptKeeps(w: World, p: Pending, delete: bool, lost: bool)
    requires Inv(w) && p in w.pending
    ensures Inv(Do(w, Attempt(p, delete, lost)))
  {
    hide GenOK, HistoryOK, SessionsOK, ConnsOK;
    var v := w.(pending := w.pending - {p});
    if Succeeds(w, p) {
      WritersAreNewest(w, p);
      NewestWrite(w);
      WriteKeeps(v, Write(p.claim, w.history[w.rev].owner, !delete));
    }
  }

  lemma NewestWrite(w: World)
    requires HistoryOK(w.rev, w.present, w.newest, w.history) && w.present
    ensures w.rev >= 1 && w.rev in w.history && w.history[w.rev].put && w.newest >= 1
  {
  }

  /** Reading, connecting, taking a snapshot and being told of a write change nothing the others rely on. */
  lemma QuietKeeps(w: World, step: Step)
    requires Inv(w) && Can(w, step)
    requires (step.Connect? || step.Get? || step.Snapshot? || step.LateRecord? || step.Watched?)
    ensures Inv(Do(w, step))
  {
    hide HistoryOK, RepliesOK;
    if step.Watched? { assert RepliesOK(w.replies, Do(w, step).sessions, w.history) by { RepliesSame(w, step.sess); } }
  }

  lemma RepliesSame(w: World, sess: nat)
    requires RepliesOK(w.replies, w.sessions, w.history) && sess in w.sessions
    ensures RepliesOK(w.replies, w.sessions[sess := w.sessions[sess].(registered := false)], w.history)
  {
  }

  /** A failed compare-and-swap of a claim sends the connection back to reading. */
  lemma BackToReading(w: World, c: nat, k: Conn)
    requires Inv(w) && c in w.conns && !k.Claimed? && !k.Serving?
    ensures Inv(w.(conns := w.conns[c := k]))
  {
    hide HistoryOK, SessionsOK, PendingOK, RepliesOK;
  }

  lemma ClaimStepKeeps(w: World, step: Step)
    requires Inv(w) && Can(w, step) && (step.Create? || step.Resume? || step.Delete?)
    ensures Inv(Do(w, step))
  {
    hide Inv;
    var b := w.conns[step.c].broker;
    BackToReading(w, step.c, Reading(b));
    if step.Delete? {
      WriteKeeps(w, Write(w.newest, b, false));
      BackToReading(Written(w, Write(w.newest, b, false)), step.c, Deleted(b));
    } else {
      ClaimKeeps(w, step.c, b, step.lost);
    }
  }

  lemma StepKeeps(w: World, step: Step)
    requires Inv(w) && Can(w, step)
    ensures Inv(Do(w, step))
  {
    hide Inv, Do;
    match step
    case Create(_, _) => ClaimStepKeeps(w, step);
    case Resume(_, _) => ClaimStepKeeps(w, step);
    case Delete(_) => ClaimStepKeeps(w, step);
    case Bind(c, sess) => BindKeeps(w, c, sess);
    case Attempt(p, delete, lost) => AttemptKeeps(w, p, delete, lost);
    case Commit(r) => CommitKeeps(w, r);
    case _ => QuietKeeps(w, step);
  }

  // ---------------------------------------------------------------- runs

  ghost predicate IsRun(run: seq<World>, steps: seq<Step>) {
    && |run| == |steps| + 1
    && run[0] == World(0, false, 0, map[], map[], map[], {}, {})
    && forall i :: 0 <= i < |steps| ==> Can(run[i], steps[i]) && run[i + 1] == Do(run[i], steps[i])
  }

  lemma {:induction false} EveryRunHolds(run: seq<World>, steps: seq<Step>, i: nat)
    requires IsRun(run, steps) && i < |run|
    ensures Inv(run[i])
    decreases i
  {
    hide Can, Do;
    if i > 0 {
      hide Inv;
      EveryRunHolds(run, steps, i - 1);
      StepKeeps(run[i - 1], steps[i - 1]);
    }
  }

  /** In every run, a write that succeeds was made under the newest claim, by the broker that made it. */
  lemma OnlyTheNewestWrites(run: seq<World>, steps: seq<Step>, i: nat)
    requires IsRun(run, steps) && i < |steps| && steps[i].Attempt? && Succeeds(run[i], steps[i].p)
    ensures steps[i].p.claim == run[i].newest
    ensures steps[i].p.sess in run[i].sessions
    ensures run[i].history[run[i].rev].owner == run[i].sessions[steps[i].p.sess].broker
  {
    hide HistoryOK, SessionsOK, ConnsOK, RepliesOK, GenOK;
    EveryRunHolds(run, steps, i);
    WritersAreNewest(run[i], steps[i].p);
  }

  /**
    In every run, once a later claim has succeeded, no write of an earlier connection does: it never overwrites
    its successor.
   */
  lemma DisplacedNeverWrites(run: seq<World>, steps: seq<Step>, i: nat, c: nat, later: nat)
    requires IsRun(run, steps) && i < |run| && c in run[i].conns && run[i].conns[c].Serving?
    requires run[i].conns[c].claim < later <= run[i].newest
    ensures forall p :: p in run[i].pending && p.claim == run[i].conns[c].claim ==> !Succeeds(run[i], p)
  {
    hide IsRun, HistoryOK, SessionsOK, RepliesOK;
    EveryRunHolds(run, steps, i);
    forall p | p in run[i].pending && Succeeds(run[i], p)
      ensures p.claim == run[i].newest
    {
      WritersAreNewest(run[i], p);
    }
  }

  /**
    In every run, a foreign write the watcher reports tears a registered session down exactly when its revision
    is above the one held, and that is exactly when it was made under a newer claim than the session's.
   */
  lemma TornDownByNewerClaimOnly(run: seq<World>, steps: seq<Step>, i: nat)
    requires IsRun(run, steps) && i < |steps| && steps[i].Watched? && run[i].sessions[steps[i].sess].registered
    ensures var w, x := run[i], steps[i].sess;
            var torn := !run[i + 1].sessions[x].registered;
            && (torn <==> steps[i].rev > w.sessions[x].rev)
            && (torn <==> w.history[steps[i].rev].claim > w.sessions[x].claim)
            && (torn ==> w.newest > w.sessions[x].claim)
  {
    hide ConnsOK, PendingOK, RepliesOK;
    EveryRunHolds(run, steps, i);
    var w, s, r := run[i], run[i].sessions[steps[i].sess], steps[i].rev;
    assert WrittenAs(w.history, s.rev, s.claim);
    assert w.history[r].claim != s.claim;
    if r > s.rev {
      assert w.history[s.rev].claim <= w.history[r].claim;
    } else {
      assert w.history[r].claim <= w.history[s.rev].claim;
    }
    assert w.history[r].claim <= w.history[w.rev].claim;
  }

  // ---------------------------------------------------------------- the newest owner can write

  /** The session holds the record as it stands. */
  ghost predicate HoldsNewest(w: World, x: nat) { x in w.sessions && w.present && w.sessions[x].rev == w.rev }

  /** A commit under the current generation leaves the session with the revision its write was given. */
  lemma CommitAnswers(w: World, r: Reply)
    requires Can(w, Commit(r))
    ensures var t := Do(w, Commit(r));
            && (r.gen == w.sessions[r.sess].gen ==> t.sessions[r.sess] == w.sessions[r.sess].(rev := r.rev))
            && (r.gen != w.sessions[r.sess].gen ==> t.sessions[r.sess] == w.sessions[r.sess])
            && (forall x :: x != r.sess ==> (x in t.sessions <==> x in w.sessions))
            && (forall x :: x in w.sessions && x != r.sess ==> t.sessions[x] == w.sessions[x])
            && t == w.(sessions := t.sessions, replies := w.replies - {r})
  {
  }

  /** A step that writes nothing to the bucket and neither rebinds the session nor commits an older write of its. */
  predicate LeavesAlone(w: World, step: Step, x: nat)
    requires Can(w, step)
  {
    && Do(w, step).rev == w.rev
    && !(step.Bind? && step.sess == x)
    && !(step.Commit? && step.r.sess == x && step.r.rev != w.rev)
  }

  /** A session that holds the record goes on holding it. */
  lemma HoldStays(w: World, step: Step, x: nat)
    requires HoldsNewest(w, x) && Can(w, step) && LeavesAlone(w, step, x)
    ensures HoldsNewest(Do(w, step), x) && Do(w, step).sessions[x].gen == w.sessions[x].gen
    ensures Do(w, step).sessions[x].claim == w.sessions[x].claim
  {
  }

  lemma {:induction false} HoldStaysOn(run: seq<World>, steps: seq<Step>, i: nat, j: nat, x: nat)
    requires IsRun(run, steps) && i <= j < |run| && HoldsNewest(run[i], x)
    requires forall k :: i <= k < j ==> LeavesAlone(run[k], steps[k], x)
    ensures HoldsNewest(run[j], x) && run[j].rev == run[i].rev && run[j].sessions[x].gen == run[i].sessions[x].gen
    ensures run[j].sessions[x].claim == run[i].sessions[x].claim
    decreases j
  {
    hide Can, Do, LeavesAlone, HoldsNewest;
    if i < j {
      HoldStaysOn(run, steps, i, j - 1, x);
      HoldStays(run[j - 1], steps[j - 1], x);
      assert Do(run[j - 1], steps[j - 1]).rev == run[j - 1].rev by { LeftAlone(run[j - 1], steps[j - 1], x); }
    }
  }

  lemma LeftAlone(w: World, step: Step, x: nat)
    requires Can(w, step) && LeavesAlone(w, step, x)
    ensures Do(w, step).rev == w.rev
  {
    hide Do;
  }

  /**
    In every run, a session that commits a write holds the record as it stands when nothing was written after that
    write, under the generation it was made in.
   */
  lemma CommittedHolds(run: seq<World>, steps: seq<Step>, i: nat)
    requires IsRun(run, steps) && i < |steps| && steps[i].Commit? && steps[i].r.rev == run[i].rev
    requires steps[i].r.gen == run[i].sessions[steps[i].r.sess].gen
    ensures HoldsNewest(run[i + 1], steps[i].r.sess)
  {
    hide SessionsOK, ConnsOK, PendingOK;
    EveryRunHolds(run, steps, i);
    CommitAnswers(run[i], steps[i].r);
  }

  /**
    In every run, once a session holds the record as it stands, the snapshot its connection takes next is written:
    the attempt succeeds whenever it comes, if nothing was written to the bucket and the session was not bound again
    in between.
   */
  lemma NextSaveSucceeds(run: seq<World>, steps: seq<Step>, i: nat, j: nat, k: nat, c: nat)
    requires IsRun(run, steps) && i <= j < k < |steps| && c in run[j].conns && run[j].conns[c].Serving?
    requires var x := run[j].conns[c].sess;
             && HoldsNewest(run[i], x) && run[j].conns[c].gen == run[i].sessions[x].gen
             && forall n :: i <= n < k ==> LeavesAlone(run[n], steps[n], x)
    requires steps[j] == Snapshot(c)
    ensures var p := Pending(run[j].conns[c].sess, run[j].conns[c].gen, run[j].rev, run[j].conns[c].claim);
            p in run[j + 1].pending && (steps[k].Attempt? && steps[k].p == p ==> Succeeds(run[k], p))
  {
    hide LeavesAlone, Inv;
    var x := run[j].conns[c].sess;
    HoldStaysOn(run, steps, i, j, x);
    HoldStaysOn(run, steps, i, k, x);
    EveryRunHolds(run, steps, k);
    assert run[k].rev in run[k].history by { HeldInHistory(run[k], x); }
  }

  lemma HeldInHistory(w: World, x: nat)
    requires Inv(w) && HoldsNewest(w, x)
    ensures w.rev in w.history
  {
    hide ConnsOK, PendingOK, RepliesOK;
  }

  // ---------------------------------------------------------------- an owner left alone

  /** The connection serves the session under its current generation, and the session holds the record. */
  ghost predicate Healthy(w: World, c: nat) {
    && c in w.conns && w.conns[c].Serving?
    && var k := w.conns[c];
    && HoldsNewest(w, k.sess) && w.sessions[k.sess].gen == k.gen && w.sessions[k.sess].claim == k.claim == w.newest
    && w.sessions[k.sess].registered && w.sessions[k.sess].broker == k.broker
  }

  /** The write its snapshot makes. */
  function SaveOf(w: World, c: nat): Pending
    requires c in w.conns && w.conns[c].Serving?
  {
    Pending(w.conns[c].sess, w.conns[c].gen, w.rev, w.conns[c].claim)
  }

  /**
    A save, left alone: the snapshot, the write and the commit each go through, the record is the session's own at the
    next revision, and the connection can save again.
   */
  lemma SaveGoesThrough(w: World, c: nat)
    requires Inv(w) && Healthy(w, c)
    ensures var a := Do(w, Snapshot(c));
            && Can(w, Snapshot(c)) && Can(a, Attempt(SaveOf(w, c), false, false))
            && var b := Do(a, Attempt(SaveOf(w, c), false, false));
            var r := Reply(w.conns[c].sess, w.conns[c].gen, w.rev + 1);
            && Can(b, Commit(r))
            && var d := Do(b, Commit(r));
            && Healthy(d, c) && d.rev == w.rev + 1 && d.newest == w.newest
            && d.history[d.rev] == Write(w.newest, w.conns[c].broker, true)
  {
    hide ConnsOK, PendingOK, RepliesOK;
    var x := w.conns[c].sess;
    assert WrittenAs(w.history, w.sessions[x].rev, w.sessions[x].claim);
    assert w.history[w.rev].owner == w.conns[c].broker;
  }

  /** So does the write a late copy makes for a session, whether a connection serves it or not. */
  lemma LateSaveGoesThrough(w: World, x: nat)
    requires Inv(w) && HoldsNewest(w, x)
    ensures var a := Do(w, LateRecord(x));
            var s := w.sessions[x];
            var p := Pending(x, s.gen, w.rev, s.claim);
            && Can(w, LateRecord(x)) && Can(a, Attempt(p, false, false))
            && var b := Do(a, Attempt(p, false, false));
            var r := Reply(x, s.gen, w.rev + 1);
            && Can(b, Commit(r)) && HoldsNewest(Do(b, Commit(r)), x) && b.rev == w.rev + 1
            && b.history[b.rev] == Write(s.claim, s.broker, true)
  {
    hide ConnsOK, PendingOK, RepliesOK;
    assert WrittenAs(w.history, w.sessions[x].rev, w.sessions[x].claim);
  }

  /** A release, which may delete the record, left alone. */
  lemma ReleaseGoesThrough(w: World, c: nat, delete: bool)
    requires Inv(w) && Healthy(w, c)
    ensures var a := Do(w, Snapshot(c));
            && Can(w, Snapshot(c)) && Can(a, Attempt(SaveOf(w, c), delete, true))
            && var b := Do(a, Attempt(SaveOf(w, c), delete, true));
            && b.rev == w.rev + 1 && b.present == !delete && b.newest == w.newest
            && b.history[b.rev] == Write(w.newest, w.conns[c].broker, !delete)
  {
    hide ConnsOK, PendingOK, RepliesOK;
    var x := w.conns[c].sess;
    assert WrittenAs(w.history, w.sessions[x].rev, w.sessions[x].claim);
  }

  /** The claim of a connection that read the bucket as it stands. */
  function ClaimStep(w: World, c: nat): Step { if w.present then Resume(c, false) else Create(c, false) }

  /**
    A connection left alone gets the record: it reads, its claim goes through as the newest, whether there was a
    record or not, and its session is bound to it. An owner before it is displaced.
   */
  lemma ClaimGoesThrough(w: World, c: nat, broker: nat, x: nat)
    requires Inv(w) && c !in w.conns && (x in w.sessions ==> w.sessions[x].broker == broker)
    ensures Can(w, Connect(c, broker))
            && var a := Do(w, Connect(c, broker));
            && Can(a, Get(c))
            && var b := Do(a, Get(c));
            && Can(b, ClaimStep(b, c))
            && var d := Do(b, ClaimStep(b, c));
            && Can(d, Bind(c, x))
            && var e := Do(d, Bind(c, x));
            && Healthy(e, c) && e.newest == w.newest + 1 && e.rev == w.rev + 1
            && e.history[e.rev] == Write(w.newest + 1, broker, true)
            && (forall o :: o in w.conns && o != c ==> !Healthy(e, o))
  {
    hide HistoryOK, SessionsOK, PendingOK, RepliesOK;
    var e := Do(Do(Do(Do(w, Connect(c, broker)), Get(c)), ClaimStep(w, c)), Bind(c, x));
    assert e.rev == w.rev + 1;
    forall o | o in w.conns && o != c && w.conns[o].Serving? ensures !Healthy(e, o) { OldClaim(w, o); }
  }

  lemma OldClaim(w: World, o: nat)
    requires Inv(w) && o in w.conns && w.conns[o].Serving?
    ensures w.conns[o].sess in w.sessions && w.conns[o].gen <= w.sessions[w.conns[o].sess].gen
    ensures w.sessions[w.conns[o].sess].claim <= w.newest
    ensures w.conns[o].gen == w.sessions[w.conns[o].sess].gen ==> w.conns[o].claim <= w.newest
  {
    hide PendingOK, RepliesOK;
    var x := w.conns[o].sess;
    assert WrittenAs(w.history, w.sessions[x].rev, w.sessions[x].claim);
    assert w.history[w.sessions[x].rev].claim <= w.history[w.rev].claim;
  }

  /** A session that starts clean: the record it read is deleted first, and a new one is made. */
  lemma CleanStartGoesThrough(w: World, c: nat)
    requires Inv(w) && w.present && c in w.conns && w.conns[c] == Got(w.conns[c].broker, w.rev, true)
    ensures Can(w, Delete(c))
            && var a := Do(w, Delete(c));
            && !a.present && a.newest == w.newest && Can(a, Create(c, false))
            && var b := Do(a, Create(c, false));
            && b.present && b.newest == w.newest + 1 && b.conns[c] == Claimed(w.conns[c].broker, w.rev + 2, b.newest)
  {
  }

  /** A claim whose reply is lost was made all the same, and its connection reads again. */
  lemma LostClaimIsMade(w: World, c: nat, step: Step)
    requires (step == Create(c, true) || step == Resume(c, true)) && Can(w, step)
    requires if step.Create? then !w.present else w.rev == w.conns[c].rev
    ensures var t := Do(w, step);
            && t.present && t.rev == w.rev + 1 && t.newest == w.newest + 1
            && t.history[t.rev] == Write(t.newest, w.conns[c].broker, true)
            && t.conns == w.conns[c := Reading(w.conns[c].broker)] && t.sessions == w.sessions
            && t.pending == w.pending && t.replies == w.replies
  {
  }

  /** A claim that lost the race goes back to reading, and writes nothing. */
  lemma LostRaceReads(w: World, c: nat, step: Step)
    requires (step.Create? || step.Resume? || step.Delete?) && step.c == c && Can(w, step)
    requires if step.Create? then w.present else w.rev != w.conns[c].rev
    ensures Do(w, step) == w.(conns := w.conns[c := Reading(w.conns[c].broker)])
  {
  }

  /** A write that lost it changes nothing but that it is no longer under way. */
  lemma LostWrite(w: World, p: Pending, delete: bool, lost: bool)
    requires Can(w, Attempt(p, delete, lost)) && !(w.rev == p.rev && w.present && w.rev in w.history)
    ensures Do(w, Attempt(p, delete, lost)) == w.(pending := w.pending - {p})
  {
  }
}
