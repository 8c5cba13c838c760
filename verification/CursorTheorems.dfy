/** What holds in every state of every run of a replay cursor. */
module CursorTheorems {
  import opened Topics
  import opened Cursors
  import opened CursorRuns
  import opened CursorSafety
  import opened CursorAccounts

  ghost predicate Initial(w: World) {
    && w.stream == [] && w.gone == {} && w.sent == {}
    && w.s.cur.next == 0 && w.s.cur.pin == 0 && w.s.cur.holes == map[] && w.s.cur.holeAt == map[]
    && w.s.delivered == map[] && w.s.subs == map[]
    && w.prunedAt == 0 && w.lateSeq == 0 && w.away == None && w.scan == NoScan && w.restart == NoRestart
    && w.subscribing == NotSubscribing && w.replay == NoReplay
  }

  /** The worlds a sequence of steps goes through. */
  ghost predicate Continues(run: seq<World>, steps: seq<Step>, cfg: Config) {
    && |run| == |steps| + 1
    && forall i :: 0 <= i < |steps| ==> Can(run[i], cfg, steps[i]) && run[i + 1] == Do(run[i], cfg, steps[i])
  }

  /** A run: it starts with a new session. */
  ghost predicate IsRun(run: seq<World>, steps: seq<Step>, cfg: Config) {
    Continues(run, steps, cfg) && Initial(run[0])
  }

  lemma StepKeeps(w: World, cfg: Config, step: Step)
    requires Inv(w, cfg) && Can(w, cfg, step)
    ensures Inv(Do(w, cfg, step), cfg)
  {
    hide Inv, Enabled, Relied, Do;
    match step
    case Append(m) => KeepAppend(w, cfg, step);
    case Expire(q) => KeepExpire(w, cfg, step);
    case Tick(t) => KeepTick(w, cfg, step);
    case Deliver(q) => KeepDeliver(w, cfg, step);
    case DeliverOther(id) => KeepDeliverOther(w, cfg, step);
    case LiveCopy(q) => KeepLiveCopy(w, cfg, step);
    case LateCopy(q) => KeepLateCopy(w, cfg, step);
    case Detach(_, _) => KeepDetach(w, cfg, step);
    case Subscribe(sub) => KeepSubscribe(w, cfg, step);
    case Unsubscribe(f) => KeepUnsubscribe(w, cfg, step);
    case FillSinceStep(_, _, _, _, _) => KeepFillSinceStep(w, cfg, step);
    case EndScan(_) => KeepEndScan(w, cfg, step);
    case ReadRestart(_, _) => KeepReadRestart(w, cfg, step);
    case EndRestart(_) => KeepEndRestart(w, cfg, step);
    case BeginReplay => KeepBeginReplay(w, cfg, step);
    case BeginReplayFrom(_, _) => KeepBeginReplayFrom(w, cfg, step);
    case ReadLast => KeepReadLast(w, cfg, step);
    case Handle(q) => KeepHandle(w, cfg, step);
    case EndReplay(_, _) => KeepEndReplay(w, cfg, step);
    case ChooseCover | AbandonReplay | DropCursor => KeepChooseCover(w, cfg, step);
    case BeginScan | ReadScan | AbandonScans | ReadEnd => KeepReadScan(w, cfg, step);
  }

  lemma InitialHolds(w: World, cfg: Config)
    requires Initial(w)
    ensures Inv(w, cfg)
  {
  }

  /** From any state they hold of, the invariants hold ever after. */
  lemma {:induction false} EverAfter(run: seq<World>, steps: seq<Step>, cfg: Config, i: nat)
    requires Continues(run, steps, cfg) && Inv(run[0], cfg) && i < |run|
    ensures Inv(run[i], cfg)
    decreases i
  {
    hide Inv, Enabled, Relied, Do;
    if i > 0 {
      EverAfter(run, steps, cfg, i - 1);
      StepKeeps(run[i - 1], cfg, steps[i - 1]);
    }
  }

  /** The invariants hold in every state of every run. */
  lemma EveryRunIsSafe(run: seq<World>, steps: seq<Step>, cfg: Config, i: nat)
    requires IsRun(run, steps, cfg) && i < |run|
    ensures Inv(run[i], cfg)
  {
    hide Inv, Enabled, Relied, Do, Initial;
    InitialHolds(run[0], cfg);
    EverAfter(run, steps, cfg, i);
  }

  // ---------------------------------------------------------------- the first rule

  /** A run that keeps only to what the first rule relies on. */
  ghost predicate IsOwedRun(run: seq<World>, steps: seq<Step>, cfg: Config) {
    && |run| == |steps| + 1
    && Initial(run[0])
    && forall i :: 0 <= i < |steps| ==>
         && Enabled(run[i], cfg, steps[i]) && ReliedOwed(run[i], cfg, steps[i])
         && run[i + 1] == Do(run[i], cfg, steps[i])
  }

  lemma ReliedParts(w: World, cfg: Config, step: Step)
    requires Can(w, cfg, step)
    ensures ReliedOwed(w, cfg, step)
  {
    hide Spares, Covering, NothingOwedTo, SinceKnown;
  }

  /** Every run is one of these. */
  lemma RunIsOwed(run: seq<World>, steps: seq<Step>, cfg: Config)
    requires IsRun(run, steps, cfg)
    ensures IsOwedRun(run, steps, cfg)
  {
    hide Enabled, Relied, ReliedOwed, Do, Initial;
    forall i | 0 <= i < |steps| ensures ReliedOwed(run[i], cfg, steps[i]) { ReliedParts(run[i], cfg, steps[i]); }
  }

  lemma InitialAccounts(w: World)
    requires Initial(w)
    ensures Accounts(w)
  {
  }

  lemma {:induction false} EveryRunAccounts(run: seq<World>, steps: seq<Step>, cfg: Config, i: nat)
    requires IsOwedRun(run, steps, cfg) && i < |run|
    ensures Accounts(run[i])
    decreases i
  {
    hide Accounts, Enabled, ReliedOwed, Do, Initial;
    if i == 0 {
      InitialAccounts(run[0]);
    } else {
      EveryRunAccounts(run, steps, cfg, i - 1);
      StepAccounts(run[i - 1], cfg, steps[i - 1]);
    }
  }

  /**
    Nothing owed is skipped, over every run: a message between the cursor's origin and next that the session
    is owed was sent, or is a hole under its own id. What has been forgotten plays no part.
   */
  lemma NothingOwedIsSkipped(run: seq<World>, steps: seq<Step>, cfg: Config, i: nat, q: nat)
    requires IsOwedRun(run, steps, cfg) && i < |run|
    requires var w := run[i];
             w.s.cur.next != 0 && w.origin <= q < w.s.cur.next && Owed(w.stream, w.gone, w.s.subs, w.s.client, q)
    ensures var w := run[i];
            q in w.sent || (q in w.s.cur.holes && w.s.cur.holes[q] == At(w.stream, q).id)
  {
    hide Owed, IsOwedRun;
    EveryRunAccounts(run, steps, cfg, i);
    SkippedFact(run[i], q);
  }

  lemma SkippedFact(w: World, q: nat)
    requires Accounts(w) && w.s.cur.next != 0 && w.origin <= q < w.s.cur.next
    requires Owed(w.stream, w.gone, w.s.subs, w.s.client, q)
    ensures Stored(w.stream, q) && (q in w.sent || (q in w.s.cur.holes && w.s.cur.holes[q] == At(w.stream, q).id))
  {
    hide StreamOK, ReadOK, SubsOK, IdsSent, ReplayLedger, OwesAt;
  }

  /**
    When a replay from a cursor ends, everything the session was owed at or above that cursor, up to the
    stream's end as the replay read it, and every hole, has been sent or is no longer in the stream.
   */
  lemma ReplaySendsWhatIsOwed(run: seq<World>, steps: seq<Step>, cfg: Config, i: nat, q: nat)
    requires IsOwedRun(run, steps, cfg) && i < |steps| && steps[i].EndReplay?
    requires var w := run[i];
             && Owed(w.stream, w.gone, w.s.subs, w.s.client, q) && Eligible(w.replay, q)
             && w.replay.last.Some? && q <= w.replay.last.value
    ensures q in run[i].sent
  {
    hide Owed, Accounts;
    EveryRunAccounts(run, steps, cfg, i);
    ReplaySentOwed(run[i], cfg, steps[i].first, steps[i].floor, q);
  }

  // ---------------------------------------------------------------- the second rule

  /**
    Nothing delivered is repeated, over every run: a message sent at or above next is known by its id, a hole
    was never sent, and the holes and their reverse index are inverse maps below next.
   */
  lemma NothingDeliveredIsForgotten(run: seq<World>, steps: seq<Step>, cfg: Config, i: nat, q: nat)
    requires IsRun(run, steps, cfg) && i < |run| && run[i].s.cur.next != 0
    ensures var w := run[i];
            && (q in w.sent && q >= w.s.cur.next && Named(w.stream, q) ==> At(w.stream, q).id in w.s.delivered)
            && (q in w.s.cur.holes ==>
                  && q !in w.sent && q < w.s.cur.next && Named(w.stream, q)
                  && w.s.cur.holes[q] == At(w.stream, q).id && w.s.cur.holes[q] !in w.s.delivered)
            && Inverted(w.s.cur)
  {
    hide IsRun;
    EveryRunIsSafe(run, steps, cfg, i);
    ForgottenFact(run[i], cfg, q);
  }

  lemma ForgottenFact(w: World, cfg: Config, q: nat)
    requires Inv(w, cfg) && w.s.cur.next != 0
    ensures q in w.sent && q >= w.s.cur.next && Named(w.stream, q) ==> At(w.stream, q).id in w.s.delivered
    ensures q in w.s.cur.holes ==>
              && q !in w.sent && q < w.s.cur.next && Named(w.stream, q)
              && w.s.cur.holes[q] == At(w.stream, q).id && w.s.cur.holes[q] !in w.s.delivered
    ensures Inverted(w.s.cur)
  {
    hide StreamOK, NothingSkipped, ForgottenLate, ReadOK, RecentFrom, SubsOK, ReplayOK;
  }

  /** What a replay sends was never sent before, over every run. */
  lemma ReplaySendsNothingTwice(run: seq<World>, steps: seq<Step>, cfg: Config, i: nat)
    requires IsRun(run, steps, cfg) && i < |steps| && steps[i].Handle?
    ensures Sends(run[i], steps[i].q) ==> steps[i].q !in run[i].sent
  {
    hide Inv;
    EveryRunIsSafe(run, steps, cfg, i);
    if Sends(run[i], steps[i].q) { ReplayNeverRepeats(run[i], cfg, steps[i].q); }
  }

  // ---------------------------------------------------------------- the cursor only moves forward

  /** What goes with a dropped cursor is not part of the session's own state. */
  lemma WithIs(w: World, s: Session)
    ensures With(w, s).s == s && With(w, s).stream == w.stream && With(w, s).now == w.now
  {
  }

  lemma NotedIs(w: World, cfg: Config, id: Id, seqNo: nat)
    ensures var v := Noted(w, cfg, id, seqNo);
            v.s == NoteDelivered(w.s, cfg, id, seqNo, w.now) && v.stream == w.stream && v.now == w.now
  {
    hide NoteDelivered, Note;
  }

  lemma LateIs(w: World, q: nat)
    ensures NoteLate(w, q).s == w.s && NoteLate(w, q).stream == w.stream && NoteLate(w, q).now == w.now
  {
  }

  /** No step moves a cursor back: it stays, moves forward, or is dropped. */
  lemma NextOnlyGrows(w: World, cfg: Config, step: Step)
    requires Enabled(w, cfg, step) && w.s.cur.next != 0
    ensures var next := Do(w, cfg, step).s.cur.next;
            next == 0 || next >= w.s.cur.next
  {
    hide ApplyScan, NoteDelivered, FillSince, Keys, SinceKnown, CountAbove, Owed, SameSubs, ScanRead, Prune, Note;
    hide Noted, With, NoteLate;
    match step
    case Deliver(q) =>
      NotedIs(w, cfg, At(w.stream, q).id, q);
      DeliveredIsLocal(w.s, cfg, At(w.stream, q).id, q, w.now);
    case DeliverOther(id) =>
      NotedIs(w, cfg, id, 0);
      DeliveredIsLocal(w.s, cfg, id, 0, w.now);
    case Handle(q) =>
      NotedIs(w, cfg, At(w.stream, q).id, q);
      DeliveredIsLocal(w.s, cfg, At(w.stream, q).id, q, w.now);
    case LiveCopy(q) => WithIs(w, NoteLiveCopy(w.s, cfg, q, At(w.stream, q).id));
    case LateCopy(q) =>
      WithIs(w, NoteLiveCopy(w.s, cfg, q, At(w.stream, q).id));
      LateIs(With(w, NoteLiveCopy(w.s, cfg, q, At(w.stream, q).id)), q);
    case EndScan(floor) =>
      var sc := w.scan;
      WithIs(w.(scan := NoScan), ApplyScan(w.s, cfg, sc.gen, sc.start, sc.last, sc.keys, sc.read, floor).session);
      ScanStays(w.s, cfg, sc, floor);
    case DropCursor => WithIs(w, Drop(w.s));
    case _ =>
  }
}
