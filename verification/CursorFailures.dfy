/**
  Runs in which one thing the invariants rely on is not so, and a message owed is skipped or a message sent is
  sent again. Each run starts from a new session, every step is one the code can take, and every step but the
  one named keeps to `Relied`.
 */
module CursorFailures {
  import opened Topics
  import opened Cursors
  import opened CursorRuns
  import opened CursorSafety
  import opened CursorTheorems
  import opened CursorLimits

  // ---------------------------------------------------------------- runs with one exception

  datatype Trace = Trace(run: seq<World>, steps: seq<Step>)

  /** A run in which every step but the one at `k` keeps to what the invariants rely on. */
  ghost predicate RunsBut(t: Trace, cfg: Config, k: int) {
    && |t.run| == |t.steps| + 1
    && Initial(t.run[0])
    && forall i :: 0 <= i < |t.steps| ==>
         && Enabled(t.run[i], cfg, t.steps[i]) && (i != k ==> Relied(t.run[i], cfg, t.steps[i]))
         && t.run[i + 1] == Do(t.run[i], cfg, t.steps[i])
  }

  function Last(t: Trace): World
    requires t.run != []
  {
    t.run[|t.run| - 1]
  }

  lemma Then(t: Trace, cfg: Config, k: int, step: Step) returns (more: Trace)
    requires RunsBut(t, cfg, k) && Enabled(Last(t), cfg, step) && (|t.steps| != k ==> Relied(Last(t), cfg, step))
    ensures RunsBut(more, cfg, k) && more.steps == t.steps + [step] && more.run == t.run + [Last(more)]
    ensures |more.run| == |more.steps| + 1 && Last(more) == Do(Last(t), cfg, step)
  {
    hide Enabled, Relied, Do, Initial;
    more := Trace(t.run + [Do(Last(t), cfg, step)], t.steps + [step]);
    forall i | 0 <= i < |more.steps|
      ensures Enabled(more.run[i], cfg, more.steps[i]) && (i != k ==> Relied(more.run[i], cfg, more.steps[i]))
      ensures more.run[i + 1] == Do(more.run[i], cfg, more.steps[i])
    {
      if i < |t.steps| { assert more.run[i] == t.run[i] && more.steps[i] == t.steps[i]; }
    }
  }

  /** A new session. */
  function New(): World {
    World([], {}, 0, 0, Session("c", Cursor(0, map[], map[], 0, 0, 0, 0), map[], 0, map[]), {}, 0, 0, 0, 0, None,
          NoScan, NoRestart, NotSubscribing, NoReplay)
  }

  lemma Begin(cfg: Config, k: int) returns (t: Trace)
    ensures RunsBut(t, cfg, k) && t == Trace([New()], []) && Last(t) == New()
  {
    t := Trace([New()], []);
  }

  /** The states up to the exception are those of a run without one, and so is a run whose exception keeps to it too. */
  lemma SafeUpTo(t: Trace, cfg: Config, k: int, i: nat)
    requires RunsBut(t, cfg, k) && i < |t.run|
    requires i <= k || k < 0 || k >= |t.steps| || Relied(t.run[k], cfg, t.steps[k])
    ensures Inv(t.run[i], cfg)
  {
    hide Inv, Enabled, Relied, Do, Initial;
    var run, steps := t.run[..i + 1], t.steps[..i];
    assert IsRun(run, steps, cfg);
    EveryRunIsSafe(run, steps, cfg, i);
  }

  // ---------------------------------------------------------------- plain subscriptions and messages

  lemma PlainMatch(f: char, n: char)
    requires f !in {'/', '#', '+', '$'} && n !in {'/', '$'}
    ensures Matches([f], [n]) <==> f == n
  {
    SplitSingle([f], '/');
    SplitSingle([n], '/');
    assert LevelsMatch([[f]], [[n]]) <==> [f] == [n];
    assert [f][0] == f && [n][0] == n;
  }

  function Plain(key: nat, filter: string, since: Option<nat>): Sub { Sub(key, filter, false, false, 1, since, 0) }

  const A := Plain(0, "a", Some(0))
  const M := Msg("m", "b", 1, "p", 0)

  lemma OneStored()
    ensures forall q :: Stored([M], q) <==> q == 1
    ensures At([M], 1) == M
  {
  }

  lemma OneOwed(gone: set<nat>, subs: Subs, f: string)
    requires f in subs && 1 !in gone && subs[f] == Plain(subs[f].key, "b", Some(0))
    ensures Owed([M], gone, subs, "c", 1)
  {
    PlainMatch('b', 'b');
    OneStored();
    assert OwesAt(subs[f], At([M], 1), 1, "c");
  }

  /** A session subscribed to "a" whose cursor starts at 1. */
  function Started(): World {
    New().(s := Session("c", Cursor(1, map[], map[], 1, 0, 0, 0), map[], 0, map["a" := A]), nextKey := 1)
  }

  lemma Start(cfg: Config, k: int) returns (t: Trace)
    requires k >= 3
    ensures RunsBut(t, cfg, k) && |t.steps| == 3 && Last(t) == Started()
  {
    hide RunsBut;
    t := Begin(cfg, k);
    t := Then(t, cfg, k, Subscribe(Plain(0, "a", None)));
    assert Last(t).s.subs == map["a" := Plain(0, "a", None)];
    t := Then(t, cfg, k, ReadEnd);
    assert FillSince(Last(t).s.subs, {0}, 0) == map["a" := A];
    t := Then(t, cfg, k, FillSinceStep({0}, true, false, 0, 0));
  }

  // ---------------------------------------------------------------- a replay's filters

  /**
    replayFilters is computed before the stream's end is read, and replayedTo does not compare the subscriptions
    again. Here the session subscribes to "b" in between and the live copy of "m" is lost: the replay made for
    "a" moves the cursor past it.
   */
  lemma UncheckedReplaySkips(cfg: Config) returns (t: Trace)
    ensures RunsBut(t, cfg, 10) && |t.steps| == 12 && t.steps[10] == ReadLast
    ensures var w := Last(t);
            && Owed(w.stream, w.gone, w.s.subs, w.s.client, 1) && w.origin <= 1 < w.s.cur.next
            && 1 !in w.sent && w.s.cur.holes == map[]
  {
    hide RunsBut, Owed, Spares, Sends, CountAbove, StartsAt;
    t := Start(cfg, 10);
    t := Then(t, cfg, 10, Detach(0, 0));
    t := Then(t, cfg, 10, BeginReplay);
    t := Then(t, cfg, 10, ChooseCover);
    CoverA();
    t := SubscribeB(t, cfg, 10, 1);
    t := Then(t, cfg, 10, Append(M));
    assert Last(t).stream == [M];
    t := Then(t, cfg, 10, ReadLast);
    assert !CoveredBy({A}, M) by { PlainMatch('a', 'b'); }
    OneStored();
    t := Then(t, cfg, 10, EndReplay(1, 0));
    FilledBoth();
    assert Last(t).s.subs == Both(Some(0)) && Last(t).stream == [M] && Last(t).gone == {};
    OneOwed({}, Last(t).s.subs, "b");
  }

  lemma CoverA()
    ensures Cover(map["a" := A]) == {A}
  {
    var subs := map["a" := A];
    assert forall c :: c in Cover(subs) <==> c == subs["a"];
  }

  /** A SUBSCRIBE to "b" before anything is stored, by a session that has a subscription to "a". */
  lemma SubscribeB(t: Trace, cfg: Config, k: int, floor: nat) returns (more: Trace)
    requires RunsBut(t, cfg, k) && !(|t.steps| <= k < |t.steps| + 3)
    requires var w := Last(t); w.stream == [] && w.s.subs == map["a" := A] && w.nextKey == 1 && w.now == 0
    requires Last(t).replay.Replaying? && Last(t).replay.ok ==> floor != 0
    ensures RunsBut(more, cfg, k) && |more.steps| == |t.steps| + 3 && t.steps <= more.steps && more.run != []
    ensures Last(more) == Last(t).(s := Last(t).s.(subs := Both(Some(0))), nextKey := 2, subscribing := NotSubscribing)
  {
    hide RunsBut;
    more := AskB(t, cfg, k);
    more := FillB(more, cfg, k, floor);
  }

  function Both(since: Option<nat>): Subs { map["a" := A, "b" := Plain(1, "b", since)] }

  /** Its first two steps: the subscription is installed and the stream's end is read. */
  lemma AskB(t: Trace, cfg: Config, k: int) returns (more: Trace)
    requires RunsBut(t, cfg, k) && !(|t.steps| <= k < |t.steps| + 2)
    requires var w := Last(t); w.stream == [] && w.s.subs == map["a" := A] && w.nextKey == 1 && w.now == 0
    ensures RunsBut(more, cfg, k) && |more.steps| == |t.steps| + 2 && t.steps <= more.steps && more.run != []
    ensures Last(more) == Last(t).(s := Last(t).s.(subs := Both(None)), nextKey := 2, subscribing := EndRead(0, 0))
  {
    hide RunsBut;
    more := Then(t, cfg, k, Subscribe(Plain(1, "b", None)));
    assert Last(more).s.subs == Both(None);
    more := Then(more, cfg, k, ReadEnd);
  }

  /** Its last: the since is set to the end that was read. */
  lemma FillB(t: Trace, cfg: Config, k: int, floor: nat) returns (more: Trace)
    requires RunsBut(t, cfg, k) && |t.steps| != k
    requires var w := Last(t); w.s.subs == Both(None) && w.subscribing == EndRead(0, 0)
    requires Last(t).replay.Replaying? && Last(t).replay.ok ==> floor != 0
    ensures RunsBut(more, cfg, k) && |more.steps| == |t.steps| + 1 && t.steps <= more.steps && more.run != []
    ensures Last(more) == Last(t).(s := Last(t).s.(subs := Both(Some(0))), subscribing := NotSubscribing)
  {
    hide RunsBut;
    assert FillSince(Both(None), {1}, 0) == Both(Some(0));
    more := Then(t, cfg, k, FillSinceStep({1}, true, true, 0, floor));
  }

  lemma FilledBoth()
    ensures forall keys, last :: FillSince(Both(Some(0)), keys, last) == Both(Some(0))
  {
    forall keys, last ensures FillSince(Both(Some(0)), keys, last) == Both(Some(0)) {
      assert forall f :: f in Both(Some(0)) ==> Both(Some(0))[f].since.Some?;
    }
  }

  // ---------------------------------------------------------------- scans and restarts

  /** A read of "m" for both subscriptions, while the since of "b" is unknown. */
  lemma EarlyRead()
    ensures ScanRead([M], {}, Both(None), "c", 1, 1) == [Scanned(1, "m", false)]
  {
    hide Matches;
    PlainMatch('a', 'b');
    PlainMatch('b', 'b');
    OneStored();
    var subs := Both(None);
    assert Serves(subs["b"], At([M], 1), "c") && !OwesAt(subs["a"], M, 1, "c") && !OwesAt(subs["b"], M, 1, "c");
    assert ScanRead([M], {}, subs, "c", 2, 1) == [];
  }

  lemma BothKeys(s: Session, since: Option<nat>)
    requires s.subs == Both(since)
    ensures Keys(s) == {0, 1} && (since.Some? ==> SinceKnown(s))
  {
    assert s.subs["a"].key == 0 && s.subs["b"].key == 1;
  }

  /**
    scanOnce looks at the sinces before it copies the subscriptions. Here the session subscribes to "b" in
    between: the read does not flag "m", the since of "b" is set to 0 before the result is applied, and the
    cursor passes "m".
   */
  lemma EarlyScanSkips(cfg: Config) returns (t: Trace)
    ensures RunsBut(t, cfg, 7) && |t.steps| == 10 && t.steps[7] == ReadScan
    ensures var w := Last(t);
            && Owed(w.stream, w.gone, w.s.subs, w.s.client, 1) && w.origin <= 1 < w.s.cur.next
            && 1 !in w.sent && w.s.cur.holes == map[]
  {
    hide RunsBut, Owed, ScanRead, CountAbove, Keys;
    t := Start(cfg, 7);
    t := Then(t, cfg, 7, BeginScan);
    t := AskB(t, cfg, 7);
    t := Then(t, cfg, 7, Append(M));
    assert Last(t).stream == [M];
    EarlyRead();
    BothKeys(Last(t).s, None);
    t := Then(t, cfg, 7, ReadScan);
    t := FillB(t, cfg, 7, 0);
    BothKeys(Last(t).s, Some(0));
    NoHole(Last(t).s, cfg);
    t := Then(t, cfg, 7, EndScan(0));
    assert Last(t).s.subs == Both(Some(0)) && Last(t).stream == [M] && Last(t).gone == {};
    OneOwed({}, Last(t).s.subs, "b");
  }

  lemma NoHole(s: Session, cfg: Config)
    ensures AddHoles(s, cfg, [Scanned(1, "m", false)], 2) == (s, true)
    ensures RestartHoles(s.delivered, [Scanned(1, "m", false)], 2) == Some([])
  {
    assert [Scanned(1, "m", false)][1..] == [];
    assert AddHoles(s, cfg, [], 2) == (s, true) && RestartHoles(s.delivered, [], 2) == Some([]);
  }

  /** restartCursor copies the subscriptions after the same look: the cursor a restart sets starts above "m". */
  lemma EarlyRestartSkips(cfg: Config) returns (t: Trace)
    requires cfg.window > 0
    ensures RunsBut(t, cfg, 5) && |t.steps| == 8 && t.steps[5].ReadRestart?
    ensures var w := Last(t);
            && Owed(w.stream, w.gone, w.s.subs, w.s.client, 1) && w.origin <= 1 < w.s.cur.next
            && 1 !in w.sent && w.s.cur.holes == map[]
  {
    hide RunsBut, Owed, ScanRead, CountAbove, Keys, RestartHoles, With, AddHoles, Spares, Sends;
    t := Begin(cfg, 5);
    t := Then(t, cfg, 5, Subscribe(Plain(0, "a", None)));
    assert Last(t).s.subs == map["a" := Plain(0, "a", None)];
    assert FillSince(Last(t).s.subs, {0}, 0) == map["a" := A];
    t := Then(t, cfg, 5, FillSinceStep({0}, false, false, 0, 0));
    t := AskB(t, cfg, 5);
    t := Then(t, cfg, 5, Append(M));
    assert Last(t).stream == [M];
    EarlyRead();
    BothKeys(Last(t).s, None);
    t := Then(t, cfg, 5, ReadRestart(0, 1));
    t := FillB(t, cfg, 5, 0);
    BothKeys(Last(t).s, Some(0));
    NoHole(Last(t).s, cfg);
    NoneAbove(2);
    t := Then(t, cfg, 5, EndRestart(0));
    assert Last(t).s.subs == Both(Some(0)) && Last(t).stream == [M] && Last(t).gone == {};
    OneOwed({}, Last(t).s.subs, "b");
  }

  // ---------------------------------------------------------------- a SUBSCRIBE that starts the cursor

  /** A replay without a cursor that ended while "b" was being subscribed to: it set the since and started a cursor. */
  function Replayed(): World {
    New().(nextKey := 1, origin := 1, pinFrom := 1,
           s := Session("c", Cursor(1, map[], map[], 1, 0, 0, 0), map[], 0, map["b" := Plain(0, "b", Some(0))]))
  }

  /** The replay, which found nothing to read. */
  function Reading(subs: Subs, nextKey: nat): World {
    var s := Session("c", Cursor(0, map[], map[], 0, 0, 1, 0), map[], 0, subs);
    New().(nextKey := nextKey, pinFrom := 1, s := s,
           replay := Replaying(View(0, map[]), false, 1, {}, {}, Some({}), Some(0), {}, Some(Away(0, 0, 0, false))))
  }

  lemma ReadNothing(cfg: Config) returns (t: Trace)
    ensures RunsBut(t, cfg, 9) && |t.steps| == 4 && t.run != [] && Last(t) == Reading(map[], 0)
  {
    hide RunsBut, Spares, Sends;
    t := Begin(cfg, 9);
    t := Then(t, cfg, 9, Detach(0, 0));
    t := Then(t, cfg, 9, BeginReplayFrom(true, 1));
    assert Last(t).s.delivered.Keys == {};
    t := Then(t, cfg, 9, ChooseCover);
    assert Cover(map[]) == {};
    t := Then(t, cfg, 9, ReadLast);
  }

  lemma ReplayMeanwhile(cfg: Config) returns (t: Trace)
    ensures RunsBut(t, cfg, 9) && |t.steps| == 6 && t.run != [] && Last(t) == Replayed()
  {
    hide RunsBut, Spares, Sends, CountAbove, StartsAt, Cover;
    var sub := Plain(0, "b", None);
    t := ReadNothing(cfg);
    t := Then(t, cfg, 9, Subscribe(sub));
    assert Last(t).s.subs == map["b" := sub];
    assert FillSince(Last(t).s.subs, Keys(Last(t).s), 0) == map["b" := Plain(0, "b", Some(0))] by {
      assert Last(t).s.subs["b"].key in Keys(Last(t).s);
    }
    NoneAbove(1);
    t := Then(t, cfg, 9, EndReplay(1, 0));
  }

  /**
    A SUBSCRIBE reads the stream's end, then sets the sinces that are still unknown. Here a replay that ends in
    between sets that of "b" to 0 and starts a cursor, which is dropped again before the SUBSCRIBE goes on: the
    cursor it starts lies above "m", which "b" is owed.
   */
  lemma LowSinceStartSkips(cfg: Config) returns (t: Trace)
    ensures RunsBut(t, cfg, 9) && |t.steps| == 10 && t.steps[9].FillSinceStep?
    ensures var w := Last(t);
            && Owed(w.stream, w.gone, w.s.subs, w.s.client, 1) && w.origin <= 1 < w.s.cur.next
            && 1 !in w.sent && w.s.cur.holes == map[]
  {
    hide RunsBut, Owed, CountAbove;
    t := ReplayMeanwhile(cfg);
    t := Then(t, cfg, 9, Append(M));
    t := Then(t, cfg, 9, ReadEnd);
    t := Then(t, cfg, 9, DropCursor);
    assert FillSince(Last(t).s.subs, {0}, 1) == Last(t).s.subs;
    t := Then(t, cfg, 9, FillSinceStep({0}, true, false, 0, 0));
    assert Last(t).stream == [M] && Last(t).gone == {};
    OneOwed({}, Last(t).s.subs, "b");
  }

  // ---------------------------------------------------------------- copies that carry no sequence

  /** A world about to send again, in a replay, a message that was sent. */
  ghost predicate Repeats(w: World, q: nat) {
    w.replay.Replaying? && Stored(w.stream, q) && q !in w.gone && Eligible(w.replay, q) && q in w.sent && Sends(w, q)
  }

  /** Repeating is what the invariants exclude. */
  lemma NeverRepeats(w: World, cfg: Config, q: nat)
    requires Inv(w, cfg)
    ensures !Repeats(w, q)
  {
    hide Inv, Sends;
    if Repeats(w, q) { ReplayNeverRepeats(w, cfg, q); }
  }

  /** `n` copies of a character: ids that differ in length. */
  function Run(c: char, n: nat): string { seq(n, _ => c) }

  const B := Plain(0, "b", Some(0))

  /** "m" noted without its sequence, and `j` other such messages noted at `p`. */
  function Unsequenced(j: nat, p: nat): Delivered {
    if j == 0 then map["m" := Mark(0, 0)] else Unsequenced(j - 1, p)[Run('x', j) := Mark(p, 0)]
  }

  lemma {:induction false} UnsequencedSize(j: nat, p: nat)
    ensures |Unsequenced(j, p)| == j + 1 && "m" in Unsequenced(j, p) && Unsequenced(j, p)["m"] == Mark(0, 0)
    ensures forall id :: id in Unsequenced(j, p) ==> |id| <= j + 1 && Unsequenced(j, p)[id].seqNo == 0
    ensures forall i :: i > j ==> Run('x', i) !in Unsequenced(j, p)
  {
    if j > 0 {
      UnsequencedSize(j - 1, p);
      assert Run('x', j) != "m" by { assert Run('x', j)[0] == 'x'; }
      assert forall i :: i > j ==> |Run('x', i)| == i;
      assert Run('x', j) !in Unsequenced(j - 1, p);
    } else {
      assert forall i :: i > 0 ==> Run('x', i)[0] == 'x';
    }
  }

  function Copied(j: nat, p: nat): World {
    New().(stream := [M], now := p, nextKey := 1, sent := {1},
           s := Session("c", Cursor(1, map[], map[], 1, 1, 0, 0), Unsequenced(j, p), 1, map["b" := B]))
  }

  predicate Notes(step: Step) { step.Deliver? || step.DeliverOther? || step.Handle? }

  /** No queued message is noted without its sequence. */
  predicate Sequenced(w: World, step: Step) { step.DeliverOther? ==> Queued(w.stream, step.id) == {} }

  /**
    A run in which only step `k` may note a queued message without its sequence. Whether a pruning pass spares
    such a message is left open; everything else keeps to what the invariants rely on.
   */
  ghost predicate RunsLoose(t: Trace, cfg: Config, k: nat) {
    && |t.run| == |t.steps| + 1
    && Initial(t.run[0])
    && forall i :: 0 <= i < |t.steps| ==>
         && Enabled(t.run[i], cfg, t.steps[i]) && (Notes(t.steps[i]) || Relied(t.run[i], cfg, t.steps[i]))
         && (i != k ==> Sequenced(t.run[i], t.steps[i]))
         && t.run[i + 1] == Do(t.run[i], cfg, t.steps[i])
  }

  lemma ThenLoose(t: Trace, cfg: Config, k: nat, step: Step) returns (more: Trace)
    requires RunsLoose(t, cfg, k) && Enabled(Last(t), cfg, step) && (Notes(step) || Relied(Last(t), cfg, step))
    requires |t.steps| != k ==> Sequenced(Last(t), step)
    ensures RunsLoose(more, cfg, k) && more.steps == t.steps + [step] && more.run == t.run + [Last(more)]
    ensures |more.run| == |more.steps| + 1 && Last(more) == Do(Last(t), cfg, step)
  {
    hide Enabled, Relied, Do, Initial, Sequenced;
    more := Trace(t.run + [Do(Last(t), cfg, step)], t.steps + [step]);
    forall i | 0 <= i < |more.steps|
      ensures Enabled(more.run[i], cfg, more.steps[i])
      ensures Notes(more.steps[i]) || Relied(more.run[i], cfg, more.steps[i])
      ensures i != k ==> Sequenced(more.run[i], more.steps[i])
      ensures more.run[i + 1] == Do(more.run[i], cfg, more.steps[i])
    {
      if i < |t.steps| { assert more.run[i] == t.run[i] && more.steps[i] == t.steps[i]; }
    }
  }

  /** A session subscribed to "b" whose cursor starts at 1. */
  function StartedB(): World {
    New().(s := Session("c", Cursor(1, map[], map[], 1, 0, 0, 0), map[], 0, map["b" := B]), nextKey := 1)
  }

  lemma StartB(cfg: Config) returns (t: Trace)
    ensures RunsLoose(t, cfg, 5) && |t.steps| == 3 && |t.run| == 4 && Last(t) == StartedB()
  {
    hide RunsLoose;
    t := Trace([New()], []);
    BeginLoose(cfg);
    t := ThenLoose(t, cfg, 5, Subscribe(Plain(0, "b", None)));
    assert Last(t).s.subs == map["b" := Plain(0, "b", None)];
    t := ThenLoose(t, cfg, 5, ReadEnd);
    assert FillSince(Last(t).s.subs, {0}, 0) == map["b" := B];
    t := ThenLoose(t, cfg, 5, FillSinceStep({0}, true, false, 0, 0));
  }

  lemma CopyM(cfg: Config, p: nat) returns (t: Trace)
    ensures RunsLoose(t, cfg, 5) && |t.steps| == 7 && t.steps[5] == DeliverOther("m") && |t.run| == 8
    ensures t.run[5].now == 0 && t.run[5].stream == [M] && Last(t) == Copied(0, p)
  {
    hide RunsLoose, Queued;
    t := StartB(cfg);
    t := ThenLoose(t, cfg, 5, Append(M));
    assert Last(t).stream == [M];
    t := ThenLoose(t, cfg, 5, Deliver(1));
    assert Last(t).s.delivered == map["m" := Mark(0, 1)] && Last(t).sent == {1};
    QueuedM();
    t := ThenLoose(t, cfg, 5, DeliverOther("m"));
    assert Last(t).s.delivered == map["m" := Mark(0, 0)] && Last(t).sent == {1};
    t := ThenLoose(t, cfg, 5, Tick(p));
  }

  lemma BeginLoose(cfg: Config)
    ensures RunsLoose(Trace([New()], []), cfg, 5)
  {
  }

  lemma QueuedM()
    ensures Queued([M], "m") == {1} && forall id :: id != "m" ==> Queued([M], id) == {}
  {
    OneStored();
    assert 1 in Queued([M], "m");
  }

  lemma OtherNoted(j: nat, p: nat)
    requires j > 0
    ensures var t := Note(Copied(j - 1, p).s, Run('x', j), 0, p);
            t == Copied(j, p).s && |t.delivered| == j + 1
    ensures Queued([M], Run('x', j)) == {} && Run('x', j) != ""
  {
    UnsequencedSize(j, p);
    assert Run('x', j)[0] == 'x' && M.id[0] == 'm';
    QueuedM();
  }

  lemma {:induction false} CopyOthers(t: Trace, cfg: Config, p: nat, j: nat) returns (more: Trace)
    requires RunsLoose(t, cfg, 5) && |t.steps| == 7 && |t.run| == 8 && Last(t) == Copied(0, p) && j <= 126
    ensures RunsLoose(more, cfg, 5) && |more.steps| == 7 + j && t.steps <= more.steps && t.run <= more.run
    ensures |more.run| == 8 + j && Last(more) == Copied(j, p)
    decreases j
  {
    hide RunsLoose, Note, Queued;
    more := t;
    if j > 0 {
      more := CopyOthers(t, cfg, p, j - 1);
      OtherNoted(j, p);
      assert Copied(j - 1, p).sent + {} == Copied(j, p).sent;
      more := ThenLoose(more, cfg, 5, DeliverOther(Run('x', j)));
    }
  }

  /** The delivery that makes the pass due, the end of the connection, and the replay. */
  lemma CopyDue(cfg: Config, p: nat) returns (v: World, w: World)
    requires p > 2 * cfg.window
    ensures var u, step := Copied(126, p), DeliverOther(Run('x', 127));
            && Enabled(u, cfg, step) && Sequenced(u, step) && v == Do(u, cfg, step)
            && Enabled(v, cfg, Detach(p, 0)) && Relied(v, cfg, Detach(p, 0)) && w == Do(v, cfg, Detach(p, 0))
            && Enabled(w, cfg, BeginReplay) && Relied(w, cfg, BeginReplay)
            && Repeats(Do(w, cfg, BeginReplay), 1) && Do(w, cfg, BeginReplay).now == p
  {
    hide Note, Prune, Unsequenced, Queued;
    OtherNoted(127, p);
    CopyForgotten(cfg, p);
    var pruned := Prune(Copied(127, p).s, cfg, p);
    v := Do(Copied(126, p), cfg, DeliverOther(Run('x', 127)));
    assert Copied(126, p).sent + {} == {1};
    assert v == Copied(127, p).(s := pruned, prunedAt := p);
    w := Do(v, cfg, Detach(p, 0));
    OneStored();
    assert Serves(B, M, "c") by { PlainMatch('b', 'b'); }
    assert "b" in w.s.subs && w.s.subs["b"] == B;
  }

  lemma CopyForgotten(cfg: Config, p: nat)
    requires p > 2 * cfg.window
    ensures var t := Prune(Copied(127, p).s, cfg, p);
            "m" !in t.delivered && t == Copied(127, p).s.(delivered := t.delivered)
  {
    UnsequencedSize(127, p);
    assert KeptIds(Copied(127, p).s) == {};
  }

  /**
    A run in which step `k` notes a queued message without its sequence, at most `delay` passes after that, and a
    replay sends a message again.
   */
  ghost predicate UnsequencedRepeats(t: Trace, cfg: Config, k: nat, delay: nat) {
    && RunsLoose(t, cfg, k) && k < |t.steps| && !Sequenced(t.run[k], t.steps[k])
    && Last(t).now <= t.run[k].now + delay
    && exists q: nat :: Repeats(Last(t), q)
  }

  /**
    A retained or shared-subscription copy of a queued message is noted with sequence 0, over the mark the
    queued copy left. Here "m" is sent at sequence 1, at the cursor, and noted again without it; the pass that
    is due after 127 more deliveries forgets it, and the next replay sends it again.
   */
  lemma UnsequencedCopyRepeats(cfg: Config, delay: nat) returns (t: Trace)
    requires delay > 2 * cfg.window
    ensures UnsequencedRepeats(t, cfg, 5, delay) && t.steps[5] == DeliverOther("m") && Repeats(Last(t), 1)
  {
    hide RunsLoose, Enabled, Relied, Do, Copied, Repeats, Queued;
    t := CopyM(cfg, delay);
    t := CopyOthers(t, cfg, delay, 126);
    var v, w := CopyDue(cfg, delay);
    t := ThenLoose(t, cfg, 5, DeliverOther(Run('x', 127)));
    t := ThenLoose(t, cfg, 5, Detach(delay, 0));
    t := ThenLoose(t, cfg, 5, BeginReplay);
    QueuedM();
  }

  /** A queued message known without its sequence has been since `from` at the earliest. */
  ghost predicate LooseSince(st: Stream, delivered: Delivered, from: nat) {
    forall q :: Loose(st, delivered, q) ==> delivered[At(st, q).id].at >= from
  }

  /** Steps that note nothing leave the ids, and the messages they are of, as they were. */
  lemma QuietStep(w: World, cfg: Config, step: Step)
    requires Enabled(w, cfg, step) && !Notes(step)
    ensures var v := Do(w, cfg, step);
            && v.s.delivered == w.s.delivered && v.now >= w.now
            && (v.stream == w.stream || (step.Append? && v.stream == w.stream + [step.m]))
  {
    hide ApplyScan, FillSince, Keys, SinceKnown, CountAbove, SameSubs, ScanRead, With, NoteLate, Relied, RestartHoles;
    hide NothingOwedTo, Eligible, RecentFrom, StartsAt, ToRead, SettleHoles, PutHoles, Noted, Queued, Cover, AddHole;
    match step
    case LiveCopy(q) =>
      AddHoleIsQuiet(w.s, cfg, q, At(w.stream, q).id);
      WithIs(w, NoteLiveCopy(w.s, cfg, q, At(w.stream, q).id));
    case LateCopy(q) =>
      AddHoleIsQuiet(w.s, cfg, q, At(w.stream, q).id);
      WithIs(w, NoteLiveCopy(w.s, cfg, q, At(w.stream, q).id));
      LateIs(With(w, NoteLiveCopy(w.s, cfg, q, At(w.stream, q).id)), q);
    case EndScan(floor) =>
      var sc := w.scan;
      WithIs(w.(scan := NoScan), ApplyScan(w.s, cfg, sc.gen, sc.start, sc.last, sc.keys, sc.read, floor).session);
      ScanIsQuiet(w.s, cfg, sc.gen, sc.start, sc.last, sc.keys, sc.read, floor);
    case DropCursor => WithIs(w, Drop(w.s));
    case _ =>
  }

  lemma AddHoleIsQuiet(s: Session, cfg: Config, seqNo: nat, id: Id)
    ensures AddHole(s, cfg, seqNo, id).0.delivered == s.delivered
  {
  }

  lemma {:induction false} AddHolesIsQuiet(s: Session, cfg: Config, read: seq<Scanned>, next: nat)
    ensures AddHoles(s, cfg, read, next).0.delivered == s.delivered
    decreases |read|
  {
    if read != [] && read[0].seqNo < next {
      AddHolesIsQuiet(if read[0].owed then AddHole(s, cfg, read[0].seqNo, read[0].id).0 else s, cfg, read[1..], next);
    }
  }

  lemma ScanIsQuiet(s: Session, cfg: Config, gen: nat, start: nat, last: nat, keys: set<nat>, read: seq<Scanned>,
                    floor: nat)
    ensures ApplyScan(s, cfg, gen, start, last, keys, read, floor).session.delivered == s.delivered
  {
    hide SameSubs, SinceKnown, AddHoles, CountAbove;
    AddHolesIsQuiet(s, cfg, read, ScanEnd(start, last, floor));
  }

  /** A note leaves the loose marks as they were, but for its own. */
  lemma NoteLoose(st: Stream, s: Session, id: Id, seqNo: nat, now: nat, from: nat)
    requires LooseSince(st, s.delivered, from)
    requires seqNo != 0 || Queued(st, id) == {} || now >= from
    ensures LooseSince(st, Note(s, id, seqNo, now).delivered, from)
  {
    hide RemoveHole;
    forall q | Loose(st, Note(s, id, seqNo, now).delivered, q)
      ensures Note(s, id, seqNo, now).delivered[At(st, q).id].at >= from
    {
      if At(st, q).id == id { assert q in Queued(st, id); } else { assert Loose(st, s.delivered, q); }
    }
  }

  lemma NotedLoose(st: Stream, s: Session, cfg: Config, id: Id, seqNo: nat, now: nat, from: nat)
    requires LooseSince(st, Note(s, id, seqNo, now).delivered, from)
    ensures LooseSince(st, NoteDelivered(s, cfg, id, seqNo, now).delivered, from)
  {
    hide Note, Prunable, KeptIds;
    var after := NoteDelivered(s, cfg, id, seqNo, now).delivered;
    forall q | Loose(st, after, q) ensures after[At(st, q).id].at >= from {
      assert Loose(st, Note(s, id, seqNo, now).delivered, q);
    }
  }

  /** What a noting step notes. */
  function NotedId(w: World, step: Step): Id
    requires Notes(step) && (step.DeliverOther? || Stored(w.stream, step.q))
  {
    if step.DeliverOther? then step.id else At(w.stream, step.q).id
  }

  function NotedSeq(step: Step): nat
    requires Notes(step)
  {
    if step.DeliverOther? then 0 else step.q
  }

  lemma LooseStep(w: World, cfg: Config, step: Step, from: nat)
    requires Enabled(w, cfg, step) && LooseSince(w.stream, w.s.delivered, from)
    requires Sequenced(w, step) || w.now >= from
    ensures LooseSince(Do(w, cfg, step).stream, Do(w, cfg, step).s.delivered, from) && Do(w, cfg, step).now >= w.now
    ensures Notes(step) ==>
              LooseSince(w.stream, Note(w.s, NotedId(w, step), NotedSeq(step), w.now).delivered, from)
  {
    hide Do, Note, NoteDelivered, Noted, Relied, Queued;
    if Notes(step) {
      var id, seqNo := NotedId(w, step), NotedSeq(step);
      NoteLoose(w.stream, w.s, id, seqNo, w.now, from);
      NotedLoose(w.stream, w.s, cfg, id, seqNo, w.now, from);
      NotedIs(w, cfg, id, seqNo);
      NotingStep(w, cfg, step);
    } else {
      QuietStep(w, cfg, step);
      if step.Append? { AppendLoose(w, cfg, step, from); }
    }
  }

  lemma NotingStep(w: World, cfg: Config, step: Step)
    requires Enabled(w, cfg, step) && Notes(step)
    ensures var v, n := Do(w, cfg, step), Noted(w, cfg, NotedId(w, step), NotedSeq(step));
            v.stream == w.stream && v.now == n.now && (v.s == n.s || v.s == w.s)
  {
    hide Noted, Relied, Queued, Sends, Eligible;
    NotedIs(w, cfg, NotedId(w, step), NotedSeq(step));
  }

  lemma AppendLoose(w: World, cfg: Config, step: Step, from: nat)
    requires Enabled(w, cfg, step) && step.Append? && LooseSince(w.stream, w.s.delivered, from)
    ensures LooseSince(w.stream + [step.m], w.s.delivered, from)
  {
    var st := w.stream + [step.m];
    forall q | Loose(st, w.s.delivered, q) ensures w.s.delivered[At(st, q).id].at >= from {
      if q <= |w.stream| { assert At(st, q) == At(w.stream, q) && Loose(w.stream, w.s.delivered, q); }
    }
  }

  lemma {:induction false} LooseRun(t: Trace, cfg: Config, k: nat, i: nat, from: nat)
    requires RunsLoose(t, cfg, k) && i < |t.run| && (i <= k || from <= t.run[k].now)
    ensures LooseSince(t.run[i].stream, t.run[i].s.delivered, from) && (i > k ==> t.run[i].now >= t.run[k].now)
    decreases i
  {
    hide Enabled, Relied, Do, Sequenced, LooseSince;
    if i == 0 {
      NothingLoose(t.run[0], from);
    } else {
      LooseRun(t, cfg, k, i - 1, from);
      LooseStep(t.run[i - 1], cfg, t.steps[i - 1], from);
    }
  }

  lemma NothingLoose(w: World, from: nat)
    requires Initial(w)
    ensures LooseSince(w.stream, w.s.delivered, from)
  {
  }

  lemma {:induction false} NowGrows(t: Trace, cfg: Config, k: nat, i: nat, j: nat)
    requires RunsLoose(t, cfg, k) && i <= j < |t.run|
    ensures t.run[i].now <= t.run[j].now
    decreases j
  {
    hide Enabled, Relied, Do, Sequenced;
    if i < j {
      NowGrows(t, cfg, k, i, j - 1);
      StepNow(t.run[j - 1], cfg, t.steps[j - 1]);
    }
  }

  lemma StepNow(w: World, cfg: Config, step: Step)
    requires Enabled(w, cfg, step)
    ensures Do(w, cfg, step).now >= w.now
  {
    hide Enabled, Do, Noted;
    if Notes(step) {
      assert step.DeliverOther? || Stored(w.stream, step.q) by { NotesStored(w, cfg, step); }
      NotingStep(w, cfg, step);
      NotedIs(w, cfg, NotedId(w, step), NotedSeq(step));
    } else {
      QuietStep(w, cfg, step);
    }
  }

  lemma NotesStored(w: World, cfg: Config, step: Step)
    requires Enabled(w, cfg, step) && Notes(step)
    ensures step.DeliverOther? || Stored(w.stream, step.q)
  {
  }

  /** Within twice the rewind of the note, every pass spares the message. */
  lemma SoonIsRelied(t: Trace, cfg: Config, k: nat, i: nat)
    requires RunsLoose(t, cfg, k) && k < |t.steps| && i < |t.steps|
    requires Last(t).now <= t.run[k].now + 2 * cfg.window
    ensures Relied(t.run[i], cfg, t.steps[i])
  {
    hide Do, Initial, Note, Sequenced, LooseSince;
    var w, step := t.run[i], t.steps[i];
    if Notes(step) {
      assert step.DeliverOther? || Stored(w.stream, step.q) by { NotesStored(w, cfg, step); }
      var from := if i <= k then w.now else t.run[k].now;
      LooseRun(t, cfg, k, i, from);
      LooseStep(w, cfg, step, from);
      NowGrows(t, cfg, k, i, |t.steps|);
      LooseYoung(w.stream, Note(w.s, NotedId(w, step), NotedSeq(step), w.now).delivered, w.now, cfg.window, from);
    }
  }

  lemma LooseYoung(st: Stream, delivered: Delivered, now: nat, window: nat, from: nat)
    requires LooseSince(st, delivered, from) && now <= from + 2 * window
    ensures YoungLoose(st, delivered, now, window)
  {
  }

  /**
    A message noted without its sequence can be repeated exactly when more than twice the rewind passes before the
    replay: until then no pass forgets its id, whatever its sequence.
   */
  lemma UnsequencedExact(cfg: Config, delay: nat)
    ensures (exists t, k: nat :: UnsequencedRepeats(t, cfg, k, delay)) <==> delay > 2 * cfg.window
  {
    hide RunsLoose, Repeats, Sequenced;
    if delay > 2 * cfg.window {
      var t := UnsequencedCopyRepeats(cfg, delay);
      assert UnsequencedRepeats(t, cfg, 5, delay);
    } else {
      forall t, k: nat ensures !UnsequencedRepeats(t, cfg, k, delay) { SoonIsSafe(t, cfg, k, delay); }
    }
  }

  lemma SoonIsSafe(t: Trace, cfg: Config, k: nat, delay: nat)
    requires delay <= 2 * cfg.window
    ensures !UnsequencedRepeats(t, cfg, k, delay)
  {
    hide Repeats, Inv, Enabled, Relied, Do, Initial, Sequenced;
    if UnsequencedRepeats(t, cfg, k, delay) {
      forall i | 0 <= i < |t.steps| ensures Relied(t.run[i], cfg, t.steps[i]) { SoonIsRelied(t, cfg, k, i); }
      assert RunsBut(t, cfg, -1);
      SafeUpTo(t, cfg, -1, |t.steps|);
      var q: nat :| Repeats(Last(t), q);
      NeverRepeats(Last(t), cfg, q);
    }
  }

  // ---------------------------------------------------------------- an id forgotten for its age and its sequence

  /** `n` messages stored at time 0, each named by an id as long as its sequence. */
  function Flood(n: nat): Stream { seq(n, (i: nat) => Wave(i + 1)) }

  function Wave(q: nat): Msg { Msg(Run('i', q), "b", 1, "p", 0) }

  lemma FloodAt(n: nat)
    ensures forall q :: Stored(Flood(n), q) <==> 1 <= q <= n
    ensures forall q: nat :: Stored(Flood(n), q) ==> At(Flood(n), q) == Wave(q) && |Wave(q).id| == q
    ensures |Flood(n)| == n && Flood(n + 1) == Flood(n) + [Wave(n + 1)]
  {
  }

  /** The message at `q` noted at time 0, and the `j` messages from `lo` on noted at `p`. */
  function Floated(q: nat, lo: nat, j: nat, p: nat): Delivered {
    if j == 0 then map[Run('i', q) := Mark(0, q)]
    else Floated(q, lo, j - 1, p)[Run('i', lo + j - 1) := Mark(p, lo + j - 1)]
  }

  lemma {:induction false} FloatedSize(q: nat, lo: nat, j: nat, p: nat)
    requires q < lo
    ensures |Floated(q, lo, j, p)| == j + 1
    ensures Run('i', q) in Floated(q, lo, j, p) && Floated(q, lo, j, p)[Run('i', q)] == Mark(0, q)
    ensures forall id :: id in Floated(q, lo, j, p) ==> |id| < lo + j && (q > 0 ==> Floated(q, lo, j, p)[id].seqNo > 0)
    ensures Run('i', lo + j) !in Floated(q, lo, j, p)
  {
    assert |Run('i', lo + j)| == lo + j && |Run('i', q)| == q;
    if j > 0 { FloatedSize(q, lo, j - 1, p); }
  }

  /** Nothing but the stream, the deliveries and the time differs from a new session subscribed to "b". */
  function Afloat(n: nat, q: nat, s: Session, sent: set<nat>, now: nat, prunedAt: nat): World {
    New().(stream := Flood(n), now := now, nextKey := 1, s := s, sent := sent, prunedAt := prunedAt,
           subscribing := if q == 0 then NotSubscribing else EndRead(q - 1, 0))
  }

  function Idle(delivered: Delivered, maxDelivered: nat, above: nat): Session {
    Session("c", Cursor(0, map[], map[], 0, above, 0, 0), delivered, maxDelivered, map["b" := Plain(0, "b", None)])
  }

  /** Messages are stored one by one. */
  lemma {:induction false} Store(t: Trace, cfg: Config, k: int, from: nat, n: nat, q: nat) returns (more: Trace)
    requires RunsBut(t, cfg, k) && t.run != [] && from <= n && k >= |t.steps| + n - from
    requires Last(t) == Afloat(from, q, Idle(map[], 0, 0), {}, 0, 0)
    ensures RunsBut(more, cfg, k) && |more.steps| == |t.steps| + n - from && more.run != []
    ensures Last(more) == Afloat(n, q, Idle(map[], 0, 0), {}, 0, 0)
    decreases n
  {
    hide RunsBut, Flood;
    more := t;
    if from < n {
      more := Store(t, cfg, k, from, n - 1, q);
      FloodAt(n - 1);
      assert |Wave(n).id| == n;
      more := Then(more, cfg, k, Append(Wave(n)));
    }
  }

  /** The session subscribes, reads the stream's end below `q`, and the message at `q` is delivered at time 0. */
  lemma Surface(cfg: Config, k: int, q: nat, max: nat, p: nat) returns (t: Trace)
    requires 1 <= q <= max && k >= max + 4
    ensures RunsBut(t, cfg, k) && |t.steps| == max + 4 && t.run != []
    ensures Last(t) == Afloat(max, q, Idle(map[Run('i', q) := Mark(0, q)], q, 1), {q}, p, 0)
  {
    hide RunsBut, Flood;
    t := Begin(cfg, k);
    t := Then(t, cfg, k, Subscribe(Plain(0, "b", None)));
    assert Last(t).s.subs == map["b" := Plain(0, "b", None)];
    assert Flood(0) == [] by { FloodAt(0); }
    t := Store(t, cfg, k, 0, q - 1, 0);
    assert |Flood(q - 1)| == q - 1 by { FloodAt(q - 1); }
    t := Then(t, cfg, k, ReadEnd);
    t := Store(t, cfg, k, q - 1, max, q);
    FloodAt(max);
    t := Then(t, cfg, k, Deliver(q));
    assert Last(t).s.delivered == map[Run('i', q) := Mark(0, q)];
    t := Then(t, cfg, k, Tick(p));
  }

  /** The world after `j` of the deliveries that follow, from `lo` on. */
  function Drifted(q: nat, max: nat, p: nat, lo: nat, j: nat, sent: set<nat>): World {
    Afloat(max, q, Idle(Floated(q, lo, j, p), if j == 0 || lo == 0 then q else lo + j - 1, j + 1), sent, p, 0)
  }

  lemma DriftNoted(q: nat, max: nat, p: nat, lo: nat, j: nat, sent: set<nat>)
    requires 1 <= q < lo && lo + j <= max && j <= 125
    ensures var s := Drifted(q, max, p, lo, j, sent).s;
            var noted := Note(s, Run('i', lo + j), lo + j, p);
            noted == Drifted(q, max, p, lo, j + 1, sent).s && |noted.delivered| == j + 2 && noted.cur.gen == s.cur.gen
  {
    hide Run, Flood;
    FloatedSize(q, lo, j, p);
    FloatedSize(q, lo, j + 1, p);
  }

  lemma Drifts(cfg: Config, q: nat, max: nat, p: nat, lo: nat, j: nat, sent: set<nat>)
    requires 1 <= q < lo && lo + j <= max && j <= 125
    ensures var w := Drifted(q, max, p, lo, j, sent);
            && Enabled(w, cfg, Deliver(lo + j)) && Relied(w, cfg, Deliver(lo + j))
            && Do(w, cfg, Deliver(lo + j)) == Drifted(q, max, p, lo, j + 1, sent + {lo + j})
  {
    hide Flood, Prune, YoungLoose, Floated, Note;
    FloodAt(max);
    DriftNoted(q, max, p, lo, j, sent);
    assert |Run('i', lo + j)| == lo + j;
  }

  /** The deliveries that follow, before the pass is due. */
  lemma {:induction false} Drift(t: Trace, cfg: Config, k: int, q: nat, max: nat, p: nat, lo: nat, j: nat)
    returns (more: Trace, sent: set<nat>)
    requires RunsBut(t, cfg, k) && t.run != [] && 1 <= q < lo && lo + j <= max + 1 && j <= 126 && k >= |t.steps| + j
    requires Last(t) == Drifted(q, max, p, lo, 0, {q})
    ensures RunsBut(more, cfg, k) && |more.steps| == |t.steps| + j && more.run != []
    ensures q in sent && (forall r :: r in sent ==> r == q || r >= lo) && Last(more) == Drifted(q, max, p, lo, j, sent)
    decreases j
  {
    hide RunsBut, Drifted, Enabled, Relied, Do;
    more, sent := t, {q};
    if j > 0 {
      more, sent := Drift(t, cfg, k, q, max, p, lo, j - 1);
      Drifts(cfg, q, max, p, lo, j - 1, sent);
      more := Then(more, cfg, k, Deliver(lo + j - 1));
      sent := sent + {lo + j - 1};
    }
  }

  /** A world in which the message at `q` was sent, and its id forgotten. */
  ghost predicate Sunk(w: World, q: nat, max: nat, p: nat) {
    exists delivered: Delivered, sent: set<nat>, above: nat ::
      && q in sent && Run('i', q) !in delivered && (forall r :: r in sent ==> r == q || r + 126 >= max)
      && w == Afloat(max, q, Idle(delivered, max, above), sent, p, p)
  }

  /** The delivery that makes the pass due. */
  lemma Sinks(cfg: Config, q: nat, max: nat, p: nat, sent: set<nat>)
    requires 1 <= q && q in sent && q + DELIVERED_SEQ_WINDOW < max && p > 2 * cfg.window
    requires forall r :: r in sent ==> r == q || r + 126 >= max
    ensures var w := Drifted(q, max, p, max - 126, 126, sent);
            && Enabled(w, cfg, Deliver(max)) && Relied(w, cfg, Deliver(max))
            && Sunk(Do(w, cfg, Deliver(max)), q, max, p)
  {
    hide Flood, Prune, Floated, Note, Idle, YoungLoose;
    var lo := max - 126;
    var w := Drifted(q, max, p, lo, 126, sent);
    FloodAt(max);
    var noted := SinkNoted(q, max, p, sent, 126);
    Swept(noted, cfg, q, p);
    assert YoungLoose(w.stream, noted.delivered, p, cfg.window)
      by { NoneLoose(w.stream, noted.delivered, p, cfg.window); }
    var delivered := Prune(noted, cfg, p).delivered;
    assert Sent(w, cfg, max) == Afloat(max, q, Idle(delivered, max, 128), sent + {max}, p, p)
      by { IdleIs(noted, delivered, max); }
  }

  lemma SinkNoted(q: nat, max: nat, p: nat, sent: set<nat>, j: nat) returns (noted: Session)
    requires 1 <= q && q + DELIVERED_SEQ_WINDOW < max && j == 126
    ensures var w := Drifted(q, max, p, max - j, j, sent);
            && noted == Note(w.s, Run('i', max), max, p) && noted == Idle(noted.delivered, max, j + 2)
            && |noted.delivered| == j + 2 && (forall id :: id in noted.delivered ==> noted.delivered[id].seqNo > 0)
            && noted.cur.next == 0 && noted.cur.pin == 0 && noted.maxDelivered == max && noted.cur.gen == w.s.cur.gen
            && Run('i', q) in noted.delivered && noted.delivered[Run('i', q)] == Mark(0, q)
  {
    var w := Drifted(q, max, p, max - j, j, sent);
    FloatedSize(q, max - j, j, p);
    FloatedSize(q, max - j, j + 1, p);
    noted := Note(w.s, Run('i', max), max, p);
  }

  lemma NoneLoose(st: Stream, delivered: Delivered, now: nat, window: nat)
    requires forall id :: id in delivered ==> delivered[id].seqNo > 0
    ensures YoungLoose(st, delivered, now, window)
  {
  }

  lemma IdleIs(s: Session, delivered: Delivered, max: nat)
    requires s == Idle(s.delivered, max, 128)
    ensures s.(delivered := delivered) == Idle(delivered, max, 128)
  {
  }

  /** An id at `q` is forgotten by a pass that finds it older than twice the rewind and `max` far above it. */
  lemma Sink(cfg: Config, k: int, q: nat, max: nat, p: nat) returns (t: Trace)
    requires 1 <= q && q + DELIVERED_SEQ_WINDOW < max && p > 2 * cfg.window && k >= max + 131
    ensures RunsBut(t, cfg, k) && |t.steps| == max + 131 && |t.run| == max + 132 && Sunk(Last(t), q, max, p)
  {
    hide RunsBut, Drifted, Enabled, Relied, Do, Sunk;
    var lo, sent := max - 126, {q};
    t := Surface(cfg, k, q, max, p);
    FirstDrift(q, max, p, lo);
    t, sent := Drift(t, cfg, k, q, max, p, lo, 126);
    Sinks(cfg, q, max, p, sent);
    t := Then(t, cfg, k, Deliver(max));
  }

  lemma FirstDrift(q: nat, max: nat, p: nat, lo: nat)
    ensures Drifted(q, max, p, lo, 0, {q}) == Afloat(max, q, Idle(map[Run('i', q) := Mark(0, q)], q, 1), {q}, p, 0)
  {
  }

  lemma Swept(s: Session, cfg: Config, q: nat, p: nat)
    requires s.cur.next == 0 && s.cur.pin == 0 && Run('i', q) in s.delivered && s.delivered[Run('i', q)] == Mark(0, q)
    requires p > 2 * cfg.window && q + DELIVERED_SEQ_WINDOW < s.maxDelivered
    ensures var t := Prune(s, cfg, p);
            Run('i', q) !in t.delivered && t == s.(delivered := t.delivered)
  {
    assert KeptIds(s) == {};
  }

  lemma SunkStored(w: World, q: nat, max: nat, p: nat)
    requires Sunk(w, q, max, p) && 1 <= q <= max
    ensures Stored(w.stream, q) && At(w.stream, q) == Wave(q) && Wave(q).id !in w.s.delivered && q in w.sent
    ensures |w.stream| == max && (forall r :: Stored(w.stream, r) ==> At(w.stream, r).at == 0)
    ensures forall r :: r in w.sent ==> r == q || r + 126 >= max
    ensures w.s == Idle(w.s.delivered, max, w.s.cur.above) && w == Afloat(max, q, w.s, w.sent, p, p)
  {
    FloodAt(max);
  }

  /** A replay that would send the message again does. */
  lemma SunkRepeats(w: World, q: nat, max: nat)
    requires w.stream == Flood(max) && 1 <= q <= max && q in w.sent && q !in w.gone && w.s.client == "c"
    requires "b" in w.s.subs && w.s.subs["b"].(since := None) == Plain(0, "b", None)
    requires w.replay.Replaying? && Eligible(w.replay, q) && w.replay.sent == {} && Wave(q).id !in w.replay.snapshot
    ensures Repeats(w, q)
  {
    FloodAt(max);
    PlainMatch('b', 'b');
    assert Serves(w.s.subs["b"], At(w.stream, q), "c");
  }

  // ---------------------------------------------------------------- a replay that starts at a sequence

  /**
    A run that ends by starting a replay at `start`, `max` being the highest sequence delivered, which repeats a
    message.
   */
  ghost predicate SequenceRepeats(t: Trace, cfg: Config, start: nat, max: nat) {
    var n := |t.steps|;
    && n > 0 && RunsBut(t, cfg, n - 1) && t.steps[n - 1] == BeginReplayFrom(false, start)
    && t.run[n - 1].s.maxDelivered == max
    && exists q: nat :: Repeats(Last(t), q)
  }

  /**
    lateCopy tests its sequence against the window and awayFloor does not: a replay from a sequence can repeat a
    message exactly when it starts below the sequence window.
   */
  lemma SequenceStartExact(cfg: Config, start: nat, max: nat)
    requires start > 0
    ensures (exists t :: SequenceRepeats(t, cfg, start, max)) <==> start + DELIVERED_SEQ_WINDOW < max
  {
    hide RunsBut, Repeats;
    if start + DELIVERED_SEQ_WINDOW < max {
      var t := LowStartRepeats(cfg, start, start, max);
      assert SequenceRepeats(t, cfg, start, max);
    } else {
      forall t ensures !SequenceRepeats(t, cfg, start, max) { NearStartIsSafe(t, cfg, start, max); }
    }
  }

  lemma NearStartIsSafe(t: Trace, cfg: Config, start: nat, max: nat)
    requires start + DELIVERED_SEQ_WINDOW >= max
    ensures !SequenceRepeats(t, cfg, start, max)
  {
    hide Repeats, Inv;
    if SequenceRepeats(t, cfg, start, max) {
      SafeUpTo(t, cfg, |t.steps| - 1, |t.steps|);
      var q: nat :| Repeats(Last(t), q);
      NeverRepeats(Last(t), cfg, q);
    }
  }

  /** A replay from `start` on that repeats the message at `q`. */
  lemma LowStartRepeats(cfg: Config, start: nat, q: nat, max: nat) returns (t: Trace)
    requires 0 < start <= q && q + DELIVERED_SEQ_WINDOW < max
    ensures SequenceRepeats(t, cfg, start, max) && t.run != [] && Repeats(Last(t), q)
    ensures start < q ==> start !in Last(t).sent
  {
    hide RunsBut, Sunk, Sends, Flood;
    var p := 2 * cfg.window + 1;
    var k := max + 132;
    t := Sink(cfg, k, q, max, p);
    SunkStored(Last(t), q, max, p);
    t := Then(t, cfg, k, Detach(p, start));
    t := Then(t, cfg, k, BeginReplayFrom(false, start));
    SunkRepeats(Last(t), q, max);
  }

  /** So does one that starts, as awayFloor has it, at a message that was not sent: it repeats the one after it. */
  lemma UnsentStartRepeats(cfg: Config, start: nat, max: nat) returns (t: Trace)
    requires start > 0 && start + 1 + DELIVERED_SEQ_WINDOW < max
    ensures SequenceRepeats(t, cfg, start, max) && t.run != [] && start !in Last(t).sent && Repeats(Last(t), start + 1)
  {
    t := LowStartRepeats(cfg, start, start + 1, max);
  }

  // ---------------------------------------------------------------- a connection that ends late

  /**
    A run in which a connection's delivery goroutine outlives it by `delay` and the replay that follows repeats a
    message.
   */
  ghost predicate LateRepeats(t: Trace, cfg: Config, delay: nat) {
    var n := |t.steps|;
    && n > 1 && RunsBut(t, cfg, n - 2) && t.steps[n - 2].Detach? && t.run[n - 2].now == t.steps[n - 2].at + delay
    && t.steps[n - 1].BeginReplayFrom? && t.steps[n - 1].byTime
    && exists q: nat :: Repeats(Last(t), q)
  }

  /**
    awayFloor takes the time before it waits for the delivery goroutine: a replay from a time can repeat a
    message exactly when that wait was longer than the rewind.
   */
  lemma LateEndExact(cfg: Config, delay: nat)
    ensures (exists t :: LateRepeats(t, cfg, delay)) <==> delay > cfg.window
  {
    hide RunsBut, Repeats;
    if delay > cfg.window {
      var t := LongWaitRepeats(cfg, delay);
      assert LateRepeats(t, cfg, delay);
    } else {
      forall t ensures !LateRepeats(t, cfg, delay) { ShortWaitIsSafe(t, cfg, delay); }
    }
  }

  lemma ShortWaitIsSafe(t: Trace, cfg: Config, delay: nat)
    requires delay <= cfg.window
    ensures !LateRepeats(t, cfg, delay)
  {
    hide Repeats, Inv;
    if LateRepeats(t, cfg, delay) {
      SafeUpTo(t, cfg, |t.steps| - 2, |t.steps|);
      var q: nat :| Repeats(Last(t), q);
      NeverRepeats(Last(t), cfg, q);
    }
  }

  lemma LongWaitRepeats(cfg: Config, delay: nat) returns (t: Trace)
    requires delay > cfg.window
    ensures LateRepeats(t, cfg, delay)
  {
    hide RunsBut, Sunk, Sends, Flood;
    var max := DELIVERED_SEQ_WINDOW + 2;
    var p, k := cfg.window + delay, max + 131;
    t := Sink(cfg, k, 1, max, p);
    SunkStored(Last(t), 1, max, p);
    t := Then(t, cfg, k, Detach(cfg.window, 0));
    t := Then(t, cfg, k, BeginReplayFrom(true, 1));
    SunkRepeats(Last(t), 1, max);
  }

  // ---------------------------------------------------------------- a SUBSCRIBE that goes on late

  /**
    A run whose last step starts a cursor above nothing owed, `delay` after the stream's end `last` was read and
    `max` being the highest sequence delivered, and has forgotten a message sent above it.
   */
  ghost predicate StartForgets(t: Trace, cfg: Config, last: nat, delay: nat, max: nat) {
    var n := |t.steps|;
    && n > 0 && RunsBut(t, cfg, n - 1) && t.steps[n - 1].FillSinceStep? && t.steps[n - 1].exact
    && var w, step := t.run[n - 1], t.steps[n - 1];
    && w.subscribing == EndRead(last, w.subscribing.readAt) && w.now == w.subscribing.readAt + delay
    && w.s.maxDelivered == max && NothingOwedTo(w.s.(subs := FillSince(w.s.subs, step.keys, last)), last)
    && !NothingForgotten(Last(t).stream, Last(t).s.delivered, Last(t).sent, Last(t).s.cur.next)
  }

  /** It can exactly when the wait is longer than twice the rewind and the start lies below the sequence window. */
  lemma StaleStartExact(cfg: Config, last: nat, delay: nat, max: nat)
    ensures (exists t :: StartForgets(t, cfg, last, delay, max)) <==>
            delay > 2 * cfg.window && last + 1 + DELIVERED_SEQ_WINDOW < max
  {
    hide RunsBut, NothingForgotten, NothingOwedTo, FillSince;
    if delay > 2 * cfg.window && last + 1 + DELIVERED_SEQ_WINDOW < max {
      var t := StaleStartForgets(cfg, last, delay, max);
      assert StartForgets(t, cfg, last, delay, max);
    } else {
      forall t ensures !StartForgets(t, cfg, last, delay, max) { FreshStartIsSafe(t, cfg, last, delay, max); }
    }
  }

  lemma FreshStartIsSafe(t: Trace, cfg: Config, last: nat, delay: nat, max: nat)
    requires delay <= 2 * cfg.window || last + 1 + DELIVERED_SEQ_WINDOW >= max
    ensures !StartForgets(t, cfg, last, delay, max)
  {
    hide NothingForgotten, Inv, NothingOwedTo, FillSince, StartsCursor;
    if StartForgets(t, cfg, last, delay, max) {
      SafeUpTo(t, cfg, |t.steps| - 1, |t.steps|);
      InvForgotten(Last(t), cfg);
    }
  }

  lemma InvForgotten(w: World, cfg: Config)
    requires Inv(w, cfg)
    ensures NothingForgotten(w.stream, w.s.delivered, w.sent, w.s.cur.next)
  {
    hide StreamOK, NothingSkipped, KnownFrom, HolesOK, MarksOK, ForgottenLate, ReadOK, RecentFrom, SubsOK, ReplayOK;
  }

  lemma StaleStartForgets(cfg: Config, last: nat, delay: nat, max: nat) returns (t: Trace)
    requires delay > 2 * cfg.window && last + 1 + DELIVERED_SEQ_WINDOW < max
    ensures StartForgets(t, cfg, last, delay, max)
  {
    hide RunsBut, Sunk, Flood;
    var k, q := max + 131, last + 1;
    t := Sink(cfg, k, q, max, delay);
    SunkStored(Last(t), q, max, delay);
    assert FillSince(Last(t).s.subs, {0}, last) == map["b" := Plain(0, "b", Some(last))];
    t := Then(t, cfg, k, FillSinceStep({0}, true, false, 0, 0));
    assert Named(Last(t).stream, q) && !Marked(Last(t).stream, Last(t).s.delivered, q);
  }

  // ---------------------------------------------------------------- a live copy of a forgotten message

  /**
    A run in which a live copy, on time or late, arrives at `q`, `max` being the highest sequence delivered, and a
    later replay repeats a message.
   */
  ghost predicate CopyRepeats(t: Trace, cfg: Config, k: nat, q: nat, max: nat) {
    && k < |t.steps| && RunsBut(t, cfg, k) && t.steps[k] in {LiveCopy(q), LateCopy(q)} && t.run[k].s.maxDelivered == max
    && exists r: nat :: Repeats(Last(t), r)
  }

  /** A live copy can make a hole of a message already sent exactly when it arrives below the sequence window. */
  lemma LiveCopyExact(cfg: Config, q: nat, max: nat)
    requires q > 0 && cfg.holeBound > 0
    ensures (exists t, k: nat :: CopyRepeats(t, cfg, k, q, max)) <==> q + DELIVERED_SEQ_WINDOW < max
  {
    hide RunsBut, Repeats;
    if q + DELIVERED_SEQ_WINDOW < max {
      var t := FarCopyRepeats(cfg, q, max);
      assert CopyRepeats(t, cfg, max + 133, q, max);
    } else {
      forall t, k: nat ensures !CopyRepeats(t, cfg, k, q, max) { NearCopyIsSafe(t, cfg, k, q, max); }
    }
  }

  lemma NearCopyIsSafe(t: Trace, cfg: Config, k: nat, q: nat, max: nat)
    requires q + DELIVERED_SEQ_WINDOW >= max
    ensures !CopyRepeats(t, cfg, k, q, max)
  {
    hide Repeats, Inv;
    if CopyRepeats(t, cfg, k, q, max) {
      SafeUpTo(t, cfg, k, k);
      NearIsKnown(t.run[k], cfg, q);
      SafeUpTo(t, cfg, k, |t.steps|);
      var r: nat :| Repeats(Last(t), r);
      NeverRepeats(Last(t), cfg, r);
    }
  }

  lemma NearIsKnown(w: World, cfg: Config, q: nat)
    requires Inv(w, cfg) && WindowSafe(w.s, q)
    ensures q in w.sent && Named(w.stream, q) ==> At(w.stream, q).id in w.s.delivered
  {
    hide StreamOK, NothingSkipped, KnownFrom, HolesOK, MarksOK, ReadOK, RecentFrom, SubsOK, ReplayOK;
  }

  /** The cursor starts at the stream's end. */
  lemma Resurface(w: World, cfg: Config, q: nat, max: nat, p: nat)
    requires Sunk(w, q, max, p) && 1 <= q <= max
    ensures var v := w.(subscribing := EndRead(max, p));
            var step := FillSinceStep({0}, true, false, 0, 0);
            && Do(w, cfg, ReadEnd) == v && Enabled(v, cfg, step) && Relied(v, cfg, step)
            && Do(v, cfg, step) == Ashore(w, q, max, map[], map[])
  {
    hide Flood, Sunk;
    SunkStored(w, q, max, p);
    assert FillSince(w.s.subs, {0}, max) == map["b" := Plain(0, "b", Some(max))];
  }

  function Ashore(w: World, q: nat, max: nat, holes: map<nat, Id>, holeAt: map<Id, nat>): World {
    w.(subscribing := NotSubscribing, origin := 0,
       s := w.s.(subs := map["b" := Plain(0, "b", Some(max))],
                 cur := Cursor(max + 1, holes, holeAt, w.s.cur.gen + 1, 0, 0, 0)))
  }

  lemma FarCopyRepeats(cfg: Config, q: nat, max: nat) returns (t: Trace)
    requires q > 0 && q + DELIVERED_SEQ_WINDOW < max && cfg.holeBound > 0
    ensures CopyRepeats(t, cfg, max + 133, q, max)
  {
    hide RunsBut, Sunk, Flood, Sends, SetSince, FillSince;
    var p, k := 2 * cfg.window + 1, max + 133;
    t := Sink(cfg, k, q, max, p);
    var w := Last(t);
    SunkStored(w, q, max, p);
    Resurface(w, cfg, q, max, p);
    t := Then(t, cfg, k, ReadEnd);
    t := Then(t, cfg, k, FillSinceStep({0}, true, false, 0, 0));
    t := Then(t, cfg, k, LiveCopy(q));
    assert Last(t) == Ashore(w, q, max, map[q := Wave(q).id], map[Wave(q).id := q]);
    t := Then(t, cfg, k, Detach(p, 0));
    t := Then(t, cfg, k, BeginReplay);
    SunkRepeats(Last(t), q, max);
  }
}
