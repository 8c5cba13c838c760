/**
  The stored record of a Will (willstore.go: register, ended, fire, fireLater, drop, settle, sweepStale, adopt).
  Its broker creates the record; any number of goroutines on any number of brokers then hold a revision of it,
  change it or remove it by compare-and-swap, and may lose the reply. The one whose removal is answered
  publishes, and so does a broker that was told the record could not be created.
 */
module Wills {

  /** What a goroutine is doing with the Will. */
  datatype Holder =
    | Holds(rev: nat)      // a lease at this revision
    | Won(rev: nat)        // its removal was answered, and it has not published yet
    | InMemory             // registered without a lease: it publishes outright
    | Done

  /** `created` says that the registration was tried, and `present` that the bucket holds the record. */
  datatype World = World(created: bool, present: bool, rev: nat, holders: map<nat, Holder>, published: nat)

  datatype Step =
    | Register(g: nat, applied: bool, answered: bool)
    | Read(g: nat)                                 // settle, adopt and the index
    | Update(g: nat, lost: bool)                   // ended, adopt
    | Fire(g: nat, lost: bool)                     // fire and fireLater: remove, then publish
    | Drop(g: nat, lost: bool)                     // drop, settle on a resumed session, sweepStale
    | Publish(g: nat)
    | FireInMemory(g: nat)                         // fire without a lease
    | DropInMemory(g: nat)
    | Unanswered(g: nat)                           // a write that did not reach the bucket: it is tried again
    | GiveUp(g: nat)                               // fireLater past retryFor

  predicate Holding(w: World, g: nat) { g in w.holders && w.holders[g].Holds? }

  predicate Idle(w: World, g: nat) { g !in w.holders || w.holders[g].Done? }

  predicate Enabled(w: World, step: Step) {
    match step
    case Register(g, applied, answered) => !w.created && Idle(w, g) && (answered ==> applied)
    case Read(g) => Idle(w, g) || Holding(w, g)
    case Publish(g) => g in w.holders && w.holders[g].Won?
    case FireInMemory(g) => g in w.holders && w.holders[g].InMemory?
    case DropInMemory(g) => g in w.holders && w.holders[g].InMemory?
    case _ => Holding(w, step.g)
  }

  /** What at most one publication relies on and the code does not check. */
  predicate Relied(w: World, step: Step)
    requires Enabled(w, step)
  {
    match step
    // The reply to a registration that was made arrives.
    case Register(g, applied, answered) => applied ==> answered
    // A holder gives up on the store only when nobody else can publish.
    case GiveUp(g) => Owners(w) == 0
    case _ => true
  }

  function Set(w: World, g: nat, h: Holder): World { w.(holders := w.holders[g := h]) }

  /** The compare-and-swap on the revision a goroutine holds. */
  predicate Matches(w: World, g: nat)
    requires Holding(w, g)
  {
    w.present && w.rev == w.holders[g].rev
  }

  function Removed(w: World): World { w.(present := false, rev := w.rev + 1) }

  function Do(w: World, step: Step): World
    requires Enabled(w, step)
  {
    match step
    case Register(g, applied, answered) =>
      Set(w.(created := true, present := applied, rev := w.rev + 1), g, if answered then Holds(w.rev + 1) else InMemory)
    case Read(g) => if w.present then Set(w, g, Holds(w.rev)) else Set(w, g, Done)
    case Update(g, lost) =>
      if !Matches(w, g) then Set(w, g, Done)
      else if lost then w.(rev := w.rev + 1)
      else Set(w.(rev := w.rev + 1), g, Holds(w.rev + 1))
    case Fire(g, lost) =>
      if !Matches(w, g) then Set(w, g, Done) else if lost then Removed(w) else Set(Removed(w), g, Won(w.rev))
    case Drop(g, lost) =>
      if !Matches(w, g) then Set(w, g, Done) else if lost then Removed(w) else Set(Removed(w), g, Done)
    case Publish(g) => Set(w, g, Done).(published := w.published + 1)
    case FireInMemory(g) => Set(w, g, Done).(published := w.published + 1)
    case DropInMemory(g) => Set(w, g, Done)
    case Unanswered(g) => w
    case GiveUp(g) => Set(w, g, Done).(published := w.published + 1)
  }

  /** The goroutines that will publish: their removal was answered, or they hold the Will in memory only. */
  function Publishers(holders: map<nat, Holder>): set<nat> {
    set g | g in holders && (holders[g].Won? || holders[g].InMemory?)
  }

  /**
    The publications made and those still to come: by a publisher, for the record, or for a Will not yet
    registered.
   */
  function Owners(w: World): nat {
    w.published + |Publishers(w.holders)| + (if w.present || !w.created then 1 else 0)
  }

  ghost predicate Inv(w: World) {
    Owners(w) <= 1 && (!w.created ==> !w.present && forall g :: !Holding(w, g))
  }

  lemma OneMoreOrLess(gs: set<nat>, g: nat)
    ensures |gs + {g}| == |gs| + (if g in gs then 0 else 1)
    ensures |gs - {g}| == |gs| - (if g in gs then 1 else 0)
  {
    if g in gs { assert gs + {g} == gs; } else { assert gs - {g} == gs; }
  }

  lemma PublishersSet(w: World, g: nat, h: Holder)
    ensures var gained, lost := if h.Won? || h.InMemory? then 1 else 0, if g in Publishers(w.holders) then 1 else 0;
            |Publishers(w.holders[g := h])| == |Publishers(w.holders)| + gained - lost
  {
    OneMoreOrLess(Publishers(w.holders), g);
    if h.Won? || h.InMemory? {
      assert Publishers(w.holders[g := h]) == Publishers(w.holders) + {g};
    } else {
      assert Publishers(w.holders[g := h]) == Publishers(w.holders) - {g};
    }
  }

  /** No step adds a publication to come, apart from one that gives up or whose registration's reply was lost. */
  lemma OwnersFall(w: World, step: Step)
    requires Enabled(w, step) && Inv(w)
    ensures Owners(Do(w, step)) <= Owners(w) + (if Relied(w, step) && !step.GiveUp? then 0 else 1)
  {
    var t := Do(w, step);
    if t.holders != w.holders {
      PublishersSet(w, step.g, t.holders[step.g]);
      assert t.holders == w.holders[step.g := t.holders[step.g]];
    }
  }

  lemma StepKeeps(w: World, step: Step)
    requires Inv(w) && Enabled(w, step) && Relied(w, step)
    ensures Inv(Do(w, step))
  {
    hide Owners;
    OwnersFall(w, step);
    var t := Do(w, step);
    if !t.created {
      forall g ensures !Holding(t, g) { assert !Holding(w, g); }
    }
  }

  // ---------------------------------------------------------------- runs

  datatype Trace = Trace(run: seq<World>, steps: seq<Step>)

  /** A run from `w` in which every step but the one at `k` keeps to what at most one publication relies on. */
  ghost predicate RunsFrom(t: Trace, w: World, k: int) {
    && |t.run| == |t.steps| + 1
    && t.run[0] == w
    && forall i :: 0 <= i < |t.steps| ==>
         && Enabled(t.run[i], t.steps[i]) && (i != k ==> Relied(t.run[i], t.steps[i]))
         && t.run[i + 1] == Do(t.run[i], t.steps[i])
  }

  function Last(t: Trace): World
    requires t.run != []
  {
    t.run[|t.run| - 1]
  }

  /** A Will of a new connection. */
  const NEW := World(false, false, 0, map[], 0)

  lemma NewHolds()
    ensures Inv(NEW)
  {
    assert Publishers(NEW.holders) == {};
  }

  lemma {:induction false} EveryRunHolds(t: Trace, w: World, k: int, i: nat)
    requires Inv(w) && RunsFrom(t, w, k) && i < |t.run|
    requires i <= k || k < 0 || k >= |t.steps| || Relied(t.run[k], t.steps[k])
    ensures Inv(t.run[i])
    decreases i
  {
    hide Inv, Enabled, Relied, Do;
    if i > 0 {
      EveryRunHolds(t, w, k, i - 1);
      StepKeeps(t.run[i - 1], t.steps[i - 1]);
    }
  }

  /** In every run the Will is published at most once, and never while its record is there to be published. */
  lemma PublishedAtMostOnce(t: Trace, i: nat)
    requires RunsFrom(t, NEW, -1) && i < |t.run|
    ensures t.run[i].published <= 1
    ensures t.run[i].published == 1 ==> t.run[i].created && !t.run[i].present && Publishers(t.run[i].holders) == {}
  {
    hide RunsFrom;
    NewHolds();
    EveryRunHolds(t, NEW, -1, i);
  }

  /**
    In every run, once a Will can no longer be published, because it was cancelled or the reply was lost, it never
    is.
   */
  lemma {:induction false} CancelledIsNotPublished(t: Trace, i: nat, j: nat)
    requires RunsFrom(t, NEW, -1) && i <= j < |t.run| && Owners(t.run[i]) == 0
    requires forall k :: i <= k < j ==> !t.steps[k].GiveUp?
    ensures Owners(t.run[j]) == 0 && t.run[j].published == 0
    decreases j
  {
    hide Enabled, Relied, Do, Inv;
    if i < j {
      CancelledIsNotPublished(t, i, j - 1);
      NewHolds();
      EveryRunHolds(t, NEW, -1, j - 1);
      OwnersFall(t.run[j - 1], t.steps[j - 1]);
    }
  }

  // ---------------------------------------------------------------- where it is published twice

  /** A run of one step, and one that goes on. */
  lemma Begin(w: World, step: Step) returns (t: Trace)
    requires Enabled(w, step)
    ensures RunsFrom(t, w, 0) && t == Trace([w, Do(w, step)], [step])
  {
    t := Trace([w, Do(w, step)], [step]);
  }

  lemma Then(t: Trace, w: World, k: int, step: Step) returns (more: Trace)
    requires RunsFrom(t, w, k) && Enabled(Last(t), step) && (|t.steps| != k ==> Relied(Last(t), step))
    ensures RunsFrom(more, w, k) && more == Trace(t.run + [Do(Last(t), step)], t.steps + [step])
  {
    hide Enabled, Relied, Do;
    more := Trace(t.run + [Do(Last(t), step)], t.steps + [step]);
    forall i | 0 <= i < |more.steps|
      ensures Enabled(more.run[i], more.steps[i]) && (i != k ==> Relied(more.run[i], more.steps[i]))
      ensures more.run[i + 1] == Do(more.run[i], more.steps[i])
    {
      if i < |t.steps| { assert more.run[i] == t.run[i] && more.steps[i] == t.steps[i]; }
    }
  }

  lemma FreshHolder(w: World) returns (g: nat)
    ensures g !in w.holders
  {
    g := 0;
    var left := w.holders.Keys;
    while left != {}
      invariant forall i :: i in w.holders && i !in left ==> i < g
      decreases |left|
    {
      var i :| i in left;
      left := left - {i};
      if i >= g { g := i + 1; }
    }
  }

  /** As long as a publication is still to come, a run can make it. */
  lemma OwedIsPublished(t: Trace, w: World, k: int) returns (more: Trace)
    requires RunsFrom(t, w, k) && t.run != [] && t.steps != [] && k < |t.steps| && Last(t).created
    requires Last(t).present || Publishers(Last(t).holders) != {}
    ensures RunsFrom(more, w, k) && more.run != [] && more.steps != [] && more.steps[0] == t.steps[0]
    ensures Last(more).published == Last(t).published + 1
  {
    hide RunsFrom, Publishers;
    var v := Last(t);
    if v.present {
      var g := FreshHolder(v);
      more := Then(t, w, k, Read(g));
      more := Then(more, w, k, Fire(g, false));
      more := Then(more, w, k, Publish(g));
    } else {
      var g := SomePublisher(v.holders);
      more := Then(t, w, k, if v.holders[g].Won? then Publish(g) else FireInMemory(g));
    }
  }

  lemma SomePublisher(holders: map<nat, Holder>) returns (g: nat)
    requires Publishers(holders) != {}
    ensures g in holders && (holders[g].Won? || holders[g].InMemory?)
  {
    g :| g in Publishers(holders);
  }

  /** A continuation that begins with the step and publishes the Will twice. */
  ghost predicate Repeats(t: Trace, w: World, step: Step) {
    RunsFrom(t, w, 0) && t.steps != [] && t.steps[0] == step && Last(t).published > 1
  }

  lemma ReliedIsSafe(t: Trace, w: World, step: Step)
    requires Inv(w) && Enabled(w, step) && Relied(w, step)
    ensures !Repeats(t, w, step)
  {
    hide Enabled, Relied, Do;
    if Repeats(t, w, step) { EveryRunHolds(t, w, 0, |t.steps|); }
  }

  /**
    fireLater publishes without having won once it has waited long enough. From any state the invariant holds of,
    a continuation publishes the Will twice exactly when someone else has published it or still can.
   */
  lemma GiveUpExact(w: World, g: nat)
    requires Inv(w) && Enabled(w, GiveUp(g))
    ensures (exists t :: Repeats(t, w, GiveUp(g))) <==> Owners(w) > 0
  {
    hide RunsFrom;
    if Owners(w) > 0 {
      var t := GiveUpRepeats(w, g);
      assert Repeats(t, w, GiveUp(g));
    } else {
      forall t ensures !Repeats(t, w, GiveUp(g)) { ReliedIsSafe(t, w, GiveUp(g)); }
    }
  }

  lemma GiveUpRepeats(w: World, g: nat) returns (t: Trace)
    requires Inv(w) && Enabled(w, GiveUp(g)) && Owners(w) > 0
    ensures Repeats(t, w, GiveUp(g))
  {
    hide RunsFrom, Publishers;
    t := Begin(w, GiveUp(g));
    assert Publishers(Last(t).holders) == Publishers(w.holders) by { HolderDone(w.holders, g); }
    if w.published == 0 { t := OwedIsPublished(t, w, 0); }
  }

  lemma HolderDone(holders: map<nat, Holder>, g: nat)
    requires g in holders && holders[g].Holds?
    ensures Publishers(holders[g := Done]) == Publishers(holders)
  {
  }

  /**
    register reports a Will it could not store as held in memory only, and fire then publishes it outright. A
    continuation publishes it twice exactly when the record was created and only the reply was lost.
   */
  lemma RegisterExact(w: World, g: nat, applied: bool, answered: bool)
    requires Inv(w) && Enabled(w, Register(g, applied, answered))
    ensures (exists t :: Repeats(t, w, Register(g, applied, answered))) <==> applied && !answered
  {
    hide RunsFrom;
    var step := Register(g, applied, answered);
    if applied && !answered {
      var t := LostRegistrationRepeats(w, g);
      assert Repeats(t, w, step);
    } else {
      forall t ensures !Repeats(t, w, step) { ReliedIsSafe(t, w, step); }
    }
  }

  /** The broker publishes from memory, and a survivor that adopts the record publishes it a second time. */
  lemma LostRegistrationRepeats(w: World, g: nat) returns (t: Trace)
    requires Inv(w) && Enabled(w, Register(g, true, false))
    ensures Repeats(t, w, Register(g, true, false))
  {
    hide RunsFrom, Publishers;
    t := Begin(w, Register(g, true, false));
    t := Then(t, w, 0, FireInMemory(g));
    t := OwedIsPublished(t, w, 0);
  }

  /** Both happen from a new connection: a survivor adopts the record before its holder gives up. */
  lemma AdoptedThenGivenUp() returns (t: Trace)
    ensures RunsFrom(t, NEW, 4) && |t.steps| == 7
    ensures t.steps[..5] == [Register(0, true, true), Read(1), Update(1, false), Unanswered(0), GiveUp(0)]
    ensures Last(t).published == 2
  {
    hide RunsFrom;
    t := Registered();
    t := Then(t, NEW, 4, Read(1));
    t := Then(t, NEW, 4, Update(1, false));
    t := Then(t, NEW, 4, Unanswered(0));
    t := Then(t, NEW, 4, GiveUp(0));
    t := Then(t, NEW, 4, Fire(1, false));
    t := Then(t, NEW, 4, Publish(1));
  }

  lemma Registered() returns (t: Trace)
    ensures RunsFrom(t, NEW, 4) && t == Trace([NEW, Do(NEW, Register(0, true, true))], [Register(0, true, true)])
  {
    t := Trace([NEW, Do(NEW, Register(0, true, true))], [Register(0, true, true)]);
  }

  /**
    A removal whose reply is lost is found done by the retry, which takes it for another broker's: nobody can
    publish any more.
   */
  lemma LostRemovalLoses(w: World, g: nat)
    requires Inv(w) && Holding(w, g) && Matches(w, g)
    ensures var lost := Do(w, Fire(g, true));
            Enabled(lost, Fire(g, false)) && Owners(Do(lost, Fire(g, false))) == 0
  {
    var lost := Do(w, Fire(g, true));
    HolderDone(lost.holders, g);
  }

  // ---------------------------------------------------------------- what a write answers

  /** Nobody holds a revision the bucket has not given out. */
  ghost predicate Leased(w: World) { forall g :: Holding(w, g) ==> w.holders[g].rev <= w.rev }

  lemma StepLeases(w: World, step: Step)
    requires Leased(w) && Enabled(w, step)
    ensures Leased(Do(w, step))
  {
  }

  lemma {:induction false} EveryRunLeases(t: Trace, i: nat)
    requires RunsFrom(t, NEW, -1) && i < |t.run|
    ensures Leased(t.run[i])
    decreases i
  {
    hide Enabled, Relied, Do, Leased;
    if i == 0 {
      assert Leased(NEW) by { NewLeased(); }
    } else {
      EveryRunLeases(t, i - 1);
      StepLeases(t.run[i - 1], t.steps[i - 1]);
    }
  }

  lemma NewLeased()
    ensures Leased(NEW)
  {
  }

  /**
    In every run, an update that is answered takes the lease: its holder can remove the record, and no other holder
    can any more. So does the read of a record that is there, but for those who hold the same revision.
   */
  lemma UpdateTakesLease(t: Trace, i: nat, h: nat)
    requires RunsFrom(t, NEW, -1) && i < |t.steps| && t.steps[i].Update? && !t.steps[i].lost
    requires Matches(t.run[i], t.steps[i].g)
    ensures var w, g := t.run[i + 1], t.steps[i].g;
            && w.present && Holding(w, g) && Matches(w, g)
            && (h != g && Holding(w, h) ==> !Matches(w, h))
            && w.published == t.run[i].published && Publishers(w.holders) == Publishers(t.run[i].holders)
  {
    EveryRunLeases(t, i);
    var g := t.steps[i].g;
    assert Publishers(t.run[i].holders[g := Holds(t.run[i].rev + 1)]) == Publishers(t.run[i].holders);
  }

  /** A lease that has been overtaken writes nothing: its holder is done with the Will, which stays as it is. */
  lemma OvertakenWritesNothing(w: World, step: Step)
    requires (step.Update? || step.Fire? || step.Drop?) && Enabled(w, step) && !Matches(w, step.g)
    ensures Do(w, step) == w.(holders := w.holders[step.g := Done])
  {
  }

  /** A removal that is answered wins: the record is gone, and the winner publishes the Will. */
  lemma FireWins(w: World, g: nat)
    requires Holding(w, g) && Matches(w, g)
    ensures var won := Do(w, Fire(g, false));
            && !won.present && won.created == w.created && Enabled(won, Publish(g))
            && var done := Do(won, Publish(g));
            && done.published == w.published + 1 && !done.present && Idle(done, g)
            && forall h :: h != g ==> (h in done.holders <==> h in w.holders)
                                      && (h in w.holders ==> done.holders[h] == w.holders[h])
  {
  }

  /** A Will that is dropped cannot be published any more, wherever its only publication was to come from. */
  lemma DropCancels(w: World, g: nat)
    requires Inv(w) && w.created && ((Holding(w, g) && Matches(w, g)) || (g in w.holders && w.holders[g].InMemory?))
    ensures var step := if w.holders[g].Holds? then Drop(g, false) else DropInMemory(g);
            Enabled(w, step) && Owners(Do(w, step)) == 0
  {
    PublishersSet(w, g, Done);
    if w.holders[g].Holds? { HolderDone(w.holders, g); }
  }

  /** A registration that is answered holds the record; one that is not is kept in memory, and can be published. */
  lemma RegisterAnswers(w: World, g: nat, applied: bool, answered: bool)
    requires Enabled(w, Register(g, applied, answered))
    ensures var t := Do(w, Register(g, applied, answered));
            && t.created && t.present == applied && t.published == w.published
            && (answered ==> Holding(t, g) && Matches(t, g))
            && (!answered ==> Enabled(t, FireInMemory(g)) && Do(t, FireInMemory(g)).published == w.published + 1)
  {
  }

  /** A read finds the record at the revision it has, or that it is gone. */
  lemma ReadAnswers(w: World, g: nat)
    requires Enabled(w, Read(g))
    ensures var t := Do(w, Read(g));
            && (w.present ==> Holding(t, g) && Matches(t, g)) && (!w.present ==> Idle(t, g))
            && t == w.(holders := t.holders)
  {
  }

  /**
    A write whose reply is lost was made all the same: an update leaves its own holder behind, and a removal leaves
    nothing to remove.
   */
  lemma LostReplyAnswers(w: World, step: Step)
    requires (step.Update? || step.Fire? || step.Drop?) && Enabled(w, step) && Matches(w, step.g) && step.lost
    ensures var t := Do(w, step);
            && t.holders == w.holders && t.rev == w.rev + 1 && !Matches(t, step.g) && t.published == w.published
            && t.present == step.Update? && t.created == w.created
  {
  }
}
