/**
  When a broker cut off from its cluster closes its clients, and when a survivor takes over their Wills
  (willstore.go: newWillStore, selfLoop, adoptOrphans). Times are in nanoseconds; the clock, the checks' outcomes
  and their durations are parameters.
 */
module Fencing {
  import opened Topics

  const SECOND: nat := 1_000_000_000
  /** ownerPingTimeout and minProbeTimeout. */
  const OWNER_PING_TIMEOUT: nat := 2 * SECOND
  const MIN_PROBE_TIMEOUT: nat := SECOND

  datatype Intervals = Intervals(selfEvery: nat, fenceAfter: nat, selfTimeout: nat, waitOut: nat)

  function Min(a: nat, b: nat): nat { if a <= b then a else b }

  function Max(a: nat, b: nat): nat { if a <= b then b else a }

  /** The intervals newWillStore derives from the check interval. */
  function IntervalsOf(every: nat): Intervals {
    var selfEvery := every / 2;
    var fenceAfter := 2 * every + selfEvery;
    var selfTimeout := Min(OWNER_PING_TIMEOUT, Max(every, MIN_PROBE_TIMEOUT));
    Intervals(selfEvery, fenceAfter, selfTimeout, fenceAfter + selfEvery + 2 * selfTimeout)
  }

  /** One round of the owner's self-check. */
  datatype Check = Check(started: nat, ended: nat, ok: bool)

  /** A check takes at most its timeout, and the next starts at most one tick after it ends. */
  ghost predicate Paced(checks: seq<Check>, iv: Intervals) {
    && (forall i :: 0 <= i < |checks| ==> checks[i].started <= checks[i].ended <= checks[i].started + iv.selfTimeout)
    && (forall i :: 0 < i < |checks| ==> checks[i - 1].ended <= checks[i].started <= checks[i - 1].ended + iv.selfEvery)
  }

  /** lastOK before check `i`: when the last successful check began, or when the loop did. */
  function LastOK(begun: nat, checks: seq<Check>, i: nat): nat
    requires i <= |checks|
  {
    if i == 0 then begun else if checks[i - 1].ok then checks[i - 1].started else LastOK(begun, checks, i - 1)
  }

  /** The owner closes its clients at the end of check `i`. */
  predicate Fences(begun: nat, checks: seq<Check>, iv: Intervals, i: nat)
    requires i < |checks|
  {
    !checks[i].ok && checks[i].ended >= LastOK(begun, checks, i) + iv.fenceAfter
  }

  /** selfLoop up to the first time it fences. */
  method SelfLoop(begun: nat, checks: seq<Check>, iv: Intervals) returns (fenced: Option<nat>)
    ensures fenced.Some? ==>
            exists i :: 0 <= i < |checks| && Fences(begun, checks, iv, i) && checks[i].ended == fenced.value
                                         && forall j :: 0 <= j < i ==> !Fences(begun, checks, iv, j)
    ensures fenced.None? ==> forall i :: 0 <= i < |checks| ==> !Fences(begun, checks, iv, i)
  {
    var lastOK := begun;
    for i := 0 to |checks|
      invariant lastOK == LastOK(begun, checks, i)
      invariant forall j :: 0 <= j < i ==> !Fences(begun, checks, iv, j)
    {
      if checks[i].ok {
        lastOK := checks[i].started;
      } else if checks[i].ended >= lastOK + iv.fenceAfter {
        assert Fences(begun, checks, iv, i);
        return Some(checks[i].ended);
      }
    }
    return None;
  }

  // ---------------------------------------------------------------- the survivor

  /** One round of adoptOrphans for one owner: when it asked, and whether the owner answered. */
  datatype Round = Round(at: nat, up: bool)

  /** silentSince before round `i`. */
  function SilentSince(rounds: seq<Round>, i: nat): Option<nat>
    requires i <= |rounds|
  {
    if i == 0 || rounds[i - 1].up then None
    else match SilentSince(rounds, i - 1)
      case Some(first) => Some(first)
      case None => Some(rounds[i - 1].at)
  }

  /** In round `i` the owner does not answer, and has not since at least waitOut ago. */
  predicate Adopts(rounds: seq<Round>, iv: Intervals, i: nat)
    requires i < |rounds|
  {
    var silent := SilentSince(rounds, i + 1);
    silent.Some? && rounds[i].at >= silent.value + iv.waitOut
  }

  /** The owner answered in none of the rounds from `k` to `i`, which are waitOut apart, and no earlier round adopts. */
  ghost predicate FirstToAdopt(rounds: seq<Round>, iv: Intervals, k: nat, i: nat) {
    && k <= i < |rounds| && rounds[i].at >= rounds[k].at + iv.waitOut
    && (forall j :: k <= j <= i ==> !rounds[j].up)
    && (forall j :: 0 <= j < i ==> !Adopts(rounds, iv, j))
  }

  lemma SilentStep(rounds: seq<Round>, i: nat)
    requires i < |rounds|
    ensures SilentSince(rounds, i + 1) ==
            if rounds[i].up then None
            else if SilentSince(rounds, i).Some? then SilentSince(rounds, i)
            else Some(rounds[i].at)
  {
  }

  /** The rounds of adoptOrphans up to the first that adopts; with it, since when the owner was silent. */
  method AdoptOrphans(rounds: seq<Round>, iv: Intervals) returns (adopted: Option<(nat, nat)>)
    ensures adopted.None? <==> forall i :: 0 <= i < |rounds| ==> !Adopts(rounds, iv, i)
    ensures adopted.Some? ==>
            exists k: nat, i: nat :: FirstToAdopt(rounds, iv, k, i) && adopted.value == (rounds[k].at, rounds[i].at)
  {
    hide SilentSince;
    var silentSince: Option<nat> := None;
    assert SilentSince(rounds, 0) == None by { SilentAtFirst(rounds); }
    ghost var k: nat := 0;
    for i := 0 to |rounds|
      invariant silentSince == SilentSince(rounds, i)
      invariant silentSince.Some? ==> k < i && rounds[k].at == silentSince.value
      invariant silentSince.Some? ==> forall j :: k <= j < i ==> !rounds[j].up
      invariant forall j :: 0 <= j < i ==> !Adopts(rounds, iv, j)
    {
      SilentStep(rounds, i);
      if rounds[i].up {
        silentSince := None;
        continue;
      }
      if silentSince.None? {
        silentSince, k := Some(rounds[i].at), i;
      }
      if rounds[i].at >= silentSince.value + iv.waitOut {
        assert Adopts(rounds, iv, i) && FirstToAdopt(rounds, iv, k, i);
        return Some((silentSince.value, rounds[i].at));
      }
    }
    return None;
  }

  lemma SilentAtFirst(rounds: seq<Round>)
    ensures SilentSince(rounds, 0) == None
  {
  }

  lemma {:induction false} SilentFrom(rounds: seq<Round>, i: nat)
    requires i <= |rounds|
    ensures SilentSince(rounds, i).Some? ==>
              exists k: nat :: && k < i && rounds[k].at == SilentSince(rounds, i).value
                               && (forall j :: k <= j < i ==> !rounds[j].up) && (k > 0 ==> rounds[k - 1].up)
    ensures SilentSince(rounds, i).None? ==> i == 0 || rounds[i - 1].up
    decreases i
  {
    if i > 0 && !rounds[i - 1].up {
      SilentFrom(rounds, i - 1);
      if SilentSince(rounds, i - 1).Some? {
        var k: nat :| && k < i - 1 && rounds[k].at == SilentSince(rounds, i - 1).value
                      && (forall j :: k <= j < i - 1 ==> !rounds[j].up) && (k > 0 ==> rounds[k - 1].up);
        assert k < i && forall j :: k <= j < i ==> !rounds[j].up;
      } else {
        assert rounds[i - 1].at == SilentSince(rounds, i).value;
      }
    }
  }

  /** A survivor adopts in a round exactly when the owner answered in none for waitOut up to it. */
  lemma AdoptsIff(rounds: seq<Round>, iv: Intervals, i: nat)
    requires i < |rounds| && forall j, k :: 0 <= j <= k < |rounds| ==> rounds[j].at <= rounds[k].at
    ensures Adopts(rounds, iv, i) <==>
            exists k: nat :: && k <= i && rounds[i].at >= rounds[k].at + iv.waitOut
                             && forall j :: k <= j <= i ==> !rounds[j].up
  {
    hide SilentSince;
    SilentFrom(rounds, i + 1);
    if k: nat :| k <= i && rounds[i].at >= rounds[k].at + iv.waitOut && forall j :: k <= j <= i ==> !rounds[j].up {
      assert !rounds[i].up;
      var first: nat :| && first < i + 1 && rounds[first].at == SilentSince(rounds, i + 1).value
                        && (forall j :: first <= j < i + 1 ==> !rounds[j].up) && (first > 0 ==> rounds[first - 1].up);
      assert first <= k;
    }
  }

  /** The intervals, from the check interval: half of it, two and a half of it, and a timeout of one to two seconds. */
  lemma IntervalsAnswer(every: nat)
    requires every > 0
    ensures var iv := IntervalsOf(every);
            && iv.selfEvery <= every < 2 * iv.selfEvery + 2 && 2 * iv.selfEvery <= every
            && iv.fenceAfter == 2 * every + iv.selfEvery
            && SECOND <= iv.selfTimeout <= 2 * SECOND
            && (SECOND <= every <= 2 * SECOND ==> iv.selfTimeout == every)
            && (every < SECOND ==> iv.selfTimeout == SECOND) && (every > 2 * SECOND ==> iv.selfTimeout == 2 * SECOND)
            && iv.waitOut == iv.fenceAfter + iv.selfEvery + 2 * iv.selfTimeout
  {
  }

  // ---------------------------------------------------------------- the bound

  /** What the last successful check began at is no later than `first`, when none begun after it succeeds. */
  lemma {:induction false} LastOKBefore(begun: nat, checks: seq<Check>, first: nat, i: nat)
    requires i <= |checks| && begun <= first
    requires forall j :: 0 <= j < |checks| && checks[j].ok ==> checks[j].started <= first
    ensures LastOK(begun, checks, i) <= first
    decreases i
  {
    if i > 0 { LastOKBefore(begun, checks, first, i - 1); }
  }

  /** The first check that ends at or after `t`. */
  lemma FirstEndingAfter(checks: seq<Check>, t: nat) returns (i: nat)
    requires checks != [] && checks[|checks| - 1].ended >= t
    ensures i < |checks| && checks[i].ended >= t && forall j :: 0 <= j < i ==> checks[j].ended < t
  {
    i := 0;
    while checks[i].ended < t
      invariant i < |checks| && forall j :: 0 <= j < i ==> checks[j].ended < t
      decreases |checks| - i
    {
      i := i + 1;
    }
  }

  /**
    For every check interval and every schedule: if the survivor first saw the owner silent at `first`, and no
    check the owner began after that succeeds, the owner has fenced itself by `first + waitOut`, before which
    the survivor adopts nothing.
   */
  lemma FencedBeforeAdoption(every: nat, begun: nat, checks: seq<Check>, first: nat)
    requires every > 0
    requires var iv := IntervalsOf(every);
             && Paced(checks, iv) && begun <= first
             && |checks| >= 2 && checks[0].started <= begun + iv.selfEvery
             && checks[|checks| - 1].started >= first + iv.waitOut
             && forall j :: 0 <= j < |checks| && checks[j].ok ==> checks[j].started <= first
    ensures var iv := IntervalsOf(every);
            exists i :: 0 <= i < |checks| && Fences(begun, checks, iv, i) && checks[i].ended <= first + iv.waitOut
  {
    var iv := IntervalsOf(every);
    var i := FirstEndingAfter(checks, first + iv.fenceAfter);
    if i > 0 { assert checks[i - 1].ended < first + iv.fenceAfter; }
    assert checks[i].started <= first + iv.fenceAfter + iv.selfEvery;
    LastOKBefore(begun, checks, first, i);
    if !checks[i].ok {
      assert Fences(begun, checks, iv, i);
    } else {
      // Begun before `first` and still running: the next one was not.
      assert checks[i].ended <= first + iv.selfTimeout;
      assert i + 1 < |checks|;
      LastOKBefore(begun, checks, first, i + 1);
      assert checks[i + 1].started <= checks[i].ended + iv.selfEvery;
      assert Fences(begun, checks, iv, i + 1) && checks[i + 1].ended <= first + iv.waitOut;
    }
  }

  /** The owner has fenced itself no later than the round in which the survivor adopts. */
  lemma FencedByAdoptingRound(every: nat, begun: nat, checks: seq<Check>, rounds: seq<Round>, k: nat, i: nat)
    requires every > 0 && FirstToAdopt(rounds, IntervalsOf(every), k, i)
    requires var iv, first := IntervalsOf(every), rounds[k].at;
             && Paced(checks, iv) && begun <= first
             && |checks| >= 2 && checks[0].started <= begun + iv.selfEvery
             && checks[|checks| - 1].started >= first + iv.waitOut
             && forall j :: 0 <= j < |checks| && checks[j].ok ==> checks[j].started <= first
    ensures exists c :: && 0 <= c < |checks| && Fences(begun, checks, IntervalsOf(every), c)
                        && checks[c].ended <= rounds[i].at
  {
    FencedBeforeAdoption(every, begun, checks, rounds[k].at);
  }

  /**
    The bound is tight in its last two terms: with one timeout less there is a schedule in which the survivor is
    early.
   */
  lemma OneTimeoutLessIsEarly() returns (every: nat, begun: nat, checks: seq<Check>, first: nat)
    ensures var iv := IntervalsOf(every);
            && every > 0 && Paced(checks, iv) && begun <= first && |checks| >= 2
            && checks[0].started <= begun + iv.selfEvery
            && (forall j :: 0 <= j < |checks| && checks[j].ok ==> checks[j].started <= first)
            && checks[|checks| - 1].started >= first + iv.waitOut
            && forall i :: 0 <= i < |checks| && Fences(begun, checks, iv, i) ==>
              checks[i].ended > first + iv.waitOut - iv.selfTimeout
  {
    every, begun, first := 2, 0, 1;
    var iv := IntervalsOf(every);
    assert iv == Intervals(1, 5, SECOND, 5 + 1 + 2 * SECOND);
    var a := Check(1, 1 + SECOND, true);
    var b := Check(2 + SECOND, 2 + 2 * SECOND, false);
    var c := Check(3 + 2 * SECOND, 3 + 3 * SECOND, false);
    var d := Check(4 + 3 * SECOND, 4 + 3 * SECOND, false);
    checks := [a, b, c, d];
    assert LastOK(begun, checks, 1) == 1;
  }
}
