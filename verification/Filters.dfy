/**
  The filters a replay reads the stream with (offline.go: replayFilters, joinSubjects, subjectsOverlap, covers).
  JetStream refuses overlapping filters, so overlapping ones are folded together until none overlap; the result
  covers everything the subscriptions do.
 */
module Filters {
  import opened Seqs
  import opened Topics
  import opened Subjects

  type Tokens = seq<string>

  /** A subject: no token is a wildcard. */
  ghost predicate Literal(s: Tokens) { forall i :: 0 <= i < |s| ==> s[i] != "*" && s[i] != ">" }

  // ---------------------------------------------------------------- overlap

  predicate Overlap(a: Tokens, b: Tokens) {
    if a == [] || b == [] then a == b
    else if a[0] == ">" || b[0] == ">" then true
    else if a[0] != b[0] && a[0] != "*" && b[0] != "*" then false
    else Overlap(a[1..], b[1..])
  }

  /** A subject a filter matches: "x" for each wildcard. */
  function Instance(f: Tokens): Tokens {
    if f == [] then [] else [if f[0] == "*" || f[0] == ">" then "x" else f[0]] + Instance(f[1..])
  }

  lemma {:induction false} InstanceMatches(f: Tokens)
    ensures NatsMatch(f, Instance(f)) && Literal(Instance(f)) && |Instance(f)| == |f|
    decreases |f|
  {
    if f != [] {
      InstanceMatches(f[1..]);
      assert Instance(f)[1..] == Instance(f[1..]);
    }
  }

  /** Filters that overlap have a subject in common. */
  lemma {:induction false} OverlapHasCommon(a: Tokens, b: Tokens) returns (s: Tokens)
    requires Overlap(a, b)
    ensures NatsMatch(a, s) && NatsMatch(b, s) && Literal(s)
    decreases |a|
  {
    if a == [] || b == [] {
      s := [];
    } else if a[0] == ">" {
      s := Instance(b);
      InstanceMatches(b);
    } else if b[0] == ">" {
      s := Instance(a);
      InstanceMatches(a);
    } else {
      var rest := OverlapHasCommon(a[1..], b[1..]);
      var t := if a[0] != "*" then a[0] else if b[0] != "*" then b[0] else "x";
      s := [t] + rest;
      assert s[1..] == rest;
    }
  }

  lemma {:induction false} CommonOverlaps(a: Tokens, b: Tokens, s: Tokens)
    requires NatsMatch(a, s) && NatsMatch(b, s)
    ensures Overlap(a, b)
    decreases |s|
  {
    if a != [] && b != [] && a[0] != ">" && b[0] != ">" { CommonOverlaps(a[1..], b[1..], s[1..]); }
  }

  /** subjectsOverlap holds exactly when some subject matches both. */
  lemma OverlapExact(a: Tokens, b: Tokens)
    ensures Overlap(a, b) <==> exists s :: Literal(s) && NatsMatch(a, s) && NatsMatch(b, s)
  {
    if Overlap(a, b) { var s := OverlapHasCommon(a, b); }
    if s :| Literal(s) && NatsMatch(a, s) && NatsMatch(b, s) { CommonOverlaps(a, b, s); }
  }

  // ---------------------------------------------------------------- covers

  predicate Covers(a: Tokens, b: Tokens) {
    if a == [] then b == []
    else if a[0] == ">" then b != []
    else if b == [] || b[0] == ">" then false
    else if a[0] != "*" && a[0] != b[0] then false
    else Covers(a[1..], b[1..])
  }

  lemma {:induction false} CoversMatches(a: Tokens, b: Tokens, s: Tokens)
    requires Covers(a, b) && NatsMatch(b, s) && Literal(s)
    ensures NatsMatch(a, s)
    decreases |a|
  {
    if a != [] && a[0] != ">" { CoversMatches(a[1..], b[1..], s[1..]); }
  }

  function Other(t: string): string { if t == "x" then "y" else "x" }

  /** A subject `b` matches and `a` does not. */
  lemma {:induction false} NotCovered(a: Tokens, b: Tokens) returns (s: Tokens)
    requires !Covers(a, b)
    ensures NatsMatch(b, s) && !NatsMatch(a, s) && Literal(s)
    decreases |a|
  {
    if a == [] {
      s := Instance(b);
      InstanceMatches(b);
    } else if b == [] {
      s := [];
    } else if b[0] == ">" {
      s := if a[0] != "*" then [Other(a[0])] else if |a| == 1 then ["x", "x"] else ["x"];
      assert |a| > 1 ==> a[1..] != [];
    } else if a[0] != "*" && a[0] != b[0] {
      s := [if b[0] == "*" then Other(a[0]) else b[0]] + Instance(b[1..]);
      InstanceMatches(b[1..]);
      assert s[1..] == Instance(b[1..]);
    } else {
      var rest := NotCovered(a[1..], b[1..]);
      s := [if b[0] == "*" then "x" else b[0]] + rest;
      assert s[1..] == rest;
    }
  }

  /** covers holds exactly when every subject that matches `b` matches `a`. */
  lemma CoversExact(a: Tokens, b: Tokens)
    ensures Covers(a, b) <==> forall s :: Literal(s) && NatsMatch(b, s) ==> NatsMatch(a, s)
  {
    if Covers(a, b) {
      forall s | Literal(s) && NatsMatch(b, s) ensures NatsMatch(a, s) { CoversMatches(a, b, s); }
    } else {
      var s := NotCovered(a, b);
    }
  }

  // ---------------------------------------------------------------- joining

  function JoinTokens(a: Tokens, b: Tokens): Tokens {
    if a == [] || b == [] then []
    else if a[0] == ">" || b[0] == ">" then [">"]
    else [if a[0] == b[0] then a[0] else "*"] + JoinTokens(a[1..], b[1..])
  }

  lemma {:induction false} JoinSwaps(a: Tokens, b: Tokens)
    ensures JoinTokens(a, b) == JoinTokens(b, a) && Overlap(a, b) == Overlap(b, a)
    decreases |a|
  {
    if a != [] && b != [] { JoinSwaps(a[1..], b[1..]); }
  }

  lemma {:induction false} JoinCoversFirst(a: Tokens, b: Tokens, s: Tokens)
    requires Overlap(a, b) && NatsMatch(a, s)
    ensures NatsMatch(JoinTokens(a, b), s)
    decreases |a|
  {
    if a != [] && b != [] && a[0] != ">" && b[0] != ">" {
      JoinCoversFirst(a[1..], b[1..], s[1..]);
      assert JoinTokens(a, b)[1..] == JoinTokens(a[1..], b[1..]);
    }
  }

  /** joinSubjects covers both of two filters that overlap. */
  lemma JoinCoversBoth(a: Tokens, b: Tokens, s: Tokens)
    requires Overlap(a, b) && (NatsMatch(a, s) || NatsMatch(b, s))
    ensures NatsMatch(JoinTokens(a, b), s)
  {
    if NatsMatch(a, s) {
      JoinCoversFirst(a, b, s);
    } else {
      JoinSwaps(a, b);
      JoinCoversFirst(b, a, s);
    }
  }

  /** ... and is the narrowest that does: whatever covers the two covers it. */
  lemma {:induction false} JoinIsLeast(a: Tokens, b: Tokens, c: Tokens)
    requires Covers(c, a) && Covers(c, b)
    ensures Covers(c, JoinTokens(a, b))
    decreases |a|
  {
    if a != [] && b != [] && a[0] != ">" && b[0] != ">" && c[0] != ">" {
      JoinIsLeast(a[1..], b[1..], c[1..]);
      assert JoinTokens(a, b)[1..] == JoinTokens(a[1..], b[1..]);
    }
  }

  lemma {:induction false} JoinShape(a: Tokens, b: Tokens)
    requires Topics.Free(a, '.') && Topics.Free(b, '.')
    ensures Topics.Free(JoinTokens(a, b), '.') && (a != [] && b != [] ==> JoinTokens(a, b) != [])
    decreases |a|
  {
    if a != [] && b != [] { JoinShape(a[1..], b[1..]); }
  }

  // ---------------------------------------------------------------- the loops over tokens

  /** subjectsOverlap. */
  method SubjectsOverlap(a: string, b: string) returns (yes: bool)
    ensures yes == Overlap(Split(a, '.'), Split(b, '.'))
  {
    var at, bt := Split(a, '.'), Split(b, '.');
    var i := 0;
    while i < |at| && i < |bt|
      invariant i <= |at| && i <= |bt|
      invariant Overlap(at, bt) == Overlap(at[i..], bt[i..])
    {
      if at[i] == ">" || bt[i] == ">" { return true; }
      if at[i] != bt[i] && at[i] != "*" && bt[i] != "*" { return false; }
      assert at[i..][1..] == at[i + 1..] && bt[i..][1..] == bt[i + 1..];
      i := i + 1;
    }
    return |at| == |bt|;
  }

  /** covers. */
  method SubjectCovers(a: string, b: string) returns (yes: bool)
    ensures yes == Covers(Split(a, '.'), Split(b, '.'))
  {
    var at, bt := Split(a, '.'), Split(b, '.');
    var i := 0;
    while i < |at|
      invariant i <= |at| && i <= |bt|
      invariant Covers(at, bt) == Covers(at[i..], bt[i..])
    {
      if at[i] == ">" { return |bt| > i; }
      if i >= |bt| || bt[i] == ">" { return false; }
      if at[i] != "*" && at[i] != bt[i] { return false; }
      assert at[i..][1..] == at[i + 1..] && bt[i..][1..] == bt[i + 1..];
      i := i + 1;
    }
    return |at| == |bt|;
  }

  /** joinSubjects. */
  method JoinSubjects(a: string, b: string) returns (j: string)
    ensures Split(j, '.') == JoinTokens(Split(a, '.'), Split(b, '.'))
  {
    hide Split, Join, JoinTokens, Topics.Free;
    var at, bt := Split(a, '.'), Split(b, '.');
    SplitIsFree(a, '.');
    SplitIsFree(b, '.');
    JoinShape(at, bt);
    SplitUndoesJoin(JoinTokens(at, bt), '.');
    var out: Tokens, i := [], 0;
    assert at[0..] == at && bt[0..] == bt;
    while i < |at| && i < |bt|
      invariant i <= |at| && i <= |bt|
      invariant JoinTokens(at, bt) == out + JoinTokens(at[i..], bt[i..])
    {
      JoinStep(at, bt, i);
      if at[i] == ">" || bt[i] == ">" { return Join(out + [">"], '.'); }
      var t := if at[i] == bt[i] then at[i] else "*";
      Assoc(out, [t], JoinTokens(at[i + 1..], bt[i + 1..]));
      out := out + [t];
      i := i + 1;
    }
    JoinDone(at[i..], bt[i..]);
    assert out + [] == out;
    return Join(out, '.');
  }

  lemma JoinStep(a: Tokens, b: Tokens, i: nat)
    requires i < |a| && i < |b|
    ensures JoinTokens(a[i..], b[i..]) ==
            if a[i] == ">" || b[i] == ">" then [">"]
            else [if a[i] == b[i] then a[i] else "*"] + JoinTokens(a[i + 1..], b[i + 1..])
  {
    assert a[i..][1..] == a[i + 1..] && b[i..][1..] == b[i + 1..];
  }

  lemma JoinDone(a: Tokens, b: Tokens)
    requires a == [] || b == []
    ensures JoinTokens(a, b) == []
  {
  }

  // ---------------------------------------------------------------- folding

  ghost predicate Disjoint(out: seq<string>) {
    forall i, j :: 0 <= i < j < |out| ==> !Overlap(Split(out[i], '.'), Split(out[j], '.'))
  }

  /** One of the filters matches the subject. */
  ghost predicate Matched(out: seq<string>, s: Tokens) {
    exists i :: 0 <= i < |out| && NatsMatch(Split(out[i], '.'), s)
  }

  function Without(out: seq<string>, i: nat): seq<string>
    requires i < |out|
  {
    out[..i] + out[i + 1..]
  }

  lemma WithoutDisjoint(out: seq<string>, i: nat)
    requires Disjoint(out) && i < |out|
    ensures Disjoint(Without(out, i))
  {
    var less := Without(out, i);
    forall p, q | 0 <= p < q < |less| ensures !Overlap(Split(less[p], '.'), Split(less[q], '.')) {
      var p', q' := if p < i then p else p + 1, if q < i then q else q + 1;
      assert less[p] == out[p'] && less[q] == out[q'];
    }
  }

  lemma WithoutMatched(out: seq<string>, i: nat, s: Tokens)
    requires i < |out| && Matched(out, s) && !NatsMatch(Split(out[i], '.'), s)
    ensures Matched(Without(out, i), s)
  {
    var k :| 0 <= k < |out| && NatsMatch(Split(out[k], '.'), s);
    var less := Without(out, i);
    assert less[if k < i then k else k - 1] == out[k];
  }

  lemma MatchedMore(out: seq<string>, f: string, s: Tokens)
    requires Matched(out, s) || NatsMatch(Split(f, '.'), s)
    ensures Matched(out + [f], s)
  {
    var more := out + [f];
    if Matched(out, s) {
      var k :| 0 <= k < |out| && NatsMatch(Split(out[k], '.'), s);
      assert more[k] == out[k];
    } else {
      assert more[|out|] == f;
    }
  }

  /** The first entry at or after `from` that overlaps `f`, or the length. */
  method FirstOverlap(out: seq<string>, f: string) returns (i: nat)
    ensures i <= |out| && (i < |out| ==> Overlap(Split(out[i], '.'), Split(f, '.')))
    ensures i == |out| ==> forall k :: 0 <= k < |out| ==> !Overlap(Split(out[k], '.'), Split(f, '.'))
  {
    i := 0;
    while i < |out|
      invariant i <= |out| && forall k :: 0 <= k < i ==> !Overlap(Split(out[k], '.'), Split(f, '.'))
    {
      var yes := SubjectsOverlap(out[i], f);
      if yes { return; }
      i := i + 1;
    }
  }

  /**
    What one more filter, folded in, leaves: disjoint filters that match all the old ones did, and all the new one
    does.
   */
  ghost predicate Folded(out: seq<string>, f: string, result: seq<string>) {
    Disjoint(result) && forall s :: Literal(s) && (Matched(out, s) || NatsMatch(Split(f, '.'), s)) ==>
      Matched(result, s)
  }

  /** One merge: the entry that overlaps goes, and the filter is widened to cover it. */
  lemma MergeCovers(out: seq<string>, i: nat, f: string, wider: string, s: Tokens)
    requires i < |out| && Literal(s) && (Matched(out, s) || NatsMatch(Split(f, '.'), s))
    requires var have, ft, wt := Split(out[i], '.'), Split(f, '.'), Split(wider, '.');
             Overlap(have, ft) && ((Covers(ft, have) && wt == ft) || wt == JoinTokens(have, ft))
    ensures Matched(Without(out, i), s) || NatsMatch(Split(wider, '.'), s)
  {
    hide Overlap, Covers, JoinTokens, NatsMatch;
    var have, ft := Split(out[i], '.'), Split(f, '.');
    if NatsMatch(have, s) || NatsMatch(ft, s) {
      if Covers(ft, have) && Split(wider, '.') == ft {
        if NatsMatch(have, s) { CoversMatches(ft, have, s); }
      } else {
        JoinCoversBoth(have, ft, s);
      }
    } else {
      WithoutMatched(out, i, s);
    }
  }

  lemma CoveredAlready(out: seq<string>, i: nat, f: string)
    requires i < |out| && Covers(Split(out[i], '.'), Split(f, '.')) && Disjoint(out)
    ensures Folded(out, f, out)
  {
    hide Overlap, Covers, NatsMatch;
    forall s | Literal(s) && NatsMatch(Split(f, '.'), s) ensures Matched(out, s) {
      CoversMatches(Split(out[i], '.'), Split(f, '.'), s);
    }
  }

  lemma AppendFolds(out: seq<string>, f: string)
    requires Disjoint(out) && forall k :: 0 <= k < |out| ==> !Overlap(Split(out[k], '.'), Split(f, '.'))
    ensures Folded(out, f, out + [f])
  {
    hide Overlap, NatsMatch;
    forall s | Literal(s) && (Matched(out, s) || NatsMatch(Split(f, '.'), s))
      ensures Matched(out + [f], s)
    {
      MatchedMore(out, f, s);
    }
  }

  /** `out` and `f`, between two merges, still match all that `filters` and `filter` did. */
  ghost predicate Carried(filters: seq<string>, filter: string, out: seq<string>, f: string) {
    forall s :: Literal(s) && (Matched(filters, s) || NatsMatch(Split(filter, '.'), s)) ==>
      Matched(out, s) || NatsMatch(Split(f, '.'), s)
  }

  lemma MergeCarries(filters: seq<string>, filter: string, out: seq<string>, i: nat, f: string, wider: string)
    requires i < |out| && Carried(filters, filter, out, f)
    requires var have, ft, wt := Split(out[i], '.'), Split(f, '.'), Split(wider, '.');
             Overlap(have, ft) && ((Covers(ft, have) && wt == ft) || wt == JoinTokens(have, ft))
    ensures Carried(filters, filter, Without(out, i), wider)
  {
    hide Overlap, Covers, JoinTokens, NatsMatch, Matched;
    forall s | Literal(s) && (Matched(filters, s) || NatsMatch(Split(filter, '.'), s))
      ensures Matched(Without(out, i), s) || NatsMatch(Split(wider, '.'), s)
    {
      MergeCovers(out, i, f, wider, s);
    }
  }

  lemma CarriedFolds(filters: seq<string>, filter: string, out: seq<string>, f: string, result: seq<string>)
    requires Carried(filters, filter, out, f) && Folded(out, f, result)
    ensures Folded(filters, filter, result)
  {
    hide NatsMatch, Matched, Disjoint;
  }

  /** Of filters that do not overlap, only the one that covers `f` can overlap it. */
  lemma OnlyOneCovers(out: seq<string>, k: nat, i: nat, f: string)
    requires Disjoint(out) && k < |out| && i < |out| && Covers(Split(out[k], '.'), Split(f, '.'))
    requires Overlap(Split(out[i], '.'), Split(f, '.'))
    ensures i == k
  {
    hide Overlap, Covers, NatsMatch;
    var s := OverlapHasCommon(Split(out[i], '.'), Split(f, '.'));
    CoversMatches(Split(out[k], '.'), Split(f, '.'), s);
    CommonOverlaps(Split(out[i], '.'), Split(out[k], '.'), s);
    CommonOverlaps(Split(out[k], '.'), Split(out[i], '.'), s);
  }

  lemma CoveringOverlaps(a: Tokens, b: Tokens)
    requires Covers(a, b)
    ensures Overlap(a, b)
  {
    hide Overlap, Covers, NatsMatch;
    InstanceMatches(b);
    CoversMatches(a, b, Instance(b));
    CommonOverlaps(a, b, Instance(b));
  }

  /** One of the filters covers `f` already. */
  ghost predicate CoveredBy(filters: seq<string>, f: string) {
    exists k :: 0 <= k < |filters| && Covers(Split(filters[k], '.'), Split(f, '.'))
  }

  /** None of the filters overlaps `f`. */
  ghost predicate Apart(filters: seq<string>, f: string) {
    forall k :: 0 <= k < |filters| ==> !Overlap(Split(filters[k], '.'), Split(f, '.'))
  }

  /** Each of `out` is covered by one of `gs`. */
  ghost predicate AllCovered(gs: seq<string>, out: seq<string>) {
    forall k :: 0 <= k < |out| ==> CoveredBy(gs, out[k])
  }

  /** Whatever filters that do not overlap cover `needed` cover `out`: it is no wider than it has to be. */
  ghost predicate NoWider(needed: seq<string>, out: seq<string>) {
    forall gs :: Disjoint(gs) && AllCovered(gs, needed) ==> AllCovered(gs, out)
  }

  lemma CoversChains(a: Tokens, b: Tokens, c: Tokens)
    requires Covers(a, b) && Covers(b, c)
    ensures Covers(a, c)
  {
    hide Covers, NatsMatch;
    forall s | Literal(s) && NatsMatch(c, s) ensures NatsMatch(a, s) {
      CoversMatches(b, c, s);
      CoversMatches(a, b, s);
    }
    CoversExact(a, c);
  }

  /** Two filters that overlap are covered by the same one of filters that do not. */
  lemma MergeCovered(gs: seq<string>, have: string, f: string, wider: string)
    requires Disjoint(gs) && CoveredBy(gs, have) && CoveredBy(gs, f)
    requires var ht, ft, wt := Split(have, '.'), Split(f, '.'), Split(wider, '.');
             Overlap(ht, ft) && ((Covers(ft, ht) && wt == ft) || wt == JoinTokens(ht, ft))
    ensures CoveredBy(gs, wider)
  {
    hide Overlap, Covers, NatsMatch, JoinTokens, Split;
    var ht, ft, wt := Split(have, '.'), Split(f, '.'), Split(wider, '.');
    var i :| 0 <= i < |gs| && Covers(Split(gs[i], '.'), ht);
    var j :| 0 <= j < |gs| && Covers(Split(gs[j], '.'), ft);
    var s := OverlapHasCommon(ht, ft);
    CoversMatches(Split(gs[i], '.'), ht, s);
    CoversMatches(Split(gs[j], '.'), ft, s);
    CommonOverlaps(Split(gs[i], '.'), Split(gs[j], '.'), s);
    CommonOverlaps(Split(gs[j], '.'), Split(gs[i], '.'), s);
    assert i == j;
    if wt == JoinTokens(ht, ft) { JoinIsLeast(ht, ft, Split(gs[i], '.')); }
  }

  lemma MergeNoWider(filters: seq<string>, filter: string, out: seq<string>, i: nat, f: string, wider: string)
    requires i < |out| && NoWider(filters + [filter], out + [f])
    requires var have, ft, wt := Split(out[i], '.'), Split(f, '.'), Split(wider, '.');
             Overlap(have, ft) && ((Covers(ft, have) && wt == ft) || wt == JoinTokens(have, ft))
    ensures NoWider(filters + [filter], Without(out, i) + [wider])
  {
    hide Overlap, Covers, JoinTokens, Split, Disjoint, CoveredBy;
    forall gs | Disjoint(gs) && AllCovered(gs, filters + [filter])
      ensures AllCovered(gs, Without(out, i) + [wider])
    {
      var all, less := out + [f], Without(out, i) + [wider];
      assert AllCovered(gs, all);
      assert all[i] == out[i] && all[|out|] == f;
      MergeCovered(gs, out[i], f, wider);
      forall k | 0 <= k < |less| ensures CoveredBy(gs, less[k]) {
        if k < |less| - 1 { assert less[k] == all[if k < i then k else k + 1]; }
      }
    }
  }

  lemma FewerNoWider(filters: seq<string>, filter: string, out: seq<string>, f: string)
    requires NoWider(filters + [filter], out + [f])
    ensures NoWider(filters + [filter], out)
  {
    hide Disjoint, CoveredBy;
    forall gs | Disjoint(gs) && AllCovered(gs, filters + [filter]) ensures AllCovered(gs, out) {
      assert AllCovered(gs, out + [f]);
      forall k | 0 <= k < |out| ensures CoveredBy(gs, out[k]) { assert (out + [f])[k] == out[k]; }
    }
  }

  lemma CoveredIsFirst(filters: seq<string>, f: string, i: nat)
    requires Disjoint(filters) && CoveredBy(filters, f) && i <= |filters|
    requires i < |filters| ==> Overlap(Split(filters[i], '.'), Split(f, '.'))
    requires i == |filters| ==> Apart(filters, f)
    ensures i < |filters| && Covers(Split(filters[i], '.'), Split(f, '.'))
  {
    hide Overlap, Covers, Disjoint;
    var k :| 0 <= k < |filters| && Covers(Split(filters[k], '.'), Split(f, '.'));
    CoveringOverlaps(Split(filters[k], '.'), Split(f, '.'));
    if i < |filters| { OnlyOneCovers(filters, k, i, f); }
  }

  /**
    The fold of one filter into the set: each merge removes an entry, so it ends. A filter that overlaps none is
    added as it is, one that is covered changes nothing, and the set grows by at most one.
   */
  method Add(filters: seq<string>, filter: string) returns (out: seq<string>)
    requires Disjoint(filters)
    ensures Folded(filters, filter, out)
    ensures Apart(filters, filter) ==> out == filters + [filter]
    ensures CoveredBy(filters, filter) ==> out == filters
    ensures |out| <= |filters| + 1
    ensures NoWider(filters + [filter], out)
  {
    hide Disjoint, Carried, Folded, Split, Covers, Overlap, CoveredBy, NoWider;
    out := filters;
    var f := filter;
    assert Carried(filters, filter, out, f) by { CarriedAtFirst(filters, filter); }
    assert NoWider(filters + [filter], out + [f]) by { SameNoWider(filters + [filter]); }
    while true
      invariant Disjoint(out) && Carried(filters, filter, out, f) && |out| <= |filters|
      invariant NoWider(filters + [filter], out + [f])
      invariant (out == filters && f == filter) || (!Apart(filters, filter) && !CoveredBy(filters, filter))
      decreases |out|
    {
      var i := FirstOverlap(out, f);
      if CoveredBy(out, f) { CoveredIsFirst(out, f, i); }
      if i == |out| {
        AppendFolds(out, f);
        CarriedFolds(filters, filter, out, f, out + [f]);
        return out + [f];
      }
      var covered := SubjectCovers(out[i], f);
      if covered {
        CoveredAlready(out, i, f);
        CarriedFolds(filters, filter, out, f, out);
        FewerNoWider(filters, filter, out, f);
        return out;
      }
      var wider := f;
      var swallows := SubjectCovers(f, out[i]);
      if !swallows { wider := JoinSubjects(out[i], f); }
      MergeCarries(filters, filter, out, i, f, wider);
      MergeNoWider(filters, filter, out, i, f, wider);
      WithoutDisjoint(out, i);
      f, out := wider, Without(out, i);
    }
  }

  lemma SameNoWider(filters: seq<string>)
    ensures NoWider(filters, filters)
  {
  }

  lemma CarriedAtFirst(filters: seq<string>, filter: string)
    ensures Carried(filters, filter, filters, filter)
  {
  }

  // ---------------------------------------------------------------- the filters of a replay

  datatype Subscription = Subscription(filter: string, shared: bool)

  function QueuedSubject(prefix: string, subject: string): string { Prefix(prefix, "$queue." + subject) }

  /** A subject a subscription's replay has to read: that of its filter, or the parent of that. */
  ghost predicate Needed(sub: Subscription, prefix: string, escape: bool, s: Tokens) {
    && !sub.shared && FilterToSubject(sub.filter, escape).Some?
    && var subject := FilterToSubject(sub.filter, escape).value;
    || NatsMatch(Split(QueuedSubject(prefix, subject), '.'), s)
    || (ParentSubject(subject).Some? && NatsMatch(Split(QueuedSubject(prefix, ParentSubject(subject).value), '.'), s))
  }

  /** The filters the subscriptions need, before any is folded. */
  function NeededFilters(subs: seq<Subscription>, prefix: string, escape: bool): seq<string>
    decreases |subs|
  {
    if subs == [] then []
    else NeededFilters(subs[..|subs| - 1], prefix, escape) + FiltersOf(subs[|subs| - 1], prefix, escape)
  }

  function FiltersOf(sub: Subscription, prefix: string, escape: bool): seq<string> {
    var subject := FilterToSubject(sub.filter, escape);
    if sub.shared || subject.None? then []
    else
      var parent := ParentSubject(subject.value);
      [QueuedSubject(prefix, subject.value)] + if parent.Some? then [QueuedSubject(prefix, parent.value)] else []
  }

  lemma NothingNeeded(prefix: string, escape: bool)
    ensures NeededFilters([], prefix, escape) == [] && NoWider([], [])
  {
  }

  lemma MoreNeeded(subs: seq<Subscription>, sub: Subscription, prefix: string, escape: bool)
    ensures NeededFilters(subs + [sub], prefix, escape) ==
            NeededFilters(subs, prefix, escape) + FiltersOf(sub, prefix, escape)
    ensures FiltersOf(sub, prefix, escape) == [] ==>
              NeededFilters(subs + [sub], prefix, escape) == NeededFilters(subs, prefix, escape)
  {
    hide FiltersOf;
    assert (subs + [sub])[..|subs|] == subs;
  }

  lemma NoWiderOn(needed: seq<string>, filters: seq<string>, f: string, out: seq<string>)
    requires NoWider(needed, filters) && NoWider(filters + [f], out)
    ensures NoWider(needed + [f], out)
  {
    hide Disjoint, CoveredBy;
    forall gs | Disjoint(gs) && AllCovered(gs, needed + [f]) ensures AllCovered(gs, out) {
      var all, more := needed + [f], filters + [f];
      assert AllCovered(gs, needed) by {
        forall k | 0 <= k < |needed| ensures CoveredBy(gs, needed[k]) { assert all[k] == needed[k]; }
      }
      assert AllCovered(gs, filters);
      assert all[|needed|] == f;
      assert AllCovered(gs, more) by {
        forall k | 0 <= k < |more| ensures CoveredBy(gs, more[k]) { if k < |filters| { assert more[k] == filters[k]; } }
      }
    }
  }

  /**
    replayFilters: filters no two of which overlap, which match every subject one of the subscriptions needs, and
    which are no wider than that takes; None when a subscription's filter cannot be written as a subject.
   */
  method ReplayFilters(subs: seq<Subscription>, prefix: string, escape: bool) returns (out: Option<seq<string>>)
    ensures out.Some? <==>
            forall k :: 0 <= k < |subs| ==> subs[k].shared || FilterToSubject(subs[k].filter, escape).Some?
    ensures out.Some? ==> Disjoint(out.value)
    ensures out.Some? ==> forall k, s :: 0 <= k < |subs| && Literal(s) && Needed(subs[k], prefix, escape, s) ==>
            Matched(out.value, s)
    ensures out.Some? ==> NoWider(NeededFilters(subs, prefix, escape), out.value)
  {
    hide Disjoint, Split, NatsMatch, FilterToSubject, ParentSubject, Literal, Matched, Prefix, NoWider, NeededFilters;
    var filters: seq<string> := [];
    assert Disjoint(filters) by { NoneDisjoint(); }
    assert subs[..0] == [];
    NothingNeeded(prefix, escape);
    for i := 0 to |subs|
      invariant Disjoint(filters)
      invariant forall k :: 0 <= k < i ==> subs[k].shared || FilterToSubject(subs[k].filter, escape).Some?
      invariant forall k, s :: 0 <= k < i && Literal(s) && Needed(subs[k], prefix, escape, s) ==> Matched(filters, s)
      invariant NoWider(NeededFilters(subs[..i], prefix, escape), filters)
    {
      assert subs[..i + 1] == subs[..i] + [subs[i]];
      MoreNeeded(subs[..i], subs[i], prefix, escape);
      ghost var needed := NeededFilters(subs[..i], prefix, escape);
      if subs[i].shared { continue; }
      var subject := FilterToSubject(subs[i].filter, escape);
      if subject.None? { return None; }
      var before := filters;
      filters := Add(filters, QueuedSubject(prefix, subject.value));
      NoWiderOn(needed, before, QueuedSubject(prefix, subject.value), filters);
      var parent := ParentSubject(subject.value);
      assert needed + ([QueuedSubject(prefix, subject.value)] + []) == needed + [QueuedSubject(prefix, subject.value)];
      if parent.Some? {
        Assoc(needed, [QueuedSubject(prefix, subject.value)], [QueuedSubject(prefix, parent.value)]);
        before := filters;
        filters := Add(filters, QueuedSubject(prefix, parent.value));
        NoWiderOn(needed + [QueuedSubject(prefix, subject.value)], before, QueuedSubject(prefix, parent.value),
                  filters);
      }
    }
    assert subs[..|subs|] == subs;
    return Some(filters);
  }

  lemma NoneDisjoint()
    ensures Disjoint([])
  {
  }
}
