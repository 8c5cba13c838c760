/**
  Topic Names and Topic Filters (topic/topic.go): level splitting, the rules a name or a filter has to
  meet, shared filters, and matching. A string is a sequence of bytes, one `char` per byte.
 */
module Topics {

  datatype Option<+T> = None | Some(value: T)

  // ---------------------------------------------------------------- splitting and joining

  /** The pieces of `s` between occurrences of `sep`; a string without one is a single piece. */
  function Split(s: string, sep: char): (parts: seq<string>)
    ensures |parts| >= 1
    decreases |s|
  {
    if s == "" then [""]
    else
      var parts := Split(s[..|s| - 1], sep);
      var last := |parts| - 1;
      if s[|s| - 1] == sep then parts + [""] else parts[..last] + [parts[last] + [s[|s| - 1]]]
  }

  /** The pieces with `sep` between them. */
  function Join(parts: seq<string>, sep: char): (s: string)
    requires |parts| >= 1
  {
    if |parts| == 1 then parts[0] else Join(parts[..|parts| - 1], sep) + [sep] + parts[|parts| - 1]
  }

  ghost predicate Free(parts: seq<string>, sep: char) {
    forall i :: 0 <= i < |parts| ==> sep !in parts[i]
  }

  lemma {:induction false} SplitIsFree(s: string, sep: char)
    ensures Free(Split(s, sep), sep)
    decreases |s|
  {
    if s != "" { SplitIsFree(s[..|s| - 1], sep); }
  }

  lemma {:induction false} JoinUndoesSplit(s: string, sep: char)
    ensures Join(Split(s, sep), sep) == s
    decreases |s|
  {
    if s != "" {
      JoinUndoesSplit(s[..|s| - 1], sep);
      var parts := Split(s[..|s| - 1], sep);
      var last := |parts| - 1;
      assert s == s[..|s| - 1] + [s[|s| - 1]];
      if s[|s| - 1] == sep {
        assert (parts + [""])[..|parts|] == parts;
      } else {
        var longer := parts[..last] + [parts[last] + [s[|s| - 1]]];
        assert longer[..last] == parts[..last];
      }
    }
  }

  /** Splitting `s + sep + t`, where `t` has no separator, adds exactly one piece. */
  lemma {:induction false} SplitAppend(s: string, t: string, sep: char)
    requires sep !in t
    ensures Split(s + [sep] + t, sep) == Split(s, sep) + [t]
    decreases |t|
  {
    var whole := s + [sep] + t;
    if t == "" {
      assert whole[..|whole| - 1] == s;
    } else {
      var front := t[..|t| - 1];
      SplitAppend(s, front, sep);
      assert whole[..|whole| - 1] == s + [sep] + front;
      assert t == front + [t[|t| - 1]];
    }
  }

  lemma {:induction false} SplitSingle(t: string, sep: char)
    requires sep !in t
    ensures Split(t, sep) == [t]
    decreases |t|
  {
    if t != "" {
      SplitSingle(t[..|t| - 1], sep);
      assert t == t[..|t| - 1] + [t[|t| - 1]];
    }
  }

  lemma {:induction false} SplitUndoesJoin(parts: seq<string>, sep: char)
    requires |parts| >= 1 && Free(parts, sep)
    ensures Split(Join(parts, sep), sep) == parts
    decreases |parts|
  {
    var n := |parts| - 1;
    if n == 0 {
      SplitSingle(parts[0], sep);
    } else {
      SplitUndoesJoin(parts[..n], sep);
      SplitAppend(Join(parts[..n], sep), parts[n], sep);
      assert parts == parts[..n] + [parts[n]];
    }
  }

  // ---------------------------------------------------------------- what is accepted

  const MAX_LENGTH := 65535
  const SHARED_PREFIX := "$share/"

  /** The bytes a NATS subject cannot carry as they are. */
  predicate Special(c: char) {
    c in {'*', '>', ' ', '\t', '\n', '\r', '\U{000C}', '\U{007F}'}
  }

  predicate ValidCommon(s: string, escaped: bool) {
    && s != ""
    && |s| <= MAX_LENGTH
    && '\0' !in s
    && (escaped || forall i :: 0 <= i < |s| ==> !Special(s[i]))
  }

  /** A name or filter under a level the broker keeps its own messages under. */
  predicate Reserved(s: string) {
    Split(s, '/')[0] in {"$retained", "$queue"}
  }

  predicate ValidName(name: string, escaped: bool) {
    ValidCommon(name, escaped) && '+' !in name && '#' !in name && !Reserved(name)
  }

  predicate ValidLevels(levels: seq<string>) {
    forall i :: 0 <= i < |levels| ==>
                  && (levels[i] == "+" || '+' !in levels[i])
                  && ('#' in levels[i] ==> levels[i] == "#" && i == |levels| - 1)
  }

  predicate IsShared(f: string) { SHARED_PREFIX <= f }

  /** The share name and the inner filter, or None for a malformed shared filter. */
  function SplitShared(f: string): (r: Option<(string, string)>)
    ensures !IsShared(f) ==> r == Some(("", f))
    ensures IsShared(f) && r.Some? ==>
              && r.value.0 != "" && r.value.1 != ""
              && '/' !in r.value.0 && '+' !in r.value.0 && '#' !in r.value.0
              && f == SHARED_PREFIX + r.value.0 + "/" + r.value.1
  {
    if !IsShared(f) then Some(("", f))
    else
      var rest := f[|SHARED_PREFIX|..];
      var slash := IndexOf(rest, '/', 0);
      if slash == |rest| || slash == 0 then None
      else
        var share, inner := rest[..slash], rest[slash + 1..];
        assert rest == share + "/" + inner;
        assert f == SHARED_PREFIX + rest;
        if '+' in share || '#' in share || inner == "" then None else Some((share, inner))
  }

  /** The first position of `c` at or after `from`, or the length. */
  function IndexOf(s: string, c: char, from: nat): (i: nat)
    requires from <= |s|
    ensures from <= i <= |s| && c !in s[from..i] && (i < |s| ==> s[i] == c)
    decreases |s| - from
  {
    if from == |s| || s[from] == c then from
    else
      var i := IndexOf(s, c, from + 1);
      assert s[from..i] == [s[from]] + s[from + 1..i];
      i
  }

  lemma {:induction false} IndexOfIs(s: string, c: char, from: nat, k: nat)
    requires from <= k < |s| && c !in s[from..k] && s[k] == c
    ensures IndexOf(s, c, from) == k
    decreases k - from
  {
    if from < k {
      assert s[from] == s[from..k][0] && s[from + 1..k] == s[from..k][1..];
      IndexOfIs(s, c, from + 1, k);
    }
  }

  /** Section 4.8.2 of MQTT 5.0: a share name has no separator and no wildcard. */
  predicate ShareName(name: string) { name != "" && '/' !in name && '+' !in name && '#' !in name }

  /** A shared filter with such a name and something after it is accepted as the two. */
  lemma SharedAccepted(name: string, inner: string)
    requires ShareName(name) && inner != ""
    ensures SplitShared(SHARED_PREFIX + name + "/" + inner) == Some((name, inner))
  {
    var f := SHARED_PREFIX + name + "/" + inner;
    var rest := f[|SHARED_PREFIX|..];
    assert rest == name + "/" + inner;
    assert rest[0..|name|] == name;
    IndexOfIs(rest, '/', 0, |name|);
    assert rest[..|name|] == name && rest[|name| + 1..] == inner;
  }

  /** ... and no other shared filter is. */
  lemma SharedAcceptedIff(f: string)
    requires IsShared(f)
    ensures SplitShared(f).Some? <==>
            exists name, inner :: ShareName(name) && inner != "" && f == SHARED_PREFIX + name + "/" + inner
  {
    if SplitShared(f).Some? {
      var r := SplitShared(f).value;
      assert ShareName(r.0) && r.1 != "" && f == SHARED_PREFIX + r.0 + "/" + r.1;
    }
    if name, inner :| ShareName(name) && inner != "" && f == SHARED_PREFIX + name + "/" + inner {
      SharedAccepted(name, inner);
    }
  }

  /** The part of a filter that is matched: everything but the share name. */
  function Inner(filter: string): string {
    var r := SplitShared(filter);
    if r.Some? then r.value.1 else ""
  }

  predicate ValidFilter(filter: string, escaped: bool) {
    && ValidCommon(filter, escaped)
    && SplitShared(filter).Some?
    && !Reserved(Inner(filter))
    && Inner(filter) != ""
    && ValidLevels(Split(Inner(filter), '/'))
  }

  /** validateFilterLevels: the wildcard placement rules, level by level with early exits. */
  method ValidateFilterLevels(filter: string) returns (ok: bool)
    ensures ok <==> filter != "" && ValidLevels(Split(filter, '/'))
  {
    if filter == "" { return false; }
    var levels := Split(filter, '/');
    for i := 0 to |levels|
      invariant ValidLevels(levels) <==>
                forall k :: i <= k < |levels| ==>
                              && (levels[k] == "+" || '+' !in levels[k])
                              && ('#' in levels[k] ==> levels[k] == "#" && k == |levels| - 1)
    {
      if levels[i] != "+" && '+' in levels[i] { return false; }
      if '#' in levels[i] {
        if levels[i] != "#" { return false; }
        if i != |levels| - 1 { return false; }
      }
    }
    return true;
  }

  // ---------------------------------------------------------------- matching

  predicate LevelsMatch(f: seq<string>, n: seq<string>) {
    if f == [] then n == []
    else if f[0] == "#" then true
    else n != [] && (f[0] == "+" || f[0] == n[0]) && LevelsMatch(f[1..], n[1..])
  }

  /** Section 4.7.2 of MQTT 5.0: a filter starting with a wildcard does not match a `$` topic. */
  predicate DollarForbids(filter: string, name: string) {
    filter != "" && name != "" && name[0] == '$' && (filter[0] == '#' || filter[0] == '+')
  }

  predicate Matches(filter: string, name: string) {
    var inner := Inner(filter);
    && inner != "" && name != ""
    && !DollarForbids(inner, name)
    && LevelsMatch(Split(inner, '/'), Split(name, '/'))
  }

  /** Match: the loop over the filter's levels with its early returns. */
  method Match(filter: string, name: string) returns (yes: bool)
    ensures yes == Matches(filter, name)
  {
    var r := SplitShared(filter);
    if r.None? { return false; }
    var inner := r.value.1;
    if inner == "" || name == "" { return false; }
    if name[0] == '$' && (inner[0] == '#' || inner[0] == '+') { return false; }
    var f, n := Split(inner, '/'), Split(name, '/');
    for i := 0 to |f|
      invariant i <= |n|
      invariant LevelsMatch(f, n) == LevelsMatch(f[i..], n[i..])
    {
      if f[i] == "#" { return true; }
      if i >= |n| { return false; }
      if f[i] != "+" && f[i] != n[i] { return false; }
      assert f[i..][1..] == f[i + 1..] && n[i..][1..] == n[i + 1..];
    }
    return |f| == |n|;
  }

  /** One level against one level, as section 4.7.1 of MQTT 5.0 reads. */
  predicate LevelOK(f: string, n: string) { f == "+" || f == n }

  /**
    What the loop decides, said without it: a filter ending in `#` covers its parent level and every
    number of levels below it; any other filter needs the same number of levels.
   */
  predicate Covered(f: seq<string>, n: seq<string>)
    requires |f| >= 1
  {
    var k := |f| - 1;
    if f[k] == "#" then |n| >= k && forall i :: 0 <= i < k ==> LevelOK(f[i], n[i])
    else |n| == |f| && forall i :: 0 <= i < |f| ==> LevelOK(f[i], n[i])
  }

  lemma {:induction false} LevelsMatchMeaning(f: seq<string>, n: seq<string>)
    requires |f| >= 1 && ValidLevels(f)
    ensures LevelsMatch(f, n) <==> Covered(f, n)
    decreases |f|
  {
    if f[0] == "#" {
      assert '#' in f[0];
      assert |f| == 1;
    } else if n != [] {
      if |f| == 1 {
        assert LevelsMatch(f[1..], n[1..]) <==> n[1..] == [];
      } else {
        var f', n' := f[1..], n[1..];
        assert ValidLevels(f') by {
          forall i | 0 <= i < |f'|
            ensures (f'[i] == "+" || '+' !in f'[i]) && ('#' in f'[i] ==> f'[i] == "#" && i == |f'| - 1)
          {
            assert f'[i] == f[i + 1];
          }
        }
        LevelsMatchMeaning(f', n');
        if Covered(f', n') && LevelOK(f[0], n[0]) {
          forall i | 0 <= i < |f| && (i < |f| - 1 || f[i] != "#") ensures i < |n| && LevelOK(f[i], n[i]) {
            if i > 0 { assert f[i] == f'[i - 1] && n[i] == n'[i - 1]; }
          }
        }
        if Covered(f, n) {
          forall i | 0 <= i < |f'| && (i < |f'| - 1 || f'[i] != "#") ensures i < |n'| && LevelOK(f'[i], n'[i]) {
            assert f'[i] == f[i + 1] && n'[i] == n[i + 1];
          }
          assert LevelOK(f[0], n[0]);
        }
      }
    }
  }

  // ---------------------------------------------------------------- exactly what is accepted

  lemma {:induction false} SplitFront(word: string, t: string)
    requires '/' !in word
    ensures |Split(word + "/" + t, '/')| >= 2 && Split(word + "/" + t, '/')[0] == word
    decreases |t|
  {
    var s := word + "/" + t;
    if t == "" {
      assert s[..|s| - 1] == word;
      SplitSingle(word, '/');
    } else {
      var front := t[..|t| - 1];
      SplitFront(word, front);
      assert s[..|s| - 1] == word + "/" + front;
    }
  }

  lemma {:induction false} JoinFront(parts: seq<string>)
    requires |parts| >= 2
    ensures parts[0] + "/" <= Join(parts, '/')
    decreases |parts|
  {
    var less := parts[..|parts| - 1];
    assert less[0] == parts[0];
    if |less| >= 2 { JoinFront(less); }
  }

  lemma FirstLevel(s: string, word: string)
    requires '/' !in word
    ensures Split(s, '/')[0] == word <==> s == word || word + "/" <= s
  {
    hide Split, Join;
    var parts := Split(s, '/');
    JoinUndoesSplit(s, '/');
    if parts[0] == word {
      if |parts| >= 2 { JoinFront(parts); } else { JoinOne(parts); }
    }
    if s == word { SplitSingle(word, '/'); }
    if word + "/" <= s {
      var t := s[|word| + 1..];
      assert s == word + "/" + t;
      SplitFront(word, t);
    }
  }

  lemma JoinOne(parts: seq<string>)
    requires |parts| == 1
    ensures Join(parts, '/') == parts[0]
  {
  }

  /** A name or filter is reserved exactly when it is, or is below, one of the two levels. */
  lemma ReservedIff(s: string)
    ensures Reserved(s) <==> s == "$retained" || s == "$queue" || "$retained/" <= s || "$queue/" <= s
  {
    FirstLevel(s, "$retained");
    FirstLevel(s, "$queue");
    assert "$retained" + "/" == "$retained/" && "$queue" + "/" == "$queue/";
  }

  /** A byte no name or filter may hold unless subjects are escaped. */
  predicate Unsafe(c: char) {
    c == '*' || c == '>' || c == ' ' || c == '\t' || c == '\n' || c == '\r' || c == '\U{000C}' || c == '\U{007F}'
  }

  /** A name is accepted exactly when it is 1 to 65535 bytes, none of them forbidden, and not under a reserved level. */
  lemma NameAcceptedIff(name: string, escaped: bool)
    ensures ValidName(name, escaped) <==>
            && 1 <= |name| <= 65535
            && (forall i :: 0 <= i < |name| ==> name[i] !in {'\0', '+', '#'} && (escaped || !Unsafe(name[i])))
            && !(name == "$retained" || name == "$queue" || "$retained/" <= name || "$queue/" <= name)
  {
    ReservedIff(name);
  }

  /**
    A filter is accepted exactly when it is 1 to 65535 bytes, none of them forbidden, and what it matches, which for a
    shared one is what follows its share name, has its wildcards in place and is not under a reserved level.
   */
  lemma FilterAcceptedIff(filter: string, escaped: bool)
    ensures ValidFilter(filter, escaped) <==>
            && 1 <= |filter| <= 65535
            && (forall i :: 0 <= i < |filter| ==> filter[i] != '\0' && (escaped || !Unsafe(filter[i])))
            && exists inner :: Accepts(filter, inner)
  {
    hide ValidLevels, Split, Reserved, SplitShared;
    var common := 1 <= |filter| <= 65535
      && forall i :: 0 <= i < |filter| ==> filter[i] != '\0' && (escaped || !Unsafe(filter[i]));
    assert ValidCommon(filter, escaped) <==> common;
    ReservedIff(Inner(filter));
    InPlace(Split(Inner(filter), '/'));
    if ValidFilter(filter, escaped) {
      assert Accepts(filter, Inner(filter)) by { SharedParts(filter); }
    }
    if inner :| Accepts(filter, inner) {
      ReservedIff(inner);
      InPlace(Split(inner, '/'));
      SharedParts(filter);
      if IsShared(filter) {
        var name :| ShareName(name) && filter == SHARED_PREFIX + name + "/" + inner;
        SharedAccepted(name, inner);
      }
    }
  }

  lemma SharedParts(f: string)
    ensures !IsShared(f) ==> SplitShared(f) == Some(("", f))
    ensures IsShared(f) && SplitShared(f).Some? ==>
              && ShareName(SplitShared(f).value.0) && SplitShared(f).value.1 != ""
              && f == SHARED_PREFIX + SplitShared(f).value.0 + "/" + SplitShared(f).value.1
  {
  }

  /** `inner` is what the filter matches, and is in order. */
  ghost predicate Accepts(filter: string, inner: string) {
    && inner != ""
    && (if IsShared(filter) then exists name :: ShareName(name) && filter == SHARED_PREFIX + name + "/" + inner
        else inner == filter)
    && !(inner == "$retained" || inner == "$queue" || "$retained/" <= inner || "$queue/" <= inner)
    && WildcardsInPlace(Split(inner, '/'))
  }

  /** A `+` stands alone in its level, and so does a `#`, in the last one. */
  ghost predicate WildcardsInPlace(levels: seq<string>) {
    && (forall i :: 0 <= i < |levels| && '+' in levels[i] ==> levels[i] == "+")
    && (forall i :: 0 <= i < |levels| && '#' in levels[i] ==> levels[i] == "#" && i + 1 == |levels|)
  }

  lemma InPlace(levels: seq<string>)
    ensures ValidLevels(levels) <==> WildcardsInPlace(levels)
  {
    assert '+' in "+";
  }
}
