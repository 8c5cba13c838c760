/**
  A resume replay from a cursor (offline.go: replayFromCursor, replayHoles, readUntilDone): the holes by their
  sequences, then the stream from the cursor, read again from the start whenever a read fails.
 */
module Replay {
  import opened Topics
  import opened Cursors
  import opened CursorRuns
  import opened CursorSafety

  /**
    One read: the stream's end and what has aged out when it is made, and how many messages it hands on before it
    fails.
   */
  datatype Attempt = Attempt(last: nat, gone: set<nat>, fails: Option<nat>)

  /** What stays fixed over a replay: the stream, the cursor it starts from, the ids known then, the subscriptions. */
  datatype Job = Job(st: Stream, cur: Cursors.View, delivered: set<Id>, subs: Subs, client: string)

  predicate InScope(job: Job, q: nat) { q in job.cur.holes || q >= job.cur.next }

  predicate ServedNow(job: Job, q: nat) {
    Stored(job.st, q) && exists f :: f in job.subs && Serves(job.subs[f], At(job.st, q), job.client)
  }

  /** The messages a replay is for. */
  predicate Wanted(job: Job, q: nat) {
    InScope(job, q) && Named(job.st, q) && At(job.st, q).id !in job.delivered && ServedNow(job, q)
  }

  ghost predicate JobOK(job: Job) {
    && UniqueIds(job.st)
    && forall q: nat :: q in job.cur.holes ==> Stored(job.st, q) && q < job.cur.next
  }

  /** Reads are made one after the other: the stream only grows, and what has aged out stays out. */
  ghost predicate InOrder(job: Job, attempts: seq<Attempt>) {
    && (forall i :: 0 <= i < |attempts| ==> attempts[i].last <= |job.st|)
    && (forall i, j :: 0 <= i < j < |attempts| ==>
        attempts[i].last <= attempts[j].last && attempts[i].gone <= attempts[j].gone)
  }

  ghost predicate Ascends(s: seq<nat>) { forall i, j :: 0 <= i < j < |s| ==> s[i] < s[j] }

  /** Everything wanted and not gone up to what was sent last has been sent. */
  ghost predicate NoGap(job: Job, gone: set<nat>, out: seq<nat>) {
    out != [] ==> forall q: nat :: Wanted(job, q) && q !in gone && q <= out[|out| - 1] ==> q in out
  }

  /** `replayed` is the ids of what was sent. */
  ghost predicate SentSoFar(job: Job, out: seq<nat>, replayed: set<Id>) {
    && Ascends(out)
    && (forall q: nat :: q in out ==> Wanted(job, q))
    && (forall q: nat :: q in out ==> At(job.st, q).id in replayed)
    && (forall id :: id in replayed ==> exists q: nat :: q in out && At(job.st, q).id == id)
  }

  lemma SentById(job: Job, out: seq<nat>, replayed: set<Id>, q: nat)
    requires JobOK(job) && SentSoFar(job, out, replayed) && Wanted(job, q)
    ensures q in out <==> At(job.st, q).id in replayed
  {
  }

  lemma SendMore(job: Job, out: seq<nat>, replayed: set<Id>, gone: set<nat>, q: nat)
    requires JobOK(job) && SentSoFar(job, out, replayed) && NoGap(job, gone, out)
    requires Wanted(job, q) && q !in gone && At(job.st, q).id !in replayed
    requires forall p: nat :: Wanted(job, p) && p !in gone && p < q ==> p in out
    ensures SentSoFar(job, out + [q], replayed + {At(job.st, q).id}) && NoGap(job, gone, out + [q])
  {
    hide ServedNow;
    SentById(job, out, replayed, q);
    var more := out + [q];
    assert forall i :: 0 <= i < |out| ==> out[i] <= out[|out| - 1];
    forall id | id in replayed + {At(job.st, q).id} ensures exists p: nat :: p in more && At(job.st, p).id == id {
      if id in replayed {
        var p :| p in out && At(job.st, p).id == id;
        assert p in more;
      } else {
        assert q in more;
      }
    }
  }

  /** The body of the handler each read message is given to. */
  method Handle(job: Job, q: nat, out: seq<nat>, replayed: set<Id>, ghost gone: set<nat>)
    returns (out': seq<nat>, replayed': set<Id>)
    requires JobOK(job) && Stored(job.st, q) && q !in gone
    requires SentSoFar(job, out, replayed) && NoGap(job, gone, out)
    requires forall p: nat :: Wanted(job, p) && p !in gone && p < q ==> p in out
    ensures SentSoFar(job, out', replayed') && NoGap(job, gone, out') && out <= out'
    ensures Wanted(job, q) ==> q in out'
    ensures forall p: nat :: p in out' ==> p in out || p == q
  {
    out', replayed' := out, replayed;
    var m := At(job.st, q);
    if (q in job.cur.holes || q >= job.cur.next) && m.id != "" && m.id !in job.delivered {
      if ServedNow(job, q) { SentById(job, out, replayed, q); }
      if m.id !in replayed {
        var matched := ServedBy(job, m);
        if matched {
          SendMore(job, out, replayed, gone, q);
          out', replayed' := out + [q], replayed + {m.id};
        }
      }
    }
  }

  /** deliverQueued: whether one of the subscriptions takes the message. */
  method ServedBy(job: Job, m: Msg) returns (matched: bool)
    ensures matched <==> exists f :: f in job.subs && Serves(job.subs[f], m, job.client)
  {
    matched := false;
    var todo := job.subs.Keys;
    while todo != {}
      invariant todo <= job.subs.Keys
      invariant matched <==> exists f :: f in job.subs && f !in todo && Serves(job.subs[f], m, job.client)
      decreases |todo|
    {
      var f :| f in todo;
      if Serves(job.subs[f], m, job.client) { matched := true; }
      todo := todo - {f};
    }
  }

  method Sorted(seqs: set<nat>) returns (s: seq<nat>)
    ensures Ascends(s) && forall q: nat :: q in s <==> q in seqs
  {
    s := [];
    var todo := seqs;
    while todo != {}
      invariant todo <= seqs && Ascends(s)
      invariant forall q: nat :: q in s <==> q in seqs && q !in todo
      invariant forall i: nat, q: nat :: 0 <= i < |s| && q in todo ==> s[i] < q
      decreases |todo|
    {
      var low := Lowest(todo);
      assert forall q: nat :: q in s + [low] <==> q in s || q == low;
      s := s + [low];
      todo := todo - {low};
    }
  }

  method Lowest(seqs: set<nat>) returns (low: nat)
    requires seqs != {}
    ensures low in seqs && forall q: nat :: q in seqs ==> low <= q
  {
    low :| low in seqs;
    var todo := seqs;
    while todo != {}
      invariant todo <= seqs && low in seqs
      invariant forall q: nat :: q in seqs && q !in todo ==> low <= q
      decreases |todo|
    {
      var q :| q in todo;
      if q < low { low := q; }
      todo := todo - {q};
    }
  }

  /**
    What a read of the stream to `a.last` hands on: the holes that are left, then what the filters take from next
    on.
   */
  ghost predicate Listed(job: Job, a: Attempt, q: nat) {
    && Stored(job.st, q) && q !in a.gone
    && (q in job.cur.holes || (job.cur.next <= q <= a.last && Taken(job, q)))
  }

  /** The filters of the read take the message: a subscription that is not shared matches it. */
  predicate Taken(job: Job, q: nat)
    requires Stored(job.st, q)
  {
    exists f :: f in job.subs && !job.subs[f].shared && Matches(job.subs[f].filter, At(job.st, q).name)
  }

  ghost predicate ListOf(job: Job, a: Attempt, list: seq<nat>) {
    Ascends(list) && forall q: nat :: q in list <==> Listed(job, a, q)
  }

  lemma ListedBefore(job: Job, a: Attempt, list: seq<nat>, i: nat, p: nat)
    requires ListOf(job, a, list) && i < |list| && Wanted(job, p) && p !in a.gone && p < list[i]
    requires JobOK(job)
    ensures exists k :: 0 <= k < i && list[k] == p
  {
    assert Listed(job, a, list[i]);
    assert Taken(job, p);
    assert p in list;
    var k :| 0 <= k < |list| && list[k] == p;
  }

  lemma WantedIsListed(job: Job, a: Attempt, list: seq<nat>, q: nat)
    requires ListOf(job, a, list) && Wanted(job, q) && q !in a.gone && q <= a.last
    ensures exists k :: 0 <= k < |list| && list[k] == q
  {
    assert Taken(job, q);
    assert q in list;
  }

  method ReadList(job: Job, a: Attempt) returns (list: seq<nat>)
    requires JobOK(job) && a.last <= |job.st|
    ensures ListOf(job, a, list)
  {
    var holes := Sorted(job.cur.holes.Keys);
    list := [];
    for i := 0 to |holes|
      invariant Ascends(list) && forall q: nat :: q in list <==> q in holes[..i] && q !in a.gone
      invariant forall k :: 0 <= k < |list| && i < |holes| ==> list[k] < holes[i]
    {
      assert forall q: nat :: q in holes[..i + 1] <==> q in holes[..i] || q == holes[i];
      if holes[i] !in a.gone { list := list + [holes[i]]; }
    }
    assert holes[..|holes|] == holes;
    assert forall k :: 0 <= k < |list| ==> list[k] in list;
    var q := job.cur.next;
    while q <= a.last
      invariant Ascends(list) && forall k :: 0 <= k < |list| ==> list[k] < q
      invariant forall p: nat :: p in list <==> p < q && Listed(job, a, p)
      decreases a.last + 1 - q
    {
      if q !in a.gone && Stored(job.st, q) && Taken(job, q) { list := list + [q]; }
      q := q + 1;
    }
  }

  /** One read, handing its messages on in order until it fails or ends. */
  method ReadOnce(job: Job, a: Attempt, out: seq<nat>, replayed: set<Id>)
    returns (out': seq<nat>, replayed': set<Id>, ok: bool, ghost list: seq<nat>)
    requires JobOK(job) && a.last <= |job.st|
    requires SentSoFar(job, out, replayed) && NoGap(job, a.gone, out)
    ensures ListOf(job, a, list)
    ensures var n := if a.fails.Some? && a.fails.value < |list| then a.fails.value else |list|;
            && (forall k :: 0 <= k < n && Wanted(job, list[k]) ==> list[k] in out')
            && (forall k :: n <= k < |list| && list[k] in out' ==> list[k] in out)
    ensures SentSoFar(job, out', replayed') && NoGap(job, a.gone, out') && out <= out'
    ensures forall q: nat :: q in out' ==> q in out || Listed(job, a, q)
    ensures ok <==> a.fails.None?
    ensures ok ==> forall q: nat :: Wanted(job, q) && q !in a.gone && q <= a.last ==> q in out'
  {
    hide SentSoFar, NoGap, JobOK, Wanted;
    out', replayed', ok := out, replayed, true;
    var toRead := ReadList(job, a);
    list := toRead;
    var i := 0;
    while i < |toRead|
      invariant i <= |list| && ok && out <= out' && (a.fails.Some? ==> i <= a.fails.value)
      invariant forall q: nat :: q in out' ==> q in out || q in list[..i]
      invariant SentSoFar(job, out', replayed') && NoGap(job, a.gone, out')
      invariant forall k :: 0 <= k < i && Wanted(job, list[k]) ==> list[k] in out'
      invariant forall q: nat :: q in out' ==> q in out || Listed(job, a, q)
    {
      if a.fails == Some(i) {
        Later(list, i);
        return out', replayed', false, list;
      }
      assert Listed(job, a, list[i]) && list[..i + 1] == list[..i] + [list[i]];
      forall p: nat | Wanted(job, p) && p !in a.gone && p < list[i]
        ensures p in out'
      {
        ListedBefore(job, a, list, i, p);
      }
      out', replayed' := Handle(job, toRead[i], out', replayed', a.gone);
      i := i + 1;
    }
    forall q: nat | Wanted(job, q) && q !in a.gone && q <= a.last ensures q in out' { WantedIsListed(job, a, list, q); }
    ok := a.fails.None?;
  }

  /** What comes later in a rising list is not in its beginning. */
  lemma Later(list: seq<nat>, i: nat)
    requires Ascends(list) && i <= |list|
    ensures forall k :: i <= k < |list| ==> list[k] !in list[..i]
  {
  }

  /** Everything the replay was for, up to the end of the read that got through, and nothing else. */
  ghost predicate SentAll(job: Job, a: Attempt, out: seq<nat>) {
    && (forall q: nat :: q in out ==> Wanted(job, q) && (q in job.cur.holes || q <= a.last))
    && (forall q: nat :: Wanted(job, q) && q !in a.gone && q <= a.last ==> q in out)
  }

  /** replayFromCursor: the reads one after the other, until one gets through. */
  method ReplayFromCursor(job: Job, attempts: seq<Attempt>) returns (out: seq<nat>, complete: bool)
    requires JobOK(job) && InOrder(job, attempts)
    ensures Ascends(out) && forall q: nat :: q in out ==> Wanted(job, q)
    ensures complete <==> exists i :: 0 <= i < |attempts| && attempts[i].fails.None?
    ensures complete ==> exists i :: 0 <= i < |attempts| && attempts[i].fails.None? && SentAll(job, attempts[i], out)
    ensures !complete && attempts != [] ==> NoGap(job, attempts[|attempts| - 1].gone, out)
  {
    hide Wanted, JobOK, NoGap, Listed;
    var replayed: set<Id> := {};
    out := [];
    NothingSentYet(job);
    for i := 0 to |attempts|
      invariant SentSoFar(job, out, replayed)
      invariant i < |attempts| ==> NoGap(job, attempts[i].gone, out)
      invariant i > 0 ==> NoGap(job, attempts[i - 1].gone, out)
      invariant forall j :: 0 <= j < i ==> attempts[j].fails.Some?
      invariant forall q: nat :: q in out ==> q in job.cur.holes || (i > 0 && q <= attempts[i - 1].last)
    {
      var before := out;
      ghost var list;
      out, replayed, complete, list := ReadOnce(job, attempts[i], out, replayed);
      forall q: nat | q in out ensures q in job.cur.holes || q <= attempts[i].last {
        if q !in before { ListedBound(job, attempts[i], q); }
      }
      if complete {
        assert SentAll(job, attempts[i], out);
        return out, true;
      }
      if i + 1 < |attempts| { LaterGap(job, attempts[i].gone, attempts[i + 1].gone, out); }
    }
    complete := false;
  }

  lemma NothingSentYet(job: Job)
    ensures SentSoFar(job, [], {}) && forall gone :: NoGap(job, gone, [])
  {
  }

  lemma ListedBound(job: Job, a: Attempt, q: nat)
    requires Listed(job, a, q)
    ensures q in job.cur.holes || q <= a.last
  {
  }

  lemma LaterGap(job: Job, gone: set<nat>, later: set<nat>, out: seq<nat>)
    requires NoGap(job, gone, out) && gone <= later
    ensures NoGap(job, later, out)
  {
  }
}
