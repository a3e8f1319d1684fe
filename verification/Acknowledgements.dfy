/** When a key leaves the host's queue, said over the pass reports and the committed rows: a row
    that failed, or that names no device or no snapshot, takes nothing out. */
module Acknowledgements {
  import opened Readers
  import opened Registry
  import opened RegistryRuns
  import opened HostFeed
  import opened Publisher
  import opened Delivery
  import opened EndToEnd

  /** Some row of the report names this key and did not fail. */
  ghost predicate Named(report: seq<Report>, k: CacheKey) {
    exists i :: 0 <= i < |report| && report[i] == Report(false, Some(k.device), Some(k.sid))
  }

  lemma ReleasedIs(report: seq<Report>, k: CacheKey)
    ensures k in Released(report) <==> Named(report, k)
  {
    if k in Released(report) {
      var row :| row in report && !row.failed && row.device.Some? && row.sid.Some?
                 && CacheKey(row.device.value, row.sid.value) == k;
      assert row == Report(false, Some(k.device), Some(k.sid));
    }
  }

  lemma CountNext<T>(s: seq<T>, last: T, k: T)
    ensures multiset(s + [last])[k] == multiset(s)[k] + if last == k then 1 else 0
  {
  }

  lemma WithoutNext(front: seq<CacheKey>, last: CacheKey, gone: set<CacheKey>)
    ensures Without(front + [last], gone)
            == if last in gone then Without(front, gone) else Without(front, gone) + [last]
  {
    assert (front + [last])[..|front|] == front;
    assert Without(front, gone) + [] == Without(front, gone);
  }

  lemma {:induction false} WithoutCount(keys: seq<CacheKey>, gone: set<CacheKey>, k: CacheKey)
    ensures multiset(Without(keys, gone))[k] == if k in gone then 0 else multiset(keys)[k]
  {
    if keys != [] {
      var front, last := keys[..|keys| - 1], keys[|keys| - 1];
      WithoutCount(front, gone, k);
      WithoutNext(front, last, gone);
      assert keys == front + [last];
      hide Without;
      CountNext(front, last, k);
      CountNext(Without(front, gone), last, k);
    }
  }

  /** Where the keys that are left stood. */
  ghost predicate InOrder(kept: seq<CacheKey>, keys: seq<CacheKey>, places: seq<nat>) {
    && |places| == |kept|
    && (forall i :: 0 <= i < |places| ==> places[i] < |keys| && keys[places[i]] == kept[i])
    && (forall i, j :: 0 <= i < j < |places| ==> places[i] < places[j])
  }

  lemma InOrderMore(kept: seq<CacheKey>, keys: seq<CacheKey>, places: seq<nat>, k: CacheKey)
    requires InOrder(kept, keys, places)
    ensures InOrder(kept, keys + [k], places) && InOrder(kept + [k], keys + [k], places + [|keys|])
  {
  }

  lemma {:induction false} WithoutInOrder(keys: seq<CacheKey>, gone: set<CacheKey>) returns (places: seq<nat>)
    ensures InOrder(Without(keys, gone), keys, places)
  {
    places := [];
    if keys != [] {
      hide InOrder;
      var front, last := keys[..|keys| - 1], keys[|keys| - 1];
      places := WithoutInOrder(front, gone);
      InOrderMore(Without(front, gone), front, places, last);
      assert keys == front + [last];
      assert Without(front, gone) + [] == Without(front, gone);
      if last !in gone { places := places + [|front|]; }
    }
  }

  /** After an acknowledgement the queue holds the keys it held that no row of the report named
      without failing, as often and in the order they stood; nothing else of the cache changes. */
  lemma ReleaseIff(c: Cache, report: seq<Report>, k: CacheKey) returns (places: seq<nat>)
    ensures var before, after := c.index.pending, Acknowledge(c, report).index.pending;
            && multiset(after)[k] == (if Named(report, k) then 0 else multiset(before)[k])
            && (k in after <==> k in before && !Named(report, k))
            && InOrder(after, before, places)
    ensures Acknowledge(c, report).(index := c.index) == c
    ensures Acknowledge(c, report).index.(pending := c.index.pending) == c.index
  {
    hide Named, Released, Without, InOrder;
    ReleasedIs(report, k);
    WithoutCount(c.index.pending, Released(report), k);
    places := WithoutInOrder(c.index.pending, Released(report));
    var after := Acknowledge(c, report).index.pending;
    assert k in after <==> k in multiset(after);
    assert k in c.index.pending <==> k in multiset(c.index.pending);
  }

  /* ---------------------------------------------------------------- whole runs */

  /** A committed row at or below the host's cursor has this key. */
  ghost predicate OnHost(w: World, library: nat, k: CacheKey) {
    exists i :: 0 <= i < |w.s.rows| && w.s.rows[i].key == Key(library, k.device, k.sid)
                && w.s.rows[i].sequence <= w.cache.index.cursor
  }

  lemma CollectedIs(w: World, library: nat, k: CacheKey)
    ensures OnHost(w, library, k) <==> k in KeysOf(UpTo(Feed(w.s.rows, library), w.cache.index.cursor))
  {
    var taken := UpTo(Feed(w.s.rows, library), w.cache.index.cursor);
    if OnHost(w, library, k) {
      var i :| 0 <= i < |w.s.rows| && w.s.rows[i].key == Key(library, k.device, k.sid)
               && w.s.rows[i].sequence <= w.cache.index.cursor;
      FeedMember(w.s.rows, library, w.s.rows[i]);
      UpToMember(Feed(w.s.rows, library), w.cache.index.cursor, w.s.rows[i]);
    }
    if i :| 0 <= i < |taken| && KeyOf(taken[i]) == k {
      UpToMember(Feed(w.s.rows, library), w.cache.index.cursor, taken[i]);
      FeedMember(w.s.rows, library, taken[i]);
    }
  }

  /** A report of the run named the key without failing while its row was on the host. */
  ghost predicate Acknowledged(id: Identity, library: nat, w: World, steps: seq<Step>, k: CacheKey) {
    exists n :: 0 <= n < |steps| && AcknowledgedAt(id, library, w, steps, n, k)
  }

  ghost predicate AcknowledgedAt(id: Identity, library: nat, w: World, steps: seq<Step>, n: nat, k: CacheKey)
    requires n < |steps|
  {
    steps[n].Releases? && Named(steps[n].report, k) && OnHost(Journey(id, library, w, steps[..n]), library, k)
  }

  lemma AckedNext(id: Identity, library: nat, w: World, step: Step, k: CacheKey)
    ensures k in Go(id, library, w, step).acked
            <==> k in w.acked || (step.Releases? && Named(step.report, k) && OnHost(w, library, k))
  {
    hide OnHost, Named, Released, Next, InTurn, Arrive, KeysOf;
    if step.Releases? {
      ReleasedIs(step.report, k);
      CollectedIs(w, library, k);
    }
  }

  lemma AcknowledgedNext(id: Identity, library: nat, w: World, steps: seq<Step>, k: CacheKey)
    requires steps != []
    ensures var front := steps[..|steps| - 1];
            Acknowledged(id, library, w, steps, k)
            <==> Acknowledged(id, library, w, front, k) || AcknowledgedAt(id, library, w, steps, |steps| - 1, k)
  {
    hide OnHost, Named, Go;
    var front, last := steps[..|steps| - 1], |steps| - 1;
    forall n: nat | n < last
      ensures AcknowledgedAt(id, library, w, steps, n, k) <==> AcknowledgedAt(id, library, w, front, n, k)
    {
      assert front[..n] == steps[..n];
    }
    hide AcknowledgedAt;
  }

  lemma {:induction false} AckedIff(id: Identity, library: nat, w: World, steps: seq<Step>, k: CacheKey)
    requires w.acked == {}
    ensures k in Journey(id, library, w, steps).acked <==> Acknowledged(id, library, w, steps, k)
  {
    hide OnHost, Named, Go;
    if steps != [] {
      hide Acknowledged;
      var front, last := steps[..|steps| - 1], |steps| - 1;
      AckedIff(id, library, w, front, k);
      AcknowledgedNext(id, library, w, steps, k);
      AckedNext(id, library, Journey(id, library, w, front), steps[last], k);
    }
  }

  lemma KeysMember(rows: seq<Row>, k: CacheKey)
    ensures k in KeysOf(rows) <==> exists i :: 0 <= i < |rows| && KeyOf(rows[i]) == k
  {
  }

  /** WHAT IS PENDING. In every run the host's queue holds exactly the keys of the committed rows at
      or below its cursor that no report named, without failing, while they were on the host: a
      row whose ingest failed comes back. */
  lemma PendingIff(id: Identity, library: nat, w: World, steps: seq<Step>, k: CacheKey)
    requires Begins(id, w) && AllPossible(id, library, w, steps)
    ensures var after := Journey(id, library, w, steps);
            k in after.cache.index.pending
            <==> OnHost(after, library, k) && !Acknowledged(id, library, w, steps, k)
  {
    hide OnHost, Acknowledged, Recorded, Journey, AllPossible, Waiting;
    var after := Journey(id, library, w, steps);
    WholeRuns(id, library, w, steps);
    AckedIff(id, library, w, steps, k);
    CollectedIs(after, library, k);
    KeysMember(Collected(after.s, after.cache, library), k);
    WaitingMember(Collected(after.s, after.cache, library), after.acked, k);
  }
}
