/** The host's end of the feed (`download_snapshots` and `acknowledge_snapshots` in
    collection.py): pages under a cursor, verified objects on disk, a pending queue. */
module HostFeed {
  import opened Readers
  import opened Protocol
  import opened Registry
  import opened RegistryRuns
  import opened Snapshots

  const PAGE_LIMIT: nat := 100

  datatype CacheKey = CacheKey(device: nat, sid: nat)
  datatype StreamKey = StreamKey(device: nat, stream: nat, project: string)

  /** The persisted index; cursor 0 stands for none yet. */
  datatype Index = Index(cursor: nat, materials: map<StreamKey, CacheKey>, pending: seq<CacheKey>)
  datatype Cache = Cache(index: Index, objects: map<CacheKey, Body>)

  function KeyOf(row: Row): CacheKey { CacheKey(row.key.device, row.key.sid) }

  /** One download: the digest, the decoder and the identity must all agree; what is kept is the
      row's own body under its device. */
  function Fetch(row: Row, bodies: map<Key, Body>): (r: Option<Body>)
    ensures r.Some? <==> row.key in bodies && bodies[row.key] == row.upload.body
                         && Decodes(row.upload.body) && row.upload.body.sid == row.key.sid
    ensures r.Some? ==> row.upload.body.Material? && r.value == row.upload.body.(device := Some(row.key.device))
  {
    if row.key !in bodies || bodies[row.key] != row.upload.body then None
    else
      var body := bodies[row.key];
      if !Decodes(body) || body.sid != row.key.sid then None
      else Some(body.(device := Some(row.key.device)))
  }

  function Note(index: Index, row: Row, body: Body): Index
    requires body.Material?
  {
    index.(materials := index.materials[StreamKey(row.key.device, body.stream, body.project) := KeyOf(row)],
           pending := if KeyOf(row) in index.pending then index.pending else index.pending + [KeyOf(row)])
  }

  /** The items of a page in turn, as far as the connection reaches. */
  function Through(c: Cache, items: seq<Row>, bodies: map<Key, Body>, reach: nat): (Cache, bool) {
    if items == [] then (c, true)
    else
      var (front, ok) := Through(c, items[..|items| - 1], bodies, reach);
      var row := items[|items| - 1];
      var body := Fetch(row, bodies);
      if !ok || |items| > reach || body.None? then (front, false)
      else (Cache(Note(front.index, row, body.value), front.objects[KeyOf(row) := body.value]), true)
  }

  datatype Taken = Failed | Stalled | Advanced(more: bool)

  /** One page; the index is written last, so a crash before that keeps the old one. */
  function TakePage(c: Cache, page: Page, bodies: map<Key, Body>, reach: nat): (Cache, Taken) {
    var (read, ok) := Through(c, page.items, bodies, reach);
    if !ok then (read.(index := c.index), Failed)
    else if page.more && page.next == c.index.cursor then (read.(index := c.index), Stalled)
    else if reach <= |page.items| then (read.(index := c.index), Failed)
    else (read.(index := read.index.(cursor := page.next)), Advanced(page.more))
  }

  /** A row of a pass report. */
  datatype Report = Report(failed: bool, device: Option<nat>, sid: Option<nat>)

  function Released(report: seq<Report>): set<CacheKey> {
    set row | row in report && !row.failed && row.device.Some? && row.sid.Some? ::
      CacheKey(row.device.value, row.sid.value)
  }

  function Without(keys: seq<CacheKey>, gone: set<CacheKey>): seq<CacheKey> {
    if keys == [] then []
    else Without(keys[..|keys| - 1], gone) + if keys[|keys| - 1] in gone then [] else [keys[|keys| - 1]]
  }

  function Acknowledge(c: Cache, report: seq<Report>): Cache {
    c.(index := c.index.(pending := Without(c.index.pending, Released(report))))
  }

  class HostCache {
    var index: Index
    var objects: map<CacheKey, Body>

    function State(): Cache
      reads this
    {
      Cache(index, objects)
    }

    constructor ()
      ensures State() == Cache(Index(0, map[], []), map[])
    {
      index := Index(0, map[], []);
      objects := map[];
    }

    method Take(page: Page, bodies: map<Key, Body>, reach: nat) returns (taken: Taken)
      modifies this
      ensures (State(), taken) == TakePage(old(State()), page, bodies, reach)
    {
      hide Fetch, Decodes, Note;
      var working := index;
      var start := State();
      for i := 0 to |page.items|
        invariant index == start.index
        invariant Through(start, page.items[..i], bodies, reach) == (Cache(working, objects), true)
      {
        var row := page.items[i];
        assert page.items[..i + 1][..i] == page.items[..i];
        var body := Fetch(row, bodies);
        if i >= reach || body.None? {
          ThroughStops(start, page.items, bodies, reach, i + 1);
          return Failed;
        }
        objects := objects[KeyOf(row) := body.value];
        working := Note(working, row, body.value);
      }
      assert page.items[..|page.items|] == page.items;
      if page.more && page.next == index.cursor { return Stalled; }
      if reach <= |page.items| { return Failed; }
      index := working.(cursor := page.next);
      taken := Advanced(page.more);
    }

    method Release(report: seq<Report>)
      modifies this
      ensures State() == Acknowledge(old(State()), report)
    {
      var kept: seq<CacheKey> := [];
      for i := 0 to |index.pending|
        invariant index == old(index) && objects == old(objects)
        invariant kept == Without(index.pending[..i], Released(report))
      {
        assert index.pending[..i + 1][..i] == index.pending[..i];
        if index.pending[i] !in Released(report) { kept := kept + [index.pending[i]]; }
      }
      assert index.pending[..|index.pending|] == index.pending;
      index := index.(pending := kept);
    }
  }

  lemma {:induction false} ThroughStops(c: Cache, items: seq<Row>, bodies: map<Key, Body>, reach: nat, upto: nat)
    requires upto <= |items| && !Through(c, items[..upto], bodies, reach).1
    ensures Through(c, items, bodies, reach) == Through(c, items[..upto], bodies, reach)
    decreases |items| - upto
  {
    if upto == |items| {
      assert items[..upto] == items;
    } else {
      assert items[..upto + 1][..upto] == items[..upto];
      ThroughStops(c, items, bodies, reach, upto + 1);
    }
  }

  /** The object of a row is there, is what the row says, decodes and has the row's id. */
  ghost predicate Intact(row: Row, bodies: map<Key, Body>) {
    && row.key in bodies && bodies[row.key] == row.upload.body
    && Decodes(row.upload.body) && row.upload.body.sid == row.key.sid
  }

  lemma {:induction false} ThroughAll(c: Cache, items: seq<Row>, bodies: map<Key, Body>, reach: nat)
    ensures Through(c, items, bodies, reach).1
            <==> forall i :: 0 <= i < |items| ==> i < reach && Intact(items[i], bodies)
  {
    hide Decodes;
    if items != [] {
      var front, last := items[..|items| - 1], |items| - 1;
      ThroughAll(c, front, bodies, reach);
      assert forall i :: 0 <= i < |front| ==> front[i] == items[i];
      assert Fetch(items[last], bodies).Some? <==> Intact(items[last], bodies);
    }
  }

  /** No key is queued twice, whatever page is read. */
  ghost predicate QueuedOnce(pending: seq<CacheKey>) {
    forall i, j :: 0 <= i < j < |pending| ==> pending[i] != pending[j]
  }

  lemma {:induction false} ReadOnce(c: Cache, items: seq<Row>, bodies: map<Key, Body>, reach: nat)
    requires QueuedOnce(c.index.pending)
    ensures var after := Through(c, items, bodies, reach).0.index.pending;
            && QueuedOnce(after) && c.index.pending <= after
            && (forall k :: k in after ==> k in c.index.pending || exists i :: 0 <= i < |items| && KeyOf(items[i]) == k)
  {
    hide Fetch;
    if items != [] {
      var front, last := items[..|items| - 1], |items| - 1;
      ReadOnce(c, front, bodies, reach);
      assert forall i :: 0 <= i < |front| ==> front[i] == items[i];
      assert KeyOf(items[last]) == KeyOf(items[|items| - 1]);
    }
  }

  /** Any page: it is taken exactly if the connection outlasts it, every object on it is sound, and it
      does not say that there is more without moving on; the index changes only then, and no key is
      queued twice. */
  lemma TakenIff(c: Cache, page: Page, bodies: map<Key, Body>, reach: nat)
    ensures var (after, taken) := TakePage(c, page, bodies, reach);
            var whole := forall i :: 0 <= i < |page.items| ==> i < reach && Intact(page.items[i], bodies);
            && (taken.Advanced? <==> whole && reach > |page.items| && !(page.more && page.next == c.index.cursor))
            && (taken.Stalled? <==> whole && page.more && page.next == c.index.cursor)
            && (taken.Advanced? ==> taken.more == page.more && after.index.cursor == page.next)
            && (!taken.Advanced? ==> after.index == c.index)
            && (QueuedOnce(c.index.pending) ==> QueuedOnce(after.index.pending))
  {
    if QueuedOnce(c.index.pending) { ReadOnce(c, page.items, bodies, reach); }
    hide Intact, QueuedOnce;
    ThroughAll(c, page.items, bodies, reach);
  }

  /* ---------------------------------------------------------------- what the cache holds */

  /** The last row of each stream decides. */
  function Latest(rows: seq<Row>): (m: map<StreamKey, CacheKey>) {
    if rows == [] then map[]
    else
      var row := rows[|rows| - 1];
      if row.upload.body.Junk? then Latest(rows[..|rows| - 1])
      else Latest(rows[..|rows| - 1])[StreamOf(row) := KeyOf(row)]
  }

  function StreamOf(row: Row): StreamKey
    requires row.upload.body.Material?
  {
    StreamKey(row.key.device, row.upload.body.stream, row.upload.body.project)
  }

  /** Rows not acknowledged yet, in feed order. */
  function Waiting(rows: seq<Row>, acked: set<CacheKey>): seq<CacheKey> {
    if rows == [] then []
    else Waiting(rows[..|rows| - 1], acked)
         + if KeyOf(rows[|rows| - 1]) in acked then [] else [KeyOf(rows[|rows| - 1])]
  }

  predicate Readable(row: Row) {
    Decodes(row.upload.body)
  }

  predicate OnDisk(row: Row, objects: map<CacheKey, Body>) {
    && Readable(row) && KeyOf(row) in objects
    && objects[KeyOf(row)] == row.upload.body.(device := Some(row.key.device))
  }

  predicate DistinctKeys(rows: seq<Row>) {
    forall i, j :: 0 <= i < j < |rows| ==> KeyOf(rows[i]) != KeyOf(rows[j])
  }

  /** The cache of a reader that has taken exactly `rows`, `acked` of them acknowledged. */
  predicate Holds(c: Cache, rows: seq<Row>, acked: set<CacheKey>) {
    && DistinctKeys(rows)
    && (forall i :: 0 <= i < |rows| ==> OnDisk(rows[i], c.objects))
    && (forall k :: k in acked ==> exists i :: 0 <= i < |rows| && KeyOf(rows[i]) == k)
    && c.index.materials == Latest(rows)
    && c.index.pending == Waiting(rows, acked)
  }

  lemma {:induction false} WaitingMember(rows: seq<Row>, acked: set<CacheKey>, k: CacheKey)
    ensures k in Waiting(rows, acked) <==> k !in acked && exists i :: 0 <= i < |rows| && KeyOf(rows[i]) == k
  {
    if rows != [] {
      var front, last := rows[..|rows| - 1], rows[|rows| - 1];
      WaitingMember(front, acked, k);
      if i :| 0 <= i < |rows| && KeyOf(rows[i]) == k {
        if i < |front| { assert front[i] == rows[i]; } else { assert KeyOf(last) == k; }
      }
      if j :| 0 <= j < |front| && KeyOf(front[j]) == k { assert rows[j] == front[j]; }
      if KeyOf(last) == k { assert rows[|rows| - 1] == last; }
    }
  }

  lemma NewKey(rows: seq<Row>, row: Row)
    requires DistinctKeys(rows + [row])
    ensures DistinctKeys(rows) && forall i :: 0 <= i < |rows| ==> KeyOf(rows[i]) != KeyOf(row)
  {
    assert (rows + [row])[|rows|] == row;
    assert forall i :: 0 <= i < |rows| ==> (rows + [row])[i] == rows[i];
  }

  lemma HoldsMore(c: Cache, rows: seq<Row>, acked: set<CacheKey>, row: Row)
    requires Holds(c, rows, acked) && DistinctKeys(rows + [row]) && Readable(row)
    ensures var body := row.upload.body.(device := Some(row.key.device));
            Holds(Cache(Note(c.index, row, body), c.objects[KeyOf(row) := body]), rows + [row], acked)
  {
    var body := row.upload.body.(device := Some(row.key.device));
    var after := Cache(Note(c.index, row, body), c.objects[KeyOf(row) := body]);
    var more := rows + [row];
    NewKey(rows, row);
    WaitingMember(rows, acked, KeyOf(row));
    assert KeyOf(row) !in acked;
    assert more[..|more| - 1] == rows;
    forall i | 0 <= i < |more| ensures OnDisk(more[i], after.objects) {
      if i < |rows| { assert OnDisk(rows[i], c.objects); }
    }
    forall k | k in acked ensures exists i :: 0 <= i < |more| && KeyOf(more[i]) == k {
      var i :| 0 <= i < |rows| && KeyOf(rows[i]) == k;
      assert more[i] == rows[i];
    }
  }

  lemma FetchStored(row: Row, bodies: map<Key, Body>)
    requires row.key in bodies && bodies[row.key] == row.upload.body
    requires row.upload.body.Material? && row.upload.body.sid == row.key.sid
    ensures Fetch(row, bodies) == if Readable(row) then Some(row.upload.body.(device := Some(row.key.device))) else None
  {
  }

  /** What a page can rely on: its rows' objects are stored as they say. */
  predicate Served(items: seq<Row>, bodies: map<Key, Body>) {
    forall i :: 0 <= i < |items| ==>
      && items[i].key in bodies && bodies[items[i].key] == items[i].upload.body
      && items[i].upload.body.Material? && items[i].upload.body.sid == items[i].key.sid
  }

  predicate AllReadable(rows: seq<Row>) {
    forall i :: 0 <= i < |rows| ==> Readable(rows[i])
  }

  /** A page is taken whole exactly when every body on it decodes (and the connection lasts). */
  lemma {:induction false} ThroughIff(c: Cache, items: seq<Row>, bodies: map<Key, Body>, reach: nat)
    requires Served(items, bodies)
    ensures Through(c, items, bodies, reach).1 <==> AllReadable(items) && |items| <= reach
  {
    hide Decodes;
    if items != [] {
      var front, row := items[..|items| - 1], items[|items| - 1];
      assert forall i :: 0 <= i < |front| ==> front[i] == items[i];
      ThroughIff(c, front, bodies, reach);
      FetchStored(row, bodies);
      assert AllReadable(items) <==> AllReadable(front) && Readable(row) by {
        assert items == front + [row];
      }
    }
  }

  lemma DistinctFront(rows: seq<Row>, items: seq<Row>)
    requires DistinctKeys(rows + items) && items != []
    ensures DistinctKeys(rows + items[..|items| - 1])
    ensures DistinctKeys((rows + items[..|items| - 1]) + [items[|items| - 1]])
  {
    assert (rows + items[..|items| - 1]) + [items[|items| - 1]] == rows + items;
    NewKey(rows + items[..|items| - 1], items[|items| - 1]);
  }

  lemma {:induction false} ThroughHolds(c: Cache, rows: seq<Row>, acked: set<CacheKey>, items: seq<Row>,
                                        bodies: map<Key, Body>, reach: nat)
    requires Holds(c, rows, acked) && DistinctKeys(rows + items) && Served(items, bodies)
    requires Through(c, items, bodies, reach).1
    ensures Holds(Through(c, items, bodies, reach).0, rows + items, acked)
    ensures Through(c, items, bodies, reach).0.index.cursor == c.index.cursor
  {
    hide Decodes, Holds, DistinctKeys, Fetch;
    if items == [] {
      assert rows + items == rows;
    } else {
      var front, row := items[..|items| - 1], items[|items| - 1];
      DistinctFront(rows, items);
      ThroughHolds(c, rows, acked, front, bodies, reach);
      FetchStored(row, bodies);
      HoldsMore(Through(c, front, bodies, reach).0, rows + front, acked, row);
      assert (rows + front) + [row] == rows + items;
    }
  }

  /** Objects a page did not name stay as they were. */
  lemma {:induction false} ThroughElsewhere(c: Cache, items: seq<Row>, bodies: map<Key, Body>, reach: nat, k: CacheKey)
    requires forall i :: 0 <= i < |items| ==> KeyOf(items[i]) != k
    ensures var after := Through(c, items, bodies, reach).0.objects;
            (k in after <==> k in c.objects) && (k in c.objects ==> after[k] == c.objects[k])
  {
    if items != [] { ThroughElsewhere(c, items[..|items| - 1], bodies, reach, k); }
  }

  /** A page that failed leaves the cache of the rows before it. */
  lemma FailedHolds(c: Cache, rows: seq<Row>, acked: set<CacheKey>, items: seq<Row>, bodies: map<Key, Body>, reach: nat)
    requires Holds(c, rows, acked) && DistinctKeys(rows + items)
    ensures Holds(Through(c, items, bodies, reach).0.(index := c.index), rows, acked)
  {
    var after := Through(c, items, bodies, reach).0;
    forall i | 0 <= i < |rows| ensures OnDisk(rows[i], after.objects) {
      assert OnDisk(rows[i], c.objects);
      forall j | 0 <= j < |items| ensures KeyOf(items[j]) != KeyOf(rows[i]) {
        assert (rows + items)[i] == rows[i] && (rows + items)[|rows| + j] == items[j];
      }
      ThroughElsewhere(c, items, bodies, reach, KeyOf(rows[i]));
    }
  }

  /* ---------------------------------------------------------------- acknowledging */

  function KeysOf(rows: seq<Row>): set<CacheKey> {
    set i | 0 <= i < |rows| :: KeyOf(rows[i])
  }

  lemma {:induction false} WithoutWaiting(rows: seq<Row>, acked: set<CacheKey>, gone: set<CacheKey>)
    ensures Without(Waiting(rows, acked), gone) == Waiting(rows, acked + gone)
  {
    if rows != [] {
      var front, key := rows[..|rows| - 1], KeyOf(rows[|rows| - 1]);
      WithoutWaiting(front, acked, gone);
      var w := Waiting(front, acked);
      assert w + [] == w;
      if key !in acked { assert (w + [key])[..|w + [key]| - 1] == w; }
    }
  }

  lemma {:induction false} WaitingSame(rows: seq<Row>, acked: set<CacheKey>, gone: set<CacheKey>)
    ensures Waiting(rows, acked + gone) == Waiting(rows, acked + gone * KeysOf(rows))
  {
    WaitingWithin(rows, acked, gone, KeysOf(rows));
  }

  lemma {:induction false} WaitingWithin(rows: seq<Row>, acked: set<CacheKey>, gone: set<CacheKey>, keys: set<CacheKey>)
    requires KeysOf(rows) <= keys
    ensures Waiting(rows, acked + gone) == Waiting(rows, acked + gone * keys)
  {
    if rows != [] {
      var front := rows[..|rows| - 1];
      assert KeysOf(front) <= KeysOf(rows) by {
        forall k | k in KeysOf(front) ensures k in KeysOf(rows) {
          var i :| 0 <= i < |front| && KeyOf(front[i]) == k;
          assert rows[i] == front[i];
        }
      }
      WaitingWithin(front, acked, gone, keys);
      assert KeyOf(rows[|rows| - 1]) in KeysOf(rows);
    }
  }

  lemma AcknowledgeHolds(c: Cache, rows: seq<Row>, acked: set<CacheKey>, report: seq<Report>)
    requires Holds(c, rows, acked)
    ensures Holds(Acknowledge(c, report), rows, acked + Released(report) * KeysOf(rows))
  {
    WithoutWaiting(rows, acked, Released(report));
    WaitingSame(rows, acked, Released(report));
  }

  /* ---------------------------------------------------------------- what Latest means */

  /** `materials` maps a stream to the one row of it that no row of the stream follows. */
  lemma {:induction false} LatestIsLast(rows: seq<Row>, k: StreamKey)
    ensures k in Latest(rows) <==>
            exists i :: 0 <= i < |rows| && rows[i].upload.body.Material? && StreamOf(rows[i]) == k
    ensures k in Latest(rows) ==>
            exists i :: 0 <= i < |rows| && rows[i].upload.body.Material? && StreamOf(rows[i]) == k
                        && KeyOf(rows[i]) == Latest(rows)[k]
                        && (forall j :: i < j < |rows| && rows[j].upload.body.Material? ==> StreamOf(rows[j]) != k)
  {
    if rows != [] {
      var front, last := rows[..|rows| - 1], |rows| - 1;
      assert forall i :: 0 <= i < last ==> front[i] == rows[i];
      LatestIsLast(front, k);
      if rows[last].upload.body.Material? && StreamOf(rows[last]) == k {
        assert k in Latest(rows) && KeyOf(rows[last]) == Latest(rows)[k];
      } else if k in Latest(front) {
        var i :| 0 <= i < |front| && front[i].upload.body.Material? && StreamOf(front[i]) == k
                 && KeyOf(front[i]) == Latest(front)[k]
                 && (forall j :: i < j < |front| && front[j].upload.body.Material? ==> StreamOf(front[j]) != k);
        assert rows[i] == front[i];
        forall j | i < j < |rows| && rows[j].upload.body.Material? ensures StreamOf(rows[j]) != k {
          if j < last { assert front[j] == rows[j]; }
        }
      }
    }
  }
}
