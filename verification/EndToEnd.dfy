/** The three ends together, over whole runs: what the device recorded as sent is in the cloud,
    and on the host once its cursor has passed it, in the order it was queued. */
module EndToEnd {
  import opened Readers
  import opened Protocol
  import opened Registry
  import opened RegistryRuns
  import opened Snapshots
  import opened HostFeed
  import opened Publisher
  import opened Delivery

  /* ---------------------------------------------------------------- the host's invariant */

  function Collected(s: State, c: Cache, library: nat): seq<Row> {
    UpTo(Feed(s.rows, library), c.index.cursor)
  }

  /** The reader has taken exactly the library's rows at or below its cursor. */
  predicate Kept(s: State, c: Cache, library: nat, acked: set<CacheKey>) {
    Sound(s) && c.index.cursor < s.next && Holds(c, Collected(s, c, library), acked)
  }

  lemma {:induction false} FeedDistinct(rows: seq<Row>, library: nat)
    requires forall i, j :: 0 <= i < j < |rows| ==> rows[i].key != rows[j].key
    ensures DistinctKeys(Feed(rows, library))
  {
    if rows != [] {
      var front, last := rows[..|rows| - 1], rows[|rows| - 1];
      FeedDistinct(front, library);
      var feed := Feed(front, library);
      if last.key.library == library {
        forall i | 0 <= i < |feed| ensures KeyOf(feed[i]) != KeyOf(last) {
          FeedMember(front, library, feed[i]);
          var j :| 0 <= j < |front| && front[j] == feed[i];
          assert rows[j].key != last.key && rows[j].key.library == last.key.library;
        }
      }
    }
  }

  lemma RowServed(s: State, row: Row)
    requires Sound(s) && row in s.rows
    ensures Served([row], s.bodies)
  {
    var i :| 0 <= i < |s.rows| && s.rows[i] == row;
    RowStored(s, i);
    RowFiled(s, row);
  }

  lemma FeedServed(s: State, library: nat)
    requires Sound(s)
    ensures Served(Feed(s.rows, library), s.bodies)
  {
    hide Sound;
    var feed := Feed(s.rows, library);
    forall i | 0 <= i < |feed|
      ensures feed[i].key in s.bodies && s.bodies[feed[i].key] == feed[i].upload.body
              && feed[i].upload.body.Material? && feed[i].upload.body.sid == feed[i].key.sid
    {
      FeedMember(s.rows, library, feed[i]);
      RowServed(s, feed[i]);
      assert [feed[i]][0] == feed[i];
    }
  }

  lemma KeysDiffer(s: State)
    requires Sound(s)
    ensures forall i, j :: 0 <= i < j < |s.rows| ==> s.rows[i].key != s.rows[j].key
  {
  }

  lemma PrefixDistinct(a: seq<Row>, b: seq<Row>)
    requires DistinctKeys(a + b)
    ensures DistinctKeys(a)
  {
    assert forall i :: 0 <= i < |a| ==> (a + b)[i] == a[i];
  }

  lemma PageWithin(s: State, library: nat, cursor: nat)
    requires Sound(s) && cursor < s.next
    ensures ListPage(s, library, cursor, PAGE_LIMIT).next < s.next
  {
    hide Sound, Feed;
    RowsRise(s);
    var feed, items := Feed(s.rows, library), ListPage(s, library, cursor, PAGE_LIMIT).items;
    if items != [] {
      var last := items[|items| - 1];
      AboveMember(feed, cursor, last);
      FeedMember(s.rows, library, last);
    }
  }

  lemma {:induction false} AboveMember(feed: seq<Row>, cursor: nat, row: Row)
    ensures row in Above(feed, cursor) ==> row in feed
  {
    if feed != [] { AboveMember(feed[1..], cursor, row); }
  }

  lemma ServedPart(a: seq<Row>, b: seq<Row>, bodies: map<Key, Body>)
    requires Served(a + b, bodies)
    ensures Served(a, bodies) && Served(b, bodies)
  {
    assert forall i :: 0 <= i < |a| ==> (a + b)[i] == a[i];
    assert forall i :: 0 <= i < |b| ==> (a + b)[|a| + i] == b[i];
  }

  /** What the next page is, seen from the reader. */
  lemma NextPage(s: State, c: Cache, library: nat, acked: set<CacheKey>)
    requires Kept(s, c, library, acked)
    ensures var page, rows := ListPage(s, library, c.index.cursor, PAGE_LIMIT), Collected(s, c, library);
            && DistinctKeys(rows + page.items) && Served(page.items, s.bodies)
            && UpTo(Feed(s.rows, library), page.next) == rows + page.items
            && c.index.cursor <= page.next < s.next && (page.more ==> c.index.cursor < page.next)
  {
    hide Sound, Holds, Feed, UpTo, Above, ListPage, Served, DistinctKeys, Rising;
    var feed, rows := Feed(s.rows, library), Collected(s, c, library);
    var page := ListPage(s, library, c.index.cursor, PAGE_LIMIT);
    PageContinues(s, library, c.index.cursor, PAGE_LIMIT);
    PageWithin(s, library, c.index.cursor);
    RowsRise(s);
    KeysDiffer(s);
    FeedRises(s.rows, library);
    FeedDistinct(s.rows, library);
    FeedServed(s, library);
    SplitAt(feed, page.next);
    PrefixDistinct(rows + page.items, Above(feed, page.next));
    ServedPart(rows + page.items, Above(feed, page.next), s.bodies);
    ServedPart(rows, page.items, s.bodies);
  }

  /** ONE PAGE. Interrupted anywhere it leaves the cache of the rows below the old cursor; taken
      whole, of the rows below the new one. It is taken exactly when every body on it decodes
      and nothing interrupts, and "did not advance" is never the reason. */
  lemma PageTaken(s: State, c: Cache, library: nat, acked: set<CacheKey>, reach: nat)
    requires Kept(s, c, library, acked)
    ensures var page := ListPage(s, library, c.index.cursor, PAGE_LIMIT);
            var (after, taken) := TakePage(c, page, s.bodies, reach);
            && Kept(s, after, library, acked) && taken != Stalled
            && (taken.Advanced? <==> AllReadable(page.items) && reach > |page.items|)
            && (taken.Advanced? ==> after.index.cursor == page.next && taken.more == page.more)
            && (!taken.Advanced? ==> after.index == c.index)
  {
    hide Sound, Holds, ListPage, AllReadable;
    var page, rows := ListPage(s, library, c.index.cursor, PAGE_LIMIT), Collected(s, c, library);
    NextPage(s, c, library, acked);
    ThroughIff(c, page.items, s.bodies, reach);
    FailedHolds(c, rows, acked, page.items, s.bodies, reach);
    if Through(c, page.items, s.bodies, reach).1 {
      ThroughHolds(c, rows, acked, page.items, s.bodies, reach);
      CursorIsFree(Through(c, page.items, s.bodies, reach).0, rows + page.items, acked, page.next);
    }
  }

  lemma CursorIsFree(c: Cache, rows: seq<Row>, acked: set<CacheKey>, cursor: nat)
    requires Holds(c, rows, acked)
    ensures Holds(c.(index := c.index.(cursor := cursor)), rows, acked)
  {
  }

  lemma SameBehind<T>(front: seq<T>, a: seq<T>, b: seq<T>)
    requires front + a == front + b
    ensures a == b
  {
    assert |front + a| == |front + b|;
    forall i | 0 <= i < |a| ensures a[i] == b[i] { assert (front + a)[|front| + i] == (front + b)[|front| + i]; }
  }

  lemma PageSplits(s: State, library: nat, cursor: nat)
    requires Sound(s)
    ensures var page, feed := ListPage(s, library, cursor, PAGE_LIMIT), Feed(s.rows, library);
            && Above(feed, cursor) == page.items + Above(feed, page.next)
            && (AllReadable(Above(feed, cursor)) <==> AllReadable(page.items) && AllReadable(Above(feed, page.next)))
            && (page.items == [] ==> !page.more) && (!page.more ==> Above(feed, page.next) == [])
  {
    hide Sound, Feed, UpTo, Above, ListPage;
    var page, feed := ListPage(s, library, cursor, PAGE_LIMIT), Feed(s.rows, library);
    PageContinues(s, library, cursor, PAGE_LIMIT);
    RowsRise(s);
    FeedRises(s.rows, library);
    SplitAt(feed, cursor);
    SplitAt(feed, page.next);
    var front, rest := UpTo(feed, cursor), page.items + Above(feed, page.next);
    assert front + Above(feed, cursor) == front + rest;
    SameBehind(front, Above(feed, cursor), rest);
    ReadableParts(page.items, Above(feed, page.next));
  }

  lemma ReadableParts(a: seq<Row>, b: seq<Row>)
    ensures AllReadable(a + b) <==> AllReadable(a) && AllReadable(b)
  {
    assert forall i :: 0 <= i < |a| ==> (a + b)[i] == a[i];
    assert forall i :: 0 <= i < |b| ==> (a + b)[|a| + i] == b[i];
  }

  /** What the registry does before each page. */
  function Moved(s: State, moves: seq<seq<Event>>): State {
    if moves == [] then s else Run(Moved(s, moves[..|moves| - 1]), moves[|moves| - 1])
  }

  /** Rows committed later come after every cursor that was reached. */
  lemma {:induction false} LaterRows(s: State, events: seq<Event>)
    requires Sound(s)
    ensures var after := Run(s, events);
            && Sound(after) && Lasts(s, after)
            && forall i :: |s.rows| <= i < |after.rows| ==> after.rows[i].sequence >= s.next
  {
    hide Sound, Next, Grew;
    RunKeeps(s, events);
    RunLasts(s, events);
    if events != [] {
      var front, last := events[..|events| - 1], events[|events| - 1];
      LaterRows(s, front);
      var before := Run(s, front);
      if Next(before, last).0.rows != before.rows { CommitTimeAdmission(before, last); }
    }
  }

  /** The registry moved on: the reader's rows are still its rows, and what is unreadable above an
      earlier cursor is still what is unreadable above this one. */
  lemma MovesOnAhead(s: State, events: seq<Event>, c: Cache, library: nat, acked: set<CacheKey>, earlier: nat)
    requires Kept(s, c, library, acked) && earlier <= c.index.cursor
    requires AllReadable(Above(Feed(s.rows, library), earlier))
             <==> AllReadable(Above(Feed(s.rows, library), c.index.cursor))
    ensures var after := Run(s, events);
            && Kept(after, c, library, acked)
            && (AllReadable(Above(Feed(after.rows, library), earlier))
                <==> AllReadable(Above(Feed(after.rows, library), c.index.cursor)))
  {
    hide Sound, Holds, Feed, UpTo, Above, AllReadable, Run, Grew;
    var after := Run(s, events);
    LaterRows(s, events);
    NothingBehind(s, after, library, earlier);
    NothingBehind(s, after, library, c.index.cursor);
    var before, feed := Feed(s.rows, library), Feed(after.rows, library);
    ReadableParts(Above(before, earlier), feed[|before|..]);
    ReadableParts(Above(before, c.index.cursor), feed[|before|..]);
  }

  /** The page loop, with the registry moving before each page. It ends, and it ends with the whole
      feed exactly when every body that came above its cursor decodes. */
  method Download(host: HostCache, start: State, library: nat, moves: seq<seq<Event>>, ghost acked: set<CacheKey>)
    returns (s: State, pages: nat, done: bool)
    requires Kept(start, host.State(), library, acked)
    modifies host
    ensures pages <= |moves| && s == Moved(start, moves[..pages])
    ensures Kept(s, host.State(), library, acked)
    ensures done <==> AllReadable(Above(Feed(s.rows, library), old(host.index.cursor)))
    ensures done ==> Collected(s, host.State(), library) == Feed(s.rows, library)
  {
    hide Sound, Holds, ListPage, AllReadable, TakePage, Feed, UpTo, Above, Run;
    s, pages := start, 0;
    while true
      invariant pages <= |moves| && s == Moved(start, moves[..pages])
      invariant Kept(s, host.State(), library, acked) && old(host.index.cursor) <= host.index.cursor
      invariant AllReadable(Above(Feed(s.rows, library), old(host.index.cursor)))
                <==> AllReadable(Above(Feed(s.rows, library), host.index.cursor))
      decreases |moves| - pages, |Above(Feed(s.rows, library), host.index.cursor)|
    {
      if pages < |moves| {
        MovesOnAhead(s, moves[pages], host.State(), library, acked, old(host.index.cursor));
        assert moves[..pages + 1][..pages] == moves[..pages];
        s := Run(s, moves[pages]);
        pages := pages + 1;
      }
      var page := ListPage(s, library, host.index.cursor, PAGE_LIMIT);
      NextPage(s, host.State(), library, acked);
      PageTaken(s, host.State(), library, acked, |page.items| + 1);
      PageSplits(s, library, host.index.cursor);
      var taken := host.Take(page, s.bodies, |page.items| + 1);
      if !taken.Advanced? { return s, pages, false; }
      if !taken.more {
        NothingAbove(s, library, host.index.cursor);
        return s, pages, true;
      }
    }
  }

  lemma NothingAbove(s: State, library: nat, cursor: nat)
    requires Sound(s) && Above(Feed(s.rows, library), cursor) == []
    ensures UpTo(Feed(s.rows, library), cursor) == Feed(s.rows, library)
    ensures AllReadable(Above(Feed(s.rows, library), cursor))
  {
    hide Sound, Feed, UpTo, Above;
    RowsRise(s);
    FeedRises(s.rows, library);
    SplitAt(Feed(s.rows, library), cursor);
  }

  /** Commits interleaved with reading stay ahead of the cursor. */
  lemma CloudAhead(s: State, e: Event, c: Cache, library: nat, acked: set<CacheKey>)
    requires Kept(s, c, library, acked)
    ensures Kept(Next(s, e).0, c, library, acked)
  {
    hide Sound, Holds, Next, Grew;
    NextKeeps(s, e);
    NextLasts(s, e);
    if Next(s, e).0.rows != s.rows { CommitTimeAdmission(s, e); }
    NothingBehind(s, Next(s, e).0, library, c.index.cursor);
  }

  /* ---------------------------------------------------------------- the whole pipeline */

  predicate Whole(id: Identity, library: nat, w: World) {
    Recorded(id, w) && Kept(w.s, w.cache, library, w.acked)
  }

  /** A newly enrolled device, and a host that has read nothing. */
  predicate Begins(id: Identity, w: World) {
    && Sound(w.s) && Belongs(id, w.s)
    && (forall k :: k in w.s.uploads ==> k.device != id.device)
    && (forall r :: r in w.s.flights ==> w.s.flights[r].secret != id.secret)
    && w.p == Outbound(map[], []) && w.asked == map[] && w.queued == [] && w.held == {}
    && w.cache == Cache(Index(0, map[], []), map[]) && w.acked == {}
  }

  lemma BeginsWhole(id: Identity, library: nat, w: World)
    requires Begins(id, w)
    ensures Whole(id, library, w)
  {
    hide Sound, Feed, UpTo;
    RowsRise(w.s);
    SequencePositive(w.s);
    var feed := Feed(w.s.rows, library);
    forall i | 0 <= i < |feed| ensures feed[i].sequence > 0 { FeedMember(w.s.rows, library, feed[i]); }
    NoneUpTo(feed, 0);
  }

  lemma WholeStep(id: Identity, library: nat, w: World, step: Step)
    requires Whole(id, library, w) && Possible(id, w, step)
    ensures Whole(id, library, Go(id, library, w, step))
  {
    hide Recorded, Holds, Next, TakePage, Possible, Arrive, Sound;
    StepKeeps(id, library, w, step);
    match step
    case Collects(_) =>
    case Asks(r, i, terms) =>
      if i < |w.p.outbox| {
        var e := Arriving(r, id.secret, Some(w.p.outbox[i]));
        ArrivingIs(w.s, e);
        CloudAhead(w.s, e, w.cache, library, w.acked);
      }
    case Cloud(e, heard) => CloudAhead(w.s, e, w.cache, library, w.acked);
    case Unlinks(_) =>
    case Fetches(reach) => PageTaken(w.s, w.cache, library, w.acked, reach);
    case Releases(report) => ReleaseKeeps(w.s, w.cache, library, w.acked, report);
  }

  lemma ReleaseKeeps(s: State, c: Cache, library: nat, acked: set<CacheKey>, report: seq<Report>)
    requires Kept(s, c, library, acked)
    ensures Kept(s, Acknowledge(c, report), library, acked + Released(report) * KeysOf(Collected(s, c, library)))
  {
    hide Sound, Holds;
    AcknowledgeHolds(c, Collected(s, c, library), acked, report);
  }

  function Journey(id: Identity, library: nat, w: World, steps: seq<Step>): World {
    if steps == [] then w else Go(id, library, Journey(id, library, w, steps[..|steps| - 1]), steps[|steps| - 1])
  }

  predicate AllPossible(id: Identity, library: nat, w: World, steps: seq<Step>) {
    steps != [] ==>
      var front := steps[..|steps| - 1];
      AllPossible(id, library, w, front) && Possible(id, Journey(id, library, w, front), steps[|steps| - 1])
  }

  lemma {:induction false} WholeRuns(id: Identity, library: nat, w: World, steps: seq<Step>)
    requires Begins(id, w) && AllPossible(id, library, w, steps)
    ensures Whole(id, library, Journey(id, library, w, steps))
  {
    hide Begins, Whole, Go, Possible;
    if steps == [] {
      BeginsWhole(id, library, w);
    } else {
      var front := steps[..|steps| - 1];
      WholeRuns(id, library, w, front);
      WholeStep(id, library, Journey(id, library, w, front), steps[|steps| - 1]);
    }
  }

  /** END TO END. In every run, whatever the device recorded as sent is committed under its key
      with exactly those bytes; once the host's cursor has reached the row, exactly those bytes
      are on the host's disk, waiting there until they are acknowledged. */
  lemma SentArrives(id: Identity, w: World, sid: nat)
    requires Whole(id, id.library, w) && sid in w.p.sent
    ensures exists i :: 0 <= i < |w.s.rows|
              && (var row := w.s.rows[i];
                  && row.key == Key(id.library, id.device, sid) && row.upload.body == w.p.sent[sid]
                  && (row.sequence <= w.cache.index.cursor ==>
                        var k := CacheKey(id.device, sid);
                        && k in w.cache.objects && w.cache.objects[k] == w.p.sent[sid]
                        && (k in w.cache.index.pending || k in w.acked)))
  {
    hide Sound, NothingLost, OnlyQueued, Belongs;
    var body := w.p.sent[sid];
    assert HasRow(id, w.s, body);
    var i :| 0 <= i < |w.s.rows| && w.s.rows[i].key == Key(id.library, id.device, body.sid)
             && w.s.rows[i].upload.body == body;
    SentSid(w, sid);
    SentDevice(id, w, sid);
    if w.s.rows[i].sequence <= w.cache.index.cursor { RowOnHost(w.s, w.cache, id.library, w.acked, w.s.rows[i]); }
  }

  lemma SentSid(w: World, sid: nat)
    requires NothingLost(w.p, w.queued) && sid in w.p.sent
    ensures w.p.sent[sid].Material? && w.p.sent[sid].sid == sid && w.p.sent[sid] in w.queued
  {
  }

  lemma SentDevice(id: Identity, w: World, sid: nat)
    requires NothingLost(w.p, w.queued) && OnePayload(id, w.queued) && sid in w.p.sent
    ensures w.p.sent[sid].device == Some(id.device)
  {
    var i :| 0 <= i < |w.queued| && w.queued[i] == w.p.sent[sid];
  }

  /** Every committed row at or below the cursor is on disk, verified, and pending or
      acknowledged. */
  lemma RowOnHost(s: State, c: Cache, library: nat, acked: set<CacheKey>, row: Row)
    requires Kept(s, c, library, acked) && row in s.rows && row.key.library == library
    requires row.sequence <= c.index.cursor
    ensures OnDisk(row, c.objects) && (KeyOf(row) in c.index.pending || KeyOf(row) in acked)
    ensures row in Collected(s, c, library)
  {
    hide Sound;
    var feed := Feed(s.rows, library);
    FeedMember(s.rows, library, row);
    UpToMember(feed, c.index.cursor, row);
    var i :| 0 <= i < |Collected(s, c, library)| && Collected(s, c, library)[i] == row;
    WaitingMember(Collected(s, c, library), acked, KeyOf(row));
  }

  lemma {:induction false} UpToMember(feed: seq<Row>, cursor: nat, row: Row)
    ensures row in UpTo(feed, cursor) <==> row in feed && row.sequence <= cursor
  {
    if feed != [] {
      UpToMember(feed[1..], cursor, row);
      assert feed == [feed[0]] + feed[1..];
    }
  }
}
