/** Bodies the cloud accepts and the host's decoder refuses: what they do to the reader, who sends
    them, and a library without them. */
module Unreadable {
  import opened Readers
  import opened Protocol
  import opened Registry
  import opened RegistryRuns
  import opened Snapshots
  import opened HostFeed
  import opened Publisher
  import opened Delivery
  import opened EndToEnd

  /* ---------------------------------------------------------------- an unreadable body */

  /** The first row above the cursor is one the host's decoder refuses. */
  predicate Blocked(s: State, c: Cache, library: nat) {
    var rest := Above(Feed(s.rows, library), c.index.cursor);
    rest != [] && !Readable(rest[0])
  }

  lemma BlockedPage(s: State, c: Cache, library: nat)
    requires Blocked(s, c, library)
    ensures !AllReadable(ListPage(s, library, c.index.cursor, PAGE_LIMIT).items)
  {
    var items := ListPage(s, library, c.index.cursor, PAGE_LIMIT).items;
    assert items[0] == Above(Feed(s.rows, library), c.index.cursor)[0];
  }

  lemma StillBlocked(s: State, after: State, c: Cache, library: nat)
    requires Sound(s) && Sound(after) && s.rows <= after.rows && Blocked(s, c, library)
    ensures Blocked(after, c, library)
  {
    hide Sound;
    var before, feed := Feed(s.rows, library), Feed(after.rows, library);
    RowsRise(s);
    RowsRise(after);
    FeedGrows(s.rows, after.rows, library);
    FeedRises(after.rows, library);
    AboveFirst(before, feed, c.index.cursor);
  }

  lemma {:induction false} AboveFirst(before: seq<Row>, feed: seq<Row>, cursor: nat)
    requires before <= feed && Above(before, cursor) != []
    ensures Above(feed, cursor) != [] && Above(feed, cursor)[0] == Above(before, cursor)[0]
  {
    if before[0].sequence <= cursor {
      assert before[1..] <= feed[1..];
      AboveFirst(before[1..], feed[1..], cursor);
    }
  }

  lemma BlockedStep(id: Identity, library: nat, w: World, step: Step)
    requires Whole(id, library, w) && Possible(id, w, step) && Blocked(w.s, w.cache, library)
    ensures var after := Go(id, library, w, step);
            Blocked(after.s, after.cache, library) && after.cache.index.cursor == w.cache.index.cursor
  {
    hide Recorded, Holds, Next, TakePage, Possible, Arrive, Blocked, Grew, Sound;
    match step
    case Collects(_) =>
    case Asks(r, i, terms) =>
      if i < |w.p.outbox| {
        var e := Arriving(r, id.secret, Some(w.p.outbox[i]));
        ArrivingIs(w.s, e);
        NextKeeps(w.s, e);
        NextLasts(w.s, e);
        StillBlocked(w.s, Next(w.s, e).0, w.cache, library);
      }
    case Cloud(e, heard) =>
      NextKeeps(w.s, e);
      NextLasts(w.s, e);
      StillBlocked(w.s, Next(w.s, e).0, w.cache, library);
    case Unlinks(_) =>
    case Fetches(reach) =>
      PageTaken(w.s, w.cache, library, w.acked, reach);
      BlockedPage(w.s, w.cache, library);
      SameCursor(w.s, w.cache, Go(id, library, w, step).cache, library);
    case Releases(report) => SameCursor(w.s, w.cache, Acknowledge(w.cache, report), library);
  }

  lemma SameCursor(s: State, c: Cache, after: Cache, library: nat)
    requires Blocked(s, c, library) && after.index.cursor == c.index.cursor
    ensures Blocked(s, after, library)
  {
  }

  /** BLOCKED FOR GOOD. The cloud accepts bodies the host's decoder refuses. Once such a row is
      the next one, no later commit, retry or acknowledgement moves the cursor past it. */
  lemma {:induction false} BlockedForGood(id: Identity, library: nat, w: World, steps: seq<Step>)
    requires Whole(id, library, w) && AllPossible(id, library, w, steps) && Blocked(w.s, w.cache, library)
    ensures var after := Journey(id, library, w, steps);
            && Whole(id, library, after) && Blocked(after.s, after.cache, library)
            && after.cache.index.cursor == w.cache.index.cursor
  {
    hide Whole, Go, Possible, Blocked;
    if steps != [] {
      var front := steps[..|steps| - 1];
      BlockedForGood(id, library, w, front);
      WholeStep(id, library, Journey(id, library, w, front), steps[|steps| - 1]);
      BlockedStep(id, library, Journey(id, library, w, front), steps[|steps| - 1]);
    }
  }

  /* ---------------------------------------------------------------- where such bodies come from */

  /** This collector never sends one. */
  lemma OwnRowDecodes(id: Identity, w: World, row: Row)
    requires Delivery.Recorded(id, w) && row in w.s.rows && row.key.device == id.device
    ensures Readable(row)
  {
    hide NothingLost, HasRow, OnePayload, Decodes;
    RowFiled(w.s, row);
  }

  /** Every row of the library came from this collector's loop. */
  predicate OnlyCollected(id: Identity, s: State, library: nat) {
    forall row :: row in s.rows && row.key.library == library ==> row.key.device == id.device
  }

  /** NOTHING BLOCKS A LIBRARY OF COLLECTED BODIES: no row of it is unreadable, so every page is
      taken unless something interrupts it, and the page loop always ends with the whole feed. */
  lemma CollectedIsRead(id: Identity, library: nat, w: World, reach: nat)
    requires Whole(id, library, w) && OnlyCollected(id, w.s, library)
    ensures AllReadable(Feed(w.s.rows, library)) && AllReadable(Above(Feed(w.s.rows, library), w.cache.index.cursor))
    ensures !Blocked(w.s, w.cache, library)
    ensures var page := ListPage(w.s, library, w.cache.index.cursor, PAGE_LIMIT);
            TakePage(w.cache, page, w.s.bodies, reach).1.Advanced? <==> reach > |page.items|
  {
    hide Sound, Holds, ListPage, Feed, UpTo, Above, Delivery.Recorded, TakePage, Readable, Blocked;
    var feed, cursor := Feed(w.s.rows, library), w.cache.index.cursor;
    forall i | 0 <= i < |feed| ensures Readable(feed[i]) {
      FeedMember(w.s.rows, library, feed[i]);
      OwnRowDecodes(id, w, feed[i]);
    }
    RowsRise(w.s);
    FeedRises(w.s.rows, library);
    SplitAt(feed, cursor);
    ReadableParts(UpTo(feed, cursor), Above(feed, cursor));
    ReadableIsNotBlocked(w.s, w.cache, library);
    PageSplits(w.s, library, cursor);
    PageTaken(w.s, w.cache, library, w.acked, reach);
  }

  lemma ReadableIsNotBlocked(s: State, c: Cache, library: nat)
    ensures AllReadable(Above(Feed(s.rows, library), c.index.cursor)) ==> !Blocked(s, c, library)
  {
    hide Feed, Above, Readable;
  }

  /** One upload that nothing disturbs, from its arrival to its row. */
  function UploadEvents(r: nat, secret: nat, body: Body, now: int): seq<Event> {
    [Arriving(r, secret, Some(body)), Admitting(r, body, now), Resuming(r), Resuming(r), Resuming(r)]
  }

  predicate Acceptable(s: State, r: nat, secret: nat, body: Body) {
    && r !in s.flights && s.active < 2 && Known(s, secret, false).Given?
    && Takes(body) && body.size <= MAX_SNAPSHOT_BYTES
    && (var id := Known(s, secret, false).value;
        && OutOfScope(id, s.devices[id].policy, body) == None
        && Key(s.devices[id].library, id, body.sid) !in s.uploads)
  }

  lemma Unstored(s: State, key: Key)
    requires Sound(s) && key !in s.uploads
    ensures key !in s.bodies && key !in s.manifests && Committed(s.rows, key).None?
  {
  }

  lemma FiveSteps(s: State, events: seq<Event>)
    requires |events| == 5
    ensures Run(s, events)
            == Next(Next(Next(Next(Next(s, events[0]).0, events[1]).0, events[2]).0, events[3]).0, events[4]).0
  {
    assert events[..4][..3] == events[..3] && events[..3][..2] == events[..2] && events[..2][..1] == events[..1];
    assert events[..1][..0] == [] && Run(s, events[..1]) == Next(s, events[0]).0;
    assert Run(s, events[..2]) == Next(Next(s, events[0]).0, events[1]).0;
    assert Run(s, events[..3]) == Next(Run(s, events[..2]), events[2]).0;
    assert Run(s, events[..4]) == Next(Run(s, events[..3]), events[3]).0;
  }

  /** The request once the uploads transaction took it. */
  function Taken(s: State, r: nat, secret: nat, body: Body, now: int): State
    requires Acceptable(s, r, secret, body)
  {
    var id := Known(s, secret, false).value;
    var key, upload := Key(s.devices[id].library, id, body.sid), Upload(body.stream, body, now);
    s.(uploads := s.uploads[key := upload], active := s.active + 1,
       flights := s.flights[r := Storing(secret, key, body, upload, PuttingBody)])
  }

  lemma UploadTaken(s: State, r: nat, secret: nat, body: Body, now: int)
    requires Sound(s) && Acceptable(s, r, secret, body)
    ensures Next(Next(s, Arriving(r, secret, Some(body))).0, Admitting(r, body, now)).0
            == Taken(s, r, secret, body, now)
  {
    hide Sound, OutOfScope, Committed, Admit, Text;
    var id := Known(s, secret, false).value;
    Unstored(s, Key(s.devices[id].library, id, body.sid));
    var s1 := s.(flights := s.flights[r := Reading(secret, body)], active := s.active + 1);
    assert Next(s, Arriving(r, secret, Some(body))).0 == s1;
    assert Known(s1, secret, false) == Known(s, secret, false);
    AdmitCases(s1, r, body, now);
    assert s1.flights[r := Taken(s, r, secret, body, now).flights[r]] == Taken(s, r, secret, body, now).flights;
  }

  lemma UploadStored(s: State, r: nat, f: Flight)
    requires r in s.flights && s.flights[r] == f && f.Storing? && f.stage == PuttingBody && f.body.Material?
    requires f.key !in s.bodies && f.key !in s.manifests && Committed(s.rows, f.key).None?
    requires Known(s, f.secret, false).Given?
    requires var id := Known(s, f.secret, false).value; OutOfScope(id, s.devices[id].policy, f.body) == None
    ensures var third := Next(Next(Next(s, Resuming(r)).0, Resuming(r)).0, Resuming(r));
            && third.0.rows == s.rows + [Row(s.next, f.key, f.upload)]
            && third.1 == Some(Stored(Row(s.next, f.key, f.upload), false))
    ensures Next(s, Resuming(r)).1 == None && Next(Next(s, Resuming(r)).0, Resuming(r)).1 == None
  {
    hide OutOfScope, Committed;
    var g, h := f.(stage := PuttingManifest), f.(stage := Committing);
    var s3 := s.(bodies := s.bodies[f.key := f.body], flights := s.flights[r := g]);
    assert Next(s, Resuming(r)).0 == s3;
    var s4 := s3.(manifests := s.manifests[f.key := f.upload], flights := s3.flights[r := h]);
    assert Next(s3, Resuming(r)).0 == s4;
  }

  /** The cloud commits whatever its policy admits; it decodes nothing. */
  lemma UploadCommits(s: State, r: nat, secret: nat, body: Body, now: int)
    requires Sound(s) && Acceptable(s, r, secret, body)
    ensures var id := Known(s, secret, false).value;
            Run(s, UploadEvents(r, secret, body, now)).rows
            == s.rows + [Row(s.next, Key(s.devices[id].library, id, body.sid), Upload(body.stream, body, now))]
  {
    hide Sound, OutOfScope, Committed, Next, Run;
    var id := Known(s, secret, false).value;
    Unstored(s, Key(s.devices[id].library, id, body.sid));
    FiveSteps(s, UploadEvents(r, secret, body, now));
    UploadTaken(s, r, secret, body, now);
    var taken := Taken(s, r, secret, body, now);
    UploadStored(taken, r, taken.flights[r]);
  }

  function CloudSteps(events: seq<Event>): (steps: seq<Step>)
    ensures |steps| == |events|
  {
    seq(|events|, i requires 0 <= i < |events| => Cloud(events[i], false))
  }

  /** What others do at the cloud passes the device by. */
  lemma {:induction false} OthersMove(id: Identity, library: nat, w: World, events: seq<Event>)
    requires forall e :: e in events ==> (Requester(e).Some? ==> Requester(e).value !in w.asked)
    requires forall e :: e in events && e.Arriving? ==> e.secret != id.secret && e.r !in w.asked
    ensures Journey(id, library, w, CloudSteps(events)) == w.(s := Run(w.s, events))
    ensures AllPossible(id, library, w, CloudSteps(events))
  {
    hide Next;
    var steps := CloudSteps(events);
    if events != [] {
      var front, last := events[..|events| - 1], events[|events| - 1];
      assert steps[..|steps| - 1] == CloudSteps(front);
      OthersMove(id, library, w, front);
      assert last in events;
    }
  }

  lemma {:induction false} AboveSnoc(feed: seq<Row>, row: Row, cursor: nat)
    requires row.sequence > cursor && Above(feed, cursor) == []
    ensures Above(feed + [row], cursor) == [row]
  {
    if feed != [] {
      AboveSnoc(feed[1..], row, cursor);
      assert (feed + [row])[1..] == feed[1..] + [row];
    }
  }

  /** IT IS REACHABLE: when the reader has caught up, one upload of an active device that does not
      run this collector, with a body its policy admits and no decoder accepts, blocks it. */
  lemma UnreadableBlocks(id: Identity, library: nat, w: World, r: nat, secret: nat, body: Body, now: int)
    requires Whole(id, library, w) && Acceptable(w.s, r, secret, body) && !Decodes(body)
    requires secret != id.secret && r !in w.asked
    requires w.s.devices[Known(w.s, secret, false).value].library == library
    requires Above(Feed(w.s.rows, library), w.cache.index.cursor) == []
    ensures var steps := CloudSteps(UploadEvents(r, secret, body, now));
            && AllPossible(id, library, w, steps)
            && (var after := Journey(id, library, w, steps); Blocked(after.s, after.cache, library))
  {
    hide Holds, Sound, Run, Delivery.Recorded, AllPossible, Journey, Decodes;
    var events := UploadEvents(r, secret, body, now);
    OthersMove(id, library, w, events);
    UploadCommits(w.s, r, secret, body, now);
    var d := Known(w.s, secret, false).value;
    var row := Row(w.s.next, Key(w.s.devices[d].library, d, body.sid), Upload(body.stream, body, now));
    var rows := w.s.rows + [row];
    assert rows[..|rows| - 1] == w.s.rows;
    AboveSnoc(Feed(w.s.rows, library), row, w.cache.index.cursor);
  }

  /* ---------------------------------------------------------------- a concrete run */

  const OPEN: Policy := Policy({0}, None, None)

  /** A turn that is not one, under ids that are the digests of what surrounds it. */
  const UNREADABLE: Body := Material(7, 1, 0, "s", "", None, [Broken(None)], 1, 7, 1, 0)

  function Enrolments(): seq<Event> {
    [Inviting(1, 1, 0, OPEN, 0), Enrolling(1, 1, 1, 0), Inviting(2, 2, 0, OPEN, 0), Enrolling(2, 2, 2, 0), Restarting]
  }

  lemma TwoDevices()
    ensures var s := Run(EMPTY, Enrolments());
            && s.devices == map[1 := Device(1, 0, OPEN, Active), 2 := Device(2, 0, OPEN, Active)]
            && s.secrets == map[1 := 1, 2 := 2] && s.uploads == map[] && s.flights == map[] && s.rows == []
            && s.next == 1 && s.active == 0
  {
    FiveSteps(EMPTY, Enrolments());
    Joins(EMPTY, 1);
    var joined := Next(Next(EMPTY, Inviting(1, 1, 0, OPEN, 0)).0, Enrolling(1, 1, 1, 0)).0;
    Joins(joined, 2);
    assert map[1 := Device(1, 0, OPEN, Active)][2 := Device(2, 0, OPEN, Active)]
           == map[1 := Device(1, 0, OPEN, Active), 2 := Device(2, 0, OPEN, Active)];
    assert map[1 := 1][2 := 2] == map[1 := 1, 2 := 2];
  }

  /** A device is invited under a new token and enrols at once. */
  lemma Joins(s: State, n: nat)
    requires n !in s.invitations && n !in s.devices && n !in s.secrets
    requires forall t :: t in s.invitations ==> s.invitations[t].id != n
    ensures var after := Next(Next(s, Inviting(n, n, 0, OPEN, 0)).0, Enrolling(n, n, n, 0)).0;
            && after == s.(invitations := after.invitations, devices := s.devices[n := Device(n, 0, OPEN, Active)],
                           secrets := s.secrets[n := n])
            && after.invitations.Keys == s.invitations.Keys + {n}
            && forall t :: t in after.invitations ==>
                 after.invitations[t].id == if t in s.invitations then s.invitations[t].id else n
  {
    var invited := s.(invitations := s.invitations[n := Invitation(n, 0, OPEN, INVITATION_TTL_MS, false, None)]);
    assert Next(s, Inviting(n, n, 0, OPEN, 0)).0 == invited;
  }

  /** BLOCKED, from the beginning: two devices enrol, and the second uploads a body no decoder
      accepts before the host reads its first page. */
  lemma BlockedHappens()
    ensures exists id: Identity, w: World, steps: seq<Step> ::
              && Begins(id, w) && w.s == Run(EMPTY, Enrolments()) && AllPossible(id, 0, w, steps)
              && Blocked(Journey(id, 0, w, steps).s, Journey(id, 0, w, steps).cache, 0)
  {
    hide Sound, Run, Holds, Delivery.Recorded, AllPossible, Journey, Blocked, Above, Feed;
    var id, s := Identity(1, 1, 0), Run(EMPTY, Enrolments());
    TwoDevices();
    SoundRuns(Enrolments());
    var w := World(s, Outbound(map[], []), map[], [], {}, Cache(Index(0, map[], []), map[]), {});
    assert Begins(id, w);
    BeginsWhole(id, 0, w);
    assert Known(s, 2, false) == Given(2);
    assert !Decodes(UNREADABLE) by { assert !WellFormed(UNREADABLE.turns[0]); }
    EmptyFeed(s);
    UnreadableBlocks(id, 0, w, 5, 2, UNREADABLE, 0);
  }

  lemma EmptyFeed(s: State)
    requires s.rows == []
    ensures Above(Feed(s.rows, 0), 0) == []
  {
  }
}
