/** What holds of the registry over whole runs: no upload conflicts once accepted, admission at
    commit time, revocation for good, invitations claimed once, and a feed that misses nothing. */
module RegistryRuns {
  import opened Readers
  import opened Protocol
  import opened Registry

  /* ---------------------------------------------------------------- after acceptance */

  /** Once the uploads transaction accepted a request, neither conflict arm can be taken,
      whatever ran in between. */
  lemma NoConflictAfterAcceptance(s: State, r: nat)
    requires Sound(s) && r in s.flights && s.flights[r].Storing?
    ensures Resume(s, r).1 != Some(Denied(SnapshotConflict)) && Resume(s, r).1 != Some(Denied(ManifestConflict))
  {
    hide Indexed, Claims, Filed, Backed, Ordered, Committed, Effect, Counted;
    FlightUnderway(s, r);
  }

  /** An upload conflicts exactly when its device already used the id for other bytes. */
  lemma ConflictIff(s: State, r: nat, body: Body, now: int)
    requires Sound(s) && r in s.flights && s.flights[r].Reading? && s.flights[r].claimed == body
    requires body.Material? && body.size <= MAX_SNAPSHOT_BYTES && Known(s, s.flights[r].secret, false).Given?
    requires var id := Known(s, s.flights[r].secret, false).value; OutOfScope(id, s.devices[id].policy, body).None?
    ensures var id := Known(s, s.flights[r].secret, false).value;
            Admit(s, r, body, now).1 == Some(Denied(SnapshotConflict))
            <==> Takes(body) && exists k :: k in s.uploads && k.device == id && k.sid == body.sid
                                            && s.uploads[k].body != body
  {
    var id := Known(s, s.flights[r].secret, false).value;
    var key := Key(s.devices[id].library, id, body.sid);
    forall k | k in s.uploads && k.device == id && k.sid == body.sid ensures k == key { FiledUnder(s, k); }
  }

  lemma FiledUnder(s: State, k: Key)
    requires Sound(s) && k in s.uploads
    ensures k.device in s.devices && k.library == s.devices[k.device].library
  {
  }

  /* ---------------------------------------------------------------- the feed only grows */

  /** What any step leaves in place: devices keep their secret and library, uploads and objects
      keep their bytes, rows are only appended. */
  predicate Lasts(s: State, after: State) {
    Grew(s, after) && s.rows <= after.rows && s.next <= after.next
  }

  lemma LastsItself(s: State)
    ensures Lasts(s, s)
  {
  }

  lemma LastsOn(a: State, b: State, c: State)
    requires Lasts(a, b) && Lasts(b, c)
    ensures Lasts(a, c)
  {
  }

  lemma GrewSame(s: State, after: State)
    requires after.uploads == s.uploads && after.bodies == s.bodies && after.manifests == s.manifests
    requires after.devices == s.devices
    ensures Grew(s, after)
  {
  }

  /** Everything but the parts a flight relies on may differ. */
  lemma GrewAs(s: State, like: State, after: State)
    requires Grew(s, like) && after.uploads == like.uploads && after.bodies == like.bodies
    requires after.manifests == like.manifests && after.devices == like.devices
    ensures Grew(s, after)
  {
  }

  lemma AdmitLasts(s: State, r: nat, body: Body, now: int)
    ensures Lasts(s, Admit(s, r, body, now).0)
  {
    hide Admit, Transact, Takes, Known, OutOfScope, Grew;
    AdmitCases(s, r, body, now);
    if Transacts(s, r, body) {
      TransactLasts(s, r, Known(s, s.flights[r].secret, false).value, body, now);
    } else {
      GrewSame(s, Admit(s, r, body, now).0);
    }
  }

  lemma TransactLasts(s: State, r: nat, id: nat, body: Body, now: int)
    requires r in s.flights && id in s.devices && body.Material?
    ensures Lasts(s, Transact(s, r, id, body, now).0)
  {
    hide Grew, Committed;
    var after := Transact(s, r, id, body, now).0;
    if after.uploads == s.uploads {
      GrewSame(s, after);
    } else {
      var key := Key(s.devices[id].library, id, body.sid);
      MoreUploads(s, key, if key in s.uploads then s.uploads[key] else Upload(body.stream, body, now));
      GrewAs(s, s.(uploads := after.uploads), after);
    }
  }

  predicate AwaitsStore(s: State, r: nat) {
    r in s.flights && s.flights[r].Storing? && s.flights[r].body.Material?
  }

  lemma ResumePuts(s: State, r: nat)
    requires AwaitsStore(s, r) && (s.flights[r].stage == PuttingBody || s.flights[r].stage == PuttingManifest)
    ensures SameTables(Effect(s, s.flights[r]), Resume(s, r).0)
  {
    hide Effect, Onward;
  }

  lemma ResumeChecks(s: State, r: nat)
    requires AwaitsStore(s, r) && (s.flights[r].stage == CheckingBody || s.flights[r].stage == CheckingManifest)
    ensures SameTables(s, Resume(s, r).0)
  {
    hide Deny, Onward;
  }

  /** A segment stores exactly what the object store did for it, and only a commit adds rows. */
  lemma ResumeStores(s: State, r: nat)
    ensures var after := Resume(s, r).0;
            if AwaitsStore(s, r) then
              && after.bodies == Effect(s, s.flights[r]).bodies && after.manifests == Effect(s, s.flights[r]).manifests
              && s.rows <= after.rows && s.next <= after.next
            else after == s
  {
    if AwaitsStore(s, r) {
      var f := s.flights[r];
      EffectIdle(s, f);
      CommitAppends(s, r, f);
      if f.stage == Committing {
        assert Resume(s, r) == Commit(s, r, f);
      } else if f.stage == PuttingBody || f.stage == PuttingManifest {
        ResumePuts(s, r);
      } else {
        ResumeChecks(s, r);
      }
      hide Resume, Effect, Commit;
    }
  }

  lemma EffectIdle(s: State, f: Flight)
    requires f.Storing?
    ensures f.stage != PuttingBody && f.stage != PuttingManifest ==> Effect(s, f) == s
  {
  }

  lemma CommitAppends(s: State, r: nat, f: Flight)
    requires f.Storing? && f.body.Material?
    ensures s.rows <= Commit(s, r, f).0.rows && s.next <= Commit(s, r, f).0.next
  {
  }

  lemma ResumeLasts(s: State, r: nat)
    ensures Lasts(s, Resume(s, r).0)
  {
    hide Grew, Effect, Resume;
    ResumeStores(s, r);
    if AwaitsStore(s, r) {
      EffectGrows(s, s.flights[r]);
      GrewAs(s, Effect(s, s.flights[r]), Resume(s, r).0);
    } else {
      GrewSame(s, s);
    }
  }

  lemma BreakLasts(s: State, r: nat, acted: bool)
    ensures Lasts(s, Break(s, r, acted).0)
  {
    hide Grew, Effect;
    var after := Break(s, r, acted).0;
    if r in s.flights && s.flights[r].Storing? && acted {
      EffectGrows(s, s.flights[r]);
      GrewAs(s, Effect(s, s.flights[r]), after);
    } else {
      GrewSame(s, after);
    }
  }

  lemma DeviceGrew(s: State, id: nat, device: Device, after: State)
    requires id in s.devices ==> device.secret == s.devices[id].secret && device.library == s.devices[id].library
    requires after.uploads == s.uploads && after.bodies == s.bodies && after.manifests == s.manifests
    requires after.devices == s.devices[id := device]
    ensures Grew(s, after)
  {
  }

  lemma EnrollLasts(s: State, token: nat, id: nat, secret: nat, now: int)
    ensures Lasts(s, Enroll(s, token, id, secret, now).0)
  {
    hide Grew;
    var after := Enroll(s, token, id, secret, now).0;
    if after == s { GrewSame(s, after); } else { DeviceGrew(s, id, after.devices[id], after); }
  }

  lemma UpdateLasts(s: State, library: nat, id: nat, standing: Standing, change: Option<Policy>)
    ensures Lasts(s, UpdateDevice(s, library, id, standing, change).0)
  {
    hide Grew;
    var after := UpdateDevice(s, library, id, standing, change).0;
    if after == s { GrewSame(s, after); } else { DeviceGrew(s, id, after.devices[id], after); }
  }

  lemma NextLasts(s: State, e: Event)
    ensures Lasts(s, Next(s, e).0)
  {
    hide Grew, Admit, Resume, Break, Enroll, UpdateDevice, Known;
    match e
    case Admitting(r, body, now) => AdmitLasts(s, r, body, now);
    case Resuming(r) => ResumeLasts(s, r);
    case Breaking(r, acted) => BreakLasts(s, r, acted);
    case Enrolling(token, id, secret, now) => EnrollLasts(s, token, id, secret, now);
    case Updating(library, id, standing, change) => UpdateLasts(s, library, id, standing, change);
    case _ => GrewSame(s, Next(s, e).0);
  }

  lemma {:induction false} RunLasts(s: State, events: seq<Event>)
    ensures Lasts(s, Run(s, events))
  {
    hide Lasts;
    if events == [] {
      LastsItself(s);
    } else {
      var front := events[..|events| - 1];
      RunLasts(s, front);
      NextLasts(Run(s, front), events[|events| - 1]);
      LastsOn(s, Run(s, front), Run(s, events));
    }
  }

  lemma {:induction false} RunKeeps(s: State, events: seq<Event>)
    requires Sound(s)
    ensures Sound(Run(s, events))
  {
    hide Sound;
    if events != [] {
      RunKeeps(s, events[..|events| - 1]);
      NextKeeps(Run(s, events[..|events| - 1]), events[|events| - 1]);
    }
  }

  /** Whatever a row committed stays readable, byte for byte, in every continuation. */
  lemma CommittedForGood(s: State, events: seq<Event>, i: nat)
    requires Sound(s) && i < |s.rows|
    ensures var after := Run(s, events);
            && i < |after.rows| && after.rows[i] == s.rows[i]
            && s.rows[i].key in after.bodies && after.bodies[s.rows[i].key] == s.rows[i].upload.body
            && s.rows[i].key in after.manifests && after.manifests[s.rows[i].key] == s.rows[i].upload
  {
    RunKeeps(s, events);
    RunLasts(s, events);
    RowStored(Run(s, events), i);
  }

  lemma RowStored(s: State, i: nat)
    requires Sound(s) && i < |s.rows|
    ensures var row := s.rows[i];
            && row.key in s.bodies && s.bodies[row.key] == row.upload.body
            && row.key in s.manifests && s.manifests[row.key] == row.upload
  {
  }

  /* ---------------------------------------------------------------- admission at commit time */

  /** A row is added only in a state where its device is active and the policy then in force
      admits the bytes, whatever the awaits since the first check let happen. */
  lemma CommitTimeAdmission(s: State, e: Event)
    requires Sound(s) && Next(s, e).0.rows != s.rows
    ensures |Next(s, e).0.rows| == |s.rows| + 1 && s.rows <= Next(s, e).0.rows
    ensures var row := Next(s, e).0.rows[|s.rows|];
            && row.sequence == s.next
            && row.key.device in s.devices && s.devices[row.key.device].standing == Active
            && s.devices[row.key.device].library == row.key.library
            && row.upload.body.Material?
            && OutOfScope(row.key.device, s.devices[row.key.device].policy, row.upload.body) == None
            && Next(s, e).1 == Some(Stored(row, false))
  {
    hide Admit, Arrive, Break, Invite, Withdraw, Enroll, UpdateDevice, OutOfScope;
    OnlyResumeCommits(s, e);
    var r := e.r;
    FlightUnderway(s, r);
    var f := s.flights[r];
    SecretOpens(s, f.key.device, f.secret);
    FiledUnder(s, f.key);
    var row := Row(s.next, f.key, f.upload);
    assert Next(s, e).0.rows == s.rows + [row];
  }

  lemma SecretOpens(s: State, d: nat, secret: nat)
    requires Sound(s) && d in s.devices && s.devices[d].secret == secret
    ensures Known(s, secret, false).Given? ==> Known(s, secret, false).value == d
  {
  }

  lemma OnlyResumeCommits(s: State, e: Event)
    requires Sound(s) && Next(s, e).0.rows != s.rows
    ensures e.Resuming? && e.r in s.flights && s.flights[e.r].Storing? && s.flights[e.r].stage == Committing
    ensures s.flights[e.r].body.Material? && Known(s, s.flights[e.r].secret, false).Given?
    ensures var f := s.flights[e.r]; var id := Known(s, f.secret, false).value;
            OutOfScope(id, s.devices[id].policy, f.body).None? && Committed(s.rows, f.key).None?
  {
    hide Sound, Admit, Takes, Known, OutOfScope, Committed, Effect;
  }

  /* ---------------------------------------------------------------- revocation */

  function RowsOf(rows: seq<Row>, device: nat): seq<Row> {
    if rows == [] then []
    else RowsOf(rows[..|rows| - 1], device)
         + if rows[|rows| - 1].key.device == device then [rows[|rows| - 1]] else []
  }

  lemma RevokedStep(s: State, e: Event, d: nat)
    requires Sound(s) && d in s.devices && s.devices[d].standing == Revoked
    ensures d in Next(s, e).0.devices && Next(s, e).0.devices[d].standing == Revoked
    ensures RowsOf(Next(s, e).0.rows, d) == RowsOf(s.rows, d)
  {
    hide Next, OutOfScope, Sound;
    StandingStep(s, e, d);
    if Next(s, e).0.rows != s.rows {
      CommitTimeAdmission(s, e);
      var rows := Next(s, e).0.rows;
      assert rows[..|rows| - 1] == s.rows;
    }
  }

  lemma StandingStep(s: State, e: Event, d: nat)
    requires d in s.devices && s.devices[d].standing == Revoked
    ensures d in Next(s, e).0.devices && Next(s, e).0.devices[d].standing == Revoked
  {
  }

  /** REVOCATION IS FOR GOOD: in every continuation the device stays revoked and its rows stay
      what they were, even the uploads that were under way. */
  lemma {:induction false} RevokedForGood(s: State, events: seq<Event>, d: nat)
    requires Sound(s) && d in s.devices && s.devices[d].standing == Revoked
    ensures var after := Run(s, events);
            d in after.devices && after.devices[d].standing == Revoked && RowsOf(after.rows, d) == RowsOf(s.rows, d)
  {
    if events != [] {
      var front := events[..|events| - 1];
      RevokedForGood(s, front, d);
      RunKeeps(s, front);
      RevokedStep(Run(s, front), events[|events| - 1], d);
    }
  }

  /* ---------------------------------------------------------------- enrolment */

  lemma ClaimStep(s: State, e: Event, token: nat)
    requires token in s.invitations && s.invitations[token].device.Some?
    ensures token in Next(s, e).0.invitations
            && Next(s, e).0.invitations[token].device == s.invitations[token].device
  {
  }

  /** An invitation's device never changes after the first claim. */
  lemma {:induction false} ClaimedOnce(s: State, events: seq<Event>, token: nat)
    requires token in s.invitations && s.invitations[token].device.Some?
    ensures token in Run(s, events).invitations
            && Run(s, events).invitations[token].device == s.invitations[token].device
  {
    if events != [] {
      ClaimedOnce(s, events[..|events| - 1], token);
      ClaimStep(Run(s, events[..|events| - 1]), events[|events| - 1], token);
    }
  }

  /** A claimed invitation answers nobody else. */
  lemma ClaimedForOthers(s: State, token: nat, id: nat, secret: nat, now: int)
    requires token in s.invitations && s.invitations[token].device.Some?
    requires s.invitations[token].device.value in s.devices
    ensures var d := s.invitations[token].device.value;
            Enroll(s, token, id, secret, now).0 == s
            && (Enroll(s, token, id, secret, now).1.value.Enrolled? ==> id == d && secret == s.devices[d].secret)
  {
  }

  /* ---------------------------------------------------------------- the feed */

  /** One library's rows, in order. */
  function Feed(rows: seq<Row>, library: nat): (feed: seq<Row>) {
    if rows == [] then []
    else Feed(rows[..|rows| - 1], library)
         + if rows[|rows| - 1].key.library == library then [rows[|rows| - 1]] else []
  }

  function Above(feed: seq<Row>, cursor: nat): seq<Row> {
    if feed == [] then []
    else (if feed[0].sequence > cursor then [feed[0]] else []) + Above(feed[1..], cursor)
  }

  function UpTo(feed: seq<Row>, cursor: nat): seq<Row> {
    if feed == [] then []
    else (if feed[0].sequence <= cursor then [feed[0]] else []) + UpTo(feed[1..], cursor)
  }

  predicate Rising(feed: seq<Row>) {
    forall i, j :: 0 <= i < j < |feed| ==> feed[i].sequence < feed[j].sequence
  }

  datatype Page = Page(items: seq<Row>, next: nat, more: bool)

  /** The listing: one row more than asked for tells whether there is more. */
  function ListPage(s: State, library: nat, cursor: nat, limit: nat): Page
    requires 0 < limit <= 100
  {
    var found := Above(Feed(s.rows, library), cursor);
    var rows := if |found| > limit + 1 then found[..limit + 1] else found;
    var items := if |rows| > limit then rows[..limit] else rows;
    Page(items, if items != [] then items[|items| - 1].sequence else cursor, |rows| > limit)
  }

  lemma {:induction false} FeedMember(rows: seq<Row>, library: nat, row: Row)
    ensures row in Feed(rows, library) <==> row in rows && row.key.library == library
  {
    if rows != [] {
      FeedMember(rows[..|rows| - 1], library, row);
      assert rows == rows[..|rows| - 1] + [rows[|rows| - 1]];
    }
  }

  lemma {:induction false} FeedRises(rows: seq<Row>, library: nat)
    requires Rising(rows)
    ensures Rising(Feed(rows, library))
  {
    if rows != [] {
      var front := rows[..|rows| - 1];
      FeedRises(front, library);
      var feed := Feed(front, library);
      forall i | 0 <= i < |feed| ensures feed[i].sequence < rows[|rows| - 1].sequence {
        FeedMember(front, library, feed[i]);
        var j :| 0 <= j < |front| && front[j] == feed[i];
        assert rows[j] == feed[i];
      }
    }
  }

  /** The feed of more rows continues the feed of fewer. */
  lemma {:induction false} FeedGrows(rows: seq<Row>, more: seq<Row>, library: nat)
    requires rows <= more
    ensures Feed(rows, library) <= Feed(more, library)
    decreases |more|
  {
    if |rows| == |more| {
      assert rows == more;
    } else {
      var front := more[..|more| - 1];
      assert rows <= front;
      FeedGrows(rows, front, library);
      assert Feed(front, library) <= Feed(more, library);
    }
  }

  lemma {:induction false} Sides(feed: seq<Row>, cursor: nat)
    ensures forall row :: row in Above(feed, cursor) ==> row.sequence > cursor
    ensures forall row :: row in UpTo(feed, cursor) ==> row.sequence <= cursor
  {
    if feed != [] { Sides(feed[1..], cursor); }
  }

  lemma RestRises(feed: seq<Row>)
    requires Rising(feed) && feed != []
    ensures Rising(feed[1..]) && forall i :: 0 <= i < |feed| ==> feed[0].sequence <= feed[i].sequence
  {
  }

  lemma JoinHead(feed: seq<Row>, front: seq<Row>, back: seq<Row>)
    requires feed != [] && front + back == feed[1..]
    ensures ([feed[0]] + front) + back == feed
  {
    assert feed == [feed[0]] + feed[1..];
  }

  lemma {:induction false} SplitAt(feed: seq<Row>, cursor: nat)
    requires Rising(feed)
    ensures UpTo(feed, cursor) + Above(feed, cursor) == feed
  {
    hide Rising;
    if feed != [] {
      RestRises(feed);
      if feed[0].sequence > cursor {
        NoneUpTo(feed, cursor);
      } else {
        hide UpTo, Above;
        SplitAt(feed[1..], cursor);
        HeadUpTo(feed, cursor);
        JoinHead(feed, UpTo(feed[1..], cursor), Above(feed[1..], cursor));
      }
    }
  }

  lemma HeadUpTo(feed: seq<Row>, cursor: nat)
    requires feed != [] && feed[0].sequence <= cursor
    ensures UpTo(feed, cursor) == [feed[0]] + UpTo(feed[1..], cursor)
    ensures Above(feed, cursor) == Above(feed[1..], cursor)
  {
  }

  lemma {:induction false} NoneUpTo(feed: seq<Row>, cursor: nat)
    requires forall i :: 0 <= i < |feed| ==> feed[i].sequence > cursor
    ensures UpTo(feed, cursor) == [] && Above(feed, cursor) == feed
  {
    if feed != [] { NoneUpTo(feed[1..], cursor); }
  }

  /** Cutting a rising feed at any place decides both halves. */
  lemma {:induction false} CutAt(front: seq<Row>, back: seq<Row>, cursor: nat)
    requires forall i :: 0 <= i < |front| ==> front[i].sequence <= cursor
    requires forall i :: 0 <= i < |back| ==> back[i].sequence > cursor
    ensures UpTo(front + back, cursor) == front && Above(front + back, cursor) == back
  {
    if front == [] {
      assert front + back == back;
      NoneUpTo(back, cursor);
    } else {
      CutAt(front[1..], back, cursor);
      assert (front + back)[1..] == front[1..] + back;
    }
  }

  /** A page continues exactly where the cursor stood, and the next cursor is exactly its end. */
  lemma PageContinues(s: State, library: nat, cursor: nat, limit: nat)
    requires Sound(s) && 0 < limit <= 100
    ensures var feed, page := Feed(s.rows, library), ListPage(s, library, cursor, limit);
            && UpTo(feed, page.next) == UpTo(feed, cursor) + page.items
            && cursor <= page.next && (page.items != [] ==> cursor < page.next)
            && (page.more ==> |page.items| == limit && cursor < page.next)
            && (!page.more ==> Above(feed, page.next) == [])
  {
    hide Sound, UpTo, Above, Feed, Rising;
    RowsRise(s);
    var feed, page := Feed(s.rows, library), ListPage(s, library, cursor, limit);
    FeedRises(s.rows, library);
    SplitAt(feed, cursor);
    Sides(feed, cursor);
    var found := Above(feed, cursor);
    var left := found[|page.items|..];
    assert found == page.items + left;
    assert feed == (UpTo(feed, cursor) + page.items) + left;
    if page.items != [] { PageEnds(feed, UpTo(feed, cursor), page.items, left, page.next); }
    CutAt(UpTo(feed, cursor) + page.items, left, page.next);
  }

  lemma PageEnds(feed: seq<Row>, front: seq<Row>, items: seq<Row>, left: seq<Row>, next: nat)
    requires Rising(feed) && feed == (front + items) + left && items != [] && next == items[|items| - 1].sequence
    ensures forall i :: 0 <= i < |front + items| ==> (front + items)[i].sequence <= next
    ensures forall i :: 0 <= i < |left| ==> left[i].sequence > next
  {
    var last := |front + items| - 1;
    assert feed[last] == items[|items| - 1];
    forall i | 0 <= i < |front + items| ensures (front + items)[i].sequence <= next {
      assert feed[i] == (front + items)[i];
    }
    forall i | 0 <= i < |left| ensures left[i].sequence > next { assert feed[last + 1 + i] == left[i]; }
  }

  lemma RowsRise(s: State)
    requires Sound(s)
    ensures Rising(s.rows)
    ensures forall i :: 0 <= i < |s.rows| ==> 0 < s.rows[i].sequence < s.next
  {
  }

  /** A reader below the next sequence has seen nothing it did not see: later rows come after its
      cursor, behind those that were there. */
  lemma NothingBehind(s: State, after: State, library: nat, cursor: nat)
    requires Sound(s) && Sound(after) && Lasts(s, after) && cursor < s.next
    requires forall i :: |s.rows| <= i < |after.rows| ==> after.rows[i].sequence >= s.next
    ensures var before, feed := Feed(s.rows, library), Feed(after.rows, library);
            && before <= feed && Above(feed, cursor) == Above(before, cursor) + feed[|before|..]
            && UpTo(feed, cursor) == UpTo(before, cursor)
  {
    hide Sound, Grew, Feed, UpTo, Above, Rising;
    RowsRise(s);
    RowsRise(after);
    var before, feed := Feed(s.rows, library), Feed(after.rows, library);
    FeedGrows(s.rows, after.rows, library);
    FeedRises(s.rows, library);
    LateRows(s, after, library, cursor);
    LateCut(before, feed[|before|..], cursor);
    assert feed == before + feed[|before|..];
  }

  lemma LateRows(s: State, after: State, library: nat, cursor: nat)
    requires s.rows <= after.rows && Rising(after.rows) && cursor < s.next
    requires forall i :: |s.rows| <= i < |after.rows| ==> after.rows[i].sequence >= s.next
    requires Feed(s.rows, library) <= Feed(after.rows, library)
    ensures var late := Feed(after.rows, library)[|Feed(s.rows, library)|..];
            forall i :: 0 <= i < |late| ==> late[i].sequence > cursor
  {
    hide Feed, Rising;
    var before, feed := Feed(s.rows, library), Feed(after.rows, library);
    forall i | 0 <= i < |feed[|before|..]| ensures feed[|before|..][i].sequence > cursor {
      LateRow(s, after, library, |before| + i);
    }
  }

  /** A rising feed cut at a cursor, and rows above it behind the feed. */
  lemma LateCut(before: seq<Row>, late: seq<Row>, cursor: nat)
    requires Rising(before) && forall i :: 0 <= i < |late| ==> late[i].sequence > cursor
    ensures Above(before + late, cursor) == Above(before, cursor) + late
    ensures UpTo(before + late, cursor) == UpTo(before, cursor)
  {
    hide UpTo, Above;
    SplitAt(before, cursor);
    Sides(before, cursor);
    assert before + late == UpTo(before, cursor) + (Above(before, cursor) + late);
    CutAt(UpTo(before, cursor), Above(before, cursor) + late, cursor);
  }

  lemma {:induction false} LateRow(s: State, after: State, library: nat, k: nat)
    requires s.rows <= after.rows && Rising(after.rows)
    requires forall i :: |s.rows| <= i < |after.rows| ==> after.rows[i].sequence >= s.next
    requires |Feed(s.rows, library)| <= k < |Feed(after.rows, library)|
    ensures Feed(after.rows, library)[k].sequence >= s.next
  {
    FeedTail(s.rows, after.rows, library, k);
  }

  lemma {:induction false} FeedTail(rows: seq<Row>, more: seq<Row>, library: nat, k: nat)
    requires rows <= more && |Feed(rows, library)| <= k < |Feed(more, library)|
    ensures exists i :: |rows| <= i < |more| && more[i] == Feed(more, library)[k]
    decreases |more|
  {
    if rows == more {
    } else {
      var front := more[..|more| - 1];
      FeedGrows(rows, front, library);
      if k < |Feed(front, library)| {
        FeedTail(rows, front, library, k);
        var i :| |rows| <= i < |front| && front[i] == Feed(front, library)[k];
        assert more[i] == Feed(more, library)[k];
      } else {
        assert more[|more| - 1] == Feed(more, library)[k];
      }
    }
  }
}
