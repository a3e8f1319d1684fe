/** Revisions that were never held reach the feed in the order the device queued them, so the
    host's latest material of a stream is the last revision of it that arrived. */
module QueueOrder {
  import opened Readers
  import opened Protocol
  import opened Registry
  import opened RegistryRuns
  import opened Snapshots
  import opened HostFeed
  import opened Publisher
  import opened Delivery
  import opened EndToEnd

  /** Files lie in the outbox in queue order. */
  ghost predicate InQueueOrder(outbox: seq<Body>, queued: seq<Body>) {
    forall x, y, i, j ::
      (0 <= x < y < |outbox| && 0 <= i < |queued| && 0 <= j < |queued|
       && outbox[x] == queued[i] && outbox[y] == queued[j])
      ==> i < j
  }

  /** A request carried these bytes far enough for the cloud to hold them. */
  ghost predicate Launched(id: Identity, s: State, body: Body) {
    || (exists r :: r in s.flights && s.flights[r].secret == id.secret && Carries(s.flights[r]) == body)
    || (exists k :: k in s.uploads && k.device == id.device && s.uploads[k].body == body)
  }

  ghost predicate NeverHeld(w: World, i: nat) {
    i < |w.queued| && w.queued[i].Material? && w.queued[i].sid !in w.held
  }

  /** Nothing leaves before everything queued earlier was accepted, except what was held. */
  ghost predicate OneAtATime(id: Identity, w: World) {
    forall i, j :: 0 <= i < j && NeverHeld(w, i) && NeverHeld(w, j) && Launched(id, w.s, w.queued[j])
                   ==> w.queued[i].sid in w.p.sent
  }

  ghost predicate RowOf(id: Identity, s: State, y: int, body: Body) {
    0 <= y < |s.rows| && body.Material? && s.rows[y].key == Key(id.library, id.device, body.sid)
  }

  ghost predicate FeedInOrder(id: Identity, w: World) {
    forall i, j, y :: 0 <= i < j && NeverHeld(w, i) && NeverHeld(w, j) && RowOf(id, w.s, y, w.queued[j])
                      ==> exists x :: 0 <= x < y && RowOf(id, w.s, x, w.queued[i])
  }

  ghost predicate Orderly(id: Identity, w: World) {
    InQueueOrder(w.p.outbox, w.queued) && OneAtATime(id, w) && FeedInOrder(id, w)
  }

  /* ---------------------------------------------------------------- the outbox */

  lemma {:induction false} UnlinkedOrder(outbox: seq<Body>, body: Body, x: nat, y: nat) returns (x': nat, y': nat)
    requires x < y < |Unlinked(outbox, body)|
    ensures x' < y' < |outbox| && outbox[x'] == Unlinked(outbox, body)[x] && outbox[y'] == Unlinked(outbox, body)[y]
  {
    var front := outbox[..|outbox| - 1];
    var kept := Unlinked(front, body);
    if y < |kept| {
      x', y' := UnlinkedOrder(front, body, x, y);
    } else {
      assert kept[x] in front && Unlinked(outbox, body)[x] == kept[x];
      x' :| 0 <= x' < |front| && front[x'] == kept[x];
      y' := |outbox| - 1;
    }
  }

  lemma UnlinkInOrder(outbox: seq<Body>, body: Body, queued: seq<Body>)
    requires InQueueOrder(outbox, queued)
    ensures InQueueOrder(Unlinked(outbox, body), queued)
  {
    var kept := Unlinked(outbox, body);
    forall x, y, i, j | 0 <= x < y < |kept| && 0 <= i < |queued| && 0 <= j < |queued|
                        && kept[x] == queued[i] && kept[y] == queued[j]
      ensures i < j
    {
      var x', y' := UnlinkedOrder(outbox, body, x, y);
    }
  }

  lemma CollectInOrder(outbox: seq<Body>, queued: seq<Body>, body: Body)
    requires InQueueOrder(outbox, queued) && body !in queued && (forall b :: b in outbox ==> b in queued)
    ensures InQueueOrder(outbox + [body], queued + [body])
  {
    var more, all := outbox + [body], queued + [body];
    forall x, y, i, j | 0 <= x < y < |more| && 0 <= i < |all| && 0 <= j < |all|
                        && more[x] == all[i] && more[y] == all[j]
      ensures i < j
    {
      assert more[x] == outbox[x] && outbox[x] in queued;
      assert i < |queued| && all[i] == queued[i];
      if y < |outbox| {
        assert more[y] == outbox[y] && outbox[y] in queued;
        assert j < |queued| && all[j] == queued[j];
      }
    }
  }

  /* ---------------------------------------------------------------- launching */

  lemma NotNewlyLaunched(id: Identity, w: World, e: Event, body: Body)
    requires Delivery.Recorded(id, w) && Foreign(id, w, e) && Launched(id, Next(w.s, e).0, body)
    ensures Launched(id, w.s, body)
  {
    hide Sound, NothingLost, HasRow, OnePayload, Next, OnlyQueued;
    var s := Next(w.s, e).0;
    UploadsStay(w.s, e);
    if k :| k in s.uploads && k.device == id.device && s.uploads[k].body == body {
      if !(k in w.s.uploads && s.uploads[k] == w.s.uploads[k]) {
        BelongsSecret(id, w.s, s.uploads[k].body, e, k);
      }
    } else {
      var r :| r in s.flights && s.flights[r].secret == id.secret && Carries(s.flights[r]) == body;
      if e.Arriving? { ForeignFlight(id, w, e, r); } else { FlightsStay(w.s, e); }
    }
  }

  lemma BelongsSecret(id: Identity, s: State, body: Body, e: Event, k: Key)
    requires Sound(s) && Belongs(id, s) && e.Admitting? && e.r in s.flights && Carries(s.flights[e.r]) == body
    requires k.device == id.device && k.device in s.devices && s.devices[k.device].secret == s.flights[e.r].secret
    ensures Launched(id, s, body)
  {
  }

  lemma ForeignFlight(id: Identity, w: World, e: Event, r: nat)
    requires e.Arriving? && Foreign(id, w, e) && r in Next(w.s, e).0.flights
    requires Next(w.s, e).0.flights[r].secret == id.secret
    ensures r in w.s.flights && w.s.flights[r] == Next(w.s, e).0.flights[r]
  {
    hide Known;
  }

  lemma LaunchedQueued(id: Identity, w: World, body: Body)
    requires Delivery.Recorded(id, w) && Launched(id, w.s, body)
    ensures body in w.queued
  {
  }

  /** A row added for the device's bytes comes from one of its requests. */
  lemma NewRowLaunched(id: Identity, w: World, e: Event)
    requires Delivery.Recorded(id, w) && Next(w.s, e).0.rows != w.s.rows
    ensures |Next(w.s, e).0.rows| == |w.s.rows| + 1
    ensures var row := Next(w.s, e).0.rows[|w.s.rows|];
            row.key.device == id.device ==>
              Launched(id, w.s, row.upload.body) && row.upload.body.Material? && row.upload.body.sid == row.key.sid
  {
    hide Next, NothingLost, HasRow, OnePayload, OnlyQueued, Sound;
    CommitTimeAdmission(w.s, e);
    ReceiptIsTrue(w.s, e);
    var row, r := Next(w.s, e).0.rows[|w.s.rows|], Requester(e).value;
    if row.key.device == id.device {
      assert w.s.flights[r].secret == id.secret && Carries(w.s.flights[r]) == row.upload.body;
    }
  }

  /* ---------------------------------------------------------------- each step keeps the order */

  lemma OrderlyCollect(id: Identity, w: World, snapshot: Body)
    requires Delivery.Recorded(id, w) && Orderly(id, w) && snapshot.Material? && Unqueued(w.p, snapshot)
    ensures var body := Own(id, snapshot);
            Orderly(id, w.(p := w.p.(outbox := w.p.outbox + [body]), queued := w.queued + [body]))
  {
    hide Sound, InQueueOrder, HasRow, Launched, RowOf;
    var body := Own(id, snapshot);
    var after := w.(p := w.p.(outbox := w.p.outbox + [body]), queued := w.queued + [body]);
    CollectKeeps(id, w, snapshot);
    NotYet(w.queued, body, id);
    CollectInOrder(w.p.outbox, w.queued, body);
    forall i, j | 0 <= i < j && NeverHeld(after, i) && NeverHeld(after, j) && Launched(id, after.s, after.queued[j])
      ensures after.queued[i].sid in after.p.sent
    {
      LaunchedQueued(id, w, after.queued[j]);
      assert j < |w.queued| && NeverHeld(w, i) && NeverHeld(w, j);
    }
    forall i, j, y | 0 <= i < j && NeverHeld(after, i) && NeverHeld(after, j) && RowOf(id, after.s, y, after.queued[j])
      ensures exists x :: 0 <= x < y && RowOf(id, after.s, x, after.queued[i])
    {
      if j < |w.queued| {
        assert NeverHeld(w, i) && NeverHeld(w, j);
      } else {
        NoRowYet(id, w, y, body);
      }
    }
  }

  lemma NotYet(queued: seq<Body>, body: Body, id: Identity)
    requires OnePayload(id, queued + [body])
    ensures body.Material? && body !in queued && forall b :: b in queued ==> b.Material? && b.sid != body.sid
  {
    var more := queued + [body];
    assert more[|queued|] == body;
    forall b | b in queued ensures b.Material? && b.sid != body.sid {
      var i :| 0 <= i < |queued| && queued[i] == b;
      assert more[i] == b && more[i].sid != more[|queued|].sid;
    }
  }

  lemma NoRowYet(id: Identity, w: World, y: int, body: Body)
    requires Delivery.Recorded(id, w) && body.Material?
    requires forall b :: b in w.queued ==> b.Material? && b.sid != body.sid
    ensures !RowOf(id, w.s, y, body)
  {
    if 0 <= y < |w.s.rows| && w.s.rows[y].key.device == id.device { RowQueued(id, w, y); }
  }

  /** A row under the device's key carries queued bytes. */
  lemma RowQueued(id: Identity, w: World, y: nat)
    requires Delivery.Recorded(id, w) && y < |w.s.rows| && w.s.rows[y].key.device == id.device
    ensures w.s.rows[y].upload.body in w.queued && w.s.rows[y].upload.body.Material?
    ensures w.s.rows[y].upload.body.sid == w.s.rows[y].key.sid
  {
    hide NothingLost, HasRow;
    RowFiled(w.s, w.s.rows[y]);
  }

  lemma OrderlyAsk(id: Identity, library: nat, w: World, r: nat, x: nat, terms: Terms)
    requires Delivery.Recorded(id, w) && Orderly(id, w)
    ensures Orderly(id, Go(id, library, w, Asks(r, x, terms)))
  {
    hide Sound, InQueueOrder, HasRow, RowOf, OnlyQueued, OnePayload, Launched, InTurn, PassedOver;
    var after := Go(id, library, w, Asks(r, x, terms));
    if InTurn(w.p, x, terms) && r !in w.asked && r !in w.s.flights {
      InTurnIsFile(w.p, x, terms);
      forall i, j | 0 <= i < j && NeverHeld(after, i) && NeverHeld(after, j) && Launched(id, after.s, after.queued[j])
        ensures after.queued[i].sid in after.p.sent
      {
        assert NeverHeld(w, i) && NeverHeld(w, j);
        AskLaunches(id, w.s, r, w.p.outbox[x], w.queued[j]);
        if !Launched(id, w.s, w.queued[j]) { EarlierSent(id, w, x, terms, i, j); }
      }
      assert after.s.rows == w.s.rows;
      forall i, j, y | 0 <= i < j && NeverHeld(after, i) && NeverHeld(after, j)
                        && RowOf(id, after.s, y, after.queued[j])
        ensures exists x :: 0 <= x < y && RowOf(id, after.s, x, after.queued[i])
      {
        assert NeverHeld(w, i) && NeverHeld(w, j);
        SameRows(id, w.s, after.s);
      }
    }
  }

  lemma InTurnIsFile(p: Outbound, x: nat, terms: Terms)
    requires InTurn(p, x, terms)
    ensures x < |p.outbox|
  {
  }

  lemma SameRows(id: Identity, s: State, after: State)
    requires after.rows == s.rows
    ensures forall y, body :: RowOf(id, after, y, body) <==> RowOf(id, s, y, body)
  {
  }

  lemma AskLaunches(id: Identity, s: State, r: nat, sent: Body, body: Body)
    requires r !in s.flights
    ensures Launched(id, Arrive(s, r, id.secret, Some(sent)).0, body) ==> Launched(id, s, body) || body == sent
  {
    hide Known;
  }

  /** Everything queued before a file in turn was accepted or is held. */
  lemma EarlierSent(id: Identity, w: World, x: nat, terms: Terms, i: nat, j: nat)
    requires NothingLost(w.p, w.queued) && InQueueOrder(w.p.outbox, w.queued) && InTurn(w.p, x, terms)
    requires OnePayload(id, w.queued)
    requires i < j < |w.queued| && w.queued[j] == w.p.outbox[x] && w.queued[i].Material?
    requires w.queued[i].sid !in PassedOver(w.p, x, terms)
    ensures w.queued[i].sid in w.p.sent
  {
    hide Decodes;
    if w.queued[i] in w.p.outbox {
      var y :| 0 <= y < |w.p.outbox| && w.p.outbox[y] == w.queued[i];
      assert y > x ==> j < i;
      assert w.queued[i].sid != w.queued[j].sid;
      assert Checked(terms, w.p.outbox[y]) != Held;
    }
  }

  lemma OrderlyCloud(id: Identity, w: World, e: Event, heard: bool)
    requires Delivery.Recorded(id, w) && Orderly(id, w) && Foreign(id, w, e)
    ensures Orderly(id, Heard(id, w, e, heard))
  {
    hide Sound, InQueueOrder, HasRow, RowOf, OnlyQueued, OnePayload, Launched, Next, Foreign, Delivery.Recorded;
    var after, s := Heard(id, w, e, heard), Next(w.s, e).0;
    forall i, j | 0 <= i < j && NeverHeld(after, i) && NeverHeld(after, j) && Launched(id, after.s, after.queued[j])
      ensures after.queued[i].sid in after.p.sent
    {
      assert NeverHeld(w, i) && NeverHeld(w, j);
      NotNewlyLaunched(id, w, e, w.queued[j]);
    }
    forall i, j, y | 0 <= i < j && NeverHeld(after, i) && NeverHeld(after, j) && RowOf(id, after.s, y, after.queued[j])
      ensures exists x :: 0 <= x < y && RowOf(id, after.s, x, after.queued[i])
    {
      assert NeverHeld(w, i) && NeverHeld(w, j);
      RowBefore(id, w, e, i, j, y);
    }
  }

  lemma RowBefore(id: Identity, w: World, e: Event, i: nat, j: nat, y: int)
    requires Delivery.Recorded(id, w) && OneAtATime(id, w) && FeedInOrder(id, w)
    requires i < j && NeverHeld(w, i) && NeverHeld(w, j) && RowOf(id, Next(w.s, e).0, y, w.queued[j])
    ensures exists x :: 0 <= x < y && RowOf(id, Next(w.s, e).0, x, w.queued[i])
  {
    hide Sound, HasRow, OnlyQueued, Launched, Next, Grew;
    var s := Next(w.s, e).0;
    NextLasts(w.s, e);
    if s.rows != w.s.rows { NewRowLaunched(id, w, e); }
    if y < |w.s.rows| {
      assert RowOf(id, w.s, y, w.queued[j]) by { assert s.rows[y] == w.s.rows[y]; }
      var x :| 0 <= x < y && RowOf(id, w.s, x, w.queued[i]);
      assert RowOf(id, s, x, w.queued[i]) by { assert s.rows[x] == w.s.rows[x]; }
    } else {
      var body := s.rows[y].upload.body;
      LaunchedQueued(id, w, body);
      SameSid(id, w.queued, body, w.queued[j]);
      SentRow(id, w, w.queued[i].sid);
      SentIsQueued(id, w, i);
      var x :| RowOf(id, w.s, x, w.queued[i]);
      assert RowOf(id, s, x, w.queued[i]) by { assert s.rows[x] == w.s.rows[x]; }
    }
  }

  lemma SentRow(id: Identity, w: World, sid: nat)
    requires Delivery.Recorded(id, w) && sid in w.p.sent
    ensures exists x :: RowOf(id, w.s, x, w.p.sent[sid])
  {
    hide Sound, OnlyQueued, OnePayload;
    var body := w.p.sent[sid];
    assert HasRow(id, w.s, body);
    var x :| 0 <= x < |w.s.rows| && w.s.rows[x].key == Key(id.library, id.device, body.sid)
             && w.s.rows[x].upload.body == body;
    assert RowOf(id, w.s, x, body);
  }

  lemma SentIsQueued(id: Identity, w: World, i: nat)
    requires Delivery.Recorded(id, w) && i < |w.queued| && w.queued[i].Material? && w.queued[i].sid in w.p.sent
    ensures w.p.sent[w.queued[i].sid] == w.queued[i]
  {
    hide Sound, OnlyQueued, HasRow;
    SameSid(id, w.queued, w.p.sent[w.queued[i].sid], w.queued[i]);
  }

  lemma OrderlyStep(id: Identity, library: nat, w: World, step: Step)
    requires Delivery.Recorded(id, w) && Orderly(id, w) && Possible(id, w, step)
    ensures Orderly(id, Go(id, library, w, step))
  {
    hide Delivery.Recorded, InQueueOrder, OneAtATime, FeedInOrder, Heard, Foreign, Arrive, InTurn, Decodes;
    match step
    case Collects(snapshot) =>
      if snapshot.Material? && Unqueued(w.p, snapshot) { OrderlyCollect(id, w, snapshot); }
    case Asks(r, i, terms) => OrderlyAsk(id, library, w, r, i, terms);
    case Cloud(e, heard) => OrderlyCloud(id, w, e, heard);
    case Unlinks(i) =>
      if i < |w.p.outbox| {
        UnlinkInOrder(w.p.outbox, w.p.outbox[i], w.queued);
        SameHistory(id, w, Go(id, library, w, step));
      }
    case Fetches(reach) => SameHistory(id, w, Go(id, library, w, step));
    case Releases(report) => SameHistory(id, w, Go(id, library, w, step));
  }

  lemma SameHistory(id: Identity, w: World, after: World)
    requires after.s == w.s && after.p.sent == w.p.sent && after.queued == w.queued && after.held == w.held
    ensures OneAtATime(id, w) ==> OneAtATime(id, after)
    ensures FeedInOrder(id, w) ==> FeedInOrder(id, after)
  {
    assert forall i :: NeverHeld(after, i) <==> NeverHeld(w, i);
  }

  lemma {:induction false} OrderlyRuns(id: Identity, library: nat, w: World, steps: seq<Step>)
    requires Begins(id, w) && AllPossible(id, library, w, steps)
    ensures Orderly(id, Journey(id, library, w, steps))
  {
    hide Orderly, Go, Possible, Delivery.Recorded;
    if steps == [] {
      NothingQueued(id, w);
    } else {
      var front := steps[..|steps| - 1];
      OrderlyRuns(id, library, w, front);
      WholeRuns(id, library, w, front);
      OrderlyStep(id, library, Journey(id, library, w, front), steps[|steps| - 1]);
    }
  }

  lemma NothingQueued(id: Identity, w: World)
    requires Begins(id, w)
    ensures Orderly(id, w)
  {
  }

  /** THE LATEST IS THE LAST. When two revisions of one stream were queued in this order, neither
      was ever held, and both are at or below the host's cursor, the earlier one is not what the
      host takes for the stream's material. */
  lemma LatestIsLastQueued(id: Identity, w: World, i: nat, j: nat, x: nat, y: nat)
    requires Whole(id, id.library, w) && Orderly(id, w)
    requires i < j && NeverHeld(w, i) && NeverHeld(w, j)
    requires w.queued[i].stream == w.queued[j].stream && w.queued[i].project == w.queued[j].project
    requires RowOf(id, w.s, x, w.queued[i]) && RowOf(id, w.s, y, w.queued[j])
    requires w.s.rows[x].sequence <= w.cache.index.cursor && w.s.rows[y].sequence <= w.cache.index.cursor
    ensures x < y
    ensures var k := StreamKey(id.device, w.queued[i].stream, w.queued[i].project);
            && k in w.cache.index.materials
            && w.cache.index.materials[k] != CacheKey(id.device, w.queued[i].sid)
  {
    hide Sound, NothingLost, OnlyQueued, HasRow, OnDisk, Feed, UpTo, FeedInOrder, OneAtATime, InQueueOrder;
    RowsInOrder(id, w, i, j, x, y);
    RowQueued(id, w, x);
    RowQueued(id, w, y);
    SameSid(id, w.queued, w.s.rows[x].upload.body, w.queued[i]);
    SameSid(id, w.queued, w.s.rows[y].upload.body, w.queued[j]);
    var rows := Collected(w.s, w.cache, id.library);
    RowOnHost(w.s, w.cache, id.library, w.acked, w.s.rows[x]);
    RowOnHost(w.s, w.cache, id.library, w.acked, w.s.rows[y]);
    var k := StreamKey(id.device, w.queued[i].stream, w.queued[i].project);
    LaterWins(rows, k, w.s.rows[x], w.s.rows[y], w.s, id.library, w.cache.index.cursor);
  }

  lemma RowsInOrder(id: Identity, w: World, i: nat, j: nat, x: nat, y: nat)
    requires Sound(w.s) && FeedInOrder(id, w) && i < j && NeverHeld(w, i) && NeverHeld(w, j)
    requires RowOf(id, w.s, x, w.queued[i]) && RowOf(id, w.s, y, w.queued[j])
    ensures x < y && w.s.rows[x].sequence < w.s.rows[y].sequence
  {
    hide Sound;
    KeysDiffer(w.s);
    RowsRise(w.s);
    var x' :| 0 <= x' < y && RowOf(id, w.s, x', w.queued[i]);
    assert w.s.rows[x'].key == w.s.rows[x].key;
    assert x' == x;
  }

  lemma LaterWins(rows: seq<Row>, k: StreamKey, early: Row, late: Row, s: State, library: nat, cursor: nat)
    requires Sound(s) && rows == UpTo(Feed(s.rows, library), cursor) && early in rows && late in rows
    requires early.sequence < late.sequence && DistinctKeys(rows)
    requires early.upload.body.Material? && late.upload.body.Material? && StreamOf(early) == k == StreamOf(late)
    ensures k in Latest(rows) && Latest(rows)[k] != KeyOf(early)
  {
    hide Sound, Feed, UpTo;
    RowsRise(s);
    FeedRises(s.rows, library);
    UpToRises(Feed(s.rows, library), cursor);
    LatestIsLast(rows, k);
    var a :| 0 <= a < |rows| && rows[a] == early;
    var b :| 0 <= b < |rows| && rows[b] == late;
    var i :| 0 <= i < |rows| && rows[i].upload.body.Material? && StreamOf(rows[i]) == k
             && KeyOf(rows[i]) == Latest(rows)[k]
             && (forall j :: i < j < |rows| && rows[j].upload.body.Material? ==> StreamOf(rows[j]) != k);
    assert a < b && b <= i;
  }

  lemma UpToRises(feed: seq<Row>, cursor: nat)
    requires Rising(feed)
    ensures Rising(UpTo(feed, cursor))
  {
    hide UpTo, Above;
    SplitAt(feed, cursor);
    var front := UpTo(feed, cursor);
    assert forall i :: 0 <= i < |front| ==> front[i] == feed[i];
  }
}
