/** The pipeline end to end: one device's outbox, the cloud's registry and the host's cache,
    interleaved with everything other devices and the Owner do. */
module Delivery {
  import opened Readers
  import opened Protocol
  import opened Registry
  import opened RegistryRuns
  import opened Snapshots
  import opened HostFeed
  import opened Publisher

  /** `asked` are the requests whose reply the device could still hear. `queued` and `held` are
      histories: every payload ever queued, in order, and every id ever passed over. */
  datatype World = World(
    s: State, p: Outbound, asked: map<nat, Body>, queued: seq<Body>, held: set<nat>,
    cache: Cache, acked: set<CacheKey>)

  datatype Step =
    | Collects(snapshot: Body)
    | Asks(r: nat, i: nat, terms: Terms)
    | Cloud(e: Event, heard: bool)
    | Unlinks(i: nat)
    | Fetches(reach: nat)
    | Releases(report: seq<Report>)

  /** The loop got as far as file i: it decodes and is allowed, and every earlier file decodes and
      was accepted or is held. */
  predicate InTurn(p: Outbound, i: nat, terms: Terms) {
    && i < |p.outbox| && Checked(terms, p.outbox[i]) == Sendable
    && (forall j :: 0 <= j < i ==>
          && Checked(terms, p.outbox[j]) != Undecodable
          && (Checked(terms, p.outbox[j]) == Sendable ==> p.outbox[j].sid in p.sent))
  }

  /** The files the loop passed over on its way to file i. */
  function PassedOver(p: Outbound, i: nat, terms: Terms): set<nat>
    requires InTurn(p, i, terms)
  {
    set j | 0 <= j < i && Checked(terms, p.outbox[j]) == Held :: p.outbox[j].sid
  }

  function Requester(e: Event): Option<nat> {
    match e
    case Admitting(r, _, _) => Some(r)
    case Resuming(r) => Some(r)
    case Breaking(r, _) => Some(r)
    case _ => None
  }

  /** A reply ends its request; a receipt that is heard and matches is recorded. */
  function Heard(id: Identity, w: World, e: Event, heard: bool): World {
    var (s, reply) := Next(w.s, e);
    var r := Requester(e);
    if reply.None? || r.None? || r.value !in w.asked then w.(s := s)
    else
      var body := w.asked[r.value];
      var sent := if heard && reply.value.Stored? && Matches(id, body, reply.value.row)
                  then Record(w.p, body) else w.p;
      w.(s := s, p := sent, asked := w.asked - {r.value})
  }

  function Go(id: Identity, library: nat, w: World, step: Step): World {
    match step
    case Collects(snapshot) =>
      if snapshot.Junk? || !Unqueued(w.p, snapshot) then w
      else w.(p := Enqueue(id, w.p, snapshot), queued := w.queued + [Own(id, snapshot)])
    case Asks(r, i, terms) =>
      if !InTurn(w.p, i, terms) || r in w.asked || r in w.s.flights then w
      else
        var (s, reply) := Arrive(w.s, r, id.secret, Some(w.p.outbox[i]));
        w.(s := s, held := w.held + PassedOver(w.p, i, terms),
            asked := if reply.None? then w.asked[r := w.p.outbox[i]] else w.asked)
    case Cloud(e, heard) => Heard(id, w, e, heard)
    case Unlinks(i) =>
      if i < |w.p.outbox| && w.p.outbox[i].Material? && w.p.outbox[i].sid in w.p.sent then
        w.(p := w.p.(outbox := Unlinked(w.p.outbox, w.p.outbox[i])))
      else w
    case Fetches(reach) =>
      w.(cache := TakePage(w.cache, ListPage(w.s, library, w.cache.index.cursor, PAGE_LIMIT), w.s.bodies, reach).0)
    case Releases(report) =>
      var taken := UpTo(Feed(w.s.rows, library), w.cache.index.cursor);
      w.(cache := Acknowledge(w.cache, report), acked := w.acked + Released(report) * KeysOf(taken))
  }

  /** Nobody else has the device's secret, and request numbers are not reused while one of its
      replies is outstanding. */
  predicate Foreign(id: Identity, w: World, e: Event) {
    e.Arriving? ==> e.secret != id.secret && e.r !in w.asked
  }

  predicate Possible(id: Identity, w: World, step: Step) {
    step.Cloud? ==> Foreign(id, w, step.e)
  }

  /* ---------------------------------------------------------------- the device's invariant */

  predicate Belongs(id: Identity, s: State) {
    && id.device in s.devices && s.devices[id.device].secret == id.secret
    && s.devices[id.device].library == id.library
  }

  /** One payload per snapshot id, for good. */
  predicate OnePayload(id: Identity, queued: seq<Body>) {
    && (forall i :: 0 <= i < |queued| ==>
          queued[i].Material? && queued[i].size <= MAX_SNAPSHOT_BYTES && queued[i].device == Some(id.device))
    && (forall i, j :: 0 <= i < j < |queued| ==> queued[i].sid != queued[j].sid)
  }

  /** Everything queued is in the outbox or accepted, and nothing else is. */
  predicate NothingLost(p: Outbound, queued: seq<Body>) {
    && (forall b :: b in p.outbox ==> b in queued)
    && (forall i :: 0 <= i < |queued| ==>
          queued[i] in p.outbox
          || (queued[i].Material? && queued[i].sid in p.sent && p.sent[queued[i].sid] == queued[i]))
    && (forall sid :: sid in p.sent ==> p.sent[sid].Material? && p.sent[sid].sid == sid && p.sent[sid] in queued)
  }

  function Carries(f: Flight): Body {
    match f case Reading(_, claimed) => claimed case Storing(_, _, body, _, _) => body
  }

  predicate Launchable(queued: seq<Body>, body: Body) {
    body in queued && Decodes(body)
  }

  /** The cloud has seen nothing from this device but queued payloads that decode. */
  predicate OnlyQueued(id: Identity, s: State, asked: map<nat, Body>, queued: seq<Body>) {
    && (forall k :: k in s.uploads && k.device == id.device ==> Launchable(queued, s.uploads[k].body))
    && (forall r :: r in s.flights && s.flights[r].secret == id.secret ==> Launchable(queued, Carries(s.flights[r])))
    && (forall r :: r in asked ==> Launchable(queued, asked[r]))
    && (forall r :: r in asked && r in s.flights ==>
          s.flights[r].secret == id.secret && Carries(s.flights[r]) == asked[r])
  }

  predicate HasRow(id: Identity, s: State, body: Body) {
    body.Material? &&
    exists i :: 0 <= i < |s.rows| && s.rows[i].key == Key(id.library, id.device, body.sid)
                && s.rows[i].upload.body == body
  }

  predicate Recorded(id: Identity, w: World) {
    && Sound(w.s) && Belongs(id, w.s)
    && OnePayload(id, w.queued) && NothingLost(w.p, w.queued) && OnlyQueued(id, w.s, w.asked, w.queued)
    && (forall sid :: sid in w.p.sent ==> HasRow(id, w.s, w.p.sent[sid]))
  }

  lemma SameSid(id: Identity, queued: seq<Body>, a: Body, b: Body)
    requires OnePayload(id, queued) && a in queued && b in queued && a.sid == b.sid
    ensures a == b
  {
    var i :| 0 <= i < |queued| && queued[i] == a;
    var j :| 0 <= j < |queued| && queued[j] == b;
  }

  /* ---------------------------------------------------------------- each step keeps it */

  lemma CollectKeeps(id: Identity, w: World, snapshot: Body)
    requires Recorded(id, w) && snapshot.Material? && Unqueued(w.p, snapshot)
    ensures var body := Own(id, snapshot);
            && OnePayload(id, w.queued + [body])
            && NothingLost(w.p.(outbox := w.p.outbox + [body]), w.queued + [body])
  {
    hide Sound, OnlyQueued, HasRow;
    var body := Own(id, snapshot);
    var queued, outbox := w.queued + [body], w.p.outbox + [body];
    forall i | 0 <= i < |w.queued| ensures w.queued[i].sid != body.sid {
      if w.queued[i] in w.p.outbox { var j :| 0 <= j < |w.p.outbox| && w.p.outbox[j] == w.queued[i]; }
    }
    forall i | 0 <= i < |queued|
      ensures queued[i] in outbox
              || (queued[i].Material? && queued[i].sid in w.p.sent && w.p.sent[queued[i].sid] == queued[i])
    {
      if i < |w.queued| { assert queued[i] == w.queued[i]; }
    }
  }

  lemma OnlyQueuedMore(id: Identity, s: State, asked: map<nat, Body>, queued: seq<Body>, more: seq<Body>)
    requires OnlyQueued(id, s, asked, queued) && queued <= more
    ensures OnlyQueued(id, s, asked, more)
  {
    assert forall b :: b in queued ==> b in more;
  }

  lemma UnlinkKeeps(id: Identity, w: World, i: nat)
    requires Recorded(id, w) && i < |w.p.outbox| && w.p.outbox[i].Material? && w.p.outbox[i].sid in w.p.sent
    ensures NothingLost(w.p.(outbox := Unlinked(w.p.outbox, w.p.outbox[i])), w.queued)
  {
    hide Sound, OnlyQueued, HasRow;
    var body := w.p.outbox[i];
    assert body in w.queued;
    SameSid(id, w.queued, body, w.p.sent[body.sid]);
  }

  /** A receipt names the row, and the row the bytes the request carried. */
  lemma ReceiptIsTrue(s: State, e: Event)
    requires Sound(s) && Next(s, e).1.Some? && Next(s, e).1.value.Stored?
    ensures Requester(e).Some? && Requester(e).value in s.flights
    ensures var row, f := Next(s, e).1.value.row, s.flights[Requester(e).value];
            && row in Next(s, e).0.rows && row.upload.body == Carries(f) && row.upload.body.Material?
            && row.key.sid == row.upload.body.sid && row.sequence >= 1
            && row.key.device in s.devices && s.devices[row.key.device].secret == f.secret
            && s.devices[row.key.device].library == row.key.library
  {
    match e
    case Admitting(r, body, now) => AdmitReceipt(s, r, body, now);
    case Resuming(r) => ResumeReceipt(s, r);
    case _ =>
  }

  lemma RowFiled(s: State, row: Row)
    requires Sound(s) && row in s.rows
    ensures row.key in s.uploads && row.upload == s.uploads[row.key] && row.sequence >= 1
    ensures row.upload.body.Material? && row.upload.body.sid == row.key.sid
    ensures row.key.device in s.devices && s.devices[row.key.device].library == row.key.library
  {
    var i :| 0 <= i < |s.rows| && s.rows[i] == row;
  }

  lemma AdmitReceipt(s: State, r: nat, body: Body, now: int)
    requires Sound(s) && Admit(s, r, body, now).1.Some? && Admit(s, r, body, now).1.value.Stored?
    ensures r in s.flights && s.flights[r].Reading? && s.flights[r].claimed == body
    ensures var row := Admit(s, r, body, now).1.value.row;
            && row in s.rows && row.upload.body == body && body.Material?
            && row.key.sid == body.sid && row.sequence >= 1
            && row.key.device in s.devices && s.devices[row.key.device].secret == s.flights[r].secret
            && s.devices[row.key.device].library == row.key.library
  {
    hide Sound, OutOfScope;
    var row := Admit(s, r, body, now).1.value.row;
    assert row in s.rows;
    RowFiled(s, row);
    SoundIndexed(s);
    KnownSecret(s, s.flights[r].secret);
  }

  lemma SoundIndexed(s: State)
    requires Sound(s)
    ensures Indexed(s.devices, s.secrets) && Counted(s)
  {
  }

  lemma ResumeReceipt(s: State, r: nat)
    requires Sound(s) && Resume(s, r).1.Some? && Resume(s, r).1.value.Stored?
    ensures r in s.flights && s.flights[r].Storing?
    ensures var row, f := Resume(s, r).1.value.row, s.flights[r];
            && row in Resume(s, r).0.rows && row.key == f.key && row.upload.body == f.body && f.body.Material?
            && row.key.sid == f.body.sid && row.sequence >= 1
            && row.key.device in s.devices && s.devices[row.key.device].secret == f.secret
            && s.devices[row.key.device].library == row.key.library
  {
    hide Sound, OutOfScope, Known;
    SoundIndexed(s);
    FlightUnderway(s, r);
    var row, f := Resume(s, r).1.value.row, s.flights[r];
    UploadFiled(s, f.key);
    SequencePositive(s);
    if row in s.rows { RowFiled(s, row); }
  }

  lemma UploadFiled(s: State, k: Key)
    requires Sound(s) && k in s.uploads
    ensures k.device in s.devices && s.devices[k.device].library == k.library
    ensures s.uploads[k].body.Material? && s.uploads[k].body.sid == k.sid
  {
  }

  lemma SequencePositive(s: State)
    requires Sound(s)
    ensures s.next >= 1
  {
  }

  /** Requests under way keep their secret and their bytes until they end. */
  predicate FlightsKept(s: State, after: State) {
    forall r :: r in after.flights ==>
      && r in s.flights && after.flights[r].secret == s.flights[r].secret
      && Carries(after.flights[r]) == Carries(s.flights[r])
  }

  lemma FlightEnds(s: State, after: State, r: nat)
    ensures after.flights == s.flights || after.flights == s.flights - {r} ==> FlightsKept(s, after)
  {
  }

  lemma FlightMoves(s: State, after: State, r: nat, f: Flight)
    requires r in s.flights && f.secret == s.flights[r].secret && Carries(f) == Carries(s.flights[r])
    ensures after.flights == s.flights[r := f] ==> FlightsKept(s, after)
  {
  }

  lemma NoneKept(s: State, after: State)
    ensures after.flights == map[] ==> FlightsKept(s, after)
  {
  }

  lemma AdmitFlights(s: State, r: nat, body: Body, now: int)
    ensures FlightsKept(s, Admit(s, r, body, now).0)
  {
    hide FlightsKept;
    var after := Admit(s, r, body, now).0;
    FlightEnds(s, after, r);
    AdmitMoves(s, r, body, now);
    hide Admit;
    if after.flights != s.flights && after.flights != s.flights - {r} { FlightMoves(s, after, r, after.flights[r]); }
  }

  predicate MovedOrEnded(s: State, after: State, r: nat) {
    || after.flights == s.flights || after.flights == s.flights - {r}
    || (r in s.flights && r in after.flights && after.flights == s.flights[r := after.flights[r]]
        && after.flights[r].secret == s.flights[r].secret && Carries(after.flights[r]) == Carries(s.flights[r]))
  }

  lemma TransactMoves(s: State, r: nat, id: nat, body: Body, now: int)
    requires r in s.flights && id in s.devices && body.Material? && Carries(s.flights[r]) == body
    ensures MovedOrEnded(s, Transact(s, r, id, body, now).0, r)
  {
    hide Committed;
  }

  lemma AdmitMoves(s: State, r: nat, body: Body, now: int)
    ensures MovedOrEnded(s, Admit(s, r, body, now).0, r)
  {
    hide Admit, Transact, Takes, Known, OutOfScope;
    AdmitCases(s, r, body, now);
    if Transacts(s, r, body) { TransactMoves(s, r, Known(s, s.flights[r].secret, false).value, body, now); }
  }

  lemma CommitFlights(s: State, r: nat, f: Flight)
    requires f.Storing? && f.body.Material?
    ensures Commit(s, r, f).0.flights == s.flights - {r}
  {
    hide Known, OutOfScope, Committed;
  }

  lemma PutFlights(s: State, r: nat)
    requires AwaitsStore(s, r) && (s.flights[r].stage == PuttingBody || s.flights[r].stage == PuttingManifest)
    ensures FlightsKept(s, Resume(s, r).0)
  {
    hide FlightsKept, Effect;
    FlightMoves(s, Resume(s, r).0, r, Resume(s, r).0.flights[r]);
  }

  lemma CheckFlights(s: State, r: nat)
    requires AwaitsStore(s, r) && (s.flights[r].stage == CheckingBody || s.flights[r].stage == CheckingManifest)
    ensures FlightsKept(s, Resume(s, r).0)
  {
    hide FlightsKept;
    var after, f := Resume(s, r).0, s.flights[r];
    FlightEnds(s, after, r);
    FlightMoves(s, after, r, f.(stage := if f.stage == CheckingBody then PuttingManifest else Committing));
  }

  lemma ResumeFlights(s: State, r: nat)
    ensures FlightsKept(s, Resume(s, r).0)
  {
    hide FlightsKept, Effect, Commit;
    FlightEnds(s, Resume(s, r).0, r);
    if AwaitsStore(s, r) {
      var f := s.flights[r];
      if f.stage == Committing {
        CommitFlights(s, r, f);
      } else if f.stage == PuttingBody || f.stage == PuttingManifest {
        hide Resume;
        PutFlights(s, r);
      } else {
        hide Resume;
        CheckFlights(s, r);
      }
    }
  }

  lemma FlightsStay(s: State, e: Event)
    requires !e.Arriving?
    ensures FlightsKept(s, Next(s, e).0)
  {
    hide Known, Admit, Resume, Effect, FlightsKept;
    match e
    case Admitting(r, body, now) => AdmitFlights(s, r, body, now);
    case Resuming(r) => ResumeFlights(s, r);
    case Breaking(r, acted) => FlightEnds(s, Next(s, e).0, r);
    case Restarting => NoneKept(s, Next(s, e).0);
    case Inviting(_, _, _, _, _) => FlightEnds(s, Next(s, e).0, 0);
    case Withdrawing(_, _) => FlightEnds(s, Next(s, e).0, 0);
    case Enrolling(_, _, _, _) => FlightEnds(s, Next(s, e).0, 0);
    case Updating(_, _, _, _) => FlightEnds(s, Next(s, e).0, 0);
  }

  /** An accepted upload is what its request carried, filed under the request's device. */
  lemma UploadsStay(s: State, e: Event)
    requires Sound(s)
    ensures forall k :: k in Next(s, e).0.uploads ==>
              || (k in s.uploads && Next(s, e).0.uploads[k] == s.uploads[k])
              || (e.Admitting? && e.r in s.flights && Next(s, e).0.uploads[k].body == Carries(s.flights[e.r])
                  && k.device in s.devices && s.devices[k.device].secret == s.flights[e.r].secret)
  {
    hide Sound, OutOfScope, Committed;
    SoundIndexed(s);
    if e.Admitting? {
      UploadsAdmitted(s, e.r, e.body, e.now);
    } else {
      assert Next(s, e).0.uploads == s.uploads by { hide Known; }
    }
  }

  lemma UploadsAdmitted(s: State, r: nat, body: Body, now: int)
    requires Indexed(s.devices, s.secrets)
    ensures forall k :: k in Admit(s, r, body, now).0.uploads ==>
              || (k in s.uploads && Admit(s, r, body, now).0.uploads[k] == s.uploads[k])
              || (r in s.flights && Admit(s, r, body, now).0.uploads[k].body == Carries(s.flights[r])
                  && k.device in s.devices && s.devices[k.device].secret == s.flights[r].secret)
  {
    hide Admit, Transact, Takes, Known, OutOfScope, Indexed;
    AdmitCases(s, r, body, now);
    if Transacts(s, r, body) {
      KnownSecret(s, s.flights[r].secret);
      TransactUploads(s, r, Known(s, s.flights[r].secret, false).value, body, now);
    }
  }

  lemma TransactUploads(s: State, r: nat, id: nat, body: Body, now: int)
    requires r in s.flights && id in s.devices && body.Material?
    ensures forall k :: k in Transact(s, r, id, body, now).0.uploads ==>
              || (k in s.uploads && Transact(s, r, id, body, now).0.uploads[k] == s.uploads[k])
              || (Transact(s, r, id, body, now).0.uploads[k].body == body && k.device == id)
  {
    hide Committed;
  }

  lemma OnlyQueuedFrame(id: Identity, s: State, after: State,
        asked: map<nat, Body>, still: map<nat, Body>, queued: seq<Body>)
    requires OnlyQueued(id, s, asked, queued)
    requires forall k :: k in after.uploads && k.device == id.device ==>
               (k in s.uploads && after.uploads[k] == s.uploads[k]) || Launchable(queued, after.uploads[k].body)
    requires FlightsKept(s, after)
    requires forall r :: r in still ==> r in asked && still[r] == asked[r]
    ensures OnlyQueued(id, after, still, queued)
  {
  }

  lemma OnlyQueuedArrives(id: Identity, s: State, r: nat, secret: nat, claimed: Option<Body>, asked: map<nat, Body>,
                    queued: seq<Body>)
    requires OnlyQueued(id, s, asked, queued) && secret != id.secret && r !in asked
    ensures OnlyQueued(id, Arrive(s, r, secret, claimed).0, asked, queued)
  {
    hide Known;
  }

  lemma OnlyQueuedAsks(id: Identity, s: State, r: nat, body: Body, asked: map<nat, Body>, queued: seq<Body>)
    requires OnlyQueued(id, s, asked, queued) && r !in asked && r !in s.flights && Launchable(queued, body)
    ensures var (after, reply) := Arrive(s, r, id.secret, Some(body));
            OnlyQueued(id, after, if reply.None? then asked[r := body] else asked, queued)
  {
    hide Known;
  }

  lemma BelongsStays(id: Identity, s: State, after: State)
    requires Belongs(id, s) && Lasts(s, after)
    ensures Belongs(id, after)
  {
  }

  lemma HasRowStays(id: Identity, s: State, after: State, body: Body)
    requires HasRow(id, s, body) && Lasts(s, after)
    ensures HasRow(id, after, body)
  {
    hide Grew;
    var i :| 0 <= i < |s.rows| && s.rows[i].key == Key(id.library, id.device, body.sid)
             && s.rows[i].upload.body == body;
    assert after.rows[i] == s.rows[i];
  }

  lemma SoundDevice(id: Identity, s: State, d: nat)
    requires Sound(s) && Belongs(id, s) && d in s.devices && s.devices[d].secret == id.secret
    ensures d == id.device
  {
  }

  /** EVERY RECEIPT PASSES. Whatever the cloud answers with a row, to a request whose reply the
      device can still hear, is that request's own bytes under the device's own key. */
  lemma ReceiptsMatch(id: Identity, w: World, e: Event)
    requires Recorded(id, w) && Requester(e).Some? && Requester(e).value in w.asked
    requires Next(w.s, e).1.Some? && Next(w.s, e).1.value.Stored?
    ensures Matches(id, w.asked[Requester(e).value], Next(w.s, e).1.value.row)
  {
    hide Sound, Next, NothingLost, HasRow;
    ReceiptIsTrue(w.s, e);
    SoundDevice(id, w.s, Next(w.s, e).1.value.row.key.device);
  }

  /** RETRIES NEVER CONFLICT: across lost replies, crashes and repeats the cloud never tells the
      device that an id was used for other bytes. */
  lemma NeverConflicts(id: Identity, w: World, e: Event)
    requires Recorded(id, w) && Requester(e).Some? && Requester(e).value in w.asked
    ensures Next(w.s, e).1 != Some(Denied(SnapshotConflict)) && Next(w.s, e).1 != Some(Denied(ManifestConflict))
  {
    hide Sound, NothingLost, HasRow, Resume;
    match e
    case Admitting(r, body, now) => AdmitsOwn(id, w, r, body, now);
    case Resuming(r) =>
      if r in w.s.flights && w.s.flights[r].Storing? {
        NoConflictAfterAcceptance(w.s, r);
      } else {
        ResumeIdle(w.s, r);
      }
    case Breaking(r, acted) =>
  }

  lemma ResumeIdle(s: State, r: nat)
    ensures !(r in s.flights && s.flights[r].Storing?) ==> Resume(s, r).1.None?
  {
  }

  lemma AdmitsOwn(id: Identity, w: World, r: nat, body: Body, now: int)
    requires Recorded(id, w) && r in w.asked
    ensures Admit(w.s, r, body, now).1 != Some(Denied(SnapshotConflict))
    ensures Admit(w.s, r, body, now).1 != Some(Denied(ManifestConflict))
  {
    hide Sound, NothingLost, HasRow;
    OutOfScopeCodes(w.s, r, body);
    var s := w.s;
    if r in s.flights && s.flights[r].Reading? && s.flights[r].claimed == body && body.Material?
       && Known(s, id.secret, false).Given?
    {
      var d := Known(s, id.secret, false).value;
      SoundIndexed(s);
      KnownSecret(s, id.secret);
      SoundDevice(id, s, d);
      var key := Key(s.devices[d].library, d, body.sid);
      if key in s.uploads {
        UploadFiled(s, key);
        SameSid(id, w.queued, body, s.uploads[key].body);
      }
    }
  }

  lemma OutOfScopeCodes(s: State, r: nat, body: Body)
    ensures forall id, policy :: body.Material? ==>
              OutOfScope(id, policy, body) != Some(SnapshotConflict)
              && OutOfScope(id, policy, body) != Some(ManifestConflict)
    ensures forall secret :: Known(s, secret, false) != Refused(SnapshotConflict)
                             && Known(s, secret, false) != Refused(ManifestConflict)
  {
  }

  lemma RecordKeeps(id: Identity, w: World, body: Body)
    requires OnePayload(id, w.queued) && NothingLost(w.p, w.queued) && body in w.queued
    ensures NothingLost(Record(w.p, body), w.queued)
  {
    forall i | 0 <= i < |w.queued|
      ensures w.queued[i] in w.p.outbox || (w.queued[i].sid in Record(w.p, body).sent
                                            && Record(w.p, body).sent[w.queued[i].sid] == w.queued[i])
    {
      if w.queued[i].sid == body.sid { SameSid(id, w.queued, w.queued[i], body); }
    }
  }

  lemma CloudQueued(id: Identity, w: World, e: Event)
    requires Recorded(id, w) && Foreign(id, w, e)
    ensures OnlyQueued(id, Next(w.s, e).0, w.asked, w.queued)
  {
    hide Sound, NothingLost, HasRow, Next, OnePayload;
    if e.Arriving? {
      assert Next(w.s, e) == Arrive(w.s, e.r, e.secret, e.claimed) by { ArrivingIs(w.s, e); }
      OnlyQueuedArrives(id, w.s, e.r, e.secret, e.claimed, w.asked, w.queued);
    } else {
      FlightsStay(w.s, e);
      UploadsStay(w.s, e);
      OnlyQueuedFrame(id, w.s, Next(w.s, e).0, w.asked, w.asked, w.queued);
    }
  }

  lemma ArrivingIs(s: State, e: Event)
    requires e.Arriving?
    ensures Next(s, e) == Arrive(s, e.r, e.secret, e.claimed)
  {
  }

  lemma CloudKeeps(id: Identity, w: World, e: Event, heard: bool)
    requires Recorded(id, w) && Foreign(id, w, e)
    ensures Recorded(id, Heard(id, w, e, heard))
  {
    hide Sound, NothingLost, OnlyQueued, Next, OnePayload, Lasts, HasRow, Foreign, Belongs;
    var after := Heard(id, w, e, heard);
    var s := Next(w.s, e).0;
    NextKeeps(w.s, e);
    NextLasts(w.s, e);
    BelongsStays(id, w.s, s);
    CloudQueued(id, w, e);
    OnlyQueuedFewer(id, s, w.asked, after.asked, w.queued);
    forall sid | sid in w.p.sent ensures HasRow(id, s, w.p.sent[sid]) { HasRowStays(id, w.s, s, w.p.sent[sid]); }
    if after.p != w.p {
      var r := Requester(e).value;
      ReceiptIsTrue(w.s, e);
      RowIsThere(id, s, Next(w.s, e).1.value.row, w.asked[r]);
      AskedQueued(id, w, r);
      RecordKeeps(id, w, w.asked[r]);
    }
  }

  lemma AskedQueued(id: Identity, w: World, r: nat)
    requires Recorded(id, w) && r in w.asked
    ensures w.asked[r] in w.queued
  {
  }

  lemma RowIsThere(id: Identity, s: State, row: Row, body: Body)
    requires row in s.rows && Matches(id, body, row)
    ensures HasRow(id, s, body)
  {
    var i :| 0 <= i < |s.rows| && s.rows[i] == row;
  }

  lemma OnlyQueuedFewer(id: Identity, s: State, asked: map<nat, Body>, still: map<nat, Body>, queued: seq<Body>)
    requires OnlyQueued(id, s, asked, queued) && forall r :: r in still ==> r in asked && still[r] == asked[r]
    ensures OnlyQueued(id, s, still, queued)
  {
  }

  lemma AskKeeps(id: Identity, library: nat, w: World, r: nat, i: nat, terms: Terms)
    requires Recorded(id, w)
    ensures Recorded(id, Go(id, library, w, Asks(r, i, terms)))
  {
    hide Sound, OnlyQueued, OnePayload, Lasts, HasRow, Belongs, Arrive;
    if InTurn(w.p, i, terms) && r !in w.asked && r !in w.s.flights {
      var body := w.p.outbox[i];
      var e := Arriving(r, id.secret, Some(body));
      ArrivingIs(w.s, e);
      NextKeeps(w.s, e);
      NextLasts(w.s, e);
      var s := Arrive(w.s, r, id.secret, Some(body)).0;
      BelongsStays(id, w.s, s);
      OnlyQueuedAsks(id, w.s, r, body, w.asked, w.queued);
      forall sid | sid in w.p.sent ensures HasRow(id, s, w.p.sent[sid]) { HasRowStays(id, w.s, s, w.p.sent[sid]); }
    }
  }

  lemma StepKeeps(id: Identity, library: nat, w: World, step: Step)
    requires Recorded(id, w) && Possible(id, w, step)
    ensures Recorded(id, Go(id, library, w, step))
  {
    hide Sound, OnlyQueued, OnePayload, NothingLost, HasRow, Belongs, InTurn, Foreign, Heard;
    match step
    case Collects(snapshot) =>
      if snapshot.Material? && Unqueued(w.p, snapshot) {
        CollectKeeps(id, w, snapshot);
        OnlyQueuedMore(id, w.s, w.asked, w.queued, w.queued + [Own(id, snapshot)]);
      }
    case Asks(r, i, terms) => AskKeeps(id, library, w, r, i, terms);
    case Cloud(e, heard) => CloudKeeps(id, w, e, heard);
    case Unlinks(i) =>
      if i < |w.p.outbox| && w.p.outbox[i].Material? && w.p.outbox[i].sid in w.p.sent { UnlinkKeeps(id, w, i); }
    case Fetches(reach) =>
    case Releases(report) =>
  }
}
