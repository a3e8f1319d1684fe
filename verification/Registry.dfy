/** The collector cloud's registry (`CollectorRegistry` in index.ts).

    One object runs one segment at a time; a request that awaits leaves a flight behind, and
    other requests run before it resumes. A digest is represented by what it digests, so a body
    stands for its hash and its length too. A put of an object that exists changes nothing
    (`If-None-Match: *`, section 13.1.2 of RFC 9110). */
module Registry {
  import Turns
  import opened Readers
  import opened Protocol

  const MAX_SNAPSHOT_BYTES: nat := 8388608
  const INVITATION_TTL_MS: nat := 600000
  const MAX_SESSION_ID: nat := 1024
  const MAX_TURNS: nat := 100000

  /** A turn as it stands in a body; `Broken` is one whose fields are not those of a turn. */
  datatype Wire =
    | Broken(at: Option<int>)
    | Spoken(id: nat, role: Turns.Role, kind: Turns.Kind, at: Option<int>, text: string)

  /** What bytes parse to. `digest` and `material` are what the session of a body hashes to, `sid`
      and `stream` what the body says of it; a project of no characters stands for none. */
  datatype Body =
    | Junk(text: nat, size: nat)
    | Material(sid: nat, stream: nat, harness: nat, session: string, project: string, device: Option<nat>,
               turns: seq<Wire>, size: nat, digest: nat, material: nat, rest: nat)

  /** What `material` lets pass; it looks at nothing a decoder would refuse, and refuses some that no
      decoder does. */
  predicate Takes(body: Body) {
    body.Material? && Text(body.session, MAX_SESSION_ID) && |body.turns| <= MAX_TURNS
  }

  /** The instant of the last turn, for the since bound. */
  function EndsAt(body: Body): Option<int>
    requires body.Material?
  {
    if body.turns == [] then None else body.turns[|body.turns| - 1].at
  }

  /** `projects` is None for "all"; its paths are normalised. */
  datatype Policy = Policy(harnesses: set<nat>, projects: Option<set<string>>, since: Option<int>)
  datatype Standing = Active | Paused | Revoked
  datatype Device = Device(secret: nat, library: nat, policy: Policy, standing: Standing)
  datatype Invitation =
    Invitation(id: nat, library: nat, policy: Policy, expires: int, revoked: bool, device: Option<nat>)

  datatype Key = Key(library: nat, device: nat, sid: nat)
  datatype Upload = Upload(stream: nat, body: Body, receivedAt: int)
  datatype Row = Row(sequence: nat, key: Key, upload: Upload)

  /** Where a request waits: for its body, or for one of the object store's answers. */
  datatype Stage = PuttingBody | CheckingBody | PuttingManifest | CheckingManifest | Committing
  datatype Flight =
    | Reading(secret: nat, claimed: Body)
    | Storing(secret: nat, key: Key, body: Body, upload: Upload, stage: Stage)

  /** `secrets` is the unique index of the devices table; `bodies` and `manifests` are the
      object store. */
  datatype State = State(
    invitations: map<nat, Invitation>, devices: map<nat, Device>, secrets: map<nat, nat>,
    uploads: map<Key, Upload>, rows: seq<Row>, next: nat,
    bodies: map<Key, Body>, manifests: map<Key, Upload>,
    flights: map<nat, Flight>, active: int)

  const EMPTY: State := State(map[], map[], map[], map[], [], 1, map[], map[], map[], 0)

  datatype Reply = Stored(row: Row, duplicate: bool) | Enrolled(device: nat, library: nat) | Fine | Denied(code: Code)
  type Outcome = (State, Option<Reply>)

  /* ---------------------------------------------------------------- lookups */

  /** `#device`. */
  function Known(s: State, secret: nat, allowPaused: bool): (r: Answer<nat>)
    ensures r.Given? ==> r.value in s.devices && s.devices[r.value].standing != Revoked
                         && (!allowPaused ==> s.devices[r.value].standing == Active)
  {
    if secret !in s.secrets || s.secrets[secret] !in s.devices then Refused(InvalidCredential)
    else
      var id := s.secrets[secret];
      match s.devices[id].standing
      case Revoked => Refused(DeviceRevoked)
      case Paused => if allowPaused then Given(id) else Refused(DevicePaused)
      case Active => Given(id)
  }

  /** `#checkScope`. */
  function OutOfScope(id: nat, policy: Policy, body: Body): Option<Code>
    requires body.Material?
  {
    if body.device.Some? && body.device.value != id then Some(IdentityMismatch)
    else if body.harness !in policy.harnesses then Some(HarnessNotAllowed)
    else if policy.projects.Some? && (body.project == "" || body.project !in policy.projects.value) then
      Some(ProjectNotAllowed)
    else if policy.since.Some? && (EndsAt(body).None? || EndsAt(body).value < policy.since.value) then
      Some(HistoryNotAllowed)
    else None
  }

  /** `#committed`. */
  function Committed(rows: seq<Row>, key: Key): (r: Option<Row>)
    ensures r.Some? ==> r.value in rows && r.value.key == key
    ensures r.None? ==> forall i :: 0 <= i < |rows| ==> rows[i].key != key
  {
    if rows == [] then None
    else if rows[0].key == key then Some(rows[0])
    else Committed(rows[1..], key)
  }

  /* ---------------------------------------------------------------- an upload, segment by segment */

  /** Only the requests under way differ. */
  predicate SameTables(s: State, after: State) {
    after == s.(flights := after.flights, active := after.active)
  }

  /** Only stored material differs; devices and invitations do not. */
  predicate SamePeople(s: State, after: State) {
    after.devices == s.devices && after.secrets == s.secrets && after.invitations == s.invitations
  }

  function End(s: State, r: nat): (after: State)
    ensures SameTables(s, after)
  {
    s.(flights := s.flights - {r}, active := s.active - 1)
  }

  function Deny(s: State, r: nat, code: Code): (o: Outcome)
    ensures SameTables(s, o.0) && o.1 == Some(Denied(code))
  {
    (End(s, r), Some(Denied(code)))
  }

  function Arrive(s: State, r: nat, secret: nat, claimed: Option<Body>): (o: Outcome)
    ensures SameTables(s, o.0)
  {
    if r in s.flights then (s, None)
    else if s.active >= 2 then (s, Some(Denied(UploadBusy)))
    else
      var device := Known(s, secret, false);
      if device.Refused? then (s, Some(Denied(device.code)))
      else if claimed.None? then (s, Some(Denied(InvalidDigest)))
      else (s.(flights := s.flights[r := Reading(secret, claimed.value)], active := s.active + 1), None)
  }

  /** The uploads transaction and the check for a committed row. */
  function Transact(s: State, r: nat, id: nat, body: Body, now: int): (o: Outcome)
    requires r in s.flights && id in s.devices && body.Material?
    ensures SameTables(s.(uploads := o.0.uploads), o.0)
  {
    var key := Key(s.devices[id].library, id, body.sid);
    if key in s.uploads && s.uploads[key].body != body then Deny(s, r, SnapshotConflict)
    else
      var upload := if key in s.uploads then s.uploads[key] else Upload(body.stream, body, now);
      var accepted := s.(uploads := s.uploads[key := upload]);
      var committed := Committed(s.rows, key);
      if committed.Some? then (End(accepted, r), Some(Stored(committed.value, true)))
      else
        var storing := Storing(s.flights[r].secret, key, body, upload, PuttingBody);
        (accepted.(flights := s.flights[r := storing]), None)
  }

  function Admit(s: State, r: nat, body: Body, now: int): (o: Outcome)
    ensures SameTables(s.(uploads := o.0.uploads), o.0)
  {
    if r !in s.flights || !s.flights[r].Reading? then (s, None)
    else
      var f := s.flights[r];
      var device := Known(s, f.secret, false);
      if body.size > MAX_SNAPSHOT_BYTES then Deny(s, r, BodyTooLarge)
      else if body != f.claimed then Deny(s, r, HashMismatch)
      else if !Takes(body) then Deny(s, r, InvalidMaterial)
      else if device.Refused? then Deny(s, r, device.code)
      else
        var scope := OutOfScope(device.value, s.devices[device.value].policy, body);
        if scope.Some? then Deny(s, r, scope.value) else Transact(s, r, device.value, body, now)
  }

  /** The request gets as far as the uploads transaction. */
  predicate Transacts(s: State, r: nat, body: Body) {
    && r in s.flights && s.flights[r].Reading? && s.flights[r].claimed == body
    && body.size <= MAX_SNAPSHOT_BYTES && Takes(body)
    && (var device := Known(s, s.flights[r].secret, false);
        device.Given? && OutOfScope(device.value, s.devices[device.value].policy, body) == None)
  }

  /** Before that a request is refused, or there is none. */
  lemma AdmitCases(s: State, r: nat, body: Body, now: int)
    ensures if Transacts(s, r, body) then
              && body.Material?
              && Admit(s, r, body, now) == Transact(s, r, Known(s, s.flights[r].secret, false).value, body, now)
            else
              && (Admit(s, r, body, now).1.Some? ==> Admit(s, r, body, now).1.value.Denied?)
              && (Admit(s, r, body, now).0 == s || (r in s.flights && Admit(s, r, body, now).0 == End(s, r)))
  {
    hide Text, OutOfScope, Known, Transact;
  }

  /** What the object store does for a flight, whether or not its answer comes back. */
  function Effect(s: State, f: Flight): (after: State)
    requires f.Storing?
    ensures after == s.(bodies := after.bodies, manifests := after.manifests)
  {
    match f.stage
    case PuttingBody => if f.key in s.bodies then s else s.(bodies := s.bodies[f.key := f.body])
    case PuttingManifest => if f.key in s.manifests then s else s.(manifests := s.manifests[f.key := f.upload])
    case _ => s
  }

  function Onward(s: State, r: nat, f: Flight, stage: Stage): (o: Outcome)
    requires f.Storing?
    ensures SameTables(s, o.0) && o.1.None?
  {
    (s.(flights := s.flights[r := f.(stage := stage)]), None)
  }

  function Commit(s: State, r: nat, f: Flight): (o: Outcome)
    requires f.Storing? && f.body.Material?
    ensures SameTables(s.(rows := o.0.rows, next := o.0.next), o.0)
  {
    var device := Known(s, f.secret, false);
    if device.Refused? then Deny(s, r, device.code)
    else
      var scope := OutOfScope(device.value, s.devices[device.value].policy, f.body);
      if scope.Some? then Deny(s, r, scope.value)
      else
        var prior := Committed(s.rows, f.key);
        if prior.Some? then (End(s, r), Some(Stored(prior.value, true)))
        else
          var row := Row(s.next, f.key, f.upload);
          (End(s, r).(rows := s.rows + [row], next := s.next + 1), Some(Stored(row, false)))
  }

  /** A put was answered: the object is new, or it has to be checked. */
  function Put(s: State, r: nat, f: Flight): (o: Outcome)
    requires f.Storing?
    ensures o.1.None? && SameTables(Effect(s, f), o.0)
  {
    var found := if f.stage == PuttingBody then f.key in s.bodies else f.key in s.manifests;
    var stage := if f.stage == PuttingBody then if found then CheckingBody else PuttingManifest
                 else if found then CheckingManifest else Committing;
    Onward(Effect(s, f), r, f, stage)
  }

  /** A head was answered. */
  function Check(s: State, r: nat, f: Flight): (o: Outcome)
    requires f.Storing?
    ensures SameTables(s, o.0)
  {
    if f.stage == CheckingBody then
      if f.key !in s.bodies || s.bodies[f.key] != f.body then Deny(s, r, SnapshotConflict)
      else Onward(s, r, f, PuttingManifest)
    else
      if f.key !in s.manifests || s.manifests[f.key] != f.upload then Deny(s, r, ManifestConflict)
      else Onward(s, r, f, Committing)
  }

  /** The next segment of a request that was waiting for the object store. */
  function Resume(s: State, r: nat): (o: Outcome)
    ensures SamePeople(s, o.0) && o.0.uploads == s.uploads
  {
    if r !in s.flights || !s.flights[r].Storing? || !s.flights[r].body.Material? then (s, None)
    else
      var f := s.flights[r];
      match f.stage
      case PuttingBody => Put(s, r, f)
      case CheckingBody => Check(s, r, f)
      case PuttingManifest => Put(s, r, f)
      case CheckingManifest => Check(s, r, f)
      case Committing => Commit(s, r, f)
  }

  /** An await that throws, before or after the object store acted. */
  function Break(s: State, r: nat, acted: bool): (o: Outcome)
    ensures SamePeople(s, o.0) && o.0.uploads == s.uploads && o.0.rows == s.rows && o.0.next == s.next
  {
    if r !in s.flights then (s, None)
    else
      var f := s.flights[r];
      Deny(if acted && f.Storing? then Effect(s, f) else s, r, InternalError)
  }

  /* ---------------------------------------------------------------- devices and invitations */

  function Invite(s: State, token: nat, id: nat, library: nat, policy: Policy, now: int): Outcome {
    if token in s.invitations || exists t :: t in s.invitations && s.invitations[t].id == id then
      (s, Some(Denied(InternalError)))
    else
      var invitation := Invitation(id, library, policy, now + INVITATION_TTL_MS, false, None);
      (s.(invitations := s.invitations[token := invitation]), Some(Fine))
  }

  predicate Names(invitation: Invitation, library: nat, id: nat) {
    invitation.library == library && invitation.id == id
  }

  function Withdraw(s: State, library: nat, id: nat): Outcome {
    if !exists t :: t in s.invitations && Names(s.invitations[t], library, id) then
      (s, Some(Denied(InvitationNotFound)))
    else
      (s.(invitations := map t | t in s.invitations ::
            if Names(s.invitations[t], library, id) then s.invitations[t].(revoked := true) else s.invitations[t]),
       Some(Fine))
  }

  function Enroll(s: State, token: nat, id: nat, secret: nat, now: int): Outcome {
    if token !in s.invitations then (s, Some(Denied(InvalidInvitation)))
    else
      var invitation := s.invitations[token];
      if invitation.revoked then (s, Some(Denied(InvitationRevoked)))
      else if invitation.device.Some? then
        var claimed := invitation.device.value;
        if claimed !in s.devices || claimed != id || s.devices[claimed].secret != secret then
          (s, Some(Denied(InvitationAlreadyClaimed)))
        else if s.devices[claimed].standing == Revoked then (s, Some(Denied(DeviceRevoked)))
        else (s, Some(Enrolled(claimed, s.devices[claimed].library)))
      else if invitation.expires <= now then (s, Some(Denied(InvitationExpired)))
      else if id in s.devices || secret in s.secrets then (s, Some(Denied(DeviceAlreadyRegistered)))
      else
        (s.(devices := s.devices[id := Device(secret, invitation.library, invitation.policy, Active)],
            secrets := s.secrets[secret := id],
            invitations := s.invitations[token := invitation.(device := Some(id))]),
         Some(Enrolled(id, invitation.library)))
  }

  function UpdateDevice(s: State, library: nat, id: nat, standing: Standing, policy: Option<Policy>): Outcome {
    if id !in s.devices || s.devices[id].library != library then (s, Some(Denied(DeviceNotFound)))
    else if s.devices[id].standing == Revoked && standing != Revoked then (s, Some(Denied(DeviceRevoked)))
    else
      var device := s.devices[id].(standing := standing);
      (s.(devices := s.devices[id := if policy.Some? then device.(policy := policy.value) else device]), Some(Fine))
  }

  /* ---------------------------------------------------------------- runs */

  datatype Event =
    | Arriving(r: nat, secret: nat, claimed: Option<Body>)
    | Admitting(r: nat, body: Body, now: int)
    | Resuming(r: nat)
    | Breaking(r: nat, acted: bool)
    | Restarting
    | Inviting(token: nat, id: nat, library: nat, policy: Policy, now: int)
    | Withdrawing(library: nat, id: nat)
    | Enrolling(token: nat, id: nat, secret: nat, now: int)
    | Updating(library: nat, id: nat, standing: Standing, change: Option<Policy>)

  function Next(s: State, e: Event): Outcome {
    match e
    case Arriving(r, secret, claimed) => Arrive(s, r, secret, claimed)
    case Admitting(r, body, now) => Admit(s, r, body, now)
    case Resuming(r) => Resume(s, r)
    case Breaking(r, acted) => Break(s, r, acted)
    case Restarting => (s.(flights := map[], active := 0), None)
    case Inviting(token, id, library, policy, now) => Invite(s, token, id, library, policy, now)
    case Withdrawing(library, id) => Withdraw(s, library, id)
    case Enrolling(token, id, secret, now) => Enroll(s, token, id, secret, now)
    case Updating(library, id, standing, change) => UpdateDevice(s, library, id, standing, change)
  }

  function Run(s: State, events: seq<Event>): State {
    if events == [] then s else Next(Run(s, events[..|events| - 1]), events[|events| - 1]).0
  }

  /* ---------------------------------------------------------------- the invariant */

  /** Each secret opens exactly its device. */
  predicate Indexed(devices: map<nat, Device>, secrets: map<nat, nat>) {
    && (forall x :: x in secrets ==> secrets[x] in devices && devices[secrets[x]].secret == x)
    && (forall d :: d in devices ==> devices[d].secret in secrets && secrets[devices[d].secret] == d)
  }

  /** A claimed invitation's device exists, in the invitation's library. */
  predicate Claims(invitations: map<nat, Invitation>, devices: map<nat, Device>) {
    forall t :: t in invitations && invitations[t].device.Some? ==>
      var d := invitations[t].device.value;
      d in devices && devices[d].library == invitations[t].library
  }

  /** An accepted upload is filed under its own device, library and snapshot id. */
  predicate Filed(uploads: map<Key, Upload>, devices: map<nat, Device>) {
    forall k :: k in uploads ==>
      && k.device in devices && devices[k.device].library == k.library
      && uploads[k].body.Material? && uploads[k].body.sid == k.sid
      && uploads[k].stream == uploads[k].body.stream && uploads[k].body.size <= MAX_SNAPSHOT_BYTES
  }

  /** Both stored objects are what the uploads row says. */
  predicate Matching(uploads: map<Key, Upload>, bodies: map<Key, Body>, manifests: map<Key, Upload>) {
    && (forall k :: k in bodies ==> k in uploads && bodies[k] == uploads[k].body)
    && (forall k :: k in manifests ==> k in uploads && manifests[k] == uploads[k])
  }

  /** A snapshots row names an accepted upload whose two objects exist. */
  predicate Backed(rows: seq<Row>, uploads: map<Key, Upload>, bodies: map<Key, Body>, manifests: map<Key, Upload>) {
    forall i :: 0 <= i < |rows| ==>
      rows[i].key in uploads && rows[i].upload == uploads[rows[i].key]
      && rows[i].key in bodies && rows[i].key in manifests
  }

  /** Sequences grow, and no key has two rows. */
  predicate Ordered(rows: seq<Row>, next: nat) {
    && next > 0
    && (forall i :: 0 <= i < |rows| ==> 0 < rows[i].sequence < next)
    && (forall i, j :: 0 <= i < j < |rows| ==> rows[i].sequence < rows[j].sequence && rows[i].key != rows[j].key)
  }

  predicate Underway(s: State, f: Flight) {
    f.Storing? ==>
      && f.key in s.uploads && s.uploads[f.key] == f.upload && f.upload.body == f.body
      && f.key.device in s.devices && s.devices[f.key.device].secret == f.secret
      && (f.stage != PuttingBody ==> f.key in s.bodies)
      && (f.stage == CheckingManifest || f.stage == Committing ==> f.key in s.manifests)
  }

  predicate Counted(s: State) {
    && |s.flights| == s.active <= 2
    && (forall r :: r in s.flights ==> Underway(s, s.flights[r]))
  }

  predicate Sound(s: State) {
    && Indexed(s.devices, s.secrets)
    && Claims(s.invitations, s.devices)
    && Filed(s.uploads, s.devices)
    && Matching(s.uploads, s.bodies, s.manifests)
    && Backed(s.rows, s.uploads, s.bodies, s.manifests)
    && Ordered(s.rows, s.next)
    && Counted(s)
  }

  /** What a flight relies on never goes away. */
  predicate Grew(s: State, after: State) {
    && (forall k :: k in s.uploads ==> k in after.uploads && after.uploads[k] == s.uploads[k])
    && (forall k :: k in s.bodies ==> k in after.bodies)
    && (forall k :: k in s.manifests ==> k in after.manifests)
    && (forall d :: d in s.devices ==> d in after.devices && after.devices[d].secret == s.devices[d].secret
                                       && after.devices[d].library == s.devices[d].library)
  }

  lemma UnderwayFrame(s: State, after: State)
    requires Counted(s) && Grew(s, after) && after.flights == s.flights && after.active == s.active
    ensures Counted(after)
  {
    forall r | r in after.flights ensures Underway(after, after.flights[r]) {
      assert Underway(s, s.flights[r]);
    }
  }

  lemma FlightUnderway(s: State, r: nat)
    requires Counted(s) && r in s.flights
    ensures Underway(s, s.flights[r])
  {
  }

  lemma BackedFrame(rows: seq<Row>, s: State, after: State)
    requires Backed(rows, s.uploads, s.bodies, s.manifests) && Grew(s, after)
    ensures Backed(rows, after.uploads, after.bodies, after.manifests)
  {
  }

  lemma FiledFrame(s: State, after: State)
    requires Filed(s.uploads, s.devices) && Grew(s, after) && after.uploads == s.uploads
    ensures Filed(after.uploads, after.devices)
  {
  }

  lemma FlightsCount(flights: map<nat, Flight>, r: nat, f: Flight)
    ensures r in flights ==> |flights - {r}| == |flights| - 1 && |flights[r := f]| == |flights|
    ensures r !in flights ==> |flights[r := f]| == |flights| + 1
  {
    assert (flights - {r}).Keys == flights.Keys - {r};
    assert flights[r := f].Keys == flights.Keys + {r};
    assert |flights| == |flights.Keys| && |flights - {r}| == |(flights - {r}).Keys|;
    assert |flights[r := f]| == |flights[r := f].Keys|;
  }

  /* ---------------------------------------------------------------- each segment keeps it */

  lemma EndCounts(s: State, r: nat)
    requires Counted(s) && r in s.flights
    ensures Counted(End(s, r))
  {
    FlightsCount(s.flights, r, s.flights[r]);
    forall q | q in End(s, r).flights ensures Underway(End(s, r), s.flights[q]) {
      assert Underway(s, s.flights[q]);
    }
  }

  lemma EndKeeps(s: State, r: nat)
    requires Sound(s) && r in s.flights
    ensures Sound(End(s, r))
  {
    hide Counted, Indexed, Claims, Filed, Matching, Backed, Ordered;
    EndCounts(s, r);
  }

  lemma FliesOn(s: State, r: nat, f: Flight, active: int)
    requires Counted(s) && Underway(s, f)
    requires if r in s.flights then active == s.active else active == s.active + 1 <= 2
    ensures Counted(s.(flights := s.flights[r := f], active := active))
  {
    FlightsCount(s.flights, r, f);
    var after := s.(flights := s.flights[r := f], active := active);
    forall q | q in after.flights ensures Underway(after, after.flights[q]) {
      assert Underway(s, after.flights[q]);
    }
  }

  lemma OnwardKeeps(s: State, r: nat, f: Flight)
    requires Sound(s) && r in s.flights && Underway(s, f)
    ensures Sound(s.(flights := s.flights[r := f]))
  {
    hide Counted, Indexed, Claims, Filed, Matching, Backed, Ordered, Underway;
    FliesOn(s, r, f, s.active);
  }

  lemma ArriveKeeps(s: State, r: nat, secret: nat, claimed: Option<Body>)
    requires Sound(s)
    ensures Sound(Arrive(s, r, secret, claimed).0)
  {
    hide Counted, Indexed, Claims, Filed, Matching, Backed, Ordered, Known;
    if claimed.Some? && r !in s.flights && s.active < 2 {
      FliesOn(s, r, Reading(secret, claimed.value), s.active + 1);
    }
  }

  lemma MoreUploads(s: State, key: Key, upload: Upload)
    requires key in s.uploads ==> s.uploads[key] == upload
    ensures Grew(s, s.(uploads := s.uploads[key := upload]))
  {
  }

  /** The uploads transaction only adds a row for a key that had none. */
  lemma AcceptKeeps(s: State, key: Key, upload: Upload)
    requires Sound(s) && (key in s.uploads ==> s.uploads[key] == upload)
    requires key.device in s.devices && s.devices[key.device].library == key.library
    requires upload.body.Material? && upload.body.sid == key.sid && upload.stream == upload.body.stream
    requires upload.body.size <= MAX_SNAPSHOT_BYTES
    ensures Sound(s.(uploads := s.uploads[key := upload]))
  {
    hide Counted, Indexed, Claims, Backed, Ordered, Grew;
    var after := s.(uploads := s.uploads[key := upload]);
    assert Grew(s, after) by { MoreUploads(s, key, upload); }
    UnderwayFrame(s, after);
    BackedFrame(s.rows, s, after);
  }

  lemma AdmitKeeps(s: State, r: nat, body: Body, now: int)
    requires Sound(s)
    ensures Sound(Admit(s, r, body, now).0)
  {
    hide Admit, Transact, End, Takes, Sound, Known, OutOfScope;
    AdmitCases(s, r, body, now);
    if Transacts(s, r, body) {
      var f, id := s.flights[r], Known(s, s.flights[r].secret, false).value;
      assert s.devices[id].secret == f.secret by { SoundSecret(s, f.secret); }
      TransactKeeps(s, r, id, body, now);
    } else if r in s.flights {
      EndKeeps(s, r);
    }
  }

  lemma SoundSecret(s: State, secret: nat)
    requires Sound(s) && Known(s, secret, false).Given?
    ensures s.devices[Known(s, secret, false).value].secret == secret
  {
    KnownSecret(s, secret);
  }

  lemma TransactKeeps(s: State, r: nat, id: nat, body: Body, now: int)
    requires Sound(s) && r in s.flights && id in s.devices && s.devices[id].secret == s.flights[r].secret
    requires body.Material? && body.size <= MAX_SNAPSHOT_BYTES
    ensures Sound(Transact(s, r, id, body, now).0)
  {
    hide Counted, Indexed, Claims, Matching, Backed, Ordered, Underway, Committed;
    EndKeeps(s, r);
    var key, f := Key(s.devices[id].library, id, body.sid), s.flights[r];
    if key !in s.uploads || s.uploads[key].body == body {
      var upload := if key in s.uploads then s.uploads[key] else Upload(body.stream, body, now);
      AcceptKeeps(s, key, upload);
      var accepted := s.(uploads := s.uploads[key := upload]);
      EndKeeps(accepted, r);
      StartsUnderway(accepted, Storing(f.secret, key, body, upload, PuttingBody));
      OnwardKeeps(accepted, r, Storing(f.secret, key, body, upload, PuttingBody));
    }
  }

  lemma KnownSecret(s: State, secret: nat)
    requires Indexed(s.devices, s.secrets) && Known(s, secret, false).Given?
    ensures s.devices[Known(s, secret, false).value].secret == secret
  {
  }

  lemma StartsUnderway(s: State, f: Flight)
    requires f.Storing? && f.key in s.uploads && s.uploads[f.key] == f.upload && f.upload.body == f.body
    requires f.key.device in s.devices && s.devices[f.key.device].secret == f.secret && f.stage == PuttingBody
    ensures Underway(s, f)
  {
  }

  lemma EffectMatches(s: State, f: Flight)
    requires Matching(s.uploads, s.bodies, s.manifests) && f.Storing? && Underway(s, f)
    ensures Matching(Effect(s, f).uploads, Effect(s, f).bodies, Effect(s, f).manifests)
  {
  }

  lemma EffectGrows(s: State, f: Flight)
    requires f.Storing?
    ensures Grew(s, Effect(s, f))
  {
    var after := Effect(s, f);
    assert after.uploads == s.uploads && after.devices == s.devices;
    assert forall k :: k in s.bodies ==> k in after.bodies;
    assert forall k :: k in s.manifests ==> k in after.manifests;
  }

  lemma EffectKeeps(s: State, r: nat)
    requires Sound(s) && r in s.flights && s.flights[r].Storing?
    ensures Sound(Effect(s, s.flights[r]))
  {
    hide Counted, Indexed, Claims, Filed, Matching, Backed, Ordered;
    var f := s.flights[r];
    FlightUnderway(s, r);
    EffectMatches(s, f);
    EffectGrows(s, f);
    var after := Effect(s, f);
    UnderwayFrame(s, after);
    BackedFrame(s.rows, s, after);
  }

  lemma RowAdded(s: State, f: Flight)
    requires Backed(s.rows, s.uploads, s.bodies, s.manifests) && Ordered(s.rows, s.next)
    requires f.Storing? && f.stage == Committing && Underway(s, f) && Committed(s.rows, f.key).None?
    ensures Backed(s.rows + [Row(s.next, f.key, f.upload)], s.uploads, s.bodies, s.manifests)
    ensures Ordered(s.rows + [Row(s.next, f.key, f.upload)], s.next + 1)
  {
  }

  lemma RowCounts(s: State, rows: seq<Row>, next: nat)
    requires Counted(s)
    ensures Counted(s.(rows := rows, next := next))
  {
    UnderwayFrame(s, s.(rows := rows, next := next));
  }

  lemma CommitKeeps(s: State, r: nat)
    requires Sound(s) && r in s.flights && s.flights[r].Storing? && s.flights[r].stage == Committing
    requires s.flights[r].body.Material?
    ensures Sound(Commit(s, r, s.flights[r]).0)
  {
    hide Counted, Indexed, Claims, Filed, Matching, Backed, Ordered, Underway, Known, OutOfScope;
    var f := s.flights[r];
    FlightUnderway(s, r);
    EndKeeps(s, r);
    if Committed(s.rows, f.key).None? {
      RowAdded(s, f);
      RowCounts(End(s, r), s.rows + [Row(s.next, f.key, f.upload)], s.next + 1);
    }
  }

  lemma MovesOn(s: State, f: Flight)
    requires f.Storing? && Underway(s, f)
    ensures f.stage == PuttingBody ==>
              Underway(Effect(s, f), f.(stage := PuttingManifest)) && Underway(Effect(s, f), f.(stage := CheckingBody))
    ensures f.stage == CheckingBody ==> Underway(s, f.(stage := PuttingManifest))
    ensures f.stage == PuttingManifest ==>
              Underway(Effect(s, f), f.(stage := CheckingManifest)) && Underway(Effect(s, f), f.(stage := Committing))
    ensures f.stage == CheckingManifest ==> Underway(s, f.(stage := Committing))
  {
  }

  lemma ResumeKeeps(s: State, r: nat)
    requires Sound(s)
    ensures Sound(Resume(s, r).0)
  {
    hide Sound, Underway, Commit, Effect;
    if r in s.flights && s.flights[r].Storing? && s.flights[r].body.Material? {
      var f := s.flights[r];
      SoundCounts(s);
      FlightUnderway(s, r);
      EndKeeps(s, r);
      EffectKeeps(s, r);
      MovesOn(s, f);
      match f.stage
      case PuttingBody =>
        OnwardKeeps(Effect(s, f), r, f.(stage := if f.key in s.bodies then CheckingBody else PuttingManifest));
      case CheckingBody => OnwardKeeps(s, r, f.(stage := PuttingManifest));
      case PuttingManifest =>
        OnwardKeeps(Effect(s, f), r, f.(stage := if f.key in s.manifests then CheckingManifest else Committing));
      case CheckingManifest => OnwardKeeps(s, r, f.(stage := Committing));
      case Committing => CommitKeeps(s, r);
    }
  }

  lemma SoundCounts(s: State)
    requires Sound(s)
    ensures Counted(s)
  {
  }

  lemma BreakKeeps(s: State, r: nat, acted: bool)
    requires Sound(s)
    ensures Sound(Break(s, r, acted).0)
  {
    hide Sound, Effect;
    if r in s.flights {
      EndKeeps(s, r);
      if s.flights[r].Storing? {
        EffectKeeps(s, r);
        EndKeeps(Effect(s, s.flights[r]), r);
      }
    }
  }

  /** Devices and invitations change without touching what is stored. */
  lemma PeopleKeep(s: State, after: State)
    requires Sound(s) && Grew(s, after)
    requires Indexed(after.devices, after.secrets) && Claims(after.invitations, after.devices)
    requires after == s.(devices := after.devices, secrets := after.secrets, invitations := after.invitations)
    ensures Sound(after)
  {
    hide Counted, Indexed, Claims, Filed, Matching, Backed, Ordered, Grew;
    UnderwayFrame(s, after);
    FiledFrame(s, after);
  }

  lemma InviteKeeps(s: State, token: nat, id: nat, library: nat, policy: Policy, now: int)
    requires Sound(s)
    ensures Sound(Invite(s, token, id, library, policy, now).0)
  {
    hide Counted, Indexed, Filed, Matching, Backed, Ordered;
    var after := Invite(s, token, id, library, policy, now).0;
    assert Claims(after.invitations, after.devices);
    assert Grew(s, after);
    PeopleKeep(s, after);
  }

  lemma WithdrawKeeps(s: State, library: nat, id: nat)
    requires Sound(s)
    ensures Sound(Withdraw(s, library, id).0)
  {
    hide Counted, Indexed, Filed, Matching, Backed, Ordered;
    var after := Withdraw(s, library, id).0;
    assert Claims(after.invitations, after.devices);
    assert Grew(s, after);
    PeopleKeep(s, after);
  }

  lemma NewDeviceIndexed(devices: map<nat, Device>, secrets: map<nat, nat>, id: nat, device: Device)
    requires Indexed(devices, secrets) && id !in devices && device.secret !in secrets
    ensures Indexed(devices[id := device], secrets[device.secret := id])
  {
  }

  lemma NewDeviceClaims(invitations: map<nat, Invitation>, devices: map<nat, Device>, token: nat, id: nat,
        device: Device)
    requires Claims(invitations, devices) && id !in devices && token in invitations
    requires device.library == invitations[token].library
    ensures Claims(invitations[token := invitations[token].(device := Some(id))], devices[id := device])
  {
  }

  lemma EnrollKeeps(s: State, token: nat, id: nat, secret: nat, now: int)
    requires Sound(s)
    ensures Sound(Enroll(s, token, id, secret, now).0)
  {
    hide Counted, Indexed, Claims, Filed, Matching, Backed, Ordered;
    var after := Enroll(s, token, id, secret, now).0;
    if after != s {
      var device := Device(secret, s.invitations[token].library, s.invitations[token].policy, Active);
      NewDeviceIndexed(s.devices, s.secrets, id, device);
      NewDeviceClaims(s.invitations, s.devices, token, id, device);
      PeopleKeep(s, after);
    }
  }

  lemma ChangedDevice(invitations: map<nat, Invitation>, devices: map<nat, Device>, secrets: map<nat, nat>, id: nat,
                      device: Device)
    requires Indexed(devices, secrets) && Claims(invitations, devices) && id in devices
    requires device.secret == devices[id].secret && device.library == devices[id].library
    ensures Indexed(devices[id := device], secrets) && Claims(invitations, devices[id := device])
  {
  }

  lemma UpdateKeeps(s: State, library: nat, id: nat, standing: Standing, change: Option<Policy>)
    requires Sound(s)
    ensures Sound(UpdateDevice(s, library, id, standing, change).0)
  {
    hide Counted, Indexed, Claims, Filed, Matching, Backed, Ordered;
    var after := UpdateDevice(s, library, id, standing, change).0;
    if after != s {
      ChangedDevice(s.invitations, s.devices, s.secrets, id, after.devices[id]);
      PeopleKeep(s, after);
    }
  }

  lemma RestartKeeps(s: State)
    requires Sound(s)
    ensures Sound(s.(flights := map[], active := 0))
  {
    hide Indexed, Claims, Filed, Matching, Backed, Ordered;
  }

  lemma NextKeeps(s: State, e: Event)
    requires Sound(s)
    ensures Sound(Next(s, e).0)
  {
    hide Sound, Arrive, Admit, Resume, Break, Invite, Withdraw, Enroll, UpdateDevice;
    match e
    case Arriving(r, secret, claimed) => ArriveKeeps(s, r, secret, claimed);
    case Admitting(r, body, now) => AdmitKeeps(s, r, body, now);
    case Resuming(r) => ResumeKeeps(s, r);
    case Breaking(r, acted) => BreakKeeps(s, r, acted);
    case Restarting => RestartKeeps(s);
    case Inviting(token, id, library, policy, now) => InviteKeeps(s, token, id, library, policy, now);
    case Withdrawing(library, id) => WithdrawKeeps(s, library, id);
    case Enrolling(token, id, secret, now) => EnrollKeeps(s, token, id, secret, now);
    case Updating(library, id, standing, change) => UpdateKeeps(s, library, id, standing, change);
  }

  /** COMMIT INVARIANT, under every interleaving of uploads, failures, restarts, enrolments and
      policy changes. */
  lemma {:induction false} SoundRuns(events: seq<Event>)
    ensures Sound(Run(EMPTY, events))
  {
    hide Sound;
    if events == [] {
      NothingStored();
    } else {
      SoundRuns(events[..|events| - 1]);
      NextKeeps(Run(EMPTY, events[..|events| - 1]), events[|events| - 1]);
    }
  }

  lemma NothingStored()
    ensures Sound(EMPTY)
  {
  }

  /* ---------------------------------------------------------------- the object */

  class CollectorRegistry {
    var invitations: map<nat, Invitation>
    var devices: map<nat, Device>
    var secrets: map<nat, nat>
    var uploads: map<Key, Upload>
    var rows: seq<Row>
    var next: nat
    var bodies: map<Key, Body>
    var manifests: map<Key, Upload>
    var flights: map<nat, Flight>
    var active: int

    function Tables(): State
      reads this
    {
      State(invitations, devices, secrets, uploads, rows, next, bodies, manifests, flights, active)
    }

    constructor ()
      ensures Tables() == EMPTY && Sound(Tables())
    {
      invitations, devices, secrets, uploads, rows, next := map[], map[], map[], map[], [], 1;
      bodies, manifests, flights, active := map[], map[], map[], 0;
    }

    method Finish(r: nat)
      modifies this
      ensures Tables() == End(old(Tables()), r)
    {
      flights := flights - {r};
      active := active - 1;
    }

    /** Entering `#upload`, up to the first await. */
    method Enter(r: nat, secret: nat, claimed: Option<Body>) returns (reply: Option<Reply>)
      requires r !in flights
      modifies this
      ensures (Tables(), reply) == Arrive(old(Tables()), r, secret, claimed)
    {
      if active >= 2 { return Some(Denied(UploadBusy)); }
      var device := Known(Tables(), secret, false);
      if device.Refused? { return Some(Denied(device.code)); }
      if claimed.None? { return Some(Denied(InvalidDigest)); }
      flights := flights[r := Reading(secret, claimed.value)];
      active := active + 1;
      reply := None;
    }

    /** From the body's arrival through the uploads transaction. */
    method Accept(r: nat, body: Body, now: int) returns (reply: Option<Reply>)
      requires r in flights && flights[r].Reading?
      modifies this
      ensures (Tables(), reply) == Admit(old(Tables()), r, body, now)
    {
      var f := flights[r];
      if body.size > MAX_SNAPSHOT_BYTES { Finish(r); return Some(Denied(BodyTooLarge)); }
      if body != f.claimed { Finish(r); return Some(Denied(HashMismatch)); }
      if !Takes(body) { Finish(r); return Some(Denied(InvalidMaterial)); }
      var device := Known(Tables(), f.secret, false);
      if device.Refused? { Finish(r); return Some(Denied(device.code)); }
      var id := device.value;
      var scope := OutOfScope(id, devices[id].policy, body);
      if scope.Some? { Finish(r); return Some(Denied(scope.value)); }
      var key := Key(devices[id].library, id, body.sid);
      if key !in uploads {
        uploads := uploads[key := Upload(body.stream, body, now)];
      } else if uploads[key].body != body {
        Finish(r);
        return Some(Denied(SnapshotConflict));
      }
      var upload := uploads[key];
      assert uploads == old(uploads)[key := upload];
      var committed := Committed(rows, key);
      if committed.Some? { Finish(r); return Some(Stored(committed.value, true)); }
      flights := flights[r := Storing(f.secret, key, body, upload, PuttingBody)];
      reply := None;
    }

    /** The segment after one of the object store's answers. */
    method Advance(r: nat) returns (reply: Option<Reply>)
      requires r in flights && flights[r].Storing? && flights[r].body.Material?
      modifies this
      ensures (Tables(), reply) == Resume(old(Tables()), r)
    {
      var f := flights[r];
      var stage := Committing;
      match f.stage {
        case PuttingBody =>
          stage := PuttingManifest;
          if f.key in bodies { stage := CheckingBody; } else { bodies := bodies[f.key := f.body]; }
        case CheckingBody =>
          stage := PuttingManifest;
          if f.key !in bodies || bodies[f.key] != f.body { Finish(r); return Some(Denied(SnapshotConflict)); }
        case PuttingManifest =>
          if f.key in manifests { stage := CheckingManifest; } else { manifests := manifests[f.key := f.upload]; }
        case CheckingManifest =>
          if f.key !in manifests || manifests[f.key] != f.upload { Finish(r); return Some(Denied(ManifestConflict)); }
        case Committing =>
          reply := Record(r);
          return;
      }
      flights := flights[r := f.(stage := stage)];
      reply := None;
    }

    /** The commit transaction. */
    method Record(r: nat) returns (reply: Option<Reply>)
      requires r in flights && flights[r].Storing? && flights[r].body.Material?
      modifies this
      ensures (Tables(), reply) == Commit(old(Tables()), r, old(flights[r]))
    {
      var f := flights[r];
      var device := Known(Tables(), f.secret, false);
      if device.Refused? { Finish(r); return Some(Denied(device.code)); }
      var scope := OutOfScope(device.value, devices[device.value].policy, f.body);
      if scope.Some? { Finish(r); return Some(Denied(scope.value)); }
      var prior := Committed(rows, f.key);
      if prior.Some? { Finish(r); return Some(Stored(prior.value, true)); }
      var row := Row(next, f.key, f.upload);
      rows := rows + [row];
      next := next + 1;
      Finish(r);
      reply := Some(Stored(row, false));
    }

    method Issue(token: nat, id: nat, library: nat, policy: Policy, now: int) returns (reply: Reply)
      modifies this
      ensures (Tables(), Some(reply)) == Invite(old(Tables()), token, id, library, policy, now)
    {
      if token in invitations || exists t :: t in invitations && invitations[t].id == id {
        return Denied(InternalError);
      }
      invitations := invitations[token := Invitation(id, library, policy, now + INVITATION_TTL_MS, false, None)];
      reply := Fine;
    }

    method Claim(token: nat, id: nat, secret: nat, now: int) returns (reply: Reply)
      modifies this
      ensures (Tables(), Some(reply)) == Enroll(old(Tables()), token, id, secret, now)
    {
      if token !in invitations { return Denied(InvalidInvitation); }
      var invitation := invitations[token];
      if invitation.revoked { return Denied(InvitationRevoked); }
      if invitation.device.Some? {
        var claimed := invitation.device.value;
        if claimed !in devices || claimed != id || devices[claimed].secret != secret {
          return Denied(InvitationAlreadyClaimed);
        }
        if devices[claimed].standing == Revoked { return Denied(DeviceRevoked); }
        return Enrolled(claimed, devices[claimed].library);
      }
      if invitation.expires <= now { return Denied(InvitationExpired); }
      if id in devices || secret in secrets { return Denied(DeviceAlreadyRegistered); }
      devices := devices[id := Device(secret, invitation.library, invitation.policy, Active)];
      secrets := secrets[secret := id];
      invitations := invitations[token := invitation.(device := Some(id))];
      reply := Enrolled(id, invitation.library);
    }

    method Update(library: nat, id: nat, standing: Standing, policy: Option<Policy>) returns (reply: Reply)
      modifies this
      ensures (Tables(), Some(reply)) == UpdateDevice(old(Tables()), library, id, standing, policy)
    {
      if id !in devices || devices[id].library != library { return Denied(DeviceNotFound); }
      if devices[id].standing == Revoked && standing != Revoked { return Denied(DeviceRevoked); }
      var device := devices[id].(standing := standing);
      if policy.Some? { device := device.(policy := policy.value); }
      devices := devices[id := device];
      reply := Fine;
    }
  }
}
