/** The device's end (`collect_once` and `snapshot_allowed` in collector.py): an outbox of exact
    payloads, and a record of what the cloud durably accepted. */
module Publisher {
  import opened Readers
  import opened Protocol
  import opened Registry
  import opened Snapshots

  /** What enrolment left in device.json. */
  datatype Identity = Identity(device: nat, secret: nat, library: nat)

  /** `sent` maps a snapshot id to the hash of the bytes that were accepted; `outbox` is the
      queue's files in order of creation. */
  datatype Outbound = Outbound(sent: map<nat, Body>, outbox: seq<Body>)

  predicate Queued(outbox: seq<Body>, sid: nat) {
    exists i :: 0 <= i < |outbox| && outbox[i].Material? && outbox[i].sid == sid
  }

  /** The payload carries the device's own identity. */
  function Own(id: Identity, snapshot: Body): Body
    requires snapshot.Material?
  {
    snapshot.(device := Some(id.device))
  }

  predicate Unqueued(p: Outbound, snapshot: Body)
    requires snapshot.Material?
  {
    snapshot.sid !in p.sent && !Queued(p.outbox, snapshot.sid) && snapshot.size <= MAX_SNAPSHOT_BYTES
  }

  function Enqueue(id: Identity, p: Outbound, snapshot: Body): Outbound
    requires snapshot.Material?
  {
    if Unqueued(p, snapshot) then p.(outbox := p.outbox + [Own(id, snapshot)]) else p
  }

  function EnqueueAll(id: Identity, p: Outbound, snapshots: seq<Body>): Outbound
    requires forall i :: 0 <= i < |snapshots| ==> snapshots[i].Material?
  {
    if snapshots == [] then p
    else Enqueue(id, EnqueueAll(id, p, snapshots[..|snapshots| - 1]), snapshots[|snapshots| - 1])
  }

  /** The receipt check. */
  predicate Matches(id: Identity, body: Body, row: Row) {
    && body.Material? && row.upload.body == body && row.key.sid == body.sid
    && row.key.device == id.device && row.key.library == id.library && row.sequence >= 1
  }

  function Record(p: Outbound, body: Body): Outbound
    requires body.Material?
  {
    p.(sent := p.sent[body.sid := body])
  }

  function Unlinked(outbox: seq<Body>, body: Body): (kept: seq<Body>)
    ensures forall b :: b in kept ==> b in outbox && b != body
    ensures forall b :: b in outbox && b != body ==> b in kept
  {
    if outbox == [] then []
    else Unlinked(outbox[..|outbox| - 1], body) + if outbox[|outbox| - 1] == body then [] else [outbox[|outbox| - 1]]
  }

  /** The policy last fetched, and what the device's own exclude patterns say of projects. */
  datatype Terms = Terms(policy: Policy, excluded: set<string>)

  datatype Check = Undecodable | Held | Sendable

  /** `snapshot_allowed`: it decodes first, and an error there is not a no. */
  function Checked(terms: Terms, body: Body): (check: Check)
    ensures check == Undecodable <==> !Decodes(body)
  {
    if !Decodes(body) then Undecodable
    else if body.harness !in terms.policy.harnesses then Held
    else if terms.policy.projects.Some? && (body.project == "" || body.project !in terms.policy.projects.value)
      then Held
    else if body.project != "" && body.project in terms.excluded then Held
    else if terms.policy.since.Some? && (EndsAt(body).None? || EndsAt(body).value < terms.policy.since.value) then Held
    else Sendable
  }

  /** The upload loop over the files it found: held ones are passed over, and the first failure
      ends it, be it a file that does not decode, a request or a receipt. `answers` has the
      receipts that came back. */
  function Publish(id: Identity, p: Outbound, items: seq<Body>, terms: Terms, answers: map<nat, Row>): Outbound
    decreases |items|
  {
    if items == [] || Checked(terms, items[0]) == Undecodable then p
    else
      var body := items[0];
      if Checked(terms, body) == Held then Publish(id, p, items[1..], terms, answers)
      else if body.sid !in answers || !Matches(id, body, answers[body.sid]) then p
      else
        var recorded := Record(p, body);
        Publish(id, recorded.(outbox := Unlinked(recorded.outbox, body)), items[1..], terms, answers)
  }

  class Collector {
    const id: Identity
    var sent: map<nat, Body>
    var outbox: seq<Body>

    function State(): Outbound
      reads this
    {
      Outbound(sent, outbox)
    }

    constructor (id: Identity)
      ensures this.id == id && State() == Outbound(map[], [])
    {
      this.id := id;
      sent, outbox := map[], [];
    }

    method Collect(snapshots: seq<Body>) returns (queued: nat)
      requires forall i :: 0 <= i < |snapshots| ==> snapshots[i].Material?
      modifies this
      ensures State() == EnqueueAll(id, old(State()), snapshots)
      ensures queued == |outbox| - |old(outbox)|
    {
      queued := 0;
      for i := 0 to |snapshots|
        invariant State() == EnqueueAll(id, old(State()), snapshots[..i])
        invariant queued == |outbox| - |old(outbox)|
      {
        var snapshot := snapshots[i];
        assert snapshots[..i + 1][..i] == snapshots[..i];
        if snapshot.sid in sent || Queued(outbox, snapshot.sid) || snapshot.size > MAX_SNAPSHOT_BYTES { continue; }
        outbox := outbox + [Own(id, snapshot)];
        queued := queued + 1;
      }
      assert snapshots[..|snapshots|] == snapshots;
    }

    method Upload(terms: Terms, answers: map<nat, Row>) returns (uploaded: nat)
      modifies this
      ensures State() == Publish(id, old(State()), old(outbox), terms, answers)
    {
      var items := outbox;
      var i := 0;
      uploaded := 0;
      while i < |items|
        invariant i <= |items|
        invariant Publish(id, old(State()), items, terms, answers) == Publish(id, State(), items[i..], terms, answers)
      {
        var body := items[i];
        assert items[i..][1..] == items[i + 1..];
        i := i + 1;
        var check := Checked(terms, body);
        if check == Undecodable { break; }
        if check == Held { continue; }
        if body.sid !in answers || !Matches(id, body, answers[body.sid]) { break; }
        sent := sent[body.sid := body];
        outbox := Unlinked(outbox, body);
        uploaded := uploaded + 1;
      }
    }
  }

  /* ---------------------------------------------------------------- scope, on both ends */

  /** The device never sends what the cloud's scope check would refuse under the same policy, and
      without exclusions holds nothing that decodes and the cloud would take. */
  lemma ScopesAgree(id: Identity, terms: Terms, snapshot: Body)
    requires snapshot.Material?
    ensures var body := Own(id, snapshot);
            && (Checked(terms, body) == Sendable ==>
                  Decodes(body) && OutOfScope(id.device, terms.policy, body) == None)
            && (Checked(Terms(terms.policy, {}), body) == Sendable
                <==> Decodes(body) && OutOfScope(id.device, terms.policy, body) == None)
  {
  }
}
