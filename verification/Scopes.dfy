/** What may leave the device and what the cloud admits, condition by condition: the device's
    check and the cloud's are named only on one side of an equivalence. */
module Scopes {
  import opened Readers
  import opened Protocol
  import opened Registry
  import opened RegistryRuns
  import opened Snapshots
  import opened HostFeed
  import opened Publisher
  import opened Delivery
  import opened EndToEnd

  /* ---------------------------------------------------------------- the conditions */

  ghost predicate Listed(policy: Policy, body: Body)
    requires body.Material?
  {
    policy.projects.Some? ==> body.project != "" && body.project in policy.projects.value
  }

  /** The session goes on at or after the bound. */
  ghost predicate Recent(policy: Policy, body: Body)
    requires body.Material?
  {
    policy.since.Some? ==>
      body.turns != []
      && (var last := body.turns[|body.turns| - 1].at; last.Some? && last.value >= policy.since.value)
  }

  ghost predicate Within(policy: Policy, body: Body) {
    body.Material? && body.harness in policy.harnesses && Listed(policy, body) && Recent(policy, body)
  }

  ghost predicate Excluded(terms: Terms, body: Body)
    requires body.Material?
  {
    body.project != "" && body.project in terms.excluded
  }

  /** What the device may send under its terms. */
  ghost predicate Allowed(terms: Terms, body: Body) {
    Decodes(body) && Within(terms.policy, body) && !Excluded(terms, body)
  }

  ghost predicate OwnIdentity(device: nat, body: Body)
    requires body.Material?
  {
    body.device == None || body.device == Some(device)
  }

  /** The cloud refuses a body exactly for another device's name, another harness, a project not
      listed or a history before the bound, and says which came first. */
  lemma ScopeIff(id: nat, policy: Policy, body: Body)
    requires body.Material?
    ensures var code := OutOfScope(id, policy, body);
            && (code == None <==> OwnIdentity(id, body) && Within(policy, body))
            && (code == Some(IdentityMismatch) <==> !OwnIdentity(id, body))
            && (code == Some(HarnessNotAllowed) <==> OwnIdentity(id, body) && body.harness !in policy.harnesses)
            && (code == Some(ProjectNotAllowed)
                <==> OwnIdentity(id, body) && body.harness in policy.harnesses && !Listed(policy, body))
            && (code == Some(HistoryNotAllowed)
                <==> OwnIdentity(id, body) && body.harness in policy.harnesses && Listed(policy, body)
                     && !Recent(policy, body))
  {
  }

  /** A file is held exactly when it decodes and its harness is not collected, its project is not
      listed or is excluded, or it ended before the bound; one that does not decode is never
      held, and every other one is sent. */
  lemma HeldIff(terms: Terms, body: Body)
    ensures Checked(terms, body) == Held
            <==> Decodes(body) && (body.harness !in terms.policy.harnesses || !Listed(terms.policy, body)
                                   || Excluded(terms, body) || !Recent(terms.policy, body))
    ensures Checked(terms, body) == Sendable <==> Allowed(terms, body)
  {
    hide WellSpoken, Blank;
  }

  /* ---------------------------------------------------------------- one collection */

  /** Snapshot `i` of a batch becomes a new file: it is small enough, it was neither accepted nor queued,
      and no earlier one of the batch has its id. */
  ghost predicate New(p: Outbound, snapshots: seq<Body>, i: nat)
    requires i < |snapshots| && forall j :: 0 <= j < |snapshots| ==> snapshots[j].Material?
  {
    && snapshots[i].size <= 8388608 && snapshots[i].sid !in p.sent
    && (forall b :: b in p.outbox && b.Material? ==> b.sid != snapshots[i].sid)
    && (forall j :: 0 <= j < i && snapshots[j].size <= 8388608 ==> snapshots[j].sid != snapshots[i].sid)
  }

  ghost function NewFiles(id: Identity, p: Outbound, snapshots: seq<Body>, n: nat): (files: seq<Body>)
    requires n <= |snapshots| && forall j :: 0 <= j < |snapshots| ==> snapshots[j].Material?
    ensures forall b :: b in files <==> exists i :: 0 <= i < n && New(p, snapshots, i)
                                                    && b == snapshots[i].(device := Some(id.device))
  {
    if n == 0 then []
    else NewFiles(id, p, snapshots, n - 1)
         + if New(p, snapshots, n - 1) then [snapshots[n - 1].(device := Some(id.device))] else []
  }

  lemma NewIs(id: Identity, p: Outbound, snapshots: seq<Body>, n: nat)
    requires n < |snapshots| && forall j :: 0 <= j < |snapshots| ==> snapshots[j].Material?
    ensures Unqueued(p.(outbox := p.outbox + NewFiles(id, p, snapshots, n)), snapshots[n]) <==> New(p, snapshots, n)
  {
    var sid, outbox := snapshots[n].sid, p.outbox + NewFiles(id, p, snapshots, n);
    forall k | 0 <= k < |outbox| ensures outbox[k] in p.outbox || outbox[k] in NewFiles(id, p, snapshots, n) {
    }
    if sid !in p.sent && (forall b :: b in p.outbox && b.Material? ==> b.sid != sid) {
      if j :| 0 <= j < n && snapshots[j].size <= 8388608 && snapshots[j].sid == sid {
        FirstOf(p, snapshots, sid, j);
        var i: nat :| i < n && New(p, snapshots, i) && snapshots[i].sid == sid;
        var b := snapshots[i].(device := Some(id.device));
        assert b in NewFiles(id, p, snapshots, n) && b in outbox;
        var k :| 0 <= k < |outbox| && outbox[k] == b;
        assert Queued(outbox, sid);
      }
    } else if b :| b in p.outbox && b.Material? && b.sid == sid {
      var k :| 0 <= k < |p.outbox| && p.outbox[k] == b;
      assert outbox[k] == b && Queued(outbox, sid);
    }
  }

  lemma {:induction false} FirstOf(p: Outbound, snapshots: seq<Body>, sid: nat, j: nat)
    requires j < |snapshots| && forall i :: 0 <= i < |snapshots| ==> snapshots[i].Material?
    requires snapshots[j].size <= 8388608 && snapshots[j].sid == sid
    requires sid !in p.sent && (forall b :: b in p.outbox && b.Material? ==> b.sid != sid)
    ensures exists i: nat :: i <= j && New(p, snapshots, i) && snapshots[i].sid == sid
    decreases j
  {
    if !New(p, snapshots, j) {
      var i :| 0 <= i < j && snapshots[i].size <= 8388608 && snapshots[i].sid == sid;
      FirstOf(p, snapshots, sid, i);
    }
  }

  /** A collection appends exactly its new files, in order, each under the device's own name. */
  lemma {:induction false} CollectIs(id: Identity, p: Outbound, snapshots: seq<Body>, n: nat)
    requires n <= |snapshots| && forall j :: 0 <= j < |snapshots| ==> snapshots[j].Material?
    ensures EnqueueAll(id, p, snapshots[..n]) == p.(outbox := p.outbox + NewFiles(id, p, snapshots, n))
  {
    hide New, Unqueued;
    if n > 0 {
      CollectIs(id, p, snapshots, n - 1);
      assert snapshots[..n][..n - 1] == snapshots[..n - 1];
      NewIs(id, p, snapshots, n - 1);
    }
  }

  /* ---------------------------------------------------------------- one upload loop */

  /** The answer is the receipt of these bytes for this device. */
  ghost predicate Received(id: Identity, body: Body, answers: map<nat, Row>) {
    && body.Material? && body.sid in answers
    && answers[body.sid].key == Key(id.library, id.device, body.sid)
    && answers[body.sid].upload.body == body && answers[body.sid].sequence >= 1
  }

  /** The loop gets to file j and past it. */
  ghost predicate Passed(id: Identity, items: seq<Body>, terms: Terms, answers: map<nat, Row>, j: nat) {
    forall k :: 0 <= k <= j && k < |items| ==>
      Decodes(items[k]) && (Allowed(terms, items[k]) ==> Received(id, items[k], answers))
  }

  ghost predicate Uploads(id: Identity, items: seq<Body>, terms: Terms, answers: map<nat, Row>, body: Body) {
    exists j: nat :: j < |items| && items[j] == body && Allowed(terms, body) && Passed(id, items, terms, answers, j)
  }

  lemma UploadsNext(id: Identity, items: seq<Body>, terms: Terms, answers: map<nat, Row>, body: Body)
    requires items != [] && Decodes(items[0])
    requires Allowed(terms, items[0]) ==> Received(id, items[0], answers)
    ensures Uploads(id, items, terms, answers, body)
            <==> (items[0] == body && Allowed(terms, body)) || Uploads(id, items[1..], terms, answers, body)
  {
    hide Decodes, Allowed, Received;
    var rest := items[1..];
    if j: nat :| j < |items| && items[j] == body && Allowed(terms, body) && Passed(id, items, terms, answers, j) {
      if j > 0 {
        forall k | 0 <= k <= j - 1 && k < |rest|
          ensures Decodes(rest[k]) && (Allowed(terms, rest[k]) ==> Received(id, rest[k], answers))
        {
          assert rest[k] == items[k + 1];
        }
        assert Passed(id, rest, terms, answers, j - 1) && rest[j - 1] == body;
      }
    }
    if items[0] == body && Allowed(terms, body) {
      assert Passed(id, items, terms, answers, 0);
    }
    if j: nat :| j < |rest| && rest[j] == body && Allowed(terms, body) && Passed(id, rest, terms, answers, j) {
      forall k | 0 <= k <= j + 1 && k < |items|
        ensures Decodes(items[k]) && (Allowed(terms, items[k]) ==> Received(id, items[k], answers))
      {
        if k > 0 { assert rest[k - 1] == items[k]; }
      }
      assert Passed(id, items, terms, answers, j + 1) && items[j + 1] == body;
    }
  }

  lemma UploadsStop(id: Identity, items: seq<Body>, terms: Terms, answers: map<nat, Row>, body: Body)
    requires items != [] ==> !Decodes(items[0]) || (Allowed(terms, items[0]) && !Received(id, items[0], answers))
    ensures !Uploads(id, items, terms, answers, body)
  {
    hide Decodes, Allowed, Received;
  }

  /** The upload loop records exactly the allowed files whose receipts came, up to the first file
      that does not decode or is not answered; those leave the queue and nothing else does. */
  lemma {:induction false} PublishIff(id: Identity, p: Outbound, items: seq<Body>, terms: Terms, answers: map<nat, Row>,
                                      body: Body)
    requires body.Material?
    ensures var after := Publish(id, p, items, terms, answers);
            && (body in after.outbox <==> body in p.outbox && !Uploads(id, items, terms, answers, body))
            && (body.sid in p.sent || Uploads(id, items, terms, answers, body) ==> body.sid in after.sent)
            && (body.sid in after.sent ==>
                  || (body.sid in p.sent && after.sent[body.sid] == p.sent[body.sid])
                  || (after.sent[body.sid].Material? && after.sent[body.sid].sid == body.sid
                      && Uploads(id, items, terms, answers, after.sent[body.sid])))
    decreases |items|
  {
    hide WellSpoken, Blank, Allowed, Checked, Uploads, Matches, Received;
    if items == [] {
      forall b ensures !Uploads(id, items, terms, answers, b) { UploadsStop(id, items, terms, answers, b); }
    } else {
      var first := items[0];
      HeldIff(terms, first);
      MatchesIs(id, first, answers);
      if Checked(terms, first) == Undecodable || (Checked(terms, first) == Sendable && !Received(id, first, answers)) {
        forall b ensures !Uploads(id, items, terms, answers, b) { UploadsStop(id, items, terms, answers, b); }
      } else {
        forall b
          ensures Uploads(id, items, terms, answers, b)
                  <==> (first == b && Allowed(terms, b)) || Uploads(id, items[1..], terms, answers, b)
        {
          UploadsNext(id, items, terms, answers, b);
        }
        var recorded := Record(p, first);
        var next := if Checked(terms, first) == Held then p else recorded.(outbox := Unlinked(recorded.outbox, first));
        PublishIff(id, next, items[1..], terms, answers, body);
      }
    }
  }

  lemma MatchesIs(id: Identity, body: Body, answers: map<nat, Row>)
    ensures body.Material? ==>
              (Received(id, body, answers) <==> body.sid in answers && Matches(id, body, answers[body.sid]))
  {
  }

  /* ---------------------------------------------------------------- whole runs */

  /** The loop asks for file i exactly when it may be sent, and every file before it decodes and is
      either not to be sent or accepted already; just those not to be sent are passed over. */
  lemma InTurnIff(p: Outbound, i: nat, terms: Terms, sid: nat)
    ensures InTurn(p, i, terms)
            <==> && i < |p.outbox| && Allowed(terms, p.outbox[i])
                 && forall j :: 0 <= j < i ==>
                      Decodes(p.outbox[j]) && (Allowed(terms, p.outbox[j]) ==> p.outbox[j].sid in p.sent)
    ensures InTurn(p, i, terms) ==>
              (sid in PassedOver(p, i, terms)
               <==> exists j :: 0 <= j < i && !Allowed(terms, p.outbox[j]) && p.outbox[j].sid == sid)
  {
    hide WellSpoken, Blank, Allowed, Checked;
    forall j | 0 <= j < |p.outbox|
      ensures Checked(terms, p.outbox[j]) == Sendable <==> Allowed(terms, p.outbox[j])
      ensures Checked(terms, p.outbox[j]) == Undecodable <==> !Decodes(p.outbox[j])
    {
      HeldIff(terms, p.outbox[j]);
    }
  }

  /** The device asks the cloud with an allowed body, or not at all. */
  lemma AsksAllowed(id: Identity, library: nat, w: World, r: nat, i: nat, terms: Terms)
    ensures var after := Go(id, library, w, Asks(r, i, terms));
            && after.p == w.p
            && (after.asked != w.asked || after.s != w.s ==>
                  i < |w.p.outbox| && Allowed(terms, w.p.outbox[i]) && r !in w.asked && r !in w.s.flights)
            && (forall q :: q in after.asked && (q !in w.asked || after.asked[q] != w.asked[q]) ==>
                  q == r && i < |w.p.outbox| && after.asked[q] == w.p.outbox[i])
  {
    hide Decodes, Allowed, Checked, Arrive;
    if i < |w.p.outbox| { HeldIff(terms, w.p.outbox[i]); }
  }

  /** The bodies of the run's requests that the terms of their own step allowed. */
  ghost function Tried(id: Identity, library: nat, w: World, steps: seq<Step>): seq<Body> {
    if steps == [] then []
    else
      var front, last := steps[..|steps| - 1], steps[|steps| - 1];
      var outbox := Journey(id, library, w, front).p.outbox;
      Tried(id, library, w, front)
      + if last.Asks? && last.i < |outbox| && Allowed(last.terms, outbox[last.i]) then [outbox[last.i]] else []
  }

  ghost predicate AllowedBySome(steps: seq<Step>, body: Body) {
    exists n :: 0 <= n < |steps| && steps[n].Asks? && Allowed(steps[n].terms, body)
  }

  lemma {:induction false} TriedAllowed(id: Identity, library: nat, w: World, steps: seq<Step>, body: Body)
    requires body in Tried(id, library, w, steps)
    ensures AllowedBySome(steps, body)
  {
    hide Allowed, Journey;
    var front, last := steps[..|steps| - 1], steps[|steps| - 1];
    if body in Tried(id, library, w, front) {
      TriedAllowed(id, library, w, front, body);
      var n :| 0 <= n < |front| && front[n].Asks? && Allowed(front[n].terms, body);
      assert steps[n] == front[n];
    } else {
      assert steps[|steps| - 1].Asks? && Allowed(last.terms, body);
    }
  }

  /** The cloud has nothing of this device, and no request of it is under way, but for a body
      that was allowed. */
  lemma StepTried(id: Identity, library: nat, w: World, step: Step, tried: seq<Body>)
    requires Sound(w.s) && Belongs(id, w.s) && OnlyQueued(id, w.s, w.asked, tried) && Possible(id, w, step)
    ensures var more := if step.Asks? && step.i < |w.p.outbox| && Allowed(step.terms, w.p.outbox[step.i])
                        then [w.p.outbox[step.i]] else [];
            var after := Go(id, library, w, step);
            OnlyQueued(id, after.s, after.asked, tried + more)
  {
    hide Sound, OnlyQueued, Allowed, Next, Arrive, TakePage, Decodes;
    assert tried + [] == tried;
    match step
    case Asks(r, i, terms) =>
      AsksAllowed(id, library, w, r, i, terms);
      var after := Go(id, library, w, step);
      if after.asked != w.asked || after.s != w.s {
        var body := w.p.outbox[i];
        AllowedDecodes(terms, body);
        OnlyQueuedMore(id, w.s, w.asked, tried, tried + [body]);
        assert body in tried + [body];
        OnlyQueuedAsks(id, w.s, r, body, w.asked, tried + [body]);
      } else if i < |w.p.outbox| {
        OnlyQueuedMore(id, w.s, w.asked, tried, tried + [w.p.outbox[i]]);
      }
    case Cloud(e, heard) =>
      var after := Heard(id, w, e, heard);
      CloudTried(id, w, e, tried);
      OnlyQueuedFewer(id, after.s, w.asked, after.asked, tried);
    case _ =>
  }

  lemma AllowedDecodes(terms: Terms, body: Body)
    ensures Allowed(terms, body) ==> Decodes(body)
  {
  }

  lemma CloudTried(id: Identity, w: World, e: Event, tried: seq<Body>)
    requires Sound(w.s) && Belongs(id, w.s) && OnlyQueued(id, w.s, w.asked, tried) && Foreign(id, w, e)
    ensures OnlyQueued(id, Next(w.s, e).0, w.asked, tried)
  {
    hide Sound, Next, Decodes;
    if e.Arriving? {
      ArrivingIs(w.s, e);
      OnlyQueuedArrives(id, w.s, e.r, e.secret, e.claimed, w.asked, tried);
    } else {
      FlightsStay(w.s, e);
      UploadsStay(w.s, e);
      OnlyQueuedFrame(id, w.s, Next(w.s, e).0, w.asked, w.asked, tried);
    }
  }

  lemma {:induction false} RunTried(id: Identity, library: nat, w: World, steps: seq<Step>)
    requires Begins(id, w) && AllPossible(id, library, w, steps)
    ensures var after := Journey(id, library, w, steps);
            OnlyQueued(id, after.s, after.asked, Tried(id, library, w, steps))
  {
    if steps == [] {
      hide Sound;
    } else {
      hide Begins, Go, Possible, OnlyQueued, Allowed, Recorded, Kept;
      var front := steps[..|steps| - 1];
      RunTried(id, library, w, front);
      WholeRuns(id, library, w, front);
      WholeSound(id, library, Journey(id, library, w, front));
      StepTried(id, library, Journey(id, library, w, front), steps[|steps| - 1], Tried(id, library, w, front));
    }
  }

  lemma WholeSound(id: Identity, library: nat, w: World)
    requires Whole(id, library, w)
    ensures Sound(w.s) && Belongs(id, w.s) && Recorded(id, w)
  {
  }

  /** NOTHING ELSE LEAVES. Whatever the cloud ever accepted from this device, and whatever the
      device recorded as sent, some step of the run asked for under terms that allow it: its
      harness is collected, its project is listed and not excluded, and it does not end before
      the bound. */
  lemma OnlyAllowedLeaves(id: Identity, library: nat, w: World, steps: seq<Step>)
    requires Begins(id, w) && AllPossible(id, library, w, steps)
    ensures var after := Journey(id, library, w, steps);
            && (forall k :: k in after.s.uploads && k.device == id.device ==>
                  AllowedBySome(steps, after.s.uploads[k].body))
            && (forall sid :: sid in after.p.sent ==> AllowedBySome(steps, after.p.sent[sid]))
  {
    hide Begins, AllPossible, AllowedBySome, Tried, Journey, Decodes, Sound;
    var after := Journey(id, library, w, steps);
    var tried := Tried(id, library, w, steps);
    RunTried(id, library, w, steps);
    WholeRuns(id, library, w, steps);
    WholeSound(id, library, after);
    forall k | k in after.s.uploads && k.device == id.device ensures AllowedBySome(steps, after.s.uploads[k].body) {
      TriedAllowed(id, library, w, steps, after.s.uploads[k].body);
    }
    forall sid | sid in after.p.sent ensures AllowedBySome(steps, after.p.sent[sid]) {
      var key := SentIsUploaded(id, after, sid);
    }
  }

  lemma SentIsUploaded(id: Identity, w: World, sid: nat) returns (key: Key)
    requires Recorded(id, w) && sid in w.p.sent
    ensures key in w.s.uploads && key.device == id.device && w.s.uploads[key].body == w.p.sent[sid]
  {
    hide Sound, OnlyQueued, NothingLost, OnePayload;
    var body := w.p.sent[sid];
    var i :| 0 <= i < |w.s.rows| && w.s.rows[i].key == Key(id.library, id.device, body.sid)
             && w.s.rows[i].upload.body == body;
    key := w.s.rows[i].key;
    RowFiled(w.s, w.s.rows[i]);
  }
}
