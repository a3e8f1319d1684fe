/** The mirror of an unreadable body: one that the decoder accepts and the cloud's `material` refuses.
    Its device never gets it sent, and nothing that it queued behind. */
module Refused {
  import opened Readers
  import opened Protocol
  import opened Registry
  import opened RegistryRuns
  import opened Snapshots
  import opened HostFeed
  import opened Publisher
  import opened Delivery
  import opened EndToEnd
  import opened Unreadable

  /* ---------------------------------------------------------------- the cloud's half */

  predicate AllTaken(s: State) {
    forall k :: k in s.uploads ==> Takes(s.uploads[k].body)
  }

  lemma NextTakes(s: State, e: Event)
    requires AllTaken(s)
    ensures AllTaken(Next(s, e).0)
  {
    hide Takes;
    if e.Admitting? { AdmitTakes(s, e.r, e.body, e.now); }
  }

  lemma {:induction false} TakenRuns(events: seq<Event>)
    ensures AllTaken(Run(EMPTY, events))
  {
    hide AllTaken, Next;
    if events == [] {
      NothingTaken();
    } else {
      TakenRuns(events[..|events| - 1]);
      NextTakes(Run(EMPTY, events[..|events| - 1]), events[|events| - 1]);
    }
  }

  lemma NothingTaken()
    ensures AllTaken(EMPTY)
  {
  }

  lemma AdmitTakes(s: State, r: nat, body: Body, now: int)
    requires AllTaken(s)
    ensures AllTaken(Admit(s, r, body, now).0)
  {
    hide Admit, Transact, Takes, Known, OutOfScope;
    AdmitCases(s, r, body, now);
    if Transacts(s, r, body) { TransactTakes(s, r, Known(s, s.flights[r].secret, false).value, body, now); }
  }

  lemma TransactTakes(s: State, r: nat, id: nat, body: Body, now: int)
    requires AllTaken(s) && Takes(body) && r in s.flights && id in s.devices
    ensures AllTaken(Transact(s, r, id, body, now).0)
  {
    hide Takes, Committed;
  }

  lemma TakesMaterial(body: Body)
    ensures Takes(body) ==> body.Material?
  {
  }

  /* ---------------------------------------------------------------- the device's half */

  /** Whatever is in `sent` the cloud took. */
  lemma NeverSent(id: Identity, w: World, body: Body)
    requires Delivery.Recorded(id, w) && AllTaken(w.s) && body in w.queued && !Takes(body)
    ensures body.Material? && body.sid !in w.p.sent && body in w.p.outbox
  {
    hide OnlyQueued, Takes, Sound;
    var i :| 0 <= i < |w.queued| && w.queued[i] == body;
    if body.sid in w.p.sent {
      var sent := w.p.sent[body.sid];
      SameSid(id, w.queued, body, sent);
      var j :| 0 <= j < |w.s.rows| && w.s.rows[j].key == Key(id.library, id.device, sent.sid)
               && w.s.rows[j].upload.body == sent;
      RowFiled(w.s, w.s.rows[j]);
    }
  }

  predicate Sending(id: Identity, library: nat, w: World) {
    Whole(id, library, w) && AllTaken(w.s)
  }

  lemma SendingStep(id: Identity, library: nat, w: World, step: Step)
    requires Sending(id, library, w) && Possible(id, w, step)
    ensures Sending(id, library, Go(id, library, w, step))
  {
    hide Whole, AllTaken, Next, Checked, PassedOver, TakePage, Arrive;
    WholeStep(id, library, w, step);
    match step
    case Asks(r, i, terms) =>
      if i < |w.p.outbox| { AskTakes(w.s, r, id.secret, w.p.outbox[i]); }
    case Cloud(e, _) => NextTakes(w.s, e);
    case _ =>
  }

  lemma AskTakes(s: State, r: nat, secret: nat, body: Body)
    requires AllTaken(s)
    ensures AllTaken(Arrive(s, r, secret, Some(body)).0)
  {
    NextTakes(s, Arriving(r, secret, Some(body)));
  }

  /** A queued body that the cloud refuses stays queued in every run. */
  lemma {:induction false} RefusedForGood(id: Identity, library: nat, w: World, steps: seq<Step>, body: Body)
    requires Sending(id, library, w) && AllPossible(id, library, w, steps) && body in w.queued && !Takes(body)
    ensures var after := Journey(id, library, w, steps);
            && Sending(id, library, after) && body in after.queued
            && body.Material? && body.sid !in after.p.sent && body in after.p.outbox
  {
    hide Sending, Go, Possible, Takes;
    if steps != [] {
      var front := steps[..|steps| - 1];
      RefusedForGood(id, library, w, front, body);
      SendingStep(id, library, Journey(id, library, w, front), steps[|steps| - 1]);
      QueuedStays(id, library, Journey(id, library, w, front), steps[|steps| - 1]);
    }
    RefusedNow(id, library, Journey(id, library, w, steps), body);
  }

  lemma QueuedStays(id: Identity, library: nat, w: World, step: Step)
    ensures w.queued <= Go(id, library, w, step).queued
  {
    hide Next, InTurn, PassedOver, TakePage, Arrive;
  }

  lemma RefusedNow(id: Identity, library: nat, w: World, body: Body)
    requires Sending(id, library, w) && body in w.queued && !Takes(body)
    ensures body.Material? && body.sid !in w.p.sent && body in w.p.outbox
  {
    NeverSent(id, w, body);
  }

  /* ---------------------------------------------------------------- and nothing behind it */

  /** The body is queued, and `ahead` has every id that was sent, is asked for, or is queued in
      front of it. */
  ghost predicate Bars(w: World, body: Body, ahead: set<nat>) {
    && body.Material? && body.sid !in ahead
    && (exists i :: 0 <= i < |w.p.outbox| && w.p.outbox[i] == body
                    && forall j :: 0 <= j < i ==> w.p.outbox[j].Material? && w.p.outbox[j].sid in ahead)
    && (forall r :: r in w.asked ==> w.asked[r].Material? && (w.asked[r].sid in ahead || w.asked[r] == body))
    && (forall sid :: sid in w.p.sent ==> sid in ahead)
  }

  /** The policy at hand would have the body sent. */
  predicate Allows(step: Step, body: Body) {
    step.Asks? ==> Checked(step.terms, body) == Sendable
  }

  predicate AllAllow(steps: seq<Step>, body: Body) {
    forall i :: 0 <= i < |steps| ==> Allows(steps[i], body)
  }

  /** The loop breaks at the body, so it never asks for a later file. */
  lemma BarredAsk(id: Identity, library: nat, w: World, r: nat, i: nat, terms: Terms, body: Body, ahead: set<nat>)
    requires Bars(w, body, ahead) && Checked(terms, body) == Sendable
    ensures Bars(Go(id, library, w, Asks(r, i, terms)), body, ahead)
  {
    hide Checked, Arrive;
    var k :| 0 <= k < |w.p.outbox| && w.p.outbox[k] == body
             && forall j :: 0 <= j < k ==> w.p.outbox[j].Material? && w.p.outbox[j].sid in ahead;
    if InTurn(w.p, i, terms) {
      assert i <= k;
      assert Go(id, library, w, Asks(r, i, terms)).p == w.p;
    }
  }

  lemma {:induction false} UnlinkedConcat(a: seq<Body>, b: seq<Body>, body: Body)
    ensures Unlinked(a + b, body) == Unlinked(a, body) + Unlinked(b, body)
  {
    if b == [] {
      assert a + b == a;
    } else {
      assert (a + b)[..|a + b| - 1] == a + b[..|b| - 1];
      UnlinkedConcat(a, b[..|b| - 1], body);
    }
  }

  lemma BarredUnlink(w: World, i: nat, body: Body, ahead: set<nat>)
    requires Bars(w, body, ahead) && i < |w.p.outbox| && w.p.outbox[i].Material? && w.p.outbox[i].sid in w.p.sent
    ensures Bars(w.(p := w.p.(outbox := Unlinked(w.p.outbox, w.p.outbox[i]))), body, ahead)
  {
    var k :| 0 <= k < |w.p.outbox| && w.p.outbox[k] == body
             && forall j :: 0 <= j < k ==> w.p.outbox[j].Material? && w.p.outbox[j].sid in ahead;
    assert w.p.outbox[i] != body;
    var n := FrontKept(w.p.outbox, k, w.p.outbox[i]);
    var more := Unlinked(w.p.outbox, w.p.outbox[i]);
    forall j | 0 <= j < n ensures more[j].Material? && more[j].sid in ahead { assert more[j] in w.p.outbox[..k]; }
  }

  /** Unlinking another file leaves a file behind some of those that were in front of it. */
  lemma FrontKept(outbox: seq<Body>, k: nat, gone: Body) returns (n: nat)
    requires k < |outbox| && outbox[k] != gone
    ensures n < |Unlinked(outbox, gone)| && Unlinked(outbox, gone)[n] == outbox[k]
    ensures forall j :: 0 <= j < n ==> Unlinked(outbox, gone)[j] in outbox[..k]
  {
    var front, rest := outbox[..k], outbox[k + 1..];
    assert outbox == (front + [outbox[k]]) + rest;
    UnlinkedConcat(front + [outbox[k]], rest, gone);
    UnlinkedConcat(front, [outbox[k]], gone);
    UnlinkedOne(outbox[k], gone);
    var kept := Unlinked(front, gone);
    n := |kept|;
    forall j | 0 <= j < n ensures Unlinked(outbox, gone)[j] in front {
      assert Unlinked(outbox, gone)[j] == kept[j] && kept[j] in kept;
    }
  }

  lemma UnlinkedOne(body: Body, gone: Body)
    requires gone != body
    ensures Unlinked([body], gone) == [body]
  {
    assert [body][..0] == [] && Unlinked([], gone) == [];
  }

  lemma BarredCollect(id: Identity, w: World, body: Body, ahead: set<nat>, more: seq<Body>, queued: seq<Body>)
    requires Bars(w, body, ahead) && w.p.outbox <= more
    ensures Bars(w.(p := w.p.(outbox := more), queued := queued), body, ahead)
  {
  }

  lemma BarredStep(id: Identity, library: nat, w: World, step: Step, body: Body, ahead: set<nat>)
    requires Bars(w, body, ahead) && Allows(step, body) && body.sid !in Go(id, library, w, step).p.sent
    ensures Bars(Go(id, library, w, step), body, ahead)
  {
    hide Next, InTurn, PassedOver, TakePage, Arrive, Unlinked, Checked;
    match step
    case Collects(snapshot) =>
      if snapshot.Material? && Unqueued(w.p, snapshot) {
        BarredCollect(id, w, body, ahead, w.p.outbox + [Own(id, snapshot)], w.queued + [Own(id, snapshot)]);
      }
    case Asks(r, i, terms) => BarredAsk(id, library, w, r, i, terms, body, ahead);
    case Cloud(e, heard) =>
      assert Go(id, library, w, step).p.outbox == w.p.outbox;
    case Unlinks(i) =>
      if i < |w.p.outbox| && w.p.outbox[i].Material? && w.p.outbox[i].sid in w.p.sent {
        BarredUnlink(w, i, body, ahead);
      }
    case Fetches(_) =>
    case Releases(_) =>
  }

  /** NOTHING GETS PAST IT. As long as the policies at hand would have the body sent, nothing is ever
      sent that was not sent, asked for or queued in front of it when the cloud first refused it. */
  lemma {:induction false} NothingPast(id: Identity, library: nat, w: World, steps: seq<Step>, body: Body,
        ahead: set<nat>)
    requires Sending(id, library, w) && AllPossible(id, library, w, steps) && AllAllow(steps, body)
    requires body in w.queued && !Takes(body) && Bars(w, body, ahead)
    ensures Bars(Journey(id, library, w, steps), body, ahead)
    ensures forall sid :: sid in Journey(id, library, w, steps).p.sent ==> sid in ahead
  {
    hide Sending, Go, Possible, Takes;
    RefusedForGood(id, library, w, steps, body);
    if steps != [] {
      var front := steps[..|steps| - 1];
      NothingPast(id, library, w, front, body, ahead);
      assert Allows(steps[|steps| - 1], body);
      BarredStep(id, library, Journey(id, library, w, front), steps[|steps| - 1], body, ahead);
    }
  }

  /* ---------------------------------------------------------------- when a file is sent */

  /** A file's first attempt, from its turn in the loop to the receipt, that nothing disturbs. */
  function Attempt(w: World, r: nat, i: nat, terms: Terms, now: int): seq<Step>
    requires i < |w.p.outbox|
  {
    [Asks(r, i, terms), Cloud(Admitting(r, w.p.outbox[i], now), true),
     Cloud(Resuming(r), true), Cloud(Resuming(r), true), Cloud(Resuming(r), true)]
  }

  /** Its turn has come, there is a slot, and the cloud knows the device and has not seen the file. */
  predicate Undisturbed(id: Identity, w: World, r: nat, i: nat, terms: Terms) {
    && InTurn(w.p, i, terms) && r !in w.asked && r !in w.s.flights && w.s.active < 2
    && Known(w.s, id.secret, false) == Given(id.device)
    && OutOfScope(id.device, w.s.devices[id.device].policy, w.p.outbox[i]) == None
    && Key(id.library, id.device, w.p.outbox[i].sid) !in w.s.uploads
  }

  lemma AttemptPossible(id: Identity, library: nat, w: World, r: nat, i: nat, terms: Terms, now: int)
    requires i < |w.p.outbox|
    ensures var steps := Attempt(w, r, i, terms, now);
            && AllPossible(id, library, w, steps)
            && Journey(id, library, w, steps)
               == Go(id, library, Go(id, library, Go(id, library, Go(id, library, Go(id, library, w,
                     steps[0]), steps[1]), steps[2]), steps[3]), steps[4])
  {
    hide Go;
    var steps := Attempt(w, r, i, terms, now);
    assert steps[..4][..3] == steps[..3] && steps[..3][..2] == steps[..2] && steps[..2][..1] == steps[..1];
    assert steps[..1][..0] == [];
    assert Journey(id, library, w, steps[..1]) == Go(id, library, w, steps[0]);
    assert Journey(id, library, w, steps[..2]) == Go(id, library, Journey(id, library, w, steps[..1]), steps[1]);
    assert Journey(id, library, w, steps[..3]) == Go(id, library, Journey(id, library, w, steps[..2]), steps[2]);
    assert Journey(id, library, w, steps[..4]) == Go(id, library, Journey(id, library, w, steps[..3]), steps[3]);
    assert AllPossible(id, library, w, steps[..1]) && AllPossible(id, library, w, steps[..2]);
    assert AllPossible(id, library, w, steps[..3]) && AllPossible(id, library, w, steps[..4]);
  }

  /** A reply that is not there yet changes only the cloud. */
  lemma Waiting(id: Identity, library: nat, w: World, e: Event)
    requires Next(w.s, e).1.None?
    ensures Go(id, library, w, Cloud(e, true)) == w.(s := Next(w.s, e).0)
  {
    hide Next;
  }

  lemma QueuedBody(id: Identity, library: nat, w: World, i: nat)
    requires Sending(id, library, w) && i < |w.p.outbox|
    ensures Sound(w.s) && Belongs(id, w.s)
    ensures w.p.outbox[i] in w.queued && w.p.outbox[i].Material? && w.p.outbox[i].size <= MAX_SNAPSHOT_BYTES
  {
    hide Sound, OnlyQueued, HasRow, Kept, AllTaken;
    assert w.p.outbox[i] in w.queued;
  }

  /** What the attempt holds when it has asked. */
  function Asked(w: World, r: nat, body: Body, held: set<nat>, s: State): World {
    w.(s := s, held := held, asked := w.asked[r := body])
  }

  lemma AskArrives(id: Identity, library: nat, w: World, r: nat, i: nat, terms: Terms)
    requires Undisturbed(id, w, r, i, terms) && w.p.outbox[i].Material?
    ensures var s := Next(w.s, Arriving(r, id.secret, Some(w.p.outbox[i]))).0;
            Go(id, library, w, Asks(r, i, terms))
            == Asked(w, r, w.p.outbox[i], w.held + PassedOver(w.p, i, terms), s)
  {
    hide Checked, PassedOver, OutOfScope;
  }

  lemma TakenState(id: Identity, w: World, r: nat, body: Body, now: int)
    requires Sound(w.s) && Belongs(id, w.s) && Acceptable(w.s, r, id.secret, body)
    requires Known(w.s, id.secret, false) == Given(id.device)
    ensures var taken, f := Unreadable.Taken(w.s, r, id.secret, body, now), Storing(id.secret,
              Key(id.library, id.device, body.sid), body, Upload(body.stream, body, now), PuttingBody);
            && r in taken.flights && taken.flights[r] == f && taken.next == w.s.next >= 1
            && f.key !in taken.bodies && f.key !in taken.manifests && Committed(taken.rows, f.key).None?
            && Known(taken, id.secret, false) == Given(id.device)
            && taken.devices == w.s.devices
  {
    hide OutOfScope, Takes, Committed;
    TakesMaterial(body);
    Unstored(w.s, Key(id.library, id.device, body.sid));
  }

  /** The receipt that is heard is recorded. */
  lemma ReceiptHeard(id: Identity, library: nat, w: World, r: nat, body: Body, row: Row)
    requires Next(w.s, Resuming(r)).1 == Some(Stored(row, false)) && r in w.asked && w.asked[r] == body
    requires Matches(id, body, row)
    ensures body.sid in Go(id, library, w, Cloud(Resuming(r), true)).p.sent
  {
    hide Next;
  }

  /** An undisturbed attempt records what the cloud takes. */
  lemma TakenIsSent(id: Identity, library: nat, w: World, r: nat, i: nat, terms: Terms, now: int)
    requires Sending(id, library, w) && Undisturbed(id, w, r, i, terms) && Takes(w.p.outbox[i])
    ensures w.p.outbox[i].sid in Journey(id, library, w, Attempt(w, r, i, terms, now)).p.sent
  {
    hide Takes, Checked, PassedOver, InTurn, Next, Journey, OutOfScope, Known, Committed, Sending, Unreadable.Taken,
         Go, Sound;
    InQueue(id, w, r, i, terms);
    var body, steps := w.p.outbox[i], Attempt(w, r, i, terms, now);
    AttemptPossible(id, library, w, r, i, terms, now);
    QueuedBody(id, library, w, i);
    AskArrives(id, library, w, r, i, terms);
    UploadTaken(w.s, r, id.secret, body, now);
    TakenState(id, w, r, body, now);
    var taken, arrived := Unreadable.Taken(w.s, r, id.secret, body, now),
        Next(w.s, Arriving(r, id.secret, Some(body))).0;
    var f := taken.flights[r];
    var asked := Asked(w, r, body, w.held + PassedOver(w.p, i, terms), arrived);
    TakenWaits(w.s, r, id.secret, body, now);
    Waiting(id, library, asked, Admitting(r, body, now));
    var admitted := asked.(s := taken);
    UploadStored(taken, r, f);
    Waiting(id, library, admitted, Resuming(r));
    var put := admitted.(s := Next(taken, Resuming(r)).0);
    Waiting(id, library, put, Resuming(r));
    var stored := put.(s := Next(put.s, Resuming(r)).0);
    ReceiptHeard(id, library, stored, r, body, Row(taken.next, f.key, f.upload));
  }

  lemma TakenWaits(s: State, r: nat, secret: nat, body: Body, now: int)
    requires Sound(s) && Acceptable(s, r, secret, body)
    ensures Next(Next(s, Arriving(r, secret, Some(body))).0, Admitting(r, body, now)).1 == None
  {
    hide Sound, OutOfScope, Committed, Takes;
    TakesMaterial(body);
    Unstored(s, Key(s.devices[Known(s, secret, false).value].library, Known(s, secret, false).value, body.sid));
  }

  /** WHEN A FILE IS SENT. Its first attempt that nothing disturbs ends in a recorded receipt exactly
      when the cloud takes the body. */
  lemma SentIff(id: Identity, library: nat, w: World, r: nat, i: nat, terms: Terms, now: int)
    requires Sending(id, library, w) && Undisturbed(id, w, r, i, terms)
    ensures w.p.outbox[i].sid in Journey(id, library, w, Attempt(w, r, i, terms, now)).p.sent
            <==> Takes(w.p.outbox[i])
  {
    hide Takes, Undisturbed, Journey, Sending, Attempt;
    assert i < |w.p.outbox| by { InQueue(id, w, r, i, terms); }
    if Takes(w.p.outbox[i]) {
      TakenIsSent(id, library, w, r, i, terms, now);
    } else {
      AttemptPossible(id, library, w, r, i, terms, now);
      QueuedBody(id, library, w, i);
      RefusedForGood(id, library, w, Attempt(w, r, i, terms, now), w.p.outbox[i]);
    }
  }

  lemma InQueue(id: Identity, w: World, r: nat, i: nat, terms: Terms)
    requires Undisturbed(id, w, r, i, terms)
    ensures i < |w.p.outbox|
  {
  }

  /* ---------------------------------------------------------------- a concrete run */

  /** A line feed in the session id. */
  const UNSENDABLE: Body := Material(7, 1, 0, "a\nb", "", None, [], 1, 7, 1, 0)

  lemma RefusedBody(id: Identity)
    ensures Decodes(UNSENDABLE) && !Takes(UNSENDABLE)
    ensures Decodes(Own(id, UNSENDABLE)) && !Takes(Own(id, UNSENDABLE))
  {
    assert UNSENDABLE.session[0] == 'a' && UNSENDABLE.session[1] == '\n';
  }

  lemma WholeSends(id: Identity, library: nat, w: World)
    requires Whole(id, library, w) && AllTaken(w.s)
    ensures Sending(id, library, w)
  {
  }

  lemma FirstBars(id: Identity, library: nat, w: World)
    requires Begins(id, w)
    ensures var body, first := Own(id, UNSENDABLE), Go(id, library, w, Collects(UNSENDABLE));
            first.queued == [body] && Bars(first, body, {})
  {
    hide Sound, Next;
    var body, first := Own(id, UNSENDABLE), Go(id, library, w, Collects(UNSENDABLE));
    assert first.p.outbox == [] + [body] == [body] && first.queued == [] + [body] == [body];
    assert first.p.outbox[0] == body;
  }

  /** IT HAPPENS: a new device's first file has such an id. Whatever else it collects and however
      often it tries, while its policy would have the file sent, it never gets anything sent. */
  lemma NothingIsSent(id: Identity, library: nat, w: World, steps: seq<Step>)
    requires Begins(id, w) && AllTaken(w.s)
    requires var first := Go(id, library, w, Collects(UNSENDABLE));
             AllPossible(id, library, first, steps) && AllAllow(steps, Own(id, UNSENDABLE))
    ensures Journey(id, library, Go(id, library, w, Collects(UNSENDABLE)), steps).p.sent == map[]
  {
    hide Sound, Next, Takes, Decodes, Checked, Sending, AllPossible, Journey;
    var body, first := Own(id, UNSENDABLE), Go(id, library, w, Collects(UNSENDABLE));
    BeginsWhole(id, library, w);
    assert Sending(id, library, w) by { WholeSends(id, library, w); }
    SendingStep(id, library, w, Collects(UNSENDABLE));
    RefusedBody(id);
    FirstBars(id, library, w);
    NothingPast(id, library, first, steps, body, {});
  }
}
