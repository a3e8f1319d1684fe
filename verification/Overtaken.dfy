/** What happens when an increment of several parts overtakes a pending receipt: turns that count
    as exported are in no source, and the session exports nothing any more. */
module Overtaken {
  import opened Turns
  import opened Readers
  import opened Splitting
  import opened Exporter
  import opened ExactlyOnce
  import opened ExportRuns
  import opened CrashTransparency
  import opened LateReset
  import opened Merge
  import opened MergedRuns

  /* ---------------------------------------------------------------- what is lost */

  predicate FromParts(p: Payload, o: Order, number: nat) {
    exists i :: number <= i < |o.parts| && p.turns == o.parts[i]
  }

  lemma AcceptedOnly(library: seq<Payload>, payload: Payload)
    ensures forall p :: p in Accept(library, payload).0 ==> p in library || p == payload
  {
  }

  /** An uninterrupted export adds only its own parts to the library. */
  lemma {:induction false} OverAdds(key: nat, d: Disk, o: Order, number: nat, entry: Cursor, carried: Option<Receipt>)
    requires number <= |o.parts| && AllOwned(o.parts) && !HasPending(d)
    ensures forall p :: p in ExportOver(key, d, o, number, entry, carried, []).library ==>
              p in d.library || FromParts(p, o, number)
    decreases |o.parts| - number
  {
    hide Accept, IngestOver, PartStep;
    if number < |o.parts| {
      var payload, step := PartPayload(key, o, number, entry), PartStep(o, number, entry);
      assert HasOwner(Said(o.parts[number]));
      var given := if number == |o.parts| - 1 then carried else None;
      CompletedOver(d, payload, step, given);
      AcceptedOnly(d.library, payload);
      assert payload.turns == o.parts[number];
      var next := IngestOver(d, payload, step, given, Completed);
      var c := next.entry.value.cursor;
      assert ExportOver(key, d, o, number, entry, carried, []) == ExportOver(key, next, o, number + 1, c, carried, []);
      if number + 1 < |o.parts| {
        OverAdds(key, next, o, number + 1, c, carried);
        PartsLater(o, number);
      }
    }
  }

  lemma PartsLater(o: Order, number: nat)
    ensures forall p :: FromParts(p, o, number + 1) ==> FromParts(p, o, number)
  {
  }

  predicate SaidIn(u: Utterance, p: Payload) {
    exists i :: 0 <= i < |p.turns| && p.turns[i].said == u
  }

  /** Whatever the first part said, and neither the receipt nor a later part, is in no source of
      the session, and the cursor counts the whole copy as exported. */
  lemma TurnsLost(key: nat, d: Disk, o: Order, entry: Cursor, u: Utterance)
    requires Inv(key, d) && HasPending(d) && Sources(d) == [] && |o.parts| > 1 && AllOwned(o.parts)
    requires u in o.session && !SaidIn(u, OnItsWay(d).value)
    requires forall i :: 0 < i < |o.parts| ==> u !in Said(o.parts[i])
    ensures var after := ExportOver(key, d, o, 0, entry, PendingReceipt(d), []);
            && after.entry.Some? && u in after.entry.value.cursor.exported
            && (forall p :: p in after.library && p.session == key ==> !SaidIn(u, p))
            && HasPending(after) && after.journal == None
  {
    hide Inv, ExportOver, Settle;
    OverSettles(key, d, o, entry);
    var next := Settle(d, Completed);
    var c := next.entry.value.cursor;
    var carried := Some(PendingReceipt(d).value.(cursor := c));
    OverEnds(key, next, o, 1, c, carried);
    OverAdds(key, next, o, 1, c, carried);
    OnlyTheReceipt(key, d);
    forall p | p in ExportOver(key, d, o, 0, entry, PendingReceipt(d), []).library && p.session == key
      ensures !SaidIn(u, p)
    {
      if FromParts(p, o, 1) {
        var i :| 1 <= i < |o.parts| && p.turns == o.parts[i];
        NotSaid(u, p);
      }
    }
  }

  lemma NotSaid(u: Utterance, p: Payload)
    ensures u !in Said(p.turns) ==> !SaidIn(u, p)
  {
  }

  /** With nothing acknowledged before, the settled receipt is the session's only source. */
  lemma OnlyTheReceipt(key: nat, d: Disk)
    requires Inv(key, d) && HasPending(d) && Sources(d) == []
    ensures forall p :: p in Settle(d, Completed).library && p.session == key ==> p == OnItsWay(d).value
  {
    AcceptedOnly(d.library, OnItsWay(d).value);
    forall p | p in d.library && p.session == key ensures p == OnItsWay(d).value {
      var i :| 0 <= i < |d.library| && d.library[i] == p;
    }
  }

  /* ---------------------------------------------------------------- and nothing follows */

  /** A receipt without its journal. */
  predicate Stuck(d: Disk) {
    HasPending(d) && d.journal != Some(d.entry.value.pending.value.payload)
  }

  lemma StuckExport(key: nat, d: Disk, o: Order, entry: Cursor, carried: Option<Receipt>, fates: seq<Fate>)
    requires Stuck(d)
    ensures ExportOver(key, d, o, 0, entry, carried, fates) == d
  {
    hide PartPayload, PartStep;
  }

  lemma StuckArrival(key: nat, h: Host, a: Arrival)
    requires Stuck(h.disk)
    ensures var after := Arrive(key, h, a).disk;
            Stuck(after) && (!a.Stranger? ==> after.library == h.disk.library)
  {
    hide Proposal, Decide, ExportOver, SameCopy, Relate, Accept;
    var d := h.disk;
    match a
    case Passing(file, opts, replay, fates, guarded) =>
      match Decide(PriorCursor(d), file, opts) {
        case Export(o) => StuckExport(key, d, o, o.entry, if o.rewritten then None else PendingReceipt(d), fates);
        case _ =>
      }
    case Delivery(copy, opts, fates) =>
      match Proposal(Entering(d), copy, opts) {
        case Export(o) => StuckExport(key, d, o, Entering(d), PendingReceipt(d), fates);
        case _ =>
      }
    case Replay(_) =>
    case Stranger(_) =>
  }

  /** STUCK FOR GOOD: from then on no pass, delivery or replay puts anything of the session into
      the library. */
  lemma {:induction false} StuckForGood(key: nat, h: Host, arrivals: seq<Arrival>)
    requires Stuck(h.disk) && forall a :: a in arrivals && a.Stranger? ==> a.payload.session != key
    ensures var after := Arrivals(key, h, arrivals).disk;
            Stuck(after) && forall p :: p in after.library && p.session == key ==> p in h.disk.library
  {
    hide Stuck, Arrive;
    if arrivals != [] {
      var front, last := arrivals[..|arrivals| - 1], arrivals[|arrivals| - 1];
      StuckForGood(key, h, front);
      StuckArrival(key, Arrivals(key, h, front), last);
      if last.Stranger? {
        assert last in arrivals;
        StrangerOnly(key, Arrivals(key, h, front), last.payload);
      }
    }
  }

  lemma StrangerOnly(key: nat, h: Host, payload: Payload)
    requires payload.session != key
    ensures forall p :: p in Arrive(key, h, Stranger(payload)).disk.library && p.session == key ==> p in h.disk.library
  {
    AcceptedOnly(h.disk.library, payload);
  }

  /* ---------------------------------------------------------------- it happens */

  function Reporting(): Options { Reingesting().(policy := Report) }

  function Small(): seq<Utterance> { Thrice(4, Repeat('a', 1)) }

  function Large(): seq<Utterance> { Thrice(1, Repeat('x', 600)) + Small() }

  lemma SmallSays()
    ensures OwnerSays(Small()) && |Small()| == 3 && Chars(Numbered(Small(), 0)) == 3
  {
    ThriceSays(4, Repeat('a', 1));
  }

  lemma JoinedSays(a: seq<Utterance>, b: seq<Utterance>)
    requires OwnerSays(a) && OwnerSays(b) && forall i, j :: 0 <= i < |a| && 0 <= j < |b| ==> a[i].at <= b[j].at
    ensures OwnerSays(a + b)
  {
  }

  lemma Instants(from: int, text: string)
    ensures |Thrice(from, text)| == 3 && forall i :: 0 <= i < 3 ==> Thrice(from, text)[i].at == from + i
  {
  }

  lemma LargeSays()
    ensures OwnerSays(Large()) && |Large()| == 6 && Chars(Numbered(Large(), 0)) > MIN_PART_CHARS
    ensures Within(Small(), Large()) && Large()[0] !in Small()
    ensures forall i :: 0 < i < |Large()| ==> Large()[i] != Large()[0]
  {
    hide OwnerSays, Thrice, Repeat, Chars;
    var long := Thrice(1, Repeat('x', 600));
    Instants(1, Repeat('x', 600));
    Instants(4, Repeat('a', 1));
    SmallSays();
    LongSays();
    JoinedSays(long, Small());
    NumberedConcat(long, Small(), 0);
    CharsConcat(Numbered(long, 0), Numbered(Small(), 3));
    assert forall i :: 0 <= i < 6 ==> Large()[i].at == i + 1;
  }

  lemma LongSays()
    ensures var long := Thrice(1, Repeat('x', 600)); OwnerSays(long) && Chars(Numbered(long, 0)) == 1800
  {
    ThriceSays(1, Repeat('x', 600));
  }

  /** The first device's copy, whose ingest got as far as the saved receipt. */
  function Halted(key: nat): Host {
    Receive(key, Host(Disk(None, None, []), {}), Copy(1, Small(), false, false), Reporting(), [Saved])
  }

  lemma FirstOrder()
    ensures var plan := Proposal(Fresh([]), Copy(1, Small(), false, false), Reporting());
            && plan.Export? && plan.order.parts == [Numbered(Small(), 0)]
            && plan.order.cursor.file == None && plan.order.cursor.splitTurns == 0
            && plan.order.cursor.seen == Some(Small()) && plan.order.cursor.origins == map[1 := Small()]
            && plan.order.cursor.device == 1 && plan.order.session == Small() && plan.order.entry == Fresh([])
  {
    hide Conclude, Increment, OwnerSays, Small;
    SmallSays();
    FreshIncrement(Small(), []);
    var all, data := Numbered(Small(), 0), File(ClaudeFile([]), false, false);
    AllConcludes(Fresh([]), Small(), data, Reporting(), [], false);
    ConcludeKeepsSplit(Fresh([]), Small(), data, Reporting(), Cut(all, all));
    ProposalShape(Fresh([]), Copy(1, Small(), false, false), Reporting());
  }

  lemma ConcludeKeepsSplit(entry: Cursor, session: seq<Utterance>, data: File, opts: Options, cut: Cut)
    requires Conclude(entry, session, data, opts, Earlier(entry), cut, false, false).Export?
    ensures Conclude(entry, session, data, opts, Earlier(entry), cut, false, false).order.cursor.splitTurns
            == entry.splitTurns
  {
  }

  lemma HaltedState(key: nat)
    ensures var d := Halted(key).disk;
            && HasPending(d) && Sources(d) == [] && OnItsWay(d).value.turns == Numbered(Small(), 0)
            && (var c := d.entry.value.cursor;
                && c.exportedTurns == 0 && c.splitTurns == 0 && c.seen == Some(Small())
                && c.origins == map[1 := Small()] && c.device == 1)
  {
    hide Proposal, Small, Settle;
    FirstOrder();
    SmallSays();
    var o := Proposal(Fresh([]), Copy(1, Small(), false, false), Reporting()).order;
    assert HasOwner(Said(o.parts[0])) by { SaidNumbered(Small(), 0); FirstIsOwner(); }
    var payload, step := PartPayload(key, o, 0, o.entry), PartStep(o, 0, o.entry);
    SavedState(Disk(None, None, []), payload, step);
    assert Halted(key).disk == IngestOver(Disk(None, None, []), payload, step, None, Saved);
  }

  lemma FirstIsOwner()
    ensures HasOwner(Small())
  {
    assert Small()[0].role == Owner;
  }

  lemma SavedState(d: Disk, payload: Payload, step: Cursor)
    requires !HasPending(d)
    ensures IngestOver(d, payload, step, None, Saved) == Journal(d, payload, step)
  {
  }

  lemma HaltedInv(key: nat)
    ensures Inv(key, Halted(key).disk)
  {
    hide Inv, Receive, Small;
    NothingYet(key);
    ReceiveKeeps(key, Host(Disk(None, None, []), {}), Copy(1, Small(), false, false), Reporting(), [Saved]);
  }

  lemma UnexportedIncrement(session: seq<Utterance>, c: Cursor)
    requires c.exportedTurns == 0 && c.splitTurns == 0
    ensures var all := Numbered(session, 0); Increment(session, c) == Ok(Cut(all, all))
  {
    SubtractNothing(session);
    assert multiset(Earlier(c)) == multiset{};
  }

  lemma SecondOrder(c: Cursor)
    requires c.exportedTurns == 0 && c.splitTurns == 0
    ensures var plan := Proposal(c, Copy(2, Large(), false, false), Reporting());
            && plan.Export? && !plan.order.rewritten && plan.order.session == Large()
            && plan.order.parts == Parts(Numbered(Large(), 0), MIN_PART_CHARS)
  {
    hide Conclude, OwnerSays, Small, Large, Parts, Increment, Within;
    LargeSays();
    var all, data := Numbered(Large(), 0), File(ClaudeFile([]), false, false);
    UnexportedIncrement(Large(), c);
    AllConcludes(c, Large(), data, Reporting(), [], false);
    ProposalShape(c, Copy(2, Large(), false, false), Reporting());
  }

  lemma SecondRelation(key: nat)
    ensures Relate(Halted(key), Copy(2, Large(), false, false)) == Extending
    ensures !SameCopy(Entering(Halted(key).disk), Copy(2, Large(), false, false), Reporting())
  {
    hide Small, Large, Halted;
    HaltedState(key);
    SmallSays();
    LargeSays();
  }

  /** The first turn of the large copy is in its first part only. */
  lemma FirstTurnOnly()
    ensures var parts := Parts(Numbered(Large(), 0), MIN_PART_CHARS);
            |parts| > 1 && forall i :: 0 < i < |parts| ==> Large()[0] !in Said(parts[i])
  {
    hide Parts, Large, OwnerSays, Flatten;
    LargeSays();
    SeveralParts(Large());
    var all := Numbered(Large(), 0);
    var parts: seq<seq<Turn>> := Parts(all, MIN_PART_CHARS);
    PartsConcatenate(all, MIN_PART_CHARS);
    SeveralOwned(all, MIN_PART_CHARS);
    FirstOff(parts);
    assert parts[0] != [] by { assert HasOwner(Said(parts[0])); }
    forall i | 0 < i < |parts| ensures Large()[0] !in Said(parts[i]) {
      PartInFlatten(parts[1..], i - 1);
      forall t: Turn | t in parts[i] ensures t.said != Large()[0] {
        assert t in Flatten(parts[1..]);
        var j :| 0 <= j < |Flatten(parts[1..])| && Flatten(parts[1..])[j] == t;
        assert all[|parts[0]| + j] == t;
      }
    }
  }

  lemma {:induction false} PartInFlatten<T>(parts: seq<seq<T>>, i: nat)
    requires i < |parts|
    ensures forall t :: t in parts[i] ==> t in Flatten(parts)
  {
    if i < |parts| - 1 { PartInFlatten(parts[..|parts| - 1], i); }
  }

  /** THE COUNTEREXAMPLE. One device's copy of three short turns, whose ingest fails after the
      receipt; then another device's copy with three long turns before them. The first long turn
      counts as exported and is in no source, and the session is stuck. */
  lemma OvertakenHappens(key: nat)
    ensures Inv(key, Halted(key).disk)
    ensures var after := Receive(key, Halted(key), Copy(2, Large(), false, false), Reporting(), []).disk;
            && !Inv(key, after) && Stuck(after)
            && Large()[0] in after.entry.value.cursor.exported
            && (forall p :: p in after.library && p.session == key ==> !SaidIn(Large()[0], p))
  {
    hide Inv, Halted, Receive, Proposal, Small, Large, Parts, ExportOver, Relate, SameCopy, AllOwned;
    var h, copy := Halted(key), Copy(2, Large(), false, false);
    HaltedInv(key);
    HaltedState(key);
    SecondOrder(Entering(h.disk));
    SecondRelation(key);
    LargeSays();
    FirstTurnOnly();
    var o := Proposal(Entering(h.disk), copy, Reporting()).order;
    assert Proposed(h, copy, Reporting()) == Proposal(Entering(h.disk), copy, Reporting());
    OvertakenDelivery(key, h, copy, Reporting());
    assert !SaidIn(Large()[0], OnItsWay(h.disk).value);
    TurnsLost(key, h.disk, o, Entering(h.disk), Large()[0]);
  }
}
