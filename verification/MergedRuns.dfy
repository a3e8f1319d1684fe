/** Local passes and delivered copies of one session together: exactly once, and the exact
    condition on a receipt that is still pending when the main loop is reached.

    The main loop skips a file whose receipt was recovered in this pass by its path only. A copy
    from another device has another path, and so has a local file of a session that was first
    seen elsewhere, so both can find a receipt that a failed ingest left. */
module MergedRuns {
  import opened Turns
  import opened Readers
  import opened Splitting
  import opened Exporter
  import opened ExactlyOnce
  import opened ExportRuns
  import opened CrashTransparency
  import opened Merge

  /* ---------------------------------------------------------------- local passes */

  /** The main loop's turn for a local file, whatever receipt the entry holds. A reset works on
      an empty cursor and copies no receipt. */
  function MainOver(key: nat, d: Disk, data: File, opts: Options, fates: seq<Fate>): Disk {
    match Decide(PriorCursor(d), data, opts)
    case Keep => d
    case Observe(c) => d.(entry := Some(Entry(c, PendingReceipt(d))))
    case Export(o) => ExportOver(key, d, o, 0, o.entry, if o.rewritten then None else PendingReceipt(d), fates)
  }

  /** Does a pass reach the main loop for this file? `guarded` says that the entry names its path. */
  predicate ReachesMain(d: Disk, opts: Options, replay: Fate, guarded: bool) {
    && opts.max >= MIN_PART_CHARS
    && (HasPending(d) && guarded ==> Succeeds(d, replay) && StillOwed(Settle(d, replay)))
  }

  function Recovered(d: Disk, opts: Options, replay: Fate): Disk {
    if HasPending(d) && opts.max >= MIN_PART_CHARS then Settle(d, replay) else d
  }

  function PassOver(key: nat, d: Disk, data: File, opts: Options, replay: Fate, fates: seq<Fate>, guarded: bool): Disk {
    var recovered := Recovered(d, opts, replay);
    if ReachesMain(d, opts, replay, guarded) then MainOver(key, recovered, data, opts, fates) else recovered
  }

  lemma MainOverIsMain(key: nat, d: Disk, data: File, opts: Options, fates: seq<Fate>)
    requires !HasPending(d)
    ensures MainOver(key, d, data, opts, fates) == Main(key, d, data, opts, fates)
  {
    hide Decide, ExportOver, ExportFrom;
    match Decide(PriorCursor(d), data, opts)
    case Export(o) => OverIsPlain(key, d, o, 0, o.entry, fates);
    case _ =>
  }

  /** A guarded pass is the pass over a local file. */
  lemma GuardedIsSync(key: nat, d: Disk, data: File, opts: Options, replay: Fate, fates: seq<Fate>)
    requires Inv(key, d)
    ensures PassOver(key, d, data, opts, replay, fates, true) == Sync(key, d, data, opts, replay, fates)
  {
    hide Inv, MainOver, Main;
    if HasPending(d) { PendingIsPlain(key, d); }
    var recovered := Recovered(d, opts, replay);
    if ReachesMain(d, opts, replay, true) { MainOverIsMain(key, recovered, data, opts, fates); }
  }

  lemma PendingIsPlain(key: nat, d: Disk)
    requires Inv(key, d) && HasPending(d)
    ensures var r := d.entry.value.pending.value; d.journal == Some(r.payload) && r.carried == None
  {
  }

  /* ---------------------------------------------------------------- without a receipt */

  lemma EnteringBaseline(key: nat, d: Disk)
    requires Inv(key, d) && !HasPending(d)
    ensures Entering(d).sources == Sources(d) && Baseline(Entering(d), Done(d.library, Entering(d)))
  {
    if d.entry.None? {
      FreshBaseline([]);
    } else {
      var c := d.entry.value.cursor;
      assert c.exportedTurns == 0 ==> c.exported == [] && Lineage(d.library, c.sources) == [];
    }
  }

  lemma ProposalStarts(key: nat, d: Disk, copy: Copy, opts: Options)
    requires Inv(key, d) && !HasPending(d) && Proposal(Entering(d), copy, opts).Export?
    ensures var o := Proposal(Entering(d), copy, opts).order; Running(key, d, o, 0, o.entry)
  {
    hide Inv, Proposal, Increment, Parts;
    var entry := Entering(d);
    ProposalShape(entry, copy, opts);
    EnteringBaseline(key, d);
    SourcesKnown(key, d);
    var o, rest, done := Proposal(entry, copy, opts).order, Increment(copy.turns, entry).value.rest,
        Done(d.library, entry);
    IncrementBag(copy.turns, entry, done);
    PartsConcatenate(rest, opts.max);
    assert o.parts[0..] == o.parts;
  }

  lemma ExportedMeansSources(key: nat, d: Disk)
    requires Inv(key, d) && !HasPending(d)
    ensures Entering(d).exportedTurns == 0 <==> Entering(d).sources == []
    ensures Done(d.library, Entering(d)) == Lineage(d.library, Sources(d))
  {
  }

  lemma ObservedCopyAccounted(key: nat, d: Disk, copy: Copy, opts: Options)
    requires Inv(key, d) && !HasPending(d) && Proposal(Entering(d), copy, opts).Observe?
    requires InLibrary(d.library, Sources(d))
    ensures var c := Proposal(Entering(d), copy, opts).cursor;
            c.sources == Sources(d) && Accounted(Lineage(d.library, Sources(d)), c)
  {
    hide Inv, Proposal, Increment;
    var entry := Entering(d);
    ProposalShape(entry, copy, opts);
    EnteringBaseline(key, d);
    ExportedMeansSources(key, d);
  }

  /** The account reads a cursor only for what it accounts for, and not at all while a receipt
      is pending. */
  lemma RecursorKeeps(key: nat, d: Disk, c: Cursor)
    requires Inv(key, d) && c.sources == Sources(d) && InLibrary(d.library, c.sources)
    requires !HasPending(d) ==> Accounted(Lineage(d.library, c.sources), c)
    ensures Inv(key, d.(entry := Some(Entry(c, PendingReceipt(d)))))
  {
  }

  lemma ReoriginKeeps(key: nat, d: Disk, origins: map<nat, seq<Utterance>>)
    requires Inv(key, d) && d.entry.Some?
    ensures Inv(key, Reorigin(d, origins))
  {
    SourcesKnown(key, d);
    RecursorKeeps(key, d, d.entry.value.cursor.(origins := origins));
  }

  lemma ObservedCopyKeeps(key: nat, d: Disk, copy: Copy, opts: Options)
    requires Inv(key, d) && Proposal(Entering(d), copy, opts).Observe?
    ensures Inv(key, d.(entry := Some(Entry(Proposal(Entering(d), copy, opts).cursor, PendingReceipt(d)))))
  {
    hide Inv, Proposal, Accounted, Lineage;
    ProposalShape(Entering(d), copy, opts);
    SourcesKnown(key, d);
    if !HasPending(d) { ObservedCopyAccounted(key, d, copy, opts); }
    RecursorKeeps(key, d, Proposal(Entering(d), copy, opts).cursor);
  }

  /* ---------------------------------------------------------------- over a receipt */

  /** What a reset's first part would have put in the library is what the receipt will have put
      there, and a part between writes down the material the receipt counted. */
  predicate Resumes(d: Disk, o: Order)
    requires HasPending(d) && o.parts != []
  {
    var r := d.entry.value.pending.value;
    && InLibrary(d.library, Sources(d))
    && multiset(Said(Continued(Lineage(d.library, Sources(d)), r.payload))) == multiset(Said(o.parts[0]))
    && (|o.parts| > 2 ==> multiset(o.earlier) == multiset(r.cursor.exported))
  }

  /** What a caller can see beforehand: a receipt is pending, the increment takes several parts,
      and it is not a reset that resumes. */
  predicate Overtakes(d: Disk, plan: Plan) {
    && HasPending(d) && plan.Export? && |plan.order.parts| > 1
    && !(plan.order.rewritten && Resumes(d, plan.order))
  }

  /** One part over a receipt only settles the receipt. */
  lemma OnePartSettles(key: nat, d: Disk, o: Order, entry: Cursor, carried: Option<Receipt>, fates: seq<Fate>)
    requires Inv(key, d) && HasPending(d) && |o.parts| <= 1
    ensures Inv(key, ExportOver(key, d, o, 0, entry, carried, fates))
  {
    hide Inv, PartPayload, PartStep, Settle;
    if |o.parts| == 1 && HasOwner(Said(o.parts[0])) { SettleKeeps(key, d, FateAt(fates, 0)); }
  }

  lemma {:induction false} PackNoMore(es: seq<seq<Turn>>, max: nat)
    ensures |Pack(es, max)| <= |es|
  {
    if es != [] { PackNoMore(es[..|es| - 1], max); }
  }

  /** Several parts all have owner turns. */
  lemma SeveralOwned(turns: seq<Turn>, max: nat)
    requires |Parts(turns, max)| > 1
    ensures AllOwned(Parts(turns, max))
  {
    var es := Exchanges(turns);
    ExchangesCut(turns);
    PackNoMore(es, max);
    assert Owners(es[0]) == 1;
    assert Flatten(es) == es[0] + Flatten(es[1..]) by { FirstOff(es); }
    OwnersConcat(es[0], Flatten(es[1..]));
    OwnersPositive(turns);
    forall i | 0 <= i < |Parts(turns, max)| ensures HasOwner(Said(Parts(turns, max)[i])) {
      PartsBoundedWithOwner(turns, max, i);
    }
  }

  lemma FirstOff<T>(parts: seq<seq<T>>)
    requires parts != []
    ensures Flatten(parts) == parts[0] + Flatten(parts[1..])
  {
    FlattenConcat([parts[0]], parts[1..]);
    assert [parts[0]] + parts[1..] == parts && [parts[0]][..0] == [];
  }

  lemma CompletedOver(d: Disk, payload: Payload, step: Cursor, carried: Option<Receipt>)
    requires !HasPending(d)
    ensures var (library, source) := Accept(d.library, payload);
            IngestOver(d, payload, step, carried, Completed)
            == Disk(Some(Entry(Acknowledged(step, source), carried)), None, library)
  {
  }

  lemma StepCounts(o: Order, number: nat, entry: Cursor)
    requires number < |o.parts|
    ensures PartStep(o, number, entry).exportedTurns == entry.exportedTurns + |o.parts[number]|
    ensures number == |o.parts| - 1 ==> PartStep(o, number, entry).exported == o.session
    ensures |Flatten(o.parts[number..])| == |o.parts[number]| + |Flatten(o.parts[number + 1..])|
    ensures Flatten(o.parts[|o.parts|..]) == []
  {
    FlattenHead(o.parts, number);
  }

  /** From its second part on, an uninterrupted export ends on the receipt it carries, without a
      journal for it, and with the whole session counted as exported. */
  lemma {:induction false} OverEnds(key: nat, d: Disk, o: Order, number: nat, entry: Cursor, carried: Option<Receipt>)
    requires number < |o.parts| && AllOwned(o.parts) && !HasPending(d)
    ensures var after := ExportOver(key, d, o, number, entry, carried, []);
            && after.entry.Some? && after.entry.value.pending == carried && after.journal == None
            && after.entry.value.cursor.exported == o.session
            && after.entry.value.cursor.exportedTurns == entry.exportedTurns + |Flatten(o.parts[number..])|
    decreases |o.parts| - number
  {
    hide Accept, IngestOver, PartPayload, PartStep, Flatten;
    var payload, step := PartPayload(key, o, number, entry), PartStep(o, number, entry);
    assert HasOwner(Said(o.parts[number]));
    StepCounts(o, number, entry);
    var given := if number == |o.parts| - 1 then carried else None;
    CompletedOver(d, payload, step, given);
    var next := IngestOver(d, payload, step, given, Completed);
    var c := next.entry.value.cursor;
    assert ExportOver(key, d, o, number, entry, carried, []) == ExportOver(key, next, o, number + 1, c, carried, []);
    if number + 1 < |o.parts| { OverEnds(key, next, o, number + 1, c, carried); }
  }

  /** Several parts over a receipt: the first one only settles it, the others follow. */
  lemma OverSettles(key: nat, d: Disk, o: Order, entry: Cursor)
    requires Inv(key, d) && HasPending(d) && |o.parts| > 1 && AllOwned(o.parts)
    ensures var next := Settle(d, Completed);
            && next.entry.Some? && !HasPending(next)
            && ExportOver(key, d, o, 0, entry, PendingReceipt(d), [])
               == ExportOver(key, next, o, 1, next.entry.value.cursor,
                             Some(PendingReceipt(d).value.(cursor := next.entry.value.cursor)), [])
  {
    hide PartPayload, PartStep;
    PendingIsPlain(key, d);
    assert HasOwner(Said(o.parts[0]));
  }

  /** A receipt whose journal is gone is outside the account. */
  lemma Unjournalled(key: nat, d: Disk)
    requires HasPending(d) && d.journal == None
    ensures !Inv(key, d)
  {
  }

  lemma OvertakenBreaks(key: nat, d: Disk, o: Order, entry: Cursor)
    requires Inv(key, d) && HasPending(d) && |o.parts| > 1 && AllOwned(o.parts)
    ensures !Inv(key, ExportOver(key, d, o, 0, entry, PendingReceipt(d), []))
  {
    hide Inv, ExportOver, Settle;
    OverSettles(key, d, o, entry);
    var next := Settle(d, Completed);
    var c := next.entry.value.cursor;
    OverEnds(key, next, o, 1, c, Some(PendingReceipt(d).value.(cursor := c)));
    Unjournalled(key, ExportOver(key, d, o, 0, entry, PendingReceipt(d), []));
  }

  /* ---------------------------------------------------------------- a reset over a receipt */

  /** A reset copies no receipt: its first part settles what is pending, and the others follow as
      they would without one. */
  lemma ResetSettles(key: nat, d: Disk, o: Order, fates: seq<Fate>)
    requires Inv(key, d) && HasPending(d) && |o.parts| > 1 && AllOwned(o.parts)
    ensures var next := Settle(d, Completed);
            && next.entry.Some? && !HasPending(next)
            && ExportOver(key, d, o, 0, o.entry, None, fates)
               == if FateAt(fates, 0) == Completed
                  then ExportFrom(key, next, o, 1, next.entry.value.cursor, fates) else Settle(d, FateAt(fates, 0))
  {
    hide PartPayload, PartStep, ExportFrom;
    PendingIsPlain(key, d);
    assert HasOwner(Said(o.parts[0]));
    var next := Settle(d, Completed);
    OverIsPlain(key, next, o, 1, next.entry.value.cursor, fates);
  }

  /** What the settled receipt leaves. */
  lemma SettledState(key: nat, d: Disk)
    requires Inv(key, d) && HasPending(d)
    ensures var next, r := Settle(d, Completed), d.entry.value.pending.value;
            && Inv(key, next) && next.entry.Some? && !HasPending(next)
            && var c := next.entry.value.cursor;
               && c.sources == Sources(d) + c.sources[|Sources(d)|..] && |c.sources| == |Sources(d)| + 1
               && c.exported == r.cursor.exported && c.exportedTurns > 0
               && Lineage(next.library, c.sources) == Continued(Lineage(d.library, Sources(d)), r.payload)
               && Accounted(Lineage(next.library, c.sources), c)
  {
    PendingIsPlain(key, d);
    SettleKeeps(key, d, Completed);
    var r, next := d.entry.value.pending.value, Settle(d, Completed);
    var (library, source) := Accept(d.library, r.payload);
    LineageFrame(d.library, library, Sources(d));
    LineageGrows(library, Sources(d), source);
  }

  lemma ResumedRuns(key: nat, d: Disk, o: Order)
    requires Inv(key, d) && HasPending(d) && |o.parts| > 1 && Flatten(o.parts) == Numbered(o.session, 0)
    requires Resumes(d, o)
    ensures var next := Settle(d, Completed); next.entry.Some? && Running(key, next, o, 1, next.entry.value.cursor)
  {
    hide Inv, Settle, Lineage, Continued;
    SettledState(key, d);
    var next := Settle(d, Completed);
    var c := next.entry.value.cursor;
    SourcesKnown(key, next);
    ResumedWork(o, c, Lineage(next.library, c.sources));
  }

  lemma ResumedWork(o: Order, c: Cursor, done: seq<Turn>)
    requires |o.parts| > 1 && Flatten(o.parts) == Numbered(o.session, 0)
    requires Accounted(done, c) && c.exportedTurns > 0 && multiset(Said(done)) == multiset(Said(o.parts[0]))
    requires |o.parts| > 2 ==> multiset(o.earlier) == multiset(c.exported)
    ensures Working(o, 1, c, done)
  {
    var part, rest := o.parts[0], Flatten(o.parts[1..]);
    FirstOff(o.parts);
    SaidNumbered(o.session, 0);
    NumberedSplit(part, rest, 0);
    SaidConcat(part, rest);
    SameBagSameLength(Said(done), Said(part));
    if |o.parts| > 2 { SameBagSameLength(o.earlier, c.exported); }
  }

  /** An uninterrupted export ends with its session counted as exported, behind what was there. */
  lemma {:induction false} PlainEnds(key: nat, d: Disk, o: Order, number: nat, entry: Cursor)
    requires number < |o.parts| && AllOwned(o.parts) && !HasPending(d)
    requires InLibrary(d.library, entry.sources) && entry.exportedTurns > 0 && entry.sources != []
    ensures var after := ExportFrom(key, d, o, number, entry, []);
            && after.entry.Some? && !HasPending(after)
            && var c := after.entry.value.cursor;
               && c.exported == o.session && c.splitRefs == [] && InLibrary(after.library, c.sources)
               && Lineage(after.library, c.sources)
                  == Lineage(d.library, entry.sources) + Flatten(o.parts[number..])
    decreases |o.parts| - number
  {
    hide Accept, Ingest, Lineage, Flatten, InLibrary;
    var payload, step := PartPayload(key, o, number, entry), PartStep(o, number, entry);
    assert HasOwner(Said(o.parts[number]));
    CompletedState(d, payload, step);
    var next := Ingest(d, payload, step, Completed);
    var c := next.entry.value.cursor;
    PartAppended(key, d.library, o, number, entry);
    FlattenHead(o.parts, number);
    assert ExportFrom(key, d, o, number, entry, []) == ExportFrom(key, next, o, number + 1, c, []);
    if number + 1 < |o.parts| {
      PlainEnds(key, next, o, number + 1, c);
    } else {
      StepCounts(o, number, entry);
    }
  }

  lemma PartAppended(key: nat, library: seq<Payload>, o: Order, number: nat, entry: Cursor)
    requires InLibrary(library, entry.sources) && number < |o.parts|
    requires entry.exportedTurns > 0 && entry.sources != []
    ensures var (more, source) := Accept(library, PartPayload(key, o, number, entry));
            var sources := entry.sources + [source];
            InLibrary(more, sources)
            && Lineage(more, sources) == Lineage(library, entry.sources) + o.parts[number]
  {
    var (more, source) := Accept(library, PartPayload(key, o, number, entry));
    LineageFrame(library, more, entry.sources);
    LineageGrows(more, entry.sources, source);
  }

  /** If its end is accounted for, the receipt was the reset's first part. */
  lemma ResumedFirst(key: nat, d: Disk, o: Order)
    requires Inv(key, d) && HasPending(d) && |o.parts| > 1 && AllOwned(o.parts)
    requires Flatten(o.parts) == Numbered(o.session, 0)
    requires Inv(key, ExportOver(key, d, o, 0, o.entry, None, []))
    ensures multiset(Said(Continued(Lineage(d.library, Sources(d)), d.entry.value.pending.value.payload)))
            == multiset(Said(o.parts[0]))
  {
    hide Settle, ExportOver, ExportFrom, Lineage, Continued;
    SettledState(key, d);
    ResetSettles(key, d, o, []);
    var next := Settle(d, Completed);
    var c := next.entry.value.cursor;
    SourcesKnown(key, next);
    PlainEnds(key, next, o, 1, c);
    FirstOff(o.parts);
    SaidNumbered(o.session, 0);
    SaidConcat(o.parts[0], Flatten(o.parts[1..]));
    var after := ExportFrom(key, next, o, 1, c, []);
    EndCounted(Lineage(next.library, c.sources), Flatten(o.parts[1..]), after.entry.value.cursor);
    assert o.session == Said(o.parts[0]) + Said(Flatten(o.parts[1..]));
    SameRest(multiset(Said(Lineage(next.library, c.sources))), multiset(Said(o.parts[0])),
             multiset(Said(Flatten(o.parts[1..]))));
  }

  lemma SameRest<T>(a: multiset<T>, b: multiset<T>, rest: multiset<T>)
    requires a + rest == b + rest
    ensures a == b
  {
    assert a == (a + rest) - rest && b == (b + rest) - rest;
  }

  lemma EndCounted(done: seq<Turn>, rest: seq<Turn>, c: Cursor)
    requires Accounted(done + rest, c) && c.splitRefs == []
    ensures multiset(Said(done)) + multiset(Said(rest)) == multiset(c.exported)
  {
    SaidConcat(done, rest);
    assert Said([]) == [];
  }

  /** If the end of its second part is, and that is not the last, the baselines match. */
  lemma ResumedBaseline(key: nat, d: Disk, o: Order)
    requires Inv(key, d) && HasPending(d) && |o.parts| > 2 && AllOwned(o.parts)
    requires Inv(key, ExportOver(key, d, o, 0, o.entry, None, [Completed, Completed, NotStarted]))
    ensures multiset(o.earlier) == multiset(d.entry.value.pending.value.cursor.exported)
  {
    hide Settle, ExportOver, Lineage, Continued;
    var fates := [Completed, Completed, NotStarted];
    SettledState(key, d);
    ResetSettles(key, d, o, fates);
    var next := Settle(d, Completed);
    var c := next.entry.value.cursor;
    SourcesKnown(key, next);
    var payload, step := PartPayload(key, o, 1, c), PartStep(o, 1, c);
    CompletedState(next, payload, step);
    var after := Ingest(next, payload, step, Completed);
    assert HasOwner(Said(o.parts[1])) && HasOwner(Said(o.parts[2]));
    assert ExportFrom(key, next, o, 1, c, fates) == ExportFrom(key, after, o, 2, after.entry.value.cursor, fates);
    PartAppended(key, next.library, o, 1, c);
    SecondCounted(o, c, Lineage(next.library, c.sources), Accept(next.library, payload).1);
  }

  lemma SecondCounted(o: Order, c: Cursor, done: seq<Turn>, source: nat)
    requires |o.parts| > 2 && Accounted(done, c)
             && Accounted(done + o.parts[1], Acknowledged(PartStep(o, 1, c), source))
    ensures multiset(o.earlier) == multiset(c.exported)
  {
    var part := o.parts[1];
    FlattenSnoc(c.splitRefs, part);
    SaidConcat(Flatten(c.splitRefs), part);
    SaidConcat(done, part);
    assert multiset(o.earlier) == multiset(Said(done + part)) - multiset(Said(Flatten(c.splitRefs + [part])));
  }

  /** The account holds wherever the export is stopped. */
  ghost predicate SafeOver(key: nat, d: Disk, o: Order) {
    forall fates :: Inv(key, ExportOver(key, d, o, 0, o.entry, None, fates))
  }

  /** WHEN A RESET OVER A RECEIPT IS SAFE: exactly when it resumes what the receipt began. */
  lemma ResetResumesIff(key: nat, d: Disk, o: Order)
    requires Inv(key, d) && HasPending(d) && |o.parts| > 1 && AllOwned(o.parts)
    requires Flatten(o.parts) == Numbered(o.session, 0)
    ensures SafeOver(key, d, o) <==> Resumes(d, o)
  {
    hide Inv, Settle, ExportOver, ExportFrom, Lineage, Continued, Running;
    SourcesKnown(key, d);
    if Resumes(d, o) {
      ResumedRuns(key, d, o);
      var next := Settle(d, Completed);
      forall fates ensures Inv(key, ExportOver(key, d, o, 0, o.entry, None, fates)) {
        ResetSettles(key, d, o, fates);
        if FateAt(fates, 0) == Completed {
          ExportKeeps(key, next, o, 1, next.entry.value.cursor, fates);
        } else {
          SettleKeeps(key, d, FateAt(fates, 0));
        }
      }
    } else {
      if SafeOver(key, d, o) {
        WithFates(key, d, o, []);
        ResumedFirst(key, d, o);
        if |o.parts| > 2 {
          WithFates(key, d, o, [Completed, Completed, NotStarted]);
          ResumedBaseline(key, d, o);
        }
      }
    }
  }

  lemma WithFates(key: nat, d: Disk, o: Order, fates: seq<Fate>)
    requires SafeOver(key, d, o)
    ensures Inv(key, ExportOver(key, d, o, 0, o.entry, None, fates))
  {
  }

  /** A reset whose own first ingest was stopped behind the receipt is such a one. */
  lemma OwnReset(key: nat, d: Disk, o: Order)
    requires Running(key, d, o, 0, o.entry) && |o.parts| > 1 && o.parts[0] != [] && o.entry.exportedTurns == 0
    ensures var saved := Ingest(d, PartPayload(key, o, 0, o.entry), PartStep(o, 0, o.entry), Saved);
            Inv(key, saved) && HasPending(saved) && Resumes(saved, o)
  {
    PartIsDue(key, d, o, 0, o.entry);
    IngestKeeps(key, d, PartPayload(key, o, 0, o.entry), PartStep(o, 0, o.entry), Saved);
  }

  /* ---------------------------------------------------------------- one delivery */

  /** What a delivery makes of a copy before it does anything. */
  function Proposed(h: Host, copy: Copy, opts: Options): Plan {
    if opts.max < MIN_PART_CHARS || Relate(h, copy) != Extending then Keep
    else if h.disk.entry.Some? && SameCopy(Entering(h.disk), copy, opts) then Keep
    else Proposal(Entering(h.disk), copy, opts)
  }

  lemma ReceiveKeeps(key: nat, h: Host, copy: Copy, opts: Options, fates: seq<Fate>)
    requires Inv(key, h.disk) && !Overtakes(h.disk, Proposed(h, copy, opts))
    ensures Inv(key, Receive(key, h, copy, opts, fates).disk)
  {
    hide Inv, Proposal, ExportFrom, ExportOver, SameCopy;
    var d, entry := h.disk, Entering(h.disk);
    match Relate(h, copy)
    case Diverged =>
    case Behind => ReoriginKeeps(key, d, FallBehind(h, copy).disk.entry.value.cursor.origins);
    case Extending =>
      if d.entry.Some? { ReoriginKeeps(key, d, entry.origins[copy.device := copy.turns]); }
      match Proposal(entry, copy, opts)
      case Keep =>
      case Observe(c) => ObservedCopyKeeps(key, d, copy, opts);
      case Export(o) =>
        ProposalShape(entry, copy, opts);
        if HasPending(d) {
          if |o.parts| <= 1 { OnePartSettles(key, d, o, entry, PendingReceipt(d), fates); }
        } else {
          ProposalStarts(key, d, copy, opts);
          OverIsPlain(key, d, o, 0, entry, fates);
          ExportKeeps(key, d, o, 0, entry, fates);
        }
  }

  /** WHEN A DELIVERY IS SAFE. A copy keeps the account under every interruption exactly when no
      receipt of its session is pending or its increment is a single part. */
  lemma DeliverySafeIff(key: nat, h: Host, copy: Copy, opts: Options)
    requires Inv(key, h.disk)
    ensures (forall fates :: Inv(key, Receive(key, h, copy, opts, fates).disk))
            <==> !Overtakes(h.disk, Proposed(h, copy, opts))
  {
    hide Inv, Receive, Proposal, Proposed;
    if Overtakes(h.disk, Proposed(h, copy, opts)) {
      OvertakenDelivery(key, h, copy, opts);
    } else {
      forall fates ensures Inv(key, Receive(key, h, copy, opts, fates).disk) {
        ReceiveKeeps(key, h, copy, opts, fates);
      }
    }
  }

  lemma OvertakenDelivery(key: nat, h: Host, copy: Copy, opts: Options)
    requires Inv(key, h.disk) && Overtakes(h.disk, Proposed(h, copy, opts))
    ensures var o := Proposed(h, copy, opts).order;
            && Receive(key, h, copy, opts, []).disk
               == ExportOver(key, h.disk, o, 0, Entering(h.disk), PendingReceipt(h.disk), [])
            && AllOwned(o.parts)
            && !Inv(key, Receive(key, h, copy, opts, []).disk)
  {
    hide Inv, ExportOver, Proposal, Parts, AllOwned, Increment;
    var o, entry := Proposed(h, copy, opts).order, Entering(h.disk);
    ProposalShape(entry, copy, opts);
    SeveralOwned(Increment(copy.turns, entry).value.rest, opts.max);
    OvertakenBreaks(key, h.disk, o, entry);
  }

  /* ---------------------------------------------------------------- one pass */

  /** What a pass makes of a local file once it reaches the main loop. */
  function Planned(d: Disk, data: File, opts: Options, replay: Fate, guarded: bool): Plan {
    if ReachesMain(d, opts, replay, guarded) then Decide(PriorCursor(Recovered(d, opts, replay)), data, opts) else Keep
  }

  /** WHAT A RESET IS MADE OF: the order of a pass has a sound baseline unless something was
      exported before, the subtraction fails, and the transcript takes several parts. */
  predicate LateSplitReset(prior: Option<Cursor>, data: File, opts: Options) {
    var working := WorkingEntry(prior, data);
    && Read(data).Ok? && Earlier(working) != [] && Increment(Read(data).value, working).Err?
    && |Parts(Numbered(Read(data).value, 0), opts.max)| > 1
  }

  lemma SafeOrderIff(key: nat, d: Disk, data: File, opts: Options)
    requires Inv(key, d) && !HasPending(d) && Decide(PriorCursor(d), data, opts).Export?
    ensures SafeOrder(Decide(PriorCursor(d), data, opts).order) <==> !LateSplitReset(PriorCursor(d), data, opts)
  {
    hide Inv, Decide, Increment, Parts;
    OrderShape(PriorCursor(d), data, opts);
    EntryBaseline(key, d, data);
    var o, working := Decide(PriorCursor(d), data, opts).order, WorkingEntry(PriorCursor(d), data);
    PartsConcatenate(Numbered(o.session, 0), opts.max);
  }

  /** What breaks the account, in what a caller knows before the main loop. */
  predicate Endangers(d: Disk, data: File, opts: Options, plan: Plan) {
    Overtakes(d, plan) || (!HasPending(d) && plan.Export? && LateSplitReset(PriorCursor(d), data, opts))
  }

  /** WHEN A RESET IS SAFE, in what a caller knows before the pass. */
  lemma ResetSafeIff(key: nat, d: Disk, data: File, opts: Options)
    requires Inv(key, d) && !HasPending(d) && Decide(PriorCursor(d), data, opts).Export?
    ensures (forall fates :: Inv(key, Main(key, d, data, opts, fates)))
            <==> !LateSplitReset(PriorCursor(d), data, opts)
  {
    hide Inv, Main, Decide, SafeOrder, LateSplitReset;
    SafeIff(key, d, data, opts);
    SafeOrderIff(key, d, data, opts);
  }

  lemma ObservedSources(prior: Option<Cursor>, data: File, opts: Options)
    requires Decide(prior, data, opts).Observe?
    ensures Decide(prior, data, opts).cursor.sources == if prior.Some? then prior.value.sources else []
  {
    hide Decide;
    ObservedShape(prior, data, opts);
  }

  /** The parts of a reset are those of the whole transcript. */
  lemma RewrittenWhole(prior: Option<Cursor>, data: File, opts: Options)
    requires Decide(prior, data, opts).Export? && Decide(prior, data, opts).order.rewritten
    ensures var o := Decide(prior, data, opts).order;
            && o.parts == Parts(Numbered(o.session, 0), opts.max) && Flatten(o.parts) == Numbered(o.session, 0)
            && o.entry.exportedTurns == 0
  {
    hide Decide, Conclude, Parts;
    OrderShape(prior, data, opts);
    var o, entry := Decide(prior, data, opts).order, WorkingEntry(prior, data);
    PartsConcatenate(Numbered(o.session, 0), opts.max);
    if Increment(o.session, entry).Ok? {
      KeptIntact(prior, data, opts);
      WholeOfFresh(o.session, entry.sources);
    }
  }

  lemma KeptIntact(prior: Option<Cursor>, data: File, opts: Options)
    requires Decide(prior, data, opts).Export? && Increment(Read(data).value, WorkingEntry(prior, data)).Ok?
    ensures Decide(prior, data, opts).order.rewritten <==> !Intact(prior, data)
  {
    hide Conclude, Increment, Decide;
    ExportedFrom(prior, data, opts);
    var entry, session := WorkingEntry(prior, data), Read(data).value;
    ConcludeShape(entry, session, data, opts, Earlier(entry), Increment(session, entry).value, entry.splitTurns > 0,
                  !Intact(prior, data));
  }

  lemma WholeOfFresh(session: seq<Utterance>, sources: seq<nat>)
    ensures Increment(session, Fresh(sources)) == Ok(Cut(Numbered(session, 0), Numbered(session, 0)))
  {
    SubtractNothing(session);
  }

  lemma MainOverKeeps(key: nat, d: Disk, data: File, opts: Options, fates: seq<Fate>)
    requires Inv(key, d) && !Endangers(d, data, opts, Decide(PriorCursor(d), data, opts))
    ensures Inv(key, MainOver(key, d, data, opts, fates))
  {
    hide Inv, Decide, ExportOver, Main, Resumes, Flatten, Parts, LateSplitReset;
    if !HasPending(d) {
      MainOverIsMain(key, d, data, opts, fates);
      PlanIsSafe(key, d, data, opts);
      MainKeeps(key, d, data, opts, fates);
    } else {
      match Decide(PriorCursor(d), data, opts)
      case Keep =>
      case Observe(c) =>
        ObservedSources(PriorCursor(d), data, opts);
        SourcesKnown(key, d);
        RecursorKeeps(key, d, c);
      case Export(o) =>
        if |o.parts| <= 1 {
          OnePartSettles(key, d, o, o.entry, if o.rewritten then None else PendingReceipt(d), fates);
        } else {
          RewrittenWhole(PriorCursor(d), data, opts);
          SeveralOwned(Numbered(o.session, 0), opts.max);
          ResetResumesIff(key, d, o);
          WithFates(key, d, o, fates);
        }
    }
  }

  lemma PlanIsSafe(key: nat, d: Disk, data: File, opts: Options)
    requires Inv(key, d) && !HasPending(d) && !Endangers(d, data, opts, Decide(PriorCursor(d), data, opts))
    ensures SafePlan(Decide(PriorCursor(d), data, opts))
  {
    hide Inv, Decide, LateSplitReset;
    if Decide(PriorCursor(d), data, opts).Export? {
      DecideStarts(key, d, data, opts);
      SafeOrderIff(key, d, data, opts);
    }
  }

  lemma RecoveredKeeps(key: nat, d: Disk, opts: Options, replay: Fate)
    requires Inv(key, d)
    ensures Inv(key, Recovered(d, opts, replay))
  {
    hide Inv, Settle;
    if HasPending(d) { SettleKeeps(key, d, replay); }
  }

  /** WHEN A PASS IS SAFE, in either mode: exactly when nothing overtakes a receipt that is left
      pending and, without one, no late reset is split. */
  lemma PassSafeIff(key: nat, d: Disk, data: File, opts: Options, replay: Fate, guarded: bool)
    requires Inv(key, d)
    ensures (forall fates :: Inv(key, PassOver(key, d, data, opts, replay, fates, guarded)))
            <==> !Endangers(Recovered(d, opts, replay), data, opts, Planned(d, data, opts, replay, guarded))
  {
    hide Inv, MainOver, Decide, Recovered, ReachesMain, Endangers;
    var recovered, plan := Recovered(d, opts, replay), Planned(d, data, opts, replay, guarded);
    RecoveredKeeps(key, d, opts, replay);
    if ReachesMain(d, opts, replay, guarded) {
      if Endangers(recovered, data, opts, plan) {
        if forall fates :: Inv(key, PassOver(key, d, data, opts, replay, fates, guarded)) {
          forall fates ensures Inv(key, MainOver(key, recovered, data, opts, fates)) {
            assert Inv(key, PassOver(key, d, data, opts, replay, fates, guarded));
          }
          EndangeredPass(key, recovered, data, opts);
        }
      } else {
        forall fates ensures Inv(key, PassOver(key, d, data, opts, replay, fates, guarded)) {
          MainOverKeeps(key, recovered, data, opts, fates);
        }
      }
    } else {
      KeepingIsSafe(recovered, data, opts);
    }
  }

  lemma KeepingIsSafe(d: Disk, data: File, opts: Options)
    ensures !Endangers(d, data, opts, Keep)
  {
  }

  lemma EndangeredPass(key: nat, d: Disk, data: File, opts: Options)
    requires Inv(key, d) && Endangers(d, data, opts, Decide(PriorCursor(d), data, opts))
    ensures !(forall fates :: Inv(key, MainOver(key, d, data, opts, fates)))
  {
    hide Inv, Decide, ExportOver, Parts, AllOwned, Increment, Main, Resumes, LateSplitReset, Flatten;
    if forall fates :: Inv(key, MainOver(key, d, data, opts, fates)) {
      var prior := PriorCursor(d);
      var o := Decide(prior, data, opts).order;
      OrderShape(prior, data, opts);
      if !HasPending(d) {
        ResetSafeIff(key, d, data, opts);
        forall fates ensures Inv(key, Main(key, d, data, opts, fates)) {
          MainOverIsMain(key, d, data, opts, fates);
          assert Inv(key, MainOver(key, d, data, opts, fates));
        }
      } else if o.rewritten {
        RewrittenWhole(prior, data, opts);
        SeveralOwned(Numbered(o.session, 0), opts.max);
        forall fates ensures Inv(key, ExportOver(key, d, o, 0, o.entry, None, fates)) {
          assert Inv(key, MainOver(key, d, data, opts, fates));
        }
        ResetResumesIff(key, d, o);
      } else {
        SeveralOwned(Increment(o.session, WorkingEntry(prior, data)).value.rest, opts.max);
        assert Inv(key, MainOver(key, d, data, opts, []));
        OvertakenBreaks(key, d, o, o.entry);
      }
    }
  }

  /* ---------------------------------------------------------------- runs */

  /** Everything that happens to one session on a host with devices: a local pass, a delivery,
      a replay of an uncertain ingest, another session's export. */
  datatype Arrival =
    | Passing(file: File, opts: Options, replay: Fate, fates: seq<Fate>, guarded: bool)
    | Delivery(copy: Copy, opts: Options, fates: seq<Fate>)
    | Replay(replay: Fate)
    | Stranger(payload: Payload)

  function Arrive(key: nat, h: Host, a: Arrival): Host {
    match a
    case Passing(file, opts, replay, fates, guarded) =>
      h.(disk := PassOver(key, h.disk, file, opts, replay, fates, guarded))
    case Delivery(copy, opts, fates) => Receive(key, h, copy, opts, fates)
    case Replay(fate) => if HasPending(h.disk) then h.(disk := Settle(h.disk, fate)) else h
    case Stranger(payload) => h.(disk := h.disk.(library := Accept(h.disk.library, payload).0))
  }

  function Arrivals(key: nat, h: Host, arrivals: seq<Arrival>): Host {
    if arrivals == [] then h
    else Arrive(key, Arrivals(key, h, arrivals[..|arrivals| - 1]), arrivals[|arrivals| - 1])
  }

  /** Nothing overtakes a pending receipt, and no reset is late and split. */
  predicate Orderly(key: nat, h: Host, a: Arrival) {
    match a
    case Passing(file, opts, replay, _, guarded) =>
      !Endangers(Recovered(h.disk, opts, replay), file, opts, Planned(h.disk, file, opts, replay, guarded))
    case Delivery(copy, opts, _) => !Overtakes(h.disk, Proposed(h, copy, opts))
    case Stranger(payload) => payload.session != key
    case Replay(_) => true
  }

  predicate OrderlyRun(key: nat, h: Host, arrivals: seq<Arrival>) {
    arrivals != [] ==>
      var front := arrivals[..|arrivals| - 1];
      OrderlyRun(key, h, front) && Orderly(key, Arrivals(key, h, front), arrivals[|arrivals| - 1])
  }

  lemma PassOverKeeps(key: nat, h: Host, file: File, opts: Options, replay: Fate, fates: seq<Fate>, guarded: bool)
    requires Inv(key, h.disk) && Orderly(key, h, Passing(file, opts, replay, fates, guarded))
    ensures Inv(key, PassOver(key, h.disk, file, opts, replay, fates, guarded))
  {
    hide Inv, MainOver, Decide, Recovered, ReachesMain, Endangers;
    RecoveredKeeps(key, h.disk, opts, replay);
    if ReachesMain(h.disk, opts, replay, guarded) {
      MainOverKeeps(key, Recovered(h.disk, opts, replay), file, opts, fates);
    }
  }

  lemma ArriveKeeps(key: nat, h: Host, a: Arrival)
    requires Inv(key, h.disk) && Orderly(key, h, a)
    ensures Inv(key, Arrive(key, h, a).disk)
  {
    hide Inv, Receive, PassOver, Settle, Proposed, Overtakes;
    match a
    case Passing(file, opts, replay, fates, guarded) => PassOverKeeps(key, h, file, opts, replay, fates, guarded);
    case Delivery(copy, opts, fates) => ReceiveKeeps(key, h, copy, opts, fates);
    case Replay(fate) => if HasPending(h.disk) { SettleKeeps(key, h.disk, fate); }
    case Stranger(payload) => StrangerKeeps(key, h.disk, payload);
  }

  /** EXACTLY ONCE, MERGED. Local passes in either mode, copies from any number of devices in any
      order and relation, replays and foreign exports interleave, and every ingest may stop
      anywhere. As long as no increment of several parts overtakes a pending receipt and no late
      reset is split, the library holds each turn of the cursor's lineage once and in order. */
  lemma {:induction false} ExactlyOnceMerged(key: nat, arrivals: seq<Arrival>)
    requires OrderlyRun(key, Host(Disk(None, None, []), {}), arrivals)
    ensures Inv(key, Arrivals(key, Host(Disk(None, None, []), {}), arrivals).disk)
  {
    hide Inv, Orderly, Arrive;
    var start := Host(Disk(None, None, []), {});
    if arrivals == [] {
      NothingYet(key);
    } else {
      var front := arrivals[..|arrivals| - 1];
      ExactlyOnceMerged(key, front);
      ArriveKeeps(key, Arrivals(key, start, front), arrivals[|arrivals| - 1]);
    }
  }
}
