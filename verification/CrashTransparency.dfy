/** What an interruption costs: nothing. A pass stopped at any action, followed by one that is
    not, leaves the library and the cursor of a pass that was never stopped. */
module CrashTransparency {
  import opened Turns
  import opened Readers
  import opened Splitting
  import opened Exporter
  import opened ExactlyOnce

  /** The journal file is dead weight once no receipt points at it. */
  predicate SameRecord(a: Disk, b: Disk) {
    a.entry == b.entry && a.library == b.library
  }

  /* ---------------------------------------------------------------- replay */

  lemma {:induction false} FindAppended(library: seq<Payload>, payload: Payload)
    requires payload !in library
    ensures Find(library + [payload], payload) == |library|
  {
    if library == [] {
      assert [] + [payload] == [payload];
    } else {
      assert (library + [payload])[1..] == library[1..] + [payload];
      FindAppended(library[1..], payload);
    }
  }

  lemma AcceptTwice(library: seq<Payload>, payload: Payload)
    ensures Accept(Accept(library, payload).0, payload) == Accept(library, payload)
  {
    if payload !in library { FindAppended(library, payload); }
  }

  /** REPLAY ADVANCES ONCE. Whether the interrupted call had reached the library or not, the
      replay ends where the uninterrupted ingest ends: one source, one step of the cursor. */
  lemma ReplaysAlike(d: Disk, payload: Payload, step: Cursor, fate: Fate)
    requires fate == Saved || fate == Accepted
    ensures HasPending(Ingest(d, payload, step, fate))
    ensures Settle(Ingest(d, payload, step, fate), Completed) == Ingest(d, payload, step, Completed)
  {
    AcceptTwice(d.library, payload);
  }

  /* ---------------------------------------------------------------- what an order says */

  /** Everything an order was made from that a later pass will look at again. */
  predicate MadeFrom(o: Order, data: File, opts: Options) {
    var cut := Increment(o.session, o.entry);
    && Read(data) == Ok(o.session)
    && Earlier(o.entry) == o.earlier && Baselined(o)
    && |Flatten(o.entry.splitRefs)| == o.entry.splitTurns
    && cut.Ok?
    && o.parts == Parts(cut.value.rest, opts.max)
    && o.full == Triage(cut.value.whole, data, opts.judgment.rules, opts.steward).full
    && o.split == (|o.parts| > 1 || o.entry.splitTurns > 0)
    && !opts.steward && !data.subagent && !data.conflict && opts.judgment.rules.minOwnerTurns >= 3
    && o.cursor.file == Some(data) && o.cursor.seen == Some(o.session)
    && o.cursor.steward == false && o.cursor.judgment == Some(opts.judgment)
    && o.cursor.origins == o.entry.origins[LOCAL := o.session] && o.cursor.device == LOCAL
    && (o.entry.file.Some? ==> Extends(o.entry.file.value, data))
  }

  lemma ConcludeFrom(entry: Cursor, session: seq<Utterance>, data: File, opts: Options,
                     earlier: seq<Utterance>, cut: Cut, beyond: bool, rewritten: bool)
    requires Conclude(entry, session, data, opts, earlier, cut, beyond, rewritten).Export?
    ensures var o := Conclude(entry, session, data, opts, earlier, cut, beyond, rewritten).order;
            && o.full == Triage(cut.whole, data, opts.judgment.rules, opts.steward).full
            && o.split == (|o.parts| > 1 || beyond)
            && !opts.steward && !data.subagent && !data.conflict && opts.judgment.rules.minOwnerTurns >= 3
            && o.cursor.steward == false && o.cursor.judgment == Some(opts.judgment)
            && o.cursor.origins == entry.origins[LOCAL := session] && o.cursor.device == LOCAL
  {
  }

  lemma FreshIncrement(session: seq<Utterance>, sources: seq<nat>)
    ensures var all := Numbered(session, 0);
            Increment(session, Fresh(sources)) == Ok(Cut(all, all))
  {
    SubtractNothing(session);
    assert multiset(Earlier(Fresh(sources))) == multiset{};
  }

  lemma OrderMadeFrom(key: nat, d: Disk, data: File, opts: Options, o: Order)
    requires Inv(key, d) && !HasPending(d)
    requires Decide(PriorCursor(d), data, opts) == Export(o) && Baselined(o)
    ensures MadeFrom(o, data, opts)
  {
    hide Inv, Decide, Judge, Conclude, Increment, Parts, Triage;
    var prior := PriorCursor(d);
    OrderShape(prior, data, opts);
    ExportedFrom(prior, data, opts);
    EntryBaseline(key, d, data);
    var entry := WorkingEntry(prior, data);
    var cut := Increment(o.session, entry);
    if cut.Ok? {
      ConcludeFrom(entry, o.session, data, opts, Earlier(entry), cut.value, entry.splitTurns > 0, !Intact(prior, data));
    } else {
      var all := Numbered(o.session, 0);
      FreshIncrement(o.session, entry.sources);
      FreshBaseline(entry.sources);
      ConcludeFrom(Fresh(entry.sources), o.session, data, opts, Earlier(entry), Cut(all, all), false, true);
    }
  }

  /** Size never changes the judgement: every part an order sends is compiled exactly when the
      whole increment it was cut from is, and only the first part of a reset says rewritten. */
  lemma PartsInheritVerdict(key: nat, prior: Option<Cursor>, data: File, opts: Options,
        o: Order, number: nat, entry: Cursor)
    requires Decide(prior, data, opts) == Export(o) && number < |o.parts| && HasOwner(Said(o.parts[number]))
    ensures var cut := Increment(o.session, WorkingEntry(prior, data));
            var whole := if cut.Ok? then cut.value.whole else Numbered(o.session, 0);
            var payload := PartPayload(key, o, number, entry);
            && (payload.full <==> Triage(whole, data, opts.judgment.rules, opts.steward).full)
            && (payload.rewritten <==> number == 0 && (!Intact(prior, data) || cut.Err?))
  {
    hide Decide, Judge, Conclude, Increment, Parts, Triage, Intact;
    ExportedFrom(prior, data, opts);
    OrderShape(prior, data, opts);
    var working, all := WorkingEntry(prior, data), Numbered(o.session, 0);
    var cut := Increment(o.session, working);
    if cut.Ok? {
      ConcludeShape(working, o.session, data, opts, Earlier(working), cut.value,
                    working.splitTurns > 0, !Intact(prior, data));
      ConcludeFrom(working, o.session, data, opts, Earlier(working), cut.value,
                   working.splitTurns > 0, !Intact(prior, data));
    } else {
      ConcludeShape(Fresh(working.sources), o.session, data, opts, Earlier(working), Cut(all, all), false, true);
      ConcludeFrom(Fresh(working.sources), o.session, data, opts, Earlier(working), Cut(all, all), false, true);
    }
  }

  /* ---------------------------------------------------------------- the cursor between parts */

  /** The cursor recorded after `number` parts, but not after the last. */
  predicate Between(o: Order, number: nat, c: Cursor)
    requires number <= |o.parts|
  {
    var gone := Flatten(o.parts[..number]);
    && c.splitRefs == o.entry.splitRefs + o.parts[..number]
    && c.splitTurns == o.entry.splitTurns + |gone|
    && c.exportedTurns == o.entry.exportedTurns + |gone|
    && (number > 0 ==> c.exported == o.earlier && c.origins == o.cursor.origins)
    && c.file == o.entry.file
  }

  predicate After(o: Order, c: Cursor) {
    && c.splitTurns == 0 && c.file == o.cursor.file && c.seen == o.cursor.seen
    && c.steward == o.cursor.steward && c.judgment == o.cursor.judgment
  }

  predicate Chained(o: Order, number: nat, c: Cursor)
    requires number <= |o.parts|
  {
    if number < |o.parts| || number == 0 then Between(o, number, c) else After(o, c)
  }

  lemma ChainedStep(o: Order, number: nat, c: Cursor, source: nat)
    requires number < |o.parts| && Chained(o, number, c)
    ensures Chained(o, number + 1, Acknowledged(PartStep(o, number, c), source))
  {
    assert o.parts[..number + 1] == o.parts[..number] + [o.parts[number]];
    FlattenSnoc(o.parts[..number], o.parts[number]);
  }

  lemma PartsApart(parts: seq<seq<Turn>>, number: nat)
    requires number <= |parts|
    ensures Flatten(parts) == Flatten(parts[..number]) + Flatten(parts[number..])
  {
    assert parts == parts[..number] + parts[number..];
    FlattenConcat(parts[..number], parts[number..]);
  }

  lemma RestSaid(session: seq<Utterance>, entry: Cursor)
    requires Increment(session, entry).Ok? && |Flatten(entry.splitRefs)| == entry.splitTurns
    ensures var gone := multiset(Earlier(entry)) + multiset(Said(Flatten(entry.splitRefs)));
            Said(Increment(session, entry).value.rest) == Subtract(session, gone) && gone <= multiset(session)
  {
    var acknowledged := Flatten(entry.splitRefs);
    if entry.splitTurns == 0 {
      assert Said(acknowledged) == [];
      assert multiset(Earlier(entry)) + multiset(Said(acknowledged)) == multiset(Earlier(entry));
      SaidNumbered(Subtract(session, multiset(Earlier(entry))), entry.exportedTurns);
    } else {
      assert multiset(Earlier(entry) + Said(acknowledged)) == multiset(Earlier(entry)) + multiset(Said(acknowledged));
      SaidNumbered(Subtract(session, multiset(Earlier(entry) + Said(acknowledged))), entry.exportedTurns);
    }
  }

  /** INTERRUPTED SPLIT. Subtracting the earlier material and the acknowledged parts from the
      session is subtracting the acknowledged parts from the increment: the same turns in the
      same order, and none of the parts still owed is touched. */
  lemma RestAfterParts(session: seq<Utterance>, gone: multiset<Utterance>, front: seq<Utterance>, back: seq<Utterance>)
    requires Subtract(session, gone) == front + back && gone <= multiset(session)
    ensures Subtract(session, gone + multiset(front)) == Subtract(Subtract(session, gone), multiset(front)) == back
    ensures gone + multiset(front) <= multiset(session)
  {
    SubtractTwice(session, gone, multiset(front));
    SubtractPrefix(front, back);
    SubtractBag(session, gone);
    StillWithin(multiset(session), gone, multiset(front), multiset(back));
  }

  lemma StillWithin(all: multiset<Utterance>, gone: multiset<Utterance>, front: multiset<Utterance>,
                    back: multiset<Utterance>)
    requires all - gone == front + back && gone <= all
    ensures gone + front <= all
  {
    forall u: Utterance ensures (gone + front)[u] <= all[u] {
      assert (all - gone)[u] == (front + back)[u];
    }
  }

  lemma ResumedIncrement(o: Order, data: File, opts: Options, number: nat, c: Cursor)
    requires MadeFrom(o, data, opts) && 0 < number < |o.parts| && Between(o, number, c)
    requires c.exportedTurns > 0
    requires var rest := Flatten(o.parts[number..]); rest == Numbered(Said(rest), c.exportedTurns)
    ensures Increment(o.session, c)
            == Ok(Cut(Increment(o.session, o.entry).value.whole, Flatten(o.parts[number..])))
  {
    var rest0 := Increment(o.session, o.entry).value.rest;
    var acknowledged, gone := Flatten(c.splitRefs), Flatten(o.parts[..number]);
    var back := Flatten(o.parts[number..]);
    FlattenConcat(o.entry.splitRefs, o.parts[..number]);
    SaidConcat(Flatten(o.entry.splitRefs), gone);
    PartsConcatenate(rest0, opts.max);
    PartsApart(o.parts, number);
    SaidConcat(gone, back);
    RestSaid(o.session, o.entry);
    var before := multiset(Earlier(o.entry)) + multiset(Said(Flatten(o.entry.splitRefs)));
    RestAfterParts(o.session, before, Said(gone), Said(back));
    assert Earlier(c) == o.earlier;
    assert multiset(Earlier(c) + Said(acknowledged)) == before + multiset(Said(gone));
    assert |acknowledged| == c.splitTurns;
    assert c.exportedTurns - c.splitTurns == o.entry.exportedTurns - o.entry.splitTurns;
    assert Pending(o.session, Earlier(c) + Said(acknowledged), c.exportedTurns) == Ok(back);
    if c.splitTurns == 0 { assert gone == []; PartsNonempty(o, opts, number); }
  }

  lemma PartsNonempty(o: Order, opts: Options, number: nat)
    requires 0 < number < |o.parts|
    requires exists turns :: o.parts == Parts(turns, opts.max)
    ensures Flatten(o.parts[..number]) != []
  {
    var turns :| o.parts == Parts(turns, opts.max);
    ExchangesCut(turns);
    PackedNonempty(Exchanges(turns), opts.max, 0);
    FlattenHead(o.parts[..number], 0);
    assert o.parts[..number][0..] == o.parts[..number];
  }

  lemma {:induction false} PackedNonempty(es: seq<seq<Turn>>, max: nat, i: nat)
    requires i < |Pack(es, max)| && (forall j :: 0 <= j < |es| ==> es[j] != [])
    ensures Pack(es, max)[i] != []
  {
    var front := es[..|es| - 1];
    if i < |Pack(front, max)| { PackedNonempty(front, max, i); }
  }

  /* ---------------------------------------------------------------- resuming */

  /** An order that is the rest of another. */
  predicate IsTail(tail: Order, o: Order, number: nat) {
    && number <= |o.parts| && 0 < number
    && tail.parts == o.parts[number..] && tail.earlier == o.earlier && tail.session == o.session
    && tail.full == o.full && tail.split && o.split && !tail.rewritten
    && tail.cursor.file == o.cursor.file && tail.cursor.seen == o.cursor.seen
    && tail.cursor.steward == o.cursor.steward && tail.cursor.judgment == o.cursor.judgment
    && tail.cursor.origins == o.cursor.origins && tail.cursor.device == o.cursor.device
  }

  lemma TailPart(key: nat, o: Order, tail: Order, number: nat, i: nat, entry: Cursor)
    requires IsTail(tail, o, number) && i < |tail.parts|
    ensures PartPayload(key, tail, i, entry) == PartPayload(key, o, number + i, entry)
    ensures PartStep(tail, i, entry) == PartStep(o, number + i, entry)
    ensures tail.parts[i] == o.parts[number + i]
  {
  }

  lemma ExportUnfolds(key: nat, d: Disk, o: Order, number: nat, entry: Cursor) returns (next: Disk, c: Cursor)
    requires number < |o.parts|
    ensures next == Ingest(d, PartPayload(key, o, number, entry), PartStep(o, number, entry), Completed)
    ensures next.entry == Some(Entry(c, None))
    ensures ExportFrom(key, d, o, number, entry, [])
            == if HasOwner(Said(o.parts[number])) then ExportFrom(key, next, o, number + 1, c, []) else d
  {
    CompletedState(d, PartPayload(key, o, number, entry), PartStep(o, number, entry));
    next := Ingest(d, PartPayload(key, o, number, entry), PartStep(o, number, entry), Completed);
    c := next.entry.value.cursor;
  }

  lemma TailUnfolds(key: nat, d: Disk, o: Order, tail: Order, number: nat, i: nat, entry: Cursor)
    returns (next: Disk, c: Cursor)
    requires IsTail(tail, o, number) && i < |tail.parts|
    ensures ExportFrom(key, d, tail, i, entry, [])
            == if HasOwner(Said(tail.parts[i])) then ExportFrom(key, next, tail, i + 1, c, []) else d
    ensures ExportFrom(key, d, o, number + i, entry, [])
            == if HasOwner(Said(tail.parts[i])) then ExportFrom(key, next, o, number + i + 1, c, []) else d
  {
    TailPart(key, o, tail, number, i, entry);
    next, c := ExportUnfolds(key, d, tail, i, entry);
    var _, _ := ExportUnfolds(key, d, o, number + i, entry);
  }

  lemma {:induction false} TailExports(key: nat, d: Disk, o: Order, tail: Order, number: nat, i: nat, entry: Cursor)
    requires IsTail(tail, o, number) && i <= |tail.parts|
    ensures ExportFrom(key, d, tail, i, entry, []) == ExportFrom(key, d, o, number + i, entry, [])
    decreases |tail.parts| - i
  {
    hide Ingest, PartPayload, PartStep;
    if i < |tail.parts| {
      var next, c := TailUnfolds(key, d, o, tail, number, i, entry);
      TailExports(key, next, o, tail, number, i + 1, c);
    }
  }

  lemma ConcludeAgain(c: Cursor, o: Order, data: File, opts: Options, cut: Cut)
    requires MadeFrom(o, data, opts) && !TooOld(o.session, c, opts.judgment.since) && cut.rest != []
    requires cut.whole == Increment(o.session, o.entry).value.whole
    ensures var plan := Conclude(c, o.session, data, opts, o.earlier, cut, true, false);
            plan.Export? && plan.order.parts == Parts(cut.rest, opts.max) && plan.order.entry == c
            && plan.order.earlier == o.earlier && plan.order.session == o.session
            && plan.order.full == o.full && plan.order.split && !plan.order.rewritten
            && plan.order.cursor.file == o.cursor.file && plan.order.cursor.seen == o.cursor.seen
            && plan.order.cursor.steward == o.cursor.steward && plan.order.cursor.judgment == o.cursor.judgment
            && plan.order.cursor.origins == c.origins[LOCAL := o.session] && plan.order.cursor.device == LOCAL
  {
  }

  /** A pass that finds a split between two parts makes exactly the parts that were left. */
  lemma ResumedPlan(o: Order, data: File, opts: Options, number: nat, c: Cursor)
    requires MadeFrom(o, data, opts) && 0 < number < |o.parts| && Between(o, number, c)
    requires c.exportedTurns > 0 && c.splitTurns > 0
    requires var rest := Flatten(o.parts[number..]); rest != [] && rest == Numbered(Said(rest), c.exportedTurns)
    ensures var plan := Decide(Some(c), data, opts);
            plan.Export? && plan.order.entry == c && IsTail(plan.order, o, number)
  {
    ResumedIncrement(o, data, opts, number, c);
    ResplitSuffix(Increment(o.session, o.entry).value.rest, opts.max, number);
    var cut := Increment(o.session, c).value;
    ConcludeAgain(c, o, data, opts, cut);
    assert c.origins[LOCAL := o.session] == c.origins;
    assert Decide(Some(c), data, opts)
           == Conclude(c, o.session, data, opts, Earlier(c), cut, true, false);
  }

  lemma FinishedPlan(o: Order, data: File, opts: Options, c: Cursor)
    requires MadeFrom(o, data, opts) && After(o, c)
    ensures Decide(Some(c), data, opts) == Keep
  {
    ExtendsItself(data);
  }

  lemma PartNonempty(o: Order, data: File, opts: Options, number: nat)
    requires MadeFrom(o, data, opts) && number < |o.parts| && |o.parts| > 1
    ensures o.parts[number] != []
  {
    var rest := Increment(o.session, o.entry).value.rest;
    ExchangesCut(rest);
    PackedNonempty(Exchanges(rest), opts.max, number);
  }

  lemma BetweenFacts(o: Order, data: File, opts: Options, number: nat, c: Cursor)
    requires MadeFrom(o, data, opts) && 0 < number < |o.parts| && Between(o, number, c)
    ensures c.exportedTurns > 0 && c.splitTurns > 0 && Flatten(o.parts[number..]) != []
  {
    PartNonempty(o, data, opts, number);
    FlattenHead(o.parts, number);
    PartsNonempty(o, opts, number);
  }

  lemma MainOf(key: nat, d: Disk, data: File, opts: Options, c: Cursor)
    requires d.entry == Some(Entry(c, None))
    ensures Decide(Some(c), data, opts) == Keep ==> Main(key, d, data, opts, []) == d
    ensures Decide(Some(c), data, opts).Export?
            ==> var o := Decide(Some(c), data, opts).order;
                Main(key, d, data, opts, []) == ExportFrom(key, d, o, 0, o.entry, [])
  {
  }

  /** Starting a pass over from any recorded point is continuing from it. */
  lemma NothingLeft(key: nat, d: Disk, o: Order, entry: Cursor)
    ensures ExportFrom(key, d, o, |o.parts|, entry, []) == d
  {
  }

  lemma Restarts(key: nat, d: Disk, data: File, opts: Options, o: Order, number: nat, entry: Cursor)
    requires Running(key, d, o, number, entry) && MadeFrom(o, data, opts) && Chained(o, number, entry) && 0 < number
    ensures Main(key, d, data, opts, []) == ExportFrom(key, d, o, number, entry, [])
    ensures entry.splitTurns > 0 <==> number < |o.parts|
  {
    hide Inv, Decide, Main, Sync, Ingest, Done, ExportFrom, MadeFrom;
    MainOf(key, d, data, opts, entry);
    if number == |o.parts| {
      FinishedPlan(o, data, opts, entry);
      NothingLeft(key, d, o, entry);
    } else {
      BetweenFacts(o, data, opts, number, entry);
      ResumedPlan(o, data, opts, number, entry);
      TailExports(key, d, o, Decide(Some(entry), data, opts).order, number, 0, entry);
    }
  }

  lemma MainIgnoresJournal(key: nat, a: Disk, b: Disk, data: File, opts: Options)
    requires SameRecord(a, b)
    ensures SameRecord(Main(key, a, data, opts, []), Main(key, b, data, opts, []))
  {
    hide Decide, PartPayload, PartStep, Accept;
    match Decide(PriorCursor(a), data, opts)
    case Keep =>
    case Observe(_) =>
    case Export(o) =>
      if o.parts != [] && HasOwner(Said(o.parts[0])) {
        var payload, step := PartPayload(key, o, 0, o.entry), PartStep(o, 0, o.entry);
        CompletedState(a, payload, step);
        CompletedState(b, payload, step);
      }
  }

  /* ---------------------------------------------------------------- the theorem */

  /** What one more pass makes of an ingest that stopped at `fate`. */
  lemma SyncStopped(key: nat, d: Disk, payload: Payload, step: Cursor, fate: Fate, data: File, opts: Options)
    requires !HasPending(d) && opts.max >= MIN_PART_CHARS
    ensures var next := Ingest(d, payload, step, Completed);
            var after := Sync(key, Ingest(d, payload, step, fate), data, opts, Completed, []);
            match fate
            case NotStarted => after == Main(key, d, data, opts, [])
            case Journalled => SameRecord(after, Main(key, d, data, opts, []))
            case Recorded => SameRecord(after, Main(key, next, data, opts, []))
            case Completed => after == Main(key, next, data, opts, [])
            case _ => after == if StillOwed(next) then Main(key, next, data, opts, []) else next
  {
    var stopped, next := Ingest(d, payload, step, fate), Ingest(d, payload, step, Completed);
    CompletedState(d, payload, step);
    match fate
    case NotStarted =>
    case Journalled => MainIgnoresJournal(key, stopped, d, data, opts);
    case Recorded => MainIgnoresJournal(key, stopped, next, data, opts);
    case Completed =>
    case _ => ReplaysAlike(d, payload, step, fate);
  }

  /** One completed part further on, the same can be said again. */
  lemma NextRestarts(key: nat, d: Disk, data: File, opts: Options, o: Order, number: nat, entry: Cursor)
    requires Running(key, d, o, number, entry) && MadeFrom(o, data, opts) && Chained(o, number, entry)
    requires number < |o.parts| && HasOwner(Said(o.parts[number]))
    ensures var next := Ingest(d, PartPayload(key, o, number, entry), PartStep(o, number, entry), Completed);
            && next.entry.Some? && next.entry.value.pending.None?
            && (var c := next.entry.value.cursor;
                && Running(key, next, o, number + 1, c) && Chained(o, number + 1, c)
                && Main(key, next, data, opts, []) == ExportFrom(key, next, o, number + 1, c, [])
                && (StillOwed(next) <==> number + 1 < |o.parts|))
  {
    hide Inv, Working, MadeFrom, Chained, Main, Sync, PartPayload, PartStep, Ingest;
    var payload, step := PartPayload(key, o, number, entry), PartStep(o, number, entry);
    assert o.parts[number] != [] by { assert Said(o.parts[number]) != []; }
    PartRuns(key, d, o, number, entry);
    CompletedState(d, payload, step);
    ChainedStep(o, number, entry, Accept(d.library, payload).1);
    var next := Ingest(d, payload, step, Completed);
    Restarts(key, next, data, opts, o, number + 1, next.entry.value.cursor);
  }

  lemma SyncIdle(key: nat, d: Disk, data: File, opts: Options, replay: Fate, fates: seq<Fate>)
    requires !HasPending(d) && opts.max >= MIN_PART_CHARS
    ensures Sync(key, d, data, opts, replay, fates) == Main(key, d, data, opts, fates)
  {
  }

  lemma {:induction false} StoppedExport(key: nat, d: Disk, data: File, opts: Options, o: Order,
                                         number: nat, entry: Cursor, fates: seq<Fate>)
    requires Running(key, d, o, number, entry) && MadeFrom(o, data, opts) && Chained(o, number, entry)
    requires opts.max >= MIN_PART_CHARS
    requires Main(key, d, data, opts, []) == ExportFrom(key, d, o, number, entry, [])
    ensures SameRecord(Sync(key, ExportFrom(key, d, o, number, entry, fates), data, opts, Completed, []),
                       ExportFrom(key, d, o, number, entry, []))
    decreases |o.parts| - number
  {
    hide Inv, Working, MadeFrom, Chained, PartPayload, PartStep, Ingest, Main, Sync;
    SyncIdle(key, d, data, opts, Completed, []);
    if number < |o.parts| && HasOwner(Said(o.parts[number])) {
      var payload, step := PartPayload(key, o, number, entry), PartStep(o, number, entry);
      NextRestarts(key, d, data, opts, o, number, entry);
      var next := Ingest(d, payload, step, Completed);
      var c := next.entry.value.cursor;
      assert ExportFrom(key, d, o, number, entry, []) == ExportFrom(key, next, o, number + 1, c, []);
      if FateAt(fates, number) == Completed {
        StoppedExport(key, next, data, opts, o, number + 1, c, fates);
        assert ExportFrom(key, d, o, number, entry, fates) == ExportFrom(key, next, o, number + 1, c, fates);
      } else {
        SyncStopped(key, d, payload, step, FateAt(fates, number), data, opts);
        assert number + 1 == |o.parts| ==> ExportFrom(key, next, o, number + 1, c, []) == next;
      }
    }
  }

  lemma ConcludeObserved(entry: Cursor, session: seq<Utterance>, data: File, opts: Options, cut: Cut, c: Cursor)
    requires Conclude(entry, session, data, opts, Earlier(entry), cut, entry.splitTurns > 0, false) == Observe(c)
    ensures Conclude(c, session, data, opts, Earlier(c), cut, c.splitTurns > 0, false) == Observe(c)
  {
  }

  /** An observation that changes no export is the same observation again. */
  lemma ObservedAgain(prior: Option<Cursor>, data: File, opts: Options, c: Cursor)
    requires Decide(prior, data, opts) == Observe(c)
    ensures Decide(Some(c), data, opts) == Keep || Decide(Some(c), data, opts) == Observe(c)
  {
    ObservedFrom(prior, data, opts);
    ObservedShape(prior, data, opts);
    DecideConcludes(prior, data, opts);
    var entry, session := WorkingEntry(prior, data), Read(data).value;
    ExtendsItself(data);
    SameIncrement(session, entry, c);
    ConcludeObserved(entry, session, data, opts, Increment(session, entry).value, c);
    if !Unchanged(c, data, opts) { DecideConcludes(Some(c), data, opts); }
  }

  /** CRASH TRANSPARENCY. Take any accounted state, any transcript and any interruption of a
      pass over it, at any action of any part. One further pass ends with the cursor, the
      receipt and the library, byte for byte, of the pass that was not interrupted. */
  lemma CrashTransparent(key: nat, d: Disk, data: File, opts: Options, fates: seq<Fate>)
    requires Inv(key, d) && !HasPending(d)
    requires Decide(PriorCursor(d), data, opts).Export? ==> Baselined(Decide(PriorCursor(d), data, opts).order)
    ensures var once := Sync(key, d, data, opts, Completed, []);
            var stopped := Sync(key, d, data, opts, Completed, fates);
            SameRecord(Sync(key, stopped, data, opts, Completed, []), once)
  {
    hide Inv, Working, Decide, ExportFrom;
    if opts.max >= MIN_PART_CHARS {
      match Decide(PriorCursor(d), data, opts)
      case Keep =>
      case Observe(c) => ObservedAgain(PriorCursor(d), data, opts, c);
      case Export(o) =>
        DecideStarts(key, d, data, opts);
        OrderMadeFrom(key, d, data, opts, o);
        assert o.parts[..0] == [] && o.entry.splitRefs + [] == o.entry.splitRefs;
        PartsConcatenate(Increment(o.session, o.entry).value.rest, opts.max);
        StoppedExport(key, d, data, opts, o, 0, o.entry, fates);
    }
  }

  /* ---------------------------------------------------------------- the late reset */

  /** A late reset that stops after its first part. */
  lemma LateFirst(key: nat, d: Disk, data: File, opts: Options, o: Order)
    requires Inv(key, d) && !HasPending(d) && Decide(PriorCursor(d), data, opts) == Export(o) && !SafeOrder(o)
    ensures o.entry == Fresh(Sources(d)) && o.rewritten && o.earlier != [] && |o.parts| > 1
    ensures Read(data) == Ok(o.session) && Increment(o.session, WorkingEntry(PriorCursor(d), data)).Err?
    ensures o.parts == Parts(Numbered(o.session, 0), opts.max)
    ensures HasOwner(Said(o.parts[0])) && o.parts[0] != []
    ensures Main(key, d, data, opts, [Completed, NotStarted])
            == Ingest(d, PartPayload(key, o, 0, o.entry), PartStep(o, 0, o.entry), Completed)
  {
    hide Decide, Inv, Increment, Parts, Ingest, PartPayload, PartStep;
    DecideStarts(key, d, data, opts);
    OrderShape(PriorCursor(d), data, opts);
    LateEntry(key, d, data, opts, o);
    var all := Numbered(o.session, 0);
    LateOwner(PriorCursor(d), data, opts, o);
    PartsConcatenate(all, opts.max);
    UnsafeIsSplit(o);
    PartsBoundedWithOwner(all, opts.max, 0);
    assert o.parts[0] != [] by { assert Said(o.parts[0]) != []; }
    StopsAfterFirst(key, d, o);
  }

  lemma LateEntry(key: nat, d: Disk, data: File, opts: Options, o: Order)
    requires Inv(key, d) && !HasPending(d) && Decide(PriorCursor(d), data, opts) == Export(o) && !Baselined(o)
    ensures Increment(o.session, WorkingEntry(PriorCursor(d), data)).Err?
  {
    hide Decide, Inv, Increment, Parts, Done;
    OrderShape(PriorCursor(d), data, opts);
    EntryBaseline(key, d, data);
  }

  /** An order that is not safe has more than one part. */
  lemma UnsafeIsSplit(o: Order)
    requires !SafeOrder(o) && Flatten(o.parts) == Numbered(o.session, 0) && HasOwner(Said(Numbered(o.session, 0)))
    ensures |o.parts| > 1
  {
    assert Said([]) == [];
  }

  lemma StopsAfterFirst(key: nat, d: Disk, o: Order)
    requires |o.parts| > 1 && HasOwner(Said(o.parts[0]))
    ensures ExportFrom(key, d, o, 0, o.entry, [Completed, NotStarted])
            == Ingest(d, PartPayload(key, o, 0, o.entry), PartStep(o, 0, o.entry), Completed)
  {
    hide PartPayload, PartStep, Accept;
    var payload, step := PartPayload(key, o, 0, o.entry), PartStep(o, 0, o.entry);
    CompletedState(d, payload, step);
    var next := Ingest(d, payload, step, Completed);
    assert ExportFrom(key, d, o, 0, o.entry, [Completed, NotStarted])
           == ExportFrom(key, next, o, 1, next.entry.value.cursor, [Completed, NotStarted]);
  }

  /** Reset by the subtraction, cut into several parts, with old material as its baseline: the
      first recorded part leaves a cursor whose counts no longer add up. */
  lemma LateResetMiscounts(key: nat, d: Disk, data: File, opts: Options, o: Order)
    requires Inv(key, d) && !HasPending(d) && Decide(PriorCursor(d), data, opts) == Export(o) && !SafeOrder(o)
    ensures !Inv(key, Main(key, d, data, opts, [Completed, NotStarted]))
  {
    hide Decide, Main;
    LateFirst(key, d, data, opts, o);
    var payload, step := PartPayload(key, o, 0, o.entry), PartStep(o, 0, o.entry);
    CompletedState(d, payload, step);
    var c := Ingest(d, payload, step, Completed).entry.value.cursor;
    assert |c.exported| + c.splitTurns != c.exportedTurns;
  }

  lemma LateOwner(prior: Option<Cursor>, data: File, opts: Options, o: Order)
    requires Decide(prior, data, opts) == Export(o) && Increment(o.session, WorkingEntry(prior, data)).Err?
    requires Read(data) == Ok(o.session)
    ensures HasOwner(Said(Numbered(o.session, 0)))
  {
    hide Decide, Conclude, Increment;
    ExportedFrom(prior, data, opts);
    var all, entry := Numbered(o.session, 0), WorkingEntry(prior, data);
    Thresholds(Fresh(entry.sources), o.session, data, opts, Earlier(entry), Cut(all, all), false, true);
    OwnersCounted(all);
    OwnersPositive(all);
  }

  /** WHEN A RESET IS SAFE. A pass keeps the account under every interruption exactly when its
      order was not a late reset cut into parts over old material. */
  lemma SafeIff(key: nat, d: Disk, data: File, opts: Options)
    requires Inv(key, d) && !HasPending(d) && Decide(PriorCursor(d), data, opts).Export?
    ensures (forall fates :: Inv(key, Main(key, d, data, opts, fates)))
            <==> SafeOrder(Decide(PriorCursor(d), data, opts).order)
  {
    var o := Decide(PriorCursor(d), data, opts).order;
    if SafeOrder(o) {
      forall fates ensures Inv(key, Main(key, d, data, opts, fates)) { MainKeeps(key, d, data, opts, fates); }
    } else {
      LateResetMiscounts(key, d, data, opts, o);
    }
  }
}
