/** Whole runs of the exporter: a transcript that grows, passes that stop anywhere, and other
    sessions writing to the same library. */
module ExportRuns {
  import opened Turns
  import opened Readers
  import opened Splitting
  import opened Exporter
  import opened ExactlyOnce

  datatype World = World(disk: Disk, file: File)

  datatype Event =
    | Appended(file: File)
    | Passed(opts: Options, replay: Fate, fates: seq<Fate>)
    | Elsewhere(payload: Payload)

  function Next(key: nat, w: World, e: Event): World {
    match e
    case Appended(file) => w.(file := file)
    case Passed(opts, replay, fates) => w.(disk := Sync(key, w.disk, w.file, opts, replay, fates))
    case Elsewhere(payload) => w.(disk := w.disk.(library := Accept(w.disk.library, payload).0))
  }

  function Run(key: nat, w: World, events: seq<Event>): World {
    if events == [] then w else Next(key, Run(key, w, events[..|events| - 1]), events[|events| - 1])
  }

  /** The later file still holds every turn the earlier one did. */
  predicate Grows(before: File, after: File) {
    Read(after).Ok? ==> Read(before).Ok? && multiset(Read(before).value) <= multiset(Read(after).value)
  }

  /** Appending to a Claude Code transcript always qualifies ... */
  lemma ClaudeAppendGrows(before: File, after: File)
    requires before.rows.ClaudeFile? && Extends(before, after)
    ensures Grows(before, after)
  {
    if Read(after).Ok? {
      var rows := after.rows.claude;
      assert rows[..|before.rows.claude|] == before.rows.claude;
      ClaudeGrowthIsNoRewrite(rows, |before.rows.claude|, 0);
    }
  }

  /** ... and to a Codex one exactly when response items repeat the events they displace. */
  lemma CodexAppendGrowsIff(before: File, after: File)
    requires before.rows.CodexFile? && Extends(before, after) && Read(after).Ok?
    ensures ScanCodex(after.rows.codex[..|before.rows.codex|]).Ok? && ScanCodex(after.rows.codex).Ok?
    ensures Grows(before, after)
            <==> Displaced(after.rows.codex, |before.rows.codex|) <= multiset(ScanCodex(after.rows.codex).value.turns)
  {
    var rows := after.rows.codex;
    assert rows[..|before.rows.codex|] == before.rows.codex;
    CodexGrowthIsNoRewriteIff(rows, |before.rows.codex|, 0);
  }

  predicate Legit(key: nat, w: World, e: Event) {
    match e
    case Appended(file) => Extends(w.file, file) && Grows(w.file, file)
    case Passed(opts, _, _) => opts.policy == Report
    case Elsewhere(payload) => payload.session != key
  }

  predicate LegitRun(key: nat, w: World, events: seq<Event>) {
    events == [] ||
    (LegitRun(key, w, events[..|events| - 1])
     && Legit(key, Run(key, w, events[..|events| - 1]), events[|events| - 1]))
  }

  /* ---------------------------------------------------------------- what fits the transcript */

  /** The turns on the library's side of the account: the lineage and, if an ingest is
      uncertain, the payload it is about. */
  function Carried(d: Disk): seq<Turn>
    requires InLibrary(d.library, Sources(d))
  {
    if HasPending(d) then Continued(Lineage(d.library, Sources(d)), d.entry.value.pending.value.payload)
    else Lineage(d.library, Sources(d))
  }

  /** The cursor in force once an uncertain ingest is settled. */
  function Current(d: Disk): Option<Cursor> {
    if d.entry.None? then None
    else if HasPending(d) then Some(d.entry.value.pending.value.cursor) else Some(d.entry.value.cursor)
  }

  predicate OwnerOwed(c: Cursor, carried: seq<Turn>) {
    c.splitTurns > 0 ==>
      c.seen.Some? && exists u: Utterance :: u.role == Owner && u in multiset(c.seen.value) - multiset(Said(carried))
  }

  predicate CursorFits(c: Cursor, carried: seq<Turn>, file: File) {
    && (c.file.Some? ==> Extends(c.file.value, file))
    && (c.seen.Some? && Read(file).Ok? ==> multiset(c.seen.value) <= multiset(Read(file).value))
    && OwnerOwed(c, carried)
  }

  predicate Fits(d: Disk, file: File)
    requires InLibrary(d.library, Sources(d))
  {
    && (Read(file).Ok? ==> multiset(Said(Carried(d))) <= multiset(Read(file).value))
    && (Current(d).Some? ==> CursorFits(Current(d).value, Carried(d), file))
  }

  predicate Good(key: nat, w: World) {
    Inv(key, w.disk) && Fits(w.disk, w.file)
  }

  lemma ExtendsTransitive(a: File, b: File, c: File)
    requires Extends(a, b) && Extends(b, c)
    ensures Extends(a, c)
  {
  }

  lemma AppendKeeps(key: nat, w: World, file: File)
    requires Good(key, w) && Extends(w.file, file) && Grows(w.file, file)
    ensures Good(key, w.(file := file))
  {
    var c := Current(w.disk);
    if c.Some? && c.value.file.Some? { ExtendsTransitive(c.value.file.value, w.file, file); }
  }

  lemma ElsewhereKeeps(key: nat, w: World, payload: Payload)
    requires Good(key, w) && payload.session != key
    ensures Good(key, w.(disk := w.disk.(library := Accept(w.disk.library, payload).0)))
  {
    var d := w.disk;
    StrangerKeeps(key, d, payload);
    LineageFrame(d.library, Accept(d.library, payload).0, Sources(d));
  }

  lemma SettleFits(key: nat, d: Disk, fate: Fate, file: File)
    requires Inv(key, d) && HasPending(d) && Fits(d, file)
    ensures Inv(key, Settle(d, fate)) && Fits(Settle(d, fate), file)
    ensures Carried(Settle(d, fate)) == Carried(d)
  {
    SettleKeeps(key, d, fate);
    var r, sources := d.entry.value.pending.value, Sources(d);
    var (library, source) := Accept(d.library, r.payload);
    LineageFrame(d.library, library, sources);
    LineageGrows(library, sources, source);
  }

  /* ---------------------------------------------------------------- exporting fits */

  predicate AllOwned(parts: seq<seq<Turn>>) {
    forall i :: 0 <= i < |parts| ==> HasOwner(Said(parts[i]))
  }

  lemma OwnerInBag(us: seq<Utterance>)
    ensures HasOwner(us) <==> exists u: Utterance :: u.role == Owner && u in multiset(us)
  {
    if HasOwner(us) {
      var i :| 0 <= i < |us| && us[i].role == Owner;
      assert us[i] in multiset(us);
    }
    if u: Utterance :| u.role == Owner && u in multiset(us) {
      var i :| 0 <= i < |us| && us[i] == u;
    }
  }

  /** Between two parts an owner turn is still owed: the next part's. */
  lemma NextPartOwed(o: Order, number: nat, entry: Cursor, done: seq<Turn>, source: nat)
    requires number < |o.parts| && Working(o, number, entry, done) && AllOwned(o.parts) && o.parts[number] != []
    ensures OwnerOwed(Acknowledged(PartStep(o, number, entry), source), done + o.parts[number])
    ensures OwnerOwed(PartStep(o, number, entry), done + o.parts[number])
    ensures multiset(Said(done + o.parts[number])) <= multiset(o.session)
  {
    var part, rest := o.parts[number], Flatten(o.parts[number + 1..]);
    MovePart(o, number, entry, done);
    if number + 1 < |o.parts| {
      FlattenHead(o.parts, number + 1);
      SaidConcat(o.parts[number + 1], Flatten(o.parts[number + 2..]));
      OwnerInBag(Said(o.parts[number + 1]));
      var u: Utterance :| u.role == Owner && u in multiset(Said(o.parts[number + 1]));
      assert u in multiset(Said(rest));
      assert multiset(o.session) - multiset(Said(done + part)) == multiset(Said(rest));
    }
  }

  lemma StepFits(o: Order, number: nat, entry: Cursor, done: seq<Turn>, file: File)
    requires number < |o.parts| && Working(o, number, entry, done) && AllOwned(o.parts) && o.parts[number] != []
    requires Read(file) == Ok(o.session) && o.cursor.seen == Some(o.session)
    requires entry.file.Some? ==> Extends(entry.file.value, file)
    requires o.cursor.file.Some? ==> Extends(o.cursor.file.value, file)
    ensures CursorFits(PartStep(o, number, entry), done + o.parts[number], file)
    ensures multiset(Said(done + o.parts[number])) <= multiset(o.session)
  {
    NextPartOwed(o, number, entry, done, 0);
  }

  lemma JournalFits(d: Disk, payload: Payload, step: Cursor, carried: seq<Turn>, file: File)
    requires InLibrary(d.library, Sources(d)) && carried == Continued(Lineage(d.library, Sources(d)), payload)
    requires Read(file).Ok? && multiset(Said(carried)) <= multiset(Read(file).value) && CursorFits(step, carried, file)
    ensures InLibrary(d.library, Sources(Journal(d, payload, step))) && Fits(Journal(d, payload, step), file)
  {
    assert Sources(Journal(d, payload, step)) == Sources(d);
  }

  lemma PartFits(key: nat, d: Disk, o: Order, number: nat, entry: Cursor, fate: Fate, file: File)
    requires Running(key, d, o, number, entry) && number < |o.parts| && o.parts[number] != []
    requires AllOwned(o.parts) && Read(file) == Ok(o.session) && Fits(d, file)
    requires entry.file.Some? ==> Extends(entry.file.value, file)
    requires o.cursor.file.Some? ==> Extends(o.cursor.file.value, file)
    requires o.cursor.seen == Some(o.session)
    ensures var next := Ingest(d, PartPayload(key, o, number, entry), PartStep(o, number, entry), fate);
            Inv(key, next) && Fits(next, file)
  {
    var payload, step := PartPayload(key, o, number, entry), PartStep(o, number, entry);
    PartIsDue(key, d, o, number, entry);
    ContinuedIsDone(key, d.library, o, number, entry);
    StepFits(o, number, entry, Done(d.library, entry), file);
    DueFits(key, d, payload, step, fate, file);
  }

  lemma DueFits(key: nat, d: Disk, payload: Payload, step: Cursor, fate: Fate, file: File)
    requires Inv(key, d) && !HasPending(d) && Fits(d, file) && Read(file).Ok?
    requires Due(key, d.library, Sources(d), payload, step)
    requires var carried := Continued(Lineage(d.library, Sources(d)), payload);
             multiset(Said(carried)) <= multiset(Read(file).value) && CursorFits(step, carried, file)
    ensures Inv(key, Ingest(d, payload, step, fate)) && Fits(Ingest(d, payload, step, fate), file)
  {
    hide Inv, Fits, Due, Journal, Settle, Ingest, Lineage, Continued, CursorFits;
    IngestCases(d, payload, step, fate);
    SourcesKnown(key, d);
    if Reaches(fate) >= 2 {
      JournalKeeps(key, d, payload, step);
      JournalFits(d, payload, step, Continued(Lineage(d.library, Sources(d)), payload), file);
      SettleFits(key, Journal(d, payload, step), fate, file);
    } else {
      RejournalKeeps(key, d, Some(payload));
      RejournalFits(d, Some(payload), file);
    }
  }

  lemma RejournalFits(d: Disk, journal: Option<Payload>, file: File)
    requires InLibrary(d.library, Sources(d)) && Fits(d, file)
    ensures var after := d.(journal := journal); Sources(after) == Sources(d) && Fits(after, file)
  {
  }

  lemma {:induction false} ExportFits(key: nat, d: Disk, o: Order, number: nat, entry: Cursor,
                                      fates: seq<Fate>, file: File)
    requires Running(key, d, o, number, entry) && AllOwned(o.parts)
    requires Read(file) == Ok(o.session) && Fits(d, file)
    requires entry.file.Some? ==> Extends(entry.file.value, file)
    requires o.cursor.file.Some? ==> Extends(o.cursor.file.value, file)
    requires o.cursor.seen == Some(o.session)
    ensures Inv(key, ExportFrom(key, d, o, number, entry, fates))
    ensures Fits(ExportFrom(key, d, o, number, entry, fates), file)
    decreases |o.parts| - number
  {
    hide Inv, Working, Fits, Ingest, PartPayload;
    if number < |o.parts| {
      assert o.parts[number] != [] by { assert HasOwner(Said(o.parts[number])); }
      var payload, step := PartPayload(key, o, number, entry), PartStep(o, number, entry);
      PartFits(key, d, o, number, entry, FateAt(fates, number), file);
      if FateAt(fates, number) == Completed {
        PartRuns(key, d, o, number, entry);
        CompletedState(d, payload, step);
        var next := Ingest(d, payload, step, Completed);
        ExportFits(key, next, o, number + 1, next.entry.value.cursor, fates, file);
      }
    }
  }

  predicate Exported(key: nat, d: Disk, session: seq<Utterance>) {
    && Inv(key, d) && d.entry.Some? && !HasPending(d) && d.entry.value.cursor.splitTurns == 0
    && multiset(Said(Lineage(d.library, Sources(d)))) == multiset(session)
  }

  lemma LastExport(key: nat, d: Disk, o: Order, number: nat, entry: Cursor)
    requires Running(key, d, o, number, entry) && number == |o.parts| - 1 && o.parts[number] != []
    ensures Exported(key, Ingest(d, PartPayload(key, o, number, entry), PartStep(o, number, entry), Completed),
                     o.session)
  {
    var payload, step := PartPayload(key, o, number, entry), PartStep(o, number, entry);
    PartRuns(key, d, o, number, entry);
    CompletedState(d, payload, step);
    LastIsAll(o, number, entry, Done(d.library, entry));
    var next := Ingest(d, payload, step, Completed);
    assert Done(next.library, next.entry.value.cursor) == Lineage(next.library, Sources(next));
  }

  /** With no interruption the loop ends with everything in the lineage and nothing owed. */
  lemma {:induction false} ExportCompletes(key: nat, d: Disk, o: Order, number: nat, entry: Cursor)
    requires Running(key, d, o, number, entry) && AllOwned(o.parts) && number < |o.parts|
    ensures Exported(key, ExportFrom(key, d, o, number, entry, []), o.session)
    decreases |o.parts| - number
  {
    assert o.parts[number] != [] by { assert HasOwner(Said(o.parts[number])); }
    var payload, step := PartPayload(key, o, number, entry), PartStep(o, number, entry);
    var next := Ingest(d, payload, step, Completed);
    PartRuns(key, d, o, number, entry);
    var c := next.entry.value.cursor;
    assert ExportFrom(key, d, o, number, entry, []) == ExportFrom(key, next, o, number + 1, c, []);
    if number + 1 < |o.parts| {
      ExportCompletes(key, next, o, number + 1, c);
    } else {
      LastExport(key, d, o, number, entry);
      assert ExportFrom(key, next, o, number + 1, c, []) == next;
    }
  }

  lemma LastIsAll(o: Order, number: nat, entry: Cursor, done: seq<Turn>)
    requires number == |o.parts| - 1 && Working(o, number, entry, done) && o.parts[number] != []
    ensures multiset(Said(done + o.parts[number])) == multiset(o.session)
    ensures PartStep(o, number, entry).exportedTurns > 0 && PartStep(o, number, entry).splitTurns == 0
  {
    MovePart(o, number, entry, done);
    assert o.parts[number + 1..] == [] && Said([]) == [];
  }

  /* ---------------------------------------------------------------- a pass fits */

  /** In report mode the subtraction cannot fail on a transcript that only grew. */
  lemma IncrementSucceeds(key: nat, d: Disk, file: File)
    requires Inv(key, d) && !HasPending(d) && Fits(d, file) && Read(file).Ok?
    ensures Intact(PriorCursor(d), file)
    ensures Increment(Read(file).value, WorkingEntry(PriorCursor(d), file)).Ok?
  {
    EntryBaseline(key, d, file);
    var entry := WorkingEntry(PriorCursor(d), file);
    var acknowledged := Flatten(entry.splitRefs);
    if d.entry.None? {
      assert Earlier(entry) == [] && Said([]) == [];
    } else {
      assert Carried(d) == Lineage(d.library, Sources(d));
      assert multiset(Earlier(entry)) + multiset(Said(acknowledged)) == multiset(Said(Done(d.library, entry)));
      if entry.exportedTurns == 0 { assert Said(Done(d.library, entry)) == []; }
      assert multiset(Earlier(entry) + Said(acknowledged)) <= multiset(Read(file).value);
    }
  }

  lemma SplitOwesOwner(entry: Cursor, session: seq<Utterance>, done: seq<Turn>)
    requires Baseline(entry, done) && Increment(session, entry).Ok? && entry.splitTurns > 0
    requires OwnerOwed(entry, done) && multiset(entry.seen.value) <= multiset(session)
    ensures HasOwner(Said(Increment(session, entry).value.rest))
  {
    IncrementBag(session, entry, done);
    var rest := Said(Increment(session, entry).value.rest);
    var u: Utterance :| u.role == Owner && u in multiset(entry.seen.value) - multiset(Said(done));
    assert u in multiset(session) - multiset(Said(done));
    assert multiset(session) - multiset(Said(done)) == multiset(rest);
    OwnerInBag(rest);
  }

  /** An increment being exported has an owner turn: it passed the threshold when it was cut,
      and what a split still owes includes the next part's owner turn whatever came since. */
  lemma OwedHasOwner(key: nat, d: Disk, file: File, opts: Options)
    requires Inv(key, d) && !HasPending(d) && Fits(d, file) && opts.policy == Report
    requires Decide(PriorCursor(d), file, opts).Export?
    ensures AllOwned(Decide(PriorCursor(d), file, opts).order.parts)
  {
    var prior := PriorCursor(d);
    OrderShape(prior, file, opts);
    IncrementSucceeds(key, d, file);
    var o, entry := Decide(prior, file, opts).order, WorkingEntry(prior, file);
    var cut := Increment(o.session, entry).value;
    if entry.splitTurns > 0 {
      EntryBaseline(key, d, file);
      assert Done(d.library, entry) == Carried(d);
      SplitOwesOwner(entry, o.session, Done(d.library, entry));
    } else {
      Thresholds(entry, o.session, file, opts, Earlier(entry), cut, false, !Intact(prior, file));
      OwnersCounted(cut.whole);
      OwnersPositive(cut.whole);
    }
    forall i | 0 <= i < |o.parts| ensures HasOwner(Said(o.parts[i])) {
      PartsBoundedWithOwner(cut.rest, opts.max, i);
    }
  }

  lemma ObserveFits(key: nat, d: Disk, file: File, opts: Options)
    requires Inv(key, d) && !HasPending(d) && Fits(d, file) && opts.policy == Report
    requires Decide(PriorCursor(d), file, opts).Observe?
    ensures var after := Main(key, d, file, opts, []); Inv(key, after) && Fits(after, file)
  {
    hide Inv, Decide, Lineage, Accounted;
    ExtendsItself(file);
    ObserveKeeps(key, d, file, opts);
    ObservedShape(PriorCursor(d), file, opts);
    EntrySources(key, d, file);
    var c, after := Decide(PriorCursor(d), file, opts).cursor, Main(key, d, file, opts, []);
    assert Carried(after) == Carried(d);
    ObservedOwed(WorkingEntry(PriorCursor(d), file), c, Carried(d), file);
  }

  lemma EntrySources(key: nat, d: Disk, file: File)
    requires Inv(key, d) && !HasPending(d)
    ensures InLibrary(d.library, Sources(d)) && WorkingEntry(PriorCursor(d), file).sources == Sources(d)
  {
  }

  /** A transcript that has grown still owes what the cursor had seen and not exported. */
  lemma ObservedOwed(entry: Cursor, c: Cursor, carried: seq<Turn>, file: File)
    requires Read(file).Ok? && c.seen == Some(Read(file).value) && c.splitTurns == entry.splitTurns
    requires entry.splitTurns > 0 ==> CursorFits(entry, carried, file)
    ensures OwnerOwed(c, carried)
  {
    if c.splitTurns > 0 {
      var u: Utterance :| u.role == Owner && u in multiset(entry.seen.value) - multiset(Said(carried));
      assert u in multiset(c.seen.value) - multiset(Said(carried));
    }
  }

  lemma MainFits(key: nat, d: Disk, file: File, opts: Options, fates: seq<Fate>)
    requires Inv(key, d) && !HasPending(d) && Fits(d, file) && opts.policy == Report
    ensures Inv(key, Main(key, d, file, opts, fates)) && Fits(Main(key, d, file, opts, fates), file)
  {
    hide Inv, Fits, Decide, Working, ExportFrom, Increment;
    match Decide(PriorCursor(d), file, opts)
    case Keep =>
    case Observe(c) => ObserveFits(key, d, file, opts);
    case Export(o) =>
      ExtendsItself(file);
      DecideStarts(key, d, file, opts);
      OwedHasOwner(key, d, file, opts);
      OrderShape(PriorCursor(d), file, opts);
      IncrementSucceeds(key, d, file);
      ExportFits(key, d, o, 0, o.entry, fates, file);
  }

  lemma PassKeeps(key: nat, w: World, opts: Options, replay: Fate, fates: seq<Fate>)
    requires Good(key, w) && opts.policy == Report
    ensures Good(key, Next(key, w, Passed(opts, replay, fates)))
  {
    var d := w.disk;
    if opts.max < MIN_PART_CHARS {
    } else if HasPending(d) {
      SettleFits(key, d, replay, w.file);
      var recovered := Settle(d, replay);
      if replay == Completed && StillOwed(recovered) { MainFits(key, recovered, w.file, opts, fates); }
    } else {
      MainFits(key, d, w.file, opts, fates);
    }
  }

  /** EXACTLY ONCE, over every run. However growth, passes, crashes, refused and uncertain
      ingests interleave: the library holds exactly the cursor's sources and at most the one
      journalled payload, their turns are numbered t1..tN, and no turn of the transcript is in
      them more often than in the transcript. */
  lemma {:induction false} ExactlyOnceRuns(key: nat, file: File, events: seq<Event>)
    requires LegitRun(key, World(Disk(None, None, []), file), events)
    ensures Good(key, Run(key, World(Disk(None, None, []), file), events))
  {
    var w := World(Disk(None, None, []), file);
    if events == [] {
      assert Said([]) == [];
    } else {
      ExactlyOnceRuns(key, file, events[..|events| - 1]);
      var before := Run(key, w, events[..|events| - 1]);
      match events[|events| - 1]
      case Appended(f) => AppendKeeps(key, before, f);
      case Passed(opts, replay, fates) => PassKeeps(key, before, opts, replay, fates);
      case Elsewhere(payload) => ElsewhereKeeps(key, before, payload);
    }
  }

  lemma Concludes(entry: Cursor, session: seq<Utterance>, data: File, opts: Options,
                  earlier: seq<Utterance>, cut: Cut, beyond: bool)
    requires opts.judgment.rules.minOwnerTurns >= 3
    ensures !Conclude(entry, session, data, opts, earlier, cut, beyond, false).Keep?
  {
  }

  /** The subtraction never refuses a transcript that only grew. */
  lemma NeverRefused(key: nat, w: World, opts: Options)
    requires Good(key, w) && !HasPending(w.disk) && opts.policy == Report
    requires Read(w.file).Ok? && opts.judgment.rules.minOwnerTurns >= 3
    requires w.disk.entry.Some? ==> !Unchanged(w.disk.entry.value.cursor, w.file, opts)
    ensures !Decide(PriorCursor(w.disk), w.file, opts).Keep?
  {
    var prior := PriorCursor(w.disk);
    IncrementSucceeds(key, w.disk, w.file);
    var entry, session := WorkingEntry(prior, w.file), Read(w.file).value;
    Concludes(entry, session, w.file, opts, Earlier(entry), Increment(session, entry).value, entry.splitTurns > 0);
  }

  lemma ExportStarts(key: nat, d: Disk, file: File, opts: Options, o: Order)
    requires Inv(key, d) && !HasPending(d) && Fits(d, file) && opts.policy == Report
    requires Decide(PriorCursor(d), file, opts) == Export(o)
    ensures Running(key, d, o, 0, o.entry) && AllOwned(o.parts) && o.parts != [] && Read(file) == Ok(o.session)
  {
    DecideStarts(key, d, file, opts);
    OwedHasOwner(key, d, file, opts);
    OrderShape(PriorCursor(d), file, opts);
    IncrementSucceeds(key, d, file);
    PartsConcatenate(Increment(o.session, WorkingEntry(PriorCursor(d), file)).value.rest, opts.max);
  }

  /** NOTHING SKIPPED. From any state of such a run, an increment that is exported without
      interruption puts every turn of the transcript into the lineage: `payload` refuses no
      part, and nothing is owed afterwards. */
  lemma NothingSkipped(key: nat, w: World, opts: Options)
    requires Good(key, w) && !HasPending(w.disk) && opts.policy == Report
    requires Decide(PriorCursor(w.disk), w.file, opts).Export?
    ensures Read(w.file).Ok?
    ensures Exported(key, Main(key, w.disk, w.file, opts, []), Read(w.file).value)
  {
    var o := Decide(PriorCursor(w.disk), w.file, opts).order;
    ExportStarts(key, w.disk, w.file, opts, o);
    ExportCompletes(key, w.disk, o, 0, o.entry);
    assert Main(key, w.disk, w.file, opts, []) == ExportFrom(key, w.disk, o, 0, o.entry, []);
  }

  /** HELD MATERIAL COMES BACK. Whatever an increment held, the next one over a grown transcript
      holds again, with whatever was added, under the same first number. */
  lemma HeldComesBack(key: nat, w: World, opts: Options, file: File)
    requires Good(key, w) && !HasPending(w.disk) && opts.policy == Report && Read(file).Ok?
    requires Decide(PriorCursor(w.disk), w.file, opts).Observe?
    requires Extends(w.file, file) && Grows(w.file, file)
    ensures var after := Main(key, w.disk, w.file, opts, []);
            var now := Increment(Read(w.file).value, WorkingEntry(PriorCursor(w.disk), w.file));
            var later := Increment(Read(file).value, WorkingEntry(PriorCursor(after), file));
            && now.Ok? && later.Ok?
            && multiset(Said(now.value.rest)) <= multiset(Said(later.value.rest))
            && (now.value.rest != [] ==> later.value.rest != []
                                                   && later.value.rest[0].number == now.value.rest[0].number)
  {
    var d, prior := w.disk, PriorCursor(w.disk);
    var after := Main(key, d, w.file, opts, []);
    ObservedShape(prior, w.file, opts);
    ObserveKeeps(key, d, w.file, opts);
    MainFits(key, d, w.file, opts, []);
    AppendKeeps(key, World(after, w.file), file);
    IncrementSucceeds(key, d, w.file);
    IncrementSucceeds(key, after, file);
    EntryBaseline(key, d, w.file);
    var entry := WorkingEntry(prior, w.file);
    var later := WorkingEntry(PriorCursor(after), file);
    SameAccount(entry, later, Done(d.library, entry));
    IncrementGrows(Read(w.file).value, Read(file).value, entry, later, Done(d.library, entry));
  }

  lemma SameAccount(entry: Cursor, later: Cursor, done: seq<Turn>)
    requires Baseline(entry, done) && later.exportedTurns == entry.exportedTurns && later.sources == entry.sources
    requires later.exported == Earlier(entry) && later.splitRefs == entry.splitRefs
             && later.splitTurns == entry.splitTurns
    ensures Baseline(later, done)
  {
  }

  lemma SameStart(entry: Cursor, later: Cursor, done: seq<Turn>)
    requires Baseline(entry, done) && Baseline(later, done)
    ensures entry.exportedTurns == later.exportedTurns
  {
  }

  lemma IncrementGrows(before: seq<Utterance>, after: seq<Utterance>, entry: Cursor, later: Cursor, done: seq<Turn>)
    requires Baseline(entry, done) && Baseline(later, done) && multiset(before) <= multiset(after)
    requires Increment(before, entry).Ok? && Increment(after, later).Ok?
    ensures var now, then' := Increment(before, entry).value.rest, Increment(after, later).value.rest;
            && multiset(Said(now)) <= multiset(Said(then'))
            && (now != [] ==> then' != [] && then'[0].number == now[0].number)
  {
    hide Increment, Baseline;
    IncrementBag(before, entry, done);
    IncrementBag(after, later, done);
    SameStart(entry, later, done);
    var now, then' := Increment(before, entry).value.rest, Increment(after, later).value.rest;
    assert multiset(Said(now)) == multiset(before) - multiset(Said(done));
    assert multiset(Said(then')) == multiset(after) - multiset(Said(done));
    if now != [] {
      assert Said(now)[0] in multiset(Said(now));
      assert Said(now)[0] in multiset(Said(then'));
    }
  }
}
