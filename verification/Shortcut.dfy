/** The byte-identity shortcut against the full path it replaces. */
module Shortcut {
  import opened Turns
  import opened Readers
  import opened Splitting
  import opened Exporter
  import opened ExactlyOnce
  import opened ExportRuns

  /** If the shortcut would take the cursor's own bytes, the full path would ingest nothing. */
  predicate Quiet(c: Cursor, opts: Options) {
    c.file.Some? && Unchanged(c, c.file.value, opts) ==> !Judge(Some(c), c.file.value, opts, false).Export?
  }

  predicate QuietDisk(d: Disk, opts: Options) {
    && (Current(d).Some? ==> Quiet(Current(d).value, opts))
    && (HasPending(d) ==> d.entry.value.pending.value.carried == None)
  }

  lemma JudgeConcludes(c: Cursor, data: File, opts: Options)
    requires Read(data).Ok? && Increment(Read(data).value, c).Ok?
    ensures Judge(Some(c), data, opts, false)
            == Conclude(c, Read(data).value, data, opts, Earlier(c),
                        Increment(Read(data).value, c).value, c.splitTurns > 0, false)
  {
  }

  /** A declined increment is declined again by whoever judges it by the same rules; only the
      steward mark could differ, and it declines too. */
  lemma DeclinedAgain(entry: Cursor, session: seq<Utterance>, data: File, first: Options, opts: Options,
                      cut: Cut, c: Cursor)
    requires Conclude(entry, session, data, first, Earlier(entry), cut, entry.splitTurns > 0, false) == Observe(c)
    requires opts.judgment == first.judgment && !c.steward
    ensures !Conclude(c, session, data, opts, Earlier(c), cut, c.splitTurns > 0, false).Export?
  {
  }

  lemma ObservedIsQuiet(prior: Option<Cursor>, data: File, first: Options, opts: Options, c: Cursor)
    requires Decide(prior, data, first) == Observe(c)
    ensures Quiet(c, opts)
  {
    ObservedFrom(prior, data, first);
    ObservedShape(prior, data, first);
    DecideConcludes(prior, data, first);
    var entry, session := WorkingEntry(prior, data), Read(data).value;
    SameIncrement(session, entry, c);
    if Unchanged(c, data, opts) {
      DeclinedAgain(entry, session, data, first, opts, Increment(session, entry).value, c);
      JudgeConcludes(c, data, opts);
    }
  }

  /** After a whole export nothing is left to subtract. */
  lemma NothingLeft(session: seq<Utterance>, c: Cursor)
    requires c.exportedTurns > 0 && c.exported == session && c.splitTurns == 0
    ensures Increment(session, c).Ok? && Increment(session, c).value.rest == []
  {
    assert session + [] == session;
    SubtractPrefix(session, []);
  }

  lemma NothingToExport(c: Cursor, session: seq<Utterance>, data: File, opts: Options, cut: Cut)
    requires cut.rest == []
    ensures !Conclude(c, session, data, opts, Earlier(c), cut, false, false).Export?
  {
  }

  lemma StepIsQuiet(o: Order, number: nat, entry: Cursor, c: Cursor, data: File, opts: Options)
    requires number < |o.parts| && o.parts[number] != []
    requires Read(data) == Ok(o.session) && o.cursor.file == Some(data)
    requires c == PartStep(o, number, entry)
             || exists source: nat :: c == Acknowledged(PartStep(o, number, entry), source)
    ensures Quiet(c, opts)
  {
    if number == |o.parts| - 1 {
      NothingLeft(o.session, c);
      JudgeConcludes(c, data, opts);
      NothingToExport(c, o.session, data, opts, Increment(o.session, c).value);
    } else {
      assert c.splitTurns > 0;
    }
  }

  lemma {:induction false} ExportIsQuiet(key: nat, d: Disk, o: Order, number: nat, entry: Cursor, fates: seq<Fate>,
                                         data: File, opts: Options)
    requires number <= |o.parts| && QuietDisk(d, opts) && !HasPending(d)
    requires Read(data) == Ok(o.session) && o.cursor.file == Some(data)
    ensures QuietDisk(ExportFrom(key, d, o, number, entry, fates), opts)
    decreases |o.parts| - number
  {
    hide Quiet, PartPayload, PartStep, Ingest;
    if number < |o.parts| && HasOwner(Said(o.parts[number])) {
      assert o.parts[number] != [] by { assert Said(o.parts[number]) != []; }
      var payload, step := PartPayload(key, o, number, entry), PartStep(o, number, entry);
      var source := Accept(d.library, payload).1;
      StepIsQuiet(o, number, entry, step, data, opts);
      StepIsQuiet(o, number, entry, Acknowledged(step, source), data, opts);
      CurrentAfter(d, payload, step, FateAt(fates, number));
      var next := Ingest(d, payload, step, FateAt(fates, number));
      if FateAt(fates, number) == Completed {
        CompletedState(d, payload, step);
        ExportIsQuiet(key, next, o, number + 1, next.entry.value.cursor, fates, data, opts);
      }
    }
  }

  lemma CurrentAfter(d: Disk, payload: Payload, step: Cursor, fate: Fate)
    requires !HasPending(d)
    ensures var next, source := Ingest(d, payload, step, fate), Accept(d.library, payload).1;
            Current(next) == Current(d) || Current(next) == Some(step)
            || Current(next) == Some(Acknowledged(step, source))
    ensures var next := Ingest(d, payload, step, fate);
            HasPending(next) ==> next.entry.value.pending.value.carried == None
  {
  }

  /** Acknowledging a source changes nothing the full path looks at. */
  lemma AcknowledgedIsQuiet(c: Cursor, source: nat, opts: Options)
    requires Quiet(c, opts)
    ensures Quiet(Acknowledged(c, source), opts)
  {
    var after := Acknowledged(c, source);
    if after.file.Some? && Unchanged(after, after.file.value, opts) && Read(after.file.value).Ok? {
      var session := Read(after.file.value).value;
      SameIncrement(session, c, after);
      SameJudge(c, source, after.file.value, opts);
    }
  }

  lemma SameKind(a: Cursor, b: Cursor, session: seq<Utterance>, data: File, opts: Options,
                 earlier: seq<Utterance>, cut: Cut, beyond: bool, rewritten: bool)
    requires a.exportedTurns == b.exportedTurns
    ensures Conclude(a, session, data, opts, earlier, cut, beyond, rewritten).Export?
            <==> Conclude(b, session, data, opts, earlier, cut, beyond, rewritten).Export?
  {
  }

  lemma JudgeResets(c: Cursor, data: File, opts: Options)
    requires Read(data).Ok? && Increment(Read(data).value, c).Err?
    ensures var all := Numbered(Read(data).value, 0);
            Judge(Some(c), data, opts, false)
            == if opts.policy == Report then Keep
               else Conclude(Fresh(c.sources), Read(data).value, data, opts, Earlier(c), Cut(all, all), false, true)
  {
  }

  lemma SameJudge(c: Cursor, source: nat, data: File, opts: Options)
    requires Read(data).Ok? && Increment(Read(data).value, Acknowledged(c, source)) == Increment(Read(data).value, c)
    ensures Judge(Some(Acknowledged(c, source)), data, opts, false).Export?
            <==> Judge(Some(c), data, opts, false).Export?
  {
    hide Judge, Conclude, Increment;
    var after, session := Acknowledged(c, source), Read(data).value;
    var cut, all := Increment(session, c), Numbered(session, 0);
    if cut.Ok? {
      JudgeConcludes(c, data, opts);
      JudgeConcludes(after, data, opts);
      SameKind(c, after, session, data, opts, Earlier(c), cut.value, c.splitTurns > 0, false);
    } else {
      JudgeResets(c, data, opts);
      JudgeResets(after, data, opts);
      SameKind(Fresh(c.sources), Fresh(after.sources), session, data, opts, Earlier(c), Cut(all, all), false, true);
    }
  }

  lemma SettleIsQuiet(d: Disk, fate: Fate, opts: Options)
    requires HasPending(d) && QuietDisk(d, opts)
    ensures QuietDisk(Settle(d, fate), opts)
  {
    var r := d.entry.value.pending.value;
    AcknowledgedIsQuiet(r.cursor, Accept(d.library, r.payload).1, opts);
  }

  lemma MainIsQuiet(key: nat, d: Disk, data: File, first: Options, fates: seq<Fate>, opts: Options)
    requires !HasPending(d) && QuietDisk(d, opts)
    ensures QuietDisk(Main(key, d, data, first, fates), opts)
  {
    match Decide(PriorCursor(d), data, first)
    case Keep =>
    case Observe(c) => ObservedIsQuiet(PriorCursor(d), data, first, opts, c);
    case Export(o) =>
      OrderShape(PriorCursor(d), data, first);
      ExportIsQuiet(key, d, o, 0, o.entry, fates, data, opts);
  }

  lemma PassIsQuiet(key: nat, d: Disk, data: File, first: Options, replay: Fate, fates: seq<Fate>, opts: Options)
    requires QuietDisk(d, opts)
    ensures QuietDisk(Sync(key, d, data, first, replay, fates), opts)
  {
    if HasPending(d) {
      SettleIsQuiet(d, replay, opts);
      var recovered := Settle(d, replay);
      if StillOwed(recovered) { MainIsQuiet(key, recovered, data, first, fates, opts); }
    } else {
      MainIsQuiet(key, d, data, first, fates, opts);
    }
  }

  lemma {:induction false} RunIsQuiet(key: nat, file: File, events: seq<Event>, opts: Options)
    ensures QuietDisk(Run(key, World(Disk(None, None, []), file), events).disk, opts)
  {
    if events != [] {
      var w := World(Disk(None, None, []), file);
      RunIsQuiet(key, file, events[..|events| - 1], opts);
      var before := Run(key, w, events[..|events| - 1]);
      match events[|events| - 1]
      case Appended(_) =>
      case Passed(first, replay, fates) => PassIsQuiet(key, before.disk, before.file, first, replay, fates, opts);
      case Elsewhere(payload) =>
        assert Next(key, before, Elsewhere(payload)).disk.entry == before.disk.entry;
    }
  }

  /** THE SHORTCUT REFINES THE FULL PATH. After any run whatever, rewrites and resets included:
      when a pass reports the bytes unchanged without reading them, reading and judging them
      under the same rules and since bound would ingest nothing. */
  lemma ShortcutRefines(key: nat, file: File, events: seq<Event>, data: File, opts: Options)
    ensures var d := Run(key, World(Disk(None, None, []), file), events).disk;
            d.entry.Some? && !HasPending(d) && Unchanged(d.entry.value.cursor, data, opts)
            ==> Decide(PriorCursor(d), data, opts) == Keep
                && !Judge(PriorCursor(d), data, opts, false).Export?
  {
    RunIsQuiet(key, file, events, opts);
    ExtendsItself(data);
  }
}
