/** Exactly-once export: what every pass, crash and replay keeps of the cursor and the library. */
module ExactlyOnce {
  import opened Turns
  import opened Readers
  import opened Splitting
  import opened Exporter

  /* ---------------------------------------------------------------- the lineage */

  predicate InLibrary(library: seq<Payload>, sources: seq<nat>) {
    forall k :: 0 <= k < |sources| ==> sources[k] < |library|
  }

  /** A payload that continues nothing starts the account afresh. */
  function Continued(before: seq<Turn>, payload: Payload): seq<Turn> {
    if payload.continues.None? then payload.turns else before + payload.turns
  }

  /** Every turn the library holds for these sources since the last fresh start, in order. */
  function Lineage(library: seq<Payload>, sources: seq<nat>): seq<Turn>
    requires InLibrary(library, sources)
  {
    if sources == [] then []
    else Continued(Lineage(library, sources[..|sources| - 1]), library[sources[|sources| - 1]])
  }

  lemma {:induction false} LineageFrame(library: seq<Payload>, more: seq<Payload>, sources: seq<nat>)
    requires InLibrary(library, sources) && library <= more
    ensures InLibrary(more, sources) && Lineage(library, sources) == Lineage(more, sources)
  {
    if sources != [] { LineageFrame(library, more, sources[..|sources| - 1]); }
  }

  lemma LineageGrows(library: seq<Payload>, sources: seq<nat>, source: nat)
    requires InLibrary(library, sources) && source < |library|
    ensures InLibrary(library, sources + [source])
    ensures Lineage(library, sources + [source]) == Continued(Lineage(library, sources), library[source])
  {
    assert (sources + [source])[..|sources|] == sources;
  }

  /* ---------------------------------------------------------------- the invariant */

  /** Conservation. Exported ids are t1..tN, once each; what the cursor calls exported is what
      the lineage carries. */
  predicate Accounted(turns: seq<Turn>, c: Cursor) {
    && turns == Numbered(Said(turns), 0)
    && |turns| == c.exportedTurns
    && |c.exported| + c.splitTurns == c.exportedTurns
    && |Flatten(c.splitRefs)| == c.splitTurns
    && multiset(Said(turns)) == multiset(c.exported) + multiset(Said(Flatten(c.splitRefs)))
    && (c.exportedTurns == 0 <==> c.sources == [])
  }

  /** The cursor's k-th source is this session's part k+1 and continues the one before it. */
  predicate OwnedAt(key: nat, library: seq<Payload>, sources: seq<nat>, k: nat)
    requires k < |sources|
  {
    && sources[k] < |library|
    && library[sources[k]].session == key && library[sources[k]].part == k + 1
    && (library[sources[k]].continues.Some? ==> k > 0 && library[sources[k]].continues.value == sources[k - 1])
  }

  predicate Owned(key: nat, library: seq<Payload>, sources: seq<nat>) {
    && InLibrary(library, sources)
    && forall k :: 0 <= k < |sources| ==> OwnedAt(key, library, sources, k)
  }

  predicate Distinct(library: seq<Payload>) {
    forall i, j :: 0 <= i < j < |library| ==> library[i] != library[j]
  }

  /** Nothing of this session is in the library beyond the cursor's sources and the one
      payload that may be on its way. */
  predicate NoStrangers(key: nat, library: seq<Payload>, sources: seq<nat>, onItsWay: Option<Payload>) {
    forall i :: 0 <= i < |library| && library[i].session == key ==> i in sources || onItsWay == Some(library[i])
  }

  predicate Due(key: nat, library: seq<Payload>, sources: seq<nat>, payload: Payload, step: Cursor)
    requires InLibrary(library, sources)
  {
    && payload.session == key && payload.part == |sources| + 1 && payload.turns != []
    && (payload.continues.Some? ==> sources != [] && payload.continues.value == sources[|sources| - 1])
    && step.sources == sources
    && Accounted(Continued(Lineage(library, sources), payload), Acknowledged(step, 0))
  }

  function Sources(d: Disk): seq<nat> {
    if d.entry.Some? then d.entry.value.cursor.sources else []
  }

  function OnItsWay(d: Disk): Option<Payload> {
    if HasPending(d) then Some(d.entry.value.pending.value.payload) else None
  }

  predicate Inv(key: nat, d: Disk) {
    && Distinct(d.library)
    && Owned(key, d.library, Sources(d))
    && NoStrangers(key, d.library, Sources(d), OnItsWay(d))
    && (d.entry.Some? && !HasPending(d) ==> Accounted(Lineage(d.library, Sources(d)), d.entry.value.cursor))
    && (HasPending(d) ==>
          var r := d.entry.value.pending.value;
          && d.journal == Some(r.payload) && r.carried == None
          && Due(key, d.library, Sources(d), r.payload, r.cursor))
  }

  lemma SourcesKnown(key: nat, d: Disk)
    requires Inv(key, d)
    ensures InLibrary(d.library, Sources(d))
  {
  }

  /* ---------------------------------------------------------------- one ingest */

  lemma OwnedFrame(key: nat, library: seq<Payload>, more: seq<Payload>, sources: seq<nat>)
    requires Owned(key, library, sources) && library <= more
    ensures Owned(key, more, sources)
  {
    forall k | 0 <= k < |sources| ensures OwnedAt(key, more, sources, k) {
      assert OwnedAt(key, library, sources, k);
    }
  }

  lemma OwnedGrows(key: nat, library: seq<Payload>, sources: seq<nat>, source: nat)
    requires Owned(key, library, sources) && source < |library|
    requires library[source].session == key && library[source].part == |sources| + 1
    requires library[source].continues.Some?
             ==> sources != [] && library[source].continues.value == sources[|sources| - 1]
    ensures Owned(key, library, sources + [source])
  {
    var more := sources + [source];
    forall k | 0 <= k < |more| ensures OwnedAt(key, library, more, k) {
      if k < |sources| { assert OwnedAt(key, library, sources, k); }
    }
  }

  lemma NoStrangersGrows(key: nat, library: seq<Payload>, sources: seq<nat>, source: nat)
    requires Distinct(library) && source < |library|
    requires NoStrangers(key, library, sources, Some(library[source]))
    ensures NoStrangers(key, library, sources + [source], None)
  {
    var more := sources + [source];
    forall i | 0 <= i < |library| && library[i].session == key ensures i in more {
      if i in sources {
        var k :| 0 <= k < |sources| && sources[k] == i;
        assert more[k] == i;
      } else {
        assert library[i] == library[source] && i == source;
        assert more[|sources|] == source;
      }
    }
  }

  lemma AcceptKeeps(key: nat, library: seq<Payload>, sources: seq<nat>, payload: Payload)
    requires Distinct(library) && NoStrangers(key, library, sources, Some(payload))
    ensures Distinct(Accept(library, payload).0)
    ensures NoStrangers(key, Accept(library, payload).0, sources, Some(payload))
  {
  }

  lemma AcceptedKeeps(key: nat, d: Disk)
    requires Inv(key, d) && HasPending(d)
    ensures Inv(key, d.(library := Accept(d.library, OnItsWay(d).value).0))
  {
    var library := Accept(d.library, OnItsWay(d).value).0;
    AcceptKeeps(key, d.library, Sources(d), OnItsWay(d).value);
    OwnedFrame(key, d.library, library, Sources(d));
    LineageFrame(d.library, library, Sources(d));
  }

  lemma RecordedKeeps(key: nat, d: Disk, source: nat)
    requires Inv(key, d) && HasPending(d) && source < |d.library| && Some(d.library[source]) == OnItsWay(d)
    ensures Inv(key, d.(entry := Some(Entry(Acknowledged(d.entry.value.pending.value.cursor, source), None))))
  {
    OwnedGrows(key, d.library, Sources(d), source);
    NoStrangersGrows(key, d.library, Sources(d), source);
    LineageGrows(d.library, Sources(d), source);
  }

  /** Whatever happens to the external call and after it, the account stays right: the payload
      is the session's next part, at most once in the library. */
  lemma SettleKeeps(key: nat, d: Disk, fate: Fate)
    requires Inv(key, d) && HasPending(d)
    ensures Inv(key, Settle(d, fate))
    ensures Reaches(fate) >= 4 ==> !HasPending(Settle(d, fate))
    ensures Reaches(fate) < 4 ==> Settle(d, fate).entry == d.entry
  {
    hide Inv;
    var (library, source) := Accept(d.library, OnItsWay(d).value);
    var accepted := d.(library := library);
    AcceptedKeeps(key, d);
    RecordedKeeps(key, accepted, source);
    if Reaches(fate) >= 4 { RejournalKeeps(key, Settle(d, Recorded), None); }
  }

  lemma JournalKeeps(key: nat, d: Disk, payload: Payload, step: Cursor)
    requires Inv(key, d) && !HasPending(d)
    requires Due(key, d.library, Sources(d), payload, step)
    ensures Inv(key, Journal(d, payload, step)) && HasPending(Journal(d, payload, step))
  {
  }

  lemma IngestKeeps(key: nat, d: Disk, payload: Payload, step: Cursor, fate: Fate)
    requires Inv(key, d) && !HasPending(d)
    requires Due(key, d.library, Sources(d), payload, step)
    ensures Inv(key, Ingest(d, payload, step, fate))
    ensures Reaches(fate) <= 1 ==> Ingest(d, payload, step, fate).entry == d.entry
                                    && Ingest(d, payload, step, fate).library == d.library
  {
    hide Inv, Due, Journal, Settle, Ingest;
    IngestCases(d, payload, step, fate);
    if Reaches(fate) >= 2 {
      JournalKeeps(key, d, payload, step);
      SettleKeeps(key, Journal(d, payload, step), fate);
    } else {
      RejournalKeeps(key, d, Some(payload));
    }
  }

  /** Without a receipt the journal does not matter. */
  lemma RejournalKeeps(key: nat, d: Disk, journal: Option<Payload>)
    requires Inv(key, d) && !HasPending(d)
    ensures Inv(key, d.(journal := journal))
  {
  }

  /* ---------------------------------------------------------------- the export loop */

  /** The baseline a partial step writes down is the one its counts are about. A reset decided
      late, by the subtraction, keeps the old material as its baseline and fails this. */
  predicate Baselined(o: Order) {
    |o.earlier| + o.entry.splitTurns == o.entry.exportedTurns
  }

  predicate SafeOrder(o: Order) {
    Baselined(o) || |o.parts| == 1
  }

  /** What the loop knows before part `number`; `done` is what the working entry has exported. */
  predicate Working(o: Order, number: nat, entry: Cursor, done: seq<Turn>)
    requires number <= |o.parts|
  {
    var rest := Flatten(o.parts[number..]);
    && done == Numbered(Said(done), 0)
    && |done| == entry.exportedTurns
    && rest == Numbered(Said(rest), entry.exportedTurns)
    && multiset(Said(done)) + multiset(Said(rest)) == multiset(o.session)
    && (entry.exportedTurns > 0 ==> entry.sources != [])
    && (number + 1 < |o.parts| ==>
          && |o.earlier| + entry.splitTurns == entry.exportedTurns
          && |Flatten(entry.splitRefs)| == entry.splitTurns
          && multiset(Said(done)) == multiset(o.earlier) + multiset(Said(Flatten(entry.splitRefs))))
  }

  function Done(library: seq<Payload>, entry: Cursor): seq<Turn>
    requires InLibrary(library, entry.sources)
  {
    if entry.exportedTurns > 0 then Lineage(library, entry.sources) else []
  }

  predicate Running(key: nat, d: Disk, o: Order, number: nat, entry: Cursor) {
    && number <= |o.parts|
    && Inv(key, d) && !HasPending(d)
    && Sources(d) == entry.sources
    && Working(o, number, entry, Done(d.library, entry))
    && (number > 0 ==> d.entry == Some(Entry(entry, None)))
  }

  lemma FlattenHead(parts: seq<seq<Turn>>, number: nat)
    requires number < |parts|
    ensures Flatten(parts[number..]) == parts[number] + Flatten(parts[number + 1..])
  {
    assert parts[number..] == [parts[number]] + parts[number + 1..];
    FlattenConcat([parts[number]], parts[number + 1..]);
    FlattenOne(parts[number]);
  }

  /** The numbering of a run splits with the run. */
  lemma NumberedSplit(a: seq<Turn>, b: seq<Turn>, after: nat)
    requires a + b == Numbered(Said(a + b), after)
    ensures a == Numbered(Said(a), after) && b == Numbered(Said(b), after + |a|)
  {
    SaidConcat(a, b);
    NumberedConcat(Said(a), Said(b), after);
    assert a == (a + b)[..|a|] && b == (a + b)[|a|..];
  }

  lemma NumberedJoin(a: seq<Turn>, b: seq<Turn>)
    requires a == Numbered(Said(a), 0) && b == Numbered(Said(b), |a|)
    ensures a + b == Numbered(Said(a + b), 0)
  {
    SaidConcat(a, b);
    NumberedConcat(Said(a), Said(b), 0);
  }

  /** Moving one part from what is owed to what is done. */
  lemma MovePart(o: Order, number: nat, entry: Cursor, done: seq<Turn>)
    requires number < |o.parts| && Working(o, number, entry, done)
    ensures var part, rest := o.parts[number], Flatten(o.parts[number + 1..]);
            && done + part == Numbered(Said(done + part), 0)
            && rest == Numbered(Said(rest), entry.exportedTurns + |part|)
            && multiset(Said(done + part)) + multiset(Said(rest)) == multiset(o.session)
            && multiset(Said(done + part)) == multiset(Said(done)) + multiset(Said(part))
  {
    var part, rest := o.parts[number], Flatten(o.parts[number + 1..]);
    FlattenHead(o.parts, number);
    MoveTurns(done, part, rest, entry.exportedTurns);
  }

  lemma MoveTurns(done: seq<Turn>, part: seq<Turn>, rest: seq<Turn>, exported: nat)
    requires done == Numbered(Said(done), 0) && |done| == exported
    requires part + rest == Numbered(Said(part + rest), exported)
    ensures done + part == Numbered(Said(done + part), 0)
    ensures rest == Numbered(Said(rest), exported + |part|)
    ensures multiset(Said(done + part)) == multiset(Said(done)) + multiset(Said(part))
    ensures multiset(Said(done)) + multiset(Said(part + rest)) == multiset(Said(done + part)) + multiset(Said(rest))
  {
    NumberedSplit(part, rest, exported);
    SaidConcat(part, rest);
    SaidConcat(done, part);
    NumberedJoin(done, part);
  }

  lemma SameBagSameLength<T>(a: seq<T>, b: seq<T>)
    requires multiset(a) == multiset(b)
    ensures |a| == |b|
  {
    assert |multiset(a)| == |a| && |multiset(b)| == |b|;
  }

  lemma LastPart(o: Order, number: nat, entry: Cursor, done: seq<Turn>, source: nat)
    requires number == |o.parts| - 1 && Working(o, number, entry, done) && o.parts[number] != []
    ensures Accounted(done + o.parts[number], Acknowledged(PartStep(o, number, entry), source))
    ensures Working(o, number + 1, Acknowledged(PartStep(o, number, entry), source), done + o.parts[number])
  {
    var part, step := o.parts[number], PartStep(o, number, entry);
    MovePart(o, number, entry, done);
    assert o.parts[number + 1..] == [] && Flatten(step.splitRefs) == [];
    assert Said([]) == [];
    assert multiset(Said(done + part)) == multiset(o.session);
    SameBagSameLength(Said(done + part), o.session);
  }

  lemma MiddlePart(o: Order, number: nat, entry: Cursor, done: seq<Turn>, source: nat)
    requires number + 1 < |o.parts| && Working(o, number, entry, done) && o.parts[number] != []
    ensures Accounted(done + o.parts[number], Acknowledged(PartStep(o, number, entry), source))
    ensures Working(o, number + 1, Acknowledged(PartStep(o, number, entry), source), done + o.parts[number])
  {
    var part := o.parts[number];
    MovePart(o, number, entry, done);
    FlattenSnoc(entry.splitRefs, part);
    SaidConcat(Flatten(entry.splitRefs), part);
  }

  lemma AnyPart(o: Order, number: nat, entry: Cursor, done: seq<Turn>, source: nat)
    requires number < |o.parts| && Working(o, number, entry, done) && o.parts[number] != []
    ensures Accounted(done + o.parts[number], Acknowledged(PartStep(o, number, entry), source))
    ensures Working(o, number + 1, Acknowledged(PartStep(o, number, entry), source), done + o.parts[number])
  {
    if number == |o.parts| - 1 { LastPart(o, number, entry, done, source); }
    else { MiddlePart(o, number, entry, done, source); }
  }

  lemma ContinuedIsDone(key: nat, library: seq<Payload>, o: Order, number: nat, entry: Cursor)
    requires InLibrary(library, entry.sources) && number < |o.parts|
    requires entry.exportedTurns > 0 ==> entry.sources != []
    ensures Continued(Lineage(library, entry.sources), PartPayload(key, o, number, entry))
            == Done(library, entry) + o.parts[number]
  {
    assert [] + o.parts[number] == o.parts[number];
  }

  /** One part: its payload is due ... */
  lemma PartIsDue(key: nat, d: Disk, o: Order, number: nat, entry: Cursor)
    requires Running(key, d, o, number, entry) && number < |o.parts| && o.parts[number] != []
    ensures Due(key, d.library, Sources(d), PartPayload(key, o, number, entry), PartStep(o, number, entry))
  {
    ContinuedIsDone(key, d.library, o, number, entry);
    AnyPart(o, number, entry, Done(d.library, entry), 0);
    assert Acknowledged(PartStep(o, number, entry), 0).sources == entry.sources + [0];
  }

  /** ... and once it is recorded the loop knows the same of the next. */
  lemma PartRuns(key: nat, d: Disk, o: Order, number: nat, entry: Cursor)
    requires Running(key, d, o, number, entry) && number < |o.parts| && o.parts[number] != []
    ensures var next := Ingest(d, PartPayload(key, o, number, entry), PartStep(o, number, entry), Completed);
            next.entry.Some? && Running(key, next, o, number + 1, next.entry.value.cursor)
            && Done(next.library, next.entry.value.cursor) == Done(d.library, entry) + o.parts[number]
  {
    var payload, step := PartPayload(key, o, number, entry), PartStep(o, number, entry);
    PartIsDue(key, d, o, number, entry);
    IngestKeeps(key, d, payload, step, Completed);
    CompletedState(d, payload, step);
    PartDone(d.library, o, number, entry, key);
    AnyPart(o, number, entry, Done(d.library, entry), Accept(d.library, payload).1);
  }

  lemma CompletedState(d: Disk, payload: Payload, step: Cursor)
    ensures var (library, source) := Accept(d.library, payload);
            Ingest(d, payload, step, Completed) == Disk(Some(Entry(Acknowledged(step, source), None)), None, library)
  {
  }

  lemma PartDone(library: seq<Payload>, o: Order, number: nat, entry: Cursor, key: nat)
    requires InLibrary(library, entry.sources) && number < |o.parts| && o.parts[number] != []
    requires entry.exportedTurns > 0 ==> entry.sources != []
    ensures var payload, step := PartPayload(key, o, number, entry), PartStep(o, number, entry);
            var (more, source) := Accept(library, payload);
            InLibrary(more, Acknowledged(step, source).sources)
            && Done(more, Acknowledged(step, source)) == Done(library, entry) + o.parts[number]
  {
    var payload := PartPayload(key, o, number, entry);
    var (more, source) := Accept(library, payload);
    LineageFrame(library, more, entry.sources);
    LineageGrows(more, entry.sources, source);
    ContinuedIsDone(key, library, o, number, entry);
  }

  lemma {:induction false} ExportKeeps(key: nat, d: Disk, o: Order, number: nat, entry: Cursor, fates: seq<Fate>)
    requires Running(key, d, o, number, entry)
    ensures Inv(key, ExportFrom(key, d, o, number, entry, fates))
    decreases |o.parts| - number
  {
    if number < |o.parts| && HasOwner(Said(o.parts[number])) {
      var payload, step := PartPayload(key, o, number, entry), PartStep(o, number, entry);
      PartIsDue(key, d, o, number, entry);
      IngestKeeps(key, d, payload, step, FateAt(fates, number));
      if FateAt(fates, number) == Completed {
        PartRuns(key, d, o, number, entry);
        var next := Ingest(d, payload, step, Completed);
        ExportKeeps(key, next, o, number + 1, next.entry.value.cursor, fates);
      }
    }
  }

  /* ---------------------------------------------------------------- one pass */

  lemma PendingBag(session: seq<Utterance>, earlier: seq<Utterance>, exported: nat)
    requires Pending(session, earlier, exported).Ok?
    ensures var turns := Pending(session, earlier, exported).value;
            turns == Numbered(Said(turns), exported)
            && multiset(Said(turns)) + multiset(earlier) == multiset(session)
  {
    SubtractBag(session, multiset(earlier));
    SaidNumbered(Subtract(session, multiset(earlier)), exported);
  }

  /** The cursor a pass works from: none yet, reset because the bytes changed, or the kept one. */
  function WorkingEntry(prior: Option<Cursor>, data: File): Cursor {
    if prior.None? then Fresh([])
    else if !Intact(prior, data) then Fresh(prior.value.sources) else prior.value
  }

  /** What the numbers of a working entry are about. */
  predicate Baseline(entry: Cursor, done: seq<Turn>) {
    && done == Numbered(Said(done), 0)
    && |done| == entry.exportedTurns
    && |Earlier(entry)| + entry.splitTurns == entry.exportedTurns
    && |Flatten(entry.splitRefs)| == entry.splitTurns
    && multiset(Said(done)) == multiset(Earlier(entry)) + multiset(Said(Flatten(entry.splitRefs)))
    && (entry.exportedTurns > 0 ==> entry.sources != [])
  }

  lemma FreshBaseline(sources: seq<nat>)
    ensures Baseline(Fresh(sources), [])
  {
    assert Said([]) == [] && Flatten(Fresh(sources).splitRefs) == [];
  }

  lemma EntryBaseline(key: nat, d: Disk, data: File)
    requires Inv(key, d) && !HasPending(d)
    ensures var entry := WorkingEntry(PriorCursor(d), data);
            entry.sources == Sources(d) && Baseline(entry, Done(d.library, entry))
  {
    var prior := PriorCursor(d);
    if prior.None? || !Intact(prior, data) {
      FreshBaseline(Sources(d));
    } else {
      var c := d.entry.value.cursor;
      assert c.exportedTurns == 0 ==> c.exported == [] && Lineage(d.library, c.sources) == [];
    }
  }

  /** The increment is exactly what the session has and the lineage has not, numbered where the
      lineage stops. */
  lemma IncrementBag(session: seq<Utterance>, entry: Cursor, done: seq<Turn>)
    requires Baseline(entry, done) && Increment(session, entry).Ok?
    ensures var rest := Increment(session, entry).value.rest;
            rest == Numbered(Said(rest), entry.exportedTurns)
            && multiset(Said(done)) + multiset(Said(rest)) == multiset(session)
  {
    hide Numbered;
    var acknowledged := Flatten(entry.splitRefs);
    if entry.splitTurns == 0 {
      assert Said(acknowledged) == [];
      PendingBag(session, Earlier(entry), entry.exportedTurns);
    } else {
      PendingBag(session, Earlier(entry) + Said(acknowledged), entry.exportedTurns);
    }
  }

  lemma ExtendsItself(file: File)
    ensures Extends(file, file)
  {
  }

  lemma SameIncrement(session: seq<Utterance>, entry: Cursor, c: Cursor)
    requires Earlier(c) == Earlier(entry) && c.splitTurns == entry.splitTurns && c.splitRefs == entry.splitRefs
    requires c.exportedTurns == entry.exportedTurns
    ensures Increment(session, c) == Increment(session, entry)
  {
  }

  lemma NothingYet(key: nat)
    ensures Inv(key, Disk(None, None, []))
  {
    assert Lineage([], []) == [];
  }

  /** Another session's export. */
  lemma StrangerKeeps(key: nat, d: Disk, payload: Payload)
    requires Inv(key, d) && payload.session != key
    ensures Inv(key, d.(library := Accept(d.library, payload).0))
  {
    var library := Accept(d.library, payload).0;
    OwnedFrame(key, d.library, library, Sources(d));
    LineageFrame(d.library, library, Sources(d));
  }

  lemma ConcludeShape(entry: Cursor, session: seq<Utterance>, data: File, opts: Options,
                      earlier: seq<Utterance>, cut: Cut, beyond: bool, rewritten: bool)
    requires Conclude(entry, session, data, opts, earlier, cut, beyond, rewritten).Export?
    ensures var o := Conclude(entry, session, data, opts, earlier, cut, beyond, rewritten).order;
            o.entry == entry && o.session == session && o.earlier == earlier && o.rewritten == rewritten
            && o.parts == Parts(cut.rest, opts.max)
            && o.cursor.file == Some(data) && o.cursor.seen == Some(session)
  {
  }

  lemma Thresholds(entry: Cursor, session: seq<Utterance>, data: File, opts: Options,
                   earlier: seq<Utterance>, cut: Cut, beyond: bool, rewritten: bool)
    requires Conclude(entry, session, data, opts, earlier, cut, beyond, rewritten).Export? && !beyond
    ensures |OwnerTexts(cut.whole)| >= 3
  {
  }

  lemma {:induction false} OwnersCounted(turns: seq<Turn>)
    ensures |OwnerTexts(turns)| == Owners(turns)
  {
    if turns != [] { OwnersCounted(turns[..|turns| - 1]); }
  }

  /** The two ways to an order: the subtraction held, or it failed and the pass may reset. */
  lemma ExportedFrom(prior: Option<Cursor>, data: File, opts: Options)
    requires Decide(prior, data, opts).Export?
    ensures Read(data).Ok?
    ensures var entry, session := WorkingEntry(prior, data), Read(data).value;
            var cut, all := Increment(session, entry), Numbered(session, 0);
            if cut.Ok? then
              Decide(prior, data, opts)
              == Conclude(entry, session, data, opts, Earlier(entry), cut.value,
                          entry.splitTurns > 0, !Intact(prior, data))
            else
              opts.policy == Reingest
              && Decide(prior, data, opts)
                 == Conclude(Fresh(entry.sources), session, data, opts, Earlier(entry), Cut(all, all), false, true)
  {
    hide Conclude, Increment;
  }

  lemma OrderShape(prior: Option<Cursor>, data: File, opts: Options)
    requires Decide(prior, data, opts).Export?
    ensures var o, entry := Decide(prior, data, opts).order, WorkingEntry(prior, data);
            && Read(data) == Ok(o.session)
            && o.cursor.file == Some(data) && o.cursor.seen == Some(o.session)
            && o.earlier == Earlier(entry)
            && (Increment(o.session, entry).Ok? ==>
                  o.entry == entry && o.parts == Parts(Increment(o.session, entry).value.rest, opts.max))
            && (Increment(o.session, entry).Err? ==>
                  opts.policy == Reingest && o.rewritten
                  && o.entry == Fresh(entry.sources) && o.parts == Parts(Numbered(o.session, 0), opts.max))
  {
    hide Decide, Judge, Conclude, Increment, Parts;
    ExportedFrom(prior, data, opts);
    var entry, session, rewritten := WorkingEntry(prior, data), Read(data).value, !Intact(prior, data);
    var cut := Increment(session, entry);
    if cut.Ok? {
      ConcludeShape(entry, session, data, opts, Earlier(entry), cut.value, entry.splitTurns > 0, rewritten);
    } else {
      var all := Numbered(session, 0);
      ConcludeShape(Fresh(entry.sources), session, data, opts, Earlier(entry), Cut(all, all), false, true);
    }
  }

  /** An accounted cursor (or none, or one reset at the start of the pass) gives an order the
      loop can run; only the late reset can give one whose baseline is stale. */
  lemma DecideStarts(key: nat, d: Disk, data: File, opts: Options)
    requires Inv(key, d) && !HasPending(d)
    requires Decide(PriorCursor(d), data, opts).Export?
    ensures var o := Decide(PriorCursor(d), data, opts).order;
            && (SafeOrder(o) ==> Running(key, d, o, 0, o.entry))
            && (opts.policy == Report ==> Baselined(o))
            && (!Baselined(o) ==> o.entry == Fresh(Sources(d)) && o.rewritten && o.earlier != [])
  {
    var prior := PriorCursor(d);
    OrderShape(prior, data, opts);
    EntryBaseline(key, d, data);
    var o, entry := Decide(prior, data, opts).order, WorkingEntry(prior, data);
    var done := Done(d.library, entry);
    assert o.parts[0..] == o.parts;
    if Increment(o.session, entry).Ok? {
      var rest := Increment(o.session, entry).value.rest;
      IncrementBag(o.session, entry, done);
      PartsConcatenate(rest, opts.max);
      assert Working(o, 0, entry, done);
    } else {
      PartsConcatenate(Numbered(o.session, 0), opts.max);
      LateStart(o, Numbered(o.session, 0));
    }
  }

  lemma LateStart(o: Order, all: seq<Turn>)
    requires all == Numbered(o.session, 0) && Flatten(o.parts) == all && o.entry == Fresh(o.entry.sources)
    ensures SafeOrder(o) ==> Working(o, 0, o.entry, [])
  {
    SaidNumbered(o.session, 0);
    FreshBaseline(o.entry.sources);
    assert o.parts[0..] == o.parts;
    assert multiset(Said([])) + multiset(o.session) == multiset(o.session);
  }

  lemma ConcludeObserves(entry: Cursor, session: seq<Utterance>, data: File, opts: Options,
                         earlier: seq<Utterance>, cut: Cut, beyond: bool, rewritten: bool)
    requires Conclude(entry, session, data, opts, earlier, cut, beyond, rewritten).Observe?
    ensures var c := Conclude(entry, session, data, opts, earlier, cut, beyond, rewritten).cursor;
            !rewritten && c == entry.(file := Some(data), seen := Some(session), exported := earlier,
                                      steward := opts.steward, judgment := Some(opts.judgment), held := c.held,
                                      origins := entry.origins[LOCAL := session], device := LOCAL)
  {
  }

  /** A pass over intact bytes that the subtraction accepts and the shortcut does not take. */
  lemma DecideConcludes(prior: Option<Cursor>, data: File, opts: Options)
    requires Intact(prior, data) && Read(data).Ok? && (prior.Some? ==> !Unchanged(prior.value, data, opts))
    requires Increment(Read(data).value, WorkingEntry(prior, data)).Ok?
    ensures var entry := WorkingEntry(prior, data);
            Decide(prior, data, opts)
            == Conclude(entry, Read(data).value, data, opts, Earlier(entry),
                        Increment(Read(data).value, entry).value, entry.splitTurns > 0, false)
  {
  }

  lemma ObservedFrom(prior: Option<Cursor>, data: File, opts: Options)
    requires Decide(prior, data, opts).Observe?
    ensures Intact(prior, data) && Read(data).Ok? && (prior.Some? ==> !Unchanged(prior.value, data, opts))
    ensures Increment(Read(data).value, WorkingEntry(prior, data)).Ok?
  {
  }

  lemma ObservedShape(prior: Option<Cursor>, data: File, opts: Options)
    requires Decide(prior, data, opts).Observe?
    ensures var c, entry := Decide(prior, data, opts).cursor, WorkingEntry(prior, data);
            Intact(prior, data) && c.exported == Earlier(entry) && c.splitRefs == entry.splitRefs
            && c.splitTurns == entry.splitTurns && c.exportedTurns == entry.exportedTurns
            && c.sources == entry.sources && c.file == Some(data)
            && c.judgment == Some(opts.judgment) && c.steward == opts.steward
            && Read(data).Ok? && c.seen == Some(Read(data).value)
  {
    ObservedFrom(prior, data, opts);
    DecideConcludes(prior, data, opts);
    var entry := WorkingEntry(prior, data);
    ConcludeObserves(entry, Read(data).value, data, opts, Earlier(entry),
                     Increment(Read(data).value, entry).value, entry.splitTurns > 0, false);
  }

  lemma ObserveKeeps(key: nat, d: Disk, data: File, opts: Options)
    requires Inv(key, d) && !HasPending(d)
    requires Decide(PriorCursor(d), data, opts).Observe?
    ensures Inv(key, Main(key, d, data, opts, [])) && !HasPending(Main(key, d, data, opts, []))
    ensures Main(key, d, data, opts, []).library == d.library
    ensures Sources(Main(key, d, data, opts, [])) == Sources(d)
  {
    var prior := PriorCursor(d);
    ObservedShape(prior, data, opts);
    EntryBaseline(key, d, data);
    var c, entry := Decide(prior, data, opts).cursor, WorkingEntry(prior, data);
    assert d.entry.Some? ==> (entry.exportedTurns == 0 <==> entry.sources == []);
    assert Done(d.library, entry) == Lineage(d.library, entry.sources);
    assert Accounted(Lineage(d.library, Sources(d)), c);
  }

  predicate SafePlan(plan: Plan) {
    plan.Export? ==> SafeOrder(plan.order)
  }

  lemma MainKeeps(key: nat, d: Disk, data: File, opts: Options, fates: seq<Fate>)
    requires Inv(key, d) && !HasPending(d)
    requires SafePlan(Decide(PriorCursor(d), data, opts))
    ensures Inv(key, Main(key, d, data, opts, fates))
  {
    match Decide(PriorCursor(d), data, opts)
    case Keep =>
    case Observe(_) => ObserveKeeps(key, d, data, opts);
    case Export(o) =>
      DecideStarts(key, d, data, opts);
      ExportKeeps(key, d, o, 0, o.entry, fates);
  }

  /** Every pass keeps the account in report mode, wherever it is interrupted. */
  lemma SyncKeeps(key: nat, d: Disk, data: File, opts: Options, replay: Fate, fates: seq<Fate>)
    requires Inv(key, d) && opts.policy == Report
    ensures Inv(key, Sync(key, d, data, opts, replay, fates))
  {
    if opts.max < MIN_PART_CHARS {
    } else if HasPending(d) {
      SettleKeeps(key, d, replay);
      var recovered := Settle(d, replay);
      if replay == Completed && StillOwed(recovered) {
        if Decide(PriorCursor(recovered), data, opts).Export? { DecideStarts(key, recovered, data, opts); }
        MainKeeps(key, recovered, data, opts, fates);
      }
    } else {
      if Decide(PriorCursor(d), data, opts).Export? { DecideStarts(key, d, data, opts); }
      MainKeeps(key, d, data, opts, fates);
    }
  }
}
