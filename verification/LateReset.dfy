/** A late reset happens, and what it does: the one family of inputs for which an interrupted
    pass is not exactly once. */
module LateReset {
  import opened Turns
  import opened Readers
  import opened Splitting
  import opened Exporter
  import opened ExactlyOnce
  import opened CrashTransparency

  /* ---------------------------------------------------------------- what it does */

  lemma {:induction false} LibraryOnlyGrows(key: nat, d: Disk, o: Order, number: nat, entry: Cursor, fates: seq<Fate>)
    requires number <= |o.parts|
    ensures d.library <= ExportFrom(key, d, o, number, entry, fates).library
    decreases |o.parts| - number
  {
    hide PartPayload, PartStep, Find;
    if number < |o.parts| && HasOwner(Said(o.parts[number])) {
      var next := Ingest(d, PartPayload(key, o, number, entry), PartStep(o, number, entry), FateAt(fates, number));
      if FateAt(fates, number) == Completed && next.entry.Some? {
        LibraryOnlyGrows(key, next, o, number + 1, next.entry.value.cursor, fates);
      }
    }
  }

  lemma ConcludeReset(a: seq<nat>, b: seq<nat>, session: seq<Utterance>, data: File, opts: Options,
                      earlier: seq<Utterance>, cut: Cut)
    requires Conclude(Fresh(a), session, data, opts, earlier, cut, false, true).Export?
    ensures var again := Conclude(Fresh(b), session, data, opts, earlier, cut, false, true);
            again.Export? && again.order.entry == Fresh(b)
            && again.order.parts == Conclude(Fresh(a), session, data, opts, earlier, cut, false, true).order.parts
  {
  }

  lemma JudgedAgain(c: Cursor, data: File, opts: Options)
    requires c.file == None && c.splitTurns > 0 && c.exportedTurns > 0 && opts.policy == Reingest
    requires Read(data).Ok? && !(multiset(c.exported) <= multiset(Read(data).value))
    ensures var all := Numbered(Read(data).value, 0);
            Decide(Some(c), data, opts)
            == Conclude(Fresh(c.sources), Read(data).value, data, opts, c.exported, Cut(all, all), false, true)
  {
  }

  /** The same turns of one session stand in two sources. */
  predicate Doubled(key: nat, library: seq<Payload>) {
    exists i, j :: 0 <= i < |library| && 0 <= j < |library| && i != j
                   && library[i].session == library[j].session == key
                   && library[i].turns == library[j].turns && library[i].turns != []
  }

  lemma DoubledAt(key: nat, library: seq<Payload>, i: nat, j: nat)
    requires i < |library| && j < |library| && library[i] != library[j]
    requires library[i].session == library[j].session == key
    requires library[i].turns == library[j].turns && library[i].turns != []
    ensures Doubled(key, library)
  {
  }

  lemma SecondCopy(key: nat, d: Disk, again: Order, first: Payload, source: nat)
    requires again.parts != [] && HasOwner(Said(again.parts[0])) && again.parts[0] == first.turns
    requires source < |d.library| && d.library[source] == first && first.session == key
    requires first.part != |again.entry.sources| + 1
    ensures Doubled(key, ExportFrom(key, d, again, 0, again.entry, []).library)
  {
    hide Doubled;
    var payload, step := PartPayload(key, again, 0, again.entry), PartStep(again, 0, again.entry);
    CompletedState(d, payload, step);
    var next := Ingest(d, payload, step, Completed);
    var (library, second) := Accept(d.library, payload);
    LibraryOnlyGrows(key, next, again, 1, next.entry.value.cursor, []);
    var final := ExportFrom(key, d, again, 0, again.entry, []).library;
    assert ExportFrom(key, d, again, 0, again.entry, [])
           == ExportFrom(key, next, again, 1, next.entry.value.cursor, []);
    assert library <= final;
    assert final[source] == first && final[second] == payload && first.part != payload.part;
    assert first.turns != [] by { assert Said(first.turns) != []; }
    DoubledAt(key, final, source, second);
  }

  /** Interrupted after its first part, a late reset is decided again by the next pass, and the
      same turns go to the library a second time under another part number. */
  lemma LateResetRepeats(key: nat, d: Disk, data: File, opts: Options, o: Order)
    requires Inv(key, d) && !HasPending(d) && Decide(PriorCursor(d), data, opts) == Export(o) && !SafeOrder(o)
    requires opts.max >= MIN_PART_CHARS && !(multiset(o.earlier) <= multiset(o.session))
    ensures var stopped := Main(key, d, data, opts, [Completed, NotStarted]);
            Doubled(key, Sync(key, stopped, data, opts, Completed, []).library)
  {
    hide Doubled, Inv, Decide, Parts, Increment, Accept;
    LateFirst(key, d, data, opts, o);
    ExportedFrom(PriorCursor(d), data, opts);
    OrderShape(PriorCursor(d), data, opts);
    var all, first, step := Numbered(o.session, 0), PartPayload(key, o, 0, o.entry), PartStep(o, 0, o.entry);
    var next := Ingest(d, first, step, Completed);
    CompletedState(d, first, step);
    var c := next.entry.value.cursor;
    JudgedAgain(c, data, opts);
    ConcludeReset(o.entry.sources, c.sources, o.session, data, opts, o.earlier, Cut(all, all));
    var again := Decide(Some(c), data, opts).order;
    SecondCopy(key, next, again, first, Accept(d.library, first).1);
    assert Main(key, next, data, opts, []) == ExportFrom(key, next, again, 0, again.entry, []);
  }

  /* ---------------------------------------------------------------- and it happens */

  predicate OwnerSays(us: seq<Utterance>) {
    && (forall i :: 0 <= i < |us| ==> us[i].role == Owner && us[i].kind == Say && !Blank(us[i].text))
    && (forall i, j :: 0 <= i < j < |us| ==> us[i].at <= us[j].at)
  }

  function AsEvents(us: seq<Utterance>): (rows: seq<CodexRow>)
    ensures |rows| == |us|
  {
    seq(|us|, i requires 0 <= i < |us| => Event(Some(us[i].at), Owner, us[i].text))
  }

  function AsItems(us: seq<Utterance>): (rows: seq<CodexRow>)
    ensures |rows| == |us|
  {
    seq(|us|, i requires 0 <= i < |us| => Item(Some(us[i].at), None, [Words(Owner, Say, us[i].text)]))
  }

  lemma OneEvent(s: CodexScan, u: Utterance)
    requires u.role == Owner && u.kind == Say && !Blank(u.text)
    ensures CodexStep(s, Event(Some(u.at), Owner, u.text)) == Ok(CodexScan(s.turns, s.events + [u], Some(u.at), s.seen))
  {
  }

  lemma {:induction false} EventsScan(us: seq<Utterance>)
    requires OwnerSays(us)
    ensures ScanCodex(AsEvents(us)).Ok?
    ensures var s := ScanCodex(AsEvents(us)).value; s.turns == [] && s.events == us && s.seen == {}
  {
    hide CodexStep;
    if us != [] {
      var front, last := us[..|us| - 1], us[|us| - 1];
      EventsScan(front);
      assert AsEvents(us)[..|us| - 1] == AsEvents(front);
      OneEvent(ScanCodex(AsEvents(front)).value, last);
      assert us == front + [last];
    }
  }

  lemma OneBlock(turns: seq<Utterance>, u: Utterance)
    requires u.role == Owner && u.kind == Say && !Blank(u.text)
    ensures AddedAll(turns, Some(u.at), [Words(Owner, Say, u.text)]) == Ok(turns + [u])
  {
    var says := [Words(Owner, Say, u.text)];
    assert says[..|says| - 1] == [];
    assert AddedAll(turns, Some(u.at), says[..|says| - 1]) == Ok(turns);
  }

  lemma OneItem(s: CodexScan, u: Utterance)
    requires u.role == Owner && u.kind == Say && !Blank(u.text)
    ensures CodexStep(s, Item(Some(u.at), None, [Words(Owner, Say, u.text)]))
            == Ok(CodexScan(s.turns + [u], s.events, Some(u.at), s.seen))
  {
    OneBlock(s.turns, u);
  }

  lemma LastSays(us: seq<Utterance>)
    requires OwnerSays(us) && us != []
    ensures OwnerSays(us[..|us| - 1])
    ensures us[|us| - 1].role == Owner && us[|us| - 1].kind == Say && !Blank(us[|us| - 1].text)
  {
  }

  lemma LastItem(events: seq<Utterance>, items: seq<Utterance>)
    requires items != []
    ensures var rows, last := AsEvents(events) + AsItems(items), items[|items| - 1];
            && rows[..|rows| - 1] == AsEvents(events) + AsItems(items[..|items| - 1])
            && rows[|rows| - 1] == Item(Some(last.at), None, [Words(Owner, Say, last.text)])
  {
  }

  lemma ScanOne(rows: seq<CodexRow>)
    requires rows != [] && ScanCodex(rows[..|rows| - 1]).Ok?
    ensures ScanCodex(rows) == CodexStep(ScanCodex(rows[..|rows| - 1]).value, rows[|rows| - 1])
  {
    hide CodexStep;
  }

  lemma {:induction false} ItemsScan(events: seq<Utterance>, items: seq<Utterance>)
    requires OwnerSays(events) && OwnerSays(items)
    ensures ScanCodex(AsEvents(events) + AsItems(items)).Ok?
    ensures var s := ScanCodex(AsEvents(events) + AsItems(items)).value;
            s.turns == items && s.events == events && s.seen == {}
    decreases |items|
  {
    hide CodexStep, OwnerSays;
    var rows := AsEvents(events) + AsItems(items);
    if items == [] {
      assert rows == AsEvents(events);
      EventsScan(events);
    } else {
      hide AsEvents, AsItems;
      var front, last := items[..|items| - 1], items[|items| - 1];
      LastSays(items);
      ItemsScan(events, front);
      LastItem(events, items);
      OneItem(ScanCodex(rows[..|rows| - 1]).value, last);
      ScanOne(rows);
      assert items == front + [last];
      hide ScanCodex;
    }
  }

  lemma {:induction false} AllRetained(events: seq<Utterance>)
    ensures Retained(events, []) == events
  {
    if events != [] {
      AllRetained(events[..|events| - 1]);
      assert events == events[..|events| - 1] + [events[|events| - 1]];
    }
  }

  lemma {:induction false} NoneRetained(events: seq<Utterance>, turns: seq<Utterance>)
    requires OwnerSays(events) && Itemised(turns, Owner)
    ensures Retained(events, turns) == []
  {
    if events != [] { NoneRetained(events[..|events| - 1], turns); }
  }

  lemma AlreadyInOrder(us: seq<Utterance>)
    requires OwnerSays(us)
    ensures Finished(us) == us
  {
    hide Finished;
    NoRepairsIffOrdered(us);
  }

  lemma ReadEvents(us: seq<Utterance>, file: File)
    requires OwnerSays(us) && file.rows == CodexFile(AsEvents(us))
    ensures Read(file) == Ok(us)
  {
    hide OwnerSays, ScanCodex, Finished, Retained;
    EventsScan(us);
    AllRetained(us);
    assert [] + us == us;
    AlreadyInOrder(us);
  }

  lemma ReadItems(events: seq<Utterance>, items: seq<Utterance>, file: File)
    requires OwnerSays(events) && OwnerSays(items) && items != []
    requires file.rows == CodexFile(AsEvents(events) + AsItems(items))
    ensures Read(file) == Ok(items)
  {
    hide ScanCodex, Finished, Retained;
    ItemsScan(events, items);
    assert Itemised(items, Owner) by { assert items[0].role == Owner && items[0].kind != Action; }
    NoneRetained(events, items);
    assert items + [] == items;
    AlreadyInOrder(items);
  }

  function Reingesting(): Options {
    Options(Reingest, Judgment(Rules(3, 0, {}, true), None), MIN_PART_CHARS, false)
  }

  lemma {:induction false} AllOwners(turns: seq<Turn>)
    requires OwnerSays(Said(turns))
    ensures Owners(turns) == |turns|
  {
    if turns != [] {
      var front := turns[..|turns| - 1];
      assert forall i :: 0 <= i < |front| ==> Said(front)[i] == Said(turns)[i];
      AllOwners(front);
    }
  }

  /** Three owner turns pass every threshold of these options. */
  lemma AllConcludes(entry: Cursor, us: seq<Utterance>, data: File, opts: Options,
        earlier: seq<Utterance>, rewritten: bool)
    requires OwnerSays(us) && |us| >= 3 && !data.subagent && !data.conflict
    requires opts.judgment == Reingesting().judgment && !opts.steward
    ensures var all := Numbered(us, 0);
            Conclude(entry, us, data, opts, earlier, Cut(all, all), false, rewritten).Export?
  {
    hide OwnerSays;
    var all := Numbered(us, 0);
    SaidNumbered(us, 0);
    AllOwners(all);
    OwnersCounted(all);
  }

  lemma FirstPlan(events: seq<Utterance>, before: File)
    requires OwnerSays(events) && |events| == 3
    requires before == File(CodexFile(AsEvents(events)), false, false)
    ensures Decide(None, before, Reingesting()).Export?
    ensures var o := Decide(None, before, Reingesting()).order;
            && o.entry == Fresh([]) && o.session == events && o.earlier == [] && o.cursor.file == Some(before)
            && o.parts == Parts(Numbered(events, 0), MIN_PART_CHARS)
  {
    hide Conclude, Increment, OwnerSays, Read, AsEvents, Parts;
    ReadEvents(events, before);
    FreshIncrement(events, []);
    AllConcludes(Fresh([]), events, before, Reingesting(), [], false);
    var all := Numbered(events, 0);
    ConcludeShape(Fresh([]), events, before, Reingesting(), [], Cut(all, all), false, false);
  }

  /** An order of one part, carried out without interruption. */
  lemma OnePart(key: nat, d: Disk, o: Order)
    requires |o.parts| == 1 && HasOwner(Said(o.parts[0]))
    ensures var after := ExportFrom(key, d, o, 0, o.entry, []);
            && after.entry.Some? && !HasPending(after)
            && after.entry.value.cursor
               == Acknowledged(PartStep(o, 0, o.entry), Accept(d.library, PartPayload(key, o, 0, o.entry)).1)
  {
    var payload, step := PartPayload(key, o, 0, o.entry), PartStep(o, 0, o.entry);
    CompletedState(d, payload, step);
    var next := Ingest(d, payload, step, Completed);
    hide Ingest;
    assert ExportFrom(key, d, o, 0, o.entry, []) == ExportFrom(key, next, o, 1, next.entry.value.cursor, []) == next;
  }

  /** The first pass: three owner events, one part. */
  lemma FirstPass(key: nat, events: seq<Utterance>, before: File)
    requires OwnerSays(events) && |events| == 3 && Chars(Numbered(events, 0)) <= MIN_PART_CHARS
    requires before == File(CodexFile(AsEvents(events)), false, false)
    ensures var d := Main(key, Disk(None, None, []), before, Reingesting(), []);
            && Inv(key, d) && d.entry.Some? && !HasPending(d)
            && (var c := d.entry.value.cursor;
                c.file == Some(before) && c.exported == events && c.exportedTurns == 3 && c.splitTurns == 0)
  {
    hide Inv, Decide, Ingest, AsEvents, ExportFrom;
    var empty, opts, all := Disk(None, None, []), Reingesting(), Numbered(events, 0);
    FirstPlan(events, before);
    var o := Decide(None, before, opts).order;
    assert o.parts == [all];
    SaidNumbered(events, 0);
    assert Said(all)[0].role == Owner;
    NothingYet(key);
    MainKeeps(key, empty, before, opts, []);
    OnePart(key, empty, o);
    assert Main(key, empty, before, opts, []) == ExportFrom(key, empty, o, 0, o.entry, []);
  }

  lemma SecondPlan(items: seq<Utterance>, before: File, after: File, c: Cursor)
    requires OwnerSays(items) && |items| == 3 && Read(after) == Ok(items)
    requires Extends(before, after) && before != after && !after.subagent && !after.conflict
    requires c.file == Some(before) && c.splitTurns == 0 && c.exportedTurns > 0
    requires !(multiset(c.exported) <= multiset(items))
    ensures Decide(Some(c), after, Reingesting()).Export?
    ensures var o := Decide(Some(c), after, Reingesting()).order;
            && o.entry == Fresh(c.sources) && o.parts == Parts(Numbered(items, 0), MIN_PART_CHARS)
            && o.earlier == c.exported && o.session == items
  {
    hide Conclude, OwnerSays, Read, Parts, Extends;
    var all := Numbered(items, 0);
    assert Increment(items, c).Err?;
    AllConcludes(Fresh(c.sources), items, after, Reingesting(), c.exported, true);
    ConcludeShape(Fresh(c.sources), items, after, Reingesting(), c.exported, Cut(all, all), false, true);
  }

  lemma Apart(events: seq<Utterance>, items: seq<Utterance>)
    requires events != [] && multiset(events) !! multiset(items)
    ensures !(multiset(events) <= multiset(items))
  {
    assert events[0] in multiset(events) && events[0] !in multiset(items);
  }

  /** The second pass, after the owner's words arrived as response items as well: a late reset,
      over the three events as its baseline. */
  lemma SecondPass(key: nat, events: seq<Utterance>, items: seq<Utterance>, before: File, after: File, d: Disk)
    requires OwnerSays(events) && OwnerSays(items) && |events| == 3 && |items| == 3
    requires Chars(Numbered(events, 0)) <= MIN_PART_CHARS
    requires multiset(events) !! multiset(items)
    requires before == File(CodexFile(AsEvents(events)), false, false)
    requires after == File(CodexFile(AsEvents(events) + AsItems(items)), false, false)
    requires d == Main(key, Disk(None, None, []), before, Reingesting(), [])
    ensures Extends(before, after) && Inv(key, d) && !HasPending(d)
    ensures Decide(PriorCursor(d), after, Reingesting()).Export?
    ensures var o := Decide(PriorCursor(d), after, Reingesting()).order;
            !Baselined(o) && o.parts == Parts(Numbered(items, 0), MIN_PART_CHARS)
            && o.earlier == events && o.session == items
  {
    hide Inv, Main, Decide, OwnerSays, Read, Parts;
    FirstPass(key, events, before);
    ReadItems(events, items, after);
    Apart(events, items);
    assert before != after by { assert |AsEvents(events)| != |AsEvents(events) + AsItems(items)|; }
    SecondPlan(items, before, after, d.entry.value.cursor);
  }

  /** Exchanges that do not fit one part make several. */
  lemma SeveralParts(items: seq<Utterance>)
    requires OwnerSays(items) && |items| > 1 && Chars(Numbered(items, 0)) > MIN_PART_CHARS
    ensures |Parts(Numbered(items, 0), MIN_PART_CHARS)| > 1
  {
    var all := Numbered(items, 0);
    var parts := Parts(all, MIN_PART_CHARS);
    SaidNumbered(items, 0);
    AllOwners(all);
    PartsConcatenate(all, MIN_PART_CHARS);
    if |parts| == 1 {
      FlattenOne(parts[0]);
      assert parts == [parts[0]];
      PartsBoundedWithOwner(all, MIN_PART_CHARS, 0);
      ExchangesCut(all);
    }
  }

  function Repeat(c: char, n: nat): (s: string)
    ensures |s| == n && forall i :: 0 <= i < n ==> s[i] == c
  {
    seq(n, i requires 0 <= i < n => c)
  }

  /** The owner says `text` at three successive instants. */
  function Thrice(from: int, text: string): seq<Utterance> {
    [Utterance(Owner, Say, from, text), Utterance(Owner, Say, from + 1, text), Utterance(Owner, Say, from + 2, text)]
  }

  lemma ThriceSays(from: int, text: string)
    requires text != [] && !Space(text[0])
    ensures OwnerSays(Thrice(from, text))
    ensures Chars(Numbered(Thrice(from, text), 0)) == 3 * |text|
  {
    assert !Blank(text);
    CharsThrice(Numbered(Thrice(from, text), 0), |text|);
  }

  lemma CharsThrice(all: seq<Turn>, n: nat)
    requires |all| == 3 && forall i :: 0 <= i < 3 ==> |all[i].said.text| == n
    ensures Chars(all) == 3 * n
  {
    assert all == [] + [all[0]] + [all[1]] + [all[2]];
    CharsConcat([], [all[0]]);
    CharsConcat([] + [all[0]], [all[1]]);
    CharsConcat([] + [all[0]] + [all[1]], [all[2]]);
  }

  lemma ThriceLength(from: int, text: string)
    ensures |Thrice(from, text)| == 3
  {
  }

  lemma {:induction false} ThriceApart(from: int, text: string, later: int, other: string)
    requires text != other
    ensures multiset(Thrice(from, text)) !! multiset(Thrice(later, other))
  {
    forall u | u in multiset(Thrice(from, text)) ensures u !in multiset(Thrice(later, other)) {
      assert u in Thrice(from, text) && u.text == text;
    }
  }

  /** THE COUNTEREXAMPLE, on a Codex transcript that was only appended to: one pass over three
      owner events, then three response items of 600 characters each, then a pass in reingest
      mode interrupted after its first part and one more. The account is wrong after the
      interruption, and afterwards the same turns stand in two sources. */
  lemma LateResetHappens(key: nat)
    ensures exists before: File, after: File :: Extends(before, after)
              && (var d := Main(key, Disk(None, None, []), before, Reingesting(), []);
                  var stopped := Main(key, d, after, Reingesting(), [Completed, NotStarted]);
                  && Inv(key, d) && !Inv(key, stopped)
                  && Doubled(key, Sync(key, stopped, after, Reingesting(), Completed, []).library))
  {
    hide Inv, Main, Decide, Sync, Doubled, Chars, Parts, Thrice, OwnerSays;
    var short, long := Repeat('a', 1), Repeat('x', 600);
    var events, items := Thrice(1, short), Thrice(4, long);
    ThriceSays(1, short);
    ThriceSays(4, long);
    ThriceApart(1, short, 4, long);
    ThriceLength(1, short);
    ThriceLength(4, long);
    var before := File(CodexFile(AsEvents(events)), false, false);
    var after := File(CodexFile(AsEvents(events) + AsItems(items)), false, false);
    var d := Main(key, Disk(None, None, []), before, Reingesting(), []);
    SeveralParts(items);
    SecondPass(key, events, items, before, after, d);
    Apart(events, items);
    var o := Decide(PriorCursor(d), after, Reingesting()).order;
    LateResetMiscounts(key, d, after, Reingesting(), o);
    LateResetRepeats(key, d, after, Reingesting(), o);
  }
}
