/** The incremental inventory equals the replay of its log, through crashes in the append and
    between the append and the projection; exactly when a failed touch makes it something else;
    and exactly when an append leaves a log that nothing can read or extend again. */
module InventoryRuns {
  import opened Readers
  import opened Inventory

  /* ---------------------------------------------------------------- a row twice is a row once */

  predicate Includes(p: Project, row: Row) {
    && row.place in p.locations && (row.remote.Some? ==> row.remote.value in p.remotes)
    && (forall x :: x in row.sources ==> x in p.sources)
  }

  predicate Covers(ps: seq<Project>, row: Row) {
    IndexOf(ps, row.project) < |ps| && Includes(ps[IndexOf(ps, row.project)], row)
  }

  lemma {:induction false} MergedKeeps(a: seq<nat>, b: seq<nat>)
    ensures forall x :: x in Merged(a, b) <==> x in a || x in b
    ensures (forall x :: x in b ==> x in a) ==> Merged(a, b) == a
  {
    if b != [] {
      MergedKeeps(a, b[..|b| - 1]);
      assert b == b[..|b| - 1] + [b[|b| - 1]];
    }
  }

  lemma GrownIncludes(p: Project, row: Row, other: Row)
    ensures Includes(Grown(p, row), row)
    ensures Includes(p, other) ==> Includes(Grown(p, row), other)
    ensures Includes(p, row) ==> Grown(p, row) == p
    ensures Grown(p, row).id == p.id
  {
    MergedKeeps(p.sources, row.sources);
  }

  lemma {:induction false} IndexAt(ps: seq<Project>, id: nat, i: nat)
    requires i < |ps| && ps[i].id == id && forall j :: 0 <= j < i ==> ps[j].id != id
    ensures IndexOf(ps, id) == i
  {
    if i > 0 { IndexAt(ps[1..], id, i - 1); }
  }

  lemma AbsorbCovers(ps: seq<Project>, row: Row, other: Row)
    ensures Covers(Absorb(ps, row), row)
    ensures Covers(ps, other) ==> Covers(Absorb(ps, row), other)
    ensures Covers(ps, row) ==> Absorb(ps, row) == ps
  {
    hide Includes, Grown;
    var i, j, after := IndexOf(ps, row.project), IndexOf(ps, other.project), Absorb(ps, row);
    if i < |ps| {
      GrownIncludes(ps[i], row, other);
      IndexAt(after, row.project, i);
    } else {
      GrownIncludes(Project(row.project, Name(row.place.path), [], [], []), row, other);
      IndexAt(after, row.project, |ps|);
    }
    if j < |ps| {
      if i == j { IndexAt(after, other.project, j); } else {
        assert forall k :: 0 <= k <= j ==> after[k].id == ps[k].id by {
          if i < |ps| { GrownIncludes(ps[i], row, other); }
        }
        IndexAt(after, other.project, j);
      }
    }
  }

  lemma {:induction false} ReplayCovers(log: seq<Row>, row: Row)
    requires row in log
    ensures Covers(Replay(log), row)
  {
    hide Absorb, Covers;
    var front, last := log[..|log| - 1], log[|log| - 1];
    AbsorbCovers(Replay(front), last, row);
    if row != last {
      assert log == front + [last];
      ReplayCovers(front, row);
    }
  }

  /** Replaying more rows changes nothing exactly when every one of them is covered already. */
  lemma {:induction false} CoveredIff(log: seq<Row>, more: seq<Row>)
    ensures Replay(log + more) == Replay(log) <==> forall row :: row in more ==> Covers(Replay(log), row)
  {
    hide Absorb, Covers;
    if more == [] {
      assert log + more == log;
    } else {
      var front, last := more[..|more| - 1], more[|more| - 1];
      assert more == front + [last];
      Appended(log, front, last);
      CoveredIff(log, front);
      AbsorbCovers(Replay(log), last, last);
      if Replay(log + more) == Replay(log) {
        forall row | row in more ensures Covers(Replay(log), row) { ReplayCovers(log + more, row); }
      }
    }
  }

  /* ---------------------------------------------------------------- one call in memory */

  /** The lists of a call fit together: ids are given out once, and every row it takes for
      recorded is covered by its projects. */
  predicate Coherent(m: Memo, log: seq<Row>) {
    && Given(m.projects, m.next)
    && RowsIn(log + m.additions) <= m.known
    && (forall row :: row in m.known ==> Covers(m.projects, row))
  }

  lemma {:induction false} UnusedIndex(ps: seq<Project>, id: nat)
    requires forall i :: 0 <= i < |ps| ==> ps[i].id != id
    ensures IndexOf(ps, id) == |ps|
  {
  }

  /** Updating the matched project in place is absorbing the row made for it. */
  lemma NoteIsAbsorb(m: Memo, item: Observation)
    requires item.path.Some? && Given(m.projects, m.next)
    ensures Note(m, item).projects == Absorb(m.projects, RowFor(m, item))
  {
    hide Match, Grown;
    var row := RowFor(m, item);
    var i := Match(m.projects, row.place, item.remote);
    if i < |m.projects| { IndexAt(m.projects, row.project, i); } else { UnusedIndex(m.projects, m.next); }
  }

  lemma Appended(log: seq<Row>, additions: seq<Row>, row: Row)
    ensures Replay(log + (additions + [row])) == Absorb(Replay(log + additions), row)
    ensures RowsIn(log + (additions + [row])) == RowsIn(log + additions) + {row}
  {
    hide Absorb;
    var all := log + (additions + [row]);
    assert all == (log + additions) + [row];
    assert all[..|all| - 1] == log + additions;
  }

  /** The projects change only by a row that is new, and then by absorbing it. */
  lemma NoteSteps(m: Memo, item: Observation, log: seq<Row>)
    requires Coherent(m, log) && item.path.Some?
    ensures var after, row := Note(m, item), RowFor(m, item);
            if row in m.known then after == m.(next := after.next)
            else after.projects == Absorb(m.projects, row) && after.known == m.known + {row}
                 && after.additions == m.additions + [row]
  {
    hide Absorb, Covers, Match, Grown;
    var row := RowFor(m, item);
    NoteIsAbsorb(m, item);
    AbsorbCovers(m.projects, row, row);
    assert row in m.known ==> m.known + {row} == m.known;
  }

  lemma NoteCoherent(m: Memo, item: Observation, log: seq<Row>)
    requires Coherent(m, log)
    ensures Coherent(Note(m, item), log)
  {
    hide Absorb, Covers, Note, RowFor, Given, Replay;
    NoteNothing(m, item);
    if item.path.Some? {
      var after, row := Note(m, item), RowFor(m, item);
      NoteGiven(m, item);
      NoteSteps(m, item, log);
      if row !in m.known {
        Appended(log, m.additions, row);
        forall other | other in after.known ensures Covers(after.projects, other) {
          AbsorbCovers(m.projects, row, other);
        }
      }
    }
  }

  lemma NoteNothing(m: Memo, item: Observation)
    ensures item.path.None? ==> Note(m, item) == m
  {
  }

  lemma NoteReplays(m: Memo, item: Observation, log: seq<Row>)
    requires Coherent(m, log) && m.projects == Replay(log + m.additions)
    ensures var after := Note(m, item); after.projects == Replay(log + after.additions)
  {
    if item.path.Some? {
      hide Absorb, Covers, Note, RowFor, Coherent;
      NoteSteps(m, item, log);
      Appended(log, m.additions, RowFor(m, item));
    } else {
      assert Note(m, item) == m;
    }
  }

  lemma {:induction false} NoteAllCoherent(m: Memo, items: seq<Observation>, log: seq<Row>)
    requires Coherent(m, log)
    ensures Coherent(NoteAll(m, items), log) && m.next <= NoteAll(m, items).next
  {
    hide Coherent, RowFor, Match, Grown;
    if items != [] {
      var front := NoteAll(m, items[..|items| - 1]);
      NoteAllCoherent(m, items[..|items| - 1], log);
      NoteCoherent(front, items[|items| - 1], log);
    }
  }

  /** What a call makes of a replay is the replay of what it appends. */
  lemma {:induction false} NoteAllReplays(m: Memo, items: seq<Observation>, log: seq<Row>)
    requires Coherent(m, log) && m.projects == Replay(log + m.additions)
    ensures var after := NoteAll(m, items); after.projects == Replay(log + after.additions)
  {
    hide Coherent, Note;
    if items != [] {
      NoteAllReplays(m, items[..|items| - 1], log);
      NoteAllCoherent(m, items[..|items| - 1], log);
      NoteReplays(NoteAll(m, items[..|items| - 1]), items[|items| - 1], log);
    }
  }

  /* ---------------------------------------------------------------- the shelf */

  /** What a caller of `projects` gets, if anything, is the replay of the log. */
  predicate Replayed(s: Shelf) { Projects(s) in {None, Some(Replay(s.log))} }

  /** A projection as long as the log says is its replay. */
  predicate Projected(s: Shelf) {
    s.projection.Some? ==>
      && s.projection.value.bytes <= Length(s)
      && (s.projection.value.bytes == Length(s) ==> s.projection.value.projects == Replay(s.log))
  }

  /** The observer's memory is the replay of the log, if it has one that it will use. */
  predicate Trusted(s: Shelf) {
    Current(s).Some? ==> Current(s).value.projects == Replay(s.log)
  }

  /** The rows the observer's memory takes for recorded are the rows of the log. */
  predicate Recorded(s: Shelf) {
    Current(s).Some? ==> Current(s).value.known == RowsIn(s.log)
  }

  /** Whatever failed before: a memory in use fits together and knows the log, and the projection
      its observer wrote last is the replay. */
  predicate Remembered(s: Shelf) {
    && (s.live.Some? ==> s.live.value.touched <= s.file.touched && Given(s.live.value.projects, s.next))
    && (Current(s).Some? ==>
          && Coherent(Memo(s.live.value.projects, s.live.value.known, [], s.next), s.log)
          && s.live.value.written == Replay(s.log))
  }

  predicate Good(s: Shelf) {
    Given(Replay(s.log), s.next) && Projected(s) && Remembered(s)
  }

  lemma GoodReplayed(s: Shelf)
    requires Good(s)
    ensures Replayed(s) && (s.file.readable ==> Projects(s) == Some(Replay(s.log)))
  {
  }

  predicate Opens(s: Shelf, observer: bool) { Opened(Beginning(s, observer)).Some? }

  lemma OpenedCoherent(s: Shelf, observer: bool)
    requires Good(s) && Opens(s, observer)
    ensures var begun := Opened(Beginning(s, observer)).value;
            && Coherent(begun, s.log) && begun.additions == [] && begun.next == s.next
            && ((observer ==> Trusted(s)) ==> begun.projects == Replay(s.log))
  {
    hide Covers, Given, Replay, Bytes;
    var start := Beginning(s, observer);
    assert s.log + [] == s.log;
    if Current(start).None? {
      forall row | row in s.log ensures Covers(Replay(s.log), row) { ReplayCovers(s.log, row); }
    }
  }

  /** What a call that starts makes of its batch. */
  function Noted(s: Shelf, items: seq<Observation>, observer: bool): Memo
    requires Opens(s, observer)
  {
    NoteAll(Opened(Beginning(s, observer)).value, items)
  }

  lemma NotedCoherent(s: Shelf, items: seq<Observation>, observer: bool)
    requires Good(s) && Opens(s, observer)
    ensures Coherent(Noted(s, items, observer), s.log) && s.next <= Noted(s, items, observer).next
    ensures (observer ==> Trusted(s)) ==>
              Noted(s, items, observer).projects == Replay(s.log + Noted(s, items, observer).additions)
  {
    hide Good, Coherent, Trusted, Replay, NoteAll;
    OpenedCoherent(s, observer);
    var m := Opened(Beginning(s, observer)).value;
    NoteAllCoherent(m, items, s.log);
    assert s.log + m.additions == s.log;
    if observer ==> Trusted(s) { NoteAllReplays(m, items, s.log); }
  }

  /** How many rows of an append are in the file. */
  function StoredRows(additions: seq<Row>, outcome: Outcome): (k: nat)
    ensures k <= |additions|
  {
    if additions == [] || outcome == Untouched then 0
    else if outcome.Stopped? && outcome.rows < |additions|
    then outcome.rows + (if outcome.part >= Size(additions[outcome.rows]) - 1 then 1 else 0)
    else |additions|
  }

  lemma {:induction false} BytesSplit(log: seq<Row>, more: seq<Row>)
    ensures Bytes(log + more) == Bytes(log) + Bytes(more)
  {
    if more == [] {
      assert log + more == log;
    } else {
      assert (log + more)[..|log + more| - 1] == log + more[..|more| - 1];
      BytesSplit(log, more[..|more| - 1]);
    }
  }

  lemma {:induction false} BytesBound(rows: seq<Row>)
    ensures Bytes(rows) >= 3 * |rows|
  {
    if rows != [] { BytesBound(rows[..|rows| - 1]); }
  }

  /** An append adds some rows, and makes the file longer if it changes it. */
  lemma StoredGrows(log: seq<Row>, file: File, additions: seq<Row>, outcome: Outcome)
    ensures var (l, f) := Stored(log, file, additions, outcome);
            && l == log + additions[..StoredRows(additions, outcome)]
            && (if additions == [] || outcome == Untouched then f == file else f.touched == file.touched + 1)
            && Bytes(l) + f.slack >= Bytes(log) + file.slack
            && (Bytes(l) + f.slack == Bytes(log) + file.slack ==> l == log)
            && (!file.readable ==> !f.readable)
  {
    assert log + [] == log && additions[..0] == [] && additions[..|additions|] == additions;
    if additions != [] && outcome != Untouched {
      var torn := outcome.Stopped? && outcome.rows < |additions|;
      AppendingGrows(log, file, additions, if torn then outcome.rows else |additions|,
                     if torn then outcome.part else 0);
    }
  }

  lemma AppendingGrows(log: seq<Row>, file: File, rows: seq<Row>, whole: nat, part: nat)
    requires whole <= |rows|
    ensures var (l, f) := Appending(log, file, rows, whole, part);
            var k := whole + if whole < |rows| && part > 0 && part >= Size(rows[whole]) - 1 then 1 else 0;
            && l == log + rows[..k] && f.touched == file.touched + 1 && (f.readable ==> file.readable)
            && Bytes(l) + f.slack >= Bytes(log) + file.slack
            && (Bytes(l) + f.slack == Bytes(log) + file.slack ==> l == log)
  {
    var k := whole + if whole < |rows| && part > 0 && part >= Size(rows[whole]) - 1 then 1 else 0;
    hide Size;
    BytesSplit(log, rows[..k]);
    BytesBound(rows[..k]);
    assert log + [] == log && rows[..0] == [];
  }

  /** What one call leaves behind. */
  lemma Outcomes(s: Shelf, items: seq<Observation>, observer: bool, outcome: Outcome)
    requires items != [] && Opens(s, observer)
    ensures var m, after := Noted(s, items, observer), Observe(s, items, observer, outcome);
            && (after.log, after.file) == Stored(s.log, s.file, m.additions, outcome) && after.next == m.next
            && (!observer ==> after.live == s.live)
            && (observer && outcome.Written? ==>
                  after.live == Some(Live(m.projects, m.known, m.projects, Length(after), after.file.touched)))
            && (observer && !outcome.Written? ==> after.live == Touched(s, m))
            && after.projection == (if outcome.Written? && !Repeats(Beginning(s, observer), m)
                                    then Some(Projection(Length(after), m.projects)) else s.projection)
  {
    hide NoteAll, Bytes, Stored, Opened, Current, Touched, Repeats, Projects, RowsIn;
  }

  lemma Refused(s: Shelf, items: seq<Observation>, observer: bool, outcome: Outcome)
    requires items != [] && !Opens(s, observer)
    ensures Observe(s, items, observer, outcome) == s.(live := if observer then None else s.live)
    ensures observer ==> Current(s).None?
  {
  }

  /** Ids of a log are given out once, however its rows came about. */
  lemma {:induction false} ReplayGiven(log: seq<Row>, next: nat)
    ensures Given(Replay(log), next) <==> forall row :: row in log ==> row.project < next
  {
    hide Grown;
    if log != [] {
      var front, last := log[..|log| - 1], log[|log| - 1];
      assert log == front + [last];
      ReplayGiven(front, next);
      AbsorbGiven(Replay(front), last, next);
    }
  }

  lemma AbsorbGiven(ps: seq<Project>, row: Row, next: nat)
    ensures Given(Absorb(ps, row), next) <==> Given(ps, next) && row.project < next
  {
    hide Grown;
    var i, after := IndexOf(ps, row.project), Absorb(ps, row);
    var p := if i < |ps| then ps[i] else Project(row.project, Name(row.place.path), [], [], []);
    GrownIncludes(p, row, row);
    assert after[i].id == row.project;
    if Given(after, next) {
      forall j | 0 <= j < |ps| ensures ps[j].id == after[j].id { }
    }
  }

  lemma CoveredBelow(ps: seq<Project>, row: Row, next: nat)
    requires Given(ps, next) && Covers(ps, row)
    ensures row.project < next
  {
  }

  lemma CoherentRows(m: Memo, log: seq<Row>, k: nat)
    requires Coherent(m, log) && k <= |m.additions|
    ensures Given(m.projects, m.next) && Given(Replay(log + m.additions[..k]), m.next)
  {
    hide Given, Replay, Covers;
    forall row | row in log + m.additions[..k] ensures row.project < m.next {
      assert row in RowsIn(log + m.additions);
      CoveredBelow(m.projects, row, m.next);
    }
    ReplayGiven(log + m.additions[..k], m.next);
  }

  /** A call that is completed, on an observer's memory. */
  predicate Completes(items: seq<Observation>, observer: bool, outcome: Outcome) {
    items != [] && observer && outcome.Written?
  }

  lemma CoherentLater(m: Memo, log: seq<Row>, next: nat)
    requires Coherent(m, log) && m.next <= next
    ensures Coherent(Memo(m.projects, m.known, [], next), log + m.additions)
    ensures Coherent(Memo(m.projects, m.known, [], next), log)
  {
    hide Covers;
    assert log + m.additions + [] == log + m.additions && log + [] == log;
    assert RowsIn(log) <= RowsIn(log + m.additions);
  }

  lemma RememberedLater(s: Shelf, items: seq<Observation>, observer: bool, outcome: Outcome)
    requires Good(s) && items != [] && (Completes(items, observer, outcome) ==> Trusted(s)) && Opens(s, observer)
    ensures Remembered(Observe(s, items, observer, outcome))
  {
    hide Observe, NoteAll, Replay, Bytes, Opened, Coherent, Stored, Size, Opens, Given;
    var m, after := Noted(s, items, observer), Observe(s, items, observer, outcome);
    NotedCoherent(s, items, observer);
    CoherentRows(m, s.log, 0);
    Outcomes(s, items, observer, outcome);
    StoredGrows(s.log, s.file, m.additions, outcome);
    CoherentLater(m, s.log, m.next);
    assert m.additions[..|m.additions|] == m.additions && s.log + [] == s.log;
    if observer && !outcome.Written? && Current(after).Some? {
      assert after.log == s.log && Current(s).Some?;
    }
    if !observer && s.live.Some? {
      GivenLater(s.live.value.projects, s.next, after.next);
      if Current(after).Some? {
        assert after.log == s.log && Current(s).Some?;
        CoherentLater(Memo(s.live.value.projects, s.live.value.known, [], s.next), s.log, after.next);
      }
    }
  }

  lemma GivenLater(ps: seq<Project>, next: nat, later: nat)
    requires Given(ps, next) && next <= later
    ensures Given(ps, later)
  {
  }

  /** Every call leaves the shelf good, provided that a completed one begins on a memory that is
      the replay. */
  lemma ObserveKeeps(s: Shelf, items: seq<Observation>, observer: bool, outcome: Outcome)
    requires Good(s) && (Completes(items, observer, outcome) ==> Trusted(s))
    ensures Good(Observe(s, items, observer, outcome))
  {
    hide Observe, NoteAll, Replay, Bytes, Opened, Coherent, Remembered, Trusted, Given, Stored, Size, Opens;
    if items != [] && Opens(s, observer) {
      var m, after := Noted(s, items, observer), Observe(s, items, observer, outcome);
      NotedCoherent(s, items, observer);
      Outcomes(s, items, observer, outcome);
      RememberedLater(s, items, observer, outcome);
      CoherentRows(m, s.log, StoredRows(m.additions, outcome));
      StoredGrows(s.log, s.file, m.additions, outcome);
      assert m.additions[..|m.additions|] == m.additions;
    } else if items != [] {
      Refused(s, items, observer, outcome);
      ForgottenGood(s);
    } else {
      assert Observe(s, items, observer, outcome) == s by { NothingObserved(s, observer, outcome); }
    }
  }

  lemma NothingObserved(s: Shelf, observer: bool, outcome: Outcome)
    ensures Observe(s, [], observer, outcome) == s
  {
  }

  lemma ForgottenGood(s: Shelf)
    requires Good(s)
    ensures Good(s.(live := None))
  {
  }

  /* ---------------------------------------------------------------- the failed touch */

  /** What a failed touch loses: the rows of an observer whose memory stays in use. */
  function Lost(s: Shelf, items: seq<Observation>, observer: bool, outcome: Outcome): seq<Row> {
    if items != [] && observer && outcome == Untouched && Current(s).Some?
    then Noted(s, items, observer).additions
    else []
  }

  /** It does harm when the replay does not cover one of them already. */
  predicate Harms(s: Shelf, items: seq<Observation>, observer: bool, outcome: Outcome) {
    exists row :: row in Lost(s, items, observer, outcome) && !Covers(Replay(s.log), row)
  }

  /** Only a failed touch that does harm makes a memory stray from the log. */
  lemma TrustIff(s: Shelf, items: seq<Observation>, observer: bool, outcome: Outcome)
    requires Good(s) && Trusted(s)
    ensures Trusted(Observe(s, items, observer, outcome)) <==> !Harms(s, items, observer, outcome)
  {
    hide Observe, Noted, Good, Harms, Lost, Opens, Touched, Replay, Bytes, Stored;
    if items != [] && Opens(s, observer) {
      if observer {
        OwnTrust(s, items, outcome);
      } else {
        ForeignTrust(s, items, outcome);
      }
    } else if items != [] {
      Refused(s, items, observer, outcome);
      NothingLost(s, items, observer, outcome);
    } else {
      NothingObserved(s, observer, outcome);
      NothingLost(s, items, observer, outcome);
    }
  }

  lemma NothingLost(s: Shelf, items: seq<Observation>, observer: bool, outcome: Outcome)
    requires items == [] || !observer || !Opens(s, observer)
    ensures !Harms(s, items, observer, outcome)
  {
  }

  lemma OwnTrust(s: Shelf, items: seq<Observation>, outcome: Outcome)
    requires Good(s) && Trusted(s) && items != [] && Opens(s, true)
    ensures Trusted(Observe(s, items, true, outcome)) <==> !Harms(s, items, true, outcome)
  {
    hide Observe, NoteAll, Replay, Bytes, Opened, Coherent, Covers, Stored, Size, Opens, Good;
    var m, after := Noted(s, items, true), Observe(s, items, true, outcome);
    NotedCoherent(s, items, true);
    Outcomes(s, items, true, outcome);
    StoredGrows(s.log, s.file, m.additions, outcome);
    CoveredIff(s.log, m.additions);
    assert m.additions[..|m.additions|] == m.additions && s.log + [] == s.log;
  }

  lemma ForeignTrust(s: Shelf, items: seq<Observation>, outcome: Outcome)
    requires Good(s) && Trusted(s) && items != [] && Opens(s, false)
    ensures Trusted(Observe(s, items, false, outcome)) && !Harms(s, items, false, outcome)
  {
    hide Observe, NoteAll, Replay, Bytes, Opened, Coherent, Covers, Stored, Size, Opens;
    var after := Observe(s, items, false, outcome);
    Outcomes(s, items, false, outcome);
    StoredGrows(s.log, s.file, Noted(s, items, false).additions, outcome);
    if Current(after).Some? { assert after.file == s.file && after.log == s.log; }
  }

  /** WHAT A TRUSTED MEMORY IS FOR: the next completed call of the observer leaves an inventory
      that is the replay of the log, whatever it observes, exactly when its memory is. */
  lemma NextCallIff(s: Shelf)
    requires Good(s)
    ensures (forall items :: items != [] ==> Replayed(Observe(s, items, true, Written))) <==> Trusted(s)
  {
    hide Good, Observe, NoteAll, Replayed;
    if Trusted(s) {
      forall items | items != [] ensures Replayed(Observe(s, items, true, Written)) {
        ObserveKeeps(s, items, true, Written);
        GoodReplayed(Observe(s, items, true, Written));
      }
    } else {
      SpoiltAnswer(s);
      assert [NOWHERE] != [];
    }
  }

  lemma SpoiltAnswer(s: Shelf)
    requires Good(s) && !Trusted(s)
    ensures !Replayed(Observe(s, [NOWHERE], true, Written))
  {
    hide Replay, Bytes, Coherent;
    Once(Opened(s).value, NOWHERE);
  }

  /** WHEN A FAILED TOUCH DOES NO HARM: the observer's next completed call leaves the replay of
      the log, whatever it observes, exactly when the lost rows were covered by the replay
      already; that is, when appending them would have changed nothing. */
  lemma FailedTouchIff(s: Shelf, items: seq<Observation>, observer: bool)
    requires Good(s) && Trusted(s)
    ensures var after, lost := Observe(s, items, observer, Untouched), Lost(s, items, observer, Untouched);
            && ((forall more :: more != [] ==> Replayed(Observe(after, more, true, Written)))
                <==> forall row :: row in lost ==> Covers(Replay(s.log), row))
            && ((forall row :: row in lost ==> Covers(Replay(s.log), row)) <==> Replay(s.log + lost) == Replay(s.log))
  {
    hide Good, Trusted, Observe, Replay, Replayed, Covers, Lost;
    ObserveKeeps(s, items, observer, Untouched);
    TrustIff(s, items, observer, Untouched);
    NextCallIff(Observe(s, items, observer, Untouched));
    CoveredIff(s.log, Lost(s, items, observer, Untouched));
  }

  lemma LostMemory(s: Shelf, items: seq<Observation>)
    requires Good(s) && Trusted(s) && Current(s).Some? && items != []
    ensures var after, lost := Observe(s, items, true, Untouched), Lost(s, items, true, Untouched);
            && Current(after).Some? && after.log == s.log && after.file == s.file && after.projection == s.projection
            && Coherent(Opened(after).value, s.log + lost) && Opened(after).value.additions == []
            && Opened(after).value.projects == Replay(s.log + lost)
            && after.live.value.written == Replay(s.log)
  {
    hide NoteAll, Replay, Bytes, Coherent, Given;
    var m := Noted(s, items, true);
    NotedCoherent(s, items, true);
    Outcomes(s, items, true, Untouched);
    CoherentLater(m, s.log, m.next);
  }

  /** And for one such call: the answer is the replay of the log with the lost rows in it. */
  lemma NextCallAfter(s: Shelf, items: seq<Observation>, more: seq<Observation>)
    requires Good(s) && Trusted(s) && Current(s).Some? && items != [] && more != []
    ensures var after, lost := Observe(s, items, true, Untouched), Lost(s, items, true, Untouched);
            && Opens(after, true)
            && var next, added := Observe(after, more, true, Written), Noted(after, more, true).additions;
               && next.log == s.log + added
               && Projects(next) in {None, Some(Replay(s.log + lost + added))}
               && (Projects(next).None? ==> added == [] && Replay(s.log + lost) == Replay(s.log))
  {
    LostMemory(s, items);
    hide Observe, NoteAll, Replay, Bytes, Coherent, Given, Stored, Lost, Size, Good;
    var after, lost := Observe(s, items, true, Untouched), Lost(s, items, true, Untouched);
    var m := Noted(after, more, true);
    Outcomes(after, more, true, Written);
    StoredGrows(after.log, after.file, m.additions, Written);
    assert m.additions[..|m.additions|] == m.additions;
    assert s.log + lost + [] == s.log + lost;
    NoteAllReplays(Opened(after).value, more, s.log + lost);
  }

  /** What else it costs: the lost rows are taken for recorded, so they are never written. */
  lemma RecordedIff(s: Shelf, items: seq<Observation>, observer: bool)
    requires Good(s) && Recorded(s)
    ensures Recorded(Observe(s, items, observer, Untouched)) <==> Lost(s, items, observer, Untouched) == []
  {
    if items != [] && Opens(s, observer) {
      hide Good, Observe, NoteAll, Replay, Bytes;
      var m := Noted(s, items, observer);
      Outcomes(s, items, observer, Untouched);
      if observer && Current(s).Some? {
        NoteAllRecords(Opened(s).value, items, s.log);
        if m.additions != [] { assert m.additions[0] in m.known; }
      }
    } else if items != [] {
      Refused(s, items, observer, Untouched);
    }
  }

  lemma {:induction false} NoteAllRecords(m: Memo, items: seq<Observation>, log: seq<Row>)
    requires m.known == RowsIn(log) + RowsIn(m.additions) && forall row :: row in m.additions ==> row !in log
    ensures var after := NoteAll(m, items);
            && after.known == RowsIn(log) + RowsIn(after.additions)
            && forall row :: row in after.additions ==> row !in log
  {
    hide Match, Grown, RowFor;
    if items != [] {
      NoteAllRecords(m, items[..|items| - 1], log);
    }
  }

  /** A completed call appends to the log, and answers with every observation of its batch. */
  lemma CompletedCall(s: Shelf, items: seq<Observation>, observer: bool)
    requires Good(s) && items != [] && (observer ==> Trusted(s)) && Opens(s, observer)
    ensures var after := Observe(s, items, observer, Written);
            && after.log == s.log + Noted(s, items, observer).additions
            && Replayed(after) && (after.file.readable ==> Projects(after).Some?)
            && forall k :: 0 <= k < |items| && items[k].path.Some?
                           ==> Covers(Replay(after.log), RowFor(Noted(s, items[..k], observer), items[k]))
  {
    hide Observe, NoteAll, Replay, Bytes, Opened, Covers, Trusted, RowFor, Given, Stored, Opens, Size;
    var m, after := Noted(s, items, observer), Observe(s, items, observer, Written);
    ObserveKeeps(s, items, observer, Written);
    GoodReplayed(after);
    NotedCoherent(s, items, observer);
    Outcomes(s, items, observer, Written);
    StoredGrows(s.log, s.file, m.additions, Written);
    assert m.additions[..|m.additions|] == m.additions;
    forall k | 0 <= k < |items| && items[k].path.Some?
      ensures Covers(Replay(after.log), RowFor(Noted(s, items[..k], observer), items[k]))
    {
      NotedKnows(s, items, observer, k);
    }
  }

  lemma NotedKnows(s: Shelf, items: seq<Observation>, observer: bool, k: nat)
    requires Opens(s, observer) && k < |items| && items[k].path.Some?
    ensures RowFor(Noted(s, items[..k], observer), items[k]) in Noted(s, items, observer).known
  {
    hide RowFor, NoteAll;
    NoteAllKnows(Opened(Beginning(s, observer)).value, items, k);
  }

  lemma {:induction false} NoteAllKnows(m: Memo, items: seq<Observation>, k: nat)
    requires k < |items| && items[k].path.Some?
    ensures RowFor(NoteAll(m, items[..k]), items[k]) in NoteAll(m, items).known
  {
    hide Match, Grown, RowFor;
    if k < |items| - 1 {
      NoteAllKnows(m, items[..|items| - 1], k);
      assert items[..|items| - 1][..k] == items[..k];
    }
  }

  /* ---------------------------------------------------------------- runs */

  datatype Event =
    | Observing(items: seq<Observation>, observer: bool, outcome: Outcome)
    | PassEnds
    | Rebuilding
    | ProjectionLost

  function After(s: Shelf, e: Event): Shelf {
    match e
    case Observing(items, observer, outcome) => Observe(s, items, observer, outcome)
    case PassEnds => s.(live := None)
    case Rebuilding =>
      if s.file.readable then s.(projection := Some(Projection(Length(s), Replay(s.log)))) else s
    case ProjectionLost => s.(projection := None)
  }

  const BARE: Shelf := Shelf([], File(0, true, true, 0), None, 0, None)

  function Run(s: Shelf, events: seq<Event>): Shelf {
    if events == [] then s else After(Run(s, events[..|events| - 1]), events[|events| - 1])
  }

  /** A completed call on an observer's memory begins with one that is the replay. */
  predicate Sure(s: Shelf, e: Event) {
    e.Observing? && Completes(e.items, e.observer, e.outcome) ==> Trusted(s)
  }

  predicate SureRun(s: Shelf, events: seq<Event>) {
    events != [] ==>
      var front := events[..|events| - 1];
      SureRun(s, front) && Sure(Run(s, front), events[|events| - 1])
  }

  lemma StepGood(s: Shelf, e: Event)
    requires Good(s) && Sure(s, e)
    ensures Good(After(s, e))
  {
    hide Observe, Replay, Bytes, Coherent, Trusted;
    match e
    case Observing(items, observer, outcome) => ObserveKeeps(s, items, observer, outcome);
    case PassEnds =>
    case Rebuilding =>
    case ProjectionLost =>
  }

  lemma {:induction false} GoodRuns(events: seq<Event>)
    requires SureRun(BARE, events)
    ensures Good(Run(BARE, events))
  {
    hide Good, After, Trusted;
    if events == [] {
      BareGood();
    } else {
      var front := events[..|events| - 1];
      GoodRuns(front);
      StepGood(Run(BARE, front), events[|events| - 1]);
    }
  }

  lemma BareGood()
    ensures Good(BARE) && Trusted(BARE)
  {
  }

  /** THE INVENTORY IS THE REPLAY. After any sequence of batches by an observer and by others, with
      a touch that fails, a crash at any byte of an append or before the projection, projections
      rebuilt or lost and observers dropped, what `projects` answers is the replay of the log:
      same projects, same order, names, remotes, locations and sources. Calls on a memory spoilt
      by a failed touch may come and fail too; only one that is completed is excluded. */
  lemma InventoryIsReplay(events: seq<Event>)
    requires SureRun(BARE, events)
    ensures var s := Run(BARE, events);
            Replayed(s) && (s.file.readable ==> Projects(s) == Some(Replay(s.log)))
  {
    hide Run, SureRun, Replayed;
    GoodRuns(events);
    GoodReplayed(Run(BARE, events));
  }

  predicate HarmlessRun(s: Shelf, events: seq<Event>) {
    events != [] ==>
      var front, e := events[..|events| - 1], events[|events| - 1];
      HarmlessRun(s, front) && (e.Observing? ==> !Harms(Run(s, front), e.items, e.observer, e.outcome))
  }

  /** Runs in which no failed touch does harm are among them. */
  lemma {:induction false} HarmlessIsSure(events: seq<Event>)
    requires HarmlessRun(BARE, events)
    ensures SureRun(BARE, events) && Trusted(Run(BARE, events))
  {
    hide Good, Harms, Observe, Replay;
    if events == [] {
      BareGood();
    } else {
      var front, e := events[..|events| - 1], events[|events| - 1];
      HarmlessIsSure(front);
      GoodRuns(front);
      if e.Observing? { TrustIff(Run(BARE, front), e.items, e.observer, e.outcome); }
    }
  }

  /* ---------------------------------------------------------------- a torn line */

  /** A log that cannot be read, and no memory that could do without. */
  predicate Jammed(s: Shelf) { !s.file.readable && Current(s).None? }

  /** The call stops inside a line, or leaves one behind a line that lost its line feed. */
  predicate Tears(s: Shelf, items: seq<Observation>, observer: bool, outcome: Outcome) {
    && items != [] && Opens(s, observer) && outcome != Untouched
    && var rows := Noted(s, items, observer).additions;
       var whole := if outcome.Stopped? && outcome.rows < |rows| then outcome.rows else |rows|;
       var part := if whole < |rows| then outcome.part else 0;
       0 < part < Size(rows[whole]) - 1 || (!s.file.ended && whole + part > 0)
  }

  /** WHEN THE LOG CAN NO LONGER BE READ: exactly after such a call, and then for good. */
  lemma ReadableIff(s: Shelf, items: seq<Observation>, observer: bool, outcome: Outcome)
    requires s.file.readable
    ensures Observe(s, items, observer, outcome).file.readable <==> !Tears(s, items, observer, outcome)
  {
    hide Observe, NoteAll, Bytes, Opened, Size, Projects;
    if items == [] {
      NothingObserved(s, observer, outcome);
    } else if Opens(s, observer) {
      Outcomes(s, items, observer, outcome);
    } else {
      Refused(s, items, observer, outcome);
    }
  }

  /** From then on nothing is recorded, whoever observes and whatever is repaired beside the log;
      and an inventory that has no answer never has one again. */
  lemma {:induction false} JammedForGood(s: Shelf, events: seq<Event>)
    requires Jammed(s)
    ensures var after := Run(s, events);
            && Jammed(after) && after.log == s.log && after.file == s.file
            && (Projects(s).None? ==> Projects(after).None?)
  {
    hide Bytes, Replay, NoteAll;
    if events != [] {
      JammedForGood(s, events[..|events| - 1]);
    }
  }

  /** One way there: the first append stops inside its first line. */
  lemma TornLine(part: nat, observer: bool, events: seq<Event>)
    requires 0 < part < Size(WORK_ROW) - 1
    ensures var s := Run(Observe(BARE, [AT_WORK], observer, Stopped(0, part)), events);
            s.log == [] && Projects(s).None?
  {
    var s := Observe(BARE, [AT_WORK], observer, Stopped(0, part));
    FirstWork();
    assert [] + [WORK_ROW][..0] == [];
    JammedForGood(s, events);
  }

  /** The other: a line that lost only its line feed is read, until more is appended behind it. */
  lemma LostLineFeed(item: Observation, events: seq<Event>)
    requires item.path.Some? && RowFor(Memo([WORK], {WORK_ROW}, [], 1), item) != WORK_ROW
    ensures var s := Observe(BARE, [AT_WORK], true, Stopped(0, Size(WORK_ROW) - 1));
            var jammed := Observe(s, [item], false, Written);
            && Projects(s) == Some([WORK]) && !Jammed(s) && Jammed(jammed)
            && Run(jammed, events).log == jammed.log
  {
    hide Observe, Run, RowFor, Jammed;
    LostEnd();
    var s := Observe(BARE, [AT_WORK], true, Stopped(0, Size(WORK_ROW) - 1));
    JoinedLine(s, item);
    JammedForGood(Observe(s, [item], false, Written), events);
  }

  lemma LostEnd()
    ensures var s := Observe(BARE, [AT_WORK], true, Stopped(0, Size(WORK_ROW) - 1));
            && s == Shelf([WORK_ROW], File(-1, false, true, 1), None, 1, None)
            && Projects(s) == Some([WORK]) && !Jammed(s)
  {
    hide NoteAll, Replay;
    FirstWork();
    WorkReplayed();
    assert [] + [WORK_ROW][..1] == [WORK_ROW];
  }

  lemma JoinedLine(s: Shelf, item: Observation)
    requires s == Shelf([WORK_ROW], File(-1, false, true, 1), None, 1, None)
    requires item.path.Some? && RowFor(Memo([WORK], {WORK_ROW}, [], 1), item) != WORK_ROW
    ensures Jammed(Observe(s, [item], false, Written))
  {
    hide NoteAll, Replay, RowFor, Match, Grown, Bytes;
    var begun := Memo([WORK], {WORK_ROW}, [], 1);
    WorkReplayed();
    assert RowsIn(s.log) == {WORK_ROW} && Opened(s) == Some(begun);
    Once(begun, item);
    assert [] + [RowFor(begun, item)] == [RowFor(begun, item)];
  }

  lemma FirstWork()
    ensures Opened(BARE) == Some(Memo([], {}, [], 0))
    ensures NoteAll(Memo([], {}, [], 0), [AT_WORK]) == Memo([WORK], {WORK_ROW}, [WORK_ROW], 1)
  {
    assert RowsIn([]) == {};
    Once(Memo([], {}, [], 0), AT_WORK);
    NotedWork();
  }

  lemma WorkReplayed()
    ensures Replay([WORK_ROW]) == [WORK]
  {
    SourcesOnce();
    assert [WORK_ROW][..0] == [] && Replay([]) == [];
    assert Grown(Project(0, "work", [], [], []), WORK_ROW) == WORK;
  }

  /* ---------------------------------------------------------------- a harmful touch */

  const NOWHERE: Observation := Observation(1, None, None, [], 0)
  const AT_WORK: Observation := Observation(1, Some(["work"]), None, [7], 0)
  const WORK_ROW: Row := Row(0, Place(1, ["work"]), None, [7], 0)
  const WORK: Project := Project(0, "work", [], [Place(1, ["work"])], [7])

  lemma FirstCall()
    ensures Observe(BARE, [NOWHERE], true, Written)
            == Shelf([], File(0, true, true, 0), Some(Projection(0, [])), 0, Some(Live([], {}, [], 0, 0)))
  {
    assert RowsIn([]) == {};
    assert Opened(BARE) == Some(Memo([], {}, [], 0));
    Once(Memo([], {}, [], 0), NOWHERE);
  }

  lemma NotedWork()
    ensures Note(Memo([], {}, [], 0), AT_WORK) == Memo([WORK], {WORK_ROW}, [WORK_ROW], 1)
  {
    SourcesOnce();
    assert RowFor(Memo([], {}, [], 0), AT_WORK) == WORK_ROW;
    assert Grown(Project(0, "work", [], [], []), WORK_ROW) == WORK;
  }

  lemma SecondCall(s: Shelf)
    requires s == Shelf([], File(0, true, true, 0), Some(Projection(0, [])), 0, Some(Live([], {}, [], 0, 0)))
    ensures Observe(s, [AT_WORK], true, Untouched)
            == s.(next := 1, live := Some(Live([WORK], {WORK_ROW}, [], 0, 0)))
  {
    hide NoteAll, Replay;
    assert Opened(s) == Some(Memo([], {}, [], 0));
    FirstWork();
    assert Stored([], s.file, [WORK_ROW], Untouched) == ([], s.file);
  }

  lemma NotedAgain()
    ensures Note(Memo([WORK], {WORK_ROW}, [], 1), AT_WORK) == Memo([WORK], {WORK_ROW}, [], 1)
  {
    SourcesAgain();
    assert Hosts(WORK, Place(1, ["work"]), None);
    assert Match([WORK], Place(1, ["work"]), None) == 0;
    assert RowFor(Memo([WORK], {WORK_ROW}, [], 1), AT_WORK) == WORK_ROW;
    assert Grown(WORK, WORK_ROW) == WORK && [WORK][0 := WORK] == [WORK];
  }

  lemma ThirdCall(s: Shelf)
    requires s == Shelf([], File(0, true, true, 0), Some(Projection(0, [])), 1,
                        Some(Live([WORK], {WORK_ROW}, [], 0, 0)))
    ensures var after := Observe(s, [AT_WORK], true, Written);
            after.log == [] && after.file == s.file && after.projection == Some(Projection(0, [WORK]))
  {
    assert Opened(s) == Some(Memo([WORK], {WORK_ROW}, [], 1));
    Once(Memo([WORK], {WORK_ROW}, [], 1), AT_WORK);
    NotedAgain();
  }

  /** THE COUNTEREXAMPLE: a pass that has seen only a session without a project, then cannot
      touch the log for its first project, then sees it again. The projection is as long as the
      log says, and holds a project that no row of the log assigns. */
  lemma UnloggedProject()
    ensures var s := Observe(Observe(Observe(BARE, [NOWHERE], true, Written), [AT_WORK], true, Untouched),
                             [AT_WORK], true, Written);
            s.log == [] && Replay(s.log) == [] && Projects(s) == Some([WORK])
  {
    hide Observe;
    FirstCall();
    SecondCall(Observe(BARE, [NOWHERE], true, Written));
    ThirdCall(Observe(Observe(BARE, [NOWHERE], true, Written), [AT_WORK], true, Untouched));
  }

  lemma Once(m: Memo, item: Observation)
    ensures NoteAll(m, [item]) == Note(m, item)
  {
    assert [item][..0] == [] && NoteAll(m, []) == m;
  }

  lemma SourcesOnce()
    ensures Merged([], [7]) == [7]
  {
    assert [7][..0] == [] && Merged([], []) == [];
  }

  lemma SourcesAgain()
    ensures Merged([7], [7]) == [7]
  {
    assert [7][..0] == [] && Merged([7], []) == [7];
  }
}
