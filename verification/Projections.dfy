/** What the replay of a log is, project by project and in terms of the rows alone. */
module Projections {
  import opened Readers
  import opened Inventory

  ghost predicate NoRepeats<T>(s: seq<T>) {
    forall i, j :: 0 <= i < j < |s| ==> s[i] != s[j]
  }

  ghost predicate Mentions(log: seq<Row>, j: nat, id: nat) {
    j < |log| && log[j].project == id
  }

  /** The name is the last part of the path in the first row that mentions the project. */
  ghost predicate Named(p: Project, log: seq<Row>) {
    exists f: nat :: Mentions(log, f, p.id) && (forall j: nat :: j < f ==> !Mentions(log, j, p.id))
                     && p.name == (var path := log[f].place.path; if |path| > 0 then path[|path| - 1] else "")
  }

  ghost predicate Remote(log: seq<Row>, id: nat, remote: nat) {
    exists j: nat :: Mentions(log, j, id) && log[j].remote == Some(remote)
  }

  ghost predicate Located(log: seq<Row>, id: nat, place: Place) {
    exists j: nat :: Mentions(log, j, id) && log[j].place == place
  }

  ghost predicate Sourced(log: seq<Row>, id: nat, source: nat) {
    exists j: nat :: Mentions(log, j, id) && source in log[j].sources
  }

  /** A project has exactly the remotes, places and sources of its rows, each once. */
  ghost predicate Tells(p: Project, log: seq<Row>) {
    Named(p, log) && TellsLists(p, log)
  }

  /** The first row of `id` comes before any row of `other`. */
  ghost predicate Before(log: seq<Row>, id: nat, other: nat) {
    exists f: nat :: Mentions(log, f, id) && forall j: nat :: j <= f ==> !Mentions(log, j, other)
  }

  lemma MentionsNext(log: seq<Row>, row: Row, j: nat, id: nat)
    ensures Mentions(log + [row], j, id) <==> Mentions(log, j, id) || (j == |log| && row.project == id)
    ensures j < |log| ==> (log + [row])[j] == log[j]
    ensures (log + [row])[|log|] == row
  {
  }

  lemma SaidNext(log: seq<Row>, row: Row, id: nat, remote: nat, place: Place, source: nat)
    ensures Remote(log + [row], id, remote)
            <==> Remote(log, id, remote) || (row.project == id && row.remote == Some(remote))
    ensures Located(log + [row], id, place) <==> Located(log, id, place) || (row.project == id && row.place == place)
    ensures Sourced(log + [row], id, source)
            <==> Sourced(log, id, source) || (row.project == id && source in row.sources)
  {
    var more := log + [row];
    forall j: nat
      ensures Mentions(more, j, id) <==> Mentions(log, j, id) || (j == |log| && row.project == id)
      ensures j < |log| ==> more[j] == log[j]
    {
      MentionsNext(log, row, j, id);
    }
    assert more[|log|] == row;
    if row.project == id { assert Mentions(more, |log|, id); }
    forall j: nat | Mentions(log, j, id) ensures Mentions(more, j, id) && more[j] == log[j] {
    }
  }

  lemma {:induction false} MergedIs(a: seq<nat>, b: seq<nat>)
    requires NoRepeats(a)
    ensures NoRepeats(Merged(a, b)) && forall s :: s in Merged(a, b) <==> s in a || s in b
  {
    if b != [] {
      var front, last := b[..|b| - 1], b[|b| - 1];
      MergedIs(a, front);
      assert b == front + [last];
    }
  }

  lemma NamedNext(p: Project, log: seq<Row>, row: Row)
    requires Named(p, log)
    ensures Named(p, log + [row])
  {
    var f: nat :| Mentions(log, f, p.id) && (forall j: nat :: j < f ==> !Mentions(log, j, p.id))
                  && p.name == (var path := log[f].place.path; if |path| > 0 then path[|path| - 1] else "");
    forall j: nat
      ensures Mentions(log + [row], j, p.id) <==> Mentions(log, j, p.id) || (j == |log| && row.project == p.id)
    {
      MentionsNext(log, row, j, p.id);
    }
    assert (log + [row])[f] == log[f];
  }

  lemma FirstNamed(p: Project, log: seq<Row>, row: Row)
    requires row.project == p.id && forall j: nat :: !Mentions(log, j, p.id)
    requires p.name == (var path := row.place.path; if |path| > 0 then path[|path| - 1] else "")
    ensures Named(p, log + [row])
  {
    forall j: nat ensures Mentions(log + [row], j, p.id) <==> j == |log| {
      MentionsNext(log, row, j, p.id);
    }
    assert (log + [row])[|log|] == row;
  }

  /** The lists of a project before any row of it. */
  ghost predicate TellsLists(p: Project, log: seq<Row>) {
    && NoRepeats(p.remotes) && (forall remote: nat :: remote in p.remotes <==> Remote(log, p.id, remote))
    && NoRepeats(p.locations) && (forall place :: place in p.locations <==> Located(log, p.id, place))
    && NoRepeats(p.sources) && (forall source: nat :: source in p.sources <==> Sourced(log, p.id, source))
  }

  lemma GrownTells(p: Project, log: seq<Row>, row: Row)
    requires TellsLists(p, log) && row.project == p.id
    ensures TellsLists(Grown(p, row), log + [row])
  {
    hide Remote, Located, Sourced;
    var q := Grown(p, row);
    MergedIs(p.sources, row.sources);
    forall remote: nat ensures remote in q.remotes <==> Remote(log + [row], p.id, remote) {
      SaidNext(log, row, p.id, remote, row.place, 0);
    }
    forall place ensures place in q.locations <==> Located(log + [row], p.id, place) {
      SaidNext(log, row, p.id, 0, place, 0);
    }
    forall source: nat ensures source in q.sources <==> Sourced(log + [row], p.id, source) {
      SaidNext(log, row, p.id, 0, row.place, source);
    }
  }

  lemma OtherTells(p: Project, log: seq<Row>, row: Row)
    requires TellsLists(p, log) && row.project != p.id
    ensures TellsLists(p, log + [row])
  {
    hide Remote, Located, Sourced;
    forall remote: nat ensures Remote(log, p.id, remote) <==> Remote(log + [row], p.id, remote) {
      SaidNext(log, row, p.id, remote, row.place, 0);
    }
    forall place ensures Located(log, p.id, place) <==> Located(log + [row], p.id, place) {
      SaidNext(log, row, p.id, 0, place, 0);
    }
    forall source: nat ensures Sourced(log, p.id, source) <==> Sourced(log + [row], p.id, source) {
      SaidNext(log, row, p.id, 0, row.place, source);
    }
  }

  ghost predicate AllTold(ps: seq<Project>, log: seq<Row>) {
    forall i :: 0 <= i < |ps| ==> Tells(ps[i], log)
  }

  ghost predicate Present(ps: seq<Project>, id: nat) {
    exists i :: 0 <= i < |ps| && ps[i].id == id
  }

  ghost predicate AllPresent(ps: seq<Project>, log: seq<Row>) {
    forall j :: 0 <= j < |log| ==> Present(ps, log[j].project)
  }

  ghost predicate InOrder(ps: seq<Project>, log: seq<Row>) {
    forall i, k :: 0 <= i < k < |ps| ==> ps[i].id != ps[k].id && Before(log, ps[i].id, ps[k].id)
  }

  lemma BeforeNext(log: seq<Row>, row: Row, id: nat, other: nat)
    requires Before(log, id, other)
    ensures Before(log + [row], id, other)
  {
    var f: nat :| Mentions(log, f, id) && forall j: nat :: j <= f ==> !Mentions(log, j, other);
    forall j: nat | j <= f ensures !Mentions(log + [row], j, other) { MentionsNext(log, row, j, other); }
    MentionsNext(log, row, f, id);
  }

  lemma BeforeLast(log: seq<Row>, row: Row, p: Project)
    requires Named(p, log) && forall j: nat :: !Mentions(log, j, row.project)
    ensures Before(log + [row], p.id, row.project)
  {
    var f: nat :| Mentions(log, f, p.id) && (forall j: nat :: j < f ==> !Mentions(log, j, p.id))
                  && p.name == (var path := log[f].place.path; if |path| > 0 then path[|path| - 1] else "");
    forall j: nat | j <= f ensures !Mentions(log + [row], j, row.project) { MentionsNext(log, row, j, row.project); }
    MentionsNext(log, row, f, p.id);
  }

  lemma GrownNamed(p: Project, log: seq<Row>, row: Row)
    ensures Named(Grown(p, row), log) <==> Named(p, log)
  {
  }

  lemma KnownTold(ps: seq<Project>, log: seq<Row>, row: Row, i: nat)
    requires AllTold(ps, log) && InOrder(ps, log) && i < |ps| && ps[i].id == row.project
    ensures AllTold(ps[i := Grown(ps[i], row)], log + [row])
  {
    hide Named, TellsLists, Before;
    var after, more := ps[i := Grown(ps[i], row)], log + [row];
    forall k | 0 <= k < |after| ensures Tells(after[k], more) {
      assert Tells(ps[k], log);
      NamedNext(ps[k], log, row);
      if k == i {
        GrownTells(ps[k], log, row);
        GrownNamed(ps[k], more, row);
      } else {
        assert ps[k].id != ps[i].id;
        OtherTells(ps[k], log, row);
      }
    }
  }

  lemma NewTold(ps: seq<Project>, log: seq<Row>, row: Row, p: Project)
    requires AllTold(ps, log) && Tells(p, log + [row]) && !Present(ps, row.project)
    ensures AllTold(ps + [p], log + [row])
  {
    hide Named, TellsLists;
    var after, more := ps + [p], log + [row];
    forall k | 0 <= k < |after| ensures Tells(after[k], more) {
      if k < |ps| {
        assert Tells(ps[k], log) && ps[k].id != row.project;
        NamedNext(ps[k], log, row);
        OtherTells(ps[k], log, row);
      }
    }
  }

  lemma NewOrdered(ps: seq<Project>, log: seq<Row>, row: Row, p: Project)
    requires AllTold(ps, log) && AllPresent(ps, log) && InOrder(ps, log)
    requires p.id == row.project && !Present(ps, row.project)
    ensures InOrder(ps + [p], log + [row])
  {
    hide Named, TellsLists, Before;
    var after, more := ps + [p], log + [row];
    forall k, l | 0 <= k < l < |after| ensures after[k].id != after[l].id && Before(more, after[k].id, after[l].id) {
      assert Tells(ps[k], log);
      if l < |ps| {
        BeforeNext(log, row, ps[k].id, ps[l].id);
      } else {
        forall j: nat ensures !Mentions(log, j, row.project) { if j < |log| { assert Present(ps, log[j].project); } }
        BeforeLast(log, row, ps[k]);
      }
    }
  }

  lemma KnownOrdered(ps: seq<Project>, log: seq<Row>, row: Row, i: nat)
    requires InOrder(ps, log) && i < |ps|
    ensures InOrder(ps[i := Grown(ps[i], row)], log + [row])
  {
    hide Before;
    var after, more := ps[i := Grown(ps[i], row)], log + [row];
    forall k, l | 0 <= k < l < |after| ensures after[k].id != after[l].id && Before(more, after[k].id, after[l].id) {
      BeforeNext(log, row, ps[k].id, ps[l].id);
    }
  }

  lemma StillPresent(ps: seq<Project>, after: seq<Project>, log: seq<Row>, row: Row)
    requires AllPresent(ps, log) && |after| >= |ps| && (forall i :: 0 <= i < |ps| ==> after[i].id == ps[i].id)
    requires Present(after, row.project)
    ensures AllPresent(after, log + [row])
  {
    forall j | 0 <= j < |log + [row]| ensures Present(after, (log + [row])[j].project) {
      if j < |log| {
        assert Present(ps, log[j].project);
        var i :| 0 <= i < |ps| && ps[i].id == log[j].project;
        assert after[i].id == log[j].project;
      }
    }
  }

  lemma FirstTells(log: seq<Row>, row: Row)
    requires forall j: nat :: !Mentions(log, j, row.project)
    ensures Tells(Grown(Project(row.project, Name(row.place.path), [], [], []), row), log + [row])
  {
    hide Named;
    var blank := Project(row.project, Name(row.place.path), [], [], []);
    assert TellsLists(blank, log);
    GrownTells(blank, log, row);
    FirstNamed(Grown(blank, row), log, row);
  }

  lemma GrownKeepsId(p: Project, row: Row)
    ensures Grown(p, row).id == p.id
  {
  }

  lemma PresentMention(ps: seq<Project>, log: seq<Row>, j: nat)
    requires AllPresent(ps, log) && j < |log|
    ensures Present(ps, log[j].project)
  {
  }

  lemma NewTells(ps: seq<Project>, log: seq<Row>, row: Row)
    requires AllTold(ps, log) && AllPresent(ps, log) && InOrder(ps, log) && !Present(ps, row.project)
    ensures var after := ps + [Grown(Project(row.project, Name(row.place.path), [], [], []), row)];
            AllTold(after, log + [row]) && AllPresent(after, log + [row]) && InOrder(after, log + [row])
  {
    hide AllTold, AllPresent, InOrder, Grown, Tells, Name;
    var p := Grown(Project(row.project, Name(row.place.path), [], [], []), row);
    GrownKeepsId(Project(row.project, Name(row.place.path), [], [], []), row);
    forall j: nat ensures !Mentions(log, j, row.project) { if j < |log| { PresentMention(ps, log, j); } }
    FirstTells(log, row);
    NewTold(ps, log, row, p);
    NewOrdered(ps, log, row, p);
    assert (ps + [p])[|ps|].id == row.project;
    StillPresent(ps, ps + [p], log, row);
  }

  lemma KnownTells(ps: seq<Project>, log: seq<Row>, row: Row, i: nat)
    requires AllTold(ps, log) && AllPresent(ps, log) && InOrder(ps, log) && i < |ps| && ps[i].id == row.project
    ensures var after := ps[i := Grown(ps[i], row)];
            AllTold(after, log + [row]) && AllPresent(after, log + [row]) && InOrder(after, log + [row])
  {
    hide AllTold, AllPresent, InOrder, Grown, Tells;
    GrownKeepsId(ps[i], row);
    KnownTold(ps, log, row, i);
    KnownOrdered(ps, log, row, i);
    assert ps[i := Grown(ps[i], row)][i].id == row.project;
    StillPresent(ps, ps[i := Grown(ps[i], row)], log, row);
  }

  /** THE REPLAY. One project per id the rows mention, in the order of first mention, named by the
      last part of its first path, with exactly the remotes, places and sources its rows give. */
  lemma {:induction false} ReplayIs(log: seq<Row>)
    ensures AllTold(Replay(log), log) && AllPresent(Replay(log), log) && InOrder(Replay(log), log)
  {
    hide AllTold, AllPresent, InOrder, Grown;
    if log == [] {
      NothingTold();
    } else {
      var front, row := log[..|log| - 1], log[|log| - 1];
      var ps := Replay(front);
      ReplayIs(front);
      assert log == front + [row];
      var i := IndexOf(ps, row.project);
      if i < |ps| { KnownTells(ps, front, row, i); } else { NewTells(ps, front, row); }
    }
  }

  lemma NothingTold()
    ensures AllTold([], []) && AllPresent([], []) && InOrder([], [])
  {
  }

  /* ---------------------------------------------------------------- what a call starts from */

  /** The observer remembers the file at its present length and modification. */
  ghost predicate Fits(s: Shelf) {
    && s.live.Some? && s.live.value.bytes == Bytes(s.log) + s.file.slack
    && s.live.value.touched == s.file.touched
  }

  /** A call starts from the memory exactly if it fits the file, and else from the log and the projection,
      or a replay where that is not of the log's length; it cannot start if the log is needed and cannot
      be read. */
  lemma OpenedIff(s: Shelf)
    ensures Opened(s).None? <==> !Fits(s) && !s.file.readable
    ensures Opened(s).Some? ==> Opened(s).value.additions == [] && Opened(s).value.next == s.next
    ensures Fits(s) ==> Opened(s).value.projects == s.live.value.projects && Opened(s).value.known == s.live.value.known
    ensures !Fits(s) && s.file.readable ==>
              && (forall row :: row in Opened(s).value.known <==> row in s.log)
              && (s.projection.Some? && s.projection.value.bytes == Bytes(s.log) + s.file.slack ==>
                    Opened(s).value.projects == s.projection.value.projects)
              && (s.projection.None? || s.projection.value.bytes != Bytes(s.log) + s.file.slack ==>
                    Opened(s).value.projects == Replay(s.log))
  {
  }

  /* ---------------------------------------------------------------- the file */

  /** The characters an append put into the file: the whole lines, and of the next at most all but its
      line feed. */
  ghost function Put(rows: seq<Row>, whole: nat, part: nat): nat
    requires whole <= |rows|
  {
    Bytes(rows[..whole])
    + if whole == |rows| then 0 else if part < Size(rows[whole]) - 1 then part else Size(rows[whole]) - 1
  }

  lemma {:induction false} BytesConcat(a: seq<Row>, b: seq<Row>)
    ensures Bytes(a + b) == Bytes(a) + Bytes(b)
  {
    if b == [] {
      assert a + b == a;
    } else {
      BytesConcat(a, b[..|b| - 1]);
      assert (a + b)[..|a + b| - 1] == a + b[..|b| - 1];
    }
  }

  lemma BytesPositive(rows: seq<Row>)
    ensures Bytes(rows) == 0 <==> rows == []
  {
  }

  /** What an append leaves: the file grows by what was put, ends with a line feed if that ends with one
      or nothing was put, and can be read if it could, what was put starts a line and every line put
      is a row, with or without its line feed; those are the rows it then has. */
  lemma AppendingIff(log: seq<Row>, file: File, rows: seq<Row>, whole: nat, part: nat)
    requires whole <= |rows|
    ensures var (after, left) := Appending(log, file, rows, whole, part);
            var put, torn := Put(rows, whole, part), whole < |rows| && part > 0;
            var complete := torn && part >= Size(rows[whole]) - 1;
            && Bytes(after) + left.slack == Bytes(log) + file.slack + put
            && after == log + rows[..if complete then whole + 1 else whole]
            && (left.ended <==> if put == 0 then file.ended else !torn)
            && (left.readable <==> file.readable && (put > 0 ==> file.ended) && (torn ==> complete))
            && left.touched == file.touched + 1
  {
    BytesConcat(log, rows[..whole]);
    BytesPositive(rows[..whole]);
    if whole < |rows| {
      assert rows[..whole + 1] == rows[..whole] + [rows[whole]];
      assert [rows[whole]][..0] == [];
      BytesConcat(rows[..whole], [rows[whole]]);
      BytesConcat(log, rows[..whole + 1]);
    }
  }
}
