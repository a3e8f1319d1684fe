/** The project inventory (`observe`, `projects` and `replay_projects` in collection.py): an index
    kept up to date in memory, which has to be the replay of an append-only log.

    A digest of a record is represented by the record. A new id is the next of a counter. The
    file's modification time is the number of times it was touched. */
module Inventory {
  import opened Readers

  type Path = seq<string>
  datatype Place = Place(device: nat, path: Path)

  datatype Project = Project(id: nat, name: string, remotes: seq<nat>, locations: seq<Place>, sources: seq<nat>)

  /** `about` is the session, material and snapshot the row was made for. */
  datatype Row = Row(project: nat, place: Place, remote: Option<nat>, sources: seq<nat>, about: nat)

  /** `path` is None for an observation without a project, `remote` is already normalised. */
  datatype Observation = Observation(
    device: nat, path: Option<Path>, remote: Option<nat>, sources: seq<nat>, about: nat)

  function Name(path: Path): string { if path == [] then "" else path[|path| - 1] }

  /** `list(dict.fromkeys([*a, *b]))` for a list `a` without repeats. */
  function Merged(a: seq<nat>, b: seq<nat>): seq<nat> {
    if b == [] then a
    else
      var front := Merged(a, b[..|b| - 1]);
      if b[|b| - 1] in front then front else front + [b[|b| - 1]]
  }

  function Grown(p: Project, row: Row): Project {
    p.(remotes := if row.remote.Some? && row.remote.value !in p.remotes then p.remotes + [row.remote.value]
                  else p.remotes,
       locations := if row.place in p.locations then p.locations else p.locations + [row.place],
       sources := Merged(p.sources, row.sources))
  }

  /* ---------------------------------------------------------------- replay */

  function IndexOf(ps: seq<Project>, id: nat): (i: nat)
    ensures i <= |ps| && (i < |ps| ==> ps[i].id == id)
    ensures forall j :: 0 <= j < i ==> ps[j].id != id
  {
    if ps == [] then 0 else if ps[0].id == id then 0 else 1 + IndexOf(ps[1..], id)
  }

  function Absorb(ps: seq<Project>, row: Row): seq<Project> {
    var i := IndexOf(ps, row.project);
    if i < |ps| then ps[i := Grown(ps[i], row)]
    else ps + [Grown(Project(row.project, Name(row.place.path), [], [], []), row)]
  }

  function Replay(log: seq<Row>): seq<Project> {
    if log == [] then [] else Absorb(Replay(log[..|log| - 1]), log[|log| - 1])
  }

  /* ---------------------------------------------------------------- observing */

  function FirstRemote(ps: seq<Project>, remote: nat): (i: nat)
    ensures i <= |ps| && (i < |ps| ==> remote in ps[i].remotes)
    ensures forall j :: 0 <= j < i ==> remote !in ps[j].remotes
  {
    if ps == [] then 0 else if remote in ps[0].remotes then 0 else 1 + FirstRemote(ps[1..], remote)
  }

  predicate Hosts(p: Project, place: Place, remote: Option<nat>) {
    place in p.locations && (remote.None? || p.remotes == [])
  }

  function FirstHost(ps: seq<Project>, place: Place, remote: Option<nat>): (i: nat)
    ensures i <= |ps| && (i < |ps| ==> Hosts(ps[i], place, remote))
    ensures forall j :: 0 <= j < i ==> !Hosts(ps[j], place, remote)
  {
    if ps == [] then 0 else if Hosts(ps[0], place, remote) then 0 else 1 + FirstHost(ps[1..], place, remote)
  }

  predicate Knows(ps: seq<Project>, remote: Option<nat>) {
    exists j :: 0 <= j < |ps| && remote.Some? && remote.value in ps[j].remotes
  }

  /** The first project with this remote; without one, the first at this place that may have it;
      and none exactly when there is neither. */
  function Match(ps: seq<Project>, place: Place, remote: Option<nat>): (i: nat)
    ensures i <= |ps|
    ensures i < |ps| && Knows(ps, remote) ==>
              remote.value in ps[i].remotes && forall j :: 0 <= j < i ==> remote.value !in ps[j].remotes
    ensures i < |ps| && !Knows(ps, remote) ==>
              Hosts(ps[i], place, remote) && forall j :: 0 <= j < i ==> !Hosts(ps[j], place, remote)
    ensures i == |ps| <==> !Knows(ps, remote) && forall j :: 0 <= j < |ps| ==> !Hosts(ps[j], place, remote)
  {
    if remote.Some? && FirstRemote(ps, remote.value) < |ps| then FirstRemote(ps, remote.value)
    else FirstHost(ps, place, remote)
  }

  /** What one call of `observe` works on. */
  datatype Memo = Memo(projects: seq<Project>, known: set<Row>, additions: seq<Row>, next: nat)

  function RowFor(m: Memo, item: Observation): Row
    requires item.path.Some?
  {
    var place := Place(item.device, item.path.value);
    var i := Match(m.projects, place, item.remote);
    Row(if i < |m.projects| then m.projects[i].id else m.next, place, item.remote, item.sources, item.about)
  }

  function Note(m: Memo, item: Observation): Memo {
    if item.path.None? then m
    else
      var row := RowFor(m, item);
      var i := Match(m.projects, row.place, item.remote);
      var known := row in m.known;
      Memo(if i < |m.projects| then m.projects[i := Grown(m.projects[i], row)]
           else m.projects + [Grown(Project(m.next, Name(row.place.path), [], [], []), row)],
           m.known + {row},
           if known then m.additions else m.additions + [row],
           if i < |m.projects| then m.next else m.next + 1)
  }

  function NoteAll(m: Memo, items: seq<Observation>): Memo {
    if items == [] then m else Note(NoteAll(m, items[..|items| - 1]), items[|items| - 1])
  }

  /** How far one call got: the log could not be touched; it stopped after some rows and a part of
      the next were in the file; the projection could not be replaced; or all of it was done. */
  datatype Outcome = Untouched | Stopped(rows: nat, part: nat) | Unprojected | Written

  datatype Projection = Projection(bytes: int, projects: seq<Project>)

  /** An observer's memory between calls, the projection it wrote last, and the file revision
      both belong to. */
  datatype Live = Live(projects: seq<Project>, known: set<Row>, written: seq<Project>, bytes: int, touched: nat)

  /** The log as a file: `slack` is its length less that of its rows' lines, `ended` says that it
      ends with a line feed, and `readable` that every line is one row. */
  datatype File = File(slack: int, ended: bool, readable: bool, touched: nat)

  datatype Shelf = Shelf(log: seq<Row>, file: File, projection: Option<Projection>, next: nat, live: Option<Live>)

  /** The length of a row's line, with its line feed. */
  function Size(row: Row): nat { 3 + |row.sources| }

  function Bytes(log: seq<Row>): nat {
    if log == [] then 0 else Bytes(log[..|log| - 1]) + Size(log[|log| - 1])
  }

  function Length(s: Shelf): int { Bytes(s.log) + s.file.slack }

  function RowsIn(log: seq<Row>): set<Row> { set row | row in log }

  /** Writing some lines and a part of the next. A row without its line feed is still read; a
      shorter part is not, and neither is a line that more was written behind. */
  function Appending(log: seq<Row>, file: File, rows: seq<Row>, whole: nat, part: nat): (seq<Row>, File)
    requires whole <= |rows|
  {
    var torn := whole < |rows| && part > 0;
    var unended := torn && part >= Size(rows[whole]) - 1;
    var readable := file.readable && (!torn || unended) && (whole > 0 || torn ==> file.ended);
    if unended then (log + rows[..whole + 1], File(file.slack - 1, false, readable, file.touched + 1))
    else if torn then (log + rows[..whole], File(file.slack + part, false, readable, file.touched + 1))
    else (log + rows[..whole], File(file.slack, file.ended || whole > 0, readable, file.touched + 1))
  }

  /** What one call does to the file. */
  function Stored(log: seq<Row>, file: File, additions: seq<Row>, outcome: Outcome): (seq<Row>, File) {
    if additions == [] || outcome == Untouched then (log, file)
    else if outcome.Stopped? && outcome.rows < |additions|
    then Appending(log, file, additions, outcome.rows, outcome.part)
    else Appending(log, file, additions, |additions|, 0)
  }

  /** `projects`: the projection when it is as long as the log says, else a replay if that can be
      read. */
  function Projects(s: Shelf): Option<seq<Project>> {
    if s.projection.Some? && s.projection.value.bytes == Length(s) then Some(s.projection.value.projects)
    else if s.file.readable then Some(Replay(s.log))
    else None
  }

  /** The observer's memory, unless the file changed under it. */
  function Current(s: Shelf): Option<Live> {
    if s.live.Some? && s.live.value.bytes == Length(s) && s.live.value.touched == s.file.touched then s.live else None
  }

  /** What a call starts from: the memory, or what is read from the files. */
  function Opened(s: Shelf): Option<Memo> {
    var live := Current(s);
    if live.Some? then Some(Memo(live.value.projects, live.value.known, [], s.next))
    else if s.file.readable then Some(Memo(Projects(s).value, RowsIn(s.log), [], s.next))
    else None
  }

  /** What is left in the observer's memory when its call fails: the lists it had are the ones the
      call changed. */
  function Touched(s: Shelf, m: Memo): Option<Live> {
    var live := Current(s);
    if live.Some? then Some(live.value.(projects := m.projects, known := m.known)) else None
  }

  /** A call without an observer has no memory, and leaves an observer's alone. */
  function Beginning(s: Shelf, observer: bool): Shelf {
    if observer then s else s.(live := None)
  }

  /** An observer does not write the projection it wrote last again. */
  predicate Repeats(s: Shelf, m: Memo) {
    m.additions == [] && Current(s).Some? && Current(s).value.written == m.projects
  }

  function Observe(s: Shelf, items: seq<Observation>, observer: bool, outcome: Outcome): Shelf {
    if items == [] then s
    else
      var start := Beginning(s, observer);
      match Opened(start)
      case None => s.(live := if observer then None else s.live)
      case Some(begun) =>
        var m := NoteAll(begun, items);
        var (log, file) := Stored(s.log, s.file, m.additions, outcome);
        var failed := Shelf(log, file, s.projection, m.next, if observer then Touched(s, m) else s.live);
        if !outcome.Written? then failed
        else
          failed.(
            projection := if Repeats(start, m) then s.projection else Some(Projection(Length(failed), m.projects)),
            live := if observer then Some(Live(m.projects, m.known, m.projects, Length(failed), file.touched))
                    else s.live)
  }

  class ObservationLog {
    var log: seq<Row>
    var file: File
    var projection: Option<Projection>
    var next: nat
    var live: Option<Live>

    function State(): Shelf
      reads this
    {
      Shelf(log, file, projection, next, live)
    }

    constructor ()
      ensures State() == Shelf([], File(0, true, true, 0), None, 0, None)
    {
      log, file, projection, next, live := [], File(0, true, true, 0), None, 0, None;
    }

    /** The loop over one batch, on the lists of this call. */
    method Tally(begun: Memo, items: seq<Observation>) returns (m: Memo)
      requires begun.next == next
      modifies this`next
      ensures m == NoteAll(begun, items) && next == m.next
    {
      hide Grown, Match;
      var inventory, known, additions := begun.projects, begun.known, begun.additions;
      for k := 0 to |items|
        invariant Memo(inventory, known, additions, next) == NoteAll(begun, items[..k])
      {
        var item := items[k];
        assert items[..k + 1][..k] == items[..k];
        if item.path.None? { continue; }
        var place := Place(item.device, item.path.value);
        var i := Match(inventory, place, item.remote);
        var id := next;
        if i < |inventory| { id := inventory[i].id; }
        var row := Row(id, place, item.remote, item.sources, item.about);
        if i < |inventory| {
          inventory := inventory[i := Grown(inventory[i], row)];
        } else {
          inventory := inventory + [Grown(Project(id, Name(place.path), [], [], []), row)];
          next := next + 1;
        }
        if row !in known { additions := additions + [row]; }
        known := known + {row};
      }
      assert items[..|items|] == items;
      m := Memo(inventory, known, additions, next);
    }

    method Record(items: seq<Observation>, observer: bool, outcome: Outcome) returns (readable: bool)
      modifies this
      ensures State() == Observe(old(State()), items, observer, outcome)
      ensures readable <==> items == [] || old(Opened(Beginning(State(), observer))).Some?
    {
      hide NoteAll, Projects, Bytes;
      if items == [] { return true; }
      var start := Beginning(State(), observer);
      var begun := Opened(start);
      readable := begun.Some?;
      if !readable {
        if observer { live := None; }
        return;
      }
      var m := Tally(begun.value, items);
      if observer { live := Touched(start, m); }
      if m.additions != [] {
        if outcome == Untouched { return; }
        if outcome.Stopped? && outcome.rows < |m.additions| {
          var some := Appending(log, file, m.additions, outcome.rows, outcome.part);
          log, file := some.0, some.1;
          return;
        }
        var all := Appending(log, file, m.additions, |m.additions|, 0);
        log, file := all.0, all.1;
      }
      if outcome.Written? {
        if !Repeats(start, m) { projection := Some(Projection(Length(State()), m.projects)); }
        if observer { live := Some(Live(m.projects, m.known, m.projects, Length(State()), file.touched)); }
      }
    }
  }

  /* ---------------------------------------------------------------- identities */

  /** Ids are distinct and already given out. */
  predicate Given(ps: seq<Project>, next: nat) {
    && (forall i :: 0 <= i < |ps| ==> ps[i].id < next)
    && (forall i, j :: 0 <= i < j < |ps| ==> ps[i].id != ps[j].id)
  }

  /** One project per remote and one remote per project; a project without a remote is one place,
      and a place has at most one such project. */
  predicate Identities(ps: seq<Project>) {
    && (forall i :: 0 <= i < |ps| ==> |ps[i].remotes| <= 1 && ps[i].locations != []
                                      && (ps[i].remotes == [] ==> |ps[i].locations| == 1))
    && (forall i, j, r :: 0 <= i < j < |ps| && r in ps[i].remotes ==> r !in ps[j].remotes)
    && (forall i, j, l :: 0 <= i < j < |ps| && ps[i].remotes == [] && ps[j].remotes == [] && l in ps[i].locations
                          ==> l !in ps[j].locations)
  }

  lemma NewIdentity(ps: seq<Project>, place: Place, remote: Option<nat>, p: Project)
    requires Identities(ps) && Match(ps, place, remote) == |ps|
    requires p.remotes == (if remote.Some? then [remote.value] else []) && p.locations == [place]
    ensures Identities(ps + [p])
  {
    var more := ps + [p];
    forall i | 0 <= i < |ps| ensures more[i] == ps[i] && !Hosts(ps[i], place, remote) { }
    if remote.Some? {
      forall i | 0 <= i < |ps| ensures remote.value !in ps[i].remotes { }
    }
  }

  lemma GrownIdentity(ps: seq<Project>, place: Place, remote: Option<nat>, row: Row)
    requires Identities(ps) && Match(ps, place, remote) < |ps| && row.place == place && row.remote == remote
    ensures var i := Match(ps, place, remote); Identities(ps[i := Grown(ps[i], row)])
  {
    var i := Match(ps, place, remote);
    var p, grown := ps[i], Grown(ps[i], row);
    var more := ps[i := grown];
    assert grown.remotes == if remote.Some? then [remote.value] else p.remotes by {
      if remote.Some? && remote.value in p.remotes { assert p.remotes == [p.remotes[0]]; }
    }
    assert grown.remotes == [] ==> p.remotes == [] && grown.locations == p.locations;
    forall a, b, r | 0 <= a < b < |more| && r in more[a].remotes ensures r !in more[b].remotes {
      if a == i && p.remotes == [] { assert remote.Some? && r == remote.value; }
      if b == i && p.remotes == [] && remote.Some? { assert remote.value !in ps[a].remotes; }
    }
    forall a, b, l | 0 <= a < b < |more| && more[a].remotes == [] && more[b].remotes == [] && l in more[a].locations
      ensures l !in more[b].locations
    {
      assert ps[a].remotes == [] && ps[b].remotes == [] && l in ps[a].locations;
    }
  }

  lemma NoteGiven(m: Memo, item: Observation)
    requires Given(m.projects, m.next)
    ensures Given(Note(m, item).projects, Note(m, item).next)
  {
  }

  lemma NoteIdentities(m: Memo, item: Observation)
    requires Identities(m.projects)
    ensures Identities(Note(m, item).projects)
  {
    if item.path.Some? {
      var row := RowFor(m, item);
      if Match(m.projects, row.place, item.remote) < |m.projects| {
        GrownIdentity(m.projects, row.place, item.remote, row);
      } else {
        NewIdentity(m.projects, row.place, item.remote, Grown(Project(m.next, Name(row.place.path), [], [], []), row));
      }
    }
  }
}
