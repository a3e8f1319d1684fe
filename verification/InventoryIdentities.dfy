/** The identities of the inventory: one project per remote, one remote per project, one place for
    a project without a remote and one such project per place. They hold of what a call has in
    memory, always; and of the log's replay, exactly as long as no call starts on projects that
    would put a row where the replay has no remote for it. */
module InventoryIdentities {
  import opened Readers
  import opened Inventory
  import opened InventoryRuns

  /* ---------------------------------------------------------------- identities by id */

  function Holder(ps: seq<Project>, id: nat): Option<Project> {
    if IndexOf(ps, id) < |ps| then Some(ps[IndexOf(ps, id)]) else None
  }

  /** No project, or one without a remote. */
  predicate Unremoted(ps: seq<Project>, id: nat) {
    Holder(ps, id).Some? ==> Holder(ps, id).value.remotes == []
  }

  predicate StandsAt(ps: seq<Project>, id: nat, place: Place) {
    Holder(ps, id).Some? && place in Holder(ps, id).value.locations
  }

  predicate Claims(ps: seq<Project>, id: nat, remote: nat) {
    Holder(ps, id).Some? && remote in Holder(ps, id).value.remotes
  }

  /** Two projects without a remote at one place. */
  predicate Clash(ps: seq<Project>, id: nat, other: nat, place: Place) {
    id != other && Unremoted(ps, id) && Unremoted(ps, other) && StandsAt(ps, id, place) && StandsAt(ps, other, place)
  }

  predicate Single(p: Project) {
    |p.remotes| <= 1 && p.locations != [] && (p.remotes == [] ==> |p.locations| == 1)
  }

  lemma IdsApart(ps: seq<Project>, next: nat, i: nat)
    requires Given(ps, next) && i < |ps|
    ensures IndexOf(ps, ps[i].id) == i && Holder(ps, ps[i].id) == Some(ps[i])
  {
    IndexAt(ps, ps[i].id, i);
  }

  lemma IdentitiesById(ps: seq<Project>, next: nat)
    requires Given(ps, next)
    requires forall id :: Holder(ps, id).Some? ==> Single(Holder(ps, id).value)
    requires forall id, other, r :: id != other && Claims(ps, id, r) ==> !Claims(ps, other, r)
    requires forall id, other, place :: !Clash(ps, id, other, place)
    ensures Identities(ps)
  {
    forall i | 0 <= i < |ps| ensures Single(ps[i]) { IdsApart(ps, next, i); }
    forall i, j, r | 0 <= i < j < |ps| && r in ps[i].remotes ensures r !in ps[j].remotes {
      IdsApart(ps, next, i);
      IdsApart(ps, next, j);
      assert Claims(ps, ps[i].id, r) && !Claims(ps, ps[j].id, r);
    }
    forall i, j, l | 0 <= i < j < |ps| && ps[i].remotes == [] && ps[j].remotes == [] && l in ps[i].locations
      ensures l !in ps[j].locations
    {
      IdsApart(ps, next, i);
      IdsApart(ps, next, j);
      assert !Clash(ps, ps[i].id, ps[j].id, l);
    }
  }

  lemma SingleOf(ps: seq<Project>, id: nat)
    requires Identities(ps) && Holder(ps, id).Some?
    ensures Single(Holder(ps, id).value)
  {
  }

  lemma ClaimedOnce(ps: seq<Project>, id: nat, other: nat, remote: nat)
    requires Identities(ps) && id != other && Claims(ps, id, remote)
    ensures !Claims(ps, other, remote)
  {
    hide Single;
  }

  lemma NoClash(ps: seq<Project>, id: nat, other: nat, place: Place)
    requires Identities(ps)
    ensures !Clash(ps, id, other, place)
  {
    hide Single;
  }

  /* ---------------------------------------------------------------- one row, by id */

  function Begun(ps: seq<Project>, row: Row): Project {
    var p := Holder(ps, row.project);
    if p.Some? then p.value else Project(row.project, Name(row.place.path), [], [], [])
  }

  lemma AbsorbAt(ps: seq<Project>, row: Row, id: nat)
    ensures Holder(Absorb(ps, row), id)
            == if id == row.project then Some(Grown(Begun(ps, row), row)) else Holder(ps, id)
  {
    hide Grown;
    var i, j, after := IndexOf(ps, row.project), IndexOf(ps, id), Absorb(ps, row);
    GrownIncludes(Begun(ps, row), row, row);
    if id == row.project {
      IndexAt(after, id, i);
    } else if j < |ps| {
      assert forall k :: 0 <= k <= j ==> after[k].id == ps[k].id;
      IndexAt(after, id, j);
    } else {
      assert forall k :: 0 <= k < |after| ==> after[k].id != id;
      UnusedIndex(after, id);
    }
  }

  /** What a row does to projects seen by id. */
  lemma AbsorbById(ps: seq<Project>, row: Row, id: nat)
    ensures var after := Absorb(ps, row);
            && (id != row.project ==> Holder(after, id) == Holder(ps, id))
            && Holder(after, row.project).Some?
            && (Unremoted(after, row.project) <==> Unremoted(ps, row.project) && row.remote.None?)
            && (forall place :: StandsAt(after, row.project, place)
                                <==> StandsAt(ps, row.project, place) || place == row.place)
            && (forall r: nat :: Claims(after, row.project, r)
                                 <==> Claims(ps, row.project, r) || row.remote == Some(r))
  {
    hide Merged;
    AbsorbAt(ps, row, id);
    AbsorbAt(ps, row, row.project);
  }

  /* ---------------------------------------------------------------- a replay inside a memory */

  ghost predicate Inside(small: seq<Project>, large: seq<Project>) {
    && (forall id :: Holder(small, id).Some? ==> Holder(large, id).Some?)
    && (forall id, place :: StandsAt(small, id, place) ==> StandsAt(large, id, place))
    && (forall id, r :: Claims(small, id, r) ==> Claims(large, id, r))
  }

  lemma AbsorbInside(small: seq<Project>, large: seq<Project>, row: Row)
    requires Inside(small, large)
    ensures Inside(Absorb(small, row), Absorb(large, row))
  {
    hide Holder, StandsAt, Claims, Unremoted, Absorb;
    var s, l := Absorb(small, row), Absorb(large, row);
    forall id ensures Holder(s, id).Some? ==> Holder(l, id).Some? {
      AbsorbById(small, row, id);
      AbsorbById(large, row, id);
    }
    forall id, place | StandsAt(s, id, place) ensures StandsAt(l, id, place) {
      AbsorbById(small, row, id);
      AbsorbById(large, row, id);
      SameHolder(small, s, id);
      SameHolder(large, l, id);
    }
    forall id, r | Claims(s, id, r) ensures Claims(l, id, r) {
      AbsorbById(small, row, id);
      AbsorbById(large, row, id);
      SameHolder(small, s, id);
      SameHolder(large, l, id);
    }
  }

  lemma SameHolder(ps: seq<Project>, after: seq<Project>, id: nat)
    ensures Holder(ps, id) == Holder(after, id) ==>
              && (Unremoted(ps, id) <==> Unremoted(after, id))
              && (forall place :: StandsAt(ps, id, place) <==> StandsAt(after, id, place))
              && (forall r :: Claims(ps, id, r) <==> Claims(after, id, r))
  {
  }

  /** Projects that cover every row of a log include its replay. */
  lemma {:induction false} ReplayInside(log: seq<Row>, ps: seq<Project>)
    requires forall row :: row in log ==> Covers(ps, row)
    ensures Inside(Replay(log), ps)
  {
    hide Covers, Absorb, Holder, StandsAt, Claims;
    if log == [] {
      NothingInside(ps);
    } else {
      var front, last := log[..|log| - 1], log[|log| - 1];
      assert log == front + [last];
      ReplayInside(front, ps);
      AbsorbCovers(ps, last, last);
      AbsorbInside(Replay(front), ps, last);
    }
  }

  lemma NothingInside(ps: seq<Project>)
    ensures Inside([], ps)
  {
  }

  /* ---------------------------------------------------------------- what can go wrong */

  /** The project an observation at this place without a remote goes to. */
  function First(ps: seq<Project>, place: Place): Option<nat> {
    var i := FirstHost(ps, place, None);
    if i < |ps| then Some(ps[i].id) else None
  }

  /** Its row would put a project without a remote at a second place, now or with one more, or at
      a place that has such a project. */
  ghost predicate Splits(ps: seq<Project>, replay: seq<Project>, id: nat, place: Place) {
    && First(ps, place) == Some(id) && Unremoted(replay, id)
    && ((exists other :: other != place && (StandsAt(replay, id, other) || First(ps, other) == Some(id)))
        || (exists q :: q != id && Unremoted(replay, q) && StandsAt(replay, q, place)))
  }

  ghost predicate Perils(ps: seq<Project>, replay: seq<Project>) {
    exists id, place :: Splits(ps, replay, id, place)
  }

  lemma OneHome(ps: seq<Project>, id: nat, place: Place, other: Place)
    requires Identities(ps) && Unremoted(ps, id) && StandsAt(ps, id, place) && StandsAt(ps, id, other)
    ensures place == other
  {
    hide Identities;
    SingleOf(ps, id);
    var ls := Holder(ps, id).value.locations;
    assert ls == [ls[0]];
  }

  /** Nothing can from the replay itself. */
  lemma ReplayHasNone(ps: seq<Project>, next: nat)
    requires Identities(ps) && Given(ps, next)
    ensures !Perils(ps, ps)
  {
    hide Holder, StandsAt, Unremoted, First, Identities, Given;
    if id: nat, place :| Splits(ps, ps, id, place) {
      FirstStands(ps, next, place);
      if other :| other != place && (StandsAt(ps, id, other) || First(ps, other) == Some(id)) {
        FirstStands(ps, next, other);
        OneHome(ps, id, place, other);
      } else {
        var q: nat :| q != id && Unremoted(ps, q) && StandsAt(ps, q, place);
        NoClash(ps, id, q, place);
      }
    }
  }

  lemma FirstStands(ps: seq<Project>, next: nat, place: Place)
    requires Given(ps, next)
    ensures First(ps, place).Some? ==> StandsAt(ps, First(ps, place).value, place)
    ensures First(ps, place).None? ==> forall id :: !StandsAt(ps, id, place)
  {
    var i := FirstHost(ps, place, None);
    if i < |ps| { IdsApart(ps, next, i); }
  }

  /** A row changes the first host of its own place only, and only to its own project. */
  lemma FirstAfter(ps: seq<Project>, row: Row, place: Place)
    ensures var after := First(Absorb(ps, row), place);
            && (place != row.place || StandsAt(ps, row.project, place) ==> after == First(ps, place))
            && (after == First(ps, place) || after == Some(row.project))
  {
    var i := IndexOf(ps, row.project);
    if i < |ps| {
      FirstGrown(ps, i, Grown(ps[i], row), row.place, place);
    } else {
      FirstAdded(ps, Grown(Begun(ps, row), row), row.place, place);
    }
  }

  lemma FirstGrown(ps: seq<Project>, i: nat, p: Project, gained: Place, place: Place)
    requires i < |ps| && p.id == ps[i].id
    requires forall l :: l in p.locations <==> l in ps[i].locations || l == gained
    ensures var after := First(ps[i := p], place);
            && (place != gained || place in ps[i].locations ==> after == First(ps, place))
            && (after == First(ps, place) || after == Some(p.id))
  {
    var more := ps[i := p];
    var a, b := FirstHost(ps, place, None), FirstHost(more, place, None);
    assert a < |ps| ==> Hosts(more[a], place, None);
    if b < a {
      assert Hosts(more[b], place, None) && !Hosts(ps[b], place, None);
      assert b == i;
    }
  }

  lemma FirstAdded(ps: seq<Project>, p: Project, only: Place, place: Place)
    requires p.locations == [only]
    ensures var after := First(ps + [p], place);
            && (place != only ==> after == First(ps, place))
            && (after == First(ps, place) || after == Some(p.id))
  {
    var more := ps + [p];
    var a, b := FirstHost(ps, place, None), FirstHost(more, place, None);
    assert forall k :: 0 <= k < |ps| ==> more[k] == ps[k];
    if a < |ps| { assert Hosts(more[a], place, None); }
    if b < |ps| { assert Hosts(ps[b], place, None); }
  }

  /* ---------------------------------------------------------------- one row more */

  /** The row that a call makes of an observation, over the projects it has. */
  predicate Assigned(ps: seq<Project>, next: nat, row: Row) {
    row.project == if Match(ps, row.place, row.remote) < |ps| then ps[Match(ps, row.place, row.remote)].id else next
  }

  /** Without a remote the row goes to the first host of its place, or to a new project. */
  lemma AssignedFirst(ps: seq<Project>, next: nat, row: Row)
    requires Assigned(ps, next, row) && row.remote.None?
    ensures First(ps, row.place) == Some(row.project) || (First(ps, row.place) == None && row.project == next)
  {
  }

  ghost predicate Paired(ps: seq<Project>, replay: seq<Project>, next: nat) {
    && Given(ps, next) && Given(replay, next) && Inside(replay, ps) && Identities(ps) && Identities(replay)
  }

  lemma NotNext(ps: seq<Project>, next: nat)
    requires Given(ps, next)
    ensures Holder(ps, next) == None && Unremoted(ps, next) && forall place :: !StandsAt(ps, next, place)
  {
    UnusedIndex(ps, next);
  }

  lemma GrownSingle(p: Project, row: Row)
    requires |p.remotes| <= 1 && (row.remote.Some? ==> forall r :: r in p.remotes ==> r == row.remote.value)
    requires row.remote.None? && p.remotes == [] ==> p.locations == [] || p.locations == [row.place]
    ensures Single(Grown(p, row))
  {
    if p.remotes != [] { assert p.remotes[0] in p.remotes; }
  }

  /** The project of the row stays single. */
  lemma RowSingle(ps: seq<Project>, replay: seq<Project>, next: nat, row: Row)
    requires Paired(ps, replay, next) && Assigned(ps, next, row) && !Perils(ps, replay)
    requires Identities(Absorb(ps, row))
    ensures Single(Grown(Begun(replay, row), row))
  {
    hide Perils, Identities, Given, Match, Merged, First, IndexOf, Absorb, Grown, Holder, Assigned;
    var p := Begun(replay, row);
    if Holder(replay, row.project).Some? { SingleOf(replay, row.project); }
    if row.remote.Some? {
      forall r | r in p.remotes ensures r == row.remote.value { OneRemote(ps, replay, row, r); }
    } else if p.remotes == [] && p.locations != [] {
      OnePlace(ps, replay, next, row, p.locations[0]);
    }
    GrownSingle(p, row);
  }

  lemma OneRemote(ps: seq<Project>, replay: seq<Project>, row: Row, remote: nat)
    requires Inside(replay, ps) && Identities(Absorb(ps, row))
    requires Claims(replay, row.project, remote) && row.remote.Some?
    ensures remote == row.remote.value
  {
    hide Identities, Absorb, Holder, IndexOf;
    var large := Absorb(ps, row);
    AbsorbById(ps, row, row.project);
    SingleOf(large, row.project);
    assert Claims(large, row.project, remote) && Claims(large, row.project, row.remote.value);
    var rs := Holder(large, row.project).value.remotes;
    assert rs == [rs[0]];
  }

  lemma OnePlace(ps: seq<Project>, replay: seq<Project>, next: nat, row: Row, place: Place)
    requires Paired(ps, replay, next) && Assigned(ps, next, row) && !Perils(ps, replay)
    requires row.remote.None? && Unremoted(replay, row.project) && StandsAt(replay, row.project, place)
    ensures place == row.place
  {
    hide Perils, Identities, Given, Match, Holder, StandsAt, Unremoted, First, Assigned;
    AssignedFirst(ps, next, row);
    NotNext(replay, next);
    NoSplit(ps, replay, row.project, row.place);
  }

  lemma NoSplit(ps: seq<Project>, replay: seq<Project>, id: nat, place: Place)
    requires !Perils(ps, replay)
    ensures !Splits(ps, replay, id, place)
  {
  }

  /** And it clashes with no other. */
  lemma RowNoClash(ps: seq<Project>, replay: seq<Project>, next: nat, row: Row, id: nat, other: nat, place: Place)
    requires Paired(ps, replay, next) && Assigned(ps, next, row) && !Perils(ps, replay)
    ensures !Clash(Absorb(replay, row), id, other, place)
  {
    hide Perils, Identities, Given, Match, Holder, StandsAt, Unremoted, First, Absorb, Assigned, Inside;
    var small := Absorb(replay, row);
    AbsorbById(replay, row, id);
    AbsorbById(replay, row, other);
    SameHolder(replay, small, id);
    SameHolder(replay, small, other);
    NoClash(replay, id, other, place);
    if Clash(small, id, other, place) && place == row.place {
      if id == row.project {
        NewStand(ps, replay, next, row, other, place);
      } else if other == row.project {
        NewStand(ps, replay, next, row, id, place);
      }
    }
  }

  lemma NewStand(ps: seq<Project>, replay: seq<Project>, next: nat, row: Row, other: nat, place: Place)
    requires Paired(ps, replay, next) && Assigned(ps, next, row) && !Perils(ps, replay)
    requires other != row.project && place == row.place && row.remote.None? && Unremoted(replay, row.project)
    ensures !(Unremoted(replay, other) && StandsAt(replay, other, place))
  {
    hide Perils, Identities, Given, Match, Holder, StandsAt, Unremoted, First, Absorb, Assigned;
    if Unremoted(replay, other) && StandsAt(replay, other, place) {
      AssignedFirst(ps, next, row);
      assert StandsAt(ps, other, place);
      FirstStands(ps, next, place);
      assert Splits(ps, replay, row.project, place);
      NoSplit(ps, replay, row.project, place);
    }
  }

  lemma RowIdentities(ps: seq<Project>, replay: seq<Project>, next: nat, row: Row)
    requires Paired(ps, replay, next) && Assigned(ps, next, row) && !Perils(ps, replay)
    requires Identities(Absorb(ps, row)) && row.project <= next
    ensures Identities(Absorb(replay, row))
  {
    hide Perils, Identities, Given, Match, Holder, StandsAt, Unremoted, Claims, First, Absorb, Assigned, Single, Grown,
         Clash;
    var small, large := Absorb(replay, row), Absorb(ps, row);
    AbsorbInside(replay, ps, row);
    RowSingle(ps, replay, next, row);
    forall id | Holder(small, id).Some? ensures Single(Holder(small, id).value) {
      AbsorbAt(replay, row, id);
      if id != row.project { SingleOf(replay, id); }
    }
    forall id, other, r: nat | id != other && Claims(small, id, r) ensures !Claims(small, other, r) {
      ClaimedOnce(large, id, other, r);
    }
    forall id, other, place ensures !Clash(small, id, other, place) {
      RowNoClash(ps, replay, next, row, id, other, place);
    }
    AbsorbGiven(replay, row, next + 1);
    GivenLater(replay, next, next + 1);
    IdentitiesById(small, next + 1);
  }

  /** Nor does one row bring a peril for the next. */
  lemma RowNoPeril(ps: seq<Project>, replay: seq<Project>, next: nat, row: Row)
    requires Paired(ps, replay, next) && Assigned(ps, next, row) && !Perils(ps, replay)
    ensures !Perils(Absorb(ps, row), Absorb(replay, row))
  {
    hide Identities, Given, Match, Holder, StandsAt, Unremoted, First, Absorb, Assigned;
    if id: nat, place :| Splits(Absorb(ps, row), Absorb(replay, row), id, place) {
      RowNoSplit(ps, replay, next, row, id, place);
    }
  }

  lemma RowNoSplit(ps: seq<Project>, replay: seq<Project>, next: nat, row: Row, id: nat, place: Place)
    requires Paired(ps, replay, next) && Assigned(ps, next, row) && !Perils(ps, replay)
    ensures !Splits(Absorb(ps, row), Absorb(replay, row), id, place)
  {
    hide Perils, Identities, Given, Match, Holder, StandsAt, Unremoted, First, Absorb, Assigned;
    var small, large := Absorb(replay, row), Absorb(ps, row);
    if Splits(large, small, id, place) {
      NoSplit(ps, replay, id, place);
      AbsorbById(replay, row, id);
      SameHolder(replay, small, id);
      FirstAfter(ps, row, place);
      if other :| other != place && (StandsAt(small, id, other) || First(large, other) == Some(id)) {
        FirstAfter(ps, row, other);
        NoSecond(ps, replay, next, row, id, place, other);
      } else {
        var q: nat :| q != id && Unremoted(small, q) && StandsAt(small, q, place);
        AbsorbById(replay, row, q);
        SameHolder(replay, small, q);
        NoNeighbour(ps, replay, next, row, id, place, q);
      }
    }
  }

  lemma NoSecond(ps: seq<Project>, replay: seq<Project>, next: nat, row: Row, id: nat, place: Place, other: Place)
    requires Paired(ps, replay, next) && Assigned(ps, next, row) && !Perils(ps, replay) && other != place
    requires First(Absorb(ps, row), place) == Some(id) && Unremoted(Absorb(replay, row), id)
    ensures !StandsAt(Absorb(replay, row), id, other) && First(Absorb(ps, row), other) != Some(id)
  {
    hide Perils, Identities, Given, Match, Holder, StandsAt, Unremoted, First, Absorb, Assigned;
    var small, large := Absorb(replay, row), Absorb(ps, row);
    AbsorbById(replay, row, id);
    SameHolder(replay, small, id);
    FirstAfter(ps, row, place);
    FirstAfter(ps, row, other);
    NoSplit(ps, replay, id, place);
    NoSplit(ps, replay, id, other);
    if id == row.project {
      AssignedFirst(ps, next, row);
      NotNext(ps, next);
      NotNext(replay, next);
      FirstStands(ps, next, place);
      FirstStands(ps, next, other);
    }
  }

  lemma NoNeighbour(ps: seq<Project>, replay: seq<Project>, next: nat, row: Row, id: nat, place: Place, q: nat)
    requires Paired(ps, replay, next) && Assigned(ps, next, row) && !Perils(ps, replay) && q != id
    requires First(Absorb(ps, row), place) == Some(id) && Unremoted(Absorb(replay, row), id)
    ensures !(Unremoted(Absorb(replay, row), q) && StandsAt(Absorb(replay, row), q, place))
  {
    hide Perils, Identities, Given, Match, Holder, StandsAt, Unremoted, First, Absorb, Assigned;
    var small, large := Absorb(replay, row), Absorb(ps, row);
    AbsorbById(replay, row, id);
    AbsorbById(replay, row, q);
    SameHolder(replay, small, id);
    SameHolder(replay, small, q);
    FirstAfter(ps, row, place);
    NoSplit(ps, replay, id, place);
    AssignedFirstIf(ps, next, row);
    FirstStands(ps, next, place);
  }

  lemma AssignedFirstIf(ps: seq<Project>, next: nat, row: Row)
    requires Assigned(ps, next, row)
    ensures row.remote.None? ==>
              First(ps, row.place) == Some(row.project) || (First(ps, row.place) == None && row.project == next)
  {
    if row.remote.None? { AssignedFirst(ps, next, row); }
  }

  /* ---------------------------------------------------------------- one batch */

  /** What a call works on is paired with the replay of the log and of what it will append, and
      holds no peril. */
  ghost predicate Steady(m: Memo, log: seq<Row>) {
    && Coherent(m, log) && Identities(m.projects)
    && Identities(Replay(log + m.additions)) && !Perils(m.projects, Replay(log + m.additions))
  }

  lemma CoherentPaired(m: Memo, log: seq<Row>)
    requires Coherent(m, log) && Identities(m.projects) && Identities(Replay(log + m.additions))
    ensures Paired(m.projects, Replay(log + m.additions), m.next)
  {
    hide Given, Identities, Covers, Inside, Replay;
    CoherentRows(m, log, |m.additions|);
    assert m.additions[..|m.additions|] == m.additions;
    forall row | row in log + m.additions ensures Covers(m.projects, row) {
      assert row in RowsIn(log + m.additions);
    }
    ReplayInside(log + m.additions, m.projects);
  }

  lemma RowAssigned(m: Memo, item: Observation)
    requires item.path.Some? && Given(m.projects, m.next)
    ensures Assigned(m.projects, m.next, RowFor(m, item)) && RowFor(m, item).project <= m.next
  {
    hide Match;
  }

  lemma NoteSteady(m: Memo, item: Observation, log: seq<Row>)
    requires Steady(m, log)
    ensures Steady(Note(m, item), log)
  {
    hide Covers, Given, Identities, Perils, Replay, Absorb, Note, RowFor, Assigned, Inside;
    NoteCoherent(m, item, log);
    NoteIdentities(m, item);
    NoteAdds(m, item);
    if item.path.Some? {
      var ps, replay, row := m.projects, Replay(log + m.additions), RowFor(m, item);
      NoteSteps(m, item, log);
      CoherentPaired(m, log);
      RowAssigned(m, item);
      NoteIsAbsorb(m, item);
      Appended(log, m.additions, row);
      RowIdentities(ps, replay, m.next, row);
      RowNoPeril(ps, replay, m.next, row);
    }
  }

  /** Wherever an append of these rows stops, the identities of the replay hold. */
  predicate Proper(m: Memo, log: seq<Row>) {
    forall k :: 0 <= k <= |m.additions| ==> Identities(Replay(log + m.additions[..k]))
  }

  lemma NoteAdds(m: Memo, item: Observation)
    ensures item.path.None? ==> Note(m, item) == m
    ensures var after := Note(m, item);
            m.additions <= after.additions && |after.additions| <= |m.additions| + 1
  {
    hide Match, Grown, RowFor;
  }

  lemma NoteProper(m: Memo, item: Observation, log: seq<Row>)
    requires Steady(Note(m, item), log) && Proper(m, log)
    ensures Proper(Note(m, item), log)
  {
    hide Coherent, Note, Replay, Identities, Perils;
    var after := Note(m, item);
    NoteAdds(m, item);
    forall k | 0 <= k <= |after.additions| ensures Identities(Replay(log + after.additions[..k])) {
      if k <= |m.additions| {
        assert after.additions[..k] == m.additions[..k];
      } else {
        assert after.additions[..k] == after.additions;
      }
    }
  }

  lemma {:induction false} NoteAllProper(m: Memo, items: seq<Observation>, log: seq<Row>)
    requires Steady(m, log) && Proper(m, log)
    ensures Steady(NoteAll(m, items), log) && Proper(NoteAll(m, items), log)
  {
    hide Steady, Note, Proper;
    if items != [] {
      var front := NoteAll(m, items[..|items| - 1]);
      NoteAllProper(m, items[..|items| - 1], log);
      NoteSteady(front, items[|items| - 1], log);
      NoteProper(front, items[|items| - 1], log);
    }
  }

  /* ---------------------------------------------------------------- the shelf */

  ghost predicate Fits(ps: seq<Project>, known: set<Row>, s: Shelf) {
    Coherent(Memo(ps, known, [], s.next), s.log) && Identities(ps)
  }

  /** True in every run, whatever fails: everything a call may start from covers the log and has the
      identities, be it a memory in use or a projection as long as the log says. */
  ghost predicate Covered(s: Shelf) {
    && Given(Replay(s.log), s.next)
    && (s.live.Some? ==> s.live.value.touched <= s.file.touched && Given(s.live.value.projects, s.next))
    && (Current(s).Some? ==> Fits(s.live.value.projects, s.live.value.known, s))
    && (s.projection.Some? ==>
          && s.projection.value.bytes <= Length(s)
          && (s.projection.value.bytes == Length(s) ==> Fits(s.projection.value.projects, RowsIn(s.log), s)))
  }

  /** And so does the replay. */
  ghost predicate Kept(s: Shelf) { Covered(s) && Identities(Replay(s.log)) }

  /** The call starts from projects that would break the replay. */
  ghost predicate Perilous(s: Shelf, observer: bool) {
    Opens(s, observer) && Perils(Opened(Beginning(s, observer)).value.projects, Replay(s.log))
  }

  lemma OpenedFits(s: Shelf, observer: bool)
    requires Kept(s) && Opens(s, observer)
    ensures var begun := Opened(Beginning(s, observer)).value;
            Coherent(begun, s.log) && Identities(begun.projects) && begun.additions == [] && begun.next == s.next
  {
    hide Covers, Given, Replay, Bytes, Identities;
    var start := Beginning(s, observer);
    assert s.log + [] == s.log;
    if Current(start).None? && (s.projection.None? || s.projection.value.bytes != Length(s)) {
      forall row | row in s.log ensures Covers(Replay(s.log), row) { ReplayCovers(s.log, row); }
    }
  }

  lemma OpenedSteady(s: Shelf, observer: bool)
    requires Kept(s) && Opens(s, observer) && !Perilous(s, observer)
    ensures Steady(Opened(Beginning(s, observer)).value, s.log) && Proper(Opened(Beginning(s, observer)).value, s.log)
  {
    hide Covered, Coherent, Replay, Identities, Perils, Opened;
    OpenedFits(s, observer);
    assert s.log + [] == s.log;
  }

  /** Any call, stopped anywhere, keeps everything unless it starts in peril. */
  lemma CallKeeps(s: Shelf, items: seq<Observation>, observer: bool, outcome: Outcome)
    requires Kept(s) && (items != [] ==> !Perilous(s, observer))
    ensures Kept(Observe(s, items, observer, outcome))
  {
    if items == [] {
      NothingObserved(s, observer, outcome);
    } else if Opens(s, observer) {
      hide Observe, NoteAll, Replay, Opened, Coherent, Stored, Size, Opens, Given, Identities, Perils, Kept, Steady;
      var m, after := Noted(s, items, observer), Observe(s, items, observer, outcome);
      OpenedSteady(s, observer);
      NoteAllProper(Opened(Beginning(s, observer)).value, items, s.log);
      Outcomes(s, items, observer, outcome);
      StoredGrows(s.log, s.file, m.additions, outcome);
      CallCovers(s, items, observer, outcome);
      assert Identities(Replay(s.log + m.additions[..StoredRows(m.additions, outcome)]));
      assert Kept(after) by { KeptIf(after); }
    } else {
      Refused(s, items, observer, outcome);
      ForgottenKept(s);
    }
  }

  lemma KeptIf(s: Shelf)
    requires Covered(s) && Identities(Replay(s.log))
    ensures Kept(s)
  {
  }

  lemma ForgottenKept(s: Shelf)
    requires Kept(s)
    ensures Kept(s.(live := None))
  {
  }

  lemma NotedCovers(s: Shelf, items: seq<Observation>, observer: bool)
    requires Kept(s) && Opens(s, observer)
    ensures var m := Noted(s, items, observer);
            Coherent(m, s.log) && Identities(m.projects) && s.next <= m.next
  {
    hide Kept, Coherent, Identities, NoteAll;
    OpenedFits(s, observer);
    NoteAllCoherent(Opened(Beginning(s, observer)).value, items, s.log);
    NoteAllIdentities(Opened(Beginning(s, observer)).value, items);
  }

  lemma CallCovers(s: Shelf, items: seq<Observation>, observer: bool, outcome: Outcome)
    requires Kept(s) && items != [] && Opens(s, observer)
    ensures Covered(Observe(s, items, observer, outcome))
  {
    hide Observe, NoteAll, Replay, Bytes, Opened, Coherent, Stored, Size, Opens, Given, Identities;
    var m, after := Noted(s, items, observer), Observe(s, items, observer, outcome);
    NotedCovers(s, items, observer);
    CoherentRows(m, s.log, StoredRows(m.additions, outcome));
    Outcomes(s, items, observer, outcome);
    StoredGrows(s.log, s.file, m.additions, outcome);
    CoherentLater(m, s.log, m.next);
    CoherentLog(m, s.log);
    assert m.additions[..|m.additions|] == m.additions && s.log + [] == s.log;
    if s.live.Some? { GivenLater(s.live.value.projects, s.next, after.next); }
    if Current(after).Some? && !(observer && outcome.Written?) {
      assert after.log == s.log && Current(s).Some?;
      if !observer { CoherentLater(Memo(s.live.value.projects, s.live.value.known, [], s.next), s.log, after.next); }
    }
    if after.projection == s.projection && s.projection.Some? && s.projection.value.bytes == Length(after) {
      assert after.log == s.log;
      CoherentLater(Memo(s.projection.value.projects, RowsIn(s.log), [], s.next), s.log, after.next);
    }
  }

  lemma CoherentLog(m: Memo, log: seq<Row>)
    requires Coherent(m, log)
    ensures Coherent(Memo(m.projects, RowsIn(log + m.additions), [], m.next), log + m.additions)
  {
    hide Covers, Given;
    assert log + m.additions + [] == log + m.additions;
  }

  lemma {:induction false} NoteAllIdentities(m: Memo, items: seq<Observation>)
    requires Identities(m.projects)
    ensures Identities(NoteAll(m, items).projects)
  {
    hide Identities, Note;
    if items != [] {
      NoteAllIdentities(m, items[..|items| - 1]);
      NoteIdentities(NoteAll(m, items[..|items| - 1]), items[|items| - 1]);
    }
  }

  /* ---------------------------------------------------------------- the condition is exact */

  /** An observation at a place, without a remote or sources. */
  function Probe(place: Place, about: nat): Observation {
    Observation(place.device, Some(place.path), None, [], about)
  }

  lemma UnusedAbout(known: set<Row>) returns (n: nat)
    ensures forall row :: row in known ==> row.about < n
    decreases |known|
  {
    n := 0;
    if row :| row in known {
      var m := UnusedAbout(known - {row});
      n := if m > row.about then m else row.about + 1;
    }
  }

  /** It goes to the first host of its place, whose memory does not change. */
  lemma ProbeNotes(m: Memo, log: seq<Row>, id: nat, place: Place, about: nat)
    requires Coherent(m, log) && First(m.projects, place) == Some(id)
    requires Row(id, place, None, [], about) !in m.known
    ensures var row := Row(id, place, None, [], about);
            Note(m, Probe(place, about)) == Memo(m.projects, m.known + {row}, m.additions + [row], m.next)
  {
    hide Absorb, Given;
    var row := Row(id, place, None, [], about);
    assert Match(m.projects, place, None) == FirstHost(m.projects, place, None);
    assert RowFor(m, Probe(place, about)) == row;
    FirstStands(m.projects, m.next, place);
    assert Covers(m.projects, row);
    NoteSteps(m, Probe(place, about), log);
    AbsorbCovers(m.projects, row, row);
  }

  lemma RowBreaks(replay: seq<Project>, row: Row, other: Place)
    requires row.remote.None? && Unremoted(replay, row.project)
    requires other != row.place && StandsAt(replay, row.project, other)
    ensures !Identities(Absorb(replay, row))
  {
    hide Identities, Holder, StandsAt, Absorb, Unremoted;
    var after := Absorb(replay, row);
    AbsorbById(replay, row, row.project);
    if Identities(after) { OneHome(after, row.project, row.place, other); }
  }

  lemma RowClashes(replay: seq<Project>, row: Row, q: nat)
    requires row.remote.None? && Unremoted(replay, row.project) && q != row.project
    requires Unremoted(replay, q) && StandsAt(replay, q, row.place)
    ensures !Identities(Absorb(replay, row))
  {
    hide Identities, Holder, StandsAt, Absorb, Unremoted;
    var after := Absorb(replay, row);
    AbsorbById(replay, row, q);
    SameHolder(replay, after, q);
    if Identities(after) { NoClash(after, row.project, q, row.place); }
  }

  lemma AllStored(s: Shelf, items: seq<Observation>, observer: bool)
    requires items != [] && Opens(s, observer)
    ensures Observe(s, items, observer, Unprojected).log == s.log + Noted(s, items, observer).additions
  {
    hide Observe, NoteAll, Opens, Opened, Size, Bytes;
    var rows := Noted(s, items, observer).additions;
    Outcomes(s, items, observer, Unprojected);
    StoredGrows(s.log, s.file, rows, Unprojected);
    assert rows[..|rows|] == rows;
  }

  /** One probe is enough beside what the replay has. */
  lemma OneProbe(s: Shelf, observer: bool, id: nat, place: Place) returns (items: seq<Observation>)
    requires Kept(s) && Opens(s, observer)
    requires First(Opened(Beginning(s, observer)).value.projects, place) == Some(id)
    ensures items != []
    ensures exists row: Row :: row.project == id && row.place == place && row.remote.None?
              && Replay(Observe(s, items, observer, Unprojected).log) == Absorb(Replay(s.log), row)
  {
    hide Kept, Coherent, First, Observe, Opened, Absorb;
    OpenedFits(s, observer);
    var m := Opened(Beginning(s, observer)).value;
    var about := UnusedAbout(m.known);
    items := [Probe(place, about)];
    var row := Row(id, place, None, [], about);
    ProbeNotes(m, s.log, id, place, about);
    Once(m, Probe(place, about));
    AllStored(s, items, observer);
    Appended(s.log, [], row);
    assert [] + [row] == [row] && s.log + [] == s.log;
  }

  /** Two are enough without. */
  lemma TwoProbes(s: Shelf, observer: bool, id: nat, place: Place, other: Place) returns (items: seq<Observation>)
    requires Kept(s) && Opens(s, observer) && place != other
    requires First(Opened(Beginning(s, observer)).value.projects, place) == Some(id)
    requires First(Opened(Beginning(s, observer)).value.projects, other) == Some(id)
    ensures items != []
    ensures exists a: Row, b: Row :: a.project == id == b.project && a.place == other && b.place == place
              && a.remote.None? && b.remote.None?
              && Replay(Observe(s, items, observer, Unprojected).log) == Absorb(Absorb(Replay(s.log), a), b)
  {
    hide Kept, Coherent, First, Observe, Opened, Absorb, NoteAll, Identities, Replay;
    OpenedFits(s, observer);
    var m := Opened(Beginning(s, observer)).value;
    var about := UnusedAbout(m.known);
    items := [Probe(other, about), Probe(place, about)];
    var a, b := Row(id, other, None, [], about), Row(id, place, None, [], about);
    ProbesNoted(m, s.log, id, place, other, about);
    AllStored(s, items, observer);
    assert [] + [a] == [a] && [a] + [b] == [a, b] && s.log + [] == s.log;
    Appended(s.log, [], a);
    Appended(s.log, [a], b);
  }

  lemma ProbesNoted(m: Memo, log: seq<Row>, id: nat, place: Place, other: Place, about: nat)
    requires Coherent(m, log) && place != other && m.additions == []
             && forall row :: row in m.known ==> row.about < about
    requires First(m.projects, place) == Some(id) && First(m.projects, other) == Some(id)
    ensures NoteAll(m, [Probe(other, about), Probe(place, about)]).additions
            == [Row(id, other, None, [], about), Row(id, place, None, [], about)]
  {
    hide Coherent, First, Note;
    var first, second := Probe(other, about), Probe(place, about);
    ProbeNotes(m, log, id, other, about);
    NoteCoherent(m, first, log);
    ProbeNotes(Note(m, first), log, id, place, about);
    Once(m, first);
    assert [first, second][..1] == [first];
  }

  lemma PerilBreaks(s: Shelf, observer: bool) returns (items: seq<Observation>)
    requires Kept(s) && Perilous(s, observer)
    ensures !Identities(Replay(Observe(s, items, observer, Unprojected).log))
  {
    hide Kept, Observe, Opened, Absorb, First, Holder, StandsAt, Unremoted, Identities, Replay;
    var ps, replay := Opened(Beginning(s, observer)).value.projects, Replay(s.log);
    var id: nat, place :| Splits(ps, replay, id, place);
    if q: nat :| q != id && Unremoted(replay, q) && StandsAt(replay, q, place) {
      items := OneProbe(s, observer, id, place);
      var row: Row :| row.project == id && row.place == place && row.remote.None?
        && Replay(Observe(s, items, observer, Unprojected).log) == Absorb(replay, row);
      RowClashes(replay, row, q);
    } else {
      var other :| other != place && (StandsAt(replay, id, other) || First(ps, other) == Some(id));
      if StandsAt(replay, id, other) {
        items := OneProbe(s, observer, id, place);
        var row: Row :| row.project == id && row.place == place && row.remote.None?
          && Replay(Observe(s, items, observer, Unprojected).log) == Absorb(replay, row);
        RowBreaks(replay, row, other);
      } else {
        items := TwoProbes(s, observer, id, place, other);
        var a: Row, b: Row :| a.project == id == b.project && a.place == other && b.place == place
          && a.remote.None? && b.remote.None?
          && Replay(Observe(s, items, observer, Unprojected).log) == Absorb(Absorb(replay, a), b);
        AbsorbById(replay, a, id);
        RowBreaks(Absorb(replay, a), b, other);
      }
    }
  }

  /** WHEN A CALL KEEPS THE IDENTITIES. Whatever a call observes and wherever it stops, the log it
      leaves replays to projects with these identities, exactly unless it starts in peril: some
      project that the replay lacks or has without a remote is the first host of a place, and the
      replay has that project at another place, or another such project at this one, or it is the
      first host of another place as well. */
  lemma PerilIff(s: Shelf, observer: bool)
    requires Kept(s) && Opens(s, observer)
    ensures (forall items, outcome :: Identities(Replay(Observe(s, items, observer, outcome).log)))
            <==> !Perilous(s, observer)
  {
    hide Observe, Opens, Perilous, Identities, Replay;
    if Perilous(s, observer) {
      var items := PerilBreaks(s, observer);
      assert !Identities(Replay(Observe(s, items, observer, Unprojected).log));
    } else {
      forall items, outcome ensures Identities(Replay(Observe(s, items, observer, outcome).log)) {
        CallKeeps(s, items, observer, outcome);
      }
    }
  }

  /* ---------------------------------------------------------------- runs */

  ghost predicate Heedful(s: Shelf, e: Event) {
    e.Observing? && e.items != [] ==> !Perilous(s, e.observer)
  }

  ghost predicate HeedfulRun(s: Shelf, events: seq<Event>) {
    events != [] ==>
      var front := events[..|events| - 1];
      HeedfulRun(s, front) && Heedful(Run(s, front), events[|events| - 1])
  }

  lemma StepKeeps(s: Shelf, e: Event)
    requires Kept(s) && Heedful(s, e)
    ensures Kept(After(s, e))
  {
    hide Observe, Replay, Bytes, Coherent, Perilous, Identities;
    match e
    case Observing(items, observer, outcome) => CallKeeps(s, items, observer, outcome);
    case PassEnds =>
    case Rebuilding => RebuiltKept(s);
    case ProjectionLost =>
  }

  lemma RebuiltKept(s: Shelf)
    requires Kept(s)
    ensures Kept(After(s, Rebuilding))
  {
    hide Covers, Given, Replay, Bytes, Identities;
    assert s.log + [] == s.log;
    forall row | row in s.log ensures Covers(Replay(s.log), row) { ReplayCovers(s.log, row); }
  }

  /** THE IDENTITIES HOLD of the log's replay and of every answer, in any run in which no call
      starts in peril. Completed calls on a spoilt memory are not excluded. */
  lemma {:induction false} IdentitiesHold(events: seq<Event>)
    requires HeedfulRun(BARE, events)
    ensures var s := Run(BARE, events);
            && Kept(s) && Identities(Replay(s.log))
            && (Projects(s).Some? ==> Identities(Projects(s).value))
  {
    hide Heedful, After, Bytes;
    if events == [] {
      assert RowsIn([]) == {};
    } else {
      hide Kept;
      var front := events[..|events| - 1];
      IdentitiesHold(front);
      StepKeeps(Run(BARE, front), events[|events| - 1]);
    }
    AnswerIdentities(Run(BARE, events));
  }

  lemma AnswerIdentities(s: Shelf)
    requires Kept(s)
    ensures Identities(Replay(s.log)) && (Projects(s).Some? ==> Identities(Projects(s).value))
  {
    hide Coherent, Identities, Replay;
  }

  /** A call that starts from the replay is never in peril. */
  lemma TrustIsSafe(s: Shelf, observer: bool)
    requires Kept(s) && Good(s) && Trusted(s)
    ensures !Perilous(s, observer)
  {
    hide Identities, Perils, Kept, Coherent, Good, Replay;
    if Opens(s, observer) {
      OpenedCoherent(s, observer);
      KeptReplay(s);
      ReplayHasNone(Replay(s.log), s.next);
    }
  }

  lemma KeptReplay(s: Shelf)
    requires Kept(s)
    ensures Identities(Replay(s.log)) && Given(Replay(s.log), s.next)
  {
  }

  /** So runs in which no failed touch does harm are among these. */
  lemma {:induction false} HarmlessIsHeedful(events: seq<Event>)
    requires HarmlessRun(BARE, events)
    ensures HeedfulRun(BARE, events)
  {
    hide Good, Kept, Harms, Trusted, After, Perilous;
    if events != [] {
      var front := events[..|events| - 1];
      HarmlessIsHeedful(front);
      HarmlessIsSure(front);
      GoodRuns(front);
      IdentitiesHold(front);
      if events[|events| - 1].Observing? { TrustIsSafe(Run(BARE, front), events[|events| - 1].observer); }
    }
  }

  /* ---------------------------------------------------------------- a run in peril */

  const K: Place := Place(1, ["k"])
  const L: Place := Place(1, ["l"])
  const AT_K: Observation := Observation(1, Some(["k"]), None, [], 0)
  const AT_L: Observation := Observation(1, Some(["l"]), None, [], 0)
  const PUSHED_K: Observation := Observation(1, Some(["k"]), Some(9), [], 0)
  const PUSHED_L: Observation := Observation(1, Some(["l"]), Some(9), [], 0)
  const AGAIN_L: Observation := Observation(1, Some(["l"]), None, [], 1)
  const K_ROW: Row := Row(0, K, None, [], 0)
  const L_ROW: Row := Row(1, L, None, [], 0)
  const STRAY: Row := Row(0, L, None, [], 1)

  function Zero(remotes: seq<nat>, places: seq<Place>): Project { Project(0, "k", remotes, places, []) }

  const ONE: Project := Project(1, "l", [], [L], [])

  /** The projects in the observer's memory after the n-th call. */
  function Seen(n: nat): seq<Project> {
    match n
    case 0 => []
    case 1 => [Zero([], [K])]
    case 2 => [Zero([], [K]), ONE]
    case 3 => [Zero([9], [K]), ONE]
    case _ => [Zero([9], [K, L]), ONE]
  }

  function Taken(n: nat): set<Row> {
    match n
    case 0 => {}
    case 1 => {K_ROW}
    case 2 => {K_ROW, L_ROW}
    case 3 => {K_ROW, L_ROW, Row(0, K, Some(9), [], 0)}
    case _ => {K_ROW, L_ROW, Row(0, K, Some(9), [], 0), Row(0, L, Some(9), [], 0)}
  }

  lemma GrownSteps()
    ensures Grown(Project(0, "k", [], [], []), K_ROW) == Zero([], [K])
    ensures Grown(Project(1, "l", [], [], []), L_ROW) == ONE
    ensures Grown(Zero([], [K]), Row(0, K, Some(9), [], 0)) == Zero([9], [K])
    ensures Grown(Zero([9], [K]), Row(0, L, Some(9), [], 0)) == Zero([9], [K, L])
    ensures Grown(Zero([9], [K, L]), STRAY) == Zero([9], [K, L])
    ensures Grown(Zero([], [K]), STRAY) == Zero([], [K, L])
  {
    assert [] + [K] == [K] && [] + [L] == [L] && [K] + [L] == [K, L] && [] + [9] == [9];
    assert Name(["k"]) == "k" && Name(["l"]) == "l";
  }

  lemma SeenFirst()
    ensures Note(Memo([], {}, [], 0), AT_K) == Memo(Seen(1), Taken(1), [K_ROW], 1)
    ensures Note(Memo(Seen(1), Taken(1), [], 1), AT_L) == Memo(Seen(2), Taken(2), [L_ROW], 2)
  {
    hide Grown;
    GrownSteps();
    assert Name(["k"]) == "k" && Name(["l"]) == "l";
    assert RowFor(Memo([], {}, [], 0), AT_K) == K_ROW && [] + [Zero([], [K])] == Seen(1) && [] + [K_ROW] == [K_ROW];
    assert FirstHost(Seen(1), L, None) == 1 && RowFor(Memo(Seen(1), Taken(1), [], 1), AT_L) == L_ROW;
    assert Seen(1) + [ONE] == Seen(2) && [] + [L_ROW] == [L_ROW];
  }

  lemma SeenLater()
    ensures var m := Note(Memo(Seen(2), Taken(2), [], 2), PUSHED_K);
            m.projects == Seen(3) && m.known == Taken(3) && m.additions != [] && m.next == 2
    ensures var m := Note(Memo(Seen(3), Taken(3), [], 2), PUSHED_L);
            m.projects == Seen(4) && m.known == Taken(4) && m.additions != [] && m.next == 2
  {
    hide Grown;
    GrownSteps();
    assert FirstRemote(Seen(2), 9) == 2 && FirstHost(Seen(2), K, Some(9)) == 0;
    assert RowFor(Memo(Seen(2), Taken(2), [], 2), PUSHED_K) == Row(0, K, Some(9), [], 0);
    assert Seen(2)[0 := Zero([9], [K])] == Seen(3);
    assert FirstRemote(Seen(3), 9) == 0;
    assert RowFor(Memo(Seen(3), Taken(3), [], 2), PUSHED_L) == Row(0, L, Some(9), [], 0);
    assert Seen(3)[0 := Zero([9], [K, L])] == Seen(4);
  }

  lemma SeenLast()
    ensures var m := Note(Memo(Seen(4), Taken(4), [], 2), AGAIN_L);
            m.projects == Seen(4) && m.additions == [STRAY] && m.next == 2
  {
    hide Grown;
    GrownSteps();
    assert FirstHost(Seen(4), L, None) == 0 && Seen(4)[0 := Seen(4)[0]] == Seen(4);
  }

  lemma Lengths()
    ensures Bytes([]) == 0 && Bytes([K_ROW]) == 3 && Bytes([K_ROW, L_ROW]) == 6 && Bytes([K_ROW, L_ROW, STRAY]) == 9
  {
    assert [K_ROW][..0] == [] && [K_ROW, L_ROW][..1] == [K_ROW] && [K_ROW, L_ROW, STRAY][..2] == [K_ROW, L_ROW];
    assert Bytes([K_ROW]) == 3;
    assert Bytes([K_ROW, L_ROW]) == 6;
  }

  function Stage(n: nat): Shelf {
    match n
    case 0 => BARE
    case 1 => Shelf([K_ROW], File(0, true, true, 1), Some(Projection(3, Seen(1))), 1,
                    Some(Live(Seen(1), Taken(1), Seen(1), 3, 1)))
    case 2 => Shelf([K_ROW, L_ROW], File(0, true, true, 2), Some(Projection(6, Seen(2))), 2,
                    Some(Live(Seen(2), Taken(2), Seen(2), 6, 2)))
    case 3 => Stage(2).(live := Some(Live(Seen(3), Taken(3), Seen(2), 6, 2)))
    case _ => Stage(2).(live := Some(Live(Seen(4), Taken(4), Seen(2), 6, 2)))
  }

  lemma Logged()
    ensures Observe(Stage(0), [AT_K], true, Written) == Stage(1)
    ensures Observe(Stage(1), [AT_L], true, Written) == Stage(2)
  {
    hide NoteAll, Note, Seen, Taken, Bytes;
    Lengths();
    SeenFirst();
    assert RowsIn([]) == {};
    assert Opened(Stage(0)) == Some(Memo([], {}, [], 0)) by { EmptyReplay(); }
    assert Opened(Stage(1)) == Some(Memo(Seen(1), Taken(1), [], 1));
    Once(Memo([], {}, [], 0), AT_K);
    Once(Memo(Seen(1), Taken(1), [], 1), AT_L);
    assert [] + [K_ROW][..1] == [K_ROW] && [K_ROW] + [L_ROW][..1] == [K_ROW, L_ROW];
  }

  lemma EmptyReplay()
    ensures Replay([]) == []
  {
  }

  lemma Unlogged()
    ensures Observe(Stage(2), [PUSHED_K], true, Untouched) == Stage(3)
    ensures Observe(Stage(3), [PUSHED_L], true, Untouched) == Stage(4)
  {
    hide NoteAll, Note, Seen, Taken, Bytes;
    Lengths();
    SeenLater();
    assert Opened(Stage(2)) == Some(Memo(Seen(2), Taken(2), [], 2));
    assert Opened(Stage(3)) == Some(Memo(Seen(3), Taken(3), [], 2));
    Once(Memo(Seen(2), Taken(2), [], 2), PUSHED_K);
    Once(Memo(Seen(3), Taken(3), [], 2), PUSHED_L);
  }

  lemma LastCall()
    ensures var s := Observe(Stage(4), [AGAIN_L], true, Unprojected);
            && s.log == [K_ROW, L_ROW, STRAY] && Projects(s) == Some(Replay(s.log)) && s.file.readable
  {
    hide NoteAll, Note, Seen, Taken, Bytes, Replay;
    Lengths();
    SeenLast();
    assert Opened(Stage(4)) == Some(Memo(Seen(4), Taken(4), [], 2));
    Once(Memo(Seen(4), Taken(4), [], 2), AGAIN_L);
    assert [K_ROW, L_ROW] + [STRAY][..1] == [K_ROW, L_ROW, STRAY];
  }

  lemma StrayReplay()
    ensures Replay([K_ROW, L_ROW, STRAY]) == [Zero([], [K, L]), ONE]
  {
    assert [K_ROW][..0] == [] && [K_ROW, L_ROW][..1] == [K_ROW] && [K_ROW, L_ROW, STRAY][..2] == [K_ROW, L_ROW];
    hide Grown;
    GrownSteps();
    EmptyReplay();
    assert Name(["k"]) == "k" && Name(["l"]) == "l";
    assert Replay([K_ROW]) == Absorb([], K_ROW) == [] + [Zero([], [K])] == [Zero([], [K])];
    assert Replay([K_ROW, L_ROW]) == Absorb([Zero([], [K])], L_ROW) == [Zero([], [K])] + [ONE];
    assert [Zero([], [K])] + [ONE] == [Zero([], [K]), ONE];
    assert [Zero([], [K]), ONE][0 := Zero([], [K, L])] == [Zero([], [K, L]), ONE];
  }

  const PERILOUS_RUN: seq<Event> :=
    [Observing([AT_K], true, Written), Observing([AT_L], true, Written), Observing([PUSHED_K], true, Untouched),
     Observing([PUSHED_L], true, Untouched), Observing([AGAIN_L], true, Unprojected)]

  /** IT HAPPENS: two touches fail, and the next call is not projected. The log can be read, its
      replay is the answer, and a project without a remote stands at two places, one of which has
      another. */
  lemma IdentitiesBreak()
    ensures var s := Run(BARE, PERILOUS_RUN);
            && SureRun(BARE, PERILOUS_RUN) && s.file.readable && Projects(s) == Some(Replay(s.log))
            && Replay(s.log) == [Zero([], [K, L]), ONE] && !Identities(Replay(s.log))
  {
    hide Observe, Replay, Stage, Projects, Identities;
    var e := PERILOUS_RUN;
    assert e[..4][..3] == e[..3] && e[..3][..2] == e[..2] && e[..2][..1] == e[..1] && e[..1][..0] == [];
    Logged();
    Unlogged();
    LastCall();
    StrayReplay();
    assert Stage(0) == BARE by { StageZero(); }
    assert Run(BARE, e[..1]) == Stage(1);
    assert Run(BARE, e[..2]) == Stage(2);
    assert Run(BARE, e[..3]) == Stage(3);
    assert Run(BARE, e[..4]) == Stage(4);
    StagesTrusted();
    BrokenIdentities();
    assert SureRun(BARE, e[..1]);
    assert SureRun(BARE, e[..2]);
    assert SureRun(BARE, e[..3]);
    assert SureRun(BARE, e[..4]);
  }

  lemma BrokenIdentities()
    ensures !Identities([Zero([], [K, L]), ONE])
  {
    var ps := [Zero([], [K, L]), ONE];
    assert ps[0].remotes == [] && |ps[0].locations| == 2;
  }

  lemma StageZero()
    ensures Stage(0) == BARE
  {
  }

  lemma StagesTrusted()
    ensures Trusted(BARE) && Trusted(Stage(1))
  {
    hide Grown;
    GrownSteps();
    EmptyReplay();
    assert [K_ROW][..0] == [] && Name(["k"]) == "k" && [] + [Zero([], [K])] == [Zero([], [K])];
    assert Replay([K_ROW]) == Absorb([], K_ROW);
  }
}
