/** The transcript readers: folds over rows that collect retained turns and then sort them.

    Extracting words from a harness row (wrapper removal, tool stubs) happens before this
    model: a row carries the words it would hand to `Session.add`, in order. */
module Readers {
  import opened Turns

  datatype Option<+T> = None | Some(value: T)

  datatype Words = Words(role: Role, kind: Kind, text: string)

  /** What `str.strip` removes. */
  predicate Space(c: char) {
    || '\t' <= c <= '\r' || '\U{001C}' <= c <= ' ' || c == '\U{0085}' || c == '\U{00A0}' || c == '\U{1680}'
    || '\U{2000}' <= c <= '\U{200A}' || c == '\U{2028}' || c == '\U{2029}' || c == '\U{202F}' || c == '\U{205F}'
    || c == '\U{3000}'
  }

  /** The same, one by one. */
  const SPACES: string :=
    "\t\n\U{000B}\U{000C}\r\U{001C}\U{001D}\U{001E}\U{001F} \U{0085}\U{00A0}\U{1680}"
    + "\U{2000}\U{2001}\U{2002}\U{2003}\U{2004}\U{2005}\U{2006}\U{2007}\U{2008}\U{2009}\U{200A}"
    + "\U{2028}\U{2029}\U{202F}\U{205F}\U{3000}"

  lemma SpaceIff(c: char)
    ensures Space(c) <==> c in SPACES
  {
    if Space(c) && '\U{2000}' <= c <= '\U{200A}' {
      assert SPACES[13 + (c as int - 0x2000)] == c;
    }
  }

  predicate Blank(text: string) {
    forall i :: 0 <= i < |text| ==> Space(text[i])
  }

  /* ---------------------------------------------------------------- stable sorting */

  /** A retained turn together with its place in reading order; Python's `is` compares these. */
  datatype Draft = Draft(slot: nat, said: Utterance)

  function Drafts(us: seq<Utterance>): (ds: seq<Draft>)
    ensures |ds| == |us|
    ensures forall i :: 0 <= i < |us| ==> ds[i] == Draft(i, us[i])
  {
    seq(|us|, i requires 0 <= i < |us| => Draft(i, us[i]))
  }

  function Insert(ds: seq<Draft>, d: Draft): seq<Draft> {
    if ds != [] && d.said.at < ds[|ds| - 1].said.at
    then Insert(ds[..|ds| - 1], d) + [ds[|ds| - 1]]
    else ds + [d]
  }

  function StableSort(ds: seq<Draft>): seq<Draft> {
    if ds == [] then [] else Insert(StableSort(ds[..|ds| - 1]), ds[|ds| - 1])
  }

  predicate Chronological(ds: seq<Draft>) {
    forall i, j :: 0 <= i < j < |ds| ==> ds[i].said.at <= ds[j].said.at
  }

  /** The drafts of one instant, in the order they stand. */
  function At(ds: seq<Draft>, at: int): seq<Draft> {
    if ds == [] then []
    else At(ds[..|ds| - 1], at) + if ds[|ds| - 1].said.at == at then [ds[|ds| - 1]] else []
  }

  lemma AtSnoc(ds: seq<Draft>, d: Draft, at: int)
    ensures At(ds + [d], at) == At(ds, at) + if d.said.at == at then [d] else []
  {
    assert (ds + [d])[..|ds|] == ds;
  }

  lemma {:induction false} InsertBag(ds: seq<Draft>, d: Draft)
    ensures multiset(Insert(ds, d)) == multiset(ds) + multiset{d}
  {
    if ds != [] && d.said.at < ds[|ds| - 1].said.at {
      assert ds == ds[..|ds| - 1] + [ds[|ds| - 1]];
      InsertBag(ds[..|ds| - 1], d);
    }
  }

  lemma {:induction false} InsertOrdered(ds: seq<Draft>, d: Draft)
    requires Chronological(ds)
    ensures Chronological(Insert(ds, d))
  {
    if ds != [] && d.said.at < ds[|ds| - 1].said.at {
      var front, last := ds[..|ds| - 1], ds[|ds| - 1];
      InsertOrdered(front, d);
      InsertBag(front, d);
      forall i | 0 <= i < |Insert(front, d)| ensures Insert(front, d)[i].said.at <= last.said.at {
        assert Insert(front, d)[i] in multiset(Insert(front, d));
        assert Insert(front, d)[i] == d || Insert(front, d)[i] in front;
      }
    }
  }

  /** Insertion never passes a draft of the same instant, so each instant only gains at its end. */
  lemma {:induction false} InsertStable(ds: seq<Draft>, d: Draft, at: int)
    ensures At(Insert(ds, d), at) == At(ds, at) + if d.said.at == at then [d] else []
  {
    if ds != [] && d.said.at < ds[|ds| - 1].said.at {
      var front, last := ds[..|ds| - 1], ds[|ds| - 1];
      assert ds == front + [last];
      InsertStable(front, d, at);
      AtSnoc(front, last, at);
      AtSnoc(Insert(front, d), last, at);
    } else {
      AtSnoc(ds, d, at);
    }
  }

  lemma {:induction false} StableSortKeeps(ds: seq<Draft>, at: int)
    ensures Chronological(StableSort(ds))
    ensures multiset(StableSort(ds)) == multiset(ds)
    ensures At(StableSort(ds), at) == At(ds, at)
  {
    if ds != [] {
      assert ds == ds[..|ds| - 1] + [ds[|ds| - 1]];
      StableSortKeeps(ds[..|ds| - 1], at);
      InsertBag(StableSort(ds[..|ds| - 1]), ds[|ds| - 1]);
      InsertOrdered(StableSort(ds[..|ds| - 1]), ds[|ds| - 1]);
      InsertStable(StableSort(ds[..|ds| - 1]), ds[|ds| - 1], at);
    }
  }

  lemma {:induction false} LastAt(ds: seq<Draft>)
    requires ds != []
    ensures var last := ds[|ds| - 1];
            At(ds, last.said.at) != [] && At(ds, last.said.at)[|At(ds, last.said.at)| - 1] == last
  {
  }

  lemma SomeInstant(ds: seq<Draft>)
    ensures ds != [] ==> exists at :: At(ds, at) != []
  {
    if ds != [] { LastAt(ds); }
  }

  lemma {:induction false} AtMember(ds: seq<Draft>, d: Draft, at: int)
    ensures d in At(ds, at) <==> d in ds && d.said.at == at
  {
    if ds != [] {
      assert ds == ds[..|ds| - 1] + [ds[|ds| - 1]];
      AtMember(ds[..|ds| - 1], d, at);
    }
  }

  lemma DropLast<T>(a: seq<T>, b: seq<T>, tail: seq<T>)
    requires a + tail == b + tail
    ensures a == b
  {
    assert |a| == |b|;
    forall i | 0 <= i < |a| ensures a[i] == b[i] {
      assert a[i] == (a + tail)[i] && b[i] == (b + tail)[i];
    }
  }

  /** Order in time and stability leave only one answer, whatever sorts. */
  lemma {:induction false} StableOrderUnique(a: seq<Draft>, b: seq<Draft>)
    requires Chronological(a) && Chronological(b)
    requires forall at :: At(a, at) == At(b, at)
    ensures a == b
  {
    SomeInstant(a);
    SomeInstant(b);
    if a != [] && b != [] {
      var la, lb := a[|a| - 1], b[|b| - 1];
      LastAt(a); LastAt(b);
      AtMember(b, la, la.said.at); AtMember(a, lb, lb.said.at);
      assert At(a, la.said.at) == At(b, la.said.at) && At(a, lb.said.at) == At(b, lb.said.at);
      assert la in b && lb in a;
      assert la.said.at == lb.said.at;
      assert la == lb;
      forall at: int {:trigger At(a[..|a| - 1], at)} ensures At(a[..|a| - 1], at) == At(b[..|b| - 1], at) {
        assert At(a, at) == At(b, at);
        DropLast(At(a[..|a| - 1], at), At(b[..|b| - 1], at), if la.said.at == at then [la] else []);
      }
      StableOrderUnique(a[..|a| - 1], b[..|b| - 1]);
      assert a == a[..|a| - 1] + [la] && b == b[..|b| - 1] + [lb];
    }
  }

  /** `timestamp_repairs`: how many places hold a different draft after sorting. */
  function Moved(before: seq<Draft>, after: seq<Draft>): nat
    requires |before| == |after|
  {
    if before == [] then 0
    else Moved(before[..|before| - 1], after[..|before| - 1])
         + if before[|before| - 1] != after[|after| - 1] then 1 else 0
  }

  lemma {:induction false} MovedZero(before: seq<Draft>, after: seq<Draft>)
    requires |before| == |after|
    ensures Moved(before, after) == 0 <==> before == after
  {
    if before != [] {
      MovedZero(before[..|before| - 1], after[..|before| - 1]);
      assert before == before[..|before| - 1] + [before[|before| - 1]];
      assert after == after[..|after| - 1] + [after[|after| - 1]];
    }
  }

  function Sayings(ds: seq<Draft>): (us: seq<Utterance>)
    ensures |us| == |ds|
    ensures forall i :: 0 <= i < |ds| ==> us[i] == ds[i].said
  {
    seq(|ds|, i requires 0 <= i < |ds| => ds[i].said)
  }

  lemma {:induction false} InsertedSayings(ds: seq<Draft>, d: Draft)
    ensures multiset(Sayings(Insert(ds, d))) == multiset(Sayings(ds)) + multiset{d.said}
  {
    if ds != [] && d.said.at < ds[|ds| - 1].said.at {
      var front, last := ds[..|ds| - 1], ds[|ds| - 1];
      InsertedSayings(front, d);
      assert Sayings(ds) == Sayings(front) + [last.said];
      assert Sayings(Insert(ds, d)) == Sayings(Insert(front, d)) + [last.said];
    } else {
      assert Sayings(ds + [d]) == Sayings(ds) + [d.said];
    }
  }

  lemma {:induction false} SortedSayings(ds: seq<Draft>)
    ensures multiset(Sayings(StableSort(ds))) == multiset(Sayings(ds))
  {
    if ds != [] {
      var front, last := ds[..|ds| - 1], ds[|ds| - 1];
      SortedSayings(front);
      InsertedSayings(StableSort(front), last);
      assert Sayings(ds) == Sayings(front) + [last.said];
    }
  }

  function Finished(us: seq<Utterance>): seq<Utterance> {
    Sayings(StableSort(Drafts(us)))
  }

  lemma FinishedBag(us: seq<Utterance>)
    ensures multiset(Finished(us)) == multiset(us)
  {
    SortedSayings(Drafts(us));
    assert Sayings(Drafts(us)) == us;
  }

  lemma StableSortLength(ds: seq<Draft>)
    ensures |StableSort(ds)| == |ds|
  {
    StableSortKeeps(ds, 0);
    assert |multiset(StableSort(ds))| == |multiset(ds)|;
  }

  /** Zero repairs are reported exactly for a transcript already in time order, and then the
      turns come back as they were read. */
  lemma NoRepairsIffOrdered(us: seq<Utterance>)
    ensures |StableSort(Drafts(us))| == |us|
    ensures Moved(Drafts(us), StableSort(Drafts(us))) == 0 <==> Chronological(Drafts(us))
    ensures Chronological(Drafts(us)) ==> Finished(us) == us
  {
    var ds := Drafts(us);
    StableSortLength(ds);
    StableSortKeeps(ds, 0);
    MovedZero(ds, StableSort(ds));
    if Chronological(ds) {
      forall at ensures At(StableSort(ds), at) == At(ds, at) { StableSortKeeps(ds, at); }
      StableOrderUnique(StableSort(ds), ds);
      assert Sayings(ds) == us;
    }
  }

  /* ---------------------------------------------------------------- the session being read */

  class Session {
    var turns: seq<Utterance>
    var lastAt: Option<int>
    var repairs: nat

    constructor ()
      ensures turns == [] && lastAt == None && repairs == 0
    {
      turns, lastAt, repairs := [], None, 0;
    }

    method ObserveTime(at: Option<int>)
      modifies this`lastAt
      ensures lastAt == Later(old(lastAt), at)
    {
      if at.Some? { lastAt := at; }
    }

    method Add(words: Words) returns (ok: bool)
      modifies this`turns
      ensures ok == Added(old(turns), lastAt, words).Ok?
      ensures turns == if ok then Added(old(turns), lastAt, words).value else old(turns)
    {
      if Blank(words.text) { return true; }
      if lastAt.None? { return false; }
      turns := turns + [Utterance(words.role, words.kind, lastAt.value, words.text)];
      ok := true;
    }

    /** The blocks of one message, in order, up to the first that cannot be dated. */
    method AddAll(says: seq<Words>) returns (ok: bool)
      modifies this`turns
      ensures ok == AddedAll(old(turns), lastAt, says).Ok?
      ensures ok ==> turns == AddedAll(old(turns), lastAt, says).value
    {
      for j := 0 to |says|
        invariant AddedAll(old(turns), lastAt, says[..j]) == Ok(turns)
      {
        assert says[..j + 1][..j] == says[..j];
        var added := Add(says[j]);
        if !added {
          RefusedWords(old(turns), lastAt, says, j + 1);
          return false;
        }
      }
      assert says[..|says|] == says;
      ok := true;
    }

    method Finish()
      modifies this`turns, this`repairs
      ensures turns == Finished(old(turns)) && multiset(turns) == multiset(old(turns))
      ensures repairs == 0 <==> Chronological(Drafts(old(turns)))
    {
      var before := Drafts(turns);
      var ordered := StableSort(before);
      FinishedBag(turns);
      NoRepairsIffOrdered(turns);
      repairs := Moved(before, ordered);
      turns := Sayings(ordered);
    }
  }

  function Later(last: Option<int>, at: Option<int>): Option<int> {
    if at.Some? then at else last
  }

  function Added(turns: seq<Utterance>, lastAt: Option<int>, words: Words): Result<seq<Utterance>> {
    if Blank(words.text) then Ok(turns)
    else if lastAt.None? then Err(NoTimestamp)
    else Ok(turns + [Utterance(words.role, words.kind, lastAt.value, words.text)])
  }

  function AddedAll(turns: seq<Utterance>, lastAt: Option<int>, says: seq<Words>): (r: Result<seq<Utterance>>)
    ensures r.Ok? ==> turns <= r.value
    ensures r.Err? ==> r.error == NoTimestamp
  {
    if says == [] then Ok(turns)
    else
      var front := AddedAll(turns, lastAt, says[..|says| - 1]);
      if front.Err? then front else Added(front.value, lastAt, says[|says| - 1])
  }

  /* ---------------------------------------------------------------- Claude Code */

  /** `counted` is false for rows that are not user or assistant, side chains, summaries and
      meta rows; `uuid` is the row's identity, when it has one. */
  datatype ClaudeRow = ClaudeRow(at: Option<int>, counted: bool, uuid: Option<nat>, says: seq<Words>)

  datatype ClaudeScan = ClaudeScan(turns: seq<Utterance>, lastAt: Option<int>, seen: set<nat>)

  function ClaudeStep(s: ClaudeScan, row: ClaudeRow): (r: Result<ClaudeScan>)
    ensures r.Ok? ==> s.turns <= r.value.turns
  {
    var lastAt := Later(s.lastAt, row.at);
    if !row.counted || (row.uuid.Some? && row.uuid.value in s.seen) then
      Ok(s.(lastAt := lastAt))
    else
      var added := AddedAll(s.turns, lastAt, row.says);
      if added.Err? then Err(added.error)
      else Ok(ClaudeScan(added.value, lastAt, if row.uuid.Some? then s.seen + {row.uuid.value} else s.seen))
  }

  function ScanClaude(rows: seq<ClaudeRow>): Result<ClaudeScan> {
    if rows == [] then Ok(ClaudeScan([], None, {}))
    else
      var front := ScanClaude(rows[..|rows| - 1]);
      if front.Err? then front else ClaudeStep(front.value, rows[|rows| - 1])
  }

  function ClaudeTurns(rows: seq<ClaudeRow>): Result<seq<Utterance>> {
    var scan := ScanClaude(rows);
    if scan.Err? then Err(scan.error) else Ok(Finished(scan.value.turns))
  }

  method ReadClaude(rows: seq<ClaudeRow>) returns (r: Result<seq<Utterance>>)
    ensures r == ClaudeTurns(rows)
  {
    var session := new Session();
    var seen: set<nat> := {};
    for i := 0 to |rows|
      invariant ScanClaude(rows[..i]) == Ok(ClaudeScan(session.turns, session.lastAt, seen))
    {
      var row := rows[i];
      assert rows[..i + 1][..i] == rows[..i] && rows[..i + 1][i] == row;
      session.ObserveTime(row.at);
      if row.counted && !(row.uuid.Some? && row.uuid.value in seen) {
        if row.uuid.Some? { seen := seen + {row.uuid.value}; }
        var ok := session.AddAll(row.says);
        if !ok {
          RefusedRow(rows, i + 1);
          return Err(NoTimestamp);
        }
      }
    }
    assert rows[..|rows|] == rows;
    session.Finish();
    r := Ok(session.turns);
  }

  lemma {:induction false} RefusedWords(turns: seq<Utterance>, lastAt: Option<int>, says: seq<Words>, upto: nat)
    requires upto <= |says| && AddedAll(turns, lastAt, says[..upto]) == Err(NoTimestamp)
    ensures AddedAll(turns, lastAt, says) == Err(NoTimestamp)
    decreases |says| - upto
  {
    if upto == |says| {
      assert says[..upto] == says;
    } else {
      assert says[..upto + 1][..upto] == says[..upto];
      RefusedWords(turns, lastAt, says, upto + 1);
    }
  }

  lemma {:induction false} RefusedRow(rows: seq<ClaudeRow>, upto: nat)
    requires upto <= |rows| && ScanClaude(rows[..upto]) == Err(NoTimestamp)
    ensures ScanClaude(rows) == Err(NoTimestamp)
    decreases |rows| - upto
  {
    if upto == |rows| {
      assert rows[..upto] == rows;
    } else {
      assert rows[..upto + 1][..upto] == rows[..upto];
      RefusedRow(rows, upto + 1);
    }
  }

  /** Rows are only appended, so a readable transcript was readable before, and what it read
      then is still the beginning of what it reads now. */
  lemma {:induction false} ScanClaudeGrows(rows: seq<ClaudeRow>, upto: nat)
    requires upto <= |rows| && ScanClaude(rows).Ok?
    ensures ScanClaude(rows[..upto]).Ok?
    ensures ScanClaude(rows[..upto]).value.turns <= ScanClaude(rows).value.turns
    decreases |rows| - upto
  {
    if upto == |rows| {
      assert rows[..upto] == rows;
    } else {
      ScanClaudeGrows(rows, upto + 1);
      assert rows[..upto + 1][..upto] == rows[..upto];
    }
  }

  lemma PrefixBag<T>(a: seq<T>, b: seq<T>)
    requires a <= b
    ensures multiset(a) <= multiset(b)
  {
    assert b == a + b[|a|..];
  }

  /** Claude Code growth never looks like a rewrite: the subtraction of anything read from an
      earlier prefix succeeds, although sorting may have put late rows in the middle. */
  lemma ClaudeGrowthIsNoRewrite(rows: seq<ClaudeRow>, upto: nat, exported: nat)
    requires upto <= |rows| && ClaudeTurns(rows).Ok?
    ensures ClaudeTurns(rows[..upto]).Ok?
    ensures multiset(ClaudeTurns(rows[..upto]).value) <= multiset(ClaudeTurns(rows).value)
    ensures Pending(ClaudeTurns(rows).value, ClaudeTurns(rows[..upto]).value, exported).Ok?
  {
    ScanClaudeGrows(rows, upto);
    FinishedBag(ScanClaude(rows).value.turns);
    FinishedBag(ScanClaude(rows[..upto]).value.turns);
    PrefixBag(ScanClaude(rows[..upto]).value.turns, ScanClaude(rows).value.turns);
  }

  /* ---------------------------------------------------------------- Codex */

  /** Response items carry their words; event messages carry one text of one role; every other
      row only moves the clock. */
  datatype CodexRow =
    | Item(at: Option<int>, key: Option<nat>, says: seq<Words>)
    | Event(at: Option<int>, role: Role, text: string)
    | Other(at: Option<int>)

  datatype CodexScan = CodexScan(turns: seq<Utterance>, events: seq<Utterance>, lastAt: Option<int>, seen: set<nat>)

  function Mirror(role: Role, at: int, text: string): Utterance {
    Utterance(role, if role == Owner then Say else Narrative, at, text)
  }

  function CodexStep(s: CodexScan, row: CodexRow): (r: Result<CodexScan>)
    ensures r.Ok? ==> s.turns <= r.value.turns && s.events <= r.value.events
  {
    var lastAt := Later(s.lastAt, row.at);
    match row
    case Other(_) => Ok(s.(lastAt := lastAt))
    case Event(_, role, text) =>
      if Blank(text) || lastAt.None? then Ok(s.(lastAt := lastAt))
      else Ok(s.(lastAt := lastAt, events := s.events + [Mirror(role, lastAt.value, text)]))
    case Item(_, key, says) =>
      if key.Some? && key.value in s.seen then Ok(s.(lastAt := lastAt))
      else
        var added := AddedAll(s.turns, lastAt, says);
        if added.Err? then Err(added.error)
        else Ok(CodexScan(added.value, s.events, lastAt, if key.Some? then s.seen + {key.value} else s.seen))
  }

  function ScanCodex(rows: seq<CodexRow>): Result<CodexScan> {
    if rows == [] then Ok(CodexScan([], [], None, {}))
    else
      var front := ScanCodex(rows[..|rows| - 1]);
      if front.Err? then front else CodexStep(front.value, rows[|rows| - 1])
  }

  /** A role speaks through response items once one of its items is not a tool action. */
  predicate Itemised(turns: seq<Utterance>, role: Role) {
    exists i :: 0 <= i < |turns| && turns[i].role == role && turns[i].kind != Action
  }

  function Retained(events: seq<Utterance>, turns: seq<Utterance>): seq<Utterance> {
    if events == [] then []
    else Retained(events[..|events| - 1], turns)
         + if Itemised(turns, events[|events| - 1].role) then [] else [events[|events| - 1]]
  }

  function CodexTurns(rows: seq<CodexRow>): Result<seq<Utterance>> {
    var scan := ScanCodex(rows);
    if scan.Err? then Err(scan.error)
    else Ok(Finished(scan.value.turns + Retained(scan.value.events, scan.value.turns)))
  }

  method ReadCodex(rows: seq<CodexRow>) returns (r: Result<seq<Utterance>>)
    ensures r == CodexTurns(rows)
  {
    var session := new Session();
    var events: seq<Utterance> := [];
    var seen: set<nat> := {};
    for i := 0 to |rows|
      invariant ScanCodex(rows[..i]) == Ok(CodexScan(session.turns, events, session.lastAt, seen))
    {
      var row := rows[i];
      assert rows[..i + 1][..i] == rows[..i] && rows[..i + 1][i] == row;
      session.ObserveTime(row.at);
      match row {
        case Other(_) =>
        case Event(_, role, text) =>
          if !Blank(text) && session.lastAt.Some? {
            events := events + [Mirror(role, session.lastAt.value, text)];
          }
        case Item(_, key, says) =>
          if !(key.Some? && key.value in seen) {
            if key.Some? { seen := seen + {key.value}; }
            var ok := session.AddAll(says);
            if !ok {
              RefusedCodexRow(rows, i + 1);
              return Err(NoTimestamp);
            }
          }
      }
    }
    assert rows[..|rows|] == rows;
    session.turns := session.turns + Retained(events, session.turns);
    session.Finish();
    r := Ok(session.turns);
  }

  lemma {:induction false} RefusedCodexRow(rows: seq<CodexRow>, upto: nat)
    requires upto <= |rows| && ScanCodex(rows[..upto]) == Err(NoTimestamp)
    ensures ScanCodex(rows) == Err(NoTimestamp)
    decreases |rows| - upto
  {
    if upto == |rows| {
      assert rows[..upto] == rows;
    } else {
      assert rows[..upto + 1][..upto] == rows[..upto];
      RefusedCodexRow(rows, upto + 1);
    }
  }

  lemma {:induction false} ScanCodexGrows(rows: seq<CodexRow>, upto: nat)
    requires upto <= |rows| && ScanCodex(rows).Ok?
    ensures ScanCodex(rows[..upto]).Ok?
    ensures ScanCodex(rows[..upto]).value.turns <= ScanCodex(rows).value.turns
    ensures ScanCodex(rows[..upto]).value.events <= ScanCodex(rows).value.events
    decreases |rows| - upto
  {
    if upto == |rows| {
      assert rows[..upto] == rows;
    } else {
      ScanCodexGrows(rows, upto + 1);
      assert rows[..upto + 1][..upto] == rows[..upto];
    }
  }

  lemma {:induction false} EventsAreMessages(rows: seq<CodexRow>)
    requires ScanCodex(rows).Ok?
    ensures forall i :: 0 <= i < |ScanCodex(rows).value.events| ==> ScanCodex(rows).value.events[i].kind != Action
  {
    if rows != [] { EventsAreMessages(rows[..|rows| - 1]); }
  }

  lemma {:induction false} RetainedCount(events: seq<Utterance>, turns: seq<Utterance>, u: Utterance)
    ensures multiset(Retained(events, turns))[u] == if Itemised(turns, u.role) then 0 else multiset(events)[u]
  {
    if events != [] {
      hide Itemised;
      var front, last := events[..|events| - 1], events[|events| - 1];
      RetainedCount(front, turns, u);
      assert events == front + [last];
      assert multiset(events)[u] == multiset(front)[u] + if last == u then 1 else 0;
    }
  }

  lemma MessagesItemise(turns: seq<Utterance>, u: Utterance)
    ensures multiset(turns)[u] > 0 && u.kind != Action ==> Itemised(turns, u.role)
  {
    if u in turns {
      var i :| 0 <= i < |turns| && turns[i] == u;
    }
  }

  /** The events a prefix kept for a role that has items by the end of the file: the reader
      drops them all, and only equal items can stand in for them. */
  function Displaced(rows: seq<CodexRow>, upto: nat): multiset<Utterance>
    requires upto <= |rows| && ScanCodex(rows).Ok? && ScanCodex(rows[..upto]).Ok?
  {
    var early := ScanCodex(rows[..upto]).value;
    multiset(Retained(early.events, early.turns))
    - multiset(Retained(Retained(early.events, early.turns), ScanCodex(rows).value.turns))
  }

  lemma PlusCount<T>(a: seq<T>, b: seq<T>, u: T)
    ensures multiset(a + b)[u] == multiset(a)[u] + multiset(b)[u]
  {
  }

  /** One utterance is still there after growth just when its displaced copies are repeated. */
  lemma DisplacedCount(p: CodexScan, f: CodexScan, u: Utterance)
    requires p.turns <= f.turns && p.events <= f.events
    requires forall i :: 0 <= i < |p.events| ==> p.events[i].kind != Action
    ensures var pr, fr := Retained(p.events, p.turns), Retained(f.events, f.turns);
            multiset(p.turns + pr)[u] <= multiset(f.turns + fr)[u]
            <==> (multiset(pr) - multiset(Retained(pr, f.turns)))[u] <= multiset(f.turns)[u]
  {
    hide Retained, Itemised;
    var pr, fr := Retained(p.events, p.turns), Retained(f.events, f.turns);
    PlusCount(p.turns, pr, u);
    PlusCount(f.turns, fr, u);
    PrefixBag(p.turns, f.turns);
    PrefixBag(p.events, f.events);
    RetainedCount(p.events, p.turns, u);
    RetainedCount(f.events, f.turns, u);
    RetainedCount(pr, f.turns, u);
    MessagesItemise(p.turns, u);
    assert multiset(p.events)[u] > 0 ==> u in p.events;
  }

  /** Codex growth looks like a rewrite unless every displaced event is repeated word for word,
      role for role and instant for instant by a response item. */
  lemma CodexGrowthIsNoRewriteIff(rows: seq<CodexRow>, upto: nat, exported: nat)
    requires upto <= |rows| && CodexTurns(rows).Ok?
    ensures CodexTurns(rows[..upto]).Ok?
    ensures Pending(CodexTurns(rows).value, CodexTurns(rows[..upto]).value, exported).Ok?
            <==> Displaced(rows, upto) <= multiset(ScanCodex(rows).value.turns)
  {
    hide ScanCodex, Retained, Finished;
    ScanCodexGrows(rows, upto);
    var p, f := ScanCodex(rows[..upto]).value, ScanCodex(rows).value;
    FinishedBag(p.turns + Retained(p.events, p.turns));
    FinishedBag(f.turns + Retained(f.events, f.turns));
    EventsAreMessages(rows[..upto]);
    forall u: Utterance
      ensures multiset(p.turns + Retained(p.events, p.turns))[u] <= multiset(f.turns + Retained(f.events, f.turns))[u]
              <==> Displaced(rows, upto)[u] <= multiset(f.turns)[u]
    {
      DisplacedCount(p, f, u);
    }
  }

  /** Two rows for which growth does look like a rewrite: the owner's event was kept until
      the owner's first response item, recorded a second later, displaced it. */
  lemma CodexLateItemLooksRewritten()
    ensures var rows := [Event(Some(1), Owner, "hi"), Item(Some(2), None, [Words(Owner, Say, "hi")])];
            CodexTurns(rows).Ok? && CodexTurns(rows[..1]).Ok?
            && !Pending(CodexTurns(rows).value, CodexTurns(rows[..1]).value, 1).Ok?
  {
    hide ScanCodex, Retained, Itemised, Pending;
    var rows := [Event(Some(1), Owner, "hi"), Item(Some(2), None, [Words(Owner, Say, "hi")])];
    var heard, item := Mirror(Owner, 1, "hi"), Utterance(Owner, Say, 2, "hi");
    LateItemScan(rows, heard, item);
    CodexGrowthIsNoRewriteIff(rows, 1, 1);
    ItemDisplaces(heard, item);
    assert Displaced(rows, 1)[heard] == 1;
    assert multiset([item])[heard] == 0;
  }

  lemma ItemDisplaces(heard: Utterance, item: Utterance)
    requires heard.role == item.role && item.kind != Action
    ensures multiset(Retained([heard], []))[heard] == 1
    ensures multiset(Retained(Retained([heard], []), [item]))[heard] == 0
  {
    assert [item][0].role == item.role;
    assert Itemised([item], item.role) && !Itemised([], item.role);
    RetainedCount([heard], [], heard);
    RetainedCount(Retained([heard], []), [item], heard);
  }

  lemma LateItemScan(rows: seq<CodexRow>, heard: Utterance, item: Utterance)
    requires rows == [Event(Some(1), Owner, "hi"), Item(Some(2), None, [Words(Owner, Say, "hi")])]
    requires heard == Mirror(Owner, 1, "hi") && item == Utterance(Owner, Say, 2, "hi")
    ensures ScanCodex(rows[..1]) == Ok(CodexScan([], [heard], Some(1), {}))
    ensures ScanCodex(rows) == Ok(CodexScan([item], [heard], Some(2), {}))
  {
    assert !Space("hi"[0]);
    assert [] + [heard] == [heard] && [] + [item] == [item];
    var start := CodexScan([], [], None, {});
    assert rows[..1][..0] == [] && ScanCodex([]) == Ok(start);
    assert ScanCodex(rows[..1]) == CodexStep(start, rows[0]);
    var says := [Words(Owner, Say, "hi")];
    assert says[..0] == [] && AddedAll([], Some(2), []) == Ok([]);
    assert AddedAll([], Some(2), says) == Added([], Some(2), says[0]);
    assert rows[..|rows| - 1] == rows[..1];
  }
}
