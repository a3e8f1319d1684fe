/** What the two readers return, said over the rows by place: no clock is threaded, no set of
    identities kept and no scan mentioned. A word is retained when its row is the first counted
    one of its identity, at the instant the nearest dated row at or above it states. */
module Transcripts {
  import opened Turns
  import opened Readers

  /** The instant stated last at or before a row. */
  ghost function Clock(rows: seq<ClaudeRow>, i: int): Option<int>
    requires i < |rows|
    decreases i
  {
    if i < 0 then None else if rows[i].at.Some? then rows[i].at else Clock(rows, i - 1)
  }

  /** A counted row whose identity no counted row above it has. */
  ghost predicate Fresh(rows: seq<ClaudeRow>, i: nat)
    requires i < |rows|
  {
    && rows[i].counted
    && (rows[i].uuid.Some? ==> forall k :: 0 <= k < i && rows[k].counted ==> rows[k].uuid != rows[i].uuid)
  }

  ghost predicate Speaks(rows: seq<ClaudeRow>, i: nat, j: nat)
    requires i < |rows| && j < |rows[i].says|
  {
    Fresh(rows, i) && !Blank(rows[i].says[j].text)
  }

  /** The word in this place becomes this turn. */
  ghost predicate Says(rows: seq<ClaudeRow>, i: nat, j: nat, u: Utterance)
    requires i < |rows| && j < |rows[i].says|
  {
    Speaks(rows, i, j) && rows[i].says[j] == Words(u.role, u.kind, u.text) && Clock(rows, i) == Some(u.at)
  }

  ghost function Places(rows: seq<ClaudeRow>, u: Utterance): set<(int, int)> {
    set i, j | 0 <= i < |rows| && 0 <= j < |rows[i].says| && Says(rows, i, j, u) :: (i, j)
  }

  /* ---------------------------------------------------------------- the words in reading order */

  ghost function Dated(says: seq<Words>, at: int): seq<Utterance> {
    if says == [] then []
    else
      var last := says[|says| - 1];
      Dated(says[..|says| - 1], at)
      + if Blank(last.text) then [] else [Utterance(last.role, last.kind, at, last.text)]
  }

  ghost function RowWords(rows: seq<ClaudeRow>, i: nat): seq<Utterance>
    requires i < |rows|
  {
    if Fresh(rows, i) && Clock(rows, i).Some? then Dated(rows[i].says, Clock(rows, i).value) else []
  }

  /** The words of the first `n` rows, top to bottom. */
  ghost function Spoken(rows: seq<ClaudeRow>, n: nat): seq<Utterance>
    requires n <= |rows|
  {
    if n == 0 then [] else Spoken(rows, n - 1) + RowWords(rows, n - 1)
  }

  ghost predicate AnyText(says: seq<Words>) {
    exists j :: 0 <= j < |says| && !Blank(says[j].text)
  }

  lemma {:induction false} AddedIsDated(turns: seq<Utterance>, at: Option<int>, says: seq<Words>)
    ensures AddedAll(turns, at, says).Ok? <==> at.Some? || !AnyText(says)
    ensures AddedAll(turns, at, says).Ok?
            ==> AddedAll(turns, at, says).value == turns + if at.Some? then Dated(says, at.value) else []
  {
    if says == [] {
      assert turns + [] == turns;
    } else {
      var front, last := says[..|says| - 1], says[|says| - 1];
      AddedIsDated(turns, at, front);
      assert AnyText(says) <==> AnyText(front) || !Blank(last.text) by {
        if AnyText(front) {
          var j :| 0 <= j < |front| && !Blank(front[j].text);
          assert says[j] == front[j];
        }
        if AnyText(says) && Blank(last.text) {
          var j :| 0 <= j < |says| && !Blank(says[j].text);
          assert front[j] == says[j];
        }
      }
    }
  }

  ghost function Identities(rows: seq<ClaudeRow>, n: nat): set<nat>
    requires n <= |rows|
  {
    set i | 0 <= i < n && rows[i].counted && rows[i].uuid.Some? :: rows[i].uuid.value
  }

  /** The first rows up to `n` can be read. */
  ghost predicate ReadableTo(rows: seq<ClaudeRow>, n: nat)
    requires n <= |rows|
  {
    forall i: nat :: i < n && Fresh(rows, i) && AnyText(rows[i].says) ==> Clock(rows, i).Some?
  }

  lemma FreshIsUnseen(rows: seq<ClaudeRow>, i: nat)
    requires i < |rows|
    ensures Fresh(rows, i)
            <==> rows[i].counted && !(rows[i].uuid.Some? && rows[i].uuid.value in Identities(rows, i))
  {
  }

  lemma IdentitiesGrow(rows: seq<ClaudeRow>, i: nat)
    requires i < |rows|
    ensures Identities(rows, i + 1)
            == Identities(rows, i) + if rows[i].counted && rows[i].uuid.Some? then {rows[i].uuid.value} else {}
  {
  }

  lemma StepIsSpoken(rows: seq<ClaudeRow>, n: nat)
    requires n < |rows| && ReadableTo(rows, n)
    ensures var front := ClaudeScan(Spoken(rows, n), Clock(rows, n - 1), Identities(rows, n));
            var next := ClaudeStep(front, rows[n]);
            && (next.Ok? <==> ReadableTo(rows, n + 1))
            && (next.Ok? ==> next.value == ClaudeScan(Spoken(rows, n + 1), Clock(rows, n), Identities(rows, n + 1)))
  {
    hide Fresh, Dated, Blank;
    FreshIsUnseen(rows, n);
    IdentitiesGrow(rows, n);
    AddedIsDated(Spoken(rows, n), Clock(rows, n), rows[n].says);
  }

  lemma {:induction false} ScanIsSpoken(rows: seq<ClaudeRow>, n: nat)
    requires n <= |rows|
    ensures ScanClaude(rows[..n]).Ok? <==> ReadableTo(rows, n)
    ensures ReadableTo(rows, n)
            ==> ScanClaude(rows[..n]).value == ClaudeScan(Spoken(rows, n), Clock(rows, n - 1), Identities(rows, n))
  {
    if n > 0 {
      hide ClaudeStep, Fresh, Spoken, Clock, Identities;
      ScanIsSpoken(rows, n - 1);
      assert rows[..n][..n - 1] == rows[..n - 1];
      if ReadableTo(rows, n - 1) { StepIsSpoken(rows, n - 1); }
    }
  }

  /* ---------------------------------------------------------------- how often a turn is read */

  /** The places of one row, up to its `m`th word, whose word is this turn. */
  ghost function RowPlaces(rows: seq<ClaudeRow>, i: nat, m: nat, u: Utterance): set<(int, int)>
    requires i < |rows| && m <= |rows[i].says|
  {
    set j | 0 <= j < m && Says(rows, i, j, u) :: (i, j)
  }

  ghost function PlacesTo(rows: seq<ClaudeRow>, n: nat, u: Utterance): set<(int, int)>
    requires n <= |rows|
  {
    set i, j | 0 <= i < n && 0 <= j < |rows[i].says| && Says(rows, i, j, u) :: (i, j)
  }

  lemma AddOne<T>(a: set<T>, b: set<T>, x: T, more: bool)
    requires b == a + (if more then {x} else {}) && x !in a
    ensures |b| == |a| + if more then 1 else 0
  {
  }

  lemma OneMorePlace(rows: seq<ClaudeRow>, i: nat, m: nat, u: Utterance)
    requires i < |rows| && 0 < m <= |rows[i].says|
    ensures |RowPlaces(rows, i, m, u)| == |RowPlaces(rows, i, m - 1, u)| + if Says(rows, i, m - 1, u) then 1 else 0
  {
    hide Says;
    AddOne(RowPlaces(rows, i, m - 1, u), RowPlaces(rows, i, m, u), (i, m - 1), Says(rows, i, m - 1, u));
  }

  lemma DatedNone(at: int)
    ensures Dated([], at) == []
  {
  }

  lemma DatedSnoc(says: seq<Words>, at: int, m: nat, u: Utterance)
    requires 0 < m <= |says|
    ensures multiset(Dated(says[..m], at))[u]
            == multiset(Dated(says[..m - 1], at))[u]
               + if !Blank(says[m - 1].text) && u.at == at && says[m - 1] == Words(u.role, u.kind, u.text) then 1 else 0
  {
    hide Blank;
    assert says[..m][..m - 1] == says[..m - 1];
  }

  lemma {:induction false} RowCount(rows: seq<ClaudeRow>, i: nat, m: nat, u: Utterance)
    requires i < |rows| && m <= |rows[i].says| && Fresh(rows, i) && Clock(rows, i).Some?
    ensures multiset(Dated(rows[i].says[..m], Clock(rows, i).value))[u] == |RowPlaces(rows, i, m, u)|
  {
    hide Fresh, Clock, Blank, Dated;
    if m == 0 {
      DatedNone(Clock(rows, i).value);
      assert rows[i].says[..0] == [] && RowPlaces(rows, i, m, u) == {};
    } else {
      RowCount(rows, i, m - 1, u);
      DatedSnoc(rows[i].says, Clock(rows, i).value, m, u);
      OneMorePlace(rows, i, m, u);
    }
  }

  lemma RowWordsCount(rows: seq<ClaudeRow>, i: nat, u: Utterance)
    requires i < |rows|
    ensures multiset(RowWords(rows, i))[u] == |RowPlaces(rows, i, |rows[i].says|, u)|
  {
    if Fresh(rows, i) && Clock(rows, i).Some? {
      RowCount(rows, i, |rows[i].says|, u);
      assert rows[i].says[..|rows[i].says|] == rows[i].says;
    } else {
      assert RowPlaces(rows, i, |rows[i].says|, u) == {};
    }
  }

  lemma {:induction false} SpokenCount(rows: seq<ClaudeRow>, n: nat, u: Utterance)
    requires n <= |rows|
    ensures multiset(Spoken(rows, n))[u] == |PlacesTo(rows, n, u)|
  {
    if n == 0 {
      assert PlacesTo(rows, 0, u) == {};
    } else {
      hide RowWords, Says;
      var early, row := PlacesTo(rows, n - 1, u), RowPlaces(rows, n - 1, |rows[n - 1].says|, u);
      SpokenCount(rows, n - 1, u);
      RowWordsCount(rows, n - 1, u);
      assert PlacesTo(rows, n, u) == early + row;
      assert early !! row;
    }
  }

  /* ---------------------------------------------------------------- Claude Code */

  /** A Claude Code transcript is refused exactly when a row that counts says something before
      any instant is stated, and reads as its words in order, sorted by time. */
  lemma ClaudeReads(rows: seq<ClaudeRow>)
    ensures ClaudeTurns(rows).Ok? <==> ReadableTo(rows, |rows|)
    ensures ReadableTo(rows, |rows|) ==> ClaudeTurns(rows).value == Finished(Spoken(rows, |rows|))
  {
    ScanIsSpoken(rows, |rows|);
    assert rows[..|rows|] == rows;
  }

  /** Each turn of a readable Claude Code transcript comes back as often as there are places
      for it: words of repeated identities, of rows that do not count and blank words never. */
  lemma ClaudeTurnPlaces(rows: seq<ClaudeRow>, u: Utterance)
    requires ClaudeTurns(rows).Ok?
    ensures multiset(ClaudeTurns(rows).value)[u] == |Places(rows, u)|
  {
    ClaudeReads(rows);
    FinishedBag(Spoken(rows, |rows|));
    SpokenCount(rows, |rows|, u);
    assert PlacesTo(rows, |rows|, u) == Places(rows, u);
  }

  /* ---------------------------------------------------------------- Codex */

  /** Response items count; events and every other row only state instants. */
  ghost function Records(rows: seq<CodexRow>): (rs: seq<ClaudeRow>)
    ensures |rs| == |rows|
  {
    seq(|rows|, i requires 0 <= i < |rows| =>
      if rows[i].Item? then ClaudeRow(rows[i].at, true, rows[i].key, rows[i].says)
      else ClaudeRow(rows[i].at, false, None, []))
  }

  /** The event that becomes this turn. */
  ghost predicate Mirrors(rows: seq<CodexRow>, i: nat, u: Utterance)
    requires i < |rows|
  {
    && rows[i].Event? && !Blank(rows[i].text) && Clock(Records(rows), i) == Some(u.at)
    && u.role == rows[i].role && u.text == rows[i].text
    && u.kind == if u.role == Owner then Say else Narrative
  }

  /** The role says something that is not a tool action. */
  ghost predicate Answered(rows: seq<ClaudeRow>, role: Role) {
    exists i: nat, j: nat :: i < |rows| && j < |rows[i].says| && Speaks(rows, i, j)
                             && rows[i].says[j].role == role && rows[i].says[j].kind != Action
  }

  ghost function EventPlaces(rows: seq<CodexRow>, u: Utterance): set<int> {
    set i | 0 <= i < |rows| && Mirrors(rows, i, u)
  }

  ghost function EventOf(rows: seq<CodexRow>, i: nat): seq<Utterance>
    requires i < |rows|
  {
    if rows[i].Event? && !Blank(rows[i].text) && Clock(Records(rows), i).Some?
    then [Utterance(rows[i].role, if rows[i].role == Owner then Say else Narrative,
                    Clock(Records(rows), i).value, rows[i].text)]
    else []
  }

  /** The dated events of the first `n` rows, top to bottom. */
  ghost function Heard(rows: seq<CodexRow>, n: nat): seq<Utterance>
    requires n <= |rows|
  {
    if n == 0 then [] else Heard(rows, n - 1) + EventOf(rows, n - 1)
  }

  /** An event is kept when no response item answers for its role. */
  ghost function KeptEvent(rows: seq<CodexRow>, i: nat): seq<Utterance>
    requires i < |rows|
  {
    if rows[i].Event? && !Answered(Records(rows), rows[i].role) then EventOf(rows, i) else []
  }

  ghost function Unanswered(rows: seq<CodexRow>, n: nat): seq<Utterance>
    requires n <= |rows|
  {
    if n == 0 then [] else Unanswered(rows, n - 1) + KeptEvent(rows, n - 1)
  }

  lemma StepIsHeard(rows: seq<CodexRow>, rs: seq<ClaudeRow>, n: nat)
    requires rs == Records(rows) && n < |rows| && ReadableTo(rs, n)
    ensures var front := CodexScan(Spoken(rs, n), Heard(rows, n), Clock(rs, n - 1), Identities(rs, n));
            var next := CodexStep(front, rows[n]);
            && (next.Ok? <==> ReadableTo(rs, n + 1))
            && (next.Ok? ==> next.value == CodexScan(Spoken(rs, n + 1), Heard(rows, n + 1), Clock(rs, n),
                                                     Identities(rs, n + 1)))
  {
    hide Fresh, Dated, Blank, AddedAll, AnyText;
    assert |rs| == |rows|;
    assert rs[n] == if rows[n].Item? then ClaudeRow(rows[n].at, true, rows[n].key, rows[n].says)
                    else ClaudeRow(rows[n].at, false, None, []);
    FreshIsUnseen(rs, n);
    IdentitiesGrow(rs, n);
    AddedIsDated(Spoken(rs, n), Clock(rs, n), rs[n].says);
  }

  lemma {:induction false} ScanIsHeard(rows: seq<CodexRow>, n: nat)
    requires n <= |rows|
    ensures ScanCodex(rows[..n]).Ok? <==> ReadableTo(Records(rows), n)
    ensures var rs := Records(rows);
            ReadableTo(rs, n)
            ==> ScanCodex(rows[..n]).value
                == CodexScan(Spoken(rs, n), Heard(rows, n), Clock(rs, n - 1), Identities(rs, n))
  {
    if n > 0 {
      hide CodexStep, Fresh, Spoken, Heard, Clock, Identities;
      ScanIsHeard(rows, n - 1);
      assert rows[..n][..n - 1] == rows[..n - 1];
      if ReadableTo(Records(rows), n - 1) { StepIsHeard(rows, Records(rows), n - 1); }
    }
  }

  lemma {:induction false} DatedMember(says: seq<Words>, at: int, u: Utterance)
    ensures u in Dated(says, at) <==> u.at == at && !Blank(u.text) && Words(u.role, u.kind, u.text) in says
  {
    if says != [] {
      assert says == says[..|says| - 1] + [says[|says| - 1]];
      DatedMember(says[..|says| - 1], at, u);
    }
  }

  lemma {:induction false} SpokenMember(rows: seq<ClaudeRow>, n: nat, u: Utterance)
    requires n <= |rows|
    ensures u in Spoken(rows, n) <==> exists i: nat :: i < n && u in RowWords(rows, i)
  {
    hide RowWords;
    if n > 0 {
      SpokenMember(rows, n - 1, u);
      assert u in Spoken(rows, n) <==> u in Spoken(rows, n - 1) || u in RowWords(rows, n - 1);
    }
  }

  lemma AnswerIsSpoken(rows: seq<ClaudeRow>, role: Role, i: nat, j: nat)
    requires ReadableTo(rows, |rows|) && i < |rows| && j < |rows[i].says| && Speaks(rows, i, j)
    requires rows[i].says[j].role == role && rows[i].says[j].kind != Action
    ensures Itemised(Spoken(rows, |rows|), role)
  {
    hide Spoken, Dated, Clock, Blank;
    assert AnyText(rows[i].says);
    var w := rows[i].says[j];
    var u := Utterance(w.role, w.kind, Clock(rows, i).value, w.text);
    DatedMember(rows[i].says, u.at, u);
    assert u in RowWords(rows, i);
    SpokenMember(rows, |rows|, u);
  }

  lemma SpokenIsAnswer(rows: seq<ClaudeRow>, u: Utterance)
    requires u in Spoken(rows, |rows|) && u.kind != Action
    ensures Answered(rows, u.role)
  {
    hide Spoken, Dated, Clock, Blank;
    SpokenMember(rows, |rows|, u);
    var i: nat :| i < |rows| && u in RowWords(rows, i);
    DatedMember(rows[i].says, Clock(rows, i).value, u);
    var j :| 0 <= j < |rows[i].says| && rows[i].says[j] == Words(u.role, u.kind, u.text);
    assert Speaks(rows, i, j);
  }

  /** The reader's test on the turns it has, said over the places. */
  lemma AnsweredIsItemised(rows: seq<ClaudeRow>, role: Role)
    requires ReadableTo(rows, |rows|)
    ensures Itemised(Spoken(rows, |rows|), role) <==> Answered(rows, role)
  {
    hide Spoken, Speaks;
    var spoken := Spoken(rows, |rows|);
    if Answered(rows, role) {
      var i: nat, j: nat :| i < |rows| && j < |rows[i].says| && Speaks(rows, i, j)
                            && rows[i].says[j].role == role && rows[i].says[j].kind != Action;
      AnswerIsSpoken(rows, role, i, j);
    }
    if Itemised(spoken, role) {
      var k :| 0 <= k < |spoken| && spoken[k].role == role && spoken[k].kind != Action;
      SpokenIsAnswer(rows, spoken[k]);
    }
  }

  lemma RetainedSnoc(events: seq<Utterance>, u: Utterance, turns: seq<Utterance>)
    ensures Retained(events + [u], turns) == Retained(events, turns) + if Itemised(turns, u.role) then [] else [u]
  {
    hide Itemised;
    assert (events + [u])[..|events|] == events;
  }

  lemma EventRetained(rows: seq<CodexRow>, n: nat, events: seq<Utterance>)
    requires n < |rows| && ReadableTo(Records(rows), |rows|)
    ensures var turns := Spoken(Records(rows), |rows|);
            Retained(events + EventOf(rows, n), turns) == Retained(events, turns) + KeptEvent(rows, n)
  {
    hide Answered, Itemised, Spoken, ReadableTo, Records, Clock, Blank, Retained;
    var said := EventOf(rows, n);
    if said == [] {
      assert events + said == events;
    } else {
      AnsweredIsItemised(Records(rows), rows[n].role);
      RetainedSnoc(events, said[0], Spoken(Records(rows), |rows|));
    }
  }

  lemma {:induction false} RetainedIsUnanswered(rows: seq<CodexRow>, n: nat)
    requires n <= |rows| && ReadableTo(Records(rows), |rows|)
    ensures Retained(Heard(rows, n), Spoken(Records(rows), |rows|)) == Unanswered(rows, n)
  {
    hide EventOf, KeptEvent, Spoken, ReadableTo, Records;
    if n > 0 {
      RetainedIsUnanswered(rows, n - 1);
      EventRetained(rows, n - 1, Heard(rows, n - 1));
    }
  }

  /** A Codex rollout is refused exactly when a first response item of its identity says
      something before any instant is stated; it reads as its items' words and then the events
      of the roles no item answers for, sorted by time. */
  lemma CodexReads(rows: seq<CodexRow>)
    ensures CodexTurns(rows).Ok? <==> ReadableTo(Records(rows), |rows|)
    ensures ReadableTo(Records(rows), |rows|)
            ==> CodexTurns(rows).value
                == Finished(Spoken(Records(rows), |rows|) + Unanswered(rows, |rows|))
  {
    ScanIsHeard(rows, |rows|);
    assert rows[..|rows|] == rows;
    if ReadableTo(Records(rows), |rows|) { RetainedIsUnanswered(rows, |rows|); }
  }

  ghost function EventPlacesTo(rows: seq<CodexRow>, n: nat, u: Utterance): set<int>
    requires n <= |rows|
  {
    set i | 0 <= i < n && Mirrors(rows, i, u)
  }

  lemma OneMoreEvent(rows: seq<CodexRow>, n: nat, u: Utterance)
    requires n < |rows|
    ensures |EventPlacesTo(rows, n + 1, u)| == |EventPlacesTo(rows, n, u)| + if Mirrors(rows, n, u) then 1 else 0
  {
    hide Mirrors;
    AddOne(EventPlacesTo(rows, n, u), EventPlacesTo(rows, n + 1, u), n, Mirrors(rows, n, u));
  }

  lemma KeptCount(rows: seq<CodexRow>, n: nat, u: Utterance)
    requires n < |rows|
    ensures multiset(KeptEvent(rows, n))[u]
            == if Mirrors(rows, n, u) && !Answered(Records(rows), u.role) then 1 else 0
  {
    hide Records, Clock, Blank, Answered;
  }

  lemma NothingUnanswered(rows: seq<CodexRow>, u: Utterance)
    ensures Unanswered(rows, 0) == [] && EventPlacesTo(rows, 0, u) == {}
  {
  }

  lemma UnansweredNext(rows: seq<CodexRow>, n: nat, u: Utterance)
    requires n < |rows|
    ensures multiset(Unanswered(rows, n + 1))[u]
            == multiset(Unanswered(rows, n))[u]
               + if Mirrors(rows, n, u) && !Answered(Records(rows), u.role) then 1 else 0
  {
    hide Answered, Records, KeptEvent, Mirrors;
    KeptCount(rows, n, u);
    PlusCount(Unanswered(rows, n), KeptEvent(rows, n), u);
  }

  lemma {:induction false} UnansweredCount(rows: seq<CodexRow>, n: nat, u: Utterance)
    requires n <= |rows|
    ensures multiset(Unanswered(rows, n))[u]
            == if Answered(Records(rows), u.role) then 0 else |EventPlacesTo(rows, n, u)|
  {
    hide Answered, Records, Mirrors, Unanswered, EventPlacesTo;
    NothingUnanswered(rows, u);
    if n > 0 {
      UnansweredCount(rows, n - 1, u);
      OneMoreEvent(rows, n - 1, u);
      UnansweredNext(rows, n - 1, u);
    }
  }

  /** Which turns a readable Codex rollout has: for a role that says something in a response
      item other than a tool action, each as often as an item says it; for any other role, its
      actions and every dated event. */
  lemma CodexTurnPlaces(rows: seq<CodexRow>, u: Utterance)
    requires CodexTurns(rows).Ok?
    ensures multiset(CodexTurns(rows).value)[u]
            == |Places(Records(rows), u)| + if Answered(Records(rows), u.role) then 0 else |EventPlaces(rows, u)|
    ensures !Answered(Records(rows), u.role) && u.kind != Action ==> Places(Records(rows), u) == {}
  {
    hide CodexTurns, Finished, Spoken, Unanswered, Clock, Fresh;
    var rs := Records(rows);
    CodexReads(rows);
    FinishedBag(Spoken(rs, |rows|) + Unanswered(rows, |rows|));
    PlusCount(Spoken(rs, |rows|), Unanswered(rows, |rows|), u);
    SpokenCount(rs, |rows|, u);
    UnansweredCount(rows, |rows|, u);
    assert PlacesTo(rs, |rows|, u) == Places(rs, u) && EventPlacesTo(rows, |rows|, u) == EventPlaces(rows, u);
    if p :| p in Places(rs, u) {
      assert Says(rs, p.0, p.1, u);
    }
  }
}
