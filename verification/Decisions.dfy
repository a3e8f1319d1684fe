/** When an increment is exported, when it is held and what either leaves behind, said over the
    increment's own utterances: the owner's turns and characters are counted by place, and
    neither the verdict nor the decision is named. */
module Decisions {
  import opened Turns
  import opened Readers
  import opened Splitting
  import opened Exporter

  /* ---------------------------------------------------------------- counting by place */

  ghost function OwnerSpots(turns: seq<Turn>): set<int> {
    set i | 0 <= i < |turns| && turns[i].said.role == Owner
  }

  ghost function OwnerTurns(turns: seq<Turn>): nat {
    |OwnerSpots(turns)|
  }

  /** Where the owner's characters stand: the turn and the place in its text. */
  ghost function OwnerPlaces(turns: seq<Turn>): set<(int, int)> {
    set i, k | 0 <= i < |turns| && turns[i].said.role == Owner && 0 <= k < |turns[i].said.text| :: (i, k)
  }

  ghost function OwnerChars(turns: seq<Turn>): nat {
    |OwnerPlaces(turns)|
  }

  /** The owner says something here that is neither a command nor an acknowledgement. */
  ghost predicate Substantial(turns: seq<Turn>, lowSignal: set<string>) {
    exists i :: 0 <= i < |turns| && turns[i].said.role == Owner && turns[i].said.text !in lowSignal
  }

  ghost function TextPlaces(i: int, n: nat): set<(int, int)> {
    set k | 0 <= k < n :: (i, k)
  }

  lemma {:induction false} TextPlacesCount(i: int, n: nat)
    ensures |TextPlaces(i, n)| == n
  {
    if n == 0 {
      assert TextPlaces(i, 0) == {};
    } else {
      TextPlacesCount(i, n - 1);
      assert TextPlaces(i, n) == TextPlaces(i, n - 1) + {(i, n - 1)};
    }
  }

  lemma OwnerSpotBound(turns: seq<Turn>)
    ensures |turns| !in OwnerSpots(turns)
  {
  }

  lemma {:induction false} TurnsCounted(turns: seq<Turn>)
    ensures |OwnerTexts(turns)| == OwnerTurns(turns)
  {
    if turns == [] {
      assert OwnerSpots(turns) == {};
    } else {
      var front, n := turns[..|turns| - 1], |turns| - 1;
      TurnsCounted(front);
      assert forall i :: 0 <= i < n ==> front[i] == turns[i];
      assert OwnerSpots(turns) == OwnerSpots(front) + if turns[n].said.role == Owner then {n} else {};
      hide OwnerSpots;
      assert n !in OwnerSpots(front) by { OwnerSpotBound(front); }
    }
  }

  lemma CharsSnoc(texts: seq<string>, text: string)
    ensures TextChars(texts + [text]) == TextChars(texts) + |text|
  {
    assert (texts + [text])[..|texts|] == texts;
  }

  lemma {:induction false} CharsCounted(turns: seq<Turn>)
    ensures TextChars(OwnerTexts(turns)) == OwnerChars(turns)
  {
    if turns == [] {
      assert OwnerPlaces(turns) == {};
    } else {
      var front, last := turns[..|turns| - 1], turns[|turns| - 1];
      CharsCounted(front);
      assert forall i :: 0 <= i < |front| ==> turns[i] == front[i];
      if last.said.role == Owner {
        CharsSnoc(OwnerTexts(front), last.said.text);
        TextPlacesCount(|front|, |last.said.text|);
        assert OwnerPlaces(turns) == OwnerPlaces(front) + TextPlaces(|front|, |last.said.text|);
        assert OwnerPlaces(front) !! TextPlaces(|front|, |last.said.text|);
      } else {
        assert OwnerTexts(turns) == OwnerTexts(front);
        assert OwnerPlaces(turns) == OwnerPlaces(front);
      }
    }
  }

  lemma {:induction false} TextsAre(turns: seq<Turn>, text: string)
    ensures text in OwnerTexts(turns)
            <==> exists i :: 0 <= i < |turns| && turns[i].said.role == Owner && turns[i].said.text == text
  {
    if turns != [] {
      var front, last := turns[..|turns| - 1], turns[|turns| - 1];
      TextsAre(front, text);
      assert forall i :: 0 <= i < |front| ==> turns[i] == front[i];
      assert turns[|front|] == last;
    }
  }

  lemma SubstantialTexts(turns: seq<Turn>, lowSignal: set<string>)
    ensures Substantial(turns, lowSignal)
            <==> exists i :: 0 <= i < |OwnerTexts(turns)| && OwnerTexts(turns)[i] !in lowSignal
  {
    var texts := OwnerTexts(turns);
    if Substantial(turns, lowSignal) {
      var i :| 0 <= i < |turns| && turns[i].said.role == Owner && turns[i].said.text !in lowSignal;
      TextsAre(turns, turns[i].said.text);
    }
    if i :| 0 <= i < |texts| && texts[i] !in lowSignal {
      TextsAre(turns, texts[i]);
    }
  }

  ghost predicate Enough(whole: seq<Turn>, rules: Rules) {
    OwnerTurns(whole) >= rules.minOwnerTurns && OwnerChars(whole) >= rules.minOwnerChars
  }

  /** The verdict counts the owner's turns and characters. It asks for compiling exactly when no mark
      keeps the session out, its project is taken, both thresholds are reached and the owner says
      more than commands and acknowledgements. */
  lemma VerdictIs(turns: seq<Turn>, file: File, rules: Rules, steward: bool)
    ensures var verdict := Triage(turns, file, rules, steward);
            && verdict.owners == OwnerTurns(turns) && verdict.chars == OwnerChars(turns)
            && (verdict.full <==> && !steward && !file.subagent && !file.conflict && rules.project
                                  && Enough(turns, rules) && Substantial(turns, rules.lowSignal))
  {
    hide OwnerTurns, OwnerChars, OwnerTexts, TextChars, Substantial;
    TurnsCounted(turns);
    CharsCounted(turns);
    SubstantialTexts(turns, rules.lowSignal);
  }

  /* ---------------------------------------------------------------- what is decided about */

  /** The rows recorded before are still the first ones. */
  ghost predicate Continued(before: File, after: File) {
    || (before.rows.ClaudeFile? && after.rows.ClaudeFile? && before.rows.claude <= after.rows.claude)
    || (before.rows.CodexFile? && after.rows.CodexFile? && before.rows.codex <= after.rows.codex)
  }

  /** The file is judged: it is not passed over as changed against the policy, nor as judged before. */
  ghost predicate Looked(prior: Option<Cursor>, data: File, opts: Options) {
    prior.None?
    || (var c := prior.value;
        if c.file.Some? && !Continued(c.file.value, data) then opts.policy == Reingest
        else !(c.file == Some(data) && c.seen.Some? && c.splitTurns == 0
               && !c.steward && c.judgment == Some(opts.judgment)))
  }

  /** What is new of a session since a cursor: `whole` was not exported before the split under
      way, if there is one, and `rest` is not in the split's acknowledged parts either. */
  ghost predicate NewSince(c: Cursor, session: seq<Utterance>, whole: seq<Turn>, rest: seq<Turn>) {
    var before := if c.exportedTurns > 0 then c.exported else [];
    var number := if c.splitTurns < c.exportedTurns then c.exportedTurns - c.splitTurns else 0;
    && Pending(session, before, number) == Ok(whole)
    && if c.splitTurns == 0 then rest == whole
       else && |Flatten(c.splitRefs)| == c.splitTurns
            && Pending(session, before + Said(Flatten(c.splitRefs)), c.exportedTurns) == Ok(rest)
  }

  /** Nothing can be subtracted: the session misses acknowledged turns, or a split its count. */
  ghost predicate NoIncrement(c: Cursor, session: seq<Utterance>) {
    forall whole, rest :: !NewSince(c, session, whole, rest)
  }

  ghost predicate Grown(prior: Option<Cursor>, data: File) {
    prior.Some? && prior.value.file.Some? ==> Continued(prior.value.file.value, data)
  }

  /** The sources an export adds to. */
  ghost function Before(prior: Option<Cursor>): seq<nat> {
    if prior.Some? then prior.value.sources else []
  }

  /** `from` is the cursor an export would advance, `rewritten` whether it starts over. */
  ghost predicate Material(prior: Option<Cursor>, data: File, opts: Options, from: Cursor, rewritten: bool,
                           session: seq<Utterance>, whole: seq<Turn>, rest: seq<Turn>)
  {
    && Read(data) == Ok(session)
    && if rewritten then
         && opts.policy == Reingest && from == Fresh(Before(prior))
         && whole == rest == Numbered(session, 0)
         && (Grown(prior, data) ==> prior.Some? && NoIncrement(prior.value, session))
       else
         && Grown(prior, data)
         && from == (if prior.Some? then prior.value else Fresh([]))
         && NewSince(from, session, whole, rest)
  }

  /** The session is kept out for what it is, whatever it says. */
  ghost predicate KeptOut(from: Cursor, session: seq<Utterance>, data: File, opts: Options) {
    || opts.steward || data.subagent || data.conflict
    || (opts.judgment.since.Some? && from.exportedTurns == 0
        && (session == [] || session[|session| - 1].at < opts.judgment.since.value))
  }

  lemma NewSinceIs(c: Cursor, session: seq<Utterance>, whole: seq<Turn>, rest: seq<Turn>)
    ensures NewSince(c, session, whole, rest) <==> Increment(session, c) == Ok(Cut(whole, rest))
  {
    hide Pending;
  }

  lemma WhatIsJudged(prior: Option<Cursor>, data: File, opts: Options, from: Cursor, rewritten: bool,
                     session: seq<Utterance>, whole: seq<Turn>, rest: seq<Turn>)
    returns (earlier: seq<Utterance>)
    requires Looked(prior, data, opts) && Material(prior, data, opts, from, rewritten, session, whole, rest)
    ensures Decide(prior, data, opts)
            == Conclude(from, session, data, opts, earlier, Cut(whole, rest), from.splitTurns > 0, rewritten)
    ensures !rewritten ==> earlier == if from.exportedTurns > 0 then from.exported else []
  {
    hide Conclude, Increment, NewSince, Read;
    earlier := if Grown(prior, data) && prior.Some? then Earlier(prior.value) else [];
    if rewritten {
      if Grown(prior, data) {
        if Increment(session, prior.value).Ok? {
          var cut := Increment(session, prior.value).value;
          NewSinceIs(prior.value, session, cut.whole, cut.rest);
        }
      } else {
        var all := Numbered(session, 0);
        AllIsNew(session, Fresh(prior.value.sources), all);
      }
    } else {
      NewSinceIs(from, session, whole, rest);
    }
  }

  lemma AllIsNew(session: seq<Utterance>, start: Cursor, all: seq<Turn>)
    requires start.exportedTurns == 0 && start.splitTurns == 0 && all == Numbered(session, 0)
    ensures Increment(session, start) == Ok(Cut(all, all))
  {
    SubtractNothing(session);
  }

  lemma ConcludeExports(from: Cursor, session: seq<Utterance>, data: File, opts: Options, earlier: seq<Utterance>,
                        whole: seq<Turn>, rest: seq<Turn>, beyond: bool, rewritten: bool)
    ensures var plan := Conclude(from, session, data, opts, earlier, Cut(whole, rest), beyond, rewritten);
            && (plan.Export? <==> && opts.judgment.rules.minOwnerTurns >= 3 && rest != []
                                  && !KeptOut(from, session, data, opts)
                                  && (beyond || Enough(whole, opts.judgment.rules)))
            && (!plan.Export? ==> (plan.Keep? <==> rewritten || opts.judgment.rules.minOwnerTurns < 3))
            && (plan.Observe? ==>
                  plan.cursor == from.(
                    file := Some(data), seen := Some(session), exported := earlier, steward := opts.steward,
                    judgment := Some(opts.judgment), origins := from.origins[LOCAL := session], device := LOCAL,
                    held := if KeptOut(from, session, data, opts) || rest == [] then from.held
                            else Some((OwnerTurns(whole), OwnerChars(whole)))))
  {
    hide Triage, OwnerTurns, OwnerChars, Parts;
    VerdictIs(whole, data, opts.judgment.rules, opts.steward);
  }

  /** Exactly when a judged transcript is exported: there is something to export, nothing keeps
      the session out, and the owner's turns and characters of the whole increment reach both
      thresholds, unless parts of it are in the library already. Otherwise a session that
      would start over leaves the cursor alone, and any other records what was judged and, if
      the thresholds were what failed, the two counts; sources, exported turns and the split
      stay as they were. */
  lemma HeldIff(prior: Option<Cursor>, data: File, opts: Options, from: Cursor, rewritten: bool,
                session: seq<Utterance>, whole: seq<Turn>, rest: seq<Turn>)
    requires Looked(prior, data, opts) && Material(prior, data, opts, from, rewritten, session, whole, rest)
    requires opts.judgment.rules.minOwnerTurns >= 3
    ensures var plan := Decide(prior, data, opts);
            && (plan.Export? <==> rest != [] && !KeptOut(from, session, data, opts)
                                  && (from.splitTurns > 0 || Enough(whole, opts.judgment.rules)))
            && (!plan.Export? && rewritten ==> plan == Keep)
            && (!plan.Export? && !rewritten ==>
                  && plan.Observe?
                  && plan.cursor.(file := from.file, seen := from.seen, exported := from.exported, held := from.held,
                                  steward := from.steward, judgment := from.judgment,
                                  origins := from.origins, device := from.device) == from
                  && plan.cursor.exported == (if from.exportedTurns > 0 then from.exported else [])
                  && plan.cursor.file == Some(data) && plan.cursor.seen == Some(session)
                  && plan.cursor.steward == opts.steward && plan.cursor.judgment == Some(opts.judgment)
                  && plan.cursor.origins == from.origins[LOCAL := session] && plan.cursor.device == LOCAL
                  && plan.cursor.held == if KeptOut(from, session, data, opts) || rest == [] then from.held
                                         else Some((OwnerTurns(whole), OwnerChars(whole))))
  {
    hide Looked, Material, Decide, Conclude, OwnerTurns, OwnerChars, KeptOut;
    var earlier := WhatIsJudged(prior, data, opts, from, rewritten, session, whole, rest);
    ConcludeExports(from, session, data, opts, earlier, whole, rest, from.splitTurns > 0, rewritten);
  }

  /** Nothing happens to a file that is passed over, unreadable, or new in no way the policy
      allows, nor under a threshold the command refuses. */
  lemma OtherwiseKept(prior: Option<Cursor>, data: File, opts: Options)
    ensures Decide(prior, data, opts) != Keep
            ==> Looked(prior, data, opts) && opts.judgment.rules.minOwnerTurns >= 3
                && exists from, rewritten, session, whole, rest ::
                     Material(prior, data, opts, from, rewritten, session, whole, rest)
  {
    hide Increment, NewSince, Read;
    var plan := Decide(prior, data, opts);
    if plan != Keep {
      var session := Read(data).value;
      var grown := Grown(prior, data);
      var entry := if prior.None? then Fresh([]) else if grown then prior.value else Fresh(prior.value.sources);
      var all := Numbered(session, 0);
      if !grown {
        assert Material(prior, data, opts, entry, true, session, all, all);
      } else if Increment(session, entry).Ok? {
        var cut := Increment(session, entry).value;
        NewSinceIs(entry, session, cut.whole, cut.rest);
        assert Material(prior, data, opts, entry, false, session, cut.whole, cut.rest);
      } else {
        if prior.None? { AllIsNew(session, entry, all); }
        forall w, r ensures !NewSince(entry, session, w, r) { NewSinceIs(entry, session, w, r); }
        assert Material(prior, data, opts, Fresh(Before(prior)), true, session, all, all);
      }
    }
  }

  /** What is ordered: the rest in parts from `from` on, marked for compiling exactly when the
      owner says something substantial in a project the rules take. */
  lemma OrderIs(prior: Option<Cursor>, data: File, opts: Options, from: Cursor, rewritten: bool,
                session: seq<Utterance>, whole: seq<Turn>, rest: seq<Turn>)
    requires Looked(prior, data, opts) && Material(prior, data, opts, from, rewritten, session, whole, rest)
    requires Decide(prior, data, opts).Export?
    ensures var o := Decide(prior, data, opts).order;
            && o.entry == from && o.session == session && o.rewritten == rewritten
            && o.parts == Parts(rest, opts.max) && Flatten(o.parts) == rest
            && (o.split <==> |o.parts| > 1 || from.splitTurns > 0)
            && (o.full <==> && opts.judgment.rules.project && Enough(whole, opts.judgment.rules)
                            && Substantial(whole, opts.judgment.rules.lowSignal))
  {
    hide Looked, Material, Decide, Triage, OwnerTurns, OwnerChars, Parts, Substantial;
    var _ := WhatIsJudged(prior, data, opts, from, rewritten, session, whole, rest);
    PartsConcatenate(rest, opts.max);
    VerdictIs(whole, data, opts.judgment.rules, opts.steward);
  }
}
