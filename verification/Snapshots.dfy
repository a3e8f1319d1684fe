/** What `decode_snapshot` accepts (agent_sessions.py); the cloud's `material` looks at none of it. */
module Snapshots {
  import opened Turns
  import opened Readers
  import opened Registry

  const ACTION_LIMIT: nat := 200

  const LINE_BREAKS: set<char> :=
    {'\n', '\r', '\U{000B}', '\U{000C}', '\U{001C}', '\U{001D}', '\U{001E}', '\U{0085}', '\U{2028}', '\U{2029}'}

  predicate Paired(role: Role, kind: Kind) {
    if role == Owner then kind == Say else kind == Narrative || kind == Action
  }

  /** The text of an action is a stub of one line. */
  predicate Stub(kind: Kind, text: string) {
    kind == Action ==> |text| <= ACTION_LIMIT && forall i :: 0 <= i < |text| ==> text[i] !in LINE_BREAKS
  }

  predicate WellFormed(t: Wire) {
    t.Spoken? && t.at.Some? && !Blank(t.text) && Paired(t.role, t.kind) && Stub(t.kind, t.text)
  }

  predicate WellSpoken(turns: seq<Wire>) {
    && (forall i :: 0 <= i < |turns| ==> WellFormed(turns[i]))
    && (forall i, j :: 0 <= i < j < |turns| ==> turns[i].id != turns[j].id && turns[i].at.value <= turns[j].at.value)
  }

  predicate Decodes(body: Body) {
    && body.Material? && body.sid == body.digest && body.stream == body.material
    && !Blank(body.session) && (body.project == "" || !Blank(body.project))
    && WellSpoken(body.turns)
  }

  /** The turns of a session in its snapshot, under the numbers `finish` gave them. */
  function Wired(us: seq<Utterance>): (turns: seq<Wire>)
    ensures |turns| == |us|
  {
    seq(|us|, i requires 0 <= i < |us| => Spoken(i + 1, us[i].role, us[i].kind, Some(us[i].at), us[i].text))
  }

  predicate Retainable(u: Utterance) {
    !Blank(u.text) && Paired(u.role, u.kind) && Stub(u.kind, u.text)
  }

  /** What the readers retain decodes: a finished session's turns are numbered apart and in time
      order, so the device's own files never end its upload loop. */
  lemma CapturedDecodes(us: seq<Utterance>)
    requires forall u :: u in us ==> Retainable(u)
    ensures WellSpoken(Wired(Finished(us)))
  {
    hide Finished;
    FinishedOrdered(us);
    FinishedBag(us);
    var turns := Finished(us);
    forall i | 0 <= i < |turns| ensures Retainable(turns[i]) {
      assert turns[i] in multiset(turns) && turns[i] in multiset(us);
    }
  }

  lemma FinishedOrdered(us: seq<Utterance>)
    ensures forall i, j :: 0 <= i < j < |Finished(us)| ==> Finished(us)[i].at <= Finished(us)[j].at
  {
    StableSortKeeps(Drafts(us), 0);
    hide StableSort;
    assert Chronological(StableSort(Drafts(us)));
  }

  /* ---------------------------------------------------------------- what a decoded body is */

  ghost predicate Inked(text: string) {
    exists i :: 0 <= i < |text| && !Space(text[i])
  }

  /** What one turn of a session can be: the owner says, the agent narrates or acts, and an action
      is one line of at most 200 characters. */
  ghost predicate Sayable(u: Utterance) {
    && Inked(u.text) && (u.role == Owner <==> u.kind == Say)
    && (u.kind == Action ==>
          |u.text| <= 200
          && forall i :: 0 <= i < |u.text| ==>
               !('\n' <= u.text[i] <= '\r' || '\U{001C}' <= u.text[i] <= '\U{001E}' || u.text[i] == '\U{0085}'
                 || u.text[i] == '\U{2028}' || u.text[i] == '\U{2029}'))
  }

  /** The turns as they stand in a body, under ids of their own. */
  ghost predicate Written(turns: seq<Wire>, us: seq<Utterance>) {
    && |turns| == |us|
    && (forall i :: 0 <= i < |us| ==>
          turns[i].Spoken? && turns[i].at == Some(us[i].at)
          && Utterance(turns[i].role, turns[i].kind, us[i].at, turns[i].text) == us[i])
    && (forall i, j :: 0 <= i < j < |turns| && turns[i].Spoken? && turns[j].Spoken? ==> turns[i].id != turns[j].id)
  }

  lemma SayableIs(u: Utterance)
    ensures Sayable(u) <==> Retainable(u)
  {
  }

  lemma WrittenIs(turns: seq<Wire>, us: seq<Utterance>)
    requires Written(turns, us)
    ensures WellSpoken(turns) <==> Finished(us) == us && forall i :: 0 <= i < |us| ==> Sayable(us[i])
  {
    hide Finished, Sayable, Retainable;
    FinishedOrdered(us);
    NoRepairsIffOrdered(us);
    forall i | 0 <= i < |us| ensures Sayable(us[i]) <==> WellFormed(turns[i]) {
      SayableIs(us[i]);
      assert Retainable(us[i]) <==> WellFormed(turns[i]) by { RetainableIs(us[i], turns[i]); }
    }
    assert Chronological(Drafts(us)) <==> forall i, j :: 0 <= i < j < |us| ==> us[i].at <= us[j].at;
  }

  lemma RetainableIs(u: Utterance, t: Wire)
    requires t.Spoken? && t.at == Some(u.at) && Utterance(t.role, t.kind, u.at, t.text) == u
    ensures Retainable(u) <==> WellFormed(t)
  {
    hide Blank, Paired, Stub;
  }

  /** A body decodes exactly if it hashes to what it says, its session and project are named, and
      its turns are those of some finished session, numbered apart. */
  lemma DecodesIff(body: Body)
    ensures Decodes(body)
            <==> && body.Material? && body.sid == body.digest && body.stream == body.material
                 && Inked(body.session) && (body.project == "" || Inked(body.project))
                 && exists us :: Written(body.turns, us) && Finished(us) == us
                                 && forall i :: 0 <= i < |us| ==> Sayable(us[i])
  {
    hide Finished, Sayable;
    if body.Material? {
      forall us | Written(body.turns, us)
        ensures WellSpoken(body.turns) <==> Finished(us) == us && forall i :: 0 <= i < |us| ==> Sayable(us[i])
      {
        WrittenIs(body.turns, us);
      }
      if WellSpoken(body.turns) {
        var us := seq(|body.turns|, i requires 0 <= i < |body.turns| && WellFormed(body.turns[i]) =>
          Utterance(body.turns[i].role, body.turns[i].kind, body.turns[i].at.value, body.turns[i].text));
        assert Written(body.turns, us);
      }
    }
  }
}
