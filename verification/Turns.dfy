/** Retained turns and their subtraction.

    A turn is identified by everything except its number (`pending_turns` strips `turn_id`
    before it compares), so the material of a session is a sequence of utterances and numbers
    are attached only to the turns of an increment. */
module Turns {
  datatype Role = Owner | Agent
  datatype Kind = Say | Narrative | Action
  datatype Utterance = Utterance(role: Role, kind: Kind, at: int, text: string)

  /** `Turn(n, u)` is the retained utterance `u` under the number "t<n>". */
  datatype Turn = Turn(number: nat, said: Utterance)

  datatype Result<+T> = Ok(value: T) | Err(error: Error)
  datatype Error =
    | Rewritten
    | NoTimestamp
    | BoundTooSmall
    | NoOwnerTurn
    | SplitCountMismatch

  function Said(turns: seq<Turn>): (us: seq<Utterance>)
    ensures |us| == |turns|
    ensures forall i :: 0 <= i < |turns| ==> us[i] == turns[i].said
  {
    seq(|turns|, i requires 0 <= i < |turns| => turns[i].said)
  }

  /** The turns of `us`, numbered onwards from t<after + 1>. */
  function Numbered(us: seq<Utterance>, after: nat): (turns: seq<Turn>)
    ensures |turns| == |us|
    ensures forall i :: 0 <= i < |us| ==> turns[i] == Turn(after + i + 1, us[i])
  {
    seq(|us|, i requires 0 <= i < |us| => Turn(after + i + 1, us[i]))
  }

  lemma SaidNumbered(us: seq<Utterance>, after: nat)
    ensures Said(Numbered(us, after)) == us
  {
  }

  lemma SaidConcat(a: seq<Turn>, b: seq<Turn>)
    ensures Said(a + b) == Said(a) + Said(b)
  {
  }

  lemma NumberedConcat(a: seq<Utterance>, b: seq<Utterance>, after: nat)
    ensures Numbered(a + b, after) == Numbered(a, after) + Numbered(b, after + |a|)
  {
  }

  predicate HasOwner(us: seq<Utterance>) {
    exists i :: 0 <= i < |us| && us[i].role == Owner
  }

  function Flatten<T>(parts: seq<seq<T>>): (all: seq<T>) {
    if parts == [] then [] else Flatten(parts[..|parts| - 1]) + parts[|parts| - 1]
  }

  lemma FlattenSnoc<T>(parts: seq<seq<T>>, last: seq<T>)
    ensures Flatten(parts + [last]) == Flatten(parts) + last
  {
    assert (parts + [last])[..|parts|] == parts;
  }

  lemma {:induction false} FlattenConcat<T>(a: seq<seq<T>>, b: seq<seq<T>>)
    ensures Flatten(a + b) == Flatten(a) + Flatten(b)
  {
    if b == [] {
      assert a + b == a;
    } else {
      var rest := b[..|b| - 1];
      var last := b[|b| - 1];
      FlattenConcat(a, rest);
      assert a + b == (a + rest) + [last];
      FlattenSnoc(a + rest, last);
      assert (Flatten(a) + Flatten(rest)) + last == Flatten(a) + (Flatten(rest) + last);
    }
  }

  /* ---------------------------------------------------------------- subtraction */

  /** `us` without one occurrence of each member of `gone`, the first occurrences going first. */
  function Subtract(us: seq<Utterance>, gone: multiset<Utterance>): (kept: seq<Utterance>) {
    if us == [] then []
    else if us[0] in gone then Subtract(us[1..], gone - multiset{us[0]})
    else [us[0]] + Subtract(us[1..], gone)
  }

  lemma HeadBag(us: seq<Utterance>)
    requires us != []
    ensures multiset(us) == multiset{us[0]} + multiset(us[1..])
  {
    assert us == [us[0]] + us[1..];
  }

  /** Conservation: what is kept and what was removed make up the whole, whenever all of it
      was there to remove. */
  lemma {:induction false} SubtractBag(us: seq<Utterance>, gone: multiset<Utterance>)
    ensures multiset(Subtract(us, gone)) == multiset(us) - gone
  {
    if us == [] {
    } else {
      HeadBag(us);
      if us[0] in gone {
        SubtractBag(us[1..], gone - multiset{us[0]});
      } else {
        SubtractBag(us[1..], gone);
      }
    }
  }

  /** Removing twice is removing the sum once: the order of the kept turns does not depend on
      how the removed ones were grouped. */
  lemma {:induction false} SubtractTwice(us: seq<Utterance>, a: multiset<Utterance>, b: multiset<Utterance>)
    ensures Subtract(Subtract(us, a), b) == Subtract(us, a + b)
  {
    if us == [] {
    } else if us[0] in a {
      SubtractTwice(us[1..], a - multiset{us[0]}, b);
      assert (a - multiset{us[0]}) + b == (a + b) - multiset{us[0]};
    } else if us[0] in b {
      SubtractTwice(us[1..], a, b - multiset{us[0]});
      assert a + (b - multiset{us[0]}) == (a + b) - multiset{us[0]};
      assert ([us[0]] + Subtract(us[1..], a))[1..] == Subtract(us[1..], a);
    } else {
      SubtractTwice(us[1..], a, b);
      assert ([us[0]] + Subtract(us[1..], a))[1..] == Subtract(us[1..], a);
    }
  }

  lemma {:induction false} SubtractNothing(us: seq<Utterance>)
    ensures Subtract(us, multiset{}) == us
  {
    if us != [] { SubtractNothing(us[1..]); }
  }

  /** Removing a prefix leaves exactly the rest, in order. */
  lemma {:induction false} SubtractPrefix(front: seq<Utterance>, back: seq<Utterance>)
    ensures Subtract(front + back, multiset(front)) == back
  {
    if front == [] {
      assert front + back == back;
      SubtractNothing(back);
    } else {
      HeadBag(front);
      assert (front + back)[1..] == front[1..] + back;
      assert multiset(front) - multiset{front[0]} == multiset(front[1..]);
      SubtractPrefix(front[1..], back);
    }
  }

  /** An independent reading of the loop: turn `i` survives exactly when at least `gone`-many
      equal turns stand before it. */
  predicate Survives(us: seq<Utterance>, gone: multiset<Utterance>, i: nat)
    requires i < |us|
  {
    gone[us[i]] <= multiset(us[..i])[us[i]]
  }

  function Survivors(us: seq<Utterance>, gone: multiset<Utterance>, upto: nat): seq<Utterance>
    requires upto <= |us|
  {
    if upto == 0 then []
    else Survivors(us, gone, upto - 1) + if Survives(us, gone, upto - 1) then [us[upto - 1]] else []
  }

  lemma {:induction false} SurvivorsShift(us: seq<Utterance>, gone: multiset<Utterance>, upto: nat)
    requires 0 < upto <= |us|
    ensures us[0] in gone ==> Survivors(us, gone, upto) == Survivors(us[1..], gone - multiset{us[0]}, upto - 1)
    ensures us[0] !in gone ==> Survivors(us, gone, upto) == [us[0]] + Survivors(us[1..], gone, upto - 1)
  {
    if upto == 1 {
      assert multiset(us[..0])[us[0]] == 0;
      assert Survivors(us, gone, 0) == [];
    } else {
      SurvivorsShift(us, gone, upto - 1);
      assert us[..upto - 1] == [us[0]] + us[1..][..upto - 2];
      assert us[upto - 1] == us[1..][upto - 2];
    }
  }

  lemma {:induction false} SubtractIsSurvivors(us: seq<Utterance>, gone: multiset<Utterance>)
    ensures Subtract(us, gone) == Survivors(us, gone, |us|)
  {
    if us != [] {
      SurvivorsShift(us, gone, |us|);
      SubtractIsSurvivors(us[1..], if us[0] in gone then gone - multiset{us[0]} else gone);
    }
  }

  /** What `pending_turns` answers. */
  function Pending(session: seq<Utterance>, earlier: seq<Utterance>, exported: nat): (r: Result<seq<Turn>>)
    ensures r.Ok? <==> multiset(earlier) <= multiset(session)
  {
    if multiset(earlier) <= multiset(session)
    then Ok(Numbered(Subtract(session, multiset(earlier)), exported))
    else Err(Rewritten)
  }

  /** Where the counting loop stands: the kept turns and the counter still lead to `goal` and
      to a final debt of `debt`. */
  ghost predicate OnTheWay(rest: seq<Utterance>, seen: multiset<Utterance>, kept: seq<Utterance>,
                           goal: seq<Utterance>, debt: multiset<Utterance>)
  {
    kept + Subtract(rest, seen) == goal && seen - multiset(rest) == debt
  }

  lemma DrawDown(seen: multiset<Utterance>, key: Utterance, rest: multiset<Utterance>)
    ensures key in seen ==> seen[key := seen[key] - 1] == seen - multiset{key}
    ensures key in seen ==> (seen - multiset{key}) - rest == seen - (multiset{key} + rest)
    ensures key !in seen ==> seen - rest == seen - (multiset{key} + rest)
  {
  }

  lemma WalkOne(rest: seq<Utterance>, seen: multiset<Utterance>, kept: seq<Utterance>,
                goal: seq<Utterance>, debt: multiset<Utterance>)
    requires rest != [] && OnTheWay(rest, seen, kept, goal, debt)
    ensures rest[0] in seen ==> OnTheWay(rest[1..], seen[rest[0] := seen[rest[0]] - 1], kept, goal, debt)
    ensures rest[0] !in seen ==> OnTheWay(rest[1..], seen, kept + [rest[0]], goal, debt)
  {
    var key := rest[0];
    HeadBag(rest);
    DrawDown(seen, key, multiset(rest[1..]));
    if key !in seen {
      assert kept + ([key] + Subtract(rest[1..], seen)) == (kept + [key]) + Subtract(rest[1..], seen);
    }
  }

  /** The counting loop: a counter of earlier turns is drawn down while the session is walked,
      a turn the counter cannot pay for is new, and a counter left over is a rewrite. */
  method PendingTurns(session: seq<Utterance>, earlier: seq<Utterance>, exported: nat)
    returns (r: Result<seq<Turn>>)
    ensures r == Pending(session, earlier, exported)
    ensures r.Ok? <==> multiset(earlier) <= multiset(session)
    ensures r.Ok? ==> r.value == Numbered(Said(r.value), exported)
    ensures r.Ok? ==> multiset(Said(r.value)) + multiset(earlier) == multiset(session)
  {
    var seen := multiset(earlier);
    var turns: seq<Turn> := [];
    ghost var kept: seq<Utterance> := [];
    ghost var goal, debt := Subtract(session, multiset(earlier)), multiset(earlier) - multiset(session);
    for i := 0 to |session|
      invariant turns == Numbered(kept, exported)
      invariant OnTheWay(session[i..], seen, kept, goal, debt)
    {
      var key := session[i];
      WalkOne(session[i..], seen, kept, goal, debt);
      assert session[i..][1..] == session[i + 1..];
      if seen[key] > 0 {
        seen := seen[key := seen[key] - 1];
      } else {
        turns := turns + [Turn(exported + |turns| + 1, key)];
        kept := kept + [key];
      }
    }
    assert kept == goal && seen == debt;
    SubtractBag(session, multiset(earlier));
    SaidNumbered(goal, exported);
    r := if seen != multiset{} then Err(Rewritten) else Ok(turns);
  }
}
