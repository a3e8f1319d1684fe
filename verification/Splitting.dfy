/** Cutting one increment into bounded parts (`split_parts`), and why the cut can be trusted:
    nothing is lost, no fewer parts would do, and cutting what is left of an interrupted
    increment gives the parts that were left. */
module Splitting {
  import opened Turns

  const MIN_PART_CHARS: nat := 1000

  function Chars(turns: seq<Turn>): nat {
    if turns == [] then 0 else Chars(turns[..|turns| - 1]) + |turns[|turns| - 1].said.text|
  }

  lemma {:induction false} CharsConcat(a: seq<Turn>, b: seq<Turn>)
    ensures Chars(a + b) == Chars(a) + Chars(b)
  {
    if b == [] {
      assert a + b == a;
    } else {
      assert (a + b)[..|a + b| - 1] == a + b[..|b| - 1];
      CharsConcat(a, b[..|b| - 1]);
    }
  }

  function Owners(turns: seq<Turn>): nat {
    if turns == [] then 0
    else Owners(turns[..|turns| - 1]) + if turns[|turns| - 1].said.role == Owner then 1 else 0
  }

  lemma {:induction false} OwnersConcat(a: seq<Turn>, b: seq<Turn>)
    ensures Owners(a + b) == Owners(a) + Owners(b)
  {
    if b == [] {
      assert a + b == a;
    } else {
      assert (a + b)[..|a + b| - 1] == a + b[..|b| - 1];
      OwnersConcat(a, b[..|b| - 1]);
    }
  }

  lemma {:induction false} OwnersPositive(turns: seq<Turn>)
    ensures Owners(turns) > 0 <==> HasOwner(Said(turns))
  {
    if turns != [] {
      OwnersPositive(turns[..|turns| - 1]);
      var us, front := Said(turns), Said(turns[..|turns| - 1]);
      assert forall i :: 0 <= i < |front| ==> us[i] == front[i];
      if HasOwner(us) {
        var i :| 0 <= i < |us| && us[i].role == Owner;
        assert i < |front| ==> front[i].role == Owner;
      }
      if HasOwner(front) {
        var i :| 0 <= i < |front| && front[i].role == Owner;
        assert us[i].role == Owner;
      }
      if turns[|turns| - 1].said.role == Owner { assert us[|us| - 1].role == Owner; }
    }
  }

  /* ---------------------------------------------------------------- exchanges */

  /** One more turn: an owner turn opens an exchange once the current one has its owner. */
  function WithTurn(es: seq<seq<Turn>>, t: Turn): seq<seq<Turn>> {
    if es == [] then [[t]]
    else if t.said.role == Owner && Owners(es[|es| - 1]) > 0 then es + [[t]]
    else es[..|es| - 1] + [es[|es| - 1] + [t]]
  }

  function Exchanges(turns: seq<Turn>): seq<seq<Turn>> {
    if turns == [] then [] else WithTurn(Exchanges(turns[..|turns| - 1]), turns[|turns| - 1])
  }

  /** What an exchange list is, without saying how it is found: no exchange is empty or holds two
      owner turns, every exchange but the first begins with its owner turn, and the first one
      holds one too as soon as there is a second. */
  predicate IsCut(es: seq<seq<Turn>>) {
    && (forall i :: 0 <= i < |es| ==> es[i] != [] && Owners(es[i]) <= 1)
    && (forall i :: 0 < i < |es| ==> es[i][0].said.role == Owner)
    && (|es| > 1 ==> Owners(es[0]) == 1)
  }

  lemma HeadOwner(e: seq<Turn>)
    requires e != [] && e[0].said.role == Owner
    ensures Owners(e) >= 1
  {
    assert e == [e[0]] + e[1..];
    OwnersConcat([e[0]], e[1..]);
    assert [e[0]][..0] == [];
    assert Owners([e[0]]) == 1;
  }

  lemma CutExtended(es: seq<seq<Turn>>, t: Turn)
    requires IsCut(es)
    ensures IsCut(WithTurn(es, t))
  {
    assert [t][..0] == [] && Owners([t]) <= 1;
    if es != [] {
      var last := es[|es| - 1];
      OwnersConcat(last, [t]);
      if |es| > 1 { HeadOwner(last); }
    }
  }

  lemma TurnsExtended(es: seq<seq<Turn>>, t: Turn)
    ensures Flatten(WithTurn(es, t)) == Flatten(es) + [t]
  {
    if es == [] {
      FlattenSnoc([], [t]);
      assert [] + [[t]] == [[t]];
    } else {
      var front, last := es[..|es| - 1], es[|es| - 1];
      FlattenSnoc(es, [t]);
      FlattenSnoc(front, last + [t]);
      assert Flatten(front) + (last + [t]) == (Flatten(front) + last) + [t];
    }
  }

  lemma {:induction false} ExchangesCut(turns: seq<Turn>)
    ensures IsCut(Exchanges(turns))
    ensures Flatten(Exchanges(turns)) == turns
  {
    if turns != [] {
      hide IsCut, WithTurn, Flatten;
      var front, t := turns[..|turns| - 1], turns[|turns| - 1];
      ExchangesCut(front);
      assert turns == front + [t];
      CutExtended(Exchanges(front), t);
      TurnsExtended(Exchanges(front), t);
    }
  }

  /** Growing the open exchange: turns without an owner join it, and so does a first owner. */
  lemma {:induction false} OpenExchange(xs: seq<Turn>, closed: seq<seq<Turn>>, open: seq<Turn>, more: seq<Turn>)
    requires Exchanges(xs) == closed + [open]
    requires Owners(open) + Owners(more) <= 1
    ensures Exchanges(xs + more) == closed + [open + more]
  {
    if more == [] {
      assert xs + more == xs && open + more == open;
    } else {
      var front, t := more[..|more| - 1], more[|more| - 1];
      assert xs + more == (xs + front) + [t];
      assert more == front + [t];
      OpenExchange(xs, closed, open, front);
      OwnersConcat(open, front);
      assert (xs + more)[..|xs + more| - 1] == xs + front;
      assert (closed + [open + front])[..|closed|] == closed;
      assert (open + front) + [t] == open + more;
    }
  }

  lemma NextExchange(xs: seq<Turn>, closed: seq<seq<Turn>>, t: Turn)
    requires Exchanges(xs) == closed
    requires closed != [] ==> t.said.role == Owner && Owners(closed[|closed| - 1]) > 0
    ensures Exchanges(xs + [t]) == closed + [[t]]
  {
    assert (xs + [t])[..|xs|] == xs;
  }

  lemma WholeExchange(xs: seq<Turn>, closed: seq<seq<Turn>>, e: seq<Turn>)
    requires Exchanges(xs) == closed && e != [] && Owners(e) <= 1
    requires closed != [] ==> e[0].said.role == Owner && Owners(closed[|closed| - 1]) > 0
    ensures Exchanges(xs + e) == closed + [e]
  {
    var head, tail := [e[0]], e[1..];
    assert e == head + tail;
    assert xs + e == (xs + head) + tail;
    OwnersConcat(head, tail);
    NextExchange(xs, closed, e[0]);
    OpenExchange(xs + head, closed, head, tail);
  }

  lemma PrefixCut(es: seq<seq<Turn>>)
    requires IsCut(es) && es != []
    ensures IsCut(es[..|es| - 1]) && es[|es| - 1] != [] && Owners(es[|es| - 1]) <= 1
    ensures |es| > 1 ==> es[|es| - 1][0].said.role == Owner && Owners(es[|es| - 2]) > 0
  {
    if |es| > 2 { HeadOwner(es[|es| - 2]); }
  }

  lemma NoExchanges()
    ensures Flatten<Turn>([]) == [] && Exchanges([]) == []
  {
  }

  /** The definition is the only reading of the rule: any list obeying it is the list. */
  lemma {:induction false} CutIsUnique(es: seq<seq<Turn>>)
    requires IsCut(es)
    ensures Exchanges(Flatten(es)) == es
  {
    hide IsCut, Exchanges, Owners, Flatten;
    NoExchanges();
    if es != [] {
      var closed, e := es[..|es| - 1], es[|es| - 1];
      PrefixCut(es);
      CutIsUnique(closed);
      WholeExchange(Flatten(closed), closed, e);
      assert es == closed + [e];
      FlattenSnoc(closed, e);
    }
  }

  /* ---------------------------------------------------------------- packing */

  function WithExchange(parts: seq<seq<Turn>>, e: seq<Turn>, max: nat): seq<seq<Turn>> {
    if parts != [] && Chars(parts[|parts| - 1]) + Chars(e) <= max
    then parts[..|parts| - 1] + [parts[|parts| - 1] + e]
    else parts + [e]
  }

  function Pack(es: seq<seq<Turn>>, max: nat): seq<seq<Turn>> {
    if es == [] then [] else WithExchange(Pack(es[..|es| - 1], max), es[|es| - 1], max)
  }

  /** The parts of an increment. At or under the bound it is one part, even an empty one. */
  function Parts(turns: seq<Turn>, max: nat): seq<seq<Turn>> {
    if Chars(turns) <= max then [turns] else Pack(Exchanges(turns), max)
  }

  lemma {:induction false} PackFlatten(es: seq<seq<Turn>>, max: nat)
    ensures Flatten(Pack(es, max)) == Flatten(es)
    ensures es != [] ==> Pack(es, max) != []
  {
    if es != [] {
      hide WithExchange;
      var front, e := es[..|es| - 1], es[|es| - 1];
      PackFlatten(front, max);
      OneMoreFlatten(Pack(front, max), e, max);
    }
  }

  lemma OneMoreFlatten(parts: seq<seq<Turn>>, e: seq<Turn>, max: nat)
    ensures Flatten(WithExchange(parts, e, max)) == Flatten(parts) + e
    ensures WithExchange(parts, e, max) != []
  {
    FlattenSnoc(parts, e);
    if parts != [] {
      var front, last := parts[..|parts| - 1], parts[|parts| - 1];
      FlattenSnoc(front, last + e);
      assert Flatten(front) + (last + e) == (Flatten(front) + last) + e;
    }
  }

  /** Lossless. */
  lemma PartsConcatenate(turns: seq<Turn>, max: nat)
    ensures Flatten(Parts(turns, max)) == turns
    ensures Parts(turns, max) != []
  {
    if Chars(turns) <= max {
      assert [turns][..0] == [];
      assert [] + turns == turns;
    } else {
      ExchangesCut(turns);
      PackFlatten(Exchanges(turns), max);
    }
  }

  lemma {:induction false} PackedPart(es: seq<seq<Turn>>, max: nat, i: nat)
    requires i < |Pack(es, max)|
    ensures Chars(Pack(es, max)[i]) <= max || Pack(es, max)[i] in es
    ensures (forall j :: 0 <= j < |es| ==> Owners(es[j]) > 0) ==> Owners(Pack(es, max)[i]) > 0
  {
    if es != [] {
      var front, e := es[..|es| - 1], es[|es| - 1];
      var parts := Pack(front, max);
      if i < |parts| {
        PackedPart(front, max, i);
        if i == |parts| - 1 { CharsConcat(parts[i], e); OwnersConcat(parts[i], e); }
      }
    }
  }

  lemma FlattenOne(e: seq<Turn>)
    ensures Flatten([e]) == e
  {
    assert [e][..0] == [];
  }

  lemma ExchangesOwned(turns: seq<Turn>)
    requires Owners(turns) > 0
    ensures forall j :: 0 <= j < |Exchanges(turns)| ==> Owners(Exchanges(turns)[j]) > 0
  {
    var es := Exchanges(turns);
    ExchangesCut(turns);
    if |es| == 1 {
      FlattenOne(es[0]);
      assert es == [es[0]];
    } else {
      forall j | 0 < j < |es| ensures Owners(es[j]) > 0 { HeadOwner(es[j]); }
    }
  }

  lemma PartOwned(turns: seq<Turn>, max: nat, i: nat)
    requires i < |Parts(turns, max)| && Owners(turns) > 0
    ensures Owners(Parts(turns, max)[i]) > 0
  {
    if Chars(turns) > max {
      ExchangesOwned(turns);
      PackedPart(Exchanges(turns), max, i);
    }
  }

  /** Bounded, and fit for `payload`: only one oversized exchange passes the bound, and every
      part has an owner turn when the increment has one. */
  lemma PartsBoundedWithOwner(turns: seq<Turn>, max: nat, i: nat)
    requires i < |Parts(turns, max)|
    ensures Chars(Parts(turns, max)[i]) <= max || Parts(turns, max)[i] in Exchanges(turns)
    ensures HasOwner(Said(turns)) ==> HasOwner(Said(Parts(turns, max)[i]))
  {
    OwnersPositive(turns);
    OwnersPositive(Parts(turns, max)[i]);
    if Chars(turns) > max { PackedPart(Exchanges(turns), max, i); }
    if Owners(turns) > 0 { PartOwned(turns, max, i); }
  }

  /* ---------------------------------------------------------------- optimality */

  /** Any other way of grouping the exchanges under the same rule: consecutive runs, none
      empty, each within the bound unless it is one exchange. */
  predicate Grouping(groups: seq<seq<seq<Turn>>>, es: seq<seq<Turn>>, max: nat) {
    && Flatten(groups) == es
    && forall i :: 0 <= i < |groups| ==>
         groups[i] != [] && (|groups[i]| == 1 || Chars(Flatten(groups[i])) <= max)
  }

  /** Taking the last exchange out of a grouping. */
  lemma Ungroup(groups: seq<seq<seq<Turn>>>, es: seq<seq<Turn>>, max: nat) returns (fewer: seq<seq<seq<Turn>>>)
    requires es != [] && Grouping(groups, es, max)
    ensures groups != [] && Grouping(fewer, es[..|es| - 1], max)
    ensures var g, e := groups[|groups| - 1], es[|es| - 1];
            if |g| == 1 then fewer == groups[..|groups| - 1] && Flatten(g) == e
            else |fewer| == |groups|
                 && Flatten(g) == Flatten(fewer[|fewer| - 1]) + e && Chars(Flatten(g)) <= max
  {
    var front, g := groups[..|groups| - 1], groups[|groups| - 1];
    assert es == Flatten(front) + g;
    assert g[|g| - 1] == es[|es| - 1];
    if |g| == 1 {
      fewer := front;
      assert es[..|es| - 1] == Flatten(front);
      FlattenOne(es[|es| - 1]);
      assert g == [es[|es| - 1]];
    } else {
      var less := g[..|g| - 1];
      fewer := front + [less];
      FlattenSnoc(front, less);
      assert es[..|es| - 1] == Flatten(front) + less;
      assert g == less + [es[|es| - 1]];
      FlattenSnoc(less, es[|es| - 1]);
      CharsConcat(Flatten(less), es[|es| - 1]);
    }
  }

  /** Greedy stays ahead: no grouping has fewer groups, and one with as many has at least as
      much in its last group. */
  lemma {:induction false} PackStaysAhead(groups: seq<seq<seq<Turn>>>, es: seq<seq<Turn>>, max: nat)
    requires Grouping(groups, es, max)
    ensures |Pack(es, max)| <= |groups|
    ensures es != [] && |Pack(es, max)| == |groups|
            ==> Chars(Pack(es, max)[|groups| - 1]) <= Chars(Flatten(groups[|groups| - 1]))
    decreases |es|
  {
    if es != [] {
      var front, e := es[..|es| - 1], es[|es| - 1];
      var parts := Pack(front, max);
      PackFlatten(front, max);
      PackFlatten(es, max);
      var fewer := Ungroup(groups, es, max);
      PackStaysAhead(fewer, front, max);
      var g := groups[|groups| - 1];
      if |g| > 1 {
        CharsConcat(Flatten(fewer[|fewer| - 1]), e);
        GroupsOfNothing(fewer);
      }
      if parts != [] { CharsConcat(parts[|parts| - 1], e); }
    }
  }

  lemma GroupsOfNothing(groups: seq<seq<seq<Turn>>>)
    ensures Flatten(groups) == [] && groups != [] ==> groups[|groups| - 1] == []
    ensures groups == [] ==> Flatten(groups) == []
  {
  }

  /** Optimal: no partition into consecutive exchanges obeying the rule uses fewer parts. */
  lemma PartsFewest(turns: seq<Turn>, max: nat, groups: seq<seq<seq<Turn>>>)
    requires turns != [] && Grouping(groups, Exchanges(turns), max)
    ensures |Parts(turns, max)| <= |groups|
  {
    PackStaysAhead(groups, Exchanges(turns), max);
    ExchangesCut(turns);
    GroupsOfNothing(groups);
  }

  /* ---------------------------------------------------------------- how full the parts are */

  lemma {:induction false} NeighboursOverflow(es: seq<seq<Turn>>, max: nat, i: nat)
    requires 0 < i < |Pack(es, max)|
    ensures Chars(Pack(es, max)[i - 1]) + Chars(Pack(es, max)[i]) > max
  {
    var front, e := es[..|es| - 1], es[|es| - 1];
    var parts := Pack(front, max);
    if i < |parts| {
      NeighboursOverflow(front, max, i);
      if i == |parts| - 1 { CharsConcat(parts[i], e); }
    }
  }

  lemma OneMore(h: nat, m: nat)
    ensures (h + 1) * m == h * m + m
  {
  }

  lemma {:induction false} PairsFill(parts: seq<seq<Turn>>, max: nat)
    requires forall i :: 0 < i < |parts| ==> Chars(parts[i - 1]) + Chars(parts[i]) > max
    ensures (|parts| / 2) * (max + 1) <= Chars(Flatten(parts))
  {
    hide Chars, Flatten;
    if |parts| >= 2 {
      var front, a, b := parts[..|parts| - 2], parts[|parts| - 2], parts[|parts| - 1];
      PairsFill(front, max);
      assert Chars(parts[|parts| - 1 - 1]) + Chars(parts[|parts| - 1]) > max;
      assert parts == (front + [a]) + [b];
      TwoMoreChars(front, a, b);
      OnePairMore(|parts|, max + 1, Chars(Flatten(front)), Chars(a) + Chars(b));
    }
  }

  lemma TwoMoreChars(front: seq<seq<Turn>>, a: seq<Turn>, b: seq<Turn>)
    ensures Chars(Flatten((front + [a]) + [b])) == Chars(Flatten(front)) + (Chars(a) + Chars(b))
  {
    hide Chars, Flatten;
    FlattenSnoc(front, a);
    FlattenSnoc(front + [a], b);
    CharsConcat(Flatten(front), a);
    CharsConcat(Flatten(front) + a, b);
  }

  lemma OnePairMore(n: nat, unit: nat, before: nat, added: nat)
    requires n >= 2 && ((n - 2) / 2) * unit <= before && unit <= added
    ensures (n / 2) * unit <= before + added
  {
    OneMore((n - 2) / 2, unit);
    assert n / 2 == (n - 2) / 2 + 1;
  }

  /** With n parts, floor(n/2) bounds' worth of text was really there. */
  lemma PartsHalfFull(turns: seq<Turn>, max: nat)
    ensures (|Parts(turns, max)| / 2) * (max + 1) <= Chars(turns)
  {
    var parts := Parts(turns, max);
    PartsConcatenate(turns, max);
    forall i | 0 < i < |parts| ensures Chars(parts[i - 1]) + Chars(parts[i]) > max {
      NeighboursOverflow(Exchanges(turns), max, i);
    }
    PairsFill(parts, max);
  }

  /* ---------------------------------------------------------------- cutting the rest again */

  lemma LastPartOnly(before: seq<seq<Turn>>, tail: seq<seq<Turn>>, e: seq<Turn>, max: nat)
    requires tail != []
    ensures WithExchange(before + tail, e, max) == before + WithExchange(tail, e, max)
  {
    assert (before + tail)[..|before + tail| - 1] == before + tail[..|tail| - 1];
  }

  /** Once an exchange opens a part, the parts before it no longer matter. */
  lemma {:induction false} PackFrom(es: seq<seq<Turn>>, j: nat, max: nat)
    requires j < |es|
    requires WithExchange(Pack(es[..j], max), es[j], max) == Pack(es[..j], max) + [es[j]]
    ensures Pack(es, max) == Pack(es[..j], max) + Pack(es[j..], max)
    decreases |es|
  {
    var front, e := es[..|es| - 1], es[|es| - 1];
    LastOfSuffix(es, j);
    if j == |es| - 1 {
      assert Pack([], max) == [] && front[j..] == [] && front == es[..j];
    } else {
      assert front[..j] == es[..j] && front[j] == es[j];
      PackFrom(front, j, max);
      PackFlatten(front[j..], max);
      LastPartOnly(Pack(es[..j], max), Pack(front[j..], max), e, max);
    }
  }

  lemma LastOfSuffix(es: seq<seq<Turn>>, j: nat)
    requires j < |es|
    ensures es[j..] != [] && es[j..][|es[j..]| - 1] == es[|es| - 1]
    ensures es[j..][..|es[j..]| - 1] == es[..|es| - 1][j..]
  {
  }

  /** Where part k of a packing begins. */
  lemma {:induction false} PartBegins(es: seq<seq<Turn>>, k: nat, max: nat) returns (j: nat)
    requires 0 < k < |Pack(es, max)|
    ensures 0 < j < |es| && Pack(es[..j], max) == Pack(es, max)[..k]
    ensures WithExchange(Pack(es[..j], max), es[j], max) == Pack(es[..j], max) + [es[j]]
  {
    PackSome(es, max);
    hide Pack, WithExchange;
    var front := es[..|es| - 1];
    var parts := Pack(front, max);
    if |parts| > k {
      j := PartBegins(front, k, max);
      assert front[..j] == es[..j];
      assert Pack(es, max)[..k] == parts[..k];
    } else {
      j := |es| - 1;
    }
  }

  /** One more exchange goes into the last part or makes a new one. */
  lemma PackSome(es: seq<seq<Turn>>, max: nat)
    requires Pack(es, max) != []
    ensures es != []
    ensures var parts, more, e := Pack(es[..|es| - 1], max), Pack(es, max), es[|es| - 1];
            && more == WithExchange(parts, e, max)
            && (|es| == 1 ==> parts == [])
            && (|more| == |parts| || more == parts + [e])
            && (forall k :: 0 <= k < |parts| ==> more[..k] == parts[..k])
  {
    var parts := Pack(es[..|es| - 1], max);
    forall k | 0 <= k < |parts| ensures Pack(es, max)[..k] == parts[..k] { }
  }

  lemma SuffixCut(es: seq<seq<Turn>>, j: nat)
    requires IsCut(es) && j <= |es|
    ensures IsCut(es[j..])
  {
    if 0 < j && |es[j..]| > 1 { HeadOwner(es[j]); }
  }

  lemma PackedSuffix(es: seq<seq<Turn>>, max: nat, k: nat) returns (rest: seq<seq<Turn>>)
    requires IsCut(es) && 0 < k < |Pack(es, max)|
    ensures IsCut(rest) && rest != [] && Pack(rest, max) == Pack(es, max)[k..]
  {
    var j := PartBegins(es, k, max);
    PackFrom(es, j, max);
    SuffixCut(es, j);
    rest := es[j..];
  }

  /** Cutting what parts k, k+1, ... hold gives parts k, k+1, ... again: a split resumed on
      unchanged material continues where it stopped. */
  lemma ResplitSuffix(turns: seq<Turn>, max: nat, k: nat)
    requires k < |Parts(turns, max)|
    ensures Parts(Flatten(Parts(turns, max)[k..]), max) == Parts(turns, max)[k..]
  {
    var parts := Parts(turns, max);
    PartsConcatenate(turns, max);
    if k == 0 {
      assert parts[0..] == parts;
    } else {
      ExchangesCut(turns);
      var rest := PackedSuffix(Exchanges(turns), max, k);
      PackFlatten(rest, max);
      CutIsUnique(rest);
      if Chars(Flatten(rest)) <= max { PackWhole(rest, max); }
    }
  }

  lemma {:induction false} PackWhole(es: seq<seq<Turn>>, max: nat)
    requires es != [] && Chars(Flatten(es)) <= max
    ensures Pack(es, max) == [Flatten(es)]
  {
    var front, e := es[..|es| - 1], es[|es| - 1];
    CharsConcat(Flatten(front), e);
    if front == [] {
      assert [] + e == e;
    } else {
      PackWhole(front, max);
      assert [Flatten(front)][..0] == [];
    }
  }

  /* ---------------------------------------------------------------- the loops */

  function Split(turns: seq<Turn>, max: nat): Result<seq<seq<Turn>>> {
    if max < MIN_PART_CHARS then Err(BoundTooSmall) else Ok(Parts(turns, max))
  }

  method CollectExchanges(turns: seq<Turn>) returns (exchanges: seq<seq<Turn>>)
    ensures exchanges == Exchanges(turns)
  {
    exchanges := [];
    for i := 0 to |turns|
      invariant exchanges == Exchanges(turns[..i])
    {
      var turn := turns[i];
      assert turns[..i + 1][..i] == turns[..i];
      if turn.said.role == Owner && exchanges != [] && Owners(exchanges[|exchanges| - 1]) > 0 {
        exchanges := exchanges + [[turn]];
      } else if exchanges != [] {
        exchanges := exchanges[..|exchanges| - 1] + [exchanges[|exchanges| - 1] + [turn]];
      } else {
        exchanges := [[turn]];
      }
    }
    assert turns[..|turns|] == turns;
  }

  method PackExchanges(exchanges: seq<seq<Turn>>, max: nat) returns (parts: seq<seq<Turn>>)
    ensures parts == Pack(exchanges, max)
  {
    parts := [];
    for i := 0 to |exchanges|
      invariant parts == Pack(exchanges[..i], max)
    {
      var exchange := exchanges[i];
      assert exchanges[..i + 1][..i] == exchanges[..i];
      if parts != [] && Chars(parts[|parts| - 1]) + Chars(exchange) <= max {
        parts := parts[..|parts| - 1] + [parts[|parts| - 1] + exchange];
      } else {
        parts := parts + [exchange];
      }
    }
    assert exchanges[..|exchanges|] == exchanges;
  }

  method SplitParts(turns: seq<Turn>, max: nat) returns (r: Result<seq<seq<Turn>>>)
    ensures r == Split(turns, max)
    ensures r.Ok? ==> Flatten(r.value) == turns
  {
    PartsConcatenate(turns, max);
    if max < MIN_PART_CHARS { return Err(BoundTooSmall); }
    if Chars(turns) <= max { return Ok([turns]); }
    var exchanges := CollectExchanges(turns);
    var parts := PackExchanges(exchanges, max);
    r := Ok(parts);
  }
}
