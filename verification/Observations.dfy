/** What the host remembers of each device and which copies it refuses, over whole histories of
    uninterrupted deliveries and in terms of the copies shown. */
module Observations {
  import opened Turns
  import opened Readers
  import opened Splitting
  import opened Exporter
  import opened Decisions
  import opened Merge

  /* ---------------------------------------------------------------- one copy */

  /** What the device is known to have shown: its own record, or the copy seen last if that was
      the device's and it has no record. */
  ghost predicate ShownBy(c: Cursor, device: nat, us: seq<Utterance>) {
    || (device in c.origins && c.origins[device] == us)
    || (device !in c.origins && c.device == device && c.seen == Some(us))
  }

  /** The copy takes back turns its own device showed, and is not remembered as one it showed. */
  ghost predicate TakesBack(h: Host, c: Cursor, copy: Copy) {
    && (copy.device, copy.turns) !in h.known
    && exists us :: ShownBy(c, copy.device, us) && !(multiset(us) <= multiset(copy.turns))
  }

  /** A copy is refused, extends the material or falls behind it, for any host. */
  lemma RelationIff(h: Host, copy: Copy)
    ensures h.disk.entry.None? ==> Relate(h, copy) == Extending
    ensures h.disk.entry.Some? ==>
              var c := h.disk.entry.value.cursor;
              if c.seen.None? then
                Relate(h, copy) == if c.file.None? && c.exportedTurns == 0 then Extending else Diverged
              else
                var seen, now := multiset(c.seen.value), multiset(copy.turns);
                && (Relate(h, copy) == Diverged <==> TakesBack(h, c, copy) || (!(seen <= now) && !(now <= seen)))
                && (Relate(h, copy) == Extending <==> !TakesBack(h, c, copy) && seen <= now)
                && (Relate(h, copy) == Behind <==> !TakesBack(h, c, copy) && now < seen)
  {
    if h.disk.entry.Some? {
      var c := h.disk.entry.value.cursor;
      if Previous(c, copy.device).Some? { assert ShownBy(c, copy.device, Previous(c, copy.device).value); }
    }
  }

  /* ---------------------------------------------------------------- whole histories */

  /** No earlier copy of the device had turns this one lacks. */
  ghost predicate Tops(shown: seq<Shown>, upto: nat, device: nat, turns: seq<Utterance>)
    requires upto <= |shown|
  {
    forall j :: 0 <= j < upto && shown[j].copy.device == device ==> multiset(shown[j].copy.turns) <= multiset(turns)
  }

  /** The device showed this when it was its largest yet. */
  ghost predicate Took(shown: seq<Shown>, device: nat, turns: seq<Utterance>) {
    exists i :: 0 <= i < |shown| && shown[i].copy.device == device && shown[i].copy.turns == turns
                && Tops(shown, i, device, turns)
  }

  ghost predicate ShowedAny(shown: seq<Shown>, device: nat) {
    exists i :: 0 <= i < |shown| && shown[i].copy.device == device
  }

  /** The record of every device is its largest copy, and just the copies taken are remembered. */
  ghost predicate Watched(h: Host, shown: seq<Shown>) {
    && (forall device: nat, turns :: (device, turns) in h.known <==> Took(shown, device, turns))
    && (shown != [] ==>
          && h.disk.entry.Some?
          && forall device: nat :: RecordIs(h.disk.entry.value.cursor, shown, device))
  }

  ghost predicate RecordIs(c: Cursor, shown: seq<Shown>, device: nat) {
    && (device in c.origins <==> ShowedAny(shown, device))
    && (device in c.origins ==> Tops(shown, |shown|, device, c.origins[device]))
    && (device !in c.origins ==> c.device != device)
  }

  lemma TookNext(shown: seq<Shown>, last: Shown, device: nat, turns: seq<Utterance>)
    ensures Took(shown + [last], device, turns)
            <==> || Took(shown, device, turns)
                 || (last.copy.device == device && last.copy.turns == turns && Tops(shown, |shown|, device, turns))
  {
    var more := shown + [last];
    forall i: nat | i <= |shown| ensures Tops(more, i, device, turns) <==> Tops(shown, i, device, turns) {
      assert forall j :: 0 <= j < i ==> more[j] == shown[j];
    }
    assert more[|shown|] == last;
    assert forall j :: 0 <= j < |shown| ==> more[j] == shown[j];
    if i :| 0 <= i < |shown| && shown[i].copy.device == device && shown[i].copy.turns == turns
            && Tops(shown, i, device, turns)
    {
      assert more[i] == shown[i];
    }
  }

  lemma RecordNext(c: Cursor, after: Cursor, shown: seq<Shown>, last: Shown, device: nat)
    requires shown != [] ==> RecordIs(c, shown, device)
    requires shown == [] ==> device !in c.origins
    requires var d := last.copy.device;
             || (after.origins == c.origins[d := last.copy.turns] && (after.device == d || after.device == c.device)
                 && (d in c.origins ==> multiset(c.origins[d]) <= multiset(last.copy.turns)))
             || (d in c.origins && after.origins == c.origins && after.device == c.device && shown != []
                 && multiset(last.copy.turns) <= multiset(c.origins[d]))
    requires shown == [] ==> after.device == last.copy.device
    ensures RecordIs(after, shown + [last], device)
  {
    var more := shown + [last];
    assert more[|shown|] == last;
    assert forall j :: 0 <= j < |shown| ==> more[j] == shown[j];
    if ShowedAny(shown, device) {
      var i :| 0 <= i < |shown| && shown[i].copy.device == device;
      assert more[i].copy.device == device;
    }
  }

  lemma RecordShown(h: Host, shown: seq<Shown>, device: nat)
    requires Collected(h, shown) && shown != [] && device in h.disk.entry.value.cursor.origins
    ensures var us := h.disk.entry.value.cursor.origins[device];
            && (exists i :: 0 <= i < |shown| && shown[i].copy.device == device && shown[i].copy.turns == us)
            && multiset(us) <= multiset(h.disk.entry.value.cursor.seen.value)
  {
    var c := h.disk.entry.value.cursor;
    assert WasShown(shown, device, c.origins[device]);
    assert Merge.Largest(shown, c.seen.value);
  }

  lemma TopsAll(h: Host, shown: seq<Shown>, last: Shown)
    requires Collected(h, shown) && shown != []
    requires multiset(h.disk.entry.value.cursor.seen.value) <= multiset(last.copy.turns)
    ensures Tops(shown, |shown|, last.copy.device, last.copy.turns)
  {
    assert Merge.Largest(shown, h.disk.entry.value.cursor.seen.value);
  }

  lemma WatchesNext(h: Host, after: Host, shown: seq<Shown>, last: Shown)
    requires Watched(h, shown) && after.disk.entry.Some?
    requires shown == [] ==> h.disk.entry.None?
    requires after.known == h.known || after.known == h.known + {(last.copy.device, last.copy.turns)}
    requires (last.copy.device, last.copy.turns) in after.known
             <==> || Took(shown, last.copy.device, last.copy.turns)
                  || Tops(shown, |shown|, last.copy.device, last.copy.turns)
    requires forall device: nat :: RecordIs(after.disk.entry.value.cursor, shown + [last], device)
    ensures Watched(after, shown + [last])
  {
    hide RecordIs, Took, Tops;
    forall device: nat, turns
      ensures (device, turns) in after.known <==> Took(shown + [last], device, turns)
    {
      TookNext(shown, last, device, turns);
    }
  }

  lemma RefusedWatches(h: Host, shown: seq<Shown>, last: Shown)
    requires Collected(h, shown) && Watched(h, shown) && shown != [] && Relate(h, last.copy) == Diverged
    requires forall i :: 0 <= i < |shown| ==> Comparable(shown[i].copy.turns, last.copy.turns)
    ensures Watched(h, shown + [last])
  {
    hide Took, Relate, Merge.Largest;
    var c, d := h.disk.entry.value.cursor, last.copy.device;
    SeenComparable(h, shown, last);
    DivergedIsBehind(h, shown, last);
    RelationIff(h, last.copy);
    assert RecordIs(c, shown, d);
    var us :| ShownBy(c, d, us) && !(multiset(us) <= multiset(last.copy.turns));
    RecordShown(h, shown, d);
    var i :| 0 <= i < |shown| && shown[i].copy.device == d && shown[i].copy.turns == us;
    assert Comparable(shown[i].copy.turns, last.copy.turns);
    assert !Tops(shown, |shown|, d, last.copy.turns);
    forall device: nat ensures RecordIs(c, shown + [last], device) {
      assert RecordIs(c, shown, device);
      RecordNext(c, c, shown, last, device);
    }
    WatchesNext(h, h, shown, last);
  }

  lemma BehindWatches(h: Host, shown: seq<Shown>, last: Shown)
    requires Collected(h, shown) && Watched(h, shown) && shown != [] && Relate(h, last.copy) == Behind
    ensures Watched(FallBehind(h, last.copy), shown + [last])
  {
    hide Took, Relate, Collected;
    var c, d, t := h.disk.entry.value.cursor, last.copy.device, last.copy.turns;
    var after := FallBehind(h, last.copy);
    SeenSome(h, shown);
    RelationIff(h, last.copy);
    assert RecordIs(c, shown, d);
    if (d, t) in h.known {
      TookShown(shown, d, t);
    } else if d in c.origins {
      assert ShownBy(c, d, c.origins[d]);
    }
    forall device: nat ensures RecordIs(after.disk.entry.value.cursor, shown + [last], device) {
      assert RecordIs(c, shown, device);
      RecordNext(c, after.disk.entry.value.cursor, shown, last, device);
    }
    if (d, t) !in h.known { TopsOfRecord(c, shown, d, t); }
    WatchesNext(h, after, shown, last);
  }

  lemma SeenSome(h: Host, shown: seq<Shown>)
    requires Collected(h, shown) && shown != []
    ensures h.disk.entry.Some? && h.disk.entry.value.cursor.seen.Some?
  {
  }

  lemma TookShown(shown: seq<Shown>, device: nat, turns: seq<Utterance>)
    requires Took(shown, device, turns)
    ensures exists i :: 0 <= i < |shown| && shown[i].copy.device == device && shown[i].copy.turns == turns
  {
  }

  /** What covers the device's record covers all it showed. */
  lemma TopsOfRecord(c: Cursor, shown: seq<Shown>, device: nat, turns: seq<Utterance>)
    requires RecordIs(c, shown, device)
    requires device in c.origins ==> multiset(c.origins[device]) <= multiset(turns)
    ensures Tops(shown, |shown|, device, turns)
  {
    forall j | 0 <= j < |shown| && shown[j].copy.device == device
      ensures multiset(shown[j].copy.turns) <= multiset(turns)
    {
      assert ShowedAny(shown, device);
    }
  }

  lemma ExtendingWatches(key: nat, h: Host, shown: seq<Shown>, last: Shown)
    requires Collected(h, shown) && Watched(h, shown) && Ready(last.opts) && Relate(h, last.copy) == Extending
    ensures Watched(Absorb(key, h, last.copy, last.opts, []), shown + [last])
  {
    hide Took, Relate, Absorb, Settled;
    var d, t := last.copy.device, last.copy.turns;
    var after := Absorb(key, h, last.copy, last.opts, []);
    if shown != [] { SeenSome(h, shown); }
    RelationIff(h, last.copy);
    ExtendingReady(h, shown, last.copy);
    AbsorbSettles(key, h, last.copy, last.opts);
    AbsorbRemembers(key, h, last.copy, last.opts);
    if shown != [] {
      TopsAll(h, shown, last);
      if d in Entering(h.disk).origins { RecordShown(h, shown, d); }
    }
    forall device: nat ensures RecordIs(after.disk.entry.value.cursor, shown + [last], device) {
      if shown != [] { assert RecordIs(Entering(h.disk), shown, device); }
      RecordNext(Entering(h.disk), after.disk.entry.value.cursor, shown, last, device);
    }
    WatchesNext(h, after, shown, last);
  }

  lemma ExtendingReady(h: Host, shown: seq<Shown>, copy: Copy)
    requires Collected(h, shown) && Relate(h, copy) == Extending
    ensures h.disk.entry.Some? ==> Settled(Entering(h.disk)) && Within(Entering(h.disk).seen.value, copy.turns)
    ensures !HasPending(h.disk)
  {
  }

  lemma AbsorbRemembers(key: nat, h: Host, copy: Copy, opts: Options)
    requires Ready(opts)
    requires h.disk.entry.Some? ==> Settled(Entering(h.disk)) && Within(Entering(h.disk).seen.value, copy.turns)
    ensures Absorb(key, h, copy, opts, []).known == h.known + {(copy.device, copy.turns)}
  {
    hide Proposal, ExportOver;
    assert Within(Earlier(Entering(h.disk)), copy.turns);
    ProposalSettles(Entering(h.disk), copy, opts);
  }

  lemma ReceiveWatches(key: nat, h: Host, shown: seq<Shown>, last: Shown)
    requires Collected(h, shown) && Watched(h, shown) && Ready(last.opts)
    requires forall i :: 0 <= i < |shown| ==> Comparable(shown[i].copy.turns, last.copy.turns)
    ensures Watched(Receive(key, h, last.copy, last.opts, []), shown + [last])
  {
    hide Watched, Absorb, FallBehind, Comparable;
    match Relate(h, last.copy)
    case Diverged => RefusedWatches(h, shown, last);
    case Behind => BehindWatches(h, shown, last);
    case Extending => ExtendingWatches(key, h, shown, last);
  }

  lemma {:induction false} ShowWatches(key: nat, h: Host, shown: seq<Shown>)
    requires h.disk.entry.None? && h.known == {} && AllComparable(shown)
    requires forall s :: s in shown ==> Ready(s.opts)
    ensures Collected(Show(key, h, shown), shown) && Watched(Show(key, h, shown), shown)
  {
    hide Receive, Collected, Ready, Comparable;
    ShowCollects(key, h, shown);
    if shown != [] {
      hide Watched;
      var front, last := shown[..|shown| - 1], shown[|shown| - 1];
      assert shown == front + [last] && last in shown;
      ShowWatches(key, h, front);
      ReceiveWatches(key, Show(key, h, front), front, last);
    }
  }

  /** EACH DEVICE'S OWN. In whatever order comparable copies arrive, what the host records of a
      device is the largest copy that device showed; a record never rolls back. */
  lemma OwnLargest(key: nat, h: Host, shown: seq<Shown>, device: nat)
    requires h.disk.entry.None? && h.known == {} && AllComparable(shown) && shown != []
    requires forall s :: s in shown ==> Ready(s.opts)
    ensures var d := Show(key, h, shown).disk;
            && d.entry.Some?
            && (device in d.entry.value.cursor.origins <==> ShowedAny(shown, device))
            && (ShowedAny(shown, device) ==>
                  var us := d.entry.value.cursor.origins[device];
                  && (exists i :: 0 <= i < |shown| && shown[i].copy.device == device && shown[i].copy.turns == us)
                  && Tops(shown, |shown|, device, us))
  {
    hide Show, AllComparable, Tops, ShowedAny, Collected, Took;
    ShowWatches(key, h, shown);
    assert RecordIs(Show(key, h, shown).disk.entry.value.cursor, shown, device);
    if ShowedAny(shown, device) { RecordShown(Show(key, h, shown), shown, device); }
  }

  /** WHEN A COPY IS REFUSED. After any history of comparable copies, one more comparable copy is
      refused exactly when its device showed turns it lacks and it is no copy that was the
      device's largest when shown: what a device takes back is refused, a replay is not. */
  lemma RefusedIff(key: nat, h: Host, shown: seq<Shown>, copy: Copy)
    requires h.disk.entry.None? && h.known == {} && AllComparable(shown)
    requires forall s :: s in shown ==> Ready(s.opts)
    requires forall i :: 0 <= i < |shown| ==> Comparable(shown[i].copy.turns, copy.turns)
    ensures Relate(Show(key, h, shown), copy) == Diverged
            <==> !Tops(shown, |shown|, copy.device, copy.turns) && !Took(shown, copy.device, copy.turns)
  {
    hide Show, AllComparable, Took, Relate, Ready;
    var now := Show(key, h, shown);
    ShowWatches(key, h, shown);
    RelationIff(now, copy);
    if shown != [] {
      var c, d := now.disk.entry.value.cursor, copy.device;
      SeenComparable(now, shown, Shown(copy, shown[0].opts));
      assert RecordIs(c, shown, d);
      if d in c.origins {
        RecordShown(now, shown, d);
        assert ShownBy(c, d, c.origins[d]);
        if multiset(c.origins[d]) <= multiset(copy.turns) { TopsOfRecord(c, shown, d, copy.turns); }
      } else {
        TopsOfRecord(c, shown, d, copy.turns);
      }
    }
  }

  /* ---------------------------------------------------------------- what a copy leads to */

  /** The very copy seen last, judged by the same rules, with nothing owed. */
  ghost predicate SeenBefore(h: Host, copy: Copy, opts: Options) {
    h.disk.entry.Some?
    && (var c := h.disk.entry.value.cursor;
        c.seen == Some(copy.turns) && c.splitTurns == 0 && !c.steward && c.judgment == Some(opts.judgment))
  }

  /** A copy that extends the material is exported under the thresholds of a local file; otherwise
      it is noted, with the counts if those fell short, and neither the sources nor the recorded
      file move. A copy seen before under the same rules only refreshes its device's record. */
  lemma CopyIff(key: nat, h: Host, copy: Copy, opts: Options, fates: seq<Fate>, whole: seq<Turn>, rest: seq<Turn>)
    requires Ready(opts) && NewSince(Entering(h.disk), copy.turns, whole, rest)
    ensures var c, after := Entering(h.disk), Absorb(key, h, copy, opts, fates);
            var origins := c.origins[copy.device := copy.turns];
            var out := KeptOut(c, copy.turns, File(ClaudeFile([]), copy.subagent, copy.conflict), opts);
            && after.known == h.known + {(copy.device, copy.turns)}
            && (SeenBefore(h, copy, opts) ==>
                  after.disk == h.disk.(entry := Some(h.disk.entry.value.(cursor := c.(origins := origins)))))
            && (!SeenBefore(h, copy, opts) ==>
                  && (Proposal(c, copy, opts).Export?
                      <==> rest != [] && !out && (c.splitTurns > 0 || Enough(whole, opts.judgment.rules)))
                  && (Proposal(c, copy, opts).Export? ==>
                        && Proposal(c, copy, opts).order.entry == c
                        && Proposal(c, copy, opts).order.parts == Parts(rest, opts.max)
                        && after.disk == ExportOver(key, h.disk, Proposal(c, copy, opts).order, 0, c,
                                                    PendingReceipt(h.disk), fates))
                  && (!Proposal(c, copy, opts).Export? ==>
                        && after.disk.entry.Some? && after.disk == h.disk.(entry := after.disk.entry)
                        && PendingReceipt(after.disk) == PendingReceipt(h.disk)
                        && after.disk.entry.value.cursor == c.(
                             seen := Some(copy.turns), exported := if c.exportedTurns > 0 then c.exported else [],
                             steward := opts.steward, judgment := Some(opts.judgment), origins := origins,
                             device := copy.device,
                             held := if out || rest == [] then c.held
                                     else Some((OwnerTurns(whole), OwnerChars(whole))))))
  {
    hide OwnerTurns, OwnerChars, KeptOut, Conclude, Increment, NewSince, ExportOver, Enough;
    var c := Entering(h.disk);
    var data := File(ClaudeFile([]), copy.subagent, copy.conflict);
    NewSinceIs(c, copy.turns, whole, rest);
    ConcludeExports(c, copy.turns, data, opts, Earlier(c), whole, rest, c.splitTurns > 0, false);
    ProposalShape(c, copy, opts);
  }
}
