/** What an order leaves behind after its first parts, said outright: the payloads the library
    gained and the cursor they left, without the steps that made them. */
module Stages {
  import opened Turns
  import opened Readers
  import opened Splitting
  import opened Exporter
  import opened ExactlyOnce
  import opened ExportRuns

  /** The source a part continues: the part before it, or the last source an unbroken account
      already had. */
  ghost function Continues(o: Order, ids: seq<nat>, k: nat): Option<nat>
    requires k <= |ids|
  {
    if k > 0 then Some(ids[k - 1])
    else if o.entry.exportedTurns > 0 && o.entry.sources != [] then Some(o.entry.sources[|o.entry.sources| - 1])
    else None
  }

  /** Part `k` as the library has it. Only the first part of a replacement says that it replaces,
      and a part of a split is compiled only if the owner speaks in it. */
  ghost function Exported(key: nat, o: Order, ids: seq<nat>, k: nat): Payload
    requires k < |o.parts| && k <= |ids|
  {
    Payload(key, o.parts[k], |o.entry.sources| + k + 1, Continues(o, ids, k), o.rewritten && k == 0,
            o.full && (o.split ==> HasOwner(Said(o.parts[k]))))
  }

  /** The cursor after the first parts, acknowledged as `ids`. Between parts the file stays the one
      recorded before and the parts are remembered; after the last one the split is over and the
      whole session counts as exported. */
  ghost function Stage(o: Order, ids: seq<nat>): Cursor
    requires |ids| <= |o.parts|
  {
    var n := |ids|;
    var turns := |Flatten(o.parts[..n])|;
    if n == 0 then o.entry
    else if n == |o.parts| then
      Cursor(o.entry.sources + ids, o.entry.exportedTurns + turns, o.session, o.cursor.seen, [], 0, None,
             o.cursor.file, o.cursor.steward, o.cursor.judgment, o.cursor.origins, o.cursor.device)
    else
      Cursor(o.entry.sources + ids, o.entry.exportedTurns + turns, o.earlier, Some(o.session),
             o.entry.splitRefs + o.parts[..n], o.entry.splitTurns + turns, None,
             o.entry.file, o.entry.steward, o.cursor.judgment, o.cursor.origins, o.cursor.device)
  }

  ghost predicate Gained(key: nat, library: seq<Payload>, o: Order, ids: seq<nat>) {
    |ids| <= |o.parts|
    && forall k :: 0 <= k < |ids| ==> ids[k] < |library| && library[ids[k]] == Exported(key, o, ids, k)
  }

  /** The loop completes exactly the first `n` parts. */
  ghost predicate CompletesFirst(o: Order, fates: seq<Fate>, n: nat) {
    && n <= |o.parts|
    && (forall k :: 0 <= k < n ==> FateAt(fates, k) == Completed)
    && (n < |o.parts| ==> FateAt(fates, n) == NotStarted)
  }

  lemma PayloadIs(key: nat, o: Order, ids: seq<nat>)
    requires |ids| < |o.parts| && forall i :: 0 <= i < |o.parts| ==> o.parts[i] != []
    ensures PartPayload(key, o, |ids|, Stage(o, ids)) == Exported(key, o, ids, |ids|)
  {
    var n := |ids|;
    if n > 0 { MoreParts(o.parts, n - 1); }
  }

  lemma OwnedParts(parts: seq<seq<Turn>>)
    requires AllOwned(parts)
    ensures forall i :: 0 <= i < |parts| ==> parts[i] != []
  {
    forall i | 0 <= i < |parts| ensures parts[i] != [] { assert HasOwner(Said(parts[i])); }
  }

  lemma MoreParts(parts: seq<seq<Turn>>, n: nat)
    requires n < |parts|
    ensures parts[..n + 1] == parts[..n] + [parts[n]]
    ensures |Flatten(parts[..n + 1])| == |Flatten(parts[..n])| + |parts[n]| && |Flatten(parts[..0])| == 0
  {
    assert parts[..n + 1][..n] == parts[..n];
  }

  lemma StageNext(o: Order, ids: seq<nat>, source: nat)
    requires |ids| < |o.parts|
    ensures Acknowledged(PartStep(o, |ids|, Stage(o, ids)), source) == Stage(o, ids + [source])
  {
    hide Flatten;
    var n := |ids|;
    MoreParts(o.parts, n);
    assert (o.entry.sources + ids) + [source] == o.entry.sources + (ids + [source]);
    if n == 0 {
      assert [] + [source] == ids + [source];
      assert o.parts[..1] == [o.parts[0]];
    } else {
      assert (o.entry.splitRefs + o.parts[..n]) + [o.parts[n]] == o.entry.splitRefs + (o.parts[..n] + [o.parts[n]]);
    }
  }

  lemma GainedNext(key: nat, library: seq<Payload>, more: seq<Payload>, o: Order, ids: seq<nat>, source: nat)
    requires Gained(key, library, o, ids) && |ids| < |o.parts| && library <= more
    requires source < |more| && more[source] == Exported(key, o, ids, |ids|)
    ensures Gained(key, more, o, ids + [source])
  {
    var all := ids + [source];
    forall k | 0 <= k < |all| ensures all[k] < |more| && more[all[k]] == Exported(key, o, all, k) {
      assert k > 0 ==> all[k - 1] == ids[k - 1];
    }
  }

  lemma {:induction false} PartsLeave(key: nat, d: Disk, o: Order, ids: seq<nat>, fates: seq<Fate>, n: nat)
    returns (all: seq<nat>)
    requires AllOwned(o.parts) && CompletesFirst(o, fates, n) && |ids| <= n
    requires Gained(key, d.library, o, ids)
    ensures ids <= all && |all| == n
    ensures var after := ExportFrom(key, d, o, |ids|, Stage(o, ids), fates);
            && d.library <= after.library && Gained(key, after.library, o, all)
            && (if n == |ids| then after == d else after == Disk(Some(Entry(Stage(o, all), None)), None, after.library))
    decreases n - |ids|
  {
    hide PartPayload, PartStep, Ingest, Accept, Stage, Exported;
    all := ids;
    if |ids| < n {
      var payload, step := PartPayload(key, o, |ids|, Stage(o, ids)), PartStep(o, |ids|, Stage(o, ids));
      var (library, source) := Accept(d.library, payload);
      OwnedParts(o.parts);
      PayloadIs(key, o, ids);
      StageNext(o, ids, source);
      CompletedState(d, payload, step);
      var next := Ingest(d, payload, step, Completed);
      GainedNext(key, d.library, library, o, ids, source);
      assert HasOwner(Said(o.parts[|ids|]));
      all := PartsLeave(key, next, o, ids + [source], fates, n);
      if n == |ids| + 1 { assert all == ids + [source]; }
    } else if n < |o.parts| {
      NothingStarted(d, PartPayload(key, o, n, Stage(o, ids)), PartStep(o, n, Stage(o, ids)));
    }
  }

  lemma NothingStarted(d: Disk, payload: Payload, step: Cursor)
    ensures Ingest(d, payload, step, NotStarted) == d
  {
  }

  /** AFTER THE FIRST PARTS. An order whose first `n` parts complete, from any disk, leaves the
      library with those parts as payloads, numbered on and each continuing the one before, and
      the cursor with exactly what they account for. */
  lemma OrderLeaves(key: nat, d: Disk, o: Order, fates: seq<Fate>, n: nat) returns (ids: seq<nat>)
    requires AllOwned(o.parts) && CompletesFirst(o, fates, n)
    ensures |ids| == n
    ensures var after := ExportFrom(key, d, o, 0, o.entry, fates);
            && d.library <= after.library && Gained(key, after.library, o, ids)
            && (if n == 0 then after == d else after == Disk(Some(Entry(Stage(o, ids), None)), None, after.library))
  {
    ids := PartsLeave(key, d, o, [], fates, n);
  }

  lemma StepIs(o: Order, ids: seq<nat>)
    requires |ids| < |o.parts|
    ensures PartStep(o, |ids|, Stage(o, ids)) == Stage(o, ids + [0]).(sources := o.entry.sources + ids)
  {
    hide Stage, PartStep;
    StageNext(o, ids, 0);
    StageSources(o, ids);
  }

  lemma StageSources(o: Order, ids: seq<nat>)
    requires |ids| < |o.parts|
    ensures PartStep(o, |ids|, Stage(o, ids)).sources == o.entry.sources + ids
  {
    assert ids == [] ==> o.entry.sources + ids == o.entry.sources;
  }

  /** WHERE A PART STOPS. With `ids` parts done, the next one leaves its journal, then its receipt beside
      the cursor there was (or a placeholder that has exported nothing and knows no file), then its
      payload, then its cursor. */
  lemma PartStops(key: nat, d: Disk, o: Order, ids: seq<nat>, fates: seq<Fate>)
    requires |ids| < |o.parts| && AllOwned(o.parts) && FateAt(fates, |ids|) != Completed
    ensures var payload := Exported(key, o, ids, |ids|);
            var step := Stage(o, ids + [0]).(sources := o.entry.sources + ids);
            var before := if d.entry.Some? then d.entry.value.cursor
                          else step.(sources := [], exportedTurns := 0, file := None);
            var saved := Disk(Some(Entry(before, Some(Receipt(step, payload, None)))), Some(payload), d.library);
            var (library, source) := Accept(d.library, payload);
            ExportFrom(key, d, o, |ids|, Stage(o, ids), fates)
            == match FateAt(fates, |ids|)
               case Journalled => d.(journal := Some(payload))
               case Saved => saved
               case Accepted => saved.(library := library)
               case Recorded => Disk(Some(Entry(Stage(o, ids + [source]), None)), Some(payload), library)
               case _ => d
  {
    hide PartPayload, PartStep, Stage, Exported, Accept;
    var (_, source) := Accept(d.library, Exported(key, o, ids, |ids|));
    OwnedParts(o.parts);
    PayloadIs(key, o, ids);
    StepIs(o, ids);
    StageNext(o, ids, source);
    HeldNone(o, ids + [0]);
    assert HasOwner(Said(o.parts[|ids|]));
  }

  lemma HeldNone(o: Order, ids: seq<nat>)
    requires 0 < |ids| <= |o.parts|
    ensures Stage(o, ids).held == None
  {
  }

  /* ---------------------------------------------------------------- a pass over a receipt */

  /** What a receipt becomes once its payload is acknowledged. */
  ghost function Settling(d: Disk, r: Receipt): Disk {
    Disk(Some(Entry(r.cursor.(sources := r.cursor.sources + [Accept(d.library, r.payload).1]), r.carried)), None,
         Accept(d.library, r.payload).0)
  }

  /** A pass that finds an uncertain ingest settles it first, whatever the transcript says by then, and
      looks at the transcript only if the settled part left others owed; under a bound that is too
      small it does nothing. */
  lemma PassOverReceipt(key: nat, d: Disk, data: File, opts: Options, replay: Fate, fates: seq<Fate>)
    ensures var after := Sync(key, d, data, opts, replay, fates);
            if opts.max < 1000 then after == d
            else if d.entry.None? || d.entry.value.pending.None? then after == Main(key, d, data, opts, fates)
            else
              var r := d.entry.value.pending.value;
              var settled := Settling(d, r);
              if d.journal != Some(r.payload) then after == d
              else match replay
                case Accepted => after == d.(library := settled.library)
                case Recorded => after == settled.(journal := d.journal)
                case Completed => after == if r.carried.None? && r.cursor.splitTurns > 0
                                           then Main(key, settled, data, opts, fates) else settled
                case _ => after == d
  {
    hide Main;
  }
}
