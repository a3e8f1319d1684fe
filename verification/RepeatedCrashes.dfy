/** Any number of interrupted passes before one that is not interrupted. */
module RepeatedCrashes {
  import opened Turns
  import opened Readers
  import opened Splitting
  import opened Exporter
  import opened ExactlyOnce
  import opened CrashTransparency

  /** The state once an uncertain ingest is settled. */
  function Base(d: Disk): Disk {
    if HasPending(d) then Settle(d, Completed) else d
  }

  predicate Continues(d: Disk, data: File, opts: Options) {
    Decide(PriorCursor(d), data, opts).Export? ==> Baselined(Decide(PriorCursor(d), data, opts).order)
  }

  /** What an interrupted pass over this transcript leaves: its receipt, if any, is the last thing
      to do or belongs to a split that goes on. */
  predicate Ready(key: nat, d: Disk, data: File, opts: Options) {
    && Inv(key, d) && Continues(Base(d), data, opts)
    && (HasPending(d) && !StillOwed(Base(d)) ==> Decide(PriorCursor(Base(d)), data, opts) == Keep)
  }

  lemma RestartContinues(key: nat, d: Disk, data: File, opts: Options, o: Order, number: nat, entry: Cursor)
    requires Running(key, d, o, number, entry) && MadeFrom(o, data, opts) && Chained(o, number, entry) && 0 < number
    ensures Continues(d, data, opts)
    ensures number == |o.parts| ==> Decide(PriorCursor(d), data, opts) == Keep
  {
    hide Inv, Decide;
    if number == |o.parts| {
      FinishedPlan(o, data, opts, entry);
    } else {
      BetweenFacts(o, data, opts, number, entry);
      ResumedPlan(o, data, opts, number, entry);
    }
  }

  lemma SettledTwice(d: Disk, fate: Fate)
    requires HasPending(d) && Reaches(fate) <= 3
    ensures Settle(Settle(d, fate), Completed) == Settle(d, Completed) && HasPending(Settle(d, fate))
  {
    AcceptTwice(d.library, d.entry.value.pending.value.payload);
  }

  lemma RecordedAs(d: Disk)
    requires HasPending(d)
    ensures SameRecord(Settle(d, Recorded), Settle(d, Completed))
  {
  }

  lemma SameContinues(a: Disk, b: Disk, data: File, opts: Options)
    requires SameRecord(a, b)
    ensures Continues(a, data, opts) == Continues(b, data, opts)
  {
  }

  /** One ingest of an export, stopped anywhere. */
  lemma IngestReady(key: nat, d: Disk, data: File, opts: Options, o: Order, number: nat, entry: Cursor, fate: Fate)
    requires Running(key, d, o, number, entry) && MadeFrom(o, data, opts) && Chained(o, number, entry)
    requires number < |o.parts| && HasOwner(Said(o.parts[number])) && Continues(d, data, opts)
    ensures Ready(key, Ingest(d, PartPayload(key, o, number, entry), PartStep(o, number, entry), fate), data, opts)
  {
    hide Inv, Working, MadeFrom, Chained, PartPayload, PartStep, Decide, Ingest, Settle, Journal, Ready, Continues;
    var payload, step := PartPayload(key, o, number, entry), PartStep(o, number, entry);
    assert o.parts[number] != [] by { assert Said(o.parts[number]) != []; }
    PartIsDue(key, d, o, number, entry);
    IngestKeeps(key, d, payload, step, fate);
    NextRestarts(key, d, data, opts, o, number, entry);
    var next, after := Ingest(d, payload, step, Completed), Ingest(d, payload, step, fate);
    RestartContinues(key, next, data, opts, o, number + 1, next.entry.value.cursor);
    IngestCases(d, payload, step, fate);
    match fate
    case NotStarted => PlainReady(key, after, d, data, opts);
    case Journalled => PlainReady(key, after, d, data, opts);
    case Saved => ReplaysAlike(d, payload, step, fate); PendingReady(key, after, next, data, opts);
    case Accepted => ReplaysAlike(d, payload, step, fate); PendingReady(key, after, next, data, opts);
    case Recorded => RecordedIngest(d, payload, step); PlainReady(key, after, next, data, opts);
    case Completed => PlainReady(key, after, next, data, opts);
  }

  lemma RecordedIngest(d: Disk, payload: Payload, step: Cursor)
    ensures SameRecord(Ingest(d, payload, step, Recorded), Ingest(d, payload, step, Completed))
  {
    RecordedAs(Journal(d, payload, step));
  }

  lemma PlainReady(key: nat, d: Disk, like: Disk, data: File, opts: Options)
    requires Inv(key, d) && !HasPending(d) && SameRecord(d, like) && Continues(like, data, opts)
    ensures Ready(key, d, data, opts)
  {
    hide Inv, Decide;
  }

  lemma PendingReady(key: nat, d: Disk, next: Disk, data: File, opts: Options)
    requires Inv(key, d) && HasPending(d) && Settle(d, Completed) == next && Continues(next, data, opts)
    requires !StillOwed(next) ==> Decide(PriorCursor(next), data, opts) == Keep
    ensures Ready(key, d, data, opts)
  {
    hide Inv, Decide, Settle;
  }

  lemma {:induction false} ExportReady(key: nat, d: Disk, data: File, opts: Options, o: Order, number: nat,
                                       entry: Cursor, fates: seq<Fate>)
    requires Running(key, d, o, number, entry) && MadeFrom(o, data, opts) && Chained(o, number, entry)
    requires Continues(d, data, opts)
    ensures Ready(key, ExportFrom(key, d, o, number, entry, fates), data, opts)
    decreases |o.parts| - number
  {
    hide Inv, Working, MadeFrom, Chained, PartPayload, PartStep, Ingest, Continues;
    if number < |o.parts| && HasOwner(Said(o.parts[number])) {
      IngestReady(key, d, data, opts, o, number, entry, FateAt(fates, number));
      if FateAt(fates, number) == Completed {
        NextRestarts(key, d, data, opts, o, number, entry);
        var next := Ingest(d, PartPayload(key, o, number, entry), PartStep(o, number, entry), Completed);
        var c := next.entry.value.cursor;
        RestartContinues(key, next, data, opts, o, number + 1, c);
        ExportReady(key, next, data, opts, o, number + 1, c, fates);
      }
    }
  }

  lemma MainReady(key: nat, d: Disk, data: File, opts: Options, fates: seq<Fate>)
    requires Inv(key, d) && !HasPending(d) && Continues(d, data, opts)
    ensures Ready(key, Main(key, d, data, opts, fates), data, opts)
  {
    hide Inv, Working, Decide, ExportFrom;
    match Decide(PriorCursor(d), data, opts)
    case Keep =>
    case Observe(c) =>
      ObserveKeeps(key, d, data, opts);
      ObservedAgain(PriorCursor(d), data, opts, c);
    case Export(o) =>
      DecideStarts(key, d, data, opts);
      OrderMadeFrom(key, d, data, opts, o);
      assert o.parts[..0] == [] && o.entry.splitRefs + [] == o.entry.splitRefs;
      PartsConcatenate(Increment(o.session, o.entry).value.rest, opts.max);
      ExportReady(key, d, data, opts, o, 0, o.entry, fates);
  }

  lemma SyncReady(key: nat, d: Disk, data: File, opts: Options, replay: Fate, fates: seq<Fate>)
    requires Ready(key, d, data, opts)
    ensures Ready(key, Sync(key, d, data, opts, replay, fates), data, opts)
  {
    hide Inv, Decide, Main, Settle, Continues;
    if opts.max >= MIN_PART_CHARS {
      if HasPending(d) {
        SettleKeeps(key, d, replay);
        SettleKeeps(key, d, Completed);
        RecordedAs(d);
        SameContinues(Settle(d, Recorded), Settle(d, Completed), data, opts);
        if Reaches(replay) <= 3 {
          SettledTwice(d, replay);
        } else if replay == Completed && StillOwed(Settle(d, Completed)) {
          MainReady(key, Settle(d, Completed), data, opts, fates);
        }
      } else {
        MainReady(key, d, data, opts, fates);
      }
    }
  }

  lemma KeepsAlone(key: nat, d: Disk, data: File, opts: Options)
    requires Decide(PriorCursor(d), data, opts) == Keep
    ensures Main(key, d, data, opts, []) == d
  {
    hide Decide;
  }

  /** One more interruption makes no difference to the pass that completes. */
  lemma OneMore(key: nat, d: Disk, data: File, opts: Options, replay: Fate, fates: seq<Fate>)
    requires Ready(key, d, data, opts)
    ensures SameRecord(Sync(key, Sync(key, d, data, opts, replay, fates), data, opts, Completed, []),
                       Sync(key, d, data, opts, Completed, []))
  {
    hide Inv, Decide, Main, Settle;
    if opts.max >= MIN_PART_CHARS {
      if !HasPending(d) {
        SyncIdle(key, d, data, opts, replay, fates);
        SyncIdle(key, d, data, opts, Completed, fates);
        CrashTransparent(key, d, data, opts, fates);
      } else {
        var next := Settle(d, Completed);
        SettleKeeps(key, d, Completed);
        RecordedAs(d);
        if !StillOwed(next) { KeepsAlone(key, next, data, opts); }
        if Reaches(replay) <= 3 {
          SettledTwice(d, replay);
        } else if replay == Recorded {
          SettleKeeps(key, d, Recorded);
          MainIgnoresJournal(key, Settle(d, Recorded), next, data, opts);
        } else {
          SyncIdle(key, next, data, opts, Completed, []);
          SyncIdle(key, next, data, opts, Completed, fates);
          if StillOwed(next) { CrashTransparent(key, next, data, opts, fates); }
        }
      }
    }
  }

  /** Passes over one transcript, each stopped anywhere. */
  function Stopped(key: nat, d: Disk, data: File, opts: Options, stops: seq<(Fate, seq<Fate>)>): Disk {
    if stops == [] then d
    else
      var (replay, fates) := stops[|stops| - 1];
      Sync(key, Stopped(key, d, data, opts, stops[..|stops| - 1]), data, opts, replay, fates)
  }

  /** CRASHES ARE TRANSPARENT. However many passes were interrupted, at whatever actions, while
      replaying or while exporting: one pass that is not interrupted ends with the cursor, the
      receipt and the library, byte for byte, of the pass that never was. */
  lemma {:induction false} CrashesTransparent(key: nat, d: Disk, data: File, opts: Options,
        stops: seq<(Fate, seq<Fate>)>)
    requires Ready(key, d, data, opts)
    ensures Ready(key, Stopped(key, d, data, opts, stops), data, opts)
    ensures SameRecord(Sync(key, Stopped(key, d, data, opts, stops), data, opts, Completed, []),
                       Sync(key, d, data, opts, Completed, []))
  {
    hide Ready, Sync;
    if stops != [] {
      var front := stops[..|stops| - 1];
      var (replay, fates) := stops[|stops| - 1];
      CrashesTransparent(key, d, data, opts, front);
      SyncReady(key, Stopped(key, d, data, opts, front), data, opts, replay, fates);
      OneMore(key, Stopped(key, d, data, opts, front), data, opts, replay, fates);
    }
  }

  /** Every accounted state without a receipt is such a start, in report mode whatever the
      transcript. */
  lemma ReadyInReport(key: nat, d: Disk, data: File, opts: Options)
    requires Inv(key, d) && !HasPending(d) && opts.policy == Report
    ensures Ready(key, d, data, opts)
  {
    hide Inv, Decide;
    if Decide(PriorCursor(d), data, opts).Export? { DecideStarts(key, d, data, opts); }
  }
}
