/** Copies of one conversation delivered from other devices (`material_relation` and the remote
    arms of `_sync_pass`, in report mode), also when an ingest of the session is still pending.

    A copy is compared as a bag of turns: with what its own device showed before, and with the
    largest copy the host has seen. A copy names its device; LOCAL stands for none. */
module Merge {
  import opened Turns
  import opened Readers
  import opened Splitting
  import opened Exporter
  import opened ExactlyOnce
  import opened ExportRuns

  datatype Copy = Copy(device: nat, turns: seq<Utterance>, subagent: bool, conflict: bool)

  /** `known` is the set of revisions remembered as valid observations, by device. */
  datatype Host = Host(disk: Disk, known: set<(nat, seq<Utterance>)>)

  predicate Within(a: seq<Utterance>, b: seq<Utterance>) {
    multiset(a) <= multiset(b)
  }

  /* ---------------------------------------------------------------- one delivery */

  datatype Relation = Extending | Behind | Diverged

  function Previous(c: Cursor, device: nat): Option<seq<Utterance>> {
    if device in c.origins then Some(c.origins[device])
    else if c.device == device then c.seen else None
  }

  function Relate(h: Host, copy: Copy): Relation {
    if h.disk.entry.None? then Extending
    else
      var c := h.disk.entry.value.cursor;
      if c.seen.None? then if c.file.None? && c.exportedTurns == 0 then Extending else Diverged
      else
        var previous := Previous(c, copy.device);
        if previous.Some? && (copy.device, copy.turns) !in h.known && !Within(previous.value, copy.turns) then Diverged
        else if Within(c.seen.value, copy.turns) then Extending
        else if Within(copy.turns, c.seen.value) then Behind
        else Diverged
  }

  function Carrying(c: Cursor, entry: Cursor, copy: Copy): Cursor {
    c.(file := entry.file, origins := entry.origins[copy.device := copy.turns], device := copy.device)
  }

  /** What the full path makes of a copy; it leaves the recorded local file alone. */
  function Proposal(entry: Cursor, copy: Copy, opts: Options): Plan {
    var cut := Increment(copy.turns, entry);
    if cut.Err? then Keep
    else
      var data := File(ClaudeFile([]), copy.subagent, copy.conflict);
      match Conclude(entry, copy.turns, data, opts, Earlier(entry), cut.value, entry.splitTurns > 0, false)
      case Keep => Keep
      case Observe(c) => Observe(Carrying(c, entry, copy))
      case Export(o) => Export(o.(cursor := Carrying(o.cursor, entry, copy)))
  }

  function Entering(d: Disk): Cursor {
    if d.entry.None? then Fresh([]) else d.entry.value.cursor
  }

  predicate SameCopy(c: Cursor, copy: Copy, opts: Options) {
    c.seen == Some(copy.turns) && c.splitTurns == 0 && !Stale(c, opts.judgment)
  }

  function Reorigin(d: Disk, origins: map<nat, seq<Utterance>>): Disk
    requires d.entry.Some?
  {
    d.(entry := Some(d.entry.value.(cursor := d.entry.value.cursor.(origins := origins))))
  }

  /* ---------------------------------------------------------------- over a pending receipt */

  function PendingReceipt(d: Disk): Option<Receipt> {
    if d.entry.Some? then d.entry.value.pending else None
  }

  function Bearing(d: Disk, carried: Option<Receipt>): Disk
    requires HasPending(d)
  {
    d.(entry := Some(d.entry.value.(pending := Some(d.entry.value.pending.value.(carried := carried)))))
  }

  /** `ingest` as the main loop reaches it. With a receipt pending it drops what it was given and
      settles that receipt; without one the step may carry a receipt copied from the entry. */
  function IngestOver(d: Disk, payload: Payload, step: Cursor, carried: Option<Receipt>, fate: Fate): Disk {
    if HasPending(d) then Settle(d, fate)
    else
      match fate
      case NotStarted => d
      case Journalled => d.(journal := Some(payload))
      case _ => Settle(Bearing(Journal(d, payload, step), carried), fate)
  }

  /** A pending receipt whose journal is gone or changed is refused. */
  predicate Succeeds(d: Disk, fate: Fate) {
    fate == Completed && (HasPending(d) ==> d.journal == Some(d.entry.value.pending.value.payload))
  }

  /** The copied receipt is the same object, so settling it acknowledges the copy as well. */
  function Shared(d: Disk, carried: Option<Receipt>, settled: Cursor): Option<Receipt> {
    if HasPending(d) && carried == d.entry.value.pending then Some(carried.value.(cursor := settled)) else carried
  }

  /** The export loop when the entry it works on may still hold a receipt: `carried` is the
      receipt that the last part's step copies from that entry. */
  function ExportOver(key: nat, d: Disk, o: Order, number: nat, entry: Cursor, carried: Option<Receipt>,
                      fates: seq<Fate>): Disk
    requires number <= |o.parts|
    decreases |o.parts| - number
  {
    if number == |o.parts| || !HasOwner(Said(o.parts[number])) then d
    else
      var fate := FateAt(fates, number);
      var next := IngestOver(d, PartPayload(key, o, number, entry), PartStep(o, number, entry),
                             if number == |o.parts| - 1 then carried else None, fate);
      if Succeeds(d, fate) && next.entry.Some? then
        var c := next.entry.value.cursor;
        ExportOver(key, next, o, number + 1, c, Shared(d, carried, c), fates)
      else next
  }

  function Absorb(key: nat, h: Host, copy: Copy, opts: Options, fates: seq<Fate>): Host {
    var entry := Entering(h.disk);
    var known := h.known + {(copy.device, copy.turns)};
    if h.disk.entry.Some? && SameCopy(entry, copy, opts) then
      Host(Reorigin(h.disk, entry.origins[copy.device := copy.turns]), known)
    else
      match Proposal(entry, copy, opts)
      case Keep => h
      case Observe(c) => Host(h.disk.(entry := Some(Entry(c, PendingReceipt(h.disk)))), known)
      case Export(o) => Host(ExportOver(key, h.disk, o, 0, entry, PendingReceipt(h.disk), fates), known)
  }

  /** A device's recorded observation never rolls back. */
  function FallBehind(h: Host, copy: Copy): Host
    requires h.disk.entry.Some?
  {
    var origins := h.disk.entry.value.cursor.origins;
    var rollsBack := copy.device in origins && !Within(origins[copy.device], copy.turns);
    Host(Reorigin(h.disk, if rollsBack then origins else origins[copy.device := copy.turns]),
         h.known + {(copy.device, copy.turns)})
  }

  function Receive(key: nat, h: Host, copy: Copy, opts: Options, fates: seq<Fate>): Host {
    if opts.max < MIN_PART_CHARS then h
    else
      match Relate(h, copy)
      case Diverged => h
      case Behind => FallBehind(h, copy)
      case Extending => Absorb(key, h, copy, opts, fates)
  }

  class Recipient {
    const process: Process
    var known: set<(nat, seq<Utterance>)>

    function State(): Host
      reads this, process
    {
      Host(process.State(), known)
    }

    constructor (process: Process)
      ensures this.process == process && known == {}
    {
      this.process := process;
      known := {};
    }

    /** A first attempt whose step carries a receipt along. */
    method Begin(payload: Payload, step: Cursor, carried: Option<Receipt>, fate: Fate)
      requires !HasPending(process.State())
      modifies process
      ensures process.State() == IngestOver(old(process.State()), payload, step, carried, fate)
      ensures fate == Completed ==> process.entry.Some?
    {
      if fate == NotStarted { return; }
      process.journal := Some(payload);
      if fate == Journalled { return; }
      var prior := if process.entry.Some? then process.entry.value.cursor else FreshFrom(step);
      process.entry := Some(Entry(prior, Some(Receipt(step, payload, carried))));
      process.Finish(fate);
    }

    /** The export loop of the main loop, whatever receipt the entry holds. */
    method ExportParts(o: Order, fates: seq<Fate>)
      modifies process
      ensures process.State() == ExportOver(process.key, old(process.State()), o, 0, o.entry,
                                            PendingReceipt(old(process.State())), fates)
    {
      hide PartPayload, PartStep, IngestOver, Settle;
      var current, carried := o.entry, PendingReceipt(process.State());
      var number := 0;
      while number < |o.parts|
        invariant number <= |o.parts|
        invariant ExportOver(process.key, old(process.State()), o, 0, o.entry, PendingReceipt(old(process.State())),
                             fates)
                  == ExportOver(process.key, process.State(), o, number, current, carried, fates)
      {
        if !HasOwner(Said(o.parts[number])) { return; }
        var fate, last := FateAt(fates, number), number == |o.parts| - 1;
        var receipt, journal := PendingReceipt(process.State()), process.journal;
        if receipt.Some? {
          SettleIsIngest(process.State(), PartPayload(process.key, o, number, current), PartStep(o, number, current),
                         if last then carried else None, fate);
          process.Finish(fate);
        } else {
          Begin(PartPayload(process.key, o, number, current), PartStep(o, number, current),
                if last then carried else None, fate);
        }
        if fate != Completed || (receipt.Some? && journal != Some(receipt.value.payload)) { return; }
        current := process.entry.value.cursor;
        if receipt.Some? && carried == receipt { carried := Some(receipt.value.(cursor := current)); }
        number := number + 1;
      }
    }

    /** The remote arm of the main loop. */
    method Deliver(copy: Copy, opts: Options, fates: seq<Fate>)
      modifies this, process
      ensures State() == Receive(process.key, old(State()), copy, opts, fates)
    {
      hide Proposal, SameCopy, ExportOver, Previous, Within;
      if opts.max < MIN_PART_CHARS { return; }
      var relation := Relate(State(), copy);
      if relation == Diverged { return; }
      if relation == Behind {
        var cursor := process.entry.value.cursor;
        var origins := cursor.origins;
        if !(copy.device in origins && !Within(origins[copy.device], copy.turns)) {
          origins := origins[copy.device := copy.turns];
        }
        process.entry := Some(process.entry.value.(cursor := cursor.(origins := origins)));
        known := known + {(copy.device, copy.turns)};
        return;
      }
      var from := if process.entry.Some? then process.entry.value.cursor else Fresh([]);
      if process.entry.Some? && SameCopy(from, copy, opts) {
        var observed := from.(origins := from.origins[copy.device := copy.turns]);
        process.entry := Some(process.entry.value.(cursor := observed));
        known := known + {(copy.device, copy.turns)};
        return;
      }
      var plan := Proposal(from, copy, opts);
      ProposalShape(from, copy, opts);
      match plan {
        case Keep => return;
        case Observe(cursor) => process.entry := Some(Entry(cursor, PendingReceipt(process.State())));
        case Export(o) => ExportParts(o, fates);
      }
      known := known + {(copy.device, copy.turns)};
    }
  }

  lemma SettleIsIngest(d: Disk, payload: Payload, step: Cursor, carried: Option<Receipt>, fate: Fate)
    requires HasPending(d)
    ensures IngestOver(d, payload, step, carried, fate) == Settle(d, fate)
    ensures Settle(d, fate).entry.Some?
  {
  }

  lemma ProposalShape(entry: Cursor, copy: Copy, opts: Options)
    ensures var plan, cut := Proposal(entry, copy, opts), Increment(copy.turns, entry);
            && (plan.Observe? ==>
                  cut.Ok? && plan.cursor.exported == Earlier(entry) && plan.cursor.splitRefs == entry.splitRefs
                  && plan.cursor.splitTurns == entry.splitTurns && plan.cursor.exportedTurns == entry.exportedTurns
                  && plan.cursor.sources == entry.sources && plan.cursor.seen == Some(copy.turns)
                  && plan.cursor.origins == entry.origins[copy.device := copy.turns]
                  && plan.cursor.device == copy.device)
            && (plan.Export? ==>
                  cut.Ok? && !plan.order.rewritten && plan.order.entry == entry && plan.order.session == copy.turns
                  && plan.order.earlier == Earlier(entry) && plan.order.parts == Parts(cut.value.rest, opts.max)
                  && plan.order.cursor.seen == Some(copy.turns)
                  && plan.order.cursor.origins == entry.origins[copy.device := copy.turns]
                  && plan.order.cursor.device == copy.device)
  {
    hide Increment, Parts, Triage;
  }

  /** Without a receipt to settle or carry this is the export loop of a local file. */
  lemma {:induction false} OverIsPlain(key: nat, d: Disk, o: Order, number: nat, entry: Cursor, fates: seq<Fate>)
    requires number <= |o.parts| && !HasPending(d)
    ensures ExportOver(key, d, o, number, entry, None, fates) == ExportFrom(key, d, o, number, entry, fates)
    decreases |o.parts| - number
  {
    hide PartPayload, PartStep;
    if number < |o.parts| && HasOwner(Said(o.parts[number])) {
      var payload, step := PartPayload(key, o, number, entry), PartStep(o, number, entry);
      CompletedState(d, payload, step);
      if FateAt(fates, number) == Completed {
        var next := Ingest(d, payload, step, Completed);
        OverIsPlain(key, next, o, number + 1, next.entry.value.cursor, fates);
      }
    }
  }

  /* ---------------------------------------------------------------- the largest copy wins */

  datatype Shown = Shown(copy: Copy, opts: Options)

  predicate Ready(opts: Options) {
    opts.max >= MIN_PART_CHARS && opts.judgment.rules.minOwnerTurns >= 3
  }

  function Show(key: nat, h: Host, shown: seq<Shown>): Host {
    if shown == [] then h
    else
      var last := shown[|shown| - 1];
      Receive(key, Show(key, h, shown[..|shown| - 1]), last.copy, last.opts, [])
  }

  predicate Comparable(a: seq<Utterance>, b: seq<Utterance>) {
    Within(a, b) || Within(b, a)
  }

  predicate AllComparable(shown: seq<Shown>) {
    forall i, j :: 0 <= i < |shown| && 0 <= j < |shown| ==> Comparable(shown[i].copy.turns, shown[j].copy.turns)
  }

  predicate WasShown(shown: seq<Shown>, device: nat, turns: seq<Utterance>) {
    exists i :: 0 <= i < |shown| && shown[i].copy.device == device && shown[i].copy.turns == turns
  }

  predicate Largest(shown: seq<Shown>, turns: seq<Utterance>) {
    && (exists i :: 0 <= i < |shown| && shown[i].copy.turns == turns)
    && (forall i :: 0 <= i < |shown| ==> Within(shown[i].copy.turns, turns))
  }

  /** A cursor between uninterrupted deliveries. */
  predicate Settled(c: Cursor) {
    c.splitTurns == 0 && c.seen.Some? && Within(Earlier(c), c.seen.value)
  }

  predicate Collected(h: Host, shown: seq<Shown>) {
    if shown == [] then h.disk.entry.None?
    else
      && h.disk.entry.Some? && !HasPending(h.disk)
      && (var c := h.disk.entry.value.cursor;
          && Settled(c) && Largest(shown, c.seen.value)
          && (forall device :: device in c.origins ==> WasShown(shown, device, c.origins[device])))
  }

  lemma ProposalSettles(entry: Cursor, copy: Copy, opts: Options)
    requires entry.splitTurns == 0 && Within(Earlier(entry), copy.turns) && Ready(opts)
    ensures !Proposal(entry, copy, opts).Keep?
    ensures var plan := Proposal(entry, copy, opts);
            && (plan.Observe? ==> Settled(plan.cursor))
            && (plan.Export? ==> plan.order.parts != [] && AllOwned(plan.order.parts))
  {
    hide Parts, Triage, Subtract;
    ProposalShape(entry, copy, opts);
    var plan := Proposal(entry, copy, opts);
    if plan.Export? {
      var cut, data := Increment(copy.turns, entry).value, File(ClaudeFile([]), copy.subagent, copy.conflict);
      Thresholds(entry, copy.turns, data, opts, Earlier(entry), cut, false, false);
      OwnedParts(cut.rest, opts.max);
    }
  }

  lemma OwnedParts(turns: seq<Turn>, max: nat)
    requires |OwnerTexts(turns)| > 0
    ensures Parts(turns, max) != [] && AllOwned(Parts(turns, max))
  {
    hide Parts;
    OwnersCounted(turns);
    OwnersPositive(turns);
    PartsConcatenate(turns, max);
    forall i | 0 <= i < |Parts(turns, max)| ensures HasOwner(Said(Parts(turns, max)[i])) {
      PartsBoundedWithOwner(turns, max, i);
    }
  }

  /** An uninterrupted export of owned parts ends on the cursor of its last part. */
  lemma {:induction false} ExportEnds(key: nat, d: Disk, o: Order, number: nat, entry: Cursor)
    requires number < |o.parts| && AllOwned(o.parts)
    ensures var after := ExportFrom(key, d, o, number, entry, []);
            && after.entry.Some? && !HasPending(after)
            && (var c := after.entry.value.cursor;
                c.splitTurns == 0 && c.seen == o.cursor.seen && c.exported == o.session
                && c.origins == o.cursor.origins && c.device == o.cursor.device)
    decreases |o.parts| - number
  {
    hide Ingest, PartPayload, PartStep, Accept;
    var payload, step := PartPayload(key, o, number, entry), PartStep(o, number, entry);
    CompletedState(d, payload, step);
    var next := Ingest(d, payload, step, Completed);
    var c := next.entry.value.cursor;
    assert HasOwner(Said(o.parts[number]));
    assert ExportFrom(key, d, o, number, entry, []) == ExportFrom(key, next, o, number + 1, c, []);
    if number + 1 < |o.parts| {
      ExportEnds(key, next, o, number + 1, c);
    } else {
      LastStep(o, entry);
    }
  }

  lemma LastStep(o: Order, entry: Cursor)
    requires o.parts != []
    ensures var c := PartStep(o, |o.parts| - 1, entry);
            && c.splitTurns == 0 && c.seen == o.cursor.seen && c.exported == o.session
            && c.origins == o.cursor.origins && c.device == o.cursor.device
  {
  }

  /** A copy that extends everything shown so far becomes what the host has seen. */
  lemma AbsorbSettles(key: nat, h: Host, copy: Copy, opts: Options)
    requires !HasPending(h.disk) && Ready(opts)
    requires h.disk.entry.Some? ==> Settled(Entering(h.disk)) && Within(Entering(h.disk).seen.value, copy.turns)
    ensures var after := Absorb(key, h, copy, opts, []).disk;
            && after.entry.Some? && !HasPending(after)
            && (var c := after.entry.value.cursor;
                Settled(c) && c.seen == Some(copy.turns)
                && c.origins == Entering(h.disk).origins[copy.device := copy.turns]
                && (c.device == copy.device || (h.disk.entry.Some? && c.device == Entering(h.disk).device)))
  {
    hide Proposal, ExportFrom, ExportOver;
    var entry := Entering(h.disk);
    assert Within(Earlier(entry), copy.turns);
    ProposalSettles(entry, copy, opts);
    ProposalShape(entry, copy, opts);
    match Proposal(entry, copy, opts)
    case Observe(_) =>
    case Export(o) =>
      OverIsPlain(key, h.disk, o, 0, entry, []);
      ExportEnds(key, h.disk, o, 0, entry);
  }

  lemma StillShown(shown: seq<Shown>, last: Shown, origins: map<nat, seq<Utterance>>)
    requires forall device :: device in origins ==> WasShown(shown, device, origins[device])
    ensures forall device :: device in origins ==> WasShown(shown + [last], device, origins[device])
    ensures WasShown(shown + [last], last.copy.device, last.copy.turns)
  {
    forall device | device in origins ensures WasShown(shown + [last], device, origins[device]) {
      var i :| 0 <= i < |shown| && shown[i].copy.device == device && shown[i].copy.turns == origins[device];
      assert (shown + [last])[i] == shown[i];
    }
    assert (shown + [last])[|shown|] == last;
  }

  lemma LargestGrows(shown: seq<Shown>, last: Shown, turns: seq<Utterance>)
    requires shown == [] || Largest(shown, turns)
    ensures shown == [] || Within(turns, last.copy.turns) ==> Largest(shown + [last], last.copy.turns)
    ensures shown != [] && Within(last.copy.turns, turns) ==> Largest(shown + [last], turns)
  {
    assert (shown + [last])[|shown|] == last;
    assert forall i :: 0 <= i < |shown| ==> (shown + [last])[i] == shown[i];
  }

  lemma ReceiveCollects(key: nat, h: Host, shown: seq<Shown>, last: Shown)
    requires Collected(h, shown) && Ready(last.opts)
    requires forall i :: 0 <= i < |shown| ==> Comparable(shown[i].copy.turns, last.copy.turns)
    ensures Collected(Receive(key, h, last.copy, last.opts, []), shown + [last])
  {
    hide Absorb, Largest, WasShown, Within;
    var entry := Entering(h.disk);
    if shown == [] {
      LargestGrows([], last, []);
      StillShown([], last, map[]);
      AbsorbSettles(key, h, last.copy, last.opts);
    } else {
      StillShown(shown, last, entry.origins);
      LargestGrows(shown, last, entry.seen.value);
      match Relate(h, last.copy)
      case Diverged => DivergedIsBehind(h, shown, last);
      case Behind => FallBehindSettled(entry);
      case Extending => AbsorbSettles(key, h, last.copy, last.opts);
    }
  }

  lemma FallBehindSettled(c: Cursor)
    ensures forall origins :: Settled(c.(origins := origins)) == Settled(c)
  {
  }

  lemma SeenComparable(h: Host, shown: seq<Shown>, last: Shown)
    requires Collected(h, shown) && shown != []
    requires forall i :: 0 <= i < |shown| ==> Comparable(shown[i].copy.turns, last.copy.turns)
    ensures Comparable(h.disk.entry.value.cursor.seen.value, last.copy.turns)
  {
  }

  /** Among comparable copies only an older one of the same device is called a rewrite. */
  lemma DivergedIsBehind(h: Host, shown: seq<Shown>, last: Shown)
    requires Collected(h, shown) && Relate(h, last.copy) == Diverged
    requires forall i :: 0 <= i < |shown| ==> Comparable(shown[i].copy.turns, last.copy.turns)
    ensures shown != [] && Within(last.copy.turns, h.disk.entry.value.cursor.seen.value)
  {
    var c := h.disk.entry.value.cursor;
    SeenComparable(h, shown, last);
    if last.copy.device in c.origins {
      assert WasShown(shown, last.copy.device, c.origins[last.copy.device]);
    }
  }

  lemma {:induction false} ShowCollects(key: nat, h: Host, shown: seq<Shown>)
    requires h.disk.entry.None? && AllComparable(shown)
    requires forall s :: s in shown ==> Ready(s.opts)
    ensures Collected(Show(key, h, shown), shown)
  {
    hide Receive, Collected, Ready, Comparable;
    if shown == [] {
      NothingShown(h);
    } else {
      var front, last := shown[..|shown| - 1], shown[|shown| - 1];
      ShowCollects(key, h, front);
      assert shown == front + [last] && last in shown;
      ReceiveCollects(key, Show(key, h, front), front, last);
    }
  }

  lemma NothingShown(h: Host)
    requires h.disk.entry.None?
    ensures Collected(h, [])
  {
  }

  /** THE LARGEST COPY WINS. Whatever order comparable copies arrive in, from whichever devices
      and however often, the host ends having seen the largest one, and what it has recorded of
      each device is part of it. */
  lemma LargestWins(key: nat, h: Host, shown: seq<Shown>)
    requires h.disk.entry.None? && AllComparable(shown) && shown != []
    requires forall s :: s in shown ==> Ready(s.opts)
    ensures var d := Show(key, h, shown).disk;
            && d.entry.Some? && d.entry.value.cursor.seen.Some?
            && Largest(shown, d.entry.value.cursor.seen.value)
            && (forall device :: device in d.entry.value.cursor.origins ==>
                  && WasShown(shown, device, d.entry.value.cursor.origins[device])
                  && Within(d.entry.value.cursor.origins[device], d.entry.value.cursor.seen.value))
  {
    hide Show, AllComparable;
    ShowCollects(key, h, shown);
  }

  function Copies(shown: seq<Shown>): set<seq<Utterance>> {
    set s | s in shown :: s.copy.turns
  }

  lemma LargestOfSame(shown: seq<Shown>, again: seq<Shown>, a: seq<Utterance>, b: seq<Utterance>)
    requires Copies(shown) == Copies(again) && Largest(shown, a) && Largest(again, b)
    ensures multiset(a) == multiset(b)
  {
    LargestBounds(shown, a, again, b);
    LargestBounds(again, b, shown, a);
  }

  lemma LargestBounds(shown: seq<Shown>, a: seq<Utterance>, again: seq<Shown>, b: seq<Utterance>)
    requires Copies(shown) == Copies(again) && Largest(shown, a) && Largest(again, b)
    ensures Within(b, a)
  {
    assert b in Copies(again);
    var s :| s in shown && s.copy.turns == b;
    var i :| 0 <= i < |shown| && shown[i] == s;
    assert Within(shown[i].copy.turns, a);
  }

  /** ORDER FREE. Two histories that show the same comparable copies, in any orders, with any
      repeats, through any devices, leave the host with the same bag of turns. */
  lemma OrderFree(key: nat, h: Host, shown: seq<Shown>, again: seq<Shown>)
    requires h.disk.entry.None? && AllComparable(shown) && AllComparable(again) && shown != []
    requires forall s :: s in shown + again ==> Ready(s.opts)
    requires Copies(shown) == Copies(again)
    ensures var a, b := Show(key, h, shown).disk.entry, Show(key, h, again).disk.entry;
            && a.Some? && b.Some? && a.value.cursor.seen.Some? && b.value.cursor.seen.Some?
            && multiset(a.value.cursor.seen.value) == multiset(b.value.cursor.seen.value)
  {
    hide Show, AllComparable, Largest;
    assert shown[0].copy.turns in Copies(shown);
    LargestWins(key, h, shown);
    LargestWins(key, h, again);
    LargestOfSame(shown, again, Show(key, h, shown).disk.entry.value.cursor.seen.value,
                  Show(key, h, again).disk.entry.value.cursor.seen.value);
  }

  /* ---------------------------------------------------------------- copies that diverged */

  /** A copy that neither extends nor falls behind what the host has seen changes nothing. */
  lemma DivergedChangesNothing(key: nat, h: Host, copy: Copy, opts: Options, fates: seq<Fate>)
    requires h.disk.entry.Some? && h.disk.entry.value.cursor.seen.Some?
    requires !Comparable(h.disk.entry.value.cursor.seen.value, copy.turns)
    ensures Receive(key, h, copy, opts, fates) == h
  {
  }

  /** Order freedom is exactly comparability: of two copies that diverged the first one shown
      stays, so the two orders disagree. */
  lemma OrderFreeIff(key: nat, h: Host, a: Shown, b: Shown)
    requires h.disk.entry.None? && Ready(a.opts) && Ready(b.opts)
    ensures var one, two := Show(key, h, [a, b]).disk.entry, Show(key, h, [b, a]).disk.entry;
            && one.Some? && two.Some? && one.value.cursor.seen.Some? && two.value.cursor.seen.Some?
            && (multiset(one.value.cursor.seen.value) == multiset(two.value.cursor.seen.value)
                <==> Comparable(a.copy.turns, b.copy.turns))
  {
    hide Show, Receive, Within;
    if Comparable(a.copy.turns, b.copy.turns) {
      PairComparable(a, b);
      PairComparable(b, a);
      assert Copies([a, b]) == Copies([b, a]) by {
        assert forall s :: s in [a, b] <==> s in [b, a];
      }
      OrderFree(key, h, [a, b], [b, a]);
    } else {
      FirstStays(key, h, a, b);
      FirstStays(key, h, b, a);
      assert multiset(a.copy.turns) != multiset(b.copy.turns) by { SameBagWithin(a.copy.turns, b.copy.turns); }
    }
  }

  lemma SameBagWithin(a: seq<Utterance>, b: seq<Utterance>)
    ensures multiset(a) == multiset(b) ==> Within(a, b)
  {
  }

  lemma PairComparable(a: Shown, b: Shown)
    requires Comparable(a.copy.turns, b.copy.turns)
    ensures AllComparable([a, b])
  {
  }

  lemma FirstStays(key: nat, h: Host, a: Shown, b: Shown)
    requires h.disk.entry.None? && Ready(a.opts) && Ready(b.opts) && !Comparable(a.copy.turns, b.copy.turns)
    ensures var after := Show(key, h, [a, b]).disk.entry; after.Some? && after.value.cursor.seen == Some(a.copy.turns)
  {
    hide Receive, Collected;
    assert [a, b][..1] == [a] && [a][..0] == [];
    assert Show(key, h, [a, b]) == Receive(key, Show(key, h, [a]), b.copy, b.opts, []);
    ShowCollects(key, h, [a]);
    OnlyCopy(Show(key, h, [a]), a);
    DivergedChangesNothing(key, Show(key, h, [a]), b.copy, b.opts, []);
  }

  lemma OnlyCopy(h: Host, a: Shown)
    requires Collected(h, [a])
    ensures h.disk.entry.Some? && h.disk.entry.value.cursor.seen == Some(a.copy.turns)
  {
  }
}
