/** The incremental exporter of one session (`_sync_pass` and its nested `ingest`).

    `Disk` is everything that survives a crash: the cursor in the sync state, with the pending
    receipt beside it, the journalled payload, and the library the payloads go to. Digests of
    material are represented by the material itself, and the canonical encoding of a payload by
    the payload, so a reference can be followed without a file in between. */
module Exporter {
  import opened Turns
  import opened Readers
  import opened Splitting

  /* ---------------------------------------------------------------- what a pass reads */

  datatype Transcript = ClaudeFile(claude: seq<ClaudeRow>) | CodexFile(codex: seq<CodexRow>)

  /** One complete-record snapshot of a transcript. The two marks are facts of its bytes. */
  datatype File = File(rows: Transcript, subagent: bool, conflict: bool)

  predicate Extends(before: File, after: File) {
    match (before.rows, after.rows)
    case (ClaudeFile(a), ClaudeFile(b)) => a <= b
    case (CodexFile(a), CodexFile(b)) => a <= b
    case _ => false
  }

  function Read(file: File): Result<seq<Utterance>> {
    match file.rows
    case ClaudeFile(rows) => ClaudeTurns(rows)
    case CodexFile(rows) => CodexTurns(rows)
  }

  /* ---------------------------------------------------------------- judgement */

  /** `lowSignal` is the set of texts that are only a command or an acknowledgement. */
  datatype Rules = Rules(minOwnerTurns: nat, minOwnerChars: nat, lowSignal: set<string>, project: bool)

  /** What `judgment_key` fingerprints: the rules and the watch's since bound. */
  datatype Judgment = Judgment(rules: Rules, since: Option<int>)

  datatype Verdict = Verdict(owners: nat, chars: nat, full: bool)

  function OwnerTexts(turns: seq<Turn>): seq<string> {
    if turns == [] then []
    else OwnerTexts(turns[..|turns| - 1])
         + if turns[|turns| - 1].said.role == Owner then [turns[|turns| - 1].said.text] else []
  }

  function TextChars(texts: seq<string>): nat {
    if texts == [] then 0 else TextChars(texts[..|texts| - 1]) + |texts[|texts| - 1]|
  }

  /** `full` is the compile verdict: no reason to skip the material or to index it only. */
  function Triage(turns: seq<Turn>, file: File, rules: Rules, steward: bool): Verdict {
    var texts := OwnerTexts(turns);
    var chars := TextChars(texts);
    Verdict(|texts|, chars,
            && !steward && !file.subagent && !file.conflict && rules.project
            && texts != [] && |texts| >= rules.minOwnerTurns && chars >= rules.minOwnerChars
            && !(forall i :: 0 <= i < |texts| ==> texts[i] in rules.lowSignal))
  }

  /* ---------------------------------------------------------------- durable state */

  datatype Payload = Payload(
    session: nat, turns: seq<Turn>, part: nat, continues: Option<nat>, rewritten: bool, full: bool)

  /** `exported` and `seen` are the materials behind `material_exported` and `material_seen`,
      `origins` is each device's last observation and `device` the one `seen` came from;
      `file` stands for the recorded size and prefix digest. */
  datatype Cursor = Cursor(
    sources: seq<nat>, exportedTurns: nat, exported: seq<Utterance>, seen: Option<seq<Utterance>>,
    splitRefs: seq<seq<Turn>>, splitTurns: nat, held: Option<(nat, nat)>,
    file: Option<File>, steward: bool, judgment: Option<Judgment>,
    origins: map<nat, seq<Utterance>>, device: nat)

  /** The device of the host's own transcripts. */
  const LOCAL: nat := 0

  /** `carried` is a receipt that was copied into the cursor together with the entry it lay in. */
  datatype Receipt = Receipt(cursor: Cursor, payload: Payload, carried: Option<Receipt>)
  datatype Entry = Entry(cursor: Cursor, pending: Option<Receipt>)
  datatype Disk = Disk(entry: Option<Entry>, journal: Option<Payload>, library: seq<Payload>)

  function Fresh(sources: seq<nat>): Cursor {
    Cursor(sources, 0, [], None, [], 0, None, None, false, None, map[], LOCAL)
  }

  /** The placeholder a first part is journalled under. */
  function FreshFrom(step: Cursor): Cursor {
    step.(sources := [], exportedTurns := 0, held := None, file := None)
  }

  /** The library keeps one source per payload; the same bytes give the same source again. */
  function Accept(library: seq<Payload>, payload: Payload): (r: (seq<Payload>, nat))
    ensures r.1 < |r.0| && r.0[r.1] == payload && library <= r.0
  {
    if payload in library then (library, Find(library, payload)) else (library + [payload], |library|)
  }

  function Find(library: seq<Payload>, payload: Payload): (i: nat)
    requires payload in library
    ensures i < |library| && library[i] == payload
  {
    if library[0] == payload then 0 else 1 + Find(library[1..], payload)
  }

  /* ---------------------------------------------------------------- deciding */

  datatype Policy = Report | Reingest
  datatype Options = Options(policy: Policy, judgment: Judgment, max: nat, steward: bool)

  datatype Order = Order(
    entry: Cursor, cursor: Cursor, earlier: seq<Utterance>, session: seq<Utterance>,
    parts: seq<seq<Turn>>, full: bool, split: bool, rewritten: bool)

  datatype Plan = Keep | Observe(cursor: Cursor) | Export(order: Order)

  predicate Stale(c: Cursor, judgment: Judgment) {
    c.steward || c.judgment != Some(judgment)
  }

  /** The byte-identity shortcut. */
  predicate Unchanged(c: Cursor, data: File, opts: Options) {
    c.file == Some(data) && !Stale(c, opts.judgment) && c.seen.Some? && c.splitTurns == 0
  }

  predicate Intact(prior: Option<Cursor>, data: File) {
    prior.None? || prior.value.file.None? || Extends(prior.value.file.value, data)
  }

  function Decide(prior: Option<Cursor>, data: File, opts: Options): Plan {
    var intact := Intact(prior, data);
    if !intact && opts.policy == Report then Keep
    else if intact && prior.Some? && Unchanged(prior.value, data, opts) then Keep
    else Judge(prior, data, opts, !intact)
  }

  function Judge(prior: Option<Cursor>, data: File, opts: Options, rewritten: bool): Plan {
    var session := Read(data);
    if session.Err? then Keep
    else
      var entry := if prior.None? then Fresh([])
                   else if rewritten then Fresh(prior.value.sources) else prior.value;
      var cut := Increment(session.value, entry);
      if cut.Ok? then
        Conclude(entry, session.value, data, opts, Earlier(entry), cut.value, entry.splitTurns > 0, rewritten)
      else if opts.policy == Report then Keep
      else
        var all := Numbered(session.value, 0);
        Conclude(Fresh(entry.sources), session.value, data, opts, Earlier(entry), Cut(all, all), false, true)
  }

  /** The acknowledged material the increment is measured against. */
  function Earlier(entry: Cursor): seq<Utterance> {
    if entry.exportedTurns > 0 then entry.exported else []
  }

  /** `whole` is the increment a split was cut from, `rest` what is still owed of it. */
  datatype Cut = Cut(whole: seq<Turn>, rest: seq<Turn>)

  /** The number a split's whole increment starts after. Only its texts are judged, so the number
      does not matter where the placeholder of a first part counts no exported turns. */
  function BeforeSplit(entry: Cursor): nat {
    if entry.exportedTurns < entry.splitTurns then 0 else entry.exportedTurns - entry.splitTurns
  }

  function Increment(session: seq<Utterance>, entry: Cursor): Result<Cut> {
    var whole := Pending(session, Earlier(entry), BeforeSplit(entry));
    if whole.Err? then Err(whole.error)
    else if entry.splitTurns == 0 then Ok(Cut(whole.value, whole.value))
    else
      var acknowledged := Flatten(entry.splitRefs);
      if |acknowledged| != entry.splitTurns then Err(SplitCountMismatch)
      else
        var rest := Pending(session, Earlier(entry) + Said(acknowledged), entry.exportedTurns);
        if rest.Err? then Err(rest.error) else Ok(Cut(whole.value, rest.value))
  }

  /** The since bound only keeps out a session nothing was exported from. */
  predicate TooOld(session: seq<Utterance>, entry: Cursor, since: Option<int>) {
    since.Some? && entry.exportedTurns == 0
    && (session == [] || session[|session| - 1].at < since.value)
  }

  function Conclude(entry: Cursor, session: seq<Utterance>, data: File, opts: Options,
                    earlier: seq<Utterance>, cut: Cut, beyond: bool, rewritten: bool): Plan
  {
    var rules := opts.judgment.rules;
    if rules.minOwnerTurns < 3 then Keep
    else
      var verdict := Triage(cut.whole, data, rules, opts.steward);
      var cursor := entry.(file := Some(data), seen := Some(session), exported := earlier,
                           steward := opts.steward, judgment := Some(opts.judgment),
                           origins := entry.origins[LOCAL := session], device := LOCAL);
      if opts.steward || data.subagent || data.conflict || TooOld(session, entry, opts.judgment.since)
         || cut.rest == [] then
        if rewritten then Keep else Observe(cursor)
      else if !beyond && (verdict.owners < rules.minOwnerTurns || verdict.chars < rules.minOwnerChars) then
        if rewritten then Keep else Observe(cursor.(held := Some((verdict.owners, verdict.chars))))
      else
        var parts := Parts(cut.rest, opts.max);
        Export(Order(entry, cursor, earlier, session, parts, verdict.full, |parts| > 1 || beyond, rewritten))
  }

  /* ---------------------------------------------------------------- exporting */

  function PartPayload(key: nat, o: Order, number: nat, entry: Cursor): Payload
    requires number < |o.parts|
  {
    var part := o.parts[number];
    Payload(key, part, |entry.sources| + 1,
            if entry.exportedTurns > 0 && entry.sources != [] then Some(entry.sources[|entry.sources| - 1]) else None,
            o.rewritten && number == 0,
            o.full && (o.split ==> HasOwner(Said(part))))
  }

  function PartStep(o: Order, number: nat, entry: Cursor): Cursor
    requires number < |o.parts|
  {
    var part := o.parts[number];
    if number == |o.parts| - 1 then
      o.cursor.(sources := entry.sources, exportedTurns := entry.exportedTurns + |part|,
                exported := o.session, splitRefs := [], splitTurns := 0, held := None)
    else
      entry.(exportedTurns := entry.exportedTurns + |part|, exported := o.earlier, seen := Some(o.session),
             splitRefs := entry.splitRefs + [part], splitTurns := entry.splitTurns + |part|,
             held := None, judgment := o.cursor.judgment,
             origins := o.cursor.origins, device := o.cursor.device)
  }

  /** How far one ingest got, named by its last durable action: a crash, a refused command or an
      unreadable reply stops it there. `Accepted` is the uncertain one. */
  datatype Fate = NotStarted | Journalled | Saved | Accepted | Recorded | Completed

  function Reaches(fate: Fate): nat {
    match fate
    case NotStarted => 0 case Journalled => 1 case Saved => 2
    case Accepted => 3 case Recorded => 4 case Completed => 5
  }

  function Acknowledged(step: Cursor, source: nat): Cursor {
    step.(sources := step.sources + [source])
  }

  /** From the saved receipt on: what a first attempt and every replay do alike. */
  function Settle(d: Disk, fate: Fate): Disk
    requires d.entry.Some? && d.entry.value.pending.Some?
  {
    var receipt := d.entry.value.pending.value;
    if d.journal != Some(receipt.payload) then d
    else
      var (library, source) := Accept(d.library, receipt.payload);
      var recorded := Some(Entry(Acknowledged(receipt.cursor, source), receipt.carried));
      match fate
      case Accepted => d.(library := library)
      case Recorded => d.(library := library, entry := recorded)
      case Completed => Disk(recorded, None, library)
      case _ => d
  }

  function Journal(d: Disk, payload: Payload, step: Cursor): Disk {
    var prior := if d.entry.Some? then d.entry.value.cursor else FreshFrom(step);
    d.(journal := Some(payload), entry := Some(Entry(prior, Some(Receipt(step, payload, None)))))
  }

  function Ingest(d: Disk, payload: Payload, step: Cursor, fate: Fate): Disk {
    match fate
    case NotStarted => d
    case Journalled => d.(journal := Some(payload))
    case _ => Settle(Journal(d, payload, step), fate)
  }

  lemma IngestCases(d: Disk, payload: Payload, step: Cursor, fate: Fate)
    ensures Reaches(fate) == 0 ==> Ingest(d, payload, step, fate) == d
    ensures Reaches(fate) == 1 ==> Ingest(d, payload, step, fate) == d.(journal := Some(payload))
    ensures HasPending(Journal(d, payload, step))
    ensures Reaches(fate) >= 2 ==> Ingest(d, payload, step, fate) == Settle(Journal(d, payload, step), fate)
  {
  }

  function FateAt(fates: seq<Fate>, i: nat): Fate {
    if i < |fates| then fates[i] else Completed
  }

  /** The export loop from part `number` on, stopping at the first part that does not complete. */
  function ExportFrom(key: nat, d: Disk, o: Order, number: nat, entry: Cursor, fates: seq<Fate>): Disk
    requires number <= |o.parts|
    decreases |o.parts| - number
  {
    if number == |o.parts| || !HasOwner(Said(o.parts[number])) then d
    else
      var next := Ingest(d, PartPayload(key, o, number, entry), PartStep(o, number, entry), FateAt(fates, number));
      if FateAt(fates, number) == Completed && next.entry.Some?
      then ExportFrom(key, next, o, number + 1, next.entry.value.cursor, fates)
      else next
  }

  function Carry(key: nat, d: Disk, plan: Plan, fates: seq<Fate>): Disk {
    match plan
    case Keep => d
    case Observe(cursor) => d.(entry := Some(Entry(cursor, None)))
    case Export(o) => ExportFrom(key, d, o, 0, o.entry, fates)
  }

  function PriorCursor(d: Disk): Option<Cursor> {
    if d.entry.Some? then Some(d.entry.value.cursor) else None
  }

  /** The main loop's turn for this file. */
  function Main(key: nat, d: Disk, data: File, opts: Options, fates: seq<Fate>): Disk {
    Carry(key, d, Decide(PriorCursor(d), data, opts), fates)
  }

  predicate HasPending(d: Disk) {
    d.entry.Some? && d.entry.value.pending.Some?
  }

  /** A replayed part of a split leaves parts owed, so the file stays in this pass. */
  predicate StillOwed(d: Disk) {
    d.entry.Some? && d.entry.value.pending.None? && d.entry.value.cursor.splitTurns > 0
  }

  /** One pass: finish an uncertain ingest first, then look at the transcript. */
  function Sync(key: nat, d: Disk, data: File, opts: Options, replay: Fate, fates: seq<Fate>): Disk {
    if opts.max < MIN_PART_CHARS then d
    else if HasPending(d) then
      var recovered := Settle(d, replay);
      if replay == Completed && StillOwed(recovered) then Main(key, recovered, data, opts, fates) else recovered
    else Main(key, d, data, opts, fates)
  }

  /* ---------------------------------------------------------------- the process */

  class Process {
    const key: nat
    var entry: Option<Entry>
    var journal: Option<Payload>
    var library: seq<Payload>

    function State(): Disk
      reads this
    {
      Disk(entry, journal, library)
    }

    constructor (key: nat)
      ensures this.key == key && State() == Disk(None, None, [])
    {
      this.key := key;
      entry, journal, library := None, None, [];
    }

    /** `ingest` from the external call on, for a journalled payload. */
    method Finish(fate: Fate)
      requires entry.Some? && entry.value.pending.Some?
      modifies this
      ensures State() == Settle(old(State()), fate)
    {
      var receipt := entry.value.pending.value;
      if journal != Some(receipt.payload) || Reaches(fate) < 3 { return; }
      var (kept, source) := Accept(library, receipt.payload);
      library := kept;
      if fate == Accepted { return; }
      entry := Some(Entry(receipt.cursor.(sources := receipt.cursor.sources + [source]), receipt.carried));
      if fate == Recorded { return; }
      journal := None;
    }

    method IngestPart(payload: Payload, step: Cursor, fate: Fate)
      requires entry.Some? ==> entry.value.pending.None?
      modifies this
      ensures State() == Ingest(old(State()), payload, step, fate)
      ensures fate == Completed ==> entry.Some? && entry.value.pending.None?
    {
      if fate == NotStarted { return; }
      journal := Some(payload);
      if fate == Journalled { return; }
      var prior := if entry.Some? then entry.value.cursor else FreshFrom(step);
      entry := Some(Entry(prior, Some(Receipt(step, payload, None))));
      Finish(fate);
    }

    method ExportParts(o: Order, fates: seq<Fate>)
      requires entry.Some? ==> entry.value.pending.None?
      modifies this
      ensures State() == ExportFrom(key, old(State()), o, 0, o.entry, fates)
    {
      hide PartPayload, PartStep, Ingest;
      var current := o.entry;
      var number := 0;
      while number < |o.parts|
        invariant number <= |o.parts|
        invariant entry.Some? ==> entry.value.pending.None?
        invariant ExportFrom(key, old(State()), o, 0, o.entry, fates)
                  == ExportFrom(key, State(), o, number, current, fates)
      {
        var part := o.parts[number];
        if !HasOwner(Said(part)) { return; }
        IngestPart(PartPayload(key, o, number, current), PartStep(o, number, current), FateAt(fates, number));
        if FateAt(fates, number) != Completed { return; }
        current := entry.value.cursor;
        number := number + 1;
      }
    }

    method ReadFile(data: File) returns (session: Result<seq<Utterance>>)
      ensures session == Read(data)
    {
      match data.rows
      case ClaudeFile(rows) => session := ReadClaude(rows);
      case CodexFile(rows) => session := ReadCodex(rows);
    }

    method CutIncrement(session: seq<Utterance>, from: Cursor) returns (r: Result<Cut>)
      ensures r == Increment(session, from)
    {
      var earlier := Earlier(from);
      var whole := PendingTurns(session, earlier, BeforeSplit(from));
      if whole.Err? { return Err(whole.error); }
      if from.splitTurns == 0 { return Ok(Cut(whole.value, whole.value)); }
      var acknowledged := Flatten(from.splitRefs);
      if |acknowledged| != from.splitTurns { return Err(SplitCountMismatch); }
      var rest := PendingTurns(session, earlier + Said(acknowledged), from.exportedTurns);
      r := if rest.Err? then Err(rest.error) else Ok(Cut(whole.value, rest.value));
    }

    /** The body of the main loop for a local file whose bytes are `data`. */
    method Consider(data: File, opts: Options) returns (plan: Plan)
      ensures plan == Decide(PriorCursor(State()), data, opts)
    {
      var prior := if entry.Some? then Some(entry.value.cursor) else None;
      var rewritten := !Intact(prior, data);
      if rewritten && opts.policy == Report { return Keep; }
      if !rewritten && prior.Some? && Unchanged(prior.value, data, opts) { return Keep; }
      var session := ReadFile(data);
      if session.Err? { return Keep; }
      var from := if prior.None? then Fresh([]) else if rewritten then Fresh(prior.value.sources) else prior.value;
      var cut := CutIncrement(session.value, from);
      if cut.Ok? {
        plan := Conclude(from, session.value, data, opts, Earlier(from), cut.value, from.splitTurns > 0, rewritten);
      } else if opts.policy == Report {
        plan := Keep;
      } else {
        var all := Numbered(session.value, 0);
        plan := Conclude(Fresh(from.sources), session.value, data, opts, Earlier(from), Cut(all, all), false, true);
      }
    }

    method Pass(data: File, opts: Options, replay: Fate, fates: seq<Fate>)
      modifies this
      ensures State() == Sync(key, old(State()), data, opts, replay, fates)
    {
      if opts.max < MIN_PART_CHARS { return; }
      if entry.Some? && entry.value.pending.Some? {
        Finish(replay);
        if replay != Completed || entry.value.pending.Some? || entry.value.cursor.splitTurns == 0 { return; }
      }
      var plan := Consider(data, opts);
      match plan {
        case Keep =>
        case Observe(cursor) => entry := Some(Entry(cursor, None));
        case Export(o) => ExportParts(o, fates);
      }
    }
  }
}
