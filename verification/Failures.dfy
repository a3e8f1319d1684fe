/** Which failed compiles are still open, and what to retry (app.py): two functions that have to
    agree on what "the same work" is. */
module Failures {
  import opened Readers

  /** An id as it stands in a payload; both functions compare ids by their text. */
  datatype Id = Text(text: string) | Number(n: nat)

  const DIGITS: string := "0123456789"

  function Decimal(n: nat): string {
    (if n < 10 then "" else Decimal(n / 10)) + [DIGITS[n % 10]]
  }

  function Str(id: Id): string {
    match id case Text(text) => text case Number(n) => Decimal(n)
  }

  /** `treatments` lists a dictionary's items; of equal keys the last one counts. `rest` is every
      other field of the payload. */
  datatype Payload = Payload(
    sources: seq<Id>, treatments: Option<seq<(Id, string)>>, compensation: bool, guidance: string, rest: nat)

  datatype Kind = Compile | Index | Other
  datatype Job = Job(
    kind: Kind, done: bool, ok: bool, snapshot: string, detail: string, completed: Option<int>, payload: Payload)

  datatype WorkKey = WorkKey(source: string, treatment: string, compensation: bool, guidance: string)

  const PROJECTION: string := "projection:"

  /** A job that named a commit or a projection committed, whatever its flag says. */
  predicate Committed(job: Job) {
    !Blank(job.snapshot) || PROJECTION <= job.detail
  }

  /** `treatments.get(source) or ""`: only a string key equals a string. */
  function Get(items: seq<(Id, string)>, source: string): string {
    if items == [] then ""
    else if items[|items| - 1].0 == Text(source) then items[|items| - 1].1
    else Get(items[..|items| - 1], source)
  }

  function Treatment(p: Payload, source: string): string {
    if p.treatments.Some? then Get(p.treatments.value, source) else ""
  }

  function Work(p: Payload, source: string): WorkKey {
    WorkKey(source, Treatment(p, source), p.compensation, p.guidance)
  }

  /* ---------------------------------------------------------------- unresolved failures */

  predicate Succeeded(job: Job) {
    job.kind == Compile && job.done && (job.ok || Committed(job)) && job.completed.Some?
  }

  predicate Failed(job: Job) {
    job.done && !job.ok && !(job.kind == Compile && Committed(job))
  }

  predicate Does(job: Job, key: WorkKey) {
    exists i :: 0 <= i < |job.payload.sources| && Work(job.payload, Str(job.payload.sources[i])) == key
  }

  /** A later success did this work. */
  predicate DoneSince(jobs: seq<Job>, key: WorkKey, at: int) {
    exists j :: 0 <= j < |jobs| && Succeeded(jobs[j]) && jobs[j].completed.value > at && Does(jobs[j], key)
  }

  predicate Resolved(jobs: seq<Job>, job: Job) {
    && job.kind == Compile && job.payload.sources != [] && job.completed.Some?
    && (forall i :: 0 <= i < |job.payload.sources| ==>
          DoneSince(jobs, Work(job.payload, Str(job.payload.sources[i])), job.completed.value))
  }

  /** Among `some`, the failures nothing in `jobs` resolves, in order. */
  function Open(some: seq<Job>, jobs: seq<Job>): seq<Job> {
    if some == [] then []
    else Open(some[..|some| - 1], jobs)
         + if Failed(some[|some| - 1]) && !Resolved(jobs, some[|some| - 1]) then [some[|some| - 1]] else []
  }

  /** The first loop's dictionary: for each work key, when it was last done. */
  ghost predicate LastDone(successes: map<WorkKey, int>, jobs: seq<Job>) {
    forall key, at :: (key in successes && successes[key] > at) <==> DoneSince(jobs, key, at)
  }

  predicate DoesFirst(job: Job, i: nat, key: WorkKey)
    requires i <= |job.payload.sources|
  {
    exists k :: 0 <= k < i && Work(job.payload, Str(job.payload.sources[k])) == key
  }

  /** The dictionary while the sources of one success are counted. */
  ghost predicate Counting(successes: map<WorkKey, int>, jobs: seq<Job>, job: Job, i: nat)
    requires i <= |job.payload.sources| && job.completed.Some?
  {
    forall key, at ::
      (key in successes && successes[key] > at)
      <==> DoneSince(jobs, key, at) || (job.completed.value > at && DoesFirst(job, i, key))
  }

  lemma CountOne(successes: map<WorkKey, int>, jobs: seq<Job>, job: Job, i: nat)
    requires i < |job.payload.sources| && job.completed.Some? && Counting(successes, jobs, job, i)
    ensures var key, at := Work(job.payload, Str(job.payload.sources[i])), job.completed.value;
            Counting(successes[key := if key in successes && successes[key] > at then successes[key] else at],
                     jobs, job, i + 1)
  {
    var last, at := Work(job.payload, Str(job.payload.sources[i])), job.completed.value;
    var after := successes[last := if last in successes && successes[last] > at then successes[last] else at];
    forall key, t
      ensures (key in after && after[key] > t) <==> DoneSince(jobs, key, t) || (at > t && DoesFirst(job, i + 1, key))
    {
      assert DoesFirst(job, i + 1, key) <==> DoesFirst(job, i, key) || key == last;
      assert (key in successes && successes[key] > t)
             <==> DoneSince(jobs, key, t) || (at > t && DoesFirst(job, i, key));
    }
  }

  lemma CountNone(successes: map<WorkKey, int>, jobs: seq<Job>, job: Job)
    requires LastDone(successes, jobs)
    ensures !Succeeded(job) ==> LastDone(successes, jobs + [job])
    ensures job.completed.Some? ==> Counting(successes, jobs, job, 0)
  {
    hide DoneSince, Does, Work;
    OneMore(jobs, job);
    assert forall key :: !DoesFirst(job, 0, key);
  }

  lemma CountAll(successes: map<WorkKey, int>, jobs: seq<Job>, job: Job)
    requires Succeeded(job) && Counting(successes, jobs, job, |job.payload.sources|)
    ensures LastDone(successes, jobs + [job])
  {
    hide DoneSince, Work;
    OneMore(jobs, job);
    forall key, at
      ensures (key in successes && successes[key] > at) <==> DoneSince(jobs + [job], key, at)
    {
      assert DoesFirst(job, |job.payload.sources|, key) <==> Does(job, key);
      assert DoneSince(jobs, key, at) ==> DoneSince(jobs + [job], key, at);
    }
  }

  method Tally(job: Job, before: map<WorkKey, int>, ghost jobs: seq<Job>) returns (successes: map<WorkKey, int>)
    requires LastDone(before, jobs)
    ensures LastDone(successes, jobs + [job])
  {
    hide LastDone, Counting, Work;
    successes := before;
    CountNone(successes, jobs, job);
    if !Succeeded(job) { return; }
    var at := job.completed.value;
    var sources := job.payload.sources;
    for i := 0 to |sources|
      invariant Counting(successes, jobs, job, i)
    {
      CountOne(successes, jobs, job, i);
      var key := Work(job.payload, Str(sources[i]));
      successes := successes[key := if key in successes && successes[key] > at then successes[key] else at];
    }
    CountAll(successes, jobs, job);
  }

  lemma OneMore(jobs: seq<Job>, job: Job)
    ensures forall key, at :: DoneSince(jobs + [job], key, at)
              <==> DoneSince(jobs, key, at) || (Succeeded(job) && job.completed.value > at && Does(job, key))
  {
    var more := jobs + [job];
    assert more[|jobs|] == job;
    forall key, at
      ensures DoneSince(more, key, at)
              <==> DoneSince(jobs, key, at) || (Succeeded(job) && job.completed.value > at && Does(job, key))
    {
      if j :| 0 <= j < |jobs| && Succeeded(jobs[j]) && jobs[j].completed.value > at && Does(jobs[j], key) {
        assert more[j] == jobs[j];
      }
      if j :| 0 <= j < |more| && Succeeded(more[j]) && more[j].completed.value > at && Does(more[j], key) {
        if j < |jobs| { assert more[j] == jobs[j]; }
      }
    }
  }

  /** `_unresolved_failures` computes exactly the failures for which some source's work was not
      done again later. */
  method UnresolvedFailures(jobs: seq<Job>) returns (unresolved: seq<Job>)
    ensures unresolved == Open(jobs, jobs)
  {
    var successes: map<WorkKey, int> := map[];
    for i := 0 to |jobs|
      invariant LastDone(successes, jobs[..i])
    {
      successes := Tally(jobs[i], successes, jobs[..i]);
      assert jobs[..i] + [jobs[i]] == jobs[..i + 1];
    }
    assert jobs[..|jobs|] == jobs;
    unresolved := [];
    for i := 0 to |jobs|
      invariant unresolved == Open(jobs[..i], jobs)
    {
      var job := jobs[i];
      assert jobs[..i + 1][..i] == jobs[..i];
      if !job.done || job.ok { continue; }
      if job.kind == Compile && Committed(job) { continue; }
      if job.kind == Compile && job.payload.sources != [] && job.completed.Some? {
        var covered := Covered(job, successes, jobs);
        if covered { continue; }
      }
      unresolved := unresolved + [job];
    }
  }

  method Covered(job: Job, successes: map<WorkKey, int>, ghost jobs: seq<Job>) returns (covered: bool)
    requires LastDone(successes, jobs) && job.kind == Compile && job.payload.sources != [] && job.completed.Some?
    ensures covered <==> Resolved(jobs, job)
  {
    var sources, at := job.payload.sources, job.completed.value;
    for i := 0 to |sources|
      invariant forall k :: 0 <= k < i ==> DoneSince(jobs, Work(job.payload, Str(sources[k])), at)
    {
      var key := Work(job.payload, Str(sources[i]));
      if key !in successes || successes[key] <= at { return false; }
    }
    covered := true;
  }

  lemma {:induction false} OpenCount(some: seq<Job>, jobs: seq<Job>, job: Job)
    ensures multiset(Open(some, jobs))[job] == if Failed(job) && !Resolved(jobs, job) then multiset(some)[job] else 0
  {
    if some != [] {
      hide Resolved, Failed;
      var front, last := some[..|some| - 1], some[|some| - 1];
      OpenCount(front, jobs, job);
      assert some == front + [last];
      assert multiset(some)[job] == multiset(front)[job] + if last == job then 1 else 0;
    }
  }

  lemma SameJobs(jobs: seq<Job>, again: seq<Job>, job: Job)
    requires forall j :: j in jobs ==> j in again
    ensures Resolved(jobs, job) ==> Resolved(again, job)
  {
    if Resolved(jobs, job) {
      forall i | 0 <= i < |job.payload.sources|
        ensures DoneSince(again, Work(job.payload, Str(job.payload.sources[i])), job.completed.value)
      {
        var key := Work(job.payload, Str(job.payload.sources[i]));
        var j :| 0 <= j < |jobs| && Succeeded(jobs[j]) && jobs[j].completed.value > job.completed.value
                 && Does(jobs[j], key);
        assert jobs[j] in jobs;
        var k :| 0 <= k < |again| && again[k] == jobs[j];
      }
    }
  }

  /** ORDER INDEPENDENT: the same jobs in another order leave the same failures open. */
  lemma OpenIsOrderFree(jobs: seq<Job>, again: seq<Job>)
    requires multiset(jobs) == multiset(again)
    ensures multiset(Open(jobs, jobs)) == multiset(Open(again, again))
  {
    hide Open, Resolved;
    assert forall j :: j in jobs <==> j in again by {
      forall j ensures j in jobs <==> j in again { assert j in multiset(jobs) <==> j in multiset(again); }
    }
    forall job ensures multiset(Open(jobs, jobs))[job] == multiset(Open(again, again))[job] {
      OpenCount(jobs, jobs, job);
      OpenCount(again, again, job);
      SameJobs(jobs, again, job);
      SameJobs(again, jobs, job);
    }
  }

  /* ---------------------------------------------------------------- retries */

  /** The sources of a payload whose work was not seen yet, and all the work seen then. */
  function Unseen(p: Payload, sources: seq<Id>, seen: set<WorkKey>): (r: (seq<string>, set<WorkKey>)) {
    if sources == [] then ([], seen)
    else
      var (front, known) := Unseen(p, sources[..|sources| - 1], seen);
      var sid := Str(sources[|sources| - 1]);
      if Work(p, sid) in known then (front, known) else (front + [sid], known + {Work(p, sid)})
  }

  function AsIds(sources: seq<string>): (ids: seq<Id>)
    ensures |ids| == |sources| && forall i :: 0 <= i < |ids| ==> ids[i] == Text(sources[i])
  {
    seq(|sources|, i requires 0 <= i < |sources| => Text(sources[i]))
  }

  /** The treatments of the retried sources, under string keys. */
  function Restated(items: seq<(Id, string)>, sources: seq<string>): seq<(Id, string)> {
    if items == [] then []
    else
      var (key, treatment) := items[|items| - 1];
      Restated(items[..|items| - 1], sources) + if Str(key) in sources then [(Text(Str(key)), treatment)] else []
  }

  function Retry(p: Payload, sources: seq<string>): Payload {
    p.(sources := AsIds(sources),
       treatments := if p.treatments.Some? then Some(Restated(p.treatments.value, sources)) else None)
  }

  function Retries(jobs: seq<Job>): (r: (seq<Payload>, set<WorkKey>)) {
    if jobs == [] then ([], {})
    else
      var (front, known) := Retries(jobs[..|jobs| - 1]);
      var p := jobs[|jobs| - 1].payload;
      var (sources, seen) := Unseen(p, p.sources, known);
      (if sources == [] then front else front + [Retry(p, sources)], seen)
  }

  method CompileRetryPayloads(jobs: seq<Job>) returns (retries: seq<Payload>)
    ensures retries == Retries(jobs).0
  {
    var seen: set<WorkKey> := {};
    retries := [];
    for i := 0 to |jobs|
      invariant (retries, seen) == Retries(jobs[..i])
    {
      var p := jobs[i].payload;
      assert jobs[..i + 1][..i] == jobs[..i];
      ghost var known := seen;
      var sources: seq<string> := [];
      for k := 0 to |p.sources|
        invariant (sources, seen) == Unseen(p, p.sources[..k], known)
      {
        assert p.sources[..k + 1][..k] == p.sources[..k];
        var sid := Str(p.sources[k]);
        var key := Work(p, sid);
        if key !in seen {
          seen := seen + {key};
          sources := sources + [sid];
        }
      }
      assert p.sources[..|p.sources|] == p.sources;
      if sources == [] { continue; }
      retries := retries + [Retry(p, sources)];
    }
    assert jobs[..|jobs|] == jobs;
  }

  /** The treatment under the last key spelled like `source`, string or not. */
  function Spelled(items: seq<(Id, string)>, source: string): string {
    if items == [] then ""
    else if Str(items[|items| - 1].0) == source then items[|items| - 1].1
    else Spelled(items[..|items| - 1], source)
  }

  lemma {:induction false} RestatedGet(items: seq<(Id, string)>, sources: seq<string>, source: string)
    requires source in sources
    ensures Get(Restated(items, sources), source) == Spelled(items, source)
  {
    if items != [] {
      RestatedGet(items[..|items| - 1], sources, source);
      var front, key := Restated(items[..|items| - 1], sources), items[|items| - 1].0;
      if Str(key) in sources {
        var all := Restated(items, sources);
        assert all[..|all| - 1] == front;
      } else {
        assert front + [] == front;
      }
    }
  }

  /** No key that is not a string overrides what the source's work was. */
  predicate Plain(p: Payload, source: string) {
    p.treatments.Some? ==> Spelled(p.treatments.value, source) == Get(p.treatments.value, source)
  }

  /** WHEN A RETRY IS THE SAME WORK: exactly when the last treatment spelled like the source is
      the one found under its string key. */
  lemma SameWorkIff(p: Payload, sources: seq<string>, source: string)
    requires source in sources
    ensures Work(Retry(p, sources), source) == Work(p, source) <==> Plain(p, source)
  {
    if p.treatments.Some? { RestatedGet(p.treatments.value, sources, source); }
  }

  /** String keys are always plain. */
  lemma {:induction false} StringKeysArePlain(items: seq<(Id, string)>, source: string)
    requires forall i :: 0 <= i < |items| ==> items[i].0.Text?
    ensures Spelled(items, source) == Get(items, source)
  {
    if items != [] { StringKeysArePlain(items[..|items| - 1], source); }
  }

  /** What string keys protect from. With a number as a key the failed work has no treatment, its
      retry has one, and the retry's success leaves the failure open. No job that came out of the
      store has such a key, because its payload was stored as JSON; only a caller that hands these
      functions dictionaries of its own can make one. */
  lemma NumberKeyNeverResolves()
    ensures var p := Payload([Text("7")], Some([(Number(7), "fast")]), false, "", 0);
            var failed := Job(Compile, true, false, "", "gate", Some(1), p);
            var retry := Retries([failed]).0;
            && |retry| == 1 && Work(retry[0], "7") != Work(p, "7")
            && (var success := Job(Compile, true, true, "c0ffee", "", Some(2), retry[0]);
                Open([failed, success], [failed, success]) == [failed])
  {
    var p := Payload([Text("7")], Some([(Number(7), "fast")]), false, "", 0);
    var failed := Job(Compile, true, false, "", "gate", Some(1), p);
    SevenFails(p, failed);
    var success := Job(Compile, true, true, "c0ffee", "", Some(2), Retry(p, ["7"]));
    SevenStaysOpen(p, failed, success);
  }

  lemma Seven()
    ensures Str(Number(7)) == Str(Text("7")) == "7"
  {
    assert DIGITS[7] == '7' && "" + ['7'] == "7";
  }

  lemma SevenFails(p: Payload, failed: Job)
    requires p == Payload([Text("7")], Some([(Number(7), "fast")]), false, "", 0) && failed.payload == p
    ensures Retries([failed]).0 == [Retry(p, ["7"])]
    ensures Work(p, "7").treatment == "" && Work(Retry(p, ["7"]), "7").treatment == "fast"
  {
    Seven();
    hide Str;
    var items := p.treatments.value;
    assert items[..0] == [] && Get([], "7") == "" && Spelled(items, "7") == "fast" && Get(items, "7") == "";
    RestatedGet(items, ["7"], "7");
    assert [failed][..0] == [] && p.sources[..0] == [];
    assert Unseen(p, [], {}) == ([], {}) && [] + ["7"] == ["7"];
    assert {} + {Work(p, "7")} == {Work(p, "7")};
    assert Unseen(p, p.sources, {}) == ([] + ["7"], {} + {Work(p, "7")});
    assert Retries([]) == ([], {});
  }

  lemma SevenStaysOpen(p: Payload, failed: Job, success: Job)
    requires p == Payload([Text("7")], Some([(Number(7), "fast")]), false, "", 0)
    requires failed == Job(Compile, true, false, "", "gate", Some(1), p)
    requires success == Job(Compile, true, true, "c0ffee", "", Some(2), Retry(p, ["7"]))
    requires Work(p, "7").treatment == "" && Work(Retry(p, ["7"]), "7").treatment == "fast"
    ensures Open([failed, success], [failed, success]) == [failed]
  {
    hide Work, Str, Retry;
    var jobs := [failed, success];
    assert !Committed(failed) by { assert failed.detail[0] != PROJECTION[0]; }
    SevenUnresolved(p, failed, success);
    assert jobs[..1] == [failed] && [failed][..0] == [];
    assert Open([], jobs) == [] && Open([failed], jobs) == [] + [failed] && Open(jobs, jobs) == [failed] + [];
  }

  lemma SevenUnresolved(p: Payload, failed: Job, success: Job)
    requires p.sources == [Text("7")]
    requires failed == Job(Compile, true, false, "", "gate", Some(1), p)
    requires success == Job(Compile, true, true, "c0ffee", "", Some(2), Retry(p, ["7"]))
    requires Work(p, "7").treatment == "" && Work(Retry(p, ["7"]), "7").treatment == "fast"
    ensures !Resolved([failed, success], failed)
  {
    var key, jobs := Work(p, "7"), [failed, success];
    assert Str(p.sources[0]) == "7";
    assert !Does(success, key) by {
      assert success.payload.sources == [Text("7")];
    }
    assert !DoneSince(jobs, key, 1);
  }

  /* ---------------------------------------------------------------- each work once */

  function WorkOf(p: Payload, sources: seq<string>): seq<WorkKey> {
    seq(|sources|, i requires 0 <= i < |sources| => Work(p, sources[i]))
  }

  predicate Once<T(==)>(keys: seq<T>) {
    forall i, j :: 0 <= i < j < |keys| ==> keys[i] != keys[j]
  }

  function Elements<T>(keys: seq<T>): set<T> { set k | k in keys }

  lemma OnceMore(keys: seq<WorkKey>, key: WorkKey)
    requires Once(keys) && key !in Elements(keys)
    ensures Once(keys + [key]) && Elements(keys + [key]) == Elements(keys) + {key}
  {
    assert forall i :: 0 <= i < |keys| ==> keys[i] in Elements(keys);
  }

  lemma WorkMore(p: Payload, sources: seq<string>, sid: string)
    ensures WorkOf(p, sources + [sid]) == WorkOf(p, sources) + [Work(p, sid)]
  {
  }

  function SourcesWork(p: Payload, sources: seq<Id>): set<WorkKey> {
    set i | 0 <= i < |sources| :: Work(p, Str(sources[i]))
  }

  lemma {:induction false} UnseenWork(p: Payload, sources: seq<Id>, seen: set<WorkKey>)
    ensures var (left, known) := Unseen(p, sources, seen);
            && Once(WorkOf(p, left)) && Elements(WorkOf(p, left)) !! seen
            && known == seen + Elements(WorkOf(p, left)) == seen + SourcesWork(p, sources)
  {
    hide Once, Elements, WorkOf, Work, Str, SourcesWork;
    if sources == [] {
      NoKeys();
      NoWork(p);
      NoSources(p);
    } else {
      var front, last := sources[..|sources| - 1], sources[|sources| - 1];
      UnseenWork(p, front, seen);
      var (left, known) := Unseen(p, front, seen);
      WorkGrows(p, front, sources);
      if Work(p, Str(last)) !in known {
        WorkMore(p, left, Str(last));
        OnceMore(WorkOf(p, left), Work(p, Str(last)));
      }
    }
  }

  lemma NoSources(p: Payload)
    ensures SourcesWork(p, []) == {} && WorkOf(p, []) == []
  {
  }

  lemma WorkGrows(p: Payload, front: seq<Id>, sources: seq<Id>)
    requires sources != [] && front == sources[..|sources| - 1]
    ensures SourcesWork(p, sources) == SourcesWork(p, front) + {Work(p, Str(sources[|sources| - 1]))}
  {
    var all, some := SourcesWork(p, sources), SourcesWork(p, front);
    forall k | k in all ensures k in some + {Work(p, Str(sources[|sources| - 1]))} {
      var i :| 0 <= i < |sources| && Work(p, Str(sources[i])) == k;
      if i < |front| { assert front[i] == sources[i]; }
    }
    forall k | k in some ensures k in all {
      var i :| 0 <= i < |front| && Work(p, Str(front[i])) == k;
      assert sources[i] == front[i];
    }
  }

  /** The work a list of payloads asks for, in order. */
  function Asked(payloads: seq<Payload>): seq<WorkKey> {
    if payloads == [] then []
    else Asked(payloads[..|payloads| - 1]) + Listed(payloads[|payloads| - 1])
  }

  function Listed(p: Payload): (keys: seq<WorkKey>)
    ensures |keys| == |p.sources| && forall i :: 0 <= i < |keys| ==> keys[i] == Work(p, Str(p.sources[i]))
  {
    seq(|p.sources|, i requires 0 <= i < |p.sources| => Work(p, Str(p.sources[i])))
  }

  function JobsWork(jobs: seq<Job>): set<WorkKey> {
    if jobs == [] then {}
    else JobsWork(jobs[..|jobs| - 1]) + SourcesWork(jobs[|jobs| - 1].payload, jobs[|jobs| - 1].payload.sources)
  }

  predicate AllPlain(jobs: seq<Job>) {
    forall j, i :: 0 <= j < |jobs| && 0 <= i < |jobs[j].payload.sources| ==>
      Plain(jobs[j].payload, Str(jobs[j].payload.sources[i]))
  }

  lemma {:induction false} UnseenAreSources(p: Payload, sources: seq<Id>, seen: set<WorkKey>)
    ensures forall sid :: sid in Unseen(p, sources, seen).0 ==> exists i :: 0 <= i < |sources| && Str(sources[i]) == sid
  {
    if sources != [] {
      var front := sources[..|sources| - 1];
      UnseenAreSources(p, front, seen);
      forall sid | sid in Unseen(p, sources, seen).0 ensures exists i :: 0 <= i < |sources| && Str(sources[i]) == sid {
        if sid in Unseen(p, front, seen).0 {
          var i :| 0 <= i < |front| && Str(front[i]) == sid;
          assert Str(sources[i]) == sid;
        } else {
          assert Str(sources[|sources| - 1]) == sid;
        }
      }
    }
  }

  /** A retry of plain sources lists exactly their work. */
  lemma RetryLists(p: Payload, sources: seq<string>)
    requires forall sid :: sid in sources ==> Plain(p, sid)
    ensures Listed(Retry(p, sources)) == WorkOf(p, sources)
  {
    forall i | 0 <= i < |sources| ensures Work(Retry(p, sources), sources[i]) == Work(p, sources[i]) {
      SameWorkIff(p, sources, sources[i]);
    }
  }

  lemma OnceJoined(a: seq<WorkKey>, b: seq<WorkKey>)
    requires Once(a) && Once(b) && Elements(a) !! Elements(b)
    ensures Once(a + b) && Elements(a + b) == Elements(a) + Elements(b)
  {
    forall i, j | 0 <= i < j < |a + b| ensures (a + b)[i] != (a + b)[j] {
      if i < |a| <= j { assert a[i] in Elements(a) && b[j - |a|] in Elements(b); }
    }
  }

  lemma AskedMore(payloads: seq<Payload>, last: Payload)
    ensures Asked(payloads + [last]) == Asked(payloads) + Listed(last)
  {
    assert (payloads + [last])[..|payloads|] == payloads;
  }

  /** EACH FAILED WORK ONCE: with plain treatments the retries ask for every work key of the
      failed jobs, and for none of them twice. */
  lemma {:induction false} RetriesAskOnce(jobs: seq<Job>)
    requires AllPlain(jobs)
    ensures Once(Asked(Retries(jobs).0))
    ensures Elements(Asked(Retries(jobs).0)) == JobsWork(jobs) == Retries(jobs).1
  {
    if jobs != [] {
      hide Unseen, Once, WorkOf, Listed, Retry, Elements, Plain;
      var front, p := jobs[..|jobs| - 1], jobs[|jobs| - 1].payload;
      assert AllPlain(front) by { PlainFront(jobs); }
      RetriesAskOnce(front);
      var (retries, known) := Retries(front);
      var (sources, seen) := Unseen(p, p.sources, known);
      UnseenWork(p, p.sources, known);
      UnseenAreSources(p, p.sources, known);
      forall sid | sid in sources ensures Plain(p, sid) {
        var i :| 0 <= i < |p.sources| && Str(p.sources[i]) == sid;
        assert Plain(jobs[|jobs| - 1].payload, Str(jobs[|jobs| - 1].payload.sources[i]));
      }
      RetryLists(p, sources);
      AskedMore(retries, Retry(p, sources));
      OnceJoined(Asked(retries), WorkOf(p, sources));
      if sources == [] { NoWork(p); }
    } else {
      NoKeys();
    }
  }

  lemma NoKeys()
    ensures Once<WorkKey>([]) && Elements<WorkKey>([]) == {}
  {
  }

  lemma NoWork(p: Payload)
    ensures Elements(WorkOf(p, [])) == {}
  {
  }

  lemma PlainFront(jobs: seq<Job>)
    requires jobs != [] && AllPlain(jobs)
    ensures AllPlain(jobs[..|jobs| - 1])
  {
    var front := jobs[..|jobs| - 1];
    forall j, i | 0 <= j < |front| && 0 <= i < |front[j].payload.sources|
      ensures Plain(front[j].payload, Str(front[j].payload.sources[i]))
    {
      assert Plain(jobs[j].payload, Str(jobs[j].payload.sources[i]));
    }
  }

  /* ---------------------------------------------------------------- the round trip */

  /** Later successes of every retry. */
  predicate AllRetried(jobs: seq<Job>, retries: seq<Payload>, more: seq<Job>) {
    |more| == |retries| && forall i :: 0 <= i < |more| ==>
      && Succeeded(more[i]) && more[i].payload == retries[i]
      && (forall j :: 0 <= j < |jobs| && jobs[j].completed.Some? ==> jobs[j].completed.value < more[i].completed.value)
  }

  /** The failures the drain retries. */
  function Retriable(open: seq<Job>): (compiles: seq<Job>) {
    if open == [] then []
    else Retriable(open[..|open| - 1]) + if open[|open| - 1].kind == Compile then [open[|open| - 1]] else []
  }

  lemma {:induction false} RetriableMember(open: seq<Job>, job: Job)
    ensures job in Retriable(open) <==> job in open && job.kind == Compile
  {
    if open != [] {
      RetriableMember(open[..|open| - 1], job);
      assert open == open[..|open| - 1] + [open[|open| - 1]];
    }
  }

  lemma OpenMember(some: seq<Job>, jobs: seq<Job>, job: Job)
    ensures job in Open(some, jobs) <==> job in some && Failed(job) && !Resolved(jobs, job)
  {
    OpenCount(some, jobs, job);
    assert job in Open(some, jobs) <==> job in multiset(Open(some, jobs));
    assert job in some <==> job in multiset(some);
  }

  lemma {:induction false} AskedBy(payloads: seq<Payload>, key: WorkKey)
    requires key in Asked(payloads)
    ensures exists i, k :: 0 <= i < |payloads| && 0 <= k < |payloads[i].sources|
                           && Work(payloads[i], Str(payloads[i].sources[k])) == key
  {
    var front, last := payloads[..|payloads| - 1], |payloads| - 1;
    if key in Asked(front) {
      AskedBy(front, key);
      var i, k :| 0 <= i < |front| && 0 <= k < |front[i].sources| && Work(front[i], Str(front[i].sources[k])) == key;
      assert payloads[i] == front[i];
    } else {
      assert key in Listed(payloads[last]);
      var k :| 0 <= k < |Listed(payloads[last])| && Listed(payloads[last])[k] == key;
    }
  }

  lemma {:induction false} WorkInJobs(jobs: seq<Job>, j: nat, i: nat)
    requires j < |jobs| && i < |jobs[j].payload.sources|
    ensures Work(jobs[j].payload, Str(jobs[j].payload.sources[i])) in JobsWork(jobs)
  {
    var front := jobs[..|jobs| - 1];
    if j < |front| { WorkInJobs(front, j, i); }
  }

  /** What a retried payload asked for was done by the retry's success. */
  lemma RetriedIsDone(jobs: seq<Job>, retries: seq<Payload>, more: seq<Job>, all: seq<Job>, job: Job, key: WorkKey)
    requires AllRetried(jobs, retries, more) && all == jobs + more && key in Asked(retries)
    requires job in jobs && job.completed.Some?
    ensures DoneSince(all, key, job.completed.value)
  {
    hide Work;
    AskedBy(retries, key);
    var i, k :| 0 <= i < |retries| && 0 <= k < |retries[i].sources|
                && Work(retries[i], Str(retries[i].sources[k])) == key;
    var j :| 0 <= j < |jobs| && jobs[j] == job;
    assert all[|jobs| + i] == more[i];
    assert Does(more[i], key);
  }

  /** THE ROUND TRIP. When every retry of the open compile failures succeeds later, no compile
      failure with sources and a known completion time is open any more. */
  lemma RetriesClear(jobs: seq<Job>, more: seq<Job>)
    requires var failed := Retriable(Open(jobs, jobs));
             AllPlain(failed) && AllRetried(jobs, Retries(failed).0, more)
    ensures var all := jobs + more;
            forall job :: job in Open(all, all) && job.kind == Compile ==>
                  job.payload.sources == [] || job.completed.None?
  {
    hide Open, Resolved, Retries, AllRetried, AllPlain, Failed, Retriable;
    var failed, all := Retriable(Open(jobs, jobs)), jobs + more;
    RetriesAskOnce(failed);
    forall job | job in Open(all, all) && job.kind == Compile ensures job.payload.sources == [] || job.completed.None? {
      OpenMember(all, all, job);
      if job.payload.sources != [] && job.completed.Some? {
        StillOpen(jobs, more, Retries(failed).0, job);
        OpenMember(jobs, jobs, job);
        RetriableMember(Open(jobs, jobs), job);
        NowResolved(jobs, failed, Retries(failed).0, more, job);
      }
    }
  }

  /** Whatever is open among all the jobs is an old job, and was open before. */
  lemma StillOpen(jobs: seq<Job>, more: seq<Job>, retries: seq<Payload>, job: Job)
    requires AllRetried(jobs, retries, more) && job in jobs + more && Failed(job) && !Resolved(jobs + more, job)
    ensures job in jobs && !Resolved(jobs, job)
  {
    hide Resolved;
    forall i | 0 <= i < |more| ensures more[i] != job { assert Succeeded(more[i]); }
    SameJobs(jobs, jobs + more, job);
  }

  lemma NowResolved(jobs: seq<Job>, failed: seq<Job>, retries: seq<Payload>, more: seq<Job>, job: Job)
    requires AllRetried(jobs, retries, more) && Elements(Asked(retries)) == JobsWork(failed)
    requires job in failed && job in jobs && job.kind == Compile && job.payload.sources != [] && job.completed.Some?
    ensures Resolved(jobs + more, job)
  {
    hide DoneSince, Work, AllRetried;
    var j :| 0 <= j < |failed| && failed[j] == job;
    forall i | 0 <= i < |job.payload.sources|
      ensures DoneSince(jobs + more, Work(job.payload, Str(job.payload.sources[i])), job.completed.value)
    {
      WorkInJobs(failed, j, i);
      RetriedIsDone(jobs, retries, more, jobs + more, job, Work(job.payload, Str(job.payload.sources[i])));
    }
  }
}
