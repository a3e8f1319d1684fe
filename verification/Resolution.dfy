/** What "the same work" is, instruction by instruction: which failures the later successes
    resolve and which retries they ask for, without a work key. */
module Resolution {
  import opened Readers
  import opened Failures

  /* ---------------------------------------------------------------- instructions */

  /** The treatment found under a source: the last item under its text, or nothing. */
  ghost predicate TreatedAs(p: Payload, source: string, treatment: string) {
    if p.treatments.Some? && exists i :: 0 <= i < |p.treatments.value| && p.treatments.value[i].0 == Text(source)
    then exists i :: 0 <= i < |p.treatments.value| && p.treatments.value[i] == (Text(source), treatment)
                     && forall j :: i < j < |p.treatments.value| ==> p.treatments.value[j].0 != Text(source)
    else treatment == ""
  }

  /** Both payloads give the source the same instructions. */
  ghost predicate Alike(p: Payload, q: Payload, source: string) {
    && p.compensation == q.compensation && p.guidance == q.guidance
    && exists treatment :: TreatedAs(p, source, treatment) && TreatedAs(q, source, treatment)
  }

  lemma {:induction false} GetIs(items: seq<(Id, string)>, source: string)
    ensures if exists i :: 0 <= i < |items| && items[i].0 == Text(source)
            then exists i :: 0 <= i < |items| && items[i] == (Text(source), Get(items, source))
                             && forall j :: i < j < |items| ==> items[j].0 != Text(source)
            else Get(items, source) == ""
  {
    if items != [] {
      var front, last := items[..|items| - 1], |items| - 1;
      GetIs(front, source);
      assert forall i :: 0 <= i < |front| ==> items[i] == front[i];
      if items[last].0 == Text(source) {
        assert items[last] == (Text(source), Get(items, source));
      } else if exists i :: 0 <= i < |front| && front[i].0 == Text(source) {
        var i :| 0 <= i < |front| && front[i] == (Text(source), Get(front, source))
                 && forall j :: i < j < |front| ==> front[j].0 != Text(source);
        assert items[i] == front[i];
      }
    }
  }

  lemma TreatedIs(p: Payload, source: string, treatment: string)
    ensures TreatedAs(p, source, treatment) <==> Treatment(p, source) == treatment
  {
    hide Get;
    if p.treatments.Some? { GetIs(p.treatments.value, source); }
  }

  /** Two places ask for the same work exactly when they name one source and instruct alike. */
  lemma SameKeyIff(p: Payload, source: string, q: Payload, other: string)
    ensures Work(p, source) == Work(q, other) <==> source == other && Alike(p, q, source)
  {
    hide TreatedAs, Treatment;
    if Alike(p, q, source) {
      var treatment :| TreatedAs(p, source, treatment) && TreatedAs(q, source, treatment);
      TreatedIs(p, source, treatment);
      TreatedIs(q, source, treatment);
    }
    TreatedIs(p, source, Treatment(p, source));
    TreatedIs(q, source, Treatment(p, source));
  }

  /* ---------------------------------------------------------------- resolved failures */

  /** It named a commit or a projection. */
  ghost predicate Reached(job: Job) {
    || (exists i :: 0 <= i < |job.snapshot| && !Space(job.snapshot[i]))
    || (|job.detail| >= 11 && job.detail[..11] == "projection:")
  }

  /** A later success compiled the source under the same instructions. */
  ghost predicate Redone(jobs: seq<Job>, p: Payload, source: string, at: int) {
    exists j, k :: 0 <= j < |jobs| && 0 <= k < |jobs[j].payload.sources| && RedoneBy(jobs[j], k, p, source, at)
  }

  ghost predicate RedoneBy(job: Job, k: nat, p: Payload, source: string, at: int)
    requires k < |job.payload.sources|
  {
    && job.kind == Compile && job.done && (job.ok || Reached(job)) && job.completed.Some? && job.completed.value > at
    && Str(job.payload.sources[k]) == source && Alike(job.payload, p, source)
  }

  lemma ReachedIs(job: Job)
    ensures Committed(job) <==> Reached(job)
  {
    assert |PROJECTION| == 11;
    assert PROJECTION <= job.detail <==> |job.detail| >= 11 && job.detail[..11] == PROJECTION;
  }

  lemma RedoneIs(jobs: seq<Job>, p: Payload, source: string, at: int)
    ensures DoneSince(jobs, Work(p, source), at) <==> Redone(jobs, p, source, at)
  {
    hide Work, Alike, Committed, Reached, Str;
    forall j, k | 0 <= j < |jobs| && 0 <= k < |jobs[j].payload.sources|
      ensures RedoneBy(jobs[j], k, p, source, at)
              <==> Succeeded(jobs[j]) && jobs[j].completed.value > at
                   && Work(jobs[j].payload, Str(jobs[j].payload.sources[k])) == Work(p, source)
    {
      ReachedIs(jobs[j]);
      SameKeyIff(jobs[j].payload, Str(jobs[j].payload.sources[k]), p, source);
    }
  }

  /** A failure that nothing resolves: it did not finish well nor reach the canonical layer, and it
      is no compile of known completion each of whose sources was compiled again later under the
      same treatment, compensation and guidance. */
  ghost predicate Unresolved(jobs: seq<Job>, job: Job) {
    && job.done && !job.ok && !(job.kind == Compile && Reached(job))
    && !(job.kind == Compile && job.payload.sources != [] && job.completed.Some?
         && forall i :: 0 <= i < |job.payload.sources| ==>
              Redone(jobs, job.payload, Str(job.payload.sources[i]), job.completed.value))
  }

  lemma UnresolvedIs(jobs: seq<Job>, job: Job)
    ensures Unresolved(jobs, job) <==> Failed(job) && !Resolved(jobs, job)
  {
    hide DoneSince, Redone, Work, Committed, Reached, Str;
    ReachedIs(job);
    if job.completed.Some? {
      forall i | 0 <= i < |job.payload.sources|
        ensures DoneSince(jobs, Work(job.payload, Str(job.payload.sources[i])), job.completed.value)
                <==> Redone(jobs, job.payload, Str(job.payload.sources[i]), job.completed.value)
      {
        RedoneIs(jobs, job.payload, Str(job.payload.sources[i]), job.completed.value);
      }
    }
  }

  /** The unresolved failures, each as often as it was recorded, and nothing else. */
  lemma StaysOpenIff(jobs: seq<Job>, job: Job)
    ensures multiset(Open(jobs, jobs))[job] == if Unresolved(jobs, job) then multiset(jobs)[job] else 0
  {
    UnresolvedIs(jobs, job);
    OpenCount(jobs, jobs, job);
  }

  /** THE SAME WORK. A failed compile leaves the list only when a later success of every one of
      its sources was told the same; one success under another guidance, treatment or
      compensation flag does not count. */
  lemma OtherInstructions(failed: Job, success: Job)
    requires Unresolved([failed], failed) && failed.payload.sources != [] && failed.completed.Some?
    requires forall i :: 0 <= i < |failed.payload.sources| ==>
               !Alike(success.payload, failed.payload, Str(failed.payload.sources[i]))
    ensures failed in Open([failed, success], [failed, success])
  {
    hide Alike, Reached, Open, Str;
    var jobs := [failed, success];
    var source := Str(failed.payload.sources[0]);
    assert !Redone(jobs, failed.payload, source, failed.completed.value);
    StaysOpenIff(jobs, failed);
    assert failed in multiset(jobs);
    assert failed in multiset(Open(jobs, jobs));
  }

  /* ---------------------------------------------------------------- retries */

  ghost predicate SameWork(p: Payload, k: nat, q: Payload, l: nat)
    requires k < |p.sources| && l < |q.sources|
  {
    Str(p.sources[k]) == Str(q.sources[l]) && Alike(p, q, Str(p.sources[k]))
  }

  lemma SameWorkIs(p: Payload, k: nat, q: Payload, l: nat)
    requires k < |p.sources| && l < |q.sources|
    ensures SameWork(p, k, q, l) <==> Work(p, Str(p.sources[k])) == Work(q, Str(q.sources[l]))
  {
    hide Work, Alike;
    SameKeyIff(p, Str(p.sources[k]), q, Str(q.sources[l]));
  }

  lemma {:induction false} AllWorkSeen(jobs: seq<Job>)
    ensures Retries(jobs).1 == JobsWork(jobs)
  {
    hide Unseen, Retry, SourcesWork;
    if jobs != [] {
      var front, p := jobs[..|jobs| - 1], jobs[|jobs| - 1].payload;
      AllWorkSeen(front);
      UnseenWork(p, p.sources, Retries(front).1);
    }
  }

  /** The retry a job gets, if it gets one. */
  ghost function RetryPlace(jobs: seq<Job>, j: nat): nat
    requires j <= |jobs|
  {
    |Retries(jobs[..j]).0|
  }

  lemma {:induction false} RestatedMember(items: seq<(Id, string)>, sources: seq<string>, id: Id, treatment: string)
    ensures (id, treatment) in Restated(items, sources)
            <==> id.Text? && id.text in sources
                 && exists i :: 0 <= i < |items| && Str(items[i].0) == id.text && items[i].1 == treatment
  {
    if items != [] {
      hide Str;
      var front, last := items[..|items| - 1], |items| - 1;
      RestatedMember(front, sources, id, treatment);
      assert (id, treatment) in Restated(items, sources)
             <==> || (id, treatment) in Restated(front, sources)
                  || (Str(items[last].0) in sources && (id, treatment) == (Text(Str(items[last].0)), items[last].1));
      hide Restated;
      assert forall i :: 0 <= i < |front| ==> items[i] == front[i];
      if id.Text? && Str(items[last].0) == id.text && items[last].1 == treatment {
        assert exists i :: 0 <= i < |items| && Str(items[i].0) == id.text && items[i].1 == treatment;
      }
    }
  }

  /** A retry lists its sources, keeps exactly the treatments spelled like one of them, under the
      source's text, and changes nothing else of the payload. */
  lemma RetryKeeps(p: Payload, sources: seq<string>, id: Id, treatment: string)
    ensures var r := Retry(p, sources);
            && r.(sources := p.sources, treatments := p.treatments) == p
            && |r.sources| == |sources| && (forall i :: 0 <= i < |sources| ==> r.sources[i] == Text(sources[i]))
            && (r.treatments.Some? <==> p.treatments.Some?)
            && (p.treatments.Some? ==>
                  ((id, treatment) in r.treatments.value
                   <==> id.Text? && id.text in sources
                        && exists i :: 0 <= i < |p.treatments.value| && Str(p.treatments.value[i].0) == id.text
                                       && p.treatments.value[i].1 == treatment))
  {
    hide Str;
    if p.treatments.Some? { RestatedMember(p.treatments.value, sources, id, treatment); }
  }

  /** Retry `x` is job `j`'s: its own sources and treatments of it, everything else the same. */
  ghost predicate RetryOf(jobs: seq<Job>, x: nat, j: nat) {
    && x < |Retries(jobs).0| && j < |jobs|
    && Retries(jobs).0[x].(sources := jobs[j].payload.sources, treatments := jobs[j].payload.treatments)
       == jobs[j].payload
  }

  lemma WorkFound(jobs: seq<Job>, key: WorkKey)
    requires key in JobsWork(jobs)
    ensures exists j, i :: 0 <= j < |jobs| && 0 <= i < |jobs[j].payload.sources|
                           && Work(jobs[j].payload, Str(jobs[j].payload.sources[i])) == key
  {
    hide Work, Str;
    var front, last := jobs[..|jobs| - 1], |jobs| - 1;
    if key in JobsWork(front) {
      WorkFound(front, key);
      var j, i :| 0 <= j < |front| && 0 <= i < |front[j].payload.sources|
                  && Work(front[j].payload, Str(front[j].payload.sources[i])) == key;
      assert jobs[j] == front[j];
    } else {
      var i :| 0 <= i < |jobs[last].payload.sources|
               && Work(jobs[last].payload, Str(jobs[last].payload.sources[i])) == key;
    }
  }

  /** Retry `x` asks for the source under the instructions of `p`, as far as `from`'s treatments
      survive being restated. */
  ghost predicate Asks(r: Payload, from: Payload, p: Payload, source: string) {
    && Text(source) in r.sources && Alike(from, p, source) && (Plain(from, source) ==> Alike(r, p, source))
  }

  lemma AlikeOn(a: Payload, b: Payload, c: Payload, source: string)
    ensures Alike(a, a, source)
    ensures Alike(a, b, source) && Alike(b, c, source) ==> Alike(a, c, source)
    ensures Alike(a, b, source) ==> Alike(b, a, source)
  {
    hide Work, Alike;
    SameKeyIff(a, source, a, source);
    SameKeyIff(a, source, b, source);
    SameKeyIff(b, source, c, source);
    SameKeyIff(a, source, c, source);
    SameKeyIff(b, source, a, source);
  }

  /** A job whose work nobody asked for before gets a retry of its own. */
  lemma AskedAnew(p: Payload, known: set<WorkKey>, i: nat)
    requires i < |p.sources| && Work(p, Str(p.sources[i])) !in known
    ensures var left := Unseen(p, p.sources, known).0;
            left != [] && Asks(Retry(p, left), p, p, Str(p.sources[i]))
  {
    hide Work, Alike, Unseen, Str, Plain;
    var left, source := Unseen(p, p.sources, known).0, Str(p.sources[i]);
    UnseenWork(p, p.sources, known);
    assert Work(p, source) in SourcesWork(p, p.sources);
    var k :| 0 <= k < |left| && Work(p, left[k]) == Work(p, source);
    SameKeyIff(p, left[k], p, source);
    assert Retry(p, left).sources[k] == Text(source);
    SameWorkIff(p, left, source);
    SameKeyIff(Retry(p, left), source, p, source);
  }

  lemma RetriesFront(jobs: seq<Job>)
    requires jobs != []
    ensures var front, last := jobs[..|jobs| - 1], |jobs| - 1;
            var left := Unseen(jobs[last].payload, jobs[last].payload.sources, Retries(front).1).0;
            && Retries(jobs).0 == Retries(front).0 + (if left == [] then [] else [Retry(jobs[last].payload, left)])
            && RetryPlace(jobs, last) == |Retries(front).0| && RetryPlace(jobs, |jobs|) == |Retries(jobs).0|
            && forall j :: 0 <= j <= last ==> RetryPlace(jobs, j) == RetryPlace(front, j)
  {
    var front, last := jobs[..|jobs| - 1], |jobs| - 1;
    assert jobs[..|jobs|] == jobs;
    forall j | 0 <= j <= last ensures RetryPlace(jobs, j) == RetryPlace(front, j) { assert jobs[..j] == front[..j]; }
  }

  /** Every source of every job is retried under its instructions, by the retry of some job that
      asked for the same work no later; each job has at most one retry, in the jobs' order. */
  lemma {:induction false} EachRetried(jobs: seq<Job>, j: nat, i: nat) returns (first: nat)
    requires j < |jobs| && i < |jobs[j].payload.sources|
    ensures first <= j && RetryOf(jobs, RetryPlace(jobs, first), first)
    ensures RetryPlace(jobs, first) < RetryPlace(jobs, first + 1)
    ensures Asks(Retries(jobs).0[RetryPlace(jobs, first)], jobs[first].payload, jobs[j].payload,
                 Str(jobs[j].payload.sources[i]))
  {
    hide Retries, RetryPlace, Asks, Work, Str, Unseen, Alike, Plain;
    var front, last := jobs[..|jobs| - 1], |jobs| - 1;
    var p := jobs[j].payload;
    RetriesFront(jobs);
    if j < last {
      first := EachRetried(front, j, i);
    } else if Work(p, Str(p.sources[i])) in Retries(front).1 {
      AllWorkSeen(front);
      WorkFound(front, Work(p, Str(p.sources[i])));
      var h, k :| 0 <= h < |front| && 0 <= k < |front[h].payload.sources|
                  && Work(front[h].payload, Str(front[h].payload.sources[k])) == Work(p, Str(p.sources[i]));
      first := EachRetried(front, h, k);
      AsksAlike(Retries(jobs).0[RetryPlace(jobs, first)], jobs[first].payload, front[h].payload, k, p, i);
    } else {
      first := last;
      AskedAnew(p, Retries(front).1, i);
    }
  }

  lemma AsksAlike(r: Payload, from: Payload, p: Payload, k: nat, q: Payload, i: nat)
    requires k < |p.sources| && i < |q.sources| && Asks(r, from, p, Str(p.sources[k]))
    requires Work(p, Str(p.sources[k])) == Work(q, Str(q.sources[i]))
    ensures Asks(r, from, q, Str(q.sources[i]))
  {
    hide Work, Str, Alike, Plain;
    SameKeyIff(p, Str(p.sources[k]), q, Str(q.sources[i]));
    AlikeOn(from, p, q, Str(p.sources[k]));
    AlikeOn(r, p, q, Str(p.sources[k]));
  }

  lemma {:induction false} PlacesRise(jobs: seq<Job>, a: nat, b: nat)
    requires a <= b <= |jobs|
    ensures RetryPlace(jobs, a) <= RetryPlace(jobs, b)
  {
    if a < b {
      hide Unseen, Retry;
      PlacesRise(jobs, a, b - 1);
      assert jobs[..b][..b - 1] == jobs[..b - 1];
    }
  }

  /** One retry cannot ask for both of two different instructions. */
  lemma OneInstruction(jobs: seq<Job>, x: nat, f: nat, a: nat, b: nat, source: string)
    requires RetryOf(jobs, x, f) && a < |jobs| && b < |jobs|
    requires !Alike(jobs[a].payload, jobs[b].payload, source)
    ensures !(Asks(Retries(jobs).0[x], jobs[f].payload, jobs[a].payload, source)
              && Asks(Retries(jobs).0[x], jobs[f].payload, jobs[b].payload, source))
  {
    hide Retries, Alike, Plain;
    AlikeOn(jobs[f].payload, jobs[a].payload, jobs[b].payload, source);
    AlikeOn(jobs[a].payload, jobs[f].payload, jobs[b].payload, source);
  }

  /** BOTH ARE RETRIED. Two failed jobs on one source whose treatment, compensation flag or guidance
      differ are retried apart, whatever else was asked for. */
  lemma BothRetried(jobs: seq<Job>, a: nat, i: nat, b: nat, k: nat) returns (x: nat, y: nat)
    requires a < |jobs| && i < |jobs[a].payload.sources| && b < |jobs| && k < |jobs[b].payload.sources|
    requires Str(jobs[a].payload.sources[i]) == Str(jobs[b].payload.sources[k])
    requires !Alike(jobs[a].payload, jobs[b].payload, Str(jobs[a].payload.sources[i]))
    ensures x != y && x < |Retries(jobs).0| && y < |Retries(jobs).0|
    ensures var source := Str(jobs[a].payload.sources[i]);
            exists f, g :: 0 <= f <= a && 0 <= g <= b && RetryOf(jobs, x, f) && RetryOf(jobs, y, g)
                           && Asks(Retries(jobs).0[x], jobs[f].payload, jobs[a].payload, source)
                           && Asks(Retries(jobs).0[y], jobs[g].payload, jobs[b].payload, source)
  {
    hide Retries, RetryPlace, Alike, Str, Plain;
    var f := EachRetried(jobs, a, i);
    var g := EachRetried(jobs, b, k);
    x, y := RetryPlace(jobs, f), RetryPlace(jobs, g);
    assert f != g by { OneInstruction(jobs, x, f, a, b, Str(jobs[a].payload.sources[i])); }
    if f < g { PlacesRise(jobs, f + 1, g); } else { PlacesRise(jobs, g + 1, f); }
  }

  lemma {:induction false} AskedAt(ps: seq<Payload>, x: nat, k: nat)
    requires x < |ps| && k < |ps[x].sources|
    ensures |Asked(ps[..x])| + k < |Asked(ps[..x + 1])| <= |Asked(ps)|
    ensures Asked(ps)[|Asked(ps[..x])| + k] == Work(ps[x], Str(ps[x].sources[k]))
  {
    hide Work, Str;
    var front := ps[..|ps| - 1];
    if x < |front| {
      AskedAt(front, x, k);
      assert front[..x] == ps[..x] && front[..x + 1] == ps[..x + 1];
    } else {
      assert ps[..x + 1] == ps && front == ps[..x];
    }
  }

  lemma {:induction false} AskedLengths(ps: seq<Payload>, x: nat, y: nat)
    requires x <= y <= |ps|
    ensures |Asked(ps[..x])| <= |Asked(ps[..y])|
  {
    if x < y {
      AskedLengths(ps, x, y - 1);
      assert ps[..y][..y - 1] == ps[..y - 1];
    }
  }

  /** With string keys no work is asked for twice, in one retry or in two. */
  lemma RetriedOnce(jobs: seq<Job>, x: nat, k: nat, y: nat, l: nat)
    requires AllPlain(jobs) && (x, k) != (y, l)
    requires x < |Retries(jobs).0| && k < |Retries(jobs).0[x].sources|
    requires y < |Retries(jobs).0| && l < |Retries(jobs).0[y].sources|
    ensures !SameWork(Retries(jobs).0[x], k, Retries(jobs).0[y], l)
  {
    hide Retries, AllPlain, Work, Str, SameWork;
    var ps := Retries(jobs).0;
    RetriesAskOnce(jobs);
    AskedAt(ps, x, k);
    AskedAt(ps, y, l);
    SameWorkIs(ps[x], k, ps[y], l);
    if x < y { AskedLengths(ps, x + 1, y); } else if y < x { AskedLengths(ps, y + 1, x); }
  }
}
