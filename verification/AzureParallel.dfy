/**
 * Listing shards concurrently: workers that deliver page by page, the first
 * error stopping the rest, and the sequential listing when the service turns
 * out not to support bounds.
 */
module AzureParallel {
  import opened Wrappers
  import opened AzureShards

  datatype Error = BoundsUnsupported | Cancelled | OtherError

  /** A shard's listing: how many of its entries have been delivered and how many items it has counted. */
  datatype Job =
    | Waiting
    | Running(sent: nat, found: nat)
    | Ended(sent: nat, found: nat, err: Option<Error>)
    | Skipped  // the loop that starts the workers stopped before it

  datatype State = State(
    jobs: seq<Job>,
    next: nat,              // the shard to be started next
    admitted: bool,         // its check is over and g.Go is about to start it
    stopped: bool,          // the starting loop has been left early
    first: Option<Error>,   // the first error of a worker, which cancels the others
    callerCancelled: bool,
    delivered: seq<string>)

  datatype Step =
    | CallerCancels
    | CheckNext                       // gCtx.Err() before the next shard
    | Go                              // g.Go starts it, maybe much later
    | Page(j: nat, raw: nat, n: nat)  // a page of raw items counted, n entries of it delivered
    | Finish(j: nat)
    | Fail(j: nat, err: Error)

  function Start(n: nat): State {
    State(seq(n, i => Waiting), 0, false, false, None, false, [])
  }

  /** The entries delivered so far for the first n shards. */
  function Sent(jobs: seq<Job>, lists: seq<seq<string>>, n: nat): multiset<string>
    requires n <= |jobs| && n <= |lists|
  {
    if n == 0 then multiset{}
    else Sent(jobs, lists, n - 1) + multiset(lists[n - 1][..SentOf(jobs[n - 1], |lists[n - 1]|)])
  }

  function SentOf(job: Job, limit: nat): (k: nat)
    ensures k <= limit
  {
    if (job.Running? || job.Ended?) && job.sent <= limit then job.sent else 0
  }

  function FoundOf(job: Job): nat {
    if job.Running? || job.Ended? then job.found else 0
  }

  /** The shared counter: the items counted for the first n shards. */
  function Found(jobs: seq<Job>, n: nat): nat
    requires n <= |jobs|
  {
    if n == 0 then 0 else Found(jobs, n - 1) + FoundOf(jobs[n - 1])
  }

  /** One step; a step that is not possible changes nothing.  lists[j] is what worker j would deliver, in its order. */
  function Next(lists: seq<seq<string>>, s: State, step: Step): State {
    match step
    case CallerCancels => s.(callerCancelled := true)
    case CheckNext =>
      if s.stopped || s.admitted || s.next >= |s.jobs| then s
      else if s.first.Some? || s.callerCancelled then
        s.(stopped := true, jobs := s.jobs[..s.next] + seq(|s.jobs| - s.next, i => Skipped))
      else s.(admitted := true)
    case Go =>
      if s.admitted && s.next < |s.jobs| then s.(jobs := s.jobs[s.next := Running(0, 0)], next := s.next + 1, admitted := false) else s
    case Page(j, raw, n) =>
      if j < |s.jobs| && j < |lists| && s.jobs[j].Running? && n <= raw && s.jobs[j].sent + n <= |lists[j]| then
        var job := s.jobs[j];
        s.(jobs := s.jobs[j := Running(job.sent + n, job.found + raw)],
           delivered := s.delivered + lists[j][job.sent..job.sent + n])
      else s
    case Finish(j) =>
      if j < |s.jobs| && j < |lists| && s.jobs[j].Running? && s.jobs[j].sent == |lists[j]| then
        s.(jobs := s.jobs[j := Ended(s.jobs[j].sent, s.jobs[j].found, None)])
      else s
    case Fail(j, err) =>
      if j < |s.jobs| && s.jobs[j].Running? && (err.Cancelled? ==> s.first.Some? || s.callerCancelled) then
        s.(jobs := s.jobs[j := Ended(s.jobs[j].sent, s.jobs[j].found, Some(err))],
           first := if s.first.Some? then s.first else Some(err))
      else s
  }

  function After(lists: seq<seq<string>>, s: State, steps: seq<Step>): State
    decreases |steps|
  {
    if steps == [] then s else After(lists, Next(lists, s, steps[0]), steps[1..])
  }

  /** g.Wait returns: no worker is left to start or running. */
  predicate Done(s: State) {
    (s.stopped || s.next >= |s.jobs|) && forall j :: 0 <= j < |s.jobs| ==> !s.jobs[j].Running?
  }

  ghost predicate JobInv(lists: seq<seq<string>>, s: State, j: nat)
    requires j < |s.jobs| == |lists|
  {
    match s.jobs[j]
    case Waiting => s.next <= j && !s.stopped
    case Skipped => s.next <= j && s.stopped
    case Running(sent, found) => j < s.next && sent <= |lists[j]| && sent <= found
    case Ended(sent, found, err) =>
      j < s.next && sent <= |lists[j]| && sent <= found
      && (err.None? ==> sent == |lists[j]|) && (err.Some? ==> s.first.Some?)
  }

  ghost predicate Inv(lists: seq<seq<string>>, s: State) {
    && |s.jobs| == |lists| && s.next <= |lists|
    && (forall j {:trigger JobInv(lists, s, j)} :: 0 <= j < |lists| ==> JobInv(lists, s, j))
    && (s.stopped ==> s.first.Some? || s.callerCancelled) && (s.admitted ==> !s.stopped && s.next < |lists|)
    && multiset(s.delivered) == Sent(s.jobs, lists, |lists|)
  }

  // ---------- the sums ----------

  lemma {:induction false} SentSame(jobs: seq<Job>, jobs': seq<Job>, lists: seq<seq<string>>, n: nat)
    requires n <= |lists| && n <= |jobs| && n <= |jobs'|
    requires forall j :: 0 <= j < n ==> SentOf(jobs'[j], |lists[j]|) == SentOf(jobs[j], |lists[j]|)
    ensures Sent(jobs', lists, n) == Sent(jobs, lists, n)
  {
    if n > 0 {
      SentSame(jobs, jobs', lists, n - 1);
    }
  }

  lemma {:induction false} SentMore(jobs: seq<Job>, jobs': seq<Job>, lists: seq<seq<string>>, n: nat, j: nat, k: nat, m: nat)
    requires j < n <= |lists| && n <= |jobs| && n <= |jobs'|
    requires forall i :: 0 <= i < n && i != j ==> jobs'[i] == jobs[i]
    requires SentOf(jobs[j], |lists[j]|) == k && SentOf(jobs'[j], |lists[j]|) == m && k <= m
    ensures Sent(jobs', lists, n) == Sent(jobs, lists, n) + multiset(lists[j][k..m])
  {
    if j == n - 1 {
      SentSame(jobs, jobs', lists, n - 1);
      SplitBag(lists[j], k, m);
      Regroup(Sent(jobs, lists, n - 1), multiset(lists[j][..k]), multiset(lists[j][k..m]));
    } else {
      SentMore(jobs, jobs', lists, n - 1, j, k, m);
      Regroup(Sent(jobs, lists, n - 1), multiset(lists[n - 1][..SentOf(jobs[n - 1], |lists[n - 1]|)]), multiset(lists[j][k..m]));
    }
  }

  lemma {:induction false} SplitBag(list: seq<string>, k: nat, m: nat)
    requires k <= m <= |list|
    ensures multiset(list[..m]) == multiset(list[..k]) + multiset(list[k..m])
  {
    assert list[..m] == list[..k] + list[k..m];
  }

  lemma {:induction false} Regroup(a: multiset<string>, b: multiset<string>, c: multiset<string>)
    ensures a + b + c == a + (b + c) == a + c + b
  {
  }

  lemma {:induction false} SentIsPart(jobs: seq<Job>, lists: seq<seq<string>>, n: nat)
    requires n <= |lists| && n <= |jobs|
    ensures Sent(jobs, lists, n) <= multiset(Flatten(lists[..n]))
    ensures (forall j :: 0 <= j < n ==> SentOf(jobs[j], |lists[j]|) == |lists[j]|) ==> Sent(jobs, lists, n) == multiset(Flatten(lists[..n]))
  {
    if n > 0 {
      SentIsPart(jobs, lists, n - 1);
      assert lists[..n][..n - 1] == lists[..n - 1];
      var k := SentOf(jobs[n - 1], |lists[n - 1]|);
      assert lists[n - 1] == lists[n - 1][..k] + lists[n - 1][k..];
      assert k == |lists[n - 1]| ==> lists[n - 1][..k] == lists[n - 1];
    }
  }

  lemma {:induction false} SentIsFound(lists: seq<seq<string>>, s: State, n: nat)
    requires Inv(lists, s) && n <= |lists|
    ensures |Sent(s.jobs, lists, n)| <= Found(s.jobs, n)
  {
    if n > 0 {
      SentIsFound(lists, s, n - 1);
      assert JobInv(lists, s, n - 1);
    }
  }

  lemma {:induction false} StartKeeps(lists: seq<seq<string>>, s: State, step: Step)
    requires Inv(lists, s) && (step.CheckNext? || step.Go?)
    ensures Inv(lists, Next(lists, s, step))
  {
    var s' := Next(lists, s, step);
    forall j | 0 <= j < |lists|
      ensures JobInv(lists, s', j) && SentOf(s'.jobs[j], |lists[j]|) == SentOf(s.jobs[j], |lists[j]|)
    {
      assert JobInv(lists, s, j);
    }
    SentSame(s.jobs, s'.jobs, lists, |lists|);
  }

  lemma {:induction false} JoinBags(a: seq<string>, b: seq<string>)
    ensures multiset(a + b) == multiset(a) + multiset(b)
  {
  }

  /** A page adds to what was sent just what is delivered. */
  lemma {:induction false} PageSends(lists: seq<seq<string>>, jobs: seq<Job>, j: nat, job: Job, n: nat, delivered: seq<string>)
    requires |jobs| == |lists| && j < |lists| && multiset(delivered) == Sent(jobs, lists, |lists|)
    requires jobs[j].Running? && job.Running? && job.sent == jobs[j].sent + n <= |lists[j]|
    ensures multiset(delivered + lists[j][jobs[j].sent..job.sent]) == Sent(jobs[j := job], lists, |lists|)
  {
    JoinBags(delivered, lists[j][jobs[j].sent..job.sent]);
    SentMore(jobs, jobs[j := job], lists, |lists|, j, jobs[j].sent, job.sent);
  }

  lemma {:induction false} PageKeeps(lists: seq<seq<string>>, s: State, j: nat, raw: nat, n: nat)
    requires Inv(lists, s)
    ensures Inv(lists, Next(lists, s, Page(j, raw, n)))
  {
    if j < |lists| && s.jobs[j].Running? && n <= raw && s.jobs[j].sent + n <= |lists[j]| {
      var job := Running(s.jobs[j].sent + n, s.jobs[j].found + raw);
      var s' := s.(jobs := s.jobs[j := job], delivered := s.delivered + lists[j][s.jobs[j].sent..job.sent]);
      forall i | 0 <= i < |lists|
        ensures JobInv(lists, s', i)
      {
        assert JobInv(lists, s, i);
      }
      PageSends(lists, s.jobs, j, job, n, s.delivered);
      assert Next(lists, s, Page(j, raw, n)) == s';
    }
  }

  lemma {:induction false} EndKeeps(lists: seq<seq<string>>, s: State, step: Step)
    requires Inv(lists, s) && (step.Finish? || step.Fail?)
    ensures Inv(lists, Next(lists, s, step))
  {
    var s' := Next(lists, s, step);
    forall j | 0 <= j < |lists|
      ensures JobInv(lists, s', j) && SentOf(s'.jobs[j], |lists[j]|) == SentOf(s.jobs[j], |lists[j]|)
    {
      assert JobInv(lists, s, j);
    }
    SentSame(s.jobs, s'.jobs, lists, |lists|);
  }

  lemma {:induction false} StepKeeps(lists: seq<seq<string>>, s: State, step: Step)
    requires Inv(lists, s)
    ensures Inv(lists, Next(lists, s, step))
  {
    match step {
      case CallerCancels =>
        forall j | 0 <= j < |lists|
          ensures JobInv(lists, Next(lists, s, step), j)
        {
          assert JobInv(lists, s, j);
        }
      case CheckNext => StartKeeps(lists, s, step);
      case Go => StartKeeps(lists, s, step);
      case Page(j, raw, n) => PageKeeps(lists, s, j, raw, n);
      case Finish(_) => EndKeeps(lists, s, step);
      case Fail(_, _) => EndKeeps(lists, s, step);
    }
  }

  lemma {:induction false} RunKeeps(lists: seq<seq<string>>, s: State, steps: seq<Step>)
    requires Inv(lists, s)
    ensures Inv(lists, After(lists, s, steps))
    decreases |steps|
  {
    if steps != [] {
      StepKeeps(lists, s, steps[0]);
      RunKeeps(lists, Next(lists, s, steps[0]), steps[1..]);
    }
  }

  lemma {:induction false} StartIsInv(lists: seq<seq<string>>)
    ensures Inv(lists, Start(|lists|))
  {
    NothingSent(lists, |lists|);
    forall j | 0 <= j < |lists|
      ensures JobInv(lists, Start(|lists|), j)
    {
      assert Start(|lists|).jobs[j] == Waiting;
    }
  }

  lemma {:induction false} NothingSent(lists: seq<seq<string>>, n: nat)
    requires n <= |lists|
    ensures Sent(Start(|lists|).jobs, lists, n) == multiset{}
  {
    if n > 0 {
      NothingSent(lists, n - 1);
      assert lists[n - 1][..0] == [];
    }
  }

  // ---------- what the caller gets ----------

  /** What listArrowParallel makes of the workers' results: the parallel result, a sequential relisting, or an error. */
  datatype Outcome = Parallel | Relist | Failed(err: Error)

  function Concluded(s: State): Outcome {
    if s.first == Some(BoundsUnsupported) then
      (if Found(s.jobs, |s.jobs|) == 0 then Relist else Failed(BoundsUnsupported))
    else if s.first.Some? then Failed(s.first.value)
    else Parallel
  }

  /** Never is an entry delivered more often than the workers' lists have it. */
  lemma {:induction false} NothingTwice(lists: seq<seq<string>>, steps: seq<Step>)
    ensures multiset(After(lists, Start(|lists|), steps).delivered) <= multiset(Flatten(lists))
  {
    var s := After(lists, Start(|lists|), steps);
    StartIsInv(lists);
    RunKeeps(lists, Start(|lists|), steps);
    SentIsPart(s.jobs, lists, |lists|);
    assert lists[..|lists|] == lists;
  }

  lemma {:induction false} ListedOnce(list: seq<string>, keys: set<string>, name: string)
    requires IsListing(list, keys)
    ensures multiset(list)[name] <= 1
    decreases |list|
  {
    if list != [] {
      RestIsListing(list, keys);
      ListedOnce(list[1..], keys - {list[0]}, name);
      assert list == [list[0]] + list[1..];
      assert name == list[0] ==> name !in multiset(list[1..]) by {
        assert list[0] in list[1..] <==> list[0] in keys - {list[0]};
      }
    }
  }

  /** With shards over any ladder no entry is delivered twice, in no run, however it goes. */
  lemma {:induction false} NoEntryTwice(blobs: set<string>, directory: string, delimiter: Option<char>, points: seq<string>,
                                        shards: seq<Shard>, listings: seq<seq<string>>, lists: seq<seq<string>>,
                                        sequential: seq<string>, steps: seq<Step>, name: string)
    requires Ladder(points, directory) && Chain(shards, points) && |lists| == |listings| == |shards|
    requires forall j :: 0 <= j < |listings| ==> IsListing(listings[j], Keys(blobs, directory, delimiter, shards[j]))
    requires forall j :: 0 <= j < |lists| ==> multiset(lists[j]) == multiset(listings[j])
    requires IsListing(sequential, Keys(blobs, directory, delimiter, EVERYTHING))
    ensures multiset(After(lists, Start(|lists|), steps).delivered)[name] <= 1
  {
    ShardsListEverything(blobs, directory, delimiter, points, shards, listings, sequential);
    SameFlat(listings, lists);
    NothingTwice(lists, steps);
    ListedOnce(sequential, Keys(blobs, directory, delimiter, EVERYTHING), name);
  }

  /** A result without an error is complete, provided the caller did not cancel. */
  lemma {:induction false} SuccessIsComplete(lists: seq<seq<string>>, steps: seq<Step>)
    requires var s := After(lists, Start(|lists|), steps); Done(s) && Concluded(s) == Parallel && !s.callerCancelled
    ensures multiset(After(lists, Start(|lists|), steps).delivered) == multiset(Flatten(lists))
  {
    var s := After(lists, Start(|lists|), steps);
    StartIsInv(lists);
    RunKeeps(lists, Start(|lists|), steps);
    forall j | 0 <= j < |lists|
      ensures SentOf(s.jobs[j], |lists[j]|) == |lists[j]|
    {
      assert JobInv(lists, s, j);
    }
    SentIsPart(s.jobs, lists, |lists|);
    assert lists[..|lists|] == lists;
  }

  /** Relisting happens only when nothing has been delivered, so it delivers nothing twice. */
  lemma {:induction false} RelistStartsAfresh(lists: seq<seq<string>>, steps: seq<Step>)
    requires Concluded(After(lists, Start(|lists|), steps)) == Relist
    ensures After(lists, Start(|lists|), steps).delivered == []
  {
    var s := After(lists, Start(|lists|), steps);
    StartIsInv(lists);
    RunKeeps(lists, Start(|lists|), steps);
    SentIsFound(lists, s, |lists|);
    assert |multiset(s.delivered)| == |s.delivered|;
  }

  /**
   * The whole: with shards over any ladder and workers that deliver their
   * shard's keys in some order, a successful parallel listing has delivered
   * exactly the entries of the sequential listing, each once.
   */
  lemma {:induction false} ParallelIsSequential(blobs: set<string>, directory: string, delimiter: Option<char>, points: seq<string>,
                                                shards: seq<Shard>, listings: seq<seq<string>>, lists: seq<seq<string>>,
                                                sequential: seq<string>, steps: seq<Step>)
    requires Ladder(points, directory) && Chain(shards, points) && |lists| == |listings| == |shards|
    requires forall j :: 0 <= j < |listings| ==> IsListing(listings[j], Keys(blobs, directory, delimiter, shards[j]))
    requires forall j :: 0 <= j < |lists| ==> multiset(lists[j]) == multiset(listings[j])
    requires IsListing(sequential, Keys(blobs, directory, delimiter, EVERYTHING))
    requires var s := After(lists, Start(|lists|), steps); Done(s) && Concluded(s) == Parallel && !s.callerCancelled
    ensures multiset(After(lists, Start(|lists|), steps).delivered) == multiset(sequential)
  {
    ShardsListEverything(blobs, directory, delimiter, points, shards, listings, sequential);
    SameFlat(listings, lists);
    SuccessIsComplete(lists, steps);
  }

  lemma {:induction false} SameFlat(a: seq<seq<string>>, b: seq<seq<string>>)
    requires |a| == |b| && forall j :: 0 <= j < |a| ==> multiset(b[j]) == multiset(a[j])
    ensures multiset(Flatten(b)) == multiset(Flatten(a))
    decreases |a|
  {
    if a != [] {
      SameFlat(a[..|a| - 1], b[..|b| - 1]);
    }
  }

  // ---------- a cancelled caller ----------

  lemma {:induction false} OneStep(lists: seq<seq<string>>, s: State, step: Step, rest: seq<Step>)
    ensures After(lists, s, [step] + rest) == After(lists, Next(lists, s, step), rest)
  {
    assert ([step] + rest)[1..] == rest;
  }

  /** The first shard starts. */
  lemma {:induction false} FirstStarts(lists: seq<seq<string>>)
    requires lists != []
    ensures Next(lists, Next(lists, Start(|lists|), CheckNext), Go)
            == State([Running(0, 0)] + Start(|lists|).jobs[1..], 1, false, false, None, false, [])
  {
    assert Start(|lists|).jobs[0 := Running(0, 0)] == [Running(0, 0)] + Start(|lists|).jobs[1..];
  }

  /** It is delivered in one page and ended. */
  lemma {:induction false} FirstEnds(lists: seq<seq<string>>, others: seq<Job>)
    requires lists != []
    ensures var n := |lists[0]|;
            Next(lists, Next(lists, State([Running(0, 0)] + others, 1, false, false, None, false, []), Page(0, n, n)), Finish(0))
            == State([Ended(n, n, None)] + others, 1, false, false, None, false, lists[0])
  {
    var n := |lists[0]|;
    assert [] + lists[0][0..n] == lists[0];
    assert ([Running(0, 0)] + others)[0 := Running(n, n)] == [Running(n, n)] + others;
    assert ([Running(n, n)] + others)[0 := Ended(n, n, None)] == [Ended(n, n, None)] + others;
  }

  /** Both, before anything else. */
  lemma {:induction false} FirstShard(lists: seq<seq<string>>, rest: seq<Step>)
    requires lists != []
    ensures var n := |lists[0]|;
            After(lists, Start(|lists|), [CheckNext] + ([Go] + ([Page(0, n, n)] + ([Finish(0)] + rest))))
            == After(lists, State([Ended(n, n, None)] + Start(|lists|).jobs[1..], 1, false, false, None, false, lists[0]), rest)
  {
    var n, s := |lists[0]|, Start(|lists|);
    var s1 := Next(lists, s, CheckNext);
    var s2 := Next(lists, s1, Go);
    var s3 := Next(lists, s2, Page(0, n, n));
    OneStep(lists, s, CheckNext, [Go] + ([Page(0, n, n)] + ([Finish(0)] + rest)));
    OneStep(lists, s1, Go, [Page(0, n, n)] + ([Finish(0)] + rest));
    OneStep(lists, s2, Page(0, n, n), [Finish(0)] + rest);
    OneStep(lists, s3, Finish(0), rest);
    FirstStarts(lists);
    FirstEnds(lists, s.jobs[1..]);
  }

  /**
   * Whatever the shards hold: a caller that cancels after the first of them gets
   * no error, and only the entries of the first.
   */
  lemma {:induction false} CancelledListingLooksComplete(lists: seq<seq<string>>) returns (steps: seq<Step>)
    requires |lists| > 1
    ensures var s := After(lists, Start(|lists|), steps);
            s.callerCancelled && Done(s) && Concluded(s) == Parallel && s.delivered == lists[0]
    ensures (exists j :: 0 < j < |lists| && lists[j] != []) ==>
              multiset(After(lists, Start(|lists|), steps).delivered) != multiset(Flatten(lists))
  {
    var n := |lists[0]|;
    steps := [CheckNext] + ([Go] + ([Page(0, n, n)] + ([Finish(0)] + ([CallerCancels] + ([CheckNext] + [])))));
    FirstShard(lists, [CallerCancels] + ([CheckNext] + []));
    var s4 := State([Ended(n, n, None)] + Start(|lists|).jobs[1..], 1, false, false, None, false, lists[0]);
    var s5 := Next(lists, s4, CallerCancels);
    OneStep(lists, s4, CallerCancels, [CheckNext] + []);
    OneStep(lists, s5, CheckNext, []);
    var s6 := Next(lists, s5, CheckNext);
    assert s6.jobs[0] == Ended(n, n, None);
    forall j | 0 < j < |lists|
      ensures s6.jobs[j].Skipped?
    {
    }
    CompleteUnlessSkipped(lists, steps);
  }

  /** Without an error the listing is complete exactly when all shards that were never started are empty. */
  lemma {:induction false} CompleteUnlessSkipped(lists: seq<seq<string>>, steps: seq<Step>)
    requires var s := After(lists, Start(|lists|), steps); Done(s) && Concluded(s) == Parallel
    ensures var s := After(lists, Start(|lists|), steps);
            |s.jobs| == |lists| &&
            (multiset(s.delivered) == multiset(Flatten(lists)) <==>
             forall j :: 0 <= j < |lists| && s.jobs[j].Skipped? ==> lists[j] == [])
  {
    var s := After(lists, Start(|lists|), steps);
    StartIsInv(lists);
    RunKeeps(lists, Start(|lists|), steps);
    forall j | 0 <= j < |lists|
      ensures SentOf(s.jobs[j], |lists[j]|) == if s.jobs[j].Skipped? then 0 else |lists[j]|
    {
      assert JobInv(lists, s, j);
    }
    SizesDecide(s.jobs, lists, |lists|);
    assert lists[..|lists|] == lists;
    SentIsPart(s.jobs, lists, |lists|);
  }

  /** The sum of what was sent is everything only if each list was sent whole. */
  lemma {:induction false} SizesDecide(jobs: seq<Job>, lists: seq<seq<string>>, n: nat)
    requires n <= |lists| && n <= |jobs|
    ensures |Sent(jobs, lists, n)| <= |Flatten(lists[..n])|
    ensures |Sent(jobs, lists, n)| == |Flatten(lists[..n])| <==> forall j :: 0 <= j < n ==> SentOf(jobs[j], |lists[j]|) == |lists[j]|
  {
    if n > 0 {
      SizesDecide(jobs, lists, n - 1);
      assert lists[..n][..n - 1] == lists[..n - 1];
    }
  }

  /** The step leaves the starting loop, on an error or a cancellation, with a shard still to start that is not empty. */
  ghost predicate Drops(lists: seq<seq<string>>, s: State, step: Step) {
    && step.CheckNext? && !s.stopped && !s.admitted && (s.first.Some? || s.callerCancelled)
    && exists j :: s.next <= j < |lists| && lists[j] != []
  }

  /** Some step of the run does. */
  ghost predicate DropsIn(lists: seq<seq<string>>, s: State, steps: seq<Step>)
    decreases |steps|
  {
    steps != [] && (Drops(lists, s, steps[0]) || DropsIn(lists, Next(lists, s, steps[0]), steps[1..]))
  }

  /** A shard that is not empty has been skipped. */
  ghost predicate Lacks(lists: seq<seq<string>>, s: State)
    requires |s.jobs| == |lists|
  {
    exists j :: 0 <= j < |lists| && s.jobs[j].Skipped? && lists[j] != []
  }

  lemma {:induction false} LacksAfterStep(lists: seq<seq<string>>, s: State, step: Step)
    requires Inv(lists, s)
    ensures |Next(lists, s, step).jobs| == |lists| && (Lacks(lists, Next(lists, s, step)) <==> Lacks(lists, s) || Drops(lists, s, step))
  {
    var s' := Next(lists, s, step);
    if Drops(lists, s, step) {
      var j :| s.next <= j < |lists| && lists[j] != [];
      assert s'.jobs[j].Skipped?;
    } else {
      forall j | 0 <= j < |lists| && lists[j] != []
        ensures s'.jobs[j].Skipped? <==> s.jobs[j].Skipped?
      {
        assert JobInv(lists, s, j);
      }
    }
  }

  lemma {:induction false} LacksAfter(lists: seq<seq<string>>, s: State, steps: seq<Step>)
    requires Inv(lists, s)
    ensures |After(lists, s, steps).jobs| == |lists| && (Lacks(lists, After(lists, s, steps)) <==> Lacks(lists, s) || DropsIn(lists, s, steps))
    decreases |steps|
  {
    if steps != [] {
      StepKeeps(lists, s, steps[0]);
      LacksAfterStep(lists, s, steps[0]);
      LacksAfter(lists, Next(lists, s, steps[0]), steps[1..]);
    }
  }

  /**
   * Without an error the listing is complete exactly when no check before a
   * shard came after a cancellation with a shard still to start that is not
   * empty.
   */
  lemma {:induction false} CompleteWhen(lists: seq<seq<string>>, steps: seq<Step>)
    requires var s := After(lists, Start(|lists|), steps); Done(s) && Concluded(s) == Parallel
    ensures multiset(After(lists, Start(|lists|), steps).delivered) == multiset(Flatten(lists)) <==> !DropsIn(lists, Start(|lists|), steps)
  {
    var s := After(lists, Start(|lists|), steps);
    StartIsInv(lists);
    LacksAfter(lists, Start(|lists|), steps);
    CompleteUnlessSkipped(lists, steps);
  }

  // ---------- which outcome ----------

  /** The error of the first Fail step of the run that takes effect. */
  function FirstFailure(lists: seq<seq<string>>, s: State, steps: seq<Step>): Option<Error>
    decreases |steps|
  {
    if steps == [] then None
    else if steps[0].Fail? && Next(lists, s, steps[0]) != s then Some(steps[0].err)
    else FirstFailure(lists, Next(lists, s, steps[0]), steps[1..])
  }

  /** The items counted by the Page steps of the run that take effect. */
  function Counted(lists: seq<seq<string>>, s: State, steps: seq<Step>): nat
    decreases |steps|
  {
    if steps == [] then 0
    else (if steps[0].Page? && Next(lists, s, steps[0]) != s then steps[0].raw else 0) + Counted(lists, Next(lists, s, steps[0]), steps[1..])
  }

  lemma {:induction false} FirstIsKept(lists: seq<seq<string>>, s: State, steps: seq<Step>)
    ensures After(lists, s, steps).first == if s.first.Some? then s.first else FirstFailure(lists, s, steps)
    decreases |steps|
  {
    if steps != [] {
      FirstIsKept(lists, Next(lists, s, steps[0]), steps[1..]);
    }
  }

  lemma {:induction false} FoundSame(jobs: seq<Job>, jobs': seq<Job>, n: nat)
    requires n <= |jobs| == |jobs'| && forall j :: 0 <= j < n ==> FoundOf(jobs'[j]) == FoundOf(jobs[j])
    ensures Found(jobs', n) == Found(jobs, n)
  {
    if n > 0 {
      FoundSame(jobs, jobs', n - 1);
    }
  }

  lemma {:induction false} FoundMore(jobs: seq<Job>, jobs': seq<Job>, n: nat, j: nat, raw: nat)
    requires j < n <= |jobs| == |jobs'| && (forall i :: 0 <= i < n && i != j ==> jobs'[i] == jobs[i]) && FoundOf(jobs'[j]) == FoundOf(jobs[j]) + raw
    ensures Found(jobs', n) == Found(jobs, n) + raw
  {
    if j == n - 1 {
      FoundSame(jobs, jobs', n - 1);
    } else {
      FoundMore(jobs, jobs', n - 1, j, raw);
    }
  }

  lemma {:induction false} FoundAfterStep(lists: seq<seq<string>>, s: State, step: Step)
    requires Inv(lists, s)
    ensures var s' := Next(lists, s, step);
            |s'.jobs| == |s.jobs| && Found(s'.jobs, |s.jobs|) == Found(s.jobs, |s.jobs|) + if step.Page? && s' != s then step.raw else 0
  {
    var s' := Next(lists, s, step);
    if step.Page? && s' != s {
      FoundMore(s.jobs, s'.jobs, |s.jobs|, step.j, step.raw);
    } else {
      forall j | 0 <= j < |s.jobs|
        ensures FoundOf(s'.jobs[j]) == FoundOf(s.jobs[j])
      {
        assert JobInv(lists, s, j);
      }
      FoundSame(s.jobs, s'.jobs, |s.jobs|);
    }
  }

  lemma {:induction false} FoundIsCounted(lists: seq<seq<string>>, s: State, steps: seq<Step>)
    requires Inv(lists, s)
    ensures var s' := After(lists, s, steps);
            |s'.jobs| == |s.jobs| && Found(s'.jobs, |s.jobs|) == Found(s.jobs, |s.jobs|) + Counted(lists, s, steps)
    decreases |steps|
  {
    if steps != [] {
      FoundAfterStep(lists, s, steps[0]);
      StepKeeps(lists, s, steps[0]);
      FoundIsCounted(lists, Next(lists, s, steps[0]), steps[1..]);
    }
  }

  lemma {:induction false} NothingFound(n: nat, k: nat)
    requires k <= n
    ensures Found(Start(n).jobs, k) == 0
  {
    if k > 0 {
      NothingFound(n, k - 1);
    }
  }

  /**
   * Which outcome a run has: the parallel result if and only if no worker
   * failed; a relisting if and only if the first failure was that bounds are not
   * supported, and no page had counted anything; the error of that first failure
   * otherwise.
   */
  lemma {:induction false} OutcomeIs(lists: seq<seq<string>>, steps: seq<Step>)
    ensures var s, first := After(lists, Start(|lists|), steps), FirstFailure(lists, Start(|lists|), steps);
            && (Concluded(s) == Parallel <==> first == None)
            && (Concluded(s) == Relist <==> first == Some(BoundsUnsupported) && Counted(lists, Start(|lists|), steps) == 0)
            && (forall e :: Concluded(s) == Failed(e) <==> first == Some(e) && (e.BoundsUnsupported? ==> Counted(lists, Start(|lists|), steps) > 0))
  {
    StartIsInv(lists);
    FirstIsKept(lists, Start(|lists|), steps);
    FoundIsCounted(lists, Start(|lists|), steps);
    NothingFound(|lists|, |lists|);
  }

  /** Such a run: the first worker fails at once, for whatever reason, and its error decides. */
  lemma {:induction false} FirstWorkerFails(lists: seq<seq<string>>, err: Error) returns (steps: seq<Step>)
    requires |lists| > 0 && !err.Cancelled?
    ensures var s := After(lists, Start(|lists|), steps);
            Done(s) && Concluded(s) == if err.BoundsUnsupported? then Relist else Failed(err)
  {
    steps := [CheckNext] + ([Go] + ([Fail(0, err)] + ([CheckNext] + [])));
    var s := Start(|lists|);
    var s1 := Next(lists, s, CheckNext);
    var s2 := Next(lists, s1, Go);
    var s3 := Next(lists, s2, Fail(0, err));
    var s4 := Next(lists, s3, CheckNext);
    OneStep(lists, s, CheckNext, [Go] + ([Fail(0, err)] + ([CheckNext] + [])));
    OneStep(lists, s1, Go, [Fail(0, err)] + ([CheckNext] + []));
    OneStep(lists, s2, Fail(0, err), [CheckNext] + []);
    OneStep(lists, s3, CheckNext, []);
    assert s2.jobs[0] == Running(0, 0) && s3.jobs[0] == Ended(0, 0, Some(err));
    forall j | 0 < j < |lists|
      ensures !s4.jobs[j].Running?
    {
      assert s2.jobs[j] == Waiting;
    }
    FirstFails(lists, err, s4);
  }

  lemma {:induction false} FirstFails(lists: seq<seq<string>>, err: Error, s: State)
    requires |s.jobs| > 0 && s.jobs[0] == Ended(0, 0, Some(err)) && s.first == Some(err) && forall j :: 0 < j < |s.jobs| ==> FoundOf(s.jobs[j]) == 0
    ensures Concluded(s) == if err.BoundsUnsupported? then Relist else Failed(err)
  {
    NothingFound(|s.jobs|, |s.jobs|);
    FoundSame(Start(|s.jobs|).jobs, s.jobs, |s.jobs|);
  }
}
