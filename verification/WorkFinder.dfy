/** The JHM build scheduler: TWorkFinder (jhm/work_finder.cc) with TCacheChecker (jhm/cache_check.cc).

    Jobs move between Ready, Waiting, Running and Finished.  The environment (which jobs can make a
    file, what the cache files say, what a run of a job reports) is a parameter of the steps. */
module WorkFinder {
  import opened Common

  datatype File = File(id: nat)
  datatype Job = Job(id: nat)

  /** What the build environment knows about files and jobs. */
  datatype Env = Env(
    isSrc: File -> bool,
    producing: File -> seq<Job>,
    input: Job -> File,
    outputs: Job -> set<File>,
    unknownOutputs: Job -> bool,
    jobs: set<Job>)

  /** A recorded output path: the file it names and its executable form. */
  datatype OutPath = OutPath(primary: Option<File>, executable: File)

  /** A job's cache file.  None stands for a key the file does not hold. */
  datatype Record = Record(
    sameJob: bool,
    needs: Option<seq<Option<File>>>,
    antiNeeds: Option<seq<Option<File>>>,
    outputs: Option<seq<OutPath>>,
    configFiles: Option<set<string>>)

  /** The file system as one pass of cache checks sees it. */
  datatype World = World(
    cache: Job -> Option<Record>,
    stamp: File -> int,
    outStamp: File -> Option<int>,
    present: File -> bool,
    outSameJob: (Job, File) -> bool,
    configOf: File -> set<string>,
    envConfig: set<string>,
    configStamp: int,
    cmdStamp: Job -> int)

  datatype Error = Unproducible(file: File) | Conflict(file: File) | MissingOutput(job: Job)

  /** What an output is made from. */
  datatype Origin = TheConfig | TheCommand | TheInput | ANeed(i: nat)

  /** Why a job has to be run although its outputs may be there. */
  datatype Stale =
    | InputOpen                            // the input still has to be made
    | InputOlder                           // the input was made before the configuration changed
    | NoRecord                             // there is no cache file
    | OtherRecord                          // the cache file is of another job or another configuration
    | KeyMissing                           // the cache file lacks a key
    | NeedGone(i: nat)                     // a recorded need is no file
    | NeedOpen(i: nat)                     // a recorded need still has to be made
    | NowBuildable(i: nat)                 // a file that could not be made can be made now
    | OutputsDiffer                        // not as many outputs as the job has
    | NoOutput(k: nat)                     // a recorded output is no file
    | OutputGone(k: nat)                   // an output is not there
    | OutputOfOther(k: nat)                // an output was made by another job
    | OutputOlder(k: nat, than: Origin)    // an output is older than something it is made from
    | ConfigsDiffer(file: string)          // a configuration file appeared or disappeared

  /** The jobs are a finite universe, a file's potential jobs are those that list it as an output,
      and going from an output to its job's input climbs down a rank. */
  ghost predicate ValidEnv(e: Env, rank: File -> nat) {
    && (forall f, j :: j in e.producing(f) <==> j in e.jobs && f in e.outputs(j))
    && (forall f, j :: j in e.producing(f) ==> rank(e.input(j)) < rank(f))
  }

  /** A file is source, or some job makes it from a buildable input. */
  ghost predicate Buildable(e: Env, rank: File -> nat, f: File)
    requires ValidEnv(e, rank)
    decreases rank(f)
  {
    e.isSrc(f) || exists j | j in e.producing(f) :: Buildable(e, rank, e.input(j))
  }

  /** Two jobs that could both be run claim the file. */
  ghost predicate Claimed(e: Env, rank: File -> nat, f: File, j: Job, k: Job)
    requires ValidEnv(e, rank)
  {
    && j != k && j in e.jobs && k in e.jobs && f in e.outputs(j) && f in e.outputs(k)
    && Buildable(e, rank, e.input(j)) && Buildable(e, rank, e.input(k))
  }

  /** Why looking for a producer may throw. */
  ghost predicate Clash(e: Env, rank: File -> nat, err: Error)
    requires ValidEnv(e, rank)
  {
    err.Conflict? && exists j, k :: Claimed(e, rank, err.file, j, k)
  }

  /** Why asking for files to be made may throw: a clash, or one of them cannot be made. */
  ghost predicate Justified(e: Env, rank: File -> nat, asked: set<File>, err: Error)
    requires ValidEnv(e, rank)
  {
    Clash(e, rank, err) || (err.Unproducible? && err.file in asked && !Buildable(e, rank, err.file))
  }

  /** A file that can be made is not the trouble. */
  lemma NotThisFile(e: Env, rank: File -> nat, f: File, asked: set<File>, err: Error)
    requires ValidEnv(e, rank) && Buildable(e, rank, f) && Justified(e, rank, {f}, err)
    ensures Justified(e, rank, asked, err)
  {
  }

  /** The consumers of a multimap of (producer, consumer) entries, with multiplicity. */
  ghost function Consumers(entries: seq<(Job, Job)>): multiset<Job> {
    if entries == [] then multiset{}
    else Consumers(entries[..|entries| - 1]) + multiset{entries[|entries| - 1].1}
  }

  function Newest(a: int, b: int): int {
    if a < b then b else a
  }

  predicate IsNewer(a: int, b: Option<int>) {
    b.None? || a > b.value
  }

  /** What cache checks learn. */
  datatype Knowledge = Knowledge(
    producers: map<File, Job>, checked: set<Job>, finished: set<Job>, all: set<Job>, recorded: map<Job, set<File>>)

  /** A job went to the runner, and what was known then. */
  datatype Start = Start(job: Job, at: Knowledge)

  /** How often the job went to the runner. */
  ghost function Times(log: seq<Start>, j: Job): nat {
    if log == [] then 0 else Times(log[..|log| - 1], j) + if log[|log| - 1].job == j then 1 else 0
  }

  lemma {:induction false} TimesConcat(a: seq<Start>, b: seq<Start>, j: Job)
    ensures Times(a + b, j) == Times(a, j) + Times(b, j)
    decreases b
  {
    if b == [] {
      assert a + b == a;
    } else {
      assert (a + b)[..|a + b| - 1] == a + b[..|b| - 1];
      TimesConcat(a, b[..|b| - 1], j);
    }
  }

  /** Up to the start at i, that start, and those after it. */
  lemma TimesSplit(log: seq<Start>, i: nat)
    requires i < |log|
    ensures Times(log[..i], log[i].job) + 1 <= Times(log, log[i].job)
  {
    TimesConcat(log[..i + 1], log[i + 1..], log[i].job);
    assert log[..i + 1] + log[i + 1..] == log;
    assert log[..i + 1][..i] == log[..i];
  }

  /** The last of a job's starts. */
  lemma {:induction false} LastStart(log: seq<Start>, j: Job) returns (i: nat)
    requires Times(log, j) > 0
    ensures i < |log| && log[i].job == j && Times(log[..i], j) == Times(log, j) - 1
  {
    i := |log| - 1;
    if log[i].job != j {
      i := LastStart(log[..i], j);
      assert log[..|log| - 1][..i] == log[..i];
    }
  }

  /** Where a build began: the jobs run before it, and the length of the log. */
  datatype Past = Past(ran: set<Job>, starts: nat)

  /** What a cache check may change: it learns producers, marks jobs as checked, and finishes only
      jobs that it checked just now. */
  ghost predicate Grows(a: Knowledge, b: Knowledge) {
    && (forall f | f in a.producers :: f in b.producers && b.producers[f] == a.producers[f])
    && a.checked <= b.checked
    && a.finished <= b.finished
    && b.finished - a.finished <= b.checked - a.checked
    && b.all == a.all + (b.finished - a.finished)
    && (forall j | j in a.recorded && j in a.checked :: j in b.recorded && b.recorded[j] == a.recorded[j])
  }

  /** What any step keeps: nothing learned or finished is ever taken back. */
  ghost predicate Keeps(a: Knowledge, b: Knowledge) {
    && (forall f | f in a.producers :: f in b.producers && b.producers[f] == a.producers[f])
    && a.checked <= b.checked
    && a.finished <= b.finished
    && a.all <= b.all
    && (forall j | j in a.recorded && j in a.finished :: j in b.recorded && b.recorded[j] == a.recorded[j])
  }

  /** Finishing a job that was checked just now. */
  lemma GrowsByOne(a: Knowledge, b: Knowledge, c: Knowledge, job: Job)
    requires Grows(a, b) && job in b.checked - a.checked && job !in b.finished && job !in a.finished
    requires c.producers == b.producers && c.checked == b.checked && c.finished == b.finished + {job}
    requires c.all == b.all + {job} && c.recorded.Keys == b.recorded.Keys + {job}
    requires forall j | j in b.recorded && j != job :: c.recorded[j] == b.recorded[j]
    ensures Grows(a, c)
  {
  }

  lemma GrowsTwice(a: Knowledge, b: Knowledge, c: Knowledge)
    requires Grows(a, b) && Grows(b, c)
    ensures Grows(a, c)
  {
    forall j | j in c.finished - a.finished ensures j in c.checked - a.checked {
      if j in b.finished {
        assert j in b.finished - a.finished;
      } else {
        assert j in c.finished - b.finished;
      }
    }
  }

  lemma KeepsSelf(a: Knowledge)
    ensures Keeps(a, a)
  {
  }

  lemma KeepsRecord(a: Knowledge, b: Knowledge, job: Job, needs: set<File>)
    requires Keeps(a, b) && job !in a.finished
    ensures Keeps(a, b.(recorded := b.recorded[job := needs]))
  {
  }

  lemma KeepsAdded(a: Knowledge, b: Knowledge, c: Knowledge, job: Job)
    requires a.finished <= a.checked && b == a.(all := a.all + {job}) && Grows(b, c)
    ensures Keeps(a, c)
  {
  }

  /** Jobs that were checked before and not finished are not finished by a cache check. */
  lemma NotFinishedNow(a: Knowledge, b: Knowledge, jobs: set<Job>)
    requires Grows(a, b) && jobs <= a.checked && jobs !! a.finished
    ensures jobs !! b.finished
  {
  }

  lemma KeepsFinished(a: Knowledge, b: Knowledge, job: Job)
    requires b == a.(finished := a.finished + {job})
    ensures Keeps(a, b)
  {
  }

  lemma KeepsTwice(a: Knowledge, b: Knowledge, c: Knowledge)
    requires Keeps(a, b) && Keeps(b, c)
    ensures Keeps(a, c)
  {
  }

  lemma {:induction false} NoEntryNoCount(entries: seq<(Job, Job)>, c: Job)
    requires forall e | e in entries :: e.1 != c
    ensures Consumers(entries)[c] == 0
  {
    if entries != [] {
      NoEntryNoCount(entries[..|entries| - 1], c);
    }
  }

  lemma {:induction false} EntryCounts(entries: seq<(Job, Job)>, e: (Job, Job))
    requires e in entries
    ensures Consumers(entries)[e.1] > 0
  {
    if entries[|entries| - 1] != e {
      EntryCounts(entries[..|entries| - 1], e);
    }
  }

  lemma {:induction false} CountHasEntry(entries: seq<(Job, Job)>, c: Job) returns (e: (Job, Job))
    requires Consumers(entries)[c] > 0
    ensures e in entries && e.1 == c
  {
    e := entries[|entries| - 1];
    if e.1 != c {
      e := CountHasEntry(entries[..|entries| - 1], c);
    }
  }

  /** The entries of other producers. */
  function Without(entries: seq<(Job, Job)>, p: Job): (rest: seq<(Job, Job)>)
    ensures forall e :: e in rest <==> e in entries && e.0 != p
  {
    if entries == [] then []
    else
      var rest := Without(entries[..|entries| - 1], p);
      var e := entries[|entries| - 1];
      assert entries == entries[..|entries| - 1] + [e];
      if e.0 == p then rest else rest + [e]
  }

  /** The consumers entered under a producer: the multimap's equal range. */
  function RangeOf(entries: seq<(Job, Job)>, p: Job): (range: seq<Job>)
    ensures forall c | c in range :: (p, c) in entries
  {
    if entries == [] then []
    else
      var range := RangeOf(entries[..|entries| - 1], p);
      var e := entries[|entries| - 1];
      if e.0 == p then range + [e.1] else range
  }

  lemma {:induction false} SplitCounts(entries: seq<(Job, Job)>, p: Job)
    ensures Consumers(entries) == Consumers(Without(entries, p)) + multiset(RangeOf(entries, p))
  {
    if entries != [] {
      var front, e := entries[..|entries| - 1], entries[|entries| - 1];
      SplitCounts(front, p);
      if e.0 != p {
        assert Without(entries, p)[..|Without(entries, p)| - 1] == Without(front, p);
      }
    }
  }

  /** What the runs of the jobs report, by job and attempt: exit code, completeness, the needs known
      before the attempt, and the file system as each round of scheduling sees it.  A job reports
      itself complete after at most tries incomplete runs. */
  datatype Plan = Plan(
    exit: (Job, nat) -> int,
    complete: (Job, nat) -> bool,
    outputsExist: (Job, nat) -> bool,
    needs: (Job, nat) -> set<File>,
    world: nat -> World,
    tries: Job -> nat)

  ghost predicate ValidPlan(plan: Plan) {
    forall j, k: nat | k >= plan.tries(j) :: plan.complete(j, k)
  }

  /** The attempt reports success without having made its outputs. */
  ghost predicate Incomplete(plan: Plan, j: Job, k: nat) {
    plan.exit(j, k) == 0 && plan.complete(j, k) && !plan.outputsExist(j, k)
  }

  /** The attempt asks to be run again. */
  ghost predicate Again(plan: Plan, j: Job, k: nat) {
    plan.exit(j, k) == 0 && !plan.complete(j, k)
  }

  /** The job was run n times, and asked again each time but the last. */
  ghost predicate Ended(plan: Plan, j: Job, n: nat) {
    n > 0 && forall k: nat | k < n - 1 :: Again(plan, j, k)
  }

  ghost predicate Fails(plan: Plan, j: Job, k: nat) {
    plan.exit(j, k) != 0
  }

  /** The attempt succeeds and makes its outputs. */
  ghost predicate Completes(plan: Plan, j: Job, k: nat) {
    plan.exit(j, k) == 0 && plan.complete(j, k) && plan.outputsExist(j, k)
  }

  function Attempt(runs: map<Job, nat>, j: Job): nat {
    if j in runs then runs[j] else 0
  }

  function NeedsNow(plan: Plan, runs: map<Job, nat>): Job -> set<File> {
    (j: Job) => plan.needs(j, Attempt(runs, j))
  }

  /** The runs that may still come. */
  ghost function RunsLeft(plan: Plan, jobs: set<Job>, runs: map<Job, nat>): set<(Job, nat)> {
    set j, k: nat | j in jobs && 0 <= k <= plan.tries(j) && Attempt(runs, j) <= k :: (j, k)
  }

  lemma OneRunLess(plan: Plan, jobs: set<Job>, runs: map<Job, nat>, job: Job)
    requires job in jobs && Attempt(runs, job) <= plan.tries(job)
    ensures RunsLeft(plan, jobs, runs[job := Attempt(runs, job) + 1]) < RunsLeft(plan, jobs, runs)
  {
    assert (job, Attempt(runs, job)) in RunsLeft(plan, jobs, runs);
  }

  class Finder {
    const env: Env
    ghost const rank: File -> nat
    /** Some ranking when the dependencies between jobs are acyclic. */
    ghost const jobRank: Option<Job -> nat>
    /** The states of the file system the cache checks may see. */
    ghost const worlds: iset<World>

    var ready: seq<Job>
    var toFinish: seq<(Job, Job)>
    var all: set<Job>
    var running: set<Job>
    var finished: set<Job>
    var waiting: map<Job, nat>
    var producers: map<File, Job>
    var checked: set<Job>

    /** Jobs whose run failed; the source only reports them. */
    ghost var failed: set<Job>
    /** Jobs that were run to completion and made their outputs. */
    ghost var ran: set<Job>
    /** The needs a job was last queued with, or that the cache recorded for it. */
    ghost var recorded: map<Job, set<File>>
    /** Every time a job went to the runner, in order. */
    ghost var starts: seq<Start>

    constructor (env: Env, ghost rank: File -> nat, ghost jobRank: Option<Job -> nat>, ghost worlds: iset<World>)
      requires ValidEnv(env, rank)
      ensures this.env == env && this.rank == rank && this.jobRank == jobRank && this.worlds == worlds
      ensures Inv({}) && all == {} && failed == {} && ran == {} && starts == []
    {
      this.env, this.rank, this.jobRank, this.worlds := env, rank, jobRank, worlds;
      ready, toFinish, waiting, producers := [], [], map[], map[];
      all, running, finished, checked := {}, {}, {}, {};
      failed, ran, recorded, starts := {}, {}, map[], [];
    }

    ghost predicate ProducersOk()
      reads this`producers
      requires ValidEnv(env, rank)
    {
      forall f | f in producers ::
        && producers[f] in env.jobs
        && f in env.outputs(producers[f])
        && Buildable(env, rank, env.input(producers[f]))
    }

    /** The file needs no more work: source, or made by a finished job. */
    ghost predicate Settled(f: File)
      reads this`producers, this`finished
    {
      env.isSrc(f) || (f in producers && producers[f] in finished)
    }

    ghost predicate ClosedOn(j: Job)
      reads this`producers, this`finished, this`recorded
    {
      j in recorded && Settled(env.input(j)) && forall f | f in recorded[j] :: Settled(f)
    }

    /** What cache checking relies on and keeps. */
    ghost predicate Base()
      reads this`producers, this`checked, this`finished, this`all, this`recorded, this`ran
    {
      && ValidEnv(env, rank)
      && ProducersOk()
      && finished <= checked <= env.jobs
      && finished <= all <= env.jobs
      && (forall j | j in all :: Buildable(env, rank, env.input(j)))
      && (forall j | j in finished :: ClosedOn(j))
      && (forall j | j in finished :: j in ran || Vouched(j))
      && ran <= finished
    }

    /** Some cache check saw a record that vouches for the job. */
    ghost predicate Vouched(j: Job)
      reads this`producers, this`finished
      requires ValidEnv(env, rank)
    {
      exists w | w in worlds :: CacheGood(w, j)
    }

    /** What the cache vouched for stays vouched for. */
    twostate lemma StayVouched()
      requires ValidEnv(env, rank) && old(finished) <= finished
      requires forall f | f in old(producers) :: f in producers && producers[f] == old(producers)[f]
      ensures forall j | old(Vouched(j)) :: Vouched(j)
    {
      forall j | old(Vouched(j)) ensures Vouched(j) {
        var w :| w in worlds && old(CacheGood(w, j));
        assert CacheGood(w, j);
      }
    }

    ghost function Known(): (k: Knowledge)
      reads this`producers, this`checked, this`finished, this`all, this`recorded
    {
      Knowledge(producers, checked, finished, all, recorded)
    }

    /** Learning producers disturbs nothing else. */
    twostate lemma BaseStays()
      requires old(Base()) && ProducersOk()
      requires forall f | f in old(producers) :: f in producers && producers[f] == old(producers)[f]
      requires unchanged(this`checked) && unchanged(this`finished) && unchanged(this`all) && unchanged(this`recorded)
      requires unchanged(this`ran)
      ensures Base() && Grows(old(Known()), Known())
    {
      StayVouched();
      forall j | j in finished ensures ClosedOn(j) {
        assert old(ClosedOn(j));
      }
    }

    method RegisterOutputs(job: Job) returns (conflict: Option<File>)
      requires ValidEnv(env, rank) && ProducersOk()
      requires job in env.jobs && Buildable(env, rank, env.input(job))
      modifies this`producers
      ensures ProducersOk()
      ensures forall f | f in old(producers) :: f in producers && producers[f] == old(producers)[f]
      ensures conflict.None? ==> forall f | f in env.outputs(job) :: f in producers && producers[f] == job
      ensures conflict.Some? ==>
        && conflict.value in env.outputs(job)
        && conflict.value in producers && producers[conflict.value] != job
    {
      conflict := None;
      var todo := env.outputs(job);
      while todo != {}
        invariant todo <= env.outputs(job)
        invariant ProducersOk()
        invariant forall f | f in old(producers) :: f in producers && producers[f] == old(producers)[f]
        invariant conflict.None? ==> forall f | f in env.outputs(job) - todo :: f in producers && producers[f] == job
        invariant conflict.Some? ==>
          && conflict.value in env.outputs(job)
          && conflict.value in producers && producers[conflict.value] != job
        decreases todo
      {
        var f :| f in todo;
        todo := todo - {f};
        if f !in producers {
          producers := producers[f := job];
        } else if producers[f] != job {
          conflict := Some(f);
        }
      }
    }

    method IsBuildable(file: File) returns (r: Result<bool, Error>)
      requires ValidEnv(env, rank) && ProducersOk()
      modifies this`producers
      ensures ProducersOk()
      ensures forall f | f in old(producers) :: f in producers && producers[f] == old(producers)[f]
      ensures r.Ok? ==> (r.value <==> Buildable(env, rank, file))
      ensures r.Err? ==> Clash(env, rank, r.error)
      decreases rank(file), 1
    {
      if env.isSrc(file) {
        return Ok(true);
      }
      var p := TryGetProducer(file);
      if p.Err? {
        return Err(p.error);
      }
      r := Ok(p.value.Some?);
    }

    /** The one job that makes the file: none for a source file or an unproducible one, an error when
        two buildable jobs claim it. */
    method TryGetProducer(file: File) returns (r: Result<Option<Job>, Error>)
      requires ValidEnv(env, rank) && ProducersOk()
      modifies this`producers
      ensures ProducersOk()
      ensures forall f | f in old(producers) :: f in producers && producers[f] == old(producers)[f]
      ensures r.Ok? ==> (r.value.Some? <==> !env.isSrc(file) && Buildable(env, rank, file))
      ensures r.Ok? && r.value.Some? ==> file in producers && producers[file] == r.value.value
      ensures r.Ok? && r.value.Some? && file !in old(producers) ==>
        forall j | j in env.producing(file) && Buildable(env, rank, env.input(j)) :: j == r.value.value
      ensures r.Err? ==> Clash(env, rank, r.error)
      decreases rank(file), 0
    {
      if env.isSrc(file) {
        return Ok(None);
      }
      if file in producers {
        return Ok(Some(producers[file]));
      }
      var found: Option<Job> := None;
      var candidates := env.producing(file);
      for i := 0 to |candidates|
        invariant ProducersOk()
        invariant forall f | f in old(producers) :: f in producers && producers[f] == old(producers)[f]
        invariant found.Some? ==> found.value in candidates[..i] && file in producers && producers[file] == found.value
        invariant found.Some? ==> Buildable(env, rank, env.input(found.value))
        invariant forall k | 0 <= k < i && Buildable(env, rank, env.input(candidates[k])) ::
                    found == Some(candidates[k])
      {
        var job := candidates[i];
        assert job in env.producing(file);
        var b := IsBuildable(env.input(job));
        if b.Err? {
          return Err(b.error);
        }
        if b.value {
          var conflict := RegisterOutputs(job);
          if conflict.Some? {
            assert Claimed(env, rank, conflict.value, producers[conflict.value], job);
            return Err(Conflict(conflict.value));
          }
          found := Some(job);
        }
      }
      r := Ok(found);
    }

    // ----- cache checking ---------------------------------------------------------------

    /** The file a recorded output path stands for. */
    ghost function Resolve(o: OutPath): Option<File>
      requires ValidEnv(env, rank)
    {
      if o.primary.None? || Buildable(env, rank, o.primary.value) then o.primary else Some(o.executable)
    }

    /** The output exists, is at least as new as everything it was made from, and was made by this job. */
    ghost predicate FreshOutput(w: World, job: Job, needs: seq<Option<File>>, out: Option<File>) {
      && out.Some?
      && w.present(out.value)
      && w.outSameJob(job, out.value)
      && w.outStamp(out.value).Some?
      && var stamp := w.outStamp(out.value).value;
      && w.configStamp <= stamp
      && w.cmdStamp(job) <= stamp
      && w.stamp(env.input(job)) <= stamp
      && NeedsBy(w, needs, stamp)
    }

    ghost function ConfigFiles(w: World, job: Job, needs: seq<Option<File>>, outs: seq<OutPath>): set<string>
      requires ValidEnv(env, rank)
    {
      w.envConfig + w.configOf(env.input(job)) + NeedConfigs(w, needs) + OutConfigs(w, outs)
    }

    /** The newest of a start time and the needs' times. */
    ghost function NewestOf(w: World, start: int, needs: seq<Option<File>>): int {
      if needs == [] then start
      else
        var rest := NewestOf(w, start, needs[..|needs| - 1]);
        var last := needs[|needs| - 1];
        if last.Some? then Newest(rest, w.stamp(last.value)) else rest
    }

    /** The newest time is at most x exactly when every time is. */
    lemma NewestIsMax(w: World, start: int, needs: seq<Option<File>>, x: int)
      ensures NewestOf(w, start, needs) <= x <==> start <= x && NeedsBy(w, needs, x)
    {
      if needs != [] {
        NewestIsMax(w, start, needs[..|needs| - 1], x);
        assert forall i | 0 <= i < |needs| - 1 :: needs[i] == needs[..|needs| - 1][i];
      }
    }

    ghost predicate NeedsBy(w: World, needs: seq<Option<File>>, x: int) {
      forall i | 0 <= i < |needs| && needs[i].Some? :: w.stamp(needs[i].value) <= x
    }

    ghost function NeedConfigs(w: World, needs: seq<Option<File>>): set<string> {
      set n, c | n in needs && n.Some? && c in w.configOf(n.value) :: c
    }

    ghost function OutConfigs(w: World, outs: seq<OutPath>): set<string>
      requires ValidEnv(env, rank)
    {
      set o, c | o in outs && Resolve(o).Some? && c in w.configOf(Resolve(o).value) :: c
    }

    lemma NeedConfigsStep(w: World, needs: seq<Option<File>>, i: nat)
      requires i < |needs| && needs[i].Some?
      ensures NeedConfigs(w, needs[..i + 1]) == NeedConfigs(w, needs[..i]) + w.configOf(needs[i].value)
    {
      assert needs[..i + 1] == needs[..i] + [needs[i]];
      forall c | c in w.configOf(needs[i].value) ensures c in NeedConfigs(w, needs[..i + 1]) {
        assert needs[i] in needs[..i + 1];
      }
      forall c | c in NeedConfigs(w, needs[..i]) ensures c in NeedConfigs(w, needs[..i + 1]) {
        var n :| n in needs[..i] && n.Some? && c in w.configOf(n.value);
        assert n in needs[..i + 1];
      }
    }

    lemma OutConfigsNone(w: World)
      requires ValidEnv(env, rank)
      ensures OutConfigs(w, []) == {}
    {
    }

    lemma OutConfigsStep(w: World, outs: seq<OutPath>, i: nat)
      requires ValidEnv(env, rank)
      requires i < |outs| && Resolve(outs[i]).Some?
      ensures OutConfigs(w, outs[..i + 1]) == OutConfigs(w, outs[..i]) + w.configOf(Resolve(outs[i]).value)
    {
      assert outs[..i + 1] == outs[..i] + [outs[i]];
      forall c | c in w.configOf(Resolve(outs[i]).value) ensures c in OutConfigs(w, outs[..i + 1]) {
        assert outs[i] in outs[..i + 1];
      }
      forall c | c in OutConfigs(w, outs[..i]) ensures c in OutConfigs(w, outs[..i + 1]) {
        var o :| o in outs[..i] && Resolve(o).Some? && c in w.configOf(Resolve(o).value);
        assert o in outs[..i + 1];
      }
    }

    ghost predicate NeedsSettled(needs: seq<Option<File>>)
      reads this`producers, this`finished
    {
      forall i | 0 <= i < |needs| :: needs[i].Some? && Settled(needs[i].value)
    }

    lemma NeedsSettledStep(needs: seq<Option<File>>, i: nat)
      requires i < |needs| && NeedsSettled(needs[..i]) && needs[i].Some? && Settled(needs[i].value)
      ensures NeedsSettled(needs[..i + 1])
    {
      assert forall k | 0 <= k < i :: needs[..i + 1][k] == needs[..i][k];
    }

    lemma NotSettledAt(needs: seq<Option<File>>, i: nat)
      requires i < |needs| && (needs[i].Some? ==> !Settled(needs[i].value))
      ensures !NeedsSettled(needs)
    {
    }

    /** Settled files stay settled. */
    twostate lemma StaySettled(needs: seq<Option<File>>)
      requires Grows(old(Known()), Known()) && old(NeedsSettled(needs))
      ensures NeedsSettled(needs)
    {
    }

    /** The time the job's command, its input and the configuration set. */
    function InputStamp(w: World, job: Job): int {
      Newest(w.cmdStamp(job), Newest(w.configStamp, w.stamp(env.input(job))))
    }

    /** The job's outputs are as good as a rebuild would make them. */
    ghost predicate CacheGood(w: World, job: Job)
      reads this`producers, this`finished
      requires ValidEnv(env, rank)
    {
      && Settled(env.input(job))
      && (env.isSrc(env.input(job)) || w.configStamp <= w.stamp(env.input(job)))
      && w.cache(job).Some?
      && w.cache(job).value.sameJob
      && w.cache(job).value.needs.Some?
      && RecordGood(w, job, w.cache(job).value)
    }

    ghost predicate RecordGood(w: World, job: Job, rec: Record)
      reads this`producers, this`finished
      requires ValidEnv(env, rank) && rec.needs.Some?
    {
      NeedsSettled(rec.needs.value) && ListedGood(w, job, rec)
    }

    ghost predicate ListedGood(w: World, job: Job, rec: Record)
      requires ValidEnv(env, rank) && rec.needs.Some?
    {
      && rec.antiNeeds.Some?
      && (forall i | 0 <= i < |rec.antiNeeds.value| && rec.antiNeeds.value[i].Some? ::
            !Buildable(env, rank, rec.antiNeeds.value[i].value))
      && rec.outputs.Some?
      && (env.unknownOutputs(job) || |rec.outputs.value| == |env.outputs(job)|)
      && (forall i | 0 <= i < |rec.outputs.value| ::
            FreshOutput(w, job, rec.needs.value, Resolve(rec.outputs.value[i])))
      && rec.configFiles == Some(ConfigFiles(w, job, rec.needs.value, rec.outputs.value))
    }

    /** The time of what the k-th output is made from. */
    ghost function OriginStamp(w: World, job: Job, rec: Record, o: Origin): Option<int> {
      match o
      case TheConfig => Some(w.configStamp)
      case TheCommand => Some(w.cmdStamp(job))
      case TheInput => Some(w.stamp(env.input(job)))
      case ANeed(i) =>
        if rec.needs.Some? && i < |rec.needs.value| && rec.needs.value[i].Some? then
          Some(w.stamp(rec.needs.value[i].value))
        else None
    }

    /** The configuration file belongs to the environment, the input, a need or an output. */
    ghost predicate Configures(w: World, job: Job, rec: Record, c: string)
      requires ValidEnv(env, rank)
    {
      || c in w.envConfig || c in w.configOf(env.input(job))
      || (rec.needs.Some? && exists n | n in rec.needs.value :: n.Some? && c in w.configOf(n.value))
      || (rec.outputs.Some?
          && exists o | o in rec.outputs.value :: Resolve(o).Some? && c in w.configOf(Resolve(o).value))
    }

    ghost predicate IsStale(w: World, job: Job, why: Stale)
      reads this`producers, this`finished
      requires ValidEnv(env, rank)
    {
      match why
      case InputOpen => !Settled(env.input(job))
      case InputOlder => !env.isSrc(env.input(job)) && w.stamp(env.input(job)) < w.configStamp
      case NoRecord => w.cache(job).None?
      case _ => w.cache(job).Some? && RecordStale(w, job, w.cache(job).value, why)
    }

    ghost predicate RecordStale(w: World, job: Job, rec: Record, why: Stale)
      reads this`producers, this`finished
      requires ValidEnv(env, rank)
    {
      match why
      case OtherRecord => !rec.sameJob
      case KeyMissing => rec.needs.None? || rec.antiNeeds.None? || rec.outputs.None? || rec.configFiles.None?
      case NeedGone(i) => rec.needs.Some? && i < |rec.needs.value| && rec.needs.value[i].None?
      case NeedOpen(i) =>
        rec.needs.Some? && i < |rec.needs.value| && rec.needs.value[i].Some? && !Settled(rec.needs.value[i].value)
      case NowBuildable(i) =>
        && rec.antiNeeds.Some? && i < |rec.antiNeeds.value| && rec.antiNeeds.value[i].Some?
        && Buildable(env, rank, rec.antiNeeds.value[i].value)
      case OutputsDiffer =>
        rec.outputs.Some? && !env.unknownOutputs(job) && |rec.outputs.value| != |env.outputs(job)|
      case ConfigsDiffer(c) =>
        rec.configFiles.Some? && (c in rec.configFiles.value <==> !Configures(w, job, rec, c))
      case _ => OutputStale(w, job, rec, why)
    }

    ghost predicate OutputStale(w: World, job: Job, rec: Record, why: Stale)
      requires ValidEnv(env, rank)
    {
      && (why.NoOutput? || why.OutputGone? || why.OutputOfOther? || why.OutputOlder?)
      && rec.outputs.Some? && why.k < |rec.outputs.value|
      && var out := Resolve(rec.outputs.value[why.k]);
         match why
         case OutputGone(_) => out.Some? && (!w.present(out.value) || w.outStamp(out.value).None?)
         case OutputOfOther(_) => out.Some? && !w.outSameJob(job, out.value)
         case OutputOlder(_, o) =>
           && out.Some? && w.outStamp(out.value).Some? && OriginStamp(w, job, rec, o).Some?
           && OriginStamp(w, job, rec, o).value > w.outStamp(out.value).value
         case _ => out.None?
    }

    lemma OutputsIff(w: World, job: Job, rec: Record)
      requires ValidEnv(env, rank) && rec.needs.Some? && rec.outputs.Some?
      ensures (forall k | 0 <= k < |rec.outputs.value| ::
                 FreshOutput(w, job, rec.needs.value, Resolve(rec.outputs.value[k])))
              <==> forall why :: !OutputStale(w, job, rec, why)
    {
      hide Resolve;
      if forall why :: !OutputStale(w, job, rec, why) {
        forall k | 0 <= k < |rec.outputs.value|
          ensures FreshOutput(w, job, rec.needs.value, Resolve(rec.outputs.value[k]))
        {
          assert !OutputStale(w, job, rec, NoOutput(k)) && !OutputStale(w, job, rec, OutputGone(k));
          assert !OutputStale(w, job, rec, OutputOfOther(k)) && !OutputStale(w, job, rec, OutputOlder(k, TheConfig));
          assert !OutputStale(w, job, rec, OutputOlder(k, TheCommand));
          assert !OutputStale(w, job, rec, OutputOlder(k, TheInput));
          var out := Resolve(rec.outputs.value[k]).value;
          forall i | 0 <= i < |rec.needs.value| && rec.needs.value[i].Some?
            ensures w.stamp(rec.needs.value[i].value) <= w.outStamp(out).value
          {
            assert !OutputStale(w, job, rec, OutputOlder(k, ANeed(i)));
          }
        }
      }
    }

    lemma ConfigsIff(w: World, job: Job, rec: Record)
      requires ValidEnv(env, rank) && rec.needs.Some? && rec.outputs.Some? && rec.configFiles.Some?
      ensures rec.configFiles.value == ConfigFiles(w, job, rec.needs.value, rec.outputs.value)
              <==> forall c :: c in rec.configFiles.value <==> Configures(w, job, rec, c)
    {
      hide Resolve;
      assert forall c :: c in ConfigFiles(w, job, rec.needs.value, rec.outputs.value) <==> Configures(w, job, rec, c);
    }

    lemma ListedIff(w: World, job: Job, rec: Record)
      requires ValidEnv(env, rank) && rec.needs.Some?
      ensures RecordGood(w, job, rec) && rec.sameJob <==> forall why :: !RecordStale(w, job, rec, why)
    {
      hide FreshOutput, Resolve, ConfigFiles, Configures, OutputStale, Settled, Buildable;
      if forall why :: !RecordStale(w, job, rec, why) {
        assert !RecordStale(w, job, rec, KeyMissing) && !RecordStale(w, job, rec, OtherRecord);
        assert !RecordStale(w, job, rec, OutputsDiffer);
        forall i | 0 <= i < |rec.needs.value| ensures rec.needs.value[i].Some? && Settled(rec.needs.value[i].value) {
          assert !RecordStale(w, job, rec, NeedGone(i)) && !RecordStale(w, job, rec, NeedOpen(i));
        }
        forall i | 0 <= i < |rec.antiNeeds.value| && rec.antiNeeds.value[i].Some?
          ensures !Buildable(env, rank, rec.antiNeeds.value[i].value)
        {
          assert !RecordStale(w, job, rec, NowBuildable(i));
        }
        forall c ensures c in rec.configFiles.value <==> Configures(w, job, rec, c) {
          assert !RecordStale(w, job, rec, ConfigsDiffer(c));
        }
        OutputsOnly(w, job, rec);
        OutputsIff(w, job, rec);
        ConfigsIff(w, job, rec);
      } else if RecordGood(w, job, rec) && rec.sameJob {
        OutputsIff(w, job, rec);
        ConfigsIff(w, job, rec);
      }
    }

    lemma OutputsOnly(w: World, job: Job, rec: Record)
      requires ValidEnv(env, rank) && forall why :: !RecordStale(w, job, rec, why)
      ensures forall why :: !OutputStale(w, job, rec, why)
    {
      forall why ensures !OutputStale(w, job, rec, why) {
        assert !RecordStale(w, job, rec, why);
      }
    }

    /** The cache vouches for a job exactly if there is no reason to run it. */
    lemma CacheGoodIff(w: World, job: Job)
      requires ValidEnv(env, rank)
      ensures CacheGood(w, job) <==> forall why :: !IsStale(w, job, why)
    {
      hide RecordGood, RecordStale, Settled;
      if forall why :: !IsStale(w, job, why) {
        assert !IsStale(w, job, InputOpen) && !IsStale(w, job, InputOlder) && !IsStale(w, job, NoRecord);
      }
      if w.cache(job).Some? {
        var rec := w.cache(job).value;
        RecordOnly(w, job, rec);
        if rec.needs.Some? {
          ListedIff(w, job, rec);
        }
      }
    }

    lemma RecordOnly(w: World, job: Job, rec: Record)
      requires ValidEnv(env, rank) && w.cache(job) == Some(rec)
      ensures (forall why :: !IsStale(w, job, why)) ==>
                (forall why :: !RecordStale(w, job, rec, why)) && rec.needs.Some?
      ensures (forall why :: !RecordStale(w, job, rec, why)) ==>
                forall why: Stale | !why.InputOpen? && !why.InputOlder? && !why.NoRecord? :: !IsStale(w, job, why)
    {
      if forall why :: !IsStale(w, job, why) {
        forall why ensures !RecordStale(w, job, rec, why) {
          assert !IsStale(w, job, why);
        }
        assert !RecordStale(w, job, rec, KeyMissing);
      }
    }

    ghost function RecordedNeeds(w: World, job: Job): set<File> {
      if w.cache(job).Some? && w.cache(job).value.needs.Some? then
        set n | n in w.cache(job).value.needs.value && n.Some? :: n.value
      else {}
    }

    method IsFileDone(file: File, w: World) returns (r: Result<bool, Error>)
      requires w in worlds
      requires Base()
      modifies this`producers, this`checked, this`finished, this`all, this`recorded
      ensures Base() && Grows(old(Known()), Known())
      ensures r.Ok? ==> (r.value <==> Settled(file))
      ensures r.Err? ==> Clash(env, rank, r.error)
      decreases env.jobs - checked, 3
    {
      if env.isSrc(file) {
        return Ok(true);
      }
      var p := TryGetProducer(file);
      if p.Err? {
        return Err(p.error);
      }
      if p.value.Some? {
        r := IsDone(p.value.value, w);
      } else {
        r := Ok(false);
      }
    }

    /** Tries to complete the job from the cache, the first time it is asked about it. */
    method IsDone(job: Job, w: World) returns (r: Result<bool, Error>)
      requires w in worlds
      requires Base() && job in env.jobs
      modifies this`producers, this`checked, this`finished, this`all, this`recorded
      ensures Base() && Grows(old(Known()), Known())
      ensures r.Ok? ==> job in checked && (r.value <==> job in finished)
      ensures r.Ok? && job !in old(checked) ==> (r.value <==> CacheGood(w, job))
      ensures job in old(checked) ==> unchanged(this`checked) && unchanged(this`finished) && unchanged(this`producers)
      ensures r.Err? ==> Clash(env, rank, r.error)
      decreases env.jobs - checked, 2
    {
      if job !in checked {
        var c := Check(job, w);
        if c.Err? {
          return Err(c.error);
        }
        if c.value {
          ghost var mid := Known();
          FinishCached(job, w);
          GrowsByOne(old(Known()), mid, Known(), job);
        }
      }
      r := Ok(job in finished);
    }

    method FinishCached(job: Job, w: World)
      requires Base() && w in worlds && job in checked && job !in finished && CacheGood(w, job)
      modifies this`finished, this`all, this`recorded
      ensures Base() && finished == old(finished) + {job} && all == old(all) + {job}
      ensures recorded == old(recorded)[job := RecordedNeeds(w, job)] && CacheGood(w, job)
    {
      assert Buildable(env, rank, env.input(job));
      finished := finished + {job};
      all := all + {job};
      recorded := recorded[job := RecordedNeeds(w, job)];
      StayVouched();
      assert CacheGood(w, job);
      hide ListedGood, Buildable;
      forall j | j in finished ensures ClosedOn(j) {
        assert j != job ==> old(ClosedOn(j));
      }
    }

    /** Does the cache vouch for the job?  Looks at each job at most once. */
    method Check(job: Job, w: World) returns (r: Result<bool, Error>)
      requires w in worlds
      requires Base() && job in env.jobs && job !in checked
      modifies this`producers, this`checked, this`finished, this`all, this`recorded
      ensures Base() && Grows(old(Known()), Known())
      ensures job in checked && job !in finished
      ensures r.Ok? ==> (r.value <==> CacheGood(w, job))
      ensures r.Err? ==> Clash(env, rank, r.error)
      decreases env.jobs - checked, 1
    {
      hide RecordGood, ClosedOn, Vouched, ProducersOk, Buildable, Clash;
      checked := checked + {job};
      var input := env.input(job);
      var inDone := IsFileDone(input, w);
      if inDone.Err? {
        return Err(inDone.error);
      }
      if !inDone.value {
        return Ok(false);
      }
      var current := w.envConfig + w.configOf(input);
      var inStamp := w.stamp(input);
      if env.isSrc(input) {
        inStamp := Newest(w.configStamp, inStamp);
      } else if w.configStamp > inStamp {
        return Ok(false);
      }
      inStamp := Newest(w.cmdStamp(job), inStamp);
      if w.cache(job).None? {
        return Ok(false);
      }
      var rec := w.cache(job).value;
      if !rec.sameJob || rec.needs.None? {
        return Ok(false);
      }
      ghost var mid := Known();
      label before:
      r := CheckRecord(job, rec, inStamp, current, w);
      GrowsTwice(old(Known()), mid, Known());
      StaySettled@before([Some(input)]);
    }

    /** The second half of Check: everything the cache file itself lists. */
    method CheckRecord(job: Job, rec: Record, inStamp: int, current: set<string>, w: World)
      returns (r: Result<bool, Error>)
      requires w in worlds
      requires Base() && rec.needs.Some?
      requires inStamp == InputStamp(w, job) && current == w.envConfig + w.configOf(env.input(job))
      modifies this`producers, this`checked, this`finished, this`all, this`recorded
      ensures Base() && Grows(old(Known()), Known())
      ensures r.Ok? ==> (r.value <==> RecordGood(w, job, rec))
      ensures r.Err? ==> Clash(env, rank, r.error)
      decreases env.jobs - checked, 5
    {
      var needs := CheckNeeds(rec.needs.value, inStamp, current, w);
      if needs.Err? {
        return Err(needs.error);
      }
      if needs.value.None? {
        return Ok(false);
      }
      ghost var mid := Known();
      label before:
      r := CheckListed(job, rec, needs.value.value.0, needs.value.value.1, w);
      GrowsTwice(old(Known()), mid, Known());
      StaySettled@before(rec.needs.value);
    }

    method CheckListed(job: Job, rec: Record, inStamp: int, current: set<string>, w: World)
      returns (r: Result<bool, Error>)
      requires Base() && rec.needs.Some?
      requires inStamp == NewestOf(w, InputStamp(w, job), rec.needs.value)
      requires current == w.envConfig + w.configOf(env.input(job)) + NeedConfigs(w, rec.needs.value)
      modifies this`producers
      ensures Base() && Grows(old(Known()), Known())
      ensures r.Ok? ==> (r.value <==> ListedGood(w, job, rec))
      ensures r.Err? ==> Clash(env, rank, r.error)
    {
      if rec.antiNeeds.None? {
        return Ok(false);
      }
      var anti := CheckAntiNeeds(rec.antiNeeds.value);
      if anti.Err? {
        return Err(anti.error);
      }
      if !anti.value || rec.outputs.None? {
        return Ok(false);
      }
      if !env.unknownOutputs(job) && |rec.outputs.value| != |env.outputs(job)| {
        return Ok(false);
      }
      var outs := CheckOutputs(job, rec.outputs.value, rec.needs.value, inStamp, current, w);
      if outs.Err? {
        return Err(outs.error);
      }
      r := Ok(outs.value.Some? && rec.configFiles == outs.value);
    }

    method CheckNeeds(needs: seq<Option<File>>, inStamp: int, current: set<string>, w: World)
      returns (r: Result<Option<(int, set<string>)>, Error>)
      requires w in worlds
      requires Base()
      modifies this`producers, this`checked, this`finished, this`all, this`recorded
      ensures Base() && Grows(old(Known()), Known())
      ensures r.Ok? ==> (r.value.Some? <==> NeedsSettled(needs))
      ensures r.Ok? && r.value.Some? ==>
        && r.value.value.0 == NewestOf(w, inStamp, needs)
        && r.value.value.1 == current + NeedConfigs(w, needs)
      ensures r.Err? ==> Clash(env, rank, r.error)
      decreases env.jobs - checked, 4
    {
      assert NeedsSettled([]);
      hide Base, NeedsSettled, Settled;
      var stamp, configs := inStamp, current;
      for i := 0 to |needs|
        invariant Base() && Grows(old(Known()), Known())
        invariant NeedsSettled(needs[..i])
        invariant stamp == NewestOf(w, inStamp, needs[..i])
        invariant configs == current + NeedConfigs(w, needs[..i])
      {
        if needs[i].None? {
          NotSettledAt(needs, i);
          return Ok(None);
        }
        ghost var mid := Known();
        label before:
        var done := IsFileDone(needs[i].value, w);
        GrowsTwice(old(Known()), mid, Known());
        StaySettled@before(needs[..i]);
        if done.Err? {
          return Err(done.error);
        }
        if !done.value {
          NotSettledAt(needs, i);
          return Ok(None);
        }
        NeedConfigsStep(w, needs, i);
        NeedsSettledStep(needs, i);
        assert needs[..i + 1][..i] == needs[..i];
        stamp := Newest(stamp, w.stamp(needs[i].value));
        configs := configs + w.configOf(needs[i].value);
      }
      assert needs[..|needs|] == needs;
      r := Ok(Some((stamp, configs)));
    }

    method CheckAntiNeeds(antiNeeds: seq<Option<File>>) returns (r: Result<bool, Error>)
      requires Base()
      modifies this`producers
      ensures Base() && Grows(old(Known()), Known())
      ensures r.Ok? ==>
        (r.value <==>
          forall i | 0 <= i < |antiNeeds| && antiNeeds[i].Some? :: !Buildable(env, rank, antiNeeds[i].value))
      ensures r.Err? ==> Clash(env, rank, r.error)
    {
      for i := 0 to |antiNeeds|
        invariant ProducersOk()
        invariant forall f | f in old(producers) :: f in producers && producers[f] == old(producers)[f]
        invariant forall k | 0 <= k < i && antiNeeds[k].Some? :: !Buildable(env, rank, antiNeeds[k].value)
      {
        if antiNeeds[i].Some? {
          var b := IsBuildable(antiNeeds[i].value);
          if b.Err? {
            BaseStays();
            return Err(b.error);
          }
          if b.value {
            BaseStays();
            return Ok(false);
          }
        }
      }
      BaseStays();
      r := Ok(true);
    }

    method CheckOutputs(job: Job, outs: seq<OutPath>, ghost needs: seq<Option<File>>, inStamp: int,
                        current: set<string>, w: World)
      returns (r: Result<Option<set<string>>, Error>)
      requires Base()
      requires inStamp == NewestOf(w, InputStamp(w, job), needs)
      modifies this`producers
      ensures Base() && Grows(old(Known()), Known())
      ensures r.Ok? ==>
        (r.value.Some? <==> forall i | 0 <= i < |outs| :: FreshOutput(w, job, needs, Resolve(outs[i])))
      ensures r.Ok? && r.value.Some? ==> r.value.value == current + OutConfigs(w, outs)
      ensures r.Err? ==> Clash(env, rank, r.error)
    {
      hide ClosedOn, Vouched, NewestOf, OutConfigs;
      var configs := current;
      OutConfigsNone(w);
      for i := 0 to |outs|
        invariant ProducersOk()
        invariant forall f | f in old(producers) :: f in producers && producers[f] == old(producers)[f]
        invariant forall k | 0 <= k < i :: FreshOutput(w, job, needs, Resolve(outs[k]))
        invariant configs == current + OutConfigs(w, outs[..i])
      {
        if outs[i].primary.None? {
          BaseStays();
          return Ok(None);
        }
        var b := IsBuildable(outs[i].primary.value);
        if b.Err? {
          BaseStays();
          return Err(b.error);
        }
        var out := if b.value then outs[i].primary.value else outs[i].executable;
        assert Resolve(outs[i]) == Some(out);
        if w.outStamp(out).Some? {
          NewestIsMax(w, InputStamp(w, job), needs, w.outStamp(out).value);
        }
        if !w.present(out) || IsNewer(inStamp, w.outStamp(out)) || !w.outSameJob(job, out) {
          BaseStays();
          return Ok(None);
        }
        OutConfigsStep(w, outs, i);
        configs := configs + w.configOf(out);
      }
      assert outs[..|outs|] == outs;
      BaseStays();
      r := Ok(Some(configs));
    }

    // ----- scheduling -------------------------------------------------------------------

    /** Every job ever queued is in exactly one place, and in Ready at most once. */
    ghost predicate Partition(limbo: set<Job>)
      reads this`ready, this`waiting, this`running, this`finished, this`failed, this`all
    {
      && NoDup(ready)
      && all == Elems(ready) + waiting.Keys + running + finished + failed + limbo
      && Elems(ready) !! waiting.Keys !! running !! finished !! failed !! limbo
    }

    /** The invariant of every run; limbo holds the job a step has in its hands. */
    ghost predicate Inv(limbo: set<Job>)
      reads this
    {
      && Base()
      && Partition(limbo)
      && all - limbo <= checked
      && all <= env.jobs
      && (forall c | c in waiting :: waiting[c] > 0 && waiting[c] == Consumers(toFinish)[c])
      && (forall e | e in toFinish :: EntryOk(e, limbo))
      && (forall j | j in running :: ClosedOn(j))
    }

    /** An entry's producer is unfinished, its consumer waits for it, and the rank, if any, descends. */
    ghost predicate EntryOk(e: (Job, Job), limbo: set<Job>)
      reads this`all, this`checked, this`finished, this`waiting
    {
      && e.0 in all && e.0 in checked && e.0 !in finished
      && e.1 in checked && e.1 in waiting.Keys + limbo
      && (jobRank.Some? ==> jobRank.value(e.0) < jobRank.value(e.1))
    }

    /** Nothing a cache check learns breaks the invariant. */
    twostate lemma InvStays(limbo: set<Job>)
      requires old(Inv(limbo)) && Base() && Grows(old(Known()), Known())
      requires unchanged(this`ready) && unchanged(this`toFinish) && unchanged(this`waiting)
      requires unchanged(this`running) && unchanged(this`failed)
      ensures Inv(limbo - finished)
    {
      assert forall j | j in finished - old(finished) :: j !in old(checked);
      assert forall e | e in toFinish :: old(EntryOk(e, limbo));
      forall j | j in running ensures ClosedOn(j) {
        assert old(ClosedOn(j));
      }
    }

    lemma InvIsBase(limbo: set<Job>)
      requires Inv(limbo)
      ensures Base()
    {
    }

    lemma LimboFacts(limbo: set<Job>)
      requires Inv(limbo)
      ensures ValidEnv(env, rank) && limbo <= all && limbo !! finished && finished <= checked
      ensures forall j | j in all :: Buildable(env, rank, env.input(j))
    {
    }

    /** No entry makes the job wait. */
    ghost predicate Unwaiting(job: Job)
      reads this`toFinish
    {
      forall e | e in toFinish :: e.1 != job
    }

    method AddToAll(job: Job, ghost limbo: set<Job>)
      requires Inv(limbo) && job in env.jobs && job !in all && Buildable(env, rank, env.input(job))
      modifies this`all
      ensures all == old(all) + {job} && Inv(limbo + {job}) && Unwaiting(job)
    {
      assert forall e | e in toFinish :: EntryOk(e, limbo) && e.1 != job;
      all := all + {job};
      assert forall e | e in toFinish :: old(EntryOk(e, limbo));
    }

    method PushReady(job: Job, ghost limbo: set<Job>)
      requires Inv(limbo + {job}) && job !in limbo && job in checked
      requires Unwaiting(job)
      modifies this`ready
      ensures ready == old(ready) + [job] && Inv(limbo)
    {
      hide Base, ClosedOn;
      ready := ready + [job];
    }

    /** Queues a job unless it is done; true when it still needs to run. */
    method Queue(job: Job, w: World, ghost limbo: set<Job>) returns (r: Result<bool, Error>)
      requires w in worlds
      requires Inv(limbo) && limbo <= checked && job in env.jobs && Buildable(env, rank, env.input(job))
      modifies this`producers, this`checked, this`finished, this`all, this`recorded, this`ready
      ensures r.Ok? ==> Inv(limbo) && Keeps(old(Known()), Known())
      ensures r.Ok? ==> job in all && job in checked && (r.value <==> job !in finished)
      ensures r.Err? ==> Clash(env, rank, r.error)
    {
      hide Inv, Keeps, Clash, Buildable;
      if job in all {
        r := QueueKnown(job, w, limbo);
      } else {
        r := QueueNew(job, w, limbo);
      }
    }

    method QueueKnown(job: Job, w: World, ghost limbo: set<Job>) returns (r: Result<bool, Error>)
      requires w in worlds
      requires Inv(limbo) && limbo <= checked && job in all
      modifies this`producers, this`checked, this`finished, this`all, this`recorded
      ensures r.Ok? ==> Inv(limbo) && Keeps(old(Known()), Known())
      ensures r.Ok? ==> job in all && job in checked && (r.value <==> job !in finished)
      ensures r.Err? ==> Clash(env, rank, r.error)
    {
      hide ProducersOk, ValidEnv, EntryOk, ClosedOn, Clash;
      var d := IsDone(job, w);
      InvStays(limbo);
      assert limbo - finished == limbo;
      r := if d.Ok? then Ok(!d.value) else Err(d.error);
    }

    method QueueNew(job: Job, w: World, ghost limbo: set<Job>) returns (r: Result<bool, Error>)
      requires w in worlds
      requires Inv(limbo) && limbo <= checked && job in env.jobs && job !in all && Buildable(env, rank, env.input(job))
      modifies this`producers, this`checked, this`finished, this`all, this`recorded, this`ready
      ensures r.Ok? ==> Inv(limbo) && Keeps(old(Known()), Known())
      ensures r.Ok? ==> job in all && job in checked && (r.value <==> job !in finished)
      ensures r.Err? ==> Clash(env, rank, r.error)
    {
      hide Inv, Base, Clash, Grows, Keeps, Unwaiting;
      LimboFacts(limbo);
      AddToAll(job, limbo);
      InvIsBase(limbo + {job});
      label added:
      ghost var mid := Known();
      var d := IsDone(job, w);
      if d.Err? {
        return Err(d.error);
      }
      InvStays@added(limbo + {job});
      KeepsAdded(old(Known()), mid, Known(), job);
      NotFinishedNow(mid, Known(), limbo);
      assert (limbo + {job}) - finished == if d.value then limbo else limbo + {job};
      if !d.value {
        PushReady(job, limbo);
      }
      r := Ok(!d.value);
    }

    ghost predicate AllSettled(files: set<File>)
      reads this`producers, this`finished
    {
      forall f | f in files :: Settled(f)
    }

    lemma OneSettled(f: File)
      requires AllSettled({f})
      ensures Settled(f)
    {
    }

    twostate lemma StayAllSettled(files: set<File>)
      requires Keeps(old(Known()), Known()) && old(AllSettled(files))
      ensures AllSettled(files)
    {
    }

    /** In an acyclic build the file's producers rank below the consumer. */
    ghost predicate Descends(file: File, consumer: Job) {
      jobRank.Some? ==>
        forall p | p in env.jobs && file in env.outputs(p) :: jobRank.value(p) < jobRank.value(consumer)
    }

    /** The file is source, or the job that makes it is among those to be done. */
    ghost predicate Asked(file: File)
      reads this`producers, this`all
    {
      env.isSrc(file) || (file in producers && producers[file] in all)
    }

    /** Sees to it that the file gets made; true when its producer still has to finish, and then the
        consumer, if any, is entered as waiting for that producer. */
    method AddNeededFile(file: File, consumer: Option<Job>, w: World, ghost limbo: set<Job>)
      returns (r: Result<bool, Error>)
      requires w in worlds
      requires Inv(limbo) && limbo <= checked
      requires consumer.Some? ==> consumer.value in limbo && Descends(file, consumer.value)
      modifies this`producers, this`checked, this`finished, this`all, this`recorded, this`ready, this`toFinish
      ensures r.Ok? ==> Inv(limbo) && Keeps(old(Known()), Known())
      ensures r.Ok? ==> (r.value <==> !Settled(file))
      ensures r.Ok? && r.value && consumer.Some? ==>
        file in producers && toFinish == old(toFinish) + [(producers[file], consumer.value)]
      ensures r.Ok? && !(r.value && consumer.Some?) ==> toFinish == old(toFinish)
      ensures r.Ok? ==> Buildable(env, rank, file) && Asked(file)
      ensures r.Err? ==> Justified(env, rank, {file}, r.error)
    {
      hide EntryOk, ClosedOn, Vouched, Partition, Consumers;
      LimboFacts(limbo);
      if env.isSrc(file) {
        return Ok(false);
      }
      label start:
      var p := TryGetProducer(file);
      if p.Err? {
        return Err(p.error);
      }
      if p.value.None? {
        return Err(Unproducible(file));
      }
      BaseStays();
      InvStays(limbo);
      assert limbo - finished == limbo;
      var producer := p.value.value;
      r := Queue(producer, w, limbo);
      if r.Ok? && r.value && consumer.Some? {
        Enter(producer, consumer.value, limbo);
      }
    }

    method Enter(producer: Job, consumer: Job, ghost limbo: set<Job>)
      requires Inv(limbo) && consumer in limbo && consumer in checked
      requires producer in all && producer in checked && producer !in finished
      requires jobRank.Some? ==> jobRank.value(producer) < jobRank.value(consumer)
      modifies this`toFinish
      ensures toFinish == old(toFinish) + [(producer, consumer)] && Inv(limbo)
    {
      hide Base, ClosedOn;
      assert forall e | e in toFinish :: EntryOk(e, limbo);
      toFinish := toFinish + [(producer, consumer)];
      assert toFinish[..|toFinish| - 1] == old(toFinish);
    }

    /** One need: 1 if its producer still has to finish, and the job is entered for it. */
    method CountNeed(job: Job, f: File, ghost needs: set<File>, w: World) returns (r: Result<nat, Error>)
      requires w in worlds
      requires Inv({job}) && job in checked && Descends(f, job) && f in needs
      modifies this`producers, this`checked, this`finished, this`all, this`recorded, this`ready, this`toFinish
      ensures r.Ok? ==> Inv({job}) && job in checked && Keeps(old(Known()), Known())
      ensures r.Ok? ==> Consumers(toFinish)[job] == old(Consumers(toFinish)[job]) + r.value
      ensures r.Ok? && r.value == 0 ==> Settled(f)
      ensures r.Err? ==> Justified(env, rank, needs, r.error)
    {
      var b := AddNeededFile(f, Some(job), w, {job});
      if b.Err? {
        return Err(b.error);
      }
      if b.value {
        assert toFinish[..|toFinish| - 1] == old(toFinish);
      }
      r := Ok(if b.value then 1 else 0);
    }

    /** Counts the producers that the job's needs still wait for, entering the job for each. */
    method CountNeeds(job: Job, needs: set<File>, w: World) returns (r: Result<nat, Error>)
      requires w in worlds
      requires Inv({job}) && job in checked
      requires forall f | f in needs :: Descends(f, job)
      modifies this`producers, this`checked, this`finished, this`all, this`recorded, this`ready, this`toFinish
      ensures r.Ok? ==> Inv({job}) && job in checked && Keeps(old(Known()), Known())
      ensures r.Ok? ==> Consumers(toFinish)[job] == old(Consumers(toFinish)[job]) + r.value
      ensures r.Ok? && r.value == 0 ==> AllSettled(needs)
      ensures r.Err? ==> Justified(env, rank, needs, r.error)
    {
      KeepsSelf(Known());
      hide Inv, Base, Keeps, Justified, Descends, Settled, Consumers, Known;
      var needed: nat := 0;
      var todo := needs;
      while todo != {}
        invariant todo <= needs
        invariant Inv({job}) && job in checked && Keeps(old(Known()), Known())
        invariant Consumers(toFinish)[job] == old(Consumers(toFinish)[job]) + needed
        invariant needed == 0 ==> AllSettled(needs - todo)
        decreases todo
      {
        var f :| f in todo;
        ghost var mid, done := Known(), needs - todo;
        label before:
        var b := CountNeed(job, f, needs, w);
        if b.Err? {
          return Err(b.error);
        }
        KeepsTwice(old(Known()), mid, Known());
        if needed == 0 {
          StayAllSettled@before(done);
        }
        todo := todo - {f};
        needed := needed + b.value;
        assert needs - todo == done + {f};
      }
      assert needs - todo == needs;
      r := Ok(needed);
    }

    method StartWaiting(job: Job, needed: nat)
      requires Inv({job}) && job in checked && needed == Consumers(toFinish)[job] && needed > 0
      modifies this`waiting
      ensures waiting == old(waiting)[job := needed] && Inv({})
    {
      hide Base, ClosedOn, Consumers, Elems, NoDup;
      assert forall e | e in toFinish :: EntryOk(e, {job});
      waiting := waiting[job := needed];
    }

    ghost method RecordNeeds(job: Job, needs: set<File>)
      requires Inv({job}) && Settled(env.input(job)) && AllSettled(needs)
      modifies this`recorded
      ensures recorded == old(recorded)[job := needs] && Inv({job}) && ClosedOn(job)
      ensures Known() == old(Known()).(recorded := recorded)
    {
      hide ProducersOk, ValidEnv, EntryOk, Settled;
      recorded := recorded[job := needs];
      assert forall j | j in running + finished :: old(ClosedOn(j)) ==> ClosedOn(j);
    }

    method StartRunning(job: Job)
      requires Inv({job}) && job in checked && Consumers(toFinish)[job] == 0 && ClosedOn(job)
      modifies this`running, this`starts
      ensures running == old(running) + {job} && Inv({})
      ensures starts == old(starts) + [Start(job, Known())]
    {
      hide ProducersOk, ValidEnv, ClosedOn;
      forall e | e in toFinish ensures EntryOk(e, {}) {
        assert EntryOk(e, {job});
        EntryCounts(toFinish, e);
      }
      running := running + {job};
      starts := starts + [Start(job, Known())];
    }

    method Place(job: Job, needs: set<File>, needed: nat) returns (runs: bool)
      requires Inv({job}) && job in checked && needed == Consumers(toFinish)[job]
      requires needed == 0 ==> AllSettled({env.input(job)}) && AllSettled(needs)
      modifies this`running, this`waiting, this`recorded, this`starts
      ensures Inv({}) && Keeps(old(Known()), Known())
      ensures starts == if runs then old(starts) + [Start(job, Known())] else old(starts)
      ensures runs ==> running == old(running) + {job} && Settled(env.input(job)) && AllSettled(needs)
      ensures runs ==> waiting == old(waiting)
      ensures !runs ==> running == old(running) && waiting.Keys == old(waiting).Keys + {job}
    {
      hide Inv, Base, Keeps, ClosedOn, Settled, AllSettled, Consumers;
      LimboFacts({job});
      KeepsSelf(Known());
      KeepsRecord(Known(), Known(), job, needs);
      runs := needed == 0;
      if needed > 0 {
        StartWaiting(job, needed);
      } else {
        OneSettled(env.input(job));
        RecordNeeds(job, needs);
        StartRunning(job);
      }
    }

    /** Counts what the job's input, then its needs, still wait for. */
    method CountInputAndNeeds(job: Job, needs: set<File>, w: World) returns (r: Result<nat, Error>)
      requires w in worlds
      requires Inv({job}) && job in checked && Consumers(toFinish)[job] == 0
      requires Descends(env.input(job), job) && forall f | f in needs :: Descends(f, job)
      modifies this`producers, this`checked, this`finished, this`all, this`recorded, this`ready, this`toFinish
      ensures r.Ok? ==> Inv({job}) && job in checked && Keeps(old(Known()), Known())
      ensures r.Ok? ==> r.value == Consumers(toFinish)[job]
      ensures r.Ok? && r.value == 0 ==> AllSettled({env.input(job)}) && AllSettled(needs)
      ensures r.Err? ==> Justified(env, rank, needs, r.error)
    {
      hide *;
      LimboFacts({job});
      var input := CountNeeds(job, {env.input(job)}, w);
      if input.Err? {
        NotThisFile(env, rank, env.input(job), needs, input.error);
        return Err(input.error);
      }
      ghost var mid := Known();
      label before:
      var n := CountNeeds(job, needs, w);
      if n.Err? {
        return Err(n.error);
      }
      KeepsTwice(old(Known()), mid, Known());
      if input.value == 0 {
        StayAllSettled@before({env.input(job)});
      }
      r := Ok(input.value + n.value);
    }

    /** One turn of ProcessReady: the job runs if everything it needs is settled, and waits otherwise. */
    method ProcessJob(job: Job, needs: set<File>, w: World) returns (r: Result<bool, Error>)
      requires w in worlds
      requires Inv({job}) && job in checked && Unwaiting(job)
      requires Descends(env.input(job), job) && forall f | f in needs :: Descends(f, job)
      modifies this`producers, this`checked, this`finished, this`all, this`recorded, this`ready, this`toFinish,
               this`running, this`waiting, this`starts
      ensures r.Ok? ==> Inv({}) && Keeps(old(Known()), Known())
      ensures r.Ok? && r.value ==> running == old(running) + {job} && Settled(env.input(job)) && AllSettled(needs)
      ensures r.Ok? && r.value ==> waiting == old(waiting)
      ensures r.Ok? && !r.value ==> running == old(running) && waiting.Keys == old(waiting).Keys + {job}
      ensures r.Ok? ==> starts == if r.value then old(starts) + [Start(job, Known())] else old(starts)
      ensures r.Err? ==> Justified(env, rank, needs, r.error)
    {
      NoEntryNoCount(toFinish, job);
      hide *;
      var n := CountInputAndNeeds(job, needs, w);
      if n.Err? {
        return Err(n.error);
      }
      ghost var mid := Known();
      var runs := Place(job, needs, n.value);
      KeepsTwice(old(Known()), mid, Known());
      r := Ok(runs);
    }

    method PopReady() returns (job: Job)
      requires Inv({}) && ready != []
      modifies this`ready
      ensures job == old(ready)[0] && ready == old(ready)[1..]
      ensures Inv({job}) && job in checked && job in env.jobs && Unwaiting(job)
    {
      hide ProducersOk, ClosedOn, Vouched, Buildable;
      job := ready[0];
      assert forall e | e in toFinish :: EntryOk(e, {});
      assert job in Elems(ready);
      ready := ready[1..];
      assert Elems(old(ready)) == Elems(ready) + {job};
      assert job !in ready;
    }

    /** The jobs' dependencies under these needs descend in rank, if there is a ranking. */
    ghost predicate Ordered(needsOf: Job -> set<File>) {
      forall j | j in env.jobs :: Descends(env.input(j), j) && forall f | f in needsOf(j) :: Descends(f, j)
    }

    /** Every job put in the runner since then has its input and its needs settled. */
    ghost predicate QueuedSettled(since: set<Job>, needsOf: Job -> set<File>)
      reads this`running, this`producers, this`finished
    {
      forall j | j in running - since :: Settled(env.input(j)) && AllSettled(needsOf(j))
    }

    /** The file was settled then. */
    ghost predicate SettledIn(k: Knowledge, f: File) {
      env.isSrc(f) || (f in k.producers && k.producers[f] in k.finished)
    }

    /** When the job was started its input and these needs were settled, and nothing known then was taken back. */
    ghost predicate ReadyAt(s: Start, needs: set<File>)
      reads this`producers, this`checked, this`finished, this`all, this`recorded
    {
      SettledIn(s.at, env.input(s.job)) && (forall f | f in needs :: SettledIn(s.at, f)) && Keeps(s.at, Known())
    }

    /** The log from n on: each job put in the runner since then was started once, with everything settled. */
    ghost predicate NewStarts(n: nat, since: set<Job>, needsOf: Job -> set<File>)
      reads this`starts, this`running, this`producers, this`checked, this`finished, this`all, this`recorded
    {
      && n <= |starts|
      && (forall i | n <= i < |starts| :: ReadyAt(starts[i], needsOf(starts[i].job)))
      && (forall j :: Times(starts[n..], j) == if j in running && j !in since then 1 else 0)
    }

    /** What was ready stays ready. */
    twostate lemma StayReadyAt(p: (Start, set<File>))
      requires Keeps(old(Known()), Known()) && old(ReadyAt(p.0, p.1))
      ensures ReadyAt(p.0, p.1)
    {
      hide SettledIn, Keeps;
      KeepsTwice(p.0.at, old(Known()), Known());
    }

    /** One more start. */
    twostate lemma OneMoreStart(p: (nat, set<Job>, Job -> set<File>, Job))
      requires old(NewStarts(p.0, p.1, p.2)) && Keeps(old(Known()), Known())
      requires p.3 !in old(running) && p.3 !in p.1 && running == old(running) + {p.3}
      requires starts == old(starts) + [Start(p.3, Known())]
      requires Settled(env.input(p.3)) && AllSettled(p.2(p.3))
      ensures NewStarts(p.0, p.1, p.2)
    {
      hide Keeps, ReadyAt;
      forall i | p.0 <= i < |starts| ensures ReadyAt(starts[i], p.2(starts[i].job)) {
        if i < |old(starts)| {
          assert starts[i] == old(starts)[i];
          StayReadyAt((starts[i], p.2(starts[i].job)));
        } else {
          ReadyNow(p.3, p.2(p.3));
        }
      }
      assert starts[p.0..][..|starts[p.0..]| - 1] == old(starts)[p.0..];
    }

    lemma ReadyNow(job: Job, needs: set<File>)
      requires Settled(env.input(job)) && AllSettled(needs)
      ensures ReadyAt(Start(job, Known()), needs)
    {
    }

    twostate lemma SameStarts(p: (nat, set<Job>, Job -> set<File>))
      requires old(NewStarts(p.0, p.1, p.2)) && Keeps(old(Known()), Known())
      requires unchanged(this`running) && unchanged(this`starts)
      ensures NewStarts(p.0, p.1, p.2)
    {
      hide Keeps, ReadyAt;
      forall i | p.0 <= i < |starts| ensures ReadyAt(starts[i], p.2(starts[i].job)) {
        StayReadyAt((starts[i], p.2(starts[i].job)));
      }
    }

    /** Some job's needs cannot be met. */
    ghost predicate NeedsFail(needsOf: Job -> set<File>, err: Error)
      requires ValidEnv(env, rank)
    {
      exists j | j in env.jobs :: Justified(env, rank, needsOf(j), err)
    }

    method TakeTurn(needsOf: Job -> set<File>, w: World, ghost since: set<Job>, ghost n: nat)
      returns (r: Result<bool, Error>)
      requires w in worlds
      requires Inv({}) && Ordered(needsOf) && ready != [] && QueuedSettled(since, needsOf)
      requires NewStarts(n, since, needsOf) && since <= running
      modifies this`producers, this`checked, this`finished, this`all, this`recorded, this`ready, this`toFinish,
               this`running, this`waiting, this`starts
      ensures r.Ok? ==> Inv({}) && Keeps(old(Known()), Known()) && QueuedSettled(since, needsOf)
      ensures r.Ok? ==> NewStarts(n, since, needsOf) && old(starts) <= starts
      ensures r.Ok? ==> old(running) <= running && old(waiting).Keys <= waiting.Keys
      ensures r.Ok? ==> running != {} || waiting.Keys != {}
      ensures r.Ok? ==> old(waiting).Keys + old(running) < waiting.Keys + running <= env.jobs
      ensures r.Err? ==> NeedsFail(needsOf, r.error)
    {
      var job := PopReady();
      ghost var was := running;
      assert job !in waiting && job !in running;
      hide Inv, Base, Justified, Descends, Settled, NewStarts, Keeps;
      label popped:
      assert NewStarts(n, since, needsOf);
      r := ProcessJob(job, needsOf(job), w);
      if r.Ok? {
        StayQueued@popped((was - since, needsOf));
        Bounded();
        if r.value {
          OneMoreStart@popped((n, since, needsOf, job));
        } else {
          SameStarts@popped((n, since, needsOf));
        }
      }
    }

    lemma Bounded()
      requires Inv({})
      ensures waiting.Keys + running <= env.jobs
    {
    }

    twostate lemma StayQueued(jobs: (set<Job>, Job -> set<File>))
      requires Keeps(old(Known()), Known())
      requires forall j | j in jobs.0 :: old(Settled(env.input(j)) && AllSettled(jobs.1(j)))
      ensures forall j | j in jobs.0 :: Settled(env.input(j)) && AllSettled(jobs.1(j))
    {
    }

    /** Empties the ready queue.  A job goes to the runner only when its input and all its current needs
        are source or made by finished jobs. */
    method ProcessReady(needsOf: Job -> set<File>, w: World) returns (r: Result<(), Error>)
      requires w in worlds
      requires Inv({}) && Ordered(needsOf)
      modifies this`producers, this`checked, this`finished, this`all, this`recorded, this`ready, this`toFinish,
               this`running, this`waiting, this`starts
      ensures r.Ok? ==> Inv({}) && ready == [] && Keeps(old(Known()), Known())
      ensures r.Ok? ==> QueuedSettled(old(running), needsOf)
      ensures r.Ok? ==> old(starts) <= starts && NewStarts(|old(starts)|, old(running), needsOf)
      ensures r.Ok? ==> old(running) <= running && old(waiting).Keys <= waiting.Keys
      ensures r.Ok? && old(ready) != [] ==> running != {} || waiting.Keys != {}
      ensures r.Err? ==> NeedsFail(needsOf, r.error)
    {
      KeepsSelf(Known());
      assert starts[|starts|..] == [];
      while ready != []
        invariant Inv({}) && Keeps(old(Known()), Known()) && QueuedSettled(old(running), needsOf)
        invariant old(starts) <= starts && NewStarts(|old(starts)|, old(running), needsOf)
        invariant old(running) <= running && old(waiting).Keys <= waiting.Keys
        invariant ready == old(ready) || running != {} || waiting.Keys != {}
        decreases env.jobs - (waiting.Keys + running)
      {
        hide Base, Partition, EntryOk, ClosedOn, Ordered, Settled, Justified, NewStarts;
        ghost var mid := Known();
        var turn := TakeTurn(needsOf, w, old(running), |old(starts)|);
        if turn.Err? {
          return Err(turn.error);
        }
        KeepsTwice(old(Known()), mid, Known());
      }
      r := Ok(());
    }

    /** A run of the job came back.  True when it failed.  A complete job becomes finished, and each
        consumer whose last unfinished producer it was becomes ready. */
    method ProcessResult(job: Job, exitCode: int, complete: bool, outputsExist: bool) returns (r: Result<bool, Error>)
      requires Inv({}) && job in running
      modifies this`running, this`ready, this`toFinish, this`waiting, this`finished, this`failed, this`ran
      ensures r.Ok? ==> Inv({}) && Keeps(old(Known()), Known()) && running == old(running) - {job}
      ensures r.Ok? ==> (r.value <==> exitCode != 0)
      ensures exitCode != 0 ==> r.Ok? && failed == old(failed) + {job} && finished == old(finished)
      ensures r.Ok? && exitCode == 0 ==> failed == old(failed)
      ensures r.Ok? ==> ran == if exitCode == 0 && complete then old(ran) + {job} else old(ran)
      ensures exitCode == 0 && !complete ==> r.Ok? && ready == old(ready) + [job] && finished == old(finished)
      ensures exitCode == 0 && complete && outputsExist ==>
        && r.Ok? && finished == old(finished) + {job}
        && toFinish == Without(old(toFinish), job)
        && old(ready) <= ready
      ensures r.Err? <==> exitCode == 0 && complete && !outputsExist
      ensures r.Err? ==> r.error == MissingOutput(job)
    {
      hide Inv;
      if exitCode != 0 {
        Fail(job);
        return Ok(true);
      }
      if !complete {
        Retry(job);
        return Ok(false);
      }
      if !outputsExist {
        return Err(MissingOutput(job));
      }
      Complete(job);
      r := Ok(false);
    }

    method Fail(job: Job)
      requires Inv({}) && job in running
      modifies this`running, this`failed
      ensures Inv({}) && running == old(running) - {job} && failed == old(failed) + {job}
    {
      hide Base, ClosedOn;
      running := running - {job};
      failed := failed + {job};
    }

    method Retry(job: Job)
      requires Inv({}) && job in running
      modifies this`running, this`ready
      ensures Inv({}) && running == old(running) - {job} && ready == old(ready) + [job]
    {
      hide Base, ClosedOn;
      PushNew(ready, job);
      assert job !in Elems(ready);
      running := running - {job};
      ready := ready + [job];
    }

    /** Every waiting job counts the entries left for it, and whoever is still owed a visit waits. */
    ghost predicate Counted(rest: seq<(Job, Job)>, due: multiset<Job>)
      reads this`waiting
    {
      && (forall c | c in waiting :: waiting[c] > 0 && waiting[c] == Consumers(rest)[c] + due[c])
      && (forall c | c in due :: c in waiting)
      && (forall e | e in rest :: e.1 in waiting)
    }

    ghost predicate ReadyOrWaiting(jobs: set<Job>)
      reads this`ready, this`waiting
    {
      NoDup(ready) && Elems(ready) !! waiting.Keys && Elems(ready) + waiting.Keys == jobs
    }

    /** Takes one off the count of each consumer entered under the producer. */
    method WakeConsumers(producer: Job)
      requires Counted(toFinish, multiset{})
      requires ReadyOrWaiting(Elems(ready) + waiting.Keys)
      modifies this`ready, this`waiting
      ensures ReadyOrWaiting(Elems(old(ready)) + old(waiting).Keys) && old(ready) <= ready
      ensures Counted(Without(toFinish, producer), multiset{})
    {
      var range := RangeOf(toFinish, producer);
      ghost var rest := Without(toFinish, producer);
      SplitCounted(producer);
      assert range[0..] == range;
      for i := 0 to |range|
        invariant ReadyOrWaiting(Elems(old(ready)) + old(waiting).Keys) && old(ready) <= ready
        invariant Counted(rest, multiset(range[i..]))
      {
        TailStep(range, i);
        hide *;
        VisitConsumer(range[i], rest, multiset(range[i + 1..]), Elems(old(ready)) + old(waiting).Keys);
      }
      assert range[|range|..] == [];
    }

    lemma SplitCounted(producer: Job)
      requires Counted(toFinish, multiset{})
      ensures Counted(Without(toFinish, producer), multiset(RangeOf(toFinish, producer)))
    {
      SplitCounts(toFinish, producer);
      forall c | c in RangeOf(toFinish, producer) ensures c in waiting {
        assert (producer, c) in toFinish;
      }
    }

    method VisitConsumer(c: Job, ghost rest: seq<(Job, Job)>, ghost due: multiset<Job>, ghost jobs: set<Job>)
      requires Counted(rest, multiset{c} + due) && ReadyOrWaiting(jobs)
      modifies this`ready, this`waiting
      ensures Counted(rest, due) && ReadyOrWaiting(jobs) && old(ready) <= ready
    {
      hide Consumers, NoDup, Elems;
      assert forall d | d in due :: d in multiset{c} + due;
      waiting := waiting[c := waiting[c] - 1];
      if waiting[c] == 0 {
        // The count reached zero: the consumer waits for nothing more.
        forall e | e in rest ensures e.1 != c {
          EntryCounts(rest, e);
        }
        Wake(c, jobs);
      }
    }

    method Wake(c: Job, ghost jobs: set<Job>)
      requires c in waiting && ReadyOrWaiting(jobs)
      modifies this`ready, this`waiting
      ensures ready == old(ready) + [c] && waiting == old(waiting) - {c}
      ensures ReadyOrWaiting(jobs)
    {
      PushNew(ready, c);
      assert c !in Elems(ready);
      waiting := waiting - {c};
      ready := ready + [c];
    }

    method Complete(job: Job)
      requires Inv({}) && job in running
      modifies this`running, this`ready, this`toFinish, this`waiting, this`finished, this`ran
      ensures Inv({}) && Keeps(old(Known()), Known()) && running == old(running) - {job}
      ensures finished == old(finished) + {job} && ran == old(ran) + {job}
      ensures toFinish == Without(old(toFinish), job) && old(ready) <= ready
    {
      FreeConsumers(job);
      hide *;
      MarkFinished(job);
    }

    /** The invariant with the consumers of the job already told. */
    ghost predicate Told(job: Job)
      reads this
    {
      && Base() && Partition({}) && all <= checked && job in running
      && Counted(Without(toFinish, job), multiset{})
      && (forall e | e in Without(toFinish, job) :: EntryOk(e, {}))
      && (forall j | j in running :: ClosedOn(j))
    }

    method FreeConsumers(job: Job)
      requires Inv({}) && job in running
      modifies this`ready, this`waiting
      ensures Told(job) && old(ready) <= ready
    {
      hide Base, ClosedOn, ReadyOrWaiting, Counted, Elems, NoDup;
      CountedNow();
      WakeConsumers(job);
      StayPartition();
      StayEntries(job);
    }

    /** Moving jobs from waiting to ready keeps each in one place. */
    twostate lemma StayPartition()
      requires old(Partition({})) && ReadyOrWaiting(Elems(old(ready)) + old(waiting).Keys)
      requires unchanged(this`all) && unchanged(this`failed) && unchanged(this`finished) && unchanged(this`running)
      ensures Partition({})
    {
    }

    twostate lemma StayEntries(job: Job)
      requires forall e | e in old(toFinish) :: old(EntryOk(e, {}))
      requires unchanged(this`all) && unchanged(this`checked) && unchanged(this`finished) && unchanged(this`toFinish)
      requires Counted(Without(toFinish, job), multiset{})
      ensures forall e | e in Without(toFinish, job) :: EntryOk(e, {})
    {
      assert forall e | e in Without(toFinish, job) :: e in toFinish && old(EntryOk(e, {}));
    }

    method MarkFinished(job: Job)
      requires Told(job)
      modifies this`running, this`toFinish, this`finished, this`ran
      ensures Inv({}) && Keeps(old(Known()), Known()) && running == old(running) - {job}
      ensures finished == old(finished) + {job} && ran == old(ran) + {job} && toFinish == Without(old(toFinish), job)
    {
      hide Base, ClosedOn, Counted, EntryOk, Partition, Keeps, Without;
      toFinish := Without(toFinish, job);
      running := running - {job};
      finished, ran := finished + {job}, ran + {job};
      KeepsFinished(old(Known()), Known(), job);
      InPlay(job);
      FinishedStaysClosed(job);
      FinishedPartition(job);
      FinishedEntries(job);
      CountsHold();
    }

    twostate lemma InPlay(job: Job)
      requires old(Partition({})) && old(Base()) && old(all) <= old(checked) && job in old(running)
      ensures job in old(all) && job in old(checked) && old(all) <= env.jobs && job !in old(finished)
    {
    }

    twostate lemma FinishedPartition(job: Job)
      requires old(Partition({})) && job in old(running)
      requires unchanged(this`all) && unchanged(this`failed) && unchanged(this`ready) && unchanged(this`waiting)
      requires finished == old(finished) + {job} && running == old(running) - {job}
      ensures Partition({})
    {
    }

    twostate lemma FinishedEntries(job: Job)
      requires forall e | e in Without(old(toFinish), job) :: old(EntryOk(e, {}))
      requires unchanged(this`all) && unchanged(this`checked) && unchanged(this`waiting)
      requires finished == old(finished) + {job} && toFinish == Without(old(toFinish), job)
      ensures forall e | e in toFinish :: EntryOk(e, {})
    {
    }

    lemma CountsHold()
      requires Counted(toFinish, multiset{})
      ensures forall c | c in waiting :: waiting[c] > 0 && waiting[c] == Consumers(toFinish)[c]
    {
    }

    lemma CountedNow()
      requires Inv({})
      ensures Counted(toFinish, multiset{}) && ReadyOrWaiting(Elems(ready) + waiting.Keys)
    {
      assert forall e | e in toFinish :: EntryOk(e, {});
    }

    /** Finishing a job that was running keeps the finished jobs closed under their needs. */
    twostate lemma FinishedStaysClosed(job: Job)
      requires old(Base()) && job in old(running) && forall j | j in old(running) :: old(ClosedOn(j))
      requires job in old(all) && job in old(checked)
      requires unchanged(this`producers) && unchanged(this`recorded) && unchanged(this`checked) && unchanged(this`all)
      requires finished == old(finished) + {job} && running == old(running) - {job} && ran == old(ran) + {job}
      ensures Base() && forall j | j in running :: ClosedOn(j)
    {
      StayVouched();
      forall j | j in running + finished ensures ClosedOn(j) {
        assert old(ClosedOn(j));
      }
    }

    // ----- whole builds -----------------------------------------------------------------

    /** In an acyclic build without failures, whenever some job waits and none is ready, some job runs. */
    lemma {:induction false} SomeJobRuns(c: Job)
      requires Inv({}) && jobRank.Some? && ready == [] && failed == {} && c in waiting
      ensures running != {}
      decreases jobRank.value(c)
    {
      var e := CountHasEntry(toFinish, c);
      assert EntryOk(e, {});
      if e.0 !in running {
        assert e.0 in waiting;
        SomeJobRuns(e.0);
      }
    }

    /** So a build without failures that has run out of work has finished every job it queued. */
    lemma NoDeadlock()
      requires Inv({}) && jobRank.Some? && ready == [] && failed == {} && running == {}
      ensures waiting == map[] && finished == all
    {
      if c :| c in waiting {
        SomeJobRuns(c);
      }
    }

    /** The descending needs, whatever attempt each job is at, over file systems the finder may see. */
    ghost predicate OrderedPlan(plan: Plan) {
      && (forall n: nat :: plan.world(n) in worlds)
      && (forall j | j in env.jobs :: Descends(env.input(j), j))
      && (forall j, k: nat, f | j in env.jobs && f in plan.needs(j, k) :: Descends(f, j))
    }

    /** A job still in play has attempts left. */
    ghost predicate AttemptsLeft(plan: Plan, runs: map<Job, nat>)
      reads this`finished, this`failed
    {
      forall j | j in runs && j !in finished && j !in failed :: runs[j] <= plan.tries(j)
    }

    /** Why a build may throw: two jobs that could be run claim a file, some attempt of a job needs a file that
        cannot be made, or a job reported success without its outputs. */
    ghost predicate BuildError(plan: Plan, err: Error)
      requires ValidEnv(env, rank)
    {
      match err
      case Conflict(f) => Clash(env, rank, err)
      case Unproducible(f) => !Buildable(env, rank, f) && exists j, k: nat :: j in env.jobs && f in plan.needs(j, k)
      case MissingOutput(j) => j in env.jobs && exists k: nat :: Incomplete(plan, j, k)
    }

    /** The attempts made so far: the last one of a failed job failed, the last one of a job that was run completed,
        and every other asked again. */
    ghost predicate Honest(plan: Plan, runs: map<Job, nat>, before: Past)
      reads this`failed, this`ran, this`finished
    {
      && (forall j | j in failed :: Ended(plan, j, Attempt(runs, j)) && Fails(plan, j, Attempt(runs, j) - 1))
      && (forall j | j in ran && j !in before.ran ::
            Ended(plan, j, Attempt(runs, j)) && Completes(plan, j, Attempt(runs, j) - 1))
      && (forall j, k: nat | j !in finished && j !in failed && k < Attempt(runs, j) :: Again(plan, j, k))
    }

    /** Every start since then was of the job's next attempt and had the input and the needs of that attempt
        settled. */
    ghost predicate Logged(plan: Plan, n: nat)
      reads this`starts, this`producers, this`checked, this`finished, this`all, this`recorded
    {
      && n <= |starts|
      && forall i | n <= i < |starts| ::
           ReadyAt(starts[i], plan.needs(starts[i].job, Times(starts[n..i], starts[i].job)))
    }

    /** A job was started once for each attempt that came back, and once more if it is running. */
    ghost predicate Tally(runs: map<Job, nat>, n: nat)
      reads this`starts, this`running
    {
      n <= |starts| && forall j :: Times(starts[n..], j) == Attempt(runs, j) + if j in running then 1 else 0
    }

    /** The log of a build accounts for it: every start found the input and the needs of that attempt settled; a failed
        job failed in its last attempt, a job that was run completed in its last attempt, and each asked to be run again
        after every other. */
    ghost predicate Accounted(plan: Plan, before: Past)
      reads this
    {
      && Logged(plan, before.starts)
      && (forall j | j in failed ::
            var n := Times(starts[before.starts..], j);
            Ended(plan, j, n) && Fails(plan, j, n - 1))
      && (forall j | j in ran && j !in before.ran ::
            var n := Times(starts[before.starts..], j);
            Ended(plan, j, n) && Completes(plan, j, n - 1))
    }

    /** No file is claimed twice, whatever is needed can be made, and success comes with the outputs. */
    ghost predicate Feasible(plan: Plan)
      requires ValidEnv(env, rank)
    {
      && (forall f, j, k :: !Claimed(env, rank, f, j, k))
      && (forall j, k: nat, f | j in env.jobs && f in plan.needs(j, k) :: Buildable(env, rank, f))
      && (forall j, k: nat | j in env.jobs :: !Incomplete(plan, j, k))
    }

    ghost predicate NoRunFails(plan: Plan) {
      forall j, k: nat | j in env.jobs :: !Fails(plan, j, k)
    }

    /** A feasible build has no reason to throw. */
    lemma ReasonToThrow(plan: Plan, err: Error)
      requires ValidEnv(env, rank) && BuildError(plan, err)
      ensures !Feasible(plan)
    {
    }

    /** Some attempt of the job completed, and what that attempt needed is settled; or the cache vouches for it. */
    ghost predicate Earned(plan: Plan, j: Job)
      reads this`producers, this`finished
      requires ValidEnv(env, rank)
    {
      Vouched(j) || exists k: nat :: Completes(plan, j, k) && Settled(env.input(j)) && AllSettled(plan.needs(j, k))
    }

    /** What was ready at a start is settled now. */
    lemma ReadyIsSettled(s: Start, needs: set<File>)
      requires ReadyAt(s, needs)
      ensures Settled(env.input(s.job)) && AllSettled(needs)
    {
    }

    lemma RunIsEarned(plan: Plan, before: Past, j: Job)
      requires ValidEnv(env, rank) && Accounted(plan, before) && j in ran && j !in before.ran
      ensures Earned(plan, j)
    {
      hide ReadyAt, Vouched, Settled, Completes, Ended;
      var log := starts[before.starts..];
      assert Ended(plan, j, Times(log, j));
      EndedRuns(plan, j, Times(log, j));
      var i := LastStart(log, j);
      assert starts[before.starts..before.starts + i] == log[..i] && starts[before.starts + i] == log[i];
      ReadyIsSettled(log[i], plan.needs(j, Times(log, j) - 1));
    }

    lemma EndedRuns(plan: Plan, j: Job, n: nat)
      requires Ended(plan, j, n)
      ensures n > 0
    {
    }

    lemma FinishedIsEarned(plan: Plan, before: Past)
      requires Inv({}) && Accounted(plan, before)
      ensures forall j | j in finished - before.ran :: Earned(plan, j)
    {
      FinishedWhy();
      InvIsValid();
      hide Inv, Accounted, Vouched;
      forall j | j in finished - before.ran ensures Earned(plan, j) {
        if j in ran {
          RunIsEarned(plan, before, j);
        }
      }
    }

    lemma FinishedWhy()
      requires Inv({})
      ensures forall j | j in finished :: j in ran || Vouched(j)
    {
    }

    lemma SomeRunFailed(plan: Plan, before: Past)
      requires Inv({}) && Accounted(plan, before) && failed != {}
      ensures !NoRunFails(plan)
    {
      var j :| j in failed;
      assert j in env.jobs;
      assert Ended(plan, j, Times(starts[before.starts..], j));
    }

    /** Nothing running or failed was finished, so the tally of a job that is over is its number of starts. */
    lemma AccountedFor(plan: Plan, runs: map<Job, nat>, before: Past)
      requires Inv({}) && Honest(plan, runs, before) && Logged(plan, before.starts) && Tally(runs, before.starts)
      ensures Accounted(plan, before)
    {
      OverIsNotRunning();
      hide Inv, Logged, Ended, Fails, Completes, Again;
    }

    lemma OverIsNotRunning()
      requires Inv({})
      ensures ran !! running && failed !! running
    {
    }

    lemma NeedsBuildError(plan: Plan, runs: map<Job, nat>, err: Error)
      requires ValidEnv(env, rank) && NeedsFail(NeedsNow(plan, runs), err)
      ensures BuildError(plan, err)
    {
      var j :| j in env.jobs && Justified(env, rank, NeedsNow(plan, runs)(j), err);
      assert NeedsNow(plan, runs)(j) == plan.needs(j, Attempt(runs, j));
    }

    /** What holds between two results: the invariant, attempts left for whoever is in play, and honest records. */
    ghost predicate Going(plan: Plan, runs: map<Job, nat>, before: Past, hasFailed: bool)
      reads this
    {
      && Inv({}) && AttemptsLeft(plan, runs) && Honest(plan, runs, before) && (hasFailed <==> failed != {})
      && Logged(plan, before.starts) && Tally(runs, before.starts)
    }

    method HandleResult(plan: Plan, job: Job, runs: map<Job, nat>, hasFailed: bool, ghost before: Past)
      returns (r: Result<bool, Error>, runs': map<Job, nat>)
      requires ValidPlan(plan) && Going(plan, runs, before, hasFailed) && job in running
      modifies this`running, this`ready, this`toFinish, this`waiting, this`finished, this`failed, this`ran
      ensures r.Ok? ==> Going(plan, runs', before, r.value) && (hasFailed ==> r.value)
      ensures r.Ok? ==> Keeps(old(Known()), Known()) && running == old(running) - {job}
      ensures r.Err? ==> BuildError(plan, r.error)
      ensures RunsLeft(plan, env.jobs, runs') < RunsLeft(plan, env.jobs, runs)
    {
      hide Inv, Keeps, RunsLeft, Honest, BuildError, Attempt, Logged, Tally, AttemptsLeft;
      Playing(job);
      InvIsValid();
      var k := Attempt(runs, job);
      AttemptLeft(plan, runs, job);
      OneRunLess(plan, env.jobs, runs, job);
      runs' := runs[job := k + 1];
      r := ProcessResult(job, plan.exit(job, k), plan.complete(job, k), plan.outputsExist(job, k));
      if r.Err? {
        AttemptIncomplete(plan, job, k);
      } else {
        StayHonest((plan, job, runs, before));
        StayLogged((plan, before.starts));
        StayTally((runs, before.starts, job));
        StayAttempts((plan, runs, job));
        r := Ok(hasFailed || r.value);
      }
    }

    lemma AttemptLeft(plan: Plan, runs: map<Job, nat>, job: Job)
      requires AttemptsLeft(plan, runs) && job !in finished && job !in failed
      ensures Attempt(runs, job) <= plan.tries(job)
    {
    }

    lemma AttemptIncomplete(plan: Plan, job: Job, k: nat)
      requires ValidEnv(env, rank) && job in env.jobs && Incomplete(plan, job, k)
      ensures BuildError(plan, MissingOutput(job))
    {
    }

    /** Recording the outcome of an attempt keeps the records honest. */
    twostate lemma StayHonest(p: (Plan, Job, map<Job, nat>, Past))
      requires var k := Attempt(p.2, p.1);
               && old(Honest(p.0, p.2, p.3)) && p.1 !in old(finished) && p.1 !in old(failed) && p.1 !in old(ran)
               && failed == (if Fails(p.0, p.1, k) then old(failed) + {p.1} else old(failed))
               && (if Completes(p.0, p.1, k) then ran == old(ran) + {p.1} && finished == old(finished) + {p.1}
                   else ran == old(ran) && finished == old(finished))
               && !Incomplete(p.0, p.1, k)
      ensures Honest(p.0, p.2[p.1 := Attempt(p.2, p.1) + 1], p.3)
    {
      var plan, job, runs, k := p.0, p.1, p.2, Attempt(p.2, p.1);
      assert forall n: nat | n < k :: Again(plan, job, n);
      assert forall j | j != job :: Attempt(runs[job := k + 1], j) == Attempt(runs, j);
    }

    twostate lemma StayLogged(p: (Plan, nat))
      requires old(Logged(p.0, p.1)) && Keeps(old(Known()), Known()) && unchanged(this`starts)
      ensures Logged(p.0, p.1)
    {
      hide Keeps, ReadyAt;
      forall i | p.1 <= i < |starts|
        ensures ReadyAt(starts[i], p.0.needs(starts[i].job, Times(starts[p.1..i], starts[i].job)))
      {
        StayReadyAt((starts[i], p.0.needs(starts[i].job, Times(starts[p.1..i], starts[i].job))));
      }
    }

    twostate lemma StayTally(p: (map<Job, nat>, nat, Job))
      requires old(Tally(p.0, p.1)) && unchanged(this`starts) && p.2 in old(running) && running == old(running) - {p.2}
      ensures Tally(p.0[p.2 := Attempt(p.0, p.2) + 1], p.1)
    {
    }

    twostate lemma StayAttempts(p: (Plan, map<Job, nat>, Job))
      requires ValidPlan(p.0) && old(AttemptsLeft(p.0, p.1)) && old(finished) <= finished && old(failed) <= failed
      requires p.2 !in old(finished) && p.2 !in old(failed)
      requires Again(p.0, p.2, Attempt(p.1, p.2)) || p.2 in finished || p.2 in failed
      ensures AttemptsLeft(p.0, p.1[p.2 := Attempt(p.1, p.2) + 1])
    {
    }

    /** Handles the results the runner returned together. */
    method ProcessBatch(plan: Plan, batch: set<Job>, runs: map<Job, nat>, failedBefore: bool, ghost before: Past)
      returns (r: Result<bool, Error>, runs': map<Job, nat>)
      requires ValidPlan(plan) && Going(plan, runs, before, failedBefore) && batch <= running && batch != {}
      modifies this`running, this`ready, this`toFinish, this`waiting, this`finished, this`failed, this`ran
      ensures r.Ok? ==> Going(plan, runs', before, r.value) && (failedBefore ==> r.value)
      ensures r.Ok? ==> Keeps(old(Known()), Known()) && running == old(running) - batch
      ensures r.Ok? ==> RunsLeft(plan, env.jobs, runs') < RunsLeft(plan, env.jobs, runs)
      ensures r.Err? ==> BuildError(plan, r.error)
    {
      hide *;
      HandledStart(plan, runs, before, failedBefore);
      assert batch - batch == {};
      runs' := runs;
      r := Ok(failedBefore);
      var todo := batch;
      while todo != {}
        invariant r.Ok? && todo <= batch
        invariant Handled(plan, runs, runs', before, failedBefore, r.value, batch - todo, old(running), old(Known()))
        decreases todo
      {
        var job :| job in todo;
        ghost var done, hasFailed := batch - todo, r.value;
        todo := todo - {job};
        r, runs' := HandleNext(plan, job, runs, runs', before, failedBefore, r.value, done, old(running), old(Known()));
        if r.Err? {
          return;
        }
        assert batch - todo == done + {job};
      }
      assert batch - todo == batch;
      HandledEnd(plan, runs, runs', before, failedBefore, r.value, batch, old(running), old(Known()));
    }

    lemma HandledStart(plan: Plan, runs: map<Job, nat>, before: Past, failedBefore: bool)
      requires Going(plan, runs, before, failedBefore)
      ensures Handled(plan, runs, runs, before, failedBefore, failedBefore, {}, running, Known())
    {
      hide Going;
      KeepsSelf(Known());
    }

    lemma HandledEnd(plan: Plan, start: map<Job, nat>, runs: map<Job, nat>, before: Past, failedBefore: bool,
                     hasFailed: bool, done: set<Job>, was: set<Job>, since: Knowledge)
      requires Handled(plan, start, runs, before, failedBefore, hasFailed, done, was, since) && done != {}
      ensures Going(plan, runs, before, hasFailed) && (failedBefore ==> hasFailed)
      ensures Keeps(since, Known()) && running == was - done
      ensures RunsLeft(plan, env.jobs, runs) < RunsLeft(plan, env.jobs, start)
    {
      hide Going, Keeps, RunsLeft;
    }

    /** Where the loop stands when the results in done have been handled. */
    ghost predicate Handled(plan: Plan, start: map<Job, nat>, runs: map<Job, nat>, before: Past, failedBefore: bool,
                            hasFailed: bool, done: set<Job>, was: set<Job>, since: Knowledge)
      reads this
    {
      && Going(plan, runs, before, hasFailed) && (failedBefore ==> hasFailed)
      && Keeps(since, Known()) && running == was - done
      && (if done == {} then runs == start else RunsLeft(plan, env.jobs, runs) < RunsLeft(plan, env.jobs, start))
    }

    method HandleNext(plan: Plan, job: Job, ghost start: map<Job, nat>, runs: map<Job, nat>, ghost before: Past,
                      ghost failedBefore: bool, hasFailed: bool, ghost done: set<Job>, ghost was: set<Job>,
                      ghost since: Knowledge)
      returns (r: Result<bool, Error>, runs': map<Job, nat>)
      requires ValidPlan(plan) && job in was && job !in done
      requires Handled(plan, start, runs, before, failedBefore, hasFailed, done, was, since)
      modifies this`running, this`ready, this`toFinish, this`waiting, this`finished, this`failed, this`ran
      ensures r.Ok? ==> Handled(plan, start, runs', before, failedBefore, r.value, done + {job}, was, since)
      ensures r.Err? ==> BuildError(plan, r.error)
    {
      hide Going, RunsLeft, Keeps, BuildError, ValidPlan;
      ghost var mid := Known();
      r, runs' := HandleResult(plan, job, runs, hasFailed, before);
      if r.Ok? {
        KeepsTwice(since, mid, Known());
      }
    }

    lemma InvIsValid()
      requires Inv({})
      ensures ValidEnv(env, rank)
    {
    }

    lemma Playing(job: Job)
      requires Inv({}) && job in running
      ensures job in env.jobs && job !in finished && job !in failed && job !in ran
    {
    }

    /** Runs everything that was asked for.  The runner returns each job it started once, in batches and
        in any order; after a failure it starts no more jobs and may return any of those it has.  In an
        acyclic build whose jobs need finitely many runs this terminates, it never waits for a result
        that cannot come, and if no job fails then every job ever queued is finished.  A build throws only
        for a reason, fails only if some run failed, and so succeeds whenever nothing is wrong with it. */
    method FinishAll(plan: Plan) returns (r: Result<bool, Error>)
      requires ValidPlan(plan) && Inv({}) && jobRank.Some? && OrderedPlan(plan)
      requires running == {} && failed == {}
      modifies this`producers, this`checked, this`finished, this`all, this`recorded, this`ready, this`toFinish,
               this`running, this`waiting, this`starts, this`failed, this`ran
      ensures r.Ok? ==> Inv({}) && Keeps(old(Known()), Known()) && (r.value <==> failed == {})
      ensures r.Ok? && r.value ==> ready == [] && waiting == map[] && running == {} && finished == all
      ensures r.Ok? ==> Accounted(plan, Past(old(ran), |old(starts)|))
      ensures r.Ok? ==> forall j | j in finished - old(ran) :: Earned(plan, j)
      ensures r.Err? ==> BuildError(plan, r.error)
      ensures Feasible(plan) ==> r.Ok?
      ensures Feasible(plan) && NoRunFails(plan) ==> r == Ok(true)
    {
      KeepsSelf(Known());
      InvIsValid();
      NothingYet(plan);
      ghost var before := Past(ran, |starts|);
      hide *;
      var hasFailed := false;
      var outstanding: set<Job> := {};
      var runs: map<Job, nat> := map[];
      var round: nat := 0;
      while outstanding != {} || (ready != [] && !hasFailed)
        invariant Going(plan, runs, before, hasFailed) && Keeps(old(Known()), Known())
        invariant RunnerOk(outstanding, hasFailed)
        decreases RunsLeft(plan, env.jobs, runs)
      {
        ghost var mid := Known();
        var p;
        p, outstanding := ScheduleRound(plan, runs, round, hasFailed, outstanding, before);
        if p.Err? {
          ReasonToThrow(plan, p.error);
          return Err(p.error);
        }
        KeepsTwice(old(Known()), mid, Known());
        mid := Known();
        var f;
        f, runs, outstanding := ResultRound(plan, runs, hasFailed, outstanding, before);
        if f.Err? {
          ReasonToThrow(plan, f.error);
          return Err(f.error);
        }
        KeepsTwice(old(Known()), mid, Known());
        hasFailed := f.value;
        round := round + 1;
      }
      BuildIsOver(plan, runs, before, hasFailed, outstanding);
      r := Ok(!hasFailed);
    }

    lemma NothingYet(plan: Plan)
      requires Inv({}) && running == {} && failed == {}
      ensures RunnerOk({}, false) && Going(plan, map[], Past(ran, |starts|), false)
    {
      hide Inv;
      assert starts[|starts|..] == [];
    }

    /** Some target cannot be made, or the build of the others throws. */
    ghost predicate TargetError(targets: seq<File>, plan: Plan, err: Error)
      requires ValidEnv(env, rank)
    {
      BuildError(plan, err) || (err.Unproducible? && err.file in targets && !Buildable(env, rank, err.file))
    }

    /** A whole build: all targets are asked for, then everything is run.  If it returns true every target is source or
        made by a finished job, and it does return true whenever nothing is wrong with it. */
    method Build(targets: seq<File>, w: World, plan: Plan) returns (r: Result<bool, Error>)
      requires ValidPlan(plan) && Inv({}) && jobRank.Some? && OrderedPlan(plan)
      requires w in worlds && running == {} && failed == {}
      modifies this`producers, this`checked, this`finished, this`all, this`recorded, this`ready, this`toFinish,
               this`running, this`waiting, this`starts, this`failed, this`ran
      ensures r.Ok? ==> Inv({}) && (r.value <==> failed == {}) && Accounted(plan, Past(old(ran), |old(starts)|))
      ensures r == Ok(true) ==> AllSettled(set f | f in targets) && finished == all
      ensures r.Ok? ==> forall j | j in finished - old(ran) :: Earned(plan, j)
      ensures r.Err? ==> TargetError(targets, plan, r.error)
      ensures Feasible(plan) && NoRunFails(plan) && (forall f | f in targets :: Buildable(env, rank, f)) ==>
                r == Ok(true)
    {
      hide Inv, Keeps, BuildError, Feasible, NoRunFails, Buildable, Accounted, Earned, AllSettled, AllAsked,
        OrderedPlan;
      r := AskAll(targets, w, plan);
      if r.Err? {
        return;
      }
      ghost var asked := Known();
      r := FinishAll(plan);
      if r == Ok(true) {
        AskedIsSettled(targets, asked);
      }
    }

    /** Everything the files need is known: each is source or has its job among all. */
    ghost predicate AllAsked(k: Knowledge, files: seq<File>) {
      forall f | f in files :: env.isSrc(f) || (f in k.producers && k.producers[f] in k.all)
    }

    lemma AskedIsSettled(targets: seq<File>, asked: Knowledge)
      requires AllAsked(asked, targets) && Keeps(asked, Known()) && finished == all
      ensures AllSettled(set f | f in targets)
    {
    }

    lemma StayAsked(files: seq<File>, file: File, a: Knowledge, b: Knowledge)
      requires AllAsked(a, files) && Keeps(a, b)
      requires env.isSrc(file) || (file in b.producers && b.producers[file] in b.all)
      ensures AllAsked(b, files + [file])
    {
    }

    method AskAll(targets: seq<File>, w: World, ghost plan: Plan) returns (r: Result<bool, Error>)
      requires Inv({}) && w in worlds
      modifies this`producers, this`checked, this`finished, this`all, this`recorded, this`ready, this`toFinish
      ensures r.Ok? ==> Inv({}) && AllAsked(Known(), targets)
      ensures r.Err? ==> TargetError(targets, plan, r.error)
      ensures r.Err? ==> !Feasible(plan) || exists f | f in targets :: !Buildable(env, rank, f)
    {
      hide Inv, Keeps, Justified, BuildError, Feasible, Buildable;
      InvIsValid();
      for i := 0 to |targets|
        invariant Inv({}) && AllAsked(Known(), targets[..i])
      {
        ghost var mid := Known();
        r := AddNeededFile(targets[i], None, w, {});
        if r.Err? {
          NotAsked(targets, i, plan, r.error);
          return;
        }
        StayAsked(targets[..i], targets[i], mid, Known());
        assert targets[..i + 1] == targets[..i] + [targets[i]];
      }
      assert targets[..|targets|] == targets;
      r := Ok(true);
    }

    lemma NotAsked(targets: seq<File>, i: nat, plan: Plan, err: Error)
      requires ValidEnv(env, rank) && i < |targets| && Justified(env, rank, {targets[i]}, err)
      ensures TargetError(targets, plan, err)
      ensures !Feasible(plan) || exists f | f in targets :: !Buildable(env, rank, f)
    {
      hide Buildable, Claimed;
      if Clash(env, rank, err) {
        assert BuildError(plan, err);
        ReasonToThrow(plan, err);
      } else {
        assert err.file == targets[i] && targets[i] in targets;
      }
    }

    /** What the runner will still return: everything running, unless a failure stopped it. */
    ghost predicate RunnerOk(outstanding: set<Job>, hasFailed: bool)
      reads this`running
    {
      outstanding <= running && (!hasFailed ==> outstanding == running)
    }

    /** What is true when nothing is outstanding and nothing more will be started. */
    lemma BuildIsOver(plan: Plan, runs: map<Job, nat>, before: Past, hasFailed: bool, outstanding: set<Job>)
      requires Going(plan, runs, before, hasFailed) && RunnerOk(outstanding, hasFailed) && jobRank.Some?
      requires outstanding == {} && (ready == [] || hasFailed)
      ensures Inv({}) && Accounted(plan, before) && (hasFailed <==> failed != {})
      ensures forall j | j in finished - before.ran :: Earned(plan, j)
      ensures !hasFailed ==> ready == [] && waiting == map[] && running == {} && finished == all
      ensures hasFailed ==> !NoRunFails(plan)
    {
      hide Inv, Honest, AttemptsLeft, Earned, NoRunFails, Accounted, Logged, Tally;
      AccountedFor(plan, runs, before);
      FinishedIsEarned(plan, before);
      if hasFailed {
        SomeRunFailed(plan, before);
      } else {
        NoDeadlock();
      }
    }

    /** The first half of a turn of FinishAll: afterwards there is a result to wait for. */
    method ScheduleRound(plan: Plan, runs: map<Job, nat>, round: nat, hasFailed: bool, outstanding: set<Job>,
                         ghost before: Past)
      returns (r: Result<(), Error>, outstanding': set<Job>)
      requires Going(plan, runs, before, hasFailed) && jobRank.Some? && OrderedPlan(plan)
      requires RunnerOk(outstanding, hasFailed) && (outstanding != {} || (ready != [] && !hasFailed))
      modifies this`producers, this`checked, this`finished, this`all, this`recorded, this`ready, this`toFinish,
               this`running, this`waiting, this`starts
      ensures r.Ok? ==> Going(plan, runs, before, hasFailed) && Keeps(old(Known()), Known())
      ensures r.Ok? ==> ready == [] && RunnerOk(outstanding', hasFailed) && outstanding' != {}
      ensures r.Err? ==> BuildError(plan, r.error)
    {
      hide Inv, Keeps, Honest, AttemptsLeft, Ordered, QueuedSettled, OrderedPlan, NeedsFail, BuildError, Logged, Tally,
        NewStarts, NeedsNow;
      outstanding' := outstanding;
      OrderedNow(plan, runs);
      InvIsValid();
      r := ProcessReady(NeedsNow(plan, runs), plan.world(round));
      if r.Err? {
        NeedsBuildError(plan, runs, r.error);
        return;
      }
      MoreLogged((plan, runs, before.starts));
      StayGoing((plan, runs, before, hasFailed));
      if !hasFailed {
        outstanding' := running;
      }
      WorkIsOut(plan, runs, before, hasFailed, outstanding, outstanding', old(running));
    }

    /** Scheduling takes nothing back from the runner, and without a failure something runs. */
    lemma WorkIsOut(plan: Plan, runs: map<Job, nat>, before: Past, hasFailed: bool, outstanding: set<Job>,
                    outstanding': set<Job>, was: set<Job>)
      requires Going(plan, runs, before, hasFailed) && jobRank.Some? && ready == [] && was <= running
      requires outstanding <= was && outstanding' == if hasFailed then outstanding else running
      requires hasFailed ==> outstanding != {}
      requires running != {} || waiting.Keys != {}
      ensures RunnerOk(outstanding', hasFailed) && outstanding' != {}
    {
      if c :| !hasFailed && c in waiting {
        SomeJobRuns(c);
      }
    }

    twostate lemma StayGoing(p: (Plan, map<Job, nat>, Past, bool))
      requires old(Going(p.0, p.1, p.2, p.3)) && Inv({}) && Keeps(old(Known()), Known())
      requires unchanged(this`failed) && unchanged(this`ran) && Logged(p.0, p.2.starts) && Tally(p.1, p.2.starts)
      ensures Going(p.0, p.1, p.2, p.3)
    {
      hide Inv, Logged, Tally, Ended, Again;
    }

    /** A round of scheduling starts every job it starts with the job's next attempt, whose needs are settled. */
    twostate lemma MoreLogged(p: (Plan, map<Job, nat>, nat))
      requires old(Logged(p.0, p.2)) && old(Tally(p.1, p.2)) && Keeps(old(Known()), Known())
      requires old(starts) <= starts && NewStarts(|old(starts)|, old(running), NeedsNow(p.0, p.1))
      requires old(running) <= running
      ensures Logged(p.0, p.2) && Tally(p.1, p.2)
    {
      hide Keeps, ReadyAt;
      var (plan, runs, n) := p;
      var was := |old(starts)|;
      forall i | n <= i < |starts|
        ensures ReadyAt(starts[i], plan.needs(starts[i].job, Times(starts[n..i], starts[i].job)))
      {
        if i < was {
          assert starts[i] == old(starts)[i] && starts[n..i] == old(starts)[n..i];
          StayReadyAt((starts[i], plan.needs(starts[i].job, Times(starts[n..i], starts[i].job))));
        } else {
          NextAttempt((runs, n, i, starts[i].job));
          assert NeedsNow(plan, runs)(starts[i].job) == plan.needs(starts[i].job, Attempt(runs, starts[i].job));
        }
      }
      forall j ensures Times(starts[n..], j) == Attempt(runs, j) + if j in running then 1 else 0 {
        assert starts[n..] == old(starts)[n..] + starts[was..];
        TimesConcat(old(starts)[n..], starts[was..], j);
      }
    }

    /** The start at i is of the attempt that is next. */
    twostate lemma NextAttempt(p: (map<Job, nat>, nat, nat, Job))
      requires old(Tally(p.0, p.1)) && old(starts) <= starts
      requires |old(starts)| <= p.2 < |starts| && p.3 == starts[p.2].job
      requires forall j :: Times(starts[|old(starts)|..], j) == if j in running && j !in old(running) then 1 else 0
      ensures Times(starts[p.1..p.2], p.3) == Attempt(p.0, p.3)
    {
      var (runs, n, i, j) := p;
      var was := |old(starts)|;
      var log := starts[was..];
      TimesSplit(log, i - was);
      assert Times(log[..i - was], j) == 0;
      assert starts[n..i] == old(starts)[n..] + log[..i - was];
      TimesConcat(old(starts)[n..], log[..i - was], j);
    }

    lemma OrderedNow(plan: Plan, runs: map<Job, nat>)
      requires OrderedPlan(plan)
      ensures Ordered(NeedsNow(plan, runs)) && forall n: nat :: plan.world(n) in worlds
    {
      forall j | j in env.jobs ensures forall f | f in NeedsNow(plan, runs)(j) :: Descends(f, j) {
        assert NeedsNow(plan, runs)(j) == plan.needs(j, Attempt(runs, j));
      }
    }

    /** The second half: one or more results come back, and after a failure the rest may be lost. */
    method ResultRound(plan: Plan, runs: map<Job, nat>, hasFailed: bool, outstanding: set<Job>, ghost before: Past)
      returns (r: Result<bool, Error>, runs': map<Job, nat>, outstanding': set<Job>)
      requires ValidPlan(plan) && Going(plan, runs, before, hasFailed)
      requires RunnerOk(outstanding, hasFailed) && outstanding != {}
      modifies this`running, this`ready, this`toFinish, this`waiting, this`finished, this`failed, this`ran
      ensures r.Ok? ==> Going(plan, runs', before, r.value) && Keeps(old(Known()), Known())
      ensures r.Ok? ==> RunnerOk(outstanding', r.value)
      ensures r.Err? ==> BuildError(plan, r.error)
      ensures r.Ok? ==> RunsLeft(plan, env.jobs, runs') < RunsLeft(plan, env.jobs, runs)
    {
      InvIsValid();
      hide Going, Keeps, RunsLeft, ValidPlan, BuildError;
      assert outstanding <= outstanding;
      var batch :| batch <= outstanding && batch != {};
      r, runs' := ProcessBatch(plan, batch, runs, hasFailed, before);
      outstanding' := outstanding - batch;
      if r.Ok? && r.value {
        outstanding' :| outstanding' <= outstanding - batch;
      }
    }
  }
}
