/** The core of TScheduler (base/scheduler.cc) as a machine whose steps are the sections run under its mutex. */
module Scheduler {
  import opened Common

  /** A job handle: whether the closure is still in it, whether it ever held one, how often it was taken to be run
      and how often Cancel returned true for it. */
  datatype Handle = Handle(full: bool, loaded: bool, runs: nat, cancels: nat)

  datatype Worker =
    | Starting            // its thread has not linked itself to the scheduler yet
    | Between             // linked, about to enter the critical section
    | Executing(job: nat)
    | Waiting             // idle, in a condition wait inside TryPopJob

  /** queue is the job queue in the order it would be popped. ctrlC: running under RunUntilCtrlC. waking counts the
      pushers waiting for an idle worker to wake up. */
  datatype State = State(
    maxWorkers: nat, ctrlC: bool,
    handles: seq<Handle>, queue: seq<nat>,
    workers: map<nat, Worker>, workerCount: nat, idleCount: nat, wakingCount: nat,
    quiescent: bool)

  datatype Action =
    | Schedule(loaded: bool, position: nat)  // the job's place in the queue is its priority's business
    | PusherResumes                          // a waiting pusher wakes up, for whatever reason
    | Cancel(job: nat)
    | SetPolicy(maxWorkers: nat)
    | Drain                                  // the start of Shutdown
    | Reorder(queue: seq<nat>)               // the heap's choice among equal priorities
    | Launch(worker: nat)
    | Link(worker: nat)
    | Resume(worker: nat)
    | Finish(worker: nat)
    | Wake(worker: nat)
    | TimeOut(worker: nat)

  // ----- the steps ---------------------------------------------------------------------

  predicate Live(handles: seq<Handle>, job: nat) {
    job < |handles| && handles[job].full
  }

  /** The first loop of TryPopJob: cancelled entries leave the top of the queue. */
  function DropDead(queue: seq<nat>, handles: seq<Handle>): (q: seq<nat>)
    ensures q != [] ==> Live(handles, q[0])
  {
    if queue != [] && !Live(handles, queue[0]) then DropDead(queue[1..], handles) else queue
  }

  function Leave(s: State, w: nat): State
    requires s.workerCount > 0
  {
    s.(workers := s.workers - {w}, workerCount := s.workerCount - 1)
  }

  function Take(s: State, w: nat, job: nat): State
    requires job < |s.handles|
  {
    var h := s.handles[job];
    s.(workers := s.workers[w := Executing(job)], handles := s.handles[job := h.(full := false, runs := h.runs + 1)])
  }

  /** One turn of TryPopJob's loop by a linked worker that is not idle. */
  function TryPop(s: State, w: nat): State
    requires s.workerCount > 0
  {
    var q := DropDead(s.queue, s.handles);
    if s.workerCount > s.maxWorkers then Leave(s.(queue := q), w)
    else if q != [] then Take(s.(queue := q[1..]), w, q[0])
    else if s.ctrlC && s.idleCount + 1 == s.workerCount then Leave(s.(queue := q, quiescent := true), w)
    else s.(queue := q, idleCount := s.idleCount + 1, workers := s.workers[w := Waiting])
  }

  predicate Is(s: State, w: nat, pc: Worker) {
    w in s.workers && s.workers[w] == pc
  }

  predicate Enabled(s: State, a: Action) {
    match a
    case Schedule(_, position) => position <= |s.queue|
    case PusherResumes => s.wakingCount > 0
    case Cancel(job) => job < |s.handles|
    case SetPolicy(_) => true
    case Drain => true
    case Reorder(queue) => multiset(queue) == multiset(s.queue)
    case Launch(w) => w !in s.workers && !s.quiescent
    case Link(w) => Is(s, w, Starting)
    case Resume(w) => Is(s, w, Between) && s.workerCount > 0
    case Finish(w) => w in s.workers && s.workers[w].Executing?
    case Wake(w) => Is(s, w, Waiting) && s.idleCount > 0 && s.workerCount > 0
    case TimeOut(w) => Is(s, w, Waiting) && s.idleCount > 0 && s.workerCount > 0
  }

  function Step(s: State, a: Action): State
    requires Enabled(s, a)
  {
    match a
    case Schedule(loaded, position) =>
      if s.maxWorkers == 0 then s
      else s.(handles := s.handles + [Handle(loaded, loaded, 0, 0)],
              queue := s.queue[..position] + [|s.handles|] + s.queue[position..],
              wakingCount := if s.idleCount > s.wakingCount then s.wakingCount + 1 else s.wakingCount)
    case PusherResumes => s.(wakingCount := s.wakingCount - 1)
    case Cancel(job) =>
      var h := s.handles[job];
      if h.full then s.(handles := s.handles[job := h.(full := false, cancels := h.cancels + 1)]) else s
    case SetPolicy(most) => s.(maxWorkers := most)
    case Drain => s.(queue := [], maxWorkers := if s.workerCount > 0 then 0 else s.maxWorkers)
    case Reorder(queue) => s.(queue := queue)
    case Launch(w) => s.(workers := s.workers[w := Starting])
    case Link(w) => TryPop(s.(workers := s.workers[w := Between], workerCount := s.workerCount + 1), w)
    case Resume(w) => TryPop(s, w)
    case Finish(w) => s.(workers := s.workers[w := Between])
    case Wake(w) => TryPop(s.(workers := s.workers[w := Between], idleCount := s.idleCount - 1), w)
    case TimeOut(w) =>
      var s1 := s.(workers := s.workers[w := Between], idleCount := s.idleCount - 1);
      if s.wakingCount > 0 then TryPop(s1, w) else Leave(s1, w)
  }

  /** What Cancel answers. */
  predicate CancelSucceeds(s: State, job: nat) {
    Live(s.handles, job)
  }

  // ----- the invariant -----------------------------------------------------------------

  ghost function Linked(s: State): set<nat> {
    set w | w in s.workers && !s.workers[w].Starting?
  }

  ghost function Idlers(s: State): set<nat> {
    set w | w in s.workers && s.workers[w].Waiting?
  }

  /** A closure put into a handle is in it still, or was taken by one worker, or cancelled once. */
  predicate Sound(h: Handle) {
    (if h.full then 1 else 0) + h.runs + h.cancels == if h.loaded then 1 else 0
  }

  ghost predicate Handled(s: State) {
    && (forall j | 0 <= j < |s.handles| :: Sound(s.handles[j]))
    && NoDup(s.queue) && (forall j | j in s.queue :: j < |s.handles|)
    && (forall w | w in s.workers && s.workers[w].Executing? ::
          s.workers[w].job < |s.handles| && s.handles[s.workers[w].job].runs == 1)
  }

  ghost predicate Counted(s: State) {
    s.workerCount == |Linked(s)| && s.idleCount == |Idlers(s)|
  }

  ghost predicate Inv(s: State) {
    Handled(s) && Counted(s)
  }

  // ----- every step keeps it -----------------------------------------------------------

  lemma {:induction false} DropDeadFacts(queue: seq<nat>, handles: seq<Handle>)
    requires NoDup(queue)
    ensures var q := DropDead(queue, handles);
            && NoDup(q) && (forall j | j in q :: j in queue)
            && (q != [] ==> Live(handles, q[0]))
            && (forall j | j in queue && j !in q :: !Live(handles, j))
  {
    if queue != [] && !Live(handles, queue[0]) {
      NoDupSplit(queue, 1);
      DropDeadFacts(queue[1..], handles);
    }
  }

  /** Changing one worker's place changes the two sets by that worker. */
  lemma Moved(s: State, w: nat, pc: Worker)
    ensures var s' := s.(workers := s.workers[w := pc]);
            && Linked(s') == (if pc.Starting? then Linked(s) - {w} else Linked(s) + {w})
            && Idlers(s') == (if pc.Waiting? then Idlers(s) + {w} else Idlers(s) - {w})
    ensures var s' := s.(workers := s.workers - {w});
            Linked(s') == Linked(s) - {w} && Idlers(s') == Idlers(s) - {w}
  {
  }

  lemma InSets(s: State, w: nat)
    ensures w in Linked(s) <==> w in s.workers && !s.workers[w].Starting?
    ensures w in Idlers(s) <==> w in s.workers && s.workers[w].Waiting?
  {
  }

  lemma SameSets(s: State, t: State)
    requires s.workers == t.workers
    ensures Linked(s) == Linked(t) && Idlers(s) == Idlers(t)
  {
  }

  lemma TryPopCounts(s: State, w: nat)
    requires Counted(s) && Is(s, w, Between) && s.workerCount > 0
    ensures Counted(TryPop(s, w))
  {
    hide Linked, Idlers, DropDead, Live;
    var s', q := TryPop(s, w), DropDead(s.queue, s.handles);
    InSets(s, w);
    if s.workerCount <= s.maxWorkers && q != [] {
      Moved(s, w, Executing(q[0]));
      SameSets(s', s.(workers := s.workers[w := Executing(q[0])]));
      assert Linked(s) + {w} == Linked(s) && Idlers(s) - {w} == Idlers(s);
    } else {
      Moved(s, w, Waiting);
      SameSets(s', s.(workers := if w in s'.workers then s.workers[w := Waiting] else s.workers - {w}));
      assert Linked(s) + {w} == Linked(s) && Idlers(s) - {w} == Idlers(s);
    }
  }

  /** Taking a live job empties its handle and counts one run. */
  lemma TakeHandles(s: State, w: nat, job: nat)
    requires Handled(s) && Live(s.handles, job)
    ensures Handled(Take(s, w, job)) && s.handles[job].runs == 0
  {
    assert Sound(s.handles[job]);
    assert forall u | u in s.workers && s.workers[u].Executing? :: s.workers[u].job != job;
  }

  lemma TryPopHandles(s: State, w: nat)
    requires Handled(s) && Is(s, w, Between) && s.workerCount > 0
    ensures Handled(TryPop(s, w))
  {
    DropDeadFacts(s.queue, s.handles);
    var q := DropDead(s.queue, s.handles);
    assert Handled(s.(queue := q));
    if s.workerCount <= s.maxWorkers && q != [] {
      NoDupSplit(q, 1);
      assert forall j | j in q[1..] :: j in q;
      assert Handled(s.(queue := q[1..]));
      TakeHandles(s.(queue := q[1..]), w, q[0]);
    }
    hide NoDup, Live;
  }

  lemma TryPopKeeps(s: State, w: nat)
    requires Inv(s) && Is(s, w, Between) && s.workerCount > 0
    ensures Inv(TryPop(s, w))
  {
    TryPopCounts(s, w);
    TryPopHandles(s, w);
  }

  lemma ScheduleKeeps(s: State, loaded: bool, position: nat)
    requires Inv(s) && Enabled(s, Schedule(loaded, position))
    ensures Inv(Step(s, Schedule(loaded, position)))
  {
    hide Linked, Idlers;
    var s' := Step(s, Schedule(loaded, position));
    SameSets(s, s');
    ScheduleHandles(s, loaded, position);
  }

  lemma ScheduleHandles(s: State, loaded: bool, position: nat)
    requires Handled(s) && Enabled(s, Schedule(loaded, position))
    ensures Handled(Step(s, Schedule(loaded, position)))
  {
    hide NoDup;
    var a: seq<nat>, b: seq<nat>, n: nat := s.queue[..position], s.queue[position..], |s.handles|;
    NoDupSplit<nat>(s.queue, position);
    assert a + b == s.queue;
    assert forall j | j in a || j in b :: j in s.queue;
    NoDupOne(n);
    NoDupConcat<nat>([n], b);
    NoDupConcat<nat>(a, [n] + b);
    assert a + [n] + b == a + ([n] + b);
    assert forall j | j in a + ([n] + b) :: j in a || j in b || j == n;
    if s.maxWorkers > 0 {
      var s' := Step(s, Schedule(loaded, position));
      var hs := s.handles + [Handle(loaded, loaded, 0, 0)];
      assert s'.queue == a + ([n] + b) && s'.handles == hs && s'.workers == s.workers;
      forall j | 0 <= j < |hs| ensures Sound(hs[j]) {
        assert j < n ==> hs[j] == s.handles[j];
      }
      forall w | w in s.workers && s.workers[w].Executing?
        ensures s.workers[w].job < |hs| && hs[s.workers[w].job].runs == 1
      {
        assert hs[s.workers[w].job] == s.handles[s.workers[w].job];
      }
    }
  }

  lemma NoDupOne(n: nat)
    ensures NoDup([n])
  {
  }

  lemma ReorderKeeps(s: State, queue: seq<nat>)
    requires Inv(s) && Enabled(s, Reorder(queue))
    ensures Inv(Step(s, Reorder(queue)))
  {
    NoDupPermuted(s.queue, queue);
    forall j | j in queue ensures j < |s.handles| {
      assert j in multiset(queue) && j in multiset(s.queue) && j in s.queue;
    }
    assert Linked(Step(s, Reorder(queue))) == Linked(s) && Idlers(Step(s, Reorder(queue))) == Idlers(s);
  }

  lemma NoDupPermuted(p: seq<nat>, q: seq<nat>)
    requires NoDup(p) && multiset(p) == multiset(q)
    ensures NoDup(q)
  {
    forall i, j | 0 <= i < j < |q| ensures q[i] != q[j] {
      if q[i] == q[j] {
        TwiceInMultiset(q, i, j);
        OnceInMultiset(p, q[i]);
      }
    }
  }

  lemma {:induction false} OnceInMultiset(p: seq<nat>, x: nat)
    requires NoDup(p)
    ensures multiset(p)[x] <= 1
    decreases p
  {
    if p != [] {
      NoDupSplit(p, 1);
      OnceInMultiset(p[1..], x);
      assert p == [p[0]] + p[1..];
      assert p[0] in p[..1];
    }
  }

  lemma TwiceInMultiset(q: seq<nat>, i: nat, j: nat)
    requires i < j < |q| && q[i] == q[j]
    ensures multiset(q)[q[i]] >= 2
  {
    assert q == q[..j] + [q[j]] + q[j + 1..];
    assert q[i] in q[..j];
  }

  /** Steps that touch no worker, job or count. */
  lemma SettingStepsKeep(s: State, a: Action)
    requires Inv(s) && Enabled(s, a) && (a.PusherResumes? || a.SetPolicy? || a.Drain?)
    ensures Inv(Step(s, a))
  {
    var s' := Step(s, a);
    assert Linked(s') == Linked(s) && Idlers(s') == Idlers(s);
  }

  lemma CancelKeeps(s: State, job: nat)
    requires Inv(s) && Enabled(s, Cancel(job))
    ensures Inv(Step(s, Cancel(job)))
  {
    hide NoDup, Linked, Idlers;
    SameSets(s, Step(s, Cancel(job)));
    assert Sound(s.handles[job]);
  }

  lemma LaunchKeeps(s: State, w: nat)
    requires Inv(s) && Enabled(s, Launch(w))
    ensures Inv(Step(s, Launch(w)))
  {
    hide NoDup, Linked, Idlers;
    Moved(s, w, Starting);
    InSets(s, w);
  }

  lemma FinishKeeps(s: State, w: nat)
    requires Inv(s) && Enabled(s, Finish(w))
    ensures Inv(Step(s, Finish(w)))
  {
    hide NoDup, Linked, Idlers;
    BetweenHandles(s, w);
    Moved(s, w, Between);
    InSets(s, w);
    assert Linked(s) + {w} == Linked(s) && Idlers(s) - {w} == Idlers(s);
  }

  /** A worker about to run TryPopJob for the first time. */
  ghost function JustLinked(s: State, w: nat): State {
    s.(workers := s.workers[w := Between], workerCount := s.workerCount + 1)
  }

  /** A worker back from its wait. */
  ghost function Awake(s: State, w: nat): State
    requires s.idleCount > 0
  {
    s.(workers := s.workers[w := Between], idleCount := s.idleCount - 1)
  }

  lemma BetweenHandles(s: State, w: nat)
    requires Handled(s)
    ensures Handled(s.(workers := s.workers[w := Between]))
  {
    hide NoDup;
  }

  lemma HandledDepends(s: State, t: State)
    requires Handled(s) && t.handles == s.handles && t.queue == s.queue && t.workers == s.workers
    ensures Handled(t)
  {
  }

  lemma JustLinkedKeeps(s: State, w: nat)
    requires Inv(s) && Is(s, w, Starting)
    ensures Inv(JustLinked(s, w))
  {
    hide NoDup, Linked, Idlers, Handled;
    BetweenHandles(s, w);
    Moved(s, w, Between);
    InSets(s, w);
    var s1 := s.(workers := s.workers[w := Between]);
    assert Idlers(s) - {w} == Idlers(s);
    SameSets(JustLinked(s, w), s1);
    HandledDepends(s1, JustLinked(s, w));
  }

  lemma AwakeKeeps(s: State, w: nat)
    requires Inv(s) && Is(s, w, Waiting) && s.idleCount > 0
    ensures Inv(Awake(s, w))
  {
    hide NoDup, Linked, Idlers, Handled;
    BetweenHandles(s, w);
    Moved(s, w, Between);
    InSets(s, w);
    var s1 := s.(workers := s.workers[w := Between]);
    assert Linked(s) + {w} == Linked(s);
    SameSets(Awake(s, w), s1);
    HandledDepends(s1, Awake(s, w));
  }

  lemma LeaveKeeps(s: State, w: nat)
    requires Inv(s) && Is(s, w, Between) && s.workerCount > 0
    ensures Inv(Leave(s, w))
  {
    hide NoDup, Linked, Idlers;
    Moved(s, w, Between);
    InSets(s, w);
    SameSets(Leave(s, w), s.(workers := s.workers - {w}));
    assert Idlers(s) - {w} == Idlers(s);
  }

  /** The counts are never zero when a worker is about to decrement them. */
  lemma CountsCover(s: State, w: nat)
    requires Inv(s)
    ensures Is(s, w, Between) ==> Enabled(s, Resume(w))
    ensures Is(s, w, Waiting) ==> Enabled(s, Wake(w)) && Enabled(s, TimeOut(w))
  {
    if w in s.workers {
      SubsetSize(if w in Linked(s) then {w} else {}, Linked(s));
      SubsetSize(if w in Idlers(s) then {w} else {}, Idlers(s));
    }
  }

  lemma StepKeeps(s: State, a: Action)
    requires Inv(s) && Enabled(s, a)
    ensures Inv(Step(s, a))
  {
    hide Inv, TryPop, Leave;
    match a {
      case Schedule(loaded, position) => ScheduleKeeps(s, loaded, position);
      case Reorder(queue) => ReorderKeeps(s, queue);
      case Link(w) =>
        JustLinkedKeeps(s, w);
        TryPopKeeps(JustLinked(s, w), w);
      case Resume(w) => TryPopKeeps(s, w);
      case Wake(w) =>
        AwakeKeeps(s, w);
        TryPopKeeps(Awake(s, w), w);
      case TimeOut(w) =>
        AwakeKeeps(s, w);
        if s.wakingCount > 0 {
          TryPopKeeps(Awake(s, w), w);
        } else {
          LeaveKeeps(Awake(s, w), w);
        }
      case Cancel(job) => CancelKeeps(s, job);
      case Launch(w) => LaunchKeeps(s, w);
      case Finish(w) => FinishKeeps(s, w);
      case _ => SettingStepsKeep(s, a);
    }
  }

  // ----- runs --------------------------------------------------------------------------

  /** A scheduler with no workers yet; under RunUntilCtrlC the main job is queued. */
  ghost predicate Start(s: State) {
    && (forall j | 0 <= j < |s.handles| :: s.handles[j] == Handle(true, true, 0, 0) && j in s.queue)
    && NoDup(s.queue) && (forall j | j in s.queue :: j < |s.handles|)
    && s.workers == map[] && s.workerCount == 0 && s.idleCount == 0 && s.wakingCount == 0 && !s.quiescent
  }

  ghost predicate IsRun(run: seq<State>, actions: seq<Action>) {
    && |run| == |actions| + 1 && Start(run[0])
    && forall i | 0 <= i < |actions| :: Enabled(run[i], actions[i]) && run[i + 1] == Step(run[i], actions[i])
  }

  lemma {:induction false} RunKeeps(run: seq<State>, actions: seq<Action>, i: nat)
    requires IsRun(run, actions) && i < |run|
    ensures Inv(run[i])
    decreases i
  {
    if i == 0 {
      assert Linked(run[0]) == {} && Idlers(run[0]) == {};
    } else {
      RunKeeps(run, actions, i - 1);
      StepKeeps(run[i - 1], actions[i - 1]);
    }
  }

  /** Every job is run at most once, Cancel returns true for it at most once, and never both, at any point of any
      run; while the closure is still in its handle neither has happened. */
  lemma RunsAtMostOnce(run: seq<State>, actions: seq<Action>, i: nat, job: nat)
    requires IsRun(run, actions) && i < |run| && job < |run[i].handles|
    ensures run[i].handles[job].runs + run[i].handles[job].cancels <= 1
    ensures run[i].handles[job].full ==> run[i].handles[job].runs + run[i].handles[job].cancels == 0
  {
    RunKeeps(run, actions, i);
    assert Sound(run[i].handles[job]);
  }

  /** A handle keeps what happened to it. */
  ghost predicate Grows(h: Handle, h': Handle) {
    h.runs <= h'.runs && h.cancels <= h'.cancels && h.loaded == h'.loaded && (h'.full ==> h.full)
  }

  lemma GrowsSelf(h: Handle)
    ensures Grows(h, h)
  {
  }

  lemma GrowsTwice(a: Handle, b: Handle, c: Handle)
    requires Grows(a, b) && Grows(b, c)
    ensures Grows(a, c)
  {
  }

  lemma StepGrows(s: State, a: Action, job: nat)
    requires Enabled(s, a) && job < |s.handles|
    ensures job < |Step(s, a).handles| && Grows(s.handles[job], Step(s, a).handles[job])
  {
  }

  lemma {:induction false} RunGrows(run: seq<State>, actions: seq<Action>, i: nat, k: nat, job: nat)
    requires IsRun(run, actions) && i <= k < |run| && job < |run[i].handles|
    ensures job < |run[k].handles| && Grows(run[i].handles[job], run[k].handles[job])
    decreases k
  {
    hide Step, Enabled, Start, Grows;
    if i < k {
      RunGrows(run, actions, i, k - 1, job);
      StepGrows(run[k - 1], actions[k - 1], job);
      GrowsTwice(run[i].handles[job], run[k - 1].handles[job], run[k].handles[job]);
    } else {
      GrowsSelf(run[i].handles[job]);
    }
  }

  /** When Cancel returns true, the job has never run and never will, and no other Cancel of it returns true. */
  lemma CancelledNeverRuns(run: seq<State>, actions: seq<Action>, i: nat, k: nat, job: nat)
    requires IsRun(run, actions) && i < k < |run| && actions[i] == Cancel(job)
    requires job < |run[i].handles| && CancelSucceeds(run[i], job)
    ensures job < |run[k].handles| && run[k].handles[job].runs == 0 && !CancelSucceeds(run[k], job)
  {
    RunsAtMostOnce(run, actions, i, job);
    assert run[i + 1] == Step(run[i], actions[i]);
    assert run[i + 1].handles[job].cancels == 1 && !run[i + 1].handles[job].full;
    RunGrows(run, actions, i + 1, k, job);
    RunsAtMostOnce(run, actions, k, job);
  }

  /** When Cancel returns false for a job that was given a closure, the job is taken already or was cancelled. */
  lemma CancelFailsOnlyIfDone(run: seq<State>, actions: seq<Action>, i: nat, job: nat)
    requires IsRun(run, actions) && i < |run| && job < |run[i].handles| && run[i].handles[job].loaded
    ensures CancelSucceeds(run[i], job) <==> run[i].handles[job].runs == 0 && run[i].handles[job].cancels == 0
  {
    RunKeeps(run, actions, i);
    assert Sound(run[i].handles[job]);
  }

  lemma StepTakesLiveJob(s: State, a: Action, w: nat)
    requires Inv(s) && Enabled(s, a) && w in Step(s, a).workers && Step(s, a).workers[w].Executing?
    requires w !in s.workers || s.workers[w] != Step(s, a).workers[w]
    ensures var job := Step(s, a).workers[w].job;
            && job in s.queue && job < |s.handles| && Live(s.handles, job) && job !in Step(s, a).queue
            && job < |Step(s, a).handles| && Step(s, a).handles[job] == Handle(false, true, 1, 0)
  {
    DropDeadFacts(s.queue, s.handles);
    var q := DropDead(s.queue, s.handles);
    if q != [] {
      NoDupSplit(q, 1);
      assert q[0] in q && q[0] in q[..1];
      if Live(s.handles, q[0]) {
        assert Sound(s.handles[q[0]]);
      }
    }
  }

  /** At any point of any run, a worker that starts executing takes a job whose closure is in its handle and was in
      the queue. */
  lemma TakesLiveJob(run: seq<State>, actions: seq<Action>, i: nat, w: nat)
    requires IsRun(run, actions) && i < |actions| && w in run[i + 1].workers && run[i + 1].workers[w].Executing?
    requires w !in run[i].workers || run[i].workers[w] != run[i + 1].workers[w]
    ensures var job := run[i + 1].workers[w].job;
            && job in run[i].queue && Live(run[i].handles, job) && job !in run[i + 1].queue
            && job < |run[i + 1].handles| && run[i + 1].handles[job] == Handle(false, true, 1, 0)
  {
    hide Inv, Step, Enabled, Start, Live;
    RunKeeps(run, actions, i);
    StepTakesLiveJob(run[i], actions[i], w);
  }

  /** The worker that enters TryPopJob's loop in this step, if one does. */
  predicate Enters(s: State, a: Action) {
    a.Link? || a.Resume? || a.Wake? || (a.TimeOut? && s.wakingCount > 0)
  }

  /** The state in which it enters the loop. */
  ghost function Entering(s: State, a: Action): State
    requires Enabled(s, a) && Enters(s, a)
  {
    if a.Link? then JustLinked(s, a.worker) else if a.Resume? then s else Awake(s, a.worker)
  }

  lemma EnteringKeeps(s: State, a: Action)
    requires Inv(s) && Enabled(s, a) && Enters(s, a)
    ensures var s1 := Entering(s, a);
            && Inv(s1) && Is(s1, a.worker, Between) && s1.workerCount > 0 && Step(s, a) == TryPop(s1, a.worker)
            && s1.queue == s.queue && s1.handles == s.handles && s1.maxWorkers == s.maxWorkers && s1.ctrlC == s.ctrlC
            && s1.quiescent == s.quiescent
            && forall u | u != a.worker :: (u in s1.workers <==> u in s.workers)
                                           && (u in s.workers ==> s1.workers[u] == s.workers[u])
  {
    hide Inv, TryPop;
    if a.Link? {
      JustLinkedKeeps(s, a.worker);
    } else if !a.Resume? {
      AwakeKeeps(s, a.worker);
    }
  }

  /** The first job of the queue whose closure is still there is at k. */
  ghost predicate FirstLive(queue: seq<nat>, handles: seq<Handle>, k: nat) {
    k < |queue| && Live(handles, queue[k]) && forall i | 0 <= i < k :: !Live(handles, queue[i])
  }

  ghost predicate NoneLive(queue: seq<nat>, handles: seq<Handle>) {
    forall j | j in queue :: !Live(handles, j)
  }

  lemma {:induction false} DropDeadIs(queue: seq<nat>, handles: seq<Handle>) returns (k: nat)
    ensures k <= |queue| && DropDead(queue, handles) == queue[k..]
    ensures if k == |queue| then NoneLive(queue, handles) else FirstLive(queue, handles, k)
  {
    if queue != [] && !Live(handles, queue[0]) {
      var k1 := DropDeadIs(queue[1..], handles);
      k := k1 + 1;
      assert queue[1..][k1..] == queue[k..];
      assert forall i | 0 < i < |queue| :: queue[i] == queue[1..][i - 1];
    } else {
      k := 0;
    }
  }

  /** Every linked worker but this one is idle. */
  ghost predicate OthersIdle(s: State, w: nat) {
    forall u | u in s.workers && u != w :: s.workers[u].Waiting? || s.workers[u].Starting?
  }

  /** What TryPopJob does, exactly: with too many workers the worker leaves; else it takes the first live job; else,
      under RunUntilCtrlC and with every other worker idle, it declares quiescence and leaves; else it goes idle. */
  lemma TryPopDoes(s: State, w: nat) returns (k: nat)
    requires Inv(s) && Is(s, w, Between) && s.workerCount > 0
    ensures k <= |s.queue|
    ensures var t := TryPop(s, w);
            && t.maxWorkers == s.maxWorkers && t.ctrlC == s.ctrlC && t.wakingCount == s.wakingCount
            && (k < |s.queue| ==> FirstLive(s.queue, s.handles, k)) && (k == |s.queue| ==> NoneLive(s.queue, s.handles))
            && if |Linked(s)| > s.maxWorkers then
                 && t.workers == s.workers - {w} && t.workerCount == s.workerCount - 1 && t.handles == s.handles
                 && t.idleCount == s.idleCount && t.quiescent == s.quiescent && t.queue == s.queue[k..]
               else if k < |s.queue| then
                 var job := s.queue[k];
                 && t.workers == s.workers[w := Executing(job)] && t.queue == s.queue[k + 1..]
                 && t.handles == s.handles[job := Handle(false, true, 1, 0)]
                 && t.workerCount == s.workerCount && t.idleCount == s.idleCount && t.quiescent == s.quiescent
               else if s.ctrlC && OthersIdle(s, w) then
                 && t.workers == s.workers - {w} && t.workerCount == s.workerCount - 1 && t.quiescent && t.queue == []
                 && t.handles == s.handles && t.idleCount == s.idleCount
               else
                 && t.workers == s.workers[w := Waiting] && t.idleCount == s.idleCount + 1 && t.queue == []
                 && t.handles == s.handles && t.workerCount == s.workerCount && t.quiescent == s.quiescent
  {
    hide Linked, Idlers, NoDup, DropDead, FirstLive, NoneLive;
    k := DropDeadIs(s.queue, s.handles);
    LiveAt(s, k);
    assert s.queue[|s.queue|..] == [];
    IdleIff(s, w);
    if k < |s.queue| {
      assert s.queue[k..][0] == s.queue[k] && s.queue[k..][1..] == s.queue[k + 1..];
    }
  }

  lemma LiveAt(s: State, k: nat)
    requires Inv(s) && (k < |s.queue| ==> FirstLive(s.queue, s.handles, k))
    ensures k < |s.queue| ==>
              s.queue[k] < |s.handles| && s.handles[s.queue[k]].(full := false, runs := 1) == Handle(false, true, 1, 0)
              && s.handles[s.queue[k]].runs == 0
  {
    if k < |s.queue| {
      assert Sound(s.handles[s.queue[k]]);
    }
  }

  lemma IdleIff(s: State, w: nat)
    requires Counted(s) && Is(s, w, Between)
    ensures s.idleCount + 1 == s.workerCount <==> OthersIdle(s, w)
  {
    if s.idleCount + 1 == s.workerCount {
      LastAwake(s, w);
    }
    if OthersIdle(s, w) {
      assert Linked(s) == Idlers(s) + {w};
    }
  }

  /** At any step of any run, permanent quiescence is declared exactly when a worker enters TryPopJob within the cap
      under RunUntilCtrlC, no live job is queued and every other linked worker is idle; then no worker is executing
      a job. */
  lemma QuiescenceIsReal(run: seq<State>, actions: seq<Action>, i: nat)
    requires IsRun(run, actions) && i < |actions| && !run[i].quiescent
    ensures var s, a := run[i], actions[i];
            run[i + 1].quiescent <==>
              && Enters(s, a) && s.ctrlC && NoneLive(s.queue, s.handles) && OthersIdle(s, a.worker)
              && s.workerCount + (if a.Link? then 1 else 0) <= s.maxWorkers
    ensures run[i + 1].quiescent ==> run[i + 1].queue == []
    ensures var t := run[i + 1]; t.quiescent ==> forall u | u in t.workers :: !t.workers[u].Executing?
  {
    hide Inv, TryPop, Start, NoneLive, Linked, FirstLive;
    RunKeeps(run, actions, i);
    var s, a := run[i], actions[i];
    if Enters(s, a) {
      EnteringKeeps(s, a);
      var s1 := Entering(s, a);
      var k := TryPopDoes(s1, a.worker);
      assert OthersIdle(s1, a.worker) <==> OthersIdle(s, a.worker);
      LinkedCount(s1);
      SomeLive(s.queue, s.handles, k);
    }
  }

  lemma LinkedCount(s: State)
    requires Inv(s)
    ensures |Linked(s)| == s.workerCount
  {
  }

  lemma SomeLive(queue: seq<nat>, handles: seq<Handle>, k: nat)
    ensures k < |queue| && FirstLive(queue, handles, k) ==> !NoneLive(queue, handles)
  {
  }

  /** If all linked workers but one are idle, that one is the only one awake. */
  lemma LastAwake(s: State, w: nat)
    requires Counted(s) && Is(s, w, Between) && s.idleCount + 1 == s.workerCount
    ensures forall u | u in s.workers && u != w :: s.workers[u].Waiting? || s.workers[u].Starting?
  {
    var awake := Linked(s) - Idlers(s);
    assert w in awake && Idlers(s) <= Linked(s);
    assert Linked(s) == Idlers(s) + awake;
    assert |awake - {w}| == 0;
    forall u | u in s.workers && u != w ensures s.workers[u].Waiting? || s.workers[u].Starting? {
      assert u !in awake - {w};
    }
  }

  // ----- no job is lost ----------------------------------------------------------------

  /** The job's closure, if it is still in its handle, is queued. */
  ghost predicate Kept(s: State, job: nat) {
    job < |s.handles| && (s.handles[job].full ==> job in s.queue)
  }

  lemma PopKeepsJob(s: State, w: nat, job: nat)
    requires Inv(s) && Is(s, w, Between) && s.workerCount > 0 && Kept(s, job)
    ensures Kept(TryPop(s, w), job)
  {
    hide Inv, Linked, OthersIdle;
    var q := DropDead(s.queue, s.handles);
    QueueFacts(s);
    assert q != [] ==> q == [q[0]] + q[1..];
  }

  lemma QueueFacts(s: State)
    requires Inv(s)
    ensures var q := DropDead(s.queue, s.handles);
            && (forall j | j in q :: j in s.queue) && (q != [] ==> q[0] < |s.handles|)
            && (forall j | j in s.queue && j !in q :: !Live(s.handles, j))
  {
    DropDeadFacts(s.queue, s.handles);
  }

  lemma StepKeepsJob(s: State, a: Action, job: nat)
    requires Inv(s) && Enabled(s, a) && !a.Drain? && Kept(s, job)
    ensures Kept(Step(s, a), job)
  {
    hide Inv, TryPop;
    if Enters(s, a) {
      EnteringKeeps(s, a);
      PopKeepsJob(Entering(s, a), a.worker, job);
    } else if a.Reorder? {
      assert job in s.queue <==> job in multiset(s.queue);
      assert job in a.queue <==> job in multiset(a.queue);
    } else if a.Schedule? {
      assert s.queue == s.queue[..a.position] + s.queue[a.position..];
    }
  }

  /** The caller of Schedule waits: some idle worker is not spoken for by another caller. */
  ghost predicate Waits(s: State, a: Action) {
    a.Schedule? && s.maxWorkers > 0 && |Idlers(s)| > s.wakingCount
  }

  ghost function Waited(run: seq<State>, actions: seq<Action>, i: nat): nat
    requires i <= |actions| <= |run|
  {
    if i == 0 then 0 else Waited(run, actions, i - 1) + if Waits(run[i - 1], actions[i - 1]) then 1 else 0
  }

  ghost function Resumed(actions: seq<Action>, i: nat): nat
    requires i <= |actions|
  {
    if i == 0 then 0 else Resumed(actions, i - 1) + if actions[i - 1].PusherResumes? then 1 else 0
  }

  /** At every point of every run WakingCount is the number of callers of Schedule that wait and have not resumed. */
  lemma {:induction false} WakingIsCounted(run: seq<State>, actions: seq<Action>, i: nat)
    requires IsRun(run, actions) && i < |run|
    ensures run[i].wakingCount + Resumed(actions, i) == Waited(run, actions, i)
    decreases i
  {
    if i > 0 {
      WakingIsCounted(run, actions, i - 1);
      RunKeeps(run, actions, i - 1);
      WakingStep(run[i - 1], actions[i - 1]);
    }
  }

  lemma WakingStep(s: State, a: Action)
    requires Inv(s) && Enabled(s, a)
    ensures Step(s, a).wakingCount + (if a.PusherResumes? then 1 else 0) == s.wakingCount + if Waits(s, a) then 1 else 0
  {
    hide DropDead;
  }

  /** From the step that accepts it, and as long as shutdown has not begun, a job is in exactly one of three states:
      queued with its closure, run once, or cancelled once. A job is accepted exactly if the cap is not zero. */
  lemma {:induction false} NoJobIsLost(run: seq<State>, actions: seq<Action>, i: nat, k: nat)
    requires IsRun(run, actions) && i < k < |run| && actions[i].Schedule? && actions[i].loaded
    requires forall n | i < n < k :: !actions[n].Drain?
    ensures var job := |run[i].handles|;
            if run[i].maxWorkers == 0 then run[i + 1] == run[i]
            else
              && job < |run[k].handles|
              && var h := run[k].handles[job];
                 && (h.full ==> job in run[k].queue)
                 && (if h.full then 1 else 0) + h.runs + h.cancels == 1
    decreases k
  {
    hide Inv, Step, Enabled, Start;
    var job := |run[i].handles|;
    Accepts(run[i], actions[i]);
    if run[i].maxWorkers > 0 {
      RunKeepsJob(run, actions, i + 1, k, job);
      RunKeeps(run, actions, k);
      RunGrows(run, actions, i + 1, k, job);
      SoundAt(run[k], job);
    }
  }

  lemma SoundAt(s: State, job: nat)
    requires Inv(s) && job < |s.handles|
    ensures Sound(s.handles[job])
  {
  }

  lemma Accepts(s: State, a: Action)
    requires Enabled(s, a) && a.Schedule?
    ensures if s.maxWorkers == 0 then Step(s, a) == s
            else Kept(Step(s, a), |s.handles|) && Step(s, a).handles[|s.handles|].loaded == a.loaded
  {
  }

  lemma {:induction false} RunKeepsJob(run: seq<State>, actions: seq<Action>, i: nat, k: nat, job: nat)
    requires IsRun(run, actions) && i <= k < |run| && Kept(run[i], job)
    requires forall n | i <= n < k :: !actions[n].Drain?
    ensures Kept(run[k], job)
    decreases k
  {
    hide Inv, Step, Enabled, Start, Kept;
    if i < k {
      RunKeepsJob(run, actions, i, k - 1, job);
      RunKeeps(run, actions, k - 1);
      StepKeepsJob(run[k - 1], actions[k - 1], job);
    }
  }

  // ----- shutdown ----------------------------------------------------------------------

  /** The actions can be taken one after the other. */
  predicate CanTake(s: State, actions: seq<Action>)
    decreases actions
  {
    actions == [] || (Enabled(s, actions[0]) && CanTake(Step(s, actions[0]), actions[1..]))
  }

  function After(s: State, actions: seq<Action>): State
    requires CanTake(s, actions)
    decreases actions
  {
    if actions == [] then s else After(Step(s, actions[0]), actions[1..])
  }

  predicate PolicyStays(actions: seq<Action>) {
    forall a | a in actions :: !a.SetPolicy?
  }

  /** No job was started on the way. */
  ghost predicate NoneStarted(s: State, t: State) {
    |s.handles| <= |t.handles|
    && forall j | 0 <= j < |t.handles| :: t.handles[j].runs == if j < |s.handles| then s.handles[j].runs else 0
  }

  /** The cap is zero, or there are no workers and there will not be any. */
  predicate Halted(s: State) {
    s.maxWorkers == 0 || (s.quiescent && s.workers == map[])
  }

  lemma HaltedPop(s: State, w: nat)
    requires s.maxWorkers == 0 && s.workerCount > 0
    ensures var t := TryPop(s, w); t.handles == s.handles && t.maxWorkers == 0
  {
  }

  lemma HaltedStep(s: State, a: Action)
    requires Halted(s) && Enabled(s, a) && !a.SetPolicy?
    ensures Halted(Step(s, a)) && NoneStarted(s, Step(s, a))
  {
    hide TryPop;
    match a {
      case Link(w) => HaltedPop(s.(workers := s.workers[w := Between], workerCount := s.workerCount + 1), w);
      case Resume(w) => HaltedPop(s, w);
      case Wake(w) => HaltedPop(s.(workers := s.workers[w := Between], idleCount := s.idleCount - 1), w);
      case TimeOut(w) => HaltedPop(s.(workers := s.workers[w := Between], idleCount := s.idleCount - 1), w);
      case _ =>
    }
  }

  lemma {:induction false} HaltedStartsNone(s: State, actions: seq<Action>)
    requires Halted(s) && CanTake(s, actions) && PolicyStays(actions)
    ensures NoneStarted(s, After(s, actions))
    decreases actions
  {
    hide Step, Enabled, Halted;
    if actions != [] {
      HaltedStep(s, actions[0]);
      HaltedStartsNone(Step(s, actions[0]), actions[1..]);
    }
  }

  /** A number no worker has. */
  lemma {:induction false} FreshWorker(workers: set<nat>) returns (w: nat)
    ensures w !in workers && forall u | u in workers :: u < w
    decreases workers
  {
    if workers == {} {
      w := 0;
    } else {
      var u :| u in workers;
      var v := FreshWorker(workers - {u});
      w := if u < v then v else u + 1;
      assert forall x | x in workers :: x == u || x in workers - {u};
    }
  }

  /** A worker that links while a job is queued and the cap allows one starts the job. */
  lemma LinkStarts(s: State, w: nat, job: nat)
    requires Is(s, w, Starting) && s.workerCount == 0 && s.maxWorkers > 0 && s.queue == [job]
    requires job < |s.handles| && s.handles[job] == Handle(true, true, 0, 0)
    ensures Enabled(s, Link(w)) && |Step(s, Link(w)).handles| == |s.handles| && Step(s, Link(w)).handles[job].runs == 1
  {
    assert DropDead(s.queue, s.handles) == [job];
  }

  lemma TakeTwo(s: State, a: Action, b: Action)
    requires Enabled(s, a) && Enabled(Step(s, a), b)
    ensures CanTake(s, [a, b]) && After(s, [a, b]) == Step(Step(s, a), b)
  {
    hide Step, Enabled;
    var s1, bs, abs := Step(s, a), [b], [a, b];
    assert abs[1..] == bs && abs[0] == a && bs[1..] == [] && bs[0] == b;
    assert CanTake(s1, bs) && After(s1, bs) == After(Step(s1, b), []) == Step(s1, b);
    assert CanTake(s, abs) && After(s, abs) == After(s1, bs);
  }

  lemma TakeThree(s: State, a: Action, b: Action, c: Action)
    requires Enabled(s, a) && Enabled(Step(s, a), b) && Enabled(Step(Step(s, a), b), c)
    ensures CanTake(s, [a, b, c]) && After(s, [a, b, c]) == Step(Step(Step(s, a), b), c)
  {
    hide Step, Enabled;
    var abc := [a, b, c];
    assert abc[1..] == [b, c] && abc[0] == a;
    TakeTwo(Step(s, a), b, c);
    assert CanTake(s, abc) && After(s, abc) == After(Step(s, a), [b, c]);
  }

  /** A scheduler without linked workers, whose cap is not zero, can still start a job. */
  lemma JobCanStart(s: State) returns (actions: seq<Action>)
    requires Inv(s) && s.workerCount == 0 && s.queue == [] && !Halted(s)
    ensures CanTake(s, actions) && PolicyStays(actions) && !NoneStarted(s, After(s, actions))
  {
    hide Inv, TryPop, CanTake, After;
    var n, a := |s.handles|, Schedule(true, 0);
    var s1 := Step(s, a);
    assert s1.queue == [n] && s1.handles[n] == Handle(true, true, 0, 0);
    if w :| w in s.workers {
      NoneLinked(s, w);
      LinkStarts(s1, w, n);
      actions := [a, Link(w)];
      TakeTwo(s, a, Link(w));
    } else {
      var w := FreshWorker(s.workers.Keys);
      var s2 := Step(s1, Launch(w));
      LinkStarts(s2, w, n);
      actions := [a, Launch(w), Link(w)];
      TakeThree(s, a, Launch(w), Link(w));
    }
  }

  lemma NoneLinked(s: State, w: nat)
    requires Inv(s) && s.workerCount == 0 && w in s.workers
    ensures Is(s, w, Starting)
  {
    if w in Linked(s) {
      SubsetSize({w}, Linked(s));
    }
  }

  /** Nothing may start once shutdown begins: true of every continuation without a new policy exactly if some worker is
      linked then, or the cap is zero already, or the scheduler is quiescent without a worker. With no worker linked
      shutdown leaves the cap as it is. */
  lemma ShutdownStopsIff(run: seq<State>, actions: seq<Action>, i: nat)
    requires IsRun(run, actions) && i < |actions| && actions[i].Drain?
    ensures var s, t := run[i], run[i + 1];
            (forall more | CanTake(t, more) && PolicyStays(more) :: NoneStarted(t, After(t, more)))
            <==> s.workerCount > 0 || s.maxWorkers == 0 || (s.quiescent && s.workers == map[])
  {
    hide Inv, Start, After, CanTake, PolicyStays, NoneStarted;
    var s, t := run[i], run[i + 1];
    RunKeeps(run, actions, i + 1);
    if Halted(t) {
      forall more | CanTake(t, more) && PolicyStays(more) ensures NoneStarted(t, After(t, more)) {
        HaltedStartsNone(t, more);
      }
    } else {
      var more := JobCanStart(t);
    }
  }

  /** Where it fails: shutting down a scheduler without workers leaves one that can still start a job. */
  lemma ShutdownMayLeak()
    ensures var s := State(1, false, [], [], map[], 0, 0, 0, false);
            var run := [s, Step(s, Drain)];
            && IsRun(run, [Drain])
            && exists more :: CanTake(run[1], more) && PolicyStays(more) && !NoneStarted(run[1], After(run[1], more))
  {
    var s := State(1, false, [], [], map[], 0, 0, 0, false);
    ShutdownStopsIff([s, Step(s, Drain)], [Drain], 0);
  }

  // ----- a queued job can always be run ------------------------------------------------

  lemma {:induction false} TakeConcat(s: State, a: seq<Action>, b: seq<Action>)
    requires CanTake(s, a) && CanTake(After(s, a), b)
    ensures CanTake(s, a + b) && After(s, a + b) == After(After(s, a), b)
    decreases a
  {
    hide Step, Enabled;
    if a == [] {
      assert a + b == b;
    } else {
      assert (a + b)[1..] == a[1..] + b;
      TakeConcat(Step(s, a[0]), a[1..], b);
    }
  }

  /** Only workers act. */
  predicate WorkersOnly(actions: seq<Action>) {
    forall a | a in actions :: a.Launch? || a.Link? || a.Resume? || a.Finish? || a.Wake?
  }

  /** The job waits in the queue of a scheduler that may run it. */
  ghost predicate CanHope(s: State, job: nat) {
    Inv(s) && s.maxWorkers > 0 && !s.quiescent && job in s.queue && Live(s.handles, job)
  }

  ghost predicate WasRun(s: State, job: nat) {
    job < |s.handles| && s.handles[job].runs == 1
  }

  /** The job was run, or it still waits and the queue or the number of workers has shrunk. */
  ghost predicate Nearer(s: State, t: State, job: nat) {
    || WasRun(t, job)
    || (CanHope(t, job)
        && (|t.queue| < |s.queue| || (|t.queue| <= |s.queue| && t.workerCount < s.workerCount)))
  }

  /** One TryPopJob brings the job nearer. */
  lemma PopIsNearer(s: State, w: nat, job: nat)
    requires CanHope(s, job) && Is(s, w, Between) && s.workerCount > 0 && Inv(TryPop(s, w))
    ensures Nearer(s, TryPop(s, w), job)
  {
    var k := TryPopDoes(s, w);
    hide Inv, TryPop;
    var t := TryPop(s, w);
    var m :| 0 <= m < |s.queue| && s.queue[m] == job;
    assert k < |s.queue| && k <= m;
    if |Linked(s)| > s.maxWorkers {
      assert t.queue[m - k] == job;
    } else if s.queue[k] != job {
      assert t.queue[m - k - 1] == job;
    }
  }

  /** A worker's next TryPopJob: after its job, if it has one, or after it wakes up. */
  lemma WorkerPops(s: State, w: nat, job: nat) returns (actions: seq<Action>)
    requires CanHope(s, job) && w in s.workers && !s.workers[w].Starting?
    ensures CanTake(s, actions) && WorkersOnly(actions) && Nearer(s, After(s, actions), job)
  {
    hide Inv, TryPop, CanTake, After, Nearer, Live;
    CountsAre(s, w);
    match s.workers[w] {
      case Executing(_) =>
        var s1 := Step(s, Finish(w));
        StepKeeps(s, Finish(w));
        StepKeeps(s1, Resume(w));
        PopIsNearer(s1, w, job);
        actions := [Finish(w), Resume(w)];
        TakeTwo(s, Finish(w), Resume(w));
        SameQueue(s, s1, Step(s1, Resume(w)), job);
      case Waiting =>
        var s1 := Awake(s, w);
        AwakeKeeps(s, w);
        StepKeeps(s, Wake(w));
        PopIsNearer(s1, w, job);
        actions := [Wake(w)];
        TakeOne(s, Wake(w));
        SameQueue(s, s1, Step(s, Wake(w)), job);
      case _ =>
        StepKeeps(s, Resume(w));
        PopIsNearer(s, w, job);
        actions := [Resume(w)];
        TakeOne(s, Resume(w));
    }
  }

  lemma TakeOne(s: State, a: Action)
    requires Enabled(s, a)
    ensures CanTake(s, [a]) && After(s, [a]) == Step(s, a)
  {
    hide Step, Enabled;
    var one := [a];
    assert one[1..] == [] && one[0] == a;
    assert CanTake(Step(s, a), []) && After(Step(s, a), []) == Step(s, a);
  }

  lemma SameQueue(s: State, s1: State, t: State, job: nat)
    requires Nearer(s1, t, job) && s1.queue == s.queue && s1.workerCount == s.workerCount
    ensures Nearer(s, t, job)
  {
  }

  /** Where there is a linked worker the counts are not zero. */
  lemma CountsAre(s: State, w: nat)
    requires Inv(s) && w in s.workers && !s.workers[w].Starting?
    ensures s.workerCount > 0 && (s.workers[w].Waiting? ==> s.idleCount > 0)
  {
    assert w in Linked(s);
    SubsetSize({w}, Linked(s));
    if w in Idlers(s) {
      SubsetSize({w}, Idlers(s));
    }
  }

  /** Without a linked worker one is launched, links and takes a job. */
  lemma NewWorkerPops(s: State, job: nat) returns (actions: seq<Action>)
    requires CanHope(s, job) && s.workerCount == 0
    ensures CanTake(s, actions) && WorkersOnly(actions) && WasOrShorter(s, After(s, actions), job)
  {
    hide Inv, TryPop, CanTake, After, WasOrShorter;
    if w :| w in s.workers {
      NoneLinked(s, w);
      LinkPops(s, w, job);
      actions := [Link(w)];
      TakeOne(s, Link(w));
    } else {
      var w := FreshWorker(s.workers.Keys);
      var s1 := Step(s, Launch(w));
      StepKeeps(s, Launch(w));
      LinkPops(s1, w, job);
      actions := [Launch(w), Link(w)];
      TakeTwo(s, Launch(w), Link(w));
      ShorterToo(s, s1, Step(s1, Link(w)), job);
    }
  }

  ghost predicate WasOrShorter(s: State, t: State, job: nat) {
    WasRun(t, job) || (CanHope(t, job) && |t.queue| < |s.queue|)
  }

  lemma ShorterToo(s: State, s1: State, t: State, job: nat)
    requires WasOrShorter(s1, t, job) && s1.queue == s.queue
    ensures WasOrShorter(s, t, job)
  {
  }

  lemma LinkPops(s: State, w: nat, job: nat)
    requires CanHope(s, job) && s.workerCount == 0 && Is(s, w, Starting)
    ensures Enabled(s, Link(w)) && WasOrShorter(s, Step(s, Link(w)), job)
  {
    hide Inv, TryPop;
    var s1 := s.(workers := s.workers[w := Between], workerCount := s.workerCount + 1);
    JustLinkedKeeps(s, w);
    StepKeeps(s, Link(w));
    var k := TryPopDoes(s1, w);
    OneLinked(s1);
    var t := TryPop(s1, w);
    var m :| 0 <= m < |s.queue| && s.queue[m] == job;
    assert k < |s.queue| && k <= m;
    if s.queue[k] != job {
      assert t.queue[m - k - 1] == job;
    }
  }

  lemma OneLinked(s: State)
    requires Inv(s)
    ensures |Linked(s)| == s.workerCount
  {
  }

  /** As long as the cap is above zero and the scheduler is not quiescent, a job in the queue that was not cancelled can
      always be run, by steps of workers alone, whatever is queued before it and whatever the workers are doing. */
  lemma {:induction false} JobCanRun(s: State, job: nat) returns (actions: seq<Action>)
    requires CanHope(s, job)
    ensures CanTake(s, actions) && WorkersOnly(actions) && WasRun(After(s, actions), job)
    decreases |s.queue|, s.workerCount
  {
    hide Inv, CanTake, After, Live;
    if s.workerCount == 0 {
      actions := NewWorkerPops(s, job);
    } else {
      var w := SomeLinked(s);
      actions := WorkerPops(s, w, job);
    }
    var t := After(s, actions);
    if !WasRun(t, job) {
      var more := JobCanRun(t, job);
      TakeConcat(s, actions, more);
      actions := actions + more;
    }
  }

  lemma SomeLinked(s: State) returns (w: nat)
    requires Inv(s) && s.workerCount > 0
    ensures w in s.workers && !s.workers[w].Starting?
  {
    assert |Linked(s)| > 0;
    w :| w in Linked(s);
  }

  /** The cap is what the last policy set, until shutdown. */
  lemma {:induction false} CapIsSet(run: seq<State>, actions: seq<Action>, i: nat, k: nat)
    requires IsRun(run, actions) && i < k < |run| && actions[i].SetPolicy?
    requires forall n | i < n < k :: !actions[n].SetPolicy? && !actions[n].Drain?
    ensures run[k].maxWorkers == actions[i].maxWorkers
    decreases k
  {
    hide TryPop;
    if k > i + 1 {
      CapIsSet(run, actions, i, k - 1);
      CapStays(run[k - 1], actions[k - 1]);
    }
  }

  lemma CapStays(s: State, a: Action)
    requires Enabled(s, a) && !a.SetPolicy? && !a.Drain?
    ensures Step(s, a).maxWorkers == s.maxWorkers
  {
    hide DropDead;
  }
}
