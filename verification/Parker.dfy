/** TParker (base/parker.h): one consumer that parks when its queues are empty and any number of producers that push
    and wake it, as a machine whose steps are the sequentially consistent accesses. */
module Parker {

  datatype Word = Running | Parked

  /** The consumer's place in the idiom of the class comment. */
  datatype Consumer =
    | Working      // looking at its queues
    | Announced    // PrepareToPark done; about to check the queues again
    | Cancelling   // the check found work or a request to stop; about to call CancelPark
    | Entering     // the check found nothing; about to enter the futex wait
    | Blocked      // asleep in the kernel
    | Returning    // back from the wait; about to store Running

  datatype Producer =
    | Idle         // not in Wake
    | Pushed       // work pushed; about to load the word
    | SawParked    // loaded Parked; about to exchange
    | Exchanged    // exchanged Parked for Running; about to call FUTEX_WAKE

  /** queue counts the items pushed and not yet taken. */
  datatype State = State(word: Word, consumer: Consumer, queue: nat, producers: seq<Producer>)

  datatype Action =
    | Take                  // the consumer takes one item
    | Prepare
    | Recheck(stop: bool)   // stop: the consumer was told to stop
    | Cancel
    | Wait
    | WakeUp                // a timeout, a signal or a spurious wakeup
    | Finish
    | Push(producer: nat)
    | Load(producer: nat)
    | Exchange(producer: nat)
    | Futex(producer: nat)

  predicate Enabled(s: State, a: Action) {
    match a
    case Take => s.consumer.Working? && s.queue > 0
    case Prepare => s.consumer.Working?
    case Recheck(_) => s.consumer.Announced?
    case Cancel => s.consumer.Cancelling?
    case Wait => s.consumer.Entering?
    case WakeUp => s.consumer.Blocked?
    case Finish => s.consumer.Returning?
    case Push(p) => p < |s.producers| && s.producers[p].Idle?
    case Load(p) => p < |s.producers| && s.producers[p].Pushed?
    case Exchange(p) => p < |s.producers| && s.producers[p].SawParked?
    case Futex(p) => p < |s.producers| && s.producers[p].Exchanged?
  }

  function Set(s: State, p: nat, pc: Producer): State
    requires p < |s.producers|
  {
    s.(producers := s.producers[p := pc])
  }

  function Step(s: State, a: Action): State
    requires Enabled(s, a)
  {
    match a
    case Take => s.(queue := s.queue - 1)
    case Prepare => s.(word := Parked, consumer := Announced)
    case Recheck(stop) => s.(consumer := if s.queue > 0 || stop then Cancelling else Entering)
    case Cancel => s.(word := Running, consumer := Working)
    case Wait => s.(consumer := if s.word.Parked? then Blocked else Returning)
    case WakeUp => s.(consumer := Returning)
    case Finish => s.(word := Running, consumer := Working)
    case Push(p) => Set(s, p, Pushed).(queue := s.queue + 1)
    case Load(p) => Set(s, p, if s.word.Parked? then SawParked else Idle)
    case Exchange(p) => Set(s, p, if s.word.Parked? then Exchanged else Idle).(word := Running)
    case Futex(p) => Set(s, p, Idle).(consumer := if s.consumer.Blocked? then Returning else s.consumer)
  }

  /** Some producer has still to look at the word. */
  ghost predicate WillLook(s: State) {
    exists p | 0 <= p < |s.producers| :: s.producers[p].Pushed? || s.producers[p].SawParked?
  }

  /** Some producer has still to call FUTEX_WAKE. */
  ghost predicate WillWake(s: State) {
    exists p | 0 <= p < |s.producers| :: s.producers[p].Exchanged?
  }

  ghost predicate Inv(s: State) {
    && ((s.consumer.Entering? || s.consumer.Blocked?) && s.word.Parked? && s.queue > 0 ==> WillLook(s))
    && (s.consumer.Blocked? && s.word.Running? ==> WillWake(s))
    && (s.consumer.Working? ==> s.word.Running?)
  }

  /** The producer that keeps the promise after a step: the same one, or the one that stepped. */
  lemma StepKeeps(s: State, a: Action)
    requires Inv(s) && Enabled(s, a)
    ensures Inv(Step(s, a))
  {
    var s' := Step(s, a);
    if WillLook(s) {
      var p :| 0 <= p < |s.producers| && (s.producers[p].Pushed? || s.producers[p].SawParked?);
      assert p < |s'.producers| && (s'.producers[p] == s.producers[p] || a == Load(p) || a == Exchange(p));
    }
    if WillWake(s) {
      var p :| 0 <= p < |s.producers| && s.producers[p].Exchanged?;
      assert p < |s'.producers| && (s'.producers[p] == s.producers[p] || a == Futex(p));
    }
    match a {
      case Push(p) => assert s'.producers[p].Pushed?;
      case Exchange(p) => assert s'.producers[p].Exchanged? || s'.producers[p].Idle?;
      case _ =>
    }
  }

  ghost predicate Start(s: State) {
    s.word.Running? && s.consumer.Working? && s.queue == 0 && forall p | 0 <= p < |s.producers| :: s.producers[p].Idle?
  }

  ghost predicate IsRun(run: seq<State>, actions: seq<Action>) {
    && |run| == |actions| + 1 && Start(run[0])
    && forall i | 0 <= i < |actions| :: Enabled(run[i], actions[i]) && run[i + 1] == Step(run[i], actions[i])
  }

  lemma {:induction false} RunKeeps(run: seq<State>, actions: seq<Action>, i: nat)
    requires IsRun(run, actions) && i < |run|
    ensures Inv(run[i])
    decreases i
  {
    if i > 0 {
      RunKeeps(run, actions, i - 1);
      StepKeeps(run[i - 1], actions[i - 1]);
    }
  }

  /** No wakeup is lost: in no reachable state is the consumer blocked with work queued and every Wake finished. */
  lemma NoLostWakeup(run: seq<State>, actions: seq<Action>, i: nat)
    requires IsRun(run, actions) && i < |run| && run[i].consumer.Blocked? && run[i].queue > 0
    ensures exists p | 0 <= p < |run[i].producers| :: !run[i].producers[p].Idle?
  {
    RunKeeps(run, actions, i);
  }

  // ----- the wake comes ----------------------------------------------------------------

  /** The next step of a producer inside Wake. */
  function NextOf(pc: Producer, p: nat): Action
    requires !pc.Idle?
  {
    match pc
    case Pushed => Load(p)
    case SawParked => Exchange(p)
    case Exchanged => Futex(p)
  }

  /** A producer left alone finishes its Wake. */
  function Alone(s: State, p: nat, n: nat): State
    requires p < |s.producers|
    decreases n
  {
    if n == 0 || s.producers[p].Idle? then s else Alone(Step(s, NextOf(s.producers[p], p)), p, n - 1)
  }

  /** Whenever the consumer is blocked with work queued, some producer's own next three steps wake it. */
  lemma SomeoneWakes(s: State) returns (p: nat)
    requires Inv(s) && s.consumer.Blocked? && s.queue > 0
    ensures p < |s.producers| && Alone(s, p, 3).consumer.Returning?
  {
    if s.word.Running? {
      p :| 0 <= p < |s.producers| && s.producers[p].Exchanged?;
      var s1 := Step(s, Futex(p));
      assert Alone(s, p, 3) == Alone(s1, p, 2) == s1;
    } else {
      p :| 0 <= p < |s.producers| && (s.producers[p].Pushed? || s.producers[p].SawParked?);
      var s1 := if s.producers[p].Pushed? then Step(s, Load(p)) else s;
      var s2 := Step(s1, Exchange(p));
      var s3 := Step(s2, Futex(p));
      assert s3.consumer.Returning? && s3.producers[p].Idle?;
      assert Alone(s2, p, 1) == Alone(s3, p, 0) == s3;
      assert Alone(s2, p, 2) == Alone(s3, p, 1) == s3;
      assert Alone(s1, p, 2) == Alone(s2, p, 1);
      assert Alone(s1, p, 3) == Alone(s2, p, 2);
    }
  }

  /** The steps the producers still have to make to finish their Wakes. */
  ghost function Pending(ps: seq<Producer>): nat {
    if ps == [] then 0
    else (match ps[0] case Idle => 0 case Pushed => 3 case SawParked => 2 case Exchanged => 1) + Pending(ps[1..])
  }

  lemma {:induction false} PendingDrops(ps: seq<Producer>, p: nat, pc: Producer)
    requires p < |ps| && !ps[p].Idle?
    requires pc.Idle? || (ps[p].Pushed? && pc.SawParked?) || (ps[p].SawParked? && pc.Exchanged?)
    ensures Pending(ps[p := pc]) < Pending(ps)
    decreases ps
  {
    if p > 0 {
      PendingDrops(ps[1..], p - 1, pc);
      assert ps[p := pc][1..] == ps[1..][p - 1 := pc];
    } else {
      assert ps[p := pc][1..] == ps[1..];
    }
  }

  predicate OfWake(a: Action) {
    a.Load? || a.Exchange? || a.Futex?
  }

  /** These steps of producers inside Wake lead from s to t. */
  ghost predicate Leads(s: State, actions: seq<Action>, t: State)
    decreases actions
  {
    if actions == [] then s == t
    else OfWake(actions[0]) && Enabled(s, actions[0]) && Leads(Step(s, actions[0]), actions[1..], t)
  }

  /** While the consumer is blocked with work queued, some producer inside Wake has a step to take. */
  lemma SomeoneCanStep(s: State) returns (a: Action)
    requires Inv(s) && s.consumer.Blocked? && s.queue > 0
    ensures OfWake(a) && Enabled(s, a)
  {
    var p := SomeoneWakes(s);
    a := NextOf(s.producers[p], p);
  }

  /** Without new pushes the producers, in whatever order they step, are out of steps after at most Pending of them, and
      once they are out of steps the consumer is awake or nothing is queued. */
  lemma {:induction false} WakeIsBounded(s: State, actions: seq<Action>, t: State)
    requires Inv(s) && Leads(s, actions, t)
    ensures |actions| <= Pending(s.producers)
    ensures (forall a: Action | OfWake(a) :: !Enabled(t, a)) ==> !(t.consumer.Blocked? && t.queue > 0)
    decreases actions
  {
    if actions == [] {
      if s.consumer.Blocked? && s.queue > 0 {
        var a := SomeoneCanStep(s);
      }
    } else {
      var a := actions[0];
      StepKeeps(s, a);
      PendingDrops(s.producers, a.producer, Step(s, a).producers[a.producer]);
      WakeIsBounded(Step(s, a), actions[1..], t);
    }
  }

  // ----- everything pushed is taken ----------------------------------------------------

  ghost function Pushes(actions: seq<Action>): nat {
    if actions == [] then 0 else Pushes(actions[..|actions| - 1]) + if actions[|actions| - 1].Push? then 1 else 0
  }

  ghost function Takes(actions: seq<Action>): nat {
    if actions == [] then 0 else Takes(actions[..|actions| - 1]) + if actions[|actions| - 1].Take? then 1 else 0
  }

  /** At every point of every run the queue holds what was pushed and not taken. */
  lemma {:induction false} NothingIsLost(run: seq<State>, actions: seq<Action>, i: nat)
    requires IsRun(run, actions) && i < |run|
    ensures run[i].queue + Takes(actions[..i]) == Pushes(actions[..i])
    decreases i
  {
    if i > 0 {
      NothingIsLost(run, actions, i - 1);
      assert actions[..i][..i - 1] == actions[..i - 1] && actions[..i][i - 1] == actions[i - 1];
    }
  }

  /** The consumer goes to sleep only if, since it last announced itself, it found its queues empty and was not told to
      stop. */
  lemma {:induction false} SleepsOnlyWhenEmpty(run: seq<State>, actions: seq<Action>, i: nat) returns (k: nat)
    requires IsRun(run, actions) && i < |run| && (run[i].consumer.Entering? || run[i].consumer.Blocked?)
    ensures k < i && actions[k] == Recheck(false) && run[k].queue == 0 && run[k].consumer.Announced?
    ensures forall m | k < m < i :: actions[m].Wait? || actions[m].Push? || OfWake(actions[m])
    decreases i
  {
    if run[i - 1].consumer.Announced? && actions[i - 1].Recheck? {
      k := i - 1;
    } else {
      k := SleepsOnlyWhenEmpty(run, actions, i - 1);
    }
  }

  /** A step without new pushes, timeouts or a request to stop, of a consumer that parks only when it sees nothing. */
  predicate Quiet(s: State, a: Action) {
    Enabled(s, a) && !a.Push? && !a.WakeUp? && a != Recheck(true) && (a.Prepare? ==> s.queue == 0)
  }

  ghost predicate Path(s: State, actions: seq<Action>, t: State)
    decreases actions
  {
    if actions == [] then s == t else Quiet(s, actions[0]) && Path(Step(s, actions[0]), actions[1..], t)
  }

  /** The steps the consumer has to make before it sleeps, if nobody interferes. */
  ghost function Distance(s: State): nat {
    match s.consumer
    case Working => 3
    case Announced => if s.queue > 0 then 5 else if s.word.Parked? then 2 else 6
    case Cancelling => 4
    case Entering => if s.word.Parked? then 1 else 5
    case Blocked => 0
    case Returning => 4
  }

  ghost function StepsLeft(s: State): nat {
    s.queue + 5 * Pending(s.producers) + Distance(s)
  }

  lemma QuietStep(s: State, a: Action)
    requires Quiet(s, a)
    ensures StepsLeft(Step(s, a)) < StepsLeft(s)
  {
    if OfWake(a) {
      PendingDrops(s.producers, a.producer, Step(s, a).producers[a.producer]);
    }
  }

  /** When the pushes stop, then whatever the order of the steps there are at most StepsLeft of them, and when there are
      no more everything pushed has been taken, the consumer sleeps and every Wake is finished. */
  lemma {:induction false} EverythingIsTaken(s: State, actions: seq<Action>, t: State)
    requires Inv(s) && Path(s, actions, t)
    ensures |actions| + StepsLeft(t) <= StepsLeft(s)
    ensures (forall a: Action :: !Quiet(t, a)) ==>
              t.queue == 0 && t.consumer.Blocked? && forall p | 0 <= p < |t.producers| :: t.producers[p].Idle?
    decreases actions
  {
    if actions == [] {
      if forall a: Action :: !Quiet(s, a) {
        AtRest(s);
      }
    } else {
      StepKeeps(s, actions[0]);
      QuietStep(s, actions[0]);
      EverythingIsTaken(Step(s, actions[0]), actions[1..], t);
    }
  }

  lemma AtRest(s: State)
    requires Inv(s) && forall a: Action :: !Quiet(s, a)
    ensures s.queue == 0 && s.consumer.Blocked? && forall p | 0 <= p < |s.producers| :: s.producers[p].Idle?
  {
    forall p | 0 <= p < |s.producers| ensures s.producers[p].Idle? {
      assert !Quiet(s, Load(p)) && !Quiet(s, Exchange(p)) && !Quiet(s, Futex(p));
    }
    assert !Quiet(s, Take) && !Quiet(s, Prepare) && !Quiet(s, Recheck(false)) && !Quiet(s, Cancel);
    assert !Quiet(s, Wait) && !Quiet(s, Finish);
  }

  /** A timeout or a spurious wakeup is enough to make a sleeping consumer take what is queued. */
  lemma TimeoutSuffices(s: State)
    requires s.consumer.Blocked? && s.queue > 0
    ensures Enabled(s, WakeUp) && Path(Step(s, WakeUp), [Finish, Take], s.(consumer := Working, word := Running,
                                                                             queue := s.queue - 1))
  {
    var s1 := Step(s, WakeUp);
    var s2 := Step(s1, Finish);
    assert [Finish, Take][1..] == [Take] && [Take][1..] == [];
    assert Path(Step(s2, Take), [], Step(s2, Take));
    assert Path(s2, [Take], Step(s2, Take));
  }
}
