/** TThreadLocalSigmaCalc (base/thread_local_sigma_calc.h) as a machine whose steps are the lock operations and the
    critical sections of any number of producers and one drain or report at a time. */
module ThreadLocalSigma {
  import opened Common
  import opened Sigma

  datatype Lock = Free | ByPusher | ByDrainer

  /** One thread's calculator and its mutex. */
  datatype Entry = Entry(lock: Lock, stats: Stats)

  /** Where a drain or a report stands in its loop over the entries. */
  datatype At = Between | Locked(thread: nat) | Added(thread: nat) | Cleared(thread: nat)

  /** A drain or a report holds the structure mutex from beginning to end. mark is a ghost: how many samples had been
      pushed when it began. */
  datatype Drain =
    | Idle
    | Draining(aggregate: Stats, todo: set<nat>, at: At, mark: nat)
    | Reporting(aggregate: Stats, todo: set<nat>, at: At, mark: nat)

  /** The shared block, what the drains and the reports finished so far gave, and every sample pushed, in order. */
  datatype State = State(
    entries: map<nat, Entry>, retired: Stats, drain: Drain,
    drains: seq<Stats>, answers: seq<Stats>, pushed: seq<real>)

  datatype Action =
    | Register(thread: nat)
    | LockEntry(thread: nat)
    | PushAndUnlock(thread: nat, value: real)
    | Exit(thread: nat)
    | DrainBegin
    | DrainLock(thread: nat)
    | DrainAdd
    | DrainReset
    | DrainUnlock
    | DrainEnd
    | ReportBegin
    | ReportLock(thread: nat)
    | ReportAdd
    | ReportUnlock
    | ReportEnd

  const EMPTY := Stats(0, 0.0, 0.0, 0.0, 0.0)

  function Reset(s: Stats): Stats {
    s.(count := 0)
  }

  predicate Enabled(s: State, a: Action) {
    match a
    case Register(t) => s.drain.Idle? && t !in s.entries
    case LockEntry(t) => t in s.entries && s.entries[t].lock.Free?
    case PushAndUnlock(t, _) => t in s.entries && s.entries[t].lock.ByPusher?
    case Exit(t) => s.drain.Idle? && t in s.entries && s.entries[t].lock.Free?
    case DrainBegin => s.drain.Idle?
    case DrainLock(t) => s.drain.Draining? && s.drain.at.Between? && t in s.drain.todo && t in s.entries
                         && s.entries[t].lock.Free?
    case DrainAdd => s.drain.Draining? && s.drain.at.Locked? && s.drain.at.thread in s.entries
    case DrainReset => s.drain.Draining? && s.drain.at.Added? && s.drain.at.thread in s.entries
    case DrainUnlock => s.drain.Draining? && s.drain.at.Cleared? && s.drain.at.thread in s.entries
    case DrainEnd => s.drain.Draining? && s.drain.at.Between? && s.drain.todo == {}
    case ReportBegin => s.drain.Idle?
    case ReportLock(t) => s.drain.Reporting? && s.drain.at.Between? && t in s.drain.todo && t in s.entries
                          && s.entries[t].lock.Free?
    case ReportAdd => s.drain.Reporting? && s.drain.at.Locked? && s.drain.at.thread in s.entries
    case ReportUnlock => s.drain.Reporting? && s.drain.at.Added? && s.drain.at.thread in s.entries
    case ReportEnd => s.drain.Reporting? && s.drain.at.Between? && s.drain.todo == {}
  }

  function SetEntry(s: State, t: nat, e: Entry): State {
    s.(entries := s.entries[t := e])
  }

  function Step(s: State, a: Action): State
    requires Enabled(s, a)
  {
    match a
    case Register(t) => SetEntry(s, t, Entry(Free, EMPTY))
    case LockEntry(t) => SetEntry(s, t, s.entries[t].(lock := ByPusher))
    case PushAndUnlock(t, v) => SetEntry(s, t, Entry(Free, Pushed(s.entries[t].stats, v))).(pushed := s.pushed + [v])
    case Exit(t) => s.(retired := Merged(s.retired, s.entries[t].stats), entries := s.entries - {t})
    case DrainBegin =>
      s.(retired := Reset(s.retired), drain := Draining(s.retired, s.entries.Keys, Between, |s.pushed|))
    case DrainLock(t) =>
      var d := s.drain;
      SetEntry(s, t, s.entries[t].(lock := ByDrainer)).(drain := Draining(d.aggregate, d.todo, Locked(t), d.mark))
    case DrainAdd =>
      var d, t := s.drain, s.drain.at.thread;
      s.(drain := Draining(Merged(d.aggregate, s.entries[t].stats), d.todo, Added(t), d.mark))
    case DrainReset =>
      var d, t := s.drain, s.drain.at.thread;
      SetEntry(s, t, s.entries[t].(stats := Reset(s.entries[t].stats)))
        .(drain := Draining(d.aggregate, d.todo, Cleared(t), d.mark))
    case DrainUnlock =>
      var d, t := s.drain, s.drain.at.thread;
      SetEntry(s, t, s.entries[t].(lock := Free)).(drain := Draining(d.aggregate, d.todo - {t}, Between, d.mark))
    case DrainEnd => s.(drain := Idle, drains := s.drains + [s.drain.aggregate])
    case ReportBegin => s.(drain := Reporting(s.retired, s.entries.Keys, Between, |s.pushed|))
    case ReportLock(t) =>
      var d := s.drain;
      SetEntry(s, t, s.entries[t].(lock := ByDrainer)).(drain := Reporting(d.aggregate, d.todo, Locked(t), d.mark))
    case ReportAdd =>
      var d, t := s.drain, s.drain.at.thread;
      s.(drain := Reporting(Merged(d.aggregate, s.entries[t].stats), d.todo, Added(t), d.mark))
    case ReportUnlock =>
      var d, t := s.drain, s.drain.at.thread;
      SetEntry(s, t, s.entries[t].(lock := Free)).(drain := Reporting(d.aggregate, d.todo - {t}, Between, d.mark))
    case ReportEnd => s.(drain := Idle, answers := s.answers + [s.drain.aggregate])
  }

  // ----- where each sample is ----------------------------------------------------------

  datatype Place = InEntry(thread: nat) | InRetired | InDrain | Reported(drain: nat)

  /** The n-th sample pushed. */
  datatype Sample = Sample(number: nat)

  /** The samples of each place, and the place of each sample. */
  datatype View = View(lists: map<Place, seq<Sample>>, where: map<Sample, Place>)

  /** Every sample is in exactly one place, and there exactly once. */
  ghost predicate Placed(v: View) {
    && (forall p | p in v.lists :: NoDup(v.lists[p]))
    && (forall p, x | p in v.lists && x in v.lists[p] :: x in v.where && v.where[x] == p)
    && (forall x | x in v.where :: v.where[x] in v.lists && x in v.lists[v.where[x]])
  }

  ghost function Val(pushed: seq<real>, x: Sample): real {
    if x.number < |pushed| then pushed[x.number] else 0.0
  }

  /** The values of these samples. */
  ghost function Vals(pushed: seq<real>, xs: seq<Sample>): seq<real> {
    seq(|xs|, k requires 0 <= k < |xs| => Val(pushed, xs[k]))
  }

  /** All samples of one place move behind those of another. */
  ghost function Moved(v: View, from: Place, to: Place): View
    requires from in v.lists && to in v.lists
  {
    View(v.lists[from := []][to := v.lists[to] + v.lists[from]],
         map x | x in v.where :: if v.where[x] == from then to else v.where[x])
  }

  lemma NoDupEmpty<T>()
    ensures NoDup<T>([])
  {
  }

  lemma MovedPlaces(v: View, from: Place, to: Place)
    requires Placed(v) && from in v.lists && to in v.lists && from != to
    ensures Placed(Moved(v, from, to))
  {
    hide NoDup;
    var w := Moved(v, from, to);
    forall x | x in v.lists[to] ensures x !in v.lists[from] {
      assert v.where[x] == to;
    }
    NoDupConcat(v.lists[to], v.lists[from]);
    NoDupEmpty<Sample>();
    forall p, x | p in w.lists && x in w.lists[p] ensures x in w.where && w.where[x] == p {
      if p == to {
        assert x in v.lists[to] || x in v.lists[from];
      } else {
        assert x in v.lists[p];
      }
    }
    forall x | x in w.where ensures w.where[x] in w.lists && x in w.lists[w.where[x]] {
      assert x in v.lists[v.where[x]];
    }
  }

  /** One new sample. */
  ghost function Appended(v: View, p: Place, x: Sample): View
    requires p in v.lists
  {
    View(v.lists[p := v.lists[p] + [x]], v.where[x := p])
  }

  lemma AppendedPlaces(v: View, p: Place, x: Sample)
    requires Placed(v) && p in v.lists && x !in v.where
    ensures Placed(Appended(v, p, x))
  {
    assert x !in v.lists[p];
    PushNew(v.lists[p], x);
  }

  // ----- the invariant -----------------------------------------------------------------

  ghost predicate Roots(s: State, v: View) {
    && InRetired in v.lists && InDrain in v.lists
    && (forall t: nat :: InEntry(t) in v.lists <==> t in s.entries)
    && (forall k: nat :: Reported(k) in v.lists <==> k < |s.drains|)
  }

  /** The samples are those pushed. */
  ghost predicate Known(s: State, v: View) {
    forall x {:trigger x in v.where} :: x in v.where <==> x.number < |s.pushed|
  }

  ghost predicate Holds(s: State, v: View, stats: Stats, p: Place)
    requires p in v.lists
  {
    Represents(stats, Vals(s.pushed, v.lists[p]))
  }

  /** Every calculator holds the statistics of the samples of its place. Between a drain's Add and its Reset the
      samples of the entry are the drain's. */
  ghost predicate Faithful(s: State, v: View)
    requires Roots(s, v)
  {
    && (forall t | t in s.entries ::
          if s.drain.Draining? && s.drain.at == Added(t) then v.lists[InEntry(t)] == []
          else Holds(s, v, s.entries[t].stats, InEntry(t)))
    && Holds(s, v, s.retired, InRetired)
    && (if s.drain.Draining? then Holds(s, v, s.drain.aggregate, InDrain) else v.lists[InDrain] == [])
    && (forall k: nat | k < |s.drains| :: Holds(s, v, s.drains[k], Reported(k)))
    && (s.drain.Draining? && s.drain.at.Cleared? && s.drain.at.thread in s.entries ==>
          v.lists[InEntry(s.drain.at.thread)] == [])
  }

  /** Who holds an entry's mutex. */
  ghost predicate Locking(s: State) {
    && (forall t | t in s.entries ::
          s.entries[t].lock.ByDrainer? <==> !s.drain.Idle? && !s.drain.at.Between? && s.drain.at.thread == t)
    && (!s.drain.Idle? ==>
          && s.drain.todo <= s.entries.Keys
          && (!s.drain.at.Between? ==> s.drain.at.thread in s.drain.todo))
    && (s.drain.Reporting? ==> !s.drain.at.Cleared?)
  }

  /** A sample pushed before the drain began is the drain's already, or an earlier drain's, or in an entry the drain
      has still to visit. */
  ghost predicate Marked(s: State, v: View)
    requires Known(s, v)
  {
    s.drain.Draining? ==>
      && s.drain.mark <= |s.pushed|
      && forall x | x in v.where && x.number < s.drain.mark ::
           match v.where[x]
           case InEntry(t) => t in s.drain.todo
           case InRetired => false
           case _ => true
  }

  ghost predicate Inv(s: State, v: View) {
    Placed(v) && Roots(s, v) && Known(s, v) && Faithful(s, v) && Locking(s) && Marked(s, v)
  }

  // ----- every step keeps it -----------------------------------------------------------

  lemma ValsConcat(pushed: seq<real>, xs: seq<Sample>, ys: seq<Sample>)
    ensures Vals(pushed, xs + ys) == Vals(pushed, xs) + Vals(pushed, ys)
  {
  }

  /** A later push changes no earlier sample. */
  lemma ValsGrow(s: State, v: View, value: real, p: Place)
    requires Placed(v) && Known(s, v) && p in v.lists
    ensures Vals(s.pushed + [value], v.lists[p]) == Vals(s.pushed, v.lists[p])
  {
    forall x | x in v.lists[p] ensures Val(s.pushed + [value], x) == Val(s.pushed, x) {
      assert x in v.where;
    }
  }

  lemma EmptyIsFaithful(s: State, v: View, stats: Stats, p: Place)
    requires p in v.lists && stats.count == 0
    ensures Holds(s, v, stats, p) <==> v.lists[p] == []
  {
  }

  lemma RegisterPlaces(v: View, t: nat)
    requires Placed(v) && InEntry(t) !in v.lists
    ensures Placed(v.(lists := v.lists[InEntry(t) := []]))
  {
  }

  lemma Listed(s: State, v: View)
    requires Roots(s, v)
    ensures InRetired in v.lists && InDrain in v.lists && forall t | t in s.entries :: InEntry(t) in v.lists
    ensures Reported(|s.drains|) !in v.lists
  {
  }

  lemma RegisterKeeps(s: State, v: View, t: nat)
    requires Inv(s, v) && Enabled(s, Register(t))
    ensures Inv(Step(s, Register(t)), v.(lists := v.lists[InEntry(t) := []]))
  {
    hide Represents, Placed, Vals;
    var s', v' := Step(s, Register(t)), v.(lists := v.lists[InEntry(t) := []]);
    RegisterPlaces(v, t);
    EmptyIsFaithful(s', v', EMPTY, InEntry(t));
  }

  lemma LockEntryKeeps(s: State, v: View, t: nat)
    requires Inv(s, v) && Enabled(s, LockEntry(t))
    ensures Inv(Step(s, LockEntry(t)), v)
  {
    hide Represents, Placed;
  }

  lemma ValsOfNew(pushed: seq<real>, value: real)
    ensures Vals(pushed + [value], [Sample(|pushed|)]) == [value]
  {
  }

  /** The place pushed into holds one more sample, the others what they held. */
  lemma PushHolds(s: State, v: View, s': State, t: nat, value: real, stats: Stats, p: Place)
    requires Placed(v) && Known(s, v) && InEntry(t) in v.lists && p in v.lists && Holds(s, v, stats, p)
    requires s'.pushed == s.pushed + [value]
    ensures Holds(s', Appended(v, InEntry(t), Sample(|s.pushed|)),
                  if p == InEntry(t) then Pushed(stats, value) else stats, p)
  {
    hide Represents, Vals, Placed, Known, Pushed;
    var x := Sample(|s.pushed|);
    ValsGrow(s, v, value, p);
    if p == InEntry(t) {
      ValsConcat(s'.pushed, v.lists[p], [x]);
      ValsOfNew(s.pushed, value);
      PushRepresents(stats, Vals(s.pushed, v.lists[p]), value);
    }
  }

  lemma PushRoots(s: State, v: View, t: nat, value: real)
    requires Roots(s, v) && Enabled(s, PushAndUnlock(t, value))
    ensures var s', v' := Step(s, PushAndUnlock(t, value)), Appended(v, InEntry(t), Sample(|s.pushed|));
            && Roots(s', v') && s'.entries.Keys == s.entries.Keys && v'.lists.Keys == v.lists.Keys
            && forall p | p in v.lists && p != InEntry(t) :: v'.lists[p] == v.lists[p]
  {
    hide Pushed;
  }

  lemma PushFaithful(s: State, v: View, t: nat, value: real)
    requires Inv(s, v) && Enabled(s, PushAndUnlock(t, value))
    ensures var s', v' := Step(s, PushAndUnlock(t, value)), Appended(v, InEntry(t), Sample(|s.pushed|));
            Roots(s', v') && Faithful(s', v')
  {
    hide Placed, Known, Marked, Pushed, Holds, Appended, Represents, Vals;
    var s', v' := Step(s, PushAndUnlock(t, value)), Appended(v, InEntry(t), Sample(|s.pushed|));
    PushRoots(s, v, t, value);
    forall u | u in s.entries && Holds(s, v, s.entries[u].stats, InEntry(u))
      ensures Holds(s', v', s'.entries[u].stats, InEntry(u))
    {
      PushHolds(s, v, s', t, value, s.entries[u].stats, InEntry(u));
    }
    PushHolds(s, v, s', t, value, s.retired, InRetired);
    if s.drain.Draining? {
      PushHolds(s, v, s', t, value, s.drain.aggregate, InDrain);
    }
    forall k: nat | k < |s.drains| ensures Holds(s', v', s'.drains[k], Reported(k)) {
      PushHolds(s, v, s', t, value, s.drains[k], Reported(k));
    }
  }

  lemma PushMarked(s: State, v: View, t: nat, value: real)
    requires Known(s, v) && Marked(s, v) && Locking(s) && InEntry(t) in v.lists && Enabled(s, PushAndUnlock(t, value))
    ensures var s', v' := Step(s, PushAndUnlock(t, value)), Appended(v, InEntry(t), Sample(|s.pushed|));
            Known(s', v') && Marked(s', v') && Locking(s')
  {
    hide Pushed;
  }

  lemma PushKeeps(s: State, v: View, t: nat, value: real)
    requires Inv(s, v) && Enabled(s, PushAndUnlock(t, value))
    ensures Inv(Step(s, PushAndUnlock(t, value)), Appended(v, InEntry(t), Sample(|s.pushed|)))
  {
    hide Faithful, Placed, Pushed, Marked, Locking, Appended;
    PushFaithful(s, v, t, value);
    AppendedPlaces(v, InEntry(t), Sample(|s.pushed|));
    PushMarked(s, v, t, value);
  }

  /** The samples of one place joined to those of another. */
  lemma MoveHolds(s: State, v: View, from: Place, to: Place, a: Stats, b: Stats)
    requires from in v.lists && to in v.lists && from != to && Holds(s, v, a, to) && Holds(s, v, b, from)
    ensures Holds(s, Moved(v, from, to), Merged(a, b), to)
  {
    hide Represents, Vals, Merged;
    ValsConcat(s.pushed, v.lists[to], v.lists[from]);
    MergeRepresents(a, b, Vals(s.pushed, v.lists[to]), Vals(s.pushed, v.lists[from]));
  }

  ghost function Without(v: View, p: Place): View {
    v.(lists := v.lists - {p})
  }

  lemma SameHolds(s: State, v: View, s': State, v': View, stats: Stats, p: Place, q: Place)
    requires p in v.lists && q in v'.lists && v'.lists[q] == v.lists[p] && s'.pushed == s.pushed
    ensures Holds(s, v, stats, p) == Holds(s', v', stats, q)
  {
    hide Represents, Vals;
  }

  lemma ExitFaithful(s: State, v: View, t: nat)
    requires Roots(s, v) && Faithful(s, v) && Enabled(s, Exit(t))
    ensures var s', v' := Step(s, Exit(t)), Without(Moved(v, InEntry(t), InRetired), InEntry(t));
            Roots(s', v') && Faithful(s', v')
  {
    hide Represents, Merged, Vals, Holds;
    var s', w := Step(s, Exit(t)), Moved(v, InEntry(t), InRetired);
    var v' := Without(w, InEntry(t));
    MoveHolds(s, v, InEntry(t), InRetired, s.retired, s.entries[t].stats);
    SameHolds(s, w, s', v', s'.retired, InRetired, InRetired);
    forall u | u in s'.entries ensures Holds(s', v', s'.entries[u].stats, InEntry(u)) {
      SameHolds(s, v, s', v', s.entries[u].stats, InEntry(u), InEntry(u));
    }
    forall k: nat | k < |s.drains| ensures Holds(s', v', s.drains[k], Reported(k)) {
      SameHolds(s, v, s', v', s.drains[k], Reported(k), Reported(k));
    }
  }

  lemma ExitPlaces(s: State, v: View, t: nat)
    requires Placed(v) && Roots(s, v) && Known(s, v) && t in s.entries
    ensures var v' := Without(Moved(v, InEntry(t), InRetired), InEntry(t)); Placed(v') && Known(s, v')
  {
    hide Roots;
    Listed(s, v);
    MovedPlaces(v, InEntry(t), InRetired);
    var w := Moved(v, InEntry(t), InRetired);
    assert w.lists[InEntry(t)] == [] && w.where.Keys == v.where.Keys;
  }

  lemma ExitKeeps(s: State, v: View, t: nat)
    requires Inv(s, v) && Enabled(s, Exit(t))
    ensures Inv(Step(s, Exit(t)), Without(Moved(v, InEntry(t), InRetired), InEntry(t)))
  {
    hide Placed, Faithful, Merged, Represents;
    ExitFaithful(s, v, t);
    ExitPlaces(s, v, t);
  }

  lemma DrainBeginFaithful(s: State, v: View)
    requires Roots(s, v) && Faithful(s, v) && Enabled(s, DrainBegin)
    ensures var s', v' := Step(s, DrainBegin), Moved(v, InRetired, InDrain); Roots(s', v') && Faithful(s', v')
  {
    hide Represents, Vals;
    var s', v' := Step(s, DrainBegin), Moved(v, InRetired, InDrain);
    assert v.lists[InDrain] + v.lists[InRetired] == v.lists[InRetired];
    EmptyIsFaithful(s', v', s'.retired, InRetired);
  }

  lemma DrainBeginMarks(s: State, v: View)
    requires Placed(v) && Roots(s, v) && Known(s, v) && Enabled(s, DrainBegin)
    ensures var s', v' := Step(s, DrainBegin), Moved(v, InRetired, InDrain); Known(s', v') && Marked(s', v')
  {
  }

  lemma DrainBeginKeeps(s: State, v: View)
    requires Inv(s, v) && Enabled(s, DrainBegin)
    ensures Inv(Step(s, DrainBegin), Moved(v, InRetired, InDrain))
  {
    hide Placed, Faithful, Roots, Moved, Marked, Known;
    Listed(s, v);
    MovedPlaces(v, InRetired, InDrain);
    DrainBeginFaithful(s, v);
    DrainBeginMarks(s, v);
  }

  lemma DrainLockKeeps(s: State, v: View, t: nat)
    requires Inv(s, v) && Enabled(s, DrainLock(t))
    ensures Inv(Step(s, DrainLock(t)), v)
  {
    hide Placed, Represents;
  }

  lemma DrainAddFaithful(s: State, v: View)
    requires Roots(s, v) && Faithful(s, v) && Enabled(s, DrainAdd)
    ensures var s', v' := Step(s, DrainAdd), Moved(v, InEntry(s.drain.at.thread), InDrain);
            Roots(s', v') && Faithful(s', v')
  {
    hide Represents, Merged, Vals, Holds;
    var t := s.drain.at.thread;
    var s', v' := Step(s, DrainAdd), Moved(v, InEntry(t), InDrain);
    MoveHolds(s, v, InEntry(t), InDrain, s.drain.aggregate, s.entries[t].stats);
    SameHolds(s, v', s', v', s'.drain.aggregate, InDrain, InDrain);
    forall u | u in s.entries && u != t ensures Holds(s', v', s.entries[u].stats, InEntry(u)) {
      SameHolds(s, v, s', v', s.entries[u].stats, InEntry(u), InEntry(u));
    }
    SameHolds(s, v, s', v', s.retired, InRetired, InRetired);
    forall k: nat | k < |s.drains| ensures Holds(s', v', s.drains[k], Reported(k)) {
      SameHolds(s, v, s', v', s.drains[k], Reported(k), Reported(k));
    }
  }

  lemma DrainAddMarks(s: State, v: View)
    requires Known(s, v) && Marked(s, v) && Locking(s) && Enabled(s, DrainAdd)
    requires InDrain in v.lists && InEntry(s.drain.at.thread) in v.lists
    ensures var s', v' := Step(s, DrainAdd), Moved(v, InEntry(s.drain.at.thread), InDrain);
            Known(s', v') && Marked(s', v') && Locking(s')
  {
    hide Merged;
  }

  lemma DrainAddKeeps(s: State, v: View)
    requires Inv(s, v) && Enabled(s, DrainAdd)
    ensures Inv(Step(s, DrainAdd), Moved(v, InEntry(s.drain.at.thread), InDrain))
  {
    hide Placed, Faithful, Roots, Merged, Moved, Known, Marked, Locking;
    Listed(s, v);
    MovedPlaces(v, InEntry(s.drain.at.thread), InDrain);
    DrainAddFaithful(s, v);
    DrainAddMarks(s, v);
  }

  /** Where the samples are does not depend on what the calculators hold. */
  lemma StayMarked(s: State, s': State, v: View)
    requires Known(s, v) && Marked(s, v) && s'.pushed == s.pushed && s.drain.Draining? && s'.drain.Draining?
    requires s'.drain.todo == s.drain.todo && s'.drain.mark == s.drain.mark
    ensures Known(s', v) && Marked(s', v)
  {
  }

  lemma DrainResetKeeps(s: State, v: View)
    requires Inv(s, v) && Enabled(s, DrainReset)
    ensures Inv(Step(s, DrainReset), v)
  {
    hide Placed, Represents, Vals, Known, Marked;
    var t := s.drain.at.thread;
    EmptyIsFaithful(Step(s, DrainReset), v, Reset(s.entries[t].stats), InEntry(t));
    StayMarked(s, Step(s, DrainReset), v);
  }

  lemma NoneLeft(s: State, v: View)
    requires Placed(v) && Roots(s, v) && Faithful(s, v) && Enabled(s, DrainUnlock)
    ensures forall x | x in v.where :: v.where[x] != InEntry(s.drain.at.thread)
  {
    hide Represents, Vals;
  }

  lemma DrainUnlockKeeps(s: State, v: View)
    requires Inv(s, v) && Enabled(s, DrainUnlock)
    ensures Inv(Step(s, DrainUnlock), v)
  {
    hide Represents, Vals;
    NoneLeft(s, v);
  }

  ghost function Renamed(v: View, k: nat): View
    requires InDrain in v.lists
  {
    Moved(v.(lists := v.lists[Reported(k) := []]), InDrain, Reported(k))
  }

  lemma RenamedRoots(s: State, v: View)
    requires Roots(s, v) && Enabled(s, DrainEnd)
    ensures Roots(Step(s, DrainEnd), Renamed(v, |s.drains|))
    ensures Renamed(v, |s.drains|).lists == v.lists[InDrain := []][Reported(|s.drains|) := v.lists[InDrain]]
  {
    assert [] + v.lists[InDrain] == v.lists[InDrain];
  }

  lemma DrainEndFaithful(s: State, v: View)
    requires Roots(s, v) && Faithful(s, v) && Enabled(s, DrainEnd)
    ensures var s', v' := Step(s, DrainEnd), Renamed(v, |s.drains|); Roots(s', v') && Faithful(s', v')
  {
    hide Holds, Renamed, Represents, Vals;
    Listed(s, v);
    var s', v' := Step(s, DrainEnd), Renamed(v, |s.drains|);
    RenamedRoots(s, v);
    forall t | t in s.entries ensures Holds(s', v', s.entries[t].stats, InEntry(t)) {
      SameHolds(s, v, s', v', s.entries[t].stats, InEntry(t), InEntry(t));
    }
    SameHolds(s, v, s', v', s.retired, InRetired, InRetired);
    forall k: nat | k < |s.drains| ensures Holds(s', v', s.drains[k], Reported(k)) {
      SameHolds(s, v, s', v', s.drains[k], Reported(k), Reported(k));
    }
    SameHolds(s, v, s', v', s.drain.aggregate, InDrain, Reported(|s.drains|));
  }

  lemma RenamedPlaces(s: State, v: View)
    requires Placed(v) && Roots(s, v) && Known(s, v)
    ensures Placed(Renamed(v, |s.drains|)) && Known(s, Renamed(v, |s.drains|))
  {
    var w := v.(lists := v.lists[Reported(|s.drains|) := []]);
    assert Placed(w);
    MovedPlaces(w, InDrain, Reported(|s.drains|));
  }

  lemma DrainEndKeeps(s: State, v: View)
    requires Inv(s, v) && Enabled(s, DrainEnd)
    ensures InDrain in v.lists && Inv(Step(s, DrainEnd), Renamed(v, |s.drains|))
  {
    hide Placed, Faithful, Roots, Renamed, Represents;
    Listed(s, v);
    DrainEndFaithful(s, v);
    RenamedPlaces(s, v);
  }

  /** A report changes nothing that is held anywhere. */
  lemma ReportStepKeeps(s: State, v: View, a: Action)
    requires Inv(s, v) && Enabled(s, a)
    requires a.ReportBegin? || a.ReportLock? || a.ReportAdd? || a.ReportUnlock? || a.ReportEnd?
    ensures Inv(Step(s, a), v)
  {
    hide Placed, Represents, Vals, Merged;
  }

  /** Where the samples are after a step. */
  ghost function ViewAfter(s: State, v: View, a: Action): View
    requires Roots(s, v) && Enabled(s, a)
  {
    match a
    case Register(t) => v.(lists := v.lists[InEntry(t) := []])
    case PushAndUnlock(t, x) => Appended(v, InEntry(t), Sample(|s.pushed|))
    case Exit(t) => Without(Moved(v, InEntry(t), InRetired), InEntry(t))
    case DrainBegin => Moved(v, InRetired, InDrain)
    case DrainAdd => Moved(v, InEntry(s.drain.at.thread), InDrain)
    case DrainEnd => Renamed(v, |s.drains|)
    case _ => v
  }

  lemma StepKeeps(s: State, v: View, a: Action)
    requires Inv(s, v) && Enabled(s, a)
    ensures Inv(Step(s, a), ViewAfter(s, v, a))
  {
    hide Placed, Faithful, Known, Locking, Marked;
    Listed(s, v);
    match a {
      case Register(t) => RegisterKeeps(s, v, t);
      case LockEntry(t) => LockEntryKeeps(s, v, t);
      case PushAndUnlock(t, x) => PushKeeps(s, v, t, x);
      case Exit(t) => ExitKeeps(s, v, t);
      case DrainBegin => DrainBeginKeeps(s, v);
      case DrainLock(t) => DrainLockKeeps(s, v, t);
      case DrainAdd => DrainAddKeeps(s, v);
      case DrainReset => DrainResetKeeps(s, v);
      case DrainUnlock => DrainUnlockKeeps(s, v);
      case DrainEnd => DrainEndKeeps(s, v);
      case _ => ReportStepKeeps(s, v, a);
    }
  }

  // ----- runs --------------------------------------------------------------------------

  const START := State(map[], EMPTY, Idle, [], [], [])

  ghost predicate IsRun(run: seq<State>, actions: seq<Action>) {
    && |run| == |actions| + 1 && run[0] == START
    && forall i | 0 <= i < |actions| :: Enabled(run[i], actions[i]) && run[i + 1] == Step(run[i], actions[i])
  }

  /** At every point of every run each sample is in exactly one place, and every calculator and every report holds
      the statistics of exactly the samples of its place. */
  lemma {:induction false} RunCountsOnce(run: seq<State>, actions: seq<Action>, i: nat) returns (v: View)
    requires IsRun(run, actions) && i < |run|
    ensures Inv(run[i], v)
    decreases i
  {
    if i == 0 {
      v := View(map[InRetired := [], InDrain := []], map[]);
      EmptyIsFaithful(START, v, EMPTY, InRetired);
    } else {
      var u := RunCountsOnce(run, actions, i - 1);
      StepKeeps(run[i - 1], u, actions[i - 1]);
      v := ViewAfter(run[i - 1], u, actions[i - 1]);
    }
  }

  lemma EndReports(s: State, v: View, x: Sample)
    requires Inv(s, v) && Enabled(s, DrainEnd) && x.number < s.drain.mark
    ensures InDrain in v.lists && x in Renamed(v, |s.drains|).where && Renamed(v, |s.drains|).where[x].Reported?
  {
    hide Placed, Faithful, Locking;
    assert x in v.where && (v.where[x].InDrain? || v.where[x].Reported?);
  }

  /** What a drain has reported stays reported. */
  lemma ReportedStays(s: State, v: View, a: Action)
    requires Inv(s, v) && Enabled(s, a)
    ensures forall x | x in v.where && v.where[x].Reported? ::
              x in ViewAfter(s, v, a).where && ViewAfter(s, v, a).where[x] == v.where[x]
  {
    hide Placed, Faithful, Locking, Marked;
  }

  /** The first n samples are reported, or the drain in progress will report them. */
  ghost predicate Covered(s: State, v: View, n: nat) {
    (s.drain.Draining? && n <= s.drain.mark) || forall x: Sample | x.number < n :: x in v.where && v.where[x].Reported?
  }

  lemma CoveredKeeps(s: State, v: View, a: Action, n: nat)
    requires Inv(s, v) && Enabled(s, a) && Covered(s, v, n)
    ensures Roots(s, v) && Covered(Step(s, a), ViewAfter(s, v, a), n)
  {
    hide Placed, Faithful, Known, Locking, Marked, Roots;
    Listed(s, v);
    ReportedStays(s, v, a);
    if s.drain.Draining? && n <= s.drain.mark {
      if a.DrainEnd? {
        forall x: Sample | x.number < n
          ensures x in ViewAfter(s, v, a).where && ViewAfter(s, v, a).where[x].Reported?
        {
          EndReports(s, v, x);
        }
      }
    }
  }

  lemma BeginCovers(s: State, v: View)
    requires Enabled(s, DrainBegin)
    ensures Covered(Step(s, DrainBegin), v, |s.pushed|)
  {
  }

  lemma {:induction false} RunCovers(run: seq<State>, actions: seq<Action>, j: nat, i: nat) returns (v: View)
    requires IsRun(run, actions) && j < i < |run| && actions[j].DrainBegin?
    ensures Inv(run[i], v) && Covered(run[i], v, |run[j].pushed|)
    decreases i
  {
    hide Placed, Faithful, Known, Locking, Marked, Roots, Enabled, Step, Covered, ViewAfter;
    if i == j + 1 {
      v := RunCountsOnce(run, actions, i);
      BeginCovers(run[j], v);
    } else {
      var u := RunCovers(run, actions, j, i - 1);
      CoveredKeeps(run[i - 1], u, actions[i - 1], |run[j].pushed|);
      StepKeeps(run[i - 1], u, actions[i - 1]);
      v := ViewAfter(run[i - 1], u, actions[i - 1]);
    }
  }

  /** When a drain ends, every sample pushed before it began has been reported, by it or by an earlier drain. */
  lemma DrainReportsAll(run: seq<State>, actions: seq<Action>, j: nat, i: nat) returns (v: View)
    requires IsRun(run, actions) && j < i < |actions| && actions[j].DrainBegin? && actions[i].DrainEnd?
    ensures Inv(run[i + 1], v)
    ensures forall x: Sample | x.number < |run[j].pushed| :: x in v.where && v.where[x].Reported?
  {
    hide Inv;
    v := RunCovers(run, actions, j, i + 1);
    assert run[i + 1] == Step(run[i], actions[i]);
  }

  /** What is held in a place. Between a drain's Add and its Reset an entry's calculator is spent. */
  function StatsAt(s: State, p: Place): Stats {
    match p
    case InEntry(t) =>
      if t !in s.entries || (s.drain.Draining? && s.drain.at == Added(t)) then EMPTY else s.entries[t].stats
    case InRetired => s.retired
    case InDrain => if s.drain.Draining? then s.drain.aggregate else EMPTY
    case Reported(k) => if k < |s.drains| then s.drains[k] else EMPTY
  }

  /** What is held in these places, put together. */
  function Total(s: State, places: seq<Place>): Stats {
    if places == [] then EMPTY
    else Merged(Total(s, places[..|places| - 1]), StatsAt(s, places[|places| - 1]))
  }

  /** The samples of these places. */
  ghost function SamplesOf(v: View, places: seq<Place>): seq<Sample>
    requires forall p | p in places :: p in v.lists
  {
    if places == [] then [] else SamplesOf(v, places[..|places| - 1]) + v.lists[places[|places| - 1]]
  }

  lemma MergeVals(pushed: seq<real>, a: Stats, b: Stats, xs: seq<Sample>, ys: seq<Sample>)
    requires Represents(a, Vals(pushed, xs)) && Represents(b, Vals(pushed, ys))
    ensures Represents(Merged(a, b), Vals(pushed, xs + ys))
  {
    hide *;
    ValsConcat(pushed, xs, ys);
    MergeRepresents(a, b, Vals(pushed, xs), Vals(pushed, ys));
  }

  lemma StatsAtHolds(s: State, v: View, p: Place)
    requires Roots(s, v) && Faithful(s, v) && p in v.lists
    ensures Holds(s, v, StatsAt(s, p), p)
  {
    hide Represents, Vals;
    EmptyIsFaithful(s, v, EMPTY, p);
  }

  lemma {:induction false} TotalHolds(s: State, v: View, places: seq<Place>)
    requires Roots(s, v) && Faithful(s, v) && forall p | p in places :: p in v.lists
    ensures Represents(Total(s, places), Vals(s.pushed, SamplesOf(v, places)))
  {
    hide Represents, Merged, Faithful, Vals, Roots, StatsAt;
    if places == [] {
      EmptyIsEmpty(s.pushed);
    } else {
      var front, last := places[..|places| - 1], places[|places| - 1];
      TotalHolds(s, v, front);
      StatsAtHolds(s, v, last);
      MergeVals(s.pushed, Total(s, front), StatsAt(s, last), SamplesOf(v, front), v.lists[last]);
    }
  }

  lemma EmptyIsEmpty(pushed: seq<real>)
    ensures Represents(EMPTY, Vals(pushed, []))
  {
  }

  lemma {:induction false} SampledOnce(v: View, places: seq<Place>)
    requires Placed(v) && NoDup(places) && forall p | p in places :: p in v.lists
    ensures NoDup(SamplesOf(v, places))
    ensures forall x :: x in SamplesOf(v, places) <==> x in v.where && v.where[x] in places
  {
    if places != [] {
      var front, last := places[..|places| - 1], places[|places| - 1];
      assert places == front + [last];
      SampledOnce(v, front);
      forall x | x in SamplesOf(v, front) ensures x !in v.lists[last] {
        assert v.where[x] in front;
      }
      NoDupConcat(SamplesOf(v, front), v.lists[last]);
    }
  }

  /** A sequence with each of the first n samples once has the first n values. */
  lemma {:induction false} AllValues(pushed: seq<real>, xs: seq<Sample>, n: nat)
    requires NoDup(xs) && n <= |pushed| && forall x {:trigger x in xs} :: x in xs <==> x.number < n
    ensures multiset(Vals(pushed, xs)) == multiset(pushed[..n])
    decreases n
  {
    if n == 0 {
      ElemsSize(xs);
      assert Elems(xs) == {};
      assert Vals(pushed, xs) == [] && pushed[..n] == [];
    } else {
      var top := Sample(n - 1);
      assert top in xs;
      var i :| 0 <= i < |xs| && xs[i] == top;
      var before, after := xs[..i], xs[i + 1..];
      assert xs == before + ([top] + after);
      RestOfSamples(xs, i, n);
      AllValues(pushed, before + after, n - 1);
      ValsConcat(pushed, before, [top] + after);
      ValsConcat(pushed, [top], after);
      ValsConcat(pushed, before, after);
      assert Vals(pushed, [top]) == [pushed[n - 1]];
      assert pushed[..n] == pushed[..n - 1] + [pushed[n - 1]];
      hide Vals;
    }
  }

  lemma RestOfSamples(xs: seq<Sample>, i: nat, n: nat)
    requires NoDup(xs) && n > 0 && i < |xs| && xs[i] == Sample(n - 1)
    requires forall x {:trigger x in xs} :: x in xs <==> x.number < n
    ensures NoDup(xs[..i] + xs[i + 1..])
    ensures forall x {:trigger x in xs[..i] + xs[i + 1..]} :: x in xs[..i] + xs[i + 1..] <==> x.number < n - 1
  {
    var before, after := xs[..i], xs[i + 1..];
    assert xs == before + [xs[i]] + after;
    forall x ensures x in before + after <==> x in xs && x != xs[i] {
      assert x in before ==> exists k | 0 <= k < i :: xs[k] == x;
      assert x in after ==> exists k | i < k < |xs| :: xs[k] == x;
    }
  }

  /** If every sample is in one of these places, they hold together what one calculator would hold that had been
      pushed every sample in order. */
  lemma TotalIsAll(s: State, v: View, places: seq<Place>)
    requires Inv(s, v) && NoDup(places) && forall p | p in places :: p in v.lists
    requires forall x | x in v.where :: v.where[x] in places
    ensures Same(Total(s, places), Run(PushAll(Empty, s.pushed)))
  {
    hide Placed, Faithful, Roots, Locking, Marked, Represents, Vals, Total, SamplesOf, Same, Run, PushAll, NoDup;
    var xs, t := SamplesOf(v, places), PushAll(Empty, s.pushed);
    TotalHolds(s, v, places);
    SampledOnce(v, places);
    AllValues(s.pushed, xs, |s.pushed|);
    assert s.pushed[..|s.pushed|] == s.pushed;
    OneCalculator(s.pushed);
    RepresentsIsUnique(Total(s, places), Run(t), Vals(s.pushed, xs), s.pushed);
  }

  /** Every place there is, once, in any order. */
  ghost predicate AllPlaces(s: State, places: seq<Place>) {
    && NoDup(places)
    && forall p :: p in places <==>
                     match p
                     case InEntry(t) => t in s.entries
                     case InRetired => true
                     case InDrain => true
                     case Reported(k) => k < |s.drains|
  }

  /** At every point of every run, in the middle of drains and pushes or not, the reports so far, the drain in
      progress, the retired samples and the entries are together what one calculator would hold that had been pushed
      every sample in order: nothing is ever dropped or counted twice. */
  lemma ReportsAddUp(run: seq<State>, actions: seq<Action>, i: nat, places: seq<Place>)
    requires IsRun(run, actions) && i < |run| && AllPlaces(run[i], places)
    ensures Same(Total(run[i], places), Run(PushAll(Empty, run[i].pushed)))
  {
    hide IsRun, NoDup, Placed, Faithful, Known, Locking, Marked, Same, Total, Run, PushAll;
    var v := RunCountsOnce(run, actions, i);
    PlacesAreListed(run[i], v, places);
    TotalIsAll(run[i], v, places);
  }

  lemma PlacesAreListed(s: State, v: View, places: seq<Place>)
    requires Placed(v) && Roots(s, v) && AllPlaces(s, places)
    ensures forall p :: p in places <==> p in v.lists
    ensures forall x | x in v.where :: v.where[x] in places
  {
    forall p ensures p in places <==> p in v.lists {
      match p {
        case InEntry(t) =>
        case InRetired =>
        case InDrain =>
        case Reported(k) =>
      }
    }
  }

  function Reports(n: nat): (places: seq<Place>)
    ensures |places| == n && forall k | 0 <= k < n :: places[k] == Reported(k)
  {
    if n == 0 then [] else Reports(n - 1) + [Reported(n - 1)]
  }

  /** When a drain ends during which nothing was pushed, the reports alone add up to everything. */
  lemma QuietReportsAddUp(run: seq<State>, actions: seq<Action>, i: nat)
    requires IsRun(run, actions) && i < |actions| && actions[i].DrainEnd? && run[i].drain.mark == |run[i].pushed|
    ensures Same(Total(run[i + 1], Reports(|run[i + 1].drains|)), Run(PushAll(Empty, run[i].pushed)))
  {
    hide Same, Total, Run, PushAll, Placed, Faithful;
    var s := run[i];
    var v := RunCountsOnce(run, actions, i);
    var s', v' := Step(s, DrainEnd), Renamed(v, |s.drains|);
    DrainEndKeeps(s, v);
    ReportsHoldAll(s, v, s', v');
    TotalIsAll(s', v', Reports(|s'.drains|));
  }

  lemma ReportsHoldAll(s: State, v: View, s': State, v': View)
    requires Inv(s, v) && Enabled(s, DrainEnd) && s.drain.mark == |s.pushed|
    requires s' == Step(s, DrainEnd) && v' == Renamed(v, |s.drains|) && Inv(s', v')
    ensures var places := Reports(|s'.drains|);
            && NoDup(places) && (forall p | p in places :: p in v'.lists)
            && forall x | x in v'.where :: v'.where[x] in places
  {
    var places := Reports(|s'.drains|);
    forall x | x in v'.where ensures v'.where[x] in places {
      EndReports(s, v, x);
      var p := v'.where[x];
      assert p in v'.lists && places[p.drain] == p;
    }
  }

  lemma FirstPlaces(s: State) returns (places: seq<Place>)
    requires s.entries == map[]
    ensures AllPlaces(s, places)
  {
    var n := |s.drains|;
    places := [InRetired, InDrain] + Reports(n);
    forall p ensures p in places <==> p.InRetired? || p.InDrain? || (p.Reported? && p.drain < n) {
      if p.Reported? && p.drain < n {
        assert places[p.drain + 2] == p;
      }
    }
  }

  lemma MorePlaces(s: State, t: nat, e: Entry, rest: seq<Place>)
    requires t !in s.entries && AllPlaces(s, rest)
    ensures AllPlaces(SetEntry(s, t, e), rest + [InEntry(t)])
  {
    hide NoDup;
    PushNew(rest, InEntry(t));
    forall p ensures p in rest + [InEntry(t)] <==> p in rest || p == InEntry(t) {
    }
  }

  /** There is such a list of all places. */
  lemma {:induction false} PlacesExist(s: State) returns (places: seq<Place>)
    ensures AllPlaces(s, places)
    decreases s.entries.Keys
  {
    hide AllPlaces;
    if t :| t in s.entries {
      var s1 := s.(entries := s.entries - {t});
      var rest := PlacesExist(s1);
      MorePlaces(s1, t, s.entries[t], rest);
      assert s1.entries[t := s.entries[t]] == s.entries;
      places := rest + [InEntry(t)];
    } else {
      places := FirstPlaces(s);
    }
  }

  // ----- reports without a drain -------------------------------------------------------

  /** The report in progress has counted this place. */
  ghost predicate Visited(s: State, p: Place)
    requires s.drain.Reporting?
  {
    match p
    case InRetired => true
    case InEntry(t) => t !in s.drain.todo || s.drain.at == Added(t)
    case _ => false
  }

  /** The report in progress holds the statistics of seen: samples of the places it has counted, with all of those that
      were pushed before it began. */
  ghost predicate Seen(s: State, v: View, seen: seq<Sample>) {
    s.drain.Reporting? ==>
      && NoDup(seen) && Represents(s.drain.aggregate, Vals(s.pushed, seen)) && s.drain.mark <= |s.pushed|
      && (forall x | x in seen :: x in v.where && Visited(s, v.where[x]))
      && (forall x | x in v.where && x.number < s.drain.mark && Visited(s, v.where[x]) :: x in seen)
  }

  lemma ReportBeginSeen(s: State, v: View)
    requires Inv(s, v) && Enabled(s, ReportBegin)
    ensures InRetired in v.lists && Seen(Step(s, ReportBegin), v, v.lists[InRetired])
  {
    hide Represents, Vals, Locking, Marked;
  }

  lemma ReportAddSeen(s: State, v: View, seen: seq<Sample>)
    requires Inv(s, v) && Enabled(s, ReportAdd) && Seen(s, v, seen)
    ensures var t := s.drain.at.thread;
            InEntry(t) in v.lists && Seen(Step(s, ReportAdd), v, seen + v.lists[InEntry(t)])
  {
    hide Represents, Vals, Merged, Marked;
    var t := s.drain.at.thread;
    var xs := v.lists[InEntry(t)];
    assert Holds(s, v, s.entries[t].stats, InEntry(t));
    MergeVals(s.pushed, s.drain.aggregate, s.entries[t].stats, seen, xs);
    forall x | x in seen ensures x !in xs {
      assert Visited(s, v.where[x]);
    }
    NoDupConcat(seen, xs);
  }

  lemma ValsGrowOn(pushed: seq<real>, value: real, xs: seq<Sample>)
    requires forall x | x in xs :: x.number < |pushed|
    ensures Vals(pushed + [value], xs) == Vals(pushed, xs)
  {
  }

  lemma PushSeen(s: State, v: View, t: nat, value: real, seen: seq<Sample>)
    requires Inv(s, v) && Enabled(s, PushAndUnlock(t, value)) && s.drain.Reporting? && Seen(s, v, seen)
    ensures InEntry(t) in v.lists
    ensures Seen(Step(s, PushAndUnlock(t, value)), Appended(v, InEntry(t), Sample(|s.pushed|)), seen)
  {
    hide Represents, Vals, Pushed, Placed, Faithful, Locking, Marked, NoDup;
    ValsGrowOn(s.pushed, value, seen);
  }

  /** What the report has seen after a step. */
  ghost function SeenAfter(s: State, v: View, a: Action, seen: seq<Sample>): seq<Sample>
    requires Roots(s, v) && Enabled(s, a)
  {
    match a
    case ReportBegin => v.lists[InRetired]
    case ReportAdd => seen + v.lists[InEntry(s.drain.at.thread)]
    case _ => seen
  }

  lemma SeenKeeps(s: State, v: View, a: Action, seen: seq<Sample>)
    requires Inv(s, v) && Enabled(s, a) && Seen(s, v, seen)
    ensures Seen(Step(s, a), ViewAfter(s, v, a), SeenAfter(s, v, a, seen))
  {
    hide Represents, Vals, Merged, Placed, Faithful, Known, Marked, NoDup, Pushed;
    match a {
      case ReportBegin => ReportBeginSeen(s, v);
      case ReportAdd => ReportAddSeen(s, v, seen);
      case PushAndUnlock(t, x) =>
        if s.drain.Reporting? {
          PushSeen(s, v, t, x, seen);
        }
      case _ =>
    }
  }

  lemma {:induction false} RunSees(run: seq<State>, actions: seq<Action>, i: nat) returns (v: View, seen: seq<Sample>)
    requires IsRun(run, actions) && i < |run|
    ensures Inv(run[i], v) && Seen(run[i], v, seen)
    decreases i
  {
    hide Placed, Faithful, Known, Locking, Marked, Roots, Enabled, Step, ViewAfter, SeenAfter;
    if i == 0 {
      v := RunCountsOnce(run, actions, i);
      seen := [];
    } else {
      var u, before := RunSees(run, actions, i - 1);
      SeenKeeps(run[i - 1], u, actions[i - 1], before);
      StepKeeps(run[i - 1], u, actions[i - 1]);
      v, seen := ViewAfter(run[i - 1], u, actions[i - 1]), SeenAfter(run[i - 1], u, actions[i - 1], before);
    }
  }

  /** The report in progress began at some step, and its mark is the number of samples pushed by then. */
  lemma {:induction false} ReportBegan(run: seq<State>, actions: seq<Action>, i: nat) returns (j: nat)
    requires IsRun(run, actions) && i < |run| && run[i].drain.Reporting?
    ensures j < i && actions[j].ReportBegin? && run[i].drain.mark == |run[j].pushed|
    ensures forall k | j < k <= i :: run[k].drain.Reporting?
    decreases i
  {
    hide Merged, Pushed;
    assert run[i] == Step(run[i - 1], actions[i - 1]);
    if actions[i - 1].ReportBegin? {
      j := i - 1;
    } else {
      j := ReportBegan(run, actions, i - 1);
    }
  }

  /** A report answers with the statistics of samples no drain has reported: all of those pushed before the report
      began, some of those pushed while it ran, each once, and none pushed after it ended. */
  lemma ReportIsFair(run: seq<State>, actions: seq<Action>, i: nat) returns (j: nat, v: View, seen: seq<Sample>)
    requires IsRun(run, actions) && i < |actions| && actions[i].ReportEnd?
    ensures j < i && actions[j].ReportBegin? && forall k | j < k <= i :: run[k].drain.Reporting?
    ensures Inv(run[i], v) && NoDup(seen) && run[i + 1].answers != []
    ensures Represents(run[i + 1].answers[|run[i + 1].answers| - 1], Vals(run[i].pushed, seen))
    ensures forall x | x in seen :: x.number < |run[i].pushed| && x in v.where && !v.where[x].Reported?
    ensures forall x: Sample | x.number < |run[j].pushed| ::
              x.number < |run[i].pushed| && x in v.where && (v.where[x].Reported? || x in seen)
  {
    hide Placed, Represents, Vals, Locking, Marked, NoDup;
    v, seen := RunSees(run, actions, i);
    assert Enabled(run[i], actions[i]) && run[i + 1] == Step(run[i], actions[i]);
    j := ReportBegan(run, actions, i);
    NoneInDrain(run[i], v);
  }

  lemma NoneInDrain(s: State, v: View)
    requires Placed(v) && Roots(s, v) && Faithful(s, v) && !s.drain.Draining?
    ensures forall x | x in v.where :: !v.where[x].InDrain?
  {
    hide Represents, Vals;
  }

  /** Without drains, a report during which nothing is pushed answers as one calculator would that had been pushed every
      sample. */
  lemma QuietReportIsTotal(run: seq<State>, actions: seq<Action>, i: nat)
    requires IsRun(run, actions) && i < |actions| && actions[i].ReportEnd?
    requires run[i].drain.Reporting? && run[i].drain.mark == |run[i].pushed| && run[i].drains == []
    ensures run[i + 1].answers != []
    ensures Same(run[i + 1].answers[|run[i + 1].answers| - 1], Run(PushAll(Empty, run[i].pushed)))
  {
    hide Placed, Faithful, Represents, Vals, Locking, Marked, NoDup, Same, Run, PushAll;
    var s := run[i];
    var v, seen := RunSees(run, actions, i);
    assert Enabled(s, actions[i]) && run[i + 1] == Step(s, actions[i]);
    NoneInDrain(s, v);
    NoneReported(s, v);
    AllValues(s.pushed, seen, |s.pushed|);
    assert s.pushed[..|s.pushed|] == s.pushed;
    OneCalculator(s.pushed);
    RepresentsIsUnique(s.drain.aggregate, Run(PushAll(Empty, s.pushed)), Vals(s.pushed, seen), s.pushed);
  }

  lemma NoneReported(s: State, v: View)
    requires Placed(v) && Roots(s, v) && s.drains == []
    ensures forall x | x in v.where :: !v.where[x].Reported?
  {
  }

  lemma OneCalculator(pushed: seq<real>)
    ensures Represents(Run(PushAll(Empty, pushed)), pushed)
  {
    hide Represents;
    PushAllValues(Empty, pushed);
    assert Values(Empty) + pushed == pushed;
    TreeRepresents(PushAll(Empty, pushed));
  }

  // ----- every operation ends ----------------------------------------------------------

  datatype Kind = Pushing | OfDrain | OfReport

  /** The step begins an operation of this kind. */
  predicate Begins(a: Action, k: Kind) {
    match k
    case Pushing => a.LockEntry?
    case OfDrain => a.DrainBegin?
    case OfReport => a.ReportBegin?
  }

  ghost function Begun(actions: seq<Action>, k: Kind): nat {
    if actions == [] then 0
    else Begun(actions[..|actions| - 1], k) + if Begins(actions[|actions| - 1], k) then 1 else 0
  }

  /** The threads inside Push. */
  ghost function Pushers(s: State): set<nat> {
    set t | t in s.entries && s.entries[t].lock.ByPusher?
  }

  /** The operations of this kind that have ended, and those in progress. */
  ghost function Ended(s: State, k: Kind): nat {
    match k
    case Pushing => |s.pushed| + |Pushers(s)|
    case OfDrain => |s.drains| + if s.drain.Draining? then 1 else 0
    case OfReport => |s.answers| + if s.drain.Reporting? then 1 else 0
  }

  lemma PushersAfter(s: State, a: Action)
    requires Enabled(s, a) && Locking(s)
    ensures Pushers(Step(s, a))
            == match a
               case LockEntry(t) => Pushers(s) + {t}
               case PushAndUnlock(t, _) => Pushers(s) - {t}
               case _ => Pushers(s)
  {
    hide Merged, Pushed, Reset;
    var s' := Step(s, a);
    match a {
      case DrainUnlock => assert s.entries[s.drain.at.thread].lock.ByDrainer?;
      case ReportUnlock => assert s.entries[s.drain.at.thread].lock.ByDrainer?;
      case _ =>
    }
  }

  lemma EndedStep(s: State, a: Action, k: Kind)
    requires Enabled(s, a) && Locking(s)
    ensures Ended(Step(s, a), k) == Ended(s, k) + if Begins(a, k) then 1 else 0
  {
    hide Merged, Pushed, Reset, Locking, Pushers;
    PushersAfter(s, a);
    LockFacts(s, a);
  }

  lemma LockFacts(s: State, a: Action)
    requires Enabled(s, a)
    ensures a.LockEntry? ==> a.thread !in Pushers(s)
    ensures a.PushAndUnlock? ==> a.thread in Pushers(s)
  {
  }

  /** At every point of every run the samples, the drains and the reports that were begun are those that have ended and
      those in progress. */
  lemma {:induction false} OperationsAreCounted(run: seq<State>, actions: seq<Action>, i: nat, k: Kind)
    requires IsRun(run, actions) && i < |run|
    ensures Begun(actions[..i], k) == Ended(run[i], k)
    decreases i
  {
    hide Locking, Placed, Roots, Known, Faithful, Marked, Ended, Begins, Enabled, Step;
    if i == 0 {
      NoneBegun(k);
    } else {
      OperationsAreCounted(run, actions, i - 1, k);
      var v := RunCountsOnce(run, actions, i - 1);
      assert Enabled(run[i - 1], actions[i - 1]) && run[i] == Step(run[i - 1], actions[i - 1]);
      EndedStep(run[i - 1], actions[i - 1], k);
      assert actions[..i][..i - 1] == actions[..i - 1] && actions[..i][i - 1] == actions[i - 1];
    }
  }

  lemma NoneBegun(k: Kind)
    ensures Ended(START, k) == 0
  {
    assert Pushers(START) == {};
  }

  /** A step that begins nothing. */
  predicate Continues(s: State, a: Action) {
    Enabled(s, a) && !a.Register? && !a.Exit? && forall k :: !Begins(a, k)
  }

  ghost predicate Path(s: State, actions: seq<Action>, t: State)
    decreases actions
  {
    if actions == [] then s == t else Continues(s, actions[0]) && Path(Step(s, actions[0]), actions[1..], t)
  }

  /** The steps until everything begun has ended. */
  ghost function Work(s: State): nat {
    |Pushers(s)| + if s.drain.Idle? then 0 else LoopWork(s.drain.todo, s.drain.at)
  }

  ghost function LoopWork(todo: set<nat>, at: At): nat {
    4 * |todo| + match at case Between => 4 case Locked(_) => 3 case Added(_) => 2 case Cleared(_) => 1
  }

  lemma WorkDrops(s: State, a: Action)
    requires Locking(s) && Continues(s, a)
    ensures Work(Step(s, a)) < Work(s)
  {
    hide Merged, Pushed, Reset, Pushers;
    assert !Begins(a, Pushing) && !Begins(a, OfDrain) && !Begins(a, OfReport);
    PushersAfter(s, a);
    LockFacts(s, a);
  }

  lemma LockingKeeps(s: State, a: Action)
    requires Locking(s) && Enabled(s, a)
    ensures Locking(Step(s, a))
  {
    hide Merged, Pushed, Reset;
  }

  /** No drain or report is in progress and no mutex is held. */
  ghost predicate AtRest(s: State) {
    s.drain.Idle? && forall u | u in s.entries :: s.entries[u].lock.Free?
  }

  /** If nothing more is begun there are at most Work steps left, in whatever order they are taken, and the steps never
      run out before everything begun has ended. */
  lemma {:induction false} EverythingEnds(s: State, actions: seq<Action>, t: State)
    requires Locking(s) && Path(s, actions, t)
    ensures |actions| + Work(t) <= Work(s)
    ensures AtRest(t) || exists a :: Continues(t, a)
    decreases actions
  {
    hide Locking, Work, Continues, Step, AtRest;
    if actions == [] {
      if !AtRest(s) {
        var a := SomeStep(s);
      }
    } else {
      assert Enabled(s, actions[0]) by {
        ContinuesIsEnabled(s, actions[0]);
      }
      WorkDrops(s, actions[0]);
      LockingKeeps(s, actions[0]);
      EverythingEnds(Step(s, actions[0]), actions[1..], t);
    }
  }

  lemma ContinuesIsEnabled(s: State, a: Action)
    requires Continues(s, a)
    ensures Enabled(s, a)
  {
  }

  /** Whoever holds a mutex can let go of it, and whoever loops over the entries can go on, or wait for a pusher that
      can. */
  lemma SomeStep(s: State) returns (a: Action)
    requires Locking(s) && !AtRest(s)
    ensures Continues(s, a)
  {
    if t :| t in s.entries && s.entries[t].lock.ByPusher? {
      a := PushAndUnlock(t, 0.0);
    } else if s.drain.Draining? {
      a := match s.drain.at case Locked(_) => DrainAdd case Added(_) => DrainReset case Cleared(_) => DrainUnlock
           case Between => NextToDrain(s.drain.todo);
    } else {
      a := match s.drain.at case Between => NextToReport(s.drain.todo) case Locked(_) => ReportAdd
           case _ => ReportUnlock;
    }
  }

  ghost function NextToDrain(todo: set<nat>): Action {
    if todo == {} then DrainEnd else var t :| t in todo; DrainLock(t)
  }

  ghost function NextToReport(todo: set<nat>): Action {
    if todo == {} then ReportEnd else var t :| t in todo; ReportLock(t)
  }
}
