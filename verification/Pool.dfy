/** base/thread_local_global_pool.h as a machine whose steps are the shared accesses of any number of threads:
    loads, link writes, compare-and-swaps, exchanges and the two critical sections of the global list. */
module Pool {
  import opened Common
  import opened PoolLists

  /** pools[p] is the thread that allocates from pool p. */
  datatype Config = Config(objects: nat, pools: seq<nat>, threads: nat)

  const MIN_PARKED := 16

  function ChooseMaxParked(objects: nat): nat {
    if objects / 256 > MIN_PARKED then objects / 256 else MIN_PARKED
  }

  /** A pool keeps the whole part of a 256th of the objects, or 16 if that is more. */
  lemma ParkedShare(n: nat)
    ensures var m := ChooseMaxParked(n); m >= 16 && n < 256 * (m + 1) && (256 * m <= n || m == 16)
  {
  }

  predicate ValidConfig(c: Config) {
    forall p | 0 <= p < |c.pools| :: c.pools[p] < c.threads
  }

  /** What follows a Return: popping after a refill, the second half of the destructor, or nothing. */
  datatype After = ToTake | ToClose | Done

  /** Where a thread stands. */
  datatype Pc =
    | Idle
    | Freeing(pool: nat, obj: Obj, head: Ptr)      // head loaded; about to write NextObj
    | Swapping(pool: nat, obj: Obj, head: Ptr)     // NextObj written; about to compare and swap
    | Refilling(pool: nat, steal: bool)            // available queue empty; about to exchange the own free queue
    | Asking(pool: nat, steal: bool)               // about to ask the global pool
    | Stealing(pool: nat, seen: nat)               // walking the other pools; seen of them were empty
    | Parking(pool: nat)                           // holds an exchanged stack
    | Keeping(pool: nat)                           // the stack is the available queue; about to walk it
    | Cutting(pool: nat, last: Obj)                // about to cut after the last object kept
    | Returning(pool: nat, after: After)           // holds a stack for the global list; about to find its tail
    | Splicing(pool: nat, tail: Obj, after: After) // about to link it in under the lock
    | Taking(pool: nat)                            // about to pop the available queue
    | Closing(pool: nat)                           // in the destructor; about to exchange the free queue

  datatype State = State(next: Links, heads: map<Root, Ptr>, pc: seq<Pc>, out: set<Obj>, open: set<nat>)

  datatype Action =
    | BeginFree(pool: nat, obj: Obj)
    | WriteLink
    | CasWins
    | CasFails
    | BeginAlloc(pool: nat, steal: bool)
    | Take
    | SwapOwn
    | AskGlobal
    | Steal
    | GiveUp
    | Park
    | WalkKept
    | Cut
    | WalkTail(tail: Obj)
    | Splice
    | BeginClose(pool: nat)
    | CloseSwap

  // ----- the steps ---------------------------------------------------------------------

  ghost predicate Shape(c: Config, s: State) {
    && |s.pc| == c.threads
    && Global in s.heads
    && (forall p: nat | p < |c.pools| :: Free(p) in s.heads && Avail(p) in s.heads)
    && (forall t: nat | t < c.threads :: Flight(t) in s.heads)
  }

  predicate FreesInto(pc: Pc, p: nat) {
    (pc.Freeing? || pc.Swapping?) && pc.pool == p
  }

  /** Some thread is in the middle of freeing into p. */
  ghost predicate FreedInto(c: Config, s: State, p: nat)
    requires |s.pc| == c.threads
  {
    exists u | 0 <= u < c.threads :: FreesInto(s.pc[u], p)
  }

  /** t may take action a in s. */
  ghost predicate Enabled(c: Config, s: State, t: nat, a: Action)
    requires ValidConfig(c) && Shape(c, s) && t < c.threads
  {
    var pc := s.pc[t];
    match a
    case BeginFree(p, o) => pc.Idle? && p < |c.pools| && p in s.open && o in s.out && o in s.next
    case WriteLink => pc.Freeing? && pc.obj in s.next
    case CasWins => pc.Swapping? && pc.pool < |c.pools| && s.heads[Free(pc.pool)] == pc.head
    case CasFails => pc.Swapping? && pc.pool < |c.pools|
    case BeginAlloc(p, _) => pc.Idle? && p < |c.pools| && p in s.open && c.pools[p] == t
    case Take => pc.Taking? && HeadAt(c, s, Avail(pc.pool))
    case SwapOwn => pc.Refilling? && pc.pool < |c.pools|
    case AskGlobal => pc.Asking? && (s.heads[Global].Some? ==> HeadAt(c, s, Global))
    case Steal => pc.Stealing? && pc.pool < |c.pools| && pc.seen + 1 < |c.pools|
    case GiveUp => pc.Stealing? && pc.seen + 1 >= |c.pools|
    case Park => pc.Parking? && pc.pool < |c.pools| && s.heads[Avail(pc.pool)].None?
    case WalkKept => pc.Keeping? && HeadAt(c, s, Avail(pc.pool))
    case Cut => pc.Cutting? && pc.last in s.next
    case WalkTail(tail) => pc.Returning? && EndsAt(s.next, s.heads[Flight(t)], tail)
    case Splice => pc.Splicing? && pc.tail in s.next
    case BeginClose(p) => pc.Idle? && p < |c.pools| && p in s.open && c.pools[p] == t
                          && !FreedInto(c, s, p)
    case CloseSwap => pc.Closing? && pc.pool < |c.pools|
  }

  /** The k-th pool that pool p of n looks at: rightwards from itself, then from the left. */
  function Neighbour(p: nat, k: nat, n: nat): (q: nat)
    requires p < n && k + 1 < n
    ensures q < n && q != p
  {
    if p + 1 + k < n then p + 1 + k else p + 1 + k - n
  }

  ghost predicate HeadAt(c: Config, s: State, r: Root) {
    r in s.heads && s.heads[r].Some? && s.heads[r].value in s.next
  }

  /** Following NextObj from head to the null ends at tail. */
  ghost predicate EndsAt(next: Links, head: Ptr, tail: Obj) {
    exists l :: Chain(next, head, l) && l != [] && l[|l| - 1] == tail
  }

  ghost function Goto(s: State, t: nat, pc: Pc): State
    requires t < |s.pc|
  {
    s.(pc := s.pc[t := pc])
  }

  ghost function Move(s: State, from: Root, to: Root): State
    requires from in s.heads
  {
    s.(heads := s.heads[from := None][to := s.heads[from]])
  }

  ghost function Step(c: Config, s: State, t: nat, a: Action): State
    requires ValidConfig(c) && Shape(c, s) && t < c.threads && Enabled(c, s, t, a)
  {
    var pc := s.pc[t];
    match a
    case BeginFree(p, o) => Goto(s.(out := s.out - {o}), t, Freeing(p, o, s.heads[Free(p)]))
    case WriteLink => Goto(s.(next := s.next[pc.obj := pc.head]), t, Swapping(pc.pool, pc.obj, pc.head))
    case CasWins => Goto(s.(heads := s.heads[Free(pc.pool) := Some(pc.obj)]), t, Idle)
    case CasFails => Goto(s, t, Freeing(pc.pool, pc.obj, s.heads[Free(pc.pool)]))
    case BeginAlloc(p, steal) => Goto(s, t, if s.heads[Avail(p)].Some? then Taking(p) else Refilling(p, steal))
    case Take => Goto(PopTo(s, Avail(pc.pool)), t, Idle)
    case SwapOwn =>
      if s.heads[Free(pc.pool)].None? then Goto(s, t, Asking(pc.pool, pc.steal))
      else Goto(Move(s, Free(pc.pool), Flight(t)), t, Parking(pc.pool))
    case AskGlobal =>
      if s.heads[Global].Some? then Goto(PopTo(s, Global), t, Idle)
      else Goto(s, t, if pc.steal then Stealing(pc.pool, 0) else Idle)
    case Steal =>
      var q := Neighbour(pc.pool, pc.seen, |c.pools|);
      if s.heads[Free(q)].None? then Goto(s, t, Stealing(pc.pool, pc.seen + 1))
      else Goto(Move(s, Free(q), Flight(t)), t, Parking(pc.pool))
    case GiveUp => Goto(s, t, Idle)
    case Park => Goto(Move(s, Flight(t), Avail(pc.pool)), t, Keeping(pc.pool))
    case WalkKept =>
      Goto(s, t, Cutting(pc.pool, LastKept(s.next, s.heads[Avail(pc.pool)].value, ChooseMaxParked(c.objects))))
    case Cut =>
      if s.next[pc.last].None? then Goto(s, t, Taking(pc.pool))
      else Goto(s.(next := s.next[pc.last := None], heads := s.heads[Flight(t) := s.next[pc.last]]),
                t, Returning(pc.pool, ToTake))
    case WalkTail(tail) => Goto(s, t, Splicing(pc.pool, tail, pc.after))
    case Splice =>
      Goto(Move(s.(next := s.next[pc.tail := s.heads[Global]]), Flight(t), Global), t, Resume(pc.pool, pc.after))
    case BeginClose(p) =>
      var s1 := s.(open := s.open - {p});
      if s.heads[Avail(p)].None? then Goto(s1, t, Closing(p))
      else Goto(Move(s1, Avail(p), Flight(t)), t, Returning(p, ToClose))
    case CloseSwap =>
      if s.heads[Free(pc.pool)].None? then Goto(s, t, Idle)
      else Goto(Move(s, Free(pc.pool), Flight(t)), t, Returning(pc.pool, Done))
  }

  ghost function PopTo(s: State, r: Root): State
    requires r in s.heads && s.heads[r].Some? && s.heads[r].value in s.next
  {
    s.(heads := s.heads[r := s.next[s.heads[r].value]], out := s.out + {s.heads[r].value})
  }

  ghost function Resume(p: nat, after: After): Pc {
    match after
    case ToTake => Taking(p)
    case ToClose => Closing(p)
    case Done => Idle
  }

  // ----- the invariant -----------------------------------------------------------------

  predicate HoldsObject(pc: Pc) {
    pc.Freeing? || pc.Swapping?
  }

  predicate HoldsStack(pc: Pc) {
    pc.Parking? || pc.Returning? || pc.Splicing?
  }

  predicate WorksOnPool(pc: Pc) {
    !pc.Idle? && !HoldsObject(pc)
  }

  predicate NeedsEmptyAvail(pc: Pc) {
    pc.Refilling? || pc.Asking? || pc.Stealing? || pc.Parking? || Destroying(pc)
  }

  predicate NeedsAvail(pc: Pc) {
    pc.Keeping? || pc.Cutting? || pc.Taking? || ((pc.Returning? || pc.Splicing?) && pc.after == ToTake)
  }

  predicate Destroying(pc: Pc) {
    pc.Closing? || ((pc.Returning? || pc.Splicing?) && pc.after != ToTake)
  }

  /** The most objects pool p's owner, standing at pc, may have parked on it. */
  predicate WithinCap(c: Config, pc: Pc, p: nat, parked: nat) {
    if WorksOnPool(pc) && pc.pool == p && NeedsAvail(pc) then
      pc.Keeping? || pc.Cutting? || parked <= ChooseMaxParked(c.objects)
    else
      parked < ChooseMaxParked(c.objects)
  }

  /** Pool p is gone or going, and its destructor is past the free queue. */
  predicate Drained(pc: Pc, p: nat) {
    !(WorksOnPool(pc) && pc.pool == p && (pc.Closing? || ((pc.Returning? || pc.Splicing?) && pc.after == ToClose)))
  }

  /** The roots are those of the configuration. */
  ghost predicate Roots(c: Config, v: View) {
    && Global in v.lists
    && (forall p: nat | p < |c.pools| :: Free(p) in v.lists && Avail(p) in v.lists)
    && (forall t: nat | t < c.threads :: Flight(t) in v.lists)
  }

  /** What holds of thread t, its stack and the available queues of its pools. */
  ghost predicate Own(c: Config, s: State, v: View, t: nat)
    requires ValidConfig(c) && |s.pc| == c.threads && Roots(c, v) && t < c.threads
  {
    var pc := s.pc[t];
    && (forall p | 0 <= p < |c.pools| && c.pools[p] == t :: WithinCap(c, pc, p, |v.lists[Avail(p)]|))
    && (HoldsObject(pc) ==> pc.pool < |c.pools| && pc.pool in s.open && pc.obj in v.where && v.where[pc.obj] == Hand(t))
    && (pc.Swapping? ==> pc.obj in s.next && s.next[pc.obj] == pc.head)
    && (HoldsStack(pc) <==> v.lists[Flight(t)] != [])
    && (WorksOnPool(pc) ==>
          && pc.pool < |c.pools| && c.pools[pc.pool] == t && (pc.pool in s.open <==> !Destroying(pc))
          && (NeedsEmptyAvail(pc) ==> v.lists[Avail(pc.pool)] == [])
          && (NeedsAvail(pc) ==> v.lists[Avail(pc.pool)] != []))
    && (pc.Cutting? ==> KeptIndex(c, v, pc.pool) < |v.lists[Avail(pc.pool)]|
                        && pc.last == v.lists[Avail(pc.pool)][KeptIndex(c, v, pc.pool)])
    && (pc.Splicing? ==> pc.tail == v.lists[Flight(t)][|v.lists[Flight(t)]| - 1])
  }

  ghost function KeptIndex(c: Config, v: View, p: nat): nat
    requires Roots(c, v) && p < |c.pools|
  {
    var n := |v.lists[Avail(p)]|;
    if ChooseMaxParked(c.objects) < n then ChooseMaxParked(c.objects) - 1 else if n == 0 then 0 else n - 1
  }

  /** The client's set and the threads' hands are where the view says. */
  ghost predicate Held(c: Config, s: State, v: View)
    requires |s.pc| == c.threads
  {
    && (forall o | o in s.out :: o in v.where)
    && (forall o | o in v.where :: v.where[o].Out? <==> o in s.out)
    && (forall o | o in v.where && v.where[o].Hand? ::
          v.where[o].thread < c.threads && HoldsObject(s.pc[v.where[o].thread]) && s.pc[v.where[o].thread].obj == o)
  }

  /** A destroyed pool keeps nothing. */
  ghost predicate Closed(c: Config, s: State, v: View)
    requires ValidConfig(c) && |s.pc| == c.threads && Roots(c, v)
  {
    forall p | 0 <= p < |c.pools| && p !in s.open ::
      v.lists[Avail(p)] == [] && (Drained(s.pc[c.pools[p]], p) ==> v.lists[Free(p)] == [])
  }

  ghost predicate Inv(c: Config, s: State, v: View) {
    && ValidConfig(c) && |s.pc| == c.threads && Roots(c, v)
    && |s.next.Keys| == c.objects
    && Rep(s.next, s.heads, v)
    && Held(c, s, v)
    && Closed(c, s, v)
    && forall t | 0 <= t < c.threads :: Own(c, s, v, t)
  }

  // ----- every step keeps it -----------------------------------------------------------

  /** The lists other threads own, and the objects in their hands, are the same in both views. */
  ghost predicate SameElsewhere(c: Config, v: View, v': View, t: nat)
    requires ValidConfig(c) && Roots(c, v)
  {
    && Roots(c, v')
    && v'.where.Keys == v.where.Keys
    && (forall u: nat | u < c.threads && u != t :: v'.lists[Flight(u)] == v.lists[Flight(u)])
    && (forall p: nat | p < |c.pools| && c.pools[p] != t :: v'.lists[Avail(p)] == v.lists[Avail(p)])
    && (forall o | o in v.where && v.where[o].Hand? && v.where[o].thread != t :: v'.where[o] == v.where[o])
  }

  /** A step of t moves no other thread, writes no link of an object in another's hands and closes no pool
      someone is freeing into. */
  ghost predicate StepsAlone(c: Config, s: State, v: View, s': State, t: nat)
    requires |s.pc| == c.threads && t < c.threads
  {
    && |s'.pc| == c.threads && s'.pc == s.pc[t := s'.pc[t]]
    && s'.next.Keys == s.next.Keys
    && (forall o | o in v.where && v.where[o].Hand? && v.where[o].thread != t && o in s.next :: s'.next[o] == s.next[o])
    && (forall q: nat | q < |c.pools| && (c.pools[q] != t || FreedInto(c, s, q)) :: q in s'.open <==> q in s.open)
  }

  lemma OthersKeep(c: Config, s: State, v: View, s': State, v': View, t: nat)
    requires Inv(c, s, v) && t < c.threads && SameElsewhere(c, v, v', t) && StepsAlone(c, s, v, s', t)
    requires Rep(s'.next, s'.heads, v') && Held(c, s', v') && Closed(c, s', v') && Own(c, s', v', t)
    ensures Inv(c, s', v')
  {
    hide Rep, Held, Closed;
    forall u | 0 <= u < c.threads ensures Own(c, s', v', u) {
      assert Own(c, s, v, u);
      assert HoldsObject(s.pc[u]) ==> FreesInto(s.pc[u], s.pc[u].pool);
    }
  }

  /** What t holds and what the client holds stay as they were. */
  ghost predicate SameHeld(v: View, v': View) {
    && v'.where.Keys == v.where.Keys
    && forall o | o in v.where :: if v.where[o].At? then v'.where[o].At? else v'.where[o] == v.where[o]
  }

  lemma HeldKeeps(c: Config, s: State, v: View, s': State, v': View, t: nat)
    requires |s.pc| == c.threads && t < c.threads && Held(c, s, v) && SameHeld(v, v') && s'.out == s.out
    requires |s'.pc| == c.threads && s'.pc == s.pc[t := s'.pc[t]]
    requires HoldsObject(s.pc[t]) == HoldsObject(s'.pc[t])
    requires HoldsObject(s.pc[t]) ==> s'.pc[t].obj == s.pc[t].obj
    ensures Held(c, s', v')
  {
  }

  // The steps by what they change.

  /** Only t's position changes, and perhaps the set of open pools. */
  lemma PcMove(c: Config, s: State, v: View, t: nat, s': State)
    requires Inv(c, s, v) && t < c.threads
    requires s' == s.(pc := s'.pc, open := s'.open) && StepsAlone(c, s, v, s', t)
    requires HoldsObject(s.pc[t]) == HoldsObject(s'.pc[t])
    requires HoldsObject(s.pc[t]) ==> s'.pc[t].obj == s.pc[t].obj
    requires Own(c, s', v, t) && Closed(c, s', v)
    ensures Inv(c, s', v)
  {
    hide Rep, Closed, Own;
    HeldKeeps(c, s, v, s', v, t);
    OthersKeep(c, s, v, s', v, t);
  }

  /** t's own roots, and the roots anyone may exchange. */
  predicate Reaches(c: Config, t: nat, r: Root) {
    match r
    case Free(p) => p < |c.pools|
    case Avail(p) => p < |c.pools| && c.pools[p] == t
    case Global => true
    case Flight(u) => u == t
  }

  lemma MovedFrame(c: Config, v: View, t: nat, from: Root, to: Root)
    requires ValidConfig(c) && Roots(c, v) && Placed(v)
    requires Reaches(c, t, from) && Reaches(c, t, to) && from in v.lists && to in v.lists
    ensures SameElsewhere(c, v, Moved(v, from, to), t) && SameHeld(v, Moved(v, from, to))
  {
  }

  /** A whole list moves between two roots t may touch. */
  lemma StackMove(c: Config, s: State, v: View, t: nat, from: Root, to: Root, s': State)
    requires Inv(c, s, v) && t < c.threads && Reaches(c, t, from) && Reaches(c, t, to) && from != to
    requires from in s.heads && to in s.heads && s.heads[to] == None
    requires s' == Move(s, from, to).(pc := s'.pc, open := s'.open) && StepsAlone(c, s, v, s', t)
    requires !HoldsObject(s.pc[t]) && !HoldsObject(s'.pc[t])
    requires from in v.lists && Roots(c, Moved(v, from, to))
    requires Own(c, s', Moved(v, from, to), t) && Closed(c, s', Moved(v, from, to))
    ensures Inv(c, s', Moved(v, from, to))
  {
    MoveList(s.next, s.heads, v, from, to);
    MovedFrame(c, v, t, from, to);
    hide Rep, Held, Closed, Own, Moved, StepsAlone;
    HeldKeeps(c, s, v, s', Moved(v, from, to), t);
    OthersKeep(c, s, v, s', Moved(v, from, to), t);
  }

  /** The head of a list t may pop goes to the client. */
  lemma PopMove(c: Config, s: State, v: View, t: nat, r: Root, s': State)
    requires Inv(c, s, v) && t < c.threads && Reaches(c, t, r) && HeadAt(c, s, r)
    requires s' == PopTo(s, r).(pc := s'.pc) && StepsAlone(c, s, v, s', t)
    requires !HoldsObject(s.pc[t]) && !HoldsObject(s'.pc[t])
    requires r in v.lists && v.lists[r] != [] && Roots(c, Popped(v, r))
    requires Own(c, s', Popped(v, r), t) && Closed(c, s', Popped(v, r))
    ensures Inv(c, s', Popped(v, r))
    ensures s.heads[r].value !in s.out
  {
    hide Rep, Closed, Own, Placed;
    PopHead(s.next, s.heads, v, r);
    PoppedFrame(c, s, v, t, r);
    HeldGives(c, s, v, s', t, r);
    hide Held, Popped;
    OthersKeep(c, s, v, s', Popped(v, r), t);
  }

  lemma PoppedFrame(c: Config, s: State, v: View, t: nat, r: Root)
    requires ValidConfig(c) && Roots(c, v) && Rep(s.next, s.heads, v) && Reaches(c, t, r)
    requires r in v.lists && v.lists[r] != []
    ensures SameElsewhere(c, v, Popped(v, r), t)
    ensures v.lists[r][0] in v.where && v.where[v.lists[r][0]] == At(r)
  {
    hide Linked;
    assert v.lists[r][0] in v.lists[r];
  }

  /** An object goes from a list to the client. */
  lemma HeldGives(c: Config, s: State, v: View, s': State, t: nat, r: Root)
    requires |s.pc| == c.threads && t < c.threads && Held(c, s, v) && !HoldsObject(s.pc[t])
    requires r in v.lists && v.lists[r] != [] && v.lists[r][0] in v.where && v.where[v.lists[r][0]] == At(r)
    requires |s'.pc| == c.threads && s'.pc == s.pc[t := s'.pc[t]] && !HoldsObject(s'.pc[t])
    requires s'.out == s.out + {v.lists[r][0]}
    ensures Held(c, s', Popped(v, r)) && v.lists[r][0] !in s.out
  {
  }

  lemma SpliceMove(c: Config, s: State, v: View, t: nat, tail: Obj, s': State)
    requires Inv(c, s, v) && t < c.threads
    requires v.lists[Flight(t)] != [] && tail == v.lists[Flight(t)][|v.lists[Flight(t)]| - 1]
    requires Global in s.heads && Flight(t) in s.heads
    requires s' == Move(s.(next := s.next[tail := s.heads[Global]]), Flight(t), Global).(pc := s'.pc)
    requires StepsAlone(c, s, v, s', t)
    requires !HoldsObject(s.pc[t]) && !HoldsObject(s'.pc[t])
    requires Roots(c, Spliced(v, Flight(t), Global))
    requires Own(c, s', Spliced(v, Flight(t), Global), t) && Closed(c, s', Spliced(v, Flight(t), Global))
    ensures Inv(c, s', Spliced(v, Flight(t), Global))
  {
    SpliceList(s.next, s.heads, v, Flight(t), Global, tail);
    SplicedFrame(c, v, t);
    hide Rep, Held, Closed, Own, Spliced, StepsAlone;
    HeldKeeps(c, s, v, s', Spliced(v, Flight(t), Global), t);
    OthersKeep(c, s, v, s', Spliced(v, Flight(t), Global), t);
  }

  lemma SplicedFrame(c: Config, v: View, t: nat)
    requires ValidConfig(c) && Roots(c, v) && Placed(v) && t < c.threads
    ensures SameElsewhere(c, v, Spliced(v, Flight(t), Global), t) && SameHeld(v, Spliced(v, Flight(t), Global))
  {
  }

  lemma CutMove(c: Config, s: State, v: View, t: nat, p: nat, k: nat, s': State)
    requires Inv(c, s, v) && t < c.threads && p < |c.pools| && c.pools[p] == t
    requires k < |v.lists[Avail(p)]| && v.lists[Flight(t)] == [] && v.lists[Avail(p)][k] in s.next
    requires s' == s.(next := s.next[v.lists[Avail(p)][k] := None],
                      heads := s.heads[Flight(t) := s.next[v.lists[Avail(p)][k]]], pc := s'.pc)
    requires StepsAlone(c, s, v, s', t)
    requires !HoldsObject(s.pc[t]) && !HoldsObject(s'.pc[t])
    requires Roots(c, CutOff(v, Avail(p), Flight(t), k))
    requires Own(c, s', CutOff(v, Avail(p), Flight(t), k), t) && Closed(c, s', CutOff(v, Avail(p), Flight(t), k))
    ensures Inv(c, s', CutOff(v, Avail(p), Flight(t), k))
  {
    CutList(s.next, s.heads, v, Avail(p), Flight(t), k);
    CutFrame(c, v, t, p, k);
    hide Rep, Held, Closed, Own, CutOff, StepsAlone;
    HeldKeeps(c, s, v, s', CutOff(v, Avail(p), Flight(t), k), t);
    OthersKeep(c, s, v, s', CutOff(v, Avail(p), Flight(t), k), t);
  }

  lemma CutFrame(c: Config, v: View, t: nat, p: nat, k: nat)
    requires ValidConfig(c) && Roots(c, v) && Placed(v) && t < c.threads && p < |c.pools| && c.pools[p] == t
    requires k < |v.lists[Avail(p)]|
    ensures SameElsewhere(c, v, CutOff(v, Avail(p), Flight(t), k), t) && SameHeld(v, CutOff(v, Avail(p), Flight(t), k))
  {
    assert forall o | o in v.lists[Avail(p)][k + 1..] :: o in v.lists[Avail(p)];
  }

  /** An object leaves the client's hands for t's. */
  lemma HeldGrabs(c: Config, s: State, v: View, s': State, t: nat, o: Obj)
    requires |s.pc| == c.threads && t < c.threads && Held(c, s, v) && !HoldsObject(s.pc[t])
    requires o in s.out && s'.out == s.out - {o} && |s'.pc| == c.threads && s'.pc == s.pc[t := s'.pc[t]]
    requires HoldsObject(s'.pc[t]) && s'.pc[t].obj == o
    ensures Held(c, s', v.(where := v.where[o := Hand(t)]))
  {
  }

  /** The object in t's hands goes onto a list. */
  lemma HeldDrops(c: Config, s: State, v: View, s': State, t: nat, r: Root)
    requires |s.pc| == c.threads && t < c.threads && Held(c, s, v) && HoldsObject(s.pc[t]) && r in v.lists
    requires s.pc[t].obj in v.where && v.where[s.pc[t].obj] == Hand(t)
    requires s'.out == s.out && |s'.pc| == c.threads && s'.pc == s.pc[t := s'.pc[t]] && !HoldsObject(s'.pc[t])
    ensures Held(c, s', Pushed(v, r, s.pc[t].obj))
  {
  }

  /** t's own facts and the closed pools need nothing of a view but its lists. */
  ghost predicate LocalFacts(c: Config, s: State, v: View, t: nat)
    requires t < c.threads
  {
    ValidConfig(c) && |s.pc| == c.threads && Roots(c, v) && Own(c, s, v, t) && Closed(c, s, v)
  }

  lemma BeginFreeFacts(c: Config, s: State, v: View, t: nat, p: nat, o: Obj, s': State, v': View)
    requires t < c.threads && LocalFacts(c, s, v, t) && s.pc[t].Idle? && p < |c.pools| && p in s.open
    requires o in v.where && v.where[o].Out? && v' == v.(where := v.where[o := Hand(t)])
    requires |s'.pc| == |s.pc| && s'.pc == s.pc[t := s'.pc[t]] && s'.open == s.open
    requires s'.pc[t].Freeing? && s'.pc[t].pool == p && s'.pc[t].obj == o
    ensures LocalFacts(c, s', v', t) && SameElsewhere(c, v, v', t)
  {
  }

  lemma BeginFreeMove(c: Config, s: State, v: View, t: nat, p: nat, o: Obj)
    requires Inv(c, s, v) && t < c.threads && s.pc[t].Idle? && p < |c.pools| && p in s.open && o in s.out
    requires Free(p) in s.heads
    ensures Inv(c, Goto(s.(out := s.out - {o}), t, Freeing(p, o, s.heads[Free(p)])), v.(where := v.where[o := Hand(t)]))
  {
    var s', v' := Goto(s.(out := s.out - {o}), t, Freeing(p, o, s.heads[Free(p)])), v.(where := v.where[o := Hand(t)]);
    assert v.where[o].Out?;
    hide Rep, Held, Own, Closed, SameElsewhere;
    HandOver(s.next, s.heads, v, o, Hand(t));
    HeldGrabs(c, s, v, s', t, o);
    assert LocalFacts(c, s, v, t);
    BeginFreeFacts(c, s, v, t, p, o, s', v');
    OthersKeep(c, s, v, s', v', t);
  }

  lemma SelfUpdate(next: Links, o: Obj)
    requires o in next
    ensures next == next[o := next[o]]
  {
  }

  /** A step inside Free writes at most the link of the object in t's own hands. */
  lemma FreeAlone(c: Config, s: State, v: View, s': State, t: nat, o: Obj)
    requires |s.pc| == c.threads == |s'.pc| && t < c.threads && s'.pc == s.pc[t := s'.pc[t]] && s'.open == s.open
    requires o in s.next && o in v.where && v.where[o] == Hand(t)
    requires o in s'.next && s'.next == s.next[o := s'.next[o]]
    ensures StepsAlone(c, s, v, s', t)
  {
  }

  lemma WriteLinkFacts(c: Config, s: State, v: View, t: nat, s': State)
    requires t < c.threads && LocalFacts(c, s, v, t) && s.pc[t].Freeing? && s.pc[t].obj in s'.next
    requires s'.next[s.pc[t].obj] == s.pc[t].head && s'.open == s.open
    requires s'.pc == s.pc[t := Swapping(s.pc[t].pool, s.pc[t].obj, s.pc[t].head)]
    ensures LocalFacts(c, s', v, t) && s.pc[t].obj in v.where && v.where[s.pc[t].obj] == Hand(t)
  {
  }

  lemma WriteLinkMove(c: Config, s: State, v: View, t: nat)
    requires Inv(c, s, v) && t < c.threads && s.pc[t].Freeing? && s.pc[t].obj in s.next
    ensures Inv(c, Goto(s.(next := s.next[s.pc[t].obj := s.pc[t].head]), t,
                        Swapping(s.pc[t].pool, s.pc[t].obj, s.pc[t].head)), v)
  {
    var pc := s.pc[t];
    var s' := Goto(s.(next := s.next[pc.obj := pc.head]), t, Swapping(pc.pool, pc.obj, pc.head));
    hide Rep, Held, Own, Closed, StepsAlone;
    assert LocalFacts(c, s, v, t);
    WriteLinkFacts(c, s, v, t, s');
    WriteLoose(s.next, s.heads, v, pc.obj, pc.head);
    HeldKeeps(c, s, v, s', v, t);
    FreeAlone(c, s, v, s', t, pc.obj);
    OthersKeep(c, s, v, s', v, t);
  }

  lemma PushedFacts(c: Config, s: State, v: View, s': State, t: nat)
    requires t < c.threads && LocalFacts(c, s, v, t) && HoldsObject(s.pc[t])
    requires s'.open == s.open && s'.pc == s.pc[t := Idle]
    ensures Free(s.pc[t].pool) in v.lists && s.pc[t].obj in v.where && v.where[s.pc[t].obj] == Hand(t)
    ensures s.pc[t].Swapping? ==> s.pc[t].obj in s.next && s.next[s.pc[t].obj] == s.pc[t].head
    ensures var v' := Pushed(v, Free(s.pc[t].pool), s.pc[t].obj);
            LocalFacts(c, s', v', t) && SameElsewhere(c, v, v', t)
  {
  }

  /** The compare-and-swap compares nothing but the head, so it does not matter what happened to the list since
      the head was loaded: the link written then is right now. */
  lemma CasMove(c: Config, s: State, v: View, t: nat)
    requires Inv(c, s, v) && t < c.threads && s.pc[t].Swapping? && s.pc[t].pool < |c.pools|
    requires Free(s.pc[t].pool) in s.heads && s.heads[Free(s.pc[t].pool)] == s.pc[t].head
    ensures Inv(c, Goto(s.(heads := s.heads[Free(s.pc[t].pool) := Some(s.pc[t].obj)]), t, Idle),
                Pushed(v, Free(s.pc[t].pool), s.pc[t].obj))
  {
    var pc := s.pc[t];
    var s', v' := Goto(s.(heads := s.heads[Free(pc.pool) := Some(pc.obj)]), t, Idle), Pushed(v, Free(pc.pool), pc.obj);
    hide Rep, Held, Closed, Pushed, SameElsewhere, Own, StepsAlone;
    assert LocalFacts(c, s, v, t);
    PushedFacts(c, s, v, s', t);
    PushLinked(s.next, s.heads, v, Free(pc.pool), pc.obj);
    HeldDrops(c, s, v, s', t, Free(pc.pool));
    SelfUpdate(s.next, pc.obj);
    FreeAlone(c, s, v, s', t, pc.obj);
    OthersKeep(c, s, v, s', v', t);
  }

  // The steps one by one.

  lemma HeadIs(c: Config, s: State, v: View, r: Root)
    requires Inv(c, s, v) && r in v.lists
    ensures Shape(c, s) && r in s.heads && (s.heads[r].None? <==> v.lists[r] == [])
    ensures s.heads[r].Some? ==> s.heads[r].value == v.lists[r][0] && HeadAt(c, s, r)
  {
    assert Chain(s.next, s.heads[r], v.lists[r]);
    hide Own, Held, Closed, Placed;
  }

  lemma CasFailsKeeps(c: Config, s: State, v: View, t: nat, head: Ptr)
    requires Inv(c, s, v) && t < c.threads && s.pc[t].Swapping?
    ensures Inv(c, Goto(s, t, Freeing(s.pc[t].pool, s.pc[t].obj, head)), v)
  {
    hide Rep, Held;
    assert Own(c, s, v, t);
    PcMove(c, s, v, t, Goto(s, t, Freeing(s.pc[t].pool, s.pc[t].obj, head)));
  }

  lemma BeginAllocKeeps(c: Config, s: State, v: View, t: nat, p: nat, steal: bool)
    requires Inv(c, s, v) && t < c.threads && s.pc[t].Idle? && p < |c.pools| && p in s.open && c.pools[p] == t
    requires Avail(p) in s.heads
    ensures Inv(c, Goto(s, t, if s.heads[Avail(p)].Some? then Taking(p) else Refilling(p, steal)), v)
  {
    hide Rep, Held;
    HeadIs(c, s, v, Avail(p));
    assert Own(c, s, v, t);
    PcMove(c, s, v, t, Goto(s, t, if s.heads[Avail(p)].Some? then Taking(p) else Refilling(p, steal)));
  }

  lemma TakeKeeps(c: Config, s: State, v: View, t: nat)
    requires Inv(c, s, v) && t < c.threads && s.pc[t].Taking? && HeadAt(c, s, Avail(s.pc[t].pool))
    ensures Own(c, s, v, t) && v.lists[Avail(s.pc[t].pool)] != []
    ensures Inv(c, Goto(PopTo(s, Avail(s.pc[t].pool)), t, Idle), Popped(v, Avail(s.pc[t].pool)))
    ensures s.heads[Avail(s.pc[t].pool)].value !in s.out
  {
    hide Rep, Held;
    assert Own(c, s, v, t);
    PopMove(c, s, v, t, Avail(s.pc[t].pool), Goto(PopTo(s, Avail(s.pc[t].pool)), t, Idle));
  }

  lemma GrabFacts(c: Config, s: State, v: View, t: nat, q: nat, pc': Pc, s': State, v': View)
    requires t < c.threads && q < |c.pools| && LocalFacts(c, s, v, t)
    requires if s.pc[t].Closing? then pc' == Returning(s.pc[t].pool, Done) && q == s.pc[t].pool
             else (s.pc[t].Refilling? || s.pc[t].Stealing?) && pc' == Parking(s.pc[t].pool)
    requires v.lists[Free(q)] != [] && v'.lists == v.lists[Free(q) := []][Flight(t) := v.lists[Free(q)]]
    requires s'.pc == s.pc[t := pc'] && s'.open == s.open
    ensures LocalFacts(c, s', v', t)
  {
  }

  /** An exchange that finds a stack: the own queue's, another pool's, or the dying pool's. */
  lemma GrabKeeps(c: Config, s: State, v: View, t: nat, q: nat, pc': Pc)
    requires Inv(c, s, v) && t < c.threads && q < |c.pools|
    requires if s.pc[t].Closing? then pc' == Returning(s.pc[t].pool, Done) && q == s.pc[t].pool
             else (s.pc[t].Refilling? || s.pc[t].Stealing?) && pc' == Parking(s.pc[t].pool)
    requires Free(q) in s.heads && s.heads[Free(q)].Some?
    ensures Inv(c, Goto(Move(s, Free(q), Flight(t)), t, pc'), Moved(v, Free(q), Flight(t)))
  {
    var s', v' := Goto(Move(s, Free(q), Flight(t)), t, pc'), Moved(v, Free(q), Flight(t));
    HeadIs(c, s, v, Flight(t));
    HeadIs(c, s, v, Free(q));
    assert LocalFacts(c, s, v, t);
    assert v.lists[Flight(t)] == [];
    hide Rep, Held, Own, Closed, Shape;
    GrabFacts(c, s, v, t, q, pc', s', v');
    StackMove(c, s, v, t, Free(q), Flight(t), s');
  }

  /** The steps that find an empty list, and the end of a search. */
  lemma FindNothingKeeps(c: Config, s: State, v: View, t: nat, pc': Pc)
    requires Inv(c, s, v) && t < c.threads
    requires match s.pc[t]
             case Refilling(p, steal) => pc' == Asking(p, steal)
             case Asking(p, steal) => pc' == if steal then Stealing(p, 0) else Idle
             case Stealing(p, k) => pc' == Idle || pc' == Stealing(p, k + 1)
             case Closing(p) => pc' == Idle && p < |c.pools| && v.lists[Free(p)] == []
             case _ => false
    ensures Inv(c, Goto(s, t, pc'), v)
  {
    hide Rep, Held;
    assert Own(c, s, v, t);
    PcMove(c, s, v, t, Goto(s, t, pc'));
  }

  lemma AskGlobalKeeps(c: Config, s: State, v: View, t: nat)
    requires Inv(c, s, v) && t < c.threads && s.pc[t].Asking? && HeadAt(c, s, Global)
    ensures v.lists[Global] != []
    ensures Inv(c, Goto(PopTo(s, Global), t, Idle), Popped(v, Global))
    ensures s.heads[Global].value !in s.out
  {
    HeadIs(c, s, v, Global);
    hide Rep, Held, Shape, Own, Closed;
    assert LocalFacts(c, s, v, t);
    var s' := Goto(PopTo(s, Global), t, Idle);
    AskGlobalFacts(c, s, v, t, s');
    assert StepsAlone(c, s, v, s', t);
    hide StepsAlone, Popped;
    PopMove(c, s, v, t, Global, s');
  }

  lemma AskGlobalFacts(c: Config, s: State, v: View, t: nat, s': State)
    requires t < c.threads && LocalFacts(c, s, v, t) && s.pc[t].Asking? && v.lists[Global] != []
    requires s'.pc == s.pc[t := Idle] && s'.open == s.open
    ensures LocalFacts(c, s', Popped(v, Global), t)
  {
  }

  lemma ParkFacts(c: Config, s: State, v: View, t: nat, s': State, v': View)
    requires t < c.threads && LocalFacts(c, s, v, t) && s.pc[t].Parking?
    requires v'.lists == v.lists[Flight(t) := []][Avail(s.pc[t].pool) := v.lists[Flight(t)]]
    requires s'.pc == s.pc[t := Keeping(s.pc[t].pool)] && s'.open == s.open
    ensures LocalFacts(c, s', v', t)
  {
  }

  lemma ParkKeeps(c: Config, s: State, v: View, t: nat)
    requires Inv(c, s, v) && t < c.threads && s.pc[t].Parking? && Flight(t) in s.heads
    ensures Inv(c, Goto(Move(s, Flight(t), Avail(s.pc[t].pool)), t, Keeping(s.pc[t].pool)),
                Moved(v, Flight(t), Avail(s.pc[t].pool)))
  {
    var p := s.pc[t].pool;
    var s', v' := Goto(Move(s, Flight(t), Avail(p)), t, Keeping(p)), Moved(v, Flight(t), Avail(p));
    assert LocalFacts(c, s, v, t);
    HeadIs(c, s, v, Avail(p));
    hide Rep, Held, Own, Closed, Shape;
    ParkFacts(c, s, v, t, s', v');
    StackMove(c, s, v, t, Flight(t), Avail(p), s');
  }

  lemma WalkKeptFacts(c: Config, s: State, v: View, t: nat, s': State)
    requires t < c.threads && LocalFacts(c, s, v, t) && s.pc[t].Keeping? && s'.open == s.open
    requires v.lists[Avail(s.pc[t].pool)] != []
    requires s'.pc == s.pc[t := Cutting(s.pc[t].pool, v.lists[Avail(s.pc[t].pool)][KeptIndex(c, v, s.pc[t].pool)])]
    ensures LocalFacts(c, s', v, t)
  {
  }

  lemma WalkKeptKeeps(c: Config, s: State, v: View, t: nat)
    requires Inv(c, s, v) && t < c.threads && s.pc[t].Keeping? && HeadAt(c, s, Avail(s.pc[t].pool))
    ensures Inv(c, Goto(s, t, Cutting(s.pc[t].pool,
                LastKept(s.next, s.heads[Avail(s.pc[t].pool)].value, ChooseMaxParked(c.objects)))), v)
  {
    var p := s.pc[t].pool;
    assert LocalFacts(c, s, v, t);
    HeadIs(c, s, v, Avail(p));
    LastKeptIs(s.next, v.lists[Avail(p)], ChooseMaxParked(c.objects));
    hide Rep, Held, Own, Closed, Chain, LastKept;
    var s' := Goto(s, t, Cutting(p, LastKept(s.next, s.heads[Avail(p)].value, ChooseMaxParked(c.objects))));
    WalkKeptFacts(c, s, v, t, s');
    PcMove(c, s, v, t, s');
  }

  /** Nothing hangs off the last object kept. */
  lemma CutNothingKeeps(c: Config, s: State, v: View, t: nat)
    requires Inv(c, s, v) && t < c.threads && s.pc[t].Cutting? && s.pc[t].last in s.next && s.next[s.pc[t].last].None?
    ensures Inv(c, Goto(s, t, Taking(s.pc[t].pool)), v)
  {
    var p := s.pc[t].pool;
    assert LocalFacts(c, s, v, t);
    ChainDrop(s.next, s.heads[Avail(p)], v.lists[Avail(p)], KeptIndex(c, v, p));
    assert |v.lists[Avail(p)]| <= ChooseMaxParked(c.objects);
    hide Rep, Held, Own, Closed, Chain;
    CutNothingFacts(c, s, v, t, Goto(s, t, Taking(p)));
    PcMove(c, s, v, t, Goto(s, t, Taking(p)));
  }

  lemma CutNothingFacts(c: Config, s: State, v: View, t: nat, s': State)
    requires t < c.threads && LocalFacts(c, s, v, t) && s.pc[t].Cutting?
    requires |v.lists[Avail(s.pc[t].pool)]| <= ChooseMaxParked(c.objects)
    requires s'.pc == s.pc[t := Taking(s.pc[t].pool)] && s'.open == s.open
    ensures LocalFacts(c, s', v, t)
  {
  }

  lemma CutFacts(c: Config, s: State, v: View, t: nat, s': State, v': View)
    requires t < c.threads && LocalFacts(c, s, v, t) && s.pc[t].Cutting?
    requires ChooseMaxParked(c.objects) < |v.lists[Avail(s.pc[t].pool)]|
    requires v'.lists == CutOff(v, Avail(s.pc[t].pool), Flight(t), KeptIndex(c, v, s.pc[t].pool)).lists
    requires s'.pc == s.pc[t := Returning(s.pc[t].pool, ToTake)] && s'.open == s.open
    ensures LocalFacts(c, s', v', t)
  {
  }

  lemma CutStart(c: Config, s: State, v: View, t: nat)
    requires Inv(c, s, v) && t < c.threads && s.pc[t].Cutting? && s.pc[t].last in s.next && s.next[s.pc[t].last].Some?
    ensures LocalFacts(c, s, v, t) && s.pc[t].last in v.where && v.where[s.pc[t].last] == At(Avail(s.pc[t].pool))
    ensures ChooseMaxParked(c.objects) < |v.lists[Avail(s.pc[t].pool)]|
  {
    hide Held;
    var p := s.pc[t].pool;
    assert Own(c, s, v, t);
    ChainDrop(s.next, s.heads[Avail(p)], v.lists[Avail(p)], KeptIndex(c, v, p));
  }

  lemma CutKeeps(c: Config, s: State, v: View, t: nat)
    requires Inv(c, s, v) && t < c.threads && s.pc[t].Cutting? && s.pc[t].last in s.next && s.next[s.pc[t].last].Some?
    ensures Own(c, s, v, t)
    ensures Inv(c, Goto(s.(next := s.next[s.pc[t].last := None], heads := s.heads[Flight(t) := s.next[s.pc[t].last]]),
                        t, Returning(s.pc[t].pool, ToTake)),
                CutOff(v, Avail(s.pc[t].pool), Flight(t), KeptIndex(c, v, s.pc[t].pool)))
  {
    hide Rep, Held, Closed, Chain, Shape;
    CutStart(c, s, v, t);
    var p, last := s.pc[t].pool, s.pc[t].last;
    var k := KeptIndex(c, v, p);
    var s' := Goto(s.(next := s.next[last := None], heads := s.heads[Flight(t) := s.next[last]]),
                   t, Returning(p, ToTake));
    CutFacts(c, s, v, t, s', CutOff(v, Avail(p), Flight(t), k));
    CutMove(c, s, v, t, p, k, s');
  }

  lemma WalkTailFacts(c: Config, s: State, v: View, t: nat, tail: Obj, s': State)
    requires t < c.threads && LocalFacts(c, s, v, t) && s.pc[t].Returning? && s'.open == s.open
    requires v.lists[Flight(t)] != [] && tail == v.lists[Flight(t)][|v.lists[Flight(t)]| - 1]
    requires s'.pc == s.pc[t := Splicing(s.pc[t].pool, tail, s.pc[t].after)]
    ensures LocalFacts(c, s', v, t)
  {
  }

  /** The walk to the null ends at the last object of the stack. */
  lemma TailIs(c: Config, s: State, v: View, t: nat, tail: Obj)
    requires Inv(c, s, v) && t < c.threads && Flight(t) in s.heads && EndsAt(s.next, s.heads[Flight(t)], tail)
    ensures v.lists[Flight(t)] != [] && tail == v.lists[Flight(t)][|v.lists[Flight(t)]| - 1]
  {
    hide Held, Own, Closed, Placed, Chain;
    var l :| Chain(s.next, s.heads[Flight(t)], l) && l != [] && l[|l| - 1] == tail;
    ChainUnique(s.next, s.heads[Flight(t)], l, v.lists[Flight(t)]);
  }

  lemma WalkTailKeeps(c: Config, s: State, v: View, t: nat, tail: Obj)
    requires Inv(c, s, v) && t < c.threads && s.pc[t].Returning? && Flight(t) in s.heads
    requires EndsAt(s.next, s.heads[Flight(t)], tail)
    ensures Inv(c, Goto(s, t, Splicing(s.pc[t].pool, tail, s.pc[t].after)), v)
  {
    hide Rep, Held, Own, Closed, Shape, EndsAt;
    TailIs(c, s, v, t, tail);
    assert LocalFacts(c, s, v, t);
    WalkTailFacts(c, s, v, t, tail, Goto(s, t, Splicing(s.pc[t].pool, tail, s.pc[t].after)));
    PcMove(c, s, v, t, Goto(s, t, Splicing(s.pc[t].pool, tail, s.pc[t].after)));
  }

  lemma SpliceFacts(c: Config, s: State, v: View, t: nat, s': State, v': View)
    requires t < c.threads && LocalFacts(c, s, v, t) && s.pc[t].Splicing?
    requires v'.lists == Spliced(v, Flight(t), Global).lists
    requires s'.pc == s.pc[t := Resume(s.pc[t].pool, s.pc[t].after)] && s'.open == s.open
    ensures LocalFacts(c, s', v', t) && v.lists[Flight(t)] != []
    ensures s.pc[t].tail == v.lists[Flight(t)][|v.lists[Flight(t)]| - 1]
  {
  }

  lemma TailListed(c: Config, s: State, v: View, t: nat)
    requires Inv(c, s, v) && t < c.threads && s.pc[t].Splicing?
    ensures s.pc[t].tail in s.next && s.pc[t].tail in v.where && v.where[s.pc[t].tail] == At(Flight(t))
  {
    hide Held, Closed, Linked;
    assert Own(c, s, v, t);
    assert s.pc[t].tail in v.lists[Flight(t)];
  }

  lemma SpliceKeeps(c: Config, s: State, v: View, t: nat)
    requires Inv(c, s, v) && t < c.threads && s.pc[t].Splicing? && Flight(t) in s.heads && Global in s.heads
    ensures Inv(c, Goto(Move(s.(next := s.next[s.pc[t].tail := s.heads[Global]]), Flight(t), Global), t,
                        Resume(s.pc[t].pool, s.pc[t].after)), Spliced(v, Flight(t), Global))
  {
    hide Rep, Held, Closed;
    var pc := s.pc[t];
    TailListed(c, s, v, t);
    var s' := Goto(Move(s.(next := s.next[pc.tail := s.heads[Global]]), Flight(t), Global),
                   t, Resume(pc.pool, pc.after));
    assert LocalFacts(c, s, v, t);
    SpliceFacts(c, s, v, t, s', Spliced(v, Flight(t), Global));
    SpliceMove(c, s, v, t, pc.tail, s');
  }

  lemma BeginCloseFacts(c: Config, s: State, v: View, t: nat, p: nat, s': State, v': View)
    requires t < c.threads && LocalFacts(c, s, v, t) && s.pc[t].Idle? && p < |c.pools| && p in s.open && c.pools[p] == t
    requires s'.open == s.open - {p}
    requires if v.lists[Avail(p)] == [] then v' == v && s'.pc == s.pc[t := Closing(p)]
             else v' == Moved(v, Avail(p), Flight(t)) && s'.pc == s.pc[t := Returning(p, ToClose)]
    ensures LocalFacts(c, s', v', t)
  {
  }

  lemma BeginCloseKeeps(c: Config, s: State, v: View, t: nat, p: nat)
    requires Inv(c, s, v) && t < c.threads && s.pc[t].Idle? && p < |c.pools| && p in s.open && c.pools[p] == t
    requires Avail(p) in s.heads && s.heads[Avail(p)].None? && !FreedInto(c, s, p)
    ensures Inv(c, Goto(s.(open := s.open - {p}), t, Closing(p)), v)
  {
    HeadIs(c, s, v, Avail(p));
    hide Rep, Held, Own, Closed, Shape;
    assert LocalFacts(c, s, v, t);
    var s' := Goto(s.(open := s.open - {p}), t, Closing(p));
    BeginCloseFacts(c, s, v, t, p, s', v);
    PcMove(c, s, v, t, s');
  }

  lemma BeginCloseParkedKeeps(c: Config, s: State, v: View, t: nat, p: nat)
    requires Inv(c, s, v) && t < c.threads && s.pc[t].Idle? && p < |c.pools| && p in s.open && c.pools[p] == t
    requires Avail(p) in s.heads && s.heads[Avail(p)].Some? && !FreedInto(c, s, p)
    ensures Inv(c, Goto(Move(s.(open := s.open - {p}), Avail(p), Flight(t)), t, Returning(p, ToClose)),
                Moved(v, Avail(p), Flight(t)))
  {
    HeadIs(c, s, v, Avail(p));
    HeadIs(c, s, v, Flight(t));
    assert LocalFacts(c, s, v, t);
    assert v.lists[Flight(t)] == [];
    hide Rep, Held, Own, Closed, Shape;
    var s' := Goto(Move(s.(open := s.open - {p}), Avail(p), Flight(t)), t, Returning(p, ToClose));
    BeginCloseFacts(c, s, v, t, p, s', Moved(v, Avail(p), Flight(t)));
    assert StepsAlone(c, s, v, s', t);
    hide StepsAlone, FreedInto, Moved;
    StackMove(c, s, v, t, Avail(p), Flight(t), s');
  }

  /** The object a step returns to the client, if it returns one. */
  ghost function Given(s: State, t: nat, a: Action): Ptr
    requires t < |s.pc|
  {
    match a
    case Take => if s.pc[t].Taking? && Avail(s.pc[t].pool) in s.heads then s.heads[Avail(s.pc[t].pool)] else None
    case AskGlobal => if Global in s.heads then s.heads[Global] else None
    case _ => None
  }

  /** What one step does to the client's objects: one that was on a list goes out, or none does. */
  ghost predicate HandsOut(v: View, given: Ptr, before: set<Obj>, after: set<Obj>) {
    match given
    case None => after <= before
    case Some(o) => o !in before && o in v.where && v.where[o].At? && after == before + {o}
  }

  lemma FreeStepKeeps(c: Config, s: State, v: View, t: nat, a: Action) returns (v': View)
    requires Inv(c, s, v) && Shape(c, s) && t < c.threads && Enabled(c, s, t, a)
    requires a.BeginFree? || a.WriteLink? || a.CasWins? || a.CasFails?
    ensures Inv(c, Step(c, s, t, a), v') && HandsOut(v, Given(s, t, a), s.out, Step(c, s, t, a).out)
  {
    assert Roots(c, v);
    hide Inv;
    match a {
      case BeginFree(p, o) =>
        BeginFreeMove(c, s, v, t, p, o);
        v' := v.(where := v.where[o := Hand(t)]);
      case WriteLink =>
        WriteLinkMove(c, s, v, t);
        v' := v;
      case CasWins =>
        CasMove(c, s, v, t);
        v' := Pushed(v, Free(s.pc[t].pool), s.pc[t].obj);
      case CasFails =>
        CasFailsKeeps(c, s, v, t, s.heads[Free(s.pc[t].pool)]);
        v' := v;
    }
  }

  lemma OwnHolds(c: Config, s: State, v: View, t: nat)
    requires Inv(c, s, v) && t < c.threads
    ensures ValidConfig(c) && Roots(c, v) && |s.pc| == c.threads && Own(c, s, v, t)
  {
  }

  lemma AllocStepKeeps(c: Config, s: State, v: View, t: nat, a: Action) returns (v': View)
    requires Inv(c, s, v) && Shape(c, s) && t < c.threads && Enabled(c, s, t, a)
    requires a.BeginAlloc? || a.Take? || a.SwapOwn? || a.AskGlobal? || a.Steal? || a.GiveUp?
    ensures Inv(c, Step(c, s, t, a), v') && HandsOut(v, Given(s, t, a), s.out, Step(c, s, t, a).out)
  {
    hide Inv, Rep, Held, Closed, Own;
    OwnHolds(c, s, v, t);
    v' := v;
    match a {
      case BeginAlloc(p, steal) =>
        BeginAllocKeeps(c, s, v, t, p, steal);
      case Take =>
        PoppedWasListed(c, s, v, Avail(s.pc[t].pool));
        TakeKeeps(c, s, v, t);
        v' := Popped(v, Avail(s.pc[t].pool));
      case SwapOwn =>
        if s.heads[Free(s.pc[t].pool)].None? {
          FindNothingKeeps(c, s, v, t, Asking(s.pc[t].pool, s.pc[t].steal));
        } else {
          GrabKeeps(c, s, v, t, s.pc[t].pool, Parking(s.pc[t].pool));
          v' := Moved(v, Free(s.pc[t].pool), Flight(t));
        }
      case AskGlobal =>
        if s.heads[Global].Some? {
          PoppedWasListed(c, s, v, Global);
          AskGlobalKeeps(c, s, v, t);
          v' := Popped(v, Global);
        } else {
          FindNothingKeeps(c, s, v, t, if s.pc[t].steal then Stealing(s.pc[t].pool, 0) else Idle);
        }
      case Steal =>
        var q := Neighbour(s.pc[t].pool, s.pc[t].seen, |c.pools|);
        if s.heads[Free(q)].Some? {
          GrabKeeps(c, s, v, t, q, Parking(s.pc[t].pool));
          v' := Moved(v, Free(q), Flight(t));
        } else {
          FindNothingKeeps(c, s, v, t, Stealing(s.pc[t].pool, s.pc[t].seen + 1));
        }
      case GiveUp =>
        FindNothingKeeps(c, s, v, t, Idle);
    }
  }

  /** The object at the head of a list is not the client's. */
  lemma PoppedWasListed(c: Config, s: State, v: View, r: Root)
    requires Inv(c, s, v) && r in s.heads && s.heads[r].Some?
    ensures var o := s.heads[r].value; o !in s.out && o in v.where && v.where[o] == At(r)
    ensures r in v.lists && v.lists[r] != []
  {
    hide Own, Closed;
    HeadIs(c, s, v, r);
    assert v.lists[r][0] in v.lists[r];
  }

  lemma StackStepKeeps(c: Config, s: State, v: View, t: nat, a: Action) returns (v': View)
    requires Inv(c, s, v) && Shape(c, s) && t < c.threads && Enabled(c, s, t, a)
    requires a.Park? || a.WalkKept? || a.Cut? || a.WalkTail? || a.Splice? || a.BeginClose? || a.CloseSwap?
    ensures Inv(c, Step(c, s, t, a), v') && Step(c, s, t, a).out == s.out
  {
    hide Inv, Rep, Held, Closed;
    OwnHolds(c, s, v, t);
    v' := v;
    match a {
      case Park =>
        ParkKeeps(c, s, v, t);
        v' := Moved(v, Flight(t), Avail(s.pc[t].pool));
      case WalkKept =>
        WalkKeptKeeps(c, s, v, t);
      case Cut =>
        if s.next[s.pc[t].last].None? {
          CutNothingKeeps(c, s, v, t);
        } else {
          CutKeeps(c, s, v, t);
          v' := CutOff(v, Avail(s.pc[t].pool), Flight(t), KeptIndex(c, v, s.pc[t].pool));
        }
      case WalkTail(tail) =>
        WalkTailKeeps(c, s, v, t, tail);
      case Splice =>
        SpliceKeeps(c, s, v, t);
        v' := Spliced(v, Flight(t), Global);
      case BeginClose(p) =>
        if s.heads[Avail(p)].None? {
          BeginCloseKeeps(c, s, v, t, p);
        } else {
          BeginCloseParkedKeeps(c, s, v, t, p);
          v' := Moved(v, Avail(p), Flight(t));
        }
      case CloseSwap =>
        if s.heads[Free(s.pc[t].pool)].None? {
          HeadIs(c, s, v, Free(s.pc[t].pool));
          FindNothingKeeps(c, s, v, t, Idle);
        } else {
          GrabKeeps(c, s, v, t, s.pc[t].pool, Returning(s.pc[t].pool, Done));
          v' := Moved(v, Free(s.pc[t].pool), Flight(t));
        }
    }
  }

  /** Every step of every thread keeps the invariant, and hands out only an object that was free. */
  lemma StepKeeps(c: Config, s: State, v: View, t: nat, a: Action) returns (v': View)
    requires Inv(c, s, v) && Shape(c, s) && t < c.threads && Enabled(c, s, t, a)
    ensures Inv(c, Step(c, s, t, a), v') && HandsOut(v, Given(s, t, a), s.out, Step(c, s, t, a).out)
  {
    hide Inv, Shape, Enabled, Step;
    if a.BeginFree? || a.WriteLink? || a.CasWins? || a.CasFails? {
      v' := FreeStepKeeps(c, s, v, t, a);
    } else if a.BeginAlloc? || a.Take? || a.SwapOwn? || a.AskGlobal? || a.Steal? || a.GiveUp? {
      v' := AllocStepKeeps(c, s, v, t, a);
    } else {
      v' := StackStepKeeps(c, s, v, t, a);
    }
  }

  // ----- runs --------------------------------------------------------------------------

  datatype Event = Event(thread: nat, action: Action)

  ghost predicate Next(c: Config, s: State, e: Event, s': State) {
    ValidConfig(c) && Shape(c, s) && e.thread < c.threads && Enabled(c, s, e.thread, e.action)
    && s' == Step(c, s, e.thread, e.action)
  }

  /** The objects of the arena, the last constructed first: the global list the manager starts with. */
  ghost function Arena(n: nat): (l: seq<Obj>)
    ensures |l| == n
    ensures forall o {:trigger o in l} :: o in l <==> o.id < n
    decreases n
  {
    if n == 0 then [] else [Obj(n - 1)] + Arena(n - 1)
  }

  /** The manager just constructed, every pool open and empty, no thread doing anything. */
  ghost predicate Start(c: Config, s: State) {
    && ValidConfig(c) && Shape(c, s)
    && s.next.Keys == Elems(Arena(c.objects))
    && (forall o {:trigger s.next[o]} | o in s.next :: s.next[o] == if o.id == 0 then None else Some(Obj(o.id - 1)))
    && (forall r | r in s.heads && r != Global :: s.heads[r] == None)
    && s.heads[Global] == (if c.objects == 0 then None else Some(Obj(c.objects - 1)))
    && (forall t | 0 <= t < |s.pc| :: s.pc[t].Idle?)
    && s.out == {}
    && (forall p: nat | p < |c.pools| :: p in s.open)
  }

  ghost predicate IsRun(c: Config, run: seq<State>, events: seq<Event>) {
    && |run| == |events| + 1
    && Start(c, run[0])
    && forall i | 0 <= i < |events| :: Next(c, run[i], events[i], run[i + 1])
  }

  lemma {:induction false} ArenaChain(next: Links, n: nat)
    requires forall o: Obj {:trigger next[o]} {:trigger o in next} | o.id < n ::
               o in next && next[o] == if o.id == 0 then None else Some(Obj(o.id - 1))
    ensures Chain(next, if n == 0 then None else Some(Obj(n - 1)), Arena(n))
    decreases n
  {
    if n > 0 {
      ArenaChain(next, n - 1);
      assert Arena(n)[1..] == Arena(n - 1);
    }
  }

  lemma {:induction false} ArenaSize(n: nat)
    ensures |Elems(Arena(n))| == n && NoDup(Arena(n))
    decreases n
  {
    if n > 0 {
      ArenaSize(n - 1);
      NoDupConcat([Obj(n - 1)], Arena(n - 1));
      assert Elems(Arena(n)) == Elems(Arena(n - 1)) + {Obj(n - 1)};
    } else {
      assert Elems(Arena(n)) == {};
    }
  }

  ghost function StartView(c: Config, s: State): View {
    View(map r | r in s.heads :: if r == Global then Arena(c.objects) else [], map o | o in s.next :: At(Global))
  }

  lemma StartPlaced(c: Config, s: State)
    requires s.next.Keys == Elems(Arena(c.objects)) && Global in s.heads
    ensures Placed(StartView(c, s)) && |s.next.Keys| == c.objects
  {
    ArenaSize(c.objects);
    hide Arena;
  }

  lemma EmptyChain(next: Links)
    ensures Chain(next, None, [])
  {
  }

  lemma StartLinked(c: Config, s: State)
    requires Start(c, s)
    ensures Linked(s.next, s.heads, StartView(c, s).lists)
  {
    hide Shape, Arena, Chain, NoDup;
    assert forall o | o in Arena(c.objects) :: o in Elems(Arena(c.objects));
    ArenaChain(s.next, c.objects);
    EmptyChain(s.next);
  }

  lemma StartRep(c: Config, s: State)
    requires Start(c, s)
    ensures Rep(s.next, s.heads, StartView(c, s)) && |s.next.Keys| == c.objects
  {
    hide Placed, Linked, Arena;
    StartPlaced(c, s);
    StartLinked(c, s);
  }

  lemma StartOwn(c: Config, s: State, v: View, t: nat)
    requires ValidConfig(c) && |s.pc| == c.threads && Roots(c, v) && t < c.threads && s.pc[t].Idle?
    requires v.lists[Flight(t)] == [] && forall p: nat | p < |c.pools| :: v.lists[Avail(p)] == []
    ensures Own(c, s, v, t)
  {
  }

  lemma StartHolds(c: Config, s: State)
    requires Start(c, s)
    ensures Inv(c, s, StartView(c, s))
  {
    var v := StartView(c, s);
    hide Rep, Arena, Own;
    StartRep(c, s);
    assert Held(c, s, v);
    hide Held;
    forall t | 0 <= t < c.threads ensures Own(c, s, v, t) {
      StartOwn(c, s, v, t);
    }
  }

  /** Over every interleaving the invariant holds at every point. */
  lemma {:induction false} RunKeeps(c: Config, run: seq<State>, events: seq<Event>, i: nat) returns (v: View)
    requires IsRun(c, run, events) && i < |run|
    ensures Inv(c, run[i], v) && run[i].next.Keys == run[0].next.Keys
    decreases i
  {
    hide Inv, Shape, Enabled, Step, Start;
    if i == 0 {
      StartHolds(c, run[0]);
      v := StartView(c, run[0]);
    } else {
      var u := RunKeeps(c, run, events, i - 1);
      assert Next(c, run[i - 1], events[i - 1], run[i]);
      v := StepKeeps(c, run[i - 1], u, events[i - 1].thread, events[i - 1].action);
      KeysStay(c, run[i - 1], events[i - 1]);
    }
  }

  lemma KeysStay(c: Config, s: State, e: Event)
    requires ValidConfig(c) && Shape(c, s) && e.thread < c.threads && Enabled(c, s, e.thread, e.action)
    ensures Step(c, s, e.thread, e.action).next.Keys == s.next.Keys
  {
  }

  // ----- what the invariant means ------------------------------------------------------

  /** Object o is at place p, read off the pointers alone. */
  ghost predicate IsAt(c: Config, s: State, o: Obj, p: Place) {
    match p
    case Out => o in s.out
    case Hand(t) => t < |s.pc| && HoldsObject(s.pc[t]) && s.pc[t].obj == o
    case At(r) => r in s.heads && exists l :: Chain(s.next, s.heads[r], l) && o in l
  }

  lemma PlaceIs(c: Config, s: State, v: View, o: Obj, p: Place)
    requires Inv(c, s, v) && o in s.next
    ensures IsAt(c, s, o, p) <==> v.where[o] == p
  {
    match p {
      case Out =>
      case Hand(t) =>
        if t < |s.pc| {
          assert Own(c, s, v, t);
        }
      case At(r) =>
        if IsAt(c, s, o, p) {
          var l :| Chain(s.next, s.heads[r], l) && o in l;
          ChainUnique(s.next, s.heads[r], l, v.lists[r]);
        }
    }
  }

  /** At every point of every run each object is in exactly one place: with the client, in one thread's hands, or
      on the list of one root. */
  lemma RunConserves(c: Config, run: seq<State>, events: seq<Event>, i: nat, o: Obj) returns (p: Place)
    requires IsRun(c, run, events) && i < |run| && o.id < c.objects
    ensures o in run[i].next && |run[i].next.Keys| == c.objects
    ensures forall q :: IsAt(c, run[i], o, q) <==> q == p
  {
    var v := RunKeeps(c, run, events, i);
    assert o in Elems(Arena(c.objects));
    p := v.where[o];
    forall q ensures IsAt(c, run[i], o, q) <==> q == p {
      PlaceIs(c, run[i], v, o, q);
    }
  }

  /** No object is handed out twice: what a step returns to the client was on a list and not the client's, and a step
      that returns none gives it none. */
  lemma RunHandsOutOnce(c: Config, run: seq<State>, events: seq<Event>, i: nat)
    requires IsRun(c, run, events) && i < |events|
    ensures events[i].thread < |run[i].pc|
    ensures match Given(run[i], events[i].thread, events[i].action)
            case None => run[i + 1].out <= run[i].out
            case Some(o) =>
              && o !in run[i].out && run[i + 1].out == run[i].out + {o}
              && exists r :: IsAt(c, run[i], o, At(r))
  {
    hide Inv, Enabled, Step, Start, IsAt, Given;
    var v := RunKeeps(c, run, events, i);
    assert Next(c, run[i], events[i], run[i + 1]);
    var v' := StepKeeps(c, run[i], v, events[i].thread, events[i].action);
    var g := Given(run[i], events[i].thread, events[i].action);
    if g.Some? {
      InvNext(c, run[i], v);
      PlaceIs(c, run[i], v, g.value, v.where[g.value]);
    }
  }

  lemma InvNext(c: Config, s: State, v: View)
    requires Inv(c, s, v)
    ensures s.next.Keys == v.where.Keys
  {
  }

  /** When a pool's owner is idle it has at most 15 objects parked or less than a 256th of all, and a destroyed pool
      keeps none. */
  lemma RunCaps(c: Config, run: seq<State>, events: seq<Event>, i: nat, p: nat, l: seq<Obj>)
    requires IsRun(c, run, events) && i < |run| && p < |c.pools| && Shape(c, run[i])
    requires run[i].pc[c.pools[p]].Idle? && Chain(run[i].next, run[i].heads[Avail(p)], l)
    ensures |l| <= ChooseMaxParked(c.objects) - 1
    ensures |l| <= 15 || 256 * (|l| + 1) <= c.objects
    ensures p !in run[i].open ==> l == [] && run[i].heads[Free(p)] == None
  {
    var v := RunKeeps(c, run, events, i);
    ParkedShare(c.objects);
    ChainUnique(run[i].next, run[i].heads[Avail(p)], l, v.lists[Avail(p)]);
    assert Own(c, run[i], v, c.pools[p]);
    HeadIs(c, run[i], v, Free(p));
  }

  lemma CanStep(c: Config, s: State, v: View, t: nat) returns (a: Action)
    requires Inv(c, s, v) && t < c.threads && !s.pc[t].Idle?
    ensures ValidConfig(c) && Shape(c, s) && Enabled(c, s, t, a)
  {
    hide Inv, Own, Rep, Chain;
    PcFacts(c, s, v, t);
    HeadIs(c, s, v, Global);
    var pc := s.pc[t];
    var tail := StackEnd(c, s, v, t);
    match pc {
      case Freeing(_, _, _) => a := WriteLink;
      case Swapping(_, _, _) => a := CasFails;
      case Refilling(_, _) => a := SwapOwn;
      case Asking(_, _) => a := AskGlobal;
      case Stealing(_, k) => a := if k + 1 < |c.pools| then Steal else GiveUp;
      case Parking(_) => a := Park;
      case Keeping(p) => a := WalkKept;
      case Cutting(p, last) => a := Cut;
      case Returning(_, _) => a := WalkTail(tail);
      case Splicing(_, _, _) => a := Splice;
      case Taking(p) => a := Take;
      case Closing(_) => a := CloseSwap;
    }
  }

  lemma PcFacts(c: Config, s: State, v: View, t: nat)
    requires Inv(c, s, v) && t < c.threads
    ensures Global in v.lists && ValidConfig(c) && |s.pc| == c.threads
    ensures var pc := s.pc[t];
            && (!pc.Idle? ==> pc.pool < |c.pools|)
            && (HoldsObject(pc) ==> pc.obj in s.next)
            && (pc.Parking? ==> Avail(pc.pool) in s.heads && s.heads[Avail(pc.pool)].None?)
            && (pc.Keeping? || pc.Taking? ==> HeadAt(c, s, Avail(pc.pool)))
            && (pc.Cutting? ==> pc.last in s.next)
            && (pc.Splicing? ==> pc.tail in s.next)
  {
    hide Held, Closed;
    var pc := s.pc[t];
    assert Own(c, s, v, t);
    if pc.Cutting? {
      assert pc.last in v.lists[Avail(pc.pool)];
    } else if pc.Splicing? {
      TailListed(c, s, v, t);
    } else if pc.Parking? || pc.Keeping? || pc.Taking? {
      HeadIs(c, s, v, Avail(pc.pool));
    }
  }

  /** The walk along a stack in hand ends. */
  lemma StackEnd(c: Config, s: State, v: View, t: nat) returns (tail: Obj)
    requires Inv(c, s, v) && t < c.threads
    ensures s.pc[t].Returning? ==> Flight(t) in s.heads && EndsAt(s.next, s.heads[Flight(t)], tail)
  {
    hide Held, Closed, Placed;
    assert Own(c, s, v, t);
    var l := v.lists[Flight(t)];
    tail := if l != [] then l[|l| - 1] else Obj(0);
    assert Chain(s.next, s.heads[Flight(t)], l);
  }

  /** At no point of any run is a thread inside an operation stuck, so no pointer it follows is null and no assertion
      fails. */
  lemma Unstuck(c: Config, run: seq<State>, events: seq<Event>, i: nat, t: nat) returns (a: Action)
    requires IsRun(c, run, events) && i < |run| && t < c.threads
    ensures ValidConfig(c) && Shape(c, run[i]) && (!run[i].pc[t].Idle? ==> Enabled(c, run[i], t, a))
  {
    hide Inv, IsRun, Enabled;
    var v := RunKeeps(c, run, events, i);
    InvShape(c, run[i], v);
    if run[i].pc[t].Idle? {
      a := WriteLink;
    } else {
      a := CanStep(c, run[i], v, t);
    }
  }

  lemma InvShape(c: Config, s: State, v: View)
    requires Inv(c, s, v)
    ensures ValidConfig(c) && Shape(c, s)
  {
  }

  // ----- what a null means -------------------------------------------------------------

  /** Thread t, allocating from pool p, looked at the list of this root and found it empty. */
  ghost predicate Looked(c: Config, s: State, e: Event, t: nat, p: nat, r: Root) {
    && e.thread == t < |s.pc| && r in s.heads && s.heads[r].None?
    && match r
       case Global => e.action.AskGlobal?
       case Free(q) =>
         if q == p then e.action.SwapOwn?
         else e.action.Steal? && s.pc[t].Stealing? && p < |c.pools| && s.pc[t].seen + 1 < |c.pools|
              && q == Neighbour(p, s.pc[t].seen, |c.pools|)
       case _ => false
  }

  ghost predicate Found(c: Config, run: seq<State>, events: seq<Event>, b: nat, i: nat, t: nat, p: nat, r: Root)
    requires i <= |events| <= |run|
  {
    exists m :: b < m < i && Looked(c, run[m], events[m], t, p, r)
  }

  /** At b thread t began to allocate from pool p, whose available queue was empty, and up to i it has only looked
      elsewhere. */
  ghost predicate Began(c: Config, run: seq<State>, events: seq<Event>, b: nat, i: nat, t: nat, p: nat, steal: bool)
    requires i <= |events| <= |run|
  {
    && b < i && events[b] == Event(t, BeginAlloc(p, steal)) && Avail(p) in run[b].heads && run[b].heads[Avail(p)].None?
    && forall m | b < m < i && events[m].thread == t ::
         events[m].action.SwapOwn? || events[m].action.AskGlobal? || events[m].action.Steal?
  }

  /** A thread's place is its own. */
  lemma OthersStay(c: Config, s: State, e: Event, s': State, t: nat)
    requires Next(c, s, e, s') && t < c.threads && t != e.thread
    ensures s'.pc[t] == s.pc[t]
  {
  }

  /** How a thread comes to be looking for an object. */
  lemma Arrives(c: Config, s: State, e: Event, s': State)
    requires Next(c, s, e, s')
    ensures var pc, pc' := s.pc[e.thread], s'.pc[e.thread];
            match pc'
            case Refilling(p, steal) =>
              e.action == BeginAlloc(p, steal) && Avail(p) in s.heads && s.heads[Avail(p)].None?
            case Asking(p, steal) =>
              && e.action.SwapOwn? && pc == Refilling(p, steal) && p < |c.pools|
              && Looked(c, s, e, e.thread, p, Free(p))
            case Stealing(p, k) =>
              if k == 0 then e.action.AskGlobal? && pc == Asking(p, true) && Looked(c, s, e, e.thread, p, Global)
              else
                && e.action.Steal? && pc == Stealing(p, k - 1) && p < |c.pools| && k < |c.pools|
                && Looked(c, s, e, e.thread, p, Free(Neighbour(p, k - 1, |c.pools|)))
            case _ => true
  {
  }

  /** What a thread that is still looking has looked at. */
  ghost predicate Searched(c: Config, run: seq<State>, events: seq<Event>, b: nat, i: nat, t: nat)
    requires i <= |events| <= |run| && i < |run| && t < |run[i].pc|
  {
    match run[i].pc[t]
    case Refilling(p, steal) => Began(c, run, events, b, i, t, p, steal)
    case Asking(p, steal) =>
      Began(c, run, events, b, i, t, p, steal) && Found(c, run, events, b, i, t, p, Free(p)) && p < |c.pools|
    case Stealing(p, seen) =>
      && Began(c, run, events, b, i, t, p, true) && Found(c, run, events, b, i, t, p, Free(p))
      && Found(c, run, events, b, i, t, p, Global) && p < |c.pools|
      && (seen > 0 ==> seen < |c.pools|)
      && forall k | 0 <= k < seen :: Found(c, run, events, b, i, t, p, Free(Neighbour(p, k, |c.pools|)))
    case _ => false
  }

  /** A thread that looks for an object has found everything it looked at empty. */
  lemma {:induction false} SearchKeeps(c: Config, run: seq<State>, events: seq<Event>, i: nat, t: nat) returns (b: nat)
    requires IsRun(c, run, events) && i < |run| && t < c.threads && Shape(c, run[i])
    requires run[i].pc[t].Refilling? || run[i].pc[t].Asking? || run[i].pc[t].Stealing?
    ensures Searched(c, run, events, b, i, t)
    decreases i
  {
    hide Enabled, Step, Start, Looked, Found, Began;
    StartIdle(c, run[0], t);
    var s, e, s' := run[i - 1], events[i - 1], run[i];
    assert Next(c, s, e, s');
    if e.thread != t {
      OthersStay(c, s, e, s', t);
      b := SearchKeeps(c, run, events, i - 1, t);
      SearchStays(c, run, events, b, i - 1, t);
    } else {
      Arrives(c, s, e, s');
      if s'.pc[t].Refilling? {
        b := i - 1;
        BeganNow(c, run, events, b, t);
      } else {
        b := SearchKeeps(c, run, events, i - 1, t);
        SearchStays(c, run, events, b, i - 1, t);
        FoundNow(c, run, events, b, i - 1, t);
      }
    }
  }

  lemma BeganNow(c: Config, run: seq<State>, events: seq<Event>, b: nat, t: nat)
    requires b < |events| <= |run| && events[b].thread == t && events[b].action.BeginAlloc?
    requires Avail(events[b].action.pool) in run[b].heads && run[b].heads[Avail(events[b].action.pool)].None?
    ensures Began(c, run, events, b, b + 1, t, events[b].action.pool, events[b].action.steal)
  {
  }

  /** What was found stays found, and looking elsewhere is not beginning anew. */
  lemma SearchStays(c: Config, run: seq<State>, events: seq<Event>, b: nat, i: nat, t: nat)
    requires i < |events| < |run| && t < |run[i].pc| && Searched(c, run, events, b, i, t)
    requires var a := events[i].action; events[i].thread == t ==> a.SwapOwn? || a.AskGlobal? || a.Steal?
    ensures forall p, steal | Began(c, run, events, b, i, t, p, steal) :: Began(c, run, events, b, i + 1, t, p, steal)
    ensures forall p, r | Found(c, run, events, b, i, t, p, r) :: Found(c, run, events, b, i + 1, t, p, r)
    ensures b < i
  {
    hide Looked;
    forall p, r | Found(c, run, events, b, i, t, p, r) ensures Found(c, run, events, b, i + 1, t, p, r) {
      FoundLater(c, run, events, b, i, t, p, r);
    }
  }

  lemma FoundNow(c: Config, run: seq<State>, events: seq<Event>, b: nat, i: nat, t: nat)
    requires b < i < |events| <= |run|
    ensures forall p, r | Looked(c, run[i], events[i], t, p, r) :: Found(c, run, events, b, i + 1, t, p, r)
  {
  }

  lemma StartIdle(c: Config, s: State, t: nat)
    requires Start(c, s) && t < c.threads
    ensures |s.pc| == c.threads && s.pc[t].Idle?
  {
  }

  /** Every other pool is some neighbour. */
  lemma NeighbourOf(p: nat, q: nat, n: nat) returns (k: nat)
    requires p < n && q < n && p != q
    ensures k + 1 < n && Neighbour(p, k, n) == q
  {
    k := if q > p then q - p - 1 else n - 1 - p + q;
  }

  /** The step ends an allocation that found nothing. */
  ghost predicate EndsWithNull(s: State, e: Event, s': State) {
    && e.thread < |s.pc| && e.thread < |s'.pc| && s'.pc[e.thread].Idle?
    && (e.action.GiveUp? || (e.action.AskGlobal? && Given(s, e.thread, e.action) == None))
  }

  /** Whatever the other threads do meanwhile, an allocation that returns null found, since it began, its available
      queue, its free queue and the global list empty and, if it may steal, the free queue of every other pool. */
  lemma NullMeansLooked(c: Config, run: seq<State>, events: seq<Event>, i: nat) returns (b: nat, p: nat, steal: bool)
    requires IsRun(c, run, events) && i < |events| && EndsWithNull(run[i], events[i], run[i + 1])
    ensures Began(c, run, events, b, i, events[i].thread, p, steal)
    ensures Found(c, run, events, b, i + 1, events[i].thread, p, Free(p))
    ensures Found(c, run, events, b, i + 1, events[i].thread, p, Global)
    ensures steal ==> forall q: nat | q < |c.pools| && q != p ::
                        Found(c, run, events, b, i + 1, events[i].thread, p, Free(q))
  {
    hide Start, Began, Looked;
    var t := events[i].thread;
    assert Next(c, run[i], events[i], run[i + 1]);
    GivesUp(c, run[i], events[i], run[i + 1]);
    b := SearchKeeps(c, run, events, i, t);
    p := run[i].pc[t].pool;
    FoundLater(c, run, events, b, i, t, p, Free(p));
    if run[i].pc[t].Asking? {
      steal := false;
    } else {
      steal := true;
      FoundLater(c, run, events, b, i, t, p, Global);
      forall q: nat | q < |c.pools| && q != p ensures Found(c, run, events, b, i + 1, t, p, Free(q)) {
        var k := NeighbourOf(p, q, |c.pools|);
        FoundLater(c, run, events, b, i, t, p, Free(Neighbour(p, k, |c.pools|)));
      }
    }
  }

  lemma GivesUp(c: Config, s: State, e: Event, s': State)
    requires Next(c, s, e, s') && EndsWithNull(s, e, s')
    ensures match s.pc[e.thread]
            case Asking(p, steal) => !steal && Looked(c, s, e, e.thread, p, Global)
            case Stealing(_, seen) => seen + 1 >= |c.pools|
            case _ => false
  {
  }

  lemma FoundLater(c: Config, run: seq<State>, events: seq<Event>, b: nat, i: nat, t: nat, p: nat, r: Root)
    requires i < |events| <= |run| && Found(c, run, events, b, i, t, p, r)
    ensures Found(c, run, events, b, i + 1, t, p, r)
  {
  }

  // ----- an allocation answers ---------------------------------------------------------

  predicate Allocating(pc: Pc) {
    || pc.Refilling? || pc.Asking? || pc.Stealing? || pc.Parking? || pc.Keeping? || pc.Cutting? || pc.Taking?
    || ((pc.Returning? || pc.Splicing?) && pc.after == ToTake)
  }

  /** The most steps of its own a thread has to take before its allocation answers. */
  function StepsLeft(c: Config, pc: Pc): nat {
    match pc
    case Refilling(_, _) => |c.pools| + 8
    case Asking(_, _) => |c.pools| + 7
    case Stealing(_, seen) => if seen < |c.pools| then |c.pools| - seen + 6 else 6
    case Parking(_) => 6
    case Keeping(_) => 5
    case Cutting(_, _) => 4
    case Returning(_, _) => 3
    case Splicing(_, _, _) => 2
    case Taking(_) => 1
    case _ => 0
  }

  /** An allocation takes at most pools + 9 steps of its own thread, whatever the others do, and it ends by handing out
      an object or with a null. */
  lemma AllocAnswers(c: Config, s: State, e: Event, s': State)
    requires Next(c, s, e, s') && (Allocating(s.pc[e.thread]) || e.action.BeginAlloc?)
    ensures var pc, pc' := s.pc[e.thread], s'.pc[e.thread];
            && (Allocating(pc) ==> StepsLeft(c, pc') < StepsLeft(c, pc)) && StepsLeft(c, pc') <= |c.pools| + 8
            && if Allocating(pc') then Given(s, e.thread, e.action) == None
               else pc'.Idle? && (Given(s, e.thread, e.action).Some? || EndsWithNull(s, e, s'))
  {
  }
}
