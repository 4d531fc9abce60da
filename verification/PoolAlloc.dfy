/** base/thread_local_global_pool.h run by one thread at a time: the pointer code itself, with its loops. */
module PoolAlloc {
  import opened Common
  import opened PoolLists
  import Pool

  /** The order in which pool p of n looks at its neighbours: rightwards from itself, then from the left. */
  ghost function Rotation(p: nat, n: nat): seq<nat>
    requires p < n
  {
    seq(n - 1 - p, i requires 0 <= i => p + 1 + i) + seq(p, i requires 0 <= i => i)
  }

  /** Every other pool exactly once. */
  lemma RotationVisitsAll(p: nat, n: nat)
    requires p < n
    ensures |Rotation(p, n)| == n - 1 && NoDup(Rotation(p, n))
    ensures forall q: nat :: q in Rotation(p, n) <==> q < n && q != p
    ensures forall k | 0 <= k < n - 1 :: Rotation(p, n)[k] == (p + 1 + k) % n
  {
    hide Rotation;
    RotationSet(p, n);
    forall k | 0 <= k < n - 1 ensures Rotation(p, n)[k] == (p + 1 + k) % n {
      RotationAt(p, n, k);
      WrapOnce(p + 1 + k, n);
    }
  }

  lemma WrapOnce(x: nat, n: nat)
    requires 0 < n && x < 2 * n
    ensures x % n == if x < n then x else x - n
  {
  }

  lemma RotationAt(p: nat, n: nat, k: nat)
    requires p < n && k < n - 1
    ensures |Rotation(p, n)| == n - 1
    ensures Rotation(p, n)[k] == if p + 1 + k < n then p + 1 + k else p + 1 + k - n
  {
  }

  lemma RotationSet(p: nat, n: nat)
    requires p < n
    ensures |Rotation(p, n)| == n - 1 && NoDup(Rotation(p, n))
    ensures forall q: nat :: q in Rotation(p, n) <==> q < n && q != p
  {
    var r := Rotation(p, n);
    forall q: nat | q < n && q != p ensures q in r {
      assert r[if q > p then q - p - 1 else n - 1 - p + q] == q;
    }
  }

  /** Object o went from a list to the client; nobody else's holding changed. */
  ghost predicate HandedOut(v: View, v': View, o: Obj) {
    && v'.where.Keys == v.where.Keys
    && o in v.where && v.where[o].At? && v'.where[o].Out?
    && forall x | x in v.where && x != o :: if v.where[x].At? then v'.where[x].At? else v'.where[x] == v.where[x]
  }

  lemma HeldThenOut(t: View, u: View, v: View, w: View, o: Obj)
    requires Pool.SameHeld(t, u) && Pool.SameHeld(u, v) && HandedOut(v, w, o)
    ensures HandedOut(t, w, o)
  {
  }

  /** What exchanging pool q's free queue does to the view, in a collection of n pools capped at m. */
  ghost predicate Took(v: View, w: View, q: nat, n: nat, m: nat, curTail: Ptr) {
    && Free(q) in v.lists && (curTail.None? <==> v.lists[Free(q)] == []) && (curTail.None? ==> w == v)
    && (curTail.Some? ==> HAND in w.lists && w.lists[HAND] == v.lists[Free(q)])
    && Pool.SameHeld(v, w) && (Capped(v.lists, n, m, n) ==> Capped(w.lists, n, m, n))
  }

  lemma MovedFree(v: View, q: nat, n: nat, m: nat, curTail: Ptr)
    requires Placed(v) && Free(q) in v.lists && HAND in v.lists && (curTail.None? <==> v.lists[Free(q)] == [])
    ensures Took(v, if curTail.None? then v else Moved(v, Free(q), HAND), q, n, m, curTail)
  {
  }

  lemma TakeFree(next: Links, heads: map<Root, Ptr>, v: View, q: nat, n: nat, m: nat)
    requires Rep(next, heads[HAND := None], v) && Free(q) in heads && HAND !in heads
    ensures heads[Free(q) := None].Keys == heads.Keys && Free(q) in v.lists
    ensures heads[Free(q)] == None ==> heads[Free(q) := None] == heads
    ensures var w := if heads[Free(q)].None? then v else Moved(v, Free(q), HAND);
            && Rep(next, heads[Free(q) := None][HAND := heads[Free(q)]], w)
            && Took(v, w, q, n, m, heads[Free(q)])
  {
    var all := heads[HAND := None];
    assert all[Free(q) := None][HAND := heads[Free(q)]] == heads[Free(q) := None][HAND := heads[Free(q)]];
    assert Chain(next, all[Free(q)], v.lists[Free(q)]) && HAND in v.lists && Chain(next, all[HAND], v.lists[HAND]);
    MovedFree(v, q, n, m, heads[Free(q)]);
    MoveList(next, all, v, Free(q), HAND);
    if heads[Free(q)].None? {
      assert heads[Free(q) := None] == heads;
    }
    hide Rep, Took;
  }

  /** The view of a manager just built. */
  ghost function FreshView(next: Links, heads: map<Root, Ptr>, arena: seq<Obj>): View {
    View(map r | r in heads :: if r == Global then arena else [], map o | o in next :: At(Global))
  }

  lemma FreshRep(next: Links, heads: map<Root, Ptr>, arena: seq<Obj>)
    requires next.Keys == Elems(arena) && NoDup(arena) && Global in heads && Chain(next, heads[Global], arena)
    requires forall r | r in heads && r != Global :: heads[r] == None
    ensures var v := FreshView(next, heads, arena);
            && Rep(next, heads, v) && v.where.Keys == Elems(arena) && v.lists.Keys == heads.Keys
            && v.lists[Global] == arena
            && (forall o | o in v.where :: v.where[o] == At(Global))
            && (forall r | r in v.lists && r != Global :: v.lists[r] == [])
  {
  }

  lemma PopOut(next: Links, heads: map<Root, Ptr>, v: View, r: Root)
    requires Rep(next, heads, v) && r in heads && heads[r].Some?
    ensures r in v.lists && v.lists[r] != [] && heads[r].value in next
    ensures Rep(next, heads[r := next[heads[r].value]], Popped(v, r)) && HandedOut(v, Popped(v, r), heads[r].value)
    ensures heads[r].value == v.lists[r][0]
    ensures forall n, m, p | Capped(v.lists, n, m, p) :: Capped(Popped(v, r).lists, n, m, p)
  {
    PopHead(next, heads, v, r);
    assert v.lists[r][0] in v.lists[r];
  }

  /** No available queue of n pools, but perhaps p's, has m objects or more. */
  ghost predicate Capped(lists: map<Root, seq<Obj>>, n: nat, m: nat, p: nat) {
    forall q: nat | q < n && q != p :: Avail(q) in lists && |lists[Avail(q)]| < m
  }

  /** The roots of n pools. */
  ghost predicate RootSet(roots: set<Root>, n: nat) {
    && (forall p: nat | p < n :: Free(p) in roots && Avail(p) in roots)
    && (forall r | r in roots :: r.Global? || ((r.Free? || r.Avail?) && r.pool < n))
  }

  /** The free queues of these pools are empty. */
  ghost predicate AllEmpty(lists: map<Root, seq<Obj>>, visited: seq<nat>) {
    forall k | 0 <= k < |visited| :: Free(visited[k]) in lists && lists[Free(visited[k])] == []
  }

  /** The lists after a stack of which n objects are kept has been parked with pool p. */
  ghost function Parked(v: View, p: nat, n: nat): map<Root, seq<Obj>>
    requires HAND in v.lists && Global in v.lists && n <= |v.lists[HAND]|
  {
    var l := v.lists[HAND];
    v.lists[HAND := []][Avail(p) := l[..n]][Global := l[n..] + v.lists[Global]]
  }

  ghost function Trimmed(v: View, p: nat, n: nat): View
    requires n > 0 && Global in v.lists && Avail(p) in v.lists
  {
    if |v.lists[Avail(p)]| <= n then v else Spliced(CutOff(v, Avail(p), HAND, n - 1), HAND, Global)
  }

  lemma ParkAndTrim(v: View, p: nat, m: nat)
    requires Placed(v) && HAND in v.lists && Global in v.lists && Avail(p) in v.lists && m > 0
    ensures var n := if m < |v.lists[HAND]| then m else |v.lists[HAND]|;
            var w := Trimmed(Moved(v, HAND, Avail(p)), p, m);
            w.lists == Parked(v, p, n) && Pool.SameHeld(v, w)
    ensures forall pools | Capped(v.lists, pools, m, p) ::
              Capped(Trimmed(Moved(v, HAND, Avail(p)), p, m).lists, pools, m, p)
  {
    var l := v.lists[HAND];
    if |l| <= m {
      assert l[..|l|] == l && l[|l|..] + v.lists[Global] == v.lists[Global];
    } else {
      assert forall o | o in l[m..] :: o in l;
    }
  }

  /** The objects on some list. */
  ghost function FreeObjects(v: View): set<Obj> {
    set o | o in v.where && v.where[o].At?
  }

  ghost function ParkedBelow(v: View, k: nat): set<Obj> {
    set o | o in v.where && v.where[o].At? && v.where[o].root.Avail? && v.where[o].root.pool < k
  }

  lemma ParkedSplit(v: View, q: nat)
    requires Placed(v) && Avail(q) in v.lists
    ensures |ParkedBelow(v, q + 1)| <= |ParkedBelow(v, q)| + |v.lists[Avail(q)]|
  {
    ElemsSize(v.lists[Avail(q)]);
    var here := Elems(v.lists[Avail(q)]);
    forall o | o in ParkedBelow(v, q + 1) ensures o in ParkedBelow(v, q) + here {
    }
    hide Placed, NoDup;
    SubsetSize(ParkedBelow(v, q + 1), ParkedBelow(v, q) + here);
  }

  lemma BoundStep(k: nat, m: nat, p: nat, below: nat, here: nat)
    requires k > 0 && m > 0 && below <= (if p < k - 1 then k - 2 else k - 1) * (m - 1)
    requires here <= if p == k - 1 then 0 else m - 1
    ensures below + here <= (if p < k then k - 1 else k) * (m - 1)
  {
    if p < k - 1 {
      assert (k - 1) * (m - 1) == (k - 2) * (m - 1) + (m - 1);
    } else if p > k - 1 {
      assert k * (m - 1) == (k - 1) * (m - 1) + (m - 1);
    }
  }

  lemma {:induction false} ParkedBound(v: View, n: nat, m: nat, p: nat, k: nat)
    requires Placed(v) && Capped(v.lists, n, m, n) && m > 0 && p < n && k <= n && v.lists[Avail(p)] == []
    ensures |ParkedBelow(v, k)| <= (if p < k then k - 1 else k) * (m - 1)
    decreases k
  {
    if k == 0 {
      assert ParkedBelow(v, 0) == {};
    } else {
      ParkedBound(v, n, m, p, k - 1);
      ParkedSplit(v, k - 1);
      BoundStep(k, m, p, |ParkedBelow(v, k - 1)|, |v.lists[Avail(k - 1)]|);
      hide *;
    }
  }

  /** With every free queue, the global list and p's available queue empty, at most (n - 1) * (m - 1) objects are
      free: those parked with the other pools. */
  lemma StrandedBound(v: View, n: nat, m: nat, p: nat)
    requires Placed(v) && Capped(v.lists, n, m, n) && m > 0 && p < n
    requires forall r | r in v.lists && v.lists[r] != [] :: r.Avail? && r.pool < n && r.pool != p
    ensures |FreeObjects(v)| <= (n - 1) * (m - 1)
  {
    ParkedBound(v, n, m, p, n);
    assert FreeObjects(v) == ParkedBelow(v, n);
  }

  /** At most (n - 1) * (m - 1) objects are free. */
  ghost predicate FewFree(v: View, n: nat, m: nat) {
    |FreeObjects(v)| <= (n - 1) * (m - 1)
  }

  /** Nothing is free but 15 objects in each of the n - 1 other pools, or a 256th of all objects in each. */
  ghost predicate FewOf(v: View, n: nat, objects: nat) {
    |FreeObjects(v)| <= (n - 1) * 15 || 256 * |FreeObjects(v)| <= (n - 1) * objects
  }

  lemma FewIsShare(v: View, n: nat, objects: nat)
    requires n > 0 && FewFree(v, n, Pool.ChooseMaxParked(objects))
    ensures FewOf(v, n, objects)
  {
    hide FreeObjects, Pool.ChooseMaxParked;
    Pool.ParkedShare(objects);
    ShareTimes(n - 1, Pool.ChooseMaxParked(objects), objects, |FreeObjects(v)|);
  }

  lemma ShareTimes(others: nat, m: nat, objects: nat, free: nat)
    requires m > 0 && free <= others * (m - 1)
    ensures m == 16 ==> free <= others * 15
    ensures 256 * m <= objects ==> 256 * free <= others * objects
  {
    if 256 * m <= objects {
      assert others * (256 * (m - 1)) <= others * objects;
    }
  }

  /** Where an allocation by pool p of n looks, and what it finds: the head of its available queue, else of its
      free queue, else of the global list, else of the first non-empty free queue among the neighbours in rotation
      order; null only if there is none. visited lists the neighbours' queues exchanged. */
  ghost predicate AllocSpec(lists: map<Root, seq<Obj>>, p: nat, n: nat, steal: bool, r: Ptr, visited: seq<nat>) {
    && p < n && Avail(p) in lists && Free(p) in lists && Global in lists
    && if lists[Avail(p)] != [] then r == Some(lists[Avail(p)][0]) && visited == []
       else if lists[Free(p)] != [] then r == Some(lists[Free(p)][0]) && visited == []
       else if lists[Global] != [] then r == Some(lists[Global][0]) && visited == []
       else if !steal then r == None && visited == []
       else StealSpec(lists, p, n, r, visited)
  }

  ghost predicate StealSpec(lists: map<Root, seq<Obj>>, p: nat, n: nat, r: Ptr, visited: seq<nat>)
    requires p < n
  {
    && visited <= Rotation(p, n)
    && if r.None? then visited == Rotation(p, n) && AllEmpty(lists, visited)
       else
         && visited != [] && AllEmpty(lists, visited[..|visited| - 1])
         && var q := Free(visited[|visited| - 1]); q in lists && lists[q] != [] && r.value == lists[q][0]
  }

  /** The stack in the caller's hands; null outside the allocation. */
  const HAND: Root := Flight(0)

  lemma ArenaStep(next: Links, first: Ptr, i: nat)
    requires next.Keys == Elems(Pool.Arena(i)) && Chain(next, first, Pool.Arena(i))
    ensures var more := next[Obj(i) := first];
            more.Keys == Elems(Pool.Arena(i + 1)) && Chain(more, Some(Obj(i)), Pool.Arena(i + 1))
  {
    assert Pool.Arena(i + 1) == [Obj(i)] + Pool.Arena(i);
    hide Pool.Arena;
    assert Obj(i) !in Pool.Arena(i);
    ChainPush(next, first, Pool.Arena(i), Obj(i));
    assert Elems([Obj(i)] + Pool.Arena(i)) == Elems(Pool.Arena(i)) + {Obj(i)};
  }

  /** The constructor's loop: each object linked to the one before it. */
  method BuildArena(objects: nat) returns (next: Links, first: Ptr)
    ensures next.Keys == Elems(Pool.Arena(objects)) && Chain(next, first, Pool.Arena(objects))
  {
    next, first := map[], None;
    assert Pool.Arena(0) == [];
    hide Pool.Arena;
    for i := 0 to objects
      invariant next.Keys == Elems(Pool.Arena(i)) && Chain(next, first, Pool.Arena(i))
    {
      ArenaStep(next, first, i);
      next := next[Obj(i) := first];
      first := Some(Obj(i));
    }
  }

  method OpenPools(pools: nat, first: Ptr) returns (heads: map<Root, Ptr>)
    ensures Global in heads && heads[Global] == first && HAND !in heads
    ensures forall r | r in heads && r != Global :: heads[r] == None
    ensures forall q: nat | q < pools :: Free(q) in heads && Avail(q) in heads
    ensures forall r | r in heads :: r.Global? || ((r.Free? || r.Avail?) && r.pool < pools)
  {
    heads := map[Global := first];
    for p := 0 to pools
      invariant Global in heads && heads[Global] == first && HAND !in heads
      invariant forall r | r in heads && r != Global :: heads[r] == None
      invariant forall q: nat | q < p :: Free(q) in heads && Avail(q) in heads
      invariant forall r | r in heads :: r.Global? || ((r.Free? || r.Avail?) && r.pool < p)
    {
      heads := heads[Free(p) := None][Avail(p) := None];
    }
  }

  class Manager {
    const pools: nat
    const objects: nat
    const maxParked: nat
    /** NextObj of every object. */
    var next: Links
    /** FreeQueue and AvailableQueue of every pool, and the global FreeQueue. */
    var heads: map<Root, Ptr>
    ghost var view: View

    ghost predicate Rooted()
      reads this`heads
    {
      && maxParked == Pool.ChooseMaxParked(objects) > 0
      && HAND !in heads && Global in heads && RootSet(heads.Keys, pools)
    }

    /** The pointers agree with the view while the caller holds stack. */
    ghost predicate Sound(stack: Ptr)
      reads this`next, this`heads, this`view
    {
      Rooted() && Rep(next, heads[HAND := stack], view)
    }

    /** No available queue but perhaps p's holds more than MaxParked - 1. */
    ghost predicate CappedBut(p: nat)
      reads this`heads, this`view
    {
      Rooted() && Capped(view.lists, pools, maxParked, p)
    }

    /** Between operations. */
    ghost predicate Valid()
      reads this`next, this`heads, this`view
    {
      && Sound(None) && CappedBut(pools)
    }

    constructor (objects: nat, pools: nat)
      ensures Valid() && this.pools == pools && this.objects == objects
      ensures maxParked >= 16 && objects < 256 * (maxParked + 1) && (256 * maxParked <= objects || maxParked == 16)
      ensures view.where.Keys == Elems(Pool.Arena(objects)) && forall o | o in view.where :: view.where[o] == At(Global)
      ensures view.lists[Global] == Pool.Arena(objects)
    {
      hide Pool.Arena, Chain, Rep, FreshView, Elems, NoDup;
      Pool.ParkedShare(objects);
      this.pools, this.objects := pools, objects;
      maxParked := Pool.ChooseMaxParked(objects);
      var links, first := BuildArena(objects);
      var roots := OpenPools(pools, first);
      next := links;
      heads := roots;
      Pool.ArenaSize(objects);
      FreshRep(links, roots[HAND := None], Pool.Arena(objects));
      view := FreshView(links, roots[HAND := None], Pool.Arena(objects));
    }

    /** Free. */
    method FreeTo(p: nat, o: Obj)
      requires Valid() && p < pools && o in view.where && view.where[o].Out?
      modifies this
      ensures Valid() && view == Pushed(old(view), Free(p), o)
    {
      var head := heads[Free(p)];
      WriteLoose(next, heads[HAND := None], view, o, head);
      next := next[o := head];
      PushLinked(next, heads[HAND := None], view, Free(p), o);
      assert heads[HAND := None][Free(p) := Some(o)] == heads[Free(p) := Some(o)][HAND := None];
      hide Rep;
      assert heads[Free(p) := Some(o)].Keys == heads.Keys;
      hide RootSet;
      view := Pushed(view, Free(p), o);
      heads := heads[Free(p) := Some(o)];
    }

    /** The manager's Return: walk to the end of the stack, then put it in front of the global list. */
    method Return(stack: Obj)
      requires Sound(Some(stack))
      modifies this
      ensures Sound(None) && heads.Keys == old(heads.Keys)
      ensures HAND in old(view).lists && Global in old(view).lists && view == Spliced(old(view), HAND, Global)
    {
      ghost var l := view.lists[HAND];
      assert Chain(next, Some(stack), l);
      var tail := FindTail(stack, l);
      SpliceList(next, heads[HAND := Some(stack)], view, HAND, Global, tail);
      assert heads[HAND := Some(stack)][HAND := None][Global := Some(stack)]
          == heads[Global := Some(stack)][HAND := None];
      assert heads[Global := Some(stack)].Keys == heads.Keys;
      hide Rep, Chain, RootSet;
      view := Spliced(view, HAND, Global);
      next := next[tail := heads[Global]];
      heads := heads[Global := Some(stack)];
    }

    /** The loop of Return. */
    method FindTail(stack: Obj, ghost l: seq<Obj>) returns (tail: Obj)
      requires Chain(next, Some(stack), l)
      ensures l != [] && tail == l[|l| - 1]
    {
      tail := stack;
      ghost var k := 0;
      while next[tail].Some?
        invariant k < |l| && tail == l[k] && tail in next
        decreases |l| - k
      {
        ChainDrop(next, Some(stack), l, k);
        tail := next[tail].value;
        k := k + 1;
      }
      ChainDrop(next, Some(stack), l, k);
    }

    lemma GlobalHead()
      requires Sound(None)
      ensures Global in view.lists && (heads[Global].Some? <==> view.lists[Global] != [])
    {
    }

    /** The manager's TryAlloc. */
    method TryAllocGlobal() returns (r: Ptr)
      requires Valid()
      modifies this
      ensures Valid() && Global in old(view).lists
      ensures r.Some? <==> old(view).lists[Global] != []
      ensures r.Some? ==> view == Popped(old(view), Global) && HandedOut(old(view), view, r.value)
                          && r.value == old(view).lists[Global][0]
      ensures r.None? ==> unchanged(this)
    {
      hide Rep, Popped, Capped, HandedOut;
      GlobalHead();
      r := heads[Global];
      if r.Some? {
        PopOut(next, heads[HAND := None], view, Global);
        assert heads[HAND := None][Global := next[r.value]] == heads[Global := next[r.value]][HAND := None];
        view := Popped(view, Global);
        assert heads[Global := next[r.value]].Keys == heads.Keys;
        heads := heads[Global := next[r.value]];
      }
    }

    /** The walk of MakeStackAvailable. */
    method WalkKept(first: Obj, ghost l: seq<Obj>) returns (lastKept: Obj)
      requires maxParked > 0 && Chain(next, Some(first), l)
      ensures l != [] && lastKept in next && lastKept == l[if maxParked < |l| then maxParked - 1 else |l| - 1]
      ensures next[lastKept].Some? <==> maxParked < |l|
    {
      lastKept := first;
      var kept := 1;
      while kept < maxParked && next[lastKept].Some?
        invariant 1 <= kept <= maxParked && kept <= |l| && lastKept == l[kept - 1] && lastKept in next
        decreases maxParked - kept
      {
        ChainDrop(next, Some(first), l, kept - 1);
        lastKept := next[lastKept].value;
        kept := kept + 1;
      }
      ChainDrop(next, Some(first), l, kept - 1);
    }

    /** The stack becomes pool p's available queue. */
    method ParkStack(p: nat, curTail: Obj)
      requires Sound(Some(curTail)) && p < pools && heads[Avail(p)] == None
      modifies this`heads, this`view
      ensures Sound(None) && heads.Keys == old(heads.Keys) && heads[Avail(p)] == Some(curTail)
      ensures HAND in old(view).lists && view == Moved(old(view), HAND, Avail(p))
    {
      MoveList(next, heads[HAND := Some(curTail)], view, HAND, Avail(p));
      assert heads[HAND := Some(curTail)][HAND := None][Avail(p) := Some(curTail)]
          == heads[Avail(p) := Some(curTail)][HAND := None];
      assert heads[Avail(p) := Some(curTail)].Keys == heads.Keys;
      hide Rep, Moved, RootSet;
      view := Moved(view, HAND, Avail(p));
      heads := heads[Avail(p) := Some(curTail)];
    }

    /** What hangs off the last object kept leaves the available queue. */
    method CutExcess(p: nat, lastKept: Obj) returns (excess: Obj)
      requires Sound(None) && p < pools && Avail(p) in view.lists && maxParked < |view.lists[Avail(p)]|
      requires lastKept == view.lists[Avail(p)][maxParked - 1] && lastKept in next && next[lastKept].Some?
      modifies this`next, this`view
      ensures Sound(Some(excess)) && view == CutOff(old(view), Avail(p), HAND, maxParked - 1)
    {
      hide Rep;
      FreeHead(p);
      excess := next[lastKept].value;
      CutList(next, heads[HAND := None], view, Avail(p), HAND, maxParked - 1);
      assert heads[HAND := None][HAND := Some(excess)] == heads[HAND := Some(excess)];
      view := CutOff(view, Avail(p), HAND, maxParked - 1);
      next := next[lastKept := None];
    }

    /** The available queue just set keeps MaxParked objects; the rest goes to the global list. */
    method TrimAvailable(p: nat, first: Obj)
      requires Sound(None) && p < pools && heads[Avail(p)] == Some(first)
      modifies this
      ensures Sound(None) && heads.Keys == old(heads.Keys) && Global in old(view).lists && Avail(p) in old(view).lists
      ensures view == Trimmed(old(view), p, maxParked)
    {
      ghost var l := view.lists[Avail(p)];
      assert Chain(next, Some(first), l);
      var lastKept := WalkKept(first, l);
      if next[lastKept].Some? {
        hide Rep, Chain, CutOff, Spliced;
        var excess := CutExcess(p, lastKept);
        Return(excess);
      }
    }

    /** Pool p parks the first MaxParked objects of the stack and hands the rest to the global list. */
    method MakeStackAvailable(p: nat, curTail: Obj)
      requires Sound(Some(curTail)) && CappedBut(p) && p < pools && heads[Avail(p)] == None
      modifies this
      ensures Sound(None) && CappedBut(p) && HAND in old(view).lists && old(view).lists[HAND] != []
      ensures var l := old(view).lists[HAND];
              var n := if maxParked < |l| then maxParked else |l|;
              view.lists == Parked(old(view), p, n) && Pool.SameHeld(old(view), view)
              && Avail(p) in view.lists && view.lists[Avail(p)] == l[..n] && 0 < n <= maxParked
    {
      ParkAndTrim(view, p, maxParked);
      assert HAND in view.lists && view.lists[HAND] != [] && Global in view.lists;
      ghost var l := view.lists[HAND];
      ghost var n := if maxParked < |l| then maxParked else |l|;
      assert Avail(p) in Parked(view, p, n) && Parked(view, p, n)[Avail(p)] == l[..n];
      hide Rep, Trimmed, Moved, Pool.SameHeld, Parked, Capped;
      ParkStack(p, curTail);
      TrimAvailable(p, curTail);
    }

    /** Pop pool p's available queue. */
    method PopAvailable(p: nat) returns (o: Obj)
      requires Sound(None) && p < pools && heads[Avail(p)].Some?
      modifies this`heads, this`view
      ensures Sound(None) && Avail(p) in old(view).lists && old(view).lists[Avail(p)] != []
      ensures view == Popped(old(view), Avail(p)) && HandedOut(old(view), view, o)
      ensures o == old(view).lists[Avail(p)][0]
      ensures old(CappedBut(p)) && |old(view).lists[Avail(p)]| <= maxParked ==> CappedBut(pools)
    {
      o := heads[Avail(p)].value;
      PopOut(next, heads[HAND := None], view, Avail(p));
      assert heads[HAND := None][Avail(p) := next[o]] == heads[Avail(p) := next[o]][HAND := None];
      hide Rep;
      view := Popped(view, Avail(p));
      heads := heads[Avail(p) := next[o]];
    }

    lemma FreeHead(q: nat)
      requires Sound(None) && q < pools
      ensures Free(q) in heads && Free(q) in view.lists && HAND in view.lists
      ensures heads[Free(q)].None? <==> view.lists[Free(q)] == []
    {
    }

    /** Exchange pool q's free queue for null; what it held is in the caller's hands. */
    method TakeFreeQueue(q: nat) returns (curTail: Ptr)
      requires Sound(None) && q < pools
      modifies this`heads, this`view
      ensures Sound(curTail) && heads == old(heads)[Free(q) := None]
      ensures Took(old(view), view, q, pools, maxParked, curTail)
      ensures old(heads[Free(q)]) == None ==> heads == old(heads)
    {
      curTail := heads[Free(q)];
      TakeFree(next, heads, view, q, pools, maxParked);
      hide Rep, Moved, Took, RootSet;
      if curTail.Some? {
        view := Moved(view, Free(q), HAND);
      }
      heads := heads[Free(q) := None];
    }

    /** Refill pool p from pool q's free queue and take one object; null if that queue is empty. */
    method RefillFrom(p: nat, q: nat) returns (r: Ptr)
      requires Valid() && p < pools && q < pools && heads[Avail(p)] == None
      modifies this
      ensures Valid() && Free(q) in old(view).lists
      ensures r.Some? <==> old(view).lists[Free(q)] != []
      ensures r.Some? ==> HandedOut(old(view), view, r.value) && r.value == old(view).lists[Free(q)][0]
      ensures r.None? ==> view == old(view) && next == old(next) && heads == old(heads)
    {
      hide Rep, Moved, Popped, Parked, HandedOut, Pool.SameHeld;
      FreeHead(q);
      ghost var v0 := view;
      var curTail := TakeFreeQueue(q);
      if curTail.None? {
        return None;
      }
      ghost var v1 := view;
      MakeStackAvailable(p, curTail.value);
      ghost var v2 := view;
      NonEmptyHead(p);
      var o := PopAvailable(p);
      HeldThenOut(v0, v1, v2, view, o);
      r := Some(o);
    }

    lemma RootsListed(p: nat)
      requires Valid() && p < pools
      ensures Avail(p) in view.lists && Free(p) in view.lists && Global in view.lists
      ensures |view.lists[Avail(p)]| < maxParked
    {
    }

    lemma NonEmptyHead(p: nat)
      requires Sound(None) && p < pools && Avail(p) in view.lists
      ensures heads[Avail(p)].Some? <==> view.lists[Avail(p)] != []
    {
    }

    /** Nothing changed. */
    twostate predicate Same()
      reads this
    {
      view == old(view) && next == old(next) && heads == old(heads)
    }

    /** The walk over the other pools in search of a free queue to steal: two passes over the collection, the
        first skipping up to p, the second stopping at p. visited lists the queues exchanged. */
    method StealFromNeighbours(p: nat) returns (r: Ptr, ghost visited: seq<nat>)
      requires Valid() && p < pools && heads[Avail(p)] == None
      modifies this
      ensures Valid() && StealSpec(old(view).lists, p, pools, r, visited)
      ensures r.Some? ==> HandedOut(old(view), view, r.value)
      ensures r.None? ==> Same()
    {
      hide Rep, HandedOut, Capped, RootSet;
      ghost var right := seq(pools - 1 - p, i requires 0 <= i => p + 1 + i);
      ghost var left := seq(p, i requires 0 <= i => i);
      visited := [];
      var reached := false;
      var i := 0;
      while i < pools
        invariant 0 <= i <= pools && reached == (p < i) && Valid() && Same()
        invariant visited == right[..if p < i then i - p - 1 else 0]
        invariant AllEmpty(old(view).lists, visited)
      {
        if reached || i == p {
          reached := true;
          if i != p {
            visited := visited + [i];
            assert visited[|visited| - 1] == i && visited == right[..i - p];
            r := RefillFrom(p, i);
            if r.Some? {
              return;
            }
          }
        }
        i := i + 1;
      }
      i := 0;
      while i != p
        invariant 0 <= i <= p && Valid() && Same()
        invariant visited == right + left[..i]
        invariant AllEmpty(old(view).lists, visited)
      {
        visited := visited + [i];
        assert visited[|visited| - 1] == i && visited == right + left[..i + 1];
        r := RefillFrom(p, i);
        if r.Some? {
          return;
        }
        i := i + 1;
      }
      r := None;
    }

    /** TryAllocUncommon: the own free queue, then the global list, then the neighbours'. */
    method TryAllocUncommon(p: nat, steal: bool) returns (r: Ptr, ghost visited: seq<nat>)
      requires Valid() && p < pools && heads[Avail(p)] == None
      modifies this
      ensures Valid() && AllocSpec(old(view).lists, p, pools, steal, r, visited)
      ensures r.Some? ==> HandedOut(old(view), view, r.value)
      ensures r.None? ==> Same()
    {
      RootsListed(p);
      NonEmptyHead(p);
      hide Rep, HandedOut, StealSpec, Popped, Capped;
      visited := [];
      r := RefillFrom(p, p);
      if r.None? {
        r := TryAllocGlobal();
        if r.None? && steal {
          r, visited := StealFromNeighbours(p);
        }
      }
    }

    /** TryAlloc. When an allocation with stealing finds nothing, at most (pools - 1) * (MaxParked - 1) objects are
        free. */
    method TryAlloc(p: nat, steal: bool) returns (r: Ptr, ghost visited: seq<nat>)
      requires Valid() && p < pools
      modifies this
      ensures Valid() && AllocSpec(old(view).lists, p, pools, steal, r, visited)
      ensures r.Some? ==> HandedOut(old(view), view, r.value)
      ensures r.None? ==> Same()
      ensures r.None? && steal ==> FewOf(view, pools, objects)
    {
      RootsListed(p);
      NonEmptyHead(p);
      visited := [];
      if heads[Avail(p)].Some? {
        hide Rep, HandedOut, Popped;
        var o := PopAvailable(p);
        r := Some(o);
      } else {
        hide Rep, HandedOut, Rotation, AllEmpty, FewFree, FewOf, Capped;
        r, visited := TryAllocUncommon(p, steal);
        if r.None? && steal {
          Stranded(p);
          FewIsShare(view, pools, objects);
        }
      }
    }

    lemma Stranded(p: nat)
      requires Valid() && p < pools && Avail(p) in view.lists && Free(p) in view.lists && Global in view.lists
      requires view.lists[Avail(p)] == [] && view.lists[Free(p)] == [] && view.lists[Global] == []
      requires AllEmpty(view.lists, Rotation(p, pools))
      ensures FewFree(view, pools, maxParked)
    {
      RotationVisitsAll(p, pools);
      forall q: nat | q < pools ensures view.lists[Free(q)] == [] {
        assert q == p || q in Rotation(p, pools);
      }
      StrandedBound(view, pools, maxParked, p);
    }
  }
}
