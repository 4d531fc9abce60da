/** The linked lists of base/thread_local_global_pool.h: free objects chained through NextObj. */
module PoolLists {
  import opened Common

  datatype Obj = Obj(id: nat)
  type Ptr = Option<Obj>
  /** NextObj of every object. */
  type Links = map<Obj, Ptr>

  /** The list that starts at head is l. */
  ghost predicate Chain(next: Links, head: Ptr, l: seq<Obj>)
    decreases l
  {
    if l == [] then head == None
    else head == Some(l[0]) && l[0] in next && Chain(next, next[l[0]], l[1..])
  }

  lemma {:induction false} ChainUnique(next: Links, head: Ptr, l: seq<Obj>, m: seq<Obj>)
    requires Chain(next, head, l) && Chain(next, head, m)
    ensures l == m
    decreases l
  {
    if l != [] && m != [] {
      ChainUnique(next, next[l[0]], l[1..], m[1..]);
    }
  }

  /** A write to an object outside the list leaves the list alone. */
  lemma {:induction false} ChainFrame(next: Links, head: Ptr, l: seq<Obj>, o: Obj, to: Ptr)
    requires Chain(next, head, l) && o !in l
    ensures Chain(next[o := to], head, l)
    decreases l
  {
    if l != [] {
      ChainFrame(next, next[l[0]], l[1..], o, to);
    }
  }

  lemma ChainPush(next: Links, head: Ptr, l: seq<Obj>, o: Obj)
    requires Chain(next, head, l) && o !in l
    ensures Chain(next[o := head], Some(o), [o] + l)
  {
    ChainFrame(next, head, l, o, head);
    assert ([o] + l)[1..] == l;
  }

  /** Pointing the last object of one list at another list joins the two. */
  lemma {:induction false} ChainSplice(next: Links, head: Ptr, l: seq<Obj>, rest: Ptr, m: seq<Obj>)
    requires Chain(next, head, l) && Chain(next, rest, m)
    requires l != [] && NoDup(l) && l[|l| - 1] !in m
    ensures Chain(next[l[|l| - 1] := rest], head, l + m)
    decreases l
  {
    var last := l[|l| - 1];
    if |l| == 1 {
      ChainFrame(next, rest, m, last, rest);
      assert (l + m)[1..] == m;
    } else {
      ChainSplice(next, next[l[0]], l[1..], rest, m);
      assert l[1..][|l| - 2] == last;
      assert (l + m)[1..] == l[1..] + m;
      assert l[0] != last;
    }
  }

  /** What hangs off the k-th object. */
  lemma {:induction false} ChainDrop(next: Links, head: Ptr, l: seq<Obj>, k: nat)
    requires Chain(next, head, l) && k < |l|
    ensures l[k] in next && Chain(next, next[l[k]], l[k + 1..])
    decreases l
  {
    if k > 0 {
      ChainDrop(next, next[l[0]], l[1..], k - 1);
      assert l[1..][k..] == l[k + 1..];
    }
  }

  /** Clearing the link of the k-th object cuts the list in two. */
  lemma {:induction false} ChainCut(next: Links, head: Ptr, l: seq<Obj>, k: nat)
    requires Chain(next, head, l) && NoDup(l) && k < |l|
    ensures l[k] in next
    ensures Chain(next[l[k] := None], head, l[..k + 1])
    ensures Chain(next[l[k] := None], next[l[k]], l[k + 1..])
  {
    ChainDrop(next, head, l, k);
    ChainFrame(next, next[l[k]], l[k + 1..], l[k], None);
    ChainPrefix(next, head, l, k);
  }

  lemma {:induction false} ChainPrefix(next: Links, head: Ptr, l: seq<Obj>, k: nat)
    requires Chain(next, head, l) && NoDup(l) && k < |l|
    ensures Chain(next[l[k] := None], head, l[..k + 1])
    decreases l
  {
    if k == 0 {
      assert l[..1] == [l[0]];
    } else {
      ChainPrefix(next, next[l[0]], l[1..], k - 1);
      assert l[1..][k - 1] == l[k] != l[0];
      assert l[..k + 1][1..] == l[1..][..k];
    }
  }

  /** The walk of MakeStackAvailable: the object after at most n - 1 links. */
  function LastKept(next: Links, o: Obj, n: nat): Obj
    decreases n
  {
    if n <= 1 || o !in next || next[o].None? then o else LastKept(next, next[o].value, n - 1)
  }

  lemma {:induction false} LastKeptIs(next: Links, l: seq<Obj>, n: nat)
    requires l != [] && Chain(next, Some(l[0]), l) && n > 0
    ensures LastKept(next, l[0], n) == l[if n < |l| then n - 1 else |l| - 1]
    decreases l
  {
    if n > 1 && |l| > 1 {
      LastKeptIs(next, l[1..], n - 1);
    }
  }

  // ----- places ------------------------------------------------------------------------

  /** Where lists start: a pool's free queue, its available queue, the global list, the stack a thread
      holds between two shared steps. */
  datatype Root = Free(pool: nat) | Avail(pool: nat) | Global | Flight(thread: nat)

  /** Where one object is: with the client, in a thread's hands inside Free, or on a list. */
  datatype Place = Out | Hand(thread: nat) | At(root: Root)

  /** The lists behind the pointers, and the one place of every object. */
  datatype View = View(lists: map<Root, seq<Obj>>, where: map<Obj, Place>)

  /** Every object is in exactly one place, and the lists hold the objects placed on them, each once. */
  ghost predicate Placed(v: View) {
    && (forall r | r in v.lists :: NoDup(v.lists[r]))
    && (forall r, o | r in v.lists && o in v.lists[r] :: o in v.where && v.where[o] == At(r))
    && (forall o | o in v.where && v.where[o].At? :: v.where[o].root in v.lists && o in v.lists[v.where[o].root])
  }

  ghost predicate Linked(next: Links, heads: map<Root, Ptr>, lists: map<Root, seq<Obj>>) {
    && heads.Keys == lists.Keys
    && forall r | r in lists :: Chain(next, heads[r], lists[r])
  }

  /** The pointers and the view agree: every object is in exactly one place, none is lost. */
  ghost predicate Rep(next: Links, heads: map<Root, Ptr>, v: View) {
    next.Keys == v.where.Keys && Linked(next, heads, v.lists) && Placed(v)
  }

  ghost function PutAll(where: map<Obj, Place>, l: seq<Obj>, p: Place): map<Obj, Place> {
    map o | o in where :: if o in l then p else where[o]
  }

  /** A write to the link of an object that is on no list. */
  lemma WriteLoose(next: Links, heads: map<Root, Ptr>, v: View, o: Obj, to: Ptr)
    requires Rep(next, heads, v) && o in v.where && !v.where[o].At?
    ensures Rep(next[o := to], heads, v)
  {
    forall r | r in v.lists ensures Chain(next[o := to], heads[r], v.lists[r]) {
      ChainFrame(next, heads[r], v.lists[r], o, to);
    }
  }

  /** An object that is on no list changes hands. */
  lemma HandOver(next: Links, heads: map<Root, Ptr>, v: View, o: Obj, place: Place)
    requires Rep(next, heads, v) && o in v.where && !v.where[o].At? && !place.At?
    ensures Rep(next, heads, v.(where := v.where[o := place]))
  {
  }

  ghost function Pushed(v: View, r: Root, o: Obj): View
    requires r in v.lists
  {
    View(v.lists[r := [o] + v.lists[r]], v.where[o := At(r)])
  }

  lemma PushedPlaces(v: View, r: Root, o: Obj)
    requires Placed(v) && r in v.lists && o in v.where && !v.where[o].At?
    ensures o !in v.lists[r] && Placed(Pushed(v, r, o))
  {
    NoDupConcat([o], v.lists[r]);
  }

  /** An object whose link already equals the head becomes the head. */
  lemma PushLinked(next: Links, heads: map<Root, Ptr>, v: View, r: Root, o: Obj)
    requires Rep(next, heads, v) && r in v.lists && o in v.where && !v.where[o].At? && next[o] == heads[r]
    ensures Rep(next, heads[r := Some(o)], Pushed(v, r, o))
  {
    PushedPlaces(v, r, o);
    hide Placed;
    ChainPush(next, heads[r], v.lists[r], o);
    assert next[o := heads[r]] == next;
  }

  ghost function Popped(v: View, r: Root): View
    requires r in v.lists && v.lists[r] != []
  {
    View(v.lists[r := v.lists[r][1..]], v.where[v.lists[r][0] := Out])
  }

  lemma PoppedPlaces(v: View, r: Root)
    requires Placed(v) && r in v.lists && v.lists[r] != []
    ensures Placed(Popped(v, r))
  {
    var w := Popped(v, r);
    NoDupSplit(v.lists[r], 1);
    assert v.lists[r][0] in v.lists[r][..1] && v.lists[r][0] in v.lists[r];
    forall q, o | q in w.lists && o in w.lists[q] ensures o in w.where && w.where[o] == At(q) {
      assert v.where[o] == At(q);
      assert o != v.lists[r][0];
    }
  }

  /** The head leaves its list for the client. */
  lemma PopHead(next: Links, heads: map<Root, Ptr>, v: View, r: Root)
    requires Rep(next, heads, v) && r in v.lists && heads[r].Some?
    ensures v.lists[r] != [] && heads[r].value == v.lists[r][0] && heads[r].value in next
    ensures Rep(next, heads[r := next[heads[r].value]], Popped(v, r))
  {
    PoppedPlaces(v, r);
    hide Placed;
  }

  ghost function Moved(v: View, from: Root, to: Root): View
    requires from in v.lists
  {
    View(v.lists[from := []][to := v.lists[from]], PutAll(v.where, v.lists[from], At(to)))
  }

  lemma MovedPlaces(v: View, from: Root, to: Root)
    requires Placed(v) && from in v.lists && to in v.lists && from != to && v.lists[to] == []
    ensures Placed(Moved(v, from, to))
  {
    var w := Moved(v, from, to);
    forall r, o | r in w.lists && o in w.lists[r] ensures o in w.where && w.where[o] == At(r) {
      if r == to {
        assert o in v.lists[from];
      } else {
        assert v.where[o] == At(r);
      }
    }
  }

  /** A whole list changes hands; the receiving root held nothing. */
  lemma MoveList(next: Links, heads: map<Root, Ptr>, v: View, from: Root, to: Root)
    requires Rep(next, heads, v) && from in v.lists && to in v.lists && from != to && heads[to] == None
    ensures Rep(next, heads[from := None][to := heads[from]], Moved(v, from, to))
  {
    MovedPlaces(v, from, to);
    hide Placed;
  }

  ghost function Spliced(v: View, from: Root, to: Root): View
    requires from in v.lists && to in v.lists
  {
    View(v.lists[from := []][to := v.lists[from] + v.lists[to]], PutAll(v.where, v.lists[from], At(to)))
  }

  lemma SplicedPlaces(v: View, from: Root, to: Root)
    requires Placed(v) && from in v.lists && to in v.lists && from != to
    ensures Placed(Spliced(v, from, to))
  {
    var w := Spliced(v, from, to);
    forall r, o | r in w.lists && o in w.lists[r] ensures o in w.where && w.where[o] == At(r) {
      if o !in v.lists[from] {
        assert o in v.lists[r];
      }
    }
    assert NoDup(w.lists[to]) by {
      forall o | o in v.lists[from] ensures o !in v.lists[to] {
        assert v.where[o] == At(from);
      }
      NoDupConcat(v.lists[from], v.lists[to]);
    }
  }

  lemma SplicedLinks(next: Links, heads: map<Root, Ptr>, lists: map<Root, seq<Obj>>, from: Root, to: Root, tail: Obj)
    requires Linked(next, heads, lists) && from in lists && to in lists && from != to && NoDup(lists[from])
    requires lists[from] != [] && tail == lists[from][|lists[from]| - 1]
    requires forall r | r in lists && r != from :: tail !in lists[r]
    ensures Linked(next[tail := heads[to]], heads[from := None][to := heads[from]],
                   lists[from := []][to := lists[from] + lists[to]])
  {
    ChainSplice(next, heads[from], lists[from], heads[to], lists[to]);
    forall r | r in lists && r != from && r != to ensures Chain(next[tail := heads[to]], heads[r], lists[r]) {
      ChainFrame(next, heads[r], lists[r], tail, heads[to]);
    }
    hide NoDup;
  }

  /** Return: the tail of one list is linked to the head of another. */
  lemma SpliceList(next: Links, heads: map<Root, Ptr>, v: View, from: Root, to: Root, tail: Obj)
    requires Rep(next, heads, v) && from in v.lists && to in v.lists && from != to
    requires v.lists[from] != [] && tail == v.lists[from][|v.lists[from]| - 1]
    ensures Rep(next[tail := heads[to]], heads[from := None][to := heads[from]], Spliced(v, from, to))
  {
    SplicedPlaces(v, from, to);
    assert v.where[tail] == At(from);
    assert forall r | r in v.lists && r != from :: tail !in v.lists[r];
    SplicedLinks(next, heads, v.lists, from, to, tail);
    hide Placed, Linked;
  }

  ghost function CutOff(v: View, from: Root, to: Root, k: nat): View
    requires from in v.lists && k < |v.lists[from]|
  {
    View(v.lists[from := v.lists[from][..k + 1]][to := v.lists[from][k + 1..]],
         PutAll(v.where, v.lists[from][k + 1..], At(to)))
  }

  lemma CutOffPlaces(v: View, from: Root, to: Root, k: nat)
    requires Placed(v) && from in v.lists && to in v.lists && from != to && v.lists[to] == [] && k < |v.lists[from]|
    ensures Placed(CutOff(v, from, to, k))
  {
    var w, l := CutOff(v, from, to, k), v.lists[from];
    NoDupSplit(l, k + 1);
    forall r, o | r in w.lists && o in w.lists[r] ensures o in w.where && w.where[o] == At(r) {
      if r == from || r == to {
        assert o in l;
      } else {
        assert v.where[o] == At(r);
      }
    }
  }

  /** MakeStackAvailable: what hangs off the k-th object moves to an empty root. */
  lemma CutList(next: Links, heads: map<Root, Ptr>, v: View, from: Root, to: Root, k: nat)
    requires Rep(next, heads, v) && from in v.lists && to in v.lists && from != to && heads[to] == None
    requires k < |v.lists[from]|
    ensures v.lists[from][k] in next
    ensures Rep(next[v.lists[from][k] := None], heads[to := next[v.lists[from][k]]], CutOff(v, from, to, k))
  {
    var l := v.lists[from];
    assert v.where[l[k]] == At(from);
    CutOffPlaces(v, from, to, k);
    assert Linked(next[l[k] := None], heads[to := next[l[k]]], CutOff(v, from, to, k).lists) by {
      ChainCut(next, heads[from], l, k);
      forall r | r in v.lists && r != from && r != to
        ensures Chain(next[l[k] := None], heads[r], v.lists[r])
      {
        ChainFrame(next, heads[r], v.lists[r], l[k], None);
      }
    }
  }
}
