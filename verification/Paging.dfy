/** Keyset paging (orly/key_generator.h): picking and trimming a cursor over a sorted index. */
module Paging {
  import opened Common

  /** One member of a key or of a pattern; the values of a member's type stand in their own order. */
  datatype Member = Free | Val(value: int)

  type Key = seq<Member>

  /** Every member has a value. */
  predicate Whole(k: Key) {
    forall i | 0 <= i < |k| :: k[i].Val?
  }

  /** A pattern's free members are its rightmost ones. */
  predicate FreeOnRight(p: Key) {
    forall i, j | 0 <= i < j < |p| :: p[i].Free? ==> p[j].Free?
  }

  // ----- the order of the index --------------------------------------------------------

  /** Free comes before every value; a descending member turns its order around. */
  predicate MemberLess(desc: bool, a: Member, b: Member) {
    var (x, y) := if desc then (b, a) else (a, b);
    y.Val? && (x.Free? || x.value < y.value)
  }

  /** OrderStates on tuples of the index's type: member by member. desc says which members are descending. */
  predicate Less(desc: seq<bool>, a: Key, b: Key)
    requires |a| == |b| == |desc|
    decreases desc
  {
    desc != [] && (MemberLess(desc[0], a[0], b[0]) || (a[0] == b[0] && Less(desc[1..], a[1..], b[1..])))
  }

  /** MatchPrefixState on tuples of the index's type: a free member unifies with anything, a value with itself. */
  predicate Unifies(p: Key, k: Key) {
    |p| == |k| && forall i | 0 <= i < |p| :: p[i].Free? || p[i] == k[i]
  }

  ghost predicate IsIndex(desc: seq<bool>, index: seq<Key>) {
    && (forall i | 0 <= i < |index| :: |index[i]| == |desc| && Whole(index[i]))
    && (forall i, j | 0 <= i < j < |index| :: Less(desc, index[i], index[j]))
  }

  lemma {:induction false} LessIsTotal(desc: seq<bool>, a: Key, b: Key)
    requires |a| == |b| == |desc|
    ensures Less(desc, a, b) || a == b || Less(desc, b, a)
    ensures Less(desc, a, b) ==> a != b && !Less(desc, b, a)
    decreases desc
  {
    if desc != [] && a[0] == b[0] {
      LessIsTotal(desc[1..], a[1..], b[1..]);
      assert a == [a[0]] + a[1..] && b == [b[0]] + b[1..];
    }
  }

  /** The two agree up to member k, and there a's value comes first in the order of that member. */
  predicate FirstAt(desc: seq<bool>, a: Key, b: Key, k: nat)
    requires |a| == |b| == |desc| && Whole(a) && Whole(b)
  {
    && k < |desc| && (forall i | 0 <= i < k :: a[i] == b[i])
    && if desc[k] then a[k].value > b[k].value else a[k].value < b[k].value
  }

  /** Between keys the first member that differs decides, by its value and its direction. */
  lemma {:induction false} LessIff(desc: seq<bool>, a: Key, b: Key)
    requires |a| == |b| == |desc| && Whole(a) && Whole(b)
    ensures Less(desc, a, b) <==> exists k :: FirstAt(desc, a, b, k)
    decreases desc
  {
    if desc == [] || a[0] != b[0] {
      assert Less(desc, a, b) <==> FirstAt(desc, a, b, 0);
    } else {
      LessIff(desc[1..], a[1..], b[1..]);
      forall k: nat {
        FirstShift(desc, a, b, k);
      }
      assert !FirstAt(desc, a, b, 0);
      assert forall k: nat | FirstAt(desc, a, b, k) :: FirstAt(desc[1..], a[1..], b[1..], k - 1);
    }
  }

  lemma FirstShift(desc: seq<bool>, a: Key, b: Key, k: nat)
    requires |a| == |b| == |desc| > 0 && Whole(a) && Whole(b) && a[0] == b[0]
    ensures FirstAt(desc[1..], a[1..], b[1..], k) <==> FirstAt(desc, a, b, k + 1)
  {
    if FirstAt(desc[1..], a[1..], b[1..], k) {
      assert forall i | 0 < i <= k :: a[i] == a[1..][i - 1] && b[i] == b[1..][i - 1];
    }
  }

  lemma {:induction false} LessIsTransitive(desc: seq<bool>, a: Key, b: Key, c: Key)
    requires |a| == |b| == |c| == |desc| && Less(desc, a, b) && Less(desc, b, c)
    ensures Less(desc, a, c)
    decreases desc
  {
    if a[0] == b[0] && b[0] == c[0] {
      LessIsTransitive(desc[1..], a[1..], b[1..], c[1..]);
    }
  }

  // ----- a pattern's matches are one run of the index ----------------------------------

  lemma TailUnifies(p: Key, k: Key)
    requires |p| == |k| > 0
    ensures Unifies(p, k) <==> (p[0].Free? || p[0] == k[0]) && Unifies(p[1..], k[1..])
  {
    assert p == [p[0]] + p[1..] && k == [k[0]] + k[1..];
  }

  lemma AllFree(p: Key, k: Key)
    requires FreeOnRight(p) && |p| == |k| > 0 && p[0].Free?
    ensures Unifies(p, k)
  {
  }

  /** A key between two matches is a match. */
  lemma {:induction false} RunIsContiguous(desc: seq<bool>, p: Key, a: Key, k: Key, b: Key)
    requires |p| == |a| == |k| == |b| == |desc| && FreeOnRight(p)
    requires Unifies(p, a) && Unifies(p, b) && !Less(desc, k, a) && !Less(desc, b, k)
    ensures Unifies(p, k)
    decreases desc
  {
    if desc != [] {
      TailUnifies(p, a);
      TailUnifies(p, b);
      TailUnifies(p, k);
      if p[0].Free? {
        AllFree(p, k);
      } else {
        assert a[0] == p[0] == b[0];
        LessIsTotal(desc, k, a);
        LessIsTotal(desc, b, k);
        assert k[0] == p[0];
        RunIsContiguous(desc[1..], p[1..], a[1..], k[1..], b[1..]);
      }
    }
  }

  /** A key that is no match compares with every match as it compares with the pattern: before or after. */
  lemma {:induction false} OutsideTheRun(desc: seq<bool>, p: Key, bound: Key, k: Key)
    requires |p| == |bound| == |k| == |desc| && FreeOnRight(p) && !Unifies(p, bound) && Unifies(p, k)
    ensures Less(desc, bound, p) <==> Less(desc, bound, k)
    ensures bound != k
    decreases desc
  {
    if desc != [] {
      TailUnifies(p, bound);
      TailUnifies(p, k);
      if p[0].Free? {
        AllFree(p, bound);
      } else if bound[0] == p[0] {
        OutsideTheRun(desc[1..], p[1..], bound[1..], k[1..]);
      }
    }
  }

  // ----- the cursors -------------------------------------------------------------------

  /** The keys a pattern cursor of the engine yields: the matches, in order. */
  function Matches(p: Key, index: seq<Key>): seq<Key> {
    if index == [] then []
    else (if Unifies(p, index[0]) then [index[0]] else []) + Matches(p, index[1..])
  }

  /** The matches up to the first key that is none. */
  function WhileMatching(p: Key, index: seq<Key>): seq<Key> {
    if index != [] && Unifies(p, index[0]) then [index[0]] + WhileMatching(p, index[1..]) else []
  }

  ghost predicate Wide(desc: seq<bool>, keys: seq<Key>) {
    forall i | 0 <= i < |keys| :: |keys[i]| == |desc|
  }

  /** The keys a range cursor yields: it starts at the first key not below from and stops at the first key that does
      not match. */
  ghost function RangeCursor(desc: seq<bool>, index: seq<Key>, from: Key, p: Key): seq<Key>
    requires Wide(desc, index) && |from| == |desc|
  {
    if index != [] && Less(desc, index[0], from) then RangeCursor(desc, index[1..], from, p)
    else WhileMatching(p, index)
  }

  /** NewKeyCursor. */
  ghost function NewKeyCursor(desc: seq<bool>, index: seq<Key>, start: Key, bound: Option<Key>, inclusive: bool)
    : seq<Key>
    requires Wide(desc, index) && |start| == |desc| && (bound.Some? ==> |bound.value| == |desc|)
  {
    match bound
    case None => Matches(start, index)
    case Some(b) =>
      if !Unifies(start, b) && Less(desc, b, start) then Matches(start, index)
      else
        var csr := RangeCursor(desc, index, b, start);
        if !inclusive && csr != [] && csr[0] == b then csr[1..] else csr
  }

  /** The keys after the bound, or at it when inclusive. */
  ghost function Beyond(desc: seq<bool>, keys: seq<Key>, b: Key, inclusive: bool): seq<Key>
    requires Wide(desc, keys) && |b| == |desc|
  {
    if keys == [] then []
    else (if Less(desc, b, keys[0]) || (inclusive && keys[0] == b) then [keys[0]] else [])
         + Beyond(desc, keys[1..], b, inclusive)
  }

  /** What the generator promises. */
  ghost function Wanted(desc: seq<bool>, index: seq<Key>, start: Key, bound: Option<Key>, inclusive: bool): seq<Key>
    requires Wide(desc, index) && |start| == |desc| && (bound.Some? ==> |bound.value| == |desc|)
  {
    MatchesAreKeys(start, index);
    match bound
    case None => Matches(start, index)
    case Some(b) => Beyond(desc, Matches(start, index), b, inclusive)
  }

  lemma {:induction false} MatchesAreKeys(p: Key, index: seq<Key>)
    ensures forall k :: k in Matches(p, index) <==> k in index && Unifies(p, k)
    ensures forall desc | Wide(desc, index) :: Wide(desc, Matches(p, index))
  {
    if index != [] {
      MatchesAreKeys(p, index[1..]);
      forall desc | Wide(desc, index) ensures Wide(desc, Matches(p, index)) {
        assert Wide(desc, index[1..]);
      }
    }
  }

  lemma TailIsIndex(desc: seq<bool>, index: seq<Key>)
    requires IsIndex(desc, index) && index != []
    ensures IsIndex(desc, index[1..])
    ensures forall k | k in index[1..] :: Less(desc, index[0], k)
  {
  }

  /** Every key lies beyond a bound that is below them all. */
  lemma {:induction false} AllBeyond(desc: seq<bool>, keys: seq<Key>, b: Key, inclusive: bool)
    requires Wide(desc, keys) && |b| == |desc|
    requires forall k | k in keys :: Less(desc, b, k) || (inclusive && k == b)
    ensures Beyond(desc, keys, b, inclusive) == keys
  {
    if keys != [] {
      AllBeyond(desc, keys[1..], b, inclusive);
    }
  }

  lemma {:induction false} NoneBeyond(desc: seq<bool>, keys: seq<Key>, b: Key, inclusive: bool)
    requires Wide(desc, keys) && |b| == |desc|
    requires forall k | k in keys :: !Less(desc, b, k) && k != b
    ensures Beyond(desc, keys, b, inclusive) == []
  {
    if keys != [] {
      NoneBeyond(desc, keys[1..], b, inclusive);
    }
  }

  lemma {:induction false} NoMatches(p: Key, index: seq<Key>)
    requires forall k | k in index :: !Unifies(p, k)
    ensures Matches(p, index) == []
  {
    if index != [] {
      assert index[0] in index;
      NoMatches(p, index[1..]);
    }
  }

  /** The matches among keys not below a matching bound come first. */
  lemma {:induction false} WhileIsAll(desc: seq<bool>, index: seq<Key>, p: Key, b: Key)
    requires IsIndex(desc, index) && |p| == |b| == |desc| && FreeOnRight(p) && Unifies(p, b)
    requires forall k | k in index :: !Less(desc, k, b)
    ensures WhileMatching(p, index) == Matches(p, index)
  {
    if index != [] {
      TailIsIndex(desc, index);
      WhileIsAll(desc, index[1..], p, b);
      if !Unifies(p, index[0]) {
        MatchesAreKeys(p, index[1..]);
        forall k | k in index[1..] ensures !Unifies(p, k) {
          if Unifies(p, k) {
            LessIsTotal(desc, index[0], k);
            RunIsContiguous(desc, p, b, index[0], k);
          }
        }
        NoMatches(p, index[1..]);
      }
    }
  }

  /** From a matching bound the range cursor yields the matches at or after it. */
  lemma {:induction false} RangeFromMatch(desc: seq<bool>, index: seq<Key>, p: Key, b: Key)
    requires IsIndex(desc, index) && |p| == |b| == |desc| && FreeOnRight(p) && Unifies(p, b)
    ensures Wide(desc, Matches(p, index)) && RangeCursor(desc, index, b, p) == Beyond(desc, Matches(p, index), b, true)
  {
    MatchesAreKeys(p, index);
    if index != [] {
      TailIsIndex(desc, index);
      if Less(desc, index[0], b) {
        RangeFromMatch(desc, index[1..], p, b);
        LessIsTotal(desc, index[0], b);
        BeyondSkips(desc, index[0], Matches(p, index[1..]), b);
        assert Matches(p, index) == Matches(p, index[1..]) || Matches(p, index) == [index[0]] + Matches(p, index[1..]);
      } else {
        forall k | k in index ensures !Less(desc, k, b) && (Less(desc, b, k) || k == b) {
          NotBelow(desc, index, b, k);
        }
        WhileIsAll(desc, index, p, b);
        AllBeyond(desc, Matches(p, index), b, true);
      }
    }
  }

  lemma BeyondSkips(desc: seq<bool>, k: Key, keys: seq<Key>, b: Key)
    requires Wide(desc, keys) && |k| == |b| == |desc| && !Less(desc, b, k) && k != b
    ensures Wide(desc, [k] + keys) && Beyond(desc, [k] + keys, b, true) == Beyond(desc, keys, b, true)
  {
    assert ([k] + keys)[1..] == keys;
  }

  lemma NotBelow(desc: seq<bool>, index: seq<Key>, b: Key, k: Key)
    requires IsIndex(desc, index) && |b| == |desc| && index != [] && !Less(desc, index[0], b) && k in index
    ensures !Less(desc, k, b) && (Less(desc, b, k) || k == b)
  {
    LessIsTotal(desc, index[0], b);
    LessIsTotal(desc, k, b);
    if k != index[0] {
      assert Less(desc, index[0], k);
      if Less(desc, b, index[0]) {
        LessIsTransitive(desc, b, index[0], k);
      }
    }
  }

  /** A range cursor from above the run stops at once. */
  lemma {:induction false} RangeFromAbove(desc: seq<bool>, index: seq<Key>, p: Key, b: Key)
    requires IsIndex(desc, index) && |p| == |b| == |desc|
    requires forall k | k in index && Unifies(p, k) :: Less(desc, k, b)
    ensures RangeCursor(desc, index, b, p) == []
  {
    if index != [] {
      TailIsIndex(desc, index);
      if Less(desc, index[0], b) {
        RangeFromAbove(desc, index[1..], p, b);
      } else {
        assert index[0] in index;
      }
    }
  }

  /** Trimming the bound off the front turns at or after into after. */
  lemma {:induction false} TrimBound(desc: seq<bool>, keys: seq<Key>, b: Key)
    requires IsIndex(desc, keys) && |b| == |desc|
    ensures var csr := Beyond(desc, keys, b, true);
            Beyond(desc, keys, b, false) == if csr != [] && csr[0] == b then csr[1..] else csr
  {
    if keys != [] {
      TailIsIndex(desc, keys);
      TrimBound(desc, keys[1..], b);
      LessIsTotal(desc, b, keys[0]);
      if keys[0] == b || Less(desc, b, keys[0]) {
        forall k | k in keys[1..] ensures Less(desc, b, k) {
          if keys[0] != b {
            LessIsTransitive(desc, b, keys[0], k);
          }
        }
        AllBeyond(desc, keys[1..], b, true);
        AllBeyond(desc, keys[1..], b, false);
      }
    }
  }

  lemma {:induction false} MatchesAreIndex(desc: seq<bool>, index: seq<Key>, p: Key)
    requires IsIndex(desc, index)
    ensures IsIndex(desc, Matches(p, index))
  {
    if index != [] {
      TailIsIndex(desc, index);
      MatchesAreIndex(desc, index[1..], p);
      MatchesAreKeys(p, index[1..]);
      PrependIsIndex(desc, index[0], Matches(p, index[1..]));
    }
  }

  lemma PrependIsIndex(desc: seq<bool>, k: Key, keys: seq<Key>)
    requires IsIndex(desc, keys) && |k| == |desc| && Whole(k) && forall x | x in keys :: Less(desc, k, x)
    ensures IsIndex(desc, [k] + keys)
  {
  }

  /** For every sorted index, pattern and bound the cursor yields exactly the keys that match the pattern and come
      after the bound (or at it, when inclusive), in order. */
  lemma CursorIsFilter(desc: seq<bool>, index: seq<Key>, start: Key, bound: Option<Key>, inclusive: bool)
    requires IsIndex(desc, index) && |start| == |desc| && FreeOnRight(start)
    requires bound.Some? ==> |bound.value| == |desc| && Whole(bound.value)
    ensures NewKeyCursor(desc, index, start, bound, inclusive) == Wanted(desc, index, start, bound, inclusive)
  {
    if bound.Some? {
      var b, run := bound.value, Matches(start, index);
      MatchesAreKeys(start, index);
      MatchesAreIndex(desc, index, start);
      if Unifies(start, b) {
        RangeFromMatch(desc, index, start, b);
        TrimBound(desc, run, b);
      } else {
        forall k | k in run ensures (Less(desc, b, start) <==> Less(desc, b, k)) && k != b {
          OutsideTheRun(desc, start, b, k);
        }
        if Less(desc, b, start) {
          AllBeyond(desc, run, b, inclusive);
        } else {
          forall k | k in index && Unifies(start, k) ensures Less(desc, k, b) {
            assert k in run;
            LessIsTotal(desc, k, b);
          }
          RangeFromAbove(desc, index, start, b);
          NoneBeyond(desc, run, b, inclusive);
        }
      }
    }
  }

  // ----- pages -------------------------------------------------------------------------

  function Min(a: nat, b: nat): nat {
    if a < b then a else b
  }

  /** One page: the first n keys after the last key of the page before, if any. */
  ghost function Page(desc: seq<bool>, index: seq<Key>, start: Key, after: Option<Key>, n: nat): seq<Key>
    requires Wide(desc, index) && |start| == |desc| && (after.Some? ==> |after.value| == |desc|)
  {
    var csr := NewKeyCursor(desc, index, start, after, false);
    csr[..Min(n, |csr|)]
  }

  /** What is left beyond the last of the first n keys is the rest of the run. */
  lemma {:induction false} BeyondLast(desc: seq<bool>, keys: seq<Key>, n: nat)
    requires IsIndex(desc, keys) && 0 < n <= |keys|
    ensures Beyond(desc, keys, keys[n - 1], false) == keys[n..]
    decreases n
  {
    TailIsIndex(desc, keys);
    var b := keys[n - 1];
    LessIsTotal(desc, b, keys[0]);
    if n == 1 {
      AllBeyond(desc, keys[1..], b, false);
    } else {
      BeyondLast(desc, keys[1..], n - 1);
      assert keys[1..][n - 2] == b;
    }
  }

  /** Filtering by a later bound is the same on the whole run and on what an earlier bound left of it. */
  lemma {:induction false} BeyondTwice(desc: seq<bool>, keys: seq<Key>, a: Key, b: Key)
    requires Wide(desc, keys) && |a| == |b| == |desc| && Less(desc, a, b)
    ensures var rest := Beyond(desc, keys, a, false);
            Wide(desc, rest) && Beyond(desc, rest, b, false) == Beyond(desc, keys, b, false)
  {
    if keys != [] {
      BeyondTwice(desc, keys[1..], a, b);
      if Less(desc, b, keys[0]) {
        LessIsTransitive(desc, a, b, keys[0]);
      }
      var rest := Beyond(desc, keys[1..], a, false);
      if Less(desc, a, keys[0]) {
        assert ([keys[0]] + rest)[1..] == rest;
      } else {
        assert Beyond(desc, keys, a, false) == rest;
        assert Beyond(desc, keys, b, false) == Beyond(desc, keys[1..], b, false);
      }
    }
  }

  lemma {:induction false} BeyondIsIndex(desc: seq<bool>, keys: seq<Key>, b: Key)
    requires IsIndex(desc, keys) && |b| == |desc|
    ensures IsIndex(desc, Beyond(desc, keys, b, false))
    ensures forall k | k in Beyond(desc, keys, b, false) :: k in keys && Less(desc, b, k)
  {
    if keys != [] {
      TailIsIndex(desc, keys);
      BeyondIsIndex(desc, keys[1..], b);
      PrependIsIndex(desc, keys[0], Beyond(desc, keys[1..], b, false));
    }
  }

  /** The next page starts where the last one stopped. */
  lemma NextPage(desc: seq<bool>, index: seq<Key>, start: Key, after: Option<Key>, n: nat)
    requires IsIndex(desc, index) && |start| == |desc| && FreeOnRight(start)
    requires after.Some? ==> |after.value| == |desc| && Whole(after.value)
    requires 0 < n <= |NewKeyCursor(desc, index, start, after, false)|
    ensures var csr := NewKeyCursor(desc, index, start, after, false);
            && |csr[n - 1]| == |desc| && Whole(csr[n - 1])
            && NewKeyCursor(desc, index, start, Some(csr[n - 1]), false) == csr[n..]
  {
    var csr, run := NewKeyCursor(desc, index, start, after, false), Matches(start, index);
    CursorIsFilter(desc, index, start, after, false);
    MatchesAreKeys(start, index);
    MatchesAreIndex(desc, index, start);
    if after.Some? {
      BeyondIsIndex(desc, run, after.value);
    }
    var last := csr[n - 1];
    assert last in csr && last in run;
    CursorIsFilter(desc, index, start, Some(last), false);
    BeyondLast(desc, csr, n);
    if after.Some? {
      BeyondTwice(desc, run, after.value, last);
    }
  }

  /** All pages of n keys, each asked for after the last key of the one before, until an empty one. */
  ghost function AllPages(desc: seq<bool>, index: seq<Key>, start: Key, after: Option<Key>, n: nat): seq<seq<Key>>
    requires IsIndex(desc, index) && |start| == |desc| && FreeOnRight(start) && n > 0
    requires after.Some? ==> |after.value| == |desc| && Whole(after.value)
    decreases |NewKeyCursor(desc, index, start, after, false)|
  {
    var csr := NewKeyCursor(desc, index, start, after, false);
    if csr == [] then []
    else
      var m := Min(n, |csr|);
      NextPage(desc, index, start, after, m);
      [Page(desc, index, start, after, n)] + AllPages(desc, index, start, Some(csr[m - 1]), n)
  }

  function Flatten(pages: seq<seq<Key>>): seq<Key> {
    if pages == [] then [] else pages[0] + Flatten(pages[1..])
  }

  /** The pages put together are the run, with no gap and no repeat. */
  lemma {:induction false} PagesListTheRun(desc: seq<bool>, index: seq<Key>, start: Key, after: Option<Key>, n: nat)
    requires IsIndex(desc, index) && |start| == |desc| && FreeOnRight(start) && n > 0
    requires after.Some? ==> |after.value| == |desc| && Whole(after.value)
    ensures Flatten(AllPages(desc, index, start, after, n)) == Wanted(desc, index, start, after, false)
    ensures forall page | page in AllPages(desc, index, start, after, n) :: 0 < |page| <= n
    decreases |NewKeyCursor(desc, index, start, after, false)|
  {
    hide NewKeyCursor, Wanted, Less, FreeOnRight;
    var csr := NewKeyCursor(desc, index, start, after, false);
    CursorIsFilter(desc, index, start, after, false);
    if csr != [] {
      var m := Min(n, |csr|);
      NextPage(desc, index, start, after, m);
      PagesListTheRun(desc, index, start, Some(csr[m - 1]), n);
      CursorIsFilter(desc, index, start, Some(csr[m - 1]), false);
      assert csr[..m] + csr[m..] == csr;
    }
  }

  // ----- walking -----------------------------------------------------------------------

  /** TKeyCursor: rest holds the keys from the current position on. */
  class KeyCursor {
    ghost var rest: seq<Key>
    var keys: seq<Key>
    var position: nat

    ghost predicate Valid()
      reads this
    {
      position <= |keys| && rest == keys[position..]
    }

    constructor (keys: seq<Key>)
      ensures Valid() && rest == keys
    {
      this.keys, position, rest := keys, 0, keys;
    }

    predicate HasKey()
      requires Valid()
      reads this
      ensures HasKey() <==> rest != []
    {
      position < |keys|
    }

    function Current(): (k: Key)
      requires Valid() && HasKey()
      reads this
      ensures k == rest[0]
    {
      keys[position]
    }

    method Advance()
      requires Valid() && HasKey()
      modifies this
      ensures Valid() && rest == old(rest)[1..]
    {
      position := position + 1;
      rest := rest[1..];
    }

    /** Passes over n keys, or as many as there are; a negative n passes over none. */
    method Skip(n: int) returns (skipped: nat)
      requires Valid()
      modifies this
      ensures Valid() && skipped == (if n < 0 then 0 else Min(n, |old(rest)|)) && rest == old(rest)[skipped..]
    {
      skipped := 0;
      while skipped < n && HasKey()
        invariant Valid() && skipped <= |old(rest)| && rest == old(rest)[skipped..] && (n < 0 ==> skipped == 0)
        invariant n >= 0 ==> skipped <= n
        decreases n - skipped
      {
        Advance();
        skipped := skipped + 1;
      }
    }
  }

  /** TCursor: decodes a key when it is dereferenced, at most once for each position. */
  class Cursor<T> {
    const iter: KeyCursor
    const decode: Key -> T
    var decoded: bool
    var item: Option<T>
    /** How often the current position has been decoded. */
    ghost var decodes: nat

    ghost predicate Valid()
      reads this, iter
    {
      && iter.Valid()
      && (decoded ==> item == if iter.rest == [] then None else Some(decode(iter.rest[0])))
      && decodes == if decoded && iter.rest != [] then 1 else 0
    }

    constructor (iter: KeyCursor, decode: Key -> T)
      requires iter.Valid()
      ensures Valid() && this.iter == iter && this.decode == decode && iter.rest == old(iter.rest)
    {
      this.iter, this.decode := iter, decode;
      decoded, item, decodes := false, None, 0;
    }

    method HasItem() returns (r: bool)
      requires Valid()
      ensures r <==> iter.rest != []
    {
      r := if decoded then item.Some? else iter.HasKey();
    }

    method Refresh()
      requires Valid()
      modifies this
      ensures Valid() && decoded
    {
      if !decoded {
        decoded := true;
        if iter.HasKey() {
          item := Some(decode(iter.Current()));
          decodes := decodes + 1;
        } else {
          item := None;
        }
      }
    }

    method Deref() returns (r: T)
      requires Valid() && iter.rest != []
      modifies this
      ensures Valid() && r == decode(iter.rest[0]) && decodes == 1
    {
      Refresh();
      r := item.value;
    }

    method Advance()
      requires Valid() && iter.rest != []
      modifies this, iter
      ensures Valid() && iter.rest == old(iter.rest)[1..] && decodes == 0
    {
      iter.Advance();
      decoded := false;
      decodes := 0;
    }

    method Skip(count: int)
      requires Valid()
      modifies this, iter
      ensures Valid() && iter.rest == old(iter.rest)[if count < 0 then 0 else Min(count, |old(iter.rest)|)..]
    {
      if count > 0 {
        var skipped := iter.Skip(count);
        decoded := false;
        decodes := 0;
      }
    }
  }
}
