/** The linked lists of events between stations, relinked in place.

    Events live in shared memory and are named by their index there, which is
    what a shared-memory pointer is. A list is a first and a last event, a count
    and, in output lists, the number of high-priority events at its front; the
    links are the events' own next fields. The link of a list's last event is
    never read, so it may be stale. */
module EventLists {

  const ET_SYS := -1

  // ----- what the lists are meant to hold -----

  predicate IsHigh(high: seq<bool>, e: nat) { e < |high| && high[e] }

  /** The events of s that have the wanted priority, in order. */
  function WithPriority(s: seq<nat>, high: seq<bool>, wanted: bool): seq<nat> {
    if s == [] then []
    else
      var front, e := s[..|s| - 1], s[|s| - 1];
      WithPriority(front, high, wanted) + if IsHigh(high, e) == wanted then [e] else []
  }

  /** High priority first, and in order of arrival within a priority. */
  function ByPriority(s: seq<nat>, high: seq<bool>): seq<nat> {
    WithPriority(s, high, true) + WithPriority(s, high, false)
  }

  predicate Distinct(s: seq<nat>) {
    forall i, j :: 0 <= i < j < |s| ==> s[i] != s[j]
  }

  function Indices(n: nat): (r: set<nat>)
    ensures |r| == n && forall e: nat :: e in r <==> e < n
  {
    if n == 0 then {} else Indices(n - 1) + {n - 1}
  }

  lemma {:induction false} WithPriorityAppend(s: seq<nat>, t: seq<nat>, high: seq<bool>, wanted: bool)
    ensures WithPriority(s + t, high, wanted) == WithPriority(s, high, wanted) + WithPriority(t, high, wanted)
  {
    if t == [] {
      assert s + t == s;
    } else {
      var front, e := t[..|t| - 1], t[|t| - 1];
      assert (s + t)[..|s + t| - 1] == s + front;
      WithPriorityAppend(s, front, high, wanted);
    }
  }

  lemma OneMore(s: seq<nat>, t: seq<nat>, i: nat, high: seq<bool>, wanted: bool)
    requires i < |t|
    ensures WithPriority(s + t[..i + 1], high, wanted) ==
            WithPriority(s + t[..i], high, wanted) + if IsHigh(high, t[i]) == wanted then [t[i]] else []
  {
    assert (s + t[..i + 1])[..|s| + i] == s + t[..i];
  }

  lemma {:induction false} WithPriorityHas(s: seq<nat>, high: seq<bool>, wanted: bool)
    ensures forall i :: 0 <= i < |WithPriority(s, high, wanted)| ==> IsHigh(high, WithPriority(s, high, wanted)[i]) == wanted
  {
    if s != [] { WithPriorityHas(s[..|s| - 1], high, wanted); }
  }

  lemma {:induction false} WithPriorityOfOne(s: seq<nat>, high: seq<bool>, has: bool, wanted: bool)
    requires forall i :: 0 <= i < |s| ==> IsHigh(high, s[i]) == has
    ensures WithPriority(s, high, wanted) == if has == wanted then s else []
  {
    if s != [] {
      WithPriorityOfOne(s[..|s| - 1], high, has, wanted);
      assert s == s[..|s| - 1] + [s[|s| - 1]];
    }
  }

  lemma SplitOf(hi: seq<nat>, lo: seq<nat>, high: seq<bool>, wanted: bool)
    requires forall i :: 0 <= i < |hi| ==> IsHigh(high, hi[i])
    requires forall i :: 0 <= i < |lo| ==> !IsHigh(high, lo[i])
    ensures WithPriority(hi + lo, high, wanted) == if wanted then hi else lo
  {
    WithPriorityAppend(hi, lo, high, wanted);
    WithPriorityOfOne(hi, high, true, wanted);
    WithPriorityOfOne(lo, high, false, wanted);
  }

  lemma SplitOrdered(s: seq<nat>, high: seq<bool>, k: nat)
    requires k <= |s| && forall i :: 0 <= i < |s| ==> (IsHigh(high, s[i]) <==> i < k)
    ensures WithPriority(s, high, true) == s[..k] && WithPriority(s, high, false) == s[k..]
  {
    assert s == s[..k] + s[k..];
    SplitOf(s[..k], s[k..], high, true);
    SplitOf(s[..k], s[k..], high, false);
  }

  lemma LeadingHighs(s: seq<nat>, high: seq<bool>, k: nat)
    requires ByPriority(s, high) == s && k <= |s| && (k < |s| ==> !IsHigh(high, s[k]))
    requires forall i :: 0 <= i < k ==> IsHigh(high, s[i])
    ensures WithPriority(s, high, true) == s[..k] && WithPriority(s, high, false) == s[k..]
  {
    var hi, lo := WithPriority(s, high, true), WithPriority(s, high, false);
    var h := |hi|;
    WithPriorityHas(s, high, true);
    WithPriorityHas(s, high, false);
    assert forall i :: 0 <= i < |s| ==> s[i] == if i < h then hi[i] else lo[i - h];
    assert h < |s| ==> !IsHigh(high, s[h]);
    assert h == k;
  }

  lemma {:induction false} PrioritiesPartition(s: seq<nat>, high: seq<bool>)
    ensures multiset(s) == multiset(WithPriority(s, high, true)) + multiset(WithPriority(s, high, false))
  {
    if s != [] {
      PrioritiesPartition(s[..|s| - 1], high);
      assert s == s[..|s| - 1] + [s[|s| - 1]];
    }
  }

  /** Nothing is lost or duplicated by the ordering. */
  lemma ByPriorityPermutes(s: seq<nat>, high: seq<bool>)
    ensures multiset(ByPriority(s, high)) == multiset(s)
  {
    PrioritiesPartition(s, high);
  }

  lemma ByPriorityKeepsEach(s: seq<nat>, high: seq<bool>, wanted: bool)
    ensures WithPriority(ByPriority(s, high), high, wanted) == WithPriority(s, high, wanted)
  {
    var hi, lo := WithPriority(s, high, true), WithPriority(s, high, false);
    WithPriorityHas(s, high, true);
    WithPriorityHas(s, high, false);
    WithPriorityAppend(hi, lo, high, wanted);
    WithPriorityOfOne(hi, high, true, wanted);
    WithPriorityOfOne(lo, high, false, wanted);
  }

  /** List r holds the events of q, those of high priority first and each kind in order of
      arrival. Event i of q is at place to[i]. */
  ghost predicate Arranged(q: seq<nat>, high: seq<bool>, r: seq<nat>, to: seq<nat>) {
    && |to| == |q| == |r|
    && (forall i :: 0 <= i < |q| ==> to[i] < |r| && r[to[i]] == q[i])
    && (forall i, j :: 0 <= i < |q| && 0 <= j < |q| && i != j ==>
          (to[i] < to[j] <==> if IsHigh(high, q[i]) == IsHigh(high, q[j]) then i < j else IsHigh(high, q[i])))
  }

  /** How many events of one kind came before event i is where it goes among them. */
  lemma {:induction false} PlaceAmong(q: seq<nat>, high: seq<bool>, wanted: bool, i: nat)
    requires i < |q| && IsHigh(high, q[i]) == wanted
    ensures var before, all := WithPriority(q[..i], high, wanted), WithPriority(q, high, wanted);
      |before| < |all| && all[|before|] == q[i]
  {
    var all := WithPriority(q[..i + 1], high, wanted);
    assert q[..i + 1][..i] == q[..i];
    assert q == q[..i + 1] + q[i + 1..];
    WithPriorityAppend(q[..i + 1], q[i + 1..], high, wanted);
  }

  lemma LaterAmong(q: seq<nat>, high: seq<bool>, wanted: bool, i: nat, j: nat)
    requires i < j < |q| && IsHigh(high, q[i]) == wanted
    ensures |WithPriority(q[..i], high, wanted)| < |WithPriority(q[..j], high, wanted)|
  {
    assert q[..j][..i] == q[..i];
    PlaceAmong(q[..j], high, wanted, i);
  }

  function PlaceOf(q: seq<nat>, high: seq<bool>, i: nat): nat
    requires i < |q|
  {
    if IsHigh(high, q[i]) then |WithPriority(q[..i], high, true)|
    else |WithPriority(q, high, true)| + |WithPriority(q[..i], high, false)|
  }

  lemma PlaceIs(q: seq<nat>, high: seq<bool>, i: nat)
    requires i < |q|
    ensures PlaceOf(q, high, i) < |ByPriority(q, high)| && ByPriority(q, high)[PlaceOf(q, high, i)] == q[i]
    ensures IsHigh(high, q[i]) <==> PlaceOf(q, high, i) < |WithPriority(q, high, true)|
  {
    PlaceAmong(q, high, IsHigh(high, q[i]), i);
  }

  lemma PlaceOrder(q: seq<nat>, high: seq<bool>, i: nat, j: nat)
    requires i < j < |q|
    ensures PlaceOf(q, high, i) != PlaceOf(q, high, j)
    ensures PlaceOf(q, high, i) < PlaceOf(q, high, j) <==> IsHigh(high, q[i]) || !IsHigh(high, q[j])
  {
    PlaceIs(q, high, i);
    PlaceIs(q, high, j);
    if IsHigh(high, q[i]) == IsHigh(high, q[j]) { LaterAmong(q, high, IsHigh(high, q[i]), i, j); }
  }

  /** The order rule, by where each event goes. */
  lemma ByPriorityArranges(q: seq<nat>, high: seq<bool>) returns (to: seq<nat>)
    ensures Arranged(q, high, ByPriority(q, high), to)
  {
    to := seq(|q|, i requires 0 <= i < |q| => PlaceOf(q, high, i));
    forall i | 0 <= i < |q| ensures to[i] < |ByPriority(q, high)| && ByPriority(q, high)[to[i]] == q[i] { PlaceIs(q, high, i); }
    forall i, j | 0 <= i < j < |q|
      ensures to[i] != to[j] && (to[i] < to[j] <==> IsHigh(high, q[i]) || !IsHigh(high, q[j]))
    {
      PlaceOrder(q, high, i, j);
    }
    PrioritiesPartition(q, high);
    assert |multiset(q)| == |q| == |ByPriority(q, high)|;
  }

  // That says all there is to say of it: no other list is arranged so.

  function Below(to: seq<nat>, v: nat): set<nat> { set i: nat | i < |to| && to[i] < v }

  predicate OneToOne(to: seq<nat>) {
    Distinct(to) && forall i :: 0 <= i < |to| ==> to[i] < |to|
  }

  lemma BelowStep(to: seq<nat>, v: nat)
    requires OneToOne(to)
    ensures |Below(to, v + 1)| <= |Below(to, v)| + 1
    ensures |Below(to, v + 1)| > |Below(to, v)| ==> exists i :: 0 <= i < |to| && to[i] == v
  {
    if i :| 0 <= i < |to| && to[i] == v {
      assert Below(to, v + 1) == Below(to, v) + {i};
    } else {
      assert Below(to, v + 1) == Below(to, v);
    }
  }

  lemma {:induction false} BelowAtMost(to: seq<nat>, v: nat)
    requires OneToOne(to)
    ensures |Below(to, v)| <= v
  {
    if v == 0 {
      assert Below(to, 0) == {};
    } else {
      BelowAtMost(to, v - 1);
      BelowStep(to, v - 1);
    }
  }

  lemma {:induction false} BelowIs(to: seq<nat>, v: nat)
    requires OneToOne(to) && v <= |to|
    ensures |Below(to, v)| == v
    decreases |to| - v
  {
    BelowAtMost(to, v);
    if v == |to| {
      assert Below(to, v) == Indices(v);
    } else {
      BelowIs(to, v + 1);
      BelowStep(to, v);
    }
  }

  lemma ArrangedOneToOne(q: seq<nat>, high: seq<bool>, r: seq<nat>, to: seq<nat>)
    requires Arranged(q, high, r, to)
    ensures OneToOne(to)
  {
    forall i, j | 0 <= i < j < |to| ensures to[i] != to[j] { assert to[i] < to[j] || to[j] < to[i]; }
  }

  lemma SamePlaces(q: seq<nat>, high: seq<bool>, r: seq<nat>, to: seq<nat>, s: seq<nat>, from: seq<nat>, i: nat)
    requires Arranged(q, high, r, to) && Arranged(q, high, s, from) && i < |q|
    ensures to[i] == from[i]
  {
    ArrangedOneToOne(q, high, r, to);
    ArrangedOneToOne(q, high, s, from);
    BelowIs(to, to[i]);
    BelowIs(from, from[i]);
    assert Below(to, to[i]) == Below(from, from[i]);
  }

  lemma ByPriorityIff(q: seq<nat>, high: seq<bool>, r: seq<nat>)
    ensures r == ByPriority(q, high) <==> exists to :: Arranged(q, high, r, to)
  {
    var from := ByPriorityArranges(q, high);
    if to :| Arranged(q, high, r, to) {
      ArrangedOneToOne(q, high, r, to);
      forall k | 0 <= k < |r| ensures r[k] == ByPriority(q, high)[k] {
        BelowIs(to, k);
        BelowIs(to, k + 1);
        BelowStep(to, k);
        var i :| 0 <= i < |to| && to[i] == k;
        SamePlaces(q, high, r, to, ByPriority(q, high), from, i);
      }
    }
  }

  /** Writing in several calls orders events as one call with all of them does:
      the list depends on the order of arrival only. */
  lemma ByPriorityIncremental(s: seq<nat>, t: seq<nat>, high: seq<bool>)
    ensures ByPriority(ByPriority(s, high) + t, high) == ByPriority(s + t, high)
  {
    forall wanted: bool
      ensures WithPriority(ByPriority(s, high) + t, high, wanted) == WithPriority(s + t, high, wanted)
    {
      ByPriorityKeepsEach(s, high, wanted);
      WithPriorityAppend(ByPriority(s, high), t, high, wanted);
      WithPriorityAppend(s, t, high, wanted);
    }
  }

  /** Distinct events that are not in a list fit into it. */
  lemma AlwaysFits(s: seq<nat>, p: seq<nat>, n: nat)
    requires Distinct(s) && Distinct(p) && (forall e :: e in p ==> e !in s && e < n) && forall e :: e in s ==> e < n
    ensures |s| + |p| <= n
  {
    DistinctSum(s, p);
    DistinctFit(s + p, n);
  }

  lemma DistinctDrop(s: seq<nat>, i: nat)
    requires Distinct(s) && i < |s|
    ensures Distinct(s[..i] + s[i + 1..]) && forall e :: e in s[..i] + s[i + 1..] ==> e in s && e != s[i]
  {
    var r := s[..i] + s[i + 1..];
    assert forall j :: 0 <= j < |r| ==> r[j] == if j < i then s[j] else s[j + 1];
  }

  lemma DistinctSum(s: seq<nat>, p: seq<nat>)
    requires Distinct(s) && Distinct(p) && forall e :: e in p ==> e !in s
    ensures Distinct(s + p)
  {
    forall i, j | 0 <= i < j < |s + p| ensures (s + p)[i] != (s + p)[j] {
      if i < |s| <= j { assert p[j - |s|] in p; }
    }
  }

  lemma {:induction false} DistinctFit(s: seq<nat>, n: nat)
    requires Distinct(s) && forall e :: e in s ==> e < n
    ensures |s| <= n
    decreases n
  {
    if s != [] {
      assert s[0] in s;
      if n - 1 in s {
        var i :| 0 <= i < |s| && s[i] == n - 1;
        DistinctDrop(s, i);
        var r := s[..i] + s[i + 1..];
        assert forall e :: e in r ==> e in s && e != n - 1;
        DistinctFit(r, n - 1);
      } else {
        DistinctFit(s, n - 1);
      }
    }
  }

  /** Where the events of two ordered lists go when they are put together. */
  lemma SplicedIs(s: seq<nat>, k: nat, p: seq<nat>, n: nat, high: seq<bool>)
    requires ByPriority(p, high) == p && k <= |s| && n <= |p|
    requires WithPriority(s, high, true) == s[..k] && WithPriority(s, high, false) == s[k..]
    requires (forall i :: 0 <= i < n ==> IsHigh(high, p[i])) && (n < |p| ==> !IsHigh(high, p[n]))
    ensures ByPriority(s + p, high) == s[..k] + p[..n] + s[k..] + p[n..]
  {
    WithPriorityAppend(s, p, high, true);
    WithPriorityAppend(s, p, high, false);
    LeadingHighs(p, high, n);
  }

  lemma AppendedIs(s: seq<nat>, p: seq<nat>, high: seq<bool>)
    requires ByPriority(s, high) == s && ByPriority(p, high) == p && p != [] && (!IsHigh(high, p[0]) || s == [])
    ensures ByPriority(s + p, high) == s + p
  {
    if s == [] {
      assert s + p == p;
    } else {
      var h := |WithPriority(s, high, true)|;
      SplicedIs(s, h, p, 0, high);
      assert s[..h] + p[..0] == s[..h] && s[..h] + s[h..] == s && p[0..] == p;
    }
  }

  // ----- the lists themselves -----

  /** The fields of the events that the lists use. */
  class Events {
    const next: array<int>
    const owner: array<int>
    const high: array<bool>    // priority == ET_HIGH

    ghost predicate Valid() {
      next.Length == owner.Length == high.Length && next != owner
    }

    constructor (nevents: nat)
      ensures Valid() && next.Length == nevents && fresh(next) && fresh(owner) && fresh(high)
      ensures forall e :: 0 <= e < nevents ==> owner[e] == ET_SYS && !high[e]
    {
      next := new int[nevents](_ => -1);
      owner := new int[nevents](_ => ET_SYS);
      high := new bool[nevents](_ => false);
    }
  }

  /** The owners after the events of pe were given to owner. */
  function Given(owners: seq<int>, pe: seq<nat>, owner: int): seq<int> {
    if pe == [] then owners
    else
      var r, e := Given(owners, pe[..|pe| - 1], owner), pe[|pe| - 1];
      if e < |r| then r[e := owner] else r
  }

  lemma {:induction false} GivenChangesOnlyThose(owners: seq<int>, pe: seq<nat>, owner: int)
    ensures |Given(owners, pe, owner)| == |owners|
    ensures forall e :: 0 <= e < |owners| ==> Given(owners, pe, owner)[e] == if e in pe then owner else owners[e]
  {
    if pe != [] {
      GivenChangesOnlyThose(owners, pe[..|pe| - 1], owner);
      assert pe == pe[..|pe| - 1] + [pe[|pe| - 1]];
    }
  }

  lemma GivenOneMore(owners: seq<int>, pe: seq<nat>, i: nat)
    requires i < |pe|
    ensures Given(owners, pe[..i + 1], ET_SYS) ==
            var r := Given(owners, pe[..i], ET_SYS); if pe[i] < |r| then r[pe[i] := ET_SYS] else r
  {
    assert pe[..i + 1][..i] == pe[..i];
  }

  /** s is linked from first to last through next. */
  ghost predicate Linked(s: seq<nat>, first: int, last: int, next: seq<int>) {
    && (forall i :: 0 <= i < |s| ==> s[i] < |next|)
    && Distinct(s)
    && (s != [] ==> first == s[0] && last == s[|s| - 1])
    && (forall i {:trigger next[s[i]]} :: 0 <= i < |s| - 1 ==> next[s[i]] == s[i + 1])
  }

  lemma LinkBack(s: seq<nat>, first: int, last: int, next: seq<int>, e: nat)
    requires Linked(s, first, last, next) && s != [] && e !in s && e < |next|
    ensures 0 <= last < |next| && Linked(s + [e], first, e, next[last := e])
  {
  }

  lemma LinkFront(s: seq<nat>, first: int, last: int, next: seq<int>, e: nat)
    requires Linked(s, first, last, next) && s != [] && e !in s && e < |next|
    ensures Linked([e] + s, e, last, next[e := first])
  {
  }

  lemma LinkAfter(s: seq<nat>, k: nat, first: int, last: int, next: seq<int>, e: nat)
    requires Linked(s, first, last, next) && 0 < k < |s| && e !in s && e < |next|
    ensures Linked(s[..k] + [e] + s[k..], first, last, next[e := next[s[k - 1]]][s[k - 1] := e])
  {
    var r := s[..k] + [e] + s[k..];
    assert forall i :: 0 <= i < |r| ==> r[i] == if i < k then s[i] else if i == k then e else s[i - 1];
    assert next[s[k - 1]] == s[k];
  }

  lemma LinkDrop(s: seq<nat>, n: nat, first: int, last: int, next: seq<int>)
    requires Linked(s, first, last, next) && 0 < n <= |s|
    ensures Linked(s[n..], next[s[n - 1]], last, next)
  {
  }

  /** s is linked through next, whatever its last link says. */
  ghost predicate Chained(s: seq<nat>, next: seq<int>) {
    && (forall i :: 0 <= i < |s| ==> s[i] < |next|)
    && Distinct(s)
    && (forall i {:trigger next[s[i]]} :: 0 <= i < |s| - 1 ==> next[s[i]] == s[i + 1])
  }

  lemma ChainedIsLinked(s: seq<nat>, next: seq<int>)
    requires s != [] && Chained(s, next) && Distinct(s) && forall i :: 0 <= i < |s| ==> s[i] < |next|
    ensures Linked(s, s[0], s[|s| - 1], next)
  {
  }

  /** p between the first k of s and the others. */
  function Spliced(s: seq<nat>, k: nat, p: seq<nat>): seq<nat>
    requires k <= |s|
  { s[..k] + p + s[k..] }

  lemma InsertAfter(s: seq<nat>, k: nat, next: seq<int>, e: nat, x: int)
    requires Chained(s, next) && k <= |s| && e !in s && e < |next| && (k < |s| ==> x == s[k])
    ensures Chained(s[..k] + [e] + s[k..], if k == 0 then next[e := x] else next[e := x][s[k - 1] := e])
  {
    var r := s[..k] + [e] + s[k..];
    assert forall i :: 0 <= i < |r| ==> r[i] == if i < k then s[i] else if i == k then e else s[i - 1];
    assert forall i :: 0 <= i < |s| ==> s[i] != e;
  }

  lemma SpliceOneMore(s: seq<nat>, k: nat, p: seq<nat>, n: nat, next: seq<int>, x: int)
    requires k <= |s| && 0 < n < |p| && Chained(Spliced(s, k, p[..n]), next) && (k < |s| ==> x == s[k])
    requires Distinct(p) && p[n] !in s && p[n] < |next|
    ensures p[n - 1] < |next| && Chained(Spliced(s, k, p[..n + 1]), next[p[n - 1] := p[n]][p[n] := x])
  {
    var r := Spliced(s, k, p[..n]);
    assert r[k + n - 1] == p[n - 1] && r[k + n..] == s[k..];
    assert p[n] !in r;
    InsertAfter(r, k + n, next, p[n], x);
    assert Spliced(s, k, p[..n + 1]) == r[..k + n] + [p[n]] + r[k + n..];
    assert next[p[n] := x][p[n - 1] := p[n]] == next[p[n - 1] := p[n]][p[n] := x];
  }

  lemma LastLinkIsFree(s: seq<nat>, next: seq<int>, e: nat, x: int)
    requires Chained(s, next) && e < |next| && (e !in s || s[|s| - 1] == e)
    ensures Chained(s, next[e := x])
  {
  }

  lemma SplicedEnds(s: seq<nat>, k: nat, p: seq<nat>, n: nat)
    requires k <= |s| && 0 < n <= |p| && s != []
    ensures var front := Spliced(s, k, p[..n]);
      && front != [] && |front + p[n..]| == |s| + |p| && (front + p[n..])[0] == front[0]
      && front[|front| - 1] == (if k == |s| then p[n - 1] else s[|s| - 1])
      && (front + p[n..])[|s| + |p| - 1] == (if n < |p| then p[|p| - 1] else front[|front| - 1])
      && forall e :: e in front ==> e in s || e in p
  {
  }

  lemma LowsAreNew(s: seq<nat>, k: nat, p: seq<nat>, n: nat)
    requires k <= |s| && n <= |p| && Distinct(p) && forall i :: 0 <= i < |p| ==> p[i] !in s
    ensures forall e :: e in p[n..] ==> e !in Spliced(s, k, p[..n])
  {
  }

  lemma StillChained(s: seq<nat>, next: seq<int>, later: seq<int>)
    requires Chained(s, next) && |later| == |next| && forall e :: e in s ==> later[e] == next[e]
    ensures Chained(s, later)
  {
  }

  lemma Joined(s: seq<nat>, p: seq<nat>, next: seq<int>)
    requires Chained(s, next) && Chained(p, next) && forall e :: e in p ==> e !in s
    requires s != [] && p != [] ==> next[s[|s| - 1]] == p[0]
    ensures Chained(s + p, next)
  {
    DistinctSum(s, p);
  }

  class EtList {
    var firstevent: int
    var lastevent: int
    var cnt: nat
    var lasthigh: nat
    ghost var contents: seq<nat>

    constructor ()
      ensures contents == [] && cnt == 0 && lasthigh == 0
    {
      firstevent, lastevent, cnt, lasthigh := -1, -1, 0, 0;
      contents := [];
    }

    ghost predicate Valid(ev: Events)
      reads this, ev.next
    {
      cnt == |contents| && Linked(contents, firstevent, lastevent, ev.next[..])
    }

    /** Output lists also keep the count of high-priority events, all at the front. */
    ghost predicate Ordered(ev: Events)
      reads this, ev.next, ev.high
    {
      && Valid(ev) && ev.Valid()
      && lasthigh <= cnt
      && forall i :: 0 <= i < |contents| ==> (IsHigh(ev.high[..], contents[i]) <==> i < lasthigh)
    }

    ghost predicate Takes(ev: Events, pe: seq<nat>)
      reads this
    {
      && (forall i :: 0 <= i < |pe| ==> pe[i] < ev.next.Length && pe[i] !in contents)
      && Distinct(pe)
    }

    /** Give one event back to the system as the only event of an empty list. */
    method PutFirst(ev: Events, e: nat)
      requires Valid(ev) && ev.Valid() && cnt == 0 && e < ev.next.Length
      modifies this`firstevent, this`lastevent, this`cnt, this`contents, ev.owner
      ensures Valid(ev) && contents == [e] && ev.owner[..] == old(ev.owner[..])[e := ET_SYS]
    {
      firstevent, lastevent := e, e;
      ev.owner[e] := ET_SYS;
      cnt, contents := 1, [e];
    }

    /** Link one event behind the last one. */
    method PutLast(ev: Events, e: nat)
      requires Valid(ev) && ev.Valid() && cnt > 0 && e < ev.next.Length && e !in contents
      modifies this`lastevent, this`cnt, this`contents, ev.next, ev.owner
      ensures Valid(ev) && contents == old(contents) + [e] && ev.owner[..] == old(ev.owner[..])[e := ET_SYS]
      ensures forall x :: 0 <= x < ev.next.Length && x !in contents ==> ev.next[x] == old(ev.next[x])
    {
      LinkBack(contents, firstevent, lastevent, ev.next[..], e);
      ev.next[lastevent] := e;
      lastevent := e;
      ev.owner[e] := ET_SYS;
      cnt, contents := cnt + 1, contents + [e];
    }

    /** Link one event behind the k-th one, or in front of all if k is 0. */
    method PutAfter(ev: Events, e: nat, ghost k: nat, pe_kth: int)
      requires Valid(ev) && ev.Valid() && e < ev.next.Length && e !in contents
      requires k < cnt && pe_kth == if k == 0 then -1 else contents[k - 1]
      modifies this`firstevent, this`cnt, this`contents, ev.next, ev.owner
      ensures Valid(ev) && contents == old(contents[..k] + [e] + contents[k..])
      ensures ev.owner[..] == old(ev.owner[..])[e := ET_SYS]
      ensures forall x :: 0 <= x < ev.next.Length && x !in contents ==> ev.next[x] == old(ev.next[x])
    {
      if pe_kth == -1 {
        LinkFront(contents, firstevent, lastevent, ev.next[..], e);
        ev.next[e] := firstevent;
        firstevent := e;
        assert contents[..k] + [e] + contents[k..] == [e] + contents;
      } else {
        LinkAfter(contents, k, firstevent, lastevent, ev.next[..], e);
        ev.next[e] := ev.next[pe_kth];
        ev.next[pe_kth] := e;
      }
      ev.owner[e] := ET_SYS;
      cnt, contents := cnt + 1, contents[..k] + [e] + contents[k..];
    }

    /** The list is hi, its high-priority events, and then lo; highs counts hi, and
        last is the last of them. */
    ghost predicate Split(hi: seq<nat>, lo: seq<nat>, highs: nat, last: int)
      reads this
    {
      contents == hi + lo && highs == |hi| && last == if highs == 0 then -1 else contents[highs - 1]
    }

    /** Link one event where its priority puts it: behind the high-priority events
        at the front, or behind all. */
    method PutOne(ev: Events, e: nat, highs: nat, last: int, ghost hi: seq<nat>, ghost lo: seq<nat>)
      returns (highs': nat, last': int, ghost hi': seq<nat>, ghost lo': seq<nat>)
      requires Valid(ev) && ev.Valid() && e < ev.next.Length && e !in contents && Split(hi, lo, highs, last)
      modifies this`firstevent, this`lastevent, this`cnt, this`contents, ev.next, ev.owner
      ensures Valid(ev) && Split(hi', lo', highs', last')
      ensures hi' == hi + (if ev.high[e] then [e] else []) && lo' == lo + if ev.high[e] then [] else [e]
      ensures ev.owner[..] == old(ev.owner[..])[e := ET_SYS]
      ensures forall x :: x in contents ==> x == e || x in old(contents)
      ensures forall x :: 0 <= x < ev.next.Length && x !in contents ==> ev.next[x] == old(ev.next[x])
    {
      if cnt == 0 {
        PutFirst(ev, e);
      } else if !ev.high[e] || highs == cnt {
        PutLast(ev, e);
      } else {
        PutAfter(ev, e, highs, last);
      }
      highs', last', hi', lo' := highs, last, hi, lo;
      if ev.high[e] {
        highs', last', hi' := highs + 1, e, hi + [e];
      } else {
        lo' := lo + [e];
      }
    }

    /** Where the writing of pe into a list that held s stands after i events. */
    ghost predicate Written(ev: Events, s: seq<nat>, pe: seq<nat>, i: nat, owners: seq<int>, next: seq<int>, highs: nat, last: int)
      requires i <= |pe|
      reads this, ev.next, ev.owner, ev.high
    {
      && ev.Valid() && Valid(ev) && |next| == ev.next.Length
      && Split(WithPriority(s + pe[..i], ev.high[..], true), WithPriority(s + pe[..i], ev.high[..], false), highs, last)
      && (forall j :: i <= j < |pe| ==> pe[j] !in contents)
      && (forall x :: x in contents ==> x in s || x in pe)
      && ev.owner[..] == Given(owners, pe[..i], ET_SYS)
      && (forall x :: 0 <= x < |next| && x !in s && x !in pe ==> ev.next[x] == next[x])
    }

    method PutNext(ev: Events, ghost s: seq<nat>, pe: seq<nat>, i: nat, ghost owners: seq<int>, ghost next: seq<int>, highs: nat, last: int)
      returns (highs': nat, last': int)
      requires i < |pe| && Distinct(pe) && pe[i] < ev.next.Length && Written(ev, s, pe, i, owners, next, highs, last)
      modifies this`firstevent, this`lastevent, this`cnt, this`contents, ev.next, ev.owner
      ensures Written(ev, s, pe, i + 1, owners, next, highs', last')
    {
      ghost var high := ev.high[..];
      OneMore(s, pe, i, high, true);
      OneMore(s, pe, i, high, false);
      GivenOneMore(owners, pe, i);
      ghost var hi, lo;
      highs', last', hi, lo := PutOne(ev, pe[i], highs, last,
        WithPriority(s + pe[..i], high, true), WithPriority(s + pe[..i], high, false));
    }

    /** Link the events of pe into a list that starts with its high-priority events,
        given how many they are and the last of them. */
    method PutAll(ev: Events, pe: seq<nat>, known: nat, lastknown: int) returns (highs: nat)
      requires Valid(ev) && ev.Valid() && Takes(ev, pe)
      requires Split(WithPriority(contents, ev.high[..], true), WithPriority(contents, ev.high[..], false), known, lastknown)
      modifies this`firstevent, this`lastevent, this`cnt, this`contents, ev.next, ev.owner
      ensures Valid(ev) && contents == ByPriority(old(contents) + pe, ev.high[..])
      ensures highs == |WithPriority(old(contents) + pe, ev.high[..], true)|
      ensures ev.owner[..] == Given(old(ev.owner[..]), pe, ET_SYS)
      ensures forall e :: 0 <= e < ev.next.Length && e !in old(contents) && e !in pe ==> ev.next[e] == old(ev.next[e])
    {
      ghost var s, owners, next := contents, ev.owner[..], ev.next[..];
      highs := known;
      var pe_lasthigh := lastknown;
      assert s + pe[..0] == s;
      for i := 0 to |pe|
        invariant Written(ev, s, pe, i, owners, next, highs, pe_lasthigh)
      {
        highs, pe_lasthigh := PutNext(ev, s, pe, i, owners, next, highs, pe_lasthigh);
      }
      assert pe[..|pe|] == pe;
    }

    /** et_station_nwrite: write events into an output list. */
    method NWrite(ev: Events, pe: seq<nat>) returns (ok: bool)
      requires Ordered(ev) && Takes(ev, pe)
      modifies this, ev.next, ev.owner
      ensures ok == (|pe| <= ev.next.Length - old(cnt))
      ensures Ordered(ev) && contents == if ok then ByPriority(old(contents) + pe, ev.high[..]) else old(contents)
      ensures ev.owner[..] == if ok then Given(old(ev.owner[..]), pe, ET_SYS) else old(ev.owner[..])
      ensures forall e :: 0 <= e < ev.next.Length && e !in old(contents) && e !in pe ==> ev.next[e] == old(ev.next[e])
    {
      SplitOrdered(contents, ev.high[..], lasthigh);
      assert contents == contents[..lasthigh] + contents[lasthigh..];
      if |pe| > ev.next.Length - cnt { return false; }
      var pe_lasthigh := -1;
      if lasthigh != 0 {
        pe_lasthigh := firstevent;
        for k := 1 to lasthigh
          invariant pe_lasthigh == contents[k - 1]
        {
          pe_lasthigh := ev.next[pe_lasthigh];
        }
      }
      WithPriorityHas(contents + pe, ev.high[..], true);
      WithPriorityHas(contents + pe, ev.high[..], false);
      lasthigh := PutAll(ev, pe, lasthigh, pe_lasthigh);
      return true;
    }

    /** et_station_nread: read up to num events from the front of an input list. */
    method NRead(ev: Events, att: int, num: nat) returns (pe: seq<nat>)
      requires Valid(ev) && ev.Valid()
      modifies this`firstevent, this`cnt, this`contents, ev.owner
      ensures Valid(ev)
      ensures pe == old(contents)[..if num < old(cnt) then num else old(cnt)] && contents == old(contents)[|pe|..]
      ensures ev.owner[..] == Given(old(ev.owner[..]), pe, att)
    {
      pe := [];
      if num < 1 || cnt < 1 { return; }
      var n := if num > cnt then cnt else num;
      ghost var s, next := contents, ev.next[..];
      pe := [firstevent];
      ev.owner[firstevent] := att;
      for i := 1 to n
        invariant pe == s[..i] && ev.next[..] == next
        invariant ev.owner[..] == Given(old(ev.owner[..]), s[..i], att)
        modifies ev.owner
      {
        var e := ev.next[pe[i - 1]];
        assert next[s[i - 1]] == s[i];
        assert s[..i + 1][..i] == s[..i];
        pe := pe + [e];
        ev.owner[e] := att;
      }
      LinkDrop(s, n, firstevent, lastevent, next);
      firstevent := ev.next[pe[n - 1]];
      cnt, contents := cnt - n, s[n..];
    }

    /** et_station_ndump: append events to GrandCentral's input list, whatever their priority. */
    method NDump(ev: Events, pe: seq<nat>) returns (ok: bool)
      requires Valid(ev) && ev.Valid() && Takes(ev, pe)
      modifies this`firstevent, this`lastevent, this`cnt, this`contents, ev.next, ev.owner
      ensures ok == (|pe| <= ev.next.Length - old(cnt))
      ensures Valid(ev) && contents == if ok then old(contents) + pe else old(contents)
      ensures ev.owner[..] == if ok then Given(old(ev.owner[..]), pe, ET_SYS) else old(ev.owner[..])
      ensures forall e :: 0 <= e < ev.next.Length && e !in old(contents) && e !in pe ==> ev.next[e] == old(ev.next[e])
    {
      if |pe| > ev.next.Length - cnt { return false; }
      for i := 0 to |pe|
        invariant ev.Valid() && Valid(ev) && contents == old(contents) + pe[..i]
        invariant ev.owner[..] == Given(old(ev.owner[..]), pe[..i], ET_SYS)
        invariant forall e :: 0 <= e < ev.next.Length && e !in old(contents) && e !in pe ==> ev.next[e] == old(ev.next[e])
      {
        if cnt == 0 {
          PutFirst(ev, pe[i]);
        } else {
          PutLast(ev, pe[i]);
        }
        assert pe[..i + 1][..i] == pe[..i];
      }
      assert pe[..|pe|] == pe;
      return true;
    }

    /** et_llist_read: the conductor takes the whole list. */
    method TakeAll(ev: Events) returns (pe: seq<nat>)
      requires Valid(ev) && ev.Valid()
      modifies this
      ensures pe == old(contents) && contents == [] && Valid(ev) && (old(cnt) > 0 ==> lasthigh == 0)
    {
      pe := [];
      if cnt == 0 { return; }
      pe := [firstevent];
      for i := 1 to cnt
        invariant pe == contents[..i]
      {
        assert ev.next[pe[i - 1]] == contents[i];
        pe := pe + [ev.next[pe[i - 1]]];
      }
      firstevent, cnt, lasthigh := -1, 0, 0;
      contents := [];
    }

    /** String the events of pe together, from one of them on. */
    method StringTogether(ev: Events, pe: seq<nat>, from: nat)
      requires ev.Valid() && from < |pe| && Distinct(pe) && forall i :: 0 <= i < |pe| ==> pe[i] < ev.next.Length
      modifies ev.next
      ensures Chained(pe[from..], ev.next[..])
      ensures forall x :: 0 <= x < ev.next.Length && x !in pe[from..] ==> ev.next[x] == old(ev.next[x])
    {
      for i := from + 1 to |pe|
        invariant forall j {:trigger ev.next[pe[j]]} :: from <= j < i - 1 ==> ev.next[pe[j]] == pe[j + 1]
        invariant forall x :: 0 <= x < ev.next.Length && x !in pe[from..] ==> ev.next[x] == old(ev.next[x])
      {
        assert pe[from..][i - 1 - from] == pe[i - 1];
        ev.next[pe[i - 1]] := pe[i];
      }
    }

    /** The events at the front that have high priority: how many, the last of them, and
        where the others start, if there are others. */
    method CountHighs(ev: Events) returns (high_cnt: nat, pe_lasthigh: int, pevent: int)
      requires Valid(ev) && ev.Valid() && ByPriority(contents, ev.high[..]) == contents
      ensures high_cnt <= cnt && pe_lasthigh == if high_cnt == 0 then -1 else contents[high_cnt - 1]
      ensures high_cnt < cnt ==> pevent == contents[high_cnt]
      ensures WithPriority(contents, ev.high[..], true) == contents[..high_cnt]
      ensures WithPriority(contents, ev.high[..], false) == contents[high_cnt..]
    {
      high_cnt, pe_lasthigh, pevent := FindLow(ev);
      LeadingHighs(contents, ev.high[..], high_cnt);
    }

    /** Its loop. */
    method FindLow(ev: Events) returns (high_cnt: nat, pe_lasthigh: int, pevent: int)
      requires Valid(ev) && ev.Valid()
      ensures high_cnt <= cnt && pe_lasthigh == if high_cnt == 0 then -1 else contents[high_cnt - 1]
      ensures high_cnt < cnt ==> pevent == contents[high_cnt] && !IsHigh(ev.high[..], contents[high_cnt])
      ensures forall i :: 0 <= i < high_cnt ==> IsHigh(ev.high[..], contents[i])
    {
      high_cnt, pe_lasthigh, pevent := 0, -1, firstevent;
      while high_cnt < cnt && ev.high[pevent]
        invariant high_cnt <= cnt && forall i :: 0 <= i < high_cnt ==> IsHigh(ev.high[..], contents[i])
        invariant high_cnt < cnt ==> pevent == contents[high_cnt]
        invariant pe_lasthigh == if high_cnt == 0 then -1 else contents[high_cnt - 1]
      {
        high_cnt, pe_lasthigh := high_cnt + 1, pevent;
        if high_cnt < cnt { pevent := ev.next[pevent]; }
      }
    }

    /** One event behind the first k, the last of which is given. */
    method LinkHigh(ev: Events, e: nat, ghost k: nat, pe_lasthigh: int)
      requires Valid(ev) && ev.Valid() && e < ev.next.Length && e !in contents && k <= cnt && cnt > 0
      requires pe_lasthigh == if k == 0 then -1 else contents[k - 1]
      modifies this`firstevent, ev.next
      ensures Chained(contents[..k] + [e] + contents[k..], ev.next[..])
      ensures firstevent == (contents[..k] + [e] + contents[k..])[0]
      ensures forall x :: 0 <= x < ev.next.Length && x !in contents && x != e ==> ev.next[x] == old(ev.next[x])
    {
      InsertAfter(contents, k, ev.next[..], e, if pe_lasthigh != -1 then ev.next[pe_lasthigh] else firstevent);
      if pe_lasthigh != -1 {
        ev.next[e] := ev.next[pe_lasthigh];
        ev.next[pe_lasthigh] := e;
      } else {
        ev.next[e] := firstevent;
        firstevent := e;
      }
    }

    /** Put the high-priority events at the front of pe, of which there are some, between
        the first k events of the list and the rest, which starts at pevent. */
    method SpliceHighs(ev: Events, pe: seq<nat>, ghost k: nat, pe_lasthigh: int, pevent: int) returns (num_high: nat)
      requires Valid(ev) && ev.Valid() && Takes(ev, pe) && pe != [] && IsHigh(ev.high[..], pe[0]) && k <= cnt && cnt > 0
      requires pe_lasthigh == (if k == 0 then -1 else contents[k - 1]) && (k < cnt ==> pevent == contents[k])
      modifies this`firstevent, ev.next
      ensures 0 < num_high <= |pe| && (num_high < |pe| ==> !IsHigh(ev.high[..], pe[num_high]))
      ensures forall i :: 0 <= i < num_high ==> IsHigh(ev.high[..], pe[i])
      ensures Chained(Spliced(contents, k, pe[..num_high]), ev.next[..])
      ensures firstevent == Spliced(contents, k, pe[..num_high])[0]
      ensures forall x :: 0 <= x < ev.next.Length && x !in contents && x !in pe ==> ev.next[x] == old(ev.next[x])
    {
      LinkHigh(ev, pe[0], k, pe_lasthigh);
      assert Spliced(contents, k, pe[..1]) == contents[..k] + [pe[0]] + contents[k..];
      num_high := 1;
      while num_high < |pe| && ev.high[pe[num_high]]
        invariant 0 < num_high <= |pe| && forall i :: 0 <= i < num_high ==> IsHigh(ev.high[..], pe[i])
        invariant Chained(Spliced(contents, k, pe[..num_high]), ev.next[..])
        invariant firstevent == Spliced(contents, k, pe[..num_high])[0]
        invariant forall x :: 0 <= x < ev.next.Length && x !in contents && x !in pe ==> ev.next[x] == old(ev.next[x])
      {
        SpliceOneMore(contents, k, pe, num_high, ev.next[..], pevent);
        ev.next[pe[num_high - 1]] := pe[num_high];
        ev.next[pe[num_high]] := pevent;
        num_high := num_high + 1;
      }
    }

    /** Events of low priority, or into an empty list: behind all others, as they are. */
    method Append(ev: Events, pe: seq<nat>)
      requires Valid(ev) && ev.Valid() && Takes(ev, pe) && pe != []
      modifies this`firstevent, this`lastevent, this`cnt, this`contents, ev.next
      ensures Valid(ev) && contents == old(contents) + pe
      ensures forall e :: 0 <= e < ev.next.Length && e !in old(contents) && e !in pe ==> ev.next[e] == old(ev.next[e])
    {
      if cnt == 0 {
        AppendFirst(ev, pe);
      } else {
        AppendMore(ev, pe);
      }
    }

    method AppendFirst(ev: Events, pe: seq<nat>)
      requires Valid(ev) && ev.Valid() && Takes(ev, pe) && pe != [] && cnt == 0
      modifies this`firstevent, this`lastevent, this`cnt, this`contents, ev.next
      ensures Valid(ev) && contents == old(contents) + pe
      ensures forall e :: 0 <= e < ev.next.Length && e !in pe ==> ev.next[e] == old(ev.next[e])
    {
      assert pe[0..] == pe && contents + pe == pe;
      firstevent, lastevent, cnt, contents := pe[0], pe[|pe| - 1], |pe|, pe;
      StringTogether(ev, pe, 0);
      ChainedIsLinked(pe, ev.next[..]);
    }

    method AppendMore(ev: Events, pe: seq<nat>)
      requires Valid(ev) && ev.Valid() && Takes(ev, pe) && cnt > 0
      modifies this`lastevent, this`cnt, this`contents, ev.next
      ensures Valid(ev) && contents == old(contents) + pe
      ensures forall e :: 0 <= e < ev.next.Length && e !in old(contents) && e !in pe ==> ev.next[e] == old(ev.next[e])
    {
      assert pe[0..] == pe;
      AddLows(ev, pe, 0, contents);
      cnt, contents := cnt + |pe|, contents + pe;
    }

    /** The low-priority events of pe, if any, behind those already linked. */
    method AddLows(ev: Events, pe: seq<nat>, num_high: nat, ghost front: seq<nat>)
      requires ev.Valid() && Distinct(pe) && num_high <= |pe| && forall i :: 0 <= i < |pe| ==> pe[i] < ev.next.Length
      requires Linked(front, firstevent, lastevent, ev.next[..]) && front != []
      requires forall e :: e in pe[num_high..] ==> e !in front
      modifies this`lastevent, ev.next
      ensures Linked(front + pe[num_high..], firstevent, lastevent, ev.next[..])
      ensures forall x :: 0 <= x < ev.next.Length && x !in front && x !in pe ==> ev.next[x] == old(ev.next[x])
    {
      if num_high == |pe| {
        assert front + pe[num_high..] == front;
        return;
      }
      ghost var next := ev.next[..];
      StringTogether(ev, pe, num_high);
      StillChained(front, next, ev.next[..]);
      next := ev.next[..];
      ev.next[lastevent] := pe[num_high];
      LastLinkIsFree(front, next, lastevent, pe[num_high]);
      LastLinkIsFree(pe[num_high..], next, lastevent, pe[num_high]);
      Joined(front, pe[num_high..], ev.next[..]);
      lastevent := pe[|pe| - 1];
    }

    /** The high-priority events of pe behind the first k of the list, the others behind all. */
    method Weave(ev: Events, pe: seq<nat>, k: nat, pe_lasthigh: int, pevent: int) returns (num_high: nat)
      requires Valid(ev) && ev.Valid() && Takes(ev, pe) && pe != [] && IsHigh(ev.high[..], pe[0]) && k <= cnt && cnt > 0
      requires pe_lasthigh == (if k == 0 then -1 else contents[k - 1]) && (k < cnt ==> pevent == contents[k])
      modifies this`firstevent, this`lastevent, this`cnt, this`contents, ev.next
      ensures 0 < num_high <= |pe| && (num_high < |pe| ==> !IsHigh(ev.high[..], pe[num_high]))
      ensures forall i :: 0 <= i < num_high ==> IsHigh(ev.high[..], pe[i])
      ensures Valid(ev) && contents == old(contents)[..k] + pe[..num_high] + old(contents)[k..] + pe[num_high..]
      ensures forall e :: 0 <= e < ev.next.Length && e !in old(contents) && e !in pe ==> ev.next[e] == old(ev.next[e])
    {
      num_high := SpliceHighs(ev, pe, k, pe_lasthigh, pevent);
      SplicedEnds(contents, k, pe, num_high);
      LowsAreNew(contents, k, pe, num_high);
      if k == cnt { lastevent := pe[num_high - 1]; }
      ghost var front := Spliced(contents, k, pe[..num_high]);
      AddLows(ev, pe, num_high, front);
      cnt, contents := cnt + |pe|, front + pe[num_high..];
    }

    /** Events of which the first has high priority, into a list that has some. */
    method Splice(ev: Events, pe: seq<nat>)
      requires Valid(ev) && ev.Valid() && Takes(ev, pe) && pe != [] && cnt > 0 && ev.high[pe[0]]
      requires ByPriority(contents, ev.high[..]) == contents && ByPriority(pe, ev.high[..]) == pe
      modifies this`firstevent, this`lastevent, this`cnt, this`contents, ev.next
      ensures Valid(ev) && contents == ByPriority(old(contents) + pe, ev.high[..])
      ensures forall e :: 0 <= e < ev.next.Length && e !in old(contents) && e !in pe ==> ev.next[e] == old(ev.next[e])
    {
      var high_cnt, pe_lasthigh, pevent := CountHighs(ev);
      ghost var s := contents;
      var num_high := Weave(ev, pe, high_cnt, pe_lasthigh, pevent);
      SplicedIs(s, high_cnt, pe, num_high, ev.high[..]);
    }

    /** et_llist_write: the conductor writes events, at least one, into a station's input
        list. Both the list and the events it brings have those of high priority first. */
    method Deliver(ev: Events, pe: seq<nat>) returns (num: nat)
      requires Valid(ev) && ev.Valid() && Takes(ev, pe) && pe != []
      requires ByPriority(contents, ev.high[..]) == contents && ByPriority(pe, ev.high[..]) == pe
      modifies this`firstevent, this`lastevent, this`cnt, this`contents, ev.next
      ensures num == |pe| && Valid(ev) && contents == ByPriority(old(contents) + pe, ev.high[..])
      ensures forall e :: 0 <= e < ev.next.Length && e !in old(contents) && e !in pe ==> ev.next[e] == old(ev.next[e])
    {
      var n, room := |pe|, ev.next.Length - cnt;
      if n > room { n := room; }
      AlwaysFits(contents, pe, ev.next.Length);
      num := n;
      assert pe[..num] == pe;
      if !ev.high[pe[0]] || cnt == 0 {
        AppendedIs(contents, pe, ev.high[..]);
        Append(ev, pe[..num]);
      } else {
        Splice(ev, pe[..num]);
      }
    }
  }
}
