/** Ordering IP addresses by subnet (codanetOrderIpAddrs).

    Addresses on the preferred local subnet come first, then those on other local
    subnets, then the rest. Two lists are linked up while the addresses are walked, and
    joined at the end. */
module AddressOrder {
  import opened Options

  datatype Address = Address(addr: string, bcast: string)

  datatype Where = Preferred | SameSubnet | Elsewhere

  // ----- what the order should be -----

  /** A dotted-decimal address has 7 to 15 characters. */
  predicate DottedDecimal(s: string) { 7 <= |s| <= 15 }

  /** Whether a broadcast address is that of a local subnet. The search ends at a local
      interface that has no broadcast address, and does not begin with a faulty one. */
  predicate Local(locals: seq<string>, bcast: string) {
    |locals| > 0 && |locals[0]| > 0 && DottedDecimal(bcast) && (locals[0] == bcast || Local(locals[1..], bcast))
  }

  function Place(locals: seq<string>, preferred: Option<string>, a: Address): Where {
    if !Local(locals, a.bcast) then Elsewhere
    else if preferred == Some(a.bcast) then Preferred
    else SameSubnet
  }

  /** What is kept of an address. */
  function Kept(a: Address): Address {
    Address(a.addr, if DottedDecimal(a.bcast) then a.bcast else "")
  }

  /** The addresses of one kind, in order of arrival, the faulty ones left out. */
  function Those(locals: seq<string>, preferred: Option<string>, items: seq<Address>, w: Where): seq<Address> {
    if |items| == 0 then []
    else
      var a := items[|items| - 1];
      Those(locals, preferred, items[..|items| - 1], w)
      + if DottedDecimal(a.addr) && Place(locals, preferred, a) == w then [Kept(a)] else []
  }

  function Reverse<T>(s: seq<T>): seq<T> {
    if |s| == 0 then [] else [s[|s| - 1]] + Reverse(s[..|s| - 1])
  }

  function Regular(locals: seq<string>, preferred: Option<string>, items: seq<Address>): seq<Address> {
    Reverse(Those(locals, preferred, items, SameSubnet)) + Those(locals, preferred, items, Elsewhere)
  }

  function PreferredPart(locals: seq<string>, preferred: Option<string>, items: seq<Address>): seq<Address> {
    Reverse(Those(locals, preferred, items, Preferred))
  }

  function Ordered(locals: seq<string>, preferred: Option<string>, items: seq<Address>): seq<Address> {
    PreferredPart(locals, preferred, items) + Regular(locals, preferred, items)
  }

  /** How many items are on the preferred subnet, the faulty ones counted too. */
  function PreferredCount(locals: seq<string>, preferred: Option<string>, items: seq<Address>): nat {
    if |items| == 0 then 0
    else
      PreferredCount(locals, preferred, items[..|items| - 1])
      + if Place(locals, preferred, items[|items| - 1]) == Preferred then 1 else 0
  }

  lemma ThoseMore(locals: seq<string>, preferred: Option<string>, items: seq<Address>, w: Where)
    requires |items| > 0
    ensures var a, was := items[|items| - 1], Those(locals, preferred, items[..|items| - 1], w);
      Those(locals, preferred, items, w) ==
        if DottedDecimal(a.addr) && Place(locals, preferred, a) == w then was + [Kept(a)] else was
  {
    var was := Those(locals, preferred, items[..|items| - 1], w);
    assert was + [] == was;
  }

  lemma ReverseMore<T>(s: seq<T>, x: T)
    ensures Reverse(s + [x]) == [x] + Reverse(s)
  {
    assert (s + [x])[..|s|] == s;
  }

  // ----- the same, place by place -----

  /** A broadcast address of a local subnet: all local interfaces up to it have one. */
  ghost predicate OnSubnet(locals: seq<string>, bcast: string) {
    7 <= |bcast| <= 15 && exists k :: 0 <= k < |locals| && locals[k] == bcast && forall j :: 0 <= j <= k ==> |locals[j]| > 0
  }

  /** The lower, the earlier. */
  ghost function Rank(locals: seq<string>, preferred: Option<string>, a: Address): nat {
    if !OnSubnet(locals, a.bcast) then 2 else if preferred == Some(a.bcast) then 0 else 1
  }

  /** List r holds the good addresses of items, each once: r[p] is what is kept of item
      from[p]. Those of lower rank come first; within a rank the last comes first, but not
      among those on no local subnet. */
  ghost predicate Arranged(locals: seq<string>, preferred: Option<string>, items: seq<Address>, r: seq<Address>, from: seq<nat>) {
    && |from| == |r|
    && (forall p :: 0 <= p < |r| ==> from[p] < |items| && IsKept(items[from[p]], r[p]))
    && (forall i: nat :: i < |items| && 7 <= |items[i].addr| <= 15 ==> i in from)
    && (forall p, q :: 0 <= p < q < |r| ==>
          from[p] < |items| && from[q] < |items| && Precedes(locals, preferred, items, from[p], from[q]))
  }

  predicate IsKept(a: Address, k: Address) {
    7 <= |a.addr| <= 15 && k.addr == a.addr && k.bcast == if 7 <= |a.bcast| <= 15 then a.bcast else ""
  }

  ghost predicate Precedes(locals: seq<string>, preferred: Option<string>, items: seq<Address>, i: nat, j: nat)
    requires i < |items| && j < |items|
  {
    var a, b := Rank(locals, preferred, items[i]), Rank(locals, preferred, items[j]);
    a < b || (a == b && if a == 2 then i < j else j < i)
  }

  /** Which items Those takes. */
  function Which(locals: seq<string>, preferred: Option<string>, items: seq<Address>, w: Where): seq<nat> {
    if |items| == 0 then []
    else
      var a := items[|items| - 1];
      Which(locals, preferred, items[..|items| - 1], w)
      + if DottedDecimal(a.addr) && Place(locals, preferred, a) == w then [|items| - 1] else []
  }

  /** What is kept of item i, of that kind. */
  predicate TakenAs(locals: seq<string>, preferred: Option<string>, items: seq<Address>, w: Where, k: Address, i: nat) {
    i < |items| && IsKept(items[i], k) && Place(locals, preferred, items[i]) == w
  }

  lemma {:induction false} WhichAre(locals: seq<string>, preferred: Option<string>, items: seq<Address>, w: Where)
    ensures var ks, those := Which(locals, preferred, items, w), Those(locals, preferred, items, w);
      && |ks| == |those|
      && (forall p :: 0 <= p < |ks| ==> TakenAs(locals, preferred, items, w, those[p], ks[p]))
      && (forall p, q :: 0 <= p < q < |ks| ==> ks[p] < ks[q])
  {
    if |items| > 0 {
      var front := items[..|items| - 1];
      WhichAre(locals, preferred, front, w);
      var ks, those := Which(locals, preferred, front, w), Those(locals, preferred, front, w);
      assert forall p :: 0 <= p < |ks| ==> TakenAs(locals, preferred, front, w, those[p], ks[p]);
    }
  }

  lemma {:induction false} WhichHas(locals: seq<string>, preferred: Option<string>, items: seq<Address>, w: Where)
    ensures forall i: nat :: i < |items| && DottedDecimal(items[i].addr) && Place(locals, preferred, items[i]) == w ==>
      i in Which(locals, preferred, items, w)
  {
    if |items| > 0 {
      WhichHas(locals, preferred, items[..|items| - 1], w);
      forall i: nat | i < |items| && DottedDecimal(items[i].addr) && Place(locals, preferred, items[i]) == w
        ensures i in Which(locals, preferred, items, w)
      {
        if i < |items| - 1 { assert items[..|items| - 1][i] == items[i]; }
      }
    }
  }

  lemma {:induction false} ReverseLength<T>(s: seq<T>)
    ensures |Reverse(s)| == |s| && forall x :: x in s ==> x in Reverse(s)
  {
    if |s| > 0 { ReverseLength(s[..|s| - 1]); }
  }

  lemma {:induction false} ReverseAt<T>(s: seq<T>, p: nat)
    requires p < |s|
    ensures |Reverse(s)| == |s| && Reverse(s)[p] == s[|s| - 1 - p]
  {
    ReverseLength(s);
    ReverseLength(s[..|s| - 1]);
    if p > 0 { ReverseAt(s[..|s| - 1], p - 1); }
  }

  lemma RankIs(locals: seq<string>, preferred: Option<string>, a: Address)
    ensures Rank(locals, preferred, a) ==
      match Place(locals, preferred, a) { case Preferred => 0 case SameSubnet => 1 case Elsewhere => 2 }
  {
    LocalIff(locals, a.bcast);
  }

  // ----- the lists -----

  class Item {
    const value: Address
    var next: Item?

    constructor (value: Address)
      ensures this.value == value && next == null
    {
      this.value, next := value, null;
    }
  }

  /** The items are linked in this order, and the last one ends the list. */
  ghost predicate Linked(items: seq<Item>)
    reads items
  {
    && (forall i, j :: 0 <= i < j < |items| ==> items[i] != items[j])
    && (forall i :: 0 <= i < |items| - 1 ==> items[i].next == items[i + 1])
    && (|items| > 0 ==> items[|items| - 1].next == null)
  }

  ghost function Values(items: seq<Item>): (r: seq<Address>)
    ensures |r| == |items|
  {
    seq(|items|, i requires 0 <= i < |items| => items[i].value)
  }

  /** A list, by its first and last item. */
  class Chain {
    var first: Item?
    var last: Item?
    ghost var items: seq<Item>
    ghost var nodes: set<Item>

    ghost predicate Valid()
      reads this, nodes
    {
      && (forall i :: 0 <= i < |items| ==> items[i] in nodes)
      && Linked(items)
      && (|items| == 0 ==> first == null && last == null)
      && (|items| > 0 ==> first == items[0] && last == items[|items| - 1])
    }

    constructor ()
      ensures Valid() && items == [] && nodes == {}
    {
      first, last, items, nodes := null, null, [], {};
    }

    method PutFirst(item: Item)
      requires Valid() && item !in nodes && item.next == null
      modifies this, item
      ensures Valid() && nodes == old(nodes) + {item} && Values(items) == [item.value] + old(Values(items))
    {
      if first == null {
        first, last := item, item;
      } else {
        item.next := first;
        first := item;
      }
      items := [item] + items;
      nodes := nodes + {item};
    }

    method PutLast(item: Item)
      requires Valid() && item !in nodes && item.next == null
      modifies this, nodes
      ensures Valid() && nodes == old(nodes) + {item} && Values(items) == old(Values(items)) + [item.value]
    {
      if first == null {
        first, last := item, item;
      } else {
        last.next := item;
        last := item;
      }
      items := items + [item];
      nodes := nodes + {item};
    }

    /** Another list behind this one. */
    method Join(other: Chain)
      requires Valid() && other.Valid() && other != this && items != [] && nodes !! other.nodes
      modifies this, nodes
      ensures Valid() && items == old(items) + other.items && first == old(first)
    {
      last.next := other.first;
      items := items + other.items;
      nodes := nodes + other.nodes;
      if other.last != null { last := other.last; }
    }
  }

  /** The loop over the local interfaces. */
  method Compare(netinfo: seq<string>, preferred: Option<string>, bcast: string) returns (onSame: bool, onPreferred: bool)
    ensures onSame == Local(netinfo, bcast) && onPreferred == (onSame && preferred == Some(bcast))
  {
    onSame, onPreferred := false, false;
    var local := 0;
    while local < |netinfo|
      invariant local <= |netinfo| && !onSame && !onPreferred
      invariant Local(netinfo, bcast) == Local(netinfo[local..], bcast)
    {
      assert netinfo[local..][0] == netinfo[local] && netinfo[local..][1..] == netinfo[local + 1..];
      if |netinfo[local]| < 1 || |bcast| < 7 || |bcast| > 15 { break; }
      if netinfo[local] == bcast {
        onSame := true;
        if preferred != None && preferred.value == bcast { onPreferred := true; }
        break;
      }
      local := local + 1;
    }
  }

  /** Two separate lists with these addresses. */
  ghost predicate Holding(pref: Chain, reg: Chain, ps: seq<Address>, rs: seq<Address>)
    reads pref, pref.nodes, reg, reg.nodes
  {
    && pref != reg && pref.Valid() && reg.Valid() && pref.nodes !! reg.nodes
    && Values(pref.items) == ps && Values(reg.items) == rs
  }

  method AddPreferred(pref: Chain, reg: Chain, a: Address, ghost ps: seq<Address>, ghost rs: seq<Address>)
    requires Holding(pref, reg, ps, rs)
    modifies pref
    ensures Holding(pref, reg, [a] + ps, rs) && fresh(pref.nodes - old(pref.nodes))
  {
    var item := new Item(a);
    pref.PutFirst(item);
  }

  method AddSame(pref: Chain, reg: Chain, a: Address, ghost ps: seq<Address>, ghost rs: seq<Address>)
    requires Holding(pref, reg, ps, rs)
    modifies reg
    ensures Holding(pref, reg, ps, [a] + rs) && fresh(reg.nodes - old(reg.nodes))
  {
    var item := new Item(a);
    reg.PutFirst(item);
  }

  method AddOther(pref: Chain, reg: Chain, a: Address, ghost ps: seq<Address>, ghost rs: seq<Address>)
    requires Holding(pref, reg, ps, rs)
    modifies reg, reg.nodes
    ensures Holding(pref, reg, ps, rs + [a]) && fresh(reg.nodes - old(reg.nodes))
  {
    var item := new Item(a);
    reg.PutLast(item);
  }

  datatype Pair = Pair(ps: seq<Address>, rs: seq<Address>)

  /** Where one more address goes. */
  function Next(locals: seq<string>, preferred: Option<string>, a: Address, s: Pair): Pair {
    if !DottedDecimal(a.addr) then s
    else
      match Place(locals, preferred, a)
      case Preferred => Pair([Kept(a)] + s.ps, s.rs)
      case SameSubnet => Pair(s.ps, [Kept(a)] + s.rs)
      case Elsewhere => Pair(s.ps, s.rs + [Kept(a)])
  }

  function Fold(locals: seq<string>, preferred: Option<string>, items: seq<Address>): Pair {
    if |items| == 0 then Pair([], [])
    else Next(locals, preferred, items[|items| - 1], Fold(locals, preferred, items[..|items| - 1]))
  }

  /** One turn of the loop over the given addresses. */
  method Sort(pref: Chain, reg: Chain, netinfo: seq<string>, preferred: Option<string>, a: Address, ghost s: Pair)
    returns (count: nat, ghost t: Pair)
    requires Holding(pref, reg, s.ps, s.rs)
    modifies pref, reg, reg.nodes
    ensures t == Next(netinfo, preferred, a, s) && Holding(pref, reg, t.ps, t.rs)
    ensures count == if Place(netinfo, preferred, a) == Preferred then 1 else 0
    ensures fresh(pref.nodes - old(pref.nodes)) && fresh(reg.nodes - old(reg.nodes))
  {
    t := Next(netinfo, preferred, a, s);
    var onSame, onPreferred := Compare(netinfo, preferred, a.bcast);
    count := if onPreferred then 1 else 0;
    if |a.addr| < 7 || |a.addr| > 15 { return; }
    if onPreferred {
      AddPreferred(pref, reg, Kept(a), s.ps, s.rs);
    } else if onSame {
      AddSame(pref, reg, Kept(a), s.ps, s.rs);
    } else {
      AddOther(pref, reg, Kept(a), s.ps, s.rs);
    }
  }

  lemma FoldMore(locals: seq<string>, preferred: Option<string>, items: seq<Address>, i: nat)
    requires i < |items|
    ensures Fold(locals, preferred, items[..i + 1]) == Next(locals, preferred, items[i], Fold(locals, preferred, items[..i]))
    ensures PreferredCount(locals, preferred, items[..i + 1]) ==
            PreferredCount(locals, preferred, items[..i]) + if Place(locals, preferred, items[i]) == Preferred then 1 else 0
  {
    assert items[..i + 1][..i] == items[..i];
  }

  /** The loop over the given addresses. */
  method SortAll(pref: Chain, reg: Chain, ipList: seq<Address>, netinfo: seq<string>, preferred: Option<string>)
    returns (count: nat, ghost s: Pair)
    requires Holding(pref, reg, [], []) && pref.nodes == {} && reg.nodes == {}
    modifies pref, reg
    ensures s == Fold(netinfo, preferred, ipList) && Holding(pref, reg, s.ps, s.rs)
    ensures count == PreferredCount(netinfo, preferred, ipList) && fresh(pref.nodes) && fresh(reg.nodes)
  {
    count, s := 0, Pair([], []);
    for i := 0 to |ipList|
      invariant s == Fold(netinfo, preferred, ipList[..i]) && count == PreferredCount(netinfo, preferred, ipList[..i])
      invariant Holding(pref, reg, s.ps, s.rs) && fresh(pref.nodes) && fresh(reg.nodes)
    {
      FoldMore(netinfo, preferred, ipList, i);
      var more;
      more, s := Sort(pref, reg, netinfo, preferred, ipList[i], s);
      count := count + more;
    }
    assert ipList[..|ipList|] == ipList;
  }

  /** The two lists are what they should be. */
  lemma {:induction false} FoldIs(locals: seq<string>, preferred: Option<string>, items: seq<Address>)
    ensures Fold(locals, preferred, items) == Pair(PreferredPart(locals, preferred, items), Regular(locals, preferred, items))
  {
    if |items| > 0 {
      var front, a := items[..|items| - 1], items[|items| - 1];
      FoldIs(locals, preferred, front);
      ThoseMore(locals, preferred, items, Preferred);
      ThoseMore(locals, preferred, items, SameSubnet);
      ThoseMore(locals, preferred, items, Elsewhere);
      ReverseMore(Those(locals, preferred, front, SameSubnet), Kept(a));
      ReverseMore(Those(locals, preferred, front, Preferred), Kept(a));
      Assoc([Kept(a)], Reverse(Those(locals, preferred, front, SameSubnet)), Those(locals, preferred, front, Elsewhere));
      Assoc(Reverse(Those(locals, preferred, front, SameSubnet)), Those(locals, preferred, front, Elsewhere), [Kept(a)]);
    }
  }

  lemma Assoc(r: seq<Address>, s: seq<Address>, t: seq<Address>)
    ensures (r + s) + t == r + (s + t)
  {
  }

  /** codanetOrderIpAddrs. */
  method OrderIpAddrs(ipList: seq<Address>, netinfo: seq<string>, preferred: Option<string>)
    returns (head: Item?, noSubnetMatch: Option<int>, ghost items: seq<Item>, ghost from: seq<nat>)
    ensures |ipList| == 0 ==> noSubnetMatch == None
    ensures |ipList| > 0 ==>
      noSubnetMatch == Some(if preferred != None && PreferredCount(netinfo, preferred, ipList) == 0 then 1 else 0)
    ensures Linked(items) && Values(items) == Ordered(netinfo, preferred, ipList)
    ensures Arranged(netinfo, preferred, ipList, Values(items), from)
    ensures |ipList| > 0 ==> (noSubnetMatch == Some(1) <==>
      preferred.Some? && forall i :: 0 <= i < |ipList| ==> Rank(netinfo, preferred, ipList[i]) > 0)
    ensures head == if |items| == 0 then null else items[0]
  {
    items, noSubnetMatch := [], None;
    from := OrderedArranges(netinfo, preferred, ipList);
    NoneMatchesIff(netinfo, preferred, ipList);
    if |ipList| == 0 { return null, noSubnetMatch, items, from; }
    var pref := new Chain();
    var reg := new Chain();
    var preferredCount;
    ghost var s;
    preferredCount, s := SortAll(pref, reg, ipList, netinfo, preferred);
    FoldIs(netinfo, preferred, ipList);
    noSubnetMatch := Some(if preferred != None && preferredCount < 1 then 1 else 0);
    head, items := Combine(pref, reg);
  }

  /** The end of it: the preferred list in front of the regular one. */
  method Combine(pref: Chain, reg: Chain) returns (head: Item?, ghost items: seq<Item>)
    requires pref != reg && pref.Valid() && reg.Valid() && pref.nodes !! reg.nodes
    modifies pref, pref.nodes
    ensures items == old(pref.items) + old(reg.items) && Linked(items)
    ensures Values(items) == old(Values(pref.items)) + old(Values(reg.items))
    ensures head == if |items| == 0 then null else items[0]
  {
    items := pref.items + reg.items;
    if pref.first == null {
      assert items == reg.items;
      return reg.first, items;
    }
    if reg.first == null {
      assert items == pref.items;
      return pref.first, items;
    }
    head := pref.first;
    pref.Join(reg);
  }

  // ----- what that means -----

  /** A broadcast address is found exactly when no interface before it lacks one. */
  lemma {:induction false} LocalIff(locals: seq<string>, bcast: string)
    ensures Local(locals, bcast) <==>
      DottedDecimal(bcast) && exists k :: 0 <= k < |locals| && locals[k] == bcast && forall j :: 0 <= j <= k ==> |locals[j]| > 0
  {
    if |locals| > 0 {
      var rest := locals[1..];
      LocalIff(rest, bcast);
      if Local(locals, bcast) && locals[0] != bcast {
        var k :| 0 <= k < |rest| && rest[k] == bcast && forall j :: 0 <= j <= k ==> |rest[j]| > 0;
        assert locals[k + 1] == bcast && forall j :: 0 <= j <= k + 1 ==> |locals[j]| > 0;
      }
      if k :| DottedDecimal(bcast) && 0 < k < |locals| && locals[k] == bcast && forall j :: 0 <= j <= k ==> |locals[j]| > 0 {
        assert rest[k - 1] == bcast && forall j :: 0 <= j <= k - 1 ==> |rest[j]| > 0;
      }
    }
  }

  /** A part of the list: those of one kind, the last first or in order. */
  ghost predicate PartOf(locals: seq<string>, preferred: Option<string>, items: seq<Address>, w: Where, r: seq<Address>, from: seq<nat>) {
    && |from| == |r|
    && (forall p :: 0 <= p < |r| ==> TakenAs(locals, preferred, items, w, r[p], from[p]))
    && (forall p, q :: 0 <= p < q < |r| ==> if w == Elsewhere then from[p] < from[q] else from[q] < from[p])
    && (forall i: nat :: i < |items| && DottedDecimal(items[i].addr) && Place(locals, preferred, items[i]) == w ==> i in from)
  }

  lemma InOrder(locals: seq<string>, preferred: Option<string>, items: seq<Address>)
    ensures PartOf(locals, preferred, items, Elsewhere, Those(locals, preferred, items, Elsewhere), Which(locals, preferred, items, Elsewhere))
  {
    WhichAre(locals, preferred, items, Elsewhere);
    WhichHas(locals, preferred, items, Elsewhere);
  }

  lemma TurnedPair(ks: seq<nat>, p: nat, q: nat)
    requires p < q < |ks| && forall i, j :: 0 <= i < j < |ks| ==> ks[i] < ks[j]
    ensures |Reverse(ks)| == |ks| && Reverse(ks)[q] < Reverse(ks)[p]
  {
    ReverseAt(ks, p);
    ReverseAt(ks, q);
  }

  lemma TurnedOne(locals: seq<string>, preferred: Option<string>, items: seq<Address>, w: Where,
                  those: seq<Address>, ks: seq<nat>, p: nat)
    requires p < |ks| == |those| && TakenAs(locals, preferred, items, w, those[|ks| - 1 - p], ks[|ks| - 1 - p])
    ensures |Reverse(ks)| == |Reverse(those)| == |ks|
    ensures TakenAs(locals, preferred, items, w, Reverse(those)[p], Reverse(ks)[p])
  {
    ReverseAt(ks, p);
    ReverseAt(those, p);
  }

  lemma Turned(locals: seq<string>, preferred: Option<string>, items: seq<Address>, w: Where, those: seq<Address>, ks: seq<nat>,
               rs: seq<Address>, js: seq<nat>)
    requires |ks| == |those| && rs == Reverse(those) && js == Reverse(ks)
    requires forall i :: 0 <= i < |ks| ==> TakenAs(locals, preferred, items, w, those[i], ks[i])
    requires forall i, j :: 0 <= i < j < |ks| ==> ks[i] < ks[j]
    ensures |rs| == |js| == |ks|
    ensures forall p :: 0 <= p < |rs| ==> TakenAs(locals, preferred, items, w, rs[p], js[p])
    ensures forall p, q :: 0 <= p < q < |rs| ==> js[q] < js[p]
  {
    ReverseLength(ks);
    ReverseLength(those);
    forall p | 0 <= p < |rs| ensures TakenAs(locals, preferred, items, w, rs[p], js[p]) {
      assert TakenAs(locals, preferred, items, w, those[|ks| - 1 - p], ks[|ks| - 1 - p]);
      TurnedOne(locals, preferred, items, w, those, ks, p);
    }
    forall p, q | 0 <= p < q < |rs| ensures js[q] < js[p] { TurnedPair(ks, p, q); }
  }

  lemma LastFirst(locals: seq<string>, preferred: Option<string>, items: seq<Address>, w: Where)
    requires w != Elsewhere
    ensures PartOf(locals, preferred, items, w, Reverse(Those(locals, preferred, items, w)), Reverse(Which(locals, preferred, items, w)))
  {
    var ks, those := Which(locals, preferred, items, w), Those(locals, preferred, items, w);
    WhichAre(locals, preferred, items, w);
    WhichHas(locals, preferred, items, w);
    Turned(locals, preferred, items, w, those, ks, Reverse(those), Reverse(ks));
    ReverseLength(ks);
  }

  lemma PlacesPrecede(locals: seq<string>, preferred: Option<string>, items: seq<Address>, i: nat, j: nat, v: Where, w: Where)
    requires i < |items| && j < |items|
    requires Place(locals, preferred, items[i]) == v && Place(locals, preferred, items[j]) == w
    requires v != w ==> v == Preferred || w == Elsewhere
    requires v == w ==> if w == Elsewhere then i < j else j < i
    ensures Precedes(locals, preferred, items, i, j)
  {
    RankIs(locals, preferred, items[i]);
    RankIs(locals, preferred, items[j]);
  }

  /** The three parts one after the other; here what is at one place. */
  function KindAt(x: seq<nat>, y: seq<nat>, p: nat): Where {
    if p < |x| then Preferred else if p < |x| + |y| then SameSubnet else Elsewhere
  }

  lemma OneOfParts(locals: seq<string>, preferred: Option<string>, items: seq<Address>,
                   a: seq<Address>, b: seq<Address>, c: seq<Address>, x: seq<nat>, y: seq<nat>, z: seq<nat>, p: nat)
    requires PartOf(locals, preferred, items, Preferred, a, x) && PartOf(locals, preferred, items, SameSubnet, b, y)
    requires PartOf(locals, preferred, items, Elsewhere, c, z) && p < |x| + |y| + |z|
    ensures TakenAs(locals, preferred, items, KindAt(x, y, p), (a + (b + c))[p], (x + (y + z))[p])
  {
    if p < |x| {
      assert TakenAs(locals, preferred, items, Preferred, a[p], x[p]);
    } else if p < |x| + |y| {
      assert TakenAs(locals, preferred, items, SameSubnet, b[p - |x|], y[p - |x|]);
    } else {
      assert TakenAs(locals, preferred, items, Elsewhere, c[p - |x| - |y|], z[p - |x| - |y|]);
    }
  }

  lemma TwoOfParts(locals: seq<string>, preferred: Option<string>, items: seq<Address>,
                   a: seq<Address>, b: seq<Address>, c: seq<Address>, x: seq<nat>, y: seq<nat>, z: seq<nat>, p: nat, q: nat)
    requires PartOf(locals, preferred, items, Preferred, a, x) && PartOf(locals, preferred, items, SameSubnet, b, y)
    requires PartOf(locals, preferred, items, Elsewhere, c, z) && p < q < |x| + |y| + |z|
    ensures var from := x + (y + z);
      from[p] < |items| && from[q] < |items| && Precedes(locals, preferred, items, from[p], from[q])
  {
    var from := x + (y + z);
    OneOfParts(locals, preferred, items, a, b, c, x, y, z, p);
    OneOfParts(locals, preferred, items, a, b, c, x, y, z, q);
    PlacesPrecede(locals, preferred, items, from[p], from[q], KindAt(x, y, p), KindAt(x, y, q));
  }

  lemma GoodIsIn(locals: seq<string>, preferred: Option<string>, items: seq<Address>,
                 a: seq<Address>, b: seq<Address>, c: seq<Address>, x: seq<nat>, y: seq<nat>, z: seq<nat>, i: nat)
    requires PartOf(locals, preferred, items, Preferred, a, x) && PartOf(locals, preferred, items, SameSubnet, b, y)
    requires PartOf(locals, preferred, items, Elsewhere, c, z) && i < |items| && 7 <= |items[i].addr| <= 15
    ensures i in x + (y + z)
  {
    assert i in x || i in y || i in z;
  }

  lemma PartsArranged(locals: seq<string>, preferred: Option<string>, items: seq<Address>,
                      a: seq<Address>, b: seq<Address>, c: seq<Address>, x: seq<nat>, y: seq<nat>, z: seq<nat>)
    requires PartOf(locals, preferred, items, Preferred, a, x) && PartOf(locals, preferred, items, SameSubnet, b, y)
    requires PartOf(locals, preferred, items, Elsewhere, c, z)
    ensures Arranged(locals, preferred, items, a + (b + c), x + (y + z))
  {
    var r, from := a + (b + c), x + (y + z);
    forall p | 0 <= p < |r| ensures from[p] < |items| && IsKept(items[from[p]], r[p]) {
      OneOfParts(locals, preferred, items, a, b, c, x, y, z, p);
    }
    forall i: nat | i < |items| && 7 <= |items[i].addr| <= 15 ensures i in from {
      GoodIsIn(locals, preferred, items, a, b, c, x, y, z, i);
    }
    forall p, q | 0 <= p < q < |r|
      ensures from[p] < |items| && from[q] < |items| && Precedes(locals, preferred, items, from[p], from[q])
    {
      TwoOfParts(locals, preferred, items, a, b, c, x, y, z, p, q);
    }
  }

  /** The order, place by place. */
  lemma OrderedArranges(locals: seq<string>, preferred: Option<string>, items: seq<Address>) returns (from: seq<nat>)
    ensures Arranged(locals, preferred, items, Ordered(locals, preferred, items), from)
  {
    var x, y := Reverse(Which(locals, preferred, items, Preferred)), Reverse(Which(locals, preferred, items, SameSubnet));
    var z := Which(locals, preferred, items, Elsewhere);
    LastFirst(locals, preferred, items, Preferred);
    LastFirst(locals, preferred, items, SameSubnet);
    InOrder(locals, preferred, items);
    from := x + (y + z);
    PartsArranged(locals, preferred, items, PreferredPart(locals, preferred, items),
                  Reverse(Those(locals, preferred, items, SameSubnet)), Those(locals, preferred, items, Elsewhere), x, y, z);
  }

  /** Every good address is returned once, and no other. */
  lemma OrderedHasAll(locals: seq<string>, preferred: Option<string>, items: seq<Address>)
    ensures multiset(Ordered(locals, preferred, items)) == multiset(Good(items))
  {
    var p, s, o := Those(locals, preferred, items, Preferred), Those(locals, preferred, items, SameSubnet), Those(locals, preferred, items, Elsewhere);
    ReversePermutes(p);
    ReversePermutes(s);
    ThosePartition(locals, preferred, items);
  }

  function Good(items: seq<Address>): seq<Address> {
    if |items| == 0 then []
    else Good(items[..|items| - 1]) + if DottedDecimal(items[|items| - 1].addr) then [Kept(items[|items| - 1])] else []
  }

  lemma {:induction false} ReversePermutes<T>(s: seq<T>)
    ensures multiset(Reverse(s)) == multiset(s)
  {
    if |s| > 0 {
      ReversePermutes(s[..|s| - 1]);
      assert s == s[..|s| - 1] + [s[|s| - 1]];
    }
  }

  lemma {:induction false} ThosePartition(locals: seq<string>, preferred: Option<string>, items: seq<Address>)
    ensures multiset(Good(items)) == multiset(Those(locals, preferred, items, Preferred))
              + multiset(Those(locals, preferred, items, SameSubnet)) + multiset(Those(locals, preferred, items, Elsewhere))
  {
    if |items| > 0 { ThosePartition(locals, preferred, items[..|items| - 1]); }
  }

  lemma {:induction false} CountedIff(locals: seq<string>, preferred: Option<string>, items: seq<Address>)
    ensures PreferredCount(locals, preferred, items) > 0 <==>
              exists i :: 0 <= i < |items| && Place(locals, preferred, items[i]) == Preferred
    ensures |Those(locals, preferred, items, Preferred)| > 0 <==>
              exists i :: 0 <= i < |items| && Place(locals, preferred, items[i]) == Preferred && DottedDecimal(items[i].addr)
  {
    if |items| > 0 { CountedIff(locals, preferred, items[..|items| - 1]); }
  }

  lemma NoneMatchesIff(locals: seq<string>, preferred: Option<string>, items: seq<Address>)
    ensures PreferredCount(locals, preferred, items) == 0 <==>
      forall i :: 0 <= i < |items| ==> Rank(locals, preferred, items[i]) > 0
  {
    CountedIff(locals, preferred, items);
    forall i | 0 <= i < |items| ensures Rank(locals, preferred, items[i]) > 0 <==> Place(locals, preferred, items[i]) != Preferred {
      RankIs(locals, preferred, items[i]);
    }
  }

  /** The match reported is one that was returned, exactly when some item on the preferred
      subnet has a good address or none is on it. */
  lemma MatchIsReturnedIff(locals: seq<string>, preferred: Option<string>, items: seq<Address>)
    ensures (PreferredCount(locals, preferred, items) > 0 <==> |Those(locals, preferred, items, Preferred)| > 0) <==>
      ((exists i :: 0 <= i < |items| && Place(locals, preferred, items[i]) == Preferred) ==>
        exists i :: 0 <= i < |items| && Place(locals, preferred, items[i]) == Preferred && DottedDecimal(items[i].addr))
  {
    CountedIff(locals, preferred, items);
  }

  /** An item on the preferred subnet without a proper address is counted as a match, but
      is not returned. */
  lemma FaultyMatch()
    ensures var items := [Address("", "10.0.0.255")];
      && PreferredCount(["10.0.0.255"], Some("10.0.0.255"), items) == 1
      && Ordered(["10.0.0.255"], Some("10.0.0.255"), items) == []
  {
    var items := [Address("", "10.0.0.255")];
    assert items[..0] == [];
    assert Local(["10.0.0.255"], "10.0.0.255");
  }
}
