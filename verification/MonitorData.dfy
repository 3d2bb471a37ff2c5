/** What an ET system reports of itself (et_data.c): the two passes over its tables and
    its station chain, and the routines that write and read the records. */
module MonitorData {
  import opened Wire

  // ----- reading -----

  method ReadInts(buf: seq<Byte>, pos: nat, n: nat) returns (ints: seq<U32>)
    ensures ints == Ints(buf, pos, n)
  {
    ints := [];
    for i := 0 to n
      invariant ints == Ints(buf, pos, i)
    {
      IntsGrow(buf, pos, i);
      ints := ints + [WordAt(buf, pos + 4 * i)];
    }
  }

  method ReadStrs(buf: seq<Byte>, pos: nat, lens: seq<U32>) returns (strs: seq<Str>, next: nat)
    ensures strs == Strs(buf, pos, lens) && next == pos + Total(lens)
  {
    strs, next := [], pos;
    for i := 0 to |lens|
      invariant strs == Strs(buf, pos, lens[..i]) && next == pos + Total(lens[..i])
    {
      assert lens[..i + 1][..i] == lens[..i];
      strs := strs + [CStr(buf, next, lens[i])];
      next := next + lens[i];
    }
    assert lens[..|lens|] == lens;
  }

  /** The words and strings of one record. */
  method ReadRec(buf: seq<Byte>, pos: nat, n: nat, k: nat) returns (r: Raw)
    ensures r == GetRec(buf, pos, n, k)
  {
    var ints := ReadInts(buf, pos, n + k);
    var strs, next := ReadStrs(buf, pos + 4 * (n + k), ints[n..]);
    r := Raw(ints[..n], strs, next);
  }

  /** The table of attachments: all -1, then the ones that were sent. */
  method ReadTable(ws: seq<U32>) returns (t: Table)
    ensures t == Expand(ws)
  {
    t := Empty();
    for i := 0 to |ws|
      invariant t == Expand(ws[..i])
    {
      assert ws[..i + 1][..i] == ws[..i];
      t := Entered(t, ws[i]);
    }
    assert ws[..|ws|] == ws;
  }

  /** The loop of et_data_getatt and its like. */
  method ReadMany<T>(c: Codec<T>, buf: seq<Byte>, pos: nat, count: nat) returns (items: seq<T>, next: nat)
    ensures (items, next) == Many(c, buf, pos, count)
  {
    items, next := [], pos;
    for i := 0 to count
      invariant (items, next) == Many(c, buf, pos, i)
    {
      var one := c.get(buf, next);
      items, next := items + [one.0], one.1;
    }
  }

  /** et_data_get, once the message is there. */
  method DataGet(f: Format, buf: seq<Byte>) returns (m: Message, next: nat)
    ensures (m, next) == f.Get(buf, 0)
  {
    var sys := f.sys.get(buf, 0);
    var stats, atts, procs;
    stats, next := ReadMany(f.stat, buf, sys.1 + 4, WordAt(buf, sys.1));
    atts, next := ReadMany(f.att, buf, next + 4, WordAt(buf, next));
    procs, next := ReadMany(f.proc, buf, next + 4, WordAt(buf, next));
    m := Message(sys.0, stats, atts, procs);
  }

  /** What et_data_get makes of a message of the ET format is what was sent, and it reads
      exactly to the end. */
  method Received(buf: seq<Byte>, ghost sent: Message) returns (m: Message)
    requires sent.Countable() && buf == EtFormat().Enc(sent)
    ensures m == sent
  {
    var f, next := EtFormat(), 0;
    m, next := DataGet(f, buf);
    EtFaithful();
    assert buf[0..|buf|] == buf;
    MessageBack(f, buf, 0, sent);
    assert next == |buf|;
  }

  // ----- writing -----

  method WriteRec(ws: seq<U32>, strs: seq<Str>) returns (buf: seq<Byte>)
    ensures buf == Rec(ws, strs)
  {
    var ints := ws;
    for i := 0 to |strs|
      invariant ints == ws + Lens(strs[..i])
    {
      assert Lens(strs[..i + 1]) == Lens(strs[..i]) + [Len(strs[i])];
      ints := ints + [Len(strs[i])];
    }
    assert strs[..|strs|] == strs;
    buf := [];
    for i := 0 to |ints|
      invariant buf == Words(ints[..i])
    {
      assert ints[..i + 1][..i] == ints[..i];
      buf := buf + Bytes4(ints[i]);
    }
    assert ints[..|ints|] == ints;
    for i := 0 to |strs|
      invariant buf == Words(ints) + AllZ(strs[..i])
    {
      assert strs[..i + 1][..i] == strs[..i];
      buf := buf + Z(strs[i]);
    }
  }

  /** The attachments of a table, the empty entries left out. */
  method WriteTable(t: Table) returns (ws: seq<U32>)
    ensures ws == Compact(t, ATTACHMENTS_MAX)
  {
    ws := [];
    for i := 0 to ATTACHMENTS_MAX
      invariant ws == Compact(t, i)
    {
      if t[i] >= 0 { ws := ws + [t[i]]; }
    }
  }

  // ----- the records of each kind -----

  method WriteStat(s: StatData) returns (buf: seq<Byte>)
    ensures buf == StatForm().Enc(s)
  {
    var atts := WriteTable(s.att);
    buf := WriteRec([|atts|, W(s.num), W(s.status), W(s.mutex)] + (atts + StatRest(s)), StatStrs(s));
  }

  method StatRead(ws: seq<U32>, strs: seq<Str>) returns (s: StatData)
    ensures s == StatFrom(ws, strs)
  {
    if |ws| < 4 + N(ws, 0) { return StatOf(0, 0, 0, Empty(), [], []); }
    var natts: nat := ws[0];
    var k := 4 + natts;
    var att := ReadTable(ws[4..k]);
    s := StatOf(ws[1], ws[2], ws[3], att, ws[k..], strs);
  }

  method ReadStat(buf: seq<Byte>, pos: nat) returns (s: StatData, next: nat)
    ensures (s, next) == StatForm().Get(buf, pos)
  {
    var natts: nat := WordAt(buf, pos);
    var r := ReadRec(buf, pos, 27 + natts, 4);
    s := StatRead(r.words, r.strs);
    next := r.next;
  }

  method WriteProc(p: ProcData) returns (buf: seq<Byte>)
    ensures buf == ProcForm().Enc(p)
  {
    var atts := WriteTable(p.att);
    buf := WriteRec([|atts|, W(p.num), W(p.heartbeat), W(p.pid)] + atts, []);
  }

  method ReadProc(buf: seq<Byte>, pos: nat) returns (p: ProcData, next: nat)
    ensures (p, next) == ProcForm().Get(buf, pos)
  {
    var r := ReadRec(buf, pos, 4 + WordAt(buf, pos), 0);
    var att := ReadTable(r.words[4..]);
    p, next := ProcData(S(r.words[1]), S(r.words[2]), S(r.words[3]), att), r.next;
  }

  // ----- two passes over a table that may change between them -----

  datatype Slot<T> = Unused | Used(data: T)

  function UsedIn<T>(slots: seq<Slot<T>>): seq<T> {
    if |slots| == 0 then []
    else UsedIn(slots[..|slots| - 1]) + if slots[|slots| - 1].Used? then [slots[|slots| - 1].data] else []
  }

  function AtMost<T>(items: seq<T>, n: nat): (r: seq<T>)
    ensures |r| <= n
  {
    if |items| <= n then items else items[..n]
  }

  method CountUsed<T>(slots: array<Slot<T>>) returns (count1: nat)
    ensures count1 == |UsedIn(slots[..])|
  {
    count1 := 0;
    for i := 0 to slots.Length
      invariant count1 == |UsedIn(slots[..i])|
    {
      assert slots[..i + 1][..i] == slots[..i];
      if slots[i].Used? { count1 := count1 + 1; }
    }
    assert slots[..slots.Length] == slots[..];
  }

  lemma UsedMore<T>(slots: seq<Slot<T>>, i: nat)
    requires i < |slots|
    ensures UsedIn(slots[..i + 1]) == if slots[i].Used? then UsedIn(slots[..i]) + [slots[i].data] else UsedIn(slots[..i])
  {
    assert slots[..i + 1][..i] == slots[..i];
    assert UsedIn(slots[..i]) + [] == UsedIn(slots[..i]);
  }

  lemma {:induction false} UsedPrefix<T>(slots: seq<Slot<T>>, i: nat)
    requires i <= |slots|
    ensures UsedIn(slots[..i]) <= UsedIn(slots)
    decreases |slots|
  {
    if i < |slots| {
      UsedPrefix(slots[..|slots| - 1], i);
      assert slots[..|slots| - 1][..i] == slots[..i];
    } else {
      assert slots[..i] == slots;
    }
  }

  /** Those are all the slots in use, in their order. */
  lemma {:induction false} UsedAre<T>(slots: seq<Slot<T>>) returns (at: seq<nat>)
    ensures |at| == |UsedIn(slots)| && forall k, l :: 0 <= k < l < |at| ==> at[k] < at[l]
    ensures forall k :: 0 <= k < |at| ==> at[k] < |slots| && slots[at[k]] == Used(UsedIn(slots)[k])
    ensures forall i: nat :: i < |slots| && slots[i].Used? ==> i in at
  {
    if |slots| == 0 {
      at := [];
    } else {
      var n := |slots| - 1;
      at := UsedAre(slots[..n]);
      ghost var front := at;
      if slots[n].Used? { at := at + [n]; }
      forall i: nat | i < |slots| && slots[i].Used? ensures i in at {
        if i < n { assert slots[..n][i] == slots[i] && i in front; }
      }
    }
  }

  lemma CatMore<T>(c: Codec<T>, items: seq<T>, x: T)
    ensures Cat(c, items + [x]) == Cat(c, items) + c.enc(x)
  {
    assert (items + [x])[..|items|] == items;
  }

  /** The second pass, which writes no more records than were counted. count2 says how
      many it wrote, or one more when it found more than that. */
  method FillUsed<T>(c: Codec<T>, slots: array<Slot<T>>, count1: nat) returns (buf: seq<Byte>, count2: nat)
    ensures var used := UsedIn(slots[..]);
      buf == Cat(c, AtMost(used, count1)) && count2 == if |used| <= count1 then |used| else count1 + 1
  {
    buf, count2 := [], 0;
    for i := 0 to slots.Length
      invariant count2 == |UsedIn(slots[..i])| <= count1 && buf == Cat(c, UsedIn(slots[..i]))
    {
      UsedMore(slots[..], i);
      assert slots[..][..i] == slots[..i] && slots[..][..i + 1] == slots[..i + 1];
      if slots[i].Unused? { continue; }
      count2 := count2 + 1;
      UsedPrefix(slots[..], i);
      UsedPrefix(slots[..], i + 1);
      if count2 > count1 {
        assert AtMost(UsedIn(slots[..]), count1) == UsedIn(slots[..i]);
        return;
      }
      CatMore(c, UsedIn(slots[..i]), slots[i].data);
      buf := buf + c.enc(slots[i].data);
    }
    assert slots[..slots.Length] == slots[..];
  }

  /** Put the count in front of the records, and correct it if fewer were written. */
  method Fronted(records: seq<Byte>, count1: nat, count2: nat) returns (buf: seq<Byte>)
    requires count1 < 0x1_0000_0000
    ensures buf == Words([if count2 < count1 then count2 else count1]) + records
  {
    var count: U32 := count1;
    buf := Words([count]) + records;
    if count2 < count1 {
      count := count2;
      buf := Words([count]) + buf[4..];
    }
  }

  /** et_data_atts and et_data_procs. Whatever has appeared or vanished in the table after
      the first pass, the message is well formed: the count in front is the number of
      records that follow, and no more than were counted at first. */
  method DataSlots<T>(c: Codec<T>, before: array<Slot<T>>, after: array<Slot<T>>) returns (buf: seq<Byte>)
    requires before.Length < 0x1_0000_0000
    ensures |AtMost(UsedIn(after[..]), |UsedIn(before[..])|)| < 0x1_0000_0000
    ensures buf == EncMany(c, AtMost(UsedIn(after[..]), |UsedIn(before[..])|))
  {
    var count1 := CountUsed(before);
    FewUsed(before[..]);
    var records, count2 := FillUsed(c, after, count1);
    buf := Fronted(records, count1, count2);
  }

  lemma {:induction false} FewUsed<T>(slots: seq<Slot<T>>)
    ensures |UsedIn(slots)| <= |slots|
  {
    if |slots| > 0 { FewUsed(slots[..|slots| - 1]); }
  }

  // ----- the station chain -----

  const SERIAL: I32 := 0
  const PARALLEL: I32 := 1
  const PARALLEL_HEAD: I32 := 2

  /** The stations and their links, as they are at one time. */
  datatype Stations = Stations(data: seq<StatData>, next: seq<int>, nextparallel: seq<int>) {
    predicate Sized() { |next| == |data| && |nextparallel| == |data| }
  }

  ghost predicate InRange(s: Stations, group: seq<nat>) {
    |group| > 0 && forall j :: 0 <= j < |group| ==> group[j] < |s.data|
  }

  /** One station, or a parallel one with those chained behind it. */
  ghost predicate Group(s: Stations, group: seq<nat>)
    requires s.Sized()
  {
    && InRange(s, group)
    && (s.data[group[0]].flowMode != PARALLEL ==> |group| == 1)
    && (s.data[group[0]].flowMode == PARALLEL ==>
          && (forall j :: 0 <= j < |group| ==> s.data[group[j]].flowMode == PARALLEL)
          && (forall j :: 0 <= j < |group| - 1 ==> s.nextparallel[group[j]] == group[j + 1])
          && s.nextparallel[group[|group| - 1]] <= -1)
  }

  /** The main chain starts at GrandCentral and runs through the heads of the groups. */
  ghost predicate Chain(s: Stations, groups: seq<seq<nat>>)
    requires s.Sized()
  {
    && |groups| > 0 && (forall g :: 0 <= g < |groups| ==> Group(s, groups[g]))
    && groups[0][0] == 0
    && (forall g :: 0 <= g < |groups| - 1 ==> s.next[groups[g][0]] == groups[g + 1][0])
    && s.next[groups[|groups| - 1][0]] < 0
  }

  /** What is sent of station j of a group: the head of a parallel group is marked. */
  function Marked(s: Stations, group: seq<nat>, j: nat): StatData
    requires j < |group| && group[j] < |s.data|
  {
    var d := s.data[group[j]];
    if d.flowMode == PARALLEL && j == 0 then d.(flowMode := PARALLEL_HEAD) else d
  }

  ghost function MarkedGroup(s: Stations, group: seq<nat>): (r: seq<StatData>)
    requires InRange(s, group)
    ensures |r| == |group|
  {
    seq(|group|, j requires 0 <= j < |group| => Marked(s, group, j))
  }

  /** All stations in the order of the chain, each parallel group together. */
  ghost predicate AllInRange(s: Stations, groups: seq<seq<nat>>) {
    forall g :: 0 <= g < |groups| ==> InRange(s, groups[g])
  }

  ghost function MarkedGroups(s: Stations, groups: seq<seq<nat>>): (r: seq<seq<StatData>>)
    requires AllInRange(s, groups)
    ensures |r| == |groups|
  {
    seq(|groups|, g requires 0 <= g < |groups| => MarkedGroup(s, groups[g]))
  }

  ghost function Flat(s: Stations, groups: seq<seq<nat>>): seq<StatData>
    requires AllInRange(s, groups)
  {
    if |groups| == 0 then [] else Flat(s, groups[..|groups| - 1]) + MarkedGroup(s, groups[|groups| - 1])
  }

  /** How many stations come before group g. */
  function Before(groups: seq<seq<nat>>, g: nat): nat
    requires g <= |groups|
  { if g == 0 then 0 else Before(groups, g - 1) + |groups[g - 1]| }

  /** r is what a monitor is told of station d. Flow mode 2 says of a parallel station (1) that
      it is the first of its group; all else is told as it is. */
  predicate Tells(d: StatData, r: StatData, first: bool) {
    && r.(flowMode := d.flowMode) == d
    && (r.flowMode != d.flowMode ==> r.flowMode == 2)
    && (d.flowMode != 2 ==> (r.flowMode == 2 <==> d.flowMode == 1 && first))
  }

  /** The stations of all groups are told of, one after the other. */
  ghost predicate TellsAll(s: Stations, groups: seq<seq<nat>>, rs: seq<StatData>) {
    && |rs| == Before(groups, |groups|)
    && forall g, j :: 0 <= g < |groups| && 0 <= j < |groups[g]| ==> TellsOf(s, groups, rs, g, j)
  }

  predicate TellsOf(s: Stations, groups: seq<seq<nat>>, rs: seq<StatData>, g: nat, j: nat)
    requires g < |groups| && j < |groups[g]|
  {
    && groups[g][j] < |s.data| && Before(groups, g) + j < |rs|
    && Tells(s.data[groups[g][j]], rs[Before(groups, g) + j], j == 0)
  }

  lemma {:induction false} BeforeSame(groups: seq<seq<nat>>, n: nat, g: nat)
    requires g <= n <= |groups|
    ensures Before(groups[..n], g) == Before(groups, g)
  {
    if g > 0 { BeforeSame(groups, n, g - 1); }
  }

  lemma LastTells(s: Stations, groups: seq<seq<nat>>, j: nat)
    requires AllInRange(s, groups) && |groups| > 0 && j < |groups[|groups| - 1]|
    requires |Flat(s, groups[..|groups| - 1])| == Before(groups, |groups| - 1)
    ensures TellsOf(s, groups, Flat(s, groups), |groups| - 1, j)
  {
    assert InRange(s, groups[|groups| - 1]);
  }

  lemma EarlierTells(s: Stations, groups: seq<seq<nat>>, g: nat, j: nat)
    requires AllInRange(s, groups) && g < |groups| - 1 && j < |groups[g]|
    requires TellsOf(s, groups[..|groups| - 1], Flat(s, groups[..|groups| - 1]), g, j)
    ensures TellsOf(s, groups, Flat(s, groups), g, j)
  {
    BeforeSame(groups, |groups| - 1, g);
  }

  lemma {:induction false} FlatTells(s: Stations, groups: seq<seq<nat>>)
    requires AllInRange(s, groups)
    ensures TellsAll(s, groups, Flat(s, groups))
  {
    if |groups| > 0 {
      var n := |groups| - 1;
      var front := groups[..n];
      FlatTells(s, front);
      BeforeSame(groups, n, n);
      forall g, j | 0 <= g < |groups| && 0 <= j < |groups[g]| ensures TellsOf(s, groups, Flat(s, groups), g, j) {
        if g < n {
          assert TellsOf(s, front, Flat(s, front), g, j);
          EarlierTells(s, groups, g, j);
        } else {
          LastTells(s, groups, j);
        }
      }
    }
  }

  /** The two-level chain, from what was sent. */
  function Rebuild(rs: seq<StatData>): (r: seq<seq<StatData>>)
    ensures |rs| > 0 ==> |r| > 0
  {
    if |rs| == 0 then []
    else
      var front, last := Rebuild(rs[..|rs| - 1]), rs[|rs| - 1];
      if last.flowMode == PARALLEL && |front| > 0 then front[|front| - 1 := front[|front| - 1] + [last]]
      else front + [[last]]
  }

  lemma {:induction false} RebuildGroup(s: Stations, before: seq<StatData>, group: seq<nat>, k: nat)
    requires s.Sized() && Group(s, group) && 0 < k <= |group|
    ensures Rebuild(before + MarkedGroup(s, group)[..k]) == Rebuild(before) + [MarkedGroup(s, group)[..k]]
  {
    var ms := MarkedGroup(s, group);
    var rs := before + ms[..k];
    assert rs[|rs| - 1] == ms[k - 1] && ms[..k] == ms[..k - 1] + [ms[k - 1]];
    assert rs[..|rs| - 1] == before + ms[..k - 1];
    if k == 1 {
      assert before + ms[..0] == before;
      assert [ms[0]] == ms[..1];
    } else {
      RebuildGroup(s, before, group, k - 1);
    }
  }

  lemma RebuildOne(s: Stations, before: seq<StatData>, group: seq<nat>)
    requires s.Sized() && Group(s, group)
    ensures Rebuild(before + MarkedGroup(s, group)) == Rebuild(before) + [MarkedGroup(s, group)]
  {
    RebuildGroup(s, before, group, |group|);
    assert MarkedGroup(s, group)[..|group|] == MarkedGroup(s, group);
  }

  lemma MarkedMore(s: Stations, groups: seq<seq<nat>>)
    requires AllInRange(s, groups) && |groups| > 0
    ensures AllInRange(s, groups[..|groups| - 1])
    ensures MarkedGroups(s, groups) == MarkedGroups(s, groups[..|groups| - 1]) + [MarkedGroup(s, groups[|groups| - 1])]
  {
  }

  /** The mark on the heads lets the chain be rebuilt from the flat list. */
  lemma {:induction false} RebuildFlat(s: Stations, groups: seq<seq<nat>>)
    requires s.Sized() && AllInRange(s, groups) && forall g :: 0 <= g < |groups| ==> Group(s, groups[g])
    ensures Rebuild(Flat(s, groups)) == MarkedGroups(s, groups)
  {
    if |groups| > 0 {
      var front, last := groups[..|groups| - 1], groups[|groups| - 1];
      MarkedMore(s, groups);
      RebuildFlat(s, front);
      RebuildOne(s, Flat(s, front), last);
    }
  }

  /** So two chains that look the same to a monitor have the same groups. */
  lemma ChainUnique(s: Stations, groups: seq<seq<nat>>, t: Stations, others: seq<seq<nat>>)
    requires s.Sized() && t.Sized() && Chain(s, groups) && Chain(t, others)
    requires AllInRange(s, groups) && AllInRange(t, others) && Flat(s, groups) == Flat(t, others)
    ensures MarkedGroups(s, groups) == MarkedGroups(t, others)
  {
    RebuildFlat(s, groups);
    RebuildFlat(t, others);
  }

  // ----- walking the chain -----

  lemma FlatMore(s: Stations, groups: seq<seq<nat>>, g: nat)
    requires AllInRange(s, groups) && g < |groups|
    ensures AllInRange(s, groups[..g]) && AllInRange(s, groups[..g + 1])
    ensures Flat(s, groups[..g + 1]) == Flat(s, groups[..g]) + MarkedGroup(s, groups[g])
  {
    assert groups[..g + 1][..g] == groups[..g];
  }

  lemma {:induction false} FlatPrefix(s: Stations, groups: seq<seq<nat>>, g: nat)
    requires AllInRange(s, groups) && g <= |groups|
    ensures AllInRange(s, groups[..g]) && Flat(s, groups[..g]) <= Flat(s, groups)
    decreases |groups|
  {
    if g < |groups| {
      FlatPrefix(s, groups[..|groups| - 1], g);
      assert groups[..|groups| - 1][..g] == groups[..g];
    } else {
      assert groups[..g] == groups;
    }
  }

  /** The stations before station j of group g. */
  ghost function FlatTo(s: Stations, groups: seq<seq<nat>>, g: nat, j: nat): (r: seq<StatData>)
    requires AllInRange(s, groups) && g < |groups| && j <= |groups[g]|
    ensures r <= Flat(s, groups)
  {
    FlatMore(s, groups, g);
    FlatPrefix(s, groups, g + 1);
    Flat(s, groups[..g]) + MarkedGroup(s, groups[g])[..j]
  }

  lemma NextInGroup(s: Stations, groups: seq<seq<nat>>, g: nat, j: nat)
    requires AllInRange(s, groups) && g < |groups| && j < |groups[g]|
    ensures FlatTo(s, groups, g, j + 1) == FlatTo(s, groups, g, j) + [Marked(s, groups[g], j)]
    ensures |FlatTo(s, groups, g, j)| < |Flat(s, groups)|
  {
    var ms := MarkedGroup(s, groups[g]);
    assert ms[..j + 1] == ms[..j] + [ms[j]];
    assert FlatTo(s, groups, g, j + 1) <= Flat(s, groups);
  }

  lemma NextGroup(s: Stations, groups: seq<seq<nat>>, g: nat)
    requires AllInRange(s, groups) && g < |groups|
    ensures g + 1 < |groups| ==> FlatTo(s, groups, g + 1, 0) == FlatTo(s, groups, g, |groups[g]|)
    ensures g + 1 == |groups| ==> Flat(s, groups) == FlatTo(s, groups, g, |groups[g]|)
  {
    FlatMore(s, groups, g);
    var ms := MarkedGroup(s, groups[g]);
    assert ms[..|ms|] == ms;
    if g + 1 < |groups| {
      assert MarkedGroup(s, groups[g + 1])[..0] == [];
    } else {
      assert groups[..g + 1] == groups;
    }
  }

  /** The link that ends a group is its last one. */
  lemma GroupEnds(s: Stations, group: seq<nat>, j: nat)
    requires s.Sized() && Group(s, group) && j < |group|
    requires s.data[group[j]].flowMode == PARALLEL ==> s.nextparallel[group[j]] <= -1
    ensures j + 1 == |group|
  {
    if s.data[group[0]].flowMode == PARALLEL {
      forall k | 0 <= k < |group| - 1 ensures s.nextparallel[group[k]] > -1 {
        assert s.nextparallel[group[k]] == group[k + 1];
      }
    }
  }

  /** The first pass of et_data_stats. */
  method CountStations(s: Stations, ghost groups: seq<seq<nat>>) returns (count1: nat)
    requires s.Sized() && AllInRange(s, groups) && Chain(s, groups)
    ensures count1 == |Flat(s, groups)|
  {
    var ps := 0;
    ghost var g := 0;
    count1 := 0;
    while true
      invariant g < |groups| && ps == groups[g][0] && count1 == |FlatTo(s, groups, g, 0)|
      decreases |groups| - g
    {
      assert Group(s, groups[g]);
      NextInGroup(s, groups, g, 0);
      count1 := count1 + 1;
      ghost var j := 0;
      if s.data[ps].flowMode == PARALLEL {
        var pstat := ps;
        while s.nextparallel[pstat] > -1
          invariant j < |groups[g]| && pstat == groups[g][j] && count1 == |FlatTo(s, groups, g, j + 1)|
          decreases |groups[g]| - j
        {
          pstat := s.nextparallel[pstat];
          j := j + 1;
          NextInGroup(s, groups, g, j);
          count1 := count1 + 1;
        }
      }
      GroupEnds(s, groups[g], j);
      NextGroup(s, groups, g);
      if s.next[ps] < 0 { break; }
      ps := s.next[ps];
      g := g + 1;
    }
  }

  /** Station ps is station j of group g, whose head is pstat. */
  ghost predicate IsAt(s: Stations, groups: seq<seq<nat>>, g: nat, j: nat, ps: nat, pstat: nat, parallelHead: bool) {
    && g < |groups| && j < |groups[g]| && ps == groups[g][j] && pstat == groups[g][0]
    && (parallelHead <==> j == 0)
  }

  /** A station is followed by the next one parallel to it, or by the one after the head
      of its group. */
  method Follow(s: Stations, ps0: nat, pstat0: nat, parallelHead0: bool, ghost groups: seq<seq<nat>>, ghost g0: nat, ghost j0: nat)
    returns (more: bool, ps: nat, pstat: nat, parallelHead: bool, ghost g: nat, ghost j: nat)
    requires s.Sized() && AllInRange(s, groups) && Chain(s, groups) && IsAt(s, groups, g0, j0, ps0, pstat0, parallelHead0)
    ensures more ==> IsAt(s, groups, g, j, ps, pstat, parallelHead) && FlatTo(s, groups, g, j) == FlatTo(s, groups, g0, j0 + 1)
    ensures !more ==> Flat(s, groups) == FlatTo(s, groups, g0, j0 + 1)
  {
    assert Group(s, groups[g0]);
    more, ps, pstat, parallelHead, g, j := true, ps0, pstat0, parallelHead0, g0, j0;
    if s.data[ps].flowMode == PARALLEL {
      parallelHead := false;
      if s.nextparallel[ps] > -1 {
        ps := s.nextparallel[ps];
        j := j + 1;
        return;
      }
      parallelHead := true;
    }
    GroupEnds(s, groups[g], j);
    NextGroup(s, groups, g);
    if s.next[pstat] < 0 { return false, ps, pstat, parallelHead, g, j; }
    ps := s.next[pstat];
    pstat := ps;
    g, j := g + 1, 0;
  }

  /** The second pass. */
  method FillStations(c: Codec<StatData>, s: Stations, count1: nat, ghost groups: seq<seq<nat>>)
    returns (buf: seq<Byte>, count2: nat)
    requires s.Sized() && AllInRange(s, groups) && Chain(s, groups)
    ensures var flat := Flat(s, groups);
      buf == Cat(c, AtMost(flat, count1)) && count2 == if |flat| <= count1 then |flat| else count1 + 1
    ensures TellsAll(s, groups, Flat(s, groups))
  {
    FlatTells(s, groups);
    var ps: nat, pstat: nat, parallelHead, more := 0, 0, true, true;
    ghost var g, j := 0, 0;
    buf, count2 := [], 0;
    while more
      invariant more ==> IsAt(s, groups, g, j, ps, pstat, parallelHead)
      invariant more ==> count2 == |FlatTo(s, groups, g, j)| <= count1 && buf == Cat(c, FlatTo(s, groups, g, j))
      invariant !more ==> count2 == |Flat(s, groups)| <= count1 && buf == Cat(c, Flat(s, groups))
      decreases if more then |Flat(s, groups)| - count2 + 1 else 0
    {
      NextInGroup(s, groups, g, j);
      ghost var sofar := FlatTo(s, groups, g, j);
      count2 := count2 + 1;
      if count2 > count1 {
        assert AtMost(Flat(s, groups), count1) == sofar;
        break;
      }
      var d := s.data[ps];
      if d.flowMode == PARALLEL && parallelHead { d := d.(flowMode := PARALLEL_HEAD); }
      CatMore(c, sofar, d);
      buf := buf + c.enc(d);
      more, ps, pstat, parallelHead, g, j := Follow(s, ps, pstat, parallelHead, groups, g, j);
    }
  }

  /** et_data_stats. The chain may be another one when the second pass starts. Then the
      count in front is still the number of records, and the records are the chain's as
      far as they fit the first count. */
  method DataStats(c: Codec<StatData>, before: Stations, after: Stations,
                   ghost groups: seq<seq<nat>>, ghost later: seq<seq<nat>>) returns (buf: seq<Byte>)
    requires before.Sized() && AllInRange(before, groups) && Chain(before, groups)
    requires after.Sized() && AllInRange(after, later) && Chain(after, later)
    requires |Flat(before, groups)| < 0x1_0000_0000
    ensures buf == EncMany(c, AtMost(Flat(after, later), |Flat(before, groups)|))
    ensures TellsAll(after, later, Flat(after, later)) && |Flat(before, groups)| == Before(groups, |groups|)
  {
    FlatTells(before, groups);
    var count1 := CountStations(before, groups);
    var records, count2 := FillStations(c, after, count1, later);
    buf := Fronted(records, count1, count2);
  }
}
